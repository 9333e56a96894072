/**
 * The preview dialog of components/FileViewer.tsx: what `loadFileContent`
 * puts in `fileContent` and `error` for a file, the reset on closing, the
 * effect that reloads when the dialog opens or the file's name changes, and
 * which view `renderFileContent` picks from that state.
 */
module FileViewer {
  import opened Wrappers
  import Text
  import Desk

  const TextExtensions: set<string> := {"txt", "md", "json", "js", "ts", "css", "html"}
  const ImageExtensions: set<string> := {"jpg", "jpeg", "png", "gif", "webp"}
  const UnsupportedMessage: string := "File type not supported for preview"

  /** What a file's extension lets the viewer show. */
  datatype Preview = TextPreview | ImagePreview | PdfPreview | NoPreview

  /** The classification in `loadFileContent`, tests in source order. */
  function Classify(extension: string): (k: Preview)
    ensures k == TextPreview <==> extension in TextExtensions
    ensures k == ImagePreview <==> extension !in TextExtensions && extension in ImageExtensions
    ensures k == PdfPreview <==> extension !in TextExtensions && extension !in ImageExtensions && extension == "pdf"
  {
    if extension in TextExtensions then TextPreview
    else if extension in ImageExtensions then ImagePreview
    else if extension == "pdf" then PdfPreview
    else NoPreview
  }

  /** The fixed parts of the simulated text preview. */
  const PreviewIntro: string := "This is a preview of "
  const TypeCaption: string := "\n\nFile Type: "
  const SizeCaption: string := "\nSize: "
  const DateCaption: string := "\nDate: "
  const PreviewOutro: string := "\n\nIn a real implementation, this would show the actual file content."

  /** The simulated text shown for a text file. */
  function PreviewText(file: Desk.FileData): string {
    PreviewIntro + (file.name + (TypeCaption + (file.fileType + (SizeCaption + (file.size + (DateCaption + (file.date + PreviewOutro)))))))
  }

  /** The text preview names the file and shows its type, size and date. */
  lemma PreviewMentionsTheFile(file: Desk.FileData)
    ensures var p := PreviewText(file);
      Text.Includes(p, file.name) && Text.Includes(p, file.fileType)
      && Text.Includes(p, file.size) && Text.Includes(p, file.date)
  {
    var t7 := file.date + PreviewOutro;
    var t6 := DateCaption + t7;
    var t5 := file.size + t6;
    var t4 := SizeCaption + t5;
    var t3 := file.fileType + t4;
    var t2 := TypeCaption + t3;
    var t1 := file.name + t2;
    Text.IncludesStart(file.date, PreviewOutro);
    Text.IncludesLater(DateCaption, t7, file.date);
    Text.IncludesStart(file.size, t6);
    Text.IncludesLater(file.size, t6, file.date);
    Text.IncludesLater(SizeCaption, t5, file.date);
    Text.IncludesLater(SizeCaption, t5, file.size);
    Text.IncludesStart(file.fileType, t4);
    Text.IncludesLater(file.fileType, t4, file.date);
    Text.IncludesLater(file.fileType, t4, file.size);
    Text.IncludesLater(TypeCaption, t3, file.date);
    Text.IncludesLater(TypeCaption, t3, file.size);
    Text.IncludesLater(TypeCaption, t3, file.fileType);
    Text.IncludesStart(file.name, t2);
    Text.IncludesLater(file.name, t2, file.date);
    Text.IncludesLater(file.name, t2, file.size);
    Text.IncludesLater(file.name, t2, file.fileType);
    Text.IncludesLater(PreviewIntro, t1, file.date);
    Text.IncludesLater(PreviewIntro, t1, file.size);
    Text.IncludesLater(PreviewIntro, t1, file.fileType);
    Text.IncludesLater(PreviewIntro, t1, file.name);
  }

  /** The preview text is never mistaken for one of the markers: it is longer than all of them. */
  lemma PreviewIsNoMarker(file: Desk.FileData)
    ensures |PreviewText(file)| > 5
  {
  }

  /** The content a successful load leaves: the preview text, or the `image` / `pdf` markers. */
  function PreviewContent(kind: Preview, file: Desk.FileData): string {
    match kind
    case TextPreview => PreviewText(file)
    case ImagePreview => "image"
    case PdfPreview => "pdf"
    case NoPreview => ""
  }

  datatype ViewerState = ViewerState(
    visible: bool,
    file: Option<Desk.FileData>,
    fileContent: string,
    isLoading: bool,
    error: string,
    closes: nat)

  /** `loadFileContent`: nothing without a file; otherwise loading ends with the content or the error. */
  function Load(s: ViewerState): ViewerState {
    if s.file.None? then s
    else
      var kind := Classify(Text.Extension(s.file.value.name));
      s.(fileContent := PreviewContent(kind, s.file.value),
         error := if kind == NoPreview then UnsupportedMessage else "",
         isLoading := false)
  }

  /** `Load` spelled out for a known kind. */
  lemma LoadOf(s: ViewerState, kind: Preview)
    requires s.file.Some? && kind == Classify(Text.Extension(s.file.value.name))
    ensures Load(s) == ViewerState(s.visible, s.file, PreviewContent(kind, s.file.value),
      false, if kind == NoPreview then UnsupportedMessage else "", s.closes)
  {
  }

  /** The resets of the effect (on hiding) and of `handleClose`. */
  function Cleared(s: ViewerState): ViewerState {
    s.(fileContent := "", error := "", isLoading := false)
  }

  /** The effect: clear when hidden, load when shown with a file. */
  function Effect(s: ViewerState): ViewerState {
    if !s.visible then Cleared(s)
    else if s.file.Some? then Load(s)
    else s
  }

  /** The effect's dependency on the file: its name, or none. */
  function NameKey(file: Option<Desk.FileData>): Option<string> {
    if file.Some? then Some(file.value.name) else None
  }

  /** New props; the effect runs only when `visible` or the file's name changed. */
  function Rerender(s: ViewerState, visible: bool, file: Option<Desk.FileData>): ViewerState {
    var t := s.(visible := visible, file := file);
    if visible != s.visible || NameKey(file) != NameKey(s.file) then Effect(t) else t
  }

  /** First render: empty state, then the effect. */
  function Mount(visible: bool, file: Option<Desk.FileData>): ViewerState {
    Effect(ViewerState(visible, file, "", false, "", 0))
  }

  /** `handleClose`: clear, then tell the parent. */
  function Close(s: ViewerState): ViewerState {
    Cleared(s).(closes := s.closes + 1)
  }

  /** What `renderFileContent` (and the dialog around it) shows. */
  datatype View = NoView | LoadingView | ErrorView(message: string) | ImageView | PdfView | TextView(content: string) | FallbackView

  function Render(s: ViewerState): View {
    if !s.visible || s.file.None? then NoView
    else if s.isLoading then LoadingView
    else if s.error != "" then ErrorView(s.error)
    else ContentView(Text.Extension(s.file.value.name), s.fileContent)
  }

  /** The branch of `renderFileContent` past loading and error: by extension first, then by the content's markers. */
  function ContentView(extension: string, content: string): View {
    if extension in ImageExtensions || content == "image" then ImageView
    else if extension == "pdf" || content == "pdf" then PdfView
    else if content != "" && content != "image" && content != "pdf" then TextView(content)
    else FallbackView
  }

  /** A text extension with a content longer than the markers shows that content as text. */
  lemma ContentViewOfText(extension: string, content: string)
    requires extension in TextExtensions && |content| > 5
    ensures ContentView(extension, content) == TextView(content)
  {
    TextAndImageDisjoint(extension);
    assert |"image"| == 5 && |"pdf"| == 3;
  }

  /** After a load, loading is over whatever the outcome, and the error is set exactly for an unsupported extension. */
  lemma LoadOutcome(s: ViewerState)
    requires s.file.Some?
    ensures var r := Load(s); var kind := Classify(Text.Extension(s.file.value.name));
      && !r.isLoading
      && (r.error != "" <==> kind == NoPreview)
      && (kind == NoPreview ==> r.error == UnsupportedMessage && r.fileContent == "")
      && (kind == TextPreview ==> r.fileContent == PreviewText(s.file.value))
      && r.visible == s.visible && r.file == s.file && r.closes == s.closes
  {
  }

  /** A shown file, once loaded, renders by its kind: text preview, image, PDF, or the unsupported error; never the fallback. */
  lemma RenderAfterLoad(s: ViewerState)
    requires s.visible && s.file.Some?
    ensures Classify(Text.Extension(s.file.value.name)) == TextPreview ==> Render(Load(s)) == TextView(PreviewText(s.file.value))
    ensures Classify(Text.Extension(s.file.value.name)) == ImagePreview ==> Render(Load(s)) == ImageView
    ensures Classify(Text.Extension(s.file.value.name)) == PdfPreview ==> Render(Load(s)) == PdfView
    ensures Classify(Text.Extension(s.file.value.name)) == NoPreview ==> Render(Load(s)) == ErrorView(UnsupportedMessage)
  {
    var kind := Classify(Text.Extension(s.file.value.name));
    if kind == TextPreview {
      RenderLoadedText(s);
    } else if kind == NoPreview {
      RenderLoadedUnsupported(s);
    } else {
      RenderLoadedMarker(s);
    }
  }

  lemma RenderLoadedText(s: ViewerState)
    requires s.visible && s.file.Some? && Classify(Text.Extension(s.file.value.name)) == TextPreview
    ensures Render(Load(s)) == TextView(PreviewText(s.file.value))
  {
    var extension := Text.Extension(s.file.value.name);
    var r := Load(s);
    assert r.visible && r.file == s.file && !r.isLoading && r.error == "";
    assert r.fileContent == PreviewText(s.file.value);
    PreviewIsNoMarker(s.file.value);
    ContentViewOfText(extension, r.fileContent);
  }

  /** An image or a PDF: the marker content and the extension agree on the view. */
  lemma RenderLoadedMarker(s: ViewerState)
    requires s.visible && s.file.Some?
    requires Classify(Text.Extension(s.file.value.name)) in {ImagePreview, PdfPreview}
    ensures Classify(Text.Extension(s.file.value.name)) == ImagePreview ==> Render(Load(s)) == ImageView
    ensures Classify(Text.Extension(s.file.value.name)) == PdfPreview ==> Render(Load(s)) == PdfView
  {
    var extension := Text.Extension(s.file.value.name);
    var kind := Classify(extension);
    var r := Load(s);
    assert r.visible && r.file == s.file && !r.isLoading && r.error == "";
    assert Render(r) == ContentView(extension, r.fileContent);
  }

  lemma RenderLoadedUnsupported(s: ViewerState)
    requires s.visible && s.file.Some? && Classify(Text.Extension(s.file.value.name)) == NoPreview
    ensures Render(Load(s)) == ErrorView(UnsupportedMessage)
  {
    var r := Load(s);
    assert r.visible && r.file == s.file && !r.isLoading && r.error == UnsupportedMessage;
    assert |UnsupportedMessage| > 0;
  }

  lemma TextAndImageDisjoint(extension: string)
    requires extension in TextExtensions
    ensures extension !in ImageExtensions && extension != "pdf"
  {
  }

  /** Nothing is shown while the dialog is hidden or has no file; otherwise loading comes first, then the error. */
  lemma RenderPrecedence(s: ViewerState)
    ensures !s.visible || s.file.None? ==> Render(s) == NoView
    ensures s.visible && s.file.Some? && s.isLoading ==> Render(s) == LoadingView
    ensures s.visible && s.file.Some? && !s.isLoading && s.error != "" ==> Render(s) == ErrorView(s.error)
    ensures s.visible && s.file.Some? && !s.isLoading && s.error == "" && s.fileContent == "image" ==> Render(s) == ImageView
  {
  }

  /** Hiding the dialog, or closing it, leaves no content, no error and no loading; only closing calls the parent. */
  lemma HideAndCloseReset(s: ViewerState, file: Option<Desk.FileData>)
    requires s.visible
    ensures var r := Rerender(s, false, file);
      r.fileContent == "" && r.error == "" && !r.isLoading && r.closes == s.closes && Render(r) == NoView
    ensures var r := Close(s);
      r.fileContent == "" && r.error == "" && !r.isLoading && r.closes == s.closes + 1
  {
  }

  /** Opening the dialog on a file loads it. */
  lemma OpeningLoads(s: ViewerState, file: Desk.FileData)
    requires !s.visible
    ensures Rerender(s, true, Some(file)) == Load(s.(visible := true, file := Some(file)))
  {
  }

  /** A new file under the same name does not reload: the content of the previous file stays. */
  lemma SameNameKeepsContent(s: ViewerState, file: Desk.FileData)
    requires s.file.Some? && s.file.value.name == file.name
    ensures Rerender(s, s.visible, Some(file)).fileContent == s.fileContent
  {
  }

  class FileViewerView {
    var visible: bool
    var file: Option<Desk.FileData>
    var fileContent: string
    var isLoading: bool
    var error: string
    var closes: nat

    function State(): ViewerState
      reads this
    {
      ViewerState(visible, file, fileContent, isLoading, error, closes)
    }

    function CurrentView(): View
      reads this
    {
      Render(State())
    }

    constructor (visible: bool, file: Option<Desk.FileData>)
      ensures State() == Mount(visible, file)
    {
      this.visible := visible;
      this.file := file;
      fileContent := "";
      isLoading := false;
      error := "";
      closes := 0;
      new;
      RunEffect();
    }

    /** `loadFileContent`, its assignments in order. */
    method LoadFileContent()
      modifies this`fileContent, this`isLoading, this`error
      ensures State() == Load(old(State()))
    {
      if file.None? {
        return;
      }
      isLoading := true;
      error := "";
      fileContent := "";
      var extension := Text.Extension(file.value.name);
      ghost var kind := Classify(extension);
      if extension in TextExtensions {
        assert kind == TextPreview;
        fileContent := PreviewText(file.value);
      } else if extension in ImageExtensions {
        assert kind == ImagePreview;
        fileContent := "image";
      } else if extension == "pdf" {
        assert kind == PdfPreview;
        fileContent := "pdf";
      } else {
        assert kind == NoPreview;
        error := UnsupportedMessage;
      }
      assert fileContent == PreviewContent(kind, file.value);
      assert error == if kind == NoPreview then UnsupportedMessage else "";
      isLoading := false;
      LoadOf(old(State()), kind);
    }

    method RunEffect()
      modifies this`fileContent, this`isLoading, this`error
      ensures State() == Effect(old(State()))
    {
      if !visible {
        fileContent := "";
        error := "";
        isLoading := false;
        return;
      }
      if file.Some? {
        LoadFileContent();
      }
    }

    /** The parent passes new props. */
    method SetProps(newVisible: bool, newFile: Option<Desk.FileData>)
      modifies this
      ensures State() == Rerender(old(State()), newVisible, newFile)
    {
      var changed := newVisible != visible || NameKey(newFile) != NameKey(file);
      visible := newVisible;
      file := newFile;
      if changed {
        RunEffect();
      }
    }

    /** `handleClose` */
    method HandleClose()
      modifies this`fileContent, this`isLoading, this`error, this`closes
      ensures State() == Close(old(State()))
    {
      fileContent := "";
      error := "";
      isLoading := false;
      closes := closes + 1;
    }
  }
}
