/**
 * The desk-file component of components/DeskFile.tsx: the icon chosen from
 * the file name's extension, and the component's flags (`isEditing`,
 * `isDragging`), its `editName` buffer and the messages it sends to the desk
 * store. As in the sticky note, the delayed `setIsDragging(false)` is the
 * explicit `TimerFired` event.
 */
module DeskFile {
  import opened Wrappers
  import Text
  import Desk

  datatype Icon = TextIcon | ImageIcon | VideoIcon | GenericIcon

  /** The `switch` on the extension. */
  function IconFor(extension: string): (r: Icon)
    ensures r == TextIcon <==> extension in {"pdf", "doc", "docx", "txt"}
    ensures r == ImageIcon <==> extension in {"jpg", "jpeg", "png", "gif"}
    ensures r == VideoIcon <==> extension in {"mp4", "avi", "mov"}
  {
    if extension in {"pdf", "doc", "docx", "txt"} then TextIcon
    else if extension in {"jpg", "jpeg", "png", "gif"} then ImageIcon
    else if extension in {"mp4", "avi", "mov"} then VideoIcon
    else GenericIcon
  }

  /** `getFileIcon`: the icon for the lower-cased text after the last dot (the whole name when it has none). */
  function FileIcon(name: string): Icon {
    IconFor(Text.Extension(name))
  }

  /** Only the last extension counts, whatever its letter case. */
  lemma FileIconOfDotted(stem: string, extension: string)
    requires '.' !in extension
    ensures FileIcon(stem + "." + extension) == IconFor(Text.AsciiLower(extension))
  {
    Text.LastSegmentOfDotted(stem, extension);
  }

  /** The check is case-insensitive: `Report.PDF` shows the text icon. */
  lemma UpperCaseExtension()
    ensures FileIcon("Report.PDF") == TextIcon
  {
    assert "Report.PDF" == "Report" + "." + "PDF";
    FileIconOfDotted("Report", "PDF");
    var l := Text.AsciiLower("PDF");
    assert l[0] == 'p' && l[1] == 'd' && l[2] == 'f';
    assert l == "pdf";
  }

  /** Only the text after the last dot counts: `Team_Photos.zip` is generic. */
  lemma ArchiveIsGeneric()
    ensures FileIcon("Team_Photos.zip") == GenericIcon
  {
    assert "Team_Photos.zip" == "Team_Photos" + "." + "zip";
    FileIconOfDotted("Team_Photos", "zip");
    var z := Text.AsciiLower("zip");
    assert z[0] == 'z' && z[1] == 'i' && z[2] == 'p';
    assert z == "zip";
  }

  /** A name without a dot is its own extension: `pdf` alone is a text file. */
  lemma UndottedNameIsItsExtension()
    ensures FileIcon("pdf") == TextIcon
  {
    assert Text.LastSegment("pdf") == "pdf";
    var l := Text.AsciiLower("pdf");
    assert l[0] == 'p' && l[1] == 'd' && l[2] == 'f';
    assert l == "pdf";
  }

  datatype FileMessage =
    | UpdateFile(id: string, patch: Desk.Patch<Desk.FileFields>)
    | DeleteFile(id: string)

  datatype FileState = FileState(isEditing: bool, editName: string, isDragging: bool, pendingResets: nat, sent: seq<FileMessage>)

  datatype FileEvent =
    | PositionChange(x: real, y: real)
    | Save
    | Tap
    | DragStart
    | DragEnd
    | TimerFired
    | EditName(name: string)
    | Close
    | Delete

  /** `{ x, y }` */
  function PositionPatch(x: real, y: real): Desk.Patch<Desk.FileFields> {
    Desk.Patch(Some(x), Some(y), Desk.FileFields(None, None, None, None))
  }

  /** `{ name: editName }` */
  function SavePatch(name: string): Desk.Patch<Desk.FileFields> {
    Desk.Patch(None, None, Desk.FileFields(Some(name), None, None, None))
  }

  function Initial(file: Desk.DeskFileData): FileState {
    FileState(false, file.body.name, false, 0, [])
  }

  function Step(file: Desk.DeskFileData, s: FileState, e: FileEvent): FileState {
    match e
    case PositionChange(x, y) => s.(sent := s.sent + [UpdateFile(file.id, PositionPatch(x, y))])
    case Save => s.(sent := s.sent + [UpdateFile(file.id, SavePatch(s.editName))], isEditing := false)
    case Tap => if !s.isDragging then s.(isEditing := true) else s
    case DragStart => s.(isDragging := true)
    case DragEnd => s.(pendingResets := s.pendingResets + 1)
    case TimerFired => if s.pendingResets > 0 then s.(pendingResets := s.pendingResets - 1, isDragging := false) else s
    case EditName(n) => s.(editName := n)
    case Close => s.(isEditing := false)
    case Delete => s.(sent := s.sent + [DeleteFile(file.id)])
  }

  /** Renaming keeps the file's position, z-index, type, size and date in the store. */
  lemma SaveRenamesOnly(files: seq<Desk.DeskFileData>, id: string, name: string, z: int, i: int)
    requires 0 <= i < |files|
    ensures var r := Desk.UpdateById(files, id, SavePatch(name), Desk.MergeFileBody, z);
      r[i] == if files[i].id == id then files[i].(body := files[i].body.(name := name)) else files[i]
  {
    Desk.UpdateByIdAt(files, id, SavePatch(name), Desk.MergeFileBody, z, i);
  }

  /** A committed drag moves exactly the file and raises it to the given z-index. */
  lemma PositionChangeMovesAndRaises(files: seq<Desk.DeskFileData>, id: string, x: real, y: real, z: int, i: int)
    requires 0 <= i < |files|
    ensures var r := Desk.UpdateById(files, id, PositionPatch(x, y), Desk.MergeFileBody, z);
      r[i] == if files[i].id == id then files[i].(x := x, y := y, zIndex := z) else files[i]
  {
    Desk.UpdateByIdAt(files, id, PositionPatch(x, y), Desk.MergeFileBody, z, i);
  }

  /** A tap opens the editor exactly when no drag is in progress; a save closes it. */
  lemma TapAndSave(file: Desk.DeskFileData, s: FileState)
    ensures Step(file, s, Tap).isEditing <==> (s.isEditing || !s.isDragging)
    ensures !Step(file, s, Save).isEditing
    ensures Step(file, s, Save).sent == s.sent + [UpdateFile(file.id, SavePatch(s.editName))]
  {
  }

  class DeskFileView {
    const file: Desk.DeskFileData
    var isEditing: bool
    var editName: string
    var isDragging: bool
    var pendingResets: nat
    var sent: seq<FileMessage>

    function State(): FileState
      reads this
    {
      FileState(isEditing, editName, isDragging, pendingResets, sent)
    }

    constructor (file: Desk.DeskFileData)
      ensures this.file == file && State() == Initial(file)
    {
      this.file := file;
      isEditing := false;
      editName := file.body.name;
      isDragging := false;
      pendingResets := 0;
      sent := [];
    }

    method HandlePositionChange(x: real, y: real)
      modifies this`sent
      ensures State() == Step(file, old(State()), PositionChange(x, y))
    {
      sent := sent + [UpdateFile(file.id, Desk.Patch(Some(x), Some(y), Desk.FileFields(None, None, None, None)))];
    }

    method HandleSave()
      modifies this`sent, this`isEditing
      ensures State() == Step(file, old(State()), Save)
    {
      sent := sent + [UpdateFile(file.id, Desk.Patch(None, None, Desk.FileFields(Some(editName), None, None, None)))];
      isEditing := false;
    }

    method HandleTap()
      modifies this`isEditing
      ensures State() == Step(file, old(State()), Tap)
    {
      if !isDragging {
        isEditing := true;
      }
    }

    method HandleDragStart()
      modifies this`isDragging
      ensures State() == Step(file, old(State()), DragStart)
    {
      isDragging := true;
    }

    method HandleDragEnd()
      modifies this`pendingResets
      ensures State() == Step(file, old(State()), DragEnd)
    {
      pendingResets := pendingResets + 1;
    }

    method HandleTimerFired()
      modifies this`pendingResets, this`isDragging
      ensures State() == Step(file, old(State()), TimerFired)
    {
      if pendingResets > 0 {
        pendingResets := pendingResets - 1;
        isDragging := false;
      }
    }

    method HandleEditName(name: string)
      modifies this`editName
      ensures State() == Step(file, old(State()), EditName(name))
    {
      editName := name;
    }

    method HandleClose()
      modifies this`isEditing
      ensures State() == Step(file, old(State()), Close)
    {
      isEditing := false;
    }

    method HandleDelete()
      modifies this`sent
      ensures State() == Step(file, old(State()), Delete)
    {
      sent := sent + [DeleteFile(file.id)];
    }
  }
}
