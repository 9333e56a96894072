/**
 * The "add item" dialog of components/AddItemModal.tsx: the choice between a
 * file and a folder, the name typed, the file type picked from a fixed table,
 * and the calls it makes to its parent (`onAddFile`, `onAddFolder`,
 * `onClose`), recorded in order in `calls`.
 */
module AddItem {
  import opened Wrappers
  import Text
  import FileImport

  datatype Mode = SelectMode | FileMode | FolderMode

  /** One row of the `fileTypes` table. */
  datatype FileTypeOption = FileTypeOption(title: string, extension: string, fileType: string)

  const FileTypes: seq<FileTypeOption> := [
    FileTypeOption("Document", ".docx", "Word Document"),
    FileTypeOption("PDF", ".pdf", "PDF Document"),
    FileTypeOption("Spreadsheet", ".xlsx", "Excel File"),
    FileTypeOption("Presentation", ".pptx", "PowerPoint"),
    FileTypeOption("Text File", ".txt", "Text Document")
  ]

  /** The label selected when the dialog opens or is reset. */
  const DefaultLabel: string := "Document"

  /** `fileTypes.find(type => type.label === fileType)` */
  function FindType(options: seq<FileTypeOption>, chosen: string): (r: Option<FileTypeOption>)
    ensures r.None? <==> forall i :: 0 <= i < |options| ==> options[i].title != chosen
    ensures r.Some? ==> r.value.title == chosen
    ensures r.Some? ==> exists i :: 0 <= i < |options| && options[i] == r.value && forall j :: 0 <= j < i ==> options[j].title != chosen
  {
    if options == [] then None
    else if options[0].title == chosen then Some(options[0])
    else
      var r := FindType(options[1..], chosen);
      if r.Some? then
        var i :| 0 <= i < |options[1..]| && options[1..][i] == r.value && forall j :: 0 <= j < i ==> options[1..][j].title != chosen;
        assert options[i + 1] == r.value && forall j :: 0 <= j < i + 1 ==> options[j].title != chosen;
        r
      else r
  }

  /** `name.trim() + (selectedType?.extension || '.txt')` */
  function NewFileName(name: string, chosen: string): string {
    var selected := FindType(FileTypes, chosen);
    Text.Trim(name) + (if selected.Some? && selected.value.extension != "" then selected.value.extension else ".txt")
  }

  /** `selectedType?.type || 'Document'` */
  function NewFileType(chosen: string): string {
    var selected := FindType(FileTypes, chosen);
    if selected.Some? && selected.value.fileType != "" then selected.value.fileType else "Document"
  }

  datatype ModalCall = AddFileCall(name: string, fileType: string) | AddFolderCall(name: string) | CloseCall

  datatype ModalState = ModalState(mode: Mode, name: string, fileType: string, calls: seq<ModalCall>)

  function InitialModal(): ModalState {
    ModalState(SelectMode, "", DefaultLabel, [])
  }

  /** `resetModal`: back to the choice, name and type cleared, and the parent told to close. */
  function Reset(s: ModalState): ModalState {
    ModalState(SelectMode, "", DefaultLabel, s.calls + [CloseCall])
  }

  /** `handleAddFile`: nothing at all for a blank name. */
  function AddFile(s: ModalState): ModalState {
    if Text.Trim(s.name) != "" then
      Reset(s.(calls := s.calls + [AddFileCall(NewFileName(s.name, s.fileType), NewFileType(s.fileType))]))
    else s
  }

  /** `handleAddFolder`: nothing at all for a blank name. */
  function AddFolder(s: ModalState): ModalState {
    if Text.Trim(s.name) != "" then Reset(s.(calls := s.calls + [AddFolderCall(Text.Trim(s.name))])) else s
  }

  /** The title over the dialog. */
  function Title(mode: Mode): (t: string)
    ensures t == "Add New Item" <==> mode == SelectMode
    ensures t == "New File" <==> mode == FileMode
    ensures t == "New Folder" <==> mode == FolderMode
  {
    match mode
    case SelectMode => "Add New Item"
    case FileMode => "New File"
    case FolderMode => "New Folder"
  }

  /** The selected label always names a row of the table: the default does, and the type buttons only offer rows. */
  ghost predicate Valid(s: ModalState) {
    FindType(FileTypes, s.fileType).Some?
  }

  lemma InitialIsValid()
    ensures Valid(InitialModal())
  {
    assert FileTypes[0].title == DefaultLabel;
  }

  /** A blank name (empty or only white space after `trim`) makes both add buttons do nothing, not even close. */
  lemma BlankNameIsNoOp(s: ModalState)
    requires forall i :: 0 <= i < |s.name| ==> Text.IsJsSpace(s.name[i])
    ensures AddFile(s) == s && AddFolder(s) == s
  {
    Text.TrimEmptyIffBlank(s.name);
  }

  /** `find` returns the first row carrying the label. */
  lemma {:induction false} FindTypeAt(options: seq<FileTypeOption>, chosen: string, i: nat)
    requires i < |options| && options[i].title == chosen
    requires forall j :: 0 <= j < i ==> options[j].title != chosen
    ensures FindType(options, chosen) == Some(options[i])
  {
    if i > 0 {
      assert options[0].title != chosen;
      FindTypeAt(options[1..], chosen, i - 1);
    }
  }

  /** The labels of the table are distinct (they even differ in length), so every row is found by its own label. */
  lemma RowIsFound(i: nat)
    requires i < |FileTypes|
    ensures FindType(FileTypes, FileTypes[i].title) == Some(FileTypes[i])
  {
    assert forall j :: 0 <= j < i ==> |FileTypes[j].title| != |FileTypes[i].title|;
    FindTypeAt(FileTypes, FileTypes[i].title, i);
  }

  lemma RowFieldsNonEmpty(i: nat)
    requires i < |FileTypes|
    ensures FileTypes[i].extension != "" && FileTypes[i].fileType != ""
  {
  }

  /** A row's label gives the trimmed name plus that row's extension, and that row's type. */
  lemma NameAndTypeOfRow(name: string, i: nat)
    requires i < |FileTypes|
    ensures NewFileName(name, FileTypes[i].title) == Text.Trim(name) + FileTypes[i].extension
    ensures NewFileType(FileTypes[i].title) == FileTypes[i].fileType
  {
    RowIsFound(i);
    RowFieldsNonEmpty(i);
  }

  /** A file is added under the trimmed name plus its row's extension and with its row's type, then the dialog resets. */
  lemma AddFileUsesTheRow(s: ModalState, i: nat)
    requires Text.Trim(s.name) != "" && i < |FileTypes| && FileTypes[i].title == s.fileType
    ensures AddFile(s) == ModalState(SelectMode, "", DefaultLabel,
      s.calls + [AddFileCall(Text.Trim(s.name) + FileTypes[i].extension, FileTypes[i].fileType), CloseCall])
  {
    NameAndTypeOfRow(s.name, i);
    var c := AddFileCall(Text.Trim(s.name) + FileTypes[i].extension, FileTypes[i].fileType);
    assert AddFile(s) == Reset(s.(calls := s.calls + [c]));
    assert s.calls + [c] + [CloseCall] == s.calls + [c, CloseCall];
  }

  /** A label outside the table falls back to `.txt` and "Document". */
  lemma UnknownLabelFallsBack(name: string, chosen: string)
    requires forall i :: 0 <= i < |FileTypes| ==> FileTypes[i].title != chosen
    ensures NewFileName(name, chosen) == Text.Trim(name) + ".txt"
    ensures NewFileType(chosen) == "Document"
  {
  }

  /** A folder is added under the trimmed name, then the dialog resets. */
  lemma AddFolderTrims(s: ModalState)
    requires Text.Trim(s.name) != ""
    ensures AddFolder(s) == ModalState(SelectMode, "", DefaultLabel, s.calls + [AddFolderCall(Text.Trim(s.name)), CloseCall])
  {
  }

  /** Opening the dialog, choosing a file and typing a name creates a Word document: the default row is `.docx`. */
  lemma DefaultIsWordDocument(name: string)
    requires Text.Trim(name) != ""
    ensures AddFile(InitialModal().(mode := FileMode, name := name)).calls
         == [AddFileCall(Text.Trim(name) + ".docx", "Word Document"), CloseCall]
  {
    AddFileUsesTheRow(InitialModal().(mode := FileMode, name := name), 0);
  }

  /** Every step of the dialog keeps the selected label in the table, so the fallbacks are never used. */
  lemma StepsKeepValid(s: ModalState, name: string, i: nat, mode: Mode)
    requires Valid(s)
    ensures Valid(s.(name := name)) && Valid(s.(mode := mode))
    ensures i < |FileTypes| ==> Valid(s.(fileType := FileTypes[i].title))
    ensures Valid(Reset(s)) && Valid(AddFile(s)) && Valid(AddFolder(s))
  {
    if i < |FileTypes| {
      RowIsFound(i);
    }
    InitialIsValid();
  }

  /** The name made from a row, with the row's extension after the last dot. */
  lemma CreatedExtension(stem: string, i: nat)
    requires i < |FileTypes|
    ensures Text.Extension(stem + FileTypes[i].extension) == FileTypes[i].extension[1..]
  {
    var ext := FileTypes[i].extension[1..];
    assert FileTypes[i].extension == "." + ext;
    assert stem + FileTypes[i].extension == stem + "." + ext;
    Text.ExtensionOfLowerDotted(stem, ext);
  }

  /** A row whose extension first appears in rule `j` of the classifier, and which names that rule's type. */
  lemma CreatedRowAgrees(stem: string, i: nat, j: nat)
    requires i < |FileTypes| && j < |FileImport.Rules|
    requires FileTypes[i].extension[1..] in FileImport.Rules[j].extensions
    requires forall k :: 0 <= k < j ==> FileTypes[i].extension[1..] !in FileImport.Rules[k].extensions
    requires FileTypes[i].fileType == FileImport.Rules[j].fileType
    ensures FileImport.GetFileType("", stem + FileTypes[i].extension) == FileTypes[i].fileType
  {
    CreatedExtension(stem, i);
    FileImport.ByExtensionOnly(stem + FileTypes[i].extension, j);
  }

  /** The extension a created file gets leads the import classifier to the very type the row names. */
  lemma CreatedFileTypeAgreesWithImport(stem: string, i: nat)
    requires i < |FileTypes|
    ensures FileImport.GetFileType("", stem + FileTypes[i].extension) == FileTypes[i].fileType
  {
    if i == 0 {
      assert FileTypes[0].extension[1..] == "docx";
      CreatedRowAgrees(stem, 0, 1);
    } else if i == 1 {
      assert FileTypes[1].extension[1..] == "pdf";
      CreatedRowAgrees(stem, 1, 0);
    } else if i == 2 {
      assert FileTypes[2].extension[1..] == "xlsx";
      CreatedRowAgrees(stem, 2, 4);
    } else if i == 3 {
      assert FileTypes[3].extension[1..] == "pptx";
      CreatedRowAgrees(stem, 3, 5);
    } else {
      assert FileTypes[4].extension[1..] == "txt";
      CreatedRowAgrees(stem, 4, 2);
    }
  }

  class AddItemModalView {
    var mode: Mode
    var name: string
    var fileType: string
    var calls: seq<ModalCall>

    function State(): ModalState
      reads this
    {
      ModalState(mode, name, fileType, calls)
    }

    constructor ()
      ensures State() == InitialModal()
    {
      mode := SelectMode;
      name := "";
      fileType := DefaultLabel;
      calls := [];
    }

    /** "Create File" / "Create Folder" on the choice screen. */
    method ChooseMode(m: Mode)
      requires m != SelectMode
      modifies this`mode
      ensures State() == old(State()).(mode := m)
    {
      mode := m;
    }

    /** The name field's `onChangeText`. */
    method ChangeName(text: string)
      modifies this`name
      ensures State() == old(State()).(name := text)
    {
      name := text;
    }

    /** A type button: it selects its own row's label. */
    method PickType(i: nat)
      requires i < |FileTypes|
      modifies this`fileType
      ensures State() == old(State()).(fileType := FileTypes[i].title)
    {
      fileType := FileTypes[i].title;
    }

    /** `resetModal`, also run by the close button and the back gesture. */
    method ResetModal()
      modifies this
      ensures State() == Reset(old(State()))
    {
      mode := SelectMode;
      name := "";
      fileType := DefaultLabel;
      calls := calls + [CloseCall];
    }

    method HandleAddFile()
      modifies this
      ensures State() == AddFile(old(State()))
    {
      if Text.Trim(name) != "" {
        var selectedType := FindType(FileTypes, fileType);
        var extension := if selectedType.Some? && selectedType.value.extension != "" then selectedType.value.extension else ".txt";
        var fileName := Text.Trim(name) + extension;
        var createdType := if selectedType.Some? && selectedType.value.fileType != "" then selectedType.value.fileType else "Document";
        calls := calls + [AddFileCall(fileName, createdType)];
        ResetModal();
      }
    }

    method HandleAddFolder()
      modifies this
      ensures State() == AddFolder(old(State()))
    {
      if Text.Trim(name) != "" {
        calls := calls + [AddFolderCall(Text.Trim(name))];
        ResetModal();
      }
    }
  }
}
