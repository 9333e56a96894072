/**
 * The drag bookkeeping of components/DragDropManager.tsx: which desk file is
 * being dragged, and the parent callbacks invoked (`onDragStart`,
 * `onDragEnd`, `onFileDrop`), recorded in order in `calls`.
 */
module DragDrop {
  import opened Wrappers
  import Desk

  datatype ManagerCall = NotifyDragStart | NotifyDragEnd | FileDropped(file: Desk.DeskFileData, target: string)

  datatype ManagerState = ManagerState(isDragging: bool, draggedFile: Option<Desk.DeskFileData>, calls: seq<ManagerCall>)

  /** `handleDragStart(file)` */
  function DragStart(s: ManagerState, file: Desk.DeskFileData): ManagerState {
    ManagerState(true, Some(file), s.calls + [NotifyDragStart])
  }

  /** `handleDragEnd()` */
  function DragEnd(s: ManagerState): ManagerState {
    ManagerState(false, None, s.calls + [NotifyDragEnd])
  }

  /** `handleDrop(target)`: dispatch when a file is held and the target is non-empty, then end the drag. */
  function Drop(s: ManagerState, target: string): ManagerState {
    var dispatched := if s.draggedFile.Some? && target != "" then [FileDropped(s.draggedFile.value, target)] else [];
    DragEnd(s.(calls := s.calls + dispatched))
  }

  /** A drop is dispatched, with the held file, exactly when a file is held and the target is non-empty. */
  lemma DropDispatchesIff(s: ManagerState, target: string)
    ensures var r := Drop(s, target);
      (s.draggedFile.Some? && target != "" ==>
         r.calls == s.calls + [FileDropped(s.draggedFile.value, target), NotifyDragEnd])
      && (s.draggedFile.None? || target == "" ==> r.calls == s.calls + [NotifyDragEnd])
  {
  }

  /** Whatever happens, a drop leaves the manager idle. */
  lemma DropEndsIdle(s: ManagerState, target: string)
    ensures !Drop(s, target).isDragging && Drop(s, target).draggedFile == None
  {
  }

  /** Start then drop on a named target delivers that very file to that target. */
  lemma StartThenDropDeliversTheFile(s: ManagerState, file: Desk.DeskFileData, target: string)
    requires target != ""
    ensures Drop(DragStart(s, file), target).calls == s.calls + [NotifyDragStart, FileDropped(file, target), NotifyDragEnd]
  {
  }

  class DragDropManager {
    var isDragging: bool
    var draggedFile: Option<Desk.DeskFileData>
    var calls: seq<ManagerCall>

    function State(): ManagerState
      reads this
    {
      ManagerState(isDragging, draggedFile, calls)
    }

    constructor ()
      ensures State() == ManagerState(false, None, [])
    {
      isDragging := false;
      draggedFile := None;
      calls := [];
    }

    method HandleDragStart(file: Desk.DeskFileData)
      modifies this
      ensures State() == DragStart(old(State()), file)
    {
      isDragging := true;
      draggedFile := Some(file);
      calls := calls + [NotifyDragStart];
    }

    method HandleDragEnd()
      modifies this
      ensures State() == DragEnd(old(State()))
    {
      isDragging := false;
      draggedFile := None;
      calls := calls + [NotifyDragEnd];
    }

    method HandleDrop(target: string)
      modifies this
      ensures State() == Drop(old(State()), target)
    {
      if draggedFile.Some? && target != "" {
        calls := calls + [FileDropped(draggedFile.value, target)];
      }
      HandleDragEnd();
    }
  }
}
