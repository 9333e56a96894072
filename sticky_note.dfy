/**
 * The sticky-note component of components/StickyNote.tsx: its state flags
 * (`isEditing`, `isDragging`, `showColorDropdown`), its edit buffers
 * (`editText`, `editColor`) and the messages it sends to the desk store
 * through `onUpdate`/`onDelete`. The 100 ms `setTimeout` that clears
 * `isDragging` after a drag is an explicit `TimerFired` event; `pendingResets`
 * counts the timers scheduled and not yet fired.
 */
module StickyNote {
  import opened Wrappers
  import Desk

  /** What the component sends to the store. */
  datatype NoteMessage =
    | UpdateNote(id: string, patch: Desk.Patch<Desk.StickyFields>)
    | DeleteNote(id: string)

  datatype NoteState = NoteState(
    isEditing: bool, editText: string, editColor: Desk.Color, isDragging: bool,
    showColorDropdown: bool, pendingResets: nat, sent: seq<NoteMessage>)

  datatype NoteEvent =
    | PositionChange(x: real, y: real)   // `handlePositionChange`, called by the drag controller on release
    | Save                               // the save button, `handleSave`
    | Tap                                // the tap gesture
    | DragStart                          // `handleDragStart`
    | DragEnd                            // `handleDragEnd`
    | TimerFired                         // the delayed `setIsDragging(false)`
    | SelectColor(color: Desk.Color)     // `handleColorSelect`
    | ToggleDropdown                     // the color circle
    | EditText(text: string)             // `onChangeText`
    | Close                              // the close button and `onRequestClose`
    | Delete                             // the trash button

  /** `{ x, y }` */
  function PositionPatch(x: real, y: real): Desk.Patch<Desk.StickyFields> {
    Desk.Patch(Some(x), Some(y), Desk.StickyFields(None, None))
  }

  /** `{ text: editText, color: editColor }` */
  function SavePatch(text: string, color: Desk.Color): Desk.Patch<Desk.StickyFields> {
    Desk.Patch(None, None, Desk.StickyFields(Some(text), Some(color)))
  }

  /** Mount: the edit buffers start from the note; nothing is open. */
  function Initial(note: Desk.StickyNoteData): NoteState {
    NoteState(false, note.body.text, note.body.color, false, false, 0, [])
  }

  function Step(note: Desk.StickyNoteData, s: NoteState, e: NoteEvent): NoteState {
    match e
    case PositionChange(x, y) => s.(sent := s.sent + [UpdateNote(note.id, PositionPatch(x, y))])
    case Save => s.(sent := s.sent + [UpdateNote(note.id, SavePatch(s.editText, s.editColor))],
                    isEditing := false, showColorDropdown := false)
    case Tap => if !s.isDragging then s.(isEditing := true) else s
    case DragStart => s.(isDragging := true)
    case DragEnd => s.(pendingResets := s.pendingResets + 1)
    case TimerFired => if s.pendingResets > 0 then s.(pendingResets := s.pendingResets - 1, isDragging := false) else s
    case SelectColor(c) => s.(editColor := c, showColorDropdown := false)
    case ToggleDropdown => s.(showColorDropdown := !s.showColorDropdown)
    case EditText(t) => s.(editText := t)
    case Close => s.(isEditing := false)
    case Delete => s.(sent := s.sent + [DeleteNote(note.id)])
  }

  function Run(note: Desk.StickyNoteData, s: NoteState, es: seq<NoteEvent>): NoteState
    decreases |es|
  {
    if es == [] then s else Run(note, Step(note, s, es[0]), es[1..])
  }

  /**
   * A committed drag sends exactly `{x, y}` for this note, which the store
   * answers with a fresh z-index; a save sends exactly `{text, color}`, which
   * keeps the z-index and the position.
   */
  lemma PatchesAndZOrder(x: real, y: real, text: string, color: Desk.Color)
    ensures Desk.Moves(PositionPatch(x, y)) && !Desk.Moves(SavePatch(text, color))
  {
  }

  /** Saving replaces exactly the note's text and color in the store, and nothing else. */
  lemma SaveUpdatesOnlyTheBody(notes: seq<Desk.StickyNoteData>, id: string, text: string, color: Desk.Color, z: int, i: int)
    requires 0 <= i < |notes|
    ensures var r := Desk.UpdateById(notes, id, SavePatch(text, color), Desk.MergeStickyBody, z);
      r[i] == if notes[i].id == id then notes[i].(body := Desk.StickyBody(text, color)) else notes[i]
  {
    Desk.UpdateByIdAt(notes, id, SavePatch(text, color), Desk.MergeStickyBody, z, i);
  }

  /** A committed drag moves exactly the note and raises it to the given z-index. */
  lemma PositionChangeMovesAndRaises(notes: seq<Desk.StickyNoteData>, id: string, x: real, y: real, z: int, i: int)
    requires 0 <= i < |notes|
    ensures var r := Desk.UpdateById(notes, id, PositionPatch(x, y), Desk.MergeStickyBody, z);
      r[i] == if notes[i].id == id then notes[i].(x := x, y := y, zIndex := z) else notes[i]
  {
    Desk.UpdateByIdAt(notes, id, PositionPatch(x, y), Desk.MergeStickyBody, z, i);
  }

  /** A tap opens the editor exactly when no drag is in progress. */
  lemma TapOpensIffIdle(note: Desk.StickyNoteData, s: NoteState)
    ensures Step(note, s, Tap).isEditing <==> (s.isEditing || !s.isDragging)
    ensures Step(note, s, Tap).sent == s.sent
  {
  }

  /**
   * A tap right at release is suppressed, because the flag is cleared only
   * when the delayed reset fires; a tap after the reset opens the editor.
   */
  lemma TapAtReleaseIsSuppressed(note: Desk.StickyNoteData, s: NoteState)
    requires !s.isEditing
    ensures !Run(note, s, [DragStart, DragEnd, Tap]).isEditing
    ensures Run(note, s, [DragStart, DragEnd, TimerFired, Tap]).isEditing
  {
    var s1 := Step(note, s, DragStart);
    var s2 := Step(note, s1, DragEnd);
    assert Run(note, s, [DragStart, DragEnd, Tap]) == Step(note, s2, Tap) by {
      assert [DragStart, DragEnd, Tap][1..] == [DragEnd, Tap];
      assert [DragEnd, Tap][1..] == [Tap];
    }
    var s3 := Step(note, s2, TimerFired);
    assert Run(note, s, [DragStart, DragEnd, TimerFired, Tap]) == Step(note, s3, Tap) by {
      assert [DragStart, DragEnd, TimerFired, Tap][1..] == [DragEnd, TimerFired, Tap];
      assert [DragEnd, TimerFired, Tap][1..] == [TimerFired, Tap];
      assert [TimerFired, Tap][1..] == [Tap];
    }
  }

  /** Choosing a color changes only the edit buffer and closes the dropdown; the store hears nothing. */
  lemma SelectColorTouchesOnlyTheBuffer(note: Desk.StickyNoteData, s: NoteState, c: Desk.Color)
    ensures Step(note, s, SelectColor(c)) == s.(editColor := c, showColorDropdown := false)
  {
  }

  /** Closing the editor without saving sends nothing and discards nothing from the buffers. */
  lemma CloseSendsNothing(note: Desk.StickyNoteData, s: NoteState)
    ensures var r := Step(note, s, Close);
      !r.isEditing && r.sent == s.sent && r.editText == s.editText && r.editColor == s.editColor
  {
  }

  /** Every message the component ever sends names its own note. */
  lemma {:induction false} MessagesNameTheNote(note: Desk.StickyNoteData, s: NoteState, es: seq<NoteEvent>)
    requires forall i :: 0 <= i < |s.sent| ==> s.sent[i].id == note.id
    ensures var r := Run(note, s, es);
      |s.sent| <= |r.sent| && r.sent[..|s.sent|] == s.sent
      && forall i :: 0 <= i < |r.sent| ==> r.sent[i].id == note.id
    decreases |es|
  {
    if es != [] {
      var s1 := Step(note, s, es[0]);
      MessagesNameTheNote(note, s1, es[1..]);
      assert s1.sent[..|s.sent|] == s.sent;
    }
  }

  class StickyNoteView {
    const note: Desk.StickyNoteData
    var isEditing: bool
    var editText: string
    var editColor: Desk.Color
    var isDragging: bool
    var showColorDropdown: bool
    var pendingResets: nat
    var sent: seq<NoteMessage>

    function State(): NoteState
      reads this
    {
      NoteState(isEditing, editText, editColor, isDragging, showColorDropdown, pendingResets, sent)
    }

    constructor (note: Desk.StickyNoteData)
      ensures this.note == note && State() == Initial(note)
    {
      this.note := note;
      isEditing := false;
      editText := note.body.text;
      editColor := note.body.color;
      isDragging := false;
      showColorDropdown := false;
      pendingResets := 0;
      sent := [];
    }

    method HandlePositionChange(x: real, y: real)
      modifies this`sent
      ensures State() == Step(note, old(State()), PositionChange(x, y))
    {
      sent := sent + [UpdateNote(note.id, Desk.Patch(Some(x), Some(y), Desk.StickyFields(None, None)))];
    }

    method HandleSave()
      modifies this`sent, this`isEditing, this`showColorDropdown
      ensures State() == Step(note, old(State()), Save)
    {
      sent := sent + [UpdateNote(note.id, Desk.Patch(None, None, Desk.StickyFields(Some(editText), Some(editColor))))];
      isEditing := false;
      showColorDropdown := false;
    }

    /** The tap gesture's guard; `handlePress` repeats the same test. */
    method HandleTap()
      modifies this`isEditing
      ensures State() == Step(note, old(State()), Tap)
    {
      if !isDragging {
        isEditing := true;
      }
    }

    method HandleDragStart()
      modifies this`isDragging
      ensures State() == Step(note, old(State()), DragStart)
    {
      isDragging := true;
    }

    method HandleDragEnd()
      modifies this`pendingResets
      ensures State() == Step(note, old(State()), DragEnd)
    {
      pendingResets := pendingResets + 1;
    }

    method HandleTimerFired()
      modifies this`pendingResets, this`isDragging
      ensures State() == Step(note, old(State()), TimerFired)
    {
      if pendingResets > 0 {
        pendingResets := pendingResets - 1;
        isDragging := false;
      }
    }

    method HandleColorSelect(color: Desk.Color)
      modifies this`editColor, this`showColorDropdown
      ensures State() == Step(note, old(State()), SelectColor(color))
    {
      editColor := color;
      showColorDropdown := false;
    }

    method ToggleColorDropdown()
      modifies this`showColorDropdown
      ensures State() == Step(note, old(State()), ToggleDropdown)
    {
      showColorDropdown := !showColorDropdown;
    }

    method HandleEditText(text: string)
      modifies this`editText
      ensures State() == Step(note, old(State()), EditText(text))
    {
      editText := text;
    }

    method HandleClose()
      modifies this`isEditing
      ensures State() == Step(note, old(State()), Close)
    {
      isEditing := false;
    }

    method HandleDelete()
      modifies this`sent
      ensures State() == Step(note, old(State()), Delete)
    {
      sent := sent + [DeleteNote(note.id)];
    }
  }
}
