/**
 * The layout persistence gateway of lib/storage.ts. The platform key-value
 * store (SecureStore, or localStorage on the web) is a map from keys to
 * layouts, with JSON serialisation taken as the identity. Whether the backend
 * throws on a call is a parameter of that call; the clock's ISO timestamp is
 * a parameter of save.
 */
module Storage {
  import opened Wrappers
  import Desk

  /** A value whose type is not part of this model (`TornPageData`, `NotepadData`, `FileTrayData`, `any`), as its JSON text. */
  datatype Opaque = Opaque(json: string)

  datatype DeskLayout = DeskLayout(
    userId: string,
    stickyNotes: seq<Desk.StickyNoteData>,
    deskFiles: seq<Desk.DeskFileData>,
    deskFolders: seq<Desk.DeskFolderData>,
    tornPages: seq<Opaque>,
    notepad: Opaque,
    fileTray: Opaque,
    longTermFiles: seq<Opaque>,
    deletedItems: seq<Opaque>,
    lastSaved: string)

  /** `Omit<DeskLayout, 'userId' | 'lastSaved'>`: what the caller hands to save. */
  datatype LayoutInput = LayoutInput(
    stickyNotes: seq<Desk.StickyNoteData>,
    deskFiles: seq<Desk.DeskFileData>,
    deskFolders: seq<Desk.DeskFolderData>,
    tornPages: seq<Opaque>,
    notepad: Opaque,
    fileTray: Opaque,
    longTermFiles: seq<Opaque>,
    deletedItems: seq<Opaque>)

  const KeyPrefix: string := "desk_layout_"

  /** `` `desk_layout_${userId}` `` */
  function LayoutKey(userId: string): (k: string)
    ensures |k| == |KeyPrefix| + |userId| && k[..|KeyPrefix|] == KeyPrefix && k[|KeyPrefix|..] == userId
  {
    KeyPrefix + userId
  }

  /** Distinct users never share a key. */
  lemma LayoutKeyInjective(a: string, b: string)
    requires LayoutKey(a) == LayoutKey(b)
    ensures a == b
  {
    assert a == LayoutKey(a)[|KeyPrefix|..];
  }

  /** `{ ...layout, userId, lastSaved }` */
  function Stamp(layout: LayoutInput, userId: string, lastSaved: string): (r: DeskLayout)
    ensures r.userId == userId && r.lastSaved == lastSaved
  {
    DeskLayout(userId, layout.stickyNotes, layout.deskFiles, layout.deskFolders, layout.tornPages,
               layout.notepad, layout.fileTray, layout.longTermFiles, layout.deletedItems, lastSaved)
  }

  /** The layout part of a stored record: what save was handed. */
  function Content(l: DeskLayout): LayoutInput {
    LayoutInput(l.stickyNotes, l.deskFiles, l.deskFolders, l.tornPages, l.notepad, l.fileTray, l.longTermFiles, l.deletedItems)
  }

  /** The store after a save; a throwing backend writes nothing. */
  function AfterSave(entries: map<string, DeskLayout>, userId: string, layout: LayoutInput, now: string, backendFails: bool): map<string, DeskLayout> {
    if backendFails then entries else entries[LayoutKey(userId) := Stamp(layout, userId, now)]
  }

  /** The store after a delete. */
  function AfterDelete(entries: map<string, DeskLayout>, userId: string, backendFails: bool): map<string, DeskLayout> {
    if backendFails then entries else entries - {LayoutKey(userId)}
  }

  /** What load returns: null when there is no entry or the backend throws. */
  function Lookup(entries: map<string, DeskLayout>, userId: string, backendFails: bool): Option<DeskLayout> {
    if backendFails || LayoutKey(userId) !in entries then None else Some(entries[LayoutKey(userId)])
  }

  /** Load after a successful save returns exactly what was saved, stamped with the key's user. */
  lemma LoadAfterSave(entries: map<string, DeskLayout>, userId: string, layout: LayoutInput, now: string)
    ensures var r := Lookup(AfterSave(entries, userId, layout, now, false), userId, false);
      r.Some? && Content(r.value) == layout && r.value.userId == userId && r.value.lastSaved == now
  {
  }

  /** Saving for one user leaves every other user's layout as it was (last write wins per user). */
  lemma SaveLeavesOthers(entries: map<string, DeskLayout>, userId: string, other: string, layout: LayoutInput, now: string, backendFails: bool)
    requires other != userId
    ensures Lookup(AfterSave(entries, userId, layout, now, backendFails), other, false) == Lookup(entries, other, false)
  {
    if LayoutKey(other) == LayoutKey(userId) {
      LayoutKeyInjective(other, userId);
    }
  }

  /** A second save overwrites the first. */
  lemma LastSaveWins(entries: map<string, DeskLayout>, userId: string, first: LayoutInput, second: LayoutInput, t1: string, t2: string)
    ensures AfterSave(AfterSave(entries, userId, first, t1, false), userId, second, t2, false)
         == AfterSave(entries, userId, second, t2, false)
  {
  }

  /** After a successful delete, load returns null; other users are untouched. */
  lemma LoadAfterDelete(entries: map<string, DeskLayout>, userId: string, other: string)
    ensures Lookup(AfterDelete(entries, userId, false), userId, false) == None
    ensures other != userId ==> Lookup(AfterDelete(entries, userId, false), other, false) == Lookup(entries, other, false)
  {
    if other != userId && LayoutKey(other) == LayoutKey(userId) {
      LayoutKeyInjective(other, userId);
    }
  }

  /** Every stored layout sits under its own user's key. */
  ghost predicate KeysMatchUsers(entries: map<string, DeskLayout>) {
    forall k :: k in entries ==> k == LayoutKey(entries[k].userId)
  }

  lemma SaveAndDeleteKeepKeysMatchingUsers(entries: map<string, DeskLayout>, userId: string, layout: LayoutInput, now: string, backendFails: bool)
    requires KeysMatchUsers(entries)
    ensures KeysMatchUsers(AfterSave(entries, userId, layout, now, backendFails))
    ensures KeysMatchUsers(AfterDelete(entries, userId, backendFails))
  {
  }

  class StorageService {
    var entries: map<string, DeskLayout>

    ghost predicate Valid()
      reads this
    {
      KeysMatchUsers(entries)
    }

    /** The service over the backend's current entries, which may hold layouts saved in earlier sessions. */
    constructor (stored: map<string, DeskLayout>)
      requires KeysMatchUsers(stored)
      ensures Valid() && entries == stored
    {
      entries := stored;
    }

    /** `saveDeskLayout`: true exactly when the backend accepted the write. */
    method SaveDeskLayout(userId: string, layout: LayoutInput, now: string, backendFails: bool) returns (ok: bool)
      requires Valid()
      modifies this
      ensures Valid()
      ensures ok == !backendFails
      ensures entries == AfterSave(old(entries), userId, layout, now, backendFails)
    {
      if backendFails {
        return false;
      }
      var deskLayout := Stamp(layout, userId, now);
      entries := entries[LayoutKey(userId) := deskLayout];
      return true;
    }

    /** `loadDeskLayout` */
    method LoadDeskLayout(userId: string, backendFails: bool) returns (r: Option<DeskLayout>)
      requires Valid()
      ensures r == Lookup(entries, userId, backendFails)
      ensures r.Some? ==> r.value.userId == userId
    {
      if backendFails {
        return None;
      }
      var key := LayoutKey(userId);
      if key !in entries {
        return None;
      }
      r := Some(entries[key]);
      LayoutKeyInjective(userId, r.value.userId);
    }

    /** `deleteDeskLayout`: true exactly when the backend accepted the removal. */
    method DeleteDeskLayout(userId: string, backendFails: bool) returns (ok: bool)
      requires Valid()
      modifies this
      ensures Valid()
      ensures ok == !backendFails
      ensures entries == AfterDelete(old(entries), userId, backendFails)
    {
      if backendFails {
        return false;
      }
      entries := entries - {LayoutKey(userId)};
      return true;
    }

    /** `getAllUserLayouts`: the implementation does not enumerate the store and always yields the empty list. */
    method GetAllUserLayouts() returns (r: seq<DeskLayout>)
      ensures r == []
    {
      r := [];
    }
  }
}
