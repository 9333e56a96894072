/**
 * The desk store of components/DeskScene.tsx: three positioned collections
 * (sticky notes, desk files, desk folders), the quick-access and long-term
 * file lists, and the z-index counter. The per-list transforms (`map` with a
 * spread merge, `filter`, append, prepend) and the z-sorted render list are
 * functions; the scene's state and its setters are the class `DeskScene`.
 */
module Desk {
  import opened Wrappers
  import ZOrder

  datatype Color = Urgent | Normal | Low

  /** `FileData`: a plain file record, without position. */
  datatype FileData = FileData(name: string, fileType: string, size: string, date: string)

  datatype StickyBody = StickyBody(text: string, color: Color)

  datatype FolderBody = FolderBody(name: string, files: seq<FileData>)

  /** The fields every desk item has (`id`, `x`, `y`, `zIndex`), around its kind-specific body. */
  datatype Positioned<B> = Positioned(id: string, x: real, y: real, zIndex: int, body: B)

  type StickyNoteData = Positioned<StickyBody>
  type DeskFileData = Positioned<FileData>
  type DeskFolderData = Positioned<FolderBody>

  /** A `Partial<...>` update: the position fields and the kind-specific fields it carries. */
  datatype Patch<F> = Patch(x: Option<real>, y: Option<real>, fields: F)

  datatype StickyFields = StickyFields(text: Option<string>, color: Option<Color>)
  datatype FileFields = FileFields(name: Option<string>, fileType: Option<string>, size: Option<string>, date: Option<string>)
  datatype FolderFields = FolderFields(name: Option<string>, files: Option<seq<FileData>>)

  /** `updates.x !== undefined || updates.y !== undefined` */
  predicate Moves<F>(p: Patch<F>) { p.x.Some? || p.y.Some? }

  function MergeStickyBody(b: StickyBody, f: StickyFields): StickyBody {
    StickyBody(f.text.GetOr(b.text), f.color.GetOr(b.color))
  }

  function MergeFileBody(b: FileData, f: FileFields): FileData {
    FileData(f.name.GetOr(b.name), f.fileType.GetOr(b.fileType), f.size.GetOr(b.size), f.date.GetOr(b.date))
  }

  function MergeFolderBody(b: FolderBody, f: FolderFields): FolderBody {
    FolderBody(f.name.GetOr(b.name), f.files.GetOr(b.files))
  }

  /** `{ ...item, ...updates, zIndex: <moves> ? z : item.zIndex }` */
  function Merge<B, F>(e: Positioned<B>, p: Patch<F>, mergeBody: (B, F) -> B, z: int): Positioned<B> {
    Positioned(e.id, p.x.GetOr(e.x), p.y.GetOr(e.y), if Moves(p) then z else e.zIndex, mergeBody(e.body, p.fields))
  }

  function HasId<B>(s: seq<Positioned<B>>, id: string): (b: bool)
    ensures b <==> exists i :: 0 <= i < |s| && s[i].id == id
  {
    if s == [] then false else s[0].id == id || HasId(s[1..], id)
  }

  ghost predicate UniqueIds<B>(s: seq<Positioned<B>>) {
    forall i, j :: 0 <= i < j < |s| ==> s[i].id != s[j].id
  }

  ghost predicate ZAtMost<B>(s: seq<Positioned<B>>, m: int) {
    forall i :: 0 <= i < |s| ==> s[i].zIndex <= m
  }

  // ---------------------------------------------------------------- update

  /** `prev.map(item => item.id === id ? Merge(item) : item)` */
  function UpdateById<B, F>(s: seq<Positioned<B>>, id: string, p: Patch<F>, mergeBody: (B, F) -> B, z: int): (r: seq<Positioned<B>>)
    ensures |r| == |s|
  {
    if s == [] then []
    else [if s[0].id == id then Merge(s[0], p, mergeBody, z) else s[0]] + UpdateById(s[1..], id, p, mergeBody, z)
  }

  /**
   * What an update does to entry i: an entry with another id is untouched; the
   * matching entry takes the patch's fields, keeps its id, and takes the new
   * z-index exactly when the patch carries x or y.
   */
  lemma {:induction false} UpdateByIdAt<B, F>(s: seq<Positioned<B>>, id: string, p: Patch<F>, mergeBody: (B, F) -> B, z: int, i: int)
    requires 0 <= i < |s|
    ensures var r := UpdateById(s, id, p, mergeBody, z);
      && r[i].id == s[i].id
      && (s[i].id != id ==> r[i] == s[i])
      && (s[i].id == id ==>
            && r[i].x == p.x.GetOr(s[i].x) && r[i].y == p.y.GetOr(s[i].y)
            && r[i].zIndex == (if Moves(p) then z else s[i].zIndex)
            && r[i].body == mergeBody(s[i].body, p.fields))
  {
    if i > 0 {
      UpdateByIdAt(s[1..], id, p, mergeBody, z, i - 1);
    }
  }

  /** An update naming no entry leaves the list identical (a stale callback is a no-op). */
  lemma {:induction false} UpdateByIdUnknown<B, F>(s: seq<Positioned<B>>, id: string, p: Patch<F>, mergeBody: (B, F) -> B, z: int)
    requires !HasId(s, id)
    ensures UpdateById(s, id, p, mergeBody, z) == s
  {
    if s != [] {
      UpdateByIdUnknown(s[1..], id, p, mergeBody, z);
    }
  }

  /** A text, color or name update (no x, no y) keeps every z-index. */
  lemma {:induction false} UpdateWithoutMoveKeepsZ<B, F>(s: seq<Positioned<B>>, id: string, p: Patch<F>, mergeBody: (B, F) -> B, z: int, i: int)
    requires 0 <= i < |s| && !Moves(p)
    ensures UpdateById(s, id, p, mergeBody, z)[i].zIndex == s[i].zIndex
    ensures UpdateById(s, id, p, mergeBody, z)[i].x == s[i].x
    ensures UpdateById(s, id, p, mergeBody, z)[i].y == s[i].y
  {
    UpdateByIdAt(s, id, p, mergeBody, z, i);
  }

  lemma {:induction false} UpdateByIdKeepsInvariants<B, F>(s: seq<Positioned<B>>, id: string, p: Patch<F>, mergeBody: (B, F) -> B, m: int, z: int)
    requires UniqueIds(s) && ZAtMost(s, m) && m <= z
    ensures UniqueIds(UpdateById(s, id, p, mergeBody, z))
    ensures ZAtMost(UpdateById(s, id, p, mergeBody, z), z)
  {
    var r := UpdateById(s, id, p, mergeBody, z);
    forall i | 0 <= i < |s| ensures r[i].id == s[i].id && r[i].zIndex <= z {
      UpdateByIdAt(s, id, p, mergeBody, z, i);
    }
  }

  /**
   * The store's invariant across an update that draws the next z-index m + 1
   * only when it moves an entry that exists: ids stay unique and every z-index
   * stays at most the new counter.
   */
  lemma UpdateByIdKeepsCounterBound<B, F>(s: seq<Positioned<B>>, id: string, p: Patch<F>, mergeBody: (B, F) -> B, m: int)
    requires UniqueIds(s) && ZAtMost(s, m)
    ensures UniqueIds(UpdateById(s, id, p, mergeBody, m + 1))
    ensures ZAtMost(UpdateById(s, id, p, mergeBody, m + 1), if Moves(p) && HasId(s, id) then m + 1 else m)
  {
    var u := UpdateById(s, id, p, mergeBody, m + 1);
    UpdateByIdKeepsInvariants(s, id, p, mergeBody, m, m + 1);
    if !HasId(s, id) {
      UpdateByIdUnknown(s, id, p, mergeBody, m + 1);
    } else if !Moves(p) {
      forall i | 0 <= i < |u| ensures u[i].zIndex <= m {
        UpdateWithoutMoveKeepsZ(s, id, p, mergeBody, m + 1, i);
      }
    }
  }

  // ---------------------------------------------------------------- delete

  /** `prev.filter(item => item.id !== id)` */
  function RemoveById<B>(s: seq<Positioned<B>>, id: string): (r: seq<Positioned<B>>)
    ensures |r| <= |s|
    ensures forall e :: e in r ==> e in s && e.id != id
  {
    if s == [] then []
    else if s[0].id == id then RemoveById(s[1..], id)
    else [s[0]] + RemoveById(s[1..], id)
  }

  /** Deleting an id that is not present changes nothing. */
  lemma {:induction false} RemoveByIdUnknown<B>(s: seq<Positioned<B>>, id: string)
    requires !HasId(s, id)
    ensures RemoveById(s, id) == s
  {
    if s != [] {
      RemoveByIdUnknown(s[1..], id);
    }
  }

  lemma TailUnique<B>(s: seq<Positioned<B>>)
    requires UniqueIds(s) && s != []
    ensures UniqueIds(s[1..])
  {
    forall i, j | 0 <= i < j < |s[1..]| ensures s[1..][i].id != s[1..][j].id {
      assert s[1..][i] == s[i + 1] && s[1..][j] == s[j + 1];
    }
  }

  /** With unique ids, the entries after the one carrying `id` do not carry it. */
  lemma TailLacksId<B>(s: seq<Positioned<B>>, id: string)
    requires UniqueIds(s) && s != [] && s[0].id == id
    ensures !HasId(s[1..], id)
  {
    forall j | 0 <= j < |s[1..]| ensures s[1..][j].id != id {
      assert s[1..][j] == s[j + 1];
    }
  }

  /** Rebuilding the splice at i from the splice of the tail at i - 1. */
  lemma SpliceCons<B>(s: seq<Positioned<B>>, i: int)
    requires 0 < i < |s|
    ensures [s[0]] + (s[1..][..i - 1] + s[1..][i..]) == s[..i] + s[i + 1..]
  {
    assert s[1..][..i - 1] == s[1..i];
    assert s[1..][i..] == s[i + 1..];
    assert [s[0]] + s[1..i] == s[..i];
  }

  /** With unique ids, deleting the entry at i removes exactly it and keeps the rest in order. */
  lemma {:induction false} RemoveByIdSplice<B>(s: seq<Positioned<B>>, id: string, i: int)
    requires UniqueIds(s) && 0 <= i < |s| && s[i].id == id
    ensures RemoveById(s, id) == s[..i] + s[i + 1..]
  {
    if i == 0 {
      TailLacksId(s, id);
      RemoveByIdUnknown(s[1..], id);
      assert s[..0] + s[1..] == s[1..];
    } else {
      TailUnique(s);
      assert s[0].id != id by {
        assert s[0].id != s[i].id;
      }
      RemoveByIdSplice(s[1..], id, i - 1);
      SpliceCons(s, i);
    }
  }

  /** Putting an entry in front keeps the invariants when its id is new and its z-index is in bound. */
  lemma ConsKeepsInvariants<B>(h: Positioned<B>, t: seq<Positioned<B>>, m: int)
    requires UniqueIds(t) && ZAtMost(t, m) && h.zIndex <= m
    requires forall j :: 0 <= j < |t| ==> t[j].id != h.id
    ensures UniqueIds([h] + t) && ZAtMost([h] + t, m)
  {
    var r := [h] + t;
    forall i | 0 <= i < |r| ensures r[i].zIndex <= m && (i > 0 ==> r[i] == t[i - 1]) {
      if i > 0 {
        assert r[i] == t[i - 1];
      }
    }
  }

  /** The entries a filter keeps from the tail carry neither the head's id nor a z-index above m. */
  lemma FilteredTailFacts<B>(s: seq<Positioned<B>>, id: string, m: int)
    requires UniqueIds(s) && ZAtMost(s, m) && s != []
    ensures var t := RemoveById(s[1..], id); forall j :: 0 <= j < |t| ==> t[j].id != s[0].id
  {
    var t := RemoveById(s[1..], id);
    forall j | 0 <= j < |t| ensures t[j].id != s[0].id {
      assert t[j] in t;
      var k :| 0 <= k < |s[1..]| && s[1..][k] == t[j];
      assert s[k + 1] == t[j];
    }
  }

  lemma {:induction false} RemoveByIdKeepsInvariants<B>(s: seq<Positioned<B>>, id: string, m: int)
    requires UniqueIds(s) && ZAtMost(s, m)
    ensures UniqueIds(RemoveById(s, id)) && ZAtMost(RemoveById(s, id), m)
  {
    if s != [] {
      TailUnique(s);
      assert ZAtMost(s[1..], m);
      RemoveByIdKeepsInvariants(s[1..], id, m);
      if s[0].id != id {
        FilteredTailFacts(s, id, m);
        ConsKeepsInvariants(s[0], RemoveById(s[1..], id), m);
      }
    }
  }

  // ---------------------------------------------------------------- add

  /** `r * span`: a `Math.random()` draw scaled to a span of the screen. */
  function Scale(r: real, span: real): real { r * span }

  /** The record `addStickyNote` builds from the clock-derived id, `Math.random()` draws and the next z-index. */
  function NewStickyNote(id: string, rx: real, ry: real, screenWidth: real, screenHeight: real, z: int): StickyNoteData {
    Positioned(id, Scale(rx, screenWidth - 100.0), Scale(ry, screenHeight - 200.0) + 100.0, z, StickyBody("New note", Normal))
  }

  /** The record `addNewFile` builds: size `'0 KB'`, date `'Just now'`. */
  function NewDeskFile(id: string, name: string, fileType: string, rx: real, ry: real, screenWidth: real, screenHeight: real, z: int): DeskFileData {
    Positioned(id, Scale(rx, screenWidth - 120.0) + 60.0, Scale(ry, screenHeight - 300.0) + 150.0, z, FileData(name, fileType, "0 KB", "Just now"))
  }

  /** The record `addNewFolder` builds: an empty folder. */
  function NewDeskFolder(id: string, name: string, rx: real, ry: real, screenWidth: real, screenHeight: real, z: int): DeskFolderData {
    Positioned(id, Scale(rx, screenWidth - 120.0) + 60.0, Scale(ry, screenHeight - 300.0) + 150.0, z, FolderBody(name, []))
  }

  lemma ScaledBelow(r: real, span: real)
    requires 0.0 <= r < 1.0 && span > 0.0
    ensures 0.0 <= Scale(r, span) < span
  {
    assert span - r * span == (1.0 - r) * span;
  }

  /** With draws in [0, 1), a new sticky note lands in x in [0, W - 100), y in [100, H - 100). */
  lemma NewStickyNoteInBox(id: string, rx: real, ry: real, w: real, h: real, z: int)
    requires 0.0 <= rx < 1.0 && 0.0 <= ry < 1.0 && w > 100.0 && h > 200.0
    ensures var n := NewStickyNote(id, rx, ry, w, h, z);
      0.0 <= n.x < w - 100.0 && 100.0 <= n.y < h - 100.0
  {
    ScaledBelow(rx, w - 100.0);
    ScaledBelow(ry, h - 200.0);
  }

  /** New files and folders land in x in [60, W - 60), y in [150, H - 150). */
  lemma NewFileAndFolderInBox(id: string, name: string, fileType: string, rx: real, ry: real, w: real, h: real, z: int)
    requires 0.0 <= rx < 1.0 && 0.0 <= ry < 1.0 && w > 120.0 && h > 300.0
    ensures var f := NewDeskFile(id, name, fileType, rx, ry, w, h, z);
      60.0 <= f.x < w - 60.0 && 150.0 <= f.y < h - 150.0
    ensures var d := NewDeskFolder(id, name, rx, ry, w, h, z);
      60.0 <= d.x < w - 60.0 && 150.0 <= d.y < h - 150.0
  {
    ScaledBelow(rx, w - 120.0);
    ScaledBelow(ry, h - 300.0);
  }

  lemma AppendKeepsInvariants<B>(s: seq<Positioned<B>>, e: Positioned<B>, m: int)
    requires UniqueIds(s) && ZAtMost(s, m) && !HasId(s, e.id) && e.zIndex <= m
    ensures UniqueIds(s + [e]) && ZAtMost(s + [e], m)
  {
  }

  // ---------------------------------------------------------------- render order

  /** An entry of `allItems`: the item tagged with its kind. */
  datatype RenderItem = StickyItem(note: StickyNoteData) | FileItem(file: DeskFileData) | FolderItem(folder: DeskFolderData)

  function Z(it: RenderItem): int {
    match it
    case StickyItem(n) => n.zIndex
    case FileItem(f) => f.zIndex
    case FolderItem(d) => d.zIndex
  }

  function StickyItems(s: seq<StickyNoteData>): (r: seq<RenderItem>)
    ensures |r| == |s| && forall i :: 0 <= i < |s| ==> r[i] == StickyItem(s[i])
  {
    seq(|s|, i requires 0 <= i < |s| => StickyItem(s[i]))
  }

  function FileItems(s: seq<DeskFileData>): (r: seq<RenderItem>)
    ensures |r| == |s| && forall i :: 0 <= i < |s| ==> r[i] == FileItem(s[i])
  {
    seq(|s|, i requires 0 <= i < |s| => FileItem(s[i]))
  }

  /**
   * `deskFiles.map(file => ({ ...file, type: 'file' as const }))` as written: the
   * kind tag is the same key as the file's own `type`, and the later key of a
   * spread wins, so each rendered file carries the type "file". The stored
   * record is not changed.
   */
  function AsWrittenFileItems(s: seq<DeskFileData>): (r: seq<RenderItem>)
    ensures |r| == |s|
    ensures forall i :: 0 <= i < |s| ==> r[i] == FileItem(s[i].(body := s[i].body.(fileType := "file")))
    ensures forall i :: 0 <= i < |s| ==> Z(r[i]) == s[i].zIndex
  {
    seq(|s|, i requires 0 <= i < |s| => FileItem(s[i].(body := s[i].body.(fileType := "file"))))
  }

  /** The seeded `Contract.pdf`, a "PDF Document" in the store, reaches its component with the type "file". */
  lemma AsWrittenSeedFileShowsFile()
    ensures SeedDeskFiles()[0].body.fileType == "PDF Document"
    ensures AsWrittenFileItems(SeedDeskFiles())[0].file.body.fileType == "file"
    ensures FileItems(SeedDeskFiles())[0].file.body.fileType == "PDF Document"
  {
  }

  function FolderItems(s: seq<DeskFolderData>): (r: seq<RenderItem>)
    ensures |r| == |s| && forall i :: 0 <= i < |s| ==> r[i] == FolderItem(s[i])
  {
    seq(|s|, i requires 0 <= i < |s| => FolderItem(s[i]))
  }

  ghost predicate SortedByZ(s: seq<RenderItem>) {
    forall i, j :: 0 <= i < j < |s| ==> Z(s[i]) <= Z(s[j])
  }

  ghost predicate ZAtLeast(s: seq<RenderItem>, k: int) {
    forall i :: 0 <= i < |s| ==> k <= Z(s[i])
  }

  lemma ConsSorted(h: RenderItem, t: seq<RenderItem>)
    requires SortedByZ(t) && (t != [] ==> Z(h) <= Z(t[0]))
    ensures SortedByZ([h] + t)
  {
    var r := [h] + t;
    forall i, j | 0 <= i < j < |r| ensures Z(r[i]) <= Z(r[j]) {
      assert r[j] == t[j - 1];
      if i > 0 {
        assert r[i] == t[i - 1];
      }
    }
  }

  /** Inserts x after every element whose z-index is not above its own (so equal keys keep their order). */
  function InsertByZ(s: seq<RenderItem>, x: RenderItem): (r: seq<RenderItem>)
    requires SortedByZ(s)
    ensures SortedByZ(r)
    ensures multiset(r) == multiset(s) + multiset{x}
    ensures |r| == |s| + 1
    ensures r[0] == x || (s != [] && r[0] == s[0])
  {
    if s == [] then [x]
    else if Z(x) < Z(s[0]) then
      ConsSorted(x, s);
      [x] + s
    else
      assert s == [s[0]] + s[1..];
      var t := InsertByZ(s[1..], x);
      assert Z(s[0]) <= Z(t[0]);
      ConsSorted(s[0], t);
      [s[0]] + t
  }

  /** `.sort((a, b) => a.zIndex - b.zIndex)`: a stable sort by ascending z-index. */
  function SortByZ(s: seq<RenderItem>): (r: seq<RenderItem>)
    ensures SortedByZ(r)
    ensures multiset(r) == multiset(s)
  {
    if s == [] then []
    else
      assert s == s[..|s| - 1] + [s[|s| - 1]];
      InsertByZ(SortByZ(s[..|s| - 1]), s[|s| - 1])
  }

  /** `allItems`: stickies, then files, then folders, sorted by z-index. */
  function AllItems(stickies: seq<StickyNoteData>, files: seq<DeskFileData>, folders: seq<DeskFolderData>): seq<RenderItem> {
    SortByZ(StickyItems(stickies) + FileItems(files) + FolderItems(folders))
  }

  /** The items with z-index k, in order. */
  function WithZ(s: seq<RenderItem>, k: int): seq<RenderItem> {
    if s == [] then [] else (if Z(s[0]) == k then [s[0]] else []) + WithZ(s[1..], k)
  }

  lemma {:induction false} WithZConcat(a: seq<RenderItem>, b: seq<RenderItem>, k: int)
    ensures WithZ(a + b, k) == WithZ(a, k) + WithZ(b, k)
  {
    if a == [] {
      assert a + b == b;
    } else {
      var h := if Z(a[0]) == k then [a[0]] else [];
      assert (a + b)[0] == a[0];
      assert (a + b)[1..] == a[1..] + b;
      WithZConcat(a[1..], b, k);
      assert WithZ(a + b, k) == h + WithZ(a[1..] + b, k);
      assert WithZ(a, k) == h + WithZ(a[1..], k);
    }
  }

  lemma {:induction false} WithZAbsent(s: seq<RenderItem>, k: int)
    requires forall i :: 0 <= i < |s| ==> Z(s[i]) != k
    ensures WithZ(s, k) == []
  {
    if s != [] {
      WithZAbsent(s[1..], k);
    }
  }

  /** The item goes in front of a list that starts above it: none of that list shares its z-index. */
  lemma InsertInFrontWithZ(s: seq<RenderItem>, x: RenderItem, k: int)
    requires SortedByZ(s) && s != [] && Z(x) < Z(s[0])
    ensures WithZ([x] + s, k) == WithZ(s, k) + (if Z(x) == k then [x] else [])
  {
    var r := [x] + s;
    assert r[0] == x && r[1..] == s;
    if Z(x) == k {
      forall i | 0 <= i < |s| ensures Z(s[i]) != k {
        assert Z(s[0]) <= Z(s[i]);
      }
      WithZAbsent(s, k);
      assert WithZ(r, k) == [x];
    } else {
      assert WithZ(r, k) == WithZ(s, k);
    }
  }

  /** The item goes after the head: the head's contribution comes first. */
  lemma InsertAfterHeadWithZ(s: seq<RenderItem>, t: seq<RenderItem>, xs: seq<RenderItem>, k: int)
    requires s != [] && WithZ(t, k) == WithZ(s[1..], k) + xs
    ensures WithZ([s[0]] + t, k) == WithZ(s, k) + xs
  {
    var h := if Z(s[0]) == k then [s[0]] else [];
    var r := [s[0]] + t;
    assert r[0] == s[0] && r[1..] == t;
    assert WithZ(r, k) == h + WithZ(t, k);
    assert WithZ(s, k) == h + WithZ(s[1..], k);
    assert h + (WithZ(s[1..], k) + xs) == (h + WithZ(s[1..], k)) + xs;
  }

  lemma {:induction false} InsertByZWithZ(s: seq<RenderItem>, x: RenderItem, k: int)
    requires SortedByZ(s)
    ensures WithZ(InsertByZ(s, x), k) == WithZ(s, k) + (if Z(x) == k then [x] else [])
  {
    if s == [] {
      assert InsertByZ(s, x) == [x];
      assert [x][1..] == [];
    } else if Z(x) < Z(s[0]) {
      assert InsertByZ(s, x) == [x] + s;
      InsertInFrontWithZ(s, x, k);
    } else {
      var t := InsertByZ(s[1..], x);
      assert InsertByZ(s, x) == [s[0]] + t;
      InsertByZWithZ(s[1..], x, k);
      InsertAfterHeadWithZ(s, t, if Z(x) == k then [x] else [], k);
    }
  }

  /**
   * Stability: for every z-index, the items carrying it appear in the render
   * list in the same order as in the input. Together with SortedByZ and the
   * multiset equation this determines the render list completely.
   */
  lemma {:induction false} SortByZStable(s: seq<RenderItem>, k: int)
    ensures WithZ(SortByZ(s), k) == WithZ(s, k)
  {
    if s != [] {
      var init, last := s[..|s| - 1], s[|s| - 1];
      assert s == init + [last];
      assert SortByZ(s) == InsertByZ(SortByZ(init), last);
      SortByZStable(init, k);
      InsertByZWithZ(SortByZ(init), last, k);
      WithZConcat(init, [last], k);
      assert WithZ([last], k) == if Z(last) == k then [last] else [];
    }
  }

  /** Ties keep concatenation order: sticky notes, then files, then folders. */
  lemma AllItemsTieOrder(stickies: seq<StickyNoteData>, files: seq<DeskFileData>, folders: seq<DeskFolderData>, k: int)
    ensures WithZ(AllItems(stickies, files, folders), k)
         == WithZ(StickyItems(stickies), k) + WithZ(FileItems(files), k) + WithZ(FolderItems(folders), k)
  {
    SortByZStable(StickyItems(stickies) + FileItems(files) + FolderItems(folders), k);
    WithZConcat(StickyItems(stickies) + FileItems(files), FolderItems(folders), k);
    WithZConcat(StickyItems(stickies), FileItems(files), k);
  }

  /** An item whose z-index is above every other item's is painted last (on top). */
  lemma SortedEndsWithTop(s: seq<RenderItem>, top: RenderItem)
    requires top in s
    requires forall i :: 0 <= i < |s| && s[i] != top ==> Z(s[i]) < Z(top)
    ensures var r := SortByZ(s); |r| > 0 && r[|r| - 1] == top
  {
    LastOfSortedPermutation(SortByZ(s), s, top);
  }

  /** Any sorted rearrangement of s ends with the item strictly above all others. */
  lemma LastOfSortedPermutation(r: seq<RenderItem>, s: seq<RenderItem>, top: RenderItem)
    requires SortedByZ(r) && multiset(r) == multiset(s)
    requires top in s
    requires forall i :: 0 <= i < |s| && s[i] != top ==> Z(s[i]) < Z(top)
    ensures |r| > 0 && r[|r| - 1] == top
  {
    assert top in multiset(s);
    assert top in r;
    var j :| 0 <= j < |r| && r[j] == top;
    var last := r[|r| - 1];
    assert last in multiset(s);
    var i :| 0 <= i < |s| && s[i] == last;
    assert last == top || Z(last) < Z(top);
    assert j == |r| - 1 || Z(r[j]) <= Z(r[|r| - 1]);
  }

  /** Every file and folder item of the render input is at most m. */
  lemma OthersAtMost(files: seq<DeskFileData>, folders: seq<DeskFolderData>, m: int)
    requires ZAtMost(files, m) && ZAtMost(folders, m)
    ensures var b := FileItems(files) + FolderItems(folders); forall j :: 0 <= j < |b| ==> Z(b[j]) <= m
  {
    var b := FileItems(files) + FolderItems(folders);
    forall j | 0 <= j < |b| ensures Z(b[j]) <= m {
      if j < |files| {
        assert b[j] == FileItem(files[j]);
      } else {
        assert b[j] == FolderItem(folders[j - |files|]);
      }
    }
  }

  /** After the move, the moved note is the only sticky note at m + 1; all others stay at most m. */
  lemma MovedStickyIsAlone(stickies: seq<StickyNoteData>, id: string, p: Patch<StickyFields>, m: int, k: int)
    requires UniqueIds(stickies) && ZAtMost(stickies, m)
    requires Moves(p) && 0 <= k < |stickies| && stickies[k].id == id
    ensures var u := UpdateById(stickies, id, p, MergeStickyBody, m + 1);
      && u[k].id == id && u[k].zIndex == m + 1
      && forall i :: 0 <= i < |u| && i != k ==> u[i].zIndex <= m
  {
    var u := UpdateById(stickies, id, p, MergeStickyBody, m + 1);
    UpdateByIdAt(stickies, id, p, MergeStickyBody, m + 1, k);
    forall i | 0 <= i < |u| && i != k ensures u[i].zIndex <= m {
      UpdateByIdAt(stickies, id, p, MergeStickyBody, m + 1, i);
    }
  }

  /** An item at m + 1 among items at most m is strictly above every other item. */
  lemma TopOfConcat(a: seq<RenderItem>, b: seq<RenderItem>, k: int, m: int)
    requires 0 <= k < |a| && Z(a[k]) == m + 1
    requires forall i :: 0 <= i < |a| && i != k ==> Z(a[i]) <= m
    requires forall j :: 0 <= j < |b| ==> Z(b[j]) <= m
    ensures forall i :: 0 <= i < |a + b| && (a + b)[i] != a[k] ==> Z((a + b)[i]) < Z(a[k])
  {
    forall i | 0 <= i < |a + b| && (a + b)[i] != a[k] ensures Z((a + b)[i]) < Z(a[k]) {
      if i < |a| {
        assert (a + b)[i] == a[i];
      } else {
        assert (a + b)[i] == b[i - |a|];
      }
    }
  }

  /** Moving a sticky note with the next counter value brings it to the top of the render list. */
  lemma MovedStickyIsPaintedLast(stickies: seq<StickyNoteData>, files: seq<DeskFileData>, folders: seq<DeskFolderData>,
                                 id: string, p: Patch<StickyFields>, m: int)
    requires UniqueIds(stickies) && ZAtMost(stickies, m) && ZAtMost(files, m) && ZAtMost(folders, m)
    requires Moves(p) && HasId(stickies, id)
    ensures var r := AllItems(UpdateById(stickies, id, p, MergeStickyBody, m + 1), files, folders);
      |r| > 0 && r[|r| - 1].StickyItem? && r[|r| - 1].note.id == id && Z(r[|r| - 1]) == m + 1
  {
    var u := UpdateById(stickies, id, p, MergeStickyBody, m + 1);
    var k :| 0 <= k < |stickies| && stickies[k].id == id;
    MovedStickyIsAlone(stickies, id, p, m, k);
    OthersAtMost(files, folders, m);
    var a := StickyItems(u);
    var b := FileItems(files) + FolderItems(folders);
    assert forall i :: 0 <= i < |a| ==> Z(a[i]) == u[i].zIndex;
    TopOfConcat(a, b, k, m);
    assert a + b == StickyItems(u) + FileItems(files) + FolderItems(folders);
    assert a[k] in a + b;
    SortedEndsWithTop(a + b, a[k]);
  }

  // ---------------------------------------------------------------- the scene

  function SeedStickyNotes(): seq<StickyNoteData> {
    [ Positioned("1", 50.0, 150.0, 1, StickyBody("Call client at 3pm", Urgent)),
      Positioned("2", 200.0, 200.0, 2, StickyBody("Review proposal", Normal)),
      Positioned("3", 120.0, 320.0, 3, StickyBody("Order supplies", Low)) ]
  }

  function SeedDeskFiles(): seq<DeskFileData> {
    [ Positioned("1", 280.0, 180.0, 4, FileData("Contract.pdf", "PDF Document", "245 KB", "Today")),
      Positioned("2", 160.0, 280.0, 5, FileData("Report.docx", "Word Document", "89 KB", "Yesterday")) ]
  }

  function SeedDeskFolders(): seq<DeskFolderData> {
    [ Positioned("1", 240.0, 120.0, 6, FolderBody("Project Alpha", [
        FileData("Proposal.pdf", "PDF Document", "1.2 MB", "Today"),
        FileData("Budget.xlsx", "Excel File", "234 KB", "Yesterday") ])) ]
  }

  function SeedQuickAccessFiles(): seq<FileData> {
    [ FileData("Invoice.pdf", "PDF Document", "245 KB", "Today"),
      FileData("PitchDeck.pptx", "PowerPoint", "1.2 MB", "Yesterday"),
      FileData("Contract.docx", "Word Document", "89 KB", "2 days ago") ]
  }

  function SeedLongTermFiles(): seq<FileData> {
    [ FileData("Annual_Report_2023.pdf", "PDF Document", "5.4 MB", "Last week"),
      FileData("Budget_Spreadsheet.xlsx", "Excel File", "234 KB", "Last month"),
      FileData("Team_Photos.zip", "Archive", "15.2 MB", "2 months ago"),
      FileData("Project_Archive.zip", "Archive", "125 MB", "3 months ago"),
      FileData("Backup_Database.sql", "Database", "45 MB", "6 months ago") ]
  }

  /** The initial counter value. */
  const InitialMaxZIndex: int := 10

  /** The seeded items carry z-indexes 1 to 6, all below the initial counter, with ids unique per collection. */
  lemma SeedsBelowCounter()
    ensures UniqueIds(SeedStickyNotes()) && UniqueIds(SeedDeskFiles()) && UniqueIds(SeedDeskFolders())
    ensures forall i :: 0 <= i < |SeedStickyNotes()| ==> 1 <= SeedStickyNotes()[i].zIndex < InitialMaxZIndex
    ensures forall i :: 0 <= i < |SeedDeskFiles()| ==> 1 <= SeedDeskFiles()[i].zIndex < InitialMaxZIndex
    ensures forall i :: 0 <= i < |SeedDeskFolders()| ==> 1 <= SeedDeskFolders()[i].zIndex < InitialMaxZIndex
  {
  }

  class DeskScene {
    const screenWidth: real
    const screenHeight: real
    var stickyNotes: seq<StickyNoteData>
    var deskFiles: seq<DeskFileData>
    var deskFolders: seq<DeskFolderData>
    var quickAccessFiles: seq<FileData>
    var longTermFiles: seq<FileData>
    var maxZIndex: int

    /** Ids are unique per collection and no item's z-index is above the counter. */
    ghost predicate Valid()
      reads this
    {
      && UniqueIds(stickyNotes) && UniqueIds(deskFiles) && UniqueIds(deskFolders)
      && ZAtMost(stickyNotes, maxZIndex) && ZAtMost(deskFiles, maxZIndex) && ZAtMost(deskFolders, maxZIndex)
    }

    /** The render list, lowest z-index first. */
    function RenderList(): seq<RenderItem>
      reads this
    {
      AllItems(stickyNotes, deskFiles, deskFolders)
    }

    constructor (screenWidth: real, screenHeight: real)
      ensures Valid()
      ensures this.screenWidth == screenWidth && this.screenHeight == screenHeight
      ensures stickyNotes == SeedStickyNotes() && deskFiles == SeedDeskFiles() && deskFolders == SeedDeskFolders()
      ensures quickAccessFiles == SeedQuickAccessFiles() && longTermFiles == SeedLongTermFiles()
      ensures maxZIndex == InitialMaxZIndex
    {
      this.screenWidth := screenWidth;
      this.screenHeight := screenHeight;
      stickyNotes := SeedStickyNotes();
      deskFiles := SeedDeskFiles();
      deskFolders := SeedDeskFolders();
      quickAccessFiles := SeedQuickAccessFiles();
      longTermFiles := SeedLongTermFiles();
      maxZIndex := InitialMaxZIndex;
    }

    /** `getNextZIndex`, as a true counter: k calls hand out ZOrder.Allocations(old counter, k). */
    method GetNextZIndex() returns (z: int)
      modifies this`maxZIndex
      ensures z == old(maxZIndex) + 1 && maxZIndex == z
      ensures [z] == ZOrder.Allocations(old(maxZIndex), 1)
    {
      maxZIndex := maxZIndex + 1;
      z := maxZIndex;
    }

    method UpdateStickyNote(id: string, updates: Patch<StickyFields>)
      requires Valid()
      modifies this`stickyNotes, this`maxZIndex
      ensures Valid()
      ensures stickyNotes == UpdateById(old(stickyNotes), id, updates, MergeStickyBody, old(maxZIndex) + 1)
      ensures maxZIndex == old(maxZIndex) + (if Moves(updates) && HasId(old(stickyNotes), id) then 1 else 0)
    {
      UpdateByIdKeepsCounterBound(stickyNotes, id, updates, MergeStickyBody, maxZIndex);
      var u := UpdateById(stickyNotes, id, updates, MergeStickyBody, maxZIndex + 1);
      if Moves(updates) && HasId(stickyNotes, id) {
        var _ := GetNextZIndex();
      }
      stickyNotes := u;
    }

    method DeleteStickyNote(id: string)
      requires Valid()
      modifies this`stickyNotes
      ensures Valid()
      ensures stickyNotes == RemoveById(old(stickyNotes), id)
    {
      RemoveByIdKeepsInvariants(stickyNotes, id, maxZIndex);
      stickyNotes := RemoveById(stickyNotes, id);
    }

    /** `addStickyNote`, with `Date.now().toString()` and the two `Math.random()` draws as parameters. */
    method AddStickyNote(id: string, rx: real, ry: real)
      requires Valid() && !HasId(stickyNotes, id)
      modifies this`stickyNotes, this`maxZIndex
      ensures Valid()
      ensures maxZIndex == old(maxZIndex) + 1
      ensures stickyNotes == old(stickyNotes) + [NewStickyNote(id, rx, ry, screenWidth, screenHeight, maxZIndex)]
    {
      var z := GetNextZIndex();
      AppendKeepsInvariants(stickyNotes, NewStickyNote(id, rx, ry, screenWidth, screenHeight, z), z);
      stickyNotes := stickyNotes + [NewStickyNote(id, rx, ry, screenWidth, screenHeight, z)];
    }

    method UpdateDeskFile(id: string, updates: Patch<FileFields>)
      requires Valid()
      modifies this`deskFiles, this`maxZIndex
      ensures Valid()
      ensures deskFiles == UpdateById(old(deskFiles), id, updates, MergeFileBody, old(maxZIndex) + 1)
      ensures maxZIndex == old(maxZIndex) + (if Moves(updates) && HasId(old(deskFiles), id) then 1 else 0)
    {
      UpdateByIdKeepsCounterBound(deskFiles, id, updates, MergeFileBody, maxZIndex);
      var u := UpdateById(deskFiles, id, updates, MergeFileBody, maxZIndex + 1);
      if Moves(updates) && HasId(deskFiles, id) {
        var _ := GetNextZIndex();
      }
      deskFiles := u;
    }

    method DeleteDeskFile(id: string)
      requires Valid()
      modifies this`deskFiles
      ensures Valid()
      ensures deskFiles == RemoveById(old(deskFiles), id)
    {
      RemoveByIdKeepsInvariants(deskFiles, id, maxZIndex);
      deskFiles := RemoveById(deskFiles, id);
    }

    method UpdateDeskFolder(id: string, updates: Patch<FolderFields>)
      requires Valid()
      modifies this`deskFolders, this`maxZIndex
      ensures Valid()
      ensures deskFolders == UpdateById(old(deskFolders), id, updates, MergeFolderBody, old(maxZIndex) + 1)
      ensures maxZIndex == old(maxZIndex) + (if Moves(updates) && HasId(old(deskFolders), id) then 1 else 0)
    {
      UpdateByIdKeepsCounterBound(deskFolders, id, updates, MergeFolderBody, maxZIndex);
      var u := UpdateById(deskFolders, id, updates, MergeFolderBody, maxZIndex + 1);
      if Moves(updates) && HasId(deskFolders, id) {
        var _ := GetNextZIndex();
      }
      deskFolders := u;
    }

    method DeleteDeskFolder(id: string)
      requires Valid()
      modifies this`deskFolders
      ensures Valid()
      ensures deskFolders == RemoveById(old(deskFolders), id)
    {
      RemoveByIdKeepsInvariants(deskFolders, id, maxZIndex);
      deskFolders := RemoveById(deskFolders, id);
    }

    /** `addNewFile(name, type)` */
    method AddNewFile(id: string, name: string, fileType: string, rx: real, ry: real)
      requires Valid() && !HasId(deskFiles, id)
      modifies this`deskFiles, this`maxZIndex
      ensures Valid()
      ensures maxZIndex == old(maxZIndex) + 1
      ensures deskFiles == old(deskFiles) + [NewDeskFile(id, name, fileType, rx, ry, screenWidth, screenHeight, maxZIndex)]
    {
      var z := GetNextZIndex();
      AppendKeepsInvariants(deskFiles, NewDeskFile(id, name, fileType, rx, ry, screenWidth, screenHeight, z), z);
      deskFiles := deskFiles + [NewDeskFile(id, name, fileType, rx, ry, screenWidth, screenHeight, z)];
    }

    /** `addNewFolder(name)` */
    method AddNewFolder(id: string, name: string, rx: real, ry: real)
      requires Valid() && !HasId(deskFolders, id)
      modifies this`deskFolders, this`maxZIndex
      ensures Valid()
      ensures maxZIndex == old(maxZIndex) + 1
      ensures deskFolders == old(deskFolders) + [NewDeskFolder(id, name, rx, ry, screenWidth, screenHeight, maxZIndex)]
    {
      var z := GetNextZIndex();
      AppendKeepsInvariants(deskFolders, NewDeskFolder(id, name, rx, ry, screenWidth, screenHeight, z), z);
      deskFolders := deskFolders + [NewDeskFolder(id, name, rx, ry, screenWidth, screenHeight, z)];
    }

    method HandleQuickAccessFileImported(file: FileData)
      modifies this`quickAccessFiles
      ensures quickAccessFiles == [file] + old(quickAccessFiles)
    {
      quickAccessFiles := [file] + quickAccessFiles;
    }

    method HandleLongTermFileImported(file: FileData)
      modifies this`longTermFiles
      ensures longTermFiles == [file] + old(longTermFiles)
    {
      longTermFiles := [file] + longTermFiles;
    }
  }
}
