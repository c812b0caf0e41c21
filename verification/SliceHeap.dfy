/** Slices as values, changed by the functions that Slices' methods are proved against, for use in interleavings. */
module SliceHeap {
  import opened RegistryTables
  import Slices

  datatype ListKey = Servers(name: Name) | Subscribers(name: Name)
  datatype Header = Header(arr: nat, len: nat)
  datatype Table = Table(heap: seq<seq<Addr>>, index: map<ListKey, Header>)

  predicate Readable(t: Table, h: Header) {
    h.arr < |t.heap| && h.len <= |t.heap[h.arr]|
  }

  /** What a header shows now. */
  function Read(t: Table, h: Header): seq<Addr>
    requires Readable(t, h)
  {
    t.heap[h.arr][..h.len]
  }

  /** Headers in the index are readable and no two lists share an array. */
  ghost predicate Wf(t: Table) {
    && (forall k :: k in t.index ==> Readable(t, t.index[k]))
    && (forall j, k :: j in t.index && k in t.index && j != k ==> t.index[j].arr != t.index[k].arr)
  }

  function Get(t: Table, k: ListKey): seq<Addr>
    requires Wf(t)
  {
    if k in t.index then Read(t, t.index[k]) else []
  }

  predicate HasRoom(t: Table, k: ListKey) {
    k in t.index && Readable(t, t.index[k]) && t.index[k].len < |t.heap[t.index[k].arr]|
  }

  function AppendInPlace(t: Table, k: ListKey, a: Addr): Table
    requires HasRoom(t, k)
  {
    var h := t.index[k];
    Table(t.heap[h.arr := Slices.Written(t.heap[h.arr], h.len, a)], t.index[k := Header(h.arr, h.len + 1)])
  }

  /** Into a new array with `spare` more slots. */
  function AppendMoved(t: Table, k: ListKey, a: Addr, spare: nat): Table
    requires Wf(t)
  {
    Table(t.heap + [Slices.Grown(Get(t, k), a, spare)], t.index[k := Header(|t.heap|, |Get(t, k)| + 1)])
  }

  /** `m[k] = append(m[k], a)`. */
  function Append(t: Table, k: ListKey, a: Addr, spare: nat): Table
    requires Wf(t)
  {
    if HasRoom(t, k) then AppendInPlace(t, k, a) else AppendMoved(t, k, a, spare)
  }

  /** `m[k] = append(m[k][:i], m[k][i+1:]...)`: always in place. */
  function CutAt(t: Table, k: ListKey, i: nat): Table
    requires Wf(t) && i < |Get(t, k)|
  {
    var h := t.index[k];
    Table(t.heap[h.arr := Slices.ShiftOut(t.heap[h.arr], i, h.len)], t.index[k := Header(h.arr, h.len - 1)])
  }

  function IndexOf(xs: seq<Addr>, a: Addr): (i: nat)
    requires a in xs
    ensures i < |xs| && xs[i] == a && forall j :: 0 <= j < i ==> xs[j] != a
  {
    if xs[0] == a then 0 else 1 + IndexOf(xs[1..], a)
  }

  function Insert(t: Table, k: ListKey, a: Addr, spare: nat): Table
    requires Wf(t)
  {
    if a in Get(t, k) then t else Append(t, k, a, spare)
  }

  function Remove(t: Table, k: ListKey, a: Addr): Table
    requires Wf(t)
  {
    if a in Get(t, k) then CutAt(t, k, IndexOf(Get(t, k), a)) else t
  }

  function DropIfEmpty(t: Table, k: ListKey): Table {
    if k in t.index && t.index[k].len == 0 then t.(index := t.index - {k}) else t
  }

  /** In-place removal, then `delete` if the list became empty. */
  function RemoveOrDrop(t: Table, k: ListKey, a: Addr): Table
    requires Wf(t)
  {
    DropIfEmpty(Remove(t, k, a), k)
  }

  // ---------------------------------------------------------------- what the operations mean

  /** `u` is `t` with list `k` showing `xs`. */
  ghost predicate Sets(t: Table, u: Table, k: ListKey, xs: seq<Addr>) {
    && Wf(t) && Wf(u) && Get(u, k) == xs
    && (forall j :: j != k ==> (j in u.index <==> j in t.index) && Get(u, j) == Get(t, j))
  }

  lemma AppendInPlaceMeans(t: Table, k: ListKey, a: Addr)
    requires Wf(t) && HasRoom(t, k)
    ensures Sets(t, AppendInPlace(t, k, a), k, Get(t, k) + [a])
  {
  }

  lemma AppendMovedMeans(t: Table, k: ListKey, a: Addr, spare: nat)
    requires Wf(t)
    ensures Sets(t, AppendMoved(t, k, a, spare), k, Get(t, k) + [a])
  {
  }

  lemma CutMeans(t: Table, k: ListKey, i: nat)
    requires Wf(t) && i < |Get(t, k)|
    ensures Sets(t, CutAt(t, k, i), k, Get(t, k)[..i] + Get(t, k)[i + 1..])
  {
    var u := CutAt(t, k, i);
    assert Get(u, k) == Get(t, k)[..i] + Get(t, k)[i + 1..];
  }

  lemma InsertMeans(t: Table, k: ListKey, a: Addr, spare: nat)
    requires Wf(t)
    ensures Sets(t, Insert(t, k, a, spare), k, AddOnce(Get(t, k), a)) && k in Insert(t, k, a, spare).index
  {
    if a !in Get(t, k) {
      if HasRoom(t, k) { AppendInPlaceMeans(t, k, a); } else { AppendMovedMeans(t, k, a, spare); }
    }
  }

  lemma RemoveMeans(t: Table, k: ListKey, a: Addr)
    requires Wf(t)
    ensures Sets(t, Remove(t, k, a), k, RemoveFirst(Get(t, k), a)) && (k in Remove(t, k, a).index <==> k in t.index)
  {
    if a in Get(t, k) {
      var i := IndexOf(Get(t, k), a);
      CutMeans(t, k, i);
      RemoveAtIsRemoveFirst(Get(t, k), i);
    } else {
      RemoveAbsent(Get(t, k), a);
    }
  }

  lemma DropMeans(t: Table, k: ListKey)
    requires Wf(t)
    ensures Sets(t, DropIfEmpty(t, k), k, Get(t, k)) && (k in DropIfEmpty(t, k).index <==> Get(t, k) != [])
  {
  }

  lemma RemoveOrDropMeans(t: Table, k: ListKey, a: Addr)
    requires Wf(t)
    ensures Sets(t, RemoveOrDrop(t, k, a), k, RemoveFirst(Get(t, k), a))
    ensures k in RemoveOrDrop(t, k, a).index <==> RemoveFirst(Get(t, k), a) != []
  {
    RemoveMeans(t, k, a);
    DropMeans(Remove(t, k, a), k);
  }

  // ---------------------------------------------------------------- headers read earlier

  /** An earlier header of list `k`: its array is still `k`'s or nobody's, and while it is `k`'s the list has
      not become shorter than the header. */
  ghost predicate Snapshot(t: Table, k: ListKey, h: Header) {
    && Readable(t, h)
    && (forall j :: j in t.index && j != k ==> t.index[j].arr != h.arr)
    && (k in t.index && t.index[k].arr == h.arr ==> h.len <= t.index[k].len)
  }

  /** Appending to any list leaves what an earlier header shows untouched. */
  lemma AppendKeepsSnapshot(t: Table, k: ListKey, h: Header, j: ListKey, a: Addr, spare: nat)
    requires Wf(t) && Snapshot(t, k, h)
    ensures Snapshot(Append(t, j, a, spare), k, h) && Read(Append(t, j, a, spare), h) == Read(t, h)
  {
  }

  /** So does cutting an element out of any other list. */
  lemma CutElsewhereKeepsSnapshot(t: Table, k: ListKey, h: Header, j: ListKey, i: nat)
    requires Wf(t) && Snapshot(t, k, h) && i < |Get(t, j)| && j != k
    ensures Snapshot(CutAt(t, j, i), k, h) && Read(CutAt(t, j, i), h) == Read(t, h)
  {
  }

  /** Cutting element `i` out of the very list a header shows leaves the header's contents alone if and only
      if it was the last one; otherwise the shown tail moves and its last element appears twice. */
  lemma CutUnderSnapshot(t: Table, k: ListKey, i: nat)
    requires Wf(t) && i < |Get(t, k)| && NoDup(Get(t, k))
    ensures Readable(CutAt(t, k, i), t.index[k])
    ensures Read(CutAt(t, k, i), t.index[k]) == Get(t, k)[..i] + Get(t, k)[i + 1..] + [Get(t, k)[|Get(t, k)| - 1]]
    ensures Read(CutAt(t, k, i), t.index[k]) == Get(t, k) <==> i == |Get(t, k)| - 1
  {
    var xs := Get(t, k);
    var ys := Read(CutAt(t, k, i), t.index[k]);
    assert ys == xs[..i] + xs[i + 1..] + [xs[|xs| - 1]];
    if i < |xs| - 1 {
      assert ys[i] == xs[i + 1] && xs[i + 1] != xs[i];
    }
  }

  /** An array a header of list `k` once used: still `k`'s, or nobody's. */
  ghost predicate Owned(t: Table, k: ListKey, h: Header) {
    Readable(t, h) && forall j :: j in t.index && j != k ==> t.index[j].arr != h.arr
  }

  lemma InsertKeepsOwned(t: Table, k: ListKey, h: Header, j: ListKey, a: Addr, spare: nat)
    requires Wf(t) && Owned(t, k, h)
    ensures Owned(Insert(t, j, a, spare), k, h)
  {
  }

  lemma RemoveKeepsOwned(t: Table, k: ListKey, h: Header, j: ListKey, a: Addr)
    requires Wf(t) && Owned(t, k, h)
    ensures Owned(Remove(t, j, a), k, h) && Owned(RemoveOrDrop(t, j, a), k, h)
  {
  }

  // ---------------------------------------------------------------- when a change shows through an earlier header

  /** `u` is `t` after the element at `p` of list `k`, of length `n`, was cut out under header `h`. */
  ghost predicate Shifted(t: Table, u: Table, k: ListKey, h: Header, p: nat, n: nat) {
    && Readable(t, h) && Readable(u, h) && p < n <= |u.heap[h.arr]| == |t.heap[h.arr]|
    && k in u.index && u.index[k] == Header(h.arr, n - 1)
    && forall j :: 0 <= j < |t.heap[h.arr]| ==> u.heap[h.arr][j] == t.heap[h.arr][if p <= j < n - 1 then j + 1 else j]
  }

  lemma RemoveShifts(t: Table, k: ListKey, h: Header, a: Addr)
    requires Wf(t) && Readable(t, h) && a in Get(t, k) && t.index[k].arr == h.arr
    ensures Shifted(t, Remove(t, k, a), k, h, IndexOf(Get(t, k), a), |Get(t, k)|)
  {
  }

  /** A removal from another list, from another array, or of nobody leaves the array behind header `h` alone. */
  lemma RemoveApart(t: Table, h: Header, j: ListKey, a: Addr)
    requires Wf(t) && Readable(t, h) && !(a in Get(t, j) && t.index[j].arr == h.arr)
    ensures Readable(Remove(t, j, a), h) && Remove(t, j, a).heap[h.arr] == t.heap[h.arr]
    ensures forall k ::
            (k in Remove(t, j, a).index <==>
            k in t.index) && (k in t.index && (k != j || a !in Get(t, j)) ==> Remove(t, j, a).index[k] == t.index[k])
    ensures j in t.index ==> Remove(t, j, a).index[j].arr == t.index[j].arr
  {
  }

  /** Removing `a` moves elements header `h` shows: `a` lies in view, and not at the list's end. */
  predicate CutsUnder(t: Table, k: ListKey, h: Header, a: Addr)
    requires Wf(t)
  {
    a in Get(t, k) && t.index[k].arr == h.arr && IndexOf(Get(t, k), a) < h.len &&
      IndexOf(Get(t, k), a) < |Get(t, k)| - 1
  }

  /** Adding `a` writes into a slot header `h` shows, which earlier removals have freed. */
  predicate WritesUnder(t: Table, k: ListKey, h: Header, a: Addr)
    requires Wf(t)
  {
    && a !in Get(t, k) && HasRoom(t, k) && t.index[k].arr == h.arr
    && t.index[k].len < h.len && t.heap[h.arr][t.index[k].len] != a
  }

  lemma RemoveShowsThrough(t: Table, k: ListKey, h: Header, a: Addr)
    requires Wf(t) && Owned(t, k, h) && NoDup(Get(t, k))
    ensures Readable(Remove(t, k, a), h) && RemoveOrDrop(t, k, a).heap == Remove(t, k, a).heap
    ensures Read(Remove(t, k, a), h) == Read(t, h) <==> !CutsUnder(t, k, h, a)
  {
    hide Remove;
    if a in Get(t, k) && t.index[k].arr == h.arr {
      RemoveShifts(t, k, h, a);
      var p, n, u := IndexOf(Get(t, k), a), |Get(t, k)|, Remove(t, k, a);
      if CutsUnder(t, k, h, a) {
        assert Get(t, k)[p + 1] != Get(t, k)[p];
        assert Read(u, h)[p] == Get(t, k)[p + 1] && Read(t, h)[p] == Get(t, k)[p];
      } else {
        assert forall j :: 0 <= j < h.len ==> u.heap[h.arr][j] == t.heap[h.arr][j];
      }
    } else {
      RemoveApart(t, h, k, a);
    }
  }

  lemma InsertShowsThrough(t: Table, k: ListKey, h: Header, a: Addr, spare: nat)
    requires Wf(t) && Owned(t, k, h)
    ensures Readable(Insert(t, k, a, spare), h)
    ensures Read(Insert(t, k, a, spare), h) == Read(t, h) <==> !WritesUnder(t, k, h, a)
  {
    var u := Insert(t, k, a, spare);
    if WritesUnder(t, k, h, a) {
      var i := t.index[k].len;
      assert Read(u, h)[i] == a && Read(t, h)[i] != a;
    } else {
      assert forall j :: 0 <= j < h.len ==> u.heap[h.arr][j] == t.heap[h.arr][j];
    }
  }

  /** `u` has the same list `k`, in the same place, and the same array behind header `h`. */
  ghost predicate SameList(t: Table, u: Table, k: ListKey, h: Header) {
    && Readable(t, h) && Readable(u, h) && u.heap[h.arr] == t.heap[h.arr]
    && (k in u.index <==> k in t.index) && (k in t.index ==> u.index[k] == t.index[k])
    && (k in t.index && Readable(t, t.index[k]) ==>
      Readable(u, u.index[k]) && u.heap[u.index[k].arr] == t.heap[t.index[k].arr])
  }

  lemma InsertSameList(t: Table, k: ListKey, h: Header, j: ListKey, a: Addr, spare: nat)
    requires Wf(t) && Owned(t, k, h) && j != k
    ensures SameList(t, Insert(t, j, a, spare), k, h)
  {
  }

  lemma RemoveSameList(t: Table, k: ListKey, h: Header, j: ListKey, a: Addr)
    requires Wf(t) && Owned(t, k, h) && j != k
    ensures SameList(t, Remove(t, j, a), k, h) && SameList(t, RemoveOrDrop(t, j, a), k, h)
  {
    hide Remove;
    RemoveApart(t, h, j, a);
    if k in t.index { RemoveApart(t, t.index[k], j, a); }
  }

  /** `x` is in view of header `h`, and on the list as long as the list uses the same array. */
  ghost predicate Kept(t: Table, k: ListKey, h: Header, x: Addr) {
    && Owned(t, k, h)
    && exists i ::
      0 <= i < h.len && t.heap[h.arr][i] == x && (k in t.index && t.index[k].arr == h.arr ==> i < t.index[k].len)
  }

  lemma InsertKeepsKept(t: Table, k: ListKey, h: Header, x: Addr, j: ListKey, a: Addr, spare: nat)
    requires Wf(t) && Kept(t, k, h, x)
    ensures Kept(Insert(t, j, a, spare), k, h, x)
  {
    InsertKeepsOwned(t, k, h, j, a, spare);
    var i :| 0 <= i < h.len && t.heap[h.arr][i] == x && (k in t.index && t.index[k].arr == h.arr ==>
      i < t.index[k].len);
    assert Insert(t, j, a, spare).heap[h.arr][i] == x;
  }

  lemma DropKeepsKept(t: Table, k: ListKey, h: Header, x: Addr, j: ListKey)
    requires Kept(t, k, h, x)
    ensures Kept(DropIfEmpty(t, j), k, h, x)
  {
    var i :| 0 <= i < h.len && t.heap[h.arr][i] == x && (k in t.index && t.index[k].arr == h.arr ==>
      i < t.index[k].len);
    assert DropIfEmpty(t, j).heap[h.arr][i] == x;
  }

  lemma RemoveKeepsKept(t: Table, k: ListKey, h: Header, x: Addr, j: ListKey, a: Addr)
    requires Wf(t) && Kept(t, k, h, x) && (j == k ==> a != x)
    ensures Kept(RemoveOrDrop(t, j, a), k, h, x) && Kept(Remove(t, j, a), k, h, x)
  {
    hide Remove, DropIfEmpty;
    RemoveKeepsOwned(t, k, h, j, a);
    var i :| 0 <= i < h.len && t.heap[h.arr][i] == x && (k in t.index && t.index[k].arr == h.arr ==>
      i < t.index[k].len);
    if j == k && a in Get(t, k) && t.index[k].arr == h.arr {
      RemoveShifts(t, k, h, a);
      var p := IndexOf(Get(t, k), a);
      assert Get(t, k)[i] == x;
      assert Remove(t, k, a).heap[h.arr][if p < i then i - 1 else i] == x;
    } else {
      RemoveApart(t, h, j, a);
      assert Remove(t, j, a).heap[h.arr][i] == x;
    }
    DropKeepsKept(Remove(t, j, a), k, h, x, j);
  }

  /** Everything header `h` shows, and the list as long as it uses the same array, is among `ys`. */
  ghost predicate Among(t: Table, k: ListKey, h: Header, ys: set<Addr>) {
    && Owned(t, k, h)
    && (forall j :: 0 <= j < h.len ==> t.heap[h.arr][j] in ys)
    && (k in t.index && t.index[k].arr == h.arr && Readable(t, t.index[k]) ==> forall j ::
      0 <= j < t.index[k].len ==> t.heap[h.arr][j] in ys)
  }

  lemma InsertKeepsAmong(t: Table, k: ListKey, h: Header, ys: set<Addr>, j: ListKey, a: Addr, spare: nat)
    requires Wf(t) && Among(t, k, h, ys) && (j == k ==> a in ys)
    ensures Among(Insert(t, j, a, spare), k, h, ys)
  {
    InsertKeepsOwned(t, k, h, j, a, spare);
  }

  lemma RemoveKeepsAmong(t: Table, k: ListKey, h: Header, ys: set<Addr>, j: ListKey, a: Addr)
    requires Wf(t) && Among(t, k, h, ys)
    ensures Among(RemoveOrDrop(t, j, a), k, h, ys) && Among(Remove(t, j, a), k, h, ys)
  {
    hide Remove;
    RemoveKeepsOwned(t, k, h, j, a);
    if j == k && a in Get(t, k) && t.index[k].arr == h.arr {
      RemoveShifts(t, k, h, a);
    } else {
      RemoveApart(t, h, j, a);
    }
  }

  // ---------------------------------------------------------------- a loop over a header

  /** Header `h` shows `x` at or after `from`. */
  ghost predicate ShowsFrom(t: Table, h: Header, from: nat, x: Addr)
    requires Readable(t, h)
  {
    exists j :: from <= j < h.len && t.heap[h.arr][j] == x
  }

  /** A loop at position `next` of header `h`, read from list `k`, still has `x` to visit: the listed one or a stale
      copy. */
  ghost predicate Ahead(t: Table, k: ListKey, h: Header, next: nat, x: Addr) {
    Owned(t, k, h) && ShowsFrom(t, h, next, x)
  }

  /** `x` is listed, but the loop has no copy of it to visit, nor could a shift of the array bring one. */
  ghost predicate Behind(t: Table, k: ListKey, h: Header, next: nat, x: Addr)
    requires Wf(t)
  {
    && Owned(t, k, h) && x in Get(t, k) && !ShowsFrom(t, h, next, x)
    && (k in t.index && t.index[k].arr == h.arr ==> forall j :: next <= j < t.index[k].len ==> t.heap[h.arr][j] != x)
  }

  /** The in-place removal of `a` pulls `x` from under the loop: it shifts the array the loop walks, below the
      loop's position, while `x` is the very next to visit. */
  predicate Skips(t: Table, k: ListKey, h: Header, next: nat, a: Addr, x: Addr)
    requires Wf(t)
  {
    && a in Get(t, k) && t.index[k].arr == h.arr && IndexOf(Get(t, k), a) < next < |Get(t, k)|
    && Get(t, k)[next] == x
  }

  /** And no copy stays in view: `x` is not the last of the list, nor left over behind its end. */
  ghost predicate PullsOut(t: Table, k: ListKey, h: Header, next: nat, a: Addr, x: Addr)
    requires Wf(t) && Readable(t, h)
  {
    Skips(t, k, h, next, a, x) && !ShowsFrom(t, h, |Get(t, k)| - 1, x)
  }

  /** Appending `a` in place writes over the only copy of `x` the loop still has to visit, a stale one. */
  ghost predicate Overwrites(t: Table, k: ListKey, h: Header, next: nat, a: Addr, x: Addr)
    requires Wf(t) && Readable(t, h)
  {
    && a !in Get(t, k) && a != x && HasRoom(t, k) && t.index[k].arr == h.arr
    && next <= t.index[k].len < h.len && t.heap[h.arr][t.index[k].len] == x
    && forall j :: next <= j < h.len && j != t.index[k].len ==> t.heap[h.arr][j] != x
  }

  /** An insertion takes `x` from the loop exactly if it overwrites the last copy in view. */
  lemma InsertKeepsAhead(t: Table, k: ListKey, h: Header, next: nat, x: Addr, j: ListKey, a: Addr, spare: nat)
    requires Wf(t) && Ahead(t, k, h, next, x)
    ensures Ahead(Insert(t, j, a, spare), k, h, next, x) <==> !(j == k && Overwrites(t, k, h, next, a, x))
  {
    var u := Insert(t, j, a, spare);
    InsertKeepsOwned(t, k, h, j, a, spare);
    var i :| next <= i < h.len && t.heap[h.arr][i] == x;
    if j == k && Overwrites(t, k, h, next, a, x) {
      assert forall m :: next <= m < h.len ==> u.heap[h.arr][m] != x;
    } else if u.heap[h.arr][i] == x {
    } else {
      assert j == k && a !in Get(t, k) && HasRoom(t, k) && t.index[k].arr == h.arr && t.index[k].len == i;
      var m :| next <= m < h.len && m != i && t.heap[h.arr][m] == x;
      assert u.heap[h.arr][m] == x;
    }
  }

  lemma RemoveElsewhereKeepsAhead(t: Table, k: ListKey, h: Header, next: nat, x: Addr, j: ListKey, a: Addr)
    requires Wf(t) && Ahead(t, k, h, next, x) && j != k
    ensures Ahead(Remove(t, j, a), k, h, next, x) && Ahead(RemoveOrDrop(t, j, a), k, h, next, x)
  {
    RemoveKeepsOwned(t, k, h, j, a);
    var i :| next <= i < h.len && t.heap[h.arr][i] == x;
    assert Remove(t, j, a).heap[h.arr][i] == x;
    assert RemoveOrDrop(t, j, a).heap[h.arr][i] == x;
  }

  lemma PulledOut(t: Table, k: ListKey, h: Header, next: nat, x: Addr, a: Addr)
    requires Wf(t) && Ahead(t, k, h, next, x) && NoDup(Get(t, k)) && PullsOut(t, k, h, next, a, x)
    ensures !Ahead(Remove(t, k, a), k, h, next, x)
  {
    hide Remove, Wf;
    RemoveShifts(t, k, h, a);
    var n := |Get(t, k)|;
    forall j | next <= j < h.len ensures Remove(t, k, a).heap[h.arr][j] != x {
      if j < n - 1 { assert Get(t, k)[j + 1] == t.heap[h.arr][j + 1]; }
    }
  }

  lemma NotPulledOut(t: Table, k: ListKey, h: Header, next: nat, x: Addr, a: Addr)
    requires Wf(t) && Ahead(t, k, h, next, x) && a != x && !PullsOut(t, k, h, next, a, x)
    requires a in Get(t, k) && t.index[k].arr == h.arr
    ensures ShowsFrom(Remove(t, k, a), h, next, x)
  {
    hide Remove, Wf;
    RemoveShifts(t, k, h, a);
    var u, p, n := Remove(t, k, a), IndexOf(Get(t, k), a), |Get(t, k)|;
    var i :| next <= i < h.len && t.heap[h.arr][i] == x;
    if i >= n || i < p {
      assert u.heap[h.arr][i] == x;
    } else if i > next {
      assert Get(t, k)[i] == x;
      assert u.heap[h.arr][i - 1] == x;
    } else {
      assert Skips(t, k, h, next, a, x);
      var m :| n - 1 <= m < h.len && t.heap[h.arr][m] == x;
      assert u.heap[h.arr][m] == x;
    }
  }

  /** A removal of another address takes `x` from the loop exactly if it pulls out its last copy in view. */
  lemma RemoveKeepsAhead(t: Table, k: ListKey, h: Header, next: nat, x: Addr, a: Addr)
    requires Wf(t) && Ahead(t, k, h, next, x) && NoDup(Get(t, k)) && a != x
    ensures Ahead(Remove(t, k, a), k, h, next, x) <==> !PullsOut(t, k, h, next, a, x)
  {
    hide Remove;
    RemoveKeepsOwned(t, k, h, k, a);
    if PullsOut(t, k, h, next, a, x) {
      PulledOut(t, k, h, next, x, a);
    } else if a in Get(t, k) && t.index[k].arr == h.arr {
      NotPulledOut(t, k, h, next, x, a);
    } else {
      RemoveApart(t, h, k, a);
      var i :| next <= i < h.len && t.heap[h.arr][i] == x;
      assert Remove(t, k, a).heap[h.arr][i] == x;
    }
  }

  /** A pulled-out subscriber is behind the loop, whichever earlier header of the array the loop walks. */
  lemma SkipLoses(t: Table, k: ListKey, h: Header, next: nat, a: Addr, x: Addr)
    requires Wf(t) && Owned(t, k, h) && NoDup(Get(t, k)) && PullsOut(t, k, h, next, a, x)
    ensures Wf(Remove(t, k, a)) && Behind(Remove(t, k, a), k, h, next, x)
  {
    hide Remove, RemoveFirst;
    RemoveMeans(t, k, a);
    RemoveFirstIsWithout(Get(t, k), a);
    RemoveKeepsOwned(t, k, h, k, a);
    RemoveShifts(t, k, h, a);
    forall j | next <= j < |Get(t, k)| - 1 ensures Remove(t, k, a).heap[h.arr][j] != x {
      assert Get(t, k)[j + 1] == t.heap[h.arr][j + 1];
    }
  }

  lemma OverwriteLoses(t: Table, k: ListKey, h: Header, next: nat, a: Addr, x: Addr, spare: nat)
    requires Wf(t) && Owned(t, k, h) && x in Get(t, k) && Overwrites(t, k, h, next, a, x)
    ensures Wf(Insert(t, k, a, spare)) && Behind(Insert(t, k, a, spare), k, h, next, x)
  {
    InsertMeans(t, k, a, spare);
    InsertKeepsOwned(t, k, h, k, a, spare);
  }

  lemma InsertKeepsBehind(t: Table, k: ListKey, h: Header, next: nat, x: Addr, j: ListKey, a: Addr, spare: nat)
    requires Wf(t) && Behind(t, k, h, next, x)
    ensures Wf(Insert(t, j, a, spare)) && Behind(Insert(t, j, a, spare), k, h, next, x)
  {
    InsertMeans(t, j, a, spare);
    InsertKeepsOwned(t, k, h, j, a, spare);
    if a !in Get(t, j) {
      var u := Insert(t, j, a, spare);
      if HasRoom(t, j) {
        assert forall m ::
          0 <= m < |t.heap[h.arr]| && (t.index[j].arr == h.arr ==> m != t.index[j].len) ==>
          u.heap[h.arr][m] == t.heap[h.arr][m];
      } else {
        assert u.heap[h.arr] == t.heap[h.arr];
      }
    }
  }

  lemma RemoveElsewhereKeepsBehind(t: Table, k: ListKey, h: Header, next: nat, x: Addr, j: ListKey, a: Addr)
    requires Wf(t) && Behind(t, k, h, next, x) && j != k
    ensures Wf(Remove(t, j, a)) && Behind(Remove(t, j, a), k, h, next, x)
    ensures Wf(RemoveOrDrop(t, j, a)) && Behind(RemoveOrDrop(t, j, a), k, h, next, x)
  {
    RemoveMeans(t, j, a);
    RemoveOrDropMeans(t, j, a);
    RemoveKeepsOwned(t, k, h, j, a);
  }

  lemma RemoveKeepsBehind(t: Table, k: ListKey, h: Header, next: nat, x: Addr, a: Addr)
    requires Wf(t) && Behind(t, k, h, next, x) && NoDup(Get(t, k)) && a != x
    ensures Wf(Remove(t, k, a)) && Behind(Remove(t, k, a), k, h, next, x)
  {
    hide RemoveFirst;
    RemoveMeans(t, k, a);
    RemoveFirstIsWithout(Get(t, k), a);
    RemoveKeepsOwned(t, k, h, k, a);
    if a in Get(t, k) && t.index[k].arr == h.arr { RemoveShifts(t, k, h, a); }
  }
}
