/** Go slices of addresses over shared backing arrays, and a map of them as the registry keeps it. */
module Slices {
  import opened RegistryTables

  /** `append(xs[:i], xs[i+1:]...)` seen on the whole backing array: the tail moves left and the old last
      element of the slice stays behind as garbage. */
  function ShiftOut(xs: seq<Addr>, i: nat, len: nat): (r: seq<Addr>)
    requires i < len <= |xs|
    ensures |r| == |xs|
  {
    xs[..i] + xs[i + 1..len] + xs[len - 1..]
  }

  /** An append with room, on the whole backing array: the slot behind the slice is written, whatever it held. */
  function Written(xs: seq<Addr>, len: nat, x: Addr): (r: seq<Addr>)
    requires len < |xs|
    ensures |r| == |xs|
  {
    xs[len := x]
  }

  /** An append without room: a new array with the elements, the new one and `spare` unused slots. */
  function Grown(elems: seq<Addr>, x: Addr, spare: nat): (r: seq<Addr>)
    ensures |r| == |elems| + 1 + spare
  {
    elems + [x] + seq(spare, _ => BLANK)
  }

  datatype Slice = Slice(arr: array<Addr>, len: nat) {
    ghost predicate Valid() {
      len <= arr.Length
    }

    function Elems(): seq<Addr>
      requires Valid()
      reads arr
    {
      arr[..len]
    }
  }

  /** Go's append of one element: in place while there is room, otherwise into a new array. Either way
      whatever an older header of this array sees stays as it was. */
  method Append(s: Slice, x: Addr) returns (r: Slice)
    requires s.Valid()
    modifies s.arr
    ensures r.Valid() && r.Elems() == old(s.Elems()) + [x]
    ensures s.len < s.arr.Length ==> r == Slice(s.arr, s.len + 1) && s.arr[..] == Written(old(s.arr[..]), s.len, x)
    ensures s.len == s.arr.Length ==> fresh(r.arr) && r.len == s.len + 1 && s.arr[..] == old(s.arr[..])
    ensures s.len == s.arr.Length ==> r.arr[..] == Grown(old(s.Elems()), x, r.arr.Length - r.len)
    ensures s.arr[..s.len] == old(s.arr[..s.len])
  {
    if s.len < s.arr.Length {
      s.arr[s.len] := x;
      return Slice(s.arr, s.len + 1);
    }
    var bigger := new Addr[2 * s.len + 1](_ => BLANK);
    for i := 0 to s.len
      invariant s.arr[..] == old(s.arr[..])
      invariant forall k :: 0 <= k < i ==> bigger[k] == s.arr[k]
      invariant forall k :: s.len <= k < bigger.Length ==> bigger[k] == BLANK
    {
      bigger[i] := s.arr[i];
    }
    bigger[s.len] := x;
    r := Slice(bigger, s.len + 1);
    assert r.Elems()[..s.len] == s.Elems();
  }

  /** Cutting element `i` out in place. */
  method CutOut(s: Slice, i: nat) returns (r: Slice)
    requires s.Valid() && i < s.len
    modifies s.arr
    ensures r == Slice(s.arr, s.len - 1)
    ensures s.arr[..] == ShiftOut(old(s.arr[..]), i, s.len)
    ensures r.Elems() == old(s.Elems())[..i] + old(s.Elems())[i + 1..]
  {
    ghost var was := s.arr[..];
    for j := i to s.len - 1
      invariant forall k :: i <= k < j ==> s.arr[k] == was[k + 1]
      invariant forall k :: 0 <= k < i || j <= k < |was| ==> s.arr[k] == was[k]
    {
      s.arr[j] := s.arr[j + 1];
    }
    r := Slice(s.arr, s.len - 1);
    assert s.arr[..] == ShiftOut(was, i, s.len);
  }

  /** The search loops: the first index holding `a`, or the length. */
  method Find(s: Slice, a: Addr) returns (i: nat)
    requires s.Valid()
    ensures i <= s.len && (i < s.len <==> a in s.Elems())
    ensures i < s.len ==> s.arr[i] == a
    ensures forall j :: 0 <= j < i ==> s.arr[j] != a
  {
    i := 0;
    while i < s.len
      invariant i <= s.len && forall j :: 0 <= j < i ==> s.arr[j] != a
    {
      if s.arr[i] == a {
        return;
      }
      i := i + 1;
    }
  }

  /** A map[string][]string whose slices never share a backing array. */
  class ListTable {
    var index: map<Name, Slice>
    ghost var contents: map<Name, seq<Addr>>
    ghost var arrays: set<array<Addr>>

    ghost predicate Valid()
      reads this, arrays
    {
      && index.Keys == contents.Keys
      && (forall n :: n in index ==> index[n].arr in arrays && index[n].Valid() && index[n].Elems() == contents[n])
      && (forall m, n :: m in index && n in index && m != n ==> index[m].arr != index[n].arr)
    }

    constructor ()
      ensures Valid() && contents == map[] && arrays == {}
    {
      index, contents, arrays := map[], map[], {};
    }

    /** `m[n]`, the nil slice if there is no entry. */
    method Entry(n: Name) returns (xs: Slice)
      requires Valid()
      ensures Valid() && xs.Valid() && xs.Elems() == At(contents, n)
      ensures if n in index then xs == index[n] else fresh(xs.arr)
    {
      if n in index {
        xs := index[n];
      } else {
        var none := new Addr[0];
        xs := Slice(none, 0);
      }
    }

    /** `m[n] = ys`, on an array no other entry uses. */
    method Put(n: Name, ys: Slice)
      requires Valid() && ys.Valid() && forall m :: m in index && m != n ==> index[m].arr != ys.arr
      modifies this
      ensures Valid() && arrays == old(arrays) + {ys.arr}
      ensures contents == old(contents)[n := ys.Elems()]
    {
      index := index[n := ys];
      contents := contents[n := ys.Elems()];
      arrays := arrays + {ys.arr};
    }

    /** `m[n] = append(m[n], a)`. */
    method AppendTo(n: Name, a: Addr)
      requires Valid()
      modifies this, arrays
      ensures Valid() && old(arrays) <= arrays && fresh(arrays - old(arrays))
      ensures contents == old(contents)[n := At(old(contents), n) + [a]]
    {
      var xs := Entry(n);
      var ys := Append(xs, a);
      Put(n, ys);
    }

    /** `m[n] = append(m[n][:i], m[n][i+1:]...)`. */
    method CutAt(n: Name, i: nat)
      requires Valid() && n in index && i < index[n].len
      modifies this`index, this`contents, index[n].arr
      ensures Valid() && contents == old(contents)[n := old(contents)[n][..i] + old(contents)[n][i + 1..]]
    {
      var ys := CutOut(index[n], i);
      index := index[n := ys];
      contents := contents[n := contents[n][..i] + contents[n][i + 1..]];
    }

    /** Append unless already there. */
    method Insert(n: Name, a: Addr)
      requires Valid()
      modifies this, arrays
      ensures Valid() && old(arrays) <= arrays && fresh(arrays - old(arrays))
      ensures contents == old(contents)[n := AddOnce(At(old(contents), n), a)]
    {
      var present := false;
      if n in index {
        var i := Find(index[n], a);
        present := i < index[n].len;
      }
      if !present {
        AppendTo(n, a);
      } else {
        assert contents[n := contents[n]] == contents;
      }
    }

    /** Cut out the first occurrence, if any. */
    method Remove(n: Name, a: Addr)
      requires Valid()
      modifies this`index, this`contents, arrays
      ensures Valid()
      ensures contents == if a in At(old(contents), n) then old(contents)[n := RemoveFirst(old(contents)[n], a)]
              else old(contents)
    {
      if n in index {
        var i := Find(index[n], a);
        if i < index[n].len {
          assert contents[n][i] == a;
          RemoveAtIsRemoveFirst(contents[n], i);
          CutAt(n, i);
        }
      }
    }

    /** `if len(m[n]) == 0 { delete(m, n) }`. */
    method DropIfEmpty(n: Name)
      requires Valid()
      modifies this`index, this`contents
      ensures Valid()
      ensures contents == if n in old(contents) && old(contents)[n] == [] then old(contents) - {n} else old(contents)
    {
      if n in index && index[n].len == 0 {
        index := index - {n};
        contents := contents - {n};
      }
    }

    method RemoveOrDrop(n: Name, a: Addr)
      requires Valid()
      modifies this`index, this`contents, arrays
      ensures Valid()
      ensures contents == CutOne(old(contents), n, a)
    {
      Remove(n, a);
      DropIfEmpty(n);
    }

    /** Register's loop over the services. */
    method InsertAll(services: seq<Name>, a: Addr)
      requires Valid()
      modifies this, arrays
      ensures Valid() && old(arrays) <= arrays && fresh(arrays - old(arrays))
      ensures contents == AddTo(old(contents), services, a)
    {
      assert AddTo(contents, services[..0], a) == contents;
      for i := 0 to |services|
        invariant Valid() && old(arrays) <= arrays && fresh(arrays - old(arrays))
        invariant contents == AddTo(old(contents), services[..i], a)
      {
        AddToStep(old(contents), services, i, a);
        Insert(services[i], a);
      }
      assert services[..|services|] == services;
    }

    /** handleUnhealthyService's loop over the names recorded for `a`. */
    method RemoveAll(gone: seq<Name>, a: Addr)
      requires Valid() && ProperLists(contents)
      modifies this`index, this`contents, arrays
      ensures Valid()
      ensures contents == CutFrom(old(contents), gone, a)
    {
      assert CutFrom(contents, gone[..0], a) == contents;
      for i := 0 to |gone|
        invariant Valid()
        invariant contents == CutFrom(old(contents), gone[..i], a)
      {
        CutFromStep(old(contents), gone, i, a);
        RemoveOrDrop(gone[i], a);
      }
      assert gone[..|gone|] == gone;
    }
  }
}
