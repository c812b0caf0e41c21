/** prepareScan, rows.Scan, finalizeScan and scanRows of pgsql/table.go for whole rows. */
module RowScan {
  import opened Common
  import opened FieldCodec

  /** A mapped struct field: its position in the struct and its type. Column i belongs to fields[i]. */
  datatype Field = Field(index: nat, goType: GoType)

  ghost predicate Layout(fields: seq<Field>, width: nat) {
    && (forall i :: 0 <= i < |fields| ==> fields[i].index < width)
    && (forall i, j :: 0 <= i < j < |fields| ==> fields[i].index != fields[j].index)
  }

  ghost predicate Mapped(fields: seq<Field>, index: nat) {
    exists i :: 0 <= i < |fields| && fields[i].index == index
  }

  // ---------------------------------------------------------------- prepareScan

  /** scanArgs[i]: the JSON buffer of column i, a null holder, or the address of the field itself. */
  datatype Dest = Buffer | Holder(slot: nat) | Address

  datatype PtrSlot = PtrSlot(index: nat, kind: ScanKind, elem: Shape, pointer: bool)

  function SlotOf(f: Field): PtrSlot {
    PtrSlot(f.index, Classify(f.goType), InnerShape(f.goType), f.goType.Ptr?)
  }

  /** Destination `d` is the right one for the field, given the slots. */
  predicate Suits(f: Field, d: Dest, slots: seq<PtrSlot>) {
    var k := Classify(f.goType);
    if k.ScanJson? then d == Buffer
    else if k.ScanDirect? then d == Address
    else d.Holder? && d.slot < |slots| && slots[d.slot] == SlotOf(f)
  }

  /** Every column has its destination, holders are numbered upwards, and every slot belongs to a column. */
  ghost predicate Prepared(fields: seq<Field>, args: seq<Dest>, slots: seq<PtrSlot>) {
    && |args| == |fields|
    && (forall i :: 0 <= i < |fields| ==> Suits(fields[i], args[i], slots))
    && (forall i, j :: 0 <= i < j < |args| && args[i].Holder? && args[j].Holder? ==> args[i].slot < args[j].slot)
    && (forall k :: 0 <= k < |slots| ==> Holder(k) in args)
  }

  lemma PreparedSnoc(fields: seq<Field>, args: seq<Dest>, slots: seq<PtrSlot>, f: Field)
    requires Prepared(fields, args, slots)
    ensures Classify(f.goType).ScanJson? ==> Prepared(fields + [f], args + [Buffer], slots)
    ensures Classify(f.goType).ScanDirect? ==> Prepared(fields + [f], args + [Address], slots)
    ensures IsSlot(Classify(f.goType)) ==> Prepared(fields + [f], args + [Holder(|slots|)], slots + [SlotOf(f)])
  {
    hide Classify, InnerShape, SlotOf;
    forall i | 0 <= i < |args| && args[i].Holder? ensures args[i].slot < |slots| {
      assert Suits(fields[i], args[i], slots);
    }
    forall i | 0 <= i < |args| ensures Suits(fields[i], args[i], slots + [SlotOf(f)]) {
      assert Suits(fields[i], args[i], slots);
    }
    if IsSlot(Classify(f.goType)) {
      var args', slots' := args + [Holder(|slots|)], slots + [SlotOf(f)];
      forall k | 0 <= k < |slots'| ensures Holder(k) in args' {
        if k < |slots| { assert Holder(k) in args; } else { assert args'[|args|] == Holder(k); }
      }
    }
  }

  method Prepare(fields: seq<Field>) returns (args: seq<Dest>, slots: seq<PtrSlot>)
    ensures Prepared(fields, args, slots)
  {
    hide Classify, InnerShape, Prepared;
    PreparedNothing();
    args, slots := [], [];
    var n := 0;
    while n < |fields|
      invariant n <= |fields| && Prepared(fields[..n], args, slots)
    {
      var k := Classify(fields[n].goType);
      assert fields[..n + 1] == fields[..n] + [fields[n]];
      PreparedSnoc(fields[..n], args, slots, fields[n]);
      if k.ScanJson? {
        args := args + [Buffer];
      } else if k.ScanDirect? {
        args := args + [Address];
      } else {
        args := args + [Holder(|slots|)];
        slots := slots + [SlotOf(fields[n])];
      }
      n := n + 1;
    }
    assert fields[..n] == fields;
  }

  lemma PreparedNothing()
    ensures Prepared([], [], [])
  {
  }

  // ---------------------------------------------------------------- rows.Scan

  /** The driver can put the column into the destination chosen for the field. */
  predicate Scannable(t: GoType, c: Cell) {
    var k := Classify(t);
    k.ScanJson? || (if k.ScanDirect? then DriverScan(t, c).Some? else Held(k, InnerCodec(t), c).Some?)
  }

  /** Buffers, holders and fields after a scan that went through. */
  ghost predicate Scanned(fields: seq<Field>, cells: seq<Cell>, args: seq<Dest>, buffers: seq<Cell>, holders: seq<Cell>,
                          before: seq<GoValue>, now: seq<GoValue>, n: nat)
    requires |cells| == |args| == |fields| == |buffers| && |before| == |now| && n <= |fields| && Layout(fields, |now|)
  {
    && (forall i ::
      0 <= i < n ==>
      Placed(fields[i], cells[i], args[i], buffers[i], holders, before[fields[i].index], now[fields[i].index]))
    && (forall i :: n <= i < |fields| ==> buffers[i] == Null && now[fields[i].index] == before[fields[i].index])
    && (forall j :: 0 <= j < |now| && !Mapped(fields, j) ==> now[j] == before[j])
  }

  predicate Placed(f: Field, c: Cell, d: Dest, buffer: Cell, holders: seq<Cell>, before: GoValue, now: GoValue) {
    match d
    case Buffer => buffer == c && now == before
    case Holder(k) => buffer == Null && k < |holders| &&
      Held(Classify(f.goType), InnerCodec(f.goType), c) == Some(holders[k]) && now == before
    case Address => buffer == Null && DriverScan(f.goType, c) == Some(now)
  }

  /** Column n goes to its destination and leaves every other place alone. */
  lemma PlaceNext(fields: seq<Field>, cells: seq<Cell>, args: seq<Dest>, slots: seq<PtrSlot>, buffers: seq<Cell>,
          holders: seq<Cell>,
                  before: seq<GoValue>, now: seq<GoValue>, n: nat, v: GoValue, h: Cell)
    requires |cells| == |fields| == |buffers| && |before| == |now| && Layout(fields, |now|) && n < |fields|
    requires Prepared(fields, args, slots) && |holders| == |slots|
    requires Scanned(fields, cells, args, buffers, holders, before, now, n)
    ensures args[n].Buffer? ==> Scanned(fields, cells, args, buffers[n := cells[n]], holders, before, now, n + 1)
    ensures args[n].Holder? ==> args[n].slot < |holders|
    ensures args[n].Holder? && Held(Classify(fields[n].goType), InnerCodec(fields[n].goType), cells[n]) == Some(h) ==>
              Scanned(fields, cells, args, buffers, holders[args[n].slot := h], before, now, n + 1)
    ensures args[n].Address? && DriverScan(fields[n].goType, cells[n]) == Some(v) ==>
              Scanned(fields, cells, args, buffers, holders, before, now[fields[n].index := v], n + 1)
  {
    hide Classify, DriverScan, Fits, Held, InnerCodec;
    assert Suits(fields[n], args[n], slots);
    forall i | 0 <= i < n
      ensures Placed(fields[i], cells[i], args[i], buffers[i], holders, before[fields[i].index], now[fields[i].index])
      ensures args[i].Holder? && args[n].Holder? ==> args[i].slot != args[n].slot
    {
    }
  }

  method Scan(fields: seq<Field>, cells: seq<Cell>, args: seq<Dest>, ghost slots: seq<PtrSlot>,
              buffers: array<Cell>, holders: array<Cell>, entity: array<GoValue>) returns (ok: bool)
    requires |cells| == |fields| == buffers.Length && Layout(fields, entity.Length) && buffers != holders
    requires Prepared(fields, args, slots) && holders.Length == |slots|
    requires forall i :: 0 <= i < buffers.Length ==> buffers[i] == Null
    modifies buffers, holders, entity
    ensures ok <==> forall i :: 0 <= i < |fields| ==> Scannable(fields[i].goType, cells[i])
    ensures ok ==> Scanned(fields, cells, args, buffers[..], holders[..], old(entity[..]), entity[..], |fields|)
  {
    ghost var before := entity[..];
    assert Scanned(fields, cells, args, buffers[..], holders[..], before, entity[..], 0);
    hide Classify, DriverScan, Fits, Held, InnerCodec, Scanned, Placed, Mapped;
    var n := 0;
    while n < |fields|
      invariant n <= |fields| && forall i :: 0 <= i < n ==> Scannable(fields[i].goType, cells[i])
      invariant Scanned(fields, cells, args, buffers[..], holders[..], before, entity[..], n)
    {
      assert Suits(fields[n], args[n], slots);
      PlaceNext(fields, cells, args, slots, buffers[..], holders[..], before, entity[..], n, Nil, Null);
      match args[n] {
        case Buffer =>
          buffers[n] := cells[n];
        case Holder(k) =>
          match Held(Classify(fields[n].goType), InnerCodec(fields[n].goType), cells[n]) {
            case None =>
              return false;
            case Some(h) =>
              PlaceNext(fields, cells, args, slots, buffers[..], holders[..], before, entity[..], n, Nil, h);
              holders[k] := h;
          }
        case Address =>
          match DriverScan(fields[n].goType, cells[n]) {
            case None =>
              return false;
            case Some(v) =>
              PlaceNext(fields, cells, args, slots, buffers[..], holders[..], before, entity[..], n, v, Null);
              entity[fields[n].index] := v;
          }
      }
      n := n + 1;
    }
    ok := true;
  }

  // ---------------------------------------------------------------- finalizeScan

  /** ptrScanSlot.apply: the new value of the field, or an error. */
  function ApplySlot(s: PtrSlot, c: Cell): Option<GoValue>
    requires c.Null? || (Fits(s.kind, c) && (s.kind.ScanPtrInt? ==>
             s.elem.Int?) && (s.kind.ScanPtrUint? ==> s.elem.Uint?))
  {
    if c.Null? then Some(if s.pointer then Nil else Instant(ZeroTime)) else Applied(s.kind, s.elem, s.pointer, c)
  }

  /** The JSON step for one field: nothing for an empty buffer. */
  function Unmarshalled(t: GoType, buffer: Cell, now: GoValue): Option<GoValue> {
    if Blank(buffer) then Some(now)
    else match InnerCodec(t).unmarshal(buffer)
         case None => None
         case Some(v) => Some(if t.Ptr? then Pointer(v) else v)
  }

  predicate Done(f: Field, c: Cell, now: GoValue) {
    Restored(f.goType, c) == Some(now)
  }

  lemma SlotRestores(f: Field, c: Cell, h: Cell)
    requires IsSlot(Classify(f.goType)) && Held(Classify(f.goType), InnerCodec(f.goType), c) == Some(h)
    ensures Classify(f.goType).ScanPtrInt? ==> InnerShape(f.goType).Int?
    ensures Classify(f.goType).ScanPtrUint? ==> InnerShape(f.goType).Uint?
    ensures h.Null? || Fits(Classify(f.goType), h)
    ensures ApplySlot(SlotOf(f), h) == Restored(f.goType, c)
  {
    SlotShapes(f.goType);
    hide Applied, Fits;
  }

  /** Columns whose slot number is below k, and JSON columns below m, are done; the others wait. */
  predicate Waiting(f: Field, c: Cell, d: Dest, i: nat, k: nat, m: nat, before: GoValue, now: GoValue) {
    match d
    case Buffer => if i < m then Done(f, c, now) else now == before
    case Holder(j) => if j < k then Done(f, c, now) else now == before
    case Address => Done(f, c, now)
  }

  ghost predicate Finalizing(fields: seq<Field>, cells: seq<Cell>, args: seq<Dest>, before: seq<GoValue>,
          now: seq<GoValue>, k: nat, m: nat)
    requires |cells| == |args| == |fields| && |before| == |now| && Layout(fields, |now|)
  {
    && (forall i ::
      0 <= i < |fields| ==>
      Waiting(fields[i], cells[i], args[i], i, k, m, before[fields[i].index], now[fields[i].index]))
    && (forall j :: 0 <= j < |now| && !Mapped(fields, j) ==> now[j] == before[j])
  }

  lemma StartFinalizing(fields: seq<Field>, cells: seq<Cell>, args: seq<Dest>, slots: seq<PtrSlot>,
          buffers: seq<Cell>, holders: seq<Cell>,
                        before: seq<GoValue>, now: seq<GoValue>)
    requires |cells| == |fields| == |buffers| && |before| == |now| && Layout(fields, |now|)
    requires Prepared(fields, args, slots)
    requires Scanned(fields, cells, args, buffers, holders, before, now, |fields|)
    ensures Finalizing(fields, cells, args, before, now, 0, 0)
  {
    hide Classify, DriverScan, Fits, Held, InnerCodec, Applied;
    forall i | 0 <= i < |fields|
      ensures Waiting(fields[i], cells[i], args[i], i, 0, 0, before[fields[i].index], now[fields[i].index])
    {
      assert Placed(fields[i], cells[i], args[i], buffers[i], holders, before[fields[i].index], now[fields[i].index]);
      assert Suits(fields[i], args[i], slots);
    }
  }

  /** Writing the field of column i moves on from (k, m) to (k2, m2) if that column is the only one between. */
  lemma Write(fields: seq<Field>, cells: seq<Cell>, args: seq<Dest>, before: seq<GoValue>, now: seq<GoValue>,
              i: nat, v: GoValue, k: nat, m: nat, k2: nat, m2: nat)
    requires |cells| == |args| == |fields| && |before| == |now| && Layout(fields, |now|) && i < |fields|
    requires Finalizing(fields, cells, args, before, now, k, m)
    requires Done(fields[i], cells[i], v)
    requires (args[i] == Buffer && i == m && m2 == m + 1 && k2 == k) || (args[i] == Holder(k) && k2 == k + 1 && m2 == m)
    requires forall j :: 0 <= j < |args| && j != i ==> args[j] != Holder(k) || k2 == k
    ensures Finalizing(fields, cells, args, before, now[fields[i].index := v], k2, m2)
  {
    hide Done;
    var now' := now[fields[i].index := v];
    forall j | 0 <= j < |fields|
      ensures Waiting(fields[j], cells[j], args[j], j, k2, m2, before[fields[j].index], now'[fields[j].index])
    {
      assert Waiting(fields[j], cells[j], args[j], j, k, m, before[fields[j].index], now[fields[j].index]);
    }
    assert forall j :: 0 <= j < |now| && !Mapped(fields, j) ==> j != fields[i].index;
  }

  method ApplySlots(fields: seq<Field>, ghost cells: seq<Cell>, ghost args: seq<Dest>, slots: seq<PtrSlot>,
          holders: array<Cell>,
                    ghost before: seq<GoValue>, entity: array<GoValue>) returns (ok: bool)
    requires |cells| == |fields| && |before| == entity.Length && Layout(fields, entity.Length)
    requires Prepared(fields, args, slots)
    requires holders.Length == |slots| && forall i :: 0 <= i < |fields| ==> Scannable(fields[i].goType, cells[i])
    requires forall i :: 0 <= i < |args| && args[i].Holder? && args[i].slot < holders.Length ==>
               Held(Classify(fields[i].goType), InnerCodec(fields[i].goType), cells[i]) == Some(holders[args[i].slot])
    requires Finalizing(fields, cells, args, before, entity[..], 0, 0)
    modifies entity
    ensures ok <==> forall i :: 0 <= i < |fields| && args[i].Holder? ==> Restored(fields[i].goType, cells[i]).Some?
    ensures ok ==> Finalizing(fields, cells, args, before, entity[..], |slots|, 0)
  {
    hide Classify, Fits, Held, InnerCodec, Applied, Restored, DriverScan, Waiting, Scannable, InnerShape, ApplySlot,
      Finalizing;
    var k := 0;
    while k < |slots|
      invariant k <= |slots| && Finalizing(fields, cells, args, before, entity[..], k, 0)
      invariant forall i ::
                0 <= i < |fields| && args[i].Holder? && args[i].slot < k ==> Restored(fields[i].goType, cells[i]).Some?
    {
      assert Holder(k) in args;
      ghost var i :| 0 <= i < |args| && args[i] == Holder(k);
      assert Suits(fields[i], args[i], slots);
      SlotRestores(fields[i], cells[i], holders[k]);
      match ApplySlot(slots[k], holders[k]) {
        case None =>
          return false;
        case Some(v) =>
          Write(fields, cells, args, before, entity[..], i, v, k, 0, k + 1, 0);
          entity[slots[k].index] := v;
      }
      k := k + 1;
    }
    forall i | 0 <= i < |fields| &&
      args[i].Holder? ensures args[i].slot < k { assert Suits(fields[i], args[i], slots); }
    ok := true;
  }

  lemma UnmarshalRestores(f: Field, c: Cell)
    requires Classify(f.goType).ScanJson?
    ensures Unmarshalled(f.goType, c, Zero(f.goType)) == Restored(f.goType, c)
  {
  }

  lemma BufferColumn(fields: seq<Field>, cells: seq<Cell>, args: seq<Dest>, slots: seq<PtrSlot>,
          before: seq<GoValue>, now: seq<GoValue>, m: nat)
    requires |cells| == |fields| && |before| == |now| && Layout(fields, |now|) && Prepared(fields, args, slots)
    requires m < |fields|
    requires Finalizing(fields, cells, args, before, now, |slots|, m)
    ensures args[m] == Buffer ==>
            Classify(fields[m].goType).ScanJson? && now[fields[m].index] == before[fields[m].index]
    ensures args[m] != Buffer ==> Finalizing(fields, cells, args, before, now, |slots|, m + 1)
  {
    hide Classify, Done;
    assert Waiting(fields[m], cells[m], args[m], m, |slots|, m, before[fields[m].index], now[fields[m].index]);
    assert Suits(fields[m], args[m], slots);
    if args[m] != Buffer {
      forall i | 0 <= i < |fields|
        ensures Waiting(fields[i], cells[i], args[i], i, |slots|, m + 1, before[fields[i].index], now[fields[i].index])
      {
        assert Waiting(fields[i], cells[i], args[i], i, |slots|, m, before[fields[i].index], now[fields[i].index]);
      }
    }
  }

  method UnmarshalBuffers(fields: seq<Field>, ghost cells: seq<Cell>, ghost args: seq<Dest>,
          ghost slots: seq<PtrSlot>, buffers: array<Cell>,
                          ghost before: seq<GoValue>, entity: array<GoValue>) returns (ok: bool)
    requires |cells| == |fields| == buffers.Length && |before| == entity.Length && Layout(fields, entity.Length)
    requires Prepared(fields, args, slots)
    requires forall i :: 0 <= i < |fields| ==> buffers[i] == if args[i] == Buffer then cells[i] else Null
    requires forall i :: 0 <= i < |fields| ==> before[fields[i].index] == Zero(fields[i].goType)
    requires Finalizing(fields, cells, args, before, entity[..], |slots|, 0)
    modifies entity
    ensures ok <==> forall i :: 0 <= i < |fields| && args[i] == Buffer ==> Restored(fields[i].goType, cells[i]).Some?
    ensures ok ==> Finalizing(fields, cells, args, before, entity[..], |slots|, |fields|)
  {
    hide Classify, Restored, Waiting, Finalizing, Zero;
    var m := 0;
    while m < |fields|
      invariant m <= |fields| && Finalizing(fields, cells, args, before, entity[..], |slots|, m)
      invariant forall i :: 0 <= i < m && args[i] == Buffer ==> Restored(fields[i].goType, cells[i]).Some?
    {
      BufferColumn(fields, cells, args, slots, before, entity[..], m);
      if args[m] == Buffer { UnmarshalRestores(fields[m], cells[m]); }
      match Unmarshalled(fields[m].goType, buffers[m], entity[fields[m].index]) {
        case None =>
          return false;
        case Some(v) =>
          if args[m] == Buffer { Write(fields, cells, args, before, entity[..], m, v, |slots|, m, |slots|, m + 1); }
          assert entity[..][fields[m].index := v] == if args[m] == Buffer then entity[..][fields[m].index := v]
            else entity[..];
          entity[fields[m].index] := v;
      }
      m := m + 1;
    }
    ok := true;
  }

  // ---------------------------------------------------------------- one row

  lemma RestoredNeedsScannable(t: GoType, c: Cell)
    ensures Restored(t, c).Some? ==> Scannable(t, c)
    ensures Classify(t).ScanDirect? && Scannable(t, c) ==> Restored(t, c).Some?
  {
    hide DriverScan, Held, InnerCodec, Applied, Classify;
  }

  lemma ScannedParts(fields: seq<Field>, cells: seq<Cell>, args: seq<Dest>, slots: seq<PtrSlot>, buffers: seq<Cell>,
          holders: seq<Cell>,
                     before: seq<GoValue>, now: seq<GoValue>, i: nat)
    requires |cells| == |fields| == |buffers| && |before| == |now| && Layout(fields, |now|)
    requires Prepared(fields, args, slots)
    requires Scanned(fields, cells, args, buffers, holders, before, now, |fields|) && i < |fields|
    ensures buffers[i] == if args[i] == Buffer then cells[i] else Null
    ensures args[i].Holder? && args[i].slot < |holders| ==>
              Held(Classify(fields[i].goType), InnerCodec(fields[i].goType), cells[i]) == Some(holders[args[i].slot])
  {
    hide Classify, DriverScan, Held, InnerCodec;
    assert Placed(fields[i], cells[i], args[i], buffers[i], holders, before[fields[i].index], now[fields[i].index]);
  }

  lemma AllDone(fields: seq<Field>, cells: seq<Cell>, args: seq<Dest>, slots: seq<PtrSlot>, before: seq<GoValue>,
          now: seq<GoValue>, i: nat)
    requires |cells| == |fields| && |before| == |now| && Layout(fields, |now|) && Prepared(fields, args, slots)
    requires i < |fields|
    requires Finalizing(fields, cells, args, before, now, |slots|, |fields|)
    ensures Restored(fields[i].goType, cells[i]) == Some(now[fields[i].index])
  {
    hide Classify, Restored;
    assert Suits(fields[i], args[i], slots);
    assert Waiting(fields[i], cells[i], args[i], i, |slots|, |fields|, before[fields[i].index], now[fields[i].index]);
  }

  /** A negative number for an unsigned field behind a pointer. */
  predicate Refused(t: GoType, c: Cell) {
    t.Ptr? && t.elem.Plain? && t.elem.shape.Uint? && c.IntCell? && -0x8000_0000_0000_0000 <= c.i < 0
  }

  lemma EachSpelledOut(fields: seq<Field>, cells: seq<Cell>)
    requires |cells| == |fields|
    ensures forall i :: 0 <= i < |fields| ==>
              ReadsAs(fields[i].goType, cells[i], Restored(fields[i].goType, cells[i])) &&
              (Refused(fields[i].goType, cells[i]) ==> Restored(fields[i].goType, cells[i]) == None)
  {
    hide Restored;
    forall i | 0 <= i < |fields|
      ensures ReadsAs(fields[i].goType, cells[i], Restored(fields[i].goType, cells[i]))
      ensures Refused(fields[i].goType, cells[i]) ==> Restored(fields[i].goType, cells[i]) == None
    {
      SpelledOut(fields[i].goType, cells[i]);
    }
  }

  /** A row goes through if and only if every column can be restored for its field; then column i is in the field it
      belongs to, whatever mixture of kinds the fields are, and unmapped fields are as before. */
  method ScanRow(fields: seq<Field>, cells: seq<Cell>, entity: array<GoValue>) returns (ok: bool)
    requires |cells| == |fields| && Layout(fields, entity.Length)
    requires forall i :: 0 <= i < |fields| ==> entity[fields[i].index] == Zero(fields[i].goType)
    modifies entity
    ensures ok <==> forall i :: 0 <= i < |fields| ==> Restored(fields[i].goType, cells[i]).Some?
    ensures ok ==> forall i ::
            0 <= i < |fields| ==> Restored(fields[i].goType, cells[i]) == Some(entity[fields[i].index])
    ensures ok ==> forall j :: 0 <= j < entity.Length && !Mapped(fields, j) ==> entity[j] == old(entity[j])
    ensures ok ==> forall i ::
            0 <= i < |fields| ==> ReadsAs(fields[i].goType, cells[i], Some(entity[fields[i].index]))
    ensures (exists i :: 0 <= i < |fields| && Refused(fields[i].goType, cells[i])) ==> !ok
  {
    EachSpelledOut(fields, cells);
    hide ReadsAs, Refused, Classify, Restored, Scannable, Held, InnerCodec, Zero, Waiting, Placed, Suits;
    ghost var before := entity[..];
    var args, slots := Prepare(fields);
    var buffers := new Cell[|fields|](_ => Null);
    var holders := new Cell[|slots|](_ => Null);
    forall i | 0 <= i < |fields|
      ensures Restored(fields[i].goType, cells[i]).Some? ==> Scannable(fields[i].goType, cells[i])
    {
      RestoredNeedsScannable(fields[i].goType, cells[i]);
    }
    ok := Scan(fields, cells, args, slots, buffers, holders, entity);
    if !ok {
      return;
    }
    forall i | 0 <= i < |fields|
      ensures buffers[i] == if args[i] == Buffer then cells[i] else Null
      ensures args[i].Holder? && args[i].slot < holders.Length ==>
                Held(Classify(fields[i].goType), InnerCodec(fields[i].goType), cells[i]) == Some(holders[args[i].slot])
    {
      ScannedParts(fields, cells, args, slots, buffers[..], holders[..], before, entity[..], i);
    }
    StartFinalizing(fields, cells, args, slots, buffers[..], holders[..], before, entity[..]);
    ok := ApplySlots(fields, cells, args, slots, holders, before, entity);
    if !ok {
      return;
    }
    ok := UnmarshalBuffers(fields, cells, args, slots, buffers, before, entity);
    if ok {
      forall i | 0 <= i < |fields| ensures Restored(fields[i].goType, cells[i]) == Some(entity[fields[i].index]) {
        AllDone(fields, cells, args, slots, before, entity[..], i);
      }
    }
  }

  // ---------------------------------------------------------------- many rows

  /** The mapped fields have the types of the struct. */
  ghost predicate Mapping(types: seq<GoType>, fields: seq<Field>) {
    Layout(fields, |types|) && forall i :: 0 <= i < |fields| ==> fields[i].goType == types[fields[i].index]
  }

  predicate Readable(fields: seq<Field>, cells: seq<Cell>) {
    |cells| == |fields| && forall i :: 0 <= i < |fields| ==> Restored(fields[i].goType, cells[i]).Some?
  }

  /** `entity` is the row read into a fresh struct. */
  ghost predicate IsRow(types: seq<GoType>, fields: seq<Field>, cells: seq<Cell>, entity: seq<GoValue>)
    requires Mapping(types, fields)
  {
    && |cells| == |fields| && |entity| == |types|
    && (forall i :: 0 <= i < |fields| ==> Restored(fields[i].goType, cells[i]) == Some(entity[fields[i].index]))
    && (forall j :: 0 <= j < |types| && !Mapped(fields, j) ==> entity[j] == Zero(types[j]))
  }

  /** `broken` is rows.Err() after the last row that was delivered. */
  method ScanRows(types: seq<GoType>, fields: seq<Field>, rows: seq<seq<Cell>>,
          broken: bool) returns (results: Option<seq<seq<GoValue>>>)
    requires Mapping(types, fields) && forall r :: 0 <= r < |rows| ==> |rows[r]| == |fields|
    ensures results.Some? <==> !broken && forall r :: 0 <= r < |rows| ==> Readable(fields, rows[r])
    ensures results.Some? ==> |results.value| == |rows| && forall r ::
            0 <= r < |rows| ==> IsRow(types, fields, rows[r], results.value[r])
  {
    hide Restored, Zero;
    var done: seq<seq<GoValue>> := [];
    var r := 0;
    while r < |rows|
      invariant r == |done| <= |rows|
      invariant forall k :: 0 <= k < r ==> Readable(fields, rows[k]) && IsRow(types, fields, rows[k], done[k])
    {
      var entity := new GoValue[|types|](i requires 0 <= i < |types| => Zero(types[i]));
      var ok := ScanRow(fields, rows[r], entity);
      if !ok {
        assert !Readable(fields, rows[r]);
        return None;
      }
      assert IsRow(types, fields, rows[r], entity[..]);
      done := done + [entity[..]];
      r := r + 1;
    }
    results := if broken then None else Some(done);
  }

  /** The columns written for a struct. */
  ghost predicate IsWritten(types: seq<GoType>, fields: seq<Field>, entity: seq<GoValue>, cells: seq<Cell>) {
    && Mapping(types, fields) && |entity| == |types| && |cells| == |fields|
    && (forall i :: 0 <= i < |fields| ==> var j := fields[i].index;
                                          && HasType(types[j], entity[j]) && Lawful(types[j])
                                          && Written(types[j], entity[j]) == Some(cells[i]))
  }

  predicate Intact(t: GoType, v: GoValue)
    requires HasType(t, v)
  {
    Faithful(t, v) && Reversible(t, v)
  }

  /** A struct written and read back: if all mapped fields stay intact the row is readable, and in any row read back
      a mapped field has its old value if and only if it stays intact. */
  lemma RowRoundTrip(types: seq<GoType>, fields: seq<Field>, entity: seq<GoValue>, cells: seq<Cell>)
    requires IsWritten(types, fields, entity, cells)
    ensures (forall i :: 0 <= i < |fields| ==> Intact(types[fields[i].index], entity[fields[i].index])) ==>
            Readable(fields, cells)
    ensures forall back :: IsRow(types, fields, cells, back) ==>
              forall i :: 0 <= i < |fields| ==>
                (back[fields[i].index] == entity[fields[i].index] <==>
                  Intact(types[fields[i].index], entity[fields[i].index]))
  {
    hide Faithful, Reversible, Restored, Written;
    forall i | 0 <= i < |fields|
      ensures Restored(fields[i].goType, cells[i]) == Some(entity[fields[i].index]) <==>
              Intact(types[fields[i].index], entity[fields[i].index])
    {
      RoundTrip(types[fields[i].index], entity[fields[i].index]);
      assert ComesBack(types[fields[i].index], entity[fields[i].index]) <==>
        Restored(fields[i].goType, cells[i]) == Some(entity[fields[i].index]);
    }
  }
}
