/** Writing and reading one field in pgsql/table.go: getValue, classifyScanKind, null holders and JSON buffers. */
module FieldCodec {
  import opened Common

  // ---------------------------------------------------------------- Go types and values

  datatype Width = W8 | W16 | W32 | W64

  function Half(w: Width): int {
    match w
    case W8 => 0x80
    case W16 => 0x8000
    case W32 => 0x8000_0000
    case W64 => 0x8000_0000_0000_0000
  }

  const MAX_INT64: int := 0x7fff_ffff_ffff_ffff

  /** `Bytes` is []byte itself and `Time` is time.Time itself; types derived from them are `Slice` and `Struct`. */
  datatype Shape = Str | Bool | Int(w: Width) | Uint(w: Width) | Float | Time | Struct | Bytes | Slice | Map

  /** Which of Valuer and Scanner a type implements, by receiver. */
  datatype Methods = Methods(value: bool, valueByPointer: bool, scan: bool, scanByPointer: bool)

  /** Contents the code never looks into. */
  type Data(==, !new)
  datatype Content = ZeroContent | Given(data: Data)
  datatype Moment = ZeroTime | At(data: Data)
  type Byte = bv8

  datatype GoValue =
    | Text(s: string) | Flag(b: bool) | Signed(i: int) | Unsigned(n: nat) | Number(x: Content) | Instant(t: Moment)
    | Record(r: Content) | Blob(bytes: seq<Byte>) | List(xs: Data) | Dict(m: Data) | Nil | Pointer(to: GoValue)

  /** What is handed to the driver and what a column holds. */
  datatype Cell =
    | Null | TextCell(s: string) | BoolCell(b: bool) | IntCell(i: int) | UintCell(n: nat) | FloatCell(x: Content)
    | TimeCell(t: Moment) | Raw(bytes: seq<Byte>)

  /** What the code calls but does not contain, per type: its Valuer and Scanner, json.Marshal and json.Unmarshal on
      it (the latter on a column read into a byte buffer), and the driver's conversion of a column of another kind to
      the type's own kind. None is an error. */
  datatype Codec = Codec(
    output: GoValue -> Option<Cell>,
    input: Cell -> Option<GoValue>,
    marshal: GoValue -> Option<seq<Byte>>,
    unmarshal: Cell -> Option<GoValue>,
    convert: Cell -> Cell
  )

  datatype GoType = Plain(shape: Shape, methods: Methods, codec: Codec) | Ptr(elem: GoType)

  predicate HasShape(s: Shape, v: GoValue) {
    match s
    case Str => v.Text?
    case Bool => v.Flag?
    case Int(w) => v.Signed? && -Half(w) <= v.i < Half(w)
    case Uint(w) => v.Unsigned? && v.n < 2 * Half(w)
    case Float => v.Number?
    case Time => v.Instant?
    case Struct => v.Record?
    case Bytes => v.Nil? || v.Blob?
    case Slice => v.Nil? || v.List?
    case Map => v.Nil? || v.Dict?
  }

  predicate HasType(t: GoType, v: GoValue) {
    match t
    case Plain(s, _, _) => HasShape(s, v)
    case Ptr(e) => v.Nil? || (v.Pointer? && HasType(e, v.to))
  }

  function Zero(t: GoType): GoValue {
    match t
    case Ptr(_) => Nil
    case Plain(s, _, _) =>
      match s
      case Str => Text("")
      case Bool => Flag(false)
      case Int(_) => Signed(0)
      case Uint(_) => Unsigned(0)
      case Float => Number(ZeroContent)
      case Time => Instant(ZeroTime)
      case Struct => Record(ZeroContent)
      case Bytes | Slice | Map => Nil
  }

  predicate PointerValuer(m: Methods) { m.value || m.valueByPointer }

  predicate PointerScanner(m: Methods) { m.scan || m.scanByPointer }

  /** A pointer to T has T's methods of both kinds; a pointer to a pointer has none. */
  predicate ImplementsValuer(t: GoType) {
    match t
    case Plain(_, m, _) => m.value
    case Ptr(e) => e.Plain? && PointerValuer(e.methods)
  }

  predicate ImplementsScanner(t: GoType) {
    match t
    case Plain(_, m, _) => m.scan
    case Ptr(e) => e.Plain? && PointerScanner(e.methods)
  }

  // ---------------------------------------------------------------- writing

  function JsonOf(q: Codec, v: GoValue): Option<Cell> {
    match q.marshal(v)
    case None => None
    case Some(b) => Some(Raw(b))
  }

  function StoredPlain(s: Shape, q: Codec, v: GoValue): Option<Cell>
    requires HasShape(s, v)
  {
    match s
    case Str => Some(TextCell(v.s))
    case Bool => Some(BoolCell(v.b))
    case Int(_) => Some(IntCell(v.i))
    case Uint(_) => Some(UintCell(v.n))
    case Float => Some(FloatCell(v.x))
    case Time => Some(if v.t == ZeroTime then Null else TimeCell(v.t))
    case Struct => JsonOf(q, v)
    case Bytes => Some(if v.Nil? then Null else Raw(v.bytes))
    case Slice | Map => if v.Nil? then Some(Null) else JsonOf(q, v)
  }

  function Stored(t: GoType, v: GoValue, addressable: bool): Option<Cell>
    requires HasType(t, v)
  {
    match t
    case Ptr(e) => if v.Nil? then Some(Null) else if ImplementsValuer(t) then e.codec.output(v.to)
      else Stored(e, v.to, true)
    case Plain(s, m, q) => if m.value || (addressable && m.valueByPointer) then q.output(v) else StoredPlain(s, q, v)
  }

  /** What is handed to the driver for a value, kind by kind; `r` is None on an error. Pointers are followed to the
      value, nil is NULL, and a Valuer has the say where there is one; a failure of a Valuer or of JSON is a failure
      to write. */
  ghost predicate StoresAs(t: GoType, v: GoValue, addressable: bool, r: Option<Cell>)
    requires HasType(t, v)
  {
    match t
    case Ptr(e) => if v.Nil? then r == Some(Null) else StoresAs(e, v.to, true, r)
    case Plain(s, m, q) =>
      if m.value || (m.valueByPointer && addressable) then r == q.output(v)
      else
        match v
        case Text(x) => r == Some(TextCell(x))
        case Flag(b) => r == Some(BoolCell(b))
        case Signed(i) => r == Some(IntCell(i))
        case Unsigned(n) => r == Some(UintCell(n))
        case Number(x) => r == Some(FloatCell(x))
        case Instant(x) => r == if x == ZeroTime then Some(Null) else Some(TimeCell(x))
        case Blob(bytes) => r == Some(Raw(bytes))
        case Nil => r == Some(Null)
        case _ => r.Some? == q.marshal(v).Some? && (r.Some? ==> r == Some(Raw(q.marshal(v).value)))
  }

  lemma {:induction false} StoredSpelledOut(t: GoType, v: GoValue, addressable: bool)
    requires HasType(t, v)
    ensures StoresAs(t, v, addressable, Stored(t, v, addressable))
  {
    if t.Ptr? && !v.Nil? { StoredSpelledOut(t.elem, v.to, true); }
  }

  /** getValue: follows pointers to the value, and stops at nil or at a Valuer on the way. */
  method GetValue(t: GoType, v: GoValue, addressable: bool) returns (cell: Option<Cell>)
    requires HasType(t, v)
    ensures cell == Stored(t, v, addressable) && StoresAs(t, v, addressable, cell)
  {
    StoredSpelledOut(t, v, addressable);
    var fieldType, fieldValue, canAddr := t, v, addressable;
    while fieldType.Ptr?
      invariant HasType(fieldType, fieldValue) && Stored(fieldType, fieldValue, canAddr) == Stored(t, v, addressable)
      decreases fieldType
    {
      if fieldValue.Nil? {
        return Some(Null);
      }
      if ImplementsValuer(fieldType) {
        return fieldType.elem.codec.output(fieldValue.to);
      }
      fieldType, fieldValue, canAddr := fieldType.elem, fieldValue.to, true;
    }
    var codec := fieldType.codec;
    if canAddr && PointerValuer(fieldType.methods) {
      return codec.output(fieldValue);
    }
    if fieldType.methods.value {
      return codec.output(fieldValue);
    }
    if fieldType.shape.Time? {
      return Some(if fieldValue.t == ZeroTime then Null else TimeCell(fieldValue.t));
    }
    if fieldType.shape.Struct? {
      return JsonOf(codec, fieldValue);
    }
    if fieldType.shape.Slice? || fieldType.shape.Map? || fieldType.shape.Bytes? {
      if fieldValue.Nil? {
        return Some(Null);
      }
      if fieldType.shape.Bytes? {
        return Some(Raw(fieldValue.bytes));
      }
      return JsonOf(codec, fieldValue);
    }
    cell := StoredPlain(fieldType.shape, codec, fieldValue);
  }

  /** The driver has no unsigned integers, and refuses values with the high bit set. */
  function Encoded(c: Cell): Option<Cell> {
    if c.UintCell? then (if c.n <= MAX_INT64 then Some(IntCell(c.n)) else None) else Some(c)
  }

  function Sent(c: Option<Cell>): Option<Cell> {
    if c.Some? then Encoded(c.value) else None
  }

  /** The column a field of an entity is written to, None if it cannot be written. */
  function Written(t: GoType, v: GoValue): Option<Cell>
    requires HasType(t, v)
  {
    Sent(Stored(t, v, true))
  }

  // ---------------------------------------------------------------- reading

  datatype ScanKind =
    | ScanDirect | ScanJson | ScanPtrString | ScanPtrBool | ScanPtrInt | ScanPtrUint | ScanPtrFloat | ScanPtrTime

  /** classifyScanKind. */
  function Classify(t: GoType): ScanKind {
    match t
    case Ptr(e) =>
      if e.Ptr? then ScanDirect
      else (
        match e.shape
        case Time => ScanPtrTime
        case Struct => if ImplementsScanner(t) || ImplementsValuer(t) || ImplementsScanner(e) ||
          ImplementsValuer(e) then ScanDirect else ScanJson
        case Bytes | Slice | Map => ScanJson
        case Str => ScanPtrString
        case Bool => ScanPtrBool
        case Int(_) => ScanPtrInt
        case Uint(_) => ScanPtrUint
        case Float => ScanPtrFloat)
    case Plain(s, _, _) =>
      match s
      case Time => ScanPtrTime
      case Struct =>
        if ImplementsScanner(t) || ImplementsValuer(t) || ImplementsScanner(Ptr(t)) ||
          ImplementsValuer(Ptr(t)) then ScanDirect else ScanJson
      case Slice | Map => ScanJson
      case _ => ScanDirect
  }

  /** The column has the kind the driver writes for the shape. */
  predicate OwnKind(s: Shape, c: Cell) {
    match s
    case Str => c.TextCell?
    case Bool => c.BoolCell?
    case Int(_) | Uint(_) => c.IntCell?
    case Float => c.FloatCell?
    case Time => c.TimeCell?
    case Bytes => c.Raw? || c.Null?
    case Struct | Slice | Map => false
  }

  function OwnScan(s: Shape, c: Cell): Option<GoValue>
    requires OwnKind(s, c)
  {
    match s
    case Str => Some(Text(c.s))
    case Bool => Some(Flag(c.b))
    case Int(w) => if -Half(w) <= c.i < Half(w) then Some(Signed(c.i)) else None
    case Uint(w) => if 0 <= c.i < 2 * Half(w) then Some(Unsigned(c.i)) else None
    case Float => Some(Number(c.x))
    case Time => Some(Instant(c.t))
    case Bytes => Some(if c.Null? then Nil else Blob(c.bytes))
  }

  /** The driver scanning into the underlying kind of a type. */
  function KindScan(s: Shape, q: Codec, c: Cell): Option<GoValue> {
    if OwnKind(s, c) then OwnScan(s, c)
    else if !c.Null? && OwnKind(s, q.convert(c)) then OwnScan(s, q.convert(c))
    else None
  }

  /** The driver scanning a column straight into a field: NULL makes a pointer nil, a Scanner gets the column. */
  function DriverScan(t: GoType, c: Cell): Option<GoValue> {
    match t
    case Ptr(e) =>
      if c.Null? then Some(Nil)
      else (match DriverScan(e, c) case None => None case Some(v) => Some(Pointer(v)))
    case Plain(s, m, q) => if PointerScanner(m) then q.input(c) else KindScan(s, q, c)
  }

  /** The column kinds that sql.NullString, NullBool, NullInt64, NullFloat64 and NullTime are made for. */
  predicate Fits(k: ScanKind, c: Cell) {
    match k
    case ScanPtrString => c.TextCell?
    case ScanPtrBool => c.BoolCell?
    case ScanPtrInt | ScanPtrUint => c.IntCell? && -MAX_INT64 - 1 <= c.i <= MAX_INT64
    case ScanPtrFloat => c.FloatCell?
    case ScanPtrTime => c.TimeCell?
    case _ => false
  }

  /** What such a holder holds after scanning a column; Null stands for `Valid` being false. */
  function Held(k: ScanKind, q: Codec, c: Cell): (h: Option<Cell>)
    ensures h.Some? ==> h.value.Null? || Fits(k, h.value)
    ensures c.Null? <==> h == Some(Null)
  {
    if c.Null? || Fits(k, c) then Some(c)
    else if Fits(k, q.convert(c)) then Some(q.convert(c))
    else None
  }

  /** reflect.Value.SetInt and SetUint keep the low bits. */
  function WrapInt(i: int, w: Width): int {
    (i + Half(w)) % (2 * Half(w)) - Half(w)
  }

  function WrapUint(i: int, w: Width): (n: nat) {
    i % (2 * Half(w))
  }

  /** ptrScanSlot.apply for a valid holder. */
  function Applied(k: ScanKind, elem: Shape, pointer: bool, c: Cell): Option<GoValue>
    requires Fits(k, c) && (k.ScanPtrInt? ==> elem.Int?) && (k.ScanPtrUint? ==> elem.Uint?)
  {
    match k
    case ScanPtrString => Some(Pointer(Text(c.s)))
    case ScanPtrBool => Some(Pointer(Flag(c.b)))
    case ScanPtrInt => Some(Pointer(Signed(WrapInt(c.i, elem.w))))
    case ScanPtrUint => if c.i < 0 then None else Some(Pointer(Unsigned(WrapUint(c.i, elem.w))))
    case ScanPtrFloat => Some(Pointer(Number(c.x)))
    case ScanPtrTime => Some(if pointer then Pointer(Instant(c.t)) else Instant(c.t))
  }

  function InnerShape(t: GoType): Shape {
    match t
    case Plain(s, _, _) => s
    case Ptr(e) => InnerShape(e)
  }

  function InnerCodec(t: GoType): Codec {
    match t
    case Plain(_, _, q) => q
    case Ptr(e) => InnerCodec(e)
  }

  predicate IsSlot(k: ScanKind) { !k.ScanDirect? && !k.ScanJson? }

  lemma SlotShapes(t: GoType)
    ensures Classify(t).ScanPtrInt? ==> InnerShape(t).Int?
    ensures Classify(t).ScanPtrUint? ==> InnerShape(t).Uint?
  {
  }

  /** A column that leaves the byte buffer empty. */
  predicate Blank(c: Cell) {
    c.Null? || (c.Raw? && c.bytes == []) || (c.TextCell? && c.s == "")
  }

  /** What the read path makes of a column for a field that is still zero. */
  function Restored(t: GoType, c: Cell): Option<GoValue> {
    var k := Classify(t);
    if k.ScanDirect? then DriverScan(t, c)
    else if k.ScanJson? then
      if Blank(c) then Some(Zero(t))
      else (match InnerCodec(t).unmarshal(c) case None => None case Some(v) => Some(if t.Ptr? then Pointer(v) else v))
    else
      match Held(k, InnerCodec(t), c)
      case None => None
      case Some(h) =>
        SlotShapes(t);
        if h.Null? then Some(Zero(t)) else Applied(k, InnerShape(t), t.Ptr?, h)
  }

  /** A column in the range of the driver's integers. */
  predicate Int64(i: int) {
    -0x8000_0000_0000_0000 <= i <= 0x7fff_ffff_ffff_ffff
  }

  /** An integer that has the low bits of `i`. */
  predicate LowBits(n: int, i: int, w: Width) {
    match w
    case W8 => (n - i) % 0x100 == 0
    case W16 => (n - i) % 0x1_0000 == 0
    case W32 => (n - i) % 0x1_0000_0000 == 0
    case W64 => (n - i) % 0x1_0000_0000_0000_0000 == 0
  }

  /** What a column becomes in a field that is read through a null holder, kind by kind; `r` is None if the row is
      unreadable. NULL makes a pointer nil and a time zero. A value that is too wide loses its high bits, and a
      negative one cannot be read into an unsigned field. */
  ghost predicate ReadsAs(t: GoType, c: Cell, r: Option<GoValue>) {
    match t
    case Plain(s, _, _) =>
      && (s.Time? && c.Null? ==> r == Some(Instant(ZeroTime)))
      && (s.Time? && c.TimeCell? ==> r == Some(Instant(c.t)))
      && (s.Slice? || s.Map? ==>
           && (c == Null || c == Raw([]) ==> r == Some(Nil))
           && (c.Raw? && c.bytes != [] ==> r == t.codec.unmarshal(c)))
    case Ptr(e) =>
      && (c.Null? && !(e.Plain? && e.shape.Struct?) ==> r == Some(Nil))
      && (e.Plain? && (e.shape.Slice? || e.shape.Map?) && c.Raw? && c.bytes != [] ==>
           if e.codec.unmarshal(c).None? then r == None else r == Some(Pointer(e.codec.unmarshal(c).value)))
      && (e.Plain? ==>
           && (e.shape.Str? && c.TextCell? ==> r == Some(Pointer(Text(c.s))))
           && (e.shape.Bool? && c.BoolCell? ==> r == Some(Pointer(Flag(c.b))))
           && (e.shape.Float? && c.FloatCell? ==> r == Some(Pointer(Number(c.x))))
           && (e.shape.Time? && c.TimeCell? ==> r == Some(Pointer(Instant(c.t))))
           && (e.shape.Int? && c.IntCell? && Int64(c.i) ==>
                && r.Some? && r.value.Pointer? && HasShape(e.shape, r.value.to)
                && LowBits(r.value.to.i, c.i, e.shape.w))
           && (e.shape.Uint? && c.IntCell? && Int64(c.i) ==>
                if c.i < 0 then r == None
                else
                  && r.Some? && r.value.Pointer? && HasShape(e.shape, r.value.to)
                  && LowBits(r.value.to.n, c.i, e.shape.w)))
  }

  lemma WrapBits(i: int, w: Width)
    ensures -Half(w) <= WrapInt(i, w) < Half(w) && LowBits(WrapInt(i, w), i, w)
    ensures WrapUint(i, w) < 2 * Half(w) && LowBits(WrapUint(i, w), i, w)
  {
    match w {
      case W8 => Bits8(i);
      case W16 => Bits16(i);
      case W32 => Bits32(i);
      case W64 => Bits64(i);
    }
  }

  lemma Bits8(i: int)
    ensures ((i + 0x80) % 0x100 - 0x80 - i) % 0x100 == 0 && (i % 0x100 - i) % 0x100 == 0
  {
  }

  lemma Bits16(i: int)
    ensures ((i + 0x8000) % 0x1_0000 - 0x8000 - i) % 0x1_0000 == 0 && (i % 0x1_0000 - i) % 0x1_0000 == 0
  {
  }

  lemma Bits32(i: int)
    ensures ((i + 0x8000_0000) % 0x1_0000_0000 - 0x8000_0000 - i) % 0x1_0000_0000 == 0
    ensures (i % 0x1_0000_0000 - i) % 0x1_0000_0000 == 0
  {
  }

  lemma Bits64(i: int)
    ensures ((i + 0x8000_0000_0000_0000) % 0x1_0000_0000_0000_0000 - 0x8000_0000_0000_0000 - i) %
            0x1_0000_0000_0000_0000 == 0
    ensures (i % 0x1_0000_0000_0000_0000 - i) % 0x1_0000_0000_0000_0000 == 0
  {
  }

  lemma IntSpelled(e: GoType, i: int)
    requires e.Plain? && e.shape.Int? && Int64(i)
    ensures Restored(Ptr(e), IntCell(i)) == Some(Pointer(Signed(WrapInt(i, e.shape.w))))
  {
    hide WrapInt;
    assert InnerShape(Ptr(e)) == InnerShape(e) && InnerCodec(Ptr(e)) == InnerCodec(e);
    assert Held(ScanPtrInt, e.codec, IntCell(i)) == Some(IntCell(i));
  }

  lemma UintSpelled(e: GoType, i: int)
    requires e.Plain? && e.shape.Uint? && Int64(i)
    ensures Restored(Ptr(e), IntCell(i)) == if i < 0 then None else Some(Pointer(Unsigned(WrapUint(i, e.shape.w))))
  {
    hide WrapUint;
    assert InnerShape(Ptr(e)) == InnerShape(e) && InnerCodec(Ptr(e)) == InnerCodec(e);
    assert Held(ScanPtrUint, e.codec, IntCell(i)) == Some(IntCell(i));
  }

  lemma SpelledOut(t: GoType, c: Cell)
    ensures ReadsAs(t, c, Restored(t, c))
  {
    if t.Ptr? && t.elem.Plain? && (t.elem.shape.Int? || t.elem.shape.Uint?) && c.IntCell? && Int64(c.i) {
      hide WrapInt, WrapUint, LowBits, Half, Restored;
      WrapBits(c.i, t.elem.shape.w);
      if t.elem.shape.Int? { IntSpelled(t.elem, c.i); } else { UintSpelled(t.elem, c.i); }
    } else if t.Ptr? && t.elem.Plain? {
      assert InnerCodec(t) == InnerCodec(t.elem) == t.elem.codec;
    }
  }

  predicate ComesBack(t: GoType, v: GoValue)
    requires HasType(t, v)
  {
    Written(t, v).Some? && Restored(t, Written(t, v).value) == Some(v)
  }

  // ---------------------------------------------------------------- what is assumed

  /** json.Marshal never writes nothing. */
  ghost predicate JsonWrites(q: Codec) {
    forall v :: q.marshal(v).Some? ==> q.marshal(v).value != []
  }

  /** No JSON text is the base64 form of itself. */
  ghost predicate NotItsOwnBase64(q: Codec) {
    forall b :: b != [] ==> q.unmarshal(Raw(b)) != Some(Blob(b))
  }

  /** What holds of every Go type: the unnamed []byte and time.Time have no methods, JSON is never empty and never its
      own base64 form. Nothing is asked of Valuers, Scanners or of reading JSON back. */
  ghost predicate Lawful(t: GoType) {
    match t
    case Ptr(e) => Lawful(e)
    case Plain(s, m, q) =>
      (s.Time? || s.Bytes? ==> m == NO_METHODS) && JsonWrites(q) && (s.Bytes? ==> NotItsOwnBase64(q))
  }

  const NO_METHODS := Methods(false, false, false, false)

  // ---------------------------------------------------------------- when a field comes back

  /** The column of a value that is not a pointer: from its Valuer if it has one. */
  function Column(t: GoType, v: GoValue): Option<Cell>
    requires t.Plain? && HasType(t, v)
  {
    Sent(if PointerValuer(t.methods) then t.codec.output(v) else StoredPlain(t.shape, t.codec, v))
  }

  /** Nil pointers, and values whose column is NULL: nil slices, maps and []byte, the zero time, and whatever a Valuer
      turns into NULL. */
  predicate StoresNull(t: GoType, v: GoValue)
    requires HasType(t, v)
  {
    match t
    case Ptr(e) => v.Nil? || StoresNull(e, v.to)
    case Plain(_, _, _) => Column(t, v) == Some(Null)
  }

  /** A value scanned by the driver is kept: by its Valuer and Scanner; by a Scanner alone if it reads the plain
      form; by a Valuer alone if the underlying kind reads its output; without methods if it is not a struct, slice,
      map or the zero time. */
  predicate DriverKeeps(t: GoType, v: GoValue)
    requires t.Plain? && HasType(t, v)
  {
    && Column(t, v).Some?
    && (if PointerScanner(t.methods) then PointerValuer(t.methods) || t.codec.input(Column(t, v).value) == Some(v)
        else if PointerValuer(t.methods) then KindScan(t.shape, t.codec, Column(t, v).value) == Some(v)
        else !t.shape.Struct? && !t.shape.Slice? && !t.shape.Map? && (t.shape.Time? ==> v.t != ZeroTime))
  }

  predicate DirectFaithful(t: GoType, v: GoValue)
    requires HasType(t, v)
  {
    match t
    case Ptr(e) => v.Nil? || (DirectFaithful(e, v.to) && !StoresNull(e, v.to))
    case Plain(_, _, _) => DriverKeeps(t, v)
  }

  /** A slice, map or struct read from a byte buffer is kept: an empty buffer leaves the zero value, and a nil pointer
      if the field is one; otherwise without Valuer always, and with one if JSON reads its output as the value. */
  predicate BufferKeeps(t: GoType, v: GoValue, behindPointer: bool)
    requires t.Plain? && HasType(t, v)
  {
    && Column(t, v).Some?
    && (if Blank(Column(t, v).value) then !behindPointer && v == Zero(t)
        else PointerValuer(t.methods) ==> t.codec.unmarshal(Column(t, v).value) == Some(v))
  }

  /** A basic value behind a pointer, read through a null holder, is kept: without Valuer always, with one if the
      holder reads its output as the value. */
  predicate HolderKeeps(t: GoType, v: GoValue)
    requires t.Plain? && HasType(t, v) && IsSlot(Classify(Ptr(t)))
  {
    && Column(t, v).Some?
    && (PointerValuer(t.methods) ==>
          var k := Classify(Ptr(t));
          var h := Held(k, t.codec, Column(t, v).value);
          SlotShapes(Ptr(t));
          h.Some? && !h.value.Null? && Applied(k, t.shape, true, h.value) == Some(Pointer(v)))
  }

  /** The fields that the code itself keeps. A value that cannot be written is not kept, nor is one behind a pointer
      whose column is NULL, nor any non-nil *[]byte. Types without Valuer and Scanner otherwise are, and so are types
      with both where the driver scans them: the type itself unless it is a slice or map, and a pointer to it if it
      is a struct. Elsewhere it depends on what reads the column, as BufferKeeps, HolderKeeps and DriverKeeps say. */
  predicate Faithful(t: GoType, v: GoValue)
    requires HasType(t, v)
  {
    match t
    case Ptr(e) =>
      v.Nil? || (
        && !StoresNull(e, v.to)
        && match e
           case Ptr(_) => DirectFaithful(e, v.to)
           case Plain(s, m, _) =>
             match s
             case Bytes => false
             case Struct => if PointerValuer(m) || PointerScanner(m) then DriverKeeps(e, v.to)
               else BufferKeeps(e, v.to, true)
             case Slice | Map => BufferKeeps(e, v.to, true)
             case _ => HolderKeeps(e, v.to))
    case Plain(s, m, _) =>
      match s
      case Time => true
      case Struct => if PointerValuer(m) || PointerScanner(m) then DriverKeeps(t, v) else BufferKeeps(t, v, false)
      case Slice | Map => BufferKeeps(t, v, false)
      case _ => DriverKeeps(t, v)
  }

  // ---------------------------------------------------------------- what the type's own code must undo

  /** json.Unmarshal makes of json.Marshal's output the value itself. It does not for values that share their JSON
      with another, as with omitted or ignored fields. */
  predicate JsonInverse(q: Codec, v: GoValue) {
    q.marshal(v).Some? ==> q.unmarshal(Raw(q.marshal(v).value)) == Some(v)
  }

  /** The Scanner reads the value from what the Valuer wrote. It does not for all values the Valuer turns into NULL if
      there are several. */
  predicate PairInverse(q: Codec, v: GoValue) {
    Sent(q.output(v)).Some? ==> q.input(Sent(q.output(v)).value) == Some(v)
  }

  predicate PairReverses(t: GoType, v: GoValue)
    requires t.Plain?
  {
    PointerValuer(t.methods) && PointerScanner(t.methods) ==> PairInverse(t.codec, v)
  }

  predicate JsonReverses(t: GoType, v: GoValue)
    requires t.Plain?
  {
    !PointerValuer(t.methods) && !v.Nil? ==> JsonInverse(t.codec, v)
  }

  predicate DirectReversible(t: GoType, v: GoValue)
    requires HasType(t, v)
  {
    match t
    case Ptr(e) => v.Nil? || DirectReversible(e, v.to)
    case Plain(_, _, _) => PairReverses(t, v)
  }

  /** Where the field goes through a Valuer and a Scanner, or through JSON alone, these undo each other on this
      value. */
  predicate Reversible(t: GoType, v: GoValue)
    requires HasType(t, v)
  {
    match t
    case Ptr(e) =>
      v.Nil? || (
        match e
        case Ptr(_) => DirectReversible(e, v.to)
        case Plain(s, m, _) =>
          match s
          case Struct => if PointerValuer(m) || PointerScanner(m) then PairReverses(e, v.to) else JsonReverses(e, v.to)
          case Slice | Map => JsonReverses(e, v.to)
          case _ => true)
    case Plain(s, m, _) =>
      match s
      case Struct => if PointerValuer(m) || PointerScanner(m) then PairReverses(t, v) else JsonReverses(t, v)
      case Slice | Map => JsonReverses(t, v)
      case Time => true
      case _ => PairReverses(t, v)
  }

  // ---------------------------------------------------------------- the round trip

  lemma WrapFits(w: Width, i: int)
    ensures 0 < Half(w) <= MAX_INT64 + 1
    ensures -Half(w) <= i < Half(w) ==> WrapInt(i, w) == i
    ensures 0 <= i < 2 * Half(w) ==> WrapUint(i, w) == i
  {
    match w {
      case W8 => ModSmall(i, 0x80);
      case W16 => ModSmall(i, 0x8000);
      case W32 => ModSmall(i, 0x8000_0000);
      case W64 => ModSmall(i, 0x8000_0000_0000_0000);
    }
  }

  lemma ModSmall(i: int, h: int)
    requires h > 0
    ensures -h <= i < h ==> (i + h) % (2 * h) - h == i
    ensures 0 <= i < 2 * h ==> i % (2 * h) == i
  {
    if -h <= i < h { SmallMod(i + h, 2 * h); }
    if 0 <= i < 2 * h { SmallMod(i, 2 * h); }
  }

  lemma SmallMod(x: nat, m: nat)
    requires x < m
    ensures x % m == x
  {
  }

  /** A value is written to the column of what its pointers lead to. */
  lemma {:induction false} WrittenBehind(t: GoType, v: GoValue)
    requires t.Ptr? && v.Pointer? && HasType(t, v)
    ensures HasType(t.elem, v.to) && Written(t, v) == Written(t.elem, v.to)
  {
    if t.elem.Plain? { assert Stored(t.elem, v.to, true) == Stored(t, v, true); }
  }

  lemma WrittenPlain(t: GoType, v: GoValue)
    requires t.Plain? && HasType(t, v)
    ensures Written(t, v) == Column(t, v)
  {
  }

  lemma {:induction false} NullIsStored(t: GoType, v: GoValue)
    requires HasType(t, v)
    ensures StoresNull(t, v) <==> Written(t, v) == Some(Null)
  {
    if t.Plain? {
      WrittenPlain(t, v);
    } else if v.Pointer? {
      WrittenBehind(t, v);
      NullIsStored(t.elem, v.to);
    }
  }

  lemma DriverKeepsExact(t: GoType, v: GoValue)
    requires t.Plain? && HasType(t, v) && Lawful(t)
    ensures DriverKeeps(t, v) && PairReverses(t, v) <==>
            Column(t, v).Some? && DriverScan(t, Column(t, v).value) == Some(v)
  {
    var s, m, q := t.shape, t.methods, t.codec;
    if !PointerScanner(m) && !PointerValuer(m) { assert Column(t, v) == Sent(StoredPlain(s, q, v)); }
  }

  lemma {:induction false} DirectRoundTrip(t: GoType, v: GoValue)
    requires HasType(t, v) && Lawful(t)
    ensures DirectFaithful(t, v) && DirectReversible(t, v) <==>
            Written(t, v).Some? && DriverScan(t, Written(t, v).value) == Some(v)
  {
    hide DriverKeeps, PairReverses, Column, Stored, Written;
    if t.Plain? {
      WrittenPlain(t, v);
      DriverKeepsExact(t, v);
    } else if v.Pointer? {
      WrittenBehind(t, v);
      NullIsStored(t.elem, v.to);
      DirectRoundTrip(t.elem, v.to);
    } else {
      WrittenNil(t);
    }
  }

  lemma WrittenNil(t: GoType)
    requires t.Ptr?
    ensures Written(t, Nil) == Some(Null)
  {
  }

  lemma BufferKeepsExact(t: GoType, v: GoValue)
    requires t.Plain? && HasType(t, v) && Lawful(t)
    ensures Classify(t).ScanJson? ==>
            (BufferKeeps(t, v, false) && JsonReverses(t, v) <==>
              Column(t, v).Some? && Restored(t, Column(t, v).value) == Some(v))
    ensures Classify(Ptr(t)).ScanJson? && !t.shape.Bytes? ==>
            (BufferKeeps(t, v, true) && JsonReverses(t, v) <==>
              Column(t, v).Some? && Restored(Ptr(t), Column(t, v).value) == Some(Pointer(v)))
  {
    var s, q := t.shape, t.codec;
    if s.Struct? || s.Slice? || s.Map? {
      assert JsonWrites(q);
      if !PointerValuer(t.methods) { assert Column(t, v) == Sent(StoredPlain(s, q, v)); }
    }
  }

  lemma HolderKeepsExact(t: GoType, v: GoValue)
    requires t.Plain? && HasType(t, v) && IsSlot(Classify(Ptr(t))) && !t.shape.Time?
    ensures HolderKeeps(t, v) && !StoresNull(t, v) <==>
            Column(t, v).Some? && Restored(Ptr(t), Column(t, v).value) == Some(Pointer(v))
  {
    var s, q := t.shape, t.codec;
    SlotShapes(Ptr(t));
    assert InnerShape(Ptr(t)) == InnerShape(t) == s && InnerCodec(Ptr(t)) == InnerCodec(t) == q;
    if !PointerValuer(t.methods) {
      assert Column(t, v) == Sent(StoredPlain(s, q, v));
      match s {
        case Int(w) => WrapFits(w, v.i);
        case Uint(w) => WrapFits(w, v.n);
        case _ =>
      }
      if Column(t, v).Some? {
        var c := Column(t, v).value;
        assert Held(Classify(Ptr(t)), q, c) == Some(c);
        hide Half, WrapInt, WrapUint;
        assert Applied(Classify(Ptr(t)), s, true, c) == Some(Pointer(v));
      }
    }
  }

  lemma TimeExact(t: GoType, v: GoValue)
    requires t.Plain? && t.shape.Time? && HasType(t, v) && Lawful(t)
    ensures ComesBack(t, v)
    ensures ComesBack(Ptr(t), Pointer(v)) <==> v.t != ZeroTime
  {
    WrittenBehind(Ptr(t), Pointer(v));
  }

  lemma BytesBehindPointer(t: GoType, v: GoValue)
    requires t.Plain? && t.shape.Bytes? && HasType(t, v) && Lawful(t)
    ensures !ComesBack(Ptr(t), Pointer(v))
  {
    WrittenBehind(Ptr(t), Pointer(v));
    assert NotItsOwnBase64(t.codec);
    assert InnerCodec(Ptr(t)) == InnerCodec(t);
    if v.Blob? { assert v == Blob(v.bytes) && Written(t, v) == Some(Raw(v.bytes)); }
  }

  lemma PlainRoundTrip(t: GoType, v: GoValue)
    requires t.Plain? && HasType(t, v) && Lawful(t)
    ensures ComesBack(t, v) <==> Faithful(t, v) && Reversible(t, v)
  {
    WrittenPlain(t, v);
    if t.shape.Time? { TimeExact(t, v); }
    if Classify(t).ScanDirect? { DriverKeepsExact(t, v); }
    if Classify(t).ScanJson? { BufferKeepsExact(t, v); }
    hide DriverKeeps, BufferKeeps, PairReverses, JsonReverses, Column, Stored, DriverScan;
  }

  lemma PointerRoundTrip(t: GoType, v: GoValue)
    requires t.Plain? && HasType(t, v) && Lawful(t)
    ensures ComesBack(Ptr(t), Pointer(v)) <==> Faithful(Ptr(t), Pointer(v)) && Reversible(Ptr(t), Pointer(v))
  {
    WrittenBehind(Ptr(t), Pointer(v));
    WrittenPlain(t, v);
    NullIsStored(t, v);
    match t.shape
    case Time => TimeExact(t, v);
    case Bytes => BytesBehindPointer(t, v);
    case Struct =>
      if Classify(Ptr(t)).ScanJson? { BufferKeepsExact(t, v); } else { DriverKeepsExact(t, v); }
    case Slice => BufferKeepsExact(t, v);
    case Map => BufferKeepsExact(t, v);
    case _ => HolderKeepsExact(t, v);
  }

  /** A field of any supported type and with any value, written with getValue and read back with the scan path, is
      unchanged if and only if the code keeps it, which Faithful says, and the type's own methods or JSON undo what they
      did to this value, which Reversible says. */
  lemma RoundTrip(t: GoType, v: GoValue)
    requires HasType(t, v) && Lawful(t)
    ensures ComesBack(t, v) <==> Faithful(t, v) && Reversible(t, v)
  {
    if t.Plain? {
      PlainRoundTrip(t, v);
    } else if v.Nil? {
      WrittenNil(t);
    } else if t.elem.Plain? {
      PointerRoundTrip(t.elem, v.to);
    } else {
      WrittenBehind(t, v);
      NullIsStored(t.elem, v.to);
      DirectRoundTrip(t, v);
    }
  }

  // ---------------------------------------------------------------- families of types

  /** A value of a type without methods that its column keeps: unsigned ones up to 2^63 - 1, and structs, slices and
      maps that are nil or that JSON can write and read back. */
  predicate ColumnKeeps(t: GoType, v: GoValue)
    requires t.Plain? && HasType(t, v)
  {
    match t.shape
    case Uint(_) => v.n <= MAX_INT64
    case Struct | Slice | Map => v.Nil? || (t.codec.marshal(v).Some? && JsonInverse(t.codec, v))
    case _ => true
  }

  /** Types without Valuer and Scanner: a field comes back if and only if its column keeps the value; behind a
      pointer, moreover, it must not be []byte, the zero time or a nil slice or map. */
  lemma WithoutMethods(t: GoType, v: GoValue)
    requires t.Plain? && t.methods == NO_METHODS && HasType(t, v) && Lawful(t)
    ensures ComesBack(t, v) <==> ColumnKeeps(t, v)
    ensures ComesBack(Ptr(t), Nil)
    ensures ComesBack(Ptr(t), Pointer(v)) <==>
            ColumnKeeps(t, v) && !t.shape.Bytes? && v != Instant(ZeroTime) && !v.Nil?
  {
    RoundTrip(t, v);
    RoundTrip(Ptr(t), Nil);
    RoundTrip(Ptr(t), Pointer(v));
    assert Column(t, v) == Sent(StoredPlain(t.shape, t.codec, v));
    assert JsonWrites(t.codec);
    hide DriverScan, Restored, Written;
  }

  /** A struct type with a Valuer and a Scanner comes back as a field of its own if and only if the two are inverse
      on the value, and behind a pointer if and only if moreover the Valuer's output is not NULL. */
  lemma PairBehindPointer(t: GoType, v: GoValue)
    requires t.Plain? && t.shape.Struct? && PointerValuer(t.methods) && PointerScanner(t.methods) && HasType(t, v)
    requires Lawful(t) && Sent(t.codec.output(v)).Some?
    ensures ComesBack(t, v) <==> PairInverse(t.codec, v)
    ensures ComesBack(Ptr(t), Pointer(v)) <==> PairInverse(t.codec, v) && t.codec.output(v) != Some(Null)
  {
    RoundTrip(t, v);
    RoundTrip(Ptr(t), Pointer(v));
  }

  /** So it is with the sql.Null types, which write NULL for every value that is not valid and read it as the zero
      value: that one comes back as a field of its own, an invalid value with something in it does not, and behind a
      pointer none of them does. */
  lemma NullValues(t: GoType, v: GoValue)
    requires t.Plain? && t.shape.Struct? && PointerValuer(t.methods) && PointerScanner(t.methods) && HasType(t, v)
    requires Lawful(t) && t.codec.output(v) == Some(Null) && t.codec.input(Null) == Some(Zero(t))
    ensures ComesBack(t, v) <==> v == Zero(t)
    ensures !ComesBack(Ptr(t), Pointer(v))
  {
    PairBehindPointer(t, v);
  }

  /** A string type with a Valuer alone that writes the string itself comes back, also behind a pointer. */
  lemma PlainTextValuer(t: GoType, v: GoValue)
    requires t.Plain? && t.shape.Str? && t.methods == Methods(true, false, false, false) && HasType(t, v) && Lawful(t)
    requires t.codec.output(v) == Some(TextCell(v.s))
    ensures ComesBack(t, v) && ComesBack(Ptr(t), Pointer(v))
  {
    RoundTrip(t, v);
    RoundTrip(Ptr(t), Pointer(v));
  }

  /** A value given to Set is not addressable. It is stored like a field of the same type unless that type has a
      Valuer with pointer receiver only, which is then not asked, and that Valuer writes something else. */
  lemma SetStoresLikeField(t: GoType, v: GoValue)
    requires HasType(t, v)
    ensures Stored(t, v, false) == Stored(t, v, true) <==>
              (t.Plain? && t.methods.valueByPointer && !t.methods.value ==>
                t.codec.output(v) == StoredPlain(t.shape, t.codec, v))
  {
  }
}
