/** Packing a flight's outcome for other callers and unpacking it: newCacheItem and Result of redisx/singleFlight.go. */
module CacheItems {
  import opened Common

  /** The value type of a flight; nothing is assumed about it. */
  type Data(==, 0, !new)

  /** errorx.ErrorCode. `text` stands for its rendering, which Go computes with JSON. */
  datatype ErrorCode = ErrorCode(model: string, code: string, msg: string, text: string)

  /** A Go error as `errors.As` and `Error()` see it: an opaque error, an ErrorCode held by value, by pointer or
      as a nil pointer, and errors that wrap one or several others. */
  datatype GoError =
    | Plain(msg: string)
    | CodeValue(code: ErrorCode)
    | CodePtr(code: ErrorCode)
    | NilCodePtr
    | Wrapped(msg: string, inner: GoError)
    | Several(msg: string, parts: seq<GoError>)

  /** What a Go function returning `(T, error)` hands back. */
  datatype Outcome = Outcome(data: Data, err: Option<GoError>)

  datatype CacheItem = CacheItem(data: Data, buError: Option<ErrorCode>, sysError: string)

  /** `Error()`; it is never asked of the nil pointer, which `errors.As` finds first. */
  function Text(e: GoError): string {
    match e
    case Plain(m) => m
    case CodeValue(c) => c.text
    case CodePtr(c) => c.text
    case NilCodePtr => ""
    case Wrapped(m, _) => m
    case Several(m, _) => m
  }

  /** `errors.As(err, &buErr)` with `buErr *ErrorCode`: whether it succeeds, and the pointer it then assigns. */
  function As(e: GoError): Option<Option<ErrorCode>> {
    match e
    case CodePtr(c) => Some(Some(c))
    case NilCodePtr => Some(None)
    case Wrapped(_, inner) => As(inner)
    case Several(_, parts) => AsAny(parts)
    case _ => None
  }

  function AsAny(parts: seq<GoError>): Option<Option<ErrorCode>> {
    if parts == [] then None
    else match As(parts[0])
         case Some(r) => Some(r)
         case None => AsAny(parts[1..])
  }

  function NewCacheItem(o: Outcome): CacheItem {
    match o.err
    case None => CacheItem(o.data, None, "")
    case Some(e) =>
      match As(e)
      case Some(r) => CacheItem(o.data, r, "")
      case None => CacheItem(o.data, None, Text(e))
  }

  function Result(item: CacheItem): Outcome {
    match item.buError
    case Some(c) => Outcome(item.data, Some(CodeValue(c)))
    case None => Outcome(item.data, if item.sysError != "" then Some(Plain(item.sysError)) else None)
  }

  // ---------------------------------------------------------------- the chain of an error

  /** An error and everything it wraps, depth first. */
  function Links(e: GoError): seq<GoError> {
    [e] + match e
          case Wrapped(_, inner) => Links(inner)
          case Several(_, parts) => AllLinks(parts)
          case _ => []
  }

  function AllLinks(parts: seq<GoError>): seq<GoError> {
    if parts == [] then [] else Links(parts[0]) + AllLinks(parts[1..])
  }

  predicate IsPointer(e: GoError) {
    e.CodePtr? || e.NilCodePtr?
  }

  /** Link i is the first pointer to an ErrorCode, nil or not. */
  ghost predicate FirstPointer(links: seq<GoError>, i: int) {
    0 <= i < |links| && IsPointer(links[i]) && forall j :: 0 <= j < i ==> !IsPointer(links[j])
  }

  ghost predicate NoPointer(links: seq<GoError>) {
    forall l :: l in links ==> !IsPointer(l)
  }

  /** `r` is what the first pointer of the chain holds, None if there is no pointer. */
  ghost predicate Finds(links: seq<GoError>, r: Option<Option<ErrorCode>>) {
    match r
    case None => NoPointer(links)
    case Some(c) => exists i :: FirstPointer(links, i) && c == if links[i].CodePtr? then Some(links[i].code) else None
  }

  lemma FindsBehind(before: seq<GoError>, links: seq<GoError>, after: seq<GoError>, r: Option<Option<ErrorCode>>)
    requires NoPointer(before) && Finds(links, r)
    ensures r.Some? ==> Finds(before + links + after, r)
    ensures r.None? ==> NoPointer(before + links)
  {
    if r.Some? {
      var i :| FirstPointer(links, i) && r.value == if links[i].CodePtr? then Some(links[i].code) else None;
      var all := before + links + after;
      assert all[|before| + i] == links[i];
      assert forall j :: 0 <= j < |before| ==> all[j] == before[j] && before[j] in before;
      assert forall j :: |before| <= j < |before| + i ==> all[j] == links[j - |before|];
      assert FirstPointer(all, |before| + i);
    }
  }

  lemma {:induction false} AsFindsFirst(e: GoError)
    ensures Finds(Links(e), As(e))
  {
    match e
    case CodePtr(_) => assert FirstPointer(Links(e), 0);
    case NilCodePtr => assert FirstPointer(Links(e), 0);
    case Wrapped(_, inner) =>
      AsFindsFirst(inner);
      FindsBehind([e], Links(inner), [], As(inner));
      assert [e] + Links(inner) + [] == Links(e);
    case Several(_, parts) =>
      AsAnyFindsFirst(parts);
      FindsBehind([e], AllLinks(parts), [], AsAny(parts));
      assert [e] + AllLinks(parts) + [] == Links(e);
    case _ =>
  }

  lemma {:induction false} AsAnyFindsFirst(parts: seq<GoError>)
    ensures Finds(AllLinks(parts), AsAny(parts))
  {
    if parts != [] {
      AsFindsFirst(parts[0]);
      AsAnyFindsFirst(parts[1..]);
      if As(parts[0]).Some? {
        FindsBehind([], Links(parts[0]), AllLinks(parts[1..]), As(parts[0]));
        assert [] + Links(parts[0]) + AllLinks(parts[1..]) == AllLinks(parts);
      } else {
        FindsBehind(Links(parts[0]), AllLinks(parts[1..]), [], AsAny(parts[1..]));
        assert Links(parts[0]) + AllLinks(parts[1..]) + [] == AllLinks(parts);
      }
    }
  }

  /** Whether an error survives the trip to another caller, something a caller can check on `err`: the first
      pointer to an ErrorCode in its chain is not nil, or there is none and the message is not empty. */
  ghost predicate Transportable(e: GoError) {
    || (exists i :: FirstPointer(Links(e), i) && Links(e)[i].CodePtr?)
    || (NoPointer(Links(e)) && Text(e) != "")
  }

  /** A caller served through the packed item gets the leader's data always. It sees success for a success, and an
      error for an error if and only if that error is transportable. The lossy errors are thus those whose first
      ErrorCode pointer is nil, and those without such a pointer and with an empty message. */
  lemma OutcomeSurvives(o: Outcome)
    ensures Result(NewCacheItem(o)).data == o.data
    ensures o.err.None? ==> Result(NewCacheItem(o)).err.None?
    ensures o.err.Some? ==> (Result(NewCacheItem(o)).err.Some? <==> Transportable(o.err.value))
  {
    if o.err.Some? {
      var e := o.err.value;
      AsFindsFirst(e);
      FirstIsOne(Links(e));
    }
  }

  lemma FirstIsOne(links: seq<GoError>)
    ensures forall i, j :: FirstPointer(links, i) && FirstPointer(links, j) ==> i == j
    ensures forall i :: FirstPointer(links, i) ==> !NoPointer(links)
  {
    forall i | FirstPointer(links, i) ensures !NoPointer(links) { assert links[i] in links; }
  }

  lemma FlattenedByValue(d: Data, e: GoError)
    ensures e.CodeValue? && e.code.text != "" ==>
            Result(NewCacheItem(Outcome(d, Some(e)))).err == Some(Plain(e.code.text))
  {
  }

  /** What another caller gets for `(d, err)`, read off the error and its chain alone: the data; no error for none;
      the business error the first pointer holds, by value, and no error if that pointer is nil; and without a pointer
      a plain error with the message, unless the message is empty. */
  ghost predicate Delivered(d: Data, err: Option<GoError>, got: Outcome) {
    && got.data == d
    && (err.None? ==> got.err == None)
    && (err.Some? ==>
         && (forall i :: FirstPointer(Links(err.value), i) ==>
              got.err == if Links(err.value)[i].CodePtr? then Some(CodeValue(Links(err.value)[i].code)) else None)
         && (NoPointer(Links(err.value)) ==> Flattened(err.value, got.err)))
  }

  /** The message of `e` alone, as a plain error; an empty one is no error. */
  ghost predicate Flattened(e: GoError, got: Option<GoError>) {
    match e
    case Plain(m) => got == if m == "" then None else Some(Plain(m))
    case CodeValue(c) => got == if c.text == "" then None else Some(Plain(c.text))
    case Wrapped(m, _) => got == if m == "" then None else Some(Plain(m))
    case Several(m, _) => got == if m == "" then None else Some(Plain(m))
    case CodePtr(_) => false
    case NilCodePtr => false
  }

  /** Packed and unpacked, an outcome is what this says, and this leaves nothing open. */
  lemma OutcomeDelivered(o: Outcome, got: Outcome)
    ensures got == Result(NewCacheItem(o)) <==> Delivered(o.data, o.err, got)
  {
    if o.err.Some? {
      var e := o.err.value;
      AsFindsFirst(e);
      FirstIsOne(Links(e));
      assert e == Links(e)[0] && e in Links(e);
    }
  }

  /** An error without a pointer to an ErrorCode in its chain arrives as exactly its message. */
  lemma MessageSurvives(d: Data, e: GoError, m: string)
    requires NoPointer(Links(e)) && m != ""
    ensures e == Plain(m) ==> Result(NewCacheItem(Outcome(d, Some(e)))) == Outcome(d, Some(Plain(m)))
    ensures e.CodeValue? && e.code.text == m ==>
              Result(NewCacheItem(Outcome(d, Some(e)))) == Outcome(d, Some(Plain(m)))
    ensures e.Wrapped? && e.msg == m ==> Result(NewCacheItem(Outcome(d, Some(e)))) == Outcome(d, Some(Plain(m)))
    ensures e.Several? && e.msg == m ==> Result(NewCacheItem(Outcome(d, Some(e)))) == Outcome(d, Some(Plain(m)))
  {
    OutcomeDelivered(Outcome(d, Some(e)), Result(NewCacheItem(Outcome(d, Some(e)))));
  }

  /** A business error comes back as that business error exactly when the first ErrorCode pointer in the chain,
      depth first through wrapping and joined errors, points to it; one held by value is flattened to its text. */
  lemma BusinessErrorSurvives(d: Data, e: GoError, c: ErrorCode)
    ensures Result(NewCacheItem(Outcome(d, Some(e)))).err == Some(CodeValue(c)) <==>
            exists i :: FirstPointer(Links(e), i) && Links(e)[i] == CodePtr(c)
    ensures e == CodeValue(c) && c.text != "" ==> Result(NewCacheItem(Outcome(d, Some(e)))).err == Some(Plain(c.text))
  {
    FlattenedByValue(d, e);
    hide Links, As, Text;
    AsFindsFirst(e);
    FirstIsOne(Links(e));
    if As(e).Some? {
      var i :| FirstPointer(Links(e), i) && As(e).value == if Links(e)[i].CodePtr? then Some(Links(e)[i].code)
        else None;
      var l := Links(e)[i];
      assert As(e).value == Some(c) <==> l == CodePtr(c);
      assert l == CodePtr(c) ==> exists j :: FirstPointer(Links(e), j) && Links(e)[j] == CodePtr(c);
    }
  }
}
