/** The Bridge's page cursors: decimal printers and parsers
    (crates/ackplane-bridge/src/context_api.rs:215-243, evidence_api.rs:350-390)
    and the microsecond conversions of knowledge_api.rs:338-384. Text is its
    UTF-8 bytes; instants are nanoseconds from the Unix epoch. */
module BridgeCursors {
  import opened Common

  const COLON: u8 := 0x3A
  const DOT: u8 := 0x2E
  const PLUS: u8 := 0x2B
  const MINUS: u8 := 0x2D

  const BILLION: nat := 1_000_000_000
  const MAX_ID_BYTES: nat := 256

  datatype Status = BadRequest | InternalError

  // ---------------------------------------------------------------- decimals

  predicate IsDigit(b: u8) { 0x30 <= b <= 0x39 }

  predicate AllDigits(s: bytes) { forall i :: 0 <= i < |s| ==> IsDigit(s[i]) }

  /** `format!("{}", n)`. */
  function Digits(n: nat): (s: bytes)
    ensures s != [] && AllDigits(s)
  {
    if n < 10 then [0x30 + n] else Digits(n / 10) + [0x30 + n % 10]
  }

  /** `format!("{:0width}", n)` for a number that fits. */
  function Padded(n: nat, width: nat): (s: bytes)
    ensures |s| == width && AllDigits(s)
  {
    if width == 0 then [] else Padded(n / 10, width - 1) + [0x30 + n % 10]
  }

  function Value(s: bytes): nat
    requires AllDigits(s)
  {
    if s == [] then 0 else Value(s[..|s| - 1]) * 10 + (s[|s| - 1] - 0x30)
  }

  function Power10(n: nat): nat { if n == 0 then 1 else 10 * Power10(n - 1) }

  lemma {:induction false} DigitsValue(n: nat)
    ensures Value(Digits(n)) == n
  {
    var s := Digits(n);
    if n < 10 {
      assert s[..|s| - 1] == [];
    } else {
      DigitsValue(n / 10);
      assert s[..|s| - 1] == Digits(n / 10);
    }
  }

  lemma {:induction false} PaddedValue(n: nat, width: nat)
    requires n < Power10(width)
    ensures Value(Padded(n, width)) == n
    decreases width
  {
    if width > 0 {
      var s := Padded(n, width);
      PaddedValue(n / 10, width - 1);
      assert s[..|s| - 1] == Padded(n / 10, width - 1);
    }
  }

  lemma {:induction false} ValueBound(s: bytes)
    requires AllDigits(s)
    ensures Value(s) < Power10(|s|)
  {
    if s != [] { ValueBound(s[..|s| - 1]); }
  }

  lemma BillionIsTenToTheNinth()
    ensures Power10(9) == BILLION
  {
    assert Power10(3) == 1000;
    assert Power10(6) == 1000_000;
  }

  /** `str::parse` for an unsigned type: an optional plus, then digits. */
  function ParseUnsigned(s: bytes, max: nat): Option<nat> {
    var digits := if s != [] && s[0] == PLUS then s[1..] else s;
    if digits == [] || !AllDigits(digits) then None
    else if Value(digits) > max then None
    else Some(Value(digits))
  }

  /** `str::parse::<i64>`. */
  function ParseI64(s: bytes): (r: Option<int>)
    ensures r.Some? ==> I64_MIN <= r.value <= I64_MAX
  {
    if s != [] && s[0] == MINUS then
      if s[1..] == [] || !AllDigits(s[1..]) then None
      else
        var magnitude: int := Value(s[1..]);
        if -magnitude < I64_MIN then None else Some(-magnitude)
    else match ParseUnsigned(s, I64_MAX)
      case None => None
      case Some(n) => Some(n)
  }

  /** `format!("{}", n)` for a signed number. */
  function PrintI64(n: int): (s: bytes)
    ensures s != [] && COLON !in s
  {
    if n < 0 then [MINUS] + Digits(-n) else Digits(n)
  }

  lemma ParsePrintedUnsigned(n: nat, max: nat)
    ensures ParseUnsigned(Digits(n), max) == if n <= max then Some(n) else None
  {
    assert IsDigit(Digits(n)[0]);
    DigitsValue(n);
  }

  lemma ParsePrintedI64(n: i64)
    ensures ParseI64(PrintI64(n)) == Some(n)
  {
    if n < 0 {
      var magnitude: int := 0 - (n as int);
      assert PrintI64(n)[1..] == Digits(magnitude);
      DigitsValue(magnitude);
    } else {
      assert IsDigit(Digits(n)[0]);
      ParsePrintedUnsigned(n, I64_MAX);
    }
  }

  // --------------------------------------------------------------- splitting

  /** `split_once`: before and after the first separator. */
  function SplitOnce(s: bytes, sep: u8): Option<(bytes, bytes)> {
    if s == [] then None
    else if s[0] == sep then Some(([], s[1..]))
    else match SplitOnce(s[1..], sep)
      case None => None
      case Some((a, b)) => Some(([s[0]] + a, b))
  }

  lemma {:induction false} SplitsAtFirst(a: bytes, b: bytes, sep: u8)
    requires sep !in a
    ensures SplitOnce(a + [sep] + b, sep) == Some((a, b))
  {
    var s := a + [sep] + b;
    if a == [] {
      assert s[1..] == b;
    } else {
      assert s[1..] == a[1..] + [sep] + b;
      SplitsAtFirst(a[1..], b, sep);
      assert a == [a[0]] + a[1..];
    }
  }

  // --------------------------------------------------------- context cursors

  datatype ContextCursor = ContextCursor(issuedAt: i64, packetId: bytes)

  function EncodeContext(c: ContextCursor): bytes {
    PrintI64(c.issuedAt) + [COLON] + (Digits(|c.packetId|) + [COLON] + c.packetId)
  }

  function ParseContext(raw: Option<bytes>): Result<Option<ContextCursor>, Status> {
    if raw.None? || raw.value == [] then Ok(None)
    else match SplitOnce(raw.value, COLON)
      case None => Err(BadRequest)
      case Some((issuedAt, rest)) =>
        match SplitOnce(rest, COLON)
        case None => Err(BadRequest)
        case Some((length, packetId)) =>
          match ParseI64(issuedAt)
          case None => Err(BadRequest)
          case Some(at) =>
            match ParseUnsigned(length, U64_MAX)
            case None => Err(BadRequest)
            case Some(n) =>
              if packetId == [] || |packetId| != n || n > MAX_ID_BYTES then Err(BadRequest)
              else Ok(Some(ContextCursor(at, packetId)))
  }

  lemma DigitsHaveNoSeparator(n: nat, sep: u8)
    requires !IsDigit(sep)
    ensures sep !in Digits(n)
  {}

  /** A printed cursor parses back exactly when its id has 1 to 256 bytes,
      whatever bytes those are; otherwise it is refused. */
  lemma ContextCursorRoundTrip(c: ContextCursor)
    ensures ParseContext(Some(EncodeContext(c))) ==
            if 1 <= |c.packetId| <= MAX_ID_BYTES then Ok(Some(c)) else Err(BadRequest)
  {
    var rest := Digits(|c.packetId|) + [COLON] + c.packetId;
    SplitsAtFirst(PrintI64(c.issuedAt), rest, COLON);
    DigitsHaveNoSeparator(|c.packetId|, COLON);
    SplitsAtFirst(Digits(|c.packetId|), c.packetId, COLON);
    ParsePrintedI64(c.issuedAt);
    ParsePrintedUnsigned(|c.packetId|, U64_MAX);
  }

  /** Any accepted text, with its pluses and leading zeros, names a cursor that
      its own printed form names again. */
  lemma ContextReencodingIsStable(raw: bytes)
    requires ParseContext(Some(raw)).Ok? && ParseContext(Some(raw)).value.Some?
    ensures ParseContext(Some(EncodeContext(ParseContext(Some(raw)).value.value))) == ParseContext(Some(raw))
  {
    ContextCursorRoundTrip(ParseContext(Some(raw)).value.value);
  }

  // -------------------------------------------------------- evidence cursors

  predicate IdByte(b: u8) { IsDigit(b) || 0x41 <= b <= 0x5A || 0x61 <= b <= 0x7A || b == MINUS }

  predicate AdmissibleId(id: bytes) {
    1 <= |id| <= MAX_ID_BYTES && forall i :: 0 <= i < |id| ==> IdByte(id[i])
  }

  /** Whole seconds and the nanoseconds within the second. */
  function EncodeEvidence(at: int, id: bytes): Result<bytes, Status> {
    if at < 0 then Err(InternalError)
    else Ok(Digits(at / BILLION) + [DOT] + Padded(at % BILLION, 9) + [COLON] + id)
  }

  /** The last instant a clock of signed 64-bit seconds can hold. */
  const LAST_INSTANT: nat := I64_MAX * BILLION + (BILLION - 1)

  function ParseEvidence(raw: Option<bytes>): Result<Option<(int, bytes)>, Status> {
    if raw.None? || raw.value == [] then Ok(None)
    else match SplitOnce(raw.value, COLON)
      case None => Err(BadRequest)
      case Some((timestamp, id)) =>
        match SplitOnce(timestamp, DOT)
        case None => Err(BadRequest)
        case Some((seconds, nanos)) =>
          if |nanos| != 9 || !AllDigits(nanos) || !AdmissibleId(id) then Err(BadRequest)
          else match ParseUnsigned(seconds, U64_MAX)
            case None => Err(BadRequest)
            case Some(secs) =>
              if secs > I64_MAX then Err(BadRequest)
              else Ok(Some((secs * BILLION + Value(nanos), id)))
  }

  lemma TimestampHasNoColon(at: nat)
    ensures COLON !in Digits(at / BILLION) + [DOT] + Padded(at % BILLION, 9)
  {}

  lemma WholeSeconds(at: nat)
    requires at <= LAST_INSTANT
    ensures at / BILLION <= I64_MAX < U64_MAX
    ensures at / BILLION * BILLION + at % BILLION == at
  {}

  /** For every representable post-epoch instant the printed cursor parses back
      exactly when its id is admissible; before the epoch there is nothing to
      print. */
  lemma EvidenceCursorRoundTrip(at: int, id: bytes)
    requires at <= LAST_INSTANT
    ensures at < 0 ==> EncodeEvidence(at, id) == Err(InternalError)
    ensures at >= 0 ==>
              && EncodeEvidence(at, id).Ok?
              && ParseEvidence(Some(EncodeEvidence(at, id).value)) ==
                 if AdmissibleId(id) then Ok(Some((at, id))) else Err(BadRequest)
  {
    if at >= 0 {
      var seconds, nanos := Digits(at / BILLION), Padded(at % BILLION, 9);
      TimestampHasNoColon(at);
      SplitsAtFirst(seconds + [DOT] + nanos, id, COLON);
      DigitsHaveNoSeparator(at / BILLION, DOT);
      SplitsAtFirst(seconds, nanos, DOT);
      WholeSeconds(at);
      ParsePrintedUnsigned(at / BILLION, U64_MAX);
      BillionIsTenToTheNinth();
      PaddedValue(at % BILLION, 9);
    }
  }

  /** Re-encoding an accepted evidence cursor gives one that means the same. */
  lemma EvidenceReencodingIsStable(raw: bytes)
    requires ParseEvidence(Some(raw)).Ok? && ParseEvidence(Some(raw)).value.Some?
    ensures var (at, id) := ParseEvidence(Some(raw)).value.value;
            EncodeEvidence(at, id).Ok? && ParseEvidence(Some(EncodeEvidence(at, id).value)) == ParseEvidence(Some(raw))
  {
    var (at, id) := ParseEvidence(Some(raw)).value.value;
    var nanos := SplitOnce(SplitOnce(raw, COLON).value.0, DOT).value.1;
    ValueBound(nanos);
    BillionIsTenToTheNinth();
    EvidenceCursorRoundTrip(at, id);
  }

  // ------------------------------------------------------------- microseconds

  /** The instants a platform's `SystemTime` can hold. */
  datatype Clock = Clock(first: int, last: int)

  predicate Holds(c: Clock, at: int) { c.first <= at <= c.last }

  /** `system_time_from_epoch_micros`: a magnitude, added or subtracted. */
  function InstantFromMicros(c: Clock, micros: i64): Option<int> {
    var signed: int := micros;
    var magnitude := if signed < 0 then -signed else signed;
    var at := if signed >= 0 then magnitude * 1000 else -(magnitude * 1000);
    if Holds(c, at) then Some(at) else None
  }

  /** `epoch_micros`: whole microseconds of the magnitude, then the sign. */
  function EpochMicros(at: int): Option<int> {
    var micros := if at >= 0 then at / 1000 else -at / 1000;
    if micros > I64_MAX then None else Some(if at >= 0 then micros else -micros)
  }

  /** There and back is the identity for every representable i64 but the
      minimum, which the way back refuses. */
  lemma MicrosRoundTrip(c: Clock, micros: i64)
    requires InstantFromMicros(c, micros).Some?
    ensures EpochMicros(InstantFromMicros(c, micros).value) == if micros == I64_MIN then None else Some(micros)
  {}

  /** Back and there moves an instant less than a microsecond, toward the
      epoch. */
  lemma MicrosTruncateTowardEpoch(c: Clock, at: int)
    requires Holds(c, at) && Holds(c, 0) && EpochMicros(at).Some?
    ensures var micros := EpochMicros(at).value;
            && I64_MIN < micros <= I64_MAX
            && InstantFromMicros(c, micros).Some?
            && (var at' := InstantFromMicros(c, micros).value;
                if at >= 0 then 0 <= at' <= at < at' + 1000 else at' - 1000 < at <= at' <= 0)
  {}

  datatype RevalidationCursor = RevalidationCursor(confirmedAt: int, knowledgeId: string)

  /** Both halves or neither, and a non-empty id. */
  function ParseRevalidation(c: Clock, micros: Option<i64>, id: Option<string>)
    : Result<Option<RevalidationCursor>, Status>
  {
    match (micros, id)
    case (None, None) => Ok(None)
    case (Some(m), Some(text)) =>
      if text == "" then Err(BadRequest)
      else (match InstantFromMicros(c, m)
            case None => Err(BadRequest)
            case Some(at) => Ok(Some(RevalidationCursor(at, text))))
    case (_, _) => Err(BadRequest)
  }

  /** A cursor handed out and handed back: the same knowledge id, at the same
      microsecond. */
  lemma RevalidationCursorReturns(c: Clock, cursor: RevalidationCursor)
    requires Holds(c, 0) && Holds(c, cursor.confirmedAt) && cursor.knowledgeId != ""
    requires EpochMicros(cursor.confirmedAt).Some?
    ensures var micros := EpochMicros(cursor.confirmedAt).value;
            && I64_MIN <= micros <= I64_MAX
            && (var r := ParseRevalidation(c, Some(micros), Some(cursor.knowledgeId));
                && r.Ok? && r.value.Some? && r.value.value.knowledgeId == cursor.knowledgeId
                && EpochMicros(r.value.value.confirmedAt) == Some(micros))
  {
    MicrosTruncateTowardEpoch(c, cursor.confirmedAt);
    MicrosRoundTrip(c, EpochMicros(cursor.confirmedAt).value);
  }
}
