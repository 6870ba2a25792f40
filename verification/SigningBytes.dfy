/** The length-delimited encoding shared by every signed request
    (crates/ackplane-protocol/src/signing_bytes.rs), and a decoder for it. */
module SigningBytes {
  import opened Common

  const TWO32: nat := 0x1_0000_0000

  // ---------------------------------------------------- big-endian numbers

  /** `to_be_bytes` at a given width. */
  function Be(n: nat, width: nat): (b: bytes)
    ensures |b| == width
  {
    if width == 0 then [] else Be(n / 0x100, width - 1) + [n % 0x100]
  }

  function FromBe(b: bytes): nat {
    if b == [] then 0 else FromBe(b[..|b| - 1]) * 0x100 + b[|b| - 1] as int
  }

  /** How many values `width` bytes hold. */
  function Limit(width: nat): nat {
    if width == 0 then 1 else 0x100 * Limit(width - 1)
  }

  lemma {:induction false} BeInverts(n: nat, width: nat)
    requires n < Limit(width)
    ensures FromBe(Be(n, width)) == n
    decreases width
  {
    if width > 0 {
      BeInverts(n / 0x100, width - 1);
      var b := Be(n, width);
      assert b[..|b| - 1] == Be(n / 0x100, width - 1);
    }
  }

  lemma {:induction false} FromBeInverts(b: bytes)
    ensures FromBe(b) < Limit(|b|)
    ensures Be(FromBe(b), |b|) == b
  {
    if b != [] {
      var init := b[..|b| - 1];
      FromBeInverts(init);
      assert b == init + [b[|b| - 1]];
    }
  }

  lemma Limits()
    ensures Limit(4) == TWO32
    ensures Limit(8) == U64_MAX + 1
  {
    assert Limit(1) == 0x100 && Limit(2) == 0x1_0000 && Limit(3) == 0x100_0000;
    assert Limit(5) == 0x100 * TWO32 && Limit(6) == 0x1_0000 * TWO32 && Limit(7) == 0x100_0000 * TWO32;
  }

  function Be32(n: nat): (b: bytes)
    ensures |b| == 4
  {
    Be(n, 4)
  }

  function FromBe32(b: bytes): (n: nat)
    requires |b| == 4
    ensures n < TWO32
  {
    FromBeInverts(b);
    Limits();
    FromBe(b)
  }

  lemma Be32Inverts(n: nat)
    requires n < TWO32
    ensures FromBe32(Be32(n)) == n
  {
    Limits();
    BeInverts(n, 4);
  }

  lemma FromBe32Inverts(b: bytes)
    requires |b| == 4
    ensures Be32(FromBe32(b)) == b
  {
    FromBeInverts(b);
  }

  function Be64(n: nat): (b: bytes)
    ensures |b| == 8
  {
    Be(n, 8)
  }

  function FromBe64(b: bytes): (n: u64)
    requires |b| == 8
  {
    FromBeInverts(b);
    Limits();
    FromBe(b)
  }

  lemma Be64Inverts(n: u64)
    ensures FromBe64(Be64(n)) == n
  {
    Limits();
    BeInverts(n, 8);
  }

  lemma FromBe64Inverts(b: bytes)
    requires |b| == 8
    ensures Be64(FromBe64(b)) == b
  {
    FromBeInverts(b);
  }

  /** `i32::to_be_bytes`: two's complement. */
  function BeI32(n: i32): (b: bytes)
    ensures |b| == 4
  {
    Be32(if n < 0 then n + TWO32 else n)
  }

  lemma BeI32Injective(m: i32, n: i32)
    requires BeI32(m) == BeI32(n)
    ensures m == n
  {
    Be32Inverts(if m < 0 then m + TWO32 else m);
    Be32Inverts(if n < 0 then n + TWO32 else n);
  }

  lemma Assoc(a: bytes, b: bytes, c: bytes)
    ensures a + b + c == a + (b + c)
  {}

  // ------------------------------------------------------- fields and lists

  /** `len as u32`. */
  function Wrap32(n: nat): nat { if n < TWO32 then n else n % TWO32 }

  /** `push_field`: the length wraps at 2^32, as `as u32` does. */
  function Field(f: bytes): bytes { Be32(Wrap32(|f|)) + f }

  function Fields(fs: seq<bytes>): bytes {
    if fs == [] then [] else Field(fs[0]) + Fields(fs[1..])
  }

  lemma {:induction false} FieldsConcat(a: seq<bytes>, b: seq<bytes>)
    ensures Fields(a + b) == Fields(a) + Fields(b)
  {
    if a == [] {
      assert a + b == b;
    } else {
      assert (a + b)[1..] == a[1..] + b;
      FieldsConcat(a[1..], b);
    }
  }

  /** One pushed item of a signed message. */
  datatype Part =
    | One(field: bytes)                // push_field
    | RawList(items: seq<bytes>)       // push_list: bare 4-byte count
    | Counted4(items: seq<bytes>)      // push_i32_list: 4-byte count as a field
    | Counted8(items: seq<bytes>)      // reach ids: 8-byte count as a field

  datatype Kind = KOne | KRawList | KCounted4 | KCounted8

  function KindOf(p: Part): Kind {
    match p
    case One(_) => KOne
    case RawList(_) => KRawList
    case Counted4(_) => KCounted4
    case Counted8(_) => KCounted8
  }

  function EncodePart(p: Part): bytes {
    match p
    case One(f) => Field(f)
    case RawList(items) => Be32(Wrap32(|items|)) + Fields(items)
    case Counted4(items) => Field(Be32(if |items| < TWO32 then |items| else U32_MAX)) + Fields(items)
    case Counted8(items) => Field(Be64(if |items| <= U64_MAX then |items| else U64_MAX)) + Fields(items)
  }

  function Encode(ps: seq<Part>): bytes {
    if ps == [] then [] else EncodePart(ps[0]) + Encode(ps[1..])
  }

  lemma {:induction false} EncodeConcat(a: seq<Part>, b: seq<Part>)
    ensures Encode(a + b) == Encode(a) + Encode(b)
  {
    if a == [] {
      assert a + b == b;
    } else {
      assert (a + b)[1..] == a[1..] + b;
      EncodeConcat(a[1..], b);
    }
  }

  predicate Short(fs: seq<bytes>) {
    forall i :: 0 <= i < |fs| ==> |fs[i]| < TWO32
  }

  /** Fields and lists shorter than 2^32. */
  predicate ShortPart(p: Part) {
    match p
    case One(f) => |f| < TWO32
    case RawList(items) => |items| < TWO32 && Short(items)
    case Counted4(items) => |items| < TWO32 && Short(items)
    case Counted8(items) => |items| < TWO32 && Short(items)
  }

  predicate ShortParts(ps: seq<Part>) {
    forall i :: 0 <= i < |ps| ==> ShortPart(ps[i])
  }

  function Kinds(ps: seq<Part>): seq<Kind> {
    seq(|ps|, i requires 0 <= i < |ps| => KindOf(ps[i]))
  }

  // --------------------------------------------------------------- decoding

  function TakeField(b: bytes): Option<(bytes, bytes)> {
    if |b| < 4 then None
    else
      var n := FromBe32(b[..4]);
      if |b| < 4 + n then None else Some((b[4..4 + n], b[4 + n..]))
  }

  lemma TakeFieldInverts(f: bytes, rest: bytes)
    requires |f| < TWO32
    ensures TakeField(Field(f) + rest) == Some((f, rest))
  {
    var b := Field(f) + rest;
    assert b[..4] == Be32(|f|);
    Be32Inverts(|f|);
    assert b[4..4 + |f|] == f && b[4 + |f|..] == rest;
  }

  lemma TakeFieldCanonical(b: bytes)
    requires TakeField(b).Some?
    ensures var (f, rest) := TakeField(b).value;
            |f| < TWO32 && b == Field(f) + rest
  {
    FromBe32Inverts(b[..4]);
    var n := FromBe32(b[..4]);
    assert b == b[..4] + b[4..4 + n] + b[4 + n..];
  }

  function TakeFields(n: nat, b: bytes): Option<(seq<bytes>, bytes)>
    decreases n
  {
    if n == 0 then Some(([], b))
    else match TakeField(b)
      case None => None
      case Some((f, rest)) =>
        match TakeFields(n - 1, rest)
        case None => None
        case Some((fs, rest')) => Some(([f] + fs, rest'))
  }

  lemma {:induction false} TakeFieldsInverts(fs: seq<bytes>, rest: bytes)
    requires Short(fs)
    ensures TakeFields(|fs|, Fields(fs) + rest) == Some((fs, rest))
  {
    if fs == [] {
      assert Fields(fs) + rest == rest;
    } else {
      assert Fields(fs) + rest == Field(fs[0]) + (Fields(fs[1..]) + rest);
      TakeFieldInverts(fs[0], Fields(fs[1..]) + rest);
      TakeFieldsInverts(fs[1..], rest);
      assert fs == [fs[0]] + fs[1..];
    }
  }

  lemma {:induction false} TakeFieldsCanonical(n: nat, b: bytes)
    requires TakeFields(n, b).Some?
    ensures var (fs, rest) := TakeFields(n, b).value;
            |fs| == n && Short(fs) && b == Fields(fs) + rest
    decreases n
  {
    if n == 0 {
      assert [] + b == b;
    } else {
      TakeFieldCanonical(b);
      var (f, mid) := TakeField(b).value;
      TakeFieldsCanonical(n - 1, mid);
      var (fs, rest) := TakeFields(n - 1, mid).value;
      assert ([f] + fs)[1..] == fs;
      assert Field(f) + (Fields(fs) + rest) == Fields([f] + fs) + rest;
    }
  }

  function TakePart(k: Kind, b: bytes): Option<(Part, bytes)> {
    match k
    case KOne =>
      (match TakeField(b)
       case None => None
       case Some((f, rest)) => Some((One(f), rest)))
    case KRawList =>
      if |b| < 4 then None
      else (match TakeFields(FromBe32(b[..4]), b[4..])
            case None => None
            case Some((fs, rest)) => Some((RawList(fs), rest)))
    case KCounted4 =>
      (match TakeField(b)
       case None => None
       case Some((count, mid)) =>
         if |count| != 4 then None
         else match TakeFields(FromBe32(count), mid)
           case None => None
           case Some((fs, rest)) => Some((Counted4(fs), rest)))
    case KCounted8 =>
      (match TakeField(b)
       case None => None
       case Some((count, mid)) =>
         if |count| != 8 || FromBe64(count) >= TWO32 then None
         else match TakeFields(FromBe64(count), mid)
           case None => None
           case Some((fs, rest)) => Some((Counted8(fs), rest)))
  }

  lemma TakeRawListInverts(items: seq<bytes>, rest: bytes)
    requires ShortPart(RawList(items))
    ensures TakePart(KRawList, EncodePart(RawList(items)) + rest) == Some((RawList(items), rest))
  {
    var b := EncodePart(RawList(items)) + rest;
    Be32Inverts(|items|);
    assert b[..4] == Be32(|items|) && b[4..] == Fields(items) + rest;
    TakeFieldsInverts(items, rest);
  }

  /** A count carried as a field of its own, then the items. */
  lemma TakeCountedInverts(count: bytes, items: seq<bytes>, rest: bytes)
    requires |count| < TWO32 && Short(items)
    ensures TakeField(Field(count) + Fields(items) + rest) == Some((count, Fields(items) + rest))
    ensures TakeFields(|items|, Fields(items) + rest) == Some((items, rest))
  {
    Assoc(Field(count), Fields(items), rest);
    TakeFieldInverts(count, Fields(items) + rest);
    TakeFieldsInverts(items, rest);
  }

  lemma TakePartInverts(p: Part, rest: bytes)
    requires ShortPart(p)
    ensures TakePart(KindOf(p), EncodePart(p) + rest) == Some((p, rest))
  {
    match p
    case One(f) => TakeFieldInverts(f, rest);
    case RawList(items) => TakeRawListInverts(items, rest);
    case Counted4(items) =>
      Be32Inverts(|items|);
      TakeCountedInverts(Be32(|items|), items, rest);
    case Counted8(items) =>
      Be64Inverts(|items|);
      TakeCountedInverts(Be64(|items|), items, rest);
  }

  lemma SplitHead(b: bytes)
    requires |b| >= 4
    ensures b == b[..4] + b[4..]
  {}

  lemma RawListEncoding(head: bytes, fs: seq<bytes>)
    requires |head| == 4 && |fs| == FromBe32(head)
    ensures EncodePart(RawList(fs)) == head + Fields(fs)
  {
    FromBe32Inverts(head);
  }

  lemma TakeRawListCanonical(b: bytes)
    requires TakePart(KRawList, b).Some?
    ensures var (p, rest) := TakePart(KRawList, b).value;
            p.RawList? && ShortPart(p) && b == EncodePart(p) + rest
  {
    var head, tail := b[..4], b[4..];
    SplitHead(b);
    TakeFieldsCanonical(FromBe32(head), tail);
    var (fs, rest) := TakeFields(FromBe32(head), tail).value;
    RawListEncoding(head, fs);
    Assoc(head, Fields(fs), rest);
  }

  lemma TakeCountedCanonical(b: bytes, n: nat)
    requires TakeField(b).Some? && TakeFields(n, TakeField(b).value.1).Some?
    ensures var (count, mid) := TakeField(b).value;
            var (fs, rest) := TakeFields(n, mid).value;
            |fs| == n && Short(fs) && b == Field(count) + Fields(fs) + rest
  {
    TakeFieldCanonical(b);
    var (count, mid) := TakeField(b).value;
    TakeFieldsCanonical(n, mid);
    var (fs, rest) := TakeFields(n, mid).value;
    assert Field(count) + (Fields(fs) + rest) == Field(count) + Fields(fs) + rest;
  }

  lemma TakePartCanonical(k: Kind, b: bytes)
    requires TakePart(k, b).Some?
    ensures var (p, rest) := TakePart(k, b).value;
            KindOf(p) == k && ShortPart(p) && b == EncodePart(p) + rest
  {
    match k
    case KOne => TakeFieldCanonical(b);
    case KRawList => TakeRawListCanonical(b);
    case KCounted4 =>
      var count := TakeField(b).value.0;
      FromBe32Inverts(count);
      TakeCountedCanonical(b, FromBe32(count));
    case KCounted8 =>
      var count := TakeField(b).value.0;
      FromBe64Inverts(count);
      TakeCountedCanonical(b, FromBe64(count));
  }

  function Decode(ks: seq<Kind>, b: bytes): Option<(seq<Part>, bytes)> {
    if ks == [] then Some(([], b))
    else match TakePart(ks[0], b)
      case None => None
      case Some((p, rest)) =>
        match Decode(ks[1..], rest)
        case None => None
        case Some((ps, rest')) => Some(([p] + ps, rest'))
  }

  lemma EncodeStep(p: Part, b: bytes, ps: seq<Part>, rest: bytes)
    requires ps != [] && ps[0] == p && Encode(ps[1..]) == b
    ensures Encode(ps) + rest == EncodePart(p) + (b + rest)
  {
    Assoc(EncodePart(p), b, rest);
  }

  lemma DecodeStep(k: Kind, ks: seq<Kind>, b: bytes, p: Part, mid: bytes, ps: seq<Part>, rest: bytes)
    requires TakePart(k, b) == Some((p, mid)) && Decode(ks, mid) == Some((ps, rest))
    ensures Decode([k] + ks, b) == Some(([p] + ps, rest))
  {
    assert ([k] + ks)[1..] == ks;
  }

  lemma KindsCons(ps: seq<Part>)
    requires ps != []
    ensures Kinds(ps) == [KindOf(ps[0])] + Kinds(ps[1..])
  {}

  /** The decoder inverts the encoder, whatever follows. */
  lemma {:induction false} DecodeInverts(ps: seq<Part>, rest: bytes)
    requires ShortParts(ps)
    ensures Decode(Kinds(ps), Encode(ps) + rest) == Some((ps, rest))
  {
    if ps == [] {
      assert Encode(ps) + rest == rest;
    } else {
      var p, tail := ps[0], ps[1..];
      var mid := Encode(tail) + rest;
      EncodeStep(p, Encode(tail), ps, rest);
      TakePartInverts(p, mid);
      KindsCons(ps);
      DecodeInverts(tail, rest);
      DecodeStep(KindOf(p), Kinds(tail), EncodePart(p) + mid, p, mid, tail, rest);
      assert ps == [p] + tail;
    }
  }

  lemma ShortCons(p: Part, ps: seq<Part>)
    requires ShortPart(p) && ShortParts(ps)
    ensures ShortParts([p] + ps)
  {}

  /** One part and its canonical rest make a canonical whole. */
  lemma CanonicalStep(k: Kind, ks: seq<Kind>, b: bytes, p: Part, mid: bytes, ps: seq<Part>, rest: bytes)
    requires KindOf(p) == k && ShortPart(p) && b == EncodePart(p) + mid
    requires Kinds(ps) == ks && ShortParts(ps) && mid == Encode(ps) + rest
    ensures Kinds([p] + ps) == [k] + ks && ShortParts([p] + ps) && b == Encode([p] + ps) + rest
  {
    assert ([p] + ps)[1..] == ps;
    KindsCons([p] + ps);
    ShortCons(p, ps);
    EncodeStep(p, Encode(ps), [p] + ps, rest);
  }

  /** And it accepts nothing but the encoder's own output. */
  lemma {:induction false} DecodeCanonical(ks: seq<Kind>, b: bytes)
    requires Decode(ks, b).Some?
    ensures var (ps, rest) := Decode(ks, b).value;
            Kinds(ps) == ks && ShortParts(ps) && b == Encode(ps) + rest
  {
    if ks == [] {
      assert [] + b == b;
    } else {
      TakePartCanonical(ks[0], b);
      var (p, mid) := TakePart(ks[0], b).value;
      DecodeCanonical(ks[1..], mid);
      var (ps, rest) := Decode(ks[1..], mid).value;
      CanonicalStep(ks[0], ks[1..], b, p, mid, ps, rest);
      assert ks == [ks[0]] + ks[1..];
    }
  }

  /** Messages of the same shape with the same bytes are the same message, and
      what follows them is the same too. */
  lemma SameShapeSameParts(ps: seq<Part>, rest: bytes, qs: seq<Part>, rest': bytes)
    requires ShortParts(ps) && ShortParts(qs) && Kinds(ps) == Kinds(qs)
    requires Encode(ps) + rest == Encode(qs) + rest'
    ensures ps == qs && rest == rest'
  {
    DecodeInverts(ps, rest);
    DecodeInverts(qs, rest');
  }

  lemma FieldPair(a: bytes, b: bytes)
    ensures Fields([a, b]) == Field(a) + Field(b)
  {
    assert [a, b][1..] == [b] && [b][1..] == [];
    assert Fields([b]) == Field(b) + [];
  }

  /** At 2^32 the prefix wraps to zero and two different pairs of fields share
      one encoding. */
  lemma LengthWrapCollides(zeros: bytes)
    requires |zeros| == TWO32 && forall i :: 0 <= i < |zeros| ==> zeros[i] == 0
    ensures zeros != []
    ensures Fields([zeros, []]) == Fields([[], zeros])
  {
    var none: bytes := [];
    assert Be32(0) == [0, 0, 0, 0];
    FieldPair(zeros, none);
    FieldPair(none, zeros);
    assert Field(zeros) == [0, 0, 0, 0] + zeros && Field(none) == [0, 0, 0, 0];
  }

  /** Pairs of fields up to this length are told apart by their encoding. */
  ghost predicate SafeForPairs(limit: nat) {
    forall a: bytes, b: bytes, c: bytes, d: bytes ::
      |a| <= limit && |b| <= limit && |c| <= limit && |d| <= limit && Fields([a, b]) == Fields([c, d])
      ==> a == c && b == d
  }

  lemma ShortPairsDiffer(a: bytes, b: bytes, c: bytes, d: bytes)
    requires |a| < TWO32 && |b| < TWO32 && |c| < TWO32 && |d| < TWO32 && Fields([a, b]) == Fields([c, d])
    ensures a == c && b == d
  {
    TakeFieldsInverts([a, b], []);
    TakeFieldsInverts([c, d], []);
    assert Fields([a, b]) + [] == Fields([c, d]) + [];
    assert [a, b][0] == [c, d][0] && [a, b][1] == [c, d][1];
  }

  /** The bound is exact: a length limit is safe precisely below 2^32. */
  lemma PairsAreSafeExactlyBelow(limit: nat)
    ensures SafeForPairs(limit) <==> limit < TWO32
  {
    if limit < TWO32 {
      forall a: bytes, b: bytes, c: bytes, d: bytes
        | |a| <= limit && |b| <= limit && |c| <= limit && |d| <= limit && Fields([a, b]) == Fields([c, d])
        ensures a == c && b == d
      {
        ShortPairsDiffer(a, b, c, d);
      }
    } else {
      var zeros: bytes := seq(TWO32, _ => 0);
      var none: bytes := [];
      LengthWrapCollides(zeros);
      assert Fields([zeros, none]) == Fields([none, zeros]);
    }
  }

  // -------------------------------------------------------- the byte buffer

  lemma EncodeSnoc(ps: seq<Part>, p: Part)
    ensures Encode(ps + [p]) == Encode(ps) + EncodePart(p)
  {
    EncodeConcat(ps, [p]);
    assert [p][1..] == [] && Encode([p]) == EncodePart(p) + Encode([]);
  }

  /** The `Vec<u8>` every builder appends to. `parts` records what has been
      pushed after the domain prefix. */
  class Buffer {
    var bytes: seq<u8>
    const domain: seq<u8>
    ghost var parts: seq<Part>

    ghost predicate Valid()
      reads this
    {
      bytes == domain + Encode(parts)
    }

    constructor (domain: seq<u8>)
      ensures Valid() && this.domain == domain && parts == []
    {
      this.domain, bytes, parts := domain, domain, [];
    }

    method AppendField(field: seq<u8>)
      modifies this`bytes
      ensures bytes == old(bytes) + Field(field)
    {
      bytes := bytes + Be32(Wrap32(|field|));
      bytes := bytes + field;
    }

    method AppendAll(fields: seq<seq<u8>>)
      modifies this`bytes
      ensures bytes == old(bytes) + Fields(fields)
    {
      var i := 0;
      while i < |fields|
        invariant 0 <= i <= |fields|
        invariant old(bytes) + Fields(fields) == bytes + Fields(fields[i..])
      {
        assert fields[i..][1..] == fields[i + 1..];
        Assoc(bytes, Field(fields[i]), Fields(fields[i + 1..]));
        AppendField(fields[i]);
        i := i + 1;
      }
    }

    method AppendCodes(codes: seq<i32>)
      modifies this`bytes
      ensures bytes == old(bytes) + Fields(I32Items(codes))
    {
      ghost var items := I32Items(codes);
      var i := 0;
      while i < |codes|
        invariant 0 <= i <= |codes| == |items|
        invariant old(bytes) + Fields(items) == bytes + Fields(items[i..])
      {
        assert items[i..][1..] == items[i + 1..];
        Assoc(bytes, Field(items[i]), Fields(items[i + 1..]));
        AppendField(BeI32(codes[i]));
        i := i + 1;
      }
    }

    ghost method Note(p: Part)
      requires bytes == domain + Encode(parts) + EncodePart(p)
      modifies this`parts
      ensures Valid() && parts == old(parts) + [p]
    {
      EncodeSnoc(parts, p);
      Assoc(domain, Encode(parts), EncodePart(p));
      parts := parts + [p];
    }

    method PushField(field: seq<u8>)
      requires Valid()
      modifies this
      ensures Valid() && parts == old(parts) + [One(field)]
    {
      AppendField(field);
      Note(One(field));
    }

    /** `push_list`: a bare count, then each item length-delimited. */
    method PushList(items: seq<seq<u8>>)
      requires Valid()
      modifies this
      ensures Valid() && parts == old(parts) + [RawList(items)]
    {
      bytes := bytes + Be32(Wrap32(|items|));
      AppendAll(items);
      Assoc(old(bytes), Be32(Wrap32(|items|)), Fields(items));
      Note(RawList(items));
    }

    /** `push_i32_list`: a saturating count, then each code as a field. */
    method PushI32List(codes: seq<i32>)
      requires Valid()
      modifies this
      ensures Valid() && parts == old(parts) + [Counted4(I32Items(codes))]
    {
      var count := Be32(if |codes| < TWO32 then |codes| else U32_MAX);
      AppendField(count);
      AppendCodes(codes);
      Assoc(old(bytes), Field(count), Fields(I32Items(codes)));
      Note(Counted4(I32Items(codes)));
    }

    /** The reach-id loop: an 8-byte count, then each id. */
    method PushCounted8(items: seq<seq<u8>>)
      requires Valid()
      modifies this
      ensures Valid() && parts == old(parts) + [Counted8(items)]
    {
      var count := Be64(if |items| <= U64_MAX then |items| else U64_MAX);
      AppendField(count);
      AppendAll(items);
      Assoc(old(bytes), Field(count), Fields(items));
      Note(Counted8(items));
    }

    /** Three fields in a row. */
    method PushThree(a: seq<u8>, b: seq<u8>, c: seq<u8>)
      requires Valid()
      modifies this
      ensures Valid() && parts == old(parts) + [One(a), One(b), One(c)]
    {
      PushField(a);
      PushField(b);
      PushField(c);
    }

    /** The loop over identity fields. */
    method PushFields(fields: seq<seq<u8>>)
      requires Valid()
      modifies this
      ensures Valid() && parts == old(parts) + Ones(fields)
    {
      var i := 0;
      while i < |fields|
        invariant 0 <= i <= |fields| && Valid()
        invariant parts == old(parts) + Ones(fields[..i])
      {
        PushField(fields[i]);
        assert Ones(fields[..i + 1]) == Ones(fields[..i]) + [One(fields[i])];
        i := i + 1;
      }
      assert fields[..i] == fields;
    }
  }

  function Ones(fields: seq<bytes>): (ps: seq<Part>)
    ensures |ps| == |fields|
  {
    seq(|fields|, i requires 0 <= i < |fields| => One(fields[i]))
  }

  function I32Items(codes: seq<i32>): (items: seq<bytes>)
    ensures |items| == |codes|
    ensures Short(items)
  {
    seq(|codes|, i requires 0 <= i < |codes| => BeI32(codes[i]))
  }

  lemma I32ItemsInjective(a: seq<i32>, b: seq<i32>)
    requires I32Items(a) == I32Items(b)
    ensures a == b
  {
    assert |a| == |I32Items(a)| == |I32Items(b)| == |b|;
    forall i | 0 <= i < |a| ensures a[i] == b[i] {
      assert I32Items(a)[i] == I32Items(b)[i];
      BeI32Injective(a[i], b[i]);
    }
  }
}
