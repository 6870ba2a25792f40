/** Shared value types: machine-integer ranges, outcomes, and the text facts
    (`trim().is_empty()`, byte length, ordering) the Rust sources rely on. */
module Common {

  const U32_MAX: nat := 0xFFFF_FFFF
  const I64_MAX: int := 0x7FFF_FFFF_FFFF_FFFF
  const I64_MIN: int := -0x8000_0000_0000_0000
  const U64_MAX: nat := 0xFFFF_FFFF_FFFF_FFFF

  type u8 = x: int | 0 <= x < 0x100
  type u16 = x: int | 0 <= x < 0x1_0000
  type u32 = x: int | 0 <= x < 0x1_0000_0000
  type u64 = x: int | 0 <= x < 0x1_0000_0000_0000_0000
  type i32 = x: int | -0x8000_0000 <= x < 0x8000_0000
  type i64 = x: int | -0x8000_0000_0000_0000 <= x < 0x8000_0000_0000_0000

  type bytes = seq<u8>

  datatype Option<+T> = None | Some(value: T)

  datatype Result<+T, +E> = Ok(value: T) | Err(error: E)

  datatype Outcome<+E> = Pass | Fail(error: E)

  /** The tenant and repository every store keys its rows by. */
  datatype Scope = Scope(tenantId: string, repositoryId: string)

  /** How a single statement goes: it works, it fails without effect, or it
      takes effect and its acknowledgement is lost. */
  datatype Fault = Fine | Failed | AckLost

  /** Nanoseconds floored to a whole microsecond, before the epoch as well. */
  function NormalizeTimestamp(t: int): (r: int)
    ensures r <= t < r + 1000 && r % 1000 == 0
  {
    t - t % 1000
  }

  /** Unicode White_Space, the class `str::trim` strips. */
  predicate IsWhitespace(c: char) {
    var n := c as int;
    || 0x09 <= n <= 0x0D || n == 0x20 || n == 0x85 || n == 0xA0 || n == 0x1680
    || 0x2000 <= n <= 0x200A || n == 0x2028 || n == 0x2029 || n == 0x202F
    || n == 0x205F || n == 0x3000
  }

  /** `value.trim().is_empty()`. */
  predicate Blank(s: string) {
    forall i :: 0 <= i < |s| ==> IsWhitespace(s[i])
  }

  /** `value.len()`: the UTF-8 length in bytes. */
  function ByteLen(s: string): nat {
    if s == "" then 0 else
      (var n := s[0] as int;
       if n < 0x80 then 1 else if n < 0x800 then 2 else if n < 0x1_0000 then 3 else 4)
      + ByteLen(s[1..])
  }

  /** Identifier bound used by every store: not blank, at most `max` bytes. */
  predicate Bounded(s: string, max: nat) {
    !Blank(s) && ByteLen(s) <= max
  }

  predicate OptionalBlank(s: Option<string>) {
    s.Some? && Blank(s.value)
  }

  /** Scalar-value order, which is the byte order of the UTF-8 encodings. */
  predicate TextLe(a: string, b: string) {
    a == "" || (b != "" && (a[0] < b[0] || (a[0] == b[0] && TextLe(a[1..], b[1..]))))
  }

  lemma TextLeTotal(a: string, b: string)
    ensures TextLe(a, b) || TextLe(b, a)
  {}

  lemma TextLeTransitive(a: string, b: string, c: string)
    requires TextLe(a, b) && TextLe(b, c)
    ensures TextLe(a, c)
  {}

  lemma TextLeAntisymmetric(a: string, b: string)
    requires TextLe(a, b) && TextLe(b, a)
    ensures a == b
  {
    if a != "" {
      TextLeAntisymmetric(a[1..], b[1..]);
      assert a == [a[0]] + a[1..] && b == [b[0]] + b[1..];
    }
  }

  /** No element of `ids` repeats, and none was seen before. */
  ghost predicate AllNew<T>(seen: set<T>, ids: seq<T>) {
    && (forall i :: 0 <= i < |ids| ==> ids[i] !in seen)
    && (forall i, j :: 0 <= i < j < |ids| ==> ids[i] != ids[j])
  }

  lemma AllNewCons<T>(seen: set<T>, ids: seq<T>)
    requires ids != []
    ensures AllNew(seen, ids) <==> ids[0] !in seen && AllNew(seen + {ids[0]}, ids[1..])
  {
    var rest := ids[1..];
    if ids[0] !in seen && AllNew(seen + {ids[0]}, rest) {
      forall i | 0 <= i < |ids| ensures ids[i] !in seen {
        if i > 0 { assert ids[i] == rest[i - 1]; }
      }
      forall i, j | 0 <= i < j < |ids| ensures ids[i] != ids[j] {
        assert ids[j] == rest[j - 1];
        if i > 0 { assert ids[i] == rest[i - 1]; }
      }
    }
  }

  lemma AllNewConcat<T>(seen: set<T>, a: seq<T>, b: seq<T>)
    ensures AllNew(seen, a + b) <==> AllNew(seen, a) && AllNew(seen + (set x | x in a), b)
    decreases |a|
  {
    if a == [] {
      assert a + b == b;
      assert seen + (set x | x in a) == seen;
    } else {
      AllNewCons(seen, a + b);
      AllNewCons(seen, a);
      assert (a + b)[1..] == a[1..] + b;
      AllNewConcat(seen + {a[0]}, a[1..], b);
      assert a == [a[0]] + a[1..];
      assert seen + {a[0]} + (set x | x in a[1..]) == seen + (set x | x in a);
    }
  }

  /** Distinctness does not depend on order: it is a bound on multiplicities. */
  lemma AllNewIsMultiplicity<T>(ids: seq<T>)
    ensures AllNew({}, ids) <==> forall x :: x in multiset(ids) ==> multiset(ids)[x] == 1
  {
    if ids != [] {
      var init, last := ids[..|ids| - 1], ids[|ids| - 1];
      assert ids == init + [last];
      AllNewConcat({}, init, [last]);
      AllNewIsMultiplicity(init);
      assert multiset(ids) == multiset(init) + multiset{last};
      if AllNew({}, ids) {
        assert last !in multiset(init);
      } else if AllNew({}, init) {
        assert last in multiset(init);
        assert multiset(ids)[last] == 2;
      } else {
        var x :| x in multiset(init) && multiset(init)[x] != 1;
        assert multiset(ids)[x] > 1;
      }
    }
  }
}
