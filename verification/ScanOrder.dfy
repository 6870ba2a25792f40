/** A scan that sorts its items first and then stops at the first one whose id
    was seen before or whose own check fails. The stable sort leaves tied items
    in input order, so the report can depend on that order; this is exactly
    when. */
module ScanOrder {
  import opened Common
  import opened StableSort

  /** How a scan sorts, identifies and checks its items. */
  datatype Rules<!T, E> = Rules(le: (T, T) -> bool, id: T -> string, own: T -> Option<E>, duplicate: string -> E)

  /** The sort is total, tied items share an id, and no item's own error reads
      as a duplicate. */
  ghost predicate Lawful<T(!new), E(!new)>(k: Rules<T, E>) {
    && TotalPreorder(k.le)
    && (forall x, y :: Tied(k, x, y) ==> k.id(x) == k.id(y))
    && (forall x, i :: k.own(x) != Some(k.duplicate(i)))
  }

  predicate Tied<T, E>(k: Rules<T, E>, x: T, y: T) { k.le(x, y) && k.le(y, x) }

  predicate Before<T, E>(k: Rules<T, E>, z: T, x: T) { k.le(z, x) && !k.le(x, z) }

  /** The first error of a scan over sorted items, if any. */
  function Report<T, E>(k: Rules<T, E>, s: seq<T>, seen: set<string>): Option<E> {
    if s == [] then None
    else if k.id(s[0]) in seen then Some(k.duplicate(k.id(s[0])))
    else if k.own(s[0]).Some? then k.own(s[0])
    else Report(k, s[1..], seen + {k.id(s[0])})
  }

  // ------------------------------------------------------------ the condition

  /** Two items of the list, equal ones only if it holds them twice. */
  ghost predicate TwoOf<T>(s: seq<T>, z: T, w: T) {
    z in s && w in s && (z != w || multiset(s)[z] > 1)
  }

  /** `z` is sorted before `x` and ends the scan, or makes `x` a duplicate. */
  ghost predicate Stops<T(!new), E>(k: Rules<T, E>, s: seq<T>, seen: set<string>, x: T, z: T) {
    && z in s && Before(k, z, x)
    && (|| k.own(z).Some? || k.id(z) in seen || k.id(z) == k.id(x)
        || exists w :: TwoOf(s, z, w) && Before(k, w, x) && k.id(w) == k.id(z))
  }

  /** Whatever ties with `x`, the report is settled before their own checks are
      asked. */
  ghost predicate Settled<T(!new), E>(k: Rules<T, E>, s: seq<T>, seen: set<string>, x: T) {
    k.id(x) in seen || exists z :: Stops(k, s, seen, x, z)
  }

  /** Every tie between different own verdicts is settled earlier. */
  ghost predicate Blind<T(!new), E(!new)>(k: Rules<T, E>, s: seq<T>, seen: set<string>) {
    forall x, y :: x in s && y in s && Tied(k, x, y) && k.own(x) != k.own(y) ==> Settled(k, s, seen, x)
  }

  // ---------------------------------------------------------- it is sufficient

  lemma Reflexive<T(!new), E(!new)>(k: Rules<T, E>, x: T)
    requires Lawful(k)
    ensures Tied(k, x, x)
  {
    assert k.le(x, x) || k.le(x, x);
  }

  lemma HeadIsLeast<T(!new), E(!new)>(k: Rules<T, E>, s: seq<T>, x: T)
    requires Lawful(k) && Sorted(s, k.le) && x in s
    ensures k.le(s[0], x)
  {
    var i :| 0 <= i < |s| && s[i] == x;
    Reflexive(k, x);
  }

  lemma HeadsTie<T(!new), E(!new)>(k: Rules<T, E>, s: seq<T>, t: seq<T>)
    requires Lawful(k) && Sorted(s, k.le) && Sorted(t, k.le) && s != [] && t != [] && multiset(s) == multiset(t)
    ensures Tied(k, s[0], t[0]) && s[0] in t && t[0] in s
  {
    assert s[0] in multiset(t) && t[0] in multiset(s);
    HeadIsLeast(k, s, t[0]);
    HeadIsLeast(k, t, s[0]);
  }

  /** Nothing is sorted before the head, so its tie is settled only by ids seen
      before the scan. */
  lemma HeadIsUnsettled<T(!new), E(!new)>(k: Rules<T, E>, s: seq<T>, seen: set<string>)
    requires Lawful(k) && Sorted(s, k.le) && s != [] && k.id(s[0]) !in seen
    ensures !Settled(k, s, seen, s[0])
  {
    forall z ensures !Stops(k, s, seen, s[0], z) {
      if z in s { HeadIsLeast(k, s, z); }
    }
  }

  /** Whether anything else ties with the head. */
  ghost predicate Alone<T(!new), E>(k: Rules<T, E>, s: seq<T>)
    requires s != []
  {
    forall i :: 0 < i < |s| ==> !Tied(k, s[0], s[i])
  }

  lemma SecondTies<T(!new), E(!new)>(k: Rules<T, E>, s: seq<T>)
    requires Lawful(k) && Sorted(s, k.le) && s != [] && !Alone(k, s)
    ensures |s| > 1 && k.id(s[1]) == k.id(s[0])
  {
    var i :| 0 < i < |s| && Tied(k, s[0], s[i]);
    assert k.le(s[0], s[1]);
    if i > 1 { assert k.le(s[1], s[i]) && k.le(s[i], s[0]) && k.le(s[1], s[0]); }
    assert Tied(k, s[0], s[1]);
  }

  lemma RepeatedHeadReports<T(!new), E(!new)>(k: Rules<T, E>, s: seq<T>, seen: set<string>)
    requires Lawful(k) && Sorted(s, k.le) && s != [] && !Alone(k, s)
    requires k.id(s[0]) !in seen && k.own(s[0]).None?
    ensures Report(k, s, seen) == Some(k.duplicate(k.id(s[0])))
  {
    SecondTies(k, s);
    assert s[1..][0] == s[1];
  }

  lemma EqualHeadsEqualRests<T>(s: seq<T>, t: seq<T>)
    requires s != [] && t != [] && multiset(s) == multiset(t) && s[0] == t[0]
    ensures multiset(s[1..]) == multiset(t[1..])
  {
    assert s == [s[0]] + s[1..] && t == [t[0]] + t[1..];
    assert multiset(s[1..]) == multiset(s) - multiset{s[0]};
    assert multiset(t[1..]) == multiset(t) - multiset{t[0]};
  }

  lemma AloneIsOfTheRest<T(!new), E>(k: Rules<T, E>, s: seq<T>)
    requires s != []
    ensures Alone(k, s) <==> forall y :: y in s[1..] ==> !Tied(k, s[0], y)
  {
    if Alone(k, s) {
      forall y | y in s[1..] ensures !Tied(k, s[0], y) {
        var l :| 0 <= l < |s[1..]| && s[1..][l] == y;
        assert s[l + 1] == y;
      }
    } else {
      var i :| 0 < i < |s| && Tied(k, s[0], s[i]);
      assert s[1..][i - 1] == s[i];
    }
  }

  /** A lone head is the same item in both arrangements, and so are the rests. */
  lemma LoneHeads<T(!new), E(!new)>(k: Rules<T, E>, s: seq<T>, t: seq<T>)
    requires Lawful(k) && Sorted(s, k.le) && Sorted(t, k.le) && s != [] && t != [] && multiset(s) == multiset(t)
    requires Alone(k, s)
    ensures t[0] == s[0] && multiset(s[1..]) == multiset(t[1..]) && Alone(k, t)
    ensures s[0] !in s[1..]
  {
    HeadsTie(k, s, t);
    AloneIsOfTheRest(k, s);
    AloneIsOfTheRest(k, t);
    assert t[0] == s[0] by {
      var i :| 0 <= i < |s| && s[i] == t[0];
      assert i == 0;
    }
    EqualHeadsEqualRests(s, t);
    forall y | y in t[1..] ensures y in s[1..] { assert y in multiset(t[1..]); }
    Reflexive(k, s[0]);
  }

  lemma TwoOfTail<T>(s: seq<T>, z: T, w: T)
    requires s != [] && TwoOf(s, z, w) && z != s[0] && w != s[0]
    ensures TwoOf(s[1..], z, w)
  {
    assert s == [s[0]] + s[1..];
    assert multiset(s[1..])[z] == multiset(s)[z];
  }

  /** Past a lone head that passes, what settled a later tie still does. */
  lemma SettledTail<T(!new), E(!new)>(k: Rules<T, E>, s: seq<T>, seen: set<string>, x: T)
    requires Lawful(k) && s != [] && s[0] !in s[1..] && k.own(s[0]).None? && k.id(s[0]) !in seen
    requires Settled(k, s, seen, x)
    ensures Settled(k, s[1..], seen + {k.id(s[0])}, x)
  {
    var head, rest, seen' := s[0], s[1..], seen + {k.id(s[0])};
    if k.id(x) !in seen' {
      var z :| Stops(k, s, seen, x, z);
      assert s == [head] + rest;
      if k.own(z).Some? || k.id(z) in seen || k.id(z) == k.id(x) {
        assert Stops(k, rest, seen', x, z);
      } else {
        var w :| TwoOf(s, z, w) && Before(k, w, x) && k.id(w) == k.id(z);
        RepeatStops(k, s, seen, x, z, w);
      }
    }
  }

  lemma RepeatStops<T(!new), E(!new)>(k: Rules<T, E>, s: seq<T>, seen: set<string>, x: T, z: T, w: T)
    requires s != [] && s[0] !in s[1..]
    requires TwoOf(s, z, w) && Before(k, z, x) && Before(k, w, x) && k.id(w) == k.id(z)
    ensures Settled(k, s[1..], seen + {k.id(s[0])}, x)
  {
    var head, rest, seen' := s[0], s[1..], seen + {k.id(s[0])};
    assert s == [head] + rest;
    assert multiset(s) == multiset{head} + multiset(rest);
    if z == head {
      assert w != head && Stops(k, rest, seen', x, w);
    } else if w == head {
      assert Stops(k, rest, seen', x, z);
    } else {
      TwoOfTail(s, z, w);
      assert Stops(k, rest, seen', x, z);
    }
  }

  lemma BlindTail<T(!new), E(!new)>(k: Rules<T, E>, s: seq<T>, seen: set<string>)
    requires Lawful(k) && s != [] && s[0] !in s[1..] && k.own(s[0]).None? && k.id(s[0]) !in seen
    requires Blind(k, s, seen)
    ensures Blind(k, s[1..], seen + {k.id(s[0])})
  {
    var rest := s[1..];
    forall x, y | x in rest && y in rest && Tied(k, x, y) && k.own(x) != k.own(y)
      ensures Settled(k, rest, seen + {k.id(s[0])}, x)
    {
      assert x in s && y in s;
      SettledTail(k, s, seen, x);
    }
  }

  lemma {:induction false} BlindIsSufficient<T(!new), E(!new)>(k: Rules<T, E>, s: seq<T>, t: seq<T>, seen: set<string>)
    requires Lawful(k) && Sorted(s, k.le) && Sorted(t, k.le) && multiset(s) == multiset(t) && Blind(k, s, seen)
    ensures Report(k, s, seen) == Report(k, t, seen)
    decreases |s|, 1
  {
    assert |s| == |multiset(s)| == |multiset(t)| == |t|;
    if s != [] {
      HeadsTie(k, s, t);
      if k.id(s[0]) !in seen {
        HeadIsUnsettled(k, s, seen);
        assert k.own(s[0]) == k.own(t[0]);
        if k.own(s[0]).None? {
          PassingHeads(k, s, t, seen);
        }
      }
    }
  }

  lemma {:induction false} PassingHeads<T(!new), E(!new)>(k: Rules<T, E>, s: seq<T>, t: seq<T>, seen: set<string>)
    requires Lawful(k) && Sorted(s, k.le) && Sorted(t, k.le) && multiset(s) == multiset(t) && Blind(k, s, seen)
    requires s != [] && t != [] && Tied(k, s[0], t[0]) && k.id(s[0]) !in seen
    requires k.own(s[0]).None? && k.own(t[0]).None?
    ensures Report(k, s, seen) == Report(k, t, seen)
    decreases |s|, 0
  {
    if Alone(k, s) {
      LoneHeads(k, s, t);
      BlindTail(k, s, seen);
      SortedTail(k, s);
      SortedTail(k, t);
      BlindIsSufficient(k, s[1..], t[1..], seen + {k.id(s[0])});
    } else {
      if Alone(k, t) { LoneHeads(k, t, s); }
      RepeatedHeadReports(k, s, seen);
      RepeatedHeadReports(k, t, seen);
    }
  }

  lemma SortedTail<T(!new), E(!new)>(k: Rules<T, E>, s: seq<T>)
    requires Sorted(s, k.le) && s != []
    ensures Sorted(s[1..], k.le)
  {}

  // ----------------------------------------------------------- it is necessary

  /** Nothing in this stretch stops a scan. */
  predicate Clean<T, E>(k: Rules<T, E>, a: seq<T>, seen: set<string>) {
    && (forall i :: 0 <= i < |a| ==> k.own(a[i]).None? && k.id(a[i]) !in seen)
    && (forall i, j :: 0 <= i < j < |a| ==> k.id(a[i]) != k.id(a[j]))
  }

  function IdsOf<T, E>(k: Rules<T, E>, a: seq<T>): set<string> {
    set i | 0 <= i < |a| :: k.id(a[i])
  }

  lemma CleanTail<T, E>(k: Rules<T, E>, a: seq<T>, seen: set<string>)
    requires a != [] && Clean(k, a, seen)
    ensures Clean(k, a[1..], seen + {k.id(a[0])})
    ensures seen + {k.id(a[0])} + IdsOf(k, a[1..]) == seen + IdsOf(k, a)
  {
    var rest := a[1..];
    forall i | 0 <= i < |rest| ensures rest[i] == a[i + 1] && k.id(rest[i]) != k.id(a[0]) {}
    forall i | 0 <= i < |a| ensures k.id(a[i]) in {k.id(a[0])} + IdsOf(k, rest) {
      if i > 0 { assert a[i] == rest[i - 1]; }
    }
    forall i | 0 <= i < |rest| ensures k.id(rest[i]) in IdsOf(k, a) { assert rest[i] == a[i + 1]; }
  }

  lemma {:induction false} CleanPrefixPasses<T, E>(k: Rules<T, E>, a: seq<T>, b: seq<T>, seen: set<string>)
    requires Clean(k, a, seen)
    ensures Report(k, a + b, seen) == Report(k, b, seen + IdsOf(k, a))
    decreases |a|
  {
    if a == [] {
      assert a + b == b && seen + IdsOf(k, a) == seen;
    } else {
      CleanTail(k, a, seen);
      assert (a + b)[1..] == a[1..] + b;
      CleanPrefixPasses(k, a[1..], b, seen + {k.id(a[0])});
    }
  }

  /** A new item is inserted behind the strictly smaller ones and ahead of the
      rest. */
  lemma {:induction false} InsertSplits<T>(x: T, s: seq<T>, le: (T, T) -> bool) returns (n: nat)
    ensures n <= |s| && Insert(x, s, le) == s[..n] + ([x] + s[n..])
    ensures forall i :: 0 <= i < n ==> !le(x, s[i])
    ensures n < |s| ==> le(x, s[n])
  {
    if s == [] || le(x, s[0]) {
      n := 0;
    } else {
      var m := InsertSplits(x, s[1..], le);
      n := m + 1;
      assert s[..n] == [s[0]] + s[1..][..m] && s[n..] == s[1..][m..];
      forall i | 0 <= i < n ensures !le(x, s[i]) {
        if i > 0 { assert s[i] == s[1..][i - 1]; }
      }
    }
  }

  /** What stands before an unsettled tie passes the scan. */
  lemma EarlierItemsAreClean<T(!new), E(!new)>(k: Rules<T, E>, s: seq<T>, seen: set<string>, x: T, a: seq<T>)
    requires !Settled(k, s, seen, x) && multiset(a) <= multiset(s)
    requires forall i :: 0 <= i < |a| ==> Before(k, a[i], x)
    ensures Clean(k, a, seen) && k.id(x) !in seen + IdsOf(k, a)
  {
    forall i | 0 <= i < |a| ensures k.own(a[i]).None? && k.id(a[i]) !in seen && k.id(a[i]) != k.id(x) && a[i] in s {
      assert a[i] in multiset(a) && a[i] in multiset(s);
      assert !Stops(k, s, seen, x, a[i]);
    }
    forall i, j | 0 <= i < j < |a| ensures k.id(a[i]) != k.id(a[j]) {
      assert !Stops(k, s, seen, x, a[i]);
      TwoPositions(a, s, i, j);
    }
  }

  lemma TwoPositions<T>(a: seq<T>, s: seq<T>, i: nat, j: nat)
    requires i < j < |a| && multiset(a) <= multiset(s)
    ensures TwoOf(s, a[i], a[j])
  {
    assert a[i] in multiset(a) && a[j] in multiset(a);
    assert a[i] in multiset(s) && a[j] in multiset(s);
    if a[i] == a[j] {
      assert a == a[..j] + [a[j]] + a[j + 1..];
      assert a[i] in a[..j];
      assert multiset(a)[a[i]] >= 2;
    }
  }

  /** An item put first in the input, once sorted: the strictly earlier items,
      itself, then what it ties with. */
  lemma FrontSorts<T(!new), E(!new)>(k: Rules<T, E>, rest: seq<T>, x: T, y: T) returns (a: seq<T>, b: seq<T>)
    requires Lawful(k) && y in rest && Tied(k, x, y)
    ensures Sort([x] + rest, k.le) == a + ([x] + b) && multiset(a) <= multiset(rest)
    ensures forall i :: 0 <= i < |a| ==> Before(k, a[i], x)
    ensures b != [] && k.id(b[0]) == k.id(x)
  {
    var sorted := Sort(rest, k.le);
    assert ([x] + rest)[1..] == rest;
    SortPermutes(rest, k.le);
    SortSorts(rest, k.le);
    var n := InsertSplits(x, sorted, k.le);
    TieFollows(k, sorted, n, x, y);
    a, b := sorted[..n], sorted[n..];
    assert sorted == a + b;
    forall i | 0 <= i < |a| ensures Before(k, a[i], x) { assert !k.le(x, sorted[i]) && k.le(sorted[i], x); }
  }

  /** Put first in the input, an item of an unsettled tie is the one reported:
      by its own error, or else as the first of a duplicate. */
  lemma FirstOfTieReports<T(!new), E(!new)>(k: Rules<T, E>, rest: seq<T>, seen: set<string>, x: T, y: T)
    requires Lawful(k) && y in rest && Tied(k, x, y) && !Settled(k, [x] + rest, seen, x)
    ensures Report(k, Sort([x] + rest, k.le), seen) ==
            if k.own(x).Some? then k.own(x) else Some(k.duplicate(k.id(x)))
  {
    var a, b := FrontSorts(k, rest, x, y);
    assert multiset([x] + rest) == multiset{x} + multiset(rest);
    EarlierItemsAreClean(k, [x] + rest, seen, x, a);
    CleanPrefixPasses(k, a, [x] + b, seen);
    assert ([x] + b)[1..] == b;
  }

  lemma TieFollows<T(!new), E(!new)>(k: Rules<T, E>, sorted: seq<T>, n: nat, x: T, y: T)
    requires Lawful(k) && Sorted(sorted, k.le) && n <= |sorted| && y in multiset(sorted) && Tied(k, x, y)
    requires forall i :: 0 <= i < n ==> !k.le(x, sorted[i])
    requires n < |sorted| ==> k.le(x, sorted[n])
    ensures n < |sorted| && k.id(sorted[n]) == k.id(x)
  {
    var j :| 0 <= j < |sorted| && sorted[j] == y;
    assert n <= j;
    Reflexive(k, y);
    assert k.le(sorted[n], y) && k.le(y, x) && k.le(sorted[n], x);
    assert Tied(k, sorted[n], x);
  }

  lemma SettledPermutes<T(!new), E(!new)>(k: Rules<T, E>, s: seq<T>, t: seq<T>, seen: set<string>, x: T)
    requires multiset(s) == multiset(t) && Settled(k, s, seen, x)
    ensures Settled(k, t, seen, x)
  {
    if k.id(x) !in seen {
      var z :| Stops(k, s, seen, x, z);
      assert z in multiset(s) && z in t;
      if !k.own(z).Some? && k.id(z) !in seen && k.id(z) != k.id(x) {
        var w :| TwoOf(s, z, w) && Before(k, w, x) && k.id(w) == k.id(z);
        assert w in multiset(s) && TwoOf(t, z, w);
      }
      assert Stops(k, t, seen, x, z);
    }
  }

  lemma BeforeTied<T(!new), E(!new)>(k: Rules<T, E>, z: T, x: T, y: T)
    requires Lawful(k) && Tied(k, x, y) && Before(k, z, x)
    ensures Before(k, z, y)
  {
    assert k.le(x, y) && k.le(z, y);
  }

  lemma SettledTied<T(!new), E(!new)>(k: Rules<T, E>, s: seq<T>, seen: set<string>, x: T, y: T)
    requires Lawful(k) && Tied(k, x, y) && Settled(k, s, seen, x)
    ensures Settled(k, s, seen, y)
  {
    assert k.id(x) == k.id(y);
    if k.id(x) !in seen {
      var z :| Stops(k, s, seen, x, z);
      BeforeTied(k, z, x, y);
      if !k.own(z).Some? && k.id(z) !in seen && k.id(z) != k.id(x) {
        var w :| TwoOf(s, z, w) && Before(k, w, x) && k.id(w) == k.id(z);
        BeforeTied(k, w, x, y);
      }
      assert Stops(k, s, seen, y, z);
    }
  }

  /** One item moved to the front. */
  lemma ToFront<T>(s: seq<T>, x: T) returns (rest: seq<T>)
    requires x in s
    ensures multiset([x] + rest) == multiset(s)
    ensures forall y :: y in s && y != x ==> y in rest
  {
    var i :| 0 <= i < |s| && s[i] == x;
    rest := s[..i] + s[i + 1..];
    assert s == s[..i] + [x] + s[i + 1..];
  }

  /** Where a tie between different verdicts is not settled earlier, two orders
      of the same items are reported differently. */
  lemma BlindIsNecessary<T(!new), E(!new)>(k: Rules<T, E>, s: seq<T>, seen: set<string>) returns (t: seq<T>, u: seq<T>)
    requires Lawful(k) && !Blind(k, s, seen)
    ensures multiset(t) == multiset(s) && multiset(u) == multiset(s)
    ensures Report(k, Sort(t, k.le), seen).Some? && Report(k, Sort(u, k.le), seen).Some?
    ensures Report(k, Sort(t, k.le), seen) != Report(k, Sort(u, k.le), seen)
  {
    var x, y :| x in s && y in s && Tied(k, x, y) && k.own(x) != k.own(y) && !Settled(k, s, seen, x);
    var afterX := ToFront(s, x);
    var afterY := ToFront(s, y);
    t, u := [x] + afterX, [y] + afterY;
    if Settled(k, t, seen, x) { SettledPermutes(k, t, s, seen, x); }
    if Settled(k, u, seen, y) {
      SettledPermutes(k, u, s, seen, y);
      SettledTied(k, s, seen, y, x);
    }
    FirstOfTieReports(k, afterX, seen, x, y);
    FirstOfTieReports(k, afterY, seen, y, x);
    assert k.id(x) == k.id(y);
  }

  /** A sorted scan reports every arrangement of its items alike exactly when
      every tie between different verdicts is settled before it. */
  lemma ReportIgnoresOrderExactlyWhen<T(!new), E(!new)>(k: Rules<T, E>, s: seq<T>, seen: set<string>)
    requires Lawful(k)
    ensures (forall t | multiset(t) == multiset(s) :: Report(k, Sort(t, k.le), seen) == Report(k, Sort(s, k.le), seen))
            <==> Blind(k, s, seen)
  {
    if Blind(k, s, seen) {
      forall t | multiset(t) == multiset(s)
        ensures Report(k, Sort(t, k.le), seen) == Report(k, Sort(s, k.le), seen)
      {
        SortedReports(k, s, t, seen);
      }
    } else {
      var t, u := BlindIsNecessary(k, s, seen);
      assert multiset(t) == multiset(s) && multiset(u) == multiset(s);
    }
  }

  lemma BlindPermutes<T(!new), E(!new)>(k: Rules<T, E>, s: seq<T>, t: seq<T>, seen: set<string>)
    requires multiset(s) == multiset(t) && Blind(k, s, seen)
    ensures Blind(k, t, seen)
  {
    forall x, y | x in t && y in t && Tied(k, x, y) && k.own(x) != k.own(y) ensures Settled(k, t, seen, x) {
      assert x in multiset(t) && y in multiset(t) && x in s && y in s;
      SettledPermutes(k, s, t, seen, x);
    }
  }

  lemma SortedReports<T(!new), E(!new)>(k: Rules<T, E>, s: seq<T>, t: seq<T>, seen: set<string>)
    requires Lawful(k) && multiset(s) == multiset(t) && Blind(k, s, seen)
    ensures Report(k, Sort(t, k.le), seen) == Report(k, Sort(s, k.le), seen)
  {
    SortPermutes(s, k.le);
    SortPermutes(t, k.le);
    SortSorts(s, k.le);
    SortSorts(t, k.le);
    BlindPermutes(k, s, Sort(s, k.le), seen);
    BlindIsSufficient(k, Sort(s, k.le), Sort(t, k.le), seen);
  }
}
