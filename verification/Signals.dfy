/** Signal lists in their canonical form: trimmed, lower case, no duplicates, ascending. */
module Signals {
  import opened Wrappers
  import opened Text
  import Sorting

  /** Strictly ascending in code-point order, so without duplicates. */
  predicate Ascending(s: seq<string>) {
    forall i, j :: 0 <= i < j < |s| ==> Less(s[i], s[j])
  }

  function Elements(s: seq<string>): set<string> {
    set x | x in s
  }

  /** What one entry contributes: null and blank entries contribute nothing. */
  function Key(signal: Option<string>): seq<string> {
    if signal.None? || Norm(signal.value) == "" then [] else [Norm(signal.value)]
  }

  function Keys(signals: seq<Option<string>>): seq<string> {
    if signals == [] then [] else Key(signals[0]) + Keys(signals[1..])
  }

  function Place(x: string, s: seq<string>): seq<string> {
    if s == [] then [x]
    else if x == s[0] then s
    else if Leq(x, s[0]) then [x] + s
    else [s[0]] + Place(x, s[1..])
  }

  /** The canonical list of some keys, built one key at a time. */
  function Canon(keys: seq<string>): seq<string> {
    if keys == [] then [] else Place(keys[0], Canon(keys[1..]))
  }

  function Normalized(signals: seq<Option<string>>): seq<string> {
    Canon(Keys(signals))
  }

  lemma {:induction false} PlaceAdds(x: string, s: seq<string>)
    ensures Elements(Place(x, s)) == Elements(s) + {x}
  {
    if s != [] && x != s[0] && !Leq(x, s[0]) {
      PlaceAdds(x, s[1..]);
      var r := Place(x, s[1..]);
      assert forall y :: y in [s[0]] + r <==> y == s[0] || y in Elements(r);
      assert forall y :: y in s <==> y == s[0] || y in Elements(s[1..]);
    }
  }

  lemma BelowAll(x: string, s: seq<string>)
    requires Ascending(s) && s != [] && Less(x, s[0])
    ensures Ascending([x] + s)
  {
    forall j | 0 <= j < |s| ensures Less(x, s[j]) {
      if j > 0 {
        LessThrough(x, s[0], s[j]);
      }
    }
  }

  lemma LessThrough(a: string, b: string, c: string)
    requires Less(a, b) && Less(b, c)
    ensures Less(a, c)
  {
    LeqTransitive(a, b, c);
    if a == c {
      LeqAntisymmetric(a, b);
    }
  }

  lemma {:induction false} PlaceAscends(x: string, s: seq<string>)
    requires Ascending(s)
    ensures Ascending(Place(x, s))
  {
    if s != [] && x != s[0] {
      if Leq(x, s[0]) {
        BelowAll(x, s);
      } else {
        LeqTotal(x, s[0]);
        var r := Place(x, s[1..]);
        PlaceAscends(x, s[1..]);
        PlaceAdds(x, s[1..]);
        assert r[0] in Elements(r);
        BelowAll(s[0], r);
      }
    }
  }

  lemma {:induction false} CanonHolds(keys: seq<string>)
    ensures Ascending(Canon(keys)) && Elements(Canon(keys)) == Elements(keys)
  {
    if keys != [] {
      var rest := keys[1..];
      CanonHolds(rest);
      PlaceAdds(keys[0], Canon(rest));
      PlaceAscends(keys[0], Canon(rest));
      assert keys == [keys[0]] + rest;
    }
  }

  /** The normal forms a list contributes. */
  ghost predicate Contributes(signals: seq<Option<string>>, x: string) {
    exists s :: Some(s) in signals && Norm(s) == x != ""
  }

  lemma {:induction false} KeysAre(signals: seq<Option<string>>, x: string)
    ensures x in Keys(signals) <==> Contributes(signals, x)
  {
    if signals != [] {
      var first, rest := signals[0], signals[1..];
      KeysAre(rest, x);
      assert x in Keys(signals) <==> x in Key(first) || x in Keys(rest);
      assert x in Key(first) <==> first.Some? && Norm(first.value) == x != "";
      assert forall s :: Some(s) in signals <==> Some(s) == first || Some(s) in rest;
    }
  }

  /** The canonical form is ascending and holds exactly the normal forms. */
  lemma NormalizedHolds(signals: seq<Option<string>>)
    ensures Ascending(Normalized(signals))
    ensures forall x :: x in Normalized(signals) <==> Contributes(signals, x)
  {
    CanonHolds(Keys(signals));
    forall x ensures x in Normalized(signals) <==> Contributes(signals, x) {
      KeysAre(signals, x);
      assert x in Elements(Normalized(signals)) <==> x in Elements(Keys(signals));
    }
  }

  /** An ascending list is determined by what it holds. */
  lemma {:induction false} AscendingUnique(a: seq<string>, b: seq<string>)
    requires Ascending(a) && Ascending(b) && Elements(a) == Elements(b)
    ensures a == b
  {
    if a == [] || b == [] {
      assert forall s: seq<string> :: s != [] ==> s[0] in Elements(s);
    } else {
      HeadsAgree(a, b);
      assert Elements(a[1..]) == Elements(a) - {a[0]};
      assert Elements(b[1..]) == Elements(b) - {b[0]};
      AscendingUnique(a[1..], b[1..]);
      assert a == [a[0]] + a[1..] && b == [b[0]] + b[1..];
    }
  }

  lemma HeadsAgree(a: seq<string>, b: seq<string>)
    requires Ascending(a) && Ascending(b) && Elements(a) == Elements(b) && a != [] && b != []
    ensures a[0] == b[0]
  {
    assert a[0] in Elements(b) && b[0] in Elements(a);
    if a[0] != b[0] {
      assert Less(a[0], b[0]) && Less(b[0], a[0]);
      LeqAntisymmetric(a[0], b[0]);
    }
  }

  /**
   Two lists have one canonical form exactly when they contribute the same normal
   forms: order and repetition do not matter.
   */
  lemma NormalizedIff(a: seq<Option<string>>, b: seq<Option<string>>)
    ensures Normalized(a) == Normalized(b) <==> (forall x :: Contributes(a, x) <==> Contributes(b, x))
  {
    NormalizedHolds(a);
    NormalizedHolds(b);
    if forall x :: Contributes(a, x) <==> Contributes(b, x) {
      AscendingUnique(Normalized(a), Normalized(b));
    }
  }

  function Somes(s: seq<string>): (r: seq<Option<string>>)
    ensures |r| == |s| && forall i :: 0 <= i < |s| ==> r[i] == Some(s[i])
  {
    seq(|s|, i requires 0 <= i < |s| => Some(s[i]))
  }

  /** Normalizing twice is normalizing once. */
  lemma NormalizedIdempotent(signals: seq<Option<string>>)
    ensures Normalized(Somes(Normalized(signals))) == Normalized(signals)
  {
    var n := Normalized(signals);
    NormalizedHolds(signals);
    forall x ensures Contributes(Somes(n), x) <==> Contributes(signals, x) {
      NormalAgain(signals, x);
    }
    NormalizedIff(Somes(n), signals);
  }

  lemma NormalAgain(signals: seq<Option<string>>, x: string)
    ensures Contributes(Somes(Normalized(signals)), x) <==> Contributes(signals, x)
  {
    NormalizedHolds(signals);
    if Contributes(signals, x) {
      var s :| Some(s) in signals && Norm(s) == x != "";
      NormIdempotent(s);
      ContributesItself(Normalized(signals), x);
    }
    if Contributes(Somes(Normalized(signals)), x) {
      var y :| Some(y) in Somes(Normalized(signals)) && Norm(y) == x != "";
      FromNormal(signals, y);
    }
  }

  lemma ContributesItself(n: seq<string>, x: string)
    requires x in n && Norm(x) == x != ""
    ensures Contributes(Somes(n), x)
  {
    var i :| 0 <= i < |n| && n[i] == x;
    assert Somes(n)[i] == Some(x);
  }

  /** An entry of the canonical form is its own normal form. */
  lemma FromNormal(signals: seq<Option<string>>, y: string)
    requires Some(y) in Somes(Normalized(signals))
    ensures Contributes(signals, y) && Norm(y) == y
  {
    NormalizedHolds(signals);
    assert y in Normalized(signals);
    var s :| Some(s) in signals && Norm(s) == y != "";
    NormIdempotent(s);
  }

  lemma LeqIsOrder()
    ensures Sorting.TotalPreorder(Leq)
  {
    forall a, b ensures Leq(a, b) || Leq(b, a) {
      LeqTotal(a, b);
    }
    forall a, b, c | Leq(a, b) && Leq(b, c) ensures Leq(a, c) {
      LeqTransitive(a, b, c);
    }
  }

  /** Sorting a duplicate-free list makes it ascending. */
  lemma SortAscends(s: seq<string>)
    requires Sorting.Distinct(s)
    ensures Ascending(Sorting.Sort(Leq, s)) && Elements(Sorting.Sort(Leq, s)) == Elements(s)
  {
    LeqIsOrder();
    Sorting.SortSorts(Leq, s);
    var r := Sorting.Sort(Leq, s);
    Sorting.SameElements(s, r);
    forall i, j | 0 <= i < j < |r| ensures Less(r[i], r[j]) {
      assert Leq(r[i], r[j]) && r[i] != r[j];
    }
  }

  lemma {:induction false} KeysGrow(signals: seq<Option<string>>, more: Option<string>)
    ensures Keys(signals + [more]) == Keys(signals) + Key(more)
  {
    if signals == [] {
      assert [more][1..] == [];
      assert Keys([more]) == Key(more) + Keys([]);
    } else {
      assert (signals + [more])[1..] == signals[1..] + [more];
      KeysGrow(signals[1..], more);
      var a, b, c := Key(signals[0]), Keys(signals[1..]), Key(more);
      assert a + (b + c) == a + b + c;
    }
  }

  lemma AddElement(s: seq<string>, t: seq<string>, k: string)
    requires Elements(s) == Elements(t)
    ensures Elements(t + [k]) == Elements(s) + {k}
    ensures k in s ==> Elements(t + [k]) == Elements(s)
    ensures Sorting.Distinct(s) && k !in s ==> Sorting.Distinct(s + [k])
    ensures Elements(s + [k]) == Elements(s) + {k}
  {
  }

  /** Duplicates are dropped as they come, then the list is sorted. */
  method NormalizeSignals(signals: seq<Option<string>>) returns (out: seq<string>)
    ensures out == Normalized(signals)
  {
    var seen: set<string> := {};
    out := [];
    for i := 0 to |signals|
      invariant seen == Elements(out) == Elements(Keys(signals[..i]))
      invariant Sorting.Distinct(out)
    {
      assert signals[..i + 1] == signals[..i] + [signals[i]];
      KeysGrow(signals[..i], signals[i]);
      var key := Key(signals[i]);
      if key == [] {
        continue;
      }
      var k := key[0];
      AddElement(out, Keys(signals[..i]), k);
      if k !in seen {
        seen := seen + {k};
        out := out + [k];
      }
    }
    assert signals[..|signals|] == signals;
    SortAscends(out);
    out := Sorting.Sort(Leq, out);
    CanonHolds(Keys(signals));
    AscendingUnique(out, Normalized(signals));
  }
}
