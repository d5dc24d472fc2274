/**
 Keyword search in a text joined from parts, when some parts are "none" on one
 side and empty on the other: what str(None) and `or ""` make of a null.
 */
module NullText {
  import opened Text

  predicate Occurs(word: string, text: string) {
    word <= text || (text != "" && Occurs(word, text[1..]))
  }

  predicate At(word: string, text: string, i: int) {
    0 <= i <= |text| - |word| && text[i..i + |word|] == word
  }

  lemma {:induction false} AtOccurs(word: string, text: string, i: int)
    requires At(word, text, i)
    ensures Occurs(word, text)
    decreases i
  {
    if i > 0 {
      assert text[1..][i - 1..i - 1 + |word|] == text[i..i + |word|];
      AtOccurs(word, text[1..], i - 1);
    }
  }

  lemma {:induction false} OccursAt(word: string, text: string) returns (i: int)
    requires Occurs(word, text)
    ensures At(word, text, i)
  {
    if word <= text {
      i := 0;
    } else {
      var k := OccursAt(word, text[1..]);
      i := k + 1;
      assert text[i..i + |word|] == text[1..][k..k + |word|];
    }
  }

  /** The parts joined by underscores. */
  function Joined(parts: seq<string>): string {
    if |parts| == 0 then "" else if |parts| == 1 then parts[0] else parts[0] + "_" + Joined(parts[1..])
  }

  function Before(parts: seq<string>): string {
    if parts == [] then "" else Joined(parts) + "_"
  }

  function After(parts: seq<string>): string {
    if parts == [] then "" else "_" + Joined(parts)
  }

  lemma JoinedCons(a: string, rest: seq<string>)
    requires rest != []
    ensures Joined([a] + rest) == a + "_" + Joined(rest)
  {
    assert ([a] + rest)[1..] == rest;
  }

  lemma BeforeCons(a: string, rest: seq<string>)
    ensures Before([a] + rest) == a + "_" + Before(rest)
  {
    if rest == [] {
      assert [a] + rest == [a];
    } else {
      JoinedCons(a, rest);
      var j := Joined(rest);
      assert a + "_" + j + "_" == a + "_" + (j + "_");
    }
  }

  lemma Regroup(a: string, b: string, m: string, c: string)
    ensures a + (b + m + c) == a + b + m + c
  {
  }

  lemma {:induction false} JoinedAround(xs: seq<string>, m: string, ys: seq<string>)
    ensures Joined(xs + [m] + ys) == Before(xs) + m + After(ys)
  {
    if xs == [] {
      assert xs + [m] + ys == [m] + ys;
      if ys == [] {
        assert [m] + ys == [m];
      } else {
        JoinedCons(m, ys);
        assert m + "_" + Joined(ys) == m + ("_" + Joined(ys));
      }
      assert "" + m + After(ys) == m + After(ys);
    } else {
      var a, rest := xs[0], xs[1..] + [m] + ys;
      assert xs + [m] + ys == [a] + rest;
      assert xs == [a] + xs[1..];
      JoinedCons(a, rest);
      JoinedAround(xs[1..], m, ys);
      BeforeCons(a, xs[1..]);
      Regroup(a + "_", Before(xs[1..]), m, After(ys));
    }
  }

  /** A word that "none" between underscores can neither be part of nor help to spell. */
  predicate NullProof(word: string) {
    && |word| >= 3 && word[0] != 'o' && word[0] != 'e'
    && (word[0] == 'n' ==> word[1] == 'e' && word[2] != '_')
    && forall i :: 0 <= i < |word| - 1 && word[i] == '_' ==> word[i + 1] != '_' && word[i + 1] != 'n'
  }

  predicate Fenced(before: string, after: string) {
    (before == "" || before[|before| - 1] == '_') && (after == "" || after[0] == '_')
  }

  function NONE(): (r: string)
    ensures |r| == 4 && r[0] == 'n' && r[1] == 'o' && r[2] == 'n' && r[3] == 'e'
  {
    "none"
  }

  /** An occurrence in the text with "none" misses it altogether. */
  lemma MissesNone(word: string, before: string, after: string, i: int)
    requires NullProof(word) && Fenced(before, after) && At(word, before + NONE() + after, i)
    ensures i + |word| <= |before| || i >= |before| + 4
  {
    var t := before + NONE() + after;
    var n := |before|;
    assert t[n] == 'n' && t[n + 1] == 'o' && t[n + 2] == 'n' && t[n + 3] == 'e';
    assert before != "" ==> t[n - 1] == '_';
    assert after != "" ==> t[n + 4] == '_';
    Letter(word, t, i, n - 1 - i);
    Letter(word, t, i, n - i);
    Letter(word, t, i, 0);
    Letter(word, t, i, 1);
    Letter(word, t, i, 2);
  }

  lemma Letter(word: string, text: string, i: int, j: int)
    requires At(word, text, i)
    ensures 0 <= j < |word| ==> word[j] == text[i + j]
  {
    assert 0 <= j < |word| ==> text[i..i + |word|][j] == text[i + j];
  }

  /** An occurrence in the text without it lies on one side. */
  lemma MissesGap(word: string, before: string, after: string, i: int)
    requires NullProof(word) && Fenced(before, after) && At(word, before + after, i)
    ensures i + |word| <= |before| || i >= |before|
  {
    var t := before + after;
    var n := |before|;
    assert before != "" ==> t[n - 1] == '_';
    assert after != "" ==> t[n] == '_';
    Letter(word, t, i, n - 1 - i);
    Letter(word, t, i, n - i);
  }

  lemma NoneOrNothing(word: string, before: string, after: string)
    requires NullProof(word) && Fenced(before, after)
    ensures Occurs(word, before + NONE() + after) <==> Occurs(word, before + after)
  {
    assert before + "" + after == before + after;
    if Occurs(word, before + NONE() + after) {
      var i := OccursAt(word, before + NONE() + after);
      MissesNone(word, before, after, i);
      var j := MovedMatch(word, before, NONE(), "", after, i);
      AtOccurs(word, before + "" + after, j);
    }
    if Occurs(word, before + after) {
      var i := OccursAt(word, before + after);
      MissesGap(word, before, after, i);
      var j := MovedMatch(word, before, "", NONE(), after, i);
      AtOccurs(word, before + NONE() + after, j);
    }
  }

  /** A match on one side of the middle is there for any other middle. */
  lemma MovedMatch(word: string, before: string, m: string, m': string, after: string, i: int) returns (j: int)
    requires At(word, before + m + after, i) && (i + |word| <= |before| || i >= |before| + |m|)
    ensures At(word, before + m' + after, j)
  {
    var s, t := before + m + after, before + m' + after;
    if i + |word| <= |before| {
      assert s[i..i + |word|] == before[i..i + |word|] == t[i..i + |word|];
      j := i;
    } else {
      var k := i - |before| - |m|;
      j := k + |before| + |m'|;
      assert s[i..i + |word|] == after[k..k + |word|] == t[j..j + |word|];
    }
  }

  /** The same parts, but for some that are "none" in one list and empty in the other. */
  predicate NullsApart(ps: seq<string>, qs: seq<string>) {
    |ps| == |qs| && forall i :: 0 <= i < |ps| ==> ps[i] == qs[i] || (ps[i] == NONE() && qs[i] == "")
  }

  lemma {:induction false} NullsDoNotMatter(word: string, start: seq<string>, ps: seq<string>, qs: seq<string>)
    requires NullProof(word) && NullsApart(ps, qs)
    ensures Occurs(word, Joined(start + ps)) <==> Occurs(word, Joined(start + qs))
    decreases |ps|
  {
    if ps == [] {
      assert start + ps == start + qs;
    } else {
      var p, q := ps[0], qs[0];
      assert start + ps == start + [p] + ps[1..] && start + qs == start + [q] + qs[1..];
      NullsDoNotMatter(word, start + [q], ps[1..], qs[1..]);
      if p != q {
        JoinedAround(start, p, ps[1..]);
        JoinedAround(start, q, ps[1..]);
        assert Before(start) + "" == Before(start);
        NoneOrNothing(word, Before(start), After(ps[1..]));
      }
    }
  }
}
