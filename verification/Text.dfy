/** Strings as the Python code uses them, over ASCII: trimming, lower-casing, substring search, code-point order. */
module Text {
  predicate IsSpace(c: char) {
    c == ' ' || c == '\t' || c == '\n' || c == '\r' || c == '\U{0B}' || c == '\U{0C}' || '\U{1C}' <= c <= '\U{1F}'
  }

  function StripLeft(s: string): (r: string)
    ensures r == "" || !IsSpace(r[0])
    ensures |r| <= |s| && r == s[|s| - |r|..]
    ensures forall i :: 0 <= i < |s| - |r| ==> IsSpace(s[i])
  {
    if s == "" || !IsSpace(s[0]) then s else StripLeft(s[1..])
  }

  function StripRight(s: string): (r: string)
    ensures r == "" || !IsSpace(r[|r| - 1])
    ensures |r| <= |s| && r == s[..|r|]
    ensures forall i :: |r| <= i < |s| ==> IsSpace(s[i])
  {
    if s == "" || !IsSpace(s[|s| - 1]) then s else StripRight(s[..|s| - 1])
  }

  function Strip(s: string): string {
    StripRight(StripLeft(s))
  }

  /** No white space at either end. */
  predicate Trimmed(s: string) {
    s == "" || (!IsSpace(s[0]) && !IsSpace(s[|s| - 1]))
  }

  lemma StripTrims(s: string)
    ensures Trimmed(Strip(s))
  {
    var l := StripLeft(s);
    if Strip(s) != "" {
      assert Strip(s)[0] == l[0];
    }
  }

  lemma TrimmedIsStripped(s: string)
    requires Trimmed(s)
    ensures Strip(s) == s
  {
  }

  predicate AllSpace(s: string) {
    forall i :: 0 <= i < |s| ==> IsSpace(s[i])
  }

  lemma LeftRemoves(before: string, rest: string)
    requires AllSpace(before) && rest != "" && !IsSpace(rest[0])
    ensures StripLeft(before + rest) == rest
  {
    var t := before + rest;
    var l := StripLeft(t);
    assert t[|before|] == rest[0];
    assert forall i :: 0 <= i < |before| ==> t[i] == before[i];
    assert l[0] == t[|t| - |l|];
  }

  lemma RightRemoves(s: string, after: string)
    requires AllSpace(after) && s != "" && !IsSpace(s[|s| - 1])
    ensures StripRight(s + after) == s
  {
    var t := s + after;
    var r := StripRight(t);
    assert t[|s| - 1] == s[|s| - 1];
    assert forall i :: |s| <= i < |t| ==> t[i] == after[i - |s|];
    assert r[|r| - 1] == t[|r| - 1];
  }

  /** White space around a trimmed text is what Strip removes. */
  lemma StripRemoves(before: string, s: string, after: string)
    requires AllSpace(before) && AllSpace(after) && Trimmed(s) && s != ""
    ensures Strip(before + s + after) == s
  {
    assert before + s + after == before + (s + after);
    LeftRemoves(before, s + after);
    RightRemoves(s, after);
  }

  function LowerChar(c: char): char {
    if 'A' <= c <= 'Z' then (c as int + 32) as char else c
  }

  function Lower(s: string): (r: string)
    ensures |r| == |s| && forall i :: 0 <= i < |s| ==> r[i] == LowerChar(s[i])
  {
    seq(|s|, i requires 0 <= i < |s| => LowerChar(s[i]))
  }

  function UpperChar(c: char): char {
    if 'a' <= c <= 'z' then (c as int - 32) as char else c
  }

  function Upper(s: string): (r: string)
    ensures |r| == |s| && forall i :: 0 <= i < |s| ==> r[i] == UpperChar(s[i])
  {
    seq(|s|, i requires 0 <= i < |s| => UpperChar(s[i]))
  }

  /** str(s).replace(" ", "_") */
  function Underscored(s: string): (r: string)
    ensures |r| == |s| && forall i :: 0 <= i < |s| ==> r[i] == if s[i] == ' ' then '_' else s[i]
  {
    seq(|s|, i requires 0 <= i < |s| => if s[i] == ' ' then '_' else s[i])
  }

  /** str(s).strip().lower() */
  function Norm(s: string): string {
    Lower(Strip(s))
  }

  lemma LowerCharKeeps(c: char)
    ensures IsSpace(LowerChar(c)) <==> IsSpace(c)
    ensures LowerChar(LowerChar(c)) == LowerChar(c)
  {
  }

  lemma LowerKeeps(s: string)
    ensures Trimmed(Lower(s)) <==> Trimmed(s)
    ensures Lower(Lower(s)) == Lower(s)
  {
    forall i | 0 <= i < |s|
      ensures (IsSpace(Lower(s)[i]) <==> IsSpace(s[i])) && Lower(Lower(s))[i] == Lower(s)[i]
    {
      LowerCharKeeps(s[i]);
    }
  }

  lemma NormIdempotent(s: string)
    ensures Norm(Norm(s)) == Norm(s)
  {
    StripTrims(s);
    LowerKeeps(Strip(s));
    TrimmedIsStripped(Norm(s));
  }

  // ---- Code-point order ----

  predicate Leq(a: string, b: string) {
    a == "" || (b != "" && (a[0] < b[0] || (a[0] == b[0] && Leq(a[1..], b[1..]))))
  }

  predicate Less(a: string, b: string) {
    a != b && Leq(a, b)
  }

  lemma {:induction false} LeqReflexive(a: string)
    ensures Leq(a, a)
  {
    if a != "" {
      LeqReflexive(a[1..]);
    }
  }

  lemma {:induction false} LeqTotal(a: string, b: string)
    ensures Leq(a, b) || Leq(b, a)
  {
    if a != "" && b != "" {
      LeqTotal(a[1..], b[1..]);
    }
  }

  lemma {:induction false} LeqAntisymmetric(a: string, b: string)
    requires Leq(a, b) && Leq(b, a)
    ensures a == b
  {
    if a != "" {
      LeqAntisymmetric(a[1..], b[1..]);
      assert a == [a[0]] + a[1..] && b == [b[0]] + b[1..];
    }
  }

  lemma {:induction false} LeqTransitive(a: string, b: string, c: string)
    requires Leq(a, b) && Leq(b, c)
    ensures Leq(a, c)
  {
    if a != "" && a[0] == b[0] == c[0] {
      LeqTransitive(a[1..], b[1..], c[1..]);
    }
  }

  /** Code-point order: a proper prefix comes first, and otherwise the first difference decides. */
  lemma {:induction false} LessIs(a: string, b: string)
    ensures Less(a, b) <==>
      (|a| < |b| && a == b[..|a|]) || exists k :: DiffersAt(a, b, k) && a[k] < b[k]
  {
    if a != "" && b != "" {
      LessIs(a[1..], b[1..]);
      assert a == [a[0]] + a[1..] && b == [b[0]] + b[1..];
      if a[0] == b[0] {
        DifferLater(a, b);
      } else {
        assert DiffersAt(a, b, 0);
        assert forall k :: DiffersAt(a, b, k) ==> k == 0;
      }
    }
  }

  /** k is the first place at which the two differ. */
  predicate DiffersAt(a: string, b: string, k: int) {
    0 <= k < |a| && k < |b| && a[..k] == b[..k] && a[k] != b[k]
  }

  lemma DifferLater(a: string, b: string)
    requires a != "" && b != "" && a[0] == b[0]
    ensures (exists k :: DiffersAt(a, b, k) && a[k] < b[k]) <==>
        exists k :: DiffersAt(a[1..], b[1..], k) && a[1..][k] < b[1..][k]
    ensures |a| < |b| && a == b[..|a|] <==> |a[1..]| < |b[1..]| && a[1..] == b[1..][..|a[1..]|]
  {
    if k :| DiffersAt(a, b, k) && a[k] < b[k] {
      assert k > 0;
      assert a[1..][..k - 1] == a[..k][1..] && b[1..][..k - 1] == b[..k][1..];
      assert DiffersAt(a[1..], b[1..], k - 1);
    }
    if k :| DiffersAt(a[1..], b[1..], k) && a[1..][k] < b[1..][k] {
      assert a[..k + 1] == [a[0]] + a[1..][..k] && b[..k + 1] == [b[0]] + b[1..][..k];
      assert DiffersAt(a, b, k + 1);
    }
    assert a == [a[0]] + a[1..] && b == [b[0]] + b[1..];
    if |a| < |b| {
      assert b[..|a|] == [b[0]] + b[1..][..|a| - 1];
    }
  }
}
