/** The key that identifies one logical investigation, up to its hash (taken as injective). */
module RunKey {
  import opened Wrappers

  datatype Trigger = BLOCK | REVIEW | MANUAL

  function TriggerText(t: Trigger): string {
    match t
    case BLOCK => "BLOCK"
    case REVIEW => "REVIEW"
    case MANUAL => "MANUAL"
  }

  function Digit(d: nat): char
    requires d < 10
  {
    "0123456789"[d]
  }

  function Digits(n: nat): (s: string)
    ensures |s| > 0 && forall i :: 0 <= i < |s| ==> s[i] != ':' && s[i] != '-'
  {
    if n < 10 then [Digit(n)] else Digits(n / 10) + [Digit(n % 10)]
  }

  function Decimal(n: int): string {
    if n < 0 then "-" + Digits(-n) else Digits(n)
  }

  /** An empty idempotency key counts as none; without one the trigger stands in. */
  function Discriminator(trigger: Trigger, idem: Option<string>): string {
    if idem.Some? && idem.value != "" then idem.value else TriggerText(trigger)
  }

  function Basis(tx: int, trigger: Trigger, idem: Option<string>): string {
    Decimal(tx) + ":" + Discriminator(trigger, idem)
  }

  lemma {:induction false} DigitsInjective(m: nat, n: nat)
    requires Digits(m) == Digits(n)
    ensures m == n
  {
    var s := Digits(m);
    assert s[|s| - 1] == Digit(m % 10) && s[|s| - 1] == Digit(n % 10);
    assert m < 10 <==> |s| == 1;
    assert n < 10 <==> |s| == 1;
    if m >= 10 {
      assert s[..|s| - 1] == Digits(m / 10) && s[..|s| - 1] == Digits(n / 10);
      DigitsInjective(m / 10, n / 10);
    }
  }

  lemma DecimalInjective(m: int, n: int)
    requires Decimal(m) == Decimal(n)
    ensures m == n
  {
    assert Decimal(m)[0] == Decimal(n)[0];
    assert m < 0 <==> Decimal(m)[0] == '-';
    assert n < 0 <==> Decimal(n)[0] == '-';
    if m < 0 {
      assert Decimal(m)[1..] == Digits(-m) && Decimal(n)[1..] == Digits(-n);
      DigitsInjective(-m, -n);
    } else {
      DigitsInjective(m, n);
    }
  }

  lemma SplitAtColon(a: string, x: string, b: string, y: string)
    requires a + ":" + x == b + ":" + y
    requires (forall i :: 0 <= i < |a| ==> a[i] != ':') && (forall i :: 0 <= i < |b| ==> b[i] != ':')
    ensures a == b && x == y
  {
    var s, r := a + ":" + x, b + ":" + y;
    assert s[|a|] == ':' && r[|b|] == ':';
    assert forall i :: 0 <= i < |b| ==> r[i] == b[i];
    assert forall i :: 0 <= i < |a| ==> s[i] == a[i];
    assert |a| == |b|;
    assert s[..|a|] == a && r[..|b|] == b && s[|a| + 1..] == x && r[|b| + 1..] == y;
  }

  /**
   Two requests share a run exactly when they name the same transaction and the
   same discriminator; so an explicit key spelled like a trigger joins the
   keyless runs of that trigger.
   */
  lemma SameRunIff(tx1: int, tr1: Trigger, id1: Option<string>, tx2: int, tr2: Trigger, id2: Option<string>)
    ensures Basis(tx1, tr1, id1) == Basis(tx2, tr2, id2) <==>
        tx1 == tx2 && Discriminator(tr1, id1) == Discriminator(tr2, id2)
  {
    if Basis(tx1, tr1, id1) == Basis(tx2, tr2, id2) {
      SplitAtColon(Decimal(tx1), Discriminator(tr1, id1), Decimal(tx2), Discriminator(tr2, id2));
      DecimalInjective(tx1, tx2);
    }
  }

  /** The key in effect: the caller's when it is given and not empty. */
  predicate Keyed(idem: Option<string>, key: string) {
    idem.Some? && idem.value != "" && key == idem.value
  }

  lemma TriggersDiffer()
    ensures TriggerText(BLOCK) == "BLOCK" && TriggerText(REVIEW) == "REVIEW" && TriggerText(MANUAL) == "MANUAL"
    ensures TriggerText(BLOCK) != TriggerText(REVIEW)
    ensures TriggerText(BLOCK) != TriggerText(MANUAL)
    ensures TriggerText(REVIEW) != TriggerText(MANUAL)
  {
    assert TriggerText(BLOCK)[0] == 'B' && TriggerText(REVIEW)[0] == 'R' && TriggerText(MANUAL)[0] == 'M';
  }

  /**
   Case by case: two requests without a key share a run exactly for the same
   trigger, two with a key exactly for the same key, and one with a key joins one
   without exactly when the key spells the other's trigger.
   */
  lemma SameRunCases(tx: int, tr1: Trigger, id1: Option<string>, tr2: Trigger, id2: Option<string>, k1: string,
      k2: string)
    ensures var same := Basis(tx, tr1, id1) == Basis(tx, tr2, id2);
      && (!Keyed(id1, OrNone(id1)) && !Keyed(id2, OrNone(id2)) ==> (same <==> tr1 == tr2))
      && (Keyed(id1, k1) && Keyed(id2, k2) ==> (same <==> k1 == k2))
      && (Keyed(id1, k1) && !Keyed(id2, OrNone(id2)) ==>
            (same <==> k1 == (match tr2 case BLOCK => "BLOCK" case REVIEW => "REVIEW" case MANUAL => "MANUAL")))
  {
    SameRunIff(tx, tr1, id1, tx, tr2, id2);
    TriggersDiffer();
  }

  function OrNone(idem: Option<string>): string {
    if idem.Some? then idem.value else ""
  }
}
