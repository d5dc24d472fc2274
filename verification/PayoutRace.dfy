/**
 Several payouts drawn from one escrow account at the same time.  The escrow
 check comes before the Stripe transfer and reserves nothing, so money can leave
 for payouts that the ledger then refuses to book.
 */
module PayoutRace {
  import opened Wrappers
  import opened Ledger
  import opened Payouts
  import opened PayoutBooking

  /** Short: refused by the escrow check; Dropped: refused by Stripe; Stranded: money sent, release refused. */
  datatype Phase = Waiting | Checked | Sent | Booked | Short | Dropped | Stranded

  datatype Job = Job(terms: Terms, phase: Phase)

  datatype State = State(ledger: Tables, nextTx: nat, jobs: seq<Job>)

  datatype Action = Check(j: nat) | Send(j: nat, ok: bool) | Book(j: nat)

  predicate Enabled(s: State, a: Action) {
    a.j < |s.jobs| && match a
      case Check(j) => s.jobs[j].phase.Waiting?
      case Send(j, _) => s.jobs[j].phase.Checked?
      case Book(j) => s.jobs[j].phase.Sent?
  }

  function Goto(s: State, j: nat, phase: Phase): State
    requires j < |s.jobs|
  {
    s.(jobs := s.jobs[j := s.jobs[j].(phase := phase)])
  }

  function Step(s: State, a: Action): State
    requires Enabled(s, a)
  {
    var p := s.jobs[a.j].terms;
    match a
    case Check(j) => Goto(s, j, if Balance(s.ledger.rows, p.escrow) < p.amount then Short else Checked)
    case Send(j, ok) => Goto(s, j, if ok then Sent else Dropped)
    case Book(j) =>
      match AtomicRelease(s.ledger, p, s.nextTx)
      case Err(_) => Goto(s, j, Stranded)
      case Ok(l) => Goto(s, j, Booked).(ledger := l, nextTx := s.nextTx + 1)
  }

  predicate Feasible(s: State, acts: seq<Action>)
    decreases |acts|
  {
    acts == [] || (Enabled(s, acts[0]) && Feasible(Step(s, acts[0]), acts[1..]))
  }

  function Exec(s: State, acts: seq<Action>): State
    requires Feasible(s, acts)
    decreases |acts|
  {
    if acts == [] then s else Exec(Step(s, acts[0]), acts[1..])
  }

  /** The split adds up, the accounts exist and are not the escrow account, which may not go negative. */
  predicate Sound(l: Tables, p: Terms, escrow: int) {
    && p.escrow == escrow && p.seller != escrow && p.platform != escrow
    && TermsError(p).None? && TermsAccountsExist(l, p) && !l.accounts[escrow]
  }

  predicate AllSound(s: State, escrow: int) {
    forall j :: 0 <= j < |s.jobs| ==> Sound(s.ledger, s.jobs[j].terms, escrow)
  }

  /** Booking succeeds exactly when escrow still covers the amount, and takes exactly that. */
  lemma BookIff(s: State, j: nat, escrow: int)
    requires j < |s.jobs| && s.jobs[j].phase.Sent? && Sound(s.ledger, s.jobs[j].terms, escrow)
    ensures var s' := Step(s, Book(j)); var amount := s.jobs[j].terms.amount;
      var e := Balance(s.ledger.rows, escrow);
      && s'.jobs == s.jobs[j := s.jobs[j].(phase := if e >= amount then Booked else Stranded)]
      && s'.ledger.accounts == s.ledger.accounts
      && Balance(s'.ledger.rows, escrow) == if e >= amount then e - amount else e
  {
    var p := s.jobs[j].terms;
    ReleaseAnswer(s.ledger, p, s.nextTx);
    TotalAppend(OfAccount(escrow), s.ledger.rows, Post(s.nextTx, ReleaseEntries(p)));
    ReleasePosts(p, s.nextTx, escrow);
  }

  // ---- Sums over the payouts ----

  function Total(jobs: seq<Job>, weight: Job -> int): int {
    if jobs == [] then 0 else weight(jobs[0]) + Total(jobs[1..], weight)
  }

  lemma {:induction false} TotalUpdate(jobs: seq<Job>, j: nat, k: Job, weight: Job -> int)
    requires j < |jobs|
    ensures Total(jobs[j := k], weight) == Total(jobs, weight) - weight(jobs[j]) + weight(k)
  {
    if j == 0 {
      assert jobs[0 := k][1..] == jobs[1..];
    } else {
      assert jobs[j := k][1..] == jobs[1..][j - 1 := k];
      TotalUpdate(jobs[1..], j - 1, k, weight);
    }
  }

  lemma {:induction false} TotalMonotone(jobs: seq<Job>, lower: Job -> int, upper: Job -> int)
    requires forall j :: 0 <= j < |jobs| ==> lower(jobs[j]) <= upper(jobs[j])
    ensures Total(jobs, lower) <= Total(jobs, upper)
  {
    if jobs != [] {
      assert forall j :: 0 <= j < |jobs[1..]| ==> jobs[1..][j] == jobs[j + 1];
      TotalMonotone(jobs[1..], lower, upper);
    }
  }

  /** One place may exceed the bound by as much as another function is larger there. */
  lemma {:induction false} TotalMonotoneAt(jobs: seq<Job>, lower: Job -> int, upper: Job -> int, j: nat)
    requires j < |jobs| && forall i :: 0 <= i < |jobs| ==> lower(jobs[i]) <= upper(jobs[i])
    ensures Total(jobs, lower) + (upper(jobs[j]) - lower(jobs[j])) <= Total(jobs, upper)
    decreases |jobs|
  {
    assert forall i :: 0 <= i < |jobs[1..]| ==> jobs[1..][i] == jobs[i + 1];
    if j == 0 {
      TotalMonotone(jobs[1..], lower, upper);
    } else {
      TotalMonotoneAt(jobs[1..], lower, upper, j - 1);
    }
  }

  function BookedAmount(k: Job): int {
    if k.phase.Booked? then k.terms.amount else 0
  }

  function SentAmount(k: Job): int {
    if k.phase.Sent? then k.terms.amount else 0
  }

  function IsSent(k: Job): int {
    if k.phase.Sent? then 1 else 0
  }

  /** What the payouts that each fit into a balance add up to. */
  function FittingAmount(balance: int, k: Job): int {
    if k.terms.amount <= balance then k.terms.amount else 0
  }

  function Fitting(jobs: seq<Job>, balance: int): int {
    Total(jobs, k => FittingAmount(balance, k))
  }

  // ---- What a stranded payout implies ----

  predicate Passed(k: Job) {
    k.phase.Checked? || k.phase.Sent? || k.phase.Booked?
  }

  /** Escrow has paid out exactly the booked amounts, and only payouts that fit were let past the check. */
  predicate Accounted(s: State, escrow: int, opening: int) {
    && AllSound(s, escrow)
    && 0 <= Balance(s.ledger.rows, escrow) == opening - Total(s.jobs, BookedAmount)
    && (forall j :: 0 <= j < |s.jobs| && Passed(s.jobs[j]) ==> s.jobs[j].terms.amount <= opening)
    && (forall j :: 0 <= j < |s.jobs| && s.jobs[j].phase.Stranded? ==> Fitting(s.jobs, opening) > opening)
  }

  lemma SoundAmounts(s: State, escrow: int)
    requires AllSound(s, escrow)
    ensures forall j :: 0 <= j < |s.jobs| ==> s.jobs[j].terms.amount >= 0
  {
    forall j | 0 <= j < |s.jobs| ensures s.jobs[j].terms.amount >= 0 {
      assert Sound(s.ledger, s.jobs[j].terms, escrow);
    }
  }

  /** A change of phase leaves what fits as it was. */
  lemma FittingKept(jobs: seq<Job>, j: nat, phase: Phase, balance: int)
    requires j < |jobs|
    ensures Fitting(jobs[j := jobs[j].(phase := phase)], balance) == Fitting(jobs, balance)
  {
    TotalUpdate(jobs, j, jobs[j].(phase := phase), k => FittingAmount(balance, k));
  }

  /** A payout sent but no longer covered: with what is booked it exceeds the opening balance, and all of it fitted. */
  lemma StrandedExceeds(s: State, escrow: int, opening: int, j: nat)
    requires Accounted(s, escrow, opening) && j < |s.jobs| && s.jobs[j].phase.Sent?
    requires Balance(s.ledger.rows, escrow) < s.jobs[j].terms.amount
    ensures Fitting(s.jobs, opening) > opening
  {
    SoundAmounts(s, escrow);
    var fits := k => FittingAmount(opening, k);
    TotalMonotoneAt(s.jobs, BookedAmount, fits, j);
  }

  lemma KeepAccounted(s: State, a: Action, escrow: int, opening: int)
    requires Accounted(s, escrow, opening) && Enabled(s, a)
    ensures Accounted(Step(s, a), escrow, opening)
  {
    SoundAmounts(s, escrow);
    assert Sound(s.ledger, s.jobs[a.j].terms, escrow);
    if a.Book? {
      BookIff(s, a.j, escrow);
      if Balance(s.ledger.rows, escrow) < s.jobs[a.j].terms.amount {
        StrandedExceeds(s, escrow, opening, a.j);
      }
    } else {
      KeepLight(s, a, escrow, opening);
    }
    var k := Step(s, a).jobs[a.j];
    TotalUpdate(s.jobs, a.j, k, BookedAmount);
    FittingKept(s.jobs, a.j, k.phase, opening);
  }

  /** The check and the transfer move no money in the ledger. */
  lemma KeepLight(s: State, a: Action, escrow: int, opening: int)
    requires Accounted(s, escrow, opening) && Enabled(s, a) && !a.Book?
    ensures var s' := Step(s, a);
      && s'.ledger == s.ledger && s'.jobs == s.jobs[a.j := s.jobs[a.j].(phase := s'.jobs[a.j].phase)]
      && !s'.jobs[a.j].phase.Booked? && !s'.jobs[a.j].phase.Stranded?
      && (Passed(s'.jobs[a.j]) ==> s.jobs[a.j].terms.amount <= opening)
  {
    TotalMonotoneZero(s, escrow);
    assert Sound(s.ledger, s.jobs[a.j].terms, escrow);
  }

  lemma TotalMonotoneZero(s: State, escrow: int)
    requires AllSound(s, escrow)
    ensures Total(s.jobs, BookedAmount) >= 0
  {
    SoundAmounts(s, escrow);
    TotalMonotone(s.jobs, k => 0, BookedAmount);
    TotalZero(s.jobs);
  }

  lemma {:induction false} TotalZero(jobs: seq<Job>)
    ensures Total(jobs, k => 0) == 0
  {
    if jobs != [] {
      TotalZero(jobs[1..]);
    }
  }

  lemma {:induction false} KeepAccountedAll(s: State, acts: seq<Action>, escrow: int, opening: int)
    requires Accounted(s, escrow, opening) && Feasible(s, acts)
    ensures Accounted(Exec(s, acts), escrow, opening)
    decreases |acts|
  {
    if acts != [] {
      KeepAccounted(s, acts[0], escrow, opening);
      KeepAccountedAll(Step(s, acts[0]), acts[1..], escrow, opening);
    }
  }

  // ---- A run that strands one ----

  lemma Take(s: State, a: Action, rest: seq<Action>)
    requires Enabled(s, a) && Feasible(Step(s, a), rest)
    ensures Feasible(s, [a] + rest) && Exec(s, [a] + rest) == Exec(Step(s, a), rest)
  {
    assert ([a] + rest)[1..] == rest;
  }

  lemma {:induction false} Chain(s: State, a: seq<Action>, b: seq<Action>)
    requires Feasible(s, a) && Feasible(Exec(s, a), b)
    ensures Feasible(s, a + b) && Exec(s, a + b) == Exec(Exec(s, a), b)
    decreases |a|
  {
    if a == [] {
      assert a + b == b;
    } else {
      assert (a + b)[1..] == a[1..] + b;
      Chain(Step(s, a[0]), a[1..], b);
    }
  }

  predicate Stranding(s: State) {
    exists j :: 0 <= j < |s.jobs| && s.jobs[j].phase.Stranded?
  }

  /** Some interleaving of the payouts strands one of them. */
  predicate Strands(s: State, acts: seq<Action>) {
    Feasible(s, acts) && Stranding(Exec(s, acts))
  }

  /** The phase in which sending everything that fits leaves a payout. */
  function SentIfFits(k: Job, balance: int): Job {
    k.(phase := if k.terms.amount <= balance then Sent else Short)
  }

  /** Every payout from j on is checked, and sent if it fits. */
  lemma {:induction false} SendAll(s: State, escrow: int, j: nat) returns (acts: seq<Action>)
    requires AllSound(s, escrow) && j <= |s.jobs|
    requires forall i :: j <= i < |s.jobs| ==> s.jobs[i].phase.Waiting?
    ensures Feasible(s, acts)
    ensures var z := Exec(s, acts);
      && z.ledger == s.ledger && |z.jobs| == |s.jobs|
      && (forall i :: 0 <= i < j ==> z.jobs[i] == s.jobs[i])
      && (forall i :: j <= i < |s.jobs| ==> z.jobs[i] == SentIfFits(s.jobs[i], Balance(s.ledger.rows, escrow)))
    decreases |s.jobs| - j
  {
    if j == |s.jobs| {
      acts := [];
    } else {
      assert Sound(s.ledger, s.jobs[j].terms, escrow);
      var first := SendOne(s, escrow, j);
      var z := Exec(s, first);
      var rest := SendAll(z, escrow, j + 1);
      Chain(s, first, rest);
      acts := first + rest;
    }
  }

  lemma SendOne(s: State, escrow: int, j: nat) returns (acts: seq<Action>)
    requires j < |s.jobs| && s.jobs[j].phase.Waiting? && s.jobs[j].terms.escrow == escrow
    ensures Feasible(s, acts)
    ensures Exec(s, acts) == s.(jobs := s.jobs[j := SentIfFits(s.jobs[j], Balance(s.ledger.rows, escrow))])
  {
    var s1 := Step(s, Check(j));
    assert Exec(s1, []) == s1;
    if s1.jobs[j].phase.Short? {
      Take(s, Check(j), []);
      acts := [Check(j)] + [];
    } else {
      var s2 := Step(s1, Send(j, true));
      assert s2.jobs == s.jobs[j := s.jobs[j].(phase := Sent)];
      assert Exec(s2, []) == s2;
      Take(s1, Send(j, true), []);
      Take(s, Check(j), [Send(j, true)] + []);
      acts := [Check(j)] + ([Send(j, true)] + []);
    }
  }

  lemma {:induction false} SomeSent(jobs: seq<Job>) returns (j: nat)
    requires Total(jobs, SentAmount) > 0
    ensures j < |jobs| && jobs[j].phase.Sent?
  {
    if jobs[0].phase.Sent? {
      j := 0;
    } else {
      var i := SomeSent(jobs[1..]);
      j := i + 1;
    }
  }

  lemma {:induction false} SentCount(jobs: seq<Job>)
    ensures Total(jobs, IsSent) >= 0
  {
    if jobs != [] {
      SentCount(jobs[1..]);
    }
  }

  lemma CountDown(jobs: seq<Job>, j: nat, phase: Phase)
    requires j < |jobs| && jobs[j].phase.Sent? && !phase.Sent?
    ensures Total(jobs[j := jobs[j].(phase := phase)], IsSent) == Total(jobs, IsSent) - 1 >= 0
    ensures Total(jobs[j := jobs[j].(phase := phase)], SentAmount) == Total(jobs, SentAmount) - jobs[j].terms.amount
  {
    TotalUpdate(jobs, j, jobs[j].(phase := phase), IsSent);
    TotalUpdate(jobs, j, jobs[j].(phase := phase), SentAmount);
    SentCount(jobs[j := jobs[j].(phase := phase)]);
  }

  /** While more is sent than escrow holds, booking on strands somebody. */
  lemma {:induction false} BookUntilStranded(s: State, escrow: int) returns (acts: seq<Action>)
    requires AllSound(s, escrow) && Total(s.jobs, SentAmount) > Balance(s.ledger.rows, escrow) >= 0
    ensures Strands(s, acts)
    decreases Total(s.jobs, IsSent)
  {
    var j := SomeSent(s.jobs);
    assert Sound(s.ledger, s.jobs[j].terms, escrow);
    BookIff(s, j, escrow);
    var s' := Step(s, Book(j));
    CountDown(s.jobs, j, s'.jobs[j].phase);
    if s'.jobs[j].phase.Stranded? {
      assert Exec(s', []) == s';
      Take(s, Book(j), []);
      acts := [Book(j)] + [];
    } else {
      assert AllSound(s', escrow) by {
        forall i | 0 <= i < |s'.jobs| ensures Sound(s'.ledger, s'.jobs[i].terms, escrow) {
          assert Sound(s.ledger, s.jobs[i].terms, escrow);
        }
      }
      SentCount(s.jobs);
      var rest := BookUntilStranded(s', escrow);
      Take(s, Book(j), rest);
      acts := [Book(j)] + rest;
    }
  }

  lemma {:induction false} SentIsFitting(before: seq<Job>, after: seq<Job>, balance: int)
    requires |before| == |after|
    requires forall i :: 0 <= i < |before| ==> after[i] == SentIfFits(before[i], balance)
    ensures Total(after, SentAmount) == Fitting(before, balance)
  {
    if before != [] {
      assert forall i :: 0 <= i < |before[1..]| ==> after[1..][i] == SentIfFits(before[1..][i], balance);
      SentIsFitting(before[1..], after[1..], balance);
    }
  }

  lemma StrandsOne(s: State, escrow: int) returns (acts: seq<Action>)
    requires AllSound(s, escrow) && forall j :: 0 <= j < |s.jobs| ==> s.jobs[j].phase.Waiting?
    requires Fitting(s.jobs, Balance(s.ledger.rows, escrow)) > Balance(s.ledger.rows, escrow) >= 0
    ensures Strands(s, acts)
  {
    var send := SendAll(s, escrow, 0);
    var z := Exec(s, send);
    SentIsFitting(s.jobs, z.jobs, Balance(s.ledger.rows, escrow));
    assert AllSound(z, escrow) by {
      forall i | 0 <= i < |z.jobs| ensures Sound(z.ledger, z.jobs[i].terms, escrow) {
        assert Sound(s.ledger, s.jobs[i].terms, escrow);
      }
    }
    var book := BookUntilStranded(z, escrow);
    Chain(s, send, book);
    acts := send + book;
  }

  lemma {:induction false} NothingBooked(jobs: seq<Job>)
    requires forall j :: 0 <= j < |jobs| ==> jobs[j].phase.Waiting?
    ensures Total(jobs, BookedAmount) == 0
  {
    if jobs != [] {
      assert forall j :: 0 <= j < |jobs[1..]| ==> jobs[1..][j] == jobs[j + 1];
      NothingBooked(jobs[1..]);
    }
  }

  // ---- The race ----

  /**
   Any number of payouts, none begun: some interleaving sends money that the
   ledger then refuses to book exactly when the payouts that each fit into the
   escrow balance add up to more than it.
   */
  lemma StrandedIff(s: State, escrow: int)
    requires AllSound(s, escrow) && Balance(s.ledger.rows, escrow) >= 0
    requires forall j :: 0 <= j < |s.jobs| ==> s.jobs[j].phase.Waiting?
    ensures (exists acts :: Strands(s, acts)) <==>
            Fitting(s.jobs, Balance(s.ledger.rows, escrow)) > Balance(s.ledger.rows, escrow)
  {
    var opening := Balance(s.ledger.rows, escrow);
    if Fitting(s.jobs, opening) > opening {
      var acts := StrandsOne(s, escrow);
    }
    if acts :| Strands(s, acts) {
      NothingBooked(s.jobs);
      KeepAccountedAll(s, acts, escrow, opening);
      FittingOverRun(s, acts, opening);
    }
  }

  lemma {:induction false} FittingOverRun(s: State, acts: seq<Action>, balance: int)
    requires Feasible(s, acts)
    ensures Fitting(Exec(s, acts).jobs, balance) == Fitting(s.jobs, balance)
    decreases |acts|
  {
    if acts != [] {
      var s' := Step(s, acts[0]);
      assert s'.jobs == s.jobs[acts[0].j := s.jobs[acts[0].j].(phase := s'.jobs[acts[0].j].phase)];
      FittingKept(s.jobs, acts[0].j, s'.jobs[acts[0].j].phase, balance);
      FittingOverRun(s', acts[1..], balance);
    }
  }

  /** Of two payouts x and y, each covered by escrow, one can be stranded exactly when escrow does not cover both. */
  lemma RaceIff(s: State, escrow: int)
    requires |s.jobs| == 2 && AllSound(s, escrow) && Balance(s.ledger.rows, escrow) >= 0
    requires forall j :: 0 <= j < 2 ==>
      s.jobs[j].phase.Waiting? && s.jobs[j].terms.amount <= Balance(s.ledger.rows, escrow)
    ensures (exists acts :: Strands(s, acts)) <==>
            s.jobs[0].terms.amount + s.jobs[1].terms.amount > Balance(s.ledger.rows, escrow)
  {
    StrandedIff(s, escrow);
    assert s.jobs == [s.jobs[0], s.jobs[1]];
    TwoAdd(s.jobs[0], s.jobs[1], Balance(s.ledger.rows, escrow));
  }

  lemma TwoAdd(x: Job, y: Job, balance: int)
    ensures Fitting([x, y], balance) == FittingAmount(balance, x) + FittingAmount(balance, y)
  {
    var fits := k => FittingAmount(balance, k);
    assert [x, y][1..] == [y] && [y][1..] == [];
    assert Total([y], fits) == fits(y) + Total([], fits);
    assert Total([x, y], fits) == fits(x) + Total([y], fits);
  }

  // ---- Without overlap nothing is stranded ----

  predicate UnderWay(k: Job) {
    k.phase.Checked? || k.phase.Sent?
  }

  predicate NoneUnderWay(s: State) {
    forall j :: 0 <= j < |s.jobs| ==> !UnderWay(s.jobs[j])
  }

  /** No payout is checked while another is between its check and its booking. */
  predicate OneAtATime(s: State, acts: seq<Action>)
    requires Feasible(s, acts)
    decreases |acts|
  {
    acts == [] || ((acts[0].Check? ==> NoneUnderWay(s)) && OneAtATime(Step(s, acts[0]), acts[1..]))
  }

  predicate Covered(s: State, escrow: int) {
    && (forall j :: 0 <= j < |s.jobs| ==> !s.jobs[j].phase.Stranded?)
    && (forall j :: 0 <= j < |s.jobs| && UnderWay(s.jobs[j]) ==>
          s.jobs[j].terms.amount <= Balance(s.ledger.rows, escrow))
    && (forall i, j :: 0 <= i < |s.jobs| && 0 <= j < |s.jobs| && i != j ==>
          !(UnderWay(s.jobs[i]) && UnderWay(s.jobs[j])))
  }

  lemma KeepCovered(s: State, a: Action, escrow: int)
    requires AllSound(s, escrow) && Covered(s, escrow) && Enabled(s, a) && (a.Check? ==> NoneUnderWay(s))
    ensures AllSound(Step(s, a), escrow) && Covered(Step(s, a), escrow)
  {
    assert Sound(s.ledger, s.jobs[a.j].terms, escrow);
    if a.Book? {
      assert UnderWay(s.jobs[a.j]);
      BookIff(s, a.j, escrow);
    }
  }

  /**
   When payouts go one at a time, no money leaves that the ledger then refuses, over
   any run of any number of them.
   */
  lemma {:induction false} NothingStranded(s: State, acts: seq<Action>, escrow: int, j: nat)
    requires AllSound(s, escrow) && Covered(s, escrow) && Feasible(s, acts) && OneAtATime(s, acts)
    requires j < |Exec(s, acts).jobs|
    ensures !Exec(s, acts).jobs[j].phase.Stranded?
    decreases |acts|
  {
    if acts != [] {
      KeepCovered(s, acts[0], escrow);
      NothingStranded(Step(s, acts[0]), acts[1..], escrow, j);
    }
  }
}
