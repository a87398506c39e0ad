/** The inner loop as a function of its outcomes, and when it never stops (`benchmarking/scheduler.py`, `_do_loop`). */
module InnerLoop {
  import opened Prelude
  import opened RunState

  /** What becomes of one launched task, and what it leaves in its result file. */
  datatype Outcome =
    | Succeeds(doc: Option<Doc>)
    | Fails(doc: Option<Doc>)
    | TimesOut(doc: Option<Doc>)
    | Interrupted(doc: Option<Doc>)
    | Raises(doc: Option<Doc>)
    | RaisesAfter(doc: Option<Doc>) // exit 0 and saved, then an exception while the view is rebuilt

  predicate Failing(o: Outcome) {
    o.Fails? || o.TimesOut?
  }

  ghost predicate GoodAfter(outcomes: nat -> Outcome, n: nat) {
    exists m: nat :: m >= n && !Failing(outcomes(m))
  }

  /** Attempts never fail forever. */
  ghost predicate Fair(outcomes: nat -> Outcome) {
    forall n: nat :: GoodAfter(outcomes, n)
  }

  /** One turn of the loop, when the loop goes on after it. */
  function Turn(s: Saved, total: nat, exitFirst: bool, o: Outcome): Option<Saved> {
    match Pending(s, total)
    case None => None
    case Some(i) =>
      if o.Succeeds? then Some(WithCompleted(s, i))
      else if Failing(o) && !exitFirst then Some(WithFailed(s, i))
      else None
  }

  /** The state after `k` turns that all went on; the outcomes are consumed from position `n`. */
  function Turns(s: Saved, total: nat, exitFirst: bool, outcomes: nat -> Outcome, n: nat, k: nat): Option<Saved> {
    if k == 0 then Some(s)
    else
      match Turns(s, total, exitFirst, outcomes, n, k - 1)
      case None => None
      case Some(t) => Turn(t, total, exitFirst, outcomes(n + k - 1))
  }

  ghost predicate GoesOn(s: Saved, total: nat, exitFirst: bool, outcomes: nat -> Outcome, n: nat, k: nat) {
    Turns(s, total, exitFirst, outcomes, n, k).Some?
  }

  ghost predicate NeverStops(s: Saved, total: nat, exitFirst: bool, outcomes: nat -> Outcome, n: nat) {
    forall k: nat :: GoesOn(s, total, exitFirst, outcomes, n, k)
  }

  /** From some turn on something is pending and every attempt fails. */
  ghost predicate StuckFrom(s: Saved, total: nat, exitFirst: bool, outcomes: nat -> Outcome, n: nat, j: nat) {
    && Turns(s, total, exitFirst, outcomes, n, j).Some?
    && Pending(Turns(s, total, exitFirst, outcomes, n, j).value, total).Some?
    && forall m: nat :: m >= n + j ==> Failing(outcomes(m))
  }

  lemma {:induction false} EarlierTurnsWentOn(s: Saved, total: nat, exitFirst: bool, outcomes: nat -> Outcome, n: nat,
                                              a: nat, b: nat)
    requires a <= b && Turns(s, total, exitFirst, outcomes, n, b).Some?
    ensures Turns(s, total, exitFirst, outcomes, n, a).Some?
  {
    if a < b {
      EarlierTurnsWentOn(s, total, exitFirst, outcomes, n, a, b - 1);
    }
  }

  lemma TurnKeeps(s: Saved, total: nat, exitFirst: bool, o: Outcome)
    requires Sound(s, total) && Turn(s, total, exitFirst, o).Some?
    ensures var t := Turn(s, total, exitFirst, o).value;
      && Sound(t, total) && |t.completed| == |s.completed| + (if o.Succeeds? then 1 else 0)
      && (!o.Succeeds? ==> Pending(t, total).Some?)
  {
    var i := Pending(s, total).value;
    CompletedKeepsSound(s, i, total);
    FailedKeepsSound(s, i, total);
  }

  lemma {:induction false} TurnsKeep(s: Saved, total: nat, exitFirst: bool, outcomes: nat -> Outcome, n: nat, k: nat)
    requires Sound(s, total) && Turns(s, total, exitFirst, outcomes, n, k).Some?
    ensures Sound(Turns(s, total, exitFirst, outcomes, n, k).value, total)
  {
    if k > 0 {
      TurnsKeep(s, total, exitFirst, outcomes, n, k - 1);
      TurnKeeps(Turns(s, total, exitFirst, outcomes, n, k - 1).value, total, exitFirst, outcomes(n + k - 1));
    }
  }

  /** Tasks still to complete after `k` turns. */
  function Left(s: Saved, total: nat, exitFirst: bool, outcomes: nat -> Outcome, n: nat, k: nat): int {
    match Turns(s, total, exitFirst, outcomes, n, k)
    case None => 0
    case Some(t) => total - |t.completed|
  }

  lemma {:induction false} LeftShrinks(s: Saved, total: nat, exitFirst: bool, outcomes: nat -> Outcome, n: nat,
                                       a: nat, b: nat)
    requires Sound(s, total) && a <= b && Turns(s, total, exitFirst, outcomes, n, b).Some?
    ensures 0 <= Left(s, total, exitFirst, outcomes, n, b) <= Left(s, total, exitFirst, outcomes, n, a)
    ensures a < b && outcomes(n + b - 1).Succeeds? ==>
      Left(s, total, exitFirst, outcomes, n, b) < Left(s, total, exitFirst, outcomes, n, a)
    decreases b
  {
    TurnsKeep(s, total, exitFirst, outcomes, n, b);
    CompleteMeansTotal(Turns(s, total, exitFirst, outcomes, n, b).value, total);
    if a < b {
      LeftShrinks(s, total, exitFirst, outcomes, n, a, b - 1);
      TurnsKeep(s, total, exitFirst, outcomes, n, b - 1);
      TurnKeeps(Turns(s, total, exitFirst, outcomes, n, b - 1).value, total, exitFirst, outcomes(n + b - 1));
    }
  }

  function FailuresIn(outcomes: nat -> Outcome, n: nat, k: nat): nat {
    if k == 0 then 0 else FailuresIn(outcomes, n, k - 1) + if Failing(outcomes(n + k - 1)) then 1 else 0
  }

  /** Launches of turns that went on are tasks newly completed plus failures. */
  lemma {:induction false} LaunchesAreCompletionsPlusFailures(s: Saved, total: nat, exitFirst: bool,
                                                              outcomes: nat -> Outcome, n: nat, k: nat)
    requires Sound(s, total) && Turns(s, total, exitFirst, outcomes, n, k).Some?
    ensures var t := Turns(s, total, exitFirst, outcomes, n, k).value;
      k == (|t.completed| - |s.completed|) + FailuresIn(outcomes, n, k)
    ensures exitFirst ==> FailuresIn(outcomes, n, k) == 0
  {
    if k > 0 {
      LaunchesAreCompletionsPlusFailures(s, total, exitFirst, outcomes, n, k - 1);
      TurnsKeep(s, total, exitFirst, outcomes, n, k - 1);
      TurnKeeps(Turns(s, total, exitFirst, outcomes, n, k - 1).value, total, exitFirst, outcomes(n + k - 1));
    }
  }

  /** Nothing but failures ahead and a failure does not end the loop: it goes round forever. */
  lemma {:induction false} StuckGoesOn(s: Saved, total: nat, outcomes: nat -> Outcome, n: nat, j: nat, k: nat)
    requires Sound(s, total) && StuckFrom(s, total, false, outcomes, n, j)
    ensures Turns(s, total, false, outcomes, n, j + k).Some?
    ensures Pending(Turns(s, total, false, outcomes, n, j + k).value, total).Some?
  {
    if k > 0 {
      StuckGoesOn(s, total, outcomes, n, j, k - 1);
      TurnsKeep(s, total, false, outcomes, n, j + (k - 1));
      assert j + k - 1 == j + (k - 1) && Failing(outcomes(n + (j + k) - 1));
      TurnKeeps(Turns(s, total, false, outcomes, n, j + (k - 1)).value, total, false, outcomes(n + (j + k) - 1));
    }
  }

  /** A turn that went on ended in success or in a tolerated failure. */
  lemma WentOn(s: Saved, total: nat, exitFirst: bool, outcomes: nat -> Outcome, n: nat, k: nat)
    requires GoesOn(s, total, exitFirst, outcomes, n, k + 1)
    ensures Turns(s, total, exitFirst, outcomes, n, k + 1).Some? && Turns(s, total, exitFirst, outcomes, n, k).Some?
    ensures Pending(Turns(s, total, exitFirst, outcomes, n, k).value, total).Some?
    ensures outcomes(n + k).Succeeds? || (Failing(outcomes(n + k)) && !exitFirst)
  {
  }

  lemma AllFailIsStuck(s: Saved, total: nat, exitFirst: bool, outcomes: nat -> Outcome, n: nat, from: nat)
    requires GoesOn(s, total, exitFirst, outcomes, n, from + 1)
    requires forall m: nat :: m >= n + from ==> Failing(outcomes(m))
    ensures StuckFrom(s, total, exitFirst, outcomes, n, from) && !exitFirst
  {
    WentOn(s, total, exitFirst, outcomes, n, from);
    assert Failing(outcomes(n + from));
  }

  lemma NotFailingMakesProgress(s: Saved, total: nat, exitFirst: bool, outcomes: nat -> Outcome, n: nat, from: nat,
                                a: nat)
    requires Sound(s, total) && from <= a
    requires GoesOn(s, total, exitFirst, outcomes, n, a + 1) && !Failing(outcomes(n + a))
    ensures 0 <= Left(s, total, exitFirst, outcomes, n, a + 1) < Left(s, total, exitFirst, outcomes, n, from)
  {
    hide Turns, Turn, Left, GoesOn, Sound;
    WentOn(s, total, exitFirst, outcomes, n, a);
    assert n + (a + 1) - 1 == n + a;
    LeftShrinks(s, total, exitFirst, outcomes, n, from, a + 1);
  }

  lemma {:induction false} NonStopGetsStuck(s: Saved, total: nat, exitFirst: bool, outcomes: nat -> Outcome, n: nat,
                                            from: nat) returns (j: nat)
    requires Sound(s, total) && NeverStops(s, total, exitFirst, outcomes, n)
    ensures StuckFrom(s, total, exitFirst, outcomes, n, j) && !exitFirst
    decreases Left(s, total, exitFirst, outcomes, n, from)
  {
    if forall m: nat :: m >= n + from ==> Failing(outcomes(m)) {
      AllFailIsStuck(s, total, exitFirst, outcomes, n, from);
      j := from;
    } else {
      var m: nat :| m >= n + from && !Failing(outcomes(m));
      var a: nat := m - n;
      assert n + a == m;
      NotFailingMakesProgress(s, total, exitFirst, outcomes, n, from, a);
      j := NonStopGetsStuck(s, total, exitFirst, outcomes, n, a + 1);
    }
  }

  /**
   * The loop runs forever exactly when failures do not end it and, from some turn on, every attempt fails while a task
   * is pending.
   */
  lemma RunsForeverIffStuck(s: Saved, total: nat, exitFirst: bool, outcomes: nat -> Outcome, n: nat)
    requires Sound(s, total)
    ensures NeverStops(s, total, exitFirst, outcomes, n) <==>
      !exitFirst && exists j: nat :: StuckFrom(s, total, exitFirst, outcomes, n, j)
  {
    if NeverStops(s, total, exitFirst, outcomes, n) {
      var j := NonStopGetsStuck(s, total, exitFirst, outcomes, n, 0);
    }
    if !exitFirst && exists j: nat :: StuckFrom(s, total, exitFirst, outcomes, n, j) {
      var j: nat :| StuckFrom(s, total, exitFirst, outcomes, n, j);
      forall k: nat ensures GoesOn(s, total, exitFirst, outcomes, n, k) {
        if k <= j {
          EarlierTurnsWentOn(s, total, exitFirst, outcomes, n, k, j);
        } else {
          StuckGoesOn(s, total, outcomes, n, j, k - j);
        }
      }
    }
  }
}
