/** Progress of the worker pool: whatever has happened, main can get its job done. */
module PoolProgress {
  import opened WorkerPool

  /** How far main is from its return; the states in which it works a unit are told apart by `UnitsLeft`. */
  function MainRank(m: Main): nat {
    match m
    case AwaitPassed => 20
    case ResetPassed => 19
    case CloseWake => 18
    case ArriveMain => 17
    case WaitMain => 16
    case ClearLast => 15
    case CloseGate => 14
    case OpenWake => 13
    case Idle => 12
    case AwaitSite(_) => 11
    case SetLast(_) => 10
    case SetCount(_) => 9
    case ResetTake(_) => 8
    case ResetComplete(_) => 7
    case SetTask(_) => 6
    case OpenGate(_) => 5
    case MainTaking(_) => 4
    case MainRunning(_, _) => 4
    case MainFinished(_, _) => 4
    case ShutGate(_) => 3
    case AwaitComplete(_) => 2
  }

  /** Main's own steps until nothing is left to take. */
  function UnitsLeft(s: State): nat {
    var b := s.board;
    var open := if b.take < b.job.count then 3 * (b.job.count - b.take) else 0;
    if s.main.MainRunning? then open + 2 else if s.main.MainFinished? then open + 1 else open
  }

  /** The steps that a worker still has to make for what main waits for. */
  function Owes(m: Main, w: Worker): nat {
    match m
    case AwaitPassed => if w.Released? then 2 else if w.Passing? then 1 else 0
    case WaitMain => ToBarrier(w)
    case AwaitSite(_) => if w.Rechecking? then 2 else if w.Aborting? then 1 else ToLeave(w)
    case AwaitComplete(_) => if w.Running? then 2 else if w.Finished? then 1 else 0
    case _ => 0
  }

  /** The steps out of the job site with nothing left to take. */
  function ToLeave(w: Worker): nat {
    match w
    case ReadingLast => 5
    case ReadingCount(_) => 4
    case ReadingTask(_, _) => 3
    case Taking(_) => 2
    case Leaving(_) => 1
    case _ => 0
  }

  /** The steps to the barrier after the last job of a frame, whose gate is left open. */
  function ToBarrier(w: Worker): nat {
    match w
    case Waiting => 0
    case Arriving => 1
    case Looking => 9
    case Entering => 8
    case Rechecking => 7
    case Aborting => 10
    case _ => 1 + ToLeave(w)
  }

  function Owed(m: Main, ws: seq<Worker>): nat {
    if ws == [] then 0 else Owed(m, ws[..|ws| - 1]) + Owes(m, ws[|ws| - 1])
  }

  lemma {:induction false} OwedUpdate(m: Main, ws: seq<Worker>, i: nat, w: Worker)
    requires i < |ws|
    ensures Owed(m, ws[i := w]) + Owes(m, ws[i]) == Owed(m, ws) + Owes(m, w)
  {
    var n := |ws| - 1;
    if i == n {
      assert ws[i := w][..n] == ws[..n];
    } else {
      assert ws[i := w][..n] == ws[..n][i := w];
      OwedUpdate(m, ws[..n], i, w);
    }
  }

  /** Main waits for the others at `s`. */
  predicate Blocked(s: State) {
    || (s.main.AwaitPassed? && s.passed != |s.ws|) || s.main.WaitMain? || (s.main.AwaitSite? && s.site != 0)
    || (s.main.AwaitComplete? && s.board.complete < s.main.job.count)
  }

  /** A worker whose step main waits for owes less after it. */
  lemma WorkerOwesLess(s: State, i: nat)
    requires Handshake(s) && Live(s) && Quiet(s) && Blocked(s) && i < |s.ws| && CanMove(s, s.ws[i]) && !Releases(s, i)
    requires s.main.AwaitPassed? ==> NotPassed(s.ws[i])
    requires s.main.AwaitSite? ==> InSite(s.ws[i])
    requires s.main.AwaitComplete? ==> Holding(s.ws[i])
    ensures var t := WorkerStep(s, i);
      t.main == s.main && t.ws == s.ws[i := t.ws[i]] && Owes(s.main, t.ws[i]) < Owes(s.main, s.ws[i])
  {
    hide Count, Counters, Exclusive;
    CountBounds(s.ws, NotPassed);
    assert Agrees(s.board.job, s.ws[i]);
    assert s.main.WaitMain? ==> !NotPassed(s.ws[i]) by { RestingHasPassed(s, i); }
  }

  lemma RestingHasPassed(s: State, i: nat)
    requires Counters(s) && i < |s.ws|
    ensures s.main.WaitMain? ==> !NotPassed(s.ws[i])
  {
    CountBounds(s.ws, NotPassed);
  }

  /** Outside a published job every step of main that is not blocked brings it closer to its return. */
  lemma WakeComesCloser(s: State, last: bool, count: nat)
    requires !Published(s.main) && !Blocked(s)
    ensures var t := MainStep(s, last, count); t.jobs == s.jobs && MainRank(t.main) < MainRank(s.main)
  {
  }

  /** In a published job it works a unit, goes on to wait, or returns. */
  lemma WorkComesCloser(s: State)
    requires Published(s.main) && s.board.job == s.main.job && !Blocked(s)
    ensures var t := WorkStep(s);
      || |t.jobs| == |s.jobs| + 1
      || (t.jobs == s.jobs && (MainRank(t.main) < MainRank(s.main) ||
                               (MainRank(t.main) == MainRank(s.main) && UnitsLeft(t) < UnitsLeft(s))))
  {
  }

  /** Main moves on if it is not blocked, and comes closer to its return or returns. */
  lemma MainComesCloser(s: State, last: bool, count: nat)
    requires Handshake(s) && !Blocked(s)
    ensures var t := MainStep(s, last, count);
      || |t.jobs| == |s.jobs| + 1
      || (t.jobs == s.jobs && (MainRank(t.main) < MainRank(s.main) ||
                               (MainRank(t.main) == MainRank(s.main) && UnitsLeft(t) < UnitsLeft(s))))
  {
    hide Counters, Phases, Exclusive, Copied, WorkStep, WakeStep, WriteStep, MainRank, UnitsLeft, Blocked;
    if Published(s.main) {
      PublishedJob(s);
      WorkComesCloser(s);
    } else {
      WakeComesCloser(s, last, count);
    }
  }

  /** The states that moves lead to. */
  function Play(s: State, moves: seq<Move>): State {
    if moves == [] then s else Step(Play(s, moves[..|moves| - 1]), moves[|moves| - 1])
  }

  lemma {:induction false} PlayOn(s: State, m: Move, moves: seq<Move>)
    ensures Play(s, [m] + moves) == Play(Step(s, m), moves)
  {
    var all, n := [m] + moves, |moves|;
    if moves == [] {
      assert all == [m] && all[..0] == [];
      assert Play(s, []) == s;
    } else {
      assert all[..n] == [m] + moves[..n - 1];
      PlayOn(s, m, moves[..n - 1]);
    }
  }

  lemma {:induction false} PlayAfter(workers: nat, before: seq<Move>, moves: seq<Move>)
    ensures After(workers, before + moves) == Play(After(workers, before), moves)
  {
    if moves == [] {
      assert before + moves == before;
    } else {
      var all, n := before + moves, |moves| - 1;
      assert all[..|all| - 1] == before + moves[..n];
      PlayAfter(workers, before, moves[..n]);
    }
  }

  /** Main's moves, if it begins a call, begin it with these arguments. */
  predicate Calls(moves: seq<Move>, last: bool, count: nat) {
    forall k :: 0 <= k < |moves| && moves[k].ByMain? ==> moves[k] == ByMain(last, count)
  }

  /** Main goes first; where it is blocked, a worker that it waits for does. */
  lemma {:induction false} Returns(s: State, last: bool, count: nat) returns (moves: seq<Move>)
    requires Inv(s) && Live(s)
    ensures |Play(s, moves).jobs| == |s.jobs| + 1 && Calls(moves, last, count)
    decreases MainRank(s.main), UnitsLeft(s), Owed(s.main, s.ws)
  {
    hide Inv, Live, Step, MainStep, WorkerStep, Owed, UnitsLeft, MainRank;
    var m := NextMove(s, last, count);
    var t := Step(s, m);
    if |t.jobs| == |s.jobs| + 1 {
      moves := [m];
      PlayOn(s, m, []);
      assert [m] + [] == [m];
    } else {
      var rest := Returns(t, last, count);
      moves := [m] + rest;
      PlayOn(s, m, rest);
    }
  }

  /** A move after which the invariants hold and main has returned or is closer to it. */
  lemma NextMove(s: State, last: bool, count: nat) returns (m: Move)
    requires Inv(s) && Live(s)
    ensures m.ByMain? ==> m == ByMain(last, count)
    ensures var t := Step(s, m);
      && Inv(t) && Live(t)
      && (|t.jobs| == |s.jobs| + 1 ||
          (t.jobs == s.jobs && (MainRank(t.main) < MainRank(s.main) ||
            (MainRank(t.main) == MainRank(s.main) && (UnitsLeft(t) < UnitsLeft(s) ||
              (UnitsLeft(t) == UnitsLeft(s) && Owed(t.main, t.ws) < Owed(s.main, s.ws)))))))
  {
    hide Count, Handshake, Exactly, Live, MainStep, WorkerStep, Owed, UnitsLeft, MainRank;
    if Blocked(s) {
      m := WorkerMove(s);
    } else {
      m := ByMain(last, count);
      MainComesCloser(s, last, count);
      MainInv(s, last, count);
      MainLive(s, last, count);
    }
  }

  lemma WorkerMove(s: State) returns (m: Move)
    requires Inv(s) && Live(s) && Blocked(s)
    ensures m.ByWorker? && m.i < |s.ws| && Inv(Step(s, m)) && Live(Step(s, m))
    ensures var t := Step(s, m);
      && t.jobs == s.jobs
      && (MainRank(t.main) < MainRank(s.main) ||
          (t.main == s.main && UnitsLeft(t) == UnitsLeft(s) && Owed(t.main, t.ws) < Owed(s.main, s.ws)))
  {
    hide Count, Handshake, Live, Owed, UnitsLeft, WorkerStep, Past, Called, Ids;
    var i := SomeoneElseMoves(s);
    m := ByWorker(i);
    WorkerInv(s, i);
    WorkerLive(s, i);
    if Releases(s, i) {
      LastReleases(s, i);
    } else {
      WorkerOwesLess(s, i);
      NothingLeft(s, i);
      OwedUpdate(s.main, s.ws, i, WorkerStep(s, i).ws[i]);
    }
  }

  /** The last to arrive at the barrier lets main go on. */
  lemma LastReleases(s: State, i: nat)
    requires Handshake(s) && i < |s.ws| && Releases(s, i)
    ensures s.main.WaitMain? && WorkerStep(s, i).main == ClearLast && WorkerStep(s, i).jobs == s.jobs
  {
    LastArrival(s, i);
    ReleaseStep(s, i);
  }

  /** Where main is blocked nothing is left to take, or nobody that it waits for takes anything. */
  lemma NothingLeft(s: State, i: nat)
    requires Quiet(s) && Live(s) && Blocked(s) && i < |s.ws| && !Releases(s, i)
    ensures var t := WorkerStep(s, i); t.jobs == s.jobs && UnitsLeft(t) == UnitsLeft(s)
  {
  }

  /**
   * From every state of every interleaving some continuation lets main return from its job, or from its
   * next one if it is in none, whatever that one's arguments are.
   */
  lemma MainCanReturn(workers: nat, before: seq<Move>, last: bool, count: nat)
    ensures exists more ::
      Calls(more, last, count) && |After(workers, before + more).jobs| == |After(workers, before).jobs| + 1
  {
    AfterInv(workers, before);
    AfterLive(workers, before);
    var more := Returns(After(workers, before), last, count);
    PlayAfter(workers, before, more);
  }
}
