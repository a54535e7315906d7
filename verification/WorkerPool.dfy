/**
 * The fork/join pool of the renderer: one main thread and any number of workers, interleaved one
 * atomic access at a time under sequential consistency.
 */
module WorkerPool {
  /** What `dennis_parallel_for` publishes; `task` stands for the function and its user data. */
  datatype Job = Job(last: bool, count: nat, task: nat)

  /** The fields of `ThreadContext` that describe the current job. */
  datatype Board = Board(job: Job, take: nat, complete: nat)

  /** Where a worker stands in `worker_thread_loop`. */
  datatype Worker =
    | Arriving | Waiting | Released | Passing
    | Looking | Entering | Rechecking | Aborting
    | ReadingLast | ReadingCount(last: bool) | ReadingTask(last: bool, count: nat)
    | Taking(job: Job) | Running(job: Job, id: nat) | Finished(job: Job, id: nat) | Leaving(last: bool)

  /** Where main stands in the wake-up sequence of a frame or in `dennis_parallel_for`. */
  datatype Main =
    | AwaitPassed | ResetPassed | CloseWake | ArriveMain | WaitMain | ClearLast | CloseGate | OpenWake
    | Idle
    | AwaitSite(job: Job) | SetLast(job: Job) | SetCount(job: Job) | ResetTake(job: Job) | ResetComplete(job: Job)
    | SetTask(job: Job) | OpenGate(job: Job)
    | MainTaking(job: Job) | MainRunning(job: Job, id: nat) | MainFinished(job: Job, id: nat)
    | ShutGate(job: Job) | AwaitComplete(job: Job)

  /** One call of the work function. */
  datatype Call = Call(task: nat, id: nat)

  /** `ThreadContext`, the threads, every call made so far, and the size of every job that has returned. */
  datatype State = State(
    main: Main, ws: seq<Worker>,
    wake: bool, passed: nat, arrived: nat,
    gate: bool, site: nat,
    board: Board,
    calls: seq<Call>, jobs: seq<nat>)

  /** The context starts out as if an empty job had just returned. */
  function Init(workers: nat): State {
    State(AwaitPassed, seq(workers, _ => Arriving), false, workers, 0, false, 0, Board(Job(false, 0, 0), 0, 0), [], [0])
  }

  /** The last of all threads to arrive at the barrier lets everyone go. */
  function Release(s: State): State {
    s.(ws := seq(|s.ws|, _ => Released), arrived := 0, main := ClearLast)
  }

  /** A worker outside the job site. */
  function GateStep(s: State, i: nat): State
    requires i < |s.ws| && !Inside(s.ws[i])
  {
    match s.ws[i]
    case Arriving =>
      if s.arrived == |s.ws| then Release(s) else s.(ws := s.ws[i := Waiting], arrived := s.arrived + 1)
    case Waiting => s
    case Released => if s.wake then s.(ws := s.ws[i := Passing]) else s
    case Passing => s.(ws := s.ws[i := Looking], passed := s.passed + 1)
    case Looking => if s.gate then s.(ws := s.ws[i := Entering]) else s
    case Entering => s.(ws := s.ws[i := Rechecking], site := s.site + 1)
    case Rechecking => s.(ws := s.ws[i := if s.gate then ReadingLast else Aborting])
    case Aborting => s.(ws := s.ws[i := Looking], site := if s.site > 0 then s.site - 1 else 0)
  }

  /** A worker between its successful re-check of the gate and its leaving. */
  function SiteStep(s: State, i: nat): State
    requires i < |s.ws| && Inside(s.ws[i])
  {
    var b := s.board;
    match s.ws[i]
    case ReadingLast => s.(ws := s.ws[i := ReadingCount(b.job.last)])
    case ReadingCount(last) => s.(ws := s.ws[i := ReadingTask(last, b.job.count)])
    case ReadingTask(last, count) => s.(ws := s.ws[i := Taking(Job(last, count, b.job.task))])
    case Taking(job) =>
      s.(ws := s.ws[i := if b.take < job.count then Running(job, b.take) else Leaving(job.last)],
        board := b.(take := b.take + 1))
    case Running(job, id) => s.(ws := s.ws[i := Finished(job, id)], calls := s.calls + [Call(job.task, id)])
    case Finished(job, id) => s.(ws := s.ws[i := Taking(job)], board := b.(complete := b.complete + 1))
    case Leaving(last) =>
      s.(ws := s.ws[i := if last then Arriving else Looking], site := if s.site > 0 then s.site - 1 else 0)
  }

  function WorkerStep(s: State, i: nat): State
    requires i < |s.ws|
  {
    if Inside(s.ws[i]) then SiteStep(s, i) else GateStep(s, i)
  }

  /** Main outside `dennis_parallel_for`: the wake-up sequence of a frame, and the beginning of a call. */
  function WakeStep(s: State, last: bool, count: nat): State
    requires !Writing(s.main) && !Published(s.main) && !s.main.AwaitSite?
  {
    match s.main
    case AwaitPassed => if s.passed == |s.ws| then s.(main := ResetPassed) else s
    case ResetPassed => s.(main := CloseWake, passed := 0)
    case CloseWake => s.(main := ArriveMain, wake := false)
    case ArriveMain => if s.arrived == |s.ws| then Release(s) else s.(main := WaitMain, arrived := s.arrived + 1)
    case WaitMain => s
    case ClearLast => s.(main := CloseGate, board := s.board.(job := s.board.job.(last := false)))
    case CloseGate => s.(main := OpenWake, gate := false)
    case OpenWake => s.(main := Idle, wake := true)
    case Idle => s.(main := AwaitSite(Job(last, count, |s.jobs|)))
  }

  /** Main in `dennis_parallel_for` up to the opening of the gate. */
  function WriteStep(s: State): State
    requires Writing(s.main) || s.main.AwaitSite?
  {
    var b := s.board;
    match s.main
    case AwaitSite(job) => if s.site == 0 then s.(main := SetLast(job)) else s
    case SetLast(job) => s.(main := SetCount(job), board := b.(job := b.job.(last := job.last)))
    case SetCount(job) => s.(main := ResetTake(job), board := b.(job := b.job.(count := job.count)))
    case ResetTake(job) => s.(main := ResetComplete(job), board := b.(take := 0))
    case ResetComplete(job) => s.(main := SetTask(job), board := b.(complete := 0))
    case SetTask(job) => s.(main := OpenGate(job), board := b.(job := b.job.(task := job.task)))
    case OpenGate(job) => s.(main := MainTaking(job), gate := true)
  }

  /** Main in `dennis_parallel_for` from there to its return. */
  function WorkStep(s: State): State
    requires Published(s.main)
  {
    var b := s.board;
    match s.main
    case MainTaking(job) =>
      s.(main := if b.take < job.count then MainRunning(job, b.take) else ShutGate(job),
        board := b.(take := b.take + 1))
    case MainRunning(job, id) => s.(main := MainFinished(job, id), calls := s.calls + [Call(job.task, id)])
    case MainFinished(job, id) => s.(main := MainTaking(job), board := b.(complete := b.complete + 1))
    case ShutGate(job) => s.(main := AwaitComplete(job), gate := s.gate && job.last)
    case AwaitComplete(job) =>
      if b.complete >= job.count then s.(main := if job.last then AwaitPassed else Idle, jobs := s.jobs + [job.count])
        else s
  }

  /** `last` and `count` are the arguments of the next call of `dennis_parallel_for`, where one begins. */
  function MainStep(s: State, last: bool, count: nat): State {
    if Published(s.main) then WorkStep(s)
    else if Writing(s.main) || s.main.AwaitSite? then WriteStep(s)
    else WakeStep(s, last, count)
  }

  // Counting workers -----------------------------------------------------------------------------

  function Count(ws: seq<Worker>, p: Worker -> bool): nat {
    if ws == [] then 0 else Count(ws[..|ws| - 1], p) + if p(ws[|ws| - 1]) then 1 else 0
  }

  lemma {:induction false} CountUpdate(ws: seq<Worker>, p: Worker -> bool, i: nat, w: Worker)
    requires i < |ws|
    ensures Count(ws[i := w], p) + (if p(ws[i]) then 1 else 0) == Count(ws, p) + if p(w) then 1 else 0
  {
    var n := |ws| - 1;
    if i == n {
      assert ws[i := w][..n] == ws[..n];
    } else {
      assert ws[i := w][..n] == ws[..n][i := w];
      CountUpdate(ws[..n], p, i, w);
    }
  }

  lemma {:induction false} CountBounds(ws: seq<Worker>, p: Worker -> bool)
    ensures Count(ws, p) <= |ws|
    ensures Count(ws, p) == 0 <==> forall i :: 0 <= i < |ws| ==> !p(ws[i])
    ensures Count(ws, p) == |ws| <==> forall i :: 0 <= i < |ws| ==> p(ws[i])
  {
    if ws != [] {
      var n := |ws| - 1;
      CountBounds(ws[..n], p);
      assert forall i :: 0 <= i < n ==> ws[..n][i] == ws[i];
    }
  }

  predicate InSite(w: Worker) {
    w.Rechecking? || w.Aborting? || Inside(w)
  }

  /** Between a successful re-check of the gate and the decrement that leaves the job site. */
  predicate Inside(w: Worker) {
    || w.ReadingLast? || w.ReadingCount? || w.ReadingTask? || w.Taking? || w.Running? || w.Finished? || w.Leaving?
  }

  predicate IsWaiting(w: Worker) { w.Waiting? }

  /** Has not yet passed the wake-up gate of the current frame. */
  predicate NotPassed(w: Worker) { w.Released? || w.Passing? }

  predicate Holding(w: Worker) { w.Running? || w.Finished? }

  // The invariant of the handshake ---------------------------------------------------------------

  /** Main is about to overwrite, or is overwriting, the fields of a job. */
  predicate Writing(m: Main) {
    m.SetLast? || m.SetCount? || m.ResetTake? || m.ResetComplete? || m.SetTask? || m.OpenGate?
  }

  /** Main is between opening the gate and its return. */
  predicate Published(m: Main) {
    m.MainTaking? || m.MainRunning? || m.MainFinished? || m.ShutGate? || m.AwaitComplete?
  }

  /** Main has come out of the barrier and has not yet let the workers through. */
  predicate Waking(m: Main) {
    m.ClearLast? || m.CloseGate? || m.OpenWake?
  }

  /** Everyone has passed the wake-up gate and main is on its way into the barrier. */
  predicate Resting(m: Main) {
    m.ResetPassed? || m.CloseWake? || m.ArriveMain? || m.WaitMain?
  }

  predicate GateIsShut(m: Main) {
    m.Idle? || m.AwaitSite? || Writing(m) || m.OpenWake? || (m.AwaitComplete? && !m.job.last)
  }

  predicate Counters(s: State) {
    && s.site == Count(s.ws, InSite)
    && s.arrived == Count(s.ws, IsWaiting) + (if s.main.WaitMain? then 1 else 0)
    && (if Resting(s.main) then Count(s.ws, NotPassed) == 0 else s.passed + Count(s.ws, NotPassed) == |s.ws|)
  }

  predicate Phases(s: State) {
    && (GateIsShut(s.main) ==> !s.gate)
    && (s.main.ArriveMain? || s.main.WaitMain? || Waking(s.main) ==> !s.wake)
    && (s.main.CloseWake? || s.main.ArriveMain? || s.main.WaitMain? ==> s.passed == 0)
    && (Waking(s.main) ==> forall i :: 0 <= i < |s.ws| ==> s.ws[i].Released?)
  }

  /** Job-site exclusion: nobody is inside while main writes the job's fields. */
  predicate Exclusive(s: State) {
    Writing(s.main) || Waking(s.main) ==> forall i :: 0 <= i < |s.ws| ==> !Inside(s.ws[i])
  }

  /** What a worker has read of the job is what the fields say. */
  predicate Agrees(job: Job, w: Worker) {
    match w
    case ReadingCount(last) => last == job.last
    case ReadingTask(last, count) => last == job.last && count == job.count
    case Taking(mine) => mine == job
    case Running(mine, _) => mine == job
    case Finished(mine, _) => mine == job
    case Leaving(last) => last == job.last
    case _ => true
  }

  /** What main has written so far; `done` jobs have returned, and the current one is numbered next. */
  predicate MainAgrees(m: Main, b: Board, done: nat) {
    match m
    case AwaitSite(job) => job.task == done && b.job.task + 1 == done && !b.job.last
    case SetLast(job) => job.task == done && b.job.task + 1 == done && !b.job.last
    case SetCount(job) => job.task == done && b.job.task + 1 == done && b.job.last == job.last
    case ResetTake(job) => job.task == done && b.job == job.(task := b.job.task) && b.job.task + 1 == done
    case ResetComplete(job) => job.task == done && b.job == job.(task := b.job.task) && b.job.task + 1 == done
      && b.take == 0
    case SetTask(job) => job.task == done && b == Board(job.(task := b.job.task), 0, 0) && b.job.task + 1 == done
    case OpenGate(job) => job.task == done && b == Board(job, 0, 0)
    case MainTaking(job) => job.task == done && b.job == job
    case MainRunning(job, _) => job.task == done && b.job == job
    case MainFinished(job, _) => job.task == done && b.job == job
    case ShutGate(job) => job.task == done && b.job == job
    case AwaitComplete(job) => job.task == done && b.job == job
    case _ => b.job.task + 1 == done && (m.CloseGate? || m.OpenWake? || m.Idle? ==> !b.job.last)
  }

  predicate Copied(s: State) {
    MainAgrees(s.main, s.board, |s.jobs|) && forall i :: 0 <= i < |s.ws| ==> Agrees(s.board.job, s.ws[i])
  }

  predicate Handshake(s: State) {
    Counters(s) && Phases(s) && Exclusive(s) && Copied(s)
  }

  lemma InitHandshake(workers: nat)
    ensures Handshake(Init(workers))
  {
    var s := Init(workers);
    CountBounds(s.ws, InSite);
    CountBounds(s.ws, IsWaiting);
    CountBounds(s.ws, NotPassed);
  }

  // Steps of a worker ----------------------------------------------------------------------------

  predicate Releases(s: State, i: nat)
    requires i < |s.ws|
  {
    s.ws[i].Arriving? && s.arrived == |s.ws|
  }

  /** If worker `i` is the last to arrive, all the others and main are waiting. */
  lemma LastArrival(s: State, i: nat)
    requires Counters(s) && i < |s.ws| && Releases(s, i)
    ensures s.main.WaitMain? && s.site == 0
  {
    CountUpdate(s.ws, IsWaiting, i, Waiting);
    CountUpdate(s.ws, InSite, i, Waiting);
    var ws := s.ws[i := Waiting];
    CountBounds(ws, IsWaiting);
    CountBounds(ws, InSite);
    assert forall k :: 0 <= k < |ws| ==> IsWaiting(ws[k]) ==> !InSite(ws[k]);
  }

  lemma ReleaseKeeps(s: State)
    requires Copied(s) && s.site == 0 && (s.main.WaitMain? || s.main.ArriveMain?) && !s.wake && s.passed == 0
    ensures Handshake(Release(s))
  {
    var t := Release(s);
    CountBounds(t.ws, InSite);
    CountBounds(t.ws, IsWaiting);
    CountBounds(t.ws, NotPassed);
  }

  /** The three counts after worker `i` has become `w`. */
  lemma CountsAfter(ws: seq<Worker>, i: nat, w: Worker)
    requires i < |ws|
    ensures Count(ws[i := w], InSite) + (if InSite(ws[i]) then 1 else 0) == Count(ws, InSite) + if InSite(w) then 1
      else 0
    ensures Count(ws[i := w], IsWaiting) + (if ws[i].Waiting? then 1 else 0) ==
      Count(ws, IsWaiting) + if w.Waiting? then 1 else 0
    ensures Count(ws[i := w], NotPassed) + (if NotPassed(ws[i]) then 1 else 0) ==
      Count(ws, NotPassed) + if NotPassed(w) then 1 else 0
  {
    CountUpdate(ws, InSite, i, w);
    CountUpdate(ws, IsWaiting, i, w);
    CountUpdate(ws, NotPassed, i, w);
  }

  lemma GateCounters(s: State, i: nat)
    requires Counters(s) && i < |s.ws| && !Inside(s.ws[i]) && !Releases(s, i)
    ensures Counters(GateStep(s, i))
  {
    hide Count;
    var t := GateStep(s, i);
    assert t.ws == s.ws[i := t.ws[i]];
    CountsAfter(s.ws, i, t.ws[i]);
  }

  lemma SiteCounters(s: State, i: nat)
    requires Counters(s) && i < |s.ws| && Inside(s.ws[i])
    ensures Counters(SiteStep(s, i))
  {
    hide Count;
    var t := SiteStep(s, i);
    assert t.ws == s.ws[i := t.ws[i]];
    CountsAfter(s.ws, i, t.ws[i]);
  }

  lemma GatePhases(s: State, i: nat)
    requires Counters(s) && Phases(s) && Exclusive(s) && i < |s.ws| && !Inside(s.ws[i]) && !Releases(s, i)
    ensures Phases(GateStep(s, i)) && Exclusive(GateStep(s, i))
  {
    CountBounds(s.ws, NotPassed);
  }

  lemma SitePhases(s: State, i: nat)
    requires Phases(s) && Exclusive(s) && i < |s.ws| && Inside(s.ws[i])
    ensures Phases(SiteStep(s, i)) && Exclusive(SiteStep(s, i))
  {
  }

  lemma GateCopied(s: State, i: nat)
    requires Copied(s) && i < |s.ws| && !Inside(s.ws[i]) && !Releases(s, i)
    ensures Copied(GateStep(s, i))
  {
    hide MainAgrees;
  }

  lemma SiteCopied(s: State, i: nat)
    requires Copied(s) && Exclusive(s) && i < |s.ws| && Inside(s.ws[i])
    ensures Copied(SiteStep(s, i))
  {
    var t := SiteStep(s, i);
    assert Agrees(s.board.job, s.ws[i]);
    assert t.board.job == s.board.job && Agrees(t.board.job, t.ws[i]);
  }

  lemma WorkerHandshake(s: State, i: nat)
    requires Handshake(s) && i < |s.ws|
    ensures Handshake(WorkerStep(s, i))
  {
    hide Counters, Exclusive, Copied, GateStep, SiteStep;
    if Inside(s.ws[i]) {
      SiteCounters(s, i);
      SitePhases(s, i);
      SiteCopied(s, i);
    } else if Releases(s, i) {
      LastArrival(s, i);
      ReleaseKeeps(s);
      assert GateStep(s, i) == Release(s) by { ReleaseStep(s, i); }
    } else {
      GateCounters(s, i);
      GatePhases(s, i);
      GateCopied(s, i);
    }
  }

  lemma ReleaseStep(s: State, i: nat)
    requires i < |s.ws| && Releases(s, i)
    ensures GateStep(s, i) == Release(s)
  {
  }

  // Steps of main --------------------------------------------------------------------------------

  predicate MainReleases(s: State) {
    s.main.ArriveMain? && s.arrived == |s.ws|
  }

  lemma WakeKeeps(s: State, last: bool, count: nat)
    requires Handshake(s) && !Writing(s.main) && !Published(s.main) && !s.main.AwaitSite? && !MainReleases(s)
    ensures Handshake(WakeStep(s, last, count))
  {
    hide Count;
    var t := WakeStep(s, last, count);
    CountBounds(s.ws, NotPassed);
    assert Counters(t) && Phases(t) && Exclusive(t);
    if s.main.ClearLast? {
      assert forall i :: 0 <= i < |s.ws| ==> s.ws[i].Released?;
    }
  }

  lemma WriteKeeps(s: State)
    requires Handshake(s) && (Writing(s.main) || s.main.AwaitSite?)
    ensures Handshake(WriteStep(s))
  {
    hide Count;
    var t := WriteStep(s);
    CountBounds(s.ws, InSite);
    assert s.site == 0 && s.main.AwaitSite? ==> forall i :: 0 <= i < |s.ws| ==> !InSite(s.ws[i]);
    assert Counters(t) && Phases(t) && Exclusive(t);
    forall i | 0 <= i < |t.ws|
      ensures Agrees(t.board.job, t.ws[i])
    {
      assert Agrees(s.board.job, s.ws[i]);
    }
  }

  lemma WorkKeeps(s: State)
    requires Handshake(s) && Published(s.main)
    ensures Handshake(WorkStep(s))
  {
    hide Count;
  }

  lemma MainHandshake(s: State, last: bool, count: nat)
    requires Handshake(s)
    ensures Handshake(MainStep(s, last, count))
  {
    hide Count, WakeStep, WriteStep, WorkStep;
    if Published(s.main) {
      WorkKeeps(s);
    } else if Writing(s.main) || s.main.AwaitSite? {
      WriteKeeps(s);
    } else if MainReleases(s) {
      CountBounds(s.ws, IsWaiting);
      CountBounds(s.ws, InSite);
      assert forall i :: 0 <= i < |s.ws| ==> IsWaiting(s.ws[i]) && !InSite(s.ws[i]);
      ReleaseKeeps(s);
      assert WakeStep(s, last, count) == Release(s) by { MainReleaseStep(s, last, count); }
    } else {
      WakeKeeps(s, last, count);
    }
  }

  lemma MainReleaseStep(s: State, last: bool, count: nat)
    requires MainReleases(s)
    ensures WakeStep(s, last, count) == Release(s)
  {
  }

  // Every unit of work is done once --------------------------------------------------------------

  function Times(calls: seq<Call>, task: nat, id: nat): nat {
    if calls == [] then 0
    else Times(calls[..|calls| - 1], task, id) + if calls[|calls| - 1] == Call(task, id) then 1 else 0
  }

  lemma OneMoreCall(calls: seq<Call>, c: Call)
    ensures forall t, id :: Times(calls + [c], t, id) == Times(calls, t, id) + if c == Call(t, id) then 1 else 0
  {
    assert (calls + [c])[..|calls|] == calls;
  }

  predicate MainHolding(m: Main) { m.MainRunning? || m.MainFinished? }

  /** The ids below this have been handed out. */
  function Bound(b: Board): nat {
    if b.take < b.job.count then b.take else b.job.count
  }

  /** The ids that threads hold have been handed out, each to one thread. */
  predicate Ids(s: State) {
    && (forall i :: 0 <= i < |s.ws| && Holding(s.ws[i]) ==> s.ws[i].id < Bound(s.board))
    && (MainHolding(s.main) ==> s.main.id < Bound(s.board))
    && (forall i, j :: 0 <= i < j < |s.ws| && Holding(s.ws[i]) && Holding(s.ws[j]) ==> s.ws[i].id != s.ws[j].id)
    && (forall i :: 0 <= i < |s.ws| && Holding(s.ws[i]) && MainHolding(s.main) ==> s.ws[i].id != s.main.id)
  }

  /** Whatever has been handed out is complete or held. */
  predicate Tally(s: State) {
    s.board.complete + Count(s.ws, Holding) + (if MainHolding(s.main) then 1 else 0) == Bound(s.board)
  }

  predicate IsRunning(s: State, id: nat) {
    || (exists i :: 0 <= i < |s.ws| && s.ws[i].Running? && s.ws[i].id == id)
    || (s.main.MainRunning? && s.main.id == id)
  }

  /** The work function has been called once for every id handed out, unless it is just about to be. */
  ghost predicate Called(s: State) {
    forall id: nat :: Times(s.calls, s.board.job.task, id) == if id < Bound(s.board) && !IsRunning(s, id) then 1 else 0
  }

  /** Every job that has returned was done exactly; nothing was ever called for a job still to come. */
  ghost predicate Past(s: State) {
    && (forall t: nat, id: nat :: t < |s.jobs| ==> Times(s.calls, t, id) == if id < s.jobs[t] then 1 else 0)
    && (forall t: nat, id: nat :: t > |s.jobs| || (t == |s.jobs| && !Published(s.main)) ==> Times(s.calls, t, id) == 0)
  }

  /** Between calls of `dennis_parallel_for` nobody works and there is nothing left to take. */
  predicate Quiet(s: State) {
    !Published(s.main) && !Writing(s.main) ==>
      s.board.job.count <= s.board.take && forall i :: 0 <= i < |s.ws| ==> !Holding(s.ws[i])
  }

  ghost predicate Exactly(s: State) {
    Past(s) && Quiet(s) && (Published(s.main) ==> Ids(s) && Tally(s) && Called(s))
  }

  ghost predicate Inv(s: State) {
    Handshake(s) && Exactly(s)
  }

  lemma InitInv(workers: nat)
    ensures Inv(Init(workers))
  {
    InitHandshake(workers);
  }

  /** A step by which worker `i` neither takes, calls nor completes anything. */
  lemma IdleStep(s: State, t: State, i: nat, w: Worker)
    requires Exactly(s) && i < |s.ws| && !Holding(s.ws[i]) && !Holding(w)
    requires t.main == s.main && t.ws == s.ws[i := w] && t.board == s.board && t.calls == s.calls && t.jobs == s.jobs
    ensures Exactly(t)
  {
    CountUpdate(s.ws, Holding, i, w);
    forall id: nat
      ensures IsRunning(t, id) == IsRunning(s, id)
    {
      if k :| 0 <= k < |s.ws| && s.ws[k].Running? && s.ws[k].id == id {
        assert t.ws[k] == s.ws[k];
      }
    }
  }

  lemma GateExactly(s: State, i: nat)
    requires Inv(s) && i < |s.ws| && !Inside(s.ws[i])
    ensures Exactly(GateStep(s, i))
  {
    hide Count, Times;
    if Releases(s, i) {
      LastArrival(s, i);
    } else {
      var t := GateStep(s, i);
      IdleStep(s, t, i, t.ws[i]);
    }
  }

  lemma TakeExactly(s: State, i: nat)
    requires Inv(s) && i < |s.ws| && s.ws[i].Taking?
    ensures Exactly(SiteStep(s, i))
  {
    hide Times, Count, Counters, Phases;
    var t, job := SiteStep(s, i), s.ws[i].job;
    assert Agrees(s.board.job, s.ws[i]);
    CountUpdate(s.ws, Holding, i, t.ws[i]);
    if s.board.take < job.count {
      forall id: nat
        ensures IsRunning(t, id) == (IsRunning(s, id) || id == s.board.take)
      {
        RunningElsewhere(s, t, i, id);
        assert t.ws[i].Running? && t.ws[i].id == s.board.take;
      }
    } else {
      forall id: nat
        ensures IsRunning(t, id) == IsRunning(s, id)
      {
        RunningElsewhere(s, t, i, id);
      }
    }
  }

  /** Who else is running what does not change with worker `i`. */
  lemma RunningElsewhere(s: State, t: State, i: nat, id: nat)
    requires i < |s.ws| && |t.ws| == |s.ws| && t.main == s.main && forall k :: 0 <= k < |s.ws| && k != i ==>
      t.ws[k] == s.ws[k]
    ensures IsRunning(t, id) && !(t.ws[i].Running? && t.ws[i].id == id) ==> IsRunning(s, id)
    ensures IsRunning(s, id) && !(s.ws[i].Running? && s.ws[i].id == id) ==> IsRunning(t, id)
  {
    if k :| 0 <= k < |s.ws| && s.ws[k].Running? && s.ws[k].id == id && k != i {
      assert t.ws[k].Running?;
    }
    if k :| 0 <= k < |t.ws| && t.ws[k].Running? && t.ws[k].id == id && k != i {
      assert s.ws[k].Running?;
    }
  }

  lemma CallExactly(s: State, i: nat)
    requires Inv(s) && i < |s.ws| && s.ws[i].Running?
    ensures Exactly(SiteStep(s, i))
  {
    hide Times, Count, Counters, Phases;
    var t, id := SiteStep(s, i), s.ws[i].id;
    assert Agrees(s.board.job, s.ws[i]) && Holding(s.ws[i]);
    CountUpdate(s.ws, Holding, i, t.ws[i]);
    OneMoreCall(s.calls, Call(s.board.job.task, id));
    assert IsRunning(s, id);
    forall x: nat
      ensures IsRunning(t, x) == (IsRunning(s, x) && x != id)
    {
      RunningElsewhere(s, t, i, x);
      assert forall k :: 0 <= k < |t.ws| && k != i && Holding(s.ws[k]) ==> s.ws[k].id != id;
    }
  }

  lemma CompleteExactly(s: State, i: nat)
    requires Inv(s) && i < |s.ws| && s.ws[i].Finished?
    ensures Exactly(SiteStep(s, i))
  {
    hide Times, Count, Counters, Phases;
    var t := SiteStep(s, i);
    assert Holding(s.ws[i]);
    CountUpdate(s.ws, Holding, i, t.ws[i]);
    forall id: nat
      ensures IsRunning(t, id) == IsRunning(s, id)
    {
      RunningElsewhere(s, t, i, id);
    }
  }

  lemma WorkerInv(s: State, i: nat)
    requires Inv(s) && i < |s.ws|
    ensures Inv(WorkerStep(s, i))
  {
    hide Handshake, Exactly, GateStep;
    WorkerHandshake(s, i);
    if s.ws[i].Taking? {
      TakeExactly(s, i);
    } else if s.ws[i].Running? {
      CallExactly(s, i);
    } else if s.ws[i].Finished? {
      CompleteExactly(s, i);
    } else if Inside(s.ws[i]) {
      IdleStep(s, SiteStep(s, i), i, SiteStep(s, i).ws[i]);
    } else {
      GateExactly(s, i);
    }
  }

  /** Main's steps outside a published job call nothing and complete nothing. */
  lemma WakeExactly(s: State, last: bool, count: nat)
    requires Inv(s) && !Writing(s.main) && !Published(s.main) && !s.main.AwaitSite?
    ensures Exactly(WakeStep(s, last, count))
  {
    hide Times, Count, Counters, Phases, Copied;
  }

  lemma WriteExactly(s: State)
    requires Inv(s) && (Writing(s.main) || s.main.AwaitSite?)
    ensures Exactly(WriteStep(s))
  {
    hide Times, Count, Counters, Phases, Exclusive, Copied, Ids, Tally, Called;
    if s.main.OpenGate? {
      OpenExactly(s);
    }
  }

  lemma OpenExactly(s: State)
    requires Inv(s) && s.main.OpenGate?
    ensures Exactly(WriteStep(s))
  {
    hide Times, Counters, Phases;
    CountBounds(s.ws, Holding);
    assert forall i :: 0 <= i < |s.ws| ==> !Inside(s.ws[i]) && !Holding(s.ws[i]);
  }

  lemma MainTakeExactly(s: State)
    requires Inv(s) && s.main.MainTaking?
    ensures Exactly(WorkStep(s))
  {
    hide Times, Count, Counters, Phases;
    var t := WorkStep(s);
    forall id: nat
      ensures IsRunning(t, id) == (IsRunning(s, id) || (id == s.board.take && s.board.take < s.main.job.count))
    {
      SameWorkersRun(s, t, id);
    }
  }

  lemma SameWorkersRun(s: State, t: State, id: nat)
    requires t.ws == s.ws
    ensures IsRunning(t, id) && !(t.main.MainRunning? && t.main.id == id) ==> IsRunning(s, id)
    ensures IsRunning(s, id) && !(s.main.MainRunning? && s.main.id == id) ==> IsRunning(t, id)
  {
  }

  lemma MainCallExactly(s: State)
    requires Inv(s) && s.main.MainRunning?
    ensures Exactly(WorkStep(s))
  {
    hide Times, Count, Counters, Phases;
    var t, id := WorkStep(s), s.main.id;
    OneMoreCall(s.calls, Call(s.board.job.task, id));
    forall x: nat
      ensures IsRunning(t, x) == (IsRunning(s, x) && x != id)
    {
      SameWorkersRun(s, t, x);
      assert forall k :: 0 <= k < |t.ws| && t.ws[k].Running? ==> Holding(s.ws[k]) && s.ws[k].id != id;
    }
  }

  lemma MainEndExactly(s: State)
    requires Inv(s) && (s.main.MainFinished? || s.main.ShutGate?)
    ensures Exactly(WorkStep(s))
  {
    hide Times, Count, Counters, Phases;
    var t := WorkStep(s);
    forall id: nat
      ensures IsRunning(t, id) == IsRunning(s, id)
    {
      SameWorkersRun(s, t, id);
    }
  }

  /** When main sees all units complete, every id has been called and nobody holds one any more. */
  lemma ReturnExactly(s: State)
    requires Inv(s) && s.main.AwaitComplete?
    ensures Exactly(WorkStep(s))
  {
    hide Times, Counters, Phases;
    var t := WorkStep(s);
    if s.board.complete >= s.main.job.count {
      CountBounds(s.ws, Holding);
      assert Bound(s.board) == s.board.job.count;
      forall id: nat
        ensures !IsRunning(s, id)
      {
        assert forall i :: 0 <= i < |s.ws| ==> !Holding(s.ws[i]);
      }
      assert t.jobs[|s.jobs|] == s.main.job.count;
    }
  }

  lemma MainInv(s: State, last: bool, count: nat)
    requires Inv(s)
    ensures Inv(MainStep(s, last, count))
  {
    hide Handshake, Exactly, WorkStep, WriteStep, WakeStep;
    MainHandshake(s, last, count);
    if s.main.MainTaking? {
      MainTakeExactly(s);
    } else if s.main.MainRunning? {
      MainCallExactly(s);
    } else if s.main.MainFinished? || s.main.ShutGate? {
      MainEndExactly(s);
    } else if s.main.AwaitComplete? {
      ReturnExactly(s);
    } else if Writing(s.main) || s.main.AwaitSite? {
      WriteExactly(s);
    } else {
      WakeExactly(s, last, count);
    }
  }

  // Whole runs -----------------------------------------------------------------------------------

  /** Which thread moves next; main may be about to begin a call with these arguments. */
  datatype Move = ByWorker(i: nat) | ByMain(last: bool, count: nat)

  function Step(s: State, m: Move): State {
    match m
    case ByWorker(i) => if i < |s.ws| then WorkerStep(s, i) else s
    case ByMain(last, count) => MainStep(s, last, count)
  }

  /** The state after any interleaving, over any number of frames and jobs. */
  function After(workers: nat, moves: seq<Move>): State {
    if moves == [] then Init(workers) else Step(After(workers, moves[..|moves| - 1]), moves[|moves| - 1])
  }

  lemma {:induction false} AfterInv(workers: nat, moves: seq<Move>)
    ensures Inv(After(workers, moves))
  {
    hide Inv, WorkerStep, MainStep;
    if moves == [] {
      InitInv(workers);
    } else {
      var n := |moves| - 1;
      AfterInv(workers, moves[..n]);
      var s := After(workers, moves[..n]);
      match moves[n]
      case ByWorker(i) => if i < |s.ws| { WorkerInv(s, i); }
      case ByMain(last, count) => MainInv(s, last, count);
    }
  }

  // Some thread can always move ------------------------------------------------------------------

  /** Main is between two barriers, so that the wake-up gate is open. */
  predicate Awake(m: Main) {
    m.Idle? || m.AwaitSite? || Writing(m) || Published(m)
  }

  /** The gate of the job site is open: to be shut after the job, or left open because it is the last one. */
  predicate GateIsOpen(m: Main) {
    m.MainTaking? || m.MainRunning? || m.MainFinished? || m.ShutGate? || (m.AwaitComplete? && m.job.last)
  }

  predicate AtBarrier(w: Worker) { w.Arriving? || w.Waiting? }

  /** What keeps every waiting thread's condition within reach of some other thread. */
  predicate Live(s: State) {
    && s.arrived <= |s.ws|
    && (Awake(s.main) ==> s.wake) && (GateIsOpen(s.main) ==> s.gate)
    && (s.main.AwaitPassed? ==> s.wake || s.passed == |s.ws|)
    && ((s.main.AwaitPassed? || Resting(s.main)) && !s.gate ==> forall i :: 0 <= i < |s.ws| ==> AtBarrier(s.ws[i]))
    && (s.main.ShutGate? || s.main.AwaitComplete? ==> s.board.job.count <= s.board.take)
    && ((s.main.AwaitPassed? || Resting(s.main)) && s.gate ==> s.board.job.last)
  }

  lemma WorkerLive(s: State, i: nat)
    requires Handshake(s) && Live(s) && i < |s.ws|
    ensures Live(WorkerStep(s, i))
  {
    hide Count, Copied, Exclusive;
    CountBounds(s.ws, NotPassed);
    if Releases(s, i) {
      LastArrival(s, i);
    }
  }

  lemma MainLive(s: State, last: bool, count: nat)
    requires Handshake(s) && Live(s)
    ensures Live(MainStep(s, last, count))
  {
    hide Count;
    CountBounds(s.ws, NotPassed);
    if MainReleases(s) {
      MainReleaseStep(s, last, count);
    }
  }

  lemma {:induction false} AfterLive(workers: nat, moves: seq<Move>)
    ensures Live(After(workers, moves))
  {
    hide Handshake, Live, WorkerStep, MainStep;
    if moves == [] {
      InitLive(workers);
    } else {
      var n := |moves| - 1;
      AfterInv(workers, moves[..n]);
      AfterLive(workers, moves[..n]);
      var s := After(workers, moves[..n]);
      match moves[n]
      case ByWorker(i) => if i < |s.ws| { WorkerLive(s, i); }
      case ByMain(last, count) => MainLive(s, last, count);
    }
  }

  lemma InitLive(workers: nat)
    ensures Live(Init(workers))
  {
  }

  /** A worker that is neither waiting at the barrier nor in front of a shut gate moves. */
  predicate CanMove(s: State, w: Worker) {
    !w.Waiting? && (w.Released? ==> s.wake) && (w.Looking? ==> s.gate)
  }

  lemma MovesIfItCan(s: State, i: nat)
    requires i < |s.ws| && CanMove(s, s.ws[i]) && Counters(s)
    ensures WorkerStep(s, i) != s
  {
    hide Count;
    if s.ws[i].Arriving? {
      assert Releases(s, i) ==> WorkerStep(s, i).ws[i].Released?;
    }
  }

  /** Where main waits in vain, some worker does not. */
  lemma SomeoneElseMoves(s: State) returns (i: nat)
    requires Handshake(s) && Live(s)
    requires s.main.AwaitComplete? ==> Tally(s)
    requires (s.main.AwaitPassed? && s.passed != |s.ws|) || s.main.WaitMain? || (s.main.AwaitSite? && s.site != 0)
          || (s.main.AwaitComplete? && s.board.complete < s.main.job.count)
    ensures i < |s.ws| && CanMove(s, s.ws[i])
    ensures s.main.AwaitPassed? ==> NotPassed(s.ws[i])
    ensures s.main.AwaitSite? ==> InSite(s.ws[i])
    ensures s.main.AwaitComplete? ==> Holding(s.ws[i])
  {
    hide Count, Copied, Exclusive;
    CountBounds(s.ws, NotPassed);
    CountBounds(s.ws, IsWaiting);
    CountBounds(s.ws, InSite);
    CountBounds(s.ws, Holding);
    if s.main.AwaitPassed? {
      i :| i < |s.ws| && NotPassed(s.ws[i]);
    } else if s.main.WaitMain? {
      i :| i < |s.ws| && !IsWaiting(s.ws[i]);
    } else if s.main.AwaitSite? {
      i :| i < |s.ws| && InSite(s.ws[i]);
    } else {
      assert s.board.job == s.main.job by { PublishedJob(s); }
      i :| i < |s.ws| && Holding(s.ws[i]);
    }
  }

  lemma PublishedJob(s: State)
    requires Copied(s) && Published(s.main)
    ensures s.board.job == s.main.job
  {
  }

  /** In every state of every interleaving some thread can move on. */
  lemma NeverStuck(workers: nat, moves: seq<Move>, last: bool, count: nat)
    ensures var s := After(workers, moves); exists m :: Step(s, m) != s && (m.ByMain? ==> m == ByMain(last, count))
  {
    hide Count, After, Handshake, Exactly, Live;
    var s := After(workers, moves);
    AfterInv(workers, moves);
    AfterLive(workers, moves);
    if MainStep(s, last, count) != s {
      assert Step(s, ByMain(last, count)) != s;
    } else {
      MainBlocked(s, last, count);
      var i := SomeoneElseMoves(s);
      assert Counters(s) by { HandshakeCounts(s); }
      MovesIfItCan(s, i);
      assert Step(s, ByWorker(i)) != s;
    }
  }

  lemma HandshakeCounts(s: State)
    requires Handshake(s)
    ensures Counters(s)
  {
  }

  /** Main stands still only where it waits for the others. */
  lemma MainBlocked(s: State, last: bool, count: nat)
    requires MainStep(s, last, count) == s && Exactly(s)
    ensures s.main.AwaitComplete? ==> Tally(s)
    ensures (s.main.AwaitPassed? && s.passed != |s.ws|) || s.main.WaitMain? || (s.main.AwaitSite? && s.site != 0)
         || (s.main.AwaitComplete? && s.board.complete < s.main.job.count)
  {
    hide Count, Past, Quiet, Called;
  }

  /** In every interleaving nobody is at the job inside the site while main writes the job's fields. */
  lemma SiteIsClear(workers: nat, moves: seq<Move>, i: nat)
    requires var s := After(workers, moves); i < |s.ws| && (Writing(s.main) || Waking(s.main))
    ensures !Inside(After(workers, moves).ws[i])
  {
    AfterInv(workers, moves);
  }

  /** In every interleaving a worker that runs a unit runs it for the job that is posted, and no other thread has it. */
  lemma RunsThePostedJob(workers: nat, moves: seq<Move>, i: nat)
    requires var s := After(workers, moves); i < |s.ws| && s.ws[i].Running?
    ensures var s := After(workers, moves);
      && s.ws[i].job == s.board.job && s.ws[i].id < s.board.job.count && Published(s.main)
      && Times(s.calls, s.board.job.task, s.ws[i].id) == 0
      && (forall k :: 0 <= k < |s.ws| && k != i && Holding(s.ws[k]) ==> s.ws[k].id != s.ws[i].id)
  {
    hide Times, Count;
    AfterInv(workers, moves);
    var s := After(workers, moves);
    assert Holding(s.ws[i]) && Agrees(s.board.job, s.ws[i]) && IsRunning(s, s.ws[i].id);
  }

  /** In every interleaving, between jobs no job is marked as the last one of its frame. */
  lemma IdleIsNotLast(workers: nat, moves: seq<Move>)
    requires var m := After(workers, moves).main; m.CloseGate? || m.OpenWake? || m.Idle? || m.AwaitSite?
    ensures !After(workers, moves).board.job.last
  {
    AfterInv(workers, moves);
  }

  /**
   * In every interleaving, a worker that looks for work while a unit of the posted job is left takes the next one,
   * which nobody has worked and nobody else holds; with none left it goes, to the barrier if the job is the last.
   */
  lemma TakesTheNextUnit(workers: nat, moves: seq<Move>, i: nat)
    requires var s := After(workers, moves); i < |s.ws| && s.ws[i].Taking?
    ensures var s := After(workers, moves); var t := Step(s, ByWorker(i));
      && t.board.take == s.board.take + 1
      && if s.board.take < s.board.job.count then
           && t.ws[i] == Running(s.board.job, s.board.take) && Times(s.calls, s.board.job.task, s.board.take) == 0
           && (forall k :: 0 <= k < |t.ws| && k != i && Holding(t.ws[k]) ==> t.ws[k].id != s.board.take)
         else
           && t.ws[i] == Leaving(s.board.job.last)
           && Step(t, ByWorker(i)).ws[i] == (if s.board.job.last then Arriving else Looking)
  {
    hide Times, Count, After;
    AfterInv(workers, moves);
    AfterInv(workers, moves + [ByWorker(i)]);
    assert After(workers, moves + [ByWorker(i)]) == Step(After(workers, moves), ByWorker(i)) by {
      AfterMore(workers, moves, ByWorker(i));
    }
    var s, t := After(workers, moves), Step(After(workers, moves), ByWorker(i));
    assert Agrees(s.board.job, s.ws[i]);
    if s.board.take < s.board.job.count {
      assert IsRunning(t, s.board.take) by { assert t.ws[i] == Running(s.board.job, s.board.take); }
    }
  }

  lemma AfterMore(workers: nat, moves: seq<Move>, m: Move)
    ensures After(workers, moves + [m]) == Step(After(workers, moves), m)
  {
    assert (moves + [m])[..|moves|] == moves;
  }

  /**
   * In every interleaving, of every job that has returned each unit was worked exactly once, and
   * when main is back from its call no thread is still working.
   */
  lemma ExactlyOnce(workers: nat, moves: seq<Move>, task: nat, id: nat)
    requires task < |After(workers, moves).jobs|
    ensures var s := After(workers, moves);
      && Times(s.calls, task, id) == (if id < s.jobs[task] then 1 else 0)
      && (!Published(s.main) ==> forall i :: 0 <= i < |s.ws| ==> !Holding(s.ws[i]))
  {
    hide Times, Count;
    AfterInv(workers, moves);
    var s := After(workers, moves);
    if Writing(s.main) {
      assert forall i :: 0 <= i < |s.ws| ==> !Inside(s.ws[i]);
    }
  }

  /** The unsigned count of workers at the site never runs below zero. */
  lemma SiteNeverUnderflows(workers: nat, moves: seq<Move>, i: nat)
    requires var s := After(workers, moves); i < |s.ws| && InSite(s.ws[i])
    ensures After(workers, moves).site > 0
  {
    hide Times;
    AfterInv(workers, moves);
    CountBounds(After(workers, moves).ws, InSite);
  }

  // The blit of the finished frame ---------------------------------------------------------------

  /** The rows that unit `id` copies. */
  predicate CopiesRow(rows: nat, count: nat, id: nat, row: nat)
    requires id < count
  {
    var share := rows / count;
    var start := id * share;
    start <= row < start + if id == count - 1 then rows - start else share
  }

  /** Which multiple of `share` a row lies behind, seen from the multiple `x`. */
  lemma RowQuotient(row: nat, share: nat, x: nat)
    requires share > 0
    ensures x < row / share ==> x * share + share <= row
    ensures row / share < x ==> row < x * share
    ensures x == row / share ==> x * share <= row < x * share + share
  {
    var q := row / share;
    assert row == q * share + row % share;
    if x < q {
      assert (x + 1) * share <= q * share;
    } else if q < x {
      assert (q + 1) * share <= x * share;
    }
  }

  /** Every row belongs to exactly one unit. */
  lemma RowHasOneUnit(rows: nat, count: nat, row: nat) returns (id: nat)
    requires count > 0 && row < rows
    ensures id < count && forall x: nat :: x < count ==> (CopiesRow(rows, count, x, row) <==> x == id)
  {
    var share := rows / count;
    id := if share > 0 && row / share < count then row / share else count - 1;
    forall x: nat | x < count
      ensures CopiesRow(rows, count, x, row) <==> x == id
    {
      if share > 0 {
        RowQuotient(row, share, x);
      } else {
        assert x * share == 0;
      }
    }
  }

  /** How often the calls of one job copy a row. */
  ghost function Copies(calls: seq<Call>, task: nat, rows: nat, count: nat, row: nat): nat {
    if calls == [] then 0
    else
      var c := calls[|calls| - 1];
      Copies(calls[..|calls| - 1], task, rows, count, row)
        + if c.task == task && c.id < count && CopiesRow(rows, count, c.id, row) then 1 else 0
  }

  lemma {:induction false} CopiesAreCalls(calls: seq<Call>, task: nat, rows: nat, count: nat, row: nat, id: nat)
    requires id < count && forall x: nat :: x < count ==> (CopiesRow(rows, count, x, row) <==> x == id)
    ensures Copies(calls, task, rows, count, row) == Times(calls, task, id)
  {
    if calls != [] {
      CopiesAreCalls(calls[..|calls| - 1], task, rows, count, row, id);
    }
  }

  /** In every interleaving, a blit job that has returned has copied every row of the window exactly once. */
  lemma BlitIsComplete(workers: nat, moves: seq<Move>, task: nat, rows: nat, row: nat)
    requires task < |After(workers, moves).jobs| && After(workers, moves).jobs[task] == (rows + 32 - 1) / 32
      && row < rows
    ensures var s := After(workers, moves); Copies(s.calls, task, rows, s.jobs[task], row) == 1
  {
    hide After, Times;
    var s := After(workers, moves);
    var id := RowHasOneUnit(rows, s.jobs[task], row);
    CopiesAreCalls(s.calls, task, rows, s.jobs[task], row, id);
    ExactlyOnce(workers, moves, task, id);
  }
}
