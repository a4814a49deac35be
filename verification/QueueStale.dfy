// In-flight entries left over by a cancellation inside the finally block, and
// what a malformed message handled under them does: exactly when a polling
// worker has no entries, and exactly when no message is silently lost and
// every worker touches only its own.
module QueueStale {
  import opened Wrappers
  import opened QueueProtocol
  import opened QueueSafety
  import opened QueueRuns

  // Which of the two things may happen in a run: a cancellation that lands at
  // the await of the finally block, and the start of a malformed message while
  // there are entries.
  datatype Allowed = Allowed(interrupts: bool, staleBegins: bool)

  predicate Interrupts(s: State, e: Event) {
    e.Cancel? && e.w in s.workers && s.workers[e.w].phase.Clearing?
  }

  predicate BeginsStale(cfg: Config, s: State, e: Event) {
    && e.Begin? && e.w in s.workers && s.workers[e.w].phase.Starting?
    && s.workers[e.w].tracked.Some? && cfg.parse(s.workers[e.w].phase.m.content).None?
  }

  ghost function Within(cfg: Config, a: Allowed): Guard {
    (s, e) => (Interrupts(s, e) ==> a.interrupts) && (BeginsStale(cfg, s, e) ==> a.staleBegins)
  }

  // ---- what is at stake ------------------------------------------------------

  // Worker entries are cleared on every way out of message processing.
  ghost predicate PollingClear(s: State) {
    forall w :: w in s.workers && s.workers[w].phase == Polling ==> s.workers[w] == Idle
  }

  // Queued with its content, completed, dead-lettered with its content, or
  // deleted by stop_process.
  predicate Accounted(s: State, id: nat)
    requires id in s.enqueued
  {
    || (id in s.queue && s.queue[id].content == s.enqueued[id])
    || id in s.completed
    || HasLetter(s, id)
    || (id in s.removed && s.removed[id].ByStopProcess?)
  }

  ghost predicate NothingLost(s: State) {
    forall id :: id in s.enqueued ==> Accounted(s, id)
  }

  ghost predicate OwnCalls(cfg: Config, s: State) {
    forall w, id, receipt :: Busy(s, w) && !s.workers[w].phase.Starting? && MayCall(cfg, s.workers[w], id, receipt) ==>
      id == s.workers[w].phase.m.id
  }

  ghost predicate Sound(cfg: Config, s: State) {
    NothingLost(s) && OwnCalls(cfg, s)
  }

  // ---- what the restrictions keep ---------------------------------------------

  // No entries before the first stretch of a job.
  predicate CalmWorker(wk: Worker) {
    wk.phase == Polling || wk.phase.Starting? ==> wk.tracked.None? && wk.process.None? && wk.batch.None?
  }

  // A malformed message is handled without entries.
  predicate TidyWorker(cfg: Config, wk: Worker) {
    wk.phase != Polling && !wk.phase.Starting? && cfg.parse(wk.phase.m.content).None? ==>
      wk.tracked.None? && (wk.phase.Failing? && wk.phase.state.call.Update? ==> wk.phase.state.call.id == wk.phase.m.id)
  }

  predicate CarefulWorker(cfg: Config, a: Allowed, wk: Worker) {
    (!a.interrupts ==> CalmWorker(wk)) && (!(a.interrupts && a.staleBegins) ==> TidyWorker(cfg, wk))
  }

  predicate OwnReasons(s: State) {
    forall id :: id in s.removed && s.removed[id].AfterDeadLetter? ==> s.removed[id].of == id
  }

  ghost predicate Careful(cfg: Config, a: Allowed, s: State) {
    && (forall w :: w in s.workers ==> CarefulWorker(cfg, a, s.workers[w]))
    && (!(a.interrupts && a.staleBegins) ==> OwnReasons(s))
  }

  // Only this worker changes, it stays careful, and a job it goes on with is
  // the same.
  ghost predicate Moves(cfg: Config, a: Allowed, s: State, t: State, w: nat) {
    && w in t.workers && t.workers == s.workers[w := t.workers[w]]
    && CarefulWorker(cfg, a, t.workers[w])
    && (Busy(s, w) && t.workers[w].phase != Polling ==> t.workers[w].phase.m == s.workers[w].phase.m)
  }

  // The end of a job.
  lemma FinishMoves(cfg: Config, a: Allowed, s: State, w: nat)
    requires Busy(s, w) && TaskOk(cfg, s.workers[w])
    ensures Moves(cfg, a, s, Finish(s, w), w)
  {
    var t := Finish(s, w);
    assert StopRenewal(s, w).workers[w := t.workers[w]] == s.workers[w := t.workers[w]];
  }

  lemma FailureMoves(cfg: Config, a: Allowed, s: State, w: nat, m: Received, forced: bool, cleanup: Option<string>)
    requires w in s.workers && s.workers[w].phase != Polling && m == s.workers[w].phase.m
    requires cfg.parse(m.content).None? ==>
               forced && (!(a.interrupts && a.staleBegins) ==> s.workers[w].tracked.None?)
    ensures Moves(cfg, a, s, BeginFailure(cfg, s, w, m, forced, cleanup), w)
  {
  }

  lemma BeginMoves(cfg: Config, a: Allowed, s: State, w: nat, crash: bool)
    requires Enabled(cfg, s, Begin(w, crash)) && Within(cfg, a)(s, Begin(w, crash))
    requires CarefulWorker(cfg, a, s.workers[w])
    ensures Moves(cfg, a, s, DoBegin(cfg, s, w, crash), w)
  {
    var m, t := s.workers[w].phase.m, DoBegin(cfg, s, w, crash);
    match cfg.parse(m.content)
    case None => FailureMoves(cfg, a, s, w, m, true, None);
    case Some(claim) =>
      hide SleepSeconds, MaxAttempts, RetryDelay;
      var wk := Worker(Running(m, claim), Some((m.id, m.receipt)), Some(claim), Some(claim), NextSleep(cfg, s), true);
      assert s.workers[w := wk][w := t.workers[w]] == s.workers[w := t.workers[w]];
  }

  lemma RenewalMoves(cfg: Config, a: Allowed, s: State, e: Event)
    requires Enabled(cfg, s, e) && (e.Wake? || e.RenewCall? || e.RenewDone?)
    requires WorkerOk(cfg, s, s.workers[e.w]) && CarefulWorker(cfg, a, s.workers[e.w])
    ensures Moves(cfg, a, s, Next(cfg, s, e), e.w)
  {
    hide NextSleep, SleepSeconds, RenewSeconds, CallAnswer, CallQueue, CallDead, CallTaint, HasLetter, PhaseOk;
  }

  lemma WorkflowMoves(cfg: Config, a: Allowed, s: State, w: nat, outcome: Outcome)
    requires Enabled(cfg, s, WorkflowDone(w, outcome)) && WorkerOk(cfg, s, s.workers[w])
    ensures Moves(cfg, a, s, DoWorkflowDone(s, w, outcome), w)
  {
    var t := DoWorkflowDone(s, w, outcome);
    assert StopRenewal(s, w).workers[w := t.workers[w]] == s.workers[w := t.workers[w]];
  }

  // What Settling changes does not show in what comes after it.
  lemma MovesOn(cfg: Config, a: Allowed, s: State, mid: State, t: State, w: nat)
    requires Busy(s, w) && mid.workers == Settling(s, w).workers && Moves(cfg, a, mid, t, w)
    ensures Moves(cfg, a, s, t, w)
  {
    assert mid.workers[w := t.workers[w]] == s.workers[w := t.workers[w]];
    hide CarefulWorker;
  }

  lemma SettleMoves(cfg: Config, a: Allowed, s: State, e: Event)
    requires Enabled(cfg, s, e) && (e.Settle? || e.SettleRaises?) && WorkerOk(cfg, s, s.workers[e.w])
    ensures Moves(cfg, a, s, Next(cfg, s, e), e.w)
  {
    var w, wk := e.w, s.workers[e.w];
    var target, s' := Target(wk, wk.phase.m), Settling(s, e.w);
    var mid := Delete(s', target.0, target.1, e.fault, AfterSuccess);
    Settled(cfg, s, w);
    hide Moves, WorkerOk, Settling, Delete, Finish, BeginFailure, TaskOk;
    if e.SettleRaises? {
      FailureMoves(cfg, a, mid, w, wk.phase.m, false, None);
      MovesOn(cfg, a, s, mid, Next(cfg, s, e), w);
    } else if wk.phase.outcome.Succeeded? {
      FinishMoves(cfg, a, mid, w);
      MovesOn(cfg, a, s, mid, Next(cfg, s, e), w);
    } else {
      FailureMoves(cfg, a, s', w, wk.phase.m, wk.phase.outcome.ExecutorFailed?, Some(wk.phase.claim));
      MovesOn(cfg, a, s, s', Next(cfg, s, e), w);
    }
  }

  lemma Settled(cfg: Config, s: State, w: nat)
    requires w in s.workers && s.workers[w].phase.Returned? && WorkerOk(cfg, s, s.workers[w])
    ensures var s' := Settling(s, w);
            && Busy(s', w) && TaskOk(cfg, s'.workers[w]) && s'.workers[w].phase == s.workers[w].phase
            && cfg.parse(s.workers[w].phase.m.content).Some?
    ensures forall id, receipt, fault ::
              Delete(Settling(s, w), id, receipt, fault, AfterSuccess).workers == Settling(s, w).workers
  {
  }

  lemma JobCallMoves(cfg: Config, a: Allowed, s: State, w: nat, fault: Fault)
    requires Enabled(cfg, s, JobCall(w, fault)) && CarefulWorker(cfg, a, s.workers[w])
    ensures Moves(cfg, a, s, DoJobCall(s, w, fault), w)
  {
    hide CallAnswer, CallQueue, CallDead, CallTaint;
  }

  lemma RetryMoves(cfg: Config, a: Allowed, s: State, w: nat, fault: Fault)
    requires Enabled(cfg, s, JobDone(w, fault)) && WorkerOk(cfg, s, s.workers[w]) && s.workers[w].phase.plan.Retry?
    ensures Moves(cfg, a, s, DoJobDone(cfg, s, w, fault), w)
  {
    var mid, t := StoreAnswer(s, w), DoJobDone(cfg, s, w, fault);
    assert mid.workers == s.workers[w := mid.workers[w]] && TaskOk(cfg, mid.workers[w]);
    hide Finish, StoreAnswer, WorkerOk, CarefulWorker, TaskOk;
    FinishMoves(cfg, a, mid, w);
    assert mid.workers[w := t.workers[w]] == s.workers[w := t.workers[w]];
  }

  lemma FinalMoves(cfg: Config, a: Allowed, s: State, w: nat, fault: Fault)
    requires Busy(s, w) && WorkerOk(cfg, s, s.workers[w])
    ensures Moves(cfg, a, s, FinalDelete(s, w, s.workers[w].phase.m, fault), w)
  {
    var m := s.workers[w].phase.m;
    var target := Target(s.workers[w], m);
    var mid := Delete(s, target.0, target.1, fault, AfterDeadLetter(m.id));
    assert mid.workers == s.workers;
    FinishMoves(cfg, a, mid, w);
    hide Finish, Delete, WorkerOk, CarefulWorker;
  }

  lemma JobDoneMoves(cfg: Config, a: Allowed, s: State, w: nat, fault: Fault)
    requires Enabled(cfg, s, JobDone(w, fault)) && WorkerOk(cfg, s, s.workers[w]) && CarefulWorker(cfg, a, s.workers[w])
    ensures Moves(cfg, a, s, DoJobDone(cfg, s, w, fault), w)
  {
    if s.workers[w].phase.plan.Retry? {
      RetryMoves(cfg, a, s, w, fault);
    } else if s.workers[w].phase.plan.Extend? {
      hide WorkerOk, CarefulWorker, Finish;
      TaskGiven(cfg, s, s.workers[w]);
      FinishMoves(cfg, a, s, w);
    } else {
      FinalMoves(cfg, a, s, w, fault);
      LetterGoesOn(cfg, a, s, w, fault);
      hide Moves, FinalDelete, WorkerOk, CarefulWorker;
    }
  }

  lemma TaskGiven(cfg: Config, s: State, wk: Worker)
    requires WorkerOk(cfg, s, wk)
    ensures TaskOk(cfg, wk)
  {
  }

  lemma LetterGoesOn(cfg: Config, a: Allowed, s: State, w: nat, fault: Fault)
    requires Enabled(cfg, s, JobDone(w, fault)) && s.workers[w].phase.plan.DeadLetter?
    requires CarefulWorker(cfg, a, s.workers[w])
    ensures var t := DoJobDone(cfg, s, w, fault);
            Moves(cfg, a, s, t, w) || t == FinalDelete(s, w, s.workers[w].phase.m, fault)
  {
    hide FinalDelete, RetryDelay;
  }

  // The other moves of a worker.
  lemma PlainMoves(cfg: Config, a: Allowed, s: State, e: Event)
    requires Enabled(cfg, s, e) && Within(cfg, a)(s, e)
    requires (e.Receive? && !e.lost) || e.CleanupDone? || e.Clear? || e.Cancel? || e.ForgetWorker?
    requires WorkerOk(cfg, s, s.workers[e.w]) && CarefulWorker(cfg, a, s.workers[e.w])
    ensures Moves(cfg, a, s, Next(cfg, s, e), e.w)
  {
    if e.CleanupDone? {
      FinalMoves(cfg, a, s, e.w, e.fault);
      hide Moves, FinalDelete, WorkerOk, CarefulWorker;
    } else if e.Cancel? {
      CancelMoves(cfg, a, s, e.w);
      hide Moves, DoCancel, WorkerOk, CarefulWorker;
    } else {
      hide FinalDelete, DoCancel, ReceiveSeconds, EntriesOk, OwnEntries, OwnProcess, RenewalOk, PhaseOk, TaskOk;
    }
  }

  lemma CancelMoves(cfg: Config, a: Allowed, s: State, w: nat)
    requires Busy(s, w) && Within(cfg, a)(s, Event.Cancel(w))
    requires WorkerOk(cfg, s, s.workers[w]) && CarefulWorker(cfg, a, s.workers[w])
    ensures Moves(cfg, a, s, DoCancel(s, w), w)
  {
    TaskGiven(cfg, s, s.workers[w]);
    hide WorkerOk, TaskOk, PhaseOrphans, Finish;
    FinishMoves(cfg, a, s.(orphans := s.orphans + PhaseOrphans(s.workers[w].phase)), w);
  }

  // The worker an event is about.
  function Actor(e: Event): Option<nat> {
    match e
    case Receive(w, _, lost) => if lost then None else Some(w)
    case Begin(w, _) => Some(w)
    case Wake(w) => Some(w)
    case RenewCall(w, _) => Some(w)
    case RenewDone(w) => Some(w)
    case WorkflowDone(w, _) => Some(w)
    case Settle(w, _) => Some(w)
    case SettleRaises(w, _) => Some(w)
    case JobCall(w, _) => Some(w)
    case JobDone(w, _) => Some(w)
    case CleanupDone(w, _) => Some(w)
    case Clear(w) => Some(w)
    case Cancel(w) => Some(w)
    case ForgetWorker(w) => Some(w)
    case _ => None
  }

  lemma ActorMoves(cfg: Config, a: Allowed, s: State, e: Event)
    requires Enabled(cfg, s, e) && Within(cfg, a)(s, e) && Actor(e).Some?
    requires WorkerOk(cfg, s, s.workers[e.w]) && CarefulWorker(cfg, a, s.workers[e.w])
    ensures Moves(cfg, a, s, Next(cfg, s, e), e.w)
  {
    hide Moves, CarefulWorker, WorkerOk, Within;
    match e
    case Begin(w, crash) => BeginMoves(cfg, a, s, w, crash);
    case Wake(w) => RenewalMoves(cfg, a, s, e);
    case RenewCall(w, _) => RenewalMoves(cfg, a, s, e);
    case RenewDone(w) => RenewalMoves(cfg, a, s, e);
    case WorkflowDone(w, outcome) => WorkflowMoves(cfg, a, s, w, outcome);
    case Settle(w, _) => SettleMoves(cfg, a, s, e);
    case SettleRaises(w, _) => SettleMoves(cfg, a, s, e);
    case JobCall(w, fault) => JobCallMoves(cfg, a, s, w, fault);
    case JobDone(w, fault) => JobDoneMoves(cfg, a, s, w, fault);
    case _ => PlainMoves(cfg, a, s, e);
  }

  lemma OthersStay(cfg: Config, s: State, e: Event)
    requires Enabled(cfg, s, e) && Actor(e).None?
    ensures Next(cfg, s, e).workers == s.workers
  {
  }

  // ---- reasons -----------------------------------------------------------------

  // The message deleted after a letter was sent is the one the letter is of.
  lemma TidyTarget(cfg: Config, a: Allowed, s: State, wk: Worker)
    requires WorkerOk(cfg, s, wk) && CarefulWorker(cfg, a, wk) && wk.phase != Polling && !wk.phase.Starting?
    requires !(a.interrupts && a.staleBegins)
    ensures Target(wk, wk.phase.m).0 == wk.phase.m.id
    ensures wk.phase.Failing? && wk.phase.state.call.Update? ==> wk.phase.state.call.id == wk.phase.m.id
  {
  }

  lemma DeleteReasons(s: State, id: nat, receipt: Receipt, fault: Fault, why: Reason)
    requires OwnReasons(s) && (why.AfterDeadLetter? ==> why.of == id)
    ensures OwnReasons(Delete(s, id, receipt, fault, why))
  {
  }

  lemma FinalReasons(s: State, w: nat, fault: Fault)
    requires OwnReasons(s) && Busy(s, w) && Target(s.workers[w], s.workers[w].phase.m).0 == s.workers[w].phase.m.id
    ensures OwnReasons(FinalDelete(s, w, s.workers[w].phase.m, fault))
  {
    var m := s.workers[w].phase.m;
    DeleteReasons(s, m.id, Target(s.workers[w], m).1, fault, AfterDeadLetter(m.id));
    hide Delete;
  }

  lemma SettleReasons(cfg: Config, s: State, e: Event)
    requires OwnReasons(s) && Enabled(cfg, s, e) && (e.Settle? || e.SettleRaises?)
    ensures OwnReasons(Next(cfg, s, e))
  {
    var target, s' := Target(s.workers[e.w], s.workers[e.w].phase.m), Settling(s, e.w);
    DeleteReasons(s', target.0, target.1, e.fault, AfterSuccess);
    hide Delete, MaxAttempts, RetryDelay;
  }

  lemma StopReasons(s: State, w: nat, fault: Fault)
    requires OwnReasons(s) && w in s.workers
    ensures OwnReasons(DoStopProcess(s, w, fault))
  {
  }

  lemma ReasonsStayOwn(cfg: Config, a: Allowed, s: State, e: Event)
    requires Enabled(cfg, s, e) && OwnReasons(s) && !(a.interrupts && a.staleBegins)
    requires Actor(e).Some? ==> WorkerOk(cfg, s, s.workers[e.w]) && CarefulWorker(cfg, a, s.workers[e.w])
    ensures OwnReasons(Next(cfg, s, e))
  {
    if e.Settle? || e.SettleRaises? {
      SettleReasons(cfg, s, e);
    } else if e.StopProcess? {
      StopReasons(s, e.w, e.fault);
    } else if e.JobDone? || e.CleanupDone? {
      TidyTarget(cfg, a, s, s.workers[e.w]);
      hide WorkerOk, CarefulWorker;
      FinalReasons(s, e.w, e.fault);
      hide FinalDelete, OwnReasons, RetryDelay;
      if e.JobDone? { KeptReasons(cfg, s, e); }
    } else {
      hide WorkerOk, CarefulWorker;
      OtherReasons(cfg, s, e);
    }
  }

  lemma KeptReasons(cfg: Config, s: State, e: Event)
    requires Enabled(cfg, s, e) && e.JobDone? && OwnReasons(s)
    ensures OwnReasons(FinalDelete(s, e.w, s.workers[e.w].phase.m, e.fault)) ==> OwnReasons(Next(cfg, s, e))
  {
    hide FinalDelete, RetryDelay;
  }

  lemma OtherReasons(cfg: Config, s: State, e: Event)
    requires Enabled(cfg, s, e)
    requires !e.Settle? && !e.SettleRaises? && !e.StopProcess? && !e.JobDone? && !e.CleanupDone?
    ensures Next(cfg, s, e).removed == s.removed
  {
    if e.Begin? { BeginReasons(cfg, s, e.w, e.crash); }
    if e.Cancel? { CancelReasons(s, e.w); }
    if e.WorkflowDone? { WorkflowReasons(s, e.w, e.outcome); }
    hide DoBegin, DoCancel, DoWorkflowDone, SleepSeconds, RenewSeconds, ReceiveSeconds, NextSleep,
         CallQueue, CallDead, CallAnswer, CallTaint;
  }

  lemma BeginReasons(cfg: Config, s: State, w: nat, crash: bool)
    requires Enabled(cfg, s, Begin(w, crash))
    ensures DoBegin(cfg, s, w, crash).removed == s.removed
  {
  }

  lemma CancelReasons(s: State, w: nat)
    requires Busy(s, w)
    ensures DoCancel(s, w).removed == s.removed
  {
  }

  lemma WorkflowReasons(s: State, w: nat, outcome: Outcome)
    requires w in s.workers && s.workers[w].phase.Running?
    ensures DoWorkflowDone(s, w, outcome).removed == s.removed
  {
  }

  // ---- runs ----------------------------------------------------------------------

  lemma CarefulNext(cfg: Config, a: Allowed, s: State, e: Event)
    requires Inv(cfg, s) && Careful(cfg, a, s) && Enabled(cfg, s, e) && Within(cfg, a)(s, e)
    ensures Careful(cfg, a, Next(cfg, s, e))
  {
    hide Inv, WorkerOk, CarefulWorker, OwnReasons, Next, Within;
    if Actor(e).Some? {
      ActorIsThere(cfg, s, e);
      InvGivesWorker(cfg, s, e.w);
      ActorMoves(cfg, a, s, e);
    } else {
      OthersStay(cfg, s, e);
    }
    if !(a.interrupts && a.staleBegins) { ReasonsStayOwn(cfg, a, s, e); }
  }

  lemma ActorIsThere(cfg: Config, s: State, e: Event)
    requires Enabled(cfg, s, e) && Actor(e).Some?
    ensures Actor(e) == Some(e.w) && e.w in s.workers
  {
  }

  lemma {:induction false} CarefulRun(cfg: Config, a: Allowed, s0: State, events: seq<Event>)
    requires Initial(s0) && RunOf(cfg, Within(cfg, a), s0, events)
    ensures After(cfg, s0, events).Some? && Careful(cfg, a, After(cfg, s0, events).value)
  {
    if events != [] {
      var n := |events| - 1;
      CarefulRun(cfg, a, s0, events[..n]);
      RunKeeps(cfg, s0, events[..n]);
      CarefulNext(cfg, a, After(cfg, s0, events[..n]).value, events[n]);
    }
  }

  // Without cancellations at the await of the finally block, every way out of
  // message processing clears the entries.
  lemma CalmIsClear(cfg: Config, a: Allowed, s0: State, events: seq<Event>)
    requires Initial(s0) && RunOf(cfg, Within(cfg, a), s0, events) && !a.interrupts
    ensures After(cfg, s0, events).Some? && PollingClear(After(cfg, s0, events).value)
  {
    CarefulRun(cfg, a, s0, events);
    RunKeeps(cfg, s0, events);
    var s := After(cfg, s0, events).value;
    forall w | w in s.workers && s.workers[w].phase == Polling ensures s.workers[w] == Idle {
      InvGivesWorker(cfg, s, w);
      assert CarefulWorker(cfg, a, s.workers[w]);
    }
  }

  // Without them, or without malformed messages begun under entries, every
  // message is accounted for and every call names the worker's own message.
  lemma CarefulIsSound(cfg: Config, a: Allowed, s0: State, events: seq<Event>)
    requires Initial(s0) && RunOf(cfg, Within(cfg, a), s0, events) && !(a.interrupts && a.staleBegins)
    ensures After(cfg, s0, events).Some? && Sound(cfg, After(cfg, s0, events).value)
  {
    CarefulRun(cfg, a, s0, events);
    RunKeeps(cfg, s0, events);
    var s := After(cfg, s0, events).value;
    hide After, RunOf, Within;
    forall id | id in s.enqueued ensures Accounted(s, id) {
      if id in s.removed { assert ReasonOk(cfg, s, id, s.removed[id]); }
    }
    forall w, id, receipt | Busy(s, w) && !s.workers[w].phase.Starting? && MayCall(cfg, s.workers[w], id, receipt)
      ensures id == s.workers[w].phase.m.id
    {
      InvGivesWorker(cfg, s, w);
      TidyTarget(cfg, a, s, s.workers[w]);
      assert RenewalOk(s.workers[w].phase.m, s.workers[w].renewal);
    }
  }

  // ---- the restrictions are exact ---------------------------------------------------

  const OneWorker := State(0, true, map[], 0, 0, [], map[0 := Idle], [], map[], {}, map[], [], {})

  // A worker is back at polling with entries that still match the queue.
  predicate Leftover(s: State, w: nat, id: nat, receipt: Receipt) {
    && w in s.workers && s.workers[w].phase == Polling && !s.workers[w].task
    && s.workers[w].tracked == Some((id, receipt)) && Matches(s.queue, id, receipt) && id < s.nextId
  }

  function FirstJob(cfg: Config, content: string, phase: Phase, renewal: Renewal, task: bool): State
    requires cfg.parse(content).Some?
  {
    var claim := cfg.parse(content).value;
    OneWorker.(
      queue := map[0 := Message(content, 1, Receipt(1, 0), ReceiveSeconds(cfg))],
      nextId := 1, nextLease := 2, enqueued := map[0 := content],
      workers := map[0 := Worker(phase, Some((0, Receipt(1, 0))), Some(claim), Some(claim), renewal, task)])
  }

  // A job is cancelled, and again while its finally block waits for the
  // renewal: the entries stay.
  function InterruptRun(content: string): seq<Event> {
    [Enqueue(content), Receive(0, 0, false), Begin(0, false), Cancel(0), Cancel(0)]
  }

  lemma InterruptLeaves(cfg: Config, a: Allowed, content: string) returns (end: State)
    requires cfg.parse(content).Some? && a.interrupts
    ensures Follows(cfg, Within(cfg, a), OneWorker, InterruptRun(content), end)
    ensures Leftover(end, 0, 0, Receipt(1, 0)) && end.nextId == 1
    ensures end.enqueued == map[0 := content] && end.completed == {} && end.dead == [] && end.removed == map[]
  {
    var m := Received(0, content, 1, Receipt(1, 0));
    var running := FirstJob(cfg, content, Running(m, cfg.parse(content).value), NextSleep(cfg, OneWorker), true);
    var clearing := FirstJob(cfg, content, Clearing(m), NotRenewing, true);
    end := FirstJob(cfg, content, Polling, NotRenewing, false);
    var ok := Within(cfg, a);
    JobInterrupted(cfg, content);
    InterruptRunIs(content);
    FirstLeft(cfg, content);
    assert Follows(cfg, ok, end, [], end);
    hide Follows, Next, Enabled, NextSleep, InterruptRun, FirstJob, Leftover;
    Then(cfg, ok, clearing, Cancel(0), [], end);
    Then(cfg, ok, running, Cancel(0), [Cancel(0)] + [], end);
    JobStarts(cfg, a, content, [Cancel(0)] + ([Cancel(0)] + []), end);
  }

  lemma FirstLeft(cfg: Config, content: string)
    requires cfg.parse(content).Some?
    ensures var end := FirstJob(cfg, content, Polling, NotRenewing, false);
            && Leftover(end, 0, 0, Receipt(1, 0)) && end.nextId == 1
            && end.enqueued == map[0 := content] && end.completed == {} && end.dead == [] && end.removed == map[]
  {
  }

  lemma InterruptRunIs(content: string)
    ensures InterruptRun(content)
         == [Enqueue(content)] + ([Receive(0, 0, false)] + ([Begin(0, false)] + ([Cancel(0)] + ([Cancel(0)] + []))))
  {
  }

  lemma JobInterrupted(cfg: Config, content: string)
    requires cfg.parse(content).Some?
    ensures var m := Received(0, content, 1, Receipt(1, 0));
            var running := FirstJob(cfg, content, Running(m, cfg.parse(content).value), NextSleep(cfg, OneWorker),
                                    true);
            var clearing := FirstJob(cfg, content, Clearing(m), NotRenewing, true);
            var end := FirstJob(cfg, content, Polling, NotRenewing, false);
            && Enabled(cfg, running, Cancel(0)) && Next(cfg, running, Cancel(0)) == clearing
            && Enabled(cfg, clearing, Cancel(0)) && Next(cfg, clearing, Cancel(0)) == end
  {
  }

  lemma JobStarts(cfg: Config, a: Allowed, content: string, rest: seq<Event>, end: State)
    requires cfg.parse(content).Some?
    requires var m := Received(0, content, 1, Receipt(1, 0));
             Follows(cfg, Within(cfg, a), FirstJob(cfg, content, Running(m, cfg.parse(content).value),
                                                   NextSleep(cfg, OneWorker), true), rest, end)
    ensures Follows(cfg, Within(cfg, a), OneWorker,
                    [Enqueue(content)] + ([Receive(0, 0, false)] + ([Begin(0, false)] + rest)), end)
  {
    hide Follows, SleepSeconds, ReceiveSeconds;
    var ok := Within(cfg, a);
    var m := Received(0, content, 1, Receipt(1, 0));
    var s1 := Next(cfg, OneWorker, Enqueue(content));
    var s2 := Next(cfg, s1, Receive(0, 0, false));
    assert Next(cfg, s2, Begin(0, false))
        == FirstJob(cfg, content, Running(m, cfg.parse(content).value), NextSleep(cfg, OneWorker), true);
    Then(cfg, ok, s2, Begin(0, false), rest, end);
    Then(cfg, ok, s1, Receive(0, 0, false), [Begin(0, false)] + rest, end);
    Then(cfg, ok, OneWorker, Enqueue(content), [Receive(0, 0, false)] + ([Begin(0, false)] + rest), end);
  }

  // The state in which a malformed message is handled under such entries.
  function Misled(cfg: Config, s: State, w: nat, bad: string, state: CallState): State
    requires w in s.workers
  {
    var m := Received(s.nextId, bad, 1, Receipt(s.nextLease + 1, 0));
    s.(queue := s.queue[s.nextId := Message(bad, 1, m.receipt, s.now + ReceiveSeconds(cfg))],
       nextId := s.nextId + 1, nextLease := s.nextLease + 2, enqueued := s.enqueued[s.nextId := bad],
       dead := s.dead + if state.Answered? then [LetterFor(m, true)] else [],
       workers := s.workers[w := s.workers[w].(phase := Failing(m, DeadLetter(true, None), state))])
  }

  function BadReceived(s: State, bad: string): Received {
    Received(s.nextId, bad, 1, Receipt(s.nextLease + 1, 0))
  }

  lemma BadArrives(cfg: Config, s: State, w: nat, bad: string)
    requires w in s.workers && s.workers[w].phase == Polling && cfg.parse(bad).None?
    ensures var s1 := DoEnqueue(s, bad);
            && Enabled(cfg, s1, Receive(w, s.nextId, false))
            && (var s2 := DoReceive(cfg, s1, w, s.nextId, false);
                && Enabled(cfg, s2, Begin(w, false))
                && DoBegin(cfg, s2, w, false)
                   == Misled(cfg, s, w, bad, Issued(Send(LetterFor(BadReceived(s, bad), true)))))
  {
    hide ReceiveSeconds, MaxAttempts;
    var misled := Misled(cfg, s, w, bad, Issued(Send(LetterFor(BadReceived(s, bad), true))));
    var t := DoBegin(cfg, DoReceive(cfg, DoEnqueue(s, bad), w, s.nextId, false), w, false);
    assert t.queue == misled.queue && t.workers == misled.workers && misled.dead == s.dead;
  }

  lemma BadBegins(cfg: Config, a: Allowed, s: State, w: nat, bad: string, rest: seq<Event>, end: State)
    requires w in s.workers && s.workers[w].phase == Polling && cfg.parse(bad).None? && a.staleBegins
    requires var sending := Issued(Send(LetterFor(BadReceived(s, bad), true)));
             Follows(cfg, Within(cfg, a), Misled(cfg, s, w, bad, sending), rest, end)
    ensures Follows(cfg, Within(cfg, a), s,
                    [Enqueue(bad)] + ([Receive(w, s.nextId, false)] + ([Begin(w, false)] + rest)), end)
  {
    var ok := Within(cfg, a);
    var s1 := Next(cfg, s, Enqueue(bad));
    var s2 := Next(cfg, s1, Receive(w, s.nextId, false));
    BadArrives(cfg, s, w, bad);
    hide Follows, ReceiveSeconds, Misled, BadReceived, DoReceive, DoBegin, DoEnqueue;
    Then(cfg, ok, s2, Begin(w, false), rest, end);
    Then(cfg, ok, s1, Receive(w, s.nextId, false), [Begin(w, false)] + rest, end);
    Then(cfg, ok, s, Enqueue(bad), [Receive(w, s.nextId, false)] + ([Begin(w, false)] + rest), end);
  }

  lemma BadEnds(cfg: Config, a: Allowed, s: State, w: nat, bad: string, id: nat, receipt: Receipt) returns (end: State)
    requires Leftover(s, w, id, receipt)
    ensures var sending := Issued(Send(LetterFor(BadReceived(s, bad), true)));
            Follows(cfg, Within(cfg, a), Misled(cfg, s, w, bad, sending),
                    [JobCall(w, NoFault)] + ([JobDone(w, NoFault)] + []), end)
    ensures id !in end.queue && s.nextId in end.queue && end.removed == s.removed[id := AfterDeadLetter(s.nextId)]
    ensures end.enqueued == s.enqueued[s.nextId := bad] && end.completed == s.completed
    ensures end.dead == s.dead + [LetterFor(BadReceived(s, bad), true)]
  {
    var ok := Within(cfg, a);
    var call := Send(LetterFor(BadReceived(s, bad), true));
    var s1 := Misled(cfg, s, w, bad, Issued(call));
    var s2 := Misled(cfg, s, w, bad, Answered(call, Done(Receipt(0, 0))));
    BadIsSent(cfg, s, w, bad);
    end := Next(cfg, s2, JobDone(w, NoFault));
    BadDeletes(cfg, s, w, bad, id, receipt);
    assert Follows(cfg, ok, end, [], end);
    hide Follows, Misled, BadReceived, DoJobCall, DoJobDone, ReceiveSeconds;
    Then(cfg, ok, s2, JobDone(w, NoFault), [], end);
    Then(cfg, ok, s1, JobCall(w, NoFault), [JobDone(w, NoFault)] + [], end);
  }

  lemma BadIsSent(cfg: Config, s: State, w: nat, bad: string)
    requires w in s.workers
    ensures var call := Send(LetterFor(BadReceived(s, bad), true));
            var s1 := Misled(cfg, s, w, bad, Issued(call));
            && Enabled(cfg, s1, JobCall(w, NoFault))
            && DoJobCall(s1, w, NoFault) == Misled(cfg, s, w, bad, Answered(call, Done(Receipt(0, 0))))
  {
    hide ReceiveSeconds;
    var call := Send(LetterFor(BadReceived(s, bad), true));
    assert DoJobCall(Misled(cfg, s, w, bad, Issued(call)), w, NoFault).workers
        == Misled(cfg, s, w, bad, Answered(call, Done(Receipt(0, 0)))).workers;
  }

  lemma BadDeletes(cfg: Config, s: State, w: nat, bad: string, id: nat, receipt: Receipt)
    requires Leftover(s, w, id, receipt)
    ensures var s2 := Misled(cfg, s, w, bad, Answered(Send(LetterFor(BadReceived(s, bad), true)), Done(Receipt(0, 0))));
            && Enabled(cfg, s2, JobDone(w, NoFault))
            && (var end := DoJobDone(cfg, s2, w, NoFault);
                && id !in end.queue && s.nextId in end.queue
                && end.removed == s.removed[id := AfterDeadLetter(s.nextId)]
                && end.enqueued == s.enqueued[s.nextId := bad] && end.completed == s.completed
                && end.dead == s.dead + [LetterFor(BadReceived(s, bad), true)])
  {
    hide ReceiveSeconds;
  }

  // A malformed message, from its arrival to the end of its handling.
  function BadRun(w: nat, n: nat, bad: string): seq<Event> {
    [Enqueue(bad), Receive(w, n, false), Begin(w, false), JobCall(w, NoFault), JobDone(w, NoFault)]
  }

  // From any state with such entries: if a malformed message comes next, no
  // call failing, the message the entries name is deleted, and the malformed
  // one, whose letter was sent, stays queued.
  lemma LeftoverLoses(cfg: Config, a: Allowed, s: State, w: nat, bad: string, id: nat, receipt: Receipt)
      returns (end: State)
    requires Leftover(s, w, id, receipt) && cfg.parse(bad).None? && a.staleBegins
    ensures Follows(cfg, Within(cfg, a), s, BadRun(w, s.nextId, bad), end)
    ensures id !in end.queue && s.nextId in end.queue && end.removed == s.removed[id := AfterDeadLetter(s.nextId)]
    ensures end.enqueued == s.enqueued[s.nextId := bad] && end.completed == s.completed
    ensures end.dead == s.dead + [LetterFor(BadReceived(s, bad), true)]
  {
    end := BadEnds(cfg, a, s, w, bad, id, receipt);
    BadBegins(cfg, a, s, w, bad, [JobCall(w, NoFault)] + ([JobDone(w, NoFault)] + []), end);
    assert BadRun(w, s.nextId, bad)
        == [Enqueue(bad)] + ([Receive(w, s.nextId, false)] + ([Begin(w, false)]
           + ([JobCall(w, NoFault)] + ([JobDone(w, NoFault)] + []))));
  }

  lemma {:induction false} FollowsOn(cfg: Config, ok: Guard, s: State, one: seq<Event>, t: State, two: seq<Event>,
                                     end: State)
    requires Follows(cfg, ok, s, one, t) && Follows(cfg, ok, t, two, end)
    ensures Follows(cfg, ok, s, one + two, end)
    decreases |one|
  {
    if one == [] {
      assert one + two == two;
    } else {
      FollowsOn(cfg, ok, Next(cfg, s, one[0]), one[1..], t, two, end);
      assert (one + two)[1..] == one[1..] + two;
    }
  }

  // So after two cancellations and a malformed message, a message is neither
  // queued nor completed nor dead-lettered, and nobody stopped it.
  lemma InterruptLoses(cfg: Config, a: Allowed, content: string, bad: string) returns (end: State)
    requires cfg.parse(content).Some? && cfg.parse(bad).None? && a.interrupts && a.staleBegins
    ensures RunOf(cfg, Within(cfg, a), OneWorker, InterruptRun(content) + BadRun(0, 1, bad))
    ensures After(cfg, OneWorker, InterruptRun(content) + BadRun(0, 1, bad)) == Some(end)
    ensures 0 in end.enqueued && !Accounted(end, 0)
  {
    var mid := InterruptLeaves(cfg, a, content);
    end := LeftoverLoses(cfg, a, mid, 0, bad, 0, Receipt(1, 0));
    hide Follows, InterruptRun, BadRun, Within, RunOf, After;
    FollowsOn(cfg, Within(cfg, a), OneWorker, InterruptRun(content), mid, BadRun(0, 1, bad), end);
    ScriptEnds(cfg, Within(cfg, a), OneWorker, InterruptRun(content) + BadRun(0, 1, bad), end);
  }

  // One cancellation is enough after a crash: the retry has stored a current
  // receipt, and the renewal is still there to be waited for.
  function CrashRun(content: string): seq<Event> {
    [Enqueue(content), Receive(0, 0, false), Begin(0, true), JobCall(0, NoFault), JobDone(0, NoFault), Cancel(0)]
  }

  // The first job after its crash: what the queue and the entries hold.
  function Crashed(cfg: Config, content: string, msg: Message, version: nat, phase: Phase, renewal: Renewal,
                   task: bool): State
    requires cfg.parse(content).Some?
  {
    var claim := cfg.parse(content).value;
    OneWorker.(
      queue := map[0 := msg], nextId := 1, nextLease := 2, enqueued := map[0 := content], tainted := {1},
      workers := map[0 := Worker(phase, Some((0, Receipt(1, version))), Some(claim), Some(claim), renewal, task)])
  }

  const Stored := Done(Receipt(1, 1))

  function Retrying(cfg: Config, content: string, answered: bool): Phase {
    var call := Update(0, Receipt(1, 0), RetryDelay(cfg));
    Failing(Received(0, content, 1, Receipt(1, 0)), Retry, if answered then Answered(call, Stored) else Issued(call))
  }

  function CrashBegun(cfg: Config, content: string): State
    requires cfg.parse(content).Some?
  {
    Crashed(cfg, content, Message(content, 1, Receipt(1, 0), ReceiveSeconds(cfg)), 0, Retrying(cfg, content, false),
            NextSleep(cfg, OneWorker), true)
  }

  lemma CrashBegins(cfg: Config, a: Allowed, content: string, rest: seq<Event>, end: State)
    requires cfg.parse(content).Some? && MaxAttempts(cfg) > 1
    requires Follows(cfg, Within(cfg, a), CrashBegun(cfg, content), rest, end)
    ensures Follows(cfg, Within(cfg, a), OneWorker,
                    [Enqueue(content)] + ([Receive(0, 0, false)] + ([Begin(0, true)] + rest)), end)
  {
    hide Follows, SleepSeconds, ReceiveSeconds, RetryDelay, MaxAttempts;
    var ok := Within(cfg, a);
    var s1 := Next(cfg, OneWorker, Enqueue(content));
    var s2 := Next(cfg, s1, Receive(0, 0, false));
    assert Next(cfg, s2, Begin(0, true)).workers == CrashBegun(cfg, content).workers;
    assert Next(cfg, s2, Begin(0, true)) == CrashBegun(cfg, content);
    Then(cfg, ok, s2, Begin(0, true), rest, end);
    Then(cfg, ok, s1, Receive(0, 0, false), [Begin(0, true)] + rest, end);
    Then(cfg, ok, OneWorker, Enqueue(content), [Receive(0, 0, false)] + ([Begin(0, true)] + rest), end);
  }

  function Hidden(cfg: Config, content: string): Message {
    Message(content, 1, Receipt(1, 1), RetryDelay(cfg))
  }

  function CrashAnswered(cfg: Config, content: string): State
    requires cfg.parse(content).Some?
  {
    Crashed(cfg, content, Hidden(cfg, content), 0, Retrying(cfg, content, true), NextSleep(cfg, OneWorker), true)
  }

  function CrashClearing(cfg: Config, content: string): State
    requires cfg.parse(content).Some?
  {
    Crashed(cfg, content, Hidden(cfg, content), 1, Clearing(Received(0, content, 1, Receipt(1, 0))), NotRenewing, true)
  }

  function CrashLeft(cfg: Config, content: string): State
    requires cfg.parse(content).Some?
  {
    Crashed(cfg, content, Hidden(cfg, content), 1, Polling, NotRenewing, false)
  }

  lemma CrashCalls(cfg: Config, content: string)
    requires cfg.parse(content).Some?
    ensures Enabled(cfg, CrashBegun(cfg, content), JobCall(0, NoFault))
    ensures Next(cfg, CrashBegun(cfg, content), JobCall(0, NoFault)) == CrashAnswered(cfg, content)
  {
    hide SleepSeconds, ReceiveSeconds, RetryDelay, MaxAttempts;
  }

  lemma CrashStores(cfg: Config, content: string)
    requires cfg.parse(content).Some?
    ensures Enabled(cfg, CrashAnswered(cfg, content), JobDone(0, NoFault))
    ensures Next(cfg, CrashAnswered(cfg, content), JobDone(0, NoFault)) == CrashClearing(cfg, content)
  {
    hide SleepSeconds, ReceiveSeconds, RetryDelay, MaxAttempts;
    var s := CrashAnswered(cfg, content);
    assert s.orphans + RenewalOrphans(s.workers[0].renewal) == s.orphans;
    assert s.tainted + RenewalTaint(s.workers[0]) == s.tainted;
    assert Next(cfg, s, JobDone(0, NoFault)).workers == CrashClearing(cfg, content).workers;
  }

  lemma CrashInterrupted(cfg: Config, content: string)
    requires cfg.parse(content).Some?
    ensures Enabled(cfg, CrashClearing(cfg, content), Cancel(0))
    ensures Next(cfg, CrashClearing(cfg, content), Cancel(0)) == CrashLeft(cfg, content)
  {
    hide Hidden;
  }

  lemma CrashLeaves(cfg: Config, a: Allowed, content: string) returns (end: State)
    requires cfg.parse(content).Some? && MaxAttempts(cfg) > 1 && a.interrupts
    ensures Follows(cfg, Within(cfg, a), OneWorker, CrashRun(content), end)
    ensures Leftover(end, 0, 0, Receipt(1, 1)) && end.nextId == 1
    ensures end.enqueued == map[0 := content] && end.completed == {} && end.dead == [] && end.removed == map[]
  {
    end := CrashLeft(cfg, content);
    CrashSteps(cfg, a, content);
    hide *;
    CrashBegins(cfg, a, content, [JobCall(0, NoFault)] + ([JobDone(0, NoFault)] + ([Cancel(0)] + [])), end);
    CrashRunIs(content);
  }

  lemma CrashSteps(cfg: Config, a: Allowed, content: string)
    requires cfg.parse(content).Some? && a.interrupts
    ensures var end := CrashLeft(cfg, content);
            && Follows(cfg, Within(cfg, a), CrashBegun(cfg, content),
                       [JobCall(0, NoFault)] + ([JobDone(0, NoFault)] + ([Cancel(0)] + [])), end)
            && Leftover(end, 0, 0, Receipt(1, 1)) && end.nextId == 1
            && end.enqueued == map[0 := content] && end.completed == {} && end.dead == [] && end.removed == map[]
  {
    var ok, end := Within(cfg, a), CrashLeft(cfg, content);
    CrashCalls(cfg, content);
    CrashStores(cfg, content);
    CrashInterrupted(cfg, content);
    assert Follows(cfg, ok, end, [], end);
    hide Follows, Next, Enabled, CrashBegun, CrashAnswered, CrashClearing, RetryDelay;
    Then(cfg, ok, CrashClearing(cfg, content), Cancel(0), [], end);
    Then(cfg, ok, CrashAnswered(cfg, content), JobDone(0, NoFault), [Cancel(0)] + [], end);
    Then(cfg, ok, CrashBegun(cfg, content), JobCall(0, NoFault), [JobDone(0, NoFault)] + ([Cancel(0)] + []), end);
  }

  lemma CrashRunIs(content: string)
    ensures CrashRun(content)
         == [Enqueue(content)] + ([Receive(0, 0, false)] + ([Begin(0, true)] +
            ([JobCall(0, NoFault)] + ([JobDone(0, NoFault)] + ([Cancel(0)] + [])))))
  {
  }

  lemma CrashLoses(cfg: Config, a: Allowed, content: string, bad: string) returns (end: State)
    requires cfg.parse(content).Some? && cfg.parse(bad).None? && MaxAttempts(cfg) > 1 && a.interrupts && a.staleBegins
    ensures RunOf(cfg, Within(cfg, a), OneWorker, CrashRun(content) + BadRun(0, 1, bad))
    ensures After(cfg, OneWorker, CrashRun(content) + BadRun(0, 1, bad)) == Some(end)
    ensures 0 in end.enqueued && !Accounted(end, 0)
  {
    var mid := CrashLeaves(cfg, a, content);
    end := LeftoverLoses(cfg, a, mid, 0, bad, 0, Receipt(1, 1));
    hide Follows, CrashRun, BadRun, Within, RunOf, After;
    FollowsOn(cfg, Within(cfg, a), OneWorker, CrashRun(content), mid, BadRun(0, 1, bad), end);
    ScriptEnds(cfg, Within(cfg, a), OneWorker, CrashRun(content) + BadRun(0, 1, bad), end);
  }

  // ---- exactly ---------------------------------------------------------------------

  // Every run ends in such a state.
  ghost predicate Always(cfg: Config, ok: Guard, good: State -> bool) {
    forall s0, events :: Initial(s0) && RunOf(cfg, ok, s0, events) ==>
      After(cfg, s0, events).Some? && good(After(cfg, s0, events).value)
  }

  // Polling workers are clear in every run if and only if no cancellation may
  // land at the await of the finally block.
  lemma ClearExactly(cfg: Config, a: Allowed, content: string)
    requires cfg.parse(content).Some?
    ensures Always(cfg, Within(cfg, a), s => PollingClear(s)) <==> !a.interrupts
  {
    if a.interrupts {
      var end := InterruptLeaves(cfg, a, content);
      ScriptEnds(cfg, Within(cfg, a), OneWorker, InterruptRun(content), end);
      assert Initial(OneWorker) && !PollingClear(end);
    } else {
      forall s0, events | Initial(s0) && RunOf(cfg, Within(cfg, a), s0, events)
        ensures After(cfg, s0, events).Some? && PollingClear(After(cfg, s0, events).value)
      {
        CalmIsClear(cfg, a, s0, events);
      }
    }
  }

  // No message is silently lost in any run if and only if the two things do
  // not both happen.
  lemma LossExactly(cfg: Config, a: Allowed, content: string, bad: string)
    requires cfg.parse(content).Some? && cfg.parse(bad).None?
    ensures Always(cfg, Within(cfg, a), s => NothingLost(s)) <==> !(a.interrupts && a.staleBegins)
  {
    if a.interrupts && a.staleBegins {
      var end := InterruptLoses(cfg, a, content, bad);
      assert Initial(OneWorker) && !NothingLost(end);
    } else {
      forall s0, events | Initial(s0) && RunOf(cfg, Within(cfg, a), s0, events)
        ensures After(cfg, s0, events).Some? && NothingLost(After(cfg, s0, events).value)
      {
        CarefulIsSound(cfg, a, s0, events);
      }
    }
  }

  lemma BadIsMisled(cfg: Config, a: Allowed, s: State, w: nat, bad: string, id: nat, receipt: Receipt)
      returns (end: State)
    requires Leftover(s, w, id, receipt) && cfg.parse(bad).None? && a.staleBegins
    ensures Follows(cfg, Within(cfg, a), s,
                    [Enqueue(bad)] + ([Receive(w, s.nextId, false)] + ([Begin(w, false)] + [])), end)
    ensures !OwnCalls(cfg, end)
  {
    end := Misled(cfg, s, w, bad, Issued(Send(LetterFor(BadReceived(s, bad), true))));
    assert Busy(end, w) && MayCall(cfg, end.workers[w], id, receipt);
    BadBegins(cfg, a, s, w, bad, [], end);
  }

  // Nor does a worker then ever name a message that is not its own.
  lemma OwnCallsExactly(cfg: Config, a: Allowed, content: string, bad: string)
    requires cfg.parse(content).Some? && cfg.parse(bad).None?
    ensures Always(cfg, Within(cfg, a), s => OwnCalls(cfg, s)) <==> !(a.interrupts && a.staleBegins)
  {
    if a.interrupts && a.staleBegins {
      var mid := InterruptLeaves(cfg, a, content);
      var end := BadIsMisled(cfg, a, mid, 0, bad, 0, Receipt(1, 0));
      var script := [Enqueue(bad)] + ([Receive(0, mid.nextId, false)] + ([Begin(0, false)] + []));
      FollowsOn(cfg, Within(cfg, a), OneWorker, InterruptRun(content), mid, script, end);
      ScriptEnds(cfg, Within(cfg, a), OneWorker, InterruptRun(content) + script, end);
      assert Initial(OneWorker);
    } else {
      forall s0, events | Initial(s0) && RunOf(cfg, Within(cfg, a), s0, events)
        ensures After(cfg, s0, events).Some? && OwnCalls(cfg, After(cfg, s0, events).value)
      {
        CarefulIsSound(cfg, a, s0, events);
      }
    }
  }
}
