// The claim queue protocol as a step system: the storage queue, the
// dead-letter queue, and the workers of ClaimProcessingQueueService with
// their in-flight bookkeeping. One event is one stretch of code between two
// awaits, one effect at the storage service, or one tick of the clock.
module QueueProtocol {
  import opened Wrappers

  // A pop receipt. Each receive starts a new lease; each visibility update
  // under that lease replaces the receipt.
  datatype Receipt = Receipt(lease: nat, version: nat)

  datatype Message = Message(content: string, dequeueCount: nat, receipt: Receipt, visibleAt: nat)

  type Queue = map<nat, Message>

  // What a worker is handed: the message as it was when received.
  datatype Received = Received(id: nat, content: string, dequeueCount: nat, receipt: Receipt)

  datatype Letter = Letter(id: nat, content: string, attempt: nat, forced: bool)

  // A storage call issued from a thread. It outlives the coroutine that issued it.
  datatype Call =
    | Update(id: nat, receipt: Receipt, delay: nat)
    | Send(letter: Letter)

  // How the service answers: the new receipt, message gone, or any other
  // error (a stale receipt among them).
  datatype Answer = Done(receipt: Receipt) | NotFound | Failed

  // Whether a call fails although its request was fine: before it reaches the
  // service, or after it took effect.
  datatype Fault = NoFault | FailsBefore | FailsAfter

  datatype CallState = Issued(call: Call) | Answered(call: Call, answer: Answer)

  datatype Outcome = Succeeded | ExecutorFailed | OtherError

  datatype Renewal =
    | NotRenewing
    | Sleeping(wakeAt: nat)
    | Calling(wakeAt: nat, id: nat, receipt: Receipt, delay: nat, answer: Option<Answer>, answeredAt: nat)

  datatype Plan =
    | Retry
    | DeadLetter(forced: bool, cleanup: Option<string>)
    | Extend

  datatype Phase =
    | Polling
    | Starting(m: Received, since: nat)
    | Running(m: Received, claim: string)
    | Returned(m: Received, claim: string, outcome: Outcome)
    | Failing(m: Received, plan: Plan, state: CallState)
    | Cleaning(m: Received, letter: Letter, claim: string)
    | Clearing(m: Received)         // the finally block, waiting for the renewal it stopped

  // The three in-flight entries of a worker, its job and its renewal task;
  // "task" when the finally block will wait for that task.
  datatype Worker = Worker(
    phase: Phase,
    tracked: Option<(nat, Receipt)>,
    process: Option<string>,
    batch: Option<string>,
    renewal: Renewal,
    task: bool)

  const Idle := Worker(Polling, None, None, None, NotRenewing, false)

  // A deletion of the output blobs of a message's claim, and who asked for it.
  datatype Cleanup = Cleanup(id: nat, byStop: bool)

  // Why a message left the queue: its workflow returned, failure handling of a
  // message had sent that message's letter, or stop_process deleted it.
  datatype Reason = AfterSuccess | AfterDeadLetter(of: nat) | ByStopProcess

  datatype State = State(
    now: nat,
    running: bool,
    queue: Queue,
    nextId: nat,
    nextLease: nat,
    dead: seq<Letter>,
    workers: map<nat, Worker>,
    orphans: seq<Call>,             // issued calls whose task is gone
    // what happened so far
    enqueued: map<nat, string>,
    completed: set<nat>,            // workflow returned without error
    removed: map<nat, Reason>,
    cleaned: seq<Cleanup>,          // deletions of output blobs, from when they start
    tainted: set<nat>)              // leases whose bookkeeping was cut short

  datatype Config = Config(
    visibilityMinutes: nat,
    maxReceiveAttempts: int,
    retryDelaySeconds: int,
    parse: string -> Option<string>)   // payload to claim id; None if malformed

  function Max(a: int, b: int): int { if a > b then a else b }

  // Lease given by receive_messages.
  function ReceiveSeconds(cfg: Config): nat { cfg.visibilityMinutes * 60 }

  // Lease given by a renewal, and the sleep between renewals.
  function RenewSeconds(cfg: Config): nat { Max(30, cfg.visibilityMinutes * 60) }

  function SleepSeconds(cfg: Config): nat { Max(10, RenewSeconds(cfg) * 3 / 5) }

  // max(1, int(max_receive_attempts or 3))
  function MaxAttempts(cfg: Config): nat {
    if cfg.maxReceiveAttempts == 0 then 3 else Max(1, cfg.maxReceiveAttempts)
  }

  function RetryDelay(cfg: Config): nat { Max(0, cfg.retryDelaySeconds) }

  // ---- the storage service -------------------------------------------------

  predicate Matches(q: Queue, id: nat, receipt: Receipt) {
    id in q && q[id].receipt == receipt
  }

  function Renewed(receipt: Receipt): Receipt { receipt.(version := receipt.version + 1) }

  function UpdateQueue(q: Queue, now: nat, id: nat, receipt: Receipt, delay: nat): Queue {
    if Matches(q, id, receipt) then q[id := q[id].(receipt := Renewed(receipt), visibleAt := now + delay)] else q
  }

  function UpdateAnswer(q: Queue, id: nat, receipt: Receipt): Answer {
    if id !in q then NotFound else if q[id].receipt != receipt then Failed else Done(Renewed(receipt))
  }

  // The effect of a call on the queues, and the answer its thread sees.
  function CallQueue(s: State, call: Call, fault: Fault): Queue {
    if call.Update? && !fault.FailsBefore?
    then UpdateQueue(s.queue, s.now, call.id, call.receipt, call.delay)
    else s.queue
  }

  function CallDead(s: State, call: Call, fault: Fault): seq<Letter> {
    if call.Send? && !fault.FailsBefore? then s.dead + [call.letter] else s.dead
  }

  function CallAnswer(s: State, call: Call, fault: Fault): Answer {
    if !fault.NoFault? then Failed
    else match call
         case Update(id, receipt, _) => UpdateAnswer(s.queue, id, receipt)
         case Send(_) => Done(Receipt(0, 0))
  }

  // A lost answer leaves the caller with an outdated receipt.
  function CallTaint(call: Call, fault: Fault): set<nat> {
    if call.Update? && fault.FailsAfter? then {call.receipt.lease} else {}
  }

  function PerformCall(s: State, call: Call, fault: Fault): State {
    s.(queue := CallQueue(s, call, fault), dead := CallDead(s, call, fault),
       tainted := s.tainted + CallTaint(call, fault))
  }

  // delete_message, recording why the message left the queue.
  function Delete(s: State, id: nat, receipt: Receipt, fault: Fault, why: Reason): State {
    if !fault.FailsBefore? && Matches(s.queue, id, receipt) then
      s.(queue := s.queue - {id}, removed := s.removed[id := why])
    else s
  }

  // ---- the worker ----------------------------------------------------------

  // The latest tracked (id, receipt), or the one the message came with.
  function Target(wk: Worker, m: Received): (nat, Receipt) {
    if wk.tracked.Some? then wk.tracked.value else (m.id, m.receipt)
  }

  function Put(s: State, w: nat, wk: Worker): State { s.(workers := s.workers[w := wk]) }

  function Pending(state: CallState): seq<Call> {
    match state
    case Issued(call) => [call]
    case Answered(_, _) => []
  }

  // Cancelling a task: a call it has issued stays with the service.
  function RenewalOrphans(r: Renewal): seq<Call> {
    match r
    case Calling(_, id, receipt, delay, None, _) => [Update(id, receipt, delay)]
    case _ => []
  }

  function PhaseOrphans(p: Phase): seq<Call> {
    match p
    case Failing(_, _, state) => Pending(state)
    case _ => []
  }

  // A renewal stopped between its call and storing the answer.
  function RenewalTaint(wk: Worker): set<nat> {
    if wk.renewal.Calling? && wk.phase != Polling then {wk.phase.m.receipt.lease} else {}
  }

  function StopRenewal(s: State, w: nat): State
    requires w in s.workers
  {
    var wk := s.workers[w];
    Put(s.(orphans := s.orphans + RenewalOrphans(wk.renewal), tainted := s.tainted + RenewalTaint(wk)),
        w, wk.(renewal := NotRenewing))
  }

  // The finally block up to its await: with a renewal task it stops the renewal
  // and waits; without one it clears the in-flight entries at once.
  function Finish(s: State, w: nat): State
    requires w in s.workers && s.workers[w].phase != Polling
  {
    var wk := s.workers[w];
    var left := if wk.task then wk.(phase := Clearing(wk.phase.m), renewal := NotRenewing) else Idle;
    Put(StopRenewal(s, w), w, left)
  }

  // The rest of the finally block.
  function DoClear(s: State, w: nat): State
    requires w in s.workers && s.workers[w].phase.Clearing?
  {
    Put(s, w, Idle)
  }

  function LetterFor(m: Received, forced: bool): Letter {
    Letter(m.id, m.content, m.dequeueCount, forced)
  }

  // _handle_failed_no_retry up to its first await.
  function BeginFailure(cfg: Config, s: State, w: nat, m: Received, forced: bool, cleanup: Option<string>): State
    requires w in s.workers
  {
    var wk := s.workers[w];
    var target := Target(wk, m);
    if forced || m.dequeueCount >= MaxAttempts(cfg) then
      Put(s, w, wk.(phase := Failing(m, DeadLetter(forced, cleanup), Issued(Send(LetterFor(m, forced))))))
    else
      Put(s, w, wk.(phase := Failing(m, Retry, Issued(Update(target.0, target.1, RetryDelay(cfg))))))
  }

  datatype Event =
    | Tick(to: nat)
    | Enqueue(content: string)
    | Receive(w: nat, id: nat, lost: bool)
    | Begin(w: nat, crash: bool)
    | Wake(w: nat)
    | RenewCall(w: nat, fault: Fault)
    | RenewDone(w: nat)
    | WorkflowDone(w: nat, outcome: Outcome)
    | Settle(w: nat, fault: Fault)
    | SettleRaises(w: nat, fault: Fault)   // the delete after success raises what nobody expects
    | JobCall(w: nat, fault: Fault)
    | JobDone(w: nat, fault: Fault)
    | CleanupDone(w: nat, fault: Fault)
    | Clear(w: nat)
    | Cancel(w: nat)                    // stop_process, stop_worker, stop_service, or the host dying
    | StopProcess(w: nat, fault: Fault)
    | ForgetWorker(w: nat)              // stop_worker dropping its tracking entries
    | SetRunning(on: bool)
    | Orphan(i: nat, fault: Fault)

  predicate Enabled(cfg: Config, s: State, e: Event) {
    match e
    case Tick(to) => s.now <= to
    case Enqueue(_) => true
    case Receive(w, id, _) =>
      w in s.workers && s.workers[w].phase == Polling && id in s.queue && s.queue[id].visibleAt <= s.now
    case Begin(w, _) => w in s.workers && s.workers[w].phase.Starting?
    case Wake(w) => w in s.workers && s.workers[w].renewal.Sleeping? && s.workers[w].renewal.wakeAt <= s.now
    case RenewCall(w, _) =>
      w in s.workers && s.workers[w].renewal.Calling? && s.workers[w].renewal.answer.None?
    case RenewDone(w) =>
      w in s.workers && s.workers[w].renewal.Calling? && s.workers[w].renewal.answer.Some?
    case WorkflowDone(w, _) => w in s.workers && s.workers[w].phase.Running?
    case Settle(w, _) => w in s.workers && s.workers[w].phase.Returned?
    case SettleRaises(w, _) =>
      w in s.workers && s.workers[w].phase.Returned? && s.workers[w].phase.outcome.Succeeded?
    case JobCall(w, _) => w in s.workers && s.workers[w].phase.Failing? && s.workers[w].phase.state.Issued?
    case JobDone(w, _) => w in s.workers && s.workers[w].phase.Failing? && s.workers[w].phase.state.Answered?
    case CleanupDone(w, _) => w in s.workers && s.workers[w].phase.Cleaning?
    case Clear(w) => w in s.workers && s.workers[w].phase.Clearing?
    case Cancel(w) => w in s.workers && s.workers[w].phase != Polling
    case StopProcess(w, _) => w in s.workers && s.workers[w].process.Some?
    case ForgetWorker(w) => w in s.workers
    case SetRunning(_) => true
    case Orphan(i, _) => i < |s.orphans|
  }

  function DoEnqueue(s: State, content: string): State {
    s.(queue := s.queue[s.nextId := Message(content, 0, Receipt(s.nextLease, 0), s.now)],
       nextId := s.nextId + 1, nextLease := s.nextLease + 1,
       enqueued := s.enqueued[s.nextId := content])
  }

  // receive_messages; the in-flight entries are not touched. "lost" when the answer never reaches the worker.
  function DoReceive(cfg: Config, s: State, w: nat, id: nat, lost: bool): State
    requires w in s.workers && id in s.queue
  {
    var msg := s.queue[id].(
      dequeueCount := s.queue[id].dequeueCount + 1,
      receipt := Receipt(s.nextLease, 0),
      visibleAt := s.now + ReceiveSeconds(cfg));
    var s' := s.(queue := s.queue[id := msg], nextLease := s.nextLease + 1);
    if lost then s'
    else Put(s', w, s.workers[w].(phase := Starting(Received(id, msg.content, msg.dequeueCount, msg.receipt), s.now)))
  }

  // _process_queue_message up to the workflow call. "crash" when the workflow
  // cannot be resolved: failure handling then runs beside the renewal.
  function DoBegin(cfg: Config, s: State, w: nat, crash: bool): State
    requires w in s.workers && s.workers[w].phase.Starting?
  {
    var m := s.workers[w].phase.m;
    match cfg.parse(m.content)
    case None => BeginFailure(cfg, s, w, m, true, None)
    case Some(claim) =>
      var s' := Put(s, w, Worker(Running(m, claim), Some((m.id, m.receipt)), Some(claim), Some(claim),
                                 NextSleep(cfg, s), true));
      if crash then BeginFailure(cfg, s'.(tainted := s.tainted + {m.receipt.lease}), w, m, false, None) else s'
  }

  // The head of _renew_visibility_loop: stop, or sleep once more.
  function NextSleep(cfg: Config, s: State): Renewal {
    if s.running then Sleeping(s.now + SleepSeconds(cfg)) else NotRenewing
  }

  // _renew_visibility_loop after a sleep.
  function DoWake(cfg: Config, s: State, w: nat): State
    requires w in s.workers && s.workers[w].renewal.Sleeping?
  {
    var wk := s.workers[w];
    var renewal :=
      if wk.tracked.None? then NextSleep(cfg, s)
      else Calling(wk.renewal.wakeAt, wk.tracked.value.0, wk.tracked.value.1, RenewSeconds(cfg), None, s.now);
    Put(s, w, wk.(renewal := renewal))
  }

  function DoRenewCall(s: State, w: nat, fault: Fault): State
    requires w in s.workers && s.workers[w].renewal.Calling?
  {
    var wk := s.workers[w];
    var call := Update(wk.renewal.id, wk.renewal.receipt, wk.renewal.delay);
    Put(PerformCall(s, call, fault), w,
        wk.(renewal := wk.renewal.(answer := Some(CallAnswer(s, call, fault)), answeredAt := s.now)))
  }

  function DoRenewDone(cfg: Config, s: State, w: nat): State
    requires w in s.workers && s.workers[w].renewal.Calling? && s.workers[w].renewal.answer.Some?
  {
    var wk := s.workers[w];
    match wk.renewal.answer.value
    case Done(receipt) =>
      Put(s, w, wk.(tracked := Some((wk.renewal.id, receipt)), renewal := NextSleep(cfg, s)))
    case NotFound => Put(s, w, wk.(renewal := NotRenewing))
    case Failed => Put(s, w, wk.(renewal := NextSleep(cfg, s)))
  }

  // The workflow returned or raised: the renewal is stopped first.
  function DoWorkflowDone(s: State, w: nat, outcome: Outcome): State
    requires w in s.workers && s.workers[w].phase.Running?
  {
    var wk := s.workers[w];
    var s' := StopRenewal(s, w);
    Put(s'.(completed := if outcome.Succeeded? then s.completed + {wk.phase.m.id} else s.completed), w,
        s'.workers[w].(phase := Returned(wk.phase.m, wk.phase.claim, outcome)))
  }

  // The stopped renewal is over, and "renew_task" is None from here on.
  function Settling(s: State, w: nat): State
    requires w in s.workers
  {
    Put(s, w, s.workers[w].(task := false))
  }

  function DoSettle(cfg: Config, s: State, w: nat, fault: Fault): State
    requires w in s.workers && s.workers[w].phase.Returned?
  {
    var wk := s.workers[w];
    var m, target, s' := wk.phase.m, Target(wk, wk.phase.m), Settling(s, w);
    match wk.phase.outcome
    case Succeeded => Finish(Delete(s', target.0, target.1, fault, AfterSuccess), w)
    case ExecutorFailed => BeginFailure(cfg, s', w, m, true, Some(wk.phase.claim))
    case OtherError => BeginFailure(cfg, s', w, m, false, Some(wk.phase.claim))
  }

  // The last resort of _process_queue_message: the failure handling of a job
  // that went wrong, although its workflow returned.
  function DoSettleRaises(cfg: Config, s: State, w: nat, fault: Fault): State
    requires w in s.workers && s.workers[w].phase.Returned?
  {
    var wk := s.workers[w];
    var target := Target(wk, wk.phase.m);
    BeginFailure(cfg, Delete(Settling(s, w), target.0, target.1, fault, AfterSuccess), w, wk.phase.m, false, None)
  }

  function DoJobCall(s: State, w: nat, fault: Fault): State
    requires w in s.workers && s.workers[w].phase.Failing?
  {
    var wk := s.workers[w];
    var call := wk.phase.state.call;
    Put(PerformCall(s, call, fault), w, wk.(phase := wk.phase.(state := Answered(call, CallAnswer(s, call, fault)))))
  }

  // The last statement of failure handling: delete the dead-lettered message.
  function FinalDelete(s: State, w: nat, m: Received, fault: Fault): State
    requires w in s.workers && s.workers[w].phase != Polling
  {
    var target := Target(s.workers[w], m);
    Finish(Delete(s, target.0, target.1, fault, AfterDeadLetter(m.id)), w)
  }

  // The retry branch keeps the receipt its update returned.
  function StoreAnswer(s: State, w: nat): State
    requires w in s.workers && s.workers[w].phase.Failing? && s.workers[w].phase.state.Answered?
  {
    var wk := s.workers[w];
    var state := wk.phase.state;
    if state.call.Update? && state.answer.Done? then
      Put(s, w, wk.(tracked := Some((state.call.id, state.answer.receipt))))
    else s
  }

  // Failure handling after an await.
  function DoJobDone(cfg: Config, s: State, w: nat, fault: Fault): State
    requires w in s.workers && s.workers[w].phase.Failing? && s.workers[w].phase.state.Answered?
  {
    var wk := s.workers[w];
    var m := wk.phase.m;
    match wk.phase.plan
    case DeadLetter(forced, cleanup) =>
      if wk.phase.state.answer.Done? then
        match cleanup
        case Some(claim) =>
          Put(s.(cleaned := s.cleaned + [Cleanup(m.id, false)]), w,
              wk.(phase := Cleaning(m, LetterFor(m, forced), claim)))
        case None => FinalDelete(s, w, m, fault)
      else
        var target := Target(wk, m);
        Put(s, w, wk.(phase := Failing(m, Extend, Issued(Update(target.0, target.1, Max(60, RetryDelay(cfg)))))))
    case Retry => Finish(StoreAnswer(s, w), w)
    case Extend => Finish(s, w)
  }

  function DoCleanupDone(s: State, w: nat, fault: Fault): State
    requires w in s.workers && s.workers[w].phase.Cleaning?
  {
    FinalDelete(s, w, s.workers[w].phase.m, fault)
  }

  // A cancellation before the job's first step ends it without its finally
  // block, and one at the await of the finally block skips the rest of it: the
  // in-flight entries stay.
  function DoCancel(s: State, w: nat): State
    requires w in s.workers && s.workers[w].phase != Polling
  {
    var wk := s.workers[w];
    if wk.phase.Starting? || wk.phase.Clearing? then Put(s, w, wk.(phase := Polling, task := false))
    else Finish(s.(orphans := s.orphans + PhaseOrphans(wk.phase)), w)
  }

  // _delete_inflight_queue_message
  function DeleteTracked(s: State, w: nat, fault: Fault): State
    requires w in s.workers
  {
    match s.workers[w].tracked
    case None => s
    case Some(t) => Delete(s, t.0, t.1, fault, ByStopProcess)
  }

  // stop_process up to its first await: delete whatever is tracked, and start
  // deleting the output blobs of the tracked claim.
  function DoStopProcess(s: State, w: nat, fault: Fault): State
    requires w in s.workers
  {
    var wk := s.workers[w];
    var s' := DeleteTracked(s, w, fault);
    if wk.batch.Some? && wk.tracked.Some? then s'.(cleaned := s'.cleaned + [Cleanup(wk.tracked.value.0, true)]) else s'
  }

  function DoForget(s: State, w: nat): State
    requires w in s.workers
  {
    var wk := s.workers[w];
    Put(s.(tainted := s.tainted + if wk.phase == Polling then {} else {wk.phase.m.receipt.lease}), w,
        wk.(tracked := None, process := None, batch := None))
  }

  function DoOrphan(s: State, i: nat, fault: Fault): State
    requires i < |s.orphans|
  {
    PerformCall(s, s.orphans[i], fault).(orphans := s.orphans[..i] + s.orphans[i + 1..])
  }

  function Next(cfg: Config, s: State, e: Event): State
    requires Enabled(cfg, s, e)
  {
    match e
    case Tick(to) => s.(now := to)
    case Enqueue(content) => DoEnqueue(s, content)
    case Receive(w, id, lost) => DoReceive(cfg, s, w, id, lost)
    case Begin(w, crash) => DoBegin(cfg, s, w, crash)
    case Wake(w) => DoWake(cfg, s, w)
    case RenewCall(w, fault) => DoRenewCall(s, w, fault)
    case RenewDone(w) => DoRenewDone(cfg, s, w)
    case WorkflowDone(w, outcome) => DoWorkflowDone(s, w, outcome)
    case Settle(w, fault) => DoSettle(cfg, s, w, fault)
    case SettleRaises(w, fault) => DoSettleRaises(cfg, s, w, fault)
    case JobCall(w, fault) => DoJobCall(s, w, fault)
    case JobDone(w, fault) => DoJobDone(cfg, s, w, fault)
    case CleanupDone(w, fault) => DoCleanupDone(s, w, fault)
    case Clear(w) => DoClear(s, w)
    case Cancel(w) => DoCancel(s, w)
    case StopProcess(w, fault) => DoStopProcess(s, w, fault)
    case ForgetWorker(w) => DoForget(s, w)
    case SetRunning(on) => s.(running := on)
    case Orphan(i, fault) => DoOrphan(s, i, fault)
  }

  // A fresh service: empty queues, every worker polling.
  predicate Initial(s: State) {
    && s.queue == map[] && s.dead == [] && s.orphans == [] && s.cleaned == []
    && s.enqueued == map[] && s.completed == {} && s.removed == map[] && s.tainted == {}
    && forall w :: w in s.workers ==> s.workers[w] == Idle
  }

  // The state after a run of events; None if one is not enabled where it
  // occurs.
  function After(cfg: Config, s0: State, events: seq<Event>): Option<State> {
    if events == [] then Some(s0)
    else
      match After(cfg, s0, events[..|events| - 1])
      case None => None
      case Some(s) =>
        var e := events[|events| - 1];
        if Enabled(cfg, s, e) then Some(Next(cfg, s, e)) else None
  }
}
