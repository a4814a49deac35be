// ClaimProcessingQueueService with its dictionaries: one uninterrupted
// attempt at a message, and the operations of stop_process and stop_worker.
// Each is a run of the queue protocol.
module ClaimQueueService {
  import opened Wrappers
  import opened QueueProtocol
  import opened ClaimAttempt
  import opened ClaimEffects

  function Find<V>(m: map<nat, V>, k: nat): Option<V> {
    if k in m then Some(m[k]) else None
  }

  ghost predicate SameElsewhere<V>(m: map<nat, V>, n: map<nat, V>, w: nat) {
    forall v :: v != w ==> Find(m, v) == Find(n, v)
  }

  lemma RemoveElsewhere<V>(m: map<nat, V>, w: nat)
    ensures SameElsewhere(m - {w}, m, w) && Find(m - {w}, w).None?
  {
  }

  lemma SameItself<V>(m: map<nat, V>, w: nat)
    ensures SameElsewhere(m, m, w)
  {
  }

  lemma PutElsewhere<V>(m: map<nat, V>, w: nat, x: V)
    ensures SameElsewhere(m[w := x], m, w) && Find(m[w := x], w) == Some(x)
  {
  }

  // Where a worker's code stands: its job, its renewal task, and whether the
  // job's "renew_task" is set.
  datatype Job = Job(phase: Phase, renewal: Renewal, task: bool)

  const NoJob := Job(Polling, NotRenewing, false)

  // Where the cancellation of a job lands.
  datatype Landing = BeforeStart | InFinally | InJob(renewTask: bool)

  ghost predicate Lands(job: Job, landing: Landing) {
    match landing
    case BeforeStart => job.phase.Starting?
    case InFinally => job.phase.Clearing?
    case InJob(task) => job.phase != Polling && !job.phase.Starting? && !job.phase.Clearing? && task == job.task
  }

  // A job that is waiting in its finally block completes it.
  function Cleared(s: State, w: nat): State
    requires w in s.workers
  {
    if s.workers[w].phase.Clearing? then DoClear(s, w) else s
  }

  // stop_process, when the job it waits for ends in time; "cancels" when there
  // is a job task to cancel.
  function AfterStop(s: State, w: nat, fault: Fault, cancels: bool): State
    requires w in s.workers
  {
    var stopped := DoStopProcess(s, w, fault);
    if cancels && stopped.workers[w].phase != Polling then Cleared(DoCancel(stopped, w), w) else stopped
  }

  class Service {
    const cfg: Config

    // the storage service
    var now: nat
    var queue: Queue
    var dead: seq<Letter>
    // the claims whose output blobs were deleted
    var blobsDeleted: seq<string>

    var isRunning: bool

    // self._worker_inflight, _worker_inflight_message, _worker_inflight_batch_id
    var inflight: map<nat, string>
    var inflightMessage: map<nat, (nat, Receipt)>
    var inflightBatch: map<nat, string>

    // the workers in self._worker_inflight_task
    var inflightTask: set<nat>

    // where each worker's code stands, and what happened so far
    ghost var jobs: map<nat, Job>
    ghost var rest: State

    constructor (cfg: Config, ghost workers: set<nat>)
      ensures this.cfg == cfg && Initial(Abs()) && Abs().workers.Keys == workers
    {
      this.cfg := cfg;
      now, queue, dead, blobsDeleted, isRunning := 0, map[], [], [], true;
      inflight, inflightMessage, inflightBatch, inflightTask := map[], map[], map[], {};
      jobs := map w | w in workers :: NoJob;
      rest := State(0, true, map[], 0, 0, [], map[], [], map[], {}, map[], [], {});
    }

    // The entries of one worker, as the protocol sees them.
    ghost function WorkerState(w: nat): Worker
      requires w in jobs
      reads `jobs, `inflight, `inflightMessage, `inflightBatch
    {
      Worker(jobs[w].phase, Find(inflightMessage, w), Find(inflight, w), Find(inflightBatch, w), jobs[w].renewal,
             jobs[w].task)
    }

    ghost function Workers(): map<nat, Worker>
      reads `jobs, `inflight, `inflightMessage, `inflightBatch
    {
      map w | w in jobs :: WorkerState(w)
    }

    ghost function Abs(): State
      reads this
    {
      rest.(now := now, running := isRunning, queue := queue, dead := dead, workers := Workers())
    }

    // Changing the entries of one worker changes that worker alone.
    twostate lemma OnlyWorker(w: nat)
      requires w in old(jobs) && jobs.Keys == old(jobs.Keys) && SameElsewhere(jobs, old(jobs), w)
      requires SameElsewhere(inflight, old(inflight), w)
      requires SameElsewhere(inflightMessage, old(inflightMessage), w)
      requires SameElsewhere(inflightBatch, old(inflightBatch), w)
      ensures Workers() == old(Workers())[w := WorkerState(w)]
    {
      forall v | v in jobs && v != w ensures WorkerState(v) == old(WorkerState(v)) {
        assert Find(jobs, v) == Find(old(jobs), v);
      }
    }

    // The (id, receipt) an operation of this worker uses.
    function TargetOf(w: nat, m: Received): (nat, Receipt)
      reads `inflightMessage
    {
      if w in inflightMessage then inflightMessage[w] else (m.id, m.receipt)
    }

    // queue_client.delete_message
    method DeleteMessage(id: nat, receipt: Receipt, fault: Fault, ghost why: Reason)
      modifies this`queue, this`rest
      ensures Abs() == Delete(old(Abs()), id, receipt, fault, why)
    {
      if !fault.FailsBefore? && Matches(queue, id, receipt) {
        rest := rest.(removed := rest.removed[id := why]);
        queue := queue - {id};
      }
    }

    // queue_client.update_message
    method UpdateMessage(id: nat, receipt: Receipt, delay: nat, fault: Fault) returns (answer: Answer)
      modifies this`queue, this`rest
      ensures Abs() == PerformCall(old(Abs()), Update(id, receipt, delay), fault)
      ensures answer == CallAnswer(old(Abs()), Update(id, receipt, delay), fault)
    {
      answer := if fault.NoFault? then UpdateAnswer(queue, id, receipt) else Failed;
      if !fault.FailsBefore? {
        queue := UpdateQueue(queue, now, id, receipt, delay);
      }
      rest := rest.(tainted := rest.tainted + CallTaint(Update(id, receipt, delay), fault));
    }

    // dead_letter_queue.send_message
    method SendLetter(letter: Letter, fault: Fault) returns (sent: bool)
      modifies this`dead
      ensures Abs() == PerformCall(old(Abs()), Send(letter), fault)
      ensures sent <==> fault.NoFault?
    {
      if !fault.FailsBefore? {
        dead := dead + [letter];
      }
      sent := fault.NoFault?;
    }

    // _cleanup_output_blobs; what fails in it is only logged.
    method CleanupOutputBlobs(claim: string, ghost cleanup: Cleanup)
      modifies this`blobsDeleted, this`rest
      ensures blobsDeleted == old(blobsDeleted) + [claim]
      ensures Abs() == old(Abs()).(cleaned := old(Abs()).cleaned + [cleanup])
    {
      blobsDeleted := blobsDeleted + [claim];
      rest := rest.(cleaned := rest.cleaned + [cleanup]);
    }

    // Storing the receipt a visibility update returned.
    method Track(w: nat, id: nat, receipt: Receipt)
      requires w in jobs
      modifies this`inflightMessage
      ensures Abs() == Put(old(Abs()), w, old(Abs()).workers[w].(tracked := Some((id, receipt))))
    {
      PutElsewhere(inflightMessage, w, (id, receipt));
      inflightMessage := inflightMessage[w := (id, receipt)];
      OnlyWorker(w);
    }

    // _handle_successful_processing
    method HandleSuccessfulProcessing(w: nat, m: Received, fault: Fault)
      requires w in jobs
      modifies this`queue, this`rest
      ensures Abs() == Delete(old(Abs()), Target(old(Abs()).workers[w], m).0, Target(old(Abs()).workers[w], m).1,
                              fault, AfterSuccess)
      ensures queue == WithoutEntry(old(queue), Some(EntryFor(Find(inflightMessage, w), m)), fault)
    {
      var target := TargetOf(w, m);
      DeleteMessage(target.0, target.1, fault, AfterSuccess);
    }

    // _delete_inflight_queue_message, the first step of stop_process
    method DeleteInflightQueueMessage(w: nat, fault: Fault)
      requires w in jobs
      modifies this`queue, this`rest
      ensures Abs() == DeleteTracked(old(Abs()), w, fault)
      ensures queue == WithoutEntry(old(queue), Find(inflightMessage, w), fault)
    {
      if w in inflightMessage {
        DeleteMessage(inflightMessage[w].0, inflightMessage[w].1, fault, ByStopProcess);
      }
    }

    // The finally block of _process_queue_message. "interrupted" when the job is
    // cancelled while it waits for the renewal it has stopped: nothing is popped.
    method ClearInflight(w: nat, interrupted: bool)
      requires w in jobs && jobs[w].phase != Polling && (interrupted ==> jobs[w].task)
      modifies this`inflight, this`inflightMessage, this`inflightBatch, this`jobs, this`rest
      ensures w in jobs
      ensures Abs() == if interrupted then DoCancel(Finish(old(Abs()), w), w) else Leave(old(Abs()), w)
      ensures interrupted ==> inflight == old(inflight) && inflightMessage == old(inflightMessage)
      ensures interrupted ==> inflightBatch == old(inflightBatch)
      ensures !interrupted ==> inflight == old(inflight) - {w} && inflightMessage == old(inflightMessage) - {w}
      ensures !interrupted ==> inflightBatch == old(inflightBatch) - {w}
    {
      StopTask(w);
      if interrupted {
        InterruptedIs(old(Abs()), w);
        MoveTo(w, Job(Polling, NotRenewing, false));
      } else {
        PopEntries(w);
      }
    }

    // Stopping the renewal task: a call it has issued goes on.
    ghost method StopTask(w: nat)
      requires w in jobs
      modifies this`jobs, this`rest
      ensures jobs == old(jobs)[w := old(jobs)[w].(renewal := NotRenewing)]
      ensures Abs() == StopRenewal(old(Abs()), w)
    {
      rest := rest.(orphans := rest.orphans + RenewalOrphans(jobs[w].renewal),
                    tainted := rest.tainted + RenewalTaint(WorkerState(w)));
      MoveTo(w, jobs[w].(renewal := NotRenewing));
    }

    // The three pops.
    method DropEntries(w: nat)
      requires w in jobs
      modifies this`inflight, this`inflightMessage, this`inflightBatch
      ensures Abs() == Put(old(Abs()), w, old(Abs()).workers[w].(tracked := None, process := None, batch := None))
      ensures inflight == old(inflight) - {w} && inflightMessage == old(inflightMessage) - {w}
      ensures inflightBatch == old(inflightBatch) - {w}
    {
      hide Find, SameElsewhere;
      RemoveElsewhere(inflight, w);
      RemoveElsewhere(inflightMessage, w);
      RemoveElsewhere(inflightBatch, w);
      SameItself(jobs, w);
      inflight := inflight - {w};
      inflightMessage := inflightMessage - {w};
      inflightBatch := inflightBatch - {w};
      OnlyWorker(w);
    }

    // The three pops at the end of the finally block.
    method PopEntries(w: nat)
      requires w in jobs
      modifies this`inflight, this`inflightMessage, this`inflightBatch, this`jobs
      ensures jobs == old(jobs)[w := NoJob] && Abs() == Put(old(Abs()), w, Idle)
      ensures inflight == old(inflight) - {w} && inflightMessage == old(inflightMessage) - {w}
      ensures inflightBatch == old(inflightBatch) - {w}
    {
      ghost var s := Abs();
      DropEntries(w);
      ghost var dropped := s.workers[w].(tracked := None, process := None, batch := None);
      MoveTo(w, NoJob);
      assert s.workers[w := dropped][w := Idle] == s.workers[w := Idle];
    }

    // _handle_failed_no_retry
    method HandleFailedNoRetry(w: nat, m: Received, forced: bool, cleanup: Option<string>, faults: Faults)
      requires w in jobs
      modifies this`queue, this`dead, this`blobsDeleted, this`inflightMessage, this`rest
      ensures Abs() == AfterFailure(cfg, old(Abs()), w, m, forced, cleanup, faults)
      ensures FailureHandled(old(queue), old(dead), old(blobsDeleted), old(inflightMessage), w, m,
                             forced || OutOfAttempts(cfg.maxReceiveAttempts, m.dequeueCount), forced, cleanup, faults)
    {
      FailureDoes(cfg, Abs(), w, m, forced, cleanup, faults);
      LimitIs(cfg, m.dequeueCount);
      HandleFailure(w, m, forced, cleanup, faults);
    }

    // What failure handling leaves in the queues and in the entries: a retry
    // when attempts are left, else the letter, then the deletions.
    predicate FailureHandled(queue0: Queue, dead0: seq<Letter>, blobs0: seq<string>, message0: map<nat, (nat, Receipt)>,
                             w: nat, m: Received, out: bool, forced: bool, cleanup: Option<string>, faults: Faults)
      reads this
    {
      var entry := EntryFor(Find(message0, w), m);
      && (!out ==> queue == Rehidden(queue0, now, Some(entry), Positive(cfg.retryDelaySeconds), faults.update))
      && (out && faults.send != NoFault ==>
            queue == Rehidden(queue0, now, Some(entry), AtLeastMinute(cfg.retryDelaySeconds), faults.update))
      && (out && faults.send == NoFault ==> queue == WithoutEntry(queue0, Some(entry), faults.delete))
      && dead == dead0 + (if out && faults.send != FailsBefore
                          then [Letter(m.id, m.content, m.dequeueCount, forced)] else [])
      && blobsDeleted == blobs0 + (if out && faults.send == NoFault && cleanup.Some? then [cleanup.value] else [])
      && Find(inflightMessage, w) == (if !out && ClaimEffects.Stored(queue0, Some(entry), faults.update).Some?
                                      then ClaimEffects.Stored(queue0, Some(entry), faults.update)
                                      else Find(message0, w))
    }

    method HandleFailure(w: nat, m: Received, forced: bool, cleanup: Option<string>, faults: Faults)
      requires w in jobs
      modifies this`queue, this`dead, this`blobsDeleted, this`inflightMessage, this`rest
      ensures Abs() == AfterFailure(cfg, old(Abs()), w, m, forced, cleanup, faults)
      ensures blobsDeleted == old(blobsDeleted)
                              + if DeadLettered(cfg, m, forced, faults) && cleanup.Some? then [cleanup.value] else []
    {
      var target := TargetOf(w, m);
      assert target == Target(Abs().workers[w], m);
      hide PerformCall, CallAnswer, Delete, Abs, Workers;
      if !forced && m.dequeueCount < MaxAttempts(cfg) {
        var answer := UpdateMessage(target.0, target.1, RetryDelay(cfg), faults.update);
        if answer.Done? {
          Track(w, target.0, answer.receipt);
        }
        return;
      }
      var sent := SendLetter(LetterFor(m, forced), faults.send);
      if !sent {
        var _ := UpdateMessage(target.0, target.1, Max(60, RetryDelay(cfg)), faults.update);
        return;
      }
      if cleanup.Some? {
        CleanupOutputBlobs(cleanup.value, Cleanup(m.id, false));
      }
      DeleteMessage(target.0, target.1, faults.delete, AfterDeadLetter(m.id));
    }

    // The worker moves on to another point of its code.
    ghost method MoveTo(w: nat, job: Job)
      requires w in jobs
      modifies this`jobs
      ensures jobs == old(jobs)[w := job]
      ensures Abs()
              == Put(old(Abs()), w,
                     old(Abs()).workers[w].(phase := job.phase, renewal := job.renewal, task := job.task))
    {
      PutElsewhere(jobs, w, job);
      jobs := jobs[w := job];
      OnlyWorker(w);
    }

    // asyncio.sleep in the renewal loop
    method Sleep(seconds: nat)
      modifies this`now
      ensures Abs() == old(Abs()).(now := old(Abs()).now + seconds)
    {
      now := now + seconds;
    }

    // The body of the renewal loop after its sleep; "gone" when the message is.
    method RenewVisibility(w: nat, fault: Fault) returns (gone: bool)
      requires w in jobs
      modifies this`queue, this`rest, this`inflightMessage
      ensures Abs() == AfterRenewal(cfg, old(Abs()), w, fault)
      ensures gone <==> FindsNothing(cfg, old(Abs()), w, fault)
    {
      assert Find(inflightMessage, w) == Abs().workers[w].tracked;
      hide Workers, Abs, PerformCall, CallAnswer;
      gone := false;
      if w in inflightMessage {
        var (id, receipt) := inflightMessage[w];
        var answer := UpdateMessage(id, receipt, RenewSeconds(cfg), fault);
        PerformCallWorkers(old(Abs()), Update(id, receipt, RenewSeconds(cfg)), fault);
        if answer.Done? {
          Track(w, id, answer.receipt);
        }
        gone := answer.NotFound?;
      }
    }

    method RenewalRound(w: nat, fault: Fault) returns (gone: bool)
      requires w in jobs
      modifies this`now, this`queue, this`rest, this`inflightMessage, this`jobs
      ensures w in jobs && jobs[w].phase == old(jobs[w].phase) && jobs[w].task == old(jobs[w].task)
      ensures Abs() == AfterSleep(cfg, old(Abs()), w, fault)
      ensures jobs[w].renewal == if gone then NotRenewing else NextSleep(cfg, Abs())
      ensures var v, entry := cfg.visibilityMinutes, Find(old(inflightMessage), w);
              && now == old(now) + (if v == 0 then 18 else 36 * v)
              && queue == Rehidden(old(queue), now, entry, if v == 0 then 30 else 60 * v, fault)
              && Find(inflightMessage, w) == (if ClaimEffects.Stored(old(queue), entry, fault).Some?
                                              then ClaimEffects.Stored(old(queue), entry, fault) else entry)
              && (gone <==> entry.Some? && fault == NoFault && entry.value.0 !in old(queue))
    {
      ghost var s := Abs();
      assert s.workers[w].tracked == Find(inflightMessage, w) && s.queue == queue && s.now == now;
      RenewalDoes(cfg, s, w, fault);
      GoneExactly(cfg, s, w, fault);
      hide AfterSleep, FindsNothing, NextSleep, Rehidden, ClaimEffects.Stored;
      gone := SleepAndRenew(w, fault);
      assert Abs().workers[w].tracked == Find(inflightMessage, w) && Abs().queue == queue && Abs().now == now;
    }

    method SleepAndRenew(w: nat, fault: Fault) returns (gone: bool)
      requires w in jobs
      modifies this`now, this`queue, this`rest, this`inflightMessage, this`jobs
      ensures w in jobs && jobs[w].phase == old(jobs[w].phase) && jobs[w].task == old(jobs[w].task)
      ensures Abs() == AfterSleep(cfg, old(Abs()), w, fault)
      ensures jobs[w].renewal == if gone then NotRenewing else NextSleep(cfg, Abs())
      ensures gone <==> FindsNothing(cfg, old(Abs()).(now := old(Abs()).now + SleepSeconds(cfg)), w, fault)
    {
      hide AfterRenewal, FindsNothing;
      Sleep(SleepSeconds(cfg));
      gone := RenewVisibility(w, fault);
      MoveTo(w, jobs[w].(renewal := if gone then NotRenewing else NextSleep(cfg, Abs())));
    }

    // _renew_visibility_loop, stopped after at most one round for each fault
    method RenewVisibilityLoop(w: nat, faults: seq<Fault>)
      requires w in jobs && jobs[w].renewal == NextSleep(cfg, Abs())
      modifies this`now, this`queue, this`rest, this`inflightMessage, this`jobs
      ensures w in jobs && jobs[w].phase == old(jobs[w].phase) && jobs[w].task == old(jobs[w].task)
      ensures Abs() == AfterSleeps(cfg, old(Abs()), w, faults)
    {
      var i := 0;
      var gone := false;
      while isRunning && !gone && i < |faults|
        invariant 0 <= i <= |faults| && w in jobs && jobs[w].phase == old(jobs[w].phase)
                  && jobs[w].task == old(jobs[w].task)
        invariant jobs[w].renewal == if gone then NotRenewing else NextSleep(cfg, Abs())
        invariant AfterSleeps(cfg, Abs(), w, faults[i..]) == AfterSleeps(cfg, old(Abs()), w, faults)
      {
        assert faults[i..][0] == faults[i] && faults[i..][1..] == faults[i + 1..];
        gone := RenewalRound(w, faults[i]);
        i := i + 1;
      }
    }

    // The start of a job: its in-flight entries and its renewal task.
    method StartJob(w: nat, m: Received, claim: string)
      requires w in jobs
      modifies this`inflight, this`inflightMessage, this`inflightBatch, this`jobs
      ensures w in jobs && jobs[w] == Job(Running(m, claim), NextSleep(cfg, Abs()), true)
      ensures Abs() == AfterBegin(cfg, old(Abs()), w, m, claim)
    {
      ghost var renewal := NextSleep(cfg, Abs());
      PutElsewhere(inflight, w, claim);
      PutElsewhere(inflightBatch, w, claim);
      PutElsewhere(inflightMessage, w, (m.id, m.receipt));
      PutElsewhere(jobs, w, Job(Running(m, claim), renewal, true));
      inflight := inflight[w := claim];
      inflightBatch := inflightBatch[w := claim];
      inflightMessage := inflightMessage[w := (m.id, m.receipt)];
      jobs := jobs[w := Job(Running(m, claim), renewal, true)];
      OnlyWorker(w);
    }

    // The workflow has returned or raised; the renewal task is cancelled, waited
    // for and forgotten.
    ghost method StopRenewing(w: nat, outcome: Outcome)
      requires w in jobs && jobs[w].phase.Running?
      modifies this`jobs, this`rest
      ensures w in jobs && jobs[w].phase != Polling && !jobs[w].task
      ensures Abs() == Settling(DoWorkflowDone(old(Abs()), w, outcome), w)
    {
      ghost var s := Abs();
      var phase := jobs[w].phase;
      rest := rest.(orphans := rest.orphans + RenewalOrphans(jobs[w].renewal),
                    tainted := rest.tainted + RenewalTaint(WorkerState(w)),
                    completed := if outcome.Succeeded? then rest.completed + {phase.m.id} else rest.completed);
      MoveTo(w, Job(Returned(phase.m, phase.claim, outcome), NotRenewing, false));
      WorkflowDoneIs(s, w, outcome);
    }

    // Noting leases whose bookkeeping is cut short.
    ghost method Taint(leases: set<nat>)
      modifies this`rest
      ensures Abs() == old(Abs()).(tainted := old(Abs()).tainted + leases)
    {
      rest := rest.(tainted := rest.tainted + leases);
    }

    // _process_queue_message, from the receive to the end of its finally
    // block, with the workflow's outcome and the service's faults as given.
    method ProcessQueueMessage(w: nat, m: Received, crash: bool, renewals: seq<Fault>, outcome: Outcome, faults: Faults)
      requires w in jobs && Abs().workers[w].phase.Starting? && Abs().workers[w].phase.m == m
      modifies this`now, this`queue, this`dead, this`blobsDeleted, this`rest, this`jobs
      modifies this`inflight, this`inflightMessage, this`inflightBatch
      ensures Abs() == AfterAttempt(cfg, old(Abs()), w, crash, renewals, outcome, faults)
    {
      assert jobs[w].phase != Polling;
      hide Workers, Abs, Leave, AfterFailure, AfterSleeps, AfterBegin, DoWorkflowDone, Settling, Delete;
      var task := cfg.parse(m.content);
      if task.None? {
        HandleFailedNoRetry(w, m, true, None, faults);
        ClearInflight(w, false);
        return;
      }
      var claim := task.value;
      StartJob(w, m, claim);
      if crash {
        Taint({m.receipt.lease});     // the failure handling runs beside the renewal
        HandleFailedNoRetry(w, m, false, None, faults);
        ClearInflight(w, false);
        return;
      }
      RenewVisibilityLoop(w, renewals);
      StopRenewing(w, outcome);
      match outcome {
        case Succeeded => HandleSuccessfulProcessing(w, m, faults.delete);
        case ExecutorFailed => HandleFailedNoRetry(w, m, true, Some(claim), faults);
        case OtherError => HandleFailedNoRetry(w, m, false, Some(claim), faults);
      }
      ClearInflight(w, false);
    }

    // Cancelling a job task: calls it has issued go on, its finally block runs
    // up to its await, or all of it; before its first step and at that await the
    // cancellation skips the pops.
    method CancelJob(w: nat, landing: Landing)
      requires w in jobs && Lands(jobs[w], landing)
      modifies this`inflight, this`inflightMessage, this`inflightBatch, this`jobs, this`rest
      ensures w in jobs && Abs() == DoCancel(old(Abs()), w)
      ensures Abs().workers[w].phase.Clearing? <==> landing == InJob(true)
    {
      ghost var job := jobs[w];
      CancelIs(Abs(), w);
      if landing.InJob? {
        LeaveOrphans(w);
        StopTask(w);
        if landing.renewTask {
          MoveTo(w, Job(Clearing(job.phase.m), NotRenewing, true));
        } else {
          PopEntries(w);
        }
      } else {
        MoveTo(w, job.(phase := Polling, task := false));
      }
    }

    ghost method LeaveOrphans(w: nat)
      requires w in jobs
      modifies this`rest
      ensures Abs() == old(Abs()).(orphans := old(Abs()).orphans + PhaseOrphans(old(Abs()).workers[w].phase))
    {
      rest := rest.(orphans := rest.orphans + PhaseOrphans(jobs[w].phase));
    }

    // stop_process: delete the message, delete the claim's output blobs, cancel
    // the job the worker is on and wait for its finally block. "landing" says
    // where the cancellation of each worker's job would land.
    method StopProcess(processId: string, fault: Fault, landing: nat -> Landing) returns (worker: Option<nat>)
      requires forall w :: w in inflight ==> w in jobs && (w in inflightBatch ==> w in inflightMessage)
      requires forall w :: w in inflightTask ==> w in jobs && Lands(jobs[w], landing(w))
      modifies this`queue, this`blobsDeleted, this`rest
      modifies this`inflight, this`inflightMessage, this`inflightBatch, this`jobs
      ensures worker.None? ==> Abs() == old(Abs()) && blobsDeleted == old(blobsDeleted)
      ensures worker.None? ==> forall w :: w in inflight ==> inflight[w] != processId
      ensures worker.Some? ==> worker.value in old(inflight) && old(inflight)[worker.value] == processId
      ensures worker.Some? ==>
                queue == WithoutEntry(old(queue), Find(old(inflightMessage), worker.value), fault)
      ensures worker.Some? ==> blobsDeleted == old(blobsDeleted) + match Find(old(inflightBatch), worker.value)
                                                                   case None => []
                                                                   case Some(claim) => [claim]
      ensures worker.Some? ==> worker.value in old(jobs) && Leads(cfg, old(Abs()), Abs())
      ensures worker.Some? ==> Abs() == AfterStop(old(Abs()), worker.value, fault, worker.value in old(inflightTask))
    {
      if w :| w in inflight && inflight[w] == processId {
        StopJob(w, fault, landing(w));
        worker := Some(w);
      } else {
        worker := None;
      }
    }

    // stop_process, once it has found its worker.
    method StopJob(w: nat, fault: Fault, landing: Landing)
      requires w in jobs && w in inflight && (w in inflightBatch ==> w in inflightMessage)
      requires w in inflightTask ==> Lands(jobs[w], landing)
      modifies this`queue, this`blobsDeleted, this`rest
      modifies this`inflight, this`inflightMessage, this`inflightBatch, this`jobs
      ensures Abs() == AfterStop(old(Abs()), w, fault, w in inflightTask) && Leads(cfg, old(Abs()), Abs())
      ensures queue == WithoutEntry(old(queue), Find(old(inflightMessage), w), fault)
      ensures blobsDeleted == old(blobsDeleted) + match Find(old(inflightBatch), w)
                                                  case None => []
                                                  case Some(claim) => [claim]
    {
      ghost var s := Abs();
      StopIsRun(cfg, s, w, fault);
      StopDeletes(w, fault);
      if w in inflightTask {
        hide DoStopProcess, DoCancel, Cleared, Leads, Workers;
        CancelAndWait(w, landing);
      }
    }

    // The cancellation, and the wait for what is left of the job.
    method CancelAndWait(w: nat, landing: Landing)
      requires w in jobs && Lands(jobs[w], landing)
      modifies this`inflight, this`inflightMessage, this`inflightBatch, this`jobs, this`rest
      ensures w in jobs && Abs() == Cleared(DoCancel(old(Abs()), w), w)
    {
      CancelJob(w, landing);
      hide DoCancel;
      if landing == InJob(true) { PopEntries(w); }
    }

    // Up to the cancellation.
    method StopDeletes(w: nat, fault: Fault)
      requires w in jobs && w in inflight && (w in inflightBatch ==> w in inflightMessage)
      modifies this`queue, this`blobsDeleted, this`rest
      ensures Abs() == DoStopProcess(old(Abs()), w, fault)
      ensures queue == WithoutEntry(old(queue), Find(inflightMessage, w), fault)
      ensures blobsDeleted == old(blobsDeleted) + match Find(inflightBatch, w)
                                                  case None => []
                                                  case Some(claim) => [claim]
    {
      DeleteInflightQueueMessage(w, fault);
      if w in inflightBatch {
        CleanupOutputBlobs(inflightBatch[w], Cleanup(inflightMessage[w].0, true));
      }
    }

    // What stop_worker drops, whatever the worker is doing.
    method ForgetWorker(w: nat)
      requires w in jobs
      modifies this`inflight, this`inflightMessage, this`inflightBatch, this`inflightTask, this`rest
      ensures Abs() == Next(cfg, old(Abs()), QueueProtocol.Event.ForgetWorker(w))
      ensures inflight == old(inflight) - {w} && inflightMessage == old(inflightMessage) - {w}
      ensures inflightBatch == old(inflightBatch) - {w} && inflightTask == old(inflightTask) - {w}
    {
      ForgetIs(cfg, Abs(), w);
      hide Next, Workers, Abs;
      Taint(if jobs[w].phase == Polling then {} else {jobs[w].phase.m.receipt.lease});
      DropEntries(w);
      inflightTask := inflightTask - {w};
    }
  }

  lemma InterruptedIs(s: State, w: nat)
    requires w in s.workers && s.workers[w].phase != Polling && s.workers[w].task
    ensures DoCancel(Finish(s, w), w)
         == Put(StopRenewal(s, w), w, s.workers[w].(phase := Polling, renewal := NotRenewing, task := false))
  {
    var t := DoCancel(Finish(s, w), w);
    assert Finish(s, w).workers[w := t.workers[w]] == s.workers[w := t.workers[w]];
    assert StopRenewal(s, w).workers[w := t.workers[w]] == s.workers[w := t.workers[w]];
  }

  lemma CancelIs(s: State, w: nat)
    requires w in s.workers && s.workers[w].phase != Polling
    ensures var wk := s.workers[w];
            var s' := StopRenewal(s.(orphans := s.orphans + PhaseOrphans(wk.phase)), w);
            DoCancel(s, w)
            == if wk.phase.Starting? || wk.phase.Clearing? then Put(s, w, wk.(phase := Polling, task := false))
               else Put(s', w, if wk.task then wk.(phase := Clearing(wk.phase.m), renewal := NotRenewing) else Idle)
  {
  }

  lemma ForgetIs(cfg: Config, s: State, w: nat)
    requires w in s.workers
    ensures Next(cfg, s, Event.ForgetWorker(w)) == DoForget(s, w)
  {
  }

  lemma PerformCallWorkers(s: State, call: Call, fault: Fault)
    ensures PerformCall(s, call, fault).workers == s.workers
  {
  }

  lemma WorkflowDoneIs(s: State, w: nat, outcome: Outcome)
    requires w in s.workers && s.workers[w].phase.Running?
    ensures var wk := s.workers[w];
            Settling(DoWorkflowDone(s, w, outcome), w)
            == Put(s.(orphans := s.orphans + RenewalOrphans(wk.renewal),
                      tainted := s.tainted + RenewalTaint(wk),
                      completed := if outcome.Succeeded? then s.completed + {wk.phase.m.id} else s.completed), w,
                   wk.(phase := Returned(wk.phase.m, wk.phase.claim, outcome), renewal := NotRenewing, task := false))
  {
    var wk := s.workers[w];
    var returned := Settling(DoWorkflowDone(s, w, outcome), w).workers[w];
    assert StopRenewal(s, w).workers[w := returned] == s.workers[w := returned];
    assert DoWorkflowDone(s, w, outcome).workers[w := returned] == s.workers[w := returned];
  }

  // Each way stop_process ends is a run of the protocol.
  lemma StopIsRun(cfg: Config, s: State, w: nat, fault: Fault)
    requires w in s.workers && s.workers[w].process.Some?
    ensures var stopped := DoStopProcess(s, w, fault);
            && Leads(cfg, s, stopped) && w in stopped.workers
            && (stopped.workers[w].phase != Polling ==>
                  w in DoCancel(stopped, w).workers && Leads(cfg, s, Cleared(DoCancel(stopped, w), w)))
  {
    var stopped := DoStopProcess(s, w, fault);
    LeadsByOne(cfg, s, Event.StopProcess(w, fault));
    if stopped.workers[w].phase != Polling {
      var t := DoCancel(stopped, w);
      CancelHas(stopped, w);
      LeadsOneMore(cfg, s, stopped, Event.Cancel(w));
      hide Leads, DoCancel, DoStopProcess;
      if t.workers[w].phase.Clearing? { LeadsOneMore(cfg, s, t, Event.Clear(w)); }
    }
  }

  lemma CancelHas(s: State, w: nat)
    requires w in s.workers && s.workers[w].phase != Polling
    ensures w in DoCancel(s, w).workers
  {
  }
}
