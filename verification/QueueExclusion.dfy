// Timed mutual exclusion: when no two workers run the workflow for the same
// message, and exactly which delays that tolerates.
module QueueExclusion {
  import opened Wrappers
  import opened QueueProtocol
  import opened QueueSafety
  import opened QueueReceipts
  import opened QueueRuns

  // How long an answer may take to reach the worker and have its effect
  // there, how long a renewal may take from the end of its sleep to its
  // effect at the service, and whether stop_worker may drop the tracking
  // entries of a worker that is still busy.
  datatype Delays = Delays(answer: nat, call: nat, stopWorker: bool)

  predicate Active(s: State, w: nat) {
    w in s.workers && (s.workers[w].phase.Starting? || s.workers[w].phase.Running?)
  }

  // The time by which an active worker takes its next step.
  function Deadline(d: Delays, wk: Worker): Option<nat> {
    match wk.phase
    case Starting(_, since) => Some(since + d.answer)
    case Running(_, _) =>
      (match wk.renewal
       case NotRenewing => None
       case Sleeping(wakeAt) => Some(wakeAt + d.call)
       case Calling(wakeAt, _, _, _, None, _) => Some(wakeAt + d.call)
       case Calling(_, _, _, _, Some(_), answeredAt) => Some(answeredAt + d.answer))
    case _ => None
  }

  predicate NotLate(d: Delays, wk: Worker, now: nat) {
    Deadline(d, wk).Some? ==> now <= Deadline(d, wk).value
  }

  // The delays are met, every renewal succeeds and the service keeps running.
  // Anything else may fail or be cancelled.
  ghost predicate Timely(d: Delays, s: State, e: Event) {
    match e
    case Tick(to) => forall w :: w in s.workers ==> NotLate(d, s.workers[w], to)
    case RenewCall(_, fault) => fault == NoFault
    case ForgetWorker(w) => d.stopWorker || (w in s.workers ==> s.workers[w].phase == Polling)
    case SetRunning(on) => on
    case _ => true
  }

  ghost function Punctual(d: Delays): Guard {
    (s, e) => Timely(d, s, e)
  }

  ghost predicate TimelyRun(cfg: Config, d: Delays, s0: State, events: seq<Event>) {
    RunOf(cfg, Punctual(d), s0, events)
  }

  // Enough slack between the renewal sleep and the lease for the delays, and
  // no busy worker forgotten.
  predicate EnoughSlack(cfg: Config, d: Delays) {
    cfg.visibilityMinutes >= 1 && !d.stopWorker && SleepSeconds(cfg) + d.answer + d.call < RenewSeconds(cfg)
  }

  // The lease outlives the next step of the worker.
  predicate Leased(cfg: Config, d: Delays, msg: Message, wk: Worker) {
    match wk.phase
    case Starting(_, since) => msg.visibleAt >= since + RenewSeconds(cfg)
    case Running(_, _) =>
      (match wk.renewal
       case NotRenewing => false
       case Sleeping(wakeAt) => msg.visibleAt + SleepSeconds(cfg) + d.answer >= wakeAt + RenewSeconds(cfg)
       case Calling(wakeAt, _, _, delay, None, _) =>
         delay == RenewSeconds(cfg) && msg.visibleAt + SleepSeconds(cfg) + d.answer >= wakeAt + RenewSeconds(cfg)
       case Calling(_, _, _, _, Some(answer), answeredAt) =>
         answer.Done? && msg.visibleAt >= answeredAt + RenewSeconds(cfg))
    case _ => true
  }

  predicate Window(cfg: Config, d: Delays, s: State, w: nat)
    requires Active(s, w)
  {
    var wk := s.workers[w];
    && wk.phase.m.receipt.lease !in s.tainted
    && NotLate(d, wk, s.now)
    && (wk.phase.Running? ==> wk.tracked.Some?)
    && (wk.phase.m.id in s.queue ==>
          s.queue[wk.phase.m.id].receipt.lease == wk.phase.m.receipt.lease
          && Leased(cfg, d, s.queue[wk.phase.m.id], wk))
  }

  ghost predicate TimedInv(cfg: Config, d: Delays, s: State) {
    && s.running
    && (forall w :: Active(s, w) ==> Window(cfg, d, s, w))
    && (forall v, w :: Active(s, v) && Active(s, w) && v != w ==> s.workers[v].phase.m.id != s.workers[w].phase.m.id)
    && forall l :: l in s.tainted ==> l < s.nextLease
  }

  lemma LeaseIsLive(cfg: Config, d: Delays, s: State, w: nat)
    requires EnoughSlack(cfg, d) && Active(s, w) && Window(cfg, d, s, w)
    requires s.workers[w].phase.m.id in s.queue
    ensures s.now < s.queue[s.workers[w].phase.m.id].visibleAt
  {
  }

  // The queue changes only where its message is under the given lease.
  ghost predicate UnderLease(s: State, t: State, lease: nat) {
    forall id :: id in t.queue ==>
      id in s.queue && (t.queue[id] == s.queue[id] || s.queue[id].receipt.lease == lease)
  }

  // A worker other than the acting one keeps its window.
  lemma Bystander(cfg: Config, d: Delays, s: State, t: State, lease: nat, v: nat)
    requires Active(s, v) && Window(cfg, d, s, v) && v in t.workers && t.workers[v] == s.workers[v] && t.now == s.now
    requires UnderLease(s, t, lease) && t.tainted <= s.tainted + {lease}
    requires s.workers[v].phase.m.receipt.lease != lease
    ensures Active(t, v) && Window(cfg, d, t, v)
  {
  }

  // The acting worker leaves the workflow, or keeps its own window; it touches
  // the queue under one of its leases.
  lemma LeaseStep(cfg: Config, d: Delays, s: State, t: State, w: nat, wk: Worker, lease: nat)
    requires TimedInv(cfg, d, s) && LeasesApart(s) && w in s.workers
    requires t.workers == s.workers[w := wk] && t.now == s.now && t.running == s.running && t.nextLease == s.nextLease
    requires UnderLease(s, t, lease) && t.tainted <= s.tainted + {lease} && lease < s.nextLease
    requires lease in Leases(s.workers[w])
    requires Active(t, w) ==> Active(s, w) && wk.phase.m == s.workers[w].phase.m && Window(cfg, d, t, w)
    ensures TimedInv(cfg, d, t)
  {
    forall v | Active(t, v) && v != w ensures Window(cfg, d, t, v) {
      assert Active(s, v) && Busy(s, v) && LeaseOf(s, v) != lease;
      Bystander(cfg, d, s, t, lease, v);
    }
    forall u, v | Active(t, u) && Active(t, v) && u != v ensures t.workers[u].phase.m.id != t.workers[v].phase.m.id {
      assert Active(s, u) && Active(s, v);
    }
  }

  // The same of a busy worker under its own lease.
  lemma ActorStep(cfg: Config, d: Delays, s: State, t: State, w: nat, wk: Worker)
    requires TimedInv(cfg, d, s) && LeasesApart(s) && Busy(s, w)
    requires t.workers == s.workers[w := wk] && t.now == s.now && t.running == s.running && t.nextLease == s.nextLease
    requires UnderLease(s, t, LeaseOf(s, w)) && t.tainted <= s.tainted + {LeaseOf(s, w)} && LeaseOf(s, w) < s.nextLease
    requires Active(t, w) ==> Active(s, w) && wk.phase.m == s.workers[w].phase.m && Window(cfg, d, t, w)
    ensures TimedInv(cfg, d, t)
  {
    BusyHasLease(s);
    hide TimedInv, LeasesApart, Leases, UnderLease, Window;
    LeaseStep(cfg, d, s, t, w, wk, LeaseOf(s, w));
  }

  // Everything known of a state before a step.
  ghost predicate Full(cfg: Config, d: Delays, s: State) {
    Inv(cfg, s) && ReceiptInv(s) && TimedInv(cfg, d, s)
  }

  lemma FullGives(cfg: Config, d: Delays, s: State, w: nat)
    requires Full(cfg, d, s) && w in s.workers
    ensures TimedInv(cfg, d, s) && LeasesApart(s) && WorkerOk(cfg, s, s.workers[w])
    ensures Active(s, w) ==> Window(cfg, d, s, w) && Agrees(s, w)
  {
  }

  lemma BeginTimed(cfg: Config, d: Delays, s: State, w: nat, crash: bool)
    requires EnoughSlack(cfg, d) && Full(cfg, d, s) && Enabled(cfg, s, Begin(w, crash))
    ensures TimedInv(cfg, d, DoBegin(cfg, s, w, crash))
  {
    FullGives(cfg, d, s, w);
    BeginShape(cfg, s, w, crash);
    BeginWindow(cfg, d, s, w, crash);
    var t := DoBegin(cfg, s, w, crash);
    hide Full, TimedInv, LeasesApart, DoBegin, Window;
    ActorStep(cfg, d, s, t, w, t.workers[w]);
  }

  lemma BeginWindow(cfg: Config, d: Delays, s: State, w: nat, crash: bool)
    requires EnoughSlack(cfg, d) && s.running && Enabled(cfg, s, Begin(w, crash)) && Window(cfg, d, s, w)
    ensures var t := DoBegin(cfg, s, w, crash); Active(t, w) ==> Window(cfg, d, t, w)
  {
    hide MaxAttempts, RetryDelay, SleepSeconds, RenewSeconds;
  }

  lemma WakeTimed(cfg: Config, d: Delays, s: State, w: nat)
    requires EnoughSlack(cfg, d) && Full(cfg, d, s) && Enabled(cfg, s, Wake(w))
    ensures TimedInv(cfg, d, DoWake(cfg, s, w))
  {
    InvGivesWorker(cfg, s, w);
    var t := DoWake(cfg, s, w);
    if Active(s, w) { assert Window(cfg, d, s, w) && Agrees(s, w); }
    ActorStep(cfg, d, s, t, w, t.workers[w]);
  }

  // While the workflow runs, its renewal finds the current receipt.
  lemma RenewalMatches(cfg: Config, d: Delays, s: State, w: nat)
    requires Full(cfg, d, s) && Active(s, w) && Enabled(cfg, s, RenewCall(w, NoFault))
    requires s.workers[w].phase.m.id in s.queue
    ensures Matches(s.queue, s.workers[w].renewal.id, s.workers[w].renewal.receipt)
  {
    InvGivesWorker(cfg, s, w);
    assert Window(cfg, d, s, w) && Agrees(s, w) && Holds(s, w);
  }

  lemma RenewCallTimed(cfg: Config, d: Delays, s: State, w: nat)
    requires EnoughSlack(cfg, d) && Full(cfg, d, s) && Enabled(cfg, s, RenewCall(w, NoFault))
    ensures TimedInv(cfg, d, DoRenewCall(s, w, NoFault))
  {
    InvGivesWorker(cfg, s, w);
    var t := DoRenewCall(s, w, NoFault);
    if Active(s, w) {
      assert Window(cfg, d, s, w) && Agrees(s, w);
      if s.workers[w].phase.m.id in s.queue { RenewalMatches(cfg, d, s, w); }
      RenewCallWindow(cfg, d, s, w);
    }
    hide Window, Agrees, WorkerOk, Inv, ReceiptInv, Max;
    ActorStep(cfg, d, s, t, w, t.workers[w]);
  }

  lemma RenewCallWindow(cfg: Config, d: Delays, s: State, w: nat)
    requires EnoughSlack(cfg, d) && Enabled(cfg, s, RenewCall(w, NoFault)) && Active(s, w)
    requires Window(cfg, d, s, w) && Agrees(s, w) && WorkerOk(cfg, s, s.workers[w])
    requires s.workers[w].phase.m.id in s.queue ==>
               var r := s.workers[w].renewal; r.id == s.workers[w].phase.m.id && Matches(s.queue, r.id, r.receipt)
    ensures var t := DoRenewCall(s, w, NoFault); Active(t, w) && Window(cfg, d, t, w)
  {
  }

  lemma RenewDoneTimed(cfg: Config, d: Delays, s: State, w: nat)
    requires EnoughSlack(cfg, d) && Full(cfg, d, s) && Enabled(cfg, s, RenewDone(w))
    ensures TimedInv(cfg, d, DoRenewDone(cfg, s, w))
  {
    InvGivesWorker(cfg, s, w);
    var t := DoRenewDone(cfg, s, w);
    if Active(s, w) {
      assert Window(cfg, d, s, w) && Agrees(s, w);
      RenewDoneWindow(cfg, d, s, w);
    }
    hide Window, Agrees, WorkerOk, Inv, ReceiptInv, Max;
    ActorStep(cfg, d, s, t, w, t.workers[w]);
  }

  lemma RenewDoneWindow(cfg: Config, d: Delays, s: State, w: nat)
    requires EnoughSlack(cfg, d) && Enabled(cfg, s, RenewDone(w)) && Active(s, w)
    requires s.running && Window(cfg, d, s, w) && Agrees(s, w) && WorkerOk(cfg, s, s.workers[w])
    ensures Active(DoRenewDone(cfg, s, w), w) && Window(cfg, d, DoRenewDone(cfg, s, w), w)
  {
  }

  lemma ReceiveTimed(cfg: Config, d: Delays, s: State, w: nat, id: nat, lost: bool)
    requires EnoughSlack(cfg, d) && Full(cfg, d, s) && Enabled(cfg, s, Receive(w, id, lost))
    ensures TimedInv(cfg, d, DoReceive(cfg, s, w, id, lost))
  {
    var t := DoReceive(cfg, s, w, id, lost);
    forall v | Active(s, v) ensures s.workers[v].phase.m.id != id {
      if s.workers[v].phase.m.id == id { LeaseIsLive(cfg, d, s, v); }
    }
    forall v | Active(t, v) && (v != w || lost) ensures Window(cfg, d, t, v) {
      assert Active(s, v) && Window(cfg, d, s, v);
    }
    forall u, v | Active(t, u) && Active(t, v) && u != v ensures t.workers[u].phase.m.id != t.workers[v].phase.m.id {
      assert u != w || lost ==> Active(s, u);
      assert v != w || lost ==> Active(s, v);
    }
  }

  lemma EnqueueTimed(cfg: Config, d: Delays, s: State, content: string)
    requires Full(cfg, d, s)
    ensures TimedInv(cfg, d, DoEnqueue(s, content))
  {
    var t := DoEnqueue(s, content);
    forall v | Active(t, v) ensures Window(cfg, d, t, v) {
      InvGivesWorker(cfg, s, v);
      assert Active(s, v) && Window(cfg, d, s, v);
    }
    forall u, v | Active(t, u) && Active(t, v) && u != v ensures t.workers[u].phase.m.id != t.workers[v].phase.m.id {
      assert Active(s, u) && Active(s, v);
    }
  }

  // The clock only advances to where nobody is late.
  lemma TickTimed(cfg: Config, d: Delays, s: State, to: nat)
    requires Full(cfg, d, s) && Timely(d, s, Tick(to))
    ensures TimedInv(cfg, d, s.(now := to))
  {
    var t := s.(now := to);
    forall v | Active(t, v) ensures Window(cfg, d, t, v) {
      assert Active(s, v) && Window(cfg, d, s, v);
    }
    forall u, v | Active(t, u) && Active(t, v) && u != v ensures t.workers[u].phase.m.id != t.workers[v].phase.m.id {
      assert Active(s, u) && Active(s, v);
    }
  }

  // Steps after which a worker is out of the workflow.
  lemma FinishTimed(cfg: Config, d: Delays, s: State, s1: State, w: nat, lease: nat)
    requires Full(cfg, d, s) && Busy(s, w)
    requires s1.workers == s.workers && s1.now == s.now && s1.running == s.running && s1.nextLease == s.nextLease
    requires lease in Leases(s.workers[w]) && UnderLease(s, s1, lease) && s1.tainted == s.tainted
    ensures TimedInv(cfg, d, Finish(s1, w))
  {
    FullGives(cfg, d, s, w);
    LeasesAreOld(cfg, s, s.workers[w]);
    BusyHasLease(s);
    FinishShape(s1, w);
    var t := Finish(s1, w);
    var mid := s1.(workers := t.workers, orphans := t.orphans);
    hide Full, TimedInv, LeasesApart, Finish, Leases, WorkerOk, Window;
    LeaseStep(cfg, d, s, mid, w, t.workers[w], lease);
    TaintOwn(cfg, d, s, mid, t, w);
  }

  // Tainting a lease that no active worker has.
  lemma TaintOwn(cfg: Config, d: Delays, s: State, mid: State, t: State, w: nat)
    requires LeasesApart(s) && Busy(s, w) && LeaseOf(s, w) < s.nextLease && TimedInv(cfg, d, mid)
    requires w in mid.workers && mid.workers == s.workers[w := mid.workers[w]] && mid.nextLease == s.nextLease
             && !Active(mid, w)
    requires t == mid.(tainted := t.tainted) && t.tainted <= mid.tainted + {LeaseOf(s, w)}
    ensures TimedInv(cfg, d, t)
  {
    BusyHasLease(s);
    forall v | Active(t, v) ensures Window(cfg, d, t, v) {
      assert Active(mid, v) && v != w && Busy(s, v) && LeaseOf(s, v) != LeaseOf(s, w);
    }
    forall u, v | Active(t, u) && Active(t, v) && u != v ensures t.workers[u].phase.m.id != t.workers[v].phase.m.id {
      assert Active(mid, u) && Active(mid, v);
    }
  }

  lemma FinishShape(s: State, w: nat)
    requires Busy(s, w)
    ensures var t := Finish(s, w);
            && w in t.workers
            && t == s.(workers := s.workers[w := t.workers[w]], orphans := t.orphans, tainted := t.tainted)
            && !Active(t, w) && t.tainted <= s.tainted + {LeaseOf(s, w)}
  {
    var t := Finish(s, w);
    assert StopRenewal(s, w).workers[w := t.workers[w]] == s.workers[w := t.workers[w]];
  }

  // The target of a worker's delete is under one of its leases.
  lemma DeleteUnderLease(s: State, w: nat, fault: Fault, why: Reason)
    requires Busy(s, w)
    ensures var target := Target(s.workers[w], s.workers[w].phase.m);
            target.1.lease in Leases(s.workers[w])
            && UnderLease(s, Delete(s, target.0, target.1, fault, why), target.1.lease)
  {
  }

  // The end of a job that has deleted its target.
  lemma DeleteTargetTimed(cfg: Config, d: Delays, s: State, w: nat, fault: Fault, why: Reason)
    requires Full(cfg, d, s) && Busy(s, w)
    ensures var target := Target(s.workers[w], s.workers[w].phase.m);
            TimedInv(cfg, d, Finish(Delete(s, target.0, target.1, fault, why), w))
  {
    var target := Target(s.workers[w], s.workers[w].phase.m);
    DeleteUnderLease(s, w, fault, why);
    hide Full, TimedInv, Leases, UnderLease;
    FinishTimed(cfg, d, s, Delete(s, target.0, target.1, fault, why), w, target.1.lease);
  }

  lemma BeginFailureTimed(cfg: Config, d: Delays, s: State, w: nat, m: Received, forced: bool, cleanup: Option<string>)
    requires Full(cfg, d, s) && Busy(s, w) && m == s.workers[w].phase.m
    ensures TimedInv(cfg, d, BeginFailure(cfg, s, w, m, forced, cleanup))
  {
    FullGives(cfg, d, s, w);
    hide Full, TimedInv, LeasesApart, MaxAttempts, RetryDelay;
    var t := BeginFailure(cfg, s, w, m, forced, cleanup);
    ActorStep(cfg, d, s, t, w, t.workers[w]);
  }

  lemma WorkflowDoneTimed(cfg: Config, d: Delays, s: State, w: nat, outcome: Outcome)
    requires Full(cfg, d, s) && Enabled(cfg, s, WorkflowDone(w, outcome))
    ensures TimedInv(cfg, d, DoWorkflowDone(s, w, outcome))
  {
    FullGives(cfg, d, s, w);
    hide Full, TimedInv, LeasesApart;
    var t := DoWorkflowDone(s, w, outcome);
    ActorStep(cfg, d, s, t, w, t.workers[w]);
  }

  lemma SettlingFull(cfg: Config, d: Delays, s: State, w: nat)
    requires Full(cfg, d, s) && w in s.workers && s.workers[w].phase.Returned?
    ensures Full(cfg, d, Settling(s, w)) && Busy(Settling(s, w), w)
  {
    FullGives(cfg, d, s, w);
    SettlingStep(cfg, s, w);
    OwnLease(cfg, d, s, w);
    hide TimedInv, LeasesApart, Inv, ReceiptInv, WorkerOk;
    ActorStep(cfg, d, s, Settling(s, w), w, s.workers[w].(task := false));
  }

  lemma SettleTimed(cfg: Config, d: Delays, s: State, w: nat, fault: Fault)
    requires Full(cfg, d, s) && Enabled(cfg, s, Settle(w, fault))
    ensures TimedInv(cfg, d, DoSettle(cfg, s, w, fault))
  {
    SettlingFull(cfg, d, s, w);
    hide Full, TimedInv, Finish, BeginFailure;
    var wk, s' := s.workers[w], Settling(s, w);
    if wk.phase.outcome.Succeeded? {
      DeleteTargetTimed(cfg, d, s', w, fault, AfterSuccess);
    } else {
      BeginFailureTimed(cfg, d, s', w, wk.phase.m, wk.phase.outcome.ExecutorFailed?, Some(wk.phase.claim));
    }
  }

  lemma SettleRaisesTimed(cfg: Config, d: Delays, s: State, w: nat, fault: Fault)
    requires Full(cfg, d, s) && Enabled(cfg, s, SettleRaises(w, fault))
    ensures TimedInv(cfg, d, DoSettleRaises(cfg, s, w, fault))
  {
    SettlingFull(cfg, d, s, w);
    FullGives(cfg, d, s, w);
    var wk, s' := s.workers[w], Settling(s, w);
    var m, target := wk.phase.m, Target(wk, wk.phase.m);
    var t := Delete(s', target.0, target.1, fault, AfterSuccess);
    DeleteUnderLease(s', w, fault, AfterSuccess);
    FullGives(cfg, d, s', w);
    LeasesAreOld(cfg, s', s'.workers[w]);
    var u := BeginFailure(cfg, t, w, m, false, None);
    BeginFailureShape(cfg, t, w, m, false, None);
    hide Full, TimedInv, LeasesApart, Leases, WorkerOk, BeginFailure, UnderLease, Delete;
    LeaseStepThen(cfg, d, s', t, u, w, target.1.lease);
  }

  lemma BeginFailureShape(cfg: Config, s: State, w: nat, m: Received, forced: bool, cleanup: Option<string>)
    requires w in s.workers
    ensures var t := BeginFailure(cfg, s, w, m, forced, cleanup);
            w in t.workers && t == Put(s, w, t.workers[w]) && !Active(t, w)
  {
  }

  lemma LeaseStepThen(cfg: Config, d: Delays, s: State, t: State, u: State, w: nat, lease: nat)
    requires TimedInv(cfg, d, s) && LeasesApart(s) && w in s.workers && lease in Leases(s.workers[w])
    requires t == s.(queue := t.queue, removed := t.removed) && UnderLease(s, t, lease) && lease < s.nextLease
    requires w in u.workers && u == Put(t, w, u.workers[w]) && !Active(u, w)
    ensures TimedInv(cfg, d, u)
  {
    hide TimedInv, LeasesApart, Leases;
    LeaseStep(cfg, d, s, u, w, u.workers[w], lease);
  }

  lemma JobCallUnderLease(cfg: Config, s: State, w: nat, fault: Fault)
    requires Enabled(cfg, s, JobCall(w, fault))
    ensures var call := s.workers[w].phase.state.call;
            var lease := if call.Update? then call.receipt.lease else LeaseOf(s, w);
            && lease in Leases(s.workers[w]) && UnderLease(s, DoJobCall(s, w, fault), lease)
            && DoJobCall(s, w, fault).tainted <= s.tainted + {lease}
  {
  }

  lemma JobCallTimed(cfg: Config, d: Delays, s: State, w: nat, fault: Fault)
    requires Full(cfg, d, s) && Enabled(cfg, s, JobCall(w, fault))
    ensures TimedInv(cfg, d, DoJobCall(s, w, fault))
  {
    FullGives(cfg, d, s, w);
    LeasesAreOld(cfg, s, s.workers[w]);
    JobCallUnderLease(cfg, s, w, fault);
    JobCallShape(s, w, fault);
    var call, t := s.workers[w].phase.state.call, DoJobCall(s, w, fault);
    hide Full, TimedInv, LeasesApart, Leases, WorkerOk, UnderLease, DoJobCall, Window;
    LeaseStep(cfg, d, s, t, w, t.workers[w], if call.Update? then call.receipt.lease else LeaseOf(s, w));
  }

  lemma JobCallShape(s: State, w: nat, fault: Fault)
    requires Busy(s, w) && s.workers[w].phase.Failing? && s.workers[w].phase.state.Issued?
    ensures var t := DoJobCall(s, w, fault);
            && w in t.workers && t.workers == s.workers[w := t.workers[w]] && !Active(t, w)
            && t.now == s.now && t.running == s.running && t.nextLease == s.nextLease
  {
  }

  lemma FinalDeleteTimed(cfg: Config, d: Delays, s: State, w: nat, fault: Fault)
    requires Full(cfg, d, s) && Busy(s, w)
    ensures TimedInv(cfg, d, FinalDelete(s, w, s.workers[w].phase.m, fault))
  {
    hide Full, TimedInv, Finish;
    DeleteTargetTimed(cfg, d, s, w, fault, AfterDeadLetter(s.workers[w].phase.m.id));
  }

  lemma JobDoneTimed(cfg: Config, d: Delays, s: State, w: nat, fault: Fault)
    requires Full(cfg, d, s) && Enabled(cfg, s, JobDone(w, fault))
    ensures TimedInv(cfg, d, DoJobDone(cfg, s, w, fault))
  {
    FullGives(cfg, d, s, w);
    hide Full, TimedInv, LeasesApart, Finish, FinalDelete, RetryDelay, WorkerOk;
    var wk := s.workers[w];
    if wk.phase.plan.DeadLetter? {
      if wk.phase.state.answer.Done? && wk.phase.plan.cleanup.None? {
        FinalDeleteTimed(cfg, d, s, w, fault);
      } else {
        OwnLease(cfg, d, s, w);
        ActorStep(cfg, d, s, DoJobDone(cfg, s, w, fault), w, DoJobDone(cfg, s, w, fault).workers[w]);
      }
    } else {
      UpdateDoneTimed(cfg, d, s, w, fault);
    }
  }

  // The end of failure handling that keeps the message.
  lemma UpdateDoneTimed(cfg: Config, d: Delays, s: State, w: nat, fault: Fault)
    requires Full(cfg, d, s) && Enabled(cfg, s, JobDone(w, fault)) && !s.workers[w].phase.plan.DeadLetter?
    ensures TimedInv(cfg, d, DoJobDone(cfg, s, w, fault))
  {
    OwnLease(cfg, d, s, w);
    FullGives(cfg, d, s, w);
    UpdateDoneShape(cfg, s, w, fault);
    var t := DoJobDone(cfg, s, w, fault);
    hide Full, TimedInv, LeasesApart, WorkerOk, DoJobDone;
    ActorStep(cfg, d, s, t, w, t.workers[w]);
  }

  lemma UpdateDoneShape(cfg: Config, s: State, w: nat, fault: Fault)
    requires Enabled(cfg, s, JobDone(w, fault)) && !s.workers[w].phase.plan.DeadLetter?
    ensures var t := DoJobDone(cfg, s, w, fault);
            && w in t.workers
            && t == s.(workers := s.workers[w := t.workers[w]], orphans := t.orphans, tainted := t.tainted)
            && !Active(t, w) && t.tainted <= s.tainted + {LeaseOf(s, w)}
  {
    var t := DoJobDone(cfg, s, w, fault);
    StoreShape(s, w);
    FinishShape(StoreAnswer(s, w), w);
    FinishShape(s, w);
    hide StoreAnswer, Finish;
    assert StoreAnswer(s, w).workers[w := t.workers[w]] == s.workers[w := t.workers[w]];
  }

  lemma StoreShape(s: State, w: nat)
    requires w in s.workers && s.workers[w].phase.Failing? && s.workers[w].phase.state.Answered?
    ensures var t := StoreAnswer(s, w);
            Busy(t, w) && t == Put(s, w, t.workers[w]) && LeaseOf(t, w) == LeaseOf(s, w)
  {
    assert s.workers[w := s.workers[w]] == s.workers;
  }

  lemma OwnLease(cfg: Config, d: Delays, s: State, w: nat)
    requires Full(cfg, d, s) && Busy(s, w)
    ensures LeaseOf(s, w) < s.nextLease
  {
    InvGivesWorker(cfg, s, w);
  }

  lemma CleanupDoneTimed(cfg: Config, d: Delays, s: State, w: nat, fault: Fault)
    requires Full(cfg, d, s) && Enabled(cfg, s, CleanupDone(w, fault))
    ensures TimedInv(cfg, d, DoCleanupDone(s, w, fault))
  {
    FinalDeleteTimed(cfg, d, s, w, fault);
  }

  lemma ClearTimed(cfg: Config, d: Delays, s: State, w: nat)
    requires Full(cfg, d, s) && Enabled(cfg, s, Clear(w))
    ensures TimedInv(cfg, d, DoClear(s, w))
  {
    OwnLease(cfg, d, s, w);
    FullGives(cfg, d, s, w);
    hide Full, TimedInv, LeasesApart, WorkerOk;
    ActorStep(cfg, d, s, DoClear(s, w), w, Idle);
  }

  lemma CancelTimed(cfg: Config, d: Delays, s: State, w: nat)
    requires Full(cfg, d, s) && Enabled(cfg, s, Cancel(w))
    ensures TimedInv(cfg, d, DoCancel(s, w))
  {
    var wk := s.workers[w];
    BusyHasLease(s);
    if wk.phase.Starting? || wk.phase.Clearing? {
      OwnLease(cfg, d, s, w);
      FullGives(cfg, d, s, w);
      hide Full, TimedInv, LeasesApart, WorkerOk, Leases;
      ActorStep(cfg, d, s, DoCancel(s, w), w, wk.(phase := Polling, task := false));
    } else {
      hide Full, TimedInv, Finish, Leases;
      FinishTimed(cfg, d, s, s.(orphans := s.orphans + PhaseOrphans(wk.phase)), w, LeaseOf(s, w));
    }
  }

  lemma StopProcessTimed(cfg: Config, d: Delays, s: State, w: nat, fault: Fault)
    requires Full(cfg, d, s) && Enabled(cfg, s, StopProcess(w, fault))
    ensures TimedInv(cfg, d, DoStopProcess(s, w, fault))
  {
    FullGives(cfg, d, s, w);
    LeasesAreOld(cfg, s, s.workers[w]);
    StopProcessUnder(s, w, fault);
    var t := DoStopProcess(s, w, fault);
    if s.workers[w].tracked.Some? {
      var lease := s.workers[w].tracked.value.1.lease;
      if Active(s, w) { StopProcessWindow(cfg, d, s, w, fault); }
      assert lease in Leases(s.workers[w]);
      assert s.workers == s.workers[w := s.workers[w]];
      hide Full, TimedInv, LeasesApart, WorkerOk, Leases, UnderLease, Window, DoStopProcess;
      LeaseStep(cfg, d, s, t, w, s.workers[w], lease);
    }
  }

  lemma StopProcessUnder(s: State, w: nat, fault: Fault)
    requires w in s.workers
    ensures var t := DoStopProcess(s, w, fault);
            if s.workers[w].tracked.None? then t == s
            else t == s.(queue := t.queue, removed := t.removed, cleaned := t.cleaned)
                 && UnderLease(s, t, s.workers[w].tracked.value.1.lease)
  {
  }

  lemma StopProcessWindow(cfg: Config, d: Delays, s: State, w: nat, fault: Fault)
    requires Active(s, w) && Window(cfg, d, s, w)
    ensures var t := DoStopProcess(s, w, fault); Active(t, w) && Window(cfg, d, t, w)
  {
  }

  // stop_worker on a worker that is not busy.
  lemma ForgetTimed(cfg: Config, d: Delays, s: State, w: nat)
    requires Full(cfg, d, s) && w in s.workers && s.workers[w].phase == Polling
    ensures TimedInv(cfg, d, DoForget(s, w))
  {
    var t := DoForget(s, w);
    forall v | Active(t, v) ensures Window(cfg, d, t, v) {
      assert Active(s, v) && Window(cfg, d, s, v);
    }
    forall u, v | Active(t, u) && Active(t, v) && u != v ensures t.workers[u].phase.m.id != t.workers[v].phase.m.id {
      assert Active(s, u) && Active(s, v);
    }
  }

  lemma OrphanTimed(cfg: Config, d: Delays, s: State, i: nat, fault: Fault)
    requires Full(cfg, d, s) && i < |s.orphans|
    ensures TimedInv(cfg, d, DoOrphan(s, i, fault))
  {
    var t, call := DoOrphan(s, i, fault), s.orphans[i];
    assert OrphanApart(s, call) && CallOk(cfg, s, call);
    forall v | Active(t, v) ensures Window(cfg, d, t, v) {
      assert Active(s, v) && Busy(s, v) && Window(cfg, d, s, v);
      assert call.Update? ==> call.receipt.lease != LeaseOf(s, v);
    }
    forall u, v | Active(t, u) && Active(t, v) && u != v ensures t.workers[u].phase.m.id != t.workers[v].phase.m.id {
      assert Active(s, u) && Active(s, v);
    }
  }

  lemma NextTimed(cfg: Config, d: Delays, s: State, e: Event)
    requires EnoughSlack(cfg, d) && Full(cfg, d, s) && Enabled(cfg, s, e) && Timely(d, s, e)
    ensures TimedInv(cfg, d, Next(cfg, s, e))
  {
    hide Full, TimedInv;
    match e
    case Tick(to) => TickTimed(cfg, d, s, to);
    case Enqueue(content) => EnqueueTimed(cfg, d, s, content);
    case Receive(w, id, lost) => ReceiveTimed(cfg, d, s, w, id, lost);
    case Begin(w, crash) => BeginTimed(cfg, d, s, w, crash);
    case Wake(w) => WakeTimed(cfg, d, s, w);
    case RenewCall(w, fault) => RenewCallTimed(cfg, d, s, w);
    case RenewDone(w) => RenewDoneTimed(cfg, d, s, w);
    case WorkflowDone(w, outcome) => WorkflowDoneTimed(cfg, d, s, w, outcome);
    case Settle(w, fault) => SettleTimed(cfg, d, s, w, fault);
    case SettleRaises(w, fault) => SettleRaisesTimed(cfg, d, s, w, fault);
    case JobCall(w, fault) => JobCallTimed(cfg, d, s, w, fault);
    case JobDone(w, fault) => JobDoneTimed(cfg, d, s, w, fault);
    case CleanupDone(w, fault) => CleanupDoneTimed(cfg, d, s, w, fault);
    case Clear(w) => ClearTimed(cfg, d, s, w);
    case Cancel(w) => CancelTimed(cfg, d, s, w);
    case StopProcess(w, fault) => StopProcessTimed(cfg, d, s, w, fault);
    case ForgetWorker(w) => ForgetTimed(cfg, d, s, w);
    case SetRunning(on) => StillRunning(cfg, d, s);
    case Orphan(i, fault) => OrphanTimed(cfg, d, s, i, fault);
  }

  lemma StillRunning(cfg: Config, d: Delays, s: State)
    requires Full(cfg, d, s)
    ensures TimedInv(cfg, d, s.(running := true))
  {
    assert s == s.(running := true);
  }

  lemma {:induction false} RunTimed(cfg: Config, d: Delays, s0: State, events: seq<Event>)
    requires EnoughSlack(cfg, d) && Initial(s0) && s0.running && TimelyRun(cfg, d, s0, events)
    ensures After(cfg, s0, events).Some? && Full(cfg, d, After(cfg, s0, events).value)
  {
    RunStarts(cfg, d, s0);
    if events != [] {
      var n := |events| - 1;
      RunTimed(cfg, d, s0, events[..n]);
      var s := After(cfg, s0, events[..n]).value;
      NextKeeps(cfg, s, events[n]);
      NextStep(cfg, s, events[n]);
      NextTimed(cfg, d, s, events[n]);
    }
  }

  lemma RunStarts(cfg: Config, d: Delays, s0: State)
    requires Initial(s0) && s0.running
    ensures Full(cfg, d, s0)
  {
  }

  // Two workers never run the workflow for the same message.
  ghost predicate Exclusive(s: State) {
    forall v, w ::
      v in s.workers && w in s.workers && v != w && s.workers[v].phase.Running? && s.workers[w].phase.Running? ==>
      s.workers[v].phase.m.id != s.workers[w].phase.m.id
  }

  lemma MutualExclusion(cfg: Config, d: Delays, s0: State, events: seq<Event>)
    requires EnoughSlack(cfg, d) && Initial(s0) && s0.running && TimelyRun(cfg, d, s0, events)
    ensures After(cfg, s0, events).Some? && Exclusive(After(cfg, s0, events).value)
  {
    RunTimed(cfg, d, s0, events);
    var s := After(cfg, s0, events).value;
    forall v, w | v in s.workers && w in s.workers && v != w && s.workers[v].phase.Running?
                  && s.workers[w].phase.Running?
      ensures s.workers[v].phase.m.id != s.workers[w].phase.m.id
    {
      assert Active(s, v) && Active(s, w);
    }
  }

  // ---- the bound is exact --------------------------------------------------

  const TwoWorkers := State(0, true, map[], 0, 0, [], map[0 := Idle, 1 := Idle], [], map[], {}, map[], [], {})

  lemma OverlapByScript(cfg: Config, d: Delays, script: seq<Event>, end: State)
    requires Follows(cfg, Punctual(d), TwoWorkers, script, end) && !Exclusive(end)
    ensures TimelyRun(cfg, d, TwoWorkers, script)
    ensures After(cfg, TwoWorkers, script).Some? && !Exclusive(After(cfg, TwoWorkers, script).value)
  {
    ScriptEnds(cfg, Punctual(d), TwoWorkers, script, end);
  }

  function FirstStarted(cfg: Config, content: string, start: nat): State
    requires cfg.parse(content).Some?
  {
    var m := Received(0, content, 1, Receipt(1, 0));
    var claim := cfg.parse(content).value;
    TwoWorkers.(
      now := start,
      queue := map[0 := Message(content, 1, Receipt(1, 0), ReceiveSeconds(cfg))],
      nextId := 1, nextLease := 2, enqueued := map[0 := content],
      workers := map[0 := Worker(Running(m, claim), Some((0, Receipt(1, 0))), Some(claim), Some(claim),
                              Sleeping(start + SleepSeconds(cfg)), true),
                     1 := Idle])
  }

  // One worker receives the message at time 0 and starts it at "start".
  lemma FirstStarts(cfg: Config, d: Delays, content: string, start: nat, rest: seq<Event>, end: State)
    requires cfg.parse(content).Some? && start <= d.answer
    requires Follows(cfg, Punctual(d), FirstStarted(cfg, content, start), rest, end)
    ensures Follows(cfg, Punctual(d), TwoWorkers,
                    [Enqueue(content)] + ([Receive(0, 0, false)] + ([Tick(start)] + ([Begin(0, false)] + rest))), end)
  {
    hide Follows;
    var s1 := Next(cfg, TwoWorkers, Enqueue(content));
    var s2 := Next(cfg, s1, Receive(0, 0, false));
    var s3 := Next(cfg, s2, Tick(start));
    assert Next(cfg, s3, Begin(0, false)) == FirstStarted(cfg, content, start);
    Then(cfg, Punctual(d), s3, Begin(0, false), rest, end);
    Then(cfg, Punctual(d), s2, Tick(start), [Begin(0, false)] + rest, end);
    Then(cfg, Punctual(d), s1, Receive(0, 0, false), [Tick(start)] + ([Begin(0, false)] + rest), end);
    Then(cfg, Punctual(d), TwoWorkers, Enqueue(content),
         [Receive(0, 0, false)] + ([Tick(start)] + ([Begin(0, false)] + rest)), end);
  }

  // Once the lease has lapsed under a running workflow, a second worker picks
  // the message up.
  lemma SecondStarts(cfg: Config, d: Delays, s: State, to: nat, id: nat) returns (end: State)
    requires 0 in s.workers && s.workers[0].phase.Running? && s.workers[0].phase.m.id == id
    requires 1 in s.workers && s.workers[1] == Idle
    requires id in s.queue && s.queue[id].visibleAt <= to && cfg.parse(s.queue[id].content).Some?
    requires s.now <= to && forall w :: w in s.workers ==> NotLate(d, s.workers[w], to)
    ensures Follows(cfg, Punctual(d), s, [Tick(to)] + ([Receive(1, id, false)] + ([Begin(1, false)] + [])), end)
            && !Exclusive(end)
  {
    var s1 := Next(cfg, s, Tick(to));
    var s2 := Next(cfg, s1, Receive(1, id, false));
    end := Next(cfg, s2, Begin(1, false));
    assert end.workers[0].phase.Running? && end.workers[1].phase.Running?;
    Then(cfg, Punctual(d), s2, Begin(1, false), [], end);
    Then(cfg, Punctual(d), s1, Receive(1, id, false), [Begin(1, false)] + [], end);
    Then(cfg, Punctual(d), s, Tick(to), [Receive(1, id, false)] + ([Begin(1, false)] + []), end);
  }

  // Without the slack, the lease of a worker that meets every delay lapses
  // while its workflow runs.
  lemma SlackIsNeeded(cfg: Config, d: Delays, content: string) returns (script: seq<Event>)
    requires cfg.visibilityMinutes >= 1 && SleepSeconds(cfg) + d.answer + d.call >= RenewSeconds(cfg)
    requires cfg.parse(content).Some?
    ensures TimelyRun(cfg, d, TwoWorkers, script)
    ensures After(cfg, TwoWorkers, script).Some? && !Exclusive(After(cfg, TwoWorkers, script).value)
  {
    var lease := RenewSeconds(cfg);
    var start := if d.answer < lease then d.answer else lease;
    var end := SecondStarts(cfg, d, FirstStarted(cfg, content, start), lease, 0);
    var rest := [Tick(lease)] + ([Receive(1, 0, false)] + ([Begin(1, false)] + []));
    FirstStarts(cfg, d, content, start, rest, end);
    script := [Enqueue(content)] + ([Receive(0, 0, false)] + ([Tick(start)] + ([Begin(0, false)] + rest)));
    OverlapByScript(cfg, d, script, end);
  }

  // The worker's next job, after a first one was cancelled.
  function NextStarted(cfg: Config, content: string): State
    requires cfg.parse(content).Some?
  {
    var m := Received(1, content, 1, Receipt(3, 0));
    var claim := cfg.parse(content).value;
    TwoWorkers.(
      queue := map[0 := Message(content, 1, Receipt(1, 0), ReceiveSeconds(cfg)),
                   1 := Message(content, 1, Receipt(3, 0), ReceiveSeconds(cfg))],
      nextId := 2, nextLease := 4, enqueued := map[0 := content, 1 := content],
      workers := map[0 := Worker(Running(m, claim), Some((1, Receipt(3, 0))), Some(claim), Some(claim),
                              Sleeping(SleepSeconds(cfg)), true),
                     1 := Idle])
  }

  lemma NextStarts(cfg: Config, d: Delays, content: string, rest: seq<Event>, end: State)
    requires cfg.parse(content).Some? && Follows(cfg, Punctual(d), NextStarted(cfg, content), rest, end)
    ensures Follows(cfg, Punctual(d), FirstStarted(cfg, content, 0),
                    [Cancel(0)] + ([Clear(0)] + ([Enqueue(content)] + ([Receive(0, 1, false)]
                    + ([Begin(0, false)] + rest)))), end)
  {
    var s := FirstStarted(cfg, content, 0);
    var s1 := Next(cfg, s, Cancel(0));
    FirstCancelled(cfg, content);
    NextReceives(cfg, d, content, rest, end);
    hide Follows, DoCancel, DoClear, FirstStarted;
    var next := [Enqueue(content)] + ([Receive(0, 1, false)] + ([Begin(0, false)] + rest));
    Then(cfg, Punctual(d), s1, Clear(0), next, end);
    Then(cfg, Punctual(d), s, Cancel(0), [Clear(0)] + next, end);
  }

  lemma FirstCancelled(cfg: Config, content: string)
    requires cfg.parse(content).Some?
    ensures var s := FirstStarted(cfg, content, 0);
            && Enabled(cfg, s, Cancel(0)) && Enabled(cfg, DoCancel(s, 0), Clear(0))
            && DoClear(DoCancel(s, 0), 0) == s.(workers := map[0 := Idle, 1 := Idle])
  {
    var s := FirstStarted(cfg, content, 0);
    assert DoClear(DoCancel(s, 0), 0).workers == map[0 := Idle, 1 := Idle];
  }

  lemma NextReceives(cfg: Config, d: Delays, content: string, rest: seq<Event>, end: State)
    requires cfg.parse(content).Some? && Follows(cfg, Punctual(d), NextStarted(cfg, content), rest, end)
    ensures Follows(cfg, Punctual(d), FirstStarted(cfg, content, 0).(workers := map[0 := Idle, 1 := Idle]),
                    [Enqueue(content)] + ([Receive(0, 1, false)] + ([Begin(0, false)] + rest)), end)
  {
    hide Follows;
    var s1 := FirstStarted(cfg, content, 0).(workers := map[0 := Idle, 1 := Idle]);
    var s2 := Next(cfg, s1, Enqueue(content));
    var s3 := Next(cfg, s2, Receive(0, 1, false));
    assert Next(cfg, s3, Begin(0, false)) == NextStarted(cfg, content);
    Then(cfg, Punctual(d), s3, Begin(0, false), rest, end);
    Then(cfg, Punctual(d), s2, Receive(0, 1, false), [Begin(0, false)] + rest, end);
    Then(cfg, Punctual(d), s1, Enqueue(content), [Receive(0, 1, false)] + ([Begin(0, false)] + rest), end);
  }

  // stop_worker cancels a busy worker, whose loop takes that for the end of
  // the job and goes on; then it drops the worker's entries.
  function StopWorkerRun(cfg: Config, content: string): seq<Event> {
    [Enqueue(content), Receive(0, 0, false), Tick(0), Begin(0, false), Cancel(0), Clear(0),
     Enqueue(content), Receive(0, 1, false), Begin(0, false), ForgetWorker(0),
     Tick(SleepSeconds(cfg)), Wake(0), Tick(RenewSeconds(cfg)), Receive(1, 1, false), Begin(1, false)]
  }

  // Without its entries a job's renewal does nothing, and the lease lapses.
  lemma ForgottenLapses(cfg: Config, d: Delays, content: string) returns (end: State)
    requires cfg.visibilityMinutes >= 1 && d.stopWorker && cfg.parse(content).Some?
    ensures Follows(cfg, Punctual(d), NextStarted(cfg, content),
                    [ForgetWorker(0)] + ([Tick(SleepSeconds(cfg))] + ([Wake(0)] + ([Tick(RenewSeconds(cfg))]
                    + ([Receive(1, 1, false)] + ([Begin(1, false)] + []))))), end)
    ensures !Exclusive(end)
  {
    var lease, sleep := RenewSeconds(cfg), SleepSeconds(cfg);
    var s := NextStarted(cfg, content);
    var s1 := Next(cfg, s, ForgetWorker(0));
    var s2 := Next(cfg, s1, Tick(sleep));
    end := SecondStarts(cfg, d, Next(cfg, s2, Wake(0)), lease, 1);
    hide Follows, Exclusive;
    var rest := [Tick(lease)] + ([Receive(1, 1, false)] + ([Begin(1, false)] + []));
    Then(cfg, Punctual(d), s2, Wake(0), rest, end);
    Then(cfg, Punctual(d), s1, Tick(sleep), [Wake(0)] + rest, end);
    Then(cfg, Punctual(d), s, ForgetWorker(0), [Tick(sleep)] + ([Wake(0)] + rest), end);
  }

  // The entries dropped are those of the next job, which is then never
  // renewed, and a second worker starts it.
  lemma StopWorkerOverlaps(cfg: Config, d: Delays, content: string)
    requires cfg.visibilityMinutes >= 1 && d.stopWorker && cfg.parse(content).Some?
    ensures TimelyRun(cfg, d, TwoWorkers, StopWorkerRun(cfg, content))
    ensures After(cfg, TwoWorkers, StopWorkerRun(cfg, content)).Some?
    ensures !Exclusive(After(cfg, TwoWorkers, StopWorkerRun(cfg, content)).value)
  {
    hide *;
    var end := ForgottenLapses(cfg, d, content);
    var rest := [ForgetWorker(0)] + ([Tick(SleepSeconds(cfg))] + ([Wake(0)] + ([Tick(RenewSeconds(cfg))]
                + ([Receive(1, 1, false)] + ([Begin(1, false)] + [])))));
    NextStarts(cfg, d, content, rest, end);
    rest := [Cancel(0)] + ([Clear(0)] + ([Enqueue(content)] + ([Receive(0, 1, false)] + ([Begin(0, false)] + rest))));
    FirstStarts(cfg, d, content, 0, rest, end);
    StopWorkerRunIs(cfg, content);
    OverlapByScript(cfg, d, StopWorkerRun(cfg, content), end);
  }

  lemma StopWorkerRunIs(cfg: Config, content: string)
    ensures StopWorkerRun(cfg, content)
         == [Enqueue(content)] + ([Receive(0, 0, false)] + ([Tick(0)] + ([Begin(0, false)] +
            ([Cancel(0)] + ([Clear(0)] + ([Enqueue(content)] + ([Receive(0, 1, false)] + ([Begin(0, false)] +
            ([ForgetWorker(0)] + ([Tick(SleepSeconds(cfg))] + ([Wake(0)] + ([Tick(RenewSeconds(cfg))] +
            ([Receive(1, 1, false)] + ([Begin(1, false)] + []))))))))))))))
  {
  }

  // The workflow returns while a renewal has taken effect and its answer is
  // still on the way.
  function CutShortRun(cfg: Config, content: string): seq<Event> {
    [Enqueue(content), Receive(0, 0, false), Tick(0), Begin(0, false),
     Tick(SleepSeconds(cfg)), Wake(0), RenewCall(0, NoFault), WorkflowDone(0, Succeeded), Settle(0, NoFault)]
  }

  // The receipt kept is then outdated: with every delay met and no call
  // failing, the completed message stays queued, to be processed again.
  lemma CutShortStaysQueued(cfg: Config, content: string)
    requires cfg.parse(content).Some?
    ensures TimelyRun(cfg, Delays(0, 0, false), TwoWorkers, CutShortRun(cfg, content))
    ensures var t := After(cfg, TwoWorkers, CutShortRun(cfg, content));
            t.Some? && 0 in t.value.completed && 0 in t.value.queue && 0 !in t.value.removed && t.value.dead == []
  {
    hide *;
    var d := Delays(0, 0, false);
    var end := SettlesOutdated(cfg, content);
    var rest := [WorkflowDone(0, Succeeded)] + ([Settle(0, NoFault)] + []);
    RenewsOnce(cfg, content, rest, end);
    rest := [Tick(SleepSeconds(cfg))] + ([Wake(0)] + ([RenewCall(0, NoFault)] + rest));
    FirstStarts(cfg, d, content, 0, rest, end);
    CutShortRunIs(cfg, content);
    ScriptEnds(cfg, Punctual(d), TwoWorkers, CutShortRun(cfg, content), end);
    TimelyIs(cfg, d, TwoWorkers, CutShortRun(cfg, content));
  }

  lemma TimelyIs(cfg: Config, d: Delays, s0: State, events: seq<Event>)
    ensures TimelyRun(cfg, d, s0, events) <==> RunOf(cfg, Punctual(d), s0, events)
  {
  }

  lemma CutShortRunIs(cfg: Config, content: string)
    ensures CutShortRun(cfg, content)
         == [Enqueue(content)] + ([Receive(0, 0, false)] + ([Tick(0)] + ([Begin(0, false)] +
            ([Tick(SleepSeconds(cfg))] + ([Wake(0)] + ([RenewCall(0, NoFault)] +
            ([WorkflowDone(0, Succeeded)] + ([Settle(0, NoFault)] + []))))))))
  {
  }

  function RenewedOnce(cfg: Config, content: string): State
    requires cfg.parse(content).Some?
  {
    var s := FirstStarted(cfg, content, 0);
    var sleep := SleepSeconds(cfg);
    s.(now := sleep,
       queue := map[0 := Message(content, 1, Receipt(1, 1), sleep + RenewSeconds(cfg))],
       workers := s.workers[0 := s.workers[0].(
         renewal := Calling(sleep, 0, Receipt(1, 0), RenewSeconds(cfg), Some(Done(Receipt(1, 1))), sleep))])
  }

  lemma RenewsOnce(cfg: Config, content: string, rest: seq<Event>, end: State)
    requires cfg.parse(content).Some?
             && Follows(cfg, Punctual(Delays(0, 0, false)), RenewedOnce(cfg, content), rest, end)
    ensures Follows(cfg, Punctual(Delays(0, 0, false)), FirstStarted(cfg, content, 0),
                    [Tick(SleepSeconds(cfg))] + ([Wake(0)] + ([RenewCall(0, NoFault)] + rest)), end)
  {
    hide Follows, SleepSeconds, RenewSeconds;
    var d, s := Delays(0, 0, false), FirstStarted(cfg, content, 0);
    var s1 := Next(cfg, s, Tick(SleepSeconds(cfg)));
    var s2 := Next(cfg, s1, Wake(0));
    assert Next(cfg, s2, RenewCall(0, NoFault)) == RenewedOnce(cfg, content);
    Then(cfg, Punctual(d), s2, RenewCall(0, NoFault), rest, end);
    Then(cfg, Punctual(d), s1, Wake(0), [RenewCall(0, NoFault)] + rest, end);
    Then(cfg, Punctual(d), s, Tick(SleepSeconds(cfg)), [Wake(0)] + ([RenewCall(0, NoFault)] + rest), end);
  }

  lemma SettlesOutdated(cfg: Config, content: string) returns (end: State)
    requires cfg.parse(content).Some?
    ensures Follows(cfg, Punctual(Delays(0, 0, false)), RenewedOnce(cfg, content),
                    [WorkflowDone(0, Succeeded)] + ([Settle(0, NoFault)] + []), end)
    ensures 0 in end.completed && 0 in end.queue && 0 !in end.removed && end.dead == []
  {
    var d, s := Delays(0, 0, false), RenewedOnce(cfg, content);
    var s1 := Next(cfg, s, WorkflowDone(0, Succeeded));
    end := Next(cfg, s1, Settle(0, NoFault));
    Then(cfg, Punctual(d), s1, Settle(0, NoFault), [], end);
    Then(cfg, Punctual(d), s, WorkflowDone(0, Succeeded), [Settle(0, NoFault)] + [], end);
  }

  // The exact condition: with a lease of at least a minute and some payload
  // that parses, every timely run is exclusive if and only if the slack holds
  // both delays and stop_worker never hits a busy worker.
  lemma ExclusionExactly(cfg: Config, d: Delays, content: string)
    requires cfg.visibilityMinutes >= 1 && cfg.parse(content).Some?
    ensures EnoughSlack(cfg, d) <==>
              forall s0, events :: Initial(s0) && s0.running && TimelyRun(cfg, d, s0, events) ==>
                After(cfg, s0, events).Some? && Exclusive(After(cfg, s0, events).value)
  {
    if EnoughSlack(cfg, d) {
      forall s0, events | Initial(s0) && s0.running && TimelyRun(cfg, d, s0, events)
        ensures After(cfg, s0, events).Some? && Exclusive(After(cfg, s0, events).value)
      {
        MutualExclusion(cfg, d, s0, events);
      }
    } else {
      var script;
      if d.stopWorker {
        StopWorkerOverlaps(cfg, d, content);
        script := StopWorkerRun(cfg, content);
      } else {
        script := SlackIsNeeded(cfg, d, content);
      }
      assert Initial(TwoWorkers) && TwoWorkers.running;
    }
  }
}
