// Receipt bookkeeping: unless a renewal was cut short, an answer was lost or
// the tracking entries were dropped, the receipt a worker tracks is the
// queue's current one for as long as its lease is the current one. So its
// deletes and updates do what they are meant to do.
module QueueReceipts {
  import opened Wrappers
  import opened QueueProtocol
  import opened QueueSafety

  // The receipt the worker has, or is about to store.
  function Known(wk: Worker): Receipt
    requires wk.phase != Polling
  {
    if wk.phase.Starting? then wk.phase.m.receipt
    else if wk.renewal.Calling? && wk.renewal.answer.Some? && wk.renewal.answer.value.Done?
    then wk.renewal.answer.value.receipt
    else if wk.phase.Failing? && !wk.phase.plan.DeadLetter? && wk.phase.state.Answered? && wk.phase.state.answer.Done?
    then wk.phase.state.answer.receipt
    else Target(wk, wk.phase.m).1
  }

  // Calls under way use the tracked receipt, and renewal and failure handling
  // do not overlap.
  predicate Orderly(wk: Worker)
    requires wk.phase != Polling
  {
    && (wk.phase.Failing? || wk.phase.Cleaning? ==> !wk.task)
    && (wk.renewal.Calling? ==> wk.renewal.receipt == Target(wk, wk.phase.m).1)
    && (wk.renewal != NotRenewing ==> wk.phase.Running?)
    && (wk.phase.Failing? && wk.phase.state.call.Update? ==> wk.phase.state.call.receipt == Target(wk, wk.phase.m).1)
  }

  // Handling a malformed message under the entries of an earlier job.
  predicate Wanders(wk: Worker)
    requires wk.phase != Polling
  {
    var m := wk.phase.m;
    || (!wk.phase.Starting? && wk.tracked.Some? && !Own(m, wk.tracked.value.0, wk.tracked.value.1))
    || (wk.phase.Failing? && wk.phase.state.call.Update?
        && !Own(m, wk.phase.state.call.id, wk.phase.state.call.receipt))
  }

  predicate Holds(s: State, w: nat) {
    && Busy(s, w)
    && s.workers[w].phase.m.id in s.queue
    && s.queue[s.workers[w].phase.m.id].receipt.lease == LeaseOf(s, w)
  }

  predicate Agrees(s: State, w: nat)
    requires Busy(s, w)
  {
    LeaseOf(s, w) !in s.tainted && !Wanders(s.workers[w]) ==>
      && Orderly(s.workers[w])
      && (Holds(s, w) ==> s.queue[s.workers[w].phase.m.id].receipt == Known(s.workers[w]))
  }

  // A call left behind belongs to a lease that is tainted or over.
  ghost predicate OrphanApart(s: State, call: Call) {
    call.Update? ==>
      call.receipt.lease in s.tainted || forall w :: Busy(s, w) ==> LeaseOf(s, w) != call.receipt.lease
  }

  ghost predicate ReceiptInv(s: State) {
    && (forall w :: Busy(s, w) ==> Agrees(s, w))
    && forall i :: 0 <= i < |s.orphans| ==> OrphanApart(s, s.orphans[i])
  }

  // Only receipts of one lease are new.
  ghost predicate ChangedUnder(s: State, t: State, lease: nat) {
    forall id :: id in t.queue ==>
      || (id in s.queue && t.queue[id].receipt == s.queue[id].receipt)
      || t.queue[id].receipt.lease == lease
  }

  lemma ApartStays(s: State, t: State, call: Call)
    requires OrphanApart(s, call) && s.tainted <= t.tainted
    requires forall w :: Busy(t, w) ==>
               (Busy(s, w) && LeaseOf(t, w) == LeaseOf(s, w)) || (call.Update? ==> LeaseOf(t, w) != call.receipt.lease)
    ensures OrphanApart(t, call)
  {
    if call.Update? && call.receipt.lease !in t.tainted {
      forall w | Busy(t, w) ensures LeaseOf(t, w) != call.receipt.lease {
        assert Busy(s, w) ==> LeaseOf(s, w) != call.receipt.lease;
      }
    }
  }

  // One worker, or the service on its behalf, moves on, touching the queue
  // under one of its leases: the others are not concerned.
  lemma WorkerStep(s: State, t: State, w: nat, wk: Worker, lease: nat)
    requires ReceiptInv(s) && LeasesApart(s)
    requires w in s.workers && t.workers == s.workers[w := wk]
    requires wk.phase != Polling ==> Busy(s, w) && wk.phase.m == s.workers[w].phase.m && Agrees(t, w)
    requires s.tainted <= t.tainted
             && (t.queue == s.queue || (lease in Leases(s.workers[w]) && ChangedUnder(s, t, lease)))
    requires forall i :: 0 <= i < |t.orphans| ==> t.orphans[i] in s.orphans || OrphanApart(t, t.orphans[i])
    ensures ReceiptInv(t)
  {
    forall v | Busy(t, v) && v != w ensures Agrees(t, v) {
      assert Busy(s, v) && Agrees(s, v) && (t.queue != s.queue ==> LeaseOf(s, v) != lease);
    }
    hide Agrees, Leases;
    forall i | 0 <= i < |t.orphans| ensures OrphanApart(t, t.orphans[i]) {
      if t.orphans[i] in s.orphans { ApartStays(s, t, t.orphans[i]); }
    }
  }

  // The same of a busy worker under its own lease.
  lemma OwnStep(s: State, t: State, w: nat, wk: Worker)
    requires ReceiptInv(s) && LeasesApart(s)
    requires Busy(s, w) && t.workers == s.workers[w := wk]
    requires wk.phase != Polling ==> wk.phase.m == s.workers[w].phase.m && Agrees(t, w)
    requires ChangedUnder(s, t, LeaseOf(s, w)) && s.tainted <= t.tainted
    requires forall i :: 0 <= i < |t.orphans| ==> t.orphans[i] in s.orphans || OrphanApart(t, t.orphans[i])
    ensures ReceiptInv(t)
  {
    BusyHasLease(s);
    hide Leases, Agrees, OrphanApart;
    WorkerStep(s, t, w, wk, LeaseOf(s, w));
  }

  // The acting worker is unaffected by what others left behind.
  lemma OrphanStep(s: State, i: nat, fault: Fault)
    requires ReceiptInv(s) && i < |s.orphans|
    ensures ReceiptInv(DoOrphan(s, i, fault))
  {
    var t, call := DoOrphan(s, i, fault), s.orphans[i];
    assert OrphanApart(s, call);
    forall v | Busy(t, v) ensures Agrees(t, v) { assert Agrees(s, v); }
    forall j | 0 <= j < |t.orphans| ensures OrphanApart(t, t.orphans[j]) {
      assert t.orphans[j] in s.orphans;
      ApartStays(s, t, t.orphans[j]);
    }
  }

  lemma ReceiveStep(cfg: Config, s: State, w: nat, id: nat, lost: bool)
    requires Inv(cfg, s) && ReceiptInv(s) && Enabled(cfg, s, Receive(w, id, lost))
    ensures ReceiptInv(DoReceive(cfg, s, w, id, lost))
  {
    var t := DoReceive(cfg, s, w, id, lost);
    forall v | Busy(t, v) ensures Agrees(t, v) {
      if v != w || lost { assert Agrees(s, v); InvGivesWorker(cfg, s, v); }
    }
    forall i | 0 <= i < |t.orphans| ensures OrphanApart(t, t.orphans[i]) {
      assert CallOk(cfg, s, s.orphans[i]);
      ApartStays(s, t, s.orphans[i]);
    }
  }

  lemma EnqueueStep(cfg: Config, s: State, content: string)
    requires Inv(cfg, s) && ReceiptInv(s)
    ensures ReceiptInv(DoEnqueue(s, content))
  {
    var t := DoEnqueue(s, content);
    forall v | Busy(t, v) ensures Agrees(t, v) { assert Agrees(s, v); InvGivesWorker(cfg, s, v); }
    forall i | 0 <= i < |t.orphans| ensures OrphanApart(t, t.orphans[i]) { ApartStays(s, t, s.orphans[i]); }
  }

  lemma BeginAgrees(cfg: Config, s: State, w: nat, crash: bool)
    requires Busy(s, w) && Agrees(s, w) && Enabled(cfg, s, Begin(w, crash)) && WorkerOk(cfg, s, s.workers[w])
    ensures Agrees(DoBegin(cfg, s, w, crash), w)
  {
  }

  // Beginning touches one worker and at most the notes about its lease.
  lemma BeginShape(cfg: Config, s: State, w: nat, crash: bool)
    requires Enabled(cfg, s, Begin(w, crash))
    ensures var t, m := DoBegin(cfg, s, w, crash), s.workers[w].phase.m;
            && w in t.workers && t.workers[w].phase != Polling && t.workers[w].phase.m == m
            && t == s.(workers := s.workers[w := t.workers[w]], tainted := t.tainted)
            && s.tainted <= t.tainted <= s.tainted + {m.receipt.lease}
  {
    var m := s.workers[w].phase.m;
    hide MaxAttempts, RetryDelay, NextSleep, Target;
    if cfg.parse(m.content).Some? {
      var wk := AfterParse(cfg, s, m);
      assert s.workers[w := wk][w := DoBegin(cfg, s, w, crash).workers[w]]
             == s.workers[w := DoBegin(cfg, s, w, crash).workers[w]];
    }
  }

  function AfterParse(cfg: Config, s: State, m: Received): Worker
    requires cfg.parse(m.content).Some?
  {
    var claim := cfg.parse(m.content).value;
    Worker(Running(m, claim), Some((m.id, m.receipt)), Some(claim), Some(claim), NextSleep(cfg, s), true)
  }

  lemma BeginStep(cfg: Config, s: State, w: nat, crash: bool)
    requires Inv(cfg, s) && ReceiptInv(s) && Enabled(cfg, s, Begin(w, crash))
    ensures ReceiptInv(DoBegin(cfg, s, w, crash))
  {
    InvGivesWorker(cfg, s, w);
    assert Agrees(s, w);
    BeginAgrees(cfg, s, w, crash);
    BeginShape(cfg, s, w, crash);
    hide Agrees, WorkerOk, MessagesOk, HistoryOk, DoBegin;
    var t := DoBegin(cfg, s, w, crash);
    OwnStep(s, t, w, t.workers[w]);
  }

  lemma WakeStep(cfg: Config, s: State, w: nat)
    requires Inv(cfg, s) && ReceiptInv(s) && Enabled(cfg, s, Wake(w))
    ensures ReceiptInv(DoWake(cfg, s, w))
  {
    InvGivesWorker(cfg, s, w);
    assert Agrees(s, w);
    var t := DoWake(cfg, s, w);
    OwnStep(s, t, w, t.workers[w]);
  }

  lemma RenewCallStep(cfg: Config, s: State, w: nat, fault: Fault)
    requires Inv(cfg, s) && ReceiptInv(s) && Enabled(cfg, s, RenewCall(w, fault))
    ensures ReceiptInv(DoRenewCall(s, w, fault))
  {
    InvGivesWorker(cfg, s, w);
    assert Agrees(s, w);
    var t := DoRenewCall(s, w, fault);
    OwnStep(s, t, w, t.workers[w]);
  }

  lemma RenewDoneAgrees(cfg: Config, s: State, w: nat)
    requires Busy(s, w) && WorkerOk(cfg, s, s.workers[w]) && Agrees(s, w) && Enabled(cfg, s, RenewDone(w))
    ensures Agrees(DoRenewDone(cfg, s, w), w)
  {
  }

  lemma RenewDoneStep(cfg: Config, s: State, w: nat)
    requires Inv(cfg, s) && ReceiptInv(s) && Enabled(cfg, s, RenewDone(w))
    ensures ReceiptInv(DoRenewDone(cfg, s, w))
  {
    InvGivesWorker(cfg, s, w);
    assert Agrees(s, w);
    RenewDoneAgrees(cfg, s, w);
    hide Agrees, WorkerOk, MessagesOk, HistoryOk, SleepSeconds;
    var t := DoRenewDone(cfg, s, w);
    OwnStep(s, t, w, t.workers[w]);
  }

  lemma WorkflowDoneStep(cfg: Config, s: State, w: nat, outcome: Outcome)
    requires Inv(cfg, s) && ReceiptInv(s) && Enabled(cfg, s, WorkflowDone(w, outcome))
    ensures ReceiptInv(DoWorkflowDone(s, w, outcome))
  {
    InvGivesWorker(cfg, s, w);
    assert Agrees(s, w);
    var t := DoWorkflowDone(s, w, outcome);
    OwnStep(s, t, w, t.workers[w]);
  }

  // The end of a job: whatever is left behind belongs to its leases.
  lemma FinishStep(cfg: Config, s: State, s1: State, w: nat, lease: nat)
    requires Inv(cfg, s) && ReceiptInv(s) && Busy(s, w) && !s.workers[w].phase.Starting?
             && !s.workers[w].phase.Clearing?
    requires s1.workers == s.workers && s.tainted <= s1.tainted
    requires lease in Leases(s.workers[w]) && ChangedUnder(s, s1, lease)
    requires s.workers[w].task ==> LeaseOf(s, w) in s1.tainted || s1.queue == s.queue
    requires forall i :: 0 <= i < |s1.orphans| ==>
               s1.orphans[i] in s.orphans || LeftBehind(s.workers[w], s1.orphans[i], s1.tainted)
    ensures ReceiptInv(Finish(s1, w))
  {
    InvGivesWorker(cfg, s, w);
    assert Agrees(s, w);
    var t := Finish(s1, w);
    FinishAgrees(cfg, s, s1, w);
    FinishOrphans(cfg, s, s1, w);
    assert t.workers == s.workers[w := t.workers[w]] && t.queue == s1.queue && s1.tainted <= t.tainted;
    hide Finish, Agrees, WorkerOk, OrphanApart, LeftBehind, Leases, MessagesOk, HistoryOk;
    WorkerStep(s, t, w, t.workers[w], lease);
  }

  // A call a finished job leaves behind.
  predicate LeftBehind(wk: Worker, call: Call, tainted: set<nat>) {
    call.Update? ==> call.receipt.lease in Leases(wk) && (wk.task ==> call.receipt.lease in tainted)
  }

  lemma FinishAgrees(cfg: Config, s: State, s1: State, w: nat)
    requires Busy(s, w) && WorkerOk(cfg, s, s.workers[w]) && Agrees(s, w)
    requires !s.workers[w].phase.Starting? && !s.workers[w].phase.Clearing?
    requires s1.workers == s.workers && s.tainted <= s1.tainted
    requires s.workers[w].task ==> LeaseOf(s, w) in s1.tainted || s1.queue == s.queue
    ensures var t := Finish(s1, w);
            w in t.workers
            && (t.workers[w].phase != Polling ==> t.workers[w].phase.m == s.workers[w].phase.m && Agrees(t, w))
  {
  }

  lemma FinishOrphans(cfg: Config, s: State, s1: State, w: nat)
    requires Inv(cfg, s) && Busy(s, w) && s1.workers == s.workers && s.tainted <= s1.tainted
    requires forall i :: 0 <= i < |s1.orphans| ==>
               s1.orphans[i] in s.orphans || LeftBehind(s.workers[w], s1.orphans[i], s1.tainted)
    ensures var t := Finish(s1, w);
            forall i :: 0 <= i < |t.orphans| ==> t.orphans[i] in s.orphans || OrphanApart(t, t.orphans[i])
  {
    InvGivesWorker(cfg, s, w);
    var t := Finish(s1, w);
    RenewalLeaves(cfg, s, s.workers[w]);
    assert t.orphans == s1.orphans + RenewalOrphans(s.workers[w].renewal);
    assert t.tainted == s1.tainted + RenewalTaint(s.workers[w]);
    forall i | 0 <= i < |t.orphans| ensures t.orphans[i] in s.orphans || OrphanApart(t, t.orphans[i]) {
      var call := t.orphans[i];
      assert call in s.orphans || LeftBehind(s.workers[w], call, t.tainted);
      if call !in s.orphans { LeftIsApart(s, t, w, call); }
    }
  }

  lemma RenewalLeaves(cfg: Config, s: State, wk: Worker)
    requires WorkerOk(cfg, s, wk)
    ensures forall i :: 0 <= i < |RenewalOrphans(wk.renewal)| ==>
              LeftBehind(wk, RenewalOrphans(wk.renewal)[i], RenewalTaint(wk))
  {
  }

  lemma LeftIsApart(s: State, t: State, w: nat, call: Call)
    requires LeasesApart(s) && Busy(s, w) && LeftBehind(s.workers[w], call, t.tainted)
    requires w in t.workers && t.workers == s.workers[w := t.workers[w]]
    requires s.workers[w].task || t.workers[w].phase == Polling
    ensures OrphanApart(t, call)
  {
    if call.Update? && call.receipt.lease !in t.tainted {
      forall v | Busy(t, v) ensures LeaseOf(t, v) != call.receipt.lease {
        assert v != w && Busy(s, v);
      }
    }
  }

  lemma BeginFailureStep(cfg: Config, s: State, w: nat, m: Received, forced: bool, cleanup: Option<string>)
    requires Inv(cfg, s) && ReceiptInv(s) && Busy(s, w) && m == s.workers[w].phase.m
    requires LeaseOf(s, w) !in s.tainted ==>
               s.workers[w].renewal.NotRenewing? && !s.workers[w].phase.Failing? && !s.workers[w].task
    ensures ReceiptInv(BeginFailure(cfg, s, w, m, forced, cleanup))
  {
    InvGivesWorker(cfg, s, w);
    assert Agrees(s, w);
    var t := BeginFailure(cfg, s, w, m, forced, cleanup);
    BeginFailureAgrees(cfg, s, w, m, forced, cleanup);
    hide Agrees, WorkerOk, MessagesOk, HistoryOk, MaxAttempts, RetryDelay;
    OwnStep(s, t, w, t.workers[w]);
  }

  lemma BeginFailureAgrees(cfg: Config, s: State, w: nat, m: Received, forced: bool, cleanup: Option<string>)
    requires Busy(s, w) && m == s.workers[w].phase.m && WorkerOk(cfg, s, s.workers[w]) && Agrees(s, w)
    requires LeaseOf(s, w) !in s.tainted ==>
               s.workers[w].renewal.NotRenewing? && !s.workers[w].phase.Failing? && !s.workers[w].task
    ensures Busy(BeginFailure(cfg, s, w, m, forced, cleanup), w)
    ensures Agrees(BeginFailure(cfg, s, w, m, forced, cleanup), w)
  {
    hide MaxAttempts, RetryDelay, HasLetter;
  }

  lemma SettlingStep(cfg: Config, s: State, w: nat)
    requires Inv(cfg, s) && ReceiptInv(s) && w in s.workers && s.workers[w].phase.Returned?
    ensures Inv(cfg, Settling(s, w)) && ReceiptInv(Settling(s, w))
  {
    SettlingKeeps(cfg, s, w);
    assert Agrees(s, w);
    OwnStep(s, Settling(s, w), w, s.workers[w].(task := false));
  }

  lemma SettleStep(cfg: Config, s: State, w: nat, fault: Fault)
    requires Inv(cfg, s) && ReceiptInv(s) && Enabled(cfg, s, Settle(w, fault))
    ensures ReceiptInv(DoSettle(cfg, s, w, fault))
  {
    InvGivesWorker(cfg, s, w);
    SettlingStep(cfg, s, w);
    var wk, s' := s.workers[w], Settling(s, w);
    InvGivesWorker(cfg, s', w);
    assert Agrees(s', w);
    if wk.phase.outcome.Succeeded? {
      DeleteTargetStep(cfg, s', w, fault, AfterSuccess);
    } else {
      hide Inv, ReceiptInv, Agrees, BeginFailure;
      BeginFailureStep(cfg, s', w, wk.phase.m, wk.phase.outcome.ExecutorFailed?, Some(wk.phase.claim));
    }
  }

  // The end of a job that has deleted its target.
  lemma DeleteTargetStep(cfg: Config, s: State, w: nat, fault: Fault, why: Reason)
    requires Inv(cfg, s) && ReceiptInv(s) && Busy(s, w)
    requires !s.workers[w].phase.Starting? && !s.workers[w].phase.Clearing?
    requires s.workers[w].task ==> LeaseOf(s, w) in s.tainted
    ensures var target := Target(s.workers[w], s.workers[w].phase.m);
            ReceiptInv(Finish(Delete(s, target.0, target.1, fault, why), w))
  {
    var target := Target(s.workers[w], s.workers[w].phase.m);
    assert target.1.lease in Leases(s.workers[w]);
    hide Inv, ReceiptInv, Leases;
    FinishStep(cfg, s, Delete(s, target.0, target.1, fault, why), w, target.1.lease);
  }

  lemma SettleRaisesStep(cfg: Config, s: State, w: nat, fault: Fault)
    requires Inv(cfg, s) && ReceiptInv(s) && Enabled(cfg, s, SettleRaises(w, fault))
    ensures ReceiptInv(DoSettleRaises(cfg, s, w, fault))
  {
    SettlingStep(cfg, s, w);
    SettledKeeps(cfg, s, w, fault);
    InvGivesWorker(cfg, s, w);
    var wk, s' := s.workers[w], Settling(s, w);
    var target := Target(wk, wk.phase.m);
    var t := Delete(s', target.0, target.1, fault, AfterSuccess);
    DeletedStep(cfg, s', w, target, fault);
    assert !t.workers[w].task && t.workers[w].renewal.NotRenewing? && !t.workers[w].phase.Failing?;
    hide Inv, ReceiptInv, BeginFailure, WorkerOk, Delete, Settling;
    BeginFailureStep(cfg, t, w, wk.phase.m, false, None);
  }

  // A worker's target is deleted, and it goes on.
  lemma DeletedStep(cfg: Config, s: State, w: nat, target: (nat, Receipt), fault: Fault)
    requires Inv(cfg, s) && ReceiptInv(s) && Busy(s, w) && target == Target(s.workers[w], s.workers[w].phase.m)
    requires cfg.parse(s.workers[w].phase.m.content).Some? && !s.workers[w].phase.Starting?
    ensures ReceiptInv(Delete(s, target.0, target.1, fault, AfterSuccess))
  {
    InvGivesWorker(cfg, s, w);
    assert Agrees(s, w);
    assert s.workers == s.workers[w := s.workers[w]];
    OwnStep(s, Delete(s, target.0, target.1, fault, AfterSuccess), w, s.workers[w]);
  }

  lemma JobCallAgrees(cfg: Config, s: State, w: nat, fault: Fault)
    requires Busy(s, w) && WorkerOk(cfg, s, s.workers[w]) && Agrees(s, w) && Enabled(cfg, s, JobCall(w, fault))
    ensures Agrees(DoJobCall(s, w, fault), w)
  {
    hide HasLetter;
  }

  lemma JobCallUnder(s: State, w: nat, fault: Fault)
    requires Busy(s, w) && s.workers[w].phase.Failing? && s.workers[w].phase.state.Issued?
    ensures exists lease :: lease in Leases(s.workers[w]) && ChangedUnder(s, DoJobCall(s, w, fault), lease)
  {
    var call := s.workers[w].phase.state.call;
    if call.Update? {
      assert call.receipt.lease in Leases(s.workers[w]) && ChangedUnder(s, DoJobCall(s, w, fault), call.receipt.lease);
    } else {
      assert LeaseOf(s, w) in Leases(s.workers[w]) && ChangedUnder(s, DoJobCall(s, w, fault), LeaseOf(s, w));
    }
  }

  lemma JobCallStep(cfg: Config, s: State, w: nat, fault: Fault)
    requires Inv(cfg, s) && ReceiptInv(s) && Enabled(cfg, s, JobCall(w, fault))
    ensures ReceiptInv(DoJobCall(s, w, fault))
  {
    InvGivesWorker(cfg, s, w);
    assert Agrees(s, w);
    JobCallAgrees(cfg, s, w, fault);
    JobCallUnder(s, w, fault);
    var t := DoJobCall(s, w, fault);
    var lease :| lease in Leases(s.workers[w]) && ChangedUnder(s, t, lease);
    hide Agrees, WorkerOk, MessagesOk, HistoryOk, CallQueue, CallDead, CallAnswer, ChangedUnder, Leases;
    WorkerStep(s, t, w, t.workers[w], lease);
  }

  lemma FinalDeleteStep(cfg: Config, s: State, w: nat, fault: Fault)
    requires Inv(cfg, s) && ReceiptInv(s) && Busy(s, w) && (s.workers[w].phase.Failing? || s.workers[w].phase.Cleaning?)
    ensures ReceiptInv(FinalDelete(s, w, s.workers[w].phase.m, fault))
  {
    TaskIsTainted(cfg, s, w);
    DeleteTargetStep(cfg, s, w, fault, AfterDeadLetter(s.workers[w].phase.m.id));
    hide Inv, ReceiptInv;
  }

  // Failure handling beside a renewal task is that of a crash.
  lemma TaskIsTainted(cfg: Config, s: State, w: nat)
    requires Inv(cfg, s) && ReceiptInv(s) && Busy(s, w) && (s.workers[w].phase.Failing? || s.workers[w].phase.Cleaning?)
    ensures s.workers[w].task ==> LeaseOf(s, w) in s.tainted
  {
    InvGivesWorker(cfg, s, w);
    assert Agrees(s, w);
  }

  // Failure handling goes on to cleaning up or to a longer lease.
  lemma JobGoesOn(cfg: Config, s: State, w: nat, fault: Fault)
    requires Enabled(cfg, s, JobDone(w, fault)) && Agrees(s, w) && WorkerOk(cfg, s, s.workers[w])
    requires s.workers[w].phase.plan.DeadLetter?
    requires s.workers[w].phase.state.answer.Done? ==> s.workers[w].phase.plan.cleanup.Some?
    ensures var t := DoJobDone(cfg, s, w, fault);
            && w in t.workers && t.workers[w].phase != Polling && t.workers[w].phase.m == s.workers[w].phase.m
            && t == s.(workers := s.workers[w := t.workers[w]], cleaned := t.cleaned) && Agrees(t, w)
  {
    hide RetryDelay;
  }

  lemma JobDoneStep(cfg: Config, s: State, w: nat, fault: Fault)
    requires Inv(cfg, s) && ReceiptInv(s) && Enabled(cfg, s, JobDone(w, fault))
    ensures ReceiptInv(DoJobDone(cfg, s, w, fault))
  {
    InvGivesWorker(cfg, s, w);
    var wk := s.workers[w];
    if wk.phase.plan.DeadLetter? {
      if wk.phase.state.answer.Done? && wk.phase.plan.cleanup.None? {
        FinalDeleteStep(cfg, s, w, fault);
      } else {
        assert Agrees(s, w);
        JobGoesOn(cfg, s, w, fault);
        hide Agrees, WorkerOk, Inv, DoJobDone;
        var t := DoJobDone(cfg, s, w, fault);
        OwnStep(s, t, w, t.workers[w]);
      }
    } else {
      UpdateDoneStep(cfg, s, w, fault);
    }
  }

  // The end of failure handling that keeps the message.
  lemma UpdateDoneStep(cfg: Config, s: State, w: nat, fault: Fault)
    requires Inv(cfg, s) && ReceiptInv(s) && Enabled(cfg, s, JobDone(w, fault)) && !s.workers[w].phase.plan.DeadLetter?
    ensures ReceiptInv(DoJobDone(cfg, s, w, fault))
  {
    InvGivesWorker(cfg, s, w);
    TaskIsTainted(cfg, s, w);
    BusyHasLease(s);
    if s.workers[w].phase.plan.Retry? {
      FinishStep(cfg, s, s, w, LeaseOf(s, w));
      FinishKeeps(cfg, s, w);
      StoredAgrees(cfg, s, w);
      var t := Finish(StoreAnswer(s, w), w);
      if s.workers[w].task {
        hide Inv, WorkerOk, Leases, StoreAnswer, Finish, Agrees;
        OwnStep(Finish(s, w), t, w, t.workers[w]);
      }
    } else {
      hide Inv, ReceiptInv, WorkerOk, Leases;
      FinishStep(cfg, s, s, w, LeaseOf(s, w));
    }
  }

  // The receipt stored last only shows beside a renewal task.
  lemma StoredAgrees(cfg: Config, s: State, w: nat)
    requires w in s.workers && s.workers[w].phase.Failing? && s.workers[w].phase.state.Answered?
    requires s.workers[w].task ==> LeaseOf(s, w) in s.tainted
    ensures Busy(StoreAnswer(s, w), w)
    ensures var f, t := Finish(s, w), Finish(StoreAnswer(s, w), w);
            && w in t.workers && (!s.workers[w].task ==> t == f)
            && (s.workers[w].task ==>
                  && Busy(f, w) && Busy(t, w) && t.workers[w].phase.m == f.workers[w].phase.m && Agrees(t, w)
                  && t == Put(f, w, t.workers[w]))
  {
    var wk := s.workers[w];
    var stored := StoreAnswer(s, w).workers[w];
    assert StoreAnswer(s, w).workers == s.workers[w := stored];
    assert StoreAnswer(s, w) == Put(s, w, stored);
    assert stored == wk.(tracked := stored.tracked);
    AgreesIfTainted(Finish(StoreAnswer(s, w), w), w);
    hide Agrees, StoreAnswer;
    FinishSameButTracked(s, w, stored);
  }

  lemma FinishSameButTracked(s: State, w: nat, stored: Worker)
    requires Busy(s, w) && stored == s.workers[w].(tracked := stored.tracked)
    ensures Busy(Put(s, w, stored), w)
    ensures var f, t := Finish(s, w), Finish(Put(s, w, stored), w);
            && w in t.workers && t.tainted == f.tainted && t == Put(f, w, t.workers[w])
            && (s.workers[w].task ==> t.workers[w] == f.workers[w].(tracked := stored.tracked) && Busy(t, w))
            && (!s.workers[w].task ==> t == f)
  {
    var t := Finish(Put(s, w, stored), w);
    assert StopRenewal(Put(s, w, stored), w).workers[w := t.workers[w]] == s.workers[w := t.workers[w]];
    assert Finish(s, w).workers[w := t.workers[w]] == s.workers[w := t.workers[w]];
  }

  lemma AgreesIfTainted(s: State, w: nat)
    ensures Busy(s, w) && LeaseOf(s, w) in s.tainted ==> Agrees(s, w)
  {
  }

  lemma ClearStep(cfg: Config, s: State, w: nat)
    requires Inv(cfg, s) && ReceiptInv(s) && Enabled(cfg, s, Clear(w))
    ensures ReceiptInv(DoClear(s, w))
  {
    OwnStep(s, DoClear(s, w), w, Idle);
  }

  lemma CancelStep(cfg: Config, s: State, w: nat)
    requires Inv(cfg, s) && ReceiptInv(s) && Enabled(cfg, s, Cancel(w))
    ensures ReceiptInv(DoCancel(s, w))
  {
    var wk := s.workers[w];
    BusyHasLease(s);
    if wk.phase.Starting? || wk.phase.Clearing? {
      OwnStep(s, DoCancel(s, w), w, wk.(phase := Polling, task := false));
    } else {
      PhaseLeaves(cfg, s, w);
      hide Inv, ReceiptInv, Leases, LeftBehind, PhaseOrphans;
      FinishStep(cfg, s, s.(orphans := s.orphans + PhaseOrphans(wk.phase)), w, LeaseOf(s, w));
    }
  }

  lemma PhaseLeaves(cfg: Config, s: State, w: nat)
    requires Inv(cfg, s) && ReceiptInv(s) && Busy(s, w)
    ensures var calls := PhaseOrphans(s.workers[w].phase);
            forall i :: 0 <= i < |calls| ==> LeftBehind(s.workers[w], calls[i], s.tainted)
  {
    InvGivesWorker(cfg, s, w);
    if s.workers[w].phase.Failing? { TaskIsTainted(cfg, s, w); }
  }

  lemma StopProcessStep(cfg: Config, s: State, w: nat, fault: Fault)
    requires Inv(cfg, s) && ReceiptInv(s) && Enabled(cfg, s, StopProcess(w, fault))
    ensures ReceiptInv(DoStopProcess(s, w, fault))
  {
    var wk, t := s.workers[w], DoStopProcess(s, w, fault);
    if wk.tracked.None? {
      assert t == s;
    } else {
      if Busy(s, w) {
        assert Agrees(s, w);
        StopProcessAgrees(s, w, fault);
      }
      StopProcessShape(s, w, fault);
      assert s.workers == s.workers[w := wk];
      assert wk.tracked.value.1.lease in Leases(wk);
      hide Agrees, WorkerOk, MessagesOk, HistoryOk, DoStopProcess, Leases;
      WorkerStep(s, t, w, wk, wk.tracked.value.1.lease);
    }
  }

  lemma StopProcessShape(s: State, w: nat, fault: Fault)
    requires w in s.workers && s.workers[w].tracked.Some?
    ensures var t := DoStopProcess(s, w, fault);
            && t == s.(queue := t.queue, removed := t.removed, cleaned := t.cleaned)
            && ChangedUnder(s, t, s.workers[w].tracked.value.1.lease)
  {
  }

  lemma StopProcessAgrees(s: State, w: nat, fault: Fault)
    requires Busy(s, w) && Agrees(s, w)
    ensures Agrees(DoStopProcess(s, w, fault), w)
  {
  }

  lemma ForgetStep(cfg: Config, s: State, w: nat)
    requires Inv(cfg, s) && ReceiptInv(s) && w in s.workers
    ensures ReceiptInv(DoForget(s, w))
  {
    InvGivesWorker(cfg, s, w);
    var t := DoForget(s, w);
    hide Inv, WorkerOk, Leases, OrphanApart;
    WorkerStep(s, t, w, t.workers[w], 0);
  }

  lemma SameQueueStep(s: State, t: State)
    requires ReceiptInv(s)
    requires t.queue == s.queue && t.workers == s.workers && t.tainted == s.tainted && t.orphans == s.orphans
    ensures ReceiptInv(t)
  {
    forall v | Busy(t, v) ensures Agrees(t, v) { assert Agrees(s, v); }
    forall i | 0 <= i < |t.orphans| ensures OrphanApart(t, t.orphans[i]) { ApartStays(s, t, s.orphans[i]); }
  }

  lemma NextStep(cfg: Config, s: State, e: Event)
    requires Inv(cfg, s) && ReceiptInv(s) && Enabled(cfg, s, e)
    ensures ReceiptInv(Next(cfg, s, e))
  {
    hide ReceiptInv, Inv;
    match e
    case Tick(to) => SameQueueStep(s, s.(now := to));
    case Enqueue(content) => EnqueueStep(cfg, s, content);
    case Receive(w, id, lost) => ReceiveStep(cfg, s, w, id, lost);
    case Begin(w, crash) => BeginStep(cfg, s, w, crash);
    case Wake(w) => WakeStep(cfg, s, w);
    case RenewCall(w, fault) => RenewCallStep(cfg, s, w, fault);
    case RenewDone(w) => RenewDoneStep(cfg, s, w);
    case WorkflowDone(w, outcome) => WorkflowDoneStep(cfg, s, w, outcome);
    case Settle(w, fault) => SettleStep(cfg, s, w, fault);
    case SettleRaises(w, fault) => SettleRaisesStep(cfg, s, w, fault);
    case JobCall(w, fault) => JobCallStep(cfg, s, w, fault);
    case JobDone(w, fault) => JobDoneStep(cfg, s, w, fault);
    case CleanupDone(w, fault) => FinalDeleteStep(cfg, s, w, fault);
    case Clear(w) => ClearStep(cfg, s, w);
    case Cancel(w) => CancelStep(cfg, s, w);
    case StopProcess(w, fault) => StopProcessStep(cfg, s, w, fault);
    case ForgetWorker(w) => ForgetStep(cfg, s, w);
    case SetRunning(on) => SameQueueStep(s, s.(running := on));
    case Orphan(i, fault) => OrphanStep(s, i, fault);
  }

  lemma {:induction false} RunAgrees(cfg: Config, s0: State, events: seq<Event>)
    requires Initial(s0) && After(cfg, s0, events).Some?
    ensures ReceiptInv(After(cfg, s0, events).value)
  {
    if events != [] {
      var n := |events| - 1;
      RunAgrees(cfg, s0, events[..n]);
      RunKeeps(cfg, s0, events[..n]);
      NextStep(cfg, After(cfg, s0, events[..n]).value, events[n]);
    }
  }

  // A worker whose lease is current and whose bookkeeping was never cut short
  // knows the current receipt; and with no call of its own under way it uses
  // it next, unless it handles a malformed message under earlier entries.
  lemma TrackedIsCurrent(cfg: Config, s: State, w: nat)
    requires Reachable(cfg, s) && Holds(s, w) && LeaseOf(s, w) !in s.tainted
    ensures !Wanders(s.workers[w]) ==> s.queue[s.workers[w].phase.m.id].receipt == Known(s.workers[w])
    ensures var wk := s.workers[w]; var m := wk.phase.m;
            !wk.renewal.Calling? && !wk.phase.Failing? ==>
              (NextTarget(cfg, wk) == (m.id, s.queue[m.id].receipt) <==>
               cfg.parse(m.content).Some? || wk.tracked.None?)
  {
    var s0, events :| Initial(s0) && After(cfg, s0, events) == Some(s);
    RunAgrees(cfg, s0, events);
    ReachableInv(cfg, s);
    InvGivesWorker(cfg, s, w);
    TargetExactly(cfg, s, w);
    assert Agrees(s, w);
    hide Inv, Reachable, After, TaskOk, EntriesOk, PhaseOk, RenewalOk;
  }

  // So a successful job under a current lease does remove its message, unless
  // the delete itself fails.
  lemma SuccessRemoves(cfg: Config, s: State, w: nat)
    requires Reachable(cfg, s) && Enabled(cfg, s, Settle(w, NoFault)) && s.workers[w].phase.outcome.Succeeded?
    requires LeaseOf(s, w) !in s.tainted
    ensures var id, t := s.workers[w].phase.m.id, Next(cfg, s, Settle(w, NoFault));
            Holds(s, w) ==> id !in t.queue && id in t.removed && t.removed[id] == AfterSuccess
  {
    if Holds(s, w) {
      TrackedIsCurrent(cfg, s, w);
      ReachableInv(cfg, s);
      InvGivesWorker(cfg, s, w);
      ReturnedDoes(cfg, s, w);
      SettleDeletes(cfg, s, w);
      hide Reachable, Inv, WorkerOk, Known, Wanders, Next, Target, NextTarget;
    }
  }

  lemma SettleDeletes(cfg: Config, s: State, w: nat)
    requires Enabled(cfg, s, Settle(w, NoFault)) && s.workers[w].phase.outcome.Succeeded?
    ensures var (id, receipt) := Target(s.workers[w], s.workers[w].phase.m);
            var t := Next(cfg, s, Settle(w, NoFault));
            Matches(s.queue, id, receipt) ==> id !in t.queue && id in t.removed && t.removed[id] == AfterSuccess
  {
  }

  lemma ReturnedDoes(cfg: Config, s: State, w: nat)
    requires w in s.workers && s.workers[w].phase.Returned? && WorkerOk(cfg, s, s.workers[w])
    ensures !s.workers[w].renewal.Calling? && cfg.parse(s.workers[w].phase.m.content).Some?
    ensures NextTarget(cfg, s.workers[w]) == Target(s.workers[w], s.workers[w].phase.m)
  {
  }

  // A call left running by a cancelled task, when it takes effect at all on a
  // message a worker holds, was issued under that worker's own lease, which is
  // then tainted. So it never does on an untainted holder's message.
  lemma OrphansStayApart(cfg: Config, s: State, i: nat, w: nat)
    requires Reachable(cfg, s) && i < |s.orphans| && s.orphans[i].Update? && Holds(s, w)
    requires s.orphans[i].id == s.workers[w].phase.m.id
    ensures Matches(s.queue, s.orphans[i].id, s.orphans[i].receipt) ==>
              s.orphans[i].receipt.lease == LeaseOf(s, w) && LeaseOf(s, w) in s.tainted
  {
    var s0, events :| Initial(s0) && After(cfg, s0, events) == Some(s);
    RunAgrees(cfg, s0, events);
    assert OrphanApart(s, s.orphans[i]);
  }
}
