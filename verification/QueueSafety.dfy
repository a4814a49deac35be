// Safety of the claim queue over every run: what becomes of a message, which
// messages a worker touches, and that dead letters respect the retry limit.
// Where in-flight entries of an earlier job are left over, a malformed message
// is handled under them; "QueueStale" says exactly when.
module QueueSafety {
  import opened Wrappers
  import opened QueueProtocol

  // ---- the invariant -------------------------------------------------------

  predicate LetterOk(cfg: Config, s: State, l: Letter) {
    && l.id in s.enqueued && l.content == s.enqueued[l.id]
    && (l.forced || l.attempt >= MaxAttempts(cfg))
  }

  predicate CallOk(cfg: Config, s: State, call: Call) {
    match call
    case Update(id, receipt, _) => id in s.enqueued && receipt.lease < s.nextLease
    case Send(letter) => LetterOk(cfg, s, letter)
  }

  predicate HasLetter(s: State, id: nat) {
    exists i :: 0 <= i < |s.dead| && s.dead[i].id == id && id in s.enqueued && s.dead[i].content == s.enqueued[id]
  }

  // Failure handling cleans up only what is dead-lettered.
  predicate CleanupOk(s: State, c: Cleanup) {
    c.byStop || HasLetter(s, c.id)
  }

  predicate ReceivedOk(s: State, m: Received) {
    && m.id in s.enqueued && m.content == s.enqueued[m.id]
    && m.receipt.lease < s.nextLease && m.dequeueCount >= 1
  }

  // A receipt of the lease under which m was received.
  predicate Own(m: Received, id: nat, receipt: Receipt) {
    id == m.id && receipt.lease == m.receipt.lease
  }

  predicate RenewalOk(m: Received, r: Renewal) {
    match r
    case Calling(_, id, receipt, _, answer, _) =>
      && Own(m, id, receipt)
      && (answer.Some? && answer.value.Done? ==> Own(m, id, answer.value.receipt))
    case _ => true
  }

  // A call of failure handling: under the worker's own lease, except that a
  // malformed message is handled under whatever entries there are.
  predicate CallOwned(cfg: Config, m: Received, call: Call) {
    call.Update? && (Own(m, call.id, call.receipt) || cfg.parse(m.content).None?)
  }

  predicate PhaseOk(cfg: Config, s: State, phase: Phase) {
    match phase
    case Running(m, claim) => cfg.parse(m.content) == Some(claim)
    case Returned(m, _, outcome) => cfg.parse(m.content).Some? && (outcome.Succeeded? ==> m.id in s.completed)
    case Failing(m, DeadLetter(forced, _), state) =>
      && (forced || m.dequeueCount >= MaxAttempts(cfg))
      && state.call == Send(LetterFor(m, forced))
      && (state.Answered? && state.answer.Done? ==> HasLetter(s, m.id))
    case Failing(m, Retry, state) =>
      && m.dequeueCount < MaxAttempts(cfg) && cfg.parse(m.content).Some?
      && CallOwned(cfg, m, state.call) && state.call.delay == RetryDelay(cfg)
      && (state.Answered? && state.answer.Done? ==> Own(m, state.call.id, state.answer.receipt))
    case Failing(m, Extend, state) =>
      CallOwned(cfg, m, state.call) && CallOk(cfg, s, state.call) && state.call.delay == Max(60, RetryDelay(cfg))
    case Cleaning(m, _, _) => HasLetter(s, m.id)
    case _ => true
  }

  // What the in-flight entries of a worker name was received and did parse.
  predicate EntriesOk(cfg: Config, s: State, wk: Worker) {
    && (wk.tracked.Some? ==>
          var (id, receipt) := wk.tracked.value;
          id in s.enqueued && cfg.parse(s.enqueued[id]).Some? && receipt.lease < s.nextLease)
    && (wk.batch.Some? || wk.process.Some? ==> wk.tracked.Some?)
  }

  // A renewal belongs to a job that still runs, or whose failure handling
  // began before it was stopped.
  predicate TaskOk(cfg: Config, wk: Worker) {
    && (wk.renewal != NotRenewing ==> wk.task)
    && (wk.task ==> wk.phase != Polling && !wk.phase.Starting? && cfg.parse(wk.phase.m.content).Some?)
    && (wk.phase.Returned? || wk.phase.Clearing? ==> wk.renewal == NotRenewing)
    && (wk.phase.Clearing? ==> wk.task)
  }

  // After the first stretch of a job that parses, the entries are its own;
  // before the first stretch they are those of an earlier one.
  predicate OwnEntries(cfg: Config, wk: Worker)
    requires wk.phase != Polling
  {
    wk.tracked.Some? ==>
      var (m, entry) := (wk.phase.m, wk.tracked.value);
      && (wk.phase.Starting? ==> entry.1.lease != m.receipt.lease)
      && (!wk.phase.Starting? && cfg.parse(m.content).Some? ==> Own(m, entry.0, entry.1))
  }

  // So is the process they name.
  predicate OwnProcess(cfg: Config, wk: Worker)
    requires wk.phase != Polling
  {
    wk.process.Some? && !wk.phase.Starting? && cfg.parse(wk.phase.m.content).Some? ==>
      wk.process == cfg.parse(wk.phase.m.content)
  }

  predicate WorkerOk(cfg: Config, s: State, wk: Worker) {
    && EntriesOk(cfg, s, wk)
    && TaskOk(cfg, wk)
    && (wk.phase != Polling ==>
          && ReceivedOk(s, wk.phase.m)
          && OwnEntries(cfg, wk) && OwnProcess(cfg, wk)
          && RenewalOk(wk.phase.m, wk.renewal)
          && PhaseOk(cfg, s, wk.phase))
  }

  predicate MessagesOk(s: State) {
    && s.queue.Keys !! s.removed.Keys
    && s.queue.Keys + s.removed.Keys == s.enqueued.Keys
    && (forall id :: id in s.queue ==>
          s.queue[id].content == s.enqueued[id] && s.queue[id].receipt.lease < s.nextLease)
    && forall id :: id in s.enqueued ==> id < s.nextId
  }

  predicate HistoryOk(cfg: Config, s: State) {
    && (forall id :: id in s.removed ==> ReasonOk(cfg, s, id, s.removed[id]))
    && (forall i :: 0 <= i < |s.dead| ==> LetterOk(cfg, s, s.dead[i]))
    && (forall i :: 0 <= i < |s.orphans| ==> CallOk(cfg, s, s.orphans[i]))
    && forall i :: 0 <= i < |s.cleaned| ==> CleanupOk(s, s.cleaned[i])
  }

  predicate Busy(s: State, w: nat) { w in s.workers && s.workers[w].phase != Polling }

  function LeaseOf(s: State, w: nat): nat
    requires Busy(s, w)
  {
    s.workers[w].phase.m.receipt.lease
  }

  // The leases under which a worker may touch the queue.
  function Leases(wk: Worker): set<nat> {
    (if wk.tracked.Some? then {wk.tracked.value.1.lease} else {})
    + (if wk.phase != Polling then {wk.phase.m.receipt.lease} else {})
    + (if wk.phase.Failing? && wk.phase.state.call.Update? then {wk.phase.state.call.receipt.lease} else {})
  }

  // No other worker has the lease of a busy one, not even in entries it kept
  // from an earlier job.
  ghost predicate LeasesApart(s: State) {
    forall v, w :: v in s.workers && Busy(s, w) && v != w ==> LeaseOf(s, w) !in Leases(s.workers[v])
  }

  ghost predicate WorkersOk(cfg: Config, s: State) {
    && (forall w :: w in s.workers ==> WorkerOk(cfg, s, s.workers[w]))
    && LeasesApart(s)
  }

  ghost predicate Inv(cfg: Config, s: State) {
    MessagesOk(s) && HistoryOk(cfg, s) && WorkersOk(cfg, s)
  }

  // What was known stays known: the past only grows.
  ghost predicate Later(s: State, t: State) {
    && MapExtends(t.enqueued, s.enqueued)
    && s.completed <= t.completed
    && s.dead <= t.dead
    && s.nextLease <= t.nextLease
    && MapExtends(t.removed, s.removed)
  }

  lemma LetterStays(s: State, t: State, id: nat)
    requires Later(s, t) && HasLetter(s, id)
    ensures HasLetter(t, id)
  {
    var i :| 0 <= i < |s.dead| && s.dead[i].id == id && s.dead[i].content == s.enqueued[id];
    assert t.dead[i] == s.dead[i];
  }

  lemma CleanupsStay(s: State, t: State)
    requires Later(s, t) && forall i :: 0 <= i < |s.cleaned| ==> CleanupOk(s, s.cleaned[i])
    ensures forall i :: 0 <= i < |s.cleaned| ==> CleanupOk(t, s.cleaned[i])
  {
    forall i | 0 <= i < |s.cleaned| ensures CleanupOk(t, s.cleaned[i]) {
      if !s.cleaned[i].byStop { LetterStays(s, t, s.cleaned[i].id); }
    }
  }

  lemma WorkerStaysOk(cfg: Config, s: State, t: State, wk: Worker)
    requires Later(s, t) && WorkerOk(cfg, s, wk)
    ensures WorkerOk(cfg, t, wk)
  {
    if wk.phase != Polling && HasLetter(s, wk.phase.m.id) { LetterStays(s, t, wk.phase.m.id); }
  }

  lemma HistoryStaysOk(cfg: Config, s: State, t: State)
    requires Later(s, t) && HistoryOk(cfg, s)
    requires t.dead == s.dead && t.orphans == s.orphans && t.cleaned == s.cleaned && t.removed == s.removed
    ensures HistoryOk(cfg, t)
  {
    forall id | id in s.removed ensures ReasonOk(cfg, t, id, s.removed[id]) {
      ReasonStays(cfg, s, t, id, s.removed[id]);
    }
    CleanupsStay(s, t);
  }

  // One worker moves on under its old leases, or goes back to polling.
  lemma WorkerMoves(cfg: Config, s: State, t: State, w: nat, wk: Worker)
    requires WorkersOk(cfg, s) && Later(s, t)
    requires w in s.workers && t.workers == s.workers[w := wk]
    requires WorkerOk(cfg, t, wk) && Leases(wk) <= Leases(s.workers[w])
    requires wk.phase != Polling ==> Busy(s, w) && wk.phase.m.receipt.lease == LeaseOf(s, w)
    ensures WorkersOk(cfg, t)
  {
    forall v | v in t.workers && v != w ensures WorkerOk(cfg, t, t.workers[v]) {
      WorkerStaysOk(cfg, s, t, s.workers[v]);
    }
    hide WorkerOk, Leases, Later;
    forall u, v | u in t.workers && Busy(t, v) && u != v ensures LeaseOf(t, v) !in Leases(t.workers[u]) {
      assert u in s.workers && Busy(s, v) && LeaseOf(s, v) == LeaseOf(t, v);
    }
  }

  lemma WorkersUntouched(cfg: Config, s: State, t: State)
    requires WorkersOk(cfg, s) && Later(s, t) && t.workers == s.workers
    ensures WorkersOk(cfg, t)
  {
    forall v | v in t.workers ensures WorkerOk(cfg, t, t.workers[v]) {
      WorkerStaysOk(cfg, s, t, s.workers[v]);
    }
    hide WorkerOk, Leases, Later;
    forall u, v | u in t.workers && Busy(t, v) && u != v ensures LeaseOf(t, v) !in Leases(t.workers[u]) {
      assert u in s.workers && Busy(s, v);
    }
  }

  // ---- what the service does to the invariant ------------------------------

  predicate ReasonOk(cfg: Config, s: State, id: nat, why: Reason) {
    match why
    case AfterSuccess => id in s.completed
    case AfterDeadLetter(of) => HasLetter(s, of) && (of == id || cfg.parse(s.enqueued[of]).None?)
    case ByStopProcess => true
  }

  lemma ReasonStays(cfg: Config, s: State, t: State, id: nat, why: Reason)
    requires ReasonOk(cfg, s, id, why) && Later(s, t)
    ensures ReasonOk(cfg, t, id, why)
  {
    if why.AfterDeadLetter? { LetterStays(s, t, why.of); }
  }

  lemma LettersAndCallsStay(cfg: Config, s: State, t: State)
    requires HistoryOk(cfg, s) && Later(s, t) && t.dead == s.dead && t.orphans == s.orphans
    ensures forall i :: 0 <= i < |t.dead| ==> LetterOk(cfg, t, t.dead[i])
    ensures forall i :: 0 <= i < |t.orphans| ==> CallOk(cfg, t, t.orphans[i])
  {
  }

  lemma DeleteKeeps(cfg: Config, s: State, id: nat, receipt: Receipt, fault: Fault, why: Reason)
    requires Inv(cfg, s) && ReasonOk(cfg, s, id, why)
    ensures Inv(cfg, Delete(s, id, receipt, fault, why)) && Later(s, Delete(s, id, receipt, fault, why))
  {
    if !fault.FailsBefore? && Matches(s.queue, id, receipt) { RemovalKeeps(cfg, s, id, why); }
    hide Inv, Later;
  }

  lemma RemovalKeeps(cfg: Config, s: State, id: nat, why: Reason)
    requires Inv(cfg, s) && ReasonOk(cfg, s, id, why) && id in s.queue
    ensures var t := s.(queue := s.queue - {id}, removed := s.removed[id := why]); Inv(cfg, t) && Later(s, t)
  {
    hide WorkersOk, LetterOk, CallOk, HasLetter;
    var t := s.(queue := s.queue - {id}, removed := s.removed[id := why]);
    WorkersUntouched(cfg, s, t);
    LettersAndCallsStay(cfg, s, t);
    forall i | i in t.removed ensures ReasonOk(cfg, t, i, t.removed[i]) {
      ReasonStays(cfg, s, t, i, t.removed[i]);
    }
    CleanupsStay(s, t);
  }

  lemma PerformKeeps(cfg: Config, s: State, call: Call, fault: Fault)
    requires Inv(cfg, s) && CallOk(cfg, s, call)
    ensures Inv(cfg, PerformCall(s, call, fault)) && Later(s, PerformCall(s, call, fault))
    ensures call.Send? && CallAnswer(s, call, fault).Done? ==> HasLetter(PerformCall(s, call, fault), call.letter.id)
  {
    var t := PerformCall(s, call, fault);
    assert Later(s, t);
    WorkersUntouched(cfg, s, t);
    forall i | i in t.removed ensures ReasonOk(cfg, t, i, t.removed[i]) {
      ReasonStays(cfg, s, t, i, t.removed[i]);
    }
    CleanupsStay(s, t);
    if call.Send? && CallAnswer(s, call, fault).Done? {
      assert t.dead[|s.dead|] == call.letter;
    }
  }

  // Calls left behind by a cancelled task.
  lemma OrphansKeep(cfg: Config, s: State, more: seq<Call>)
    requires Inv(cfg, s) && forall i :: 0 <= i < |more| ==> CallOk(cfg, s, more[i])
    ensures Inv(cfg, s.(orphans := s.orphans + more))
  {
    var t := s.(orphans := s.orphans + more);
    WorkersUntouched(cfg, s, t);
    forall i | i in t.removed ensures ReasonOk(cfg, t, i, t.removed[i]) {
      ReasonStays(cfg, s, t, i, t.removed[i]);
    }
    CleanupsStay(s, t);
  }

  lemma SideNotesKeep(cfg: Config, s: State, t: State)
    requires Inv(cfg, s)
    requires t == s.(tainted := t.tainted, running := t.running, now := t.now)
    ensures Inv(cfg, t) && Later(s, t)
  {
    HistoryStaysOk(cfg, s, t);
    WorkersUntouched(cfg, s, t);
  }

  lemma PutKeeps(cfg: Config, s: State, w: nat, wk: Worker)
    requires Inv(cfg, s) && w in s.workers && WorkerOk(cfg, s, wk) && Leases(wk) <= Leases(s.workers[w])
    requires wk.phase != Polling ==> Busy(s, w) && wk.phase.m.receipt.lease == LeaseOf(s, w)
    ensures Inv(cfg, Put(s, w, wk)) && Later(s, Put(s, w, wk))
  {
    var t := Put(s, w, wk);
    HistoryStaysOk(cfg, s, t);
    WorkerStaysOk(cfg, s, t, wk);
    WorkerMoves(cfg, s, t, w, wk);
  }

  lemma StopRenewalKeeps(cfg: Config, s: State, w: nat)
    requires Inv(cfg, s) && w in s.workers
    ensures Inv(cfg, StopRenewal(s, w)) && Later(s, StopRenewal(s, w))
  {
    var wk := s.workers[w];
    assert WorkerOk(cfg, s, wk);
    var s1 := s.(orphans := s.orphans + RenewalOrphans(wk.renewal));
    OrphansKeep(cfg, s, RenewalOrphans(wk.renewal));
    var s2 := s1.(tainted := s.tainted + RenewalTaint(wk));
    SideNotesKeep(cfg, s1, s2);
    WorkerStaysOk(cfg, s, s2, wk);
    PutKeeps(cfg, s2, w, wk.(renewal := NotRenewing));
  }

  lemma FinishKeeps(cfg: Config, s: State, w: nat)
    requires Inv(cfg, s) && Busy(s, w)
    ensures Inv(cfg, Finish(s, w)) && Later(s, Finish(s, w))
  {
    var wk := s.workers[w];
    assert WorkerOk(cfg, s, wk);
    StopRenewalKeeps(cfg, s, w);
    PutKeeps(cfg, StopRenewal(s, w), w,
             if wk.task then wk.(phase := Clearing(wk.phase.m), renewal := NotRenewing) else Idle);
  }

  lemma BeginFailureKeeps(cfg: Config, s: State, w: nat, m: Received, forced: bool, cleanup: Option<string>)
    requires Inv(cfg, s) && Busy(s, w) && m == s.workers[w].phase.m
    requires if s.workers[w].phase.Starting? then cfg.parse(m.content).None? && forced
             else cfg.parse(m.content).Some?
    ensures Inv(cfg, BeginFailure(cfg, s, w, m, forced, cleanup))
            && Later(s, BeginFailure(cfg, s, w, m, forced, cleanup))
  {
    assert WorkerOk(cfg, s, s.workers[w]);
    var t := BeginFailure(cfg, s, w, m, forced, cleanup);
    BeginFailureOk(cfg, s, w, m, forced, cleanup);
    hide Inv, WorkerOk, Leases, Later, BeginFailure;
    PutKeeps(cfg, s, w, t.workers[w]);
  }

  lemma BeginFailureOk(cfg: Config, s: State, w: nat, m: Received, forced: bool, cleanup: Option<string>)
    requires Busy(s, w) && m == s.workers[w].phase.m && WorkerOk(cfg, s, s.workers[w])
    requires if s.workers[w].phase.Starting? then cfg.parse(m.content).None? && forced
             else cfg.parse(m.content).Some?
    ensures var t := BeginFailure(cfg, s, w, m, forced, cleanup);
            && Busy(t, w) && t == Put(s, w, t.workers[w]) && WorkerOk(cfg, s, t.workers[w])
            && Leases(t.workers[w]) <= Leases(s.workers[w]) && LeaseOf(t, w) == LeaseOf(s, w)
  {
    hide HasLetter, RetryDelay, MaxAttempts;
  }

  lemma InvGivesWorker(cfg: Config, s: State, w: nat)
    requires Inv(cfg, s) && w in s.workers
    ensures WorkerOk(cfg, s, s.workers[w])
  {
  }

  // ---- the events ----------------------------------------------------------

  lemma EnqueueKeeps(cfg: Config, s: State, content: string)
    requires Inv(cfg, s)
    ensures Inv(cfg, DoEnqueue(s, content)) && Later(s, DoEnqueue(s, content))
  {
    var t := DoEnqueue(s, content);
    HistoryStaysOk(cfg, s, t);
    WorkersUntouched(cfg, s, t);
  }

  lemma ReceiveKeeps(cfg: Config, s: State, w: nat, id: nat, lost: bool)
    requires Inv(cfg, s) && Enabled(cfg, s, Receive(w, id, lost))
    ensures Inv(cfg, DoReceive(cfg, s, w, id, lost)) && Later(s, DoReceive(cfg, s, w, id, lost))
  {
    var t := DoReceive(cfg, s, w, id, true);
    LeaseKeeps(cfg, s, w, id);
    if !lost {
      var wk := DoReceive(cfg, s, w, id, false).workers[w];
      InvGivesWorker(cfg, s, w);
      LeasesAreOld(cfg, s, s.workers[w]);
      assert WorkerOk(cfg, t, wk);
      forall v | v in t.workers ensures s.nextLease !in Leases(t.workers[v]) { LeasesAreOld(cfg, s, s.workers[v]); }
      hide Inv, WorkerOk, ReceiveSeconds;
      StartKeeps(cfg, t, w, wk);
    }
  }

  lemma LeasesAreOld(cfg: Config, s: State, wk: Worker)
    requires WorkerOk(cfg, s, wk)
    ensures forall lease :: lease in Leases(wk) ==> lease < s.nextLease
  {
  }

  // A message is leased, and nobody hears of it.
  lemma LeaseKeeps(cfg: Config, s: State, w: nat, id: nat)
    requires Inv(cfg, s) && Enabled(cfg, s, Receive(w, id, true))
    ensures Inv(cfg, DoReceive(cfg, s, w, id, true)) && Later(s, DoReceive(cfg, s, w, id, true))
  {
    var t := DoReceive(cfg, s, w, id, true);
    hide WorkersOk, WorkerOk, HistoryOk, ReceiveSeconds;
    HistoryStaysOk(cfg, s, t);
    WorkersUntouched(cfg, s, t);
  }

  // A polling worker starts under a lease of its own, with the entries it has.
  lemma StartKeeps(cfg: Config, s: State, w: nat, wk: Worker)
    requires Inv(cfg, s) && w in s.workers && s.workers[w].phase == Polling
    requires WorkerOk(cfg, s, wk) && wk.phase != Polling
             && Leases(wk) <= Leases(s.workers[w]) + {wk.phase.m.receipt.lease}
    requires forall v :: v in s.workers ==> wk.phase.m.receipt.lease !in Leases(s.workers[v])
    ensures Inv(cfg, Put(s, w, wk)) && Later(s, Put(s, w, wk))
  {
    var t := Put(s, w, wk);
    hide MessagesOk, HistoryOk, WorkerOk;
    HistoryStaysOk(cfg, s, t);
    PutMessages(cfg, s, w, wk);
    forall v | v in t.workers ensures WorkerOk(cfg, t, t.workers[v]) {
      WorkerStaysOk(cfg, s, t, if v == w then wk else s.workers[v]);
    }
    BusyHasLease(s);
    hide Leases;
    forall u, v | u in t.workers && Busy(t, v) && u != v ensures LeaseOf(t, v) !in Leases(t.workers[u]) {
      assert v != w ==> Busy(s, v) && LeaseOf(t, v) == LeaseOf(s, v);
    }
  }

  lemma BusyHasLease(s: State)
    ensures forall v :: Busy(s, v) ==> LeaseOf(s, v) in Leases(s.workers[v])
  {
  }

  lemma PutMessages(cfg: Config, s: State, w: nat, wk: Worker)
    requires MessagesOk(s)
    ensures MessagesOk(Put(s, w, wk))
  {
  }

  lemma BeginKeeps(cfg: Config, s: State, w: nat, crash: bool)
    requires Inv(cfg, s) && Enabled(cfg, s, Begin(w, crash))
    ensures Inv(cfg, DoBegin(cfg, s, w, crash)) && Later(s, DoBegin(cfg, s, w, crash))
  {
    hide Inv;
    var m := s.workers[w].phase.m;
    InvGivesWorker(cfg, s, w);
    match cfg.parse(m.content)
    case None => BeginFailureKeeps(cfg, s, w, m, true, None);
    case Some(claim) =>
      var wk := Worker(Running(m, claim), Some((m.id, m.receipt)), Some(claim), Some(claim), NextSleep(cfg, s), true);
      PutKeeps(cfg, s, w, wk);
      var s1 := Put(s, w, wk);
      if crash {
        var s2 := s1.(tainted := s.tainted + {m.receipt.lease});
        SideNotesKeep(cfg, s1, s2);
        BeginFailureKeeps(cfg, s2, w, m, false, None);
      }
  }

  lemma WakeKeeps(cfg: Config, s: State, w: nat)
    requires Inv(cfg, s) && Enabled(cfg, s, Wake(w))
    ensures Inv(cfg, DoWake(cfg, s, w)) && Later(s, DoWake(cfg, s, w))
  {
    assert WorkerOk(cfg, s, s.workers[w]);
    PutKeeps(cfg, s, w, DoWake(cfg, s, w).workers[w]);
  }

  lemma RenewCallKeeps(cfg: Config, s: State, w: nat, fault: Fault)
    requires Inv(cfg, s) && Enabled(cfg, s, RenewCall(w, fault))
    ensures Inv(cfg, DoRenewCall(s, w, fault)) && Later(s, DoRenewCall(s, w, fault))
  {
    var wk := s.workers[w];
    assert WorkerOk(cfg, s, wk);
    var call := Update(wk.renewal.id, wk.renewal.receipt, wk.renewal.delay);
    PerformKeeps(cfg, s, call, fault);
    var s1 := PerformCall(s, call, fault);
    WorkerStaysOk(cfg, s, s1, wk);
    PutKeeps(cfg, s1, w, DoRenewCall(s, w, fault).workers[w]);
  }

  lemma RenewDoneKeeps(cfg: Config, s: State, w: nat)
    requires Inv(cfg, s) && Enabled(cfg, s, RenewDone(w))
    ensures Inv(cfg, DoRenewDone(cfg, s, w)) && Later(s, DoRenewDone(cfg, s, w))
  {
    hide Inv;
    InvGivesWorker(cfg, s, w);
    RenewDoneOk(cfg, s, w);
    hide WorkerOk, Leases, DoRenewDone, Later;
    PutKeeps(cfg, s, w, DoRenewDone(cfg, s, w).workers[w]);
  }

  lemma RenewDoneOk(cfg: Config, s: State, w: nat)
    requires Enabled(cfg, s, RenewDone(w)) && WorkerOk(cfg, s, s.workers[w])
    ensures var t := DoRenewDone(cfg, s, w);
            && w in t.workers && t == Put(s, w, t.workers[w]) && WorkerOk(cfg, s, t.workers[w])
            && Leases(t.workers[w]) <= Leases(s.workers[w])
            && t.workers[w].phase != Polling && Busy(s, w) && t.workers[w].phase.m.receipt.lease == LeaseOf(s, w)
  {
    var wk, t := s.workers[w], DoRenewDone(cfg, s, w);
    RenewedOk(cfg, s, wk, t.workers[w]);
    hide WorkerOk, Leases, SleepSeconds;
  }

  // A renewal's answer stored, and the renewal asleep again or over.
  lemma RenewedOk(cfg: Config, s: State, wk: Worker, after: Worker)
    requires WorkerOk(cfg, s, wk) && wk.renewal.Calling? && wk.renewal.answer.Some?
    requires after.renewal.NotRenewing? || after.renewal.Sleeping?
    requires after == wk.(renewal := after.renewal, tracked := after.tracked)
    requires after.tracked == wk.tracked
             || (wk.renewal.answer.value.Done?
                 && after.tracked == Some((wk.renewal.id, wk.renewal.answer.value.receipt)))
    ensures WorkerOk(cfg, s, after) && Leases(after) <= Leases(wk) && wk.phase != Polling
  {
    hide HasLetter, PhaseOk;
  }

  lemma WorkflowDoneKeeps(cfg: Config, s: State, w: nat, outcome: Outcome)
    requires Inv(cfg, s) && Enabled(cfg, s, WorkflowDone(w, outcome))
    ensures Inv(cfg, DoWorkflowDone(s, w, outcome)) && Later(s, DoWorkflowDone(s, w, outcome))
  {
    var wk := s.workers[w];
    assert WorkerOk(cfg, s, wk);
    StopRenewalKeeps(cfg, s, w);
    var s1 := StopRenewal(s, w);
    var s2 := s1.(completed := if outcome.Succeeded? then s.completed + {wk.phase.m.id} else s.completed);
    CompletedKeeps(cfg, s1, s2);
    InvGivesWorker(cfg, s2, w);
    var t := DoWorkflowDone(s, w, outcome);
    ReturnedOk(cfg, s2, s1.workers[w], outcome);
    assert t == Put(s2, w, t.workers[w]);
    hide Inv, WorkerOk, Leases, Later, StopRenewal;
    PutKeeps(cfg, s2, w, t.workers[w]);
    LaterOn(s, s1, s2);
    LaterOn(s, s2, t);
  }

  lemma CompletedKeeps(cfg: Config, s: State, t: State)
    requires Inv(cfg, s) && t == s.(completed := t.completed) && s.completed <= t.completed
    ensures Inv(cfg, t) && Later(s, t)
  {
    HistoryStaysOk(cfg, s, t);
    WorkersUntouched(cfg, s, t);
  }

  lemma ReturnedOk(cfg: Config, s: State, wk: Worker, outcome: Outcome)
    requires WorkerOk(cfg, s, wk) && wk.phase.Running? && wk.renewal == NotRenewing
    requires outcome.Succeeded? ==> wk.phase.m.id in s.completed
    ensures var after := wk.(phase := Returned(wk.phase.m, wk.phase.claim, outcome));
            WorkerOk(cfg, s, after) && Leases(after) == Leases(wk)
  {
  }

  // The deletion after success, and what the worker's task is then.
  lemma SettledKeeps(cfg: Config, s: State, w: nat, fault: Fault)
    requires Inv(cfg, s) && Enabled(cfg, s, Settle(w, fault)) && s.workers[w].phase.outcome.Succeeded?
    ensures var target := Target(s.workers[w], s.workers[w].phase.m);
            var t := Delete(Settling(s, w), target.0, target.1, fault, AfterSuccess);
            Inv(cfg, t) && Later(s, t) && Busy(t, w) && t.workers == Settling(s, w).workers
  {
    var target := Target(s.workers[w], s.workers[w].phase.m);
    SettlingKeeps(cfg, s, w);
    InvGivesWorker(cfg, s, w);
    DeleteKeeps(cfg, Settling(s, w), target.0, target.1, fault, AfterSuccess);
    hide Inv, WorkerOk;
  }

  lemma SettlingKeeps(cfg: Config, s: State, w: nat)
    requires Inv(cfg, s) && w in s.workers && s.workers[w].phase.Returned?
    ensures Inv(cfg, Settling(s, w)) && Later(s, Settling(s, w))
  {
    assert WorkerOk(cfg, s, s.workers[w]);
    PutKeeps(cfg, s, w, s.workers[w].(task := false));
  }

  lemma SettleKeeps(cfg: Config, s: State, w: nat, fault: Fault)
    requires Inv(cfg, s) && Enabled(cfg, s, Settle(w, fault))
    ensures Inv(cfg, DoSettle(cfg, s, w, fault)) && Later(s, DoSettle(cfg, s, w, fault))
  {
    var wk := s.workers[w];
    var m := wk.phase.m;
    InvGivesWorker(cfg, s, w);
    SettlingKeeps(cfg, s, w);
    hide Inv, Later;
    match wk.phase.outcome
    case Succeeded =>
      var target := Target(wk, m);
      SettledKeeps(cfg, s, w, fault);
      FinishKeeps(cfg, Delete(Settling(s, w), target.0, target.1, fault, AfterSuccess), w);
      LaterOn(s, Delete(Settling(s, w), target.0, target.1, fault, AfterSuccess), DoSettle(cfg, s, w, fault));
    case ExecutorFailed =>
      BeginFailureKeeps(cfg, Settling(s, w), w, m, true, Some(wk.phase.claim));
      LaterOn(s, Settling(s, w), DoSettle(cfg, s, w, fault));
    case OtherError =>
      BeginFailureKeeps(cfg, Settling(s, w), w, m, false, Some(wk.phase.claim));
      LaterOn(s, Settling(s, w), DoSettle(cfg, s, w, fault));
  }

  lemma LaterOn(s: State, t: State, u: State)
    requires Later(s, t) && Later(t, u)
    ensures Later(s, u)
  {
  }

  lemma SettleRaisesKeeps(cfg: Config, s: State, w: nat, fault: Fault)
    requires Inv(cfg, s) && Enabled(cfg, s, SettleRaises(w, fault))
    ensures Inv(cfg, DoSettleRaises(cfg, s, w, fault)) && Later(s, DoSettleRaises(cfg, s, w, fault))
  {
    var m := s.workers[w].phase.m;
    InvGivesWorker(cfg, s, w);
    SettledKeeps(cfg, s, w, fault);
    hide Inv, Later;
    var target := Target(s.workers[w], m);
    var t := Delete(Settling(s, w), target.0, target.1, fault, AfterSuccess);
    BeginFailureKeeps(cfg, t, w, m, false, None);
    LaterOn(s, t, DoSettleRaises(cfg, s, w, fault));
  }

  lemma JobCallKeeps(cfg: Config, s: State, w: nat, fault: Fault)
    requires Inv(cfg, s) && Enabled(cfg, s, JobCall(w, fault))
    ensures Inv(cfg, DoJobCall(s, w, fault)) && Later(s, DoJobCall(s, w, fault))
  {
    var wk := s.workers[w];
    InvGivesWorker(cfg, s, w);
    var call := wk.phase.state.call;
    CallIsOk(cfg, s, wk);
    PerformKeeps(cfg, s, call, fault);
    var s1 := PerformCall(s, call, fault);
    WorkerStaysOk(cfg, s, s1, wk);
    AnswerOk(cfg, s1, wk, CallAnswer(s, call, fault));
    assert AnswerFits(s1, call, CallAnswer(s, call, fault));
    assert Later(s, s1);
    var t := DoJobCall(s, w, fault);
    assert t == Put(s1, w, t.workers[w]);
    hide Inv, WorkerOk, CallQueue, CallDead, CallAnswer, CallTaint, HasLetter, Leases, Later;
    PutKeeps(cfg, s1, w, t.workers[w]);
    LaterOn(s, s1, t);
  }

  lemma CallIsOk(cfg: Config, s: State, wk: Worker)
    requires WorkerOk(cfg, s, wk) && wk.phase.Failing?
    ensures CallOk(cfg, s, wk.phase.state.call)
  {
  }

  predicate AnswerFits(s: State, call: Call, answer: Answer) {
    answer.Done? ==> if call.Send? then HasLetter(s, call.letter.id) else answer.receipt == Renewed(call.receipt)
  }

  lemma AnswerOk(cfg: Config, s: State, wk: Worker, answer: Answer)
    requires WorkerOk(cfg, s, wk) && wk.phase.Failing? && wk.phase.state.Issued?
    ensures var call := wk.phase.state.call;
            var after := wk.(phase := wk.phase.(state := Answered(call, answer)));
            && Leases(after) == Leases(wk)
            && (AnswerFits(s, call, answer) ==> WorkerOk(cfg, s, after))
  {
    hide HasLetter;
  }

  lemma FinalDeleteKeeps(cfg: Config, s: State, w: nat, m: Received, fault: Fault)
    requires Inv(cfg, s) && Busy(s, w) && !s.workers[w].phase.Starting?
    requires m == s.workers[w].phase.m && HasLetter(s, m.id)
    ensures Inv(cfg, FinalDelete(s, w, m, fault)) && Later(s, FinalDelete(s, w, m, fault))
  {
    assert WorkerOk(cfg, s, s.workers[w]);
    var target := Target(s.workers[w], m);
    DeleteKeeps(cfg, s, target.0, target.1, fault, AfterDeadLetter(m.id));
    FinishKeeps(cfg, Delete(s, target.0, target.1, fault, AfterDeadLetter(m.id)), w);
  }

  lemma JobDoneKeeps(cfg: Config, s: State, w: nat, fault: Fault)
    requires Inv(cfg, s) && Enabled(cfg, s, JobDone(w, fault))
    ensures Inv(cfg, DoJobDone(cfg, s, w, fault)) && Later(s, DoJobDone(cfg, s, w, fault))
  {
    hide Inv, Later, Finish, FinalDelete, StoreAnswer;
    match s.workers[w].phase.plan
    case DeadLetter(forced, cleanup) => LetterDoneKeeps(cfg, s, w, fault);
    case Retry =>
      StoreKeeps(cfg, s, w);
      FinishKeeps(cfg, StoreAnswer(s, w), w);
      LaterOn(s, StoreAnswer(s, w), DoJobDone(cfg, s, w, fault));
    case Extend => FinishKeeps(cfg, s, w);
  }

  lemma LetterDoneKeeps(cfg: Config, s: State, w: nat, fault: Fault)
    requires Inv(cfg, s) && Enabled(cfg, s, JobDone(w, fault)) && s.workers[w].phase.plan.DeadLetter?
    ensures Inv(cfg, DoJobDone(cfg, s, w, fault)) && Later(s, DoJobDone(cfg, s, w, fault))
  {
    var wk := s.workers[w];
    var m := wk.phase.m;
    InvGivesWorker(cfg, s, w);
    hide Inv, Later, Finish, FinalDelete;
    if wk.phase.state.answer.Done? && wk.phase.plan.cleanup.None? {
      FinalDeleteKeeps(cfg, s, w, m, fault);
    } else {
      var t := DoJobDone(cfg, s, w, fault);
      var s1 := s.(cleaned := t.cleaned);
      if wk.phase.state.answer.Done? { CleanupKeeps(cfg, s, Cleanup(m.id, false)); }
      WorkerStaysOk(cfg, s, s1, wk);
      LetterDoneOk(cfg, s, s1, w, fault);
      hide WorkerOk, DoJobDone, Leases;
      PutKeeps(cfg, s1, w, t.workers[w]);
      LaterOn(s, s1, t);
    }
  }

  lemma LetterDoneOk(cfg: Config, s: State, s1: State, w: nat, fault: Fault)
    requires Enabled(cfg, s, JobDone(w, fault)) && s.workers[w].phase.plan.DeadLetter?
    requires s.workers[w].phase.state.answer.Done? ==> s.workers[w].phase.plan.cleanup.Some?
    requires s1 == s.(cleaned := DoJobDone(cfg, s, w, fault).cleaned) && WorkerOk(cfg, s1, s.workers[w])
    ensures var t := DoJobDone(cfg, s, w, fault);
            && w in t.workers && t == Put(s1, w, t.workers[w]) && WorkerOk(cfg, s1, t.workers[w])
            && Leases(t.workers[w]) <= Leases(s.workers[w])
            && t.workers[w].phase != Polling && Busy(s, w) && t.workers[w].phase.m.receipt.lease == LeaseOf(s, w)
  {
    hide HasLetter, RetryDelay, MaxAttempts;
  }

  lemma StoreKeeps(cfg: Config, s: State, w: nat)
    requires Inv(cfg, s) && w in s.workers && s.workers[w].phase.Failing? && s.workers[w].phase.state.Answered?
    requires s.workers[w].phase.plan.Retry?
    ensures Inv(cfg, StoreAnswer(s, w)) && Later(s, StoreAnswer(s, w)) && Busy(StoreAnswer(s, w), w)
  {
    assert WorkerOk(cfg, s, s.workers[w]);
    if StoreAnswer(s, w) != s { PutKeeps(cfg, s, w, StoreAnswer(s, w).workers[w]); }
  }

  lemma CleanupDoneKeeps(cfg: Config, s: State, w: nat, fault: Fault)
    requires Inv(cfg, s) && Enabled(cfg, s, CleanupDone(w, fault))
    ensures Inv(cfg, DoCleanupDone(s, w, fault)) && Later(s, DoCleanupDone(s, w, fault))
  {
    assert WorkerOk(cfg, s, s.workers[w]);
    FinalDeleteKeeps(cfg, s, w, s.workers[w].phase.m, fault);
  }

  // A deletion of output blobs starts.
  lemma CleanupKeeps(cfg: Config, s: State, c: Cleanup)
    requires Inv(cfg, s) && CleanupOk(s, c)
    ensures Inv(cfg, s.(cleaned := s.cleaned + [c])) && Later(s, s.(cleaned := s.cleaned + [c]))
  {
    var t := s.(cleaned := s.cleaned + [c]);
    hide WorkersOk, LetterOk, CallOk, WorkerOk;
    WorkersUntouched(cfg, s, t);
    LettersAndCallsStay(cfg, s, t);
    CleanupsStay(s, t);
    forall id | id in s.removed ensures ReasonOk(cfg, t, id, s.removed[id]) {
      ReasonStays(cfg, s, t, id, s.removed[id]);
    }
    if !c.byStop { LetterStays(s, t, c.id); }
  }

  lemma ClearKeeps(cfg: Config, s: State, w: nat)
    requires Inv(cfg, s) && Enabled(cfg, s, Clear(w))
    ensures Inv(cfg, DoClear(s, w)) && Later(s, DoClear(s, w))
  {
    PutKeeps(cfg, s, w, Idle);
  }

  lemma CancelKeeps(cfg: Config, s: State, w: nat)
    requires Inv(cfg, s) && Enabled(cfg, s, Cancel(w))
    ensures Inv(cfg, DoCancel(s, w)) && Later(s, DoCancel(s, w))
  {
    var wk := s.workers[w];
    assert WorkerOk(cfg, s, wk);
    if wk.phase.Starting? || wk.phase.Clearing? {
      PutKeeps(cfg, s, w, wk.(phase := Polling, task := false));
    } else {
      OrphansKeep(cfg, s, PhaseOrphans(wk.phase));
      FinishKeeps(cfg, s.(orphans := s.orphans + PhaseOrphans(wk.phase)), w);
    }
  }

  lemma StopProcessKeeps(cfg: Config, s: State, w: nat, fault: Fault)
    requires Inv(cfg, s) && w in s.workers
    ensures Inv(cfg, DoStopProcess(s, w, fault)) && Later(s, DoStopProcess(s, w, fault))
  {
    var wk := s.workers[w];
    var s1 := DeleteTracked(s, w, fault);
    if wk.tracked.Some? {
      DeleteKeeps(cfg, s, wk.tracked.value.0, wk.tracked.value.1, fault, ByStopProcess);
      if wk.batch.Some? { CleanupKeeps(cfg, s1, Cleanup(wk.tracked.value.0, true)); }
    }
    hide Inv, Delete;
  }

  lemma ForgetKeeps(cfg: Config, s: State, w: nat)
    requires Inv(cfg, s) && w in s.workers
    ensures Inv(cfg, DoForget(s, w)) && Later(s, DoForget(s, w))
  {
    var wk := s.workers[w];
    assert WorkerOk(cfg, s, wk);
    var s1 := s.(tainted := s.tainted + if wk.phase == Polling then {} else {wk.phase.m.receipt.lease});
    SideNotesKeep(cfg, s, s1);
    WorkerStaysOk(cfg, s, s1, wk);
    PutKeeps(cfg, s1, w, wk.(tracked := None, process := None, batch := None));
  }

  lemma OrphanKeeps(cfg: Config, s: State, i: nat, fault: Fault)
    requires Inv(cfg, s) && i < |s.orphans|
    ensures Inv(cfg, DoOrphan(s, i, fault)) && Later(s, DoOrphan(s, i, fault))
  {
    PerformKeeps(cfg, s, s.orphans[i], fault);
    var s1 := PerformCall(s, s.orphans[i], fault);
    var t := s1.(orphans := s.orphans[..i] + s.orphans[i + 1..]);
    WorkersUntouched(cfg, s1, t);
    forall id | id in s1.removed ensures ReasonOk(cfg, t, id, s1.removed[id]) {
      ReasonStays(cfg, s1, t, id, s1.removed[id]);
    }
    CleanupsStay(s1, t);
  }

  lemma NextKeeps(cfg: Config, s: State, e: Event)
    requires Inv(cfg, s) && Enabled(cfg, s, e)
    ensures Inv(cfg, Next(cfg, s, e)) && Later(s, Next(cfg, s, e))
  {
    hide Inv, Later;
    match e
    case Tick(to) => SideNotesKeep(cfg, s, s.(now := to));
    case Enqueue(content) => EnqueueKeeps(cfg, s, content);
    case Receive(w, id, lost) => ReceiveKeeps(cfg, s, w, id, lost);
    case Begin(w, crash) => BeginKeeps(cfg, s, w, crash);
    case Wake(w) => WakeKeeps(cfg, s, w);
    case RenewCall(w, fault) => RenewCallKeeps(cfg, s, w, fault);
    case RenewDone(w) => RenewDoneKeeps(cfg, s, w);
    case WorkflowDone(w, outcome) => WorkflowDoneKeeps(cfg, s, w, outcome);
    case Settle(w, fault) => SettleKeeps(cfg, s, w, fault);
    case SettleRaises(w, fault) => SettleRaisesKeeps(cfg, s, w, fault);
    case JobCall(w, fault) => JobCallKeeps(cfg, s, w, fault);
    case JobDone(w, fault) => JobDoneKeeps(cfg, s, w, fault);
    case CleanupDone(w, fault) => CleanupDoneKeeps(cfg, s, w, fault);
    case Clear(w) => ClearKeeps(cfg, s, w);
    case Cancel(w) => CancelKeeps(cfg, s, w);
    case StopProcess(w, fault) => StopProcessKeeps(cfg, s, w, fault);
    case ForgetWorker(w) => ForgetKeeps(cfg, s, w);
    case SetRunning(on) => SideNotesKeep(cfg, s, s.(running := on));
    case Orphan(i, fault) => OrphanKeeps(cfg, s, i, fault);
  }

  lemma {:induction false} RunKeeps(cfg: Config, s0: State, events: seq<Event>)
    requires Initial(s0)
    ensures After(cfg, s0, events).Some? ==> Inv(cfg, After(cfg, s0, events).value)
  {
    if events != [] && After(cfg, s0, events).Some? {
      var n := |events| - 1;
      RunKeeps(cfg, s0, events[..n]);
      NextKeeps(cfg, After(cfg, s0, events[..n]).value, events[n]);
    }
  }

  // ---- what every run guarantees -------------------------------------------

  ghost predicate Reachable(cfg: Config, s: State) {
    exists s0, events :: Initial(s0) && After(cfg, s0, events) == Some(s)
  }

  lemma ReachableInv(cfg: Config, s: State)
    requires Reachable(cfg, s)
    ensures Inv(cfg, s)
  {
    var s0, events :| Initial(s0) && After(cfg, s0, events) == Some(s);
    RunKeeps(cfg, s0, events);
  }

  // Whatever fails and wherever a cancellation lands, a message ever enqueued
  // is still queued with its content, or its workflow returned without error,
  // or its content is in the dead-letter queue, or stop_process deleted it, or
  // it was deleted by the failure handling of a malformed message whose own
  // content is in the dead-letter queue.
  lemma FateOfMessage(cfg: Config, s: State, id: nat)
    requires Reachable(cfg, s) && id in s.enqueued
    ensures id in s.queue <==> id !in s.removed
    ensures id in s.queue ==> s.queue[id].content == s.enqueued[id]
    ensures id in s.removed ==>
              match s.removed[id]
              case AfterSuccess => id in s.completed
              case AfterDeadLetter(of) => HasLetter(s, of) && (of == id || cfg.parse(s.enqueued[of]).None?)
              case ByStopProcess => true
  {
    ReachableInv(cfg, s);
    if id in s.removed { assert ReasonOk(cfg, s, id, s.removed[id]); }
  }

  // The past is never rewritten: every content, letter, completion and reason
  // recorded by a run is still there after any further event.
  lemma HistoryGrows(cfg: Config, s: State, e: Event)
    requires Reachable(cfg, s) && Enabled(cfg, s, e)
    ensures Later(s, Next(cfg, s, e))
  {
    ReachableInv(cfg, s);
    NextKeeps(cfg, s, e);
  }

  // The calls a worker has issued or may issue next against the main queue.
  predicate MayCall(cfg: Config, wk: Worker, id: nat, receipt: Receipt) {
    wk.phase != Polling
    && (|| (id, receipt) == NextTarget(cfg, wk)
        || (wk.renewal.Calling? && id == wk.renewal.id && receipt == wk.renewal.receipt)
        || (wk.phase.Failing? && wk.phase.state.call.Update?
            && id == wk.phase.state.call.id && receipt == wk.phase.state.call.receipt))
  }

  // A job that parses writes its own entries before anything else.
  function NextTarget(cfg: Config, wk: Worker): (nat, Receipt)
    requires wk.phase != Polling
  {
    var m := wk.phase.m;
    if wk.phase.Starting? && cfg.parse(m.content).Some? then (m.id, m.receipt) else Target(wk, m)
  }

  // No delete or update of one worker takes effect on a message that another
  // worker has received since; and the message it names is the one the worker
  // was handed, unless that is malformed.
  lemma OnlyOwnMessage(cfg: Config, s: State, v: nat, w: nat, id: nat, receipt: Receipt)
    requires Reachable(cfg, s) && Busy(s, v) && MayCall(cfg, s.workers[v], id, receipt)
    ensures cfg.parse(s.workers[v].phase.m.content).Some? ==> id == s.workers[v].phase.m.id
    ensures Busy(s, w) && v != w && id in s.queue && s.queue[id].receipt.lease == LeaseOf(s, w) ==>
              !Matches(s.queue, id, receipt)
  {
    ReachableInv(cfg, s);
    InvGivesWorker(cfg, s, v);
    CallIsOwn(cfg, s, s.workers[v], id, receipt);
    assert LeasesApart(s);
    hide Inv, WorkerOk, MayCall, Leases;
  }

  lemma CallIsOwn(cfg: Config, s: State, wk: Worker, id: nat, receipt: Receipt)
    requires WorkerOk(cfg, s, wk) && MayCall(cfg, wk, id, receipt)
    ensures receipt.lease in Leases(wk)
    ensures cfg.parse(wk.phase.m.content).Some? ==> Own(wk.phase.m, id, receipt)
  {
  }

  // Entries a worker handles a malformed message under are never its own, so
  // then and only then its next call names another message.
  lemma TargetExactly(cfg: Config, s: State, w: nat)
    requires Reachable(cfg, s) && Busy(s, w)
    ensures var wk := s.workers[w];
            NextTarget(cfg, wk).0 == wk.phase.m.id <==> cfg.parse(wk.phase.m.content).Some? || wk.tracked.None?
  {
    ReachableInv(cfg, s);
    assert WorkerOk(cfg, s, s.workers[w]);
  }

  // Dead letters that were not forced spent all their attempts, and failure
  // handling deletes output blobs only of messages already dead-lettered; any
  // other deletion is one by stop_process.
  lemma RetryDiscipline(cfg: Config, s: State)
    requires Reachable(cfg, s)
    ensures forall i :: 0 <= i < |s.dead| && !s.dead[i].forced ==>
              s.dead[i].attempt >= MaxAttempts(cfg) >= Max(1, cfg.maxReceiveAttempts)
    ensures forall i :: 0 <= i < |s.cleaned| && !s.cleaned[i].byStop ==> HasLetter(s, s.cleaned[i].id)
  {
    ReachableInv(cfg, s);
    forall i | 0 <= i < |s.dead| && !s.dead[i].forced ensures s.dead[i].attempt >= MaxAttempts(cfg) {
      assert LetterOk(cfg, s, s.dead[i]);
    }
    forall i | 0 <= i < |s.cleaned| && !s.cleaned[i].byStop ensures HasLetter(s, s.cleaned[i].id) {
      assert CleanupOk(s, s.cleaned[i]);
    }
  }

  // A failure at the last attempt is never retried at the short delay: the
  // message its call names is dead-lettered, or kept for at least a minute, or
  // left on the lease it already has; and that is the message handled, unless
  // it is malformed.
  lemma LastAttemptCall(cfg: Config, s: State, w: nat, fault: Fault)
    requires Reachable(cfg, s) && Enabled(cfg, s, JobCall(w, fault))
    requires s.workers[w].phase.m.dequeueCount >= MaxAttempts(cfg)
    ensures !s.workers[w].phase.plan.Retry?
    ensures var call, q, t := s.workers[w].phase.state.call, s.queue, Next(cfg, s, JobCall(w, fault));
            || t.queue == q
            || (call.Update? && call.id in t.queue && t.queue == q[call.id := t.queue[call.id]]
                && t.queue[call.id].visibleAt >= t.now + 60)
    ensures var m, call := s.workers[w].phase.m, s.workers[w].phase.state.call;
            call.Update? && cfg.parse(m.content).Some? ==> call.id == m.id
  {
    ReachableInv(cfg, s);
    assert WorkerOk(cfg, s, s.workers[w]);
  }

  // And when it goes on, after a call or after the blobs were deleted, the
  // queue stays as it is or loses the message the entries name, and then the
  // letter of the message handled is there; the two are the same exactly when
  // it is not malformed or there are no entries.
  lemma LastAttemptEnds(cfg: Config, s: State, w: nat, e: Event)
    requires Reachable(cfg, s) && (e.JobDone? || e.CleanupDone?) && e.w == w && Enabled(cfg, s, e)
    requires s.workers[w].phase.m.dequeueCount >= MaxAttempts(cfg)
    ensures var wk, t := s.workers[w], Next(cfg, s, e);
            t.queue == s.queue || (t.queue == s.queue - {NextTarget(cfg, wk).0} && HasLetter(t, wk.phase.m.id))
    ensures var wk := s.workers[w];
            NextTarget(cfg, wk).0 == wk.phase.m.id <==> cfg.parse(wk.phase.m.content).Some? || wk.tracked.None?
  {
    TargetExactly(cfg, s, w);
    ReachableInv(cfg, s);
    InvGivesWorker(cfg, s, w);
    NextKeeps(cfg, s, e);
    hide *;
    GoingOnQueue(cfg, s, w, e);
    var id, t := s.workers[w].phase.m.id, Next(cfg, s, e);
    if HasLetter(s, id) { LetterStays(s, t, id); }
  }

  lemma GoingOnQueue(cfg: Config, s: State, w: nat, e: Event)
    requires (e.JobDone? || e.CleanupDone?) && e.w == w && Enabled(cfg, s, e) && WorkerOk(cfg, s, s.workers[w])
    ensures w in s.workers && s.workers[w].phase != Polling
    ensures var wk, t := s.workers[w], Next(cfg, s, e);
            t.queue == s.queue || (t.queue == s.queue - {NextTarget(cfg, wk).0} && HasLetter(s, wk.phase.m.id))
  {
    LetterIsThere(cfg, s, s.workers[w]);
    FinalDeleteQueue(s, w, e.fault);
    FinishQueue(s, w);
    if e.JobDone? { StoreQueue(s, w); }
    hide FinalDelete, Finish, StoreAnswer, HasLetter, RetryDelay, MaxAttempts, WorkerOk;
  }

  lemma LetterIsThere(cfg: Config, s: State, wk: Worker)
    requires WorkerOk(cfg, s, wk)
    ensures wk.phase.Failing? && wk.phase.plan.DeadLetter? && wk.phase.state.Answered? && wk.phase.state.answer.Done?
            ==> HasLetter(s, wk.phase.m.id)
    ensures wk.phase.Cleaning? ==> HasLetter(s, wk.phase.m.id)
  {
  }

  lemma StoreQueue(s: State, w: nat)
    requires Busy(s, w) && s.workers[w].phase.Failing? && s.workers[w].phase.state.Answered?
    ensures Busy(StoreAnswer(s, w), w) && Finish(StoreAnswer(s, w), w).queue == s.queue
  {
  }

  lemma FinishQueue(s: State, w: nat)
    requires Busy(s, w)
    ensures Finish(s, w).queue == s.queue
  {
  }

  lemma FinalDeleteQueue(s: State, w: nat, fault: Fault)
    requires Busy(s, w)
    ensures var m := s.workers[w].phase.m; var t := FinalDelete(s, w, m, fault);
            t.queue == s.queue || t.queue == s.queue - {Target(s.workers[w], m).0}
  {
    var m := s.workers[w].phase.m;
    var target := Target(s.workers[w], m);
    FinishQueue(Delete(s, target.0, target.1, fault, AfterDeadLetter(m.id)), w);
    hide Finish;
  }
}
