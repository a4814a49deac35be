// Which job the cancellation at the end of stop_process hits. It is awaited
// behind a deletion of blobs, so anything may happen in between.
module QueueStop {
  import opened Wrappers
  import opened QueueProtocol
  import opened QueueSafety
  import opened QueueReceipts
  import opened QueueStale

  const Anything := Allowed(true, true)

  // A worker receives a message somewhere in these events.
  predicate Receives(events: seq<Event>, w: nat) {
    exists i :: 0 <= i < |events| && events[i].Receive? && events[i].w == w && !events[i].lost
  }

  // An event leaves a busy worker on its job, unless it is a receive.
  lemma JobStays(cfg: Config, s: State, e: Event, w: nat)
    requires Inv(cfg, s) && Enabled(cfg, s, e) && w in s.workers && !(e.Receive? && e.w == w && !e.lost)
    ensures Busy(Next(cfg, s, e), w) ==> Busy(s, w) && Next(cfg, s, e).workers[w].phase.m == s.workers[w].phase.m
  {
    hide Inv, WorkerOk, CarefulWorker, Within, Next;
    if Actor(e) == Some(w) {
      ActorIsThere(cfg, s, e);
      InvGivesWorker(cfg, s, w);
      AnythingGoes(cfg, s, e);
      ActorMoves(cfg, Anything, s, e);
      if s.workers[w].phase == Polling { StaysPolling(cfg, s, e, w); }
    } else if Actor(e).Some? {
      ActorIsThere(cfg, s, e);
      InvGivesWorker(cfg, s, e.w);
      AnythingGoes(cfg, s, e);
      ActorMoves(cfg, Anything, s, e);
    } else {
      OthersStay(cfg, s, e);
    }
  }

  lemma AnythingGoes(cfg: Config, s: State, e: Event)
    ensures Within(cfg, Anything)(s, e)
    ensures forall wk :: CarefulWorker(cfg, Anything, wk)
  {
  }

  lemma StaysPolling(cfg: Config, s: State, e: Event, w: nat)
    requires Enabled(cfg, s, e) && w in s.workers && Actor(e) == Some(w) && !e.Receive?
    requires s.workers[w].phase == Polling && WorkerOk(cfg, s, s.workers[w])
    ensures w in Next(cfg, s, e).workers && Next(cfg, s, e).workers[w].phase == Polling
  {
  }

  // After a run the worker is on the same job, or on one under a later lease.
  lemma {:induction false} JobAfter(cfg: Config, s: State, events: seq<Event>, w: nat)
    requires Inv(cfg, s) && Busy(s, w) && After(cfg, s, events).Some?
    ensures var t := After(cfg, s, events).value;
            && Inv(cfg, t) && s.nextLease <= t.nextLease
            && (Busy(t, w) && Receives(events, w) ==> LeaseOf(t, w) >= s.nextLease)
            && (Busy(t, w) && !Receives(events, w) ==> t.workers[w].phase.m == s.workers[w].phase.m)
    decreases |events|
  {
    if events != [] {
      var n := |events| - 1;
      JobAfter(cfg, s, events[..n], w);
      JobNext(cfg, s, events, w);
    }
  }

  lemma ReceivesMore(events: seq<Event>, w: nat)
    requires events != []
    ensures var n := |events| - 1;
            Receives(events, w) <==>
              Receives(events[..n], w) || (events[n].Receive? && events[n].w == w && !events[n].lost)
  {
    var n := |events| - 1;
    if Receives(events[..n], w) {
      var i :| 0 <= i < n && events[..n][i].Receive? && events[..n][i].w == w && !events[..n][i].lost;
      assert events[i] == events[..n][i];
    }
    if Receives(events, w) {
      var i :| 0 <= i < |events| && events[i].Receive? && events[i].w == w && !events[i].lost;
      if i < n { assert events[..n][i] == events[i]; }
    }
  }

  lemma JobNext(cfg: Config, s: State, events: seq<Event>, w: nat)
    requires events != [] && After(cfg, s, events).Some? && Busy(s, w)
    requires var t := After(cfg, s, events[..|events| - 1]).value;
             && Inv(cfg, t) && s.nextLease <= t.nextLease
             && (Busy(t, w) && Receives(events[..|events| - 1], w) ==> LeaseOf(t, w) >= s.nextLease)
             && (Busy(t, w) && !Receives(events[..|events| - 1], w) ==> t.workers[w].phase.m == s.workers[w].phase.m)
    ensures var t := After(cfg, s, events).value;
            && Inv(cfg, t) && s.nextLease <= t.nextLease
            && (Busy(t, w) && Receives(events, w) ==> LeaseOf(t, w) >= s.nextLease)
            && (Busy(t, w) && !Receives(events, w) ==> t.workers[w].phase.m == s.workers[w].phase.m)
  {
    var n := |events| - 1;
    var t, e := After(cfg, s, events[..n]).value, events[n];
    NextKeeps(cfg, t, e);
    ReceivesMore(events, w);
    SameWorkers(cfg, t, e, w);
    if e.Receive? && e.w == w && !e.lost {
      assert LeaseOf(Next(cfg, t, e), w) == t.nextLease;
    } else if Busy(Next(cfg, t, e), w) {
      JobStays(cfg, t, e, w);
    }
    hide Inv, Next, Receives, Enabled;
  }

  lemma SameWorkers(cfg: Config, s: State, e: Event, w: nat)
    requires Inv(cfg, s) && Enabled(cfg, s, e)
    ensures Busy(Next(cfg, s, e), w) ==> w in s.workers
  {
    hide Inv, WorkerOk, CarefulWorker, Within, Next;
    if Actor(e).Some? {
      ActorIsThere(cfg, s, e);
      InvGivesWorker(cfg, s, e.w);
      AnythingGoes(cfg, s, e);
      ActorMoves(cfg, Anything, s, e);
    } else {
      OthersStay(cfg, s, e);
    }
  }

  // stop_process finds the worker by a process id and cancels its job later.
  // If the worker is past the first stretch of a job that parses, the job it is
  // on has that id; and the job cancelled is that one if and only if the worker
  // has received nothing in between.
  lemma StopsNamedJobExactly(cfg: Config, s: State, fault: Fault, events: seq<Event>, w: nat, id: string)
    requires Reachable(cfg, s) && Busy(s, w) && s.workers[w].process == Some(id)
    requires After(cfg, DoStopProcess(s, w, fault), events).Some?
    requires Busy(After(cfg, DoStopProcess(s, w, fault), events).value, w)
    ensures var wk := s.workers[w];
            !wk.phase.Starting? && cfg.parse(wk.phase.m.content).Some? ==> cfg.parse(wk.phase.m.content) == Some(id)
    ensures var t := After(cfg, DoStopProcess(s, w, fault), events).value;
            t.workers[w].phase.m == s.workers[w].phase.m <==> !Receives(events, w)
  {
    assert w in s.workers;
    hide *;
    ReachableInv(cfg, s);
    InvGivesWorker(cfg, s, w);
    StopProcessKeeps(cfg, s, w, fault);
    var s1 := DoStopProcess(s, w, fault);
    StopLeavesWorkers(s, w, fault);
    JobIsNamed(cfg, s, w);
    BusyIs(s, s1, w);
    JobAfter(cfg, s1, events, w);
    LeaseDecides(s1, After(cfg, s1, events).value, w);
  }

  lemma StopLeavesWorkers(s: State, w: nat, fault: Fault)
    requires w in s.workers
    ensures DoStopProcess(s, w, fault).workers == s.workers && DoStopProcess(s, w, fault).nextLease == s.nextLease
  {
  }

  lemma JobIsNamed(cfg: Config, s: State, w: nat)
    requires Busy(s, w) && WorkerOk(cfg, s, s.workers[w])
    ensures var wk := s.workers[w];
            wk.process.Some? && !wk.phase.Starting? && cfg.parse(wk.phase.m.content).Some? ==>
              wk.process == cfg.parse(wk.phase.m.content)
    ensures LeaseOf(s, w) < s.nextLease
  {
  }

  lemma BusyIs(s: State, t: State, w: nat)
    requires t.workers == s.workers && t.nextLease == s.nextLease && Busy(s, w)
    ensures Busy(t, w) && s.workers[w].phase != Polling && LeaseOf(t, w) == LeaseOf(s, w)
  {
  }

  lemma LeaseDecides(s: State, t: State, w: nat)
    requires Busy(s, w) && Busy(t, w) && LeaseOf(s, w) < s.nextLease
    ensures LeaseOf(t, w) >= s.nextLease ==> t.workers[w].phase.m != s.workers[w].phase.m
    ensures t.workers[w].phase != Polling
  {
  }

  // ---- what it deletes ---------------------------------------------------------------

  // stop_process deletes the message the worker's entry names, exactly when the
  // queue holds it under the receipt of the entry and the request gets through.
  lemma StopDeletesExactly(s: State, w: nat, fault: Fault)
    requires w in s.workers
    ensures var t := DoStopProcess(s, w, fault);
            var entry := s.workers[w].tracked;
            if entry.Some? && fault != FailsBefore && entry.value.0 in s.queue
               && s.queue[entry.value.0].receipt == entry.value.1
            then t.queue == s.queue - {entry.value.0} && t.removed == s.removed[entry.value.0 := ByStopProcess]
            else t.queue == s.queue && t.removed == s.removed
    ensures var t := DoStopProcess(s, w, fault);
            && t.dead == s.dead && t.workers == s.workers && t.enqueued == s.enqueued && t.completed == s.completed
            && (s.workers[w].tracked.Some? && s.workers[w].batch.Some? ==>
                  t.cleaned == s.cleaned + [Cleanup(s.workers[w].tracked.value.0, true)])
  {
  }

  // So the message of a job that parses is gone from the queue, when its lease
  // is current and its bookkeeping was not cut short, and no answer with a newer
  // receipt is on its way.
  lemma StopRemovesJob(cfg: Config, s: State, w: nat, fault: Fault)
    requires Reachable(cfg, s) && Enabled(cfg, s, StopProcess(w, fault)) && fault != FailsBefore
    requires Holds(s, w) && LeaseOf(s, w) !in s.tainted
    requires cfg.parse(s.workers[w].phase.m.content).Some? && !s.workers[w].phase.Starting?
    requires !(s.workers[w].renewal.Calling? && s.workers[w].renewal.answer.Some?)
    requires !(s.workers[w].phase.Failing? && s.workers[w].phase.state.Answered?)
    ensures var id, t := s.workers[w].phase.m.id, Next(cfg, s, StopProcess(w, fault));
            t.queue == s.queue - {id} && t.removed == s.removed[id := ByStopProcess]
  {
    StopDeletesExactly(s, w, fault);
    TrackedIsCurrent(cfg, s, w);
    ReachableInv(cfg, s);
    InvGivesWorker(cfg, s, w);
    JobEntry(cfg, s, w);
    hide Reachable, Inv, WorkerOk, DoStopProcess, Wanders;
  }

  lemma JobEntry(cfg: Config, s: State, w: nat)
    requires Busy(s, w) && WorkerOk(cfg, s, s.workers[w]) && s.workers[w].process.Some?
    requires cfg.parse(s.workers[w].phase.m.content).Some? && !s.workers[w].phase.Starting?
    ensures !Wanders(s.workers[w]) && s.workers[w].tracked.Some?
    ensures s.workers[w].tracked.value.0 == s.workers[w].phase.m.id
  {
  }
}
