// One attempt of one worker at one message, from the receive to the finally
// block, when nobody else acts meanwhile. It is a run of the queue protocol,
// so whatever holds of all runs holds of it.
module ClaimAttempt {
  import opened Wrappers
  import opened QueueProtocol
  import opened QueueSafety

  // How the storage service treats the calls of one attempt.
  datatype Faults = Faults(send: Fault, update: Fault, delete: Fault)

  // The whole finally block, when nothing cancels it.
  function Leave(s: State, w: nat): State
    requires w in s.workers
  {
    Put(StopRenewal(s, w), w, Idle)
  }

  // What failure handling does.
  function AfterFailure(cfg: Config, s: State, w: nat, m: Received, forced: bool, cleanup: Option<string>,
                        faults: Faults): (t: State)
    requires w in s.workers
    ensures w in t.workers
  {
    var wk := s.workers[w];
    var target := Target(wk, m);
    if !forced && m.dequeueCount < MaxAttempts(cfg) then
      var call := Update(target.0, target.1, RetryDelay(cfg));
      var answer := CallAnswer(s, call, faults.update);
      var s' := PerformCall(s, call, faults.update);
      if answer.Done? then Put(s', w, wk.(tracked := Some((target.0, answer.receipt)))) else s'
    else
      var s' := PerformCall(s, Send(LetterFor(m, forced)), faults.send);
      if !faults.send.NoFault? then
        PerformCall(s', Update(target.0, target.1, Max(60, RetryDelay(cfg))), faults.update)
      else
        var cleaned := if cleanup.Some? then s'.cleaned + [Cleanup(m.id, false)] else s'.cleaned;
        Delete(s'.(cleaned := cleaned), target.0, target.1, faults.delete, AfterDeadLetter(m.id))
  }

  // Whether failure handling gets as far as deleting blobs and message.
  predicate DeadLettered(cfg: Config, m: Received, forced: bool, faults: Faults) {
    (forced || m.dequeueCount >= MaxAttempts(cfg)) && faults.send.NoFault?
  }

  // A renewal call, and storing the receipt it returns.
  function AfterRenewal(cfg: Config, s: State, w: nat, fault: Fault): (t: State)
    requires w in s.workers
    ensures w in t.workers && t.workers[w].phase == s.workers[w].phase
  {
    match s.workers[w].tracked
    case None => s
    case Some((id, receipt)) =>
      var call := Update(id, receipt, RenewSeconds(cfg));
      var t := PerformCall(s, call, fault);
      match CallAnswer(s, call, fault)
      case Done(next) => Put(t, w, s.workers[w].(tracked := Some((id, next))))
      case NotFound => t
      case Failed => t
  }

  predicate FindsNothing(cfg: Config, s: State, w: nat, fault: Fault)
    requires w in s.workers
  {
    s.workers[w].tracked.Some?
    && CallAnswer(s, Update(s.workers[w].tracked.value.0, s.workers[w].tracked.value.1, RenewSeconds(cfg)),
                  fault).NotFound?
  }

  // One round of the renewal loop.
  function AfterSleep(cfg: Config, s: State, w: nat, fault: Fault): (t: State)
    requires w in s.workers
    ensures w in t.workers && t.workers[w].phase == s.workers[w].phase
  {
    var s1 := s.(now := s.now + SleepSeconds(cfg));
    var t := AfterRenewal(cfg, s1, w, fault);
    Put(t, w, t.workers[w].(renewal := if FindsNothing(cfg, s1, w, fault) then NotRenewing else NextSleep(cfg, t)))
  }

  // The renewal loop, until it ends or has made one round for each fault.
  function AfterSleeps(cfg: Config, s: State, w: nat, faults: seq<Fault>): (t: State)
    requires w in s.workers
    ensures w in t.workers && t.workers[w].phase == s.workers[w].phase
    decreases |faults|
  {
    if faults == [] || s.workers[w].renewal.NotRenewing? then s
    else AfterSleeps(cfg, AfterSleep(cfg, s, w, faults[0]), w, faults[1..])
  }

  function AfterBegin(cfg: Config, s: State, w: nat, m: Received, claim: string): (t: State)
    ensures w in t.workers && t.workers[w].phase == Running(m, claim)
  {
    Put(s, w, Worker(Running(m, claim), Some((m.id, m.receipt)), Some(claim), Some(claim), NextSleep(cfg, s), true))
  }

  function AfterOutcome(cfg: Config, s: State, w: nat, m: Received, claim: string, outcome: Outcome, faults: Faults)
      : (t: State)
    requires w in s.workers
    ensures w in t.workers
  {
    match outcome
    case Succeeded =>
      var target := Target(s.workers[w], m);
      Delete(s, target.0, target.1, faults.delete, AfterSuccess)
    case ExecutorFailed => AfterFailure(cfg, s, w, m, true, Some(claim), faults)
    case OtherError => AfterFailure(cfg, s, w, m, false, Some(claim), faults)
  }

  // The whole attempt.
  function AfterAttempt(cfg: Config, s: State, w: nat, crash: bool, renewals: seq<Fault>, outcome: Outcome,
                        faults: Faults): State
    requires w in s.workers && s.workers[w].phase.Starting?
  {
    var m := s.workers[w].phase.m;
    match cfg.parse(m.content)
    case None => Leave(AfterFailure(cfg, s, w, m, true, None, faults), w)
    case Some(claim) =>
      var s1 := AfterBegin(cfg, s, w, m, claim);
      if crash then
        Leave(AfterFailure(cfg, s1.(tainted := s1.tainted + {m.receipt.lease}), w, m, false, None, faults), w)
      else
        var s2 := Settling(DoWorkflowDone(AfterSleeps(cfg, s1, w, renewals), w, outcome), w);
        Leave(AfterOutcome(cfg, s2, w, m, claim, outcome, faults), w)
  }

  // ---- runs ----------------------------------------------------------------

  ghost predicate Leads(cfg: Config, s: State, t: State) {
    exists script :: After(cfg, s, script) == Some(t)
  }

  lemma {:induction false} AfterConcat(cfg: Config, s: State, a: seq<Event>, b: seq<Event>)
    requires After(cfg, s, a).Some?
    ensures After(cfg, s, a + b) == After(cfg, After(cfg, s, a).value, b)
    decreases |b|
  {
    if b == [] {
      assert a + b == a;
    } else {
      AfterConcat(cfg, s, a, b[..|b| - 1]);
      assert (a + b)[..|a + b| - 1] == a + b[..|b| - 1];
    }
  }

  lemma LeadsOn(cfg: Config, s: State, t: State, u: State)
    requires Leads(cfg, s, t) && Leads(cfg, t, u)
    ensures Leads(cfg, s, u)
  {
    var a :| After(cfg, s, a) == Some(t);
    var b :| After(cfg, t, b) == Some(u);
    AfterConcat(cfg, s, a, b);
  }

  lemma LeadsSelf(cfg: Config, s: State)
    ensures Leads(cfg, s, s)
  {
    assert After(cfg, s, []) == Some(s);
  }

  lemma LeadsByOne(cfg: Config, s: State, e: Event)
    requires Enabled(cfg, s, e)
    ensures Leads(cfg, s, Next(cfg, s, e))
  {
    var script := [e];
    assert script[..|script| - 1] == [];
    assert After(cfg, s, []) == Some(s);
    assert After(cfg, s, script) == Some(Next(cfg, s, e));
  }

  lemma LeadsOneMore(cfg: Config, s: State, t: State, e: Event)
    requires Leads(cfg, s, t) && Enabled(cfg, t, e)
    ensures Leads(cfg, s, Next(cfg, t, e))
  {
    LeadsByOne(cfg, t, e);
    LeadsOn(cfg, s, t, Next(cfg, t, e));
  }

  lemma ReachableOn(cfg: Config, s: State, t: State)
    requires Reachable(cfg, s) && Leads(cfg, s, t)
    ensures Reachable(cfg, t)
  {
    var s0, a :| Initial(s0) && After(cfg, s0, a) == Some(s);
    var b :| After(cfg, s, b) == Some(t);
    AfterConcat(cfg, s0, a, b);
  }

  predicate At(s: State, w: nat, m: Received) {
    w in s.workers && s.workers[w].phase != Polling && s.workers[w].phase.m == m
  }

  // What the finally block leaves does not depend on how far the worker got.
  lemma LeaveSame(s: State, t: State, w: nat, m: Received)
    requires At(s, w, m) && At(t, w, m) && s.workers[w].renewal == t.workers[w].renewal
    requires t == s.(workers := s.workers[w := t.workers[w]])
    ensures Leave(s, w) == Leave(t, w)
  {
    LeaveIs(s, w);
    LeaveIs(t, w);
    assert s.workers[w := t.workers[w]][w := Idle] == s.workers[w := Idle];
  }

  lemma LeaveIs(s: State, w: nat)
    requires w in s.workers
    ensures Leave(s, w) == s.(orphans := s.orphans + RenewalOrphans(s.workers[w].renewal),
                               tainted := s.tainted + RenewalTaint(s.workers[w]),
                               workers := s.workers[w := Idle])
  {
    assert StopRenewal(s, w).workers[w := Idle] == s.workers[w := Idle];
  }

  // When the finally block is begun it can be completed.
  lemma LeavesOn(cfg: Config, s: State, t: State, w: nat)
    requires Busy(t, w) && Leads(cfg, s, Finish(t, w))
    ensures Leads(cfg, s, Leave(t, w))
  {
    if t.workers[w].task {
      var f := Finish(t, w);
      assert f.workers == t.workers[w := f.workers[w]];
      assert Next(cfg, f, Clear(w)) == Leave(t, w);
      LeadsOneMore(cfg, s, f, Clear(w));
    }
  }

  // Failure handling waiting for a call, or resuming after it.
  function Handling(s: State, w: nat, m: Received, plan: Plan, state: CallState): (t: State)
    requires At(s, w, m)
    ensures At(t, w, m)
  {
    Put(s, w, s.workers[w].(phase := Failing(m, plan, state)))
  }

  lemma LeaveHandling(s: State, w: nat, m: Received, plan: Plan, state: CallState)
    requires At(s, w, m)
    ensures Leave(Handling(s, w, m, plan, state), w) == Leave(s, w)
  {
    LeaveSame(s, Handling(s, w, m, plan, state), w, m);
  }

  lemma CallIsStep(cfg: Config, s: State, w: nat, m: Received, plan: Plan, call: Call, fault: Fault)
    requires At(s, w, m)
    ensures At(PerformCall(s, call, fault), w, m)
    ensures Leads(cfg, Handling(s, w, m, plan, Issued(call)),
                  Handling(PerformCall(s, call, fault), w, m, plan, Answered(call, CallAnswer(s, call, fault))))
  {
    var s0 := Handling(s, w, m, plan, Issued(call));
    LeadsByOne(cfg, s0, JobCall(w, fault));
    hide Leads, CallQueue, CallDead, CallTaint, CallAnswer;
    var answered := s0.workers[w].(phase := Failing(m, plan, Answered(call, CallAnswer(s, call, fault))));
    assert PerformCall(s0, call, fault).workers[w := answered] == s.workers[w := answered];
    CallSame(s, s0, call, fault);
  }

  lemma CallSame(s: State, t: State, call: Call, fault: Fault)
    requires t == s.(workers := t.workers)
    ensures PerformCall(t, call, fault) == PerformCall(s, call, fault).(workers := t.workers)
    ensures CallAnswer(t, call, fault) == CallAnswer(s, call, fault)
  {
  }

  lemma UpdateEnds(cfg: Config, s: State, w: nat, m: Received, plan: Plan, call: Call, answer: Answer)
    requires At(s, w, m) && !plan.DeadLetter?
    ensures Leads(cfg, Handling(s, w, m, plan, Answered(call, answer)), Leave(s, w))
  {
    var s0 := Handling(s, w, m, plan, Answered(call, answer));
    var s1 := if plan.Retry? then StoreAnswer(s0, w) else s0;
    LeadsByOne(cfg, s0, JobDone(w, NoFault));
    assert Next(cfg, s0, JobDone(w, NoFault)) == Finish(s1, w);
    assert s1.workers == s.workers[w := s1.workers[w]];
    LeaveSame(s, s1, w, m);
    hide Leave, Finish, Next, StoreAnswer, Enabled, Leads;
    LeavesOn(cfg, s0, s1, w);
  }

  lemma UnsentExtends(cfg: Config, s: State, w: nat, m: Received, forced: bool, cleanup: Option<string>, call: Call)
    requires At(s, w, m)
    ensures var target := Target(s.workers[w], m);
            Leads(cfg, Handling(s, w, m, DeadLetter(forced, cleanup), Answered(call, Failed)),
                  Handling(s, w, m, Extend, Issued(Update(target.0, target.1, Max(60, RetryDelay(cfg))))))
  {
    var target := Target(s.workers[w], m);
    var s0 := Handling(s, w, m, DeadLetter(forced, cleanup), Answered(call, Failed));
    LeadsByOne(cfg, s0, JobDone(w, NoFault));
    assert Next(cfg, s0, JobDone(w, NoFault)).workers
        == Handling(s, w, m, Extend, Issued(Update(target.0, target.1, Max(60, RetryDelay(cfg))))).workers;
  }

  lemma SentDeletes(cfg: Config, s: State, w: nat, m: Received, forced: bool, call: Call, receipt: Receipt,
                    fault: Fault)
    requires At(s, w, m)
    ensures var target := Target(s.workers[w], m);
            Leads(cfg, Handling(s, w, m, DeadLetter(forced, None), Answered(call, Done(receipt))),
                  Leave(Delete(s, target.0, target.1, fault, AfterDeadLetter(m.id)), w))
  {
    var target := Target(s.workers[w], m);
    var s0 := Handling(s, w, m, DeadLetter(forced, None), Answered(call, Done(receipt)));
    LeadsByOne(cfg, s0, JobDone(w, fault));
    assert Next(cfg, s0, JobDone(w, fault)) == FinalDelete(s0, w, m, fault);
    hide Leads, Next, Enabled, Leave;
    FinalDeleteLeads(cfg, s0, s, s0, w, m, fault);
  }

  lemma FinalDeleteLeads(cfg: Config, s0: State, s: State, t: State, w: nat, m: Received, fault: Fault)
    requires At(s, w, m) && At(t, w, m) && t == s.(workers := s.workers[w := t.workers[w]])
    requires t.workers[w].renewal == s.workers[w].renewal && t.workers[w].tracked == s.workers[w].tracked
    requires Leads(cfg, s0, FinalDelete(t, w, m, fault))
    ensures var target := Target(s.workers[w], m);
            Leads(cfg, s0, Leave(Delete(s, target.0, target.1, fault, AfterDeadLetter(m.id)), w))
  {
    var target := Target(s.workers[w], m);
    var one := Delete(s, target.0, target.1, fault, AfterDeadLetter(m.id));
    var two := Delete(t, target.0, target.1, fault, AfterDeadLetter(m.id));
    assert FinalDelete(t, w, m, fault) == Finish(two, w) && Busy(two, w);
    assert At(one, w, m) && At(two, w, m) && two == one.(workers := one.workers[w := two.workers[w]]);
    hide Leads, Finish, Leave, Delete, FinalDelete;
    LeavesOn(cfg, s0, two, w);
    LeaveSame(one, two, w, m);
  }

  lemma SentCleans(cfg: Config, s: State, w: nat, m: Received, forced: bool, claim: string, call: Call,
                   receipt: Receipt, fault: Fault)
    requires At(s, w, m)
    ensures var target := Target(s.workers[w], m);
            var c := s.(cleaned := s.cleaned + [Cleanup(m.id, false)]);
            Leads(cfg, Handling(s, w, m, DeadLetter(forced, Some(claim)), Answered(call, Done(receipt))),
                  Leave(Delete(c, target.0, target.1, fault, AfterDeadLetter(m.id)), w))
  {
    var c := s.(cleaned := s.cleaned + [Cleanup(m.id, false)]);
    var s0 := Handling(s, w, m, DeadLetter(forced, Some(claim)), Answered(call, Done(receipt)));
    var s1 := Put(c, w, s.workers[w].(phase := Cleaning(m, LetterFor(m, forced), claim)));
    LeadsByOne(cfg, s0, JobDone(w, fault));
    StartsCleaning(cfg, s, w, m, forced, claim, call, receipt, fault);
    LeadsOneMore(cfg, s0, s1, CleanupDone(w, fault));
    assert Next(cfg, s1, CleanupDone(w, fault)) == FinalDelete(s1, w, m, fault);
    hide Leads, Next, Enabled, Handling;
    FinalDeleteLeads(cfg, s0, c, s1, w, m, fault);
  }

  lemma StartsCleaning(cfg: Config, s: State, w: nat, m: Received, forced: bool, claim: string, call: Call,
                       receipt: Receipt, fault: Fault)
    requires At(s, w, m)
    ensures var s0 := Handling(s, w, m, DeadLetter(forced, Some(claim)), Answered(call, Done(receipt)));
            var c := s.(cleaned := s.cleaned + [Cleanup(m.id, false)]);
            Enabled(cfg, s0, JobDone(w, fault))
            && Next(cfg, s0, JobDone(w, fault))
               == Put(c, w, s.workers[w].(phase := Cleaning(m, LetterFor(m, forced), claim)))
  {
    var s0 := Handling(s, w, m, DeadLetter(forced, Some(claim)), Answered(call, Done(receipt)));
    assert DoJobDone(cfg, s0, w, fault).workers
           == s.workers[w := s.workers[w].(phase := Cleaning(m, LetterFor(m, forced), claim))];
  }

  // Failure handling, from its first stretch to the finally block.
  lemma FailureIsRun(cfg: Config, s: State, w: nat, m: Received, forced: bool, cleanup: Option<string>, faults: Faults)
    requires At(s, w, m)
    ensures Leads(cfg, BeginFailure(cfg, s, w, m, forced, cleanup),
                  Leave(AfterFailure(cfg, s, w, m, forced, cleanup, faults), w))
  {
    if !forced && m.dequeueCount < MaxAttempts(cfg) {
      RetryIsRun(cfg, s, w, m, cleanup, faults);
    } else if !faults.send.NoFault? {
      UnsentIsRun(cfg, s, w, m, forced, cleanup, faults);
    } else {
      SentIsRun(cfg, s, w, m, forced, cleanup, faults);
    }
  }

  lemma RetryIsRun(cfg: Config, s: State, w: nat, m: Received, cleanup: Option<string>, faults: Faults)
    requires At(s, w, m) && m.dequeueCount < MaxAttempts(cfg)
    ensures Leads(cfg, BeginFailure(cfg, s, w, m, false, cleanup),
                  Leave(AfterFailure(cfg, s, w, m, false, cleanup, faults), w))
  {
    var target := Target(s.workers[w], m);
    var call := Update(target.0, target.1, RetryDelay(cfg));
    var s1 := PerformCall(s, call, faults.update);
    CallIsStep(cfg, s, w, m, Retry, call, faults.update);
    UpdateEnds(cfg, s1, w, m, Retry, call, CallAnswer(s, call, faults.update));
    LeaveSame(s1, AfterFailure(cfg, s, w, m, false, cleanup, faults), w, m);
    hide Leads, Leave, PerformCall, CallAnswer, AfterFailure;
    LeadsOn(cfg, BeginFailure(cfg, s, w, m, false, cleanup),
            Handling(s1, w, m, Retry, Answered(call, CallAnswer(s, call, faults.update))), Leave(s1, w));
  }

  lemma UnsentIsRun(cfg: Config, s: State, w: nat, m: Received, forced: bool, cleanup: Option<string>, faults: Faults)
    requires At(s, w, m) && (forced || m.dequeueCount >= MaxAttempts(cfg)) && !faults.send.NoFault?
    ensures Leads(cfg, BeginFailure(cfg, s, w, m, forced, cleanup),
                  Leave(AfterFailure(cfg, s, w, m, forced, cleanup, faults), w))
  {
    var s0 := BeginFailure(cfg, s, w, m, forced, cleanup);
    var plan, target := DeadLetter(forced, cleanup), Target(s.workers[w], m);
    var send, update := Send(LetterFor(m, forced)), Update(target.0, target.1, Max(60, RetryDelay(cfg)));
    var s1 := PerformCall(s, send, faults.send);
    var s2 := PerformCall(s1, update, faults.update);
    CallIsStep(cfg, s, w, m, plan, send, faults.send);
    assert CallAnswer(s, send, faults.send) == Failed;
    UnsentExtends(cfg, s1, w, m, forced, cleanup, send);
    CallIsStep(cfg, s1, w, m, Extend, update, faults.update);
    UpdateEnds(cfg, s2, w, m, Extend, update, CallAnswer(s1, update, faults.update));
    assert s2 == AfterFailure(cfg, s, w, m, forced, cleanup, faults);
    assert s1.workers == s.workers;
    hide Leads, Leave, PerformCall, CallAnswer, AfterFailure;
    LeadsOn(cfg, s0, Handling(s1, w, m, plan, Answered(send, Failed)), Handling(s1, w, m, Extend, Issued(update)));
    LeadsOn(cfg, s0, Handling(s1, w, m, Extend, Issued(update)),
            Handling(s2, w, m, Extend, Answered(update, CallAnswer(s1, update, faults.update))));
    LeadsOn(cfg, s0, Handling(s2, w, m, Extend, Answered(update, CallAnswer(s1, update, faults.update))),
            Leave(s2, w));
  }

  lemma SentIsRun(cfg: Config, s: State, w: nat, m: Received, forced: bool, cleanup: Option<string>, faults: Faults)
    requires At(s, w, m) && (forced || m.dequeueCount >= MaxAttempts(cfg)) && faults.send.NoFault?
    ensures Leads(cfg, BeginFailure(cfg, s, w, m, forced, cleanup),
                  Leave(AfterFailure(cfg, s, w, m, forced, cleanup, faults), w))
  {
    var s0 := BeginFailure(cfg, s, w, m, forced, cleanup);
    var send := Send(LetterFor(m, forced));
    var s1 := PerformCall(s, send, NoFault);
    CallIsStep(cfg, s, w, m, DeadLetter(forced, cleanup), send, NoFault);
    assert CallAnswer(s, send, NoFault) == Done(Receipt(0, 0));
    if cleanup.Some? {
      SentCleans(cfg, s1, w, m, forced, cleanup.value, send, Receipt(0, 0), faults.delete);
    } else {
      SentDeletes(cfg, s1, w, m, forced, send, Receipt(0, 0), faults.delete);
    }
    assert s1.workers == s.workers;
    hide Leads, Leave, PerformCall, CallAnswer, Delete;
    LeadsOn(cfg, s0, Handling(s1, w, m, DeadLetter(forced, cleanup), Answered(send, Done(Receipt(0, 0)))),
            Leave(AfterFailure(cfg, s, w, m, forced, cleanup, faults), w));
  }

  // ---- the renewal loop ----------------------------------------------------

  lemma SleepIsRun(cfg: Config, s: State, w: nat, fault: Fault)
    requires w in s.workers && s.workers[w].renewal == Sleeping(s.now + SleepSeconds(cfg))
    ensures Leads(cfg, s, AfterSleep(cfg, s, w, fault))
  {
    var s1 := Next(cfg, s, Tick(s.now + SleepSeconds(cfg)));
    var s2 := Next(cfg, s1, Wake(w));
    LeadsByOne(cfg, s, Tick(s.now + SleepSeconds(cfg)));
    LeadsOneMore(cfg, s, s1, Wake(w));
    if s1.workers[w].tracked.Some? {
      CalledIsRun(cfg, s1, w, fault);
      LeadsOn(cfg, s, s2, AfterSleep(cfg, s, w, fault));
    }
  }

  // The renewal's call and its answer.
  lemma CalledIsRun(cfg: Config, s: State, w: nat, fault: Fault)
    requires Enabled(cfg, s, Wake(w)) && s.workers[w].tracked.Some? && SleepSeconds(cfg) <= s.now
    ensures Leads(cfg, Next(cfg, s, Wake(w)), AfterSleep(cfg, s.(now := s.now - SleepSeconds(cfg)), w, fault))
  {
    var s2 := DoWake(cfg, s, w);
    var s3 := DoRenewCall(s2, w, fault);
    LeadsByOne(cfg, s2, RenewCall(w, fault));
    LeadsOneMore(cfg, s2, s3, RenewDone(w));
    RoundIs(cfg, s, w, fault);
    hide Leads, DoWake, DoRenewCall, DoRenewDone, AfterSleep;
  }

  lemma RoundIs(cfg: Config, s: State, w: nat, fault: Fault)
    requires Enabled(cfg, s, Wake(w)) && s.workers[w].tracked.Some? && SleepSeconds(cfg) <= s.now
    ensures DoRenewDone(cfg, DoRenewCall(DoWake(cfg, s, w), w, fault), w)
         == AfterSleep(cfg, s.(now := s.now - SleepSeconds(cfg)), w, fault)
  {
    var (id, receipt) := s.workers[w].tracked.value;
    var call := Update(id, receipt, RenewSeconds(cfg));
    var s2 := DoWake(cfg, s, w);
    CallSame(s, s2, call, fault);
    CallShape(s, call, fault);
    assert s.(now := s.now - SleepSeconds(cfg)).(now := s.now) == s;
    hide PerformCall, CallAnswer, NextSleep, SleepSeconds, RenewSeconds, Max, Enabled;
    var answered := s2.workers[w].renewal.(answer := Some(CallAnswer(s, call, fault)), answeredAt := s.now);
    AnswerIs(cfg, PerformCall(s, call, fault), w, s.workers[w], answered);
    assert DoRenewCall(s2, w, fault).workers == s.workers[w := s.workers[w].(renewal := answered)];
    AfterSleepIs(cfg, s, w, fault);
  }

  lemma CallShape(s: State, call: Call, fault: Fault)
    ensures PerformCall(s, call, fault).workers == s.workers
  {
  }

  // Storing the answer of a renewal call.
  function Stored(cfg: Config, s: State, w: nat, wk: Worker, id: nat, answer: Answer): State {
    match answer
    case Done(receipt) => Put(s, w, wk.(tracked := Some((id, receipt)), renewal := NextSleep(cfg, s)))
    case NotFound => Put(s, w, wk.(renewal := NotRenewing))
    case Failed => Put(s, w, wk.(renewal := NextSleep(cfg, s)))
  }

  lemma AnswerIs(cfg: Config, s: State, w: nat, wk: Worker, answered: Renewal)
    requires answered.Calling? && answered.answer.Some?
    ensures DoRenewDone(cfg, Put(s, w, wk.(renewal := answered)), w)
            == Stored(cfg, s, w, wk, answered.id, answered.answer.value)
  {
    var t := Put(s, w, wk.(renewal := answered));
    forall next: Worker ensures Put(t, w, next) == Put(s, w, next) {
      assert s.workers[w := wk.(renewal := answered)][w := next] == s.workers[w := next];
    }
  }

  lemma AfterSleepIs(cfg: Config, s: State, w: nat, fault: Fault)
    requires w in s.workers && s.workers[w].tracked.Some? && SleepSeconds(cfg) <= s.now
    ensures var (id, receipt) := s.workers[w].tracked.value;
            var call := Update(id, receipt, RenewSeconds(cfg));
            AfterSleep(cfg, s.(now := s.now - SleepSeconds(cfg)), w, fault)
            == Stored(cfg, PerformCall(s, call, fault), w, s.workers[w], id, CallAnswer(s, call, fault))
  {
    var (id, receipt) := s.workers[w].tracked.value;
    var t := PerformCall(s, Update(id, receipt, RenewSeconds(cfg)), fault);
    assert s.(now := s.now - SleepSeconds(cfg)).(now := s.now) == s;
    CallShape(s, Update(id, receipt, RenewSeconds(cfg)), fault);
    hide PerformCall, CallAnswer, SleepSeconds, RenewSeconds, Max;
    forall one: Worker, two: Worker ensures Put(Put(t, w, one), w, two) == Put(t, w, two) {
      assert t.workers[w := one][w := two] == t.workers[w := two];
    }
  }

  lemma {:induction false} SleepsAreRun(cfg: Config, s: State, w: nat, faults: seq<Fault>)
    requires w in s.workers && s.workers[w].renewal == NextSleep(cfg, s)
    ensures Leads(cfg, s, AfterSleeps(cfg, s, w, faults))
    decreases |faults|
  {
    if faults == [] || s.workers[w].renewal.NotRenewing? {
      LeadsSelf(cfg, s);
    } else {
      var s1 := AfterSleep(cfg, s, w, faults[0]);
      SleepIsRun(cfg, s, w, faults[0]);
      if s1.workers[w].renewal.NotRenewing? {
        assert AfterSleeps(cfg, s1, w, faults[1..]) == s1;
      } else {
        SleepsAreRun(cfg, s1, w, faults[1..]);
        LeadsOn(cfg, s, s1, AfterSleeps(cfg, s1, w, faults[1..]));
      }
    }
  }

  lemma RenewalHolds(cfg: Config, s: State, w: nat)
    requires w in s.workers && s.running && s.workers[w].tracked.Some?
    requires Matches(s.queue, s.workers[w].tracked.value.0, s.workers[w].tracked.value.1)
    ensures var t, id := AfterSleep(cfg, s, w, NoFault), s.workers[w].tracked.value.0;
            && t.now == s.now + SleepSeconds(cfg) && t.running
            && t.workers[w].renewal == NextSleep(cfg, t)
            && t.workers[w].tracked.Some? && t.workers[w].tracked.value.0 == id
            && Matches(t.queue, id, t.workers[w].tracked.value.1)
            && t.queue[id].visibleAt == t.now + RenewSeconds(cfg)
            && t.queue == s.queue[id := t.queue[id]]
  {
  }

  lemma OneRound(cfg: Config, s: State, w: nat, rounds: seq<Fault>)
    requires w in s.workers && s.running && s.workers[w].renewal == NextSleep(cfg, s)
    requires rounds != [] && rounds[0] == NoFault
    ensures AfterSleeps(cfg, s, w, rounds) == AfterSleeps(cfg, AfterSleep(cfg, s, w, NoFault), w, rounds[1..])
  {
    hide AfterSleep;
  }

  // While every renewal succeeds the lease is held through any number of
  // rounds: the tracked receipt stays the current one and the message is
  // hidden for a full timeout after each round.
  lemma {:induction false} RenewalsHoldTheLease(cfg: Config, s: State, w: nat, rounds: seq<Fault>)
    requires w in s.workers && s.running && s.workers[w].renewal == NextSleep(cfg, s) && s.workers[w].tracked.Some?
    requires Matches(s.queue, s.workers[w].tracked.value.0, s.workers[w].tracked.value.1)
    requires forall i :: 0 <= i < |rounds| ==> rounds[i] == NoFault
    ensures var t, id := AfterSleeps(cfg, s, w, rounds), s.workers[w].tracked.value.0;
            && t.workers[w].tracked.Some? && t.workers[w].tracked.value.0 == id
            && Matches(t.queue, id, t.workers[w].tracked.value.1)
            && t.queue[id].visibleAt == (if rounds == [] then s.queue[id].visibleAt else t.now + RenewSeconds(cfg))
            && t.queue == s.queue[id := t.queue[id]]
    decreases |rounds|
  {
    if rounds == [] {
      hide AfterSleep, NextSleep;
    } else {
      var s1 := AfterSleep(cfg, s, w, NoFault);
      RenewalHolds(cfg, s, w);
      OneRound(cfg, s, w, rounds);
      hide *;
      RenewalsHoldTheLease(cfg, s1, w, rounds[1..]);
      SameMessage(s.queue, s1.queue, AfterSleeps(cfg, s1, w, rounds[1..]).queue, s.workers[w].tracked.value.0);
    }
  }

  // ---- the attempt ---------------------------------------------------------

  // Every attempt is a run of the protocol.
  lemma AttemptIsRun(cfg: Config, s: State, w: nat, m: Received, since: nat, crash: bool,
                     renewals: seq<Fault>, outcome: Outcome, faults: Faults)
    requires w in s.workers && s.workers[w].phase == Starting(m, since)
    ensures Leads(cfg, s, AfterAttempt(cfg, s, w, crash, renewals, outcome, faults))
  {
    LeadsByOne(cfg, s, Begin(w, crash));
    var s1 := Next(cfg, s, Begin(w, crash));
    match cfg.parse(m.content)
    case None =>
      FailureIsRun(cfg, s, w, m, true, None, faults);
      LeadsOn(cfg, s, s1, AfterAttempt(cfg, s, w, crash, renewals, outcome, faults));
    case Some(claim) =>
      var begun := AfterBegin(cfg, s, w, m, claim);
      if crash {
        var s2 := begun.(tainted := begun.tainted + {m.receipt.lease});
        FailureIsRun(cfg, s2, w, m, false, None, faults);
        LeadsOn(cfg, s, s1, AfterAttempt(cfg, s, w, crash, renewals, outcome, faults));
      } else {
        assert s1 == begun;
        RestIsRun(cfg, begun, w, m, claim, renewals, outcome, faults);
        LeadsOn(cfg, s, begun, AfterAttempt(cfg, s, w, crash, renewals, outcome, faults));
      }
  }

  // From the start of the workflow on.
  lemma RestIsRun(cfg: Config, s: State, w: nat, m: Received, claim: string, renewals: seq<Fault>, outcome: Outcome,
                  faults: Faults)
    requires w in s.workers && s.workers[w].phase == Running(m, claim) && s.workers[w].renewal == NextSleep(cfg, s)
    ensures var returned := Settling(DoWorkflowDone(AfterSleeps(cfg, s, w, renewals), w, outcome), w);
            Leads(cfg, s, Leave(AfterOutcome(cfg, returned, w, m, claim, outcome, faults), w))
  {
    var s1 := AfterSleeps(cfg, s, w, renewals);
    var s2 := DoWorkflowDone(s1, w, outcome);
    SleepsAreRun(cfg, s, w, renewals);
    LeadsOneMore(cfg, s, s1, WorkflowDone(w, outcome));
    SettleIsRun(cfg, s2, w, m, claim, outcome, faults);
    LeadsOn(cfg, s, s2, Leave(AfterOutcome(cfg, Settling(s2, w), w, m, claim, outcome, faults), w));
  }

  lemma SettleIsRun(cfg: Config, s: State, w: nat, m: Received, claim: string, outcome: Outcome, faults: Faults)
    requires w in s.workers && s.workers[w].phase == Returned(m, claim, outcome)
    ensures Leads(cfg, s, Leave(AfterOutcome(cfg, Settling(s, w), w, m, claim, outcome, faults), w))
  {
    var s' := Settling(s, w);
    LeadsByOne(cfg, s, Settle(w, faults.delete));
    if outcome.Succeeded? {
      var target := Target(s.workers[w], m);
      LeavesOn(cfg, s, Delete(s', target.0, target.1, faults.delete, AfterSuccess), w);
    } else {
      var s1 := BeginFailure(cfg, s', w, m, outcome.ExecutorFailed?, Some(claim));
      assert Next(cfg, s, Settle(w, faults.delete)) == s1;
      hide Leads, Next, Enabled, BeginFailure, Leave, AfterFailure;
      FailureIsRun(cfg, s', w, m, outcome.ExecutorFailed?, Some(claim), faults);
      LeadsOn(cfg, s, s1, Leave(AfterOutcome(cfg, s', w, m, claim, outcome, faults), w));
    }
  }

  // So an attempt keeps every property of reachable states, and leaves its
  // worker with nothing in flight.
  lemma AttemptStaysReachable(cfg: Config, s: State, w: nat, m: Received, since: nat, crash: bool,
                     renewals: seq<Fault>, outcome: Outcome, faults: Faults)
    requires Reachable(cfg, s) && w in s.workers && s.workers[w].phase == Starting(m, since)
    ensures Reachable(cfg, AfterAttempt(cfg, s, w, crash, renewals, outcome, faults))
    ensures w in AfterAttempt(cfg, s, w, crash, renewals, outcome, faults).workers
    ensures AfterAttempt(cfg, s, w, crash, renewals, outcome, faults).workers[w] == Idle
  {
    AttemptIsRun(cfg, s, w, m, since, crash, renewals, outcome, faults);
    ReachableOn(cfg, s, AfterAttempt(cfg, s, w, crash, renewals, outcome, faults));
  }

  const Reliable := Faults(NoFault, NoFault, NoFault)

  // The message this worker holds is queued under the receipt it would use.
  predicate Owns(s: State, w: nat, m: Received) {
    && At(s, w, m) && Target(s.workers[w], m).0 == m.id
    && Matches(s.queue, m.id, Target(s.workers[w], m).1)
  }

  lemma FailureEnds(cfg: Config, s: State, w: nat, m: Received, forced: bool, cleanup: Option<string>)
    requires Owns(s, w, m)
    ensures var t := Leave(AfterFailure(cfg, s, w, m, forced, cleanup, Reliable), w);
            if forced || m.dequeueCount >= MaxAttempts(cfg)
            then t.queue == s.queue - {m.id} && t.dead == s.dead + [Letter(m.id, m.content, m.dequeueCount, forced)]
                 && t.cleaned == s.cleaned + if cleanup.Some? then [Cleanup(m.id, false)] else []
            else m.id in t.queue && t.queue == s.queue[m.id := t.queue[m.id]] && t.dead == s.dead
                 && t.cleaned == s.cleaned
                 && t.queue[m.id].visibleAt == s.now + RetryDelay(cfg) && t.queue[m.id].content == s.queue[m.id].content
  {
    LeaveIs(AfterFailure(cfg, s, w, m, forced, cleanup, Reliable), w);
    hide Leave;
  }

  // An attempt no call of which fails: success deletes the message, a failure
  // that is forced or was the last attempt turns it into one letter with its
  // content, and any other failure leaves it queued for after the retry delay.
  lemma ReliableAttempt(cfg: Config, s: State, w: nat, m: Received, since: nat, renewals: seq<Fault>, outcome: Outcome)
    requires w in s.workers && s.workers[w].phase == Starting(m, since) && Matches(s.queue, m.id, m.receipt)
    requires s.workers[w].tracked.None? || cfg.parse(m.content).Some?
    requires forall i :: 0 <= i < |renewals| ==> renewals[i] == NoFault
    ensures var t, parsed := AfterAttempt(cfg, s, w, false, renewals, outcome, Reliable), cfg.parse(m.content).Some?;
            var forced := !parsed || outcome.ExecutorFailed?;
            if parsed && outcome.Succeeded?
            then t.queue == s.queue - {m.id} && t.dead == s.dead && t.cleaned == s.cleaned && m.id in t.completed
            else if forced || m.dequeueCount >= MaxAttempts(cfg)
            then t.queue == s.queue - {m.id} && t.dead == s.dead + [Letter(m.id, m.content, m.dequeueCount, forced)]
                 && t.cleaned == s.cleaned + if parsed then [Cleanup(m.id, false)] else []
            else m.id in t.queue && t.queue == s.queue[m.id := t.queue[m.id]] && t.dead == s.dead
                 && t.cleaned == s.cleaned
                 && t.queue[m.id].visibleAt == t.now + RetryDelay(cfg)
  {
    if cfg.parse(m.content).None? {
      FailureEnds(cfg, s, w, m, true, None);
      hide Leave, AfterFailure, Matches;
    } else {
      var claim := cfg.parse(m.content).value;
      var s1 := AfterBegin(cfg, s, w, m, claim);
      var s2 := AfterSleeps(cfg, s1, w, renewals);
      RenewalsOwn(cfg, s1, w, m, renewals);
      OutcomeEnds(cfg, s2, w, m, claim, outcome);
      var t := AfterAttempt(cfg, s, w, false, renewals, outcome, Reliable);
      assert t == Leave(AfterOutcome(cfg, Settling(DoWorkflowDone(s2, w, outcome), w), w, m, claim, outcome,
                                     Reliable), w);
      hide *;
      SameMessage(s.queue, s2.queue, t.queue, m.id);
    }
  }

  lemma SameMessage(q: Queue, renewed: Queue, after: Queue, id: nat)
    requires id in q && id in renewed && renewed == q[id := renewed[id]]
    ensures renewed - {id} == q - {id}
    ensures id in after && after == renewed[id := after[id]] ==> after == q[id := after[id]]
  {
  }

  lemma RenewalsOwn(cfg: Config, s: State, w: nat, m: Received, renewals: seq<Fault>)
    requires Owns(s, w, m) && s.workers[w].renewal == NextSleep(cfg, s) && s.workers[w].tracked.Some?
    requires forall i :: 0 <= i < |renewals| ==> renewals[i] == NoFault
    ensures var t := AfterSleeps(cfg, s, w, renewals);
            && Owns(t, w, m) && t.queue == s.queue[m.id := t.queue[m.id]] && t.dead == s.dead && t.cleaned == s.cleaned
  {
    if s.running { RenewalsHoldTheLease(cfg, s, w, renewals); }
    SleepsTouch(cfg, s, w, renewals);
  }

  lemma {:induction false} SleepsTouch(cfg: Config, s: State, w: nat, renewals: seq<Fault>)
    requires w in s.workers
    ensures var t := AfterSleeps(cfg, s, w, renewals);
            t.dead == s.dead && t.cleaned == s.cleaned && t.completed == s.completed
    decreases |renewals|
  {
    if renewals != [] && !s.workers[w].renewal.NotRenewing? {
      SleepsTouch(cfg, AfterSleep(cfg, s, w, renewals[0]), w, renewals[1..]);
    }
  }

  lemma OutcomeEnds(cfg: Config, s: State, w: nat, m: Received, claim: string, outcome: Outcome)
    requires Owns(s, w, m) && s.workers[w].phase == Running(m, claim)
    ensures var t := Leave(AfterOutcome(cfg, Settling(DoWorkflowDone(s, w, outcome), w), w, m, claim, outcome,
                                        Reliable), w);
            if outcome.Succeeded?
            then t.queue == s.queue - {m.id} && t.dead == s.dead && t.cleaned == s.cleaned && m.id in t.completed
            else if outcome.ExecutorFailed? || m.dequeueCount >= MaxAttempts(cfg)
            then t.queue == s.queue - {m.id}
                 && t.dead == s.dead + [Letter(m.id, m.content, m.dequeueCount, outcome.ExecutorFailed?)]
                 && t.cleaned == s.cleaned + [Cleanup(m.id, false)]
            else m.id in t.queue && t.queue == s.queue[m.id := t.queue[m.id]] && t.dead == s.dead
                 && t.cleaned == s.cleaned
                 && t.queue[m.id].visibleAt == t.now + RetryDelay(cfg)
  {
    var s3 := Settling(DoWorkflowDone(s, w, outcome), w);
    assert Owns(s3, w, m);
    if !outcome.Succeeded? {
      FailureEnds(cfg, s3, w, m, outcome.ExecutorFailed?, Some(claim));
    }
  }
}
