// What the operations of the claim queue do to the queues and the entries, in
// plain numbers: no limit, delay or timeout of the configuration is left under
// a name of its own.
module ClaimEffects {
  import opened Wrappers
  import opened QueueProtocol
  import opened QueueSafety
  import opened ClaimAttempt

  // The attempt limit: as configured, but 3 for zero and 1 below it.
  predicate OutOfAttempts(limit: int, attempt: nat) {
    (limit >= 1 && attempt >= limit) || (limit == 0 && attempt >= 3) || (limit < 0 && attempt >= 1)
  }

  lemma LimitIs(cfg: Config, attempt: nat)
    ensures attempt >= MaxAttempts(cfg) <==> OutOfAttempts(cfg.maxReceiveAttempts, attempt)
  {
  }

  // A lease lasts as many minutes as configured, and a renewal as long, or half
  // a minute when that is nothing; the renewal sleeps for three fifths of it.
  lemma TimesAre(cfg: Config)
    ensures ReceiveSeconds(cfg) == 60 * cfg.visibilityMinutes
    ensures RenewSeconds(cfg) == if cfg.visibilityMinutes == 0 then 30 else 60 * cfg.visibilityMinutes
    ensures SleepSeconds(cfg) == if cfg.visibilityMinutes == 0 then 18 else 36 * cfg.visibilityMinutes
    ensures RetryDelay(cfg) == if cfg.retryDelaySeconds > 0 then cfg.retryDelaySeconds else 0
  {
  }

  // The queue without the message of an entry, if it is there under the receipt
  // of the entry and the request gets through.
  function WithoutEntry(queue: Queue, entry: Option<(nat, Receipt)>, fault: Fault): Queue {
    if entry.Some? && fault != FailsBefore && entry.value.0 in queue && queue[entry.value.0].receipt == entry.value.1
    then queue - {entry.value.0}
    else queue
  }

  // The queue with the message of an entry hidden for so many seconds under its
  // next receipt, in the same cases.
  function Rehidden(queue: Queue, now: nat, entry: Option<(nat, Receipt)>, seconds: nat, fault: Fault): Queue {
    if entry.Some? && fault != FailsBefore && entry.value.0 in queue && queue[entry.value.0].receipt == entry.value.1
    then
      var (id, receipt) := entry.value;
      var next := Receipt(receipt.lease, receipt.version + 1);
      queue[id := Message(queue[id].content, queue[id].dequeueCount, next, now + seconds)]
    else queue
  }

  function Positive(seconds: int): nat { if seconds > 0 then seconds else 0 }

  function AtLeastMinute(seconds: int): nat { if seconds > 60 then seconds else 60 }

  // The entry after such an update: the receipt that came back, if one did.
  function Stored(queue: Queue, entry: Option<(nat, Receipt)>, fault: Fault): Option<(nat, Receipt)> {
    if entry.Some? && fault == NoFault && entry.value.0 in queue && queue[entry.value.0].receipt == entry.value.1
    then Some((entry.value.0, Receipt(entry.value.1.lease, entry.value.1.version + 1)))
    else None
  }

  // The entry an operation on this message uses.
  function EntryFor(tracked: Option<(nat, Receipt)>, m: Received): (nat, Receipt) {
    match tracked case Some(entry) => entry case None => (m.id, m.receipt)
  }

  // ---- single calls ------------------------------------------------------------------

  lemma UpdateDoes(s: State, entry: (nat, Receipt), delay: nat, fault: Fault)
    ensures var call := Update(entry.0, entry.1, delay);
            var t, answer := PerformCall(s, call, fault), CallAnswer(s, call, fault);
            && t == s.(queue := Rehidden(s.queue, s.now, Some(entry), delay, fault), tainted := t.tainted)
            && Stored(s.queue, Some(entry), fault) == (if answer.Done? then Some((entry.0, answer.receipt)) else None)
            && (answer.NotFound? <==> fault == NoFault && entry.0 !in s.queue)
  {
  }

  lemma SendDoes(s: State, letter: Letter, fault: Fault)
    ensures PerformCall(s, Send(letter), fault) == s.(dead := s.dead + if fault != FailsBefore then [letter] else [])
  {
  }

  lemma DeleteDoes(s: State, entry: (nat, Receipt), fault: Fault, why: Reason)
    ensures var t := Delete(s, entry.0, entry.1, fault, why);
            t == s.(queue := WithoutEntry(s.queue, Some(entry), fault), removed := t.removed)
  {
  }

  // Receiving counts the message once more, hides it for the configured minutes
  // under a new receipt, and leaves the entries of the worker alone.
  lemma ReceiveDoes(cfg: Config, s: State, w: nat, id: nat, lost: bool)
    requires w in s.workers && id in s.queue
    ensures var t, msg, receipt := DoReceive(cfg, s, w, id, lost), s.queue[id], Receipt(s.nextLease, 0);
            var count, wk := msg.dequeueCount + 1, t.workers[w];
            && t.queue == s.queue[id := Message(msg.content, count, receipt, s.now + 60 * cfg.visibilityMinutes)]
            && (lost ==> t.workers == s.workers)
            && (!lost ==> wk.phase == Starting(Received(id, msg.content, count, receipt), s.now))
            && wk.tracked == s.workers[w].tracked
            && wk.process == s.workers[w].process && wk.batch == s.workers[w].batch
            && t.dead == s.dead && t.now == s.now && t.nextLease == s.nextLease + 1
  {
  }

  // A job that parses its message tracks it under its own receipt, by its claim.
  lemma BeginDoes(cfg: Config, s: State, w: nat, m: Received, since: nat)
    requires w in s.workers && s.workers[w].phase == Starting(m, since) && cfg.parse(m.content).Some?
    ensures var t, claim := DoBegin(cfg, s, w, false), cfg.parse(m.content);
            var wk := t.workers[w];
            && wk.tracked == Some((m.id, m.receipt)) && wk.process == claim && wk.batch == claim && wk.task
            && wk.phase == Running(m, claim.value)
            && (!s.running ==> wk.renewal == NotRenewing)
            && (s.running ==>
                  wk.renewal
                  == Sleeping(s.now + if cfg.visibilityMinutes == 0 then 18 else 36 * cfg.visibilityMinutes))
            && t.queue == s.queue && t.dead == s.dead
  {
    TimesAre(cfg);
    hide SleepSeconds;
  }

  // ---- operations ----------------------------------------------------------------------

  // Failure handling, for every combination of faults: a message that is not
  // forced and has attempts left is hidden for the retry delay; any other gets
  // its letter and is deleted once the letter was sent, and is hidden for at
  // least a minute when it was not.
  lemma FailureDoes(cfg: Config, s: State, w: nat, m: Received, forced: bool, cleanup: Option<string>, faults: Faults)
    requires w in s.workers
    ensures var t := AfterFailure(cfg, s, w, m, forced, cleanup, faults);
            var entry := EntryFor(s.workers[w].tracked, m);
            var out := forced || OutOfAttempts(cfg.maxReceiveAttempts, m.dequeueCount);
            && (!out ==>
                  t.queue == Rehidden(s.queue, s.now, Some(entry), Positive(cfg.retryDelaySeconds), faults.update))
            && (out && faults.send != NoFault ==>
                  t.queue == Rehidden(s.queue, s.now, Some(entry), AtLeastMinute(cfg.retryDelaySeconds), faults.update))
            && (out && faults.send == NoFault ==> t.queue == WithoutEntry(s.queue, Some(entry), faults.delete))
            && t.dead == s.dead + (if out && faults.send != FailsBefore
                                   then [Letter(m.id, m.content, m.dequeueCount, forced)] else [])
            && t.cleaned
               == s.cleaned + (if out && faults.send == NoFault && cleanup.Some? then [Cleanup(m.id, false)] else [])
            && t.workers[w].tracked == (if !out && Stored(s.queue, Some(entry), faults.update).Some?
                                        then Stored(s.queue, Some(entry), faults.update) else s.workers[w].tracked)
            && t.now == s.now && t.completed == s.completed
  {
    LimitIs(cfg, m.dequeueCount);
    hide MaxAttempts, OutOfAttempts, AfterFailure, Rehidden, WithoutEntry, Stored;
    if !forced && m.dequeueCount < MaxAttempts(cfg) {
      RetryDoes(cfg, s, w, m, cleanup, faults);
    } else {
      LetterDoes(cfg, s, w, m, forced, cleanup, faults);
    }
  }

  lemma RetryDoes(cfg: Config, s: State, w: nat, m: Received, cleanup: Option<string>, faults: Faults)
    requires w in s.workers && m.dequeueCount < MaxAttempts(cfg)
    ensures var t := AfterFailure(cfg, s, w, m, false, cleanup, faults);
            var entry := EntryFor(s.workers[w].tracked, m);
            && t.queue == Rehidden(s.queue, s.now, Some(entry), Positive(cfg.retryDelaySeconds), faults.update)
            && t.dead == s.dead && t.cleaned == s.cleaned && t.now == s.now && t.completed == s.completed
            && t.workers[w].tracked == (if Stored(s.queue, Some(entry), faults.update).Some?
                                        then Stored(s.queue, Some(entry), faults.update) else s.workers[w].tracked)
  {
    TimesAre(cfg);
    UpdateDoes(s, EntryFor(s.workers[w].tracked, m), RetryDelay(cfg), faults.update);
    hide PerformCall, CallAnswer, Rehidden, Stored, MaxAttempts, RetryDelay;
  }

  lemma LetterDoes(cfg: Config, s: State, w: nat, m: Received, forced: bool, cleanup: Option<string>, faults: Faults)
    requires w in s.workers && (forced || m.dequeueCount >= MaxAttempts(cfg))
    ensures var t, entry := AfterFailure(cfg, s, w, m, forced, cleanup, faults), EntryFor(s.workers[w].tracked, m);
            && (faults.send != NoFault ==>
                  t.queue == Rehidden(s.queue, s.now, Some(entry), AtLeastMinute(cfg.retryDelaySeconds), faults.update))
            && (faults.send == NoFault ==> t.queue == WithoutEntry(s.queue, Some(entry), faults.delete))
            && (faults.send == FailsBefore ==> t.dead == s.dead)
            && (faults.send != FailsBefore ==>
                  t.dead == s.dead + [Letter(m.id, m.content, m.dequeueCount, forced)])
            && t.cleaned == s.cleaned + (if faults.send == NoFault && cleanup.Some? then [Cleanup(m.id, false)] else [])
            && t.now == s.now && t.completed == s.completed && t.workers == s.workers
  {
    TimesAre(cfg);
    var entry, letter := EntryFor(s.workers[w].tracked, m), LetterFor(m, forced);
    var s1 := PerformCall(s, Send(letter), faults.send);
    SendDoes(s, letter, faults.send);
    UpdateDoes(s1, entry, Max(60, RetryDelay(cfg)), faults.update);
    var s2 := s1.(cleaned := if cleanup.Some? then s1.cleaned + [Cleanup(m.id, false)] else s1.cleaned);
    DeleteDoes(s2, entry, faults.delete, AfterDeadLetter(m.id));
    hide PerformCall, CallAnswer, Delete, Rehidden, WithoutEntry, Stored, MaxAttempts, RetryDelay;
  }

  // One round of the renewal loop, for every fault.
  lemma RenewalDoes(cfg: Config, s: State, w: nat, fault: Fault)
    requires w in s.workers
    ensures var t, tracked, v := AfterSleep(cfg, s, w, fault), s.workers[w].tracked, cfg.visibilityMinutes;
            && t.now == s.now + (if v == 0 then 18 else 36 * v)
            && t.queue == Rehidden(s.queue, t.now, tracked, if v == 0 then 30 else 60 * v, fault)
            && t.workers[w].tracked
               == (if Stored(s.queue, tracked, fault).Some? then Stored(s.queue, tracked, fault) else tracked)
            && t.workers[w].renewal
               == (if !s.running || (tracked.Some? && fault == NoFault && tracked.value.0 !in s.queue)
                                        then NotRenewing else Sleeping(t.now + if v == 0 then 18 else 36 * v))
            && t.workers[w].phase == s.workers[w].phase && t.dead == s.dead
  {
    TimesAre(cfg);
    RenewedDoes(cfg, s.(now := s.now + SleepSeconds(cfg)), w, fault);
    hide AfterRenewal, FindsNothing, SleepSeconds, RenewSeconds, Rehidden, Stored;
  }

  lemma GoneExactly(cfg: Config, s: State, w: nat, fault: Fault)
    requires w in s.workers
    ensures var tracked := s.workers[w].tracked;
            FindsNothing(cfg, s.(now := s.now + SleepSeconds(cfg)), w, fault)
            <==> tracked.Some? && fault == NoFault && tracked.value.0 !in s.queue
  {
    RenewedDoes(cfg, s.(now := s.now + SleepSeconds(cfg)), w, fault);
    hide FindsNothing;
  }

  lemma RenewedDoes(cfg: Config, s: State, w: nat, fault: Fault)
    requires w in s.workers
    ensures var t, tracked := AfterRenewal(cfg, s, w, fault), s.workers[w].tracked;
            && t.queue == Rehidden(s.queue, s.now, tracked, RenewSeconds(cfg), fault)
            && t.workers[w].tracked
               == (if Stored(s.queue, tracked, fault).Some? then Stored(s.queue, tracked, fault) else tracked)
            && t.workers[w].phase == s.workers[w].phase && t.dead == s.dead && t.now == s.now && t.running == s.running
            && (FindsNothing(cfg, s, w, fault) <==> tracked.Some? && fault == NoFault && tracked.value.0 !in s.queue)
  {
    if s.workers[w].tracked.Some? {
      UpdateDoes(s, s.workers[w].tracked.value, RenewSeconds(cfg), fault);
    }
    hide PerformCall, CallAnswer, RenewSeconds;
  }

  // A whole attempt no call of which fails, "crash" when its workflow cannot be
  // resolved: a message whose workflow returned is deleted; a malformed one, one
  // whose executor failed, and one that fails for the last time become a letter;
  // any other is hidden for the retry delay.
  lemma AttemptDoes(cfg: Config, s: State, w: nat, m: Received, since: nat, crash: bool, renewals: seq<Fault>,
                    outcome: Outcome)
    requires w in s.workers && s.workers[w].phase == Starting(m, since) && Matches(s.queue, m.id, m.receipt)
    requires s.workers[w].tracked.None? || cfg.parse(m.content).Some?
    requires forall i :: 0 <= i < |renewals| ==> renewals[i] == NoFault
    ensures var t, parsed := AfterAttempt(cfg, s, w, crash, renewals, outcome, Reliable), cfg.parse(m.content).Some?;
            var ran := parsed && !crash;
            var forced := !parsed || (ran && outcome.ExecutorFailed?);
            if ran && outcome.Succeeded?
            then t.queue == s.queue - {m.id} && t.dead == s.dead && t.cleaned == s.cleaned && m.id in t.completed
            else if forced || OutOfAttempts(cfg.maxReceiveAttempts, m.dequeueCount)
            then t.queue == s.queue - {m.id} && t.dead == s.dead + [Letter(m.id, m.content, m.dequeueCount, forced)]
                 && t.cleaned == s.cleaned + if ran then [Cleanup(m.id, false)] else []
            else m.id in t.queue && t.queue == s.queue[m.id := t.queue[m.id]] && t.dead == s.dead
                 && t.cleaned == s.cleaned
                 && t.queue[m.id].visibleAt == t.now + Positive(cfg.retryDelaySeconds)
  {
    LimitIs(cfg, m.dequeueCount);
    TimesAre(cfg);
    if crash && cfg.parse(m.content).Some? {
      CrashDoes(cfg, s, w, m, renewals, outcome);
    } else {
      assert cfg.parse(m.content).None? ==>
          AfterAttempt(cfg, s, w, crash, renewals, outcome, Reliable)
          == AfterAttempt(cfg, s, w, false, renewals, outcome, Reliable);
      ReliableAttempt(cfg, s, w, m, since, renewals, outcome);
    }
    hide AfterAttempt, MaxAttempts, RetryDelay, OutOfAttempts;
  }

  lemma CrashDoes(cfg: Config, s: State, w: nat, m: Received, renewals: seq<Fault>, outcome: Outcome)
    requires w in s.workers && s.workers[w].phase.Starting? && s.workers[w].phase.m == m
    requires Matches(s.queue, m.id, m.receipt) && cfg.parse(m.content).Some?
    ensures var t := AfterAttempt(cfg, s, w, true, renewals, outcome, Reliable);
            if m.dequeueCount >= MaxAttempts(cfg)
            then t.queue == s.queue - {m.id} && t.dead == s.dead + [Letter(m.id, m.content, m.dequeueCount, false)]
                 && t.cleaned == s.cleaned
            else m.id in t.queue && t.queue == s.queue[m.id := t.queue[m.id]] && t.dead == s.dead
                 && t.cleaned == s.cleaned && t.queue[m.id].visibleAt == t.now + RetryDelay(cfg)
  {
    var s1 := AfterBegin(cfg, s, w, m, cfg.parse(m.content).value);
    var s2 := s1.(tainted := s1.tainted + {m.receipt.lease});
    assert Owns(s2, w, m);
    FailureEnds(cfg, s2, w, m, false, None);
    LeaveIs(AfterFailure(cfg, s2, w, m, false, None, Reliable), w);
    FailureDoes(cfg, s2, w, m, false, None, Reliable);
    hide AfterFailure, Leave, MaxAttempts, RetryDelay;
  }
}
