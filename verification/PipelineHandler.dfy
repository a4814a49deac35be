// One round of the receive loop of queue_handler_base.py, with the queues as
// fields: receive a message, execute the step, send the payload on, delete
// the message, report; or recover from whatever failed.
module PipelineHandler {
  import opened Wrappers
  import opened PipelineSteps
  import opened PipelineProtocol

  // What goes wrong in one round. The booleans are the calls that only
  // succeed or fail: executing the step, the final status report, and the
  // bookkeeping of the except block.
  datatype Faults = Faults(executes: bool, send: Fault, delete: Fault, reports: bool,
                           saves: bool, deadSend: Fault, deadDelete: Fault)

  const Reliable := Faults(true, NoFault, NoFault, true, true, NoFault, NoFault)

  function Try(s: State, w: nat, f: Faults): (t: State)
    requires w in s.handlers
    ensures w in t.handlers && t.handlers[w].step == s.handlers[w].step
    decreases match s.handlers[w].phase
              case Waiting => 0 case Buried(_, _) => 1 case Failing(_, _) => 2 case Deleted(_, _) => 3
              case Passed(_, _) => 4 case Executed(_, _) => 5 case Working(_, _) => 6
  {
    match s.handlers[w].phase
    case Waiting => s
    case Working(_, _) => Try(DoExecute(s, w, f.executes), w, f)
    case Executed(_, _) => Try(DoPass(s, w, f.send), w, f)
    case Passed(_, _) => Try(DoDelete(s, w, f.delete), w, f)
    case Deleted(_, _) => Try(DoReport(s, w, f.reports), w, f)
    case Failing(_, _) => if f.saves then Try(DoRecover(s, w, f.deadSend), w, f) else Go(s, w, Waiting)
    case Buried(_, _) => DoBury(s, w, f.deadDelete)
  }

  // The whole round.
  function AfterRound(s: State, w: nat, id: nat, f: Faults): State
    requires Enabled(s, Receive(w, id))
  {
    Try(DoReceive(s, w, id), w, f)
  }

  // ---- a round is a run --------------------------------------------------------

  lemma {:induction false} TryReachable(s: State, w: nat, f: Faults)
    requires Reachable(s) && w in s.handlers
    ensures Reachable(Try(s, w, f))
    decreases match s.handlers[w].phase
              case Waiting => 0 case Buried(_, _) => 1 case Failing(_, _) => 2 case Deleted(_, _) => 3
              case Passed(_, _) => 4 case Executed(_, _) => 5 case Working(_, _) => 6
  {
    match s.handlers[w].phase
    case Waiting =>
    case Working(_, _) => OneMore(s, Execute(w, f.executes)); TryReachable(DoExecute(s, w, f.executes), w, f);
    case Executed(_, _) => OneMore(s, Pass(w, f.send)); TryReachable(DoPass(s, w, f.send), w, f);
    case Passed(_, _) => OneMore(s, Delete(w, f.delete)); TryReachable(DoDelete(s, w, f.delete), w, f);
    case Deleted(_, _) => OneMore(s, Report(w, f.reports)); TryReachable(DoReport(s, w, f.reports), w, f);
    case Failing(_, _) =>
      if f.saves {
        OneMore(s, Recover(w, f.deadSend));
        TryReachable(DoRecover(s, w, f.deadSend), w, f);
      } else {
        OneMore(s, Crash(w));
      }
    case Buried(_, _) => OneMore(s, Bury(w, f.deadDelete));
  }

  lemma OneMore(s: State, e: Event)
    requires Reachable(s) && Enabled(s, e)
    ensures Reachable(Next(s, e))
  {
    var s0, events :| Initial(s0) && After(s0, events) == Some(s);
    var more := events + [e];
    assert more[..|more| - 1] == events;
    assert After(s0, more) == Some(Next(s, e));
  }

  // So a round keeps every property of reachable states, whatever fails.
  lemma RoundReachable(s: State, w: nat, id: nat, f: Faults)
    requires Reachable(s) && Enabled(s, Receive(w, id))
    ensures Reachable(AfterRound(s, w, id, f)) && Inv(AfterRound(s, w, id, f))
  {
    OneMore(s, Receive(w, id));
    TryReachable(DoReceive(s, w, id), w, f);
    ReachableInv(AfterRound(s, w, id, f));
  }

  // When nothing fails a round moves the document on by one step: its message
  // leaves this queue and one message for it enters the queue of the next
  // step, or the document has finished.
  lemma ReliableRound(s: State, w: nat, id: nat)
    requires Inv(s) && Enabled(s, Receive(w, id))
    ensures var token, t := s.tokens[id], AfterRound(s, w, id, Reliable);
            && t.handlers[w].phase.Waiting? && t.dead == s.dead
            && (match GetNextStep(token.steps, token.step)
                case Unknown => false
                case Last =>
                  t.tokens == s.tokens - {id} && t.finished == s.finished[token.doc := token.done + [token.step]]
                case Then(next) =>
                  && t.tokens
                     == (s.tokens - {id})[s.nextId := Token(token.doc, token.steps, next, token.done + [token.step], 0)]
                  && t.finished == s.finished)
  {
    assert TokenOk(s, s.tokens[id]);
    WalkedInside(s.tokens[id].steps, s.tokens[id].done, s.tokens[id].step);
    var s1 := DoReceive(s, w, id);
    var s2 := DoExecute(s1, w, true);
    assert Try(s1, w, Reliable) == Try(s2, w, Reliable);
    TryPass(s2, w, id, s1.tokens[id]);
    hide Try, Inv;
    assert s2.tokens - {id} == s.tokens - {id};
  }

  // Sending the payload on, deleting and reporting.
  lemma TryPass(s: State, w: nat, id: nat, token: Token)
    requires w in s.handlers && s.handlers[w].phase == Executed(id, token)
    requires id in s.tokens && s.tokens[id] == token && id < s.nextId && !GetNextStep(token.steps, token.step).Unknown?
    ensures var t := Try(s, w, Reliable);
            && t.handlers[w].phase.Waiting? && t.dead == s.dead
            && (match GetNextStep(token.steps, token.step)
                case Unknown => false
                case Last =>
                  t.tokens == s.tokens - {id} && t.finished == s.finished[token.doc := token.done + [token.step]]
                case Then(next) =>
                  && t.tokens
                     == (s.tokens - {id})[s.nextId := Token(token.doc, token.steps, next, token.done + [token.step], 0)]
                  && t.finished == s.finished)
  {
    var s1 := DoPass(s, w, NoFault);
    hide Try;
    TryExecuted(s, w, Reliable);
    PassReliably(s, w, id, token);
    hide DoPass;
    TryDelete(s1, w, id, token);
  }

  lemma TryExecuted(s: State, w: nat, f: Faults)
    requires w in s.handlers && s.handlers[w].phase.Executed?
    ensures Try(s, w, f) == Try(DoPass(s, w, f.send), w, f)
  {
  }

  lemma PassReliably(s: State, w: nat, id: nat, token: Token)
    requires w in s.handlers && s.handlers[w].phase == Executed(id, token)
    requires id in s.tokens && s.tokens[id] == token && id < s.nextId && !GetNextStep(token.steps, token.step).Unknown?
    ensures var t := DoPass(s, w, NoFault);
            && w in t.handlers && t.handlers[w].phase == Passed(id, token) && Matches(t, id, token) && t.dead == s.dead
            && (match GetNextStep(token.steps, token.step)
                case Unknown => false
                case Last =>
                  t.tokens == s.tokens && t.finished == s.finished[token.doc := token.done + [token.step]]
                case Then(next) =>
                  && t.tokens - {id}
                     == (s.tokens - {id})[s.nextId := Token(token.doc, token.steps, next, token.done + [token.step], 0)]
                  && t.finished == s.finished)
  {
  }

  // Deleting the message and reporting, when nothing fails.
  lemma TryDelete(s: State, w: nat, id: nat, token: Token)
    requires w in s.handlers && s.handlers[w].phase == Passed(id, token) && Matches(s, id, token)
    ensures Try(s, w, Reliable) == Go(s.(tokens := s.tokens - {id}), w, Waiting)
  {
    var s1 := DoDelete(s, w, NoFault);
    assert s1.handlers[w].phase == Deleted(id, token);
    assert Try(s, w, Reliable) == Try(s1, w, Reliable) == Try(DoReport(s1, w, true), w, Reliable);
    assert s.handlers[w := s1.handlers[w]][w := s.handlers[w].(phase := Waiting)]
           == s.handlers[w := s.handlers[w].(phase := Waiting)];
  }

  lemma WalkedInside(steps: seq<string>, done: seq<string>, step: string)
    requires Walked(steps, done, step)
    ensures step in steps && !GetNextStep(steps, step).Unknown?
  {
    if done != [] { assert GetNextStep(steps, done[|done| - 1]) == Then(step); }
  }

  // ---- a whole round, whatever fails ------------------------------------------

  // The except block: a dead-letter copy past five receives, then the deletion
  // if the copy is known to be there; otherwise the message waits.
  predicate RecoveryDoes(s: State, id: nat, token: Token, f: Faults, t: State) {
    var late := f.saves && token.received > 5;
    var current := id in s.tokens && s.tokens[id].received == token.received;
    && t.dead == (if late && !f.deadSend.FailsBefore? then s.dead + [token] else s.dead)
    && t.tokens == (if late && f.deadSend.NoFault? && !f.deadDelete.FailsBefore? && current then s.tokens - {id}
                    else s.tokens)
    && t.nextId == s.nextId && t.executed == s.executed && t.finished == s.finished && t.submitted == s.submitted
  }

  // Everything one round does to the message it received.
  predicate RoundDoes(s: State, id: nat, f: Faults, t: State)
    requires id in s.tokens
  {
    var token := s.tokens[id].(received := s.tokens[id].received + 1);
    var way := token.done + [token.step];
    var next := GetNextStep(token.steps, token.step);
    var sent := f.executes && next.Then? && !f.send.FailsBefore?;
    var passed := f.executes && (next.Last? || (next.Then? && f.send.NoFault?));
    var failed := !passed || !f.delete.NoFault? || !f.reports;
    var late := failed && f.saves && token.received > 5;
    var gone := (passed && !f.delete.FailsBefore?)
                || (late && f.deadSend.NoFault? && !f.deadDelete.FailsBefore?);
    var rest := if gone then s.tokens - {id} else s.tokens[id := token];
    && t.tokens == (if sent then rest[s.nextId := Token(token.doc, token.steps, next.step, way, 0)] else rest)
    && t.nextId == (if sent then s.nextId + 1 else s.nextId)
    && t.dead == (if late && !f.deadSend.FailsBefore? then s.dead + [token] else s.dead)
    && t.executed == (if f.executes then s.executed + [(token.doc, token.step)] else s.executed)
    && t.finished == (if f.executes && next.Last? then s.finished[token.doc := way] else s.finished)
    && t.submitted == s.submitted && t.handlers == s.handlers
  }

  // Where a handler stands is all that a step changes of the handlers.
  predicate OnlyMoves(s: State, t: State, w: nat)
    requires w in s.handlers
  {
    w in t.handlers && t.handlers == s.handlers[w := t.handlers[w]] && t.handlers[w].step == s.handlers[w].step
  }

  lemma TryFailing(s: State, w: nat, id: nat, token: Token, f: Faults)
    requires w in s.handlers && s.handlers[w].phase == Failing(id, token)
    ensures RecoveryDoes(s, id, token, f, Try(s, w, f))
    ensures OnlyMoves(s, Try(s, w, f), w) && Try(s, w, f).handlers[w].phase.Waiting?
  {
    if f.saves {
      var s1 := DoRecover(s, w, f.deadSend);
      assert Try(s, w, f) == Try(s1, w, f);
      if s1.handlers[w].phase.Buried? { assert Try(s1, w, f) == DoBury(s1, w, f.deadDelete); }
    }
  }

  // Deletion and report of a message whose payload is sent on.
  predicate EndingDoes(s: State, id: nat, token: Token, f: Faults, t: State) {
    var failed := !f.delete.NoFault? || !f.reports;
    var late := failed && f.saves && token.received > 5;
    var gone := !f.delete.FailsBefore? || (late && f.deadSend.NoFault? && !f.deadDelete.FailsBefore?);
    && t.tokens == (if gone then s.tokens - {id} else s.tokens)
    && t.dead == (if late && !f.deadSend.FailsBefore? then s.dead + [token] else s.dead)
    && t.nextId == s.nextId && t.executed == s.executed && t.finished == s.finished && t.submitted == s.submitted
  }

  lemma TryPassed(s: State, w: nat, id: nat, token: Token, f: Faults)
    requires w in s.handlers && s.handlers[w].phase == Passed(id, token)
    requires id in s.tokens && s.tokens[id].received == token.received
    ensures EndingDoes(s, id, token, f, Try(s, w, f))
    ensures OnlyMoves(s, Try(s, w, f), w) && Try(s, w, f).handlers[w].phase.Waiting?
  {
    var s1 := DoDelete(s, w, f.delete);
    assert Try(s, w, f) == Try(s1, w, f);
    if f.delete.NoFault? {
      var s2 := DoReport(s1, w, f.reports);
      assert Try(s1, w, f) == Try(s2, w, f);
      if !f.reports { TryFailing(s2, w, id, token, f); }
    } else {
      TryFailing(s1, w, id, token, f);
    }
  }

  // From execution on.
  predicate PassingDoes(s: State, id: nat, token: Token, f: Faults, t: State) {
    var way := token.done + [token.step];
    var next := GetNextStep(token.steps, token.step);
    var sent := next.Then? && !f.send.FailsBefore?;
    var passed := next.Last? || (next.Then? && f.send.NoFault?);
    var failed := !passed || !f.delete.NoFault? || !f.reports;
    var late := failed && f.saves && token.received > 5;
    var gone := (passed && !f.delete.FailsBefore?) || (late && f.deadSend.NoFault? && !f.deadDelete.FailsBefore?);
    var rest := if gone then s.tokens - {id} else s.tokens;
    && t.tokens == (if sent then rest[s.nextId := Token(token.doc, token.steps, next.step, way, 0)] else rest)
    && t.nextId == (if sent then s.nextId + 1 else s.nextId)
    && t.dead == (if late && !f.deadSend.FailsBefore? then s.dead + [token] else s.dead)
    && t.finished == (if next.Last? then s.finished[token.doc := way] else s.finished)
    && t.executed == s.executed && t.submitted == s.submitted
  }

  lemma TryExecution(s: State, w: nat, id: nat, token: Token, f: Faults)
    requires w in s.handlers && s.handlers[w].phase == Executed(id, token)
    requires id in s.tokens && s.tokens[id].received == token.received && id < s.nextId
    ensures PassingDoes(s, id, token, f, Try(s, w, f))
    ensures OnlyMoves(s, Try(s, w, f), w) && Try(s, w, f).handlers[w].phase.Waiting?
  {
    TryExecuted(s, w, f);
    PassIs(s, w, id, token, f.send);
    var s1 := DoPass(s, w, f.send);
    hide Try, DoPass, GetNextStep;
    if s1.handlers[w].phase.Passed? {
      TryPassed(s1, w, id, token, f);
    } else {
      TryFailing(s1, w, id, token, f);
    }
  }

  lemma PassIs(s: State, w: nat, id: nat, token: Token, fault: Fault)
    requires w in s.handlers && s.handlers[w].phase == Executed(id, token)
    requires id in s.tokens && id < s.nextId
    ensures var t, next, way := DoPass(s, w, fault), GetNextStep(token.steps, token.step), token.done + [token.step];
            var sent := next.Then? && !fault.FailsBefore?;
            && OnlyMoves(s, t, w)
            && t.handlers[w].phase
               == (if next.Last? || (next.Then? && fault.NoFault?) then Passed(id, token) else Failing(id, token))
            && t.tokens == (if sent then s.tokens[s.nextId := Token(token.doc, token.steps, next.step, way, 0)]
                            else s.tokens)
            && (sent ==>
                  t.tokens - {id}
                  == (s.tokens - {id})[s.nextId := Token(token.doc, token.steps, next.step, way, 0)])
            && t.nextId == (if sent then s.nextId + 1 else s.nextId)
            && t.finished == (if next.Last? then s.finished[token.doc := way] else s.finished)
            && t.dead == s.dead && t.executed == s.executed && t.submitted == s.submitted
  {
  }

  // Every round, field by field, whatever fails in it.
  lemma RoundExactly(s: State, w: nat, id: nat, f: Faults)
    requires Enabled(s, Receive(w, id)) && id < s.nextId
    ensures RoundDoes(s, id, f, AfterRound(s, w, id, f))
  {
    var token := s.tokens[id].(received := s.tokens[id].received + 1);
    var s1 := DoReceive(s, w, id);
    var s2 := DoExecute(s1, w, f.executes);
    var t := Try(s2, w, f);
    assert Try(s1, w, f) == t;
    if f.executes {
      TryExecution(s2, w, id, token, f);
    } else {
      TryFailing(s2, w, id, token, f);
    }
    hide Try, GetNextStep;
    assert s1.tokens - {id} == s.tokens - {id};
    assert t.handlers == s.handlers;
  }

  class QueueHandler {
    const w: nat
    const step: string

    // the storage queues
    var tokens: map<nat, Token>
    var dead: seq<Token>
    var nextId: nat

    // self._current_message_context
    var context: Option<(nat, Token)>

    // everything else: the other handlers, and where this one stands
    ghost var rest: State

    ghost predicate Valid()
      reads this
    {
      w in rest.handlers && rest.handlers[w].step == step
    }

    ghost function Abs(): State
      reads this
    {
      rest.(tokens := tokens, dead := dead, nextId := nextId)
    }

    ghost method Reach(phase: Phase)
      requires Valid()
      modifies this`rest
      ensures Valid() && Abs() == Go(old(Abs()), w, phase)
    {
      rest := Go(rest, w, phase);
    }

    // The step's own execute and the saving of its result; false stands for an
    // exception
    method Execute(id: nat, token: Token, f: Faults) returns (ok: bool)
      requires Valid() && Abs().handlers[w].phase == Working(id, token)
      modifies this`rest
      ensures Valid() && Abs() == DoExecute(old(Abs()), w, f.executes)
      ensures Abs().handlers[w].phase == if ok then Executed(id, token) else Failing(id, token)
    {
      ok := f.executes;
      if ok {
        rest := rest.(executed := rest.executed + [(token.doc, token.step)]);
      }
      Reach(if ok then Executed(id, token) else Failing(id, token));
    }

    // delete_queue_message; false stands for the exception it raises
    method DeleteQueueMessage(id: nat, token: Token, fault: Fault) returns (ok: bool)
      requires Valid()
      modifies this`tokens
      ensures Valid() && Abs() == Remove(old(Abs()), id, token, fault)
      ensures ok <==> RemoveSucceeds(old(Abs()), id, token, fault)
      ensures var current := id in old(tokens) && old(tokens)[id].received == token.received;
              && tokens == (if current && !fault.FailsBefore? then old(tokens) - {id} else old(tokens))
              && ok == (current && fault.NoFault?)
    {
      var current := id in tokens && tokens[id].received == token.received;
      ok := current && fault.NoFault?;
      if current && !fault.FailsBefore? {
        tokens := tokens - {id};
      }
    }

    // pass_data_pipeline_to_next_step
    method PassDataPipelineToNextStep(id: nat, token: Token, fault: Fault) returns (ok: bool)
      requires Valid() && Abs().handlers[w].phase == Executed(id, token)
      modifies this`tokens, this`nextId, this`rest
      ensures Valid() && Abs() == DoPass(old(Abs()), w, fault)
      ensures Abs().handlers[w].phase == if ok then Passed(id, token) else Failing(id, token)
    {
      match GetNextStep(token.steps, token.step) {
        case Unknown =>
          ok := false;
        case Last =>
          rest := rest.(finished := rest.finished[token.doc := token.done + [token.step]]);
          ok := true;
        case Then(next) =>
          if !fault.FailsBefore? {
            tokens := tokens[nextId := Token(token.doc, token.steps, next, token.done + [token.step], 0)];
            nextId := nextId + 1;
          }
          ok := fault.NoFault?;
      }
      Reach(if ok then Passed(id, token) else Failing(id, token));
    }

    // move_to_dead_letter_queue
    method MoveToDeadLetterQueue(id: nat, token: Token, send: Fault, delete: Fault)
      requires Valid() && Abs().handlers[w].phase == Failing(id, token) && token.received > MAX_RECEIVES
      modifies this`tokens, this`dead, this`rest
      ensures Valid()
      ensures var s := DoRecover(old(Abs()), w, send);
              Abs() == if s.handlers[w].phase.Buried? then DoBury(s, w, delete) else s
      ensures dead == if send.FailsBefore? then old(dead) else old(dead) + [token]
      ensures var current := id in old(tokens) && old(tokens)[id].received == token.received;
              tokens == if current && send.NoFault? && !delete.FailsBefore? then old(tokens) - {id} else old(tokens)
    {
      if !send.FailsBefore? {
        dead := dead + [token];
      }
      Reach(if send.NoFault? then Buried(id, token) else Waiting);
      if send.NoFault? {
        var _ := DeleteQueueMessage(id, token, delete);
        Reach(Waiting);
      }
    }

    // The body of the receive loop.
    method HandleMessage(id: nat, f: Faults)
      requires Valid() && Enabled(Abs(), Receive(w, id))
      modifies this
      ensures Valid() && Abs() == AfterRound(old(Abs()), w, id, f)
      ensures id < old(nextId) ==> RoundDoes(old(Abs()), id, f, Abs())
    {
      if id < nextId { RoundExactly(Abs(), w, id, f); }
      hide RoundDoes;
      var token := tokens[id].(received := tokens[id].received + 1);
      tokens := tokens[id := token];
      context := Some((id, token));
      Reach(Working(id, token));
      assert Abs() == DoReceive(old(Abs()), w, id);
      var ok := Execute(id, token, f);
      assert Try(Abs(), w, f) == AfterRound(old(Abs()), w, id, f);
      if ok {
        ok := PassDataPipelineToNextStep(id, token, f.send);
        assert Try(Abs(), w, f) == AfterRound(old(Abs()), w, id, f);
      }
      if ok {
        ok := Complete(id, token, f);
      }
      if !ok {
        Except(id, token, f);
      }
    }

    // Deleting the message and reporting the status, once the payload is sent.
    method Complete(id: nat, token: Token, f: Faults) returns (ok: bool)
      requires Valid() && Abs().handlers[w].phase == Passed(id, token)
      modifies this`tokens, this`rest
      ensures Valid() && Try(Abs(), w, f) == Try(old(Abs()), w, f)
      ensures Abs().handlers[w].phase == if ok then Waiting else Failing(id, token)
    {
      ok := DeleteQueueMessage(id, token, f.delete);
      Reach(if ok then Deleted(id, token) else Failing(id, token));
      assert Abs() == DoDelete(old(Abs()), w, f.delete);
      if ok {
        ok := f.reports;
        Reach(if ok then Waiting else Failing(id, token));
      }
    }

    // The except block. What raises in it ends the process.
    method Except(id: nat, token: Token, f: Faults)
      requires Valid() && Abs().handlers[w].phase == Failing(id, token)
      modifies this
      ensures Valid() && Abs() == Try(old(Abs()), w, f)
      ensures RecoveryDoes(old(Abs()), id, token, f, Abs())
    {
      TryFailing(Abs(), w, id, token, f);
      hide RecoveryDoes;
      if f.saves && token.received > MAX_RECEIVES {
        MoveToDeadLetterQueue(id, token, f.deadSend, f.deadDelete);
      } else {
        Reach(Waiting);
      }
      context := None;
    }
  }
}
