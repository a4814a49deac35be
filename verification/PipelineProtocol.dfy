// The document pipeline as a step system: one token per queued message, one
// handler per worker process, and failures or a crash between any two
// operations of the receive loop of queue_handler_base.py.
module PipelineProtocol {
  import opened Wrappers
  import opened PipelineSteps

  // A message in the queue of a step. "done" is its way there: the steps whose
  // handlers passed the document on.
  datatype Token = Token(doc: nat, steps: seq<string>, step: string, done: seq<string>, received: nat)

  // Where a handler is with the message it received.
  datatype Phase =
    | Waiting
    | Working(id: nat, token: Token)
    | Executed(id: nat, token: Token)
    | Passed(id: nat, token: Token)
    | Deleted(id: nat, token: Token)
    | Failing(id: nat, token: Token)    // in the except block
    | Buried(id: nat, token: Token)     // dead-letter copy sent

  datatype Handler = Handler(step: string, phase: Phase)

  datatype Fault = NoFault | FailsBefore | FailsAfter

  datatype State = State(
    tokens: map<nat, Token>,
    dead: seq<Token>,
    nextId: nat,
    handlers: map<nat, Handler>,
    submitted: seq<seq<string>>,            // the steps of each document
    executed: seq<(nat, string)>,           // every successful execution: document and step
    finished: map<nat, seq<string>>)        // the way of a document that got through

  const MAX_RECEIVES: nat := 5

  datatype Event =
    | Submit(steps: seq<string>)
    | Receive(w: nat, id: nat)
    | Execute(w: nat, ok: bool)
    | Pass(w: nat, fault: Fault)
    | Delete(w: nat, fault: Fault)
    | Report(w: nat, ok: bool)
    | Recover(w: nat, fault: Fault)
    | Bury(w: nat, fault: Fault)
    | Crash(w: nat)

  predicate Enabled(s: State, e: Event) {
    match e
    case Submit(steps) => steps != []
    case Receive(w, id) =>
      w in s.handlers && s.handlers[w].phase.Waiting? && id in s.tokens && s.tokens[id].step == s.handlers[w].step
    case Execute(w, _) => w in s.handlers && s.handlers[w].phase.Working?
    case Pass(w, _) => w in s.handlers && s.handlers[w].phase.Executed?
    case Delete(w, _) => w in s.handlers && s.handlers[w].phase.Passed?
    case Report(w, _) => w in s.handlers && s.handlers[w].phase.Deleted?
    case Recover(w, _) => w in s.handlers && s.handlers[w].phase.Failing?
    case Bury(w, _) => w in s.handlers && s.handlers[w].phase.Buried?
    case Crash(w) => w in s.handlers
  }

  function Go(s: State, w: nat, phase: Phase): State
    requires w in s.handlers
  {
    s.(handlers := s.handlers[w := s.handlers[w].(phase := phase)])
  }

  // The receipt of a message is current while nobody has received it since.
  predicate Matches(s: State, id: nat, token: Token) {
    id in s.tokens && s.tokens[id].received == token.received
  }

  // delete_queue_message at the service
  function Remove(s: State, id: nat, token: Token, fault: Fault): State {
    if !fault.FailsBefore? && Matches(s, id, token) then s.(tokens := s.tokens - {id}) else s
  }

  predicate RemoveSucceeds(s: State, id: nat, token: Token, fault: Fault) {
    fault.NoFault? && Matches(s, id, token)
  }

  function Enqueued(s: State, token: Token): State {
    s.(tokens := s.tokens[s.nextId := token], nextId := s.nextId + 1)
  }

  function DoReceive(s: State, w: nat, id: nat): State
    requires w in s.handlers && id in s.tokens
  {
    var token := s.tokens[id].(received := s.tokens[id].received + 1);
    Go(s.(tokens := s.tokens[id := token]), w, Working(id, token))
  }

  function DoExecute(s: State, w: nat, ok: bool): State
    requires w in s.handlers && s.handlers[w].phase.Working?
  {
    var p := s.handlers[w].phase;
    if ok then Go(s.(executed := s.executed + [(p.token.doc, p.token.step)]), w, Executed(p.id, p.token))
    else Go(s, w, Failing(p.id, p.token))
  }

  // pass_data_pipeline_to_next_step, with the handler's step as active step
  function DoPass(s: State, w: nat, fault: Fault): State
    requires w in s.handlers && s.handlers[w].phase.Executed?
  {
    var p := s.handlers[w].phase;
    var t := p.token;
    var done := t.done + [t.step];
    match GetNextStep(t.steps, t.step)
    case Unknown => Go(s, w, Failing(p.id, t))
    case Last => Go(s.(finished := s.finished[t.doc := done]), w, Passed(p.id, t))
    case Then(next) =>
      var s' := if fault.FailsBefore? then s else Enqueued(s, Token(t.doc, t.steps, next, done, 0));
      Go(s', w, if fault.NoFault? then Passed(p.id, t) else Failing(p.id, t))
  }

  function DoDelete(s: State, w: nat, fault: Fault): State
    requires w in s.handlers && s.handlers[w].phase.Passed?
  {
    var p := s.handlers[w].phase;
    Go(Remove(s, p.id, p.token, fault), w,
       if RemoveSucceeds(s, p.id, p.token, fault) then Deleted(p.id, p.token) else Failing(p.id, p.token))
  }

  function DoReport(s: State, w: nat, ok: bool): State
    requires w in s.handlers && s.handlers[w].phase.Deleted?
  {
    var p := s.handlers[w].phase;
    Go(s, w, if ok then Waiting else Failing(p.id, p.token))
  }

  // The except block: a dead-letter copy after the last receive, else a new
  // visibility timeout. A failure in here ends the process.
  function DoRecover(s: State, w: nat, fault: Fault): State
    requires w in s.handlers && s.handlers[w].phase.Failing?
  {
    var p := s.handlers[w].phase;
    if p.token.received > MAX_RECEIVES then
      Go(if fault.FailsBefore? then s else s.(dead := s.dead + [p.token]), w,
         if fault.NoFault? then Buried(p.id, p.token) else Waiting)
    else Go(s, w, Waiting)
  }

  function DoBury(s: State, w: nat, fault: Fault): State
    requires w in s.handlers && s.handlers[w].phase.Buried?
  {
    Go(Remove(s, s.handlers[w].phase.id, s.handlers[w].phase.token, fault), w, Waiting)
  }

  function Next(s: State, e: Event): State
    requires Enabled(s, e)
  {
    match e
    case Submit(steps) =>
      Enqueued(s, Token(|s.submitted|, steps, steps[0], [], 0)).(submitted := s.submitted + [steps])
    case Receive(w, id) => DoReceive(s, w, id)
    case Execute(w, ok) => DoExecute(s, w, ok)
    case Pass(w, fault) => DoPass(s, w, fault)
    case Delete(w, fault) => DoDelete(s, w, fault)
    case Report(w, ok) => DoReport(s, w, ok)
    case Recover(w, fault) => DoRecover(s, w, fault)
    case Bury(w, fault) => DoBury(s, w, fault)
    case Crash(w) => Go(s, w, Waiting)
  }

  predicate Initial(s: State) {
    && s.tokens == map[] && s.dead == [] && s.submitted == [] && s.executed == [] && s.finished == map[]
    && forall w :: w in s.handlers ==> s.handlers[w].phase.Waiting?
  }

  function After(s0: State, events: seq<Event>): Option<State>
    decreases |events|
  {
    if events == [] then Some(s0)
    else
      match After(s0, events[..|events| - 1])
      case None => None
      case Some(s) => if Enabled(s, events[|events| - 1]) then Some(Next(s, events[|events| - 1])) else None
  }

  // ---- the invariant ---------------------------------------------------------

  // These steps were executed for the document, one after the other, at
  // these places of the record.
  predicate ExecutedAt(log: seq<(nat, string)>, doc: nat, steps: seq<string>, at: seq<nat>) {
    && |at| == |steps|
    && (forall i :: 0 <= i < |at| ==> at[i] < |log| && log[at[i]] == (doc, steps[i]))
    && forall i, j :: 0 <= i < j < |at| ==> at[i] < at[j]
  }

  ghost predicate ExecutedInOrder(log: seq<(nat, string)>, doc: nat, steps: seq<string>) {
    exists at: seq<nat> :: ExecutedAt(log, doc, steps, at)
  }

  ghost predicate TokenOk(s: State, t: Token) {
    && t.doc < |s.submitted| && t.steps == s.submitted[t.doc]
    && Walked(t.steps, t.done, t.step)
    && ExecutedInOrder(s.executed, t.doc, t.done)
  }

  lemma RecordGrows(log: seq<(nat, string)>, more: seq<(nat, string)>, doc: nat, steps: seq<string>)
    requires log <= more && ExecutedInOrder(log, doc, steps)
    ensures ExecutedInOrder(more, doc, steps)
  {
    var at: seq<nat> :| ExecutedAt(log, doc, steps, at);
    assert ExecutedAt(more, doc, steps, at);
  }

  lemma RecordsNext(log: seq<(nat, string)>, doc: nat, steps: seq<string>, step: string)
    requires ExecutedInOrder(log, doc, steps)
    ensures ExecutedInOrder(log + [(doc, step)], doc, steps + [step])
  {
    var at: seq<nat> :| ExecutedAt(log, doc, steps, at);
    assert ExecutedAt(log + [(doc, step)], doc, steps + [step], at + [|log|]);
  }

  predicate IsDead(s: State, doc: nat) {
    exists i :: 0 <= i < |s.dead| && s.dead[i].doc == doc
  }

  // The document is safe without the messages up to "id".
  ghost predicate SafeAfter(s: State, doc: nat, id: int) {
    || doc in s.finished
    || IsDead(s, doc)
    || exists k :: k in s.tokens && k > id && s.tokens[k].doc == doc
  }

  ghost predicate PhaseOk(s: State, h: Handler) {
    h.phase.Waiting? ||
    (&& TokenOk(s, h.phase.token) && h.phase.id < s.nextId && h.phase.token.step == h.step
     && (h.phase.id in s.tokens ==> s.tokens[h.phase.id].doc == h.phase.token.doc)
     && (h.phase.Executed? ==>
         ExecutedInOrder(s.executed, h.phase.token.doc, h.phase.token.done + [h.phase.token.step]))
     && (h.phase.Passed? || h.phase.Deleted? ==> SafeAfter(s, h.phase.token.doc, h.phase.id))
     && (h.phase.Buried? ==> IsDead(s, h.phase.token.doc)))
  }

  // What was executed for a finished document is the way to a last step.
  predicate FinishOk(steps: seq<string>, done: seq<string>) {
    && done != []
    && Walked(steps, done[..|done| - 1], done[|done| - 1])
    && GetNextStep(steps, done[|done| - 1]).Last?
  }

  ghost predicate FinishedOk(s: State, doc: nat)
    requires doc in s.finished
  {
    && doc < |s.submitted| && FinishOk(s.submitted[doc], s.finished[doc])
    && ExecutedInOrder(s.executed, doc, s.finished[doc])
  }

  ghost predicate TokensOk(s: State) {
    && (forall id :: id in s.tokens ==> TokenOk(s, s.tokens[id]) && id < s.nextId)
    && (forall i :: 0 <= i < |s.dead| ==> TokenOk(s, s.dead[i]) && s.dead[i].received > MAX_RECEIVES)
    && (forall doc :: doc in s.finished ==> FinishedOk(s, doc))
  }

  ghost predicate Conserved(s: State) {
    forall doc :: 0 <= doc < |s.submitted| ==> SafeAfter(s, doc, -1)
  }

  ghost predicate HandlersOk(s: State) {
    forall w :: w in s.handlers ==> PhaseOk(s, s.handlers[w])
  }

  ghost predicate Inv(s: State) {
    TokensOk(s) && Conserved(s) && HandlersOk(s)
  }

  // A later state keeps what is safe, and the documents and history so far.
  ghost predicate Safer(s: State, t: State) {
    && s.submitted <= t.submitted && s.nextId <= t.nextId && s.executed <= t.executed
    && (forall id :: id in t.tokens && id < s.nextId ==> id in s.tokens && t.tokens[id].doc == s.tokens[id].doc)
    && forall doc, id :: SafeAfter(s, doc, id) ==> SafeAfter(t, doc, id)
  }

  lemma DeadStays(s: State, t: State, doc: nat)
    requires s.dead <= t.dead && IsDead(s, doc)
    ensures IsDead(t, doc)
  {
    var i :| 0 <= i < |s.dead| && s.dead[i].doc == doc;
    assert t.dead[i] == s.dead[i];
  }

  // Nothing was removed.
  lemma MoreIsSafer(s: State, t: State)
    requires s.submitted <= t.submitted && s.nextId <= t.nextId && s.dead <= t.dead
             && s.finished.Keys <= t.finished.Keys
    requires s.executed <= t.executed
    requires forall id :: id in s.tokens ==> id in t.tokens && t.tokens[id].doc == s.tokens[id].doc
    requires forall id :: id in t.tokens && id < s.nextId ==> id in s.tokens
    ensures Safer(s, t)
  {
    forall doc, id | SafeAfter(s, doc, id) ensures SafeAfter(t, doc, id) {
      if IsDead(s, doc) { DeadStays(s, t, doc); }
      if k :| k in s.tokens && k > id && s.tokens[k].doc == doc { assert k in t.tokens; }
    }
  }

  // Removing a message is safe when its document is safe without it.
  lemma RemoveIsSafer(s: State, id: nat, token: Token, fault: Fault)
    requires id in s.tokens ==> SafeAfter(s, s.tokens[id].doc, id)
    ensures Safer(s, Remove(s, id, token, fault))
  {
    var t := Remove(s, id, token, fault);
    forall doc, k: int | SafeAfter(s, doc, k) ensures SafeAfter(t, doc, k) {
      if doc !in s.finished && !IsDead(s, doc) {
        var m :| m in s.tokens && m > k && s.tokens[m].doc == doc;
        if m !in t.tokens {
          var n :| n in s.tokens && n > id && s.tokens[n].doc == doc;
          assert n in t.tokens;
        }
      }
    }
  }

  lemma TokenStays(s: State, t: State, token: Token)
    requires TokenOk(s, token) && s.submitted <= t.submitted && s.executed <= t.executed
    ensures TokenOk(t, token)
  {
    RecordGrows(s.executed, t.executed, token.doc, token.done);
  }

  lemma PhaseStays(s: State, t: State, h: Handler)
    requires PhaseOk(s, h) && Safer(s, t) && s.dead <= t.dead
    ensures PhaseOk(t, h)
  {
    if !h.phase.Waiting? {
      var token := h.phase.token;
      TokenStays(s, t, token);
      if h.phase.Executed? { RecordGrows(s.executed, t.executed, token.doc, token.done + [token.step]); }
      if h.phase.Buried? { DeadStays(s, t, token.doc); }
      hide ExecutedInOrder, Walked;
    }
  }

  // Messages, dead letters and finished documents are old ones, or fine.
  lemma TokensStay(s: State, t: State)
    requires TokensOk(s) && s.submitted <= t.submitted && s.nextId <= t.nextId && s.executed <= t.executed
    requires forall id :: id in t.tokens && !Kept(s, id, t.tokens[id]) ==> TokenOk(t, t.tokens[id]) && id < t.nextId
    requires forall i :: 0 <= i < |t.dead| && !(i < |s.dead| && s.dead[i] == t.dead[i]) ==>
               TokenOk(t, t.dead[i]) && t.dead[i].received > MAX_RECEIVES
    requires forall doc :: doc in t.finished && !(doc in s.finished && s.finished[doc] == t.finished[doc]) ==>
               FinishedOk(t, doc)
    ensures TokensOk(t)
  {
    forall id | id in t.tokens ensures TokenOk(t, t.tokens[id]) && id < t.nextId {
      if Kept(s, id, t.tokens[id]) { TokenStays(s, t, s.tokens[id]); }
    }
    forall i | 0 <= i < |t.dead| ensures TokenOk(t, t.dead[i]) && t.dead[i].received > MAX_RECEIVES {
      if i < |s.dead| && s.dead[i] == t.dead[i] { TokenStays(s, t, s.dead[i]); }
    }
    forall doc | doc in t.finished ensures FinishedOk(t, doc) {
      if doc in s.finished && s.finished[doc] == t.finished[doc] {
        assert FinishedOk(s, doc);
        RecordGrows(s.executed, t.executed, doc, s.finished[doc]);
      }
    }
  }

  // This message was there before, perhaps received less often.
  predicate Kept(s: State, id: nat, token: Token) {
    id in s.tokens && s.tokens[id].(received := token.received) == token
  }

  lemma StillConserved(s: State, t: State)
    requires Conserved(s) && Safer(s, t) && s.submitted == t.submitted
    ensures Conserved(t)
  {
  }

  // The storage changes and no handler moves.
  lemma StorageKeeps(s: State, t: State)
    requires Inv(s) && Safer(s, t) && s.dead <= t.dead && s.submitted == t.submitted && s.handlers == t.handlers
    requires TokensOk(t)
    ensures Inv(t)
  {
    StillConserved(s, t);
    forall w | w in t.handlers ensures PhaseOk(t, t.handlers[w]) {
      assert PhaseOk(s, s.handlers[w]);
      PhaseStays(s, t, s.handlers[w]);
    }
  }

  // One handler moves and nothing else changes.
  lemma GoKeeps(s: State, w: nat, phase: Phase)
    requires Inv(s) && w in s.handlers && PhaseOk(s, s.handlers[w].(phase := phase))
    ensures Inv(Go(s, w, phase))
  {
    var t := Go(s, w, phase);
    MoreIsSafer(s, t);
    hide TokenOk, FinishedOk;
    TokensStay(s, t);
    StillConserved(s, t);
    forall v | v in t.handlers ensures PhaseOk(t, t.handlers[v]) {
      if v != w { assert PhaseOk(s, s.handlers[v]); }
      PhaseStays(s, t, t.handlers[v]);
    }
  }

  lemma RemoveKeeps(s: State, id: nat, token: Token, fault: Fault)
    requires Inv(s) && (id in s.tokens ==> SafeAfter(s, s.tokens[id].doc, id))
    ensures Inv(Remove(s, id, token, fault)) && Safer(s, Remove(s, id, token, fault))
  {
    RemoveIsSafer(s, id, token, fault);
    hide TokenOk, FinishedOk, Safer, SafeAfter;
    TokensStay(s, Remove(s, id, token, fault));
    StorageKeeps(s, Remove(s, id, token, fault));
  }

  // ---- every event keeps it --------------------------------------------------

  lemma SubmitKeeps(s: State, steps: seq<string>)
    requires Inv(s) && steps != []
    ensures Inv(Next(s, Submit(steps)))
  {
    var t := Next(s, Submit(steps));
    FirstIsOk(t, t.tokens[s.nextId]);
    hide TokenOk, FinishedOk, PhaseOk;
    MoreIsSafer(s, t);
    TokensStay(s, t);
    assert SafeAfter(t, |s.submitted|, -1);
    PhasesStay(s, t);
    hide Safer, TokensOk, SafeAfter;
  }

  lemma PhasesStay(s: State, t: State)
    requires HandlersOk(s) && t.handlers == s.handlers && Safer(s, t) && s.dead <= t.dead
    ensures HandlersOk(t)
  {
    hide PhaseOk, Safer;
    forall w | w in t.handlers ensures PhaseOk(t, t.handlers[w]) {
      assert PhaseOk(s, s.handlers[w]);
      PhaseStays(s, t, s.handlers[w]);
    }
  }

  lemma FirstIsOk(s: State, t: Token)
    requires t.doc < |s.submitted| && t.steps == s.submitted[t.doc] && t.steps != [] && t.done == []
             && t.step == t.steps[0]
    ensures TokenOk(s, t)
  {
    var at: seq<nat> := [];
    assert ExecutedAt(s.executed, t.doc, [], at);
  }

  lemma ReceiveKeeps(s: State, w: nat, id: nat)
    requires Inv(s) && Enabled(s, Receive(w, id))
    ensures Inv(DoReceive(s, w, id))
  {
    hide Inv, TokenOk, PhaseOk, Go, DoReceive;
    CountKeeps(s, id);
    var token := s.tokens[id].(received := s.tokens[id].received + 1);
    var t := s.(tokens := s.tokens[id := token]);
    WorkingOk(t, id, token, t.handlers[w]);
    GoKeeps(t, w, Working(id, token));
    ReceiveIs(s, w, id);
  }

  lemma ReceiveIs(s: State, w: nat, id: nat)
    requires w in s.handlers && id in s.tokens
    ensures var token := s.tokens[id].(received := s.tokens[id].received + 1);
            DoReceive(s, w, id) == Go(s.(tokens := s.tokens[id := token]), w, Working(id, token))
  {
  }

  lemma WorkingOk(s: State, id: nat, token: Token, h: Handler)
    requires TokenOk(s, token) && id in s.tokens && s.tokens[id] == token && id < s.nextId && token.step == h.step
    ensures PhaseOk(s, h.(phase := Working(id, token)))
  {
    hide TokenOk;
  }

  lemma CountKeeps(s: State, id: nat)
    requires Inv(s) && id in s.tokens
    ensures var token := s.tokens[id].(received := s.tokens[id].received + 1);
            var t := s.(tokens := s.tokens[id := token]);
            Inv(t) && TokenOk(t, token) && id < s.nextId
  {
    var token := s.tokens[id].(received := s.tokens[id].received + 1);
    var t := s.(tokens := s.tokens[id := token]);
    TokenStays(s, t, s.tokens[id]);
    assert TokenOk(t, token);
    hide TokenOk, FinishedOk;
    MoreIsSafer(s, t);
    hide Safer;
    TokensStay(s, t);
    StorageKeeps(s, t);
  }

  lemma ExecuteKeeps(s: State, w: nat, ok: bool)
    requires Inv(s) && Enabled(s, Execute(w, ok))
    ensures Inv(DoExecute(s, w, ok))
  {
    var p := s.handlers[w].phase;
    assert PhaseOk(s, s.handlers[w]);
    if ok {
      var t := s.(executed := s.executed + [(p.token.doc, p.token.step)]);
      RecordsNext(s.executed, p.token.doc, p.token.done, p.token.step);
      TokenStays(s, t, p.token);
      hide TokenOk, FinishedOk, ExecutedInOrder;
      MoreIsSafer(s, t);
      TokensStay(s, t);
      StorageKeeps(s, t);
      GoKeeps(t, w, Executed(p.id, p.token));
    } else {
      GoKeeps(s, w, Failing(p.id, p.token));
    }
  }

  lemma PassKeeps(s: State, w: nat, fault: Fault)
    requires Inv(s) && Enabled(s, Pass(w, fault))
    ensures Inv(DoPass(s, w, fault))
  {
    assert PhaseOk(s, s.handlers[w]);
    var token := s.handlers[w].phase.token;
    assert (token.done + [token.step])[..|token.done|] == token.done;
    match GetNextStep(token.steps, token.step)
    case Unknown => assert false;
    case Last => LastPassKeeps(s, w);
    case Then(next) => PassOnKeeps(s, w, fault, next);
  }

  lemma LastPassKeeps(s: State, w: nat)
    requires Inv(s) && Enabled(s, Pass(w, NoFault))
    requires var token := s.handlers[w].phase.token;
             FinishOk(token.steps, token.done + [token.step]) && GetNextStep(token.steps, token.step).Last?
    ensures Inv(DoPass(s, w, NoFault))
  {
    var p := s.handlers[w].phase;
    var done := p.token.done + [p.token.step];
    var t := s.(finished := s.finished[p.token.doc := done]);
    assert PhaseOk(s, s.handlers[w]);
    hide Inv, TokenOk, FinishOk, ExecutedInOrder, Safer, SafeAfter, GetNextStep;
    FinishKeeps(s, p.token, done);
    LastPassOk(s, w, done);
    hide PhaseOk;
    GoKeeps(t, w, Passed(p.id, p.token));
  }

  lemma LastPassOk(s: State, w: nat, done: seq<string>)
    requires w in s.handlers && s.handlers[w].phase.Executed? && PhaseOk(s, s.handlers[w])
    ensures var p := s.handlers[w].phase;
            PhaseOk(s.(finished := s.finished[p.token.doc := done]), s.handlers[w].(phase := Passed(p.id, p.token)))
  {
    var p := s.handlers[w].phase;
    TokenStays(s, s.(finished := s.finished[p.token.doc := done]), p.token);
    hide TokenOk, ExecutedInOrder;
  }

  lemma FinishKeeps(s: State, token: Token, done: seq<string>)
    requires Inv(s) && TokenOk(s, token) && FinishOk(token.steps, done) && ExecutedInOrder(s.executed, token.doc, done)
    ensures Inv(s.(finished := s.finished[token.doc := done]))
  {
    var t := s.(finished := s.finished[token.doc := done]);
    assert FinishedOk(t, token.doc);
    MoreIsSafer(s, t);
    hide TokenOk, FinishedOk, Safer;
    TokensStay(s, t);
    StorageKeeps(s, t);
  }

  lemma PassOnKeeps(s: State, w: nat, fault: Fault, next: string)
    requires Inv(s) && Enabled(s, Pass(w, fault))
    requires var token := s.handlers[w].phase.token;
             Walked(token.steps, token.done + [token.step], next) && GetNextStep(token.steps, token.step) == Then(next)
    ensures Inv(DoPass(s, w, fault))
  {
    var p := s.handlers[w].phase;
    assert PhaseOk(s, s.handlers[w]);
    var sent := Token(p.token.doc, p.token.steps, next, p.token.done + [p.token.step], 0);
    assert TokenOk(s, sent);
    if fault.FailsBefore? {
      GoKeeps(s, w, Failing(p.id, p.token));
    } else {
      var t := Enqueued(s, sent);
      var phase := if fault.NoFault? then Passed(p.id, p.token) else Failing(p.id, p.token);
      assert DoPass(s, w, fault) == Go(t, w, phase);
      hide Walked, GetNextStep, Inv, ExecutedInOrder, DoPass, Go;
      SendKeeps(s, sent);
      SentOk(s, p.id, p.token, sent, t, s.handlers[w]);
      hide TokenOk, PhaseOk;
      GoKeeps(t, w, phase);
    }
  }

  lemma SentOk(s: State, id: nat, token: Token, sent: Token, t: State, h: Handler)
    requires TokenOk(s, token) && id < s.nextId && token.step == h.step && t == Enqueued(s, sent)
             && sent.doc == token.doc
    requires id in s.tokens ==> s.tokens[id].doc == token.doc
    ensures PhaseOk(t, h.(phase := Passed(id, token))) && PhaseOk(t, h.(phase := Failing(id, token)))
  {
    TokenStays(s, t, token);
    hide TokenOk;
    assert t.tokens[s.nextId].doc == token.doc;
    assert SafeAfter(t, token.doc, id);
  }

  lemma SendKeeps(s: State, token: Token)
    requires Inv(s) && TokenOk(s, token)
    ensures Inv(Enqueued(s, token))
  {
    var t := Enqueued(s, token);
    TokenStays(s, t, token);
    MoreIsSafer(s, t);
    hide TokenOk, FinishedOk, Safer;
    TokensStay(s, t);
    StorageKeeps(s, t);
  }

  lemma RemoveLeavesHandlers(s: State, id: nat, token: Token, fault: Fault)
    ensures Remove(s, id, token, fault).handlers == s.handlers
  {
  }

  lemma DeleteKeeps(s: State, w: nat, fault: Fault)
    requires Inv(s) && Enabled(s, Delete(w, fault))
    ensures Inv(DoDelete(s, w, fault))
  {
    var p := s.handlers[w].phase;
    assert PhaseOk(s, s.handlers[w]);
    RemoveKeeps(s, p.id, p.token, fault);
    var t := Remove(s, p.id, p.token, fault);
    RemoveLeavesHandlers(s, p.id, p.token, fault);
    assert PhaseOk(t, t.handlers[w]);
    hide Safer, TokenOk, Inv, Remove, SafeAfter, ExecutedInOrder, IsDead;
    GoKeeps(t, w, if RemoveSucceeds(s, p.id, p.token, fault) then Deleted(p.id, p.token) else Failing(p.id, p.token));
  }

  lemma ReportKeeps(s: State, w: nat, ok: bool)
    requires Inv(s) && Enabled(s, Report(w, ok))
    ensures Inv(DoReport(s, w, ok))
  {
    var p := s.handlers[w].phase;
    assert PhaseOk(s, s.handlers[w]);
    GoKeeps(s, w, if ok then Waiting else Failing(p.id, p.token));
  }

  lemma RecoverKeeps(s: State, w: nat, fault: Fault)
    requires Inv(s) && Enabled(s, Recover(w, fault))
    ensures Inv(DoRecover(s, w, fault))
  {
    var p := s.handlers[w].phase;
    assert PhaseOk(s, s.handlers[w]);
    if p.token.received > MAX_RECEIVES {
      var t := if fault.FailsBefore? then s else s.(dead := s.dead + [p.token]);
      TokenStays(s, t, p.token);
      hide TokenOk, FinishedOk;
      MoreIsSafer(s, t);
      TokensStay(s, t);
      StorageKeeps(s, t);
      if fault.NoFault? { assert t.dead[|s.dead|] == p.token; }
      GoKeeps(t, w, if fault.NoFault? then Buried(p.id, p.token) else Waiting);
    } else {
      GoKeeps(s, w, Waiting);
    }
  }

  lemma BuryKeeps(s: State, w: nat, fault: Fault)
    requires Inv(s) && Enabled(s, Bury(w, fault))
    ensures Inv(DoBury(s, w, fault))
  {
    var p := s.handlers[w].phase;
    assert PhaseOk(s, s.handlers[w]);
    RemoveKeeps(s, p.id, p.token, fault);
    GoKeeps(Remove(s, p.id, p.token, fault), w, Waiting);
  }

  lemma CrashKeeps(s: State, w: nat)
    requires Inv(s) && w in s.handlers
    ensures Inv(Go(s, w, Waiting))
  {
    GoKeeps(s, w, Waiting);
  }

  lemma NextKeeps(s: State, e: Event)
    requires Inv(s) && Enabled(s, e)
    ensures Inv(Next(s, e))
  {
    hide Inv;
    match e
    case Submit(steps) => SubmitKeeps(s, steps);
    case Receive(w, id) => ReceiveKeeps(s, w, id);
    case Execute(w, ok) => ExecuteKeeps(s, w, ok);
    case Pass(w, fault) => PassKeeps(s, w, fault);
    case Delete(w, fault) => DeleteKeeps(s, w, fault);
    case Report(w, ok) => ReportKeeps(s, w, ok);
    case Recover(w, fault) => RecoverKeeps(s, w, fault);
    case Bury(w, fault) => BuryKeeps(s, w, fault);
    case Crash(w) => CrashKeeps(s, w);
  }

  lemma {:induction false} RunKeeps(s0: State, events: seq<Event>)
    requires Initial(s0)
    ensures After(s0, events).Some? ==> Inv(After(s0, events).value)
    decreases |events|
  {
    if events != [] {
      RunKeeps(s0, events[..|events| - 1]);
      match After(s0, events[..|events| - 1])
      case None =>
      case Some(s) => if Enabled(s, events[|events| - 1]) { NextKeeps(s, events[|events| - 1]); }
    }
  }

  ghost predicate Reachable(s: State) {
    exists s0, events :: Initial(s0) && After(s0, events) == Some(s)
  }

  lemma ReachableInv(s: State)
    requires Reachable(s)
    ensures Inv(s)
  {
    var s0, events :| Initial(s0) && After(s0, events) == Some(s);
    RunKeeps(s0, events);
  }

  // ---- the theorems ------------------------------------------------------------

  // Whatever fails and wherever a handler dies, every submitted document has a
  // message in some step's queue or dead-letter queue, or has finished.
  lemma PipelineConserves(s: State, doc: nat)
    requires Reachable(s) && doc < |s.submitted|
    ensures || doc in s.finished
            || (exists i :: 0 <= i < |s.dead| && s.dead[i].doc == doc)
            || (exists id :: id in s.tokens && s.tokens[id].doc == doc)
  {
    ReachableInv(s);
    assert SafeAfter(s, doc, -1);
  }

  // Only a successful execution is recorded, for the document and the step of
  // the handler that did it.
  lemma OnlyExecutionRecords(s: State, e: Event)
    requires Enabled(s, e)
    ensures Next(s, e).executed
         == if e.Execute? && e.ok
            then s.executed + [(s.handlers[e.w].phase.token.doc, s.handlers[e.w].phase.token.step)] else s.executed
  {
  }

  // A message came to its queue only after every step on its way was executed
  // for its document, one after the other; with distinct steps that way is
  // exactly the steps before this one. The same for a document that finished.
  lemma StepsInOrder(s: State)
    requires Reachable(s)
    ensures forall id :: id in s.tokens ==>
              var t := s.tokens[id];
              && (exists at: seq<nat> :: ExecutedAt(s.executed, t.doc, t.done, at))
              && (Distinct(t.steps) ==>
                  |t.done| < |t.steps| && t.done == t.steps[..|t.done|] && t.step == t.steps[|t.done|])
    ensures forall doc :: doc in s.finished ==>
              && doc < |s.submitted|
              && (exists at: seq<nat> :: ExecutedAt(s.executed, doc, s.finished[doc], at))
              && (Distinct(s.submitted[doc]) ==> s.finished[doc] == s.submitted[doc])
  {
    ReachableInv(s);
    forall id | id in s.tokens
      ensures var t := s.tokens[id];
              && (exists at: seq<nat> :: ExecutedAt(s.executed, t.doc, t.done, at))
              && (Distinct(t.steps) ==>
                  |t.done| < |t.steps| && t.done == t.steps[..|t.done|] && t.step == t.steps[|t.done|])
    {
      assert TokenOk(s, s.tokens[id]);
      if Distinct(s.tokens[id].steps) { WalkedInOrder(s.tokens[id].steps, s.tokens[id].done, s.tokens[id].step); }
    }
    forall doc | doc in s.finished
      ensures doc < |s.submitted| && exists at: seq<nat> :: ExecutedAt(s.executed, doc, s.finished[doc], at)
      ensures Distinct(s.submitted[doc]) ==> s.finished[doc] == s.submitted[doc]
    {
      if Distinct(s.submitted[doc]) { FinishedAll(s.submitted[doc], s.finished[doc]); }
    }
  }

  lemma FinishedAll(steps: seq<string>, done: seq<string>)
    requires Distinct(steps) && FinishOk(steps, done)
    ensures done == steps
  {
    var n := |done| - 1;
    WalkedInOrder(steps, done[..n], done[n]);
    DistinctIndex(steps, n);
    assert done == done[..n] + [done[n]];
  }

  // Passing on uses up exactly one of the remaining steps.
  lemma HopsDescend(s: State, w: nat, fault: Fault)
    requires Reachable(s) && Enabled(s, Pass(w, fault)) && Distinct(s.handlers[w].phase.token.steps)
    ensures var t := s.handlers[w].phase.token; var after := Next(s, Pass(w, fault));
            s.nextId in after.tokens && s.nextId !in s.tokens ==>
              after.tokens[s.nextId].steps == t.steps && |after.tokens[s.nextId].done| == |t.done| + 1 < |t.steps|
  {
    ReachableInv(s);
    NextKeeps(s, Pass(w, fault));
    var after := Next(s, Pass(w, fault));
    if s.nextId in after.tokens {
      var t := after.tokens[s.nextId];
      assert TokenOk(after, t);
      if Distinct(t.steps) { WalkedInOrder(t.steps, t.done, t.step); }
    }
  }

  // Dead letters have been received more than five times.
  lemma DeadLettersAreLate(s: State, i: nat)
    requires Reachable(s) && i < |s.dead|
    ensures s.dead[i].received > MAX_RECEIVES && s.dead[i].doc < |s.submitted|
  {
    ReachableInv(s);
  }
}
