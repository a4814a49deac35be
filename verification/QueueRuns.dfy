// Runs whose events all pass a guard, and concrete runs given as scripts.
module QueueRuns {
  import opened Wrappers
  import opened QueueProtocol

  // Whether an event may happen in a state.
  type Guard = (State, Event) -> bool

  ghost predicate RunOf(cfg: Config, ok: Guard, s0: State, events: seq<Event>)
    decreases |events|
  {
    events == []
    || (var n := |events| - 1;
        && RunOf(cfg, ok, s0, events[..n])
        && After(cfg, s0, events[..n]).Some?
        && Enabled(cfg, After(cfg, s0, events[..n]).value, events[n])
        && ok(After(cfg, s0, events[..n]).value, events[n]))
  }

  lemma OneMore(cfg: Config, ok: Guard, s0: State, events: seq<Event>, s: State, e: Event)
    requires After(cfg, s0, events) == Some(s) && RunOf(cfg, ok, s0, events)
    requires Enabled(cfg, s, e) && ok(s, e)
    ensures After(cfg, s0, events + [e]) == Some(Next(cfg, s, e)) && RunOf(cfg, ok, s0, events + [e])
  {
    var more := events + [e];
    assert more[..|more| - 1] == events;
  }

  // The run of a script, when each event is enabled and allowed in turn.
  ghost predicate Follows(cfg: Config, ok: Guard, s: State, script: seq<Event>, end: State)
    decreases |script|
  {
    if script == [] then s == end
    else
      && Enabled(cfg, s, script[0]) && ok(s, script[0])
      && Follows(cfg, ok, Next(cfg, s, script[0]), script[1..], end)
  }

  lemma {:induction false} ScriptRuns(cfg: Config, ok: Guard, s0: State, events: seq<Event>, s: State,
                                      script: seq<Event>, end: State)
    requires After(cfg, s0, events) == Some(s) && RunOf(cfg, ok, s0, events) && Follows(cfg, ok, s, script, end)
    ensures After(cfg, s0, events + script) == Some(end) && RunOf(cfg, ok, s0, events + script)
    decreases |script|
  {
    hide Next, Enabled, RunOf, After;
    if script == [] {
      assert events + script == events;
    } else {
      OneMore(cfg, ok, s0, events, s, script[0]);
      ScriptRuns(cfg, ok, s0, events + [script[0]], Next(cfg, s, script[0]), script[1..], end);
      assert events + [script[0]] + script[1..] == events + script;
    }
  }

  lemma ScriptEnds(cfg: Config, ok: Guard, s0: State, script: seq<Event>, end: State)
    requires Follows(cfg, ok, s0, script, end)
    ensures After(cfg, s0, script) == Some(end) && RunOf(cfg, ok, s0, script)
  {
    assert After(cfg, s0, []) == Some(s0) && RunOf(cfg, ok, s0, []);
    hide *;
    ScriptRuns(cfg, ok, s0, [], s0, script, end);
    assert [] + script == script;
  }

  lemma Then(cfg: Config, ok: Guard, s: State, e: Event, rest: seq<Event>, end: State)
    requires Enabled(cfg, s, e) && ok(s, e) && Follows(cfg, ok, Next(cfg, s, e), rest, end)
    ensures Follows(cfg, ok, s, [e] + rest, end)
  {
    assert ([e] + rest)[1..] == rest;
  }
}
