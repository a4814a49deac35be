// HandlerHostManager: one process per pipeline handler, and a loop that
// restarts the dead ones. The loop removes from and appends to the list it is
// iterating over, so a pass can skip an entry.
module HandlerSupervision {

  // What a handler runs: its name, target function and arguments.
  datatype Job = Job(name: string, target: nat, args: nat)

  datatype Handler = Handler(job: Job, process: nat)

  // The list, and the number of processes created so far.
  datatype Pool = Pool(handlers: seq<Handler>, created: nat)

  predicate Distinct(handlers: seq<Handler>) {
    forall i, j :: 0 <= i < j < |handlers| ==> handlers[i].process != handlers[j].process
  }

  predicate Ok(p: Pool) {
    Distinct(p.handlers) && forall i :: 0 <= i < |p.handlers| ==> p.handlers[i].process < p.created
  }

  function JobList(handlers: seq<Handler>): seq<Job> {
    seq(|handlers|, i requires 0 <= i < |handlers| => handlers[i].job)
  }

  function Jobs(handlers: seq<Handler>): multiset<Job> { multiset(JobList(handlers)) }

  predicate Runs(p: Pool, process: nat) {
    exists i :: 0 <= i < |p.handlers| && p.handlers[i].process == process
  }

  // Looking at the entry at index i, when the processes in "dead" have ended.
  function Visit(p: Pool, i: nat, dead: set<nat>): (q: Pool)
    requires i < |p.handlers|
    ensures |q.handlers| == |p.handlers|
  {
    var h := p.handlers[i];
    if h.process in dead then
      Pool(p.handlers[..i] + p.handlers[i + 1..] + [Handler(h.job, p.created)], p.created + 1)
    else p
  }

  // A pass from index i on: visit k finds the processes in deads[k] ended.
  function Visits(p: Pool, i: nat, deads: seq<set<nat>>): (q: Pool)
    requires i <= |p.handlers| == |deads|
    ensures |q.handlers| == |p.handlers|
    decreases |deads| - i
  {
    if i == |deads| then p else Visits(Visit(p, i, deads[i]), i + 1, deads)
  }

  function Pass(p: Pool, deads: seq<set<nat>>): Pool
    requires |p.handlers| == |deads|
  {
    Visits(p, 0, deads)
  }

  function Passes(p: Pool, rounds: seq<seq<set<nat>>>): (q: Pool)
    requires forall k :: 0 <= k < |rounds| ==> |rounds[k]| == |p.handlers|
    ensures |q.handlers| == |p.handlers|
    decreases |rounds|
  {
    if rounds == [] then p else Passes(Pass(p, rounds[0]), rounds[1..])
  }

  class HandlerHostManager {
    var handlers: seq<Handler>
    var created: nat

    constructor ()
      ensures handlers == [] && created == 0
    {
      handlers, created := [], 0;
    }

    function State(): Pool
      reads this
    {
      Pool(handlers, created)
    }

    // add_handlers_as_process
    method AddHandlersAsProcess(job: Job)
      requires Ok(State())
      modifies this
      ensures Ok(State()) && handlers == old(handlers) + [Handler(job, old(created))] && created == old(created) + 1
    {
      handlers, created := handlers + [Handler(job, created)], created + 1;
    }

    // _restart_handler
    method RestartHandler(job: Job) returns (process: nat)
      modifies this`created
      ensures process == old(created) && created == old(created) + 1
    {
      process := created;
      created := created + 1;
    }

    // list.remove: the first entry equal to the given one
    method Remove(h: Handler)
      requires h in handlers
      modifies this`handlers
      ensures exists i :: 0 <= i < |old(handlers)| && old(handlers)[i] == h && h !in old(handlers)[..i]
                && handlers == old(handlers)[..i] + old(handlers)[i + 1..]
    {
      var i := 0;
      while handlers[i] != h
        invariant 0 <= i < |handlers| && h !in handlers[..i] && h in handlers[i..]
        decreases |handlers| - i
      {
        assert handlers[i..] == [handlers[i]] + handlers[i + 1..];
        i := i + 1;
      }
      handlers := handlers[..i] + handlers[i + 1..];
    }

    // One pass of the supervision loop. Iterating over a list that changes
    // means counting an index up to its length at each step.
    method SupervisePass(deads: seq<set<nat>>) returns (visits: nat)
      requires Ok(State()) && |deads| == |handlers|
      modifies this
      ensures State() == Pass(old(State()), deads) && visits == |deads|
    {
      var i := 0;
      while i < |handlers|
        invariant 0 <= i <= |handlers| == |deads| && Ok(State())
        invariant Visits(State(), i, deads) == Pass(old(State()), deads)
        decreases |deads| - i
      {
        ghost var before := State();
        var h := handlers[i];
        if h.process in deads[i] {
          Remove(h);
          RemovesAt(before, i, handlers);
          var process := RestartHandler(h.job);
          handlers := handlers + [Handler(h.job, process)];
        }
        assert State() == Visit(before, i, deads[i]);
        VisitKeeps(before, i, deads[i]);
        i := i + 1;
      }
      visits := i;
    }

    // The supervision loop of start_handler_processes, cut off after some passes.
    method StartHandlerProcesses(rounds: seq<seq<set<nat>>>)
      requires Ok(State()) && forall k :: 0 <= k < |rounds| ==> |rounds[k]| == |handlers|
      modifies this
      ensures Ok(State()) && State() == Passes(old(State()), rounds)
    {
      for k := 0 to |rounds|
        invariant Ok(State()) && |handlers| == old(|handlers|)
        invariant Passes(State(), rounds[k..]) == Passes(old(State()), rounds)
      {
        VisitsKeep(State(), 0, rounds[k]);
        assert rounds[k..][0] == rounds[k] && rounds[k..][1..] == rounds[k + 1..];
        var _ := SupervisePass(rounds[k]);
      }
    }
  }

  // Processes differ, so the entry removed is the one being visited.
  lemma RemovesAt(p: Pool, i: nat, after: seq<Handler>)
    requires Ok(p) && i < |p.handlers|
    requires exists j :: 0 <= j < |p.handlers| && p.handlers[j] == p.handlers[i] && p.handlers[i] !in p.handlers[..j]
               && after == p.handlers[..j] + p.handlers[j + 1..]
    ensures after == p.handlers[..i] + p.handlers[i + 1..]
  {
  }

  // ---- what a pass keeps -------------------------------------------------------

  lemma MovedLast(p: Pool, i: nat, added: Handler)
    requires i < |p.handlers| && added.job == p.handlers[i].job
    ensures Jobs(p.handlers[..i] + p.handlers[i + 1..] + [added]) == Jobs(p.handlers)
  {
    var jobs := JobList(p.handlers);
    assert jobs == jobs[..i] + [jobs[i]] + jobs[i + 1..];
    assert JobList(p.handlers[..i] + p.handlers[i + 1..] + [added]) == jobs[..i] + jobs[i + 1..] + [jobs[i]];
  }

  lemma VisitKeeps(p: Pool, i: nat, dead: set<nat>)
    requires Ok(p) && i < |p.handlers|
    ensures Ok(Visit(p, i, dead)) && Jobs(Visit(p, i, dead).handlers) == Jobs(p.handlers)
  {
    MovedLast(p, i, Handler(p.handlers[i].job, p.created));
    hide Jobs;
  }

  // Every pass keeps the jobs, however many handlers it restarts, and never
  // lets two entries share a process.
  lemma {:induction false} VisitsKeep(p: Pool, i: nat, deads: seq<set<nat>>)
    requires Ok(p) && i <= |p.handlers| == |deads|
    ensures Ok(Visits(p, i, deads)) && Jobs(Visits(p, i, deads).handlers) == Jobs(p.handlers)
    decreases |deads| - i
  {
    if i < |deads| {
      VisitKeeps(p, i, deads[i]);
      VisitsKeep(Visit(p, i, deads[i]), i + 1, deads);
    }
  }

  // A process that never dies is never replaced.
  lemma {:induction false} LiveIsKept(p: Pool, i: nat, deads: seq<set<nat>>, process: nat)
    requires Ok(p) && i <= |p.handlers| == |deads| && Runs(p, process)
    requires forall k :: 0 <= k < |deads| ==> process !in deads[k]
    ensures Runs(Visits(p, i, deads), process)
    decreases |deads| - i
  {
    if i < |deads| {
      VisitKeeps(p, i, deads[i]);
      var j :| 0 <= j < |p.handlers| && p.handlers[j].process == process;
      var q := Visit(p, i, deads[i]);
      assert q.handlers[if q != p && j > i then j - 1 else j].process == process;
      LiveIsKept(q, i + 1, deads, process);
    }
  }

  // ---- bounded wait --------------------------------------------------------------

  predicate At(p: Pool, process: nat, position: nat) {
    position < |p.handlers| && p.handlers[position].process == process
  }

  lemma {:induction false} GoneStaysGone(p: Pool, i: nat, deads: seq<set<nat>>, process: nat)
    requires Ok(p) && i <= |p.handlers| == |deads| && !Runs(p, process) && process < p.created
    ensures !Runs(Visits(p, i, deads), process) && process < Visits(p, i, deads).created
    decreases |deads| - i
  {
    if i < |deads| {
      VisitKeeps(p, i, deads[i]);
      var q := Visit(p, i, deads[i]);
      forall j | 0 <= j < |q.handlers| ensures q.handlers[j].process != process {
        if q != p && j < |q.handlers| - 1 { assert q.handlers[j] == p.handlers[if j < i then j else j + 1]; }
      }
      GoneStaysGone(q, i + 1, deads, process);
    }
  }

  // Once passed, an entry keeps its place for the rest of the pass.
  lemma {:induction false} PassedOver(p: Pool, i: nat, deads: seq<set<nat>>, process: nat, position: nat)
    requires Ok(p) && i <= |p.handlers| == |deads| && At(p, process, position) && position < i
    ensures At(Visits(p, i, deads), process, position)
    decreases |deads| - i
  {
    if i < |deads| {
      VisitKeeps(p, i, deads[i]);
      PassedOver(Visit(p, i, deads[i]), i + 1, deads, process, position);
    }
  }

  // A dead entry ahead of the loop is restarted in this pass, or skipped; then
  // something before it was removed and it ends strictly nearer the front.
  lemma {:induction false} RestartedOrCloser(p: Pool, i: nat, deads: seq<set<nat>>, process: nat, position: nat)
    requires Ok(p) && i <= |p.handlers| == |deads| && At(p, process, position) && i <= position
    requires forall k :: i <= k < |deads| ==> process in deads[k]
    ensures var q := Visits(p, i, deads);
            !Runs(q, process) || exists nearer: nat :: nearer < position && At(q, process, nearer)
    decreases |deads| - i
  {
    VisitKeeps(p, i, deads[i]);
    var q := Visit(p, i, deads[i]);
    if i == position {
      forall j | 0 <= j < |q.handlers| ensures q.handlers[j].process != process {
        if j < |q.handlers| - 1 { assert q.handlers[j] == p.handlers[if j < i then j else j + 1]; }
      }
      GoneStaysGone(q, i + 1, deads, process);
    } else if p.handlers[i].process !in deads[i] {
      RestartedOrCloser(q, i + 1, deads, process, position);
    } else {
      assert At(q, process, position - 1);
      if i + 1 <= position - 1 {
        RestartedOrCloser(q, i + 1, deads, process, position - 1);
      } else {
        PassedOver(q, i + 1, deads, process, position - 1);
      }
    }
  }

  // A handler that is dead at position p is restarted within p + 1 passes,
  // whatever the other handlers do.
  lemma {:induction false} BoundedWait(p: Pool, rounds: seq<seq<set<nat>>>, process: nat, position: nat)
    requires Ok(p) && At(p, process, position) && position < |rounds|
    requires forall k :: 0 <= k < |rounds| ==> |rounds[k]| == |p.handlers|
    requires forall k, i :: 0 <= k < |rounds| && 0 <= i < |rounds[k]| ==> process in rounds[k][i]
    ensures var q := Passes(p, rounds);
            Ok(q) && !Runs(q, process) && Jobs(q.handlers) == Jobs(p.handlers)
    decreases |rounds|
  {
    var q := Pass(p, rounds[0]);
    VisitsKeep(p, 0, rounds[0]);
    RestartedOrCloser(p, 0, rounds[0], process, position);
    CreatedGrows(p, 0, rounds[0]);
    if Runs(q, process) {
      var nearer: nat :| nearer < position && At(q, process, nearer);
      BoundedWait(q, rounds[1..], process, nearer);
    } else {
      NeverBack(q, rounds[1..], process);
    }
  }

  lemma {:induction false} CreatedGrows(p: Pool, i: nat, deads: seq<set<nat>>)
    requires i <= |p.handlers| == |deads|
    ensures Visits(p, i, deads).created >= p.created
    decreases |deads| - i
  {
    if i < |deads| { CreatedGrows(Visit(p, i, deads[i]), i + 1, deads); }
  }

  lemma {:induction false} NeverBack(p: Pool, rounds: seq<seq<set<nat>>>, process: nat)
    requires Ok(p) && !Runs(p, process) && process < p.created
    requires forall k :: 0 <= k < |rounds| ==> |rounds[k]| == |p.handlers|
    ensures var q := Passes(p, rounds);
            Ok(q) && !Runs(q, process) && Jobs(q.handlers) == Jobs(p.handlers)
    decreases |rounds|
  {
    if rounds != [] {
      VisitsKeep(p, 0, rounds[0]);
      GoneStaysGone(p, 0, rounds[0], process);
      NeverBack(Pass(p, rounds[0]), rounds[1..], process);
    }
  }

  // ---- the bound is reached --------------------------------------------------------

  // The entry at this position and the one before it have died.
  function Both(p: Pool, position: nat): set<nat>
    requires 0 < position < |p.handlers|
  {
    {p.handlers[position].process, p.handlers[position - 1].process}
  }

  lemma {:induction false} NothingDead(p: Pool, i: nat, dead: set<nat>, until: nat, deads: seq<set<nat>>)
    requires i <= until <= |p.handlers| == |deads|
    requires forall k :: i <= k < until ==> deads[k] == dead && p.handlers[k].process !in dead
    ensures Visits(p, i, deads) == Visits(p, until, deads)
    decreases until - i
  {
    if i < until { NothingDead(p, i + 1, dead, until, deads); }
  }

  // When the entry before it dies too, a dead entry is skipped and moves up by
  // just one place; everything before the two stays as it was.
  lemma SkippedOnce(p: Pool, position: nat, dead: set<nat>) returns (deads: seq<set<nat>>)
    requires Ok(p) && 0 < position < |p.handlers| && Both(p, position) <= dead
    requires forall i :: 0 <= i < position - 1 ==> p.handlers[i].process !in dead
    ensures |deads| == |p.handlers| && forall i :: 0 <= i < |deads| ==> deads[i] == dead
    ensures var q := Pass(p, deads);
            && Ok(q) && At(q, p.handlers[position].process, position - 1)
            && forall i :: 0 <= i < position - 1 ==> q.handlers[i] == p.handlers[i]
  {
    deads := seq(|p.handlers|, _ => dead);
    NothingDead(p, 0, dead, position - 1, deads);
    VisitsKeep(p, 0, deads);
    VisitKeeps(p, position - 1, dead);
    var q := Visit(p, position - 1, dead);
    assert At(q, p.handlers[position].process, position - 1);
    forall i | 0 <= i < position
      ensures i < position - 1 ==> Visits(q, position, deads).handlers[i] == p.handlers[i]
      ensures At(Visits(q, position, deads), q.handlers[i].process, i)
    {
      PassedOver(q, position, deads, q.handlers[i].process, i);
      StaysPut(q, position, deads, i);
    }
  }

  lemma {:induction false} StaysPut(p: Pool, i: nat, deads: seq<set<nat>>, k: nat)
    requires k < i <= |p.handlers| == |deads|
    ensures Visits(p, i, deads).handlers[k] == p.handlers[k]
    decreases |deads| - i
  {
    if i < |deads| { StaysPut(Visit(p, i, deads[i]), i + 1, deads, k); }
  }

  // Some run of deaths makes a dead handler at position p wait for all of
  // p passes. Processes only ever die in it: no later set is smaller.
  lemma {:induction false} SlowestWait(p: Pool, position: nat, gone: set<nat>) returns (rounds: seq<seq<set<nat>>>)
    requires Ok(p) && position < |p.handlers| && p.handlers[position].process in gone
    requires forall i :: 0 <= i < position ==> p.handlers[i].process !in gone
    ensures |rounds| == position
    ensures forall k :: 0 <= k < |rounds| ==> |rounds[k]| == |p.handlers|
    ensures forall k, i :: 0 <= k < |rounds| && 0 <= i < |rounds[k]| ==>
              rounds[k][i] == rounds[k][0] && gone <= rounds[k][0]
    ensures forall k :: 0 < k < |rounds| ==> rounds[k - 1][0] <= rounds[k][0]
    ensures Ok(Passes(p, rounds)) && At(Passes(p, rounds), p.handlers[position].process, 0)
    decreases position
  {
    if position == 0 {
      rounds := [];
    } else {
      var dead := gone + {p.handlers[position - 1].process};
      var deads := SkippedOnce(p, position, dead);
      var q := Pass(p, deads);
      var rest := SlowestWait(q, position - 1, dead);
      rounds := [deads] + rest;
      assert rounds[1..] == rest;
    }
  }
}
