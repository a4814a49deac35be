// ClaimProcessor.run: the event loop that turns the workflow's event stream
// into status writes, and the outcome the claim queue acts on.
module ClaimWorkflow {
  import opened Wrappers
  import QueueProtocol
  import ClaimAttempt

  datatype Event =
    | Invoked(executor: string)
    | Finished(executor: string)              // executor_completed
    | Output
    | ExecutorFailed(executor: string)
    | WorkflowFailed(named: Option<string>)    // "failed", with its details
    | OtherEvent                              // "started" and anything else

  // How the stream ends after its last event.
  datatype Ending = Exhausted | Raises | Cancels

  datatype Status = DocumentProcessing | RaiAnalysis | Summarizing | GapAnalysis | Completed | Failed

  // WorkflowFailure is WorkflowExecutorFailedException; Cancelled is
  // CancelledError; Error is any other exception.
  datatype Outcome = Returned | WorkflowFailure(executor: string) | Error | Cancelled

  // A use of the claim repository: it is resolved from the container, and
  // then a status may be written; either can raise.
  datatype Use = GoesThrough | Unresolved | WriteRaises

  // The claim repository during one run: what its uses do, counting from 0,
  // and whether the comment write and the closing update fail.
  datatype Repository = Repository(uses: nat -> Use, commentFails: bool, closingFails: bool)

  function StatusOf(executor: string): Option<Status> {
    if executor == "document_processing" then Some(DocumentProcessing)
    else if executor == "summarizing" then Some(Summarizing)
    else if executor == "gap_analysis" then Some(GapAnalysis)
    else if executor == "rai_analysis" then Some(RaiAnalysis)
    else None
  }

  function OrElse(x: Option<string>, y: Option<string>): Option<string> {
    if x.Some? then x else y
  }

  function Named(x: Option<string>): string {
    match x case Some(name) => name case None => "<unknown>"
  }

  // The locals of run(), the status writes it has issued and how often it has
  // used the repository.
  datatype Progress = Progress(writes: seq<Status>, uses: nat, lastFailed: Option<string>, lastInvoked: Option<string>)

  const Start := Progress([], 0, None, None)

  // One use for a status: without the repository nothing is issued.
  function Issue(repo: Repository, p: Progress, status: Status): Progress {
    p.(writes := if repo.uses(p.uses).Unresolved? then p.writes else p.writes + [status], uses := p.uses + 1)
  }

  predicate UseFails(repo: Repository, p: Progress) { !repo.uses(p.uses).GoesThrough? }

  // One event: the progress after it, and the outcome if it ends the loop.
  function Step(repo: Repository, p: Progress, e: Event): (Progress, Option<Outcome>) {
    match e
    case Output =>
      (Issue(repo, p, Completed), Some(if UseFails(repo, p) then Error else Returned))
    case ExecutorFailed(x) => (p.(lastFailed := Some(x)), None)
    case WorkflowFailed(x) =>
      (Issue(repo, p, Failed),
       Some(if UseFails(repo, p) || repo.commentFails then Error
            else WorkflowFailure(Named(OrElse(x, OrElse(p.lastFailed, p.lastInvoked))))))
    case Invoked(x) =>
      var p' := p.(lastInvoked := Some(x));
      (match StatusOf(x)
       case None => (p'.(uses := p.uses + 1), if repo.uses(p.uses).Unresolved? then Some(Error) else None)
       case Some(status) => (Issue(repo, p', status), if UseFails(repo, p) then Some(Error) else None))
    case Finished(_) => (p, None)
    case OtherEvent => (p, None)
  }

  function AtEnd(ending: Ending): Outcome {
    match ending
    case Exhausted => Error                   // WorkflowOutputMissingException
    case Raises => Error
    case Cancels => Cancelled
  }

  // The loop from progress p on.
  function Loop(repo: Repository, p: Progress, stream: seq<Event>, ending: Ending): (Progress, Outcome)
    decreases |stream|
  {
    if stream == [] then (p, AtEnd(ending))
    else
      var (p', end) := Step(repo, p, stream[0]);
      if end.Some? then (p', end.value) else Loop(repo, p', stream[1..], ending)
  }

  // An exception of the closing update replaces whatever run() was doing.
  function Closed(repo: Repository, outcome: Outcome): Outcome {
    if repo.closingFails then Error else outcome
  }

  // ---- outcomes, by positions of the stream ------------------------------------------

  // How many executors were invoked before position i.
  function Invokes(stream: seq<Event>, i: nat): nat
    requires i <= |stream|
  {
    if i == 0 then 0 else Invokes(stream, i - 1) + if stream[i - 1].Invoked? then 1 else 0
  }

  // The last executor that failed, or that was invoked, before position i.
  function LastFailed(stream: seq<Event>, i: nat): Option<string>
    requires i <= |stream|
  {
    if i == 0 then None
    else if stream[i - 1].ExecutorFailed? then Some(stream[i - 1].executor)
    else LastFailed(stream, i - 1)
  }

  function LastInvoked(stream: seq<Event>, i: nat): Option<string>
    requires i <= |stream|
  {
    if i == 0 then None
    else if stream[i - 1].Invoked? then Some(stream[i - 1].executor)
    else LastInvoked(stream, i - 1)
  }

  // The executor named in a failure at position i.
  function Blamed(stream: seq<Event>, i: nat): string
    requires i < |stream| && stream[i].WorkflowFailed?
  {
    if stream[i].named.Some? then stream[i].named.value
    else if LastFailed(stream, i).Some? then LastFailed(stream, i).value
    else if LastInvoked(stream, i).Some? then LastInvoked(stream, i).value
    else "<unknown>"
  }

  // The run gets to position i: no output and no failure before it, and no
  // executor invoked before it for which the repository fails. An executor
  // without a status only has the repository resolved.
  predicate Reaches(repo: Repository, stream: seq<Event>, i: nat) {
    && i <= |stream|
    && (forall j :: 0 <= j < i ==> !stream[j].Output? && !stream[j].WorkflowFailed?)
    && forall j :: 0 <= j < i && stream[j].Invoked? ==>
         var use := repo.uses(Invokes(stream, j));
         use.GoesThrough? || (use.WriteRaises? && StatusOf(stream[j].executor).None?)
  }

  // An output is reached, and COMPLETED goes through.
  predicate SucceedsAt(repo: Repository, stream: seq<Event>, i: nat) {
    && i < |stream| && Reaches(repo, stream, i) && stream[i].Output?
    && repo.uses(Invokes(stream, i)).GoesThrough?
  }

  // A failure is reached, and FAILED and the comment go through.
  predicate ReportsAt(repo: Repository, stream: seq<Event>, i: nat) {
    && i < |stream| && Reaches(repo, stream, i) && stream[i].WorkflowFailed?
    && repo.uses(Invokes(stream, i)).GoesThrough? && !repo.commentFails
  }

  predicate Succeeds(repo: Repository, stream: seq<Event>) {
    exists i :: 0 <= i < |stream| && SucceedsAt(repo, stream, i)
  }

  predicate Reports(repo: Repository, stream: seq<Event>) {
    exists i :: 0 <= i < |stream| && ReportsAt(repo, stream, i)
  }

  // Every outcome, exactly; whatever is none of the first three is an Error.
  predicate OutcomeIs(repo: Repository, stream: seq<Event>, ending: Ending, outcome: Outcome) {
    && (outcome.Returned? <==> Succeeds(repo, stream) && !repo.closingFails)
    && (outcome.WorkflowFailure? <==> Reports(repo, stream) && !repo.closingFails)
    && (outcome.WorkflowFailure? ==>
          forall i :: 0 <= i < |stream| && ReportsAt(repo, stream, i) ==> outcome.executor == Blamed(stream, i))
    && (outcome.Cancelled? <==> Reaches(repo, stream, |stream|) && ending.Cancels? && !repo.closingFails)
  }

  // The progress at a position the run gets to.
  function ProgressTo(repo: Repository, stream: seq<Event>, i: nat): Progress
    requires i <= |stream|
  {
    if i == 0 then Start else Step(repo, ProgressTo(repo, stream, i - 1), stream[i - 1]).0
  }

  lemma {:induction false} ReachedProgress(repo: Repository, stream: seq<Event>, ending: Ending, i: nat)
    requires Reaches(repo, stream, i)
    ensures var p := ProgressTo(repo, stream, i);
            && Loop(repo, Start, stream, ending) == Loop(repo, p, stream[i..], ending)
            && p.uses == Invokes(stream, i)
            && p.lastFailed == LastFailed(stream, i) && p.lastInvoked == LastInvoked(stream, i)
    decreases i
  {
    if i > 0 {
      ReachedProgress(repo, stream, ending, i - 1);
      assert stream[i - 1..][0] == stream[i - 1] && stream[i - 1..][1..] == stream[i..];
    } else {
      assert stream[0..] == stream;
    }
  }

  // Where the run stops: at its first event that it does not get past.
  lemma {:induction false} RunStops(repo: Repository, stream: seq<Event>, i: nat) returns (k: nat)
    requires Reaches(repo, stream, i)
    ensures i <= k && Reaches(repo, stream, k) && (k < |stream| ==> !Reaches(repo, stream, k + 1))
    decreases |stream| - i
  {
    if i < |stream| && Reaches(repo, stream, i + 1) { k := RunStops(repo, stream, i + 1); } else { k := i; }
  }

  lemma ReachesLess(repo: Repository, stream: seq<Event>, i: nat, j: nat)
    requires i <= j && Reaches(repo, stream, j)
    ensures Reaches(repo, stream, i)
  {
  }

  // What a run that stops there comes to.
  lemma StoppedOutcome(repo: Repository, stream: seq<Event>, ending: Ending, k: nat)
    requires Reaches(repo, stream, k) && (k < |stream| ==> !Reaches(repo, stream, k + 1))
    ensures var outcome := Loop(repo, Start, stream, ending).1;
            && (outcome.Returned? <==> SucceedsAt(repo, stream, k))
            && (outcome.WorkflowFailure? <==> ReportsAt(repo, stream, k))
            && (outcome.WorkflowFailure? ==> outcome.executor == Blamed(stream, k))
            && (outcome.Cancelled? <==> k == |stream| && ending.Cancels?)
  {
    ReachedProgress(repo, stream, ending, k);
    if k < |stream| {
      assert stream[k..][0] == stream[k];
    }
  }

  lemma OutcomeExactly(repo: Repository, stream: seq<Event>, ending: Ending)
    ensures OutcomeIs(repo, stream, ending, Closed(repo, Loop(repo, Start, stream, ending).1))
  {
    var k := RunStops(repo, stream, 0);
    StoppedOutcome(repo, stream, ending, k);
    forall i | 0 <= i < |stream| && (SucceedsAt(repo, stream, i) || ReportsAt(repo, stream, i)) ensures i == k {
      if i > k { ReachesLess(repo, stream, k + 1, i); }
    }
    if k < |stream| && Reaches(repo, stream, |stream|) { ReachesLess(repo, stream, k + 1, |stream|); }
    hide Reaches, Loop, Blamed, Invokes;
  }

  class ClaimProcessor {
    // the status writes issued for the claim
    var writes: seq<Status>

    constructor ()
      ensures writes == []
    {
      writes := [];
    }

    // get_service and Update_Claim_Process_Status; false stands for an exception
    method UpdateStatus(repo: Repository, ghost p: Progress, uses: nat, status: Status) returns (ok: bool)
      requires writes == p.writes && uses == p.uses
      modifies this
      ensures writes == Issue(repo, p, status).writes && ok == !UseFails(repo, p)
    {
      if repo.uses(uses).Unresolved? { return false; }
      writes := writes + [status];
      ok := repo.uses(uses).GoesThrough?;
    }

    // run
    method Run(repo: Repository, stream: seq<Event>, ending: Ending) returns (outcome: Outcome)
      requires writes == []
      modifies this
      ensures writes == Loop(repo, Start, stream, ending).0.writes
      ensures outcome == Closed(repo, Loop(repo, Start, stream, ending).1)
      ensures OutcomeIs(repo, stream, ending, outcome)
    {
      OutcomeExactly(repo, stream, ending);
      outcome := HandleStream(repo, stream, ending);
      if repo.closingFails { outcome := Error; }
    }

    // The try block of run.
    method HandleStream(repo: Repository, stream: seq<Event>, ending: Ending) returns (outcome: Outcome)
      requires writes == []
      modifies this
      ensures (writes, outcome) == (Loop(repo, Start, stream, ending).0.writes, Loop(repo, Start, stream, ending).1)
    {
      var lastFailed: Option<string>, lastInvoked: Option<string> := None, None;
      var uses: nat := 0;
      ghost var p := Start;
      for i := 0 to |stream|
        invariant p == Progress(writes, uses, lastFailed, lastInvoked)
        invariant Loop(repo, p, stream[i..], ending) == Loop(repo, Start, stream, ending)
      {
        assert stream[i..][0] == stream[i] && stream[i..][1..] == stream[i + 1..];
        ghost var (p', end) := Step(repo, p, stream[i]);
        match stream[i] {
          case Output =>
            var ok := UpdateStatus(repo, p, uses, Completed);
            return if ok then Returned else Error;
          case ExecutorFailed(x) =>
            lastFailed := Some(x);
          case WorkflowFailed(x) =>
            var ok := UpdateStatus(repo, p, uses, Failed);
            if !ok || repo.commentFails { return Error; }
            return WorkflowFailure(Named(OrElse(x, OrElse(lastFailed, lastInvoked))));
          case Invoked(x) =>
            lastInvoked := Some(x);
            var status := StatusOf(x);
            if status.Some? {
              var ok := UpdateStatus(repo, p, uses, status.value);
              if !ok { return Error; }
            } else if repo.uses(uses).Unresolved? {
              return Error;
            }
            uses := uses + 1;
          case Finished(_) =>
          case OtherEvent =>
        }
        p := p';
      }
      outcome := AtEnd(ending);
    }
  }

  // ---- the workflow graph --------------------------------------------------------

  // The one path through the graph of _init_workflow, for a fixed RAI flag.
  function Path(rai: bool): seq<string>
  {
    if rai then ["document_processing", "rai_analysis", "summarizing", "gap_analysis"]
    else ["document_processing", "summarizing", "gap_analysis"]
  }

  // The statuses a claim goes through, and the first k of them.
  function PathStatuses(rai: bool): (s: seq<Status>)
    ensures |s| == |Path(rai)|
  {
    if rai then [DocumentProcessing, RaiAnalysis, Summarizing, GapAnalysis]
    else [DocumentProcessing, Summarizing, GapAnalysis]
  }

  function Statuses(rai: bool, k: nat): seq<Status>
    requires k <= |Path(rai)|
  {
    PathStatuses(rai)[..k]
  }

  // Where the graph is: executors invoked so far, whether the last one is
  // still working, and whether it failed.
  datatype Place = Place(invoked: nat, working: bool, failed: bool)

  // The events the graph can emit there: each executor of the path in turn,
  // the output from the last one, a failure of the one that is working.
  predicate Emits(rai: bool, g: Place, e: Event) {
    match e
    case OtherEvent => true
    case Invoked(x) => !g.failed && !g.working && g.invoked < |Path(rai)| && x == Path(rai)[g.invoked]
    case Finished(x) => !g.failed && g.working && 0 < g.invoked <= |Path(rai)| && x == Path(rai)[g.invoked - 1]
    case Output => !g.failed && g.working && g.invoked == |Path(rai)|
    case ExecutorFailed(x) => !g.failed && g.working && 0 < g.invoked <= |Path(rai)| && x == Path(rai)[g.invoked - 1]
    case WorkflowFailed(x) => g.failed
  }

  function Moved(g: Place, e: Event): Place {
    match e
    case Invoked(_) => Place(g.invoked + 1, true, false)
    case Finished(_) => g.(working := false)
    case ExecutorFailed(_) => g.(failed := true)
    case _ => g
  }

  predicate FromGraph(rai: bool, g: Place, stream: seq<Event>)
    decreases |stream|
  {
    stream == [] || (Emits(rai, g, stream[0]) && FromGraph(rai, Moved(g, stream[0]), stream[1..]))
  }

  const Begin := Place(0, false, false)

  // What was written so far matches where the graph is.
  predicate Tracks(rai: bool, g: Place, p: Progress) {
    && g.invoked <= |Path(rai)|
    && p.writes == Statuses(rai, g.invoked)
    && (g.working || g.failed ==> g.invoked > 0 && p.lastInvoked == Some(Path(rai)[g.invoked - 1]))
    && (g.failed ==> p.lastFailed == Some(Path(rai)[g.invoked - 1]))
  }

  // The writes of a whole run: a prefix of the path, perhaps closed by a
  // final status that fits the outcome.
  predicate Closes(rai: bool, writes: seq<Status>, outcome: Outcome) {
    || (exists k: nat :: 0 <= k <= |Path(rai)| && writes == Statuses(rai, k) && (outcome.Error? || outcome.Cancelled?))
    || (writes == Statuses(rai, |Path(rai)|) + [Completed] && (outcome.Returned? || outcome.Error?))
    || (exists k: nat :: 0 < k <= |Path(rai)| && writes == Statuses(rai, k) + [Failed]
                    && (outcome.WorkflowFailure? || outcome.Error?))
  }

  lemma StepTracks(repo: Repository, rai: bool, g: Place, p: Progress, e: Event)
    requires Tracks(rai, g, p) && Emits(rai, g, e)
    ensures e.WorkflowFailed? && e.named.None? && Step(repo, p, e).1.value.WorkflowFailure? ==>
              Step(repo, p, e).1.value.executor == Path(rai)[g.invoked - 1]
    ensures Step(repo, p, e).1.None? ==> Tracks(rai, Moved(g, e), Step(repo, p, e).0)
    ensures Step(repo, p, e).1.Some? ==> Closes(rai, Step(repo, p, e).0.writes, Step(repo, p, e).1.value)
  {
    if e.Invoked? {
      var k := g.invoked;
      assert StatusOf(Path(rai)[k]) == Some(PathStatuses(rai)[k]);
      assert Statuses(rai, k) + [PathStatuses(rai)[k]] == Statuses(rai, k + 1);
    }
  }

  lemma {:induction false} LoopCloses(repo: Repository, rai: bool, g: Place, p: Progress, stream: seq<Event>,
                                      ending: Ending)
    requires Tracks(rai, g, p) && FromGraph(rai, g, stream)
    ensures var (q, outcome) := Loop(repo, p, stream, ending); Closes(rai, q.writes, outcome)
    decreases |stream|
  {
    if stream == [] {
      assert p.writes == Statuses(rai, g.invoked);
    } else {
      StepTracks(repo, rai, g, p, stream[0]);
      if Step(repo, p, stream[0]).1.None? {
        LoopCloses(repo, rai, Moved(g, stream[0]), Step(repo, p, stream[0]).0, stream[1..], ending);
      }
    }
  }

  // Every stream the graph can produce yields the statuses of a prefix of the
  // path, closed by COMPLETED or FAILED only when the run ends so.
  lemma StatusesFollowThePath(repo: Repository, rai: bool, stream: seq<Event>, ending: Ending)
    requires FromGraph(rai, Begin, stream)
    ensures var (p, outcome) := Loop(repo, Start, stream, ending); Closes(rai, p.writes, outcome)
  {
    LoopCloses(repo, rai, Begin, Start, stream, ending);
  }

  // run() returns only once COMPLETED was written after every status of the
  // path, so the queue deletes no message as a success before that.
  lemma SuccessIsCompleted(repo: Repository, rai: bool, stream: seq<Event>, ending: Ending)
    requires FromGraph(rai, Begin, stream)
    requires Closed(repo, Loop(repo, Start, stream, ending).1).Returned?
    ensures Loop(repo, Start, stream, ending).0.writes == Statuses(rai, |Path(rai)|) + [Completed]
  {
    StatusesFollowThePath(repo, rai, stream, ending);
  }

  // ---- success and failure of the graph's streams -----------------------------------

  function PlaceAt(stream: seq<Event>, i: nat): Place
    requires i <= |stream|
  {
    if i == 0 then Begin else Moved(PlaceAt(stream, i - 1), stream[i - 1])
  }

  lemma {:induction false} GraphAt(rai: bool, stream: seq<Event>, i: nat)
    requires FromGraph(rai, Begin, stream) && i <= |stream|
    ensures FromGraph(rai, PlaceAt(stream, i), stream[i..])
    ensures PlaceAt(stream, i).invoked == Invokes(stream, i) <= |Path(rai)|
    ensures PlaceAt(stream, i).failed <==> exists j :: 0 <= j < i && stream[j].ExecutorFailed?
    ensures forall j :: 0 <= j < i && stream[j].WorkflowFailed? ==> PlaceAt(stream, i).failed
    ensures forall j :: 0 <= j < i && stream[j].Invoked? ==> StatusOf(stream[j].executor).Some?
    decreases i
  {
    if i == 0 {
      assert stream[0..] == stream;
    } else {
      GraphAt(rai, stream, i - 1);
      assert stream[i - 1..][0] == stream[i - 1] && stream[i - 1..][1..] == stream[i..];
      if stream[i - 1].Invoked? {
        assert StatusOf(Path(rai)[PlaceAt(stream, i - 1).invoked]).Some?;
      }
      hide FromGraph, StatusOf, Path;
    }
  }

  // An event of the graph's streams comes from where the graph is.
  lemma EmitsAt(rai: bool, stream: seq<Event>, i: nat)
    requires FromGraph(rai, Begin, stream) && i < |stream|
    ensures Emits(rai, PlaceAt(stream, i), stream[i])
  {
    GraphAt(rai, stream, i);
    assert stream[i..][0] == stream[i];
  }

  // The count of invocations passes every number below its value.
  lemma {:induction false} InvokedAs(stream: seq<Event>, i: nat, k: nat) returns (j: nat)
    requires i <= |stream| && k < Invokes(stream, i)
    ensures j < i && stream[j].Invoked? && Invokes(stream, j) == k
    decreases i
  {
    if stream[i - 1].Invoked? && Invokes(stream, i - 1) == k { j := i - 1; } else { j := InvokedAs(stream, i - 1, k); }
  }

  lemma {:induction false} InvokesGrow(stream: seq<Event>, j: nat, i: nat)
    requires j < i <= |stream| && stream[j].Invoked?
    ensures Invokes(stream, j) < Invokes(stream, i)
    decreases i
  {
    if j < i - 1 { InvokesGrow(stream, j, i - 1); }
  }

  // In a stream of the graph a position before any output or failure is
  // reached exactly when the uses so far go through.
  lemma GraphReaches(repo: Repository, rai: bool, stream: seq<Event>, i: nat)
    requires FromGraph(rai, Begin, stream) && i <= |stream|
    requires forall j :: 0 <= j < i ==> !stream[j].Output? && !stream[j].WorkflowFailed?
    ensures Reaches(repo, stream, i) <==> forall k: nat :: k < Invokes(stream, i) ==> repo.uses(k).GoesThrough?
  {
    GraphAt(rai, stream, i);
    if Reaches(repo, stream, i) {
      forall k: nat | k < Invokes(stream, i) ensures repo.uses(k).GoesThrough? {
        var j := InvokedAs(stream, i, k);
        assert stream[j].Invoked?;
      }
    }
    forall j | 0 <= j < i && stream[j].Invoked? ensures Invokes(stream, j) < Invokes(stream, i) {
      InvokesGrow(stream, j, i);
    }
    hide FromGraph, StatusOf, Invokes, PlaceAt;
  }

  lemma {:induction false} FirstOutput(stream: seq<Event>, i: nat) returns (k: nat)
    requires i < |stream| && stream[i].Output?
    ensures k <= i && stream[k].Output? && forall j :: 0 <= j < k ==> !stream[j].Output?
    decreases i
  {
    k := i;
    if j :| 0 <= j < i && stream[j].Output? { k := FirstOutput(stream, j); }
  }

  // A run over a stream of the graph returns exactly when the stream has an
  // output, the status of every executor on the path and COMPLETED go through,
  // and so does the closing update.
  lemma SuccessExactly(repo: Repository, rai: bool, stream: seq<Event>, ending: Ending)
    requires FromGraph(rai, Begin, stream)
    ensures Closed(repo, Loop(repo, Start, stream, ending).1).Returned? <==>
              && (exists i :: 0 <= i < |stream| && stream[i].Output?)
              && (forall k :: 0 <= k <= (if rai then 4 else 3) ==> repo.uses(k).GoesThrough?)
              && !repo.closingFails
  {
    OutcomeExactly(repo, stream, ending);
    forall i | 0 <= i < |stream| && stream[i].Output? && forall j :: 0 <= j < i ==> !stream[j].Output?
      ensures SucceedsAt(repo, stream, i) <==>
                forall k :: 0 <= k <= (if rai then 4 else 3) ==> repo.uses(k).GoesThrough?
    {
      OutputReached(repo, rai, stream, i);
    }
    if i :| 0 <= i < |stream| && stream[i].Output? {
      var k := FirstOutput(stream, i);
      assert SucceedsAt(repo, stream, k) ==> Succeeds(repo, stream);
    }
    if Succeeds(repo, stream) {
      var i :| 0 <= i < |stream| && SucceedsAt(repo, stream, i);
      assert stream[i].Output? && forall j :: 0 <= j < i ==> !stream[j].Output?;
    }
    hide Loop, FromGraph, Invokes;
  }

  lemma OutputReached(repo: Repository, rai: bool, stream: seq<Event>, i: nat)
    requires FromGraph(rai, Begin, stream) && i < |stream| && stream[i].Output?
    requires forall j :: 0 <= j < i ==> !stream[j].Output?
    ensures SucceedsAt(repo, stream, i) <==> forall k :: 0 <= k <= (if rai then 4 else 3) ==> repo.uses(k).GoesThrough?
  {
    GraphAt(rai, stream, i);
    EmitsAt(rai, stream, i);
    GraphReaches(repo, rai, stream, i);
    assert Invokes(stream, i) == if rai then 4 else 3;
    hide FromGraph, Invokes, PlaceAt, StatusOf;
  }

  // A failure of the workflow leads to the forced dead-letter path exactly when
  // it is reached, and FAILED, the comment and the closing update go through.
  lemma FailureIsForcedExactly(repo: Repository, rai: bool, stream: seq<Event>, ending: Ending, i: nat)
    requires FromGraph(rai, Begin, stream) && i < |stream| && stream[i].WorkflowFailed?
    requires forall j :: 0 <= j < i ==> !stream[j].WorkflowFailed?
    ensures Closed(repo, Loop(repo, Start, stream, ending).1).WorkflowFailure? <==>
              && (forall j :: 0 <= j < i ==> !stream[j].Output?)
              && (forall k: nat :: k <= Invokes(stream, i) ==> repo.uses(k).GoesThrough?)
              && !repo.commentFails && !repo.closingFails
    ensures Closed(repo, Loop(repo, Start, stream, ending).1).WorkflowFailure? ==>
              Closed(repo, Loop(repo, Start, stream, ending).1).executor == Blamed(stream, i)
  {
    OutcomeExactly(repo, stream, ending);
    FailureReached(repo, rai, stream, i);
    if Reports(repo, stream) {
      var j :| 0 <= j < |stream| && ReportsAt(repo, stream, j);
      assert j == i;
    }
    hide Loop, FromGraph, Invokes, Blamed;
  }

  lemma FailureReached(repo: Repository, rai: bool, stream: seq<Event>, i: nat)
    requires FromGraph(rai, Begin, stream) && i < |stream| && stream[i].WorkflowFailed?
    requires forall j :: 0 <= j < i ==> !stream[j].WorkflowFailed?
    ensures ReportsAt(repo, stream, i) <==>
              && (forall j :: 0 <= j < i ==> !stream[j].Output?)
              && (forall k: nat :: k <= Invokes(stream, i) ==> repo.uses(k).GoesThrough?) && !repo.commentFails
  {
    if forall j :: 0 <= j < i ==> !stream[j].Output? { GraphReaches(repo, rai, stream, i); }
    hide FromGraph, Invokes;
  }

  // The status written for an event at which a run can stop, when k executors
  // were invoked before it.
  function StatusAt(rai: bool, e: Event, k: nat): Option<Status> {
    match e
    case Output => Some(Completed)
    case WorkflowFailed(_) => Some(Failed)
    case Invoked(_) => if k < |PathStatuses(rai)| then Some(PathStatuses(rai)[k]) else None
    case _ => None
  }

  lemma {:induction false} ReachedTracks(repo: Repository, rai: bool, stream: seq<Event>, i: nat)
    requires FromGraph(rai, Begin, stream) && Reaches(repo, stream, i)
    ensures Tracks(rai, PlaceAt(stream, i), ProgressTo(repo, stream, i))
    decreases i
  {
    if i > 0 {
      ReachedTracks(repo, rai, stream, i - 1);
      EmitsAt(rai, stream, i - 1);
      StepTracks(repo, rai, PlaceAt(stream, i - 1), ProgressTo(repo, stream, i - 1), stream[i - 1]);
      ReachedProgress(repo, stream, Exhausted, i - 1);
      hide Tracks, FromGraph, Loop, PathStatuses, Path;
    }
  }

  // The writes, exactly: one for each executor invoked before the run stops,
  // in the order of the path, and one for the event it stops at, unless the
  // repository cannot be resolved there.
  lemma WritesExactly(repo: Repository, rai: bool, stream: seq<Event>, ending: Ending, i: nat)
    requires FromGraph(rai, Begin, stream) && Reaches(repo, stream, i)
    requires i < |stream| ==> !Reaches(repo, stream, i + 1)
    ensures var k := Invokes(stream, i);
            && k <= |PathStatuses(rai)|
            && Loop(repo, Start, stream, ending).0.writes
               == PathStatuses(rai)[..k]
                  + if i == |stream| || repo.uses(k).Unresolved? then []
                    else match StatusAt(rai, stream[i], k) case Some(status) => [status] case None => []
  {
    ReachedTracks(repo, rai, stream, i);
    ReachedProgress(repo, stream, ending, i);
    GraphAt(rai, stream, i);
    if i < |stream| {
      EmitsAt(rai, stream, i);
      assert stream[i..][0] == stream[i];
      KnownPath(rai, Invokes(stream, i));
    }
    hide FromGraph, Invokes, PlaceAt, ProgressTo, StatusOf, PathStatuses, Path;
  }

  lemma KnownPath(rai: bool, k: nat)
    ensures k < |Path(rai)| ==> StatusOf(Path(rai)[k]) == Some(PathStatuses(rai)[k])
  {
  }

  // ---- what the queue makes of it --------------------------------------------------

  function QueueOutcome(outcome: Outcome): Option<QueueProtocol.Outcome> {
    match outcome
    case Returned => Some(QueueProtocol.Succeeded)
    case WorkflowFailure(_) => Some(QueueProtocol.Outcome.ExecutorFailed)
    case Error => Some(QueueProtocol.OtherError)
    case Cancelled => None
  }

  // A run that returns has its message deleted in the same attempt, when the
  // queue calls go through.
  lemma SuccessIsDeleted(repo: Repository, stream: seq<Event>, ending: Ending,
                         cfg: QueueProtocol.Config, s: QueueProtocol.State, w: nat, m: QueueProtocol.Received,
                         since: nat, renewals: seq<QueueProtocol.Fault>)
    requires Succeeds(repo, stream) && !repo.closingFails
    requires w in s.workers && s.workers[w].phase == QueueProtocol.Starting(m, since)
    requires QueueProtocol.Matches(s.queue, m.id, m.receipt) && cfg.parse(m.content).Some?
    requires forall k :: 0 <= k < |renewals| ==> renewals[k] == QueueProtocol.NoFault
    ensures var outcome := QueueOutcome(Closed(repo, Loop(repo, Start, stream, ending).1));
            && outcome.Some?
            && (var t := ClaimAttempt.AfterAttempt(cfg, s, w, false, renewals, outcome.value, ClaimAttempt.Reliable);
                t.queue == s.queue - {m.id} && t.dead == s.dead && t.cleaned == s.cleaned && m.id in t.completed)
  {
    OutcomeExactly(repo, stream, ending);
    ClaimAttempt.ReliableAttempt(cfg, s, w, m, since, renewals, QueueProtocol.Succeeded);
    hide *;
  }

  // A reported executor failure becomes a dead letter in the same attempt,
  // whatever the attempt count, when the queue calls go through.
  lemma ReportedFailureIsDeadLettered(repo: Repository, stream: seq<Event>, ending: Ending,
                                      cfg: QueueProtocol.Config, s: QueueProtocol.State, w: nat,
                                      m: QueueProtocol.Received, since: nat, renewals: seq<QueueProtocol.Fault>)
    requires Reports(repo, stream) && !repo.closingFails
    requires w in s.workers && s.workers[w].phase == QueueProtocol.Starting(m, since)
    requires QueueProtocol.Matches(s.queue, m.id, m.receipt) && cfg.parse(m.content).Some?
    requires forall k :: 0 <= k < |renewals| ==> renewals[k] == QueueProtocol.NoFault
    ensures var outcome := QueueOutcome(Closed(repo, Loop(repo, Start, stream, ending).1));
            && outcome.Some?
            && (var t := ClaimAttempt.AfterAttempt(cfg, s, w, false, renewals, outcome.value, ClaimAttempt.Reliable);
                t.queue == s.queue - {m.id}
                && t.dead == s.dead + [QueueProtocol.Letter(m.id, m.content, m.dequeueCount, true)])
  {
    OutcomeExactly(repo, stream, ending);
    ClaimAttempt.ReliableAttempt(cfg, s, w, m, since, renewals, QueueProtocol.Outcome.ExecutorFailed);
    hide *;
  }
}
