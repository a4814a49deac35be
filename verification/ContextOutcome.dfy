// The whole of _trim_messages stated over the list and the configuration
// alone: which messages lead, which are scanned, which of those are kept and
// how, and how many of the kept ones the budget leaves.
module ContextOutcome {
  import opened Wrappers
  import opened ContextMessages
  import opened ContextTrim
  import opened ContextTrimming

  // The first k messages are the leading run of system messages.
  predicate SystemRun(objects: Objects, messages: seq<Message>, cfg: TrimConfig, k: nat)
    requires AllKnown(objects, messages)
  {
    if cfg.keepSystem then
      && k <= |messages|
      && (forall i :: 0 <= i < k ==> Role(objects, messages[i]) == Some("system"))
      && (k < |messages| ==> Role(objects, messages[k]) != Some("system"))
    else k == 0
  }

  // The number of messages that are scanned, counted from the last.
  predicate ScansLast(messages: seq<Message>, cfg: TrimConfig, n: nat) {
    n == if cfg.keepLast > 0 && cfg.keepLast < |messages| then cfg.keepLast else |messages|
  }

  // The same first 200 and the same last 200 characters.
  predicate LookAlike(a: string, b: string) {
    && (if |a| > 200 then a[..200] else a) == (if |b| > 200 then b[..200] else b)
    && (if |a| > 200 then a[|a| - 200..] else a) == (if |b| > 200 then b[|b| - 200..] else b)
  }

  predicate TooLong(text: string, cfg: TrimConfig) { cfg.maxMessage > 0 && |text| > cfg.maxMessage }

  function Shorter(text: string, cfg: TrimConfig): string {
    TruncateText(text, cfg.maxMessage, cfg.keepHead, cfg.keepTail)
  }

  // What the scan reads from message i when the positions p are the kept ones:
  // an object kept before may have been cut in the meantime.
  function TextAt(objects: Objects, window: seq<Message>, cfg: TrimConfig, p: seq<nat>, i: nat): string
    requires AllKnown(objects, window) && i < |window|
  {
    var text := Estimate(objects, window[i]);
    if window[i].ObjectMessage? && Writable(objects, window[i]) && TooLong(text, cfg)
       && (exists j :: 0 <= j < i && j in p && window[j] == window[i])
    then Shorter(text, cfg) else text
  }

  // A dict over the limit is kept as a copy, everything else as it is.
  function KeptAs(m: Message, cfg: TrimConfig): Message {
    match m
    case DictMessage(f) =>
      if TooLong(FieldText(f), cfg) then DictMessage(WithDictText(f, Shorter(FieldText(f), cfg))) else m
    case _ => m
  }

  // Kept objects over the limit are written to.
  function ObjectAfter(objects: Objects, window: seq<Message>, cfg: TrimConfig, p: seq<nat>, id: nat): Fields
    requires id in objects
  {
    var f := objects[id];
    if TooLong(FieldText(f), cfg) && (exists j :: 0 <= j < |window| && j in p && window[j] == ObjectMessage(id))
    then WithObjectText(f, Shorter(FieldText(f), cfg)) else f
  }

  // A position is kept exactly if no text before it looks like its own.
  predicate LooksNew(objects: Objects, window: seq<Message>, cfg: TrimConfig, p: seq<nat>)
    requires AllKnown(objects, window)
  {
    forall i :: 0 <= i < |window| ==>
      (i in p <==> forall j :: 0 <= j < i ==>
                     !LookAlike(TextAt(objects, window, cfg, p, j), TextAt(objects, window, cfg, p, i)))
  }

  // The kept messages are those at these positions, in order.
  ghost predicate Cleans(objects: Objects, window: seq<Message>, cfg: TrimConfig, p: seq<nat>,
                         cleaned: seq<Message>, after: Objects)
    requires AllKnown(objects, window)
  {
    && (forall k, l :: 0 <= k < l < |p| ==> p[k] < p[l])
    && (forall k :: 0 <= k < |p| ==> p[k] < |window|)
    && LooksNew(objects, window, cfg, p)
    && |cleaned| == |p|
    && (forall k :: 0 <= k < |p| ==> cleaned[k] == KeptAs(window[p[k]], cfg))
    && after.Keys == objects.Keys
    && (forall id :: id in objects ==> after[id] == ObjectAfter(objects, window, cfg, p, id))
  }

  // The budget keeps the leading messages and the longest suffix that fits
  // with them; if they alone are too long, the last of them is cut.
  ghost predicate Fits(objects: Objects, system: seq<Message>, cleaned: seq<Message>, cfg: TrimConfig,
                       combined: seq<Message>, after: Objects)
    requires AllKnown(objects, system) && AllKnown(objects, cleaned)
  {
    if cfg.maxTotal <= 0 then combined == system + cleaned && after == objects
    else if Total(objects, system) <= cfg.maxTotal then
      after == objects && exists d: nat :: LongestFitting(objects, system, cleaned, cfg.maxTotal, d)
                                      && combined == system + cleaned[d..]
    else
      var n := |system| - 1;
      && |combined| == n + 1 > 0 && combined[..n] == system[..n]
      && (combined[n], after)
         == AfterSet(objects, system[n],
                     TruncateText(Estimate(objects, system[n]), cfg.maxTotal,
                                  if cfg.keepHead < cfg.maxTotal then cfg.keepHead else cfg.maxTotal,
                                  if cfg.keepTail < cfg.maxTotal then cfg.keepTail else cfg.maxTotal))
  }

  ghost predicate LongestFitting(objects: Objects, system: seq<Message>, cleaned: seq<Message>, budget: int, d: nat)
    requires AllKnown(objects, system) && AllKnown(objects, cleaned)
  {
    && d <= |cleaned|
    && Total(objects, system + cleaned[d..]) <= budget
    && forall e :: 0 <= e < d ==> Total(objects, system + cleaned[e..]) > budget
  }

  // What trimming the messages gives.
  ghost predicate Trims(objects: Objects, messages: seq<Message>, cfg: TrimConfig,
                        combined: seq<Message>, after: Objects)
    requires AllKnown(objects, messages)
  {
    if !cfg.enabled then combined == messages && after == objects
    else
      exists k: nat, n: nat, p: seq<nat>, cleaned: seq<Message>, scanned: Objects ::
        && SystemRun(objects, messages, cfg, k)
        && ScansLast(messages, cfg, n)
        && TrimsAt(objects, messages, cfg, k, n, p, cleaned, scanned, combined, after)
  }

  ghost predicate TrimsAt(objects: Objects, messages: seq<Message>, cfg: TrimConfig, k: nat, n: nat, p: seq<nat>,
                          cleaned: seq<Message>, scanned: Objects, combined: seq<Message>, after: Objects)
    requires AllKnown(objects, messages)
  {
    && k <= |messages| && n <= |messages|
    && Cleans(objects, messages[|messages| - n..], cfg, p, cleaned, scanned)
    && AllKnown(scanned, messages[..k]) && AllKnown(scanned, cleaned)
    && Fits(scanned, messages[..k], cleaned, cfg, combined, after)
  }

  // ---- the leading run and the window --------------------------------------------

  lemma {:induction false} RunFrom(objects: Objects, messages: seq<Message>, i: nat)
    requires AllKnown(objects, messages) && i <= |messages|
    ensures var s := LeadingSystem(objects, messages, i);
            && s == messages[i..i + |s|]
            && (forall j :: i <= j < i + |s| ==> Role(objects, messages[j]) == Some("system"))
            && (i + |s| < |messages| ==> Role(objects, messages[i + |s|]) != Some("system"))
    decreases |messages| - i
  {
    if i < |messages| && Role(objects, messages[i]) == Some("system") { RunFrom(objects, messages, i + 1); }
  }

  lemma SystemIsRun(objects: Objects, messages: seq<Message>, cfg: TrimConfig)
    requires AllKnown(objects, messages)
    ensures var s := SystemOf(objects, messages, cfg);
            SystemRun(objects, messages, cfg, |s|) && |s| <= |messages| && s == messages[..|s|]
  {
    RunFrom(objects, messages, 0);
  }

  lemma WindowIsLast(messages: seq<Message>, cfg: TrimConfig)
    ensures var w := Window(messages, cfg);
            ScansLast(messages, cfg, |w|) && |w| <= |messages| && w == messages[|messages| - |w|..]
  {
  }

  // ---- the scan --------------------------------------------------------------------

  lemma PrintsLookAlike(a: string, b: string)
    ensures FingerprintOf(a) == FingerprintOf(b) <==> LookAlike(a, b)
  {
  }

  lemma InPicks(objects: Objects, window: seq<Message>, cfg: TrimConfig, j: nat)
    requires AllKnown(objects, window) && j < |window|
    ensures j in Picks(objects, window, cfg, |window|) <==> First(objects, window, cfg, j)
  {
  }

  lemma ReadingIs(objects: Objects, window: seq<Message>, cfg: TrimConfig, i: nat)
    requires AllKnown(objects, window) && i < |window|
    ensures Reading(objects, window, cfg, i) == TextAt(objects, window, cfg, Picks(objects, window, cfg, |window|), i)
  {
    ReadingDiffersExactly(objects, window, cfg, i);
    forall j: nat | j < |window|
      ensures j in Picks(objects, window, cfg, |window|) <==> First(objects, window, cfg, j)
    {
      InPicks(objects, window, cfg, j);
    }
    hide Picks, First, Reading, Writable, Estimate, TruncateText;
  }

  lemma PickedIs(objects: Objects, window: seq<Message>, cfg: TrimConfig, i: nat)
    requires AllKnown(objects, window) && i < |window|
    ensures Picked(objects, window, cfg, i) == KeptAs(window[i], cfg)
  {
  }

  // One of the first n messages is this object, kept over the limit.
  predicate Written(objects: Objects, window: seq<Message>, cfg: TrimConfig, id: nat, n: nat)
    requires AllKnown(objects, window) && id in objects && n <= |window|
  {
    && TooLong(FieldText(objects[id]), cfg)
    && exists j :: 0 <= j < n && window[j] == ObjectMessage(id) && First(objects, window, cfg, j)
  }

  function AsWritten(f: Fields, cfg: TrimConfig): Fields { WithObjectText(f, Shorter(FieldText(f), cfg)) }

  lemma {:induction false} ObjectsScanned(objects: Objects, window: seq<Message>, cfg: TrimConfig, id: nat, n: nat)
    requires AllKnown(objects, window) && id in objects && n <= |window|
    ensures Scanned(objects, window, cfg, n).objects[id]
         == if Written(objects, window, cfg, id, n) then AsWritten(objects[id], cfg) else objects[id]
    decreases n
  {
    hide *;
    if n > 0 {
      ObjectsScanned(objects, window, cfg, id, n - 1);
      ObjectStep(objects, window, cfg, id, n - 1);
    } else {
      NoneWritten(objects, window, cfg, id);
    }
  }

  lemma NoneWritten(objects: Objects, window: seq<Message>, cfg: TrimConfig, id: nat)
    requires AllKnown(objects, window) && id in objects
    ensures Scanned(objects, window, cfg, 0).objects[id] == objects[id] && !Written(objects, window, cfg, id, 0)
  {
  }

  lemma ObjectStep(objects: Objects, window: seq<Message>, cfg: TrimConfig, id: nat, i: nat)
    requires AllKnown(objects, window) && id in objects && i < |window|
    requires Scanned(objects, window, cfg, i).objects[id]
          == if Written(objects, window, cfg, id, i) then AsWritten(objects[id], cfg) else objects[id]
    ensures Scanned(objects, window, cfg, i + 1).objects[id]
         == if Written(objects, window, cfg, id, i + 1) then AsWritten(objects[id], cfg) else objects[id]
  {
    hide *;
    WrittenNext(objects, window, cfg, id, i);
    ObjectVisited(objects, window, cfg, id, i);
    if window[i] == ObjectMessage(id) && First(objects, window, cfg, i) && Written(objects, window, cfg, id, i) {
      WrittenOnce(objects, window, cfg, id, i);
    }
  }

  lemma WrittenNext(objects: Objects, window: seq<Message>, cfg: TrimConfig, id: nat, i: nat)
    requires AllKnown(objects, window) && id in objects && i < |window|
    ensures Written(objects, window, cfg, id, i + 1) <==>
              || Written(objects, window, cfg, id, i)
              || (TooLong(FieldText(objects[id]), cfg) && window[i] == ObjectMessage(id)
                  && First(objects, window, cfg, i))
  {
    hide First, TooLong, FieldText;
    if TooLong(FieldText(objects[id]), cfg) && window[i] == ObjectMessage(id) && First(objects, window, cfg, i) {
      assert 0 <= i < i + 1 && window[i] == ObjectMessage(id) && First(objects, window, cfg, i);
    }
  }

  lemma ObjectVisited(objects: Objects, window: seq<Message>, cfg: TrimConfig, id: nat, i: nat)
    requires AllKnown(objects, window) && id in objects && i < |window|
    ensures var f := Scanned(objects, window, cfg, i).objects[id];
            Scanned(objects, window, cfg, i + 1).objects[id]
            == if window[i] == ObjectMessage(id) && First(objects, window, cfg, i) && TooLong(FieldText(f), cfg)
               then AsWritten(f, cfg) else f
  {
    SeenExactly(objects, window, cfg, i);
    ScannedNext(objects, window, cfg, i);
    hide First, Scanned, WithObjectText, FieldText, FingerprintOf, TruncateText;
  }

  // A written object is kept again only if it now reads within the limit.
  lemma WrittenOnce(objects: Objects, window: seq<Message>, cfg: TrimConfig, id: nat, i: nat)
    requires AllKnown(objects, window) && id in objects && i < |window|
    requires window[i] == ObjectMessage(id) && First(objects, window, cfg, i) && Written(objects, window, cfg, id, i)
    ensures !TooLong(FieldText(Scanned(objects, window, cfg, i).objects[id]), cfg)
  {
    var m := ObjectMessage(id);
    assert Known(objects, m);
    var j: nat :| j < i && window[j] == m && First(objects, window, cfg, j);
    assert Print(objects, window, cfg, j) != Print(objects, window, cfg, i);
    TruncationKeepsEnds(Estimate(objects, m), cfg.maxMessage, cfg.keepHead, cfg.keepTail);
    ReadingDiffersExactly(objects, window, cfg, i);
    ReadingDiffersExactly(objects, window, cfg, j);
    hide First, Scanned, TruncateText, FingerprintOf, KeepsEnds, Writable;
  }

  lemma KeptAre(objects: Objects, window: seq<Message>, cfg: TrimConfig)
    requires AllKnown(objects, window)
    ensures var p, kept := Picks(objects, window, cfg, |window|), Scanned(objects, window, cfg, |window|).kept;
            && (forall k, l :: 0 <= k < l < |p| ==> p[k] < p[l])
            && (forall k :: 0 <= k < |p| ==> p[k] < |window|)
            && |kept| == |p|
            && (forall k :: 0 <= k < |p| ==> kept[k] == KeptAs(window[p[k]], cfg))
  {
    ScanIsSelection(objects, window, cfg, |window|);
    forall i: nat | i < |window| ensures Picked(objects, window, cfg, i) == KeptAs(window[i], cfg) {
      PickedIs(objects, window, cfg, i);
    }
    hide Scanned, Picks, Picked, KeptAs, Prints, AllKnown, First;
  }

  lemma ScanCleans(objects: Objects, window: seq<Message>, cfg: TrimConfig)
    requires AllKnown(objects, window)
    ensures var s := Scanned(objects, window, cfg, |window|);
            Cleans(objects, window, cfg, Picks(objects, window, cfg, |window|), s.kept, s.objects)
  {
    var p := Picks(objects, window, cfg, |window|);
    var s := Scanned(objects, window, cfg, |window|);
    KeptAre(objects, window, cfg);
    hide Scanned, Picks, KeptAs, ObjectAfter, LooksNew, First, AllKnown, Written, AsWritten;
    AllLookNew(objects, window, cfg);
    forall id | id in objects ensures s.objects[id] == ObjectAfter(objects, window, cfg, p, id) {
      ObjectsScanned(objects, window, cfg, id, |window|);
      ObjectIs(objects, window, cfg, id);
    }
  }

  lemma AllLookNew(objects: Objects, window: seq<Message>, cfg: TrimConfig)
    requires AllKnown(objects, window)
    ensures LooksNew(objects, window, cfg, Picks(objects, window, cfg, |window|))
  {
    var p := Picks(objects, window, cfg, |window|);
    forall i: nat | i < |window|
      ensures i in p <==> forall j :: 0 <= j < i ==>
                            !LookAlike(TextAt(objects, window, cfg, p, j), TextAt(objects, window, cfg, p, i))
    {
      FirstLooksNew(objects, window, cfg, i);
    }
    hide Picks, TextAt, LookAlike, AllKnown;
  }

  lemma FirstLooksNew(objects: Objects, window: seq<Message>, cfg: TrimConfig, i: nat)
    requires AllKnown(objects, window) && i < |window|
    ensures var p := Picks(objects, window, cfg, |window|);
            i in p <==> forall j :: 0 <= j < i ==>
                          !LookAlike(TextAt(objects, window, cfg, p, j), TextAt(objects, window, cfg, p, i))
  {
    var p := Picks(objects, window, cfg, |window|);
    InPicks(objects, window, cfg, i);
    ReadingIs(objects, window, cfg, i);
    forall j: nat | j < i
      ensures Print(objects, window, cfg, j) == Print(objects, window, cfg, i) <==>
              LookAlike(TextAt(objects, window, cfg, p, j), TextAt(objects, window, cfg, p, i))
    {
      ReadingIs(objects, window, cfg, j);
      PrintsLookAlike(Reading(objects, window, cfg, j), Reading(objects, window, cfg, i));
    }
    hide Picks, Reading, Print, TextAt, LookAlike, FingerprintOf;
  }

  lemma ObjectIs(objects: Objects, window: seq<Message>, cfg: TrimConfig, id: nat)
    requires AllKnown(objects, window) && id in objects
    requires Scanned(objects, window, cfg, |window|).objects[id]
          == if Written(objects, window, cfg, id, |window|) then AsWritten(objects[id], cfg) else objects[id]
    ensures Scanned(objects, window, cfg, |window|).objects[id]
         == ObjectAfter(objects, window, cfg, Picks(objects, window, cfg, |window|), id)
  {
    forall j: nat | j < |window|
      ensures j in Picks(objects, window, cfg, |window|) <==> First(objects, window, cfg, j)
    {
      InPicks(objects, window, cfg, j);
    }
    hide Picks, First, Scanned, FieldText, WithObjectText, Shorter, TooLong;
  }

  // ---- the whole ---------------------------------------------------------------------

  lemma FittedFits(objects: Objects, system: seq<Message>, cleaned: seq<Message>, cfg: TrimConfig)
    requires AllKnown(objects, system) && AllKnown(objects, cleaned) && cfg.maxTotal > 0
    ensures var (r, after) := Fitted(objects, system, cleaned, cfg); Fits(objects, system, cleaned, cfg, r, after)
  {
    if Total(objects, system) <= cfg.maxTotal {
      var d := LongestSuffix(objects, system, cleaned, cfg);
      hide Fitted, Total, AllKnown;
      assert LongestFitting(objects, system, cleaned, cfg.maxTotal, d);
    } else {
      OnlySystemLeft(objects, system, cleaned, cfg);
      LastCutIs(objects, system, cfg);
      hide Fitted, Total, AllKnown, TruncateText, AfterSet, LastCut;
    }
  }

  // Trimming gives what the list and the configuration say.
  lemma TrimmedExactly(objects: Objects, messages: seq<Message>, cfg: TrimConfig)
    requires AllKnown(objects, messages)
    ensures var (combined, after) := Trimmed(objects, messages, cfg); Trims(objects, messages, cfg, combined, after)
  {
    if cfg.enabled {
      var (combined, after) := Trimmed(objects, messages, cfg);
      var system, window := SystemOf(objects, messages, cfg), Window(messages, cfg);
      var s, p := Scanned(objects, window, cfg, |window|), Picks(objects, window, cfg, |window|);
      SystemIsRun(objects, messages, cfg);
      WindowIsLast(messages, cfg);
      ScanCleans(objects, window, cfg);
      SameKeysKnown(objects, s.objects, system);
      if cfg.maxTotal > 0 { FittedFits(s.objects, system, s.kept, cfg); }
      hide SystemRun, ScansLast, Cleans, Fitted, Scanned, SystemOf, Window, Picks;
      assert TrimsAt(objects, messages, cfg, |system|, |window|, p, s.kept, s.objects, combined, after);
    }
  }

  // ---- and nothing else does -----------------------------------------------------------

  predicate Increasing(p: seq<nat>, n: nat) {
    (forall k, l :: 0 <= k < l < |p| ==> p[k] < p[l]) && forall k :: 0 <= k < |p| ==> p[k] < n
  }

  lemma {:induction false} SameIncreasing(p: seq<nat>, q: seq<nat>, n: nat)
    requires Increasing(p, n) && Increasing(q, n)
    requires forall i: nat :: i in p <==> i in q
    ensures p == q
    decreases n
  {
    if n > 0 {
      var a, b := Below(p, n - 1), Below(q, n - 1);
      assert n - 1 in p <==> n - 1 in q;
      SameIncreasing(a, b, n - 1);
    } else {
      NoMoreThan(p, n);
      NoMoreThan(q, n);
    }
  }

  lemma {:induction false} AtLeast(p: seq<nat>, n: nat, k: nat)
    requires Increasing(p, n) && k < |p|
    ensures k <= p[k]
  {
    if k > 0 { AtLeast(p, n, k - 1); }
  }

  lemma NoMoreThan(p: seq<nat>, n: nat)
    requires Increasing(p, n)
    ensures |p| <= n
  {
    if |p| > 0 { AtLeast(p, n, |p| - 1); }
  }

  // The positions below the last possible one.
  function Below(p: seq<nat>, m: nat): (r: seq<nat>)
    requires Increasing(p, m + 1)
    ensures Increasing(r, m) && p == (if m in p then r + [m] else r)
    ensures forall i: nat :: i in r <==> i in p && i != m
  {
    if |p| > 0 && p[|p| - 1] == m then
      assert p == p[..|p| - 1] + [m];
      p[..|p| - 1]
    else p
  }

  lemma {:induction false} SameFirsts(objects: Objects, window: seq<Message>, cfg: TrimConfig, p: seq<nat>, q: seq<nat>,
                                      i: nat)
    requires AllKnown(objects, window) && i <= |window|
    requires LooksNew(objects, window, cfg, p) && LooksNew(objects, window, cfg, q)
    ensures forall j :: 0 <= j < i ==> (j in p <==> j in q)
    decreases i
  {
    if i > 0 {
      SameFirsts(objects, window, cfg, p, q, i - 1);
      forall j: nat | j < i ensures TextAt(objects, window, cfg, p, j) == TextAt(objects, window, cfg, q, j) {
        SameText(objects, window, cfg, p, q, j);
      }
      hide TextAt, LookAlike;
    }
  }

  lemma SameText(objects: Objects, window: seq<Message>, cfg: TrimConfig, p: seq<nat>, q: seq<nat>, i: nat)
    requires AllKnown(objects, window) && i < |window|
    requires forall j :: 0 <= j < i ==> (j in p <==> j in q)
    ensures TextAt(objects, window, cfg, p, i) == TextAt(objects, window, cfg, q, i)
  {
    hide Writable, Estimate, TruncateText;
  }

  lemma CleansOnce(objects: Objects, window: seq<Message>, cfg: TrimConfig, p: seq<nat>, cleaned: seq<Message>,
                   after: Objects, p': seq<nat>, cleaned': seq<Message>, after': Objects)
    requires AllKnown(objects, window)
    requires Cleans(objects, window, cfg, p, cleaned, after) && Cleans(objects, window, cfg, p', cleaned', after')
    ensures p == p' && cleaned == cleaned' && after == after'
  {
    SameFirsts(objects, window, cfg, p, p', |window|);
    assert forall i: nat :: i in p <==> i in p';
    SameIncreasing(p, p', |window|);
    hide LooksNew, KeptAs, ObjectAfter;
  }

  lemma FitsOnce(objects: Objects, system: seq<Message>, cleaned: seq<Message>, cfg: TrimConfig,
                 combined: seq<Message>, after: Objects, combined': seq<Message>, after': Objects)
    requires AllKnown(objects, system) && AllKnown(objects, cleaned)
    requires Fits(objects, system, cleaned, cfg, combined, after)
    requires Fits(objects, system, cleaned, cfg, combined', after')
    ensures combined == combined' && after == after'
  {
    hide Total, TruncateText, AfterSet, Estimate, AllKnown;
    if cfg.maxTotal > 0 && Total(objects, system) > cfg.maxTotal {
      var n := |system| - 1;
      assert combined == combined[..n] + [combined[n]] && combined' == combined'[..n] + [combined'[n]];
    }
  }

  lemma RunOnce(objects: Objects, messages: seq<Message>, cfg: TrimConfig, k: nat, k': nat)
    requires AllKnown(objects, messages)
    requires SystemRun(objects, messages, cfg, k) && SystemRun(objects, messages, cfg, k')
    ensures k == k'
  {
  }

  // The list and the configuration determine the result.
  lemma TrimsOnce(objects: Objects, messages: seq<Message>, cfg: TrimConfig, combined: seq<Message>, after: Objects,
                  combined': seq<Message>, after': Objects)
    requires AllKnown(objects, messages)
    requires Trims(objects, messages, cfg, combined, after) && Trims(objects, messages, cfg, combined', after')
    ensures combined == combined' && after == after'
  {
    hide SystemRun, Cleans, Fits, AllKnown;
    if cfg.enabled {
      var k: nat, n: nat, p: seq<nat>, cleaned: seq<Message>, scanned: Objects :|
        && SystemRun(objects, messages, cfg, k) && ScansLast(messages, cfg, n)
        && TrimsAt(objects, messages, cfg, k, n, p, cleaned, scanned, combined, after);
      var k': nat, n': nat, p': seq<nat>, cleaned': seq<Message>, scanned': Objects :|
        && SystemRun(objects, messages, cfg, k') && ScansLast(messages, cfg, n')
        && TrimsAt(objects, messages, cfg, k', n', p', cleaned', scanned', combined', after');
      RunOnce(objects, messages, cfg, k, k');
      LastAreKnown(objects, messages, |messages| - n);
      CleansOnce(objects, messages[|messages| - n..], cfg, p, cleaned, scanned, p', cleaned', scanned');
      FitsOnce(scanned, messages[..k], cleaned, cfg, combined, after, combined', after');
    }
  }

  lemma LastAreKnown(objects: Objects, messages: seq<Message>, i: nat)
    requires AllKnown(objects, messages) && i <= |messages|
    ensures AllKnown(objects, messages[i..])
  {
  }

  // Trimming gives exactly what the list and the configuration say.
  lemma TrimsExactly(objects: Objects, messages: seq<Message>, cfg: TrimConfig, combined: seq<Message>, after: Objects)
    requires AllKnown(objects, messages)
    ensures Trims(objects, messages, cfg, combined, after) <==> Trimmed(objects, messages, cfg) == (combined, after)
  {
    TrimmedExactly(objects, messages, cfg);
    var (r, o) := Trimmed(objects, messages, cfg);
    hide *;
    if Trims(objects, messages, cfg, combined, after) {
      TrimsOnce(objects, messages, cfg, combined, after, r, o);
    }
  }
}
