// What _trim_messages guarantees: the window keeps the first message of every
// fingerprint, in order; the budget keeps the longest suffix that fits; and
// exactly when the total stays within the budget.
module ContextTrimming {
  import opened Wrappers
  import opened ContextMessages
  import opened ContextTrim

  // ---- deduplication -----------------------------------------------------------

  // The text read from message i when the scan gets to it.
  function Reading(objects: Objects, window: seq<Message>, cfg: TrimConfig, i: nat): string
    requires AllKnown(objects, window) && i < |window|
  {
    Estimate(Scanned(objects, window, cfg, i).objects, window[i])
  }

  function Print(objects: Objects, window: seq<Message>, cfg: TrimConfig, i: nat): Fingerprint
    requires AllKnown(objects, window) && i < |window|
  {
    FingerprintOf(Reading(objects, window, cfg, i))
  }

  predicate First(objects: Objects, window: seq<Message>, cfg: TrimConfig, i: nat)
    requires AllKnown(objects, window) && i < |window|
  {
    forall j :: 0 <= j < i ==> Print(objects, window, cfg, j) != Print(objects, window, cfg, i)
  }

  // The positions below n that come first with their fingerprint, in order.
  function Picks(objects: Objects, window: seq<Message>, cfg: TrimConfig, n: nat): (p: seq<nat>)
    requires AllKnown(objects, window) && n <= |window|
    ensures forall k :: 0 <= k < |p| ==> p[k] < n && First(objects, window, cfg, p[k])
    ensures forall k, l :: 0 <= k < l < |p| ==> p[k] < p[l]
    ensures forall i :: 0 <= i < n && First(objects, window, cfg, i) ==> i in p
  {
    if n == 0 then []
    else Picks(objects, window, cfg, n - 1) + if First(objects, window, cfg, n - 1) then [n - 1] else []
  }

  // The fingerprints of the first n messages.
  function Prints(objects: Objects, window: seq<Message>, cfg: TrimConfig, n: nat): set<Fingerprint>
    requires AllKnown(objects, window) && n <= |window|
  {
    set i | 0 <= i < n :: Print(objects, window, cfg, i)
  }

  // Message i as the scan keeps it: cut to the limit if it is too long then.
  function Picked(objects: Objects, window: seq<Message>, cfg: TrimConfig, i: nat): Message
    requires AllKnown(objects, window) && i < |window|
  {
    Cut(Scanned(objects, window, cfg, i).objects, window[i], cfg).0
  }

  // Exactly the messages at these positions, in this order.
  predicate Selected(objects: Objects, window: seq<Message>, cfg: TrimConfig, kept: seq<Message>, p: seq<nat>)
    requires AllKnown(objects, window)
  {
    |kept| == |p| && forall k :: 0 <= k < |p| ==> p[k] < |window| && kept[k] == Picked(objects, window, cfg, p[k])
  }

  lemma SelectedMore(objects: Objects, window: seq<Message>, cfg: TrimConfig, kept: seq<Message>, p: seq<nat>, i: nat)
    requires AllKnown(objects, window) && i < |window| && Selected(objects, window, cfg, kept, p)
    ensures Selected(objects, window, cfg, kept + [Picked(objects, window, cfg, i)], p + [i])
  {
    hide Picked;
  }

  // The first n messages are scanned into the selection of the firsts.
  predicate ScanSelects(objects: Objects, window: seq<Message>, cfg: TrimConfig, n: nat)
    requires AllKnown(objects, window) && n <= |window|
  {
    var s := Scanned(objects, window, cfg, n);
    && s.seen == Prints(objects, window, cfg, n)
    && Selected(objects, window, cfg, s.kept, Picks(objects, window, cfg, n))
  }

  // The cleaned window is that selection.
  lemma {:induction false} ScanIsSelection(objects: Objects, window: seq<Message>, cfg: TrimConfig, n: nat)
    requires AllKnown(objects, window) && n <= |window|
    ensures ScanSelects(objects, window, cfg, n)
    decreases n
  {
    if n > 0 {
      hide *;
      ScanIsSelection(objects, window, cfg, n - 1);
      SelectsMore(objects, window, cfg, n - 1);
    }
  }

  lemma SelectsMore(objects: Objects, window: seq<Message>, cfg: TrimConfig, i: nat)
    requires AllKnown(objects, window) && i < |window| && ScanSelects(objects, window, cfg, i)
    ensures ScanSelects(objects, window, cfg, i + 1)
  {
    var s, t := Scanned(objects, window, cfg, i), Scanned(objects, window, cfg, i + 1);
    var p := Picks(objects, window, cfg, i);
    ScanStep(objects, window, cfg, i);
    PrintsStep(objects, window, cfg, i);
    SelectedMore(objects, window, cfg, s.kept, p, i);
    PicksStep(objects, window, cfg, i);
    hide Scanned, Prints, Print, Picks, Picked, First, Selected;
    assert t.seen == Prints(objects, window, cfg, i + 1);
    assert Selected(objects, window, cfg, t.kept, Picks(objects, window, cfg, i + 1));
  }

  lemma PicksStep(objects: Objects, window: seq<Message>, cfg: TrimConfig, i: nat)
    requires AllKnown(objects, window) && i < |window|
    ensures var p := Picks(objects, window, cfg, i);
            Picks(objects, window, cfg, i + 1) == if First(objects, window, cfg, i) then p + [i] else p
  {
  }

  lemma ScanStep(objects: Objects, window: seq<Message>, cfg: TrimConfig, i: nat)
    requires AllKnown(objects, window) && i < |window|
    ensures var s, t := Scanned(objects, window, cfg, i), Scanned(objects, window, cfg, i + 1);
            var fp := Print(objects, window, cfg, i);
            && t.seen == s.seen + {fp}
            && t.kept == if fp in s.seen then s.kept else s.kept + [Picked(objects, window, cfg, i)]
  {
  }

  lemma PrintsStep(objects: Objects, window: seq<Message>, cfg: TrimConfig, i: nat)
    requires AllKnown(objects, window) && i < |window|
    ensures Prints(objects, window, cfg, i + 1) == Prints(objects, window, cfg, i) + {Print(objects, window, cfg, i)}
    ensures First(objects, window, cfg, i) <==> Print(objects, window, cfg, i) !in Prints(objects, window, cfg, i)
  {
  }

  // Every message is represented by exactly one kept message, at or before it.
  lemma {:induction false} FirstOf(objects: Objects, window: seq<Message>, cfg: TrimConfig, i: nat) returns (j: nat)
    requires AllKnown(objects, window) && i < |window|
    ensures j <= i && First(objects, window, cfg, j) && Print(objects, window, cfg, j) == Print(objects, window, cfg, i)
    ensures forall l :: 0 <= l < |window| && Print(objects, window, cfg, l) == Print(objects, window, cfg, i) ==>
              (First(objects, window, cfg, l) <==> l == j)
    decreases i
  {
    if First(objects, window, cfg, i) {
      j := i;
    } else {
      var k :| 0 <= k < i && Print(objects, window, cfg, k) == Print(objects, window, cfg, i);
      j := FirstOf(objects, window, cfg, k);
    }
  }

  // A text shorter than 200 characters is dropped only if the very same text
  // was kept before.
  lemma ShortTextsAreKept(objects: Objects, window: seq<Message>, cfg: TrimConfig, i: nat) returns (j: nat)
    requires AllKnown(objects, window) && i < |window|
    requires |Reading(objects, window, cfg, i)| < 200
    ensures j <= i && First(objects, window, cfg, j)
            && Reading(objects, window, cfg, j) == Reading(objects, window, cfg, i)
  {
    j := FirstOf(objects, window, cfg, i);
  }

  predicate DistinctObjects(window: seq<Message>) {
    forall i, j :: 0 <= i < j < |window| && window[i].ObjectMessage? && window[j].ObjectMessage? ==>
      window[i].id != window[j].id
  }

  lemma {:induction false} UntouchedObjects(objects: Objects, window: seq<Message>, cfg: TrimConfig, id: nat, n: nat)
    requires AllKnown(objects, window) && id in objects && n <= |window|
    requires forall i :: 0 <= i < n ==> window[i] != ObjectMessage(id)
    ensures Scanned(objects, window, cfg, n).objects[id] == objects[id]
    decreases n
  {
    if n > 0 { UntouchedObjects(objects, window, cfg, id, n - 1); }
  }

  // Unless one object occurs twice in the window, what is read is what the
  // messages held before trimming began.
  lemma ReadingsAreOriginal(objects: Objects, window: seq<Message>, cfg: TrimConfig, i: nat)
    requires AllKnown(objects, window) && i < |window| && DistinctObjects(window)
    ensures Reading(objects, window, cfg, i) == Estimate(objects, window[i])
  {
    if window[i].ObjectMessage? { UntouchedObjects(objects, window, cfg, window[i].id, i); }
  }

  // An earlier occurrence of the same object was kept and cut.
  predicate CutBefore(objects: Objects, window: seq<Message>, cfg: TrimConfig, m: Message, n: nat)
    requires AllKnown(objects, window) && Known(objects, m) && n <= |window|
  {
    && m.ObjectMessage? && Writable(objects, m) && 0 < cfg.maxMessage < |Estimate(objects, m)|
    && exists j :: 0 <= j < n && window[j] == m && First(objects, window, cfg, j)
  }

  function Shortened(objects: Objects, m: Message, cfg: TrimConfig): string
    requires Known(objects, m)
  {
    TruncateText(Estimate(objects, m), cfg.maxMessage, cfg.keepHead, cfg.keepTail)
  }

  lemma {:induction false} ObjectReading(objects: Objects, window: seq<Message>, cfg: TrimConfig, m: Message, n: nat)
    requires AllKnown(objects, window) && Known(objects, m) && m.ObjectMessage? && n <= |window|
    ensures Estimate(Scanned(objects, window, cfg, n).objects, m)
         == if CutBefore(objects, window, cfg, m, n) then Shortened(objects, m, cfg) else Estimate(objects, m)
    decreases n
  {
    if n > 0 {
      hide *;
      ObjectReading(objects, window, cfg, m, n - 1);
      ReadingStep(objects, window, cfg, m, n - 1);
    } else {
      hide Estimate;
    }
  }

  lemma ReadingStep(objects: Objects, window: seq<Message>, cfg: TrimConfig, m: Message, i: nat)
    requires AllKnown(objects, window) && Known(objects, m) && m.ObjectMessage? && i < |window|
    requires Estimate(Scanned(objects, window, cfg, i).objects, m)
          == if CutBefore(objects, window, cfg, m, i) then Shortened(objects, m, cfg) else Estimate(objects, m)
    ensures Estimate(Scanned(objects, window, cfg, i + 1).objects, m)
         == if CutBefore(objects, window, cfg, m, i + 1) then Shortened(objects, m, cfg) else Estimate(objects, m)
  {
    var s := Scanned(objects, window, cfg, i);
    StillWritable(objects, window, cfg, m, i);
    TruncationKeepsEnds(Estimate(objects, m), cfg.maxMessage, cfg.keepHead, cfg.keepTail);
    SeenExactly(objects, window, cfg, i);
    CutBeforeNext(objects, window, cfg, m, i);
    CutBeforeNeeds(objects, window, cfg, m, i);
    hide First, Scanned, Visit, Estimate, Writable, TruncateText, FingerprintOf, CutBefore, AllKnown;
    VisitReading(s, window[i], m, cfg);
    ScannedNext(objects, window, cfg, i);
  }

  lemma CutBeforeNeeds(objects: Objects, window: seq<Message>, cfg: TrimConfig, m: Message, n: nat)
    requires AllKnown(objects, window) && Known(objects, m) && n <= |window|
    ensures CutBefore(objects, window, cfg, m, n) ==>
              Writable(objects, m) && 0 < cfg.maxMessage < |Estimate(objects, m)|
  {
  }

  lemma SeenExactly(objects: Objects, window: seq<Message>, cfg: TrimConfig, i: nat)
    requires AllKnown(objects, window) && i < |window|
    ensures var s := Scanned(objects, window, cfg, i);
            First(objects, window, cfg, i) <==> FingerprintOf(Estimate(s.objects, window[i])) !in s.seen
  {
    ScanIsSelection(objects, window, cfg, i);
    PrintsStep(objects, window, cfg, i);
    hide First, Prints, Scanned, Estimate, FingerprintOf, Picks, Selected;
  }

  lemma CutBeforeNext(objects: Objects, window: seq<Message>, cfg: TrimConfig, m: Message, i: nat)
    requires AllKnown(objects, window) && Known(objects, m) && m.ObjectMessage? && i < |window|
    ensures CutBefore(objects, window, cfg, m, i + 1) <==>
              || CutBefore(objects, window, cfg, m, i)
              || (window[i] == m && First(objects, window, cfg, i)
                  && Writable(objects, m) && 0 < cfg.maxMessage < |Estimate(objects, m)|)
  {
    hide First, Writable, Estimate;
    if window[i] == m && First(objects, window, cfg, i) && Writable(objects, m)
       && 0 < cfg.maxMessage < |Estimate(objects, m)| {
      assert 0 <= i < i + 1 && window[i] == m && First(objects, window, cfg, i);
    }
  }

  // What one visit does to the text of an object.
  lemma VisitReading(s: Scan, visited: Message, m: Message, cfg: TrimConfig)
    requires ScanOk(s) && Known(s.objects, visited) && Known(s.objects, m) && m.ObjectMessage?
    ensures Estimate(Visit(s, visited, cfg).objects, m)
         == if visited == m && FingerprintOf(Estimate(s.objects, m)) !in s.seen
               && 0 < cfg.maxMessage < |Estimate(s.objects, m)| && Writable(s.objects, m)
            then Shortened(s.objects, m, cfg) else Estimate(s.objects, m)
  {
    ReadAfterSet(s.objects, visited, Shortened(s.objects, visited, cfg), m);
    hide TruncateText, FingerprintOf, Estimate, Writable, AfterSet;
  }

  // Exactly when a reading is not what the message held before trimming began,
  // and what it is then.
  lemma ReadingDiffersExactly(objects: Objects, window: seq<Message>, cfg: TrimConfig, i: nat)
    requires AllKnown(objects, window) && i < |window|
    ensures Reading(objects, window, cfg, i) != Estimate(objects, window[i]) <==>
              CutBefore(objects, window, cfg, window[i], i)
    ensures CutBefore(objects, window, cfg, window[i], i) ==>
              Reading(objects, window, cfg, i) == Shortened(objects, window[i], cfg)
  {
    if window[i].ObjectMessage? {
      ObjectReading(objects, window, cfg, window[i], i);
      TruncationKeepsEnds(Estimate(objects, window[i]), cfg.maxMessage, cfg.keepHead, cfg.keepTail);
    }
    hide First, Scanned, TruncateText;
  }

  // An object that occurs twice is cut before it is read again: it can then
  // have another fingerprint and be kept twice.
  lemma SharedObjectKeptTwice() returns (objects: Objects, window: seq<Message>, cfg: TrimConfig)
    ensures AllKnown(objects, window) && |window| == 2 && window[0] == window[1]
    ensures Scanned(objects, window, cfg, 2).kept == window
  {
    var f := Fields(None, Some(Text("abc")), None, None, "", false, false);
    objects, window := map[0 := f], [ObjectMessage(0), ObjectMessage(0)];
    cfg := TrimConfig(true, 0, 1, 0, 1, 0, false);
    assert TruncateText("abc", 1, 1, 0) == "a";
    assert Scanned(objects, window, cfg, 0) == Scan(objects, {}, []);
    var s := Scanned(objects, window, cfg, 1);
    assert s == Visit(Scan(objects, {}, []), window[0], cfg);
    assert s.kept == [ObjectMessage(0)] && Estimate(s.objects, window[1]) == "a";
    assert s.seen == {FingerprintOf("abc")} && FingerprintOf("a").0 == "a" && FingerprintOf("abc").0 == "abc";
    assert |"a"| == 1;
  }

  predicate Within(objects: Objects, m: Message, limit: int)
    requires Known(objects, m)
  {
    |Estimate(objects, m)| <= limit || !Writable(objects, m)
  }

  ghost predicate AllWithin(s: Scan, limit: int)
    requires ScanOk(s)
  {
    forall k :: 0 <= k < |s.kept| ==> Within(s.objects, s.kept[k], limit)
  }

  // Every kept message is within the limit, unless its text cannot be set.
  lemma {:induction false} KeptWithinLimit(objects: Objects, window: seq<Message>, cfg: TrimConfig, n: nat)
    requires AllKnown(objects, window) && cfg.maxMessage > 0 && n <= |window|
    ensures AllWithin(Scanned(objects, window, cfg, n), cfg.maxMessage)
    decreases n
  {
    if n > 0 {
      KeptWithinLimit(objects, window, cfg, n - 1);
      VisitWithin(Scanned(objects, window, cfg, n - 1), window[n - 1], cfg);
    }
  }

  lemma VisitWithin(s: Scan, m: Message, cfg: TrimConfig)
    requires ScanOk(s) && Known(s.objects, m) && cfg.maxMessage > 0
    requires AllWithin(s, cfg.maxMessage)
    ensures AllWithin(Visit(s, m, cfg), cfg.maxMessage)
  {
    var short := Shortened(s.objects, m, cfg);
    TruncationKeepsEnds(Estimate(s.objects, m), cfg.maxMessage, cfg.keepHead, cfg.keepTail);
    hide Within, TruncateText, KeepsEnds, Shortened, AfterSet;
    SetWithin(s.objects, m, short, m, cfg.maxMessage);
    forall k | 0 <= k < |s.kept| ensures Within(AfterSet(s.objects, m, short).1, s.kept[k], cfg.maxMessage) {
      SetWithin(s.objects, m, short, s.kept[k], cfg.maxMessage);
    }
    CutWithin(s, m, cfg, short);
  }

  // Setting a short text keeps every message within the limit.
  lemma SetWithin(objects: Objects, m: Message, short: string, other: Message, limit: int)
    requires Known(objects, m) && Known(objects, other) && |short| <= limit
    ensures Within(objects, other, limit) ==> Within(AfterSet(objects, m, short).1, other, limit)
    ensures Within(AfterSet(objects, m, short).1, AfterSet(objects, m, short).0, limit)
  {
    ReadAfterSet(objects, m, short, other);
    hide Estimate;
  }

  lemma CutWithin(s: Scan, m: Message, cfg: TrimConfig, short: string)
    requires ScanOk(s) && Known(s.objects, m) && cfg.maxMessage > 0 && short == Shortened(s.objects, m, cfg)
    requires AllWithin(s, cfg.maxMessage)
    requires var (r, after) := AfterSet(s.objects, m, short);
             && Within(after, r, cfg.maxMessage)
             && forall k :: 0 <= k < |s.kept| ==> Within(after, s.kept[k], cfg.maxMessage)
    ensures AllWithin(Visit(s, m, cfg), cfg.maxMessage)
  {
    hide AfterSet, TruncateText, FingerprintOf, Estimate, Writable;
  }

  // ---- the budget ----------------------------------------------------------------

  lemma {:induction false} TotalSplits(objects: Objects, a: seq<Message>, b: seq<Message>)
    requires AllKnown(objects, a) && AllKnown(objects, b)
    ensures Total(objects, a + b) == Total(objects, a) + Total(objects, b)
    decreases |b|
  {
    if b == [] {
      assert a + b == a;
    } else {
      var n := |b| - 1;
      assert (a + b)[..|a + b| - 1] == a + b[..n];
      TotalSplits(objects, a, b[..n]);
    }
  }

  // Leading system messages that fit are followed by the longest suffix of
  // the cleaned window that fits with them.
  lemma {:induction false} LongestSuffix(objects: Objects, system: seq<Message>, kept: seq<Message>, cfg: TrimConfig)
      returns (k: nat)
    requires AllKnown(objects, system) && AllKnown(objects, kept) && cfg.maxTotal > 0
    requires Total(objects, system) <= cfg.maxTotal
    ensures k <= |kept| && Fitted(objects, system, kept, cfg) == (system + kept[k..], objects)
    ensures Total(objects, system + kept[k..]) <= cfg.maxTotal
    ensures forall i :: 0 <= i < k ==> Total(objects, system + kept[i..]) > cfg.maxTotal
    decreases |kept|
  {
    assert system + [] == system;
    if Total(objects, system + kept) <= cfg.maxTotal {
      k := 0;
    } else {
      k := LongestSuffix(objects, system, kept[1..], cfg);
      k := k + 1;
      assert kept[1..][k - 1..] == kept[k..];
      forall i | 0 <= i < k ensures Total(objects, system + kept[i..]) > cfg.maxTotal {
        if i > 0 { assert kept[1..][i - 1..] == kept[i..]; } else { assert kept[0..] == kept; }
      }
    }
  }

  // Leading system messages that do not fit are all that is left, the last of
  // them truncated.
  lemma {:induction false} OnlySystemLeft(objects: Objects, system: seq<Message>, kept: seq<Message>, cfg: TrimConfig)
    requires AllKnown(objects, system) && AllKnown(objects, kept) && cfg.maxTotal > 0
    requires Total(objects, system) > cfg.maxTotal
    ensures system != [] && Fitted(objects, system, kept, cfg) == LastCut(objects, system, cfg)
    decreases |kept|
  {
    TotalSplits(objects, system, kept);
    if kept != [] { OnlySystemLeft(objects, system, kept[1..], cfg); } else { assert system + kept == system; }
  }

  function LastText(objects: Objects, system: seq<Message>, cfg: TrimConfig): string
    requires AllKnown(objects, system) && system != []
  {
    TruncateText(Estimate(objects, system[|system| - 1]), cfg.maxTotal,
                 Min(cfg.keepHead, cfg.maxTotal), Min(cfg.keepTail, cfg.maxTotal))
  }

  // The total, where every mention of the object m counts as the given text.
  function TotalWith(objects: Objects, messages: seq<Message>, m: Message, text: string): nat
    requires AllKnown(objects, messages)
  {
    if messages == [] then 0
    else
      var n := |messages| - 1;
      TotalWith(objects, messages[..n], m, text)
      + if m.ObjectMessage? && messages[n] == m then |text| else |Estimate(objects, messages[n])|
  }

  lemma {:induction false} TotalAfterSet(objects: Objects, messages: seq<Message>, m: Message, text: string)
    requires AllKnown(objects, messages) && Known(objects, m)
    ensures var after := AfterSet(objects, m, text).1;
            && AllKnown(after, messages)
            && Total(after, messages)
            == if Writable(objects, m) then TotalWith(objects, messages, m, text) else Total(objects, messages)
    decreases |messages|
  {
    if messages != [] {
      var n := |messages| - 1;
      TotalAfterSet(objects, messages[..n], m, text);
      ReadAfterSet(objects, m, text, messages[n]);
      hide Estimate, Writable;
    }
  }

  // What truncating the last system message leaves in total.
  lemma LastCutTotal(objects: Objects, system: seq<Message>, cfg: TrimConfig)
    requires AllKnown(objects, system) && system != [] && cfg.maxTotal > 0
    ensures var n, (r, after), text := |system| - 1, LastCut(objects, system, cfg), LastText(objects, system, cfg);
            Total(after, r)
            == if Writable(objects, system[n]) then TotalWith(objects, system[..n], system[n], text) + |text|
               else Total(objects, system)
  {
    var n := |system| - 1;
    assert system[..n] + [system[n]] == system;
    LastCutIs(objects, system, cfg);
    hide *;
    CutTotals(objects, system[..n], system[n], LastText(objects, system, cfg));
  }

  lemma LastCutIs(objects: Objects, system: seq<Message>, cfg: TrimConfig)
    requires AllKnown(objects, system) && system != [] && cfg.maxTotal > 0
    ensures var n := |system| - 1;
            && AllKnown(objects, system[..n]) && Known(objects, system[n])
            && (var (last, after) := AfterSet(objects, system[n], LastText(objects, system, cfg));
                LastCut(objects, system, cfg) == (system[..n] + [last], after))
  {
  }

  // Setting the text of the last of some messages.
  lemma CutTotals(objects: Objects, messages: seq<Message>, m: Message, text: string)
    requires AllKnown(objects, messages) && Known(objects, m)
    ensures var (last, after) := AfterSet(objects, m, text);
            && AllKnown(after, messages + [last]) && AllKnown(objects, messages + [m])
            && Total(after, messages + [last])
               == if Writable(objects, m) then TotalWith(objects, messages, m, text) + |text|
                  else Total(objects, messages + [m])
  {
    var (last, after) := AfterSet(objects, m, text);
    ReadAfterSet(objects, m, text, m);
    TotalAfterSet(objects, messages, m, text);
    hide Estimate, Writable, AfterSet, Total, TotalWith;
    TotalOneMore(after, messages, last);
    TotalOneMore(objects, messages, m);
  }

  lemma TotalOneMore(objects: Objects, messages: seq<Message>, m: Message)
    requires AllKnown(objects, messages) && Known(objects, m)
    ensures AllKnown(objects, messages + [m])
    ensures Total(objects, messages + [m]) == Total(objects, messages) + |Estimate(objects, m)|
  {
    var more := messages + [m];
    assert more[..|more| - 1] == messages;
    hide Estimate;
  }

  // An object listed only once is counted once.
  lemma {:induction false} TotalWithout(objects: Objects, messages: seq<Message>, m: Message, text: string)
    requires AllKnown(objects, messages) && (m.ObjectMessage? ==> m !in messages)
    ensures TotalWith(objects, messages, m, text) == Total(objects, messages)
    decreases |messages|
  {
    if messages != [] { TotalWithout(objects, messages[..|messages| - 1], m, text); }
  }

  // The budget is met exactly when the leading system messages fit, or all
  // but the last of them fit together with the truncated text of the last,
  // counted again for every earlier mention of the same object.
  lemma BudgetExactly(objects: Objects, system: seq<Message>, kept: seq<Message>, cfg: TrimConfig)
    requires AllKnown(objects, system) && AllKnown(objects, kept) && cfg.maxTotal > 0
    ensures var (r, after) := Fitted(objects, system, kept, cfg);
            Total(after, r) <= cfg.maxTotal <==>
              || Total(objects, system) <= cfg.maxTotal
              || (var n, text := |system| - 1, LastText(objects, system, cfg);
                  Writable(objects, system[n])
                  && TotalWith(objects, system[..n], system[n], text) + |text| <= cfg.maxTotal)
  {
    if Total(objects, system) <= cfg.maxTotal {
      var k := LongestSuffix(objects, system, kept, cfg);
    } else {
      OnlySystemLeft(objects, system, kept, cfg);
      LastCutTotal(objects, system, cfg);
    }
    hide Fitted, LastCut, LastText, Total, TotalWith;
  }

  // With at most one leading system message whose text can be set (every dict
  // message is such) the total never exceeds the budget.
  lemma TrimmedWithinBudget(objects: Objects, messages: seq<Message>, cfg: TrimConfig)
    requires AllKnown(objects, messages) && cfg.enabled && cfg.maxTotal > 0
    requires var system := SystemOf(objects, messages, cfg);
             |system| <= 1 && (system != [] ==> Writable(objects, system[0]))
    ensures var (r, after) := Trimmed(objects, messages, cfg); Total(after, r) <= cfg.maxTotal
  {
    var system := SystemOf(objects, messages, cfg);
    var window := Window(messages, cfg);
    var scan := Scanned(objects, window, cfg, |window|);
    BudgetExactly(scan.objects, system, scan.kept, cfg);
    if Total(scan.objects, system) > cfg.maxTotal {
      OnlySystemLeft(scan.objects, system, scan.kept, cfg);
      StillWritable(objects, window, cfg, system[0], |window|);
      TruncationKeepsEnds(Estimate(scan.objects, system[0]), cfg.maxTotal,
                          Min(cfg.keepHead, cfg.maxTotal), Min(cfg.keepTail, cfg.maxTotal));
      assert system[..0] == [];
    }
  }

  lemma {:induction false} StillWritable(objects: Objects, window: seq<Message>, cfg: TrimConfig, m: Message, n: nat)
    requires AllKnown(objects, window) && Known(objects, m) && n <= |window|
    ensures Writable(Scanned(objects, window, cfg, n).objects, m) == Writable(objects, m)
    decreases n
  {
    if n > 0 { StillWritable(objects, window, cfg, m, n - 1); }
  }

  // Two leading system messages can exceed the budget: only the last one is
  // ever shortened.
  lemma TwoSystemMessagesExceed() returns (messages: seq<Message>, cfg: TrimConfig)
    ensures AllKnown(map[], messages) && forall m :: m in messages ==> m.DictMessage?
    ensures cfg.enabled && cfg.maxTotal == 1 && |SystemOf(map[], messages, cfg)| == 2
    ensures var (r, after) := Trimmed(map[], messages, cfg); Total(after, r) == 2
  {
    var a := DictMessage(Fields(Some("system"), Some(Text("a")), None, None, "", false, false));
    var b := DictMessage(Fields(Some("system"), Some(Text("b")), None, None, "", false, false));
    messages, cfg := [a, b], TrimConfig(true, 1, 0, 1, 0, 0, true);
    assert LeadingSystem(map[], messages, 2) == [];
    assert LeadingSystem(map[], messages, 1) == [b];
    assert SystemOf(map[], messages, cfg) == messages;
    assert messages[..1] == [a] && [a][..0] == [];
    assert Total(map[], []) == 0 && Total(map[], [a]) == 1 && Total(map[], messages) == 2;
    var window := Window(messages, cfg);
    var scan := Scanned(map[], window, cfg, |window|);
    assert scan.objects == map[];
    OnlySystemLeft(map[], messages, scan.kept, cfg);
    LastCutTotal(map[], messages, cfg);
    TotalWithout(map[], messages[..1], b, "b");
    assert TruncateText("b", 1, 0, 0) == "b";
  }

  // No text is too long and no two messages look alike.
  predicate NothingToTrim(objects: Objects, messages: seq<Message>, cfg: TrimConfig)
    requires AllKnown(objects, messages)
  {
    && (forall i :: 0 <= i < |messages| ==> cfg.maxMessage <= 0 || |Estimate(objects, messages[i])| <= cfg.maxMessage)
    && forall i, j :: 0 <= i < j < |messages| ==>
         FingerprintOf(Estimate(objects, messages[i])) != FingerprintOf(Estimate(objects, messages[j]))
  }

  // When there is nothing to trim the messages come back unchanged, after a
  // second copy of the leading system messages.
  lemma SystemMessagesComeTwice(objects: Objects, messages: seq<Message>, cfg: TrimConfig)
    requires AllKnown(objects, messages) && cfg.enabled
    requires cfg.keepLast <= 0 || |messages| <= cfg.keepLast
    requires NothingToTrim(objects, messages, cfg)
    requires cfg.maxTotal <= 0
             || Total(objects, SystemOf(objects, messages, cfg)) + Total(objects, messages) <= cfg.maxTotal
    ensures Trimmed(objects, messages, cfg) == (SystemOf(objects, messages, cfg) + messages, objects)
  {
    NothingDropped(objects, messages, cfg, |messages|);
    assert messages[..|messages|] == messages;
    TotalSplits(objects, SystemOf(objects, messages, cfg), messages);
  }

  lemma {:induction false} NothingDropped(objects: Objects, messages: seq<Message>, cfg: TrimConfig, n: nat)
    requires AllKnown(objects, messages) && n <= |messages|
    requires NothingToTrim(objects, messages, cfg)
    ensures Scanned(objects, messages, cfg, n) == Scan(objects, PrintsOf(objects, messages, n), messages[..n])
    decreases n
  {
    hide *;
    if n == 0 {
      NothingScanned(objects, messages, cfg);
    } else {
      NothingDropped(objects, messages, cfg, n - 1);
      KeptAsIs(objects, messages, cfg, n - 1);
    }
  }

  lemma NothingScanned(objects: Objects, messages: seq<Message>, cfg: TrimConfig)
    requires AllKnown(objects, messages)
    ensures Scanned(objects, messages, cfg, 0) == Scan(objects, PrintsOf(objects, messages, 0), messages[..0])
  {
    assert messages[..0] == [];
  }

  function PrintsOf(objects: Objects, messages: seq<Message>, n: nat): set<Fingerprint>
    requires AllKnown(objects, messages) && n <= |messages|
  {
    set i | 0 <= i < n :: FingerprintOf(Estimate(objects, messages[i]))
  }

  lemma KeptAsIs(objects: Objects, messages: seq<Message>, cfg: TrimConfig, i: nat)
    requires AllKnown(objects, messages) && i < |messages|
    requires NothingToTrim(objects, messages, cfg)
    requires Scanned(objects, messages, cfg, i) == Scan(objects, PrintsOf(objects, messages, i), messages[..i])
    ensures Scanned(objects, messages, cfg, i + 1)
            == Scan(objects, PrintsOf(objects, messages, i + 1), messages[..i + 1])
  {
    assert Known(objects, messages[i]);
    hide *;
    var s, fp := Scanned(objects, messages, cfg, i), FingerprintOf(Estimate(objects, messages[i]));
    NewPrint(objects, messages, i);
    ScannedNext(objects, messages, cfg, i);
    VisitKeeps(s, messages[i], cfg);
    assert s.kept + [messages[i]] == messages[..i + 1];
  }

  lemma VisitKeeps(s: Scan, m: Message, cfg: TrimConfig)
    requires ScanOk(s) && Known(s.objects, m) && FingerprintOf(Estimate(s.objects, m)) !in s.seen
    requires cfg.maxMessage <= 0 || |Estimate(s.objects, m)| <= cfg.maxMessage
    ensures Visit(s, m, cfg) == Scan(s.objects, s.seen + {FingerprintOf(Estimate(s.objects, m))}, s.kept + [m])
  {
    hide FingerprintOf, Estimate, AfterSet;
  }

  lemma ScannedNext(objects: Objects, messages: seq<Message>, cfg: TrimConfig, i: nat)
    requires AllKnown(objects, messages) && i < |messages|
    ensures Scanned(objects, messages, cfg, i + 1) == Visit(Scanned(objects, messages, cfg, i), messages[i], cfg)
  {
  }

  lemma NewPrint(objects: Objects, messages: seq<Message>, i: nat)
    requires AllKnown(objects, messages) && i < |messages|
    requires forall j :: 0 <= j < i ==>
               FingerprintOf(Estimate(objects, messages[j])) != FingerprintOf(Estimate(objects, messages[i]))
    ensures PrintsOf(objects, messages, i + 1)
            == PrintsOf(objects, messages, i) + {FingerprintOf(Estimate(objects, messages[i]))}
    ensures FingerprintOf(Estimate(objects, messages[i])) !in PrintsOf(objects, messages, i)
  {
    hide Estimate, FingerprintOf;
  }
}
