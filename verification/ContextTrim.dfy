// What the parts of _trim_messages compute: the leading system messages, a
// deduplicated window of the last messages, and the greedy budget.
module ContextTrim {
  import opened Wrappers
  import opened ContextMessages

  datatype TrimConfig = TrimConfig(
    enabled: bool,
    maxTotal: int,
    maxMessage: int,
    keepLast: int,
    keepHead: int,
    keepTail: int,
    keepSystem: bool)

  // ---- the leading system messages and the window ----------------------------

  // The run of system messages from position i on.
  function LeadingSystem(objects: Objects, messages: seq<Message>, i: nat): (s: seq<Message>)
    requires AllKnown(objects, messages) && i <= |messages|
    ensures |s| <= |messages| - i && forall k :: 0 <= k < |s| ==> s[k] == messages[i + k]
    decreases |messages| - i
  {
    if i == |messages| || Role(objects, messages[i]) != Some("system") then []
    else [messages[i]] + LeadingSystem(objects, messages, i + 1)
  }

  function SystemOf(objects: Objects, messages: seq<Message>, cfg: TrimConfig): (s: seq<Message>)
    requires AllKnown(objects, messages)
    ensures AllKnown(objects, s)
  {
    if cfg.keepSystem then LeadingSystem(objects, messages, 0) else []
  }

  // messages[-keep_last:]
  function Window(messages: seq<Message>, cfg: TrimConfig): (w: seq<Message>)
    ensures |w| <= |messages| && w == messages[|messages| - |w|..]
  {
    if 0 < cfg.keepLast < |messages| then messages[|messages| - cfg.keepLast..] else messages
  }

  // ---- the deduplication scan --------------------------------------------------

  type Fingerprint = (string, string)

  function Head(text: string): string { if |text| > 200 then text[..200] else text }

  function Tail(text: string): string { if |text| > 200 then text[|text| - 200..] else text }

  function FingerprintOf(text: string): Fingerprint { (Head(text), Tail(text)) }

  datatype Scan = Scan(objects: Objects, seen: set<Fingerprint>, kept: seq<Message>)

  predicate ScanOk(s: Scan) { AllKnown(s.objects, s.kept) }

  // What happens to a message that is kept: its text may be cut.
  function Cut(objects: Objects, m: Message, cfg: TrimConfig): (r: (Message, Objects))
    requires Known(objects, m)
    ensures r.1.Keys == objects.Keys && Known(r.1, r.0)
  {
    var text := Estimate(objects, m);
    if 0 < cfg.maxMessage < |text| then
      AfterSet(objects, m, TruncateText(text, cfg.maxMessage, cfg.keepHead, cfg.keepTail))
    else (m, objects)
  }

  function Visit(s: Scan, m: Message, cfg: TrimConfig): (t: Scan)
    requires Known(s.objects, m) && ScanOk(s)
    ensures t.objects.Keys == s.objects.Keys && ScanOk(t)
  {
    var fp := FingerprintOf(Estimate(s.objects, m));
    if fp in s.seen then s
    else
      var (r, objects) := Cut(s.objects, m, cfg);
      Scan(objects, s.seen + {fp}, s.kept + [r])
  }

  // The scan of the first n messages of the window.
  function Scanned(objects: Objects, window: seq<Message>, cfg: TrimConfig, n: nat): (s: Scan)
    requires AllKnown(objects, window) && n <= |window|
    ensures s.objects.Keys == objects.Keys && ScanOk(s)
  {
    if n == 0 then Scan(objects, {}, []) else Visit(Scanned(objects, window, cfg, n - 1), window[n - 1], cfg)
  }

  // ---- fitting the budget ------------------------------------------------------

  function Total(objects: Objects, messages: seq<Message>): nat
    requires AllKnown(objects, messages)
  {
    if messages == [] then 0
    else
      var n := |messages| - 1;
      Total(objects, messages[..n]) + |Estimate(objects, messages[n])|
  }

  // Truncating the last of the system messages, when nothing else is left.
  function LastCut(objects: Objects, system: seq<Message>, cfg: TrimConfig): (r: (seq<Message>, Objects))
    requires AllKnown(objects, system) && system != [] && cfg.maxTotal > 0
    ensures r.1.Keys == objects.Keys && |r.0| == |system| && AllKnown(r.1, r.0)
  {
    var n := |system| - 1;
    var text := TruncateText(Estimate(objects, system[n]), cfg.maxTotal,
                             Min(cfg.keepHead, cfg.maxTotal), Min(cfg.keepTail, cfg.maxTotal));
    var (last, after) := AfterSet(objects, system[n], text);
    (system[..n] + [last], after)
  }

  function Min(a: int, b: int): int { if a < b then a else b }

  function Fitted(objects: Objects, system: seq<Message>, kept: seq<Message>, cfg: TrimConfig)
      : (r: (seq<Message>, Objects))
    requires AllKnown(objects, system) && AllKnown(objects, kept) && cfg.maxTotal > 0
    ensures r.1.Keys == objects.Keys && AllKnown(r.1, r.0)
    decreases |kept|
  {
    if Total(objects, system + kept) <= cfg.maxTotal then (system + kept, objects)
    else if kept != [] then Fitted(objects, system, kept[1..], cfg)
    else
      assert system + kept == system;
      LastCut(objects, system, cfg)
  }

  function Trimmed(objects: Objects, messages: seq<Message>, cfg: TrimConfig): (r: (seq<Message>, Objects))
    requires AllKnown(objects, messages)
    ensures r.1.Keys == objects.Keys && AllKnown(r.1, r.0)
  {
    if !cfg.enabled then (messages, objects)
    else
      var system := SystemOf(objects, messages, cfg);
      var window := Window(messages, cfg);
      var scan := Scanned(objects, window, cfg, |window|);
      if cfg.maxTotal <= 0 then (system + scan.kept, scan.objects)
      else Fitted(scan.objects, system, scan.kept, cfg)
  }

  lemma SameKeysKnown(before: Objects, after: Objects, messages: seq<Message>)
    requires AllKnown(before, messages) && before.Keys == after.Keys
    ensures AllKnown(after, messages)
  {
  }
}
