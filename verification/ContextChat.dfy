// _trim_messages as it runs: the chat's message objects are written in place.
module ContextChat {
  import opened Wrappers
  import opened ContextMessages
  import opened ContextTrim
  import opened ContextOutcome

  // The chat's message objects, which trimming writes to.
  class Chat {
    var objects: Objects

    // _set_message_text
    method SetMessageText(m: Message, text: string) returns (r: Message)
      requires Known(objects, m)
      modifies this
      ensures (r, objects) == AfterSet(old(objects), m, text)
    {
      match m
      case NoMessage => r := m;
      case DictMessage(f) => r := DictMessage(WithDictText(f, text));
      case ObjectMessage(id) =>
        objects := objects[id := WithObjectText(objects[id], text)];
        r := m;
    }

    method TotalChars(messages: seq<Message>) returns (total: nat)
      requires AllKnown(objects, messages)
      ensures total == Total(objects, messages)
    {
      total := 0;
      for i := 0 to |messages|
        invariant total == Total(objects, messages[..i])
      {
        assert messages[..i + 1][..i] == messages[..i];
        total := total + |Estimate(objects, messages[i])|;
      }
      assert messages[..|messages|] == messages;
    }

    // The scan of the window.
    method Clean(window: seq<Message>, cfg: TrimConfig) returns (cleaned: seq<Message>)
      requires AllKnown(objects, window)
      modifies this
      ensures cleaned == Scanned(old(objects), window, cfg, |window|).kept
      ensures objects == Scanned(old(objects), window, cfg, |window|).objects
    {
      cleaned := [];
      var seen: set<Fingerprint> := {};
      for i := 0 to |window|
        invariant objects.Keys == old(objects).Keys
        invariant Scanned(old(objects), window, cfg, i) == Scan(objects, seen, cleaned)
      {
        var m := window[i];
        var text := Estimate(objects, m);
        var fp := FingerprintOf(text);
        if fp in seen { continue; }
        seen := seen + {fp};
        if cfg.maxMessage > 0 && |text| > cfg.maxMessage {
          text := TruncateText(text, cfg.maxMessage, cfg.keepHead, cfg.keepTail);
          m := SetMessageText(m, text);
        }
        cleaned := cleaned + [m];
      }
    }

    // The leading run of system messages.
    method KeepSystem(messages: seq<Message>) returns (system: seq<Message>)
      requires AllKnown(objects, messages)
      ensures system == LeadingSystem(objects, messages, 0)
    {
      system := [];
      var i := 0;
      while i < |messages| && Role(objects, messages[i]) == Some("system")
        invariant 0 <= i <= |messages|
        invariant LeadingSystem(objects, messages, 0) == system + LeadingSystem(objects, messages, i)
      {
        system := system + [messages[i]];
        i := i + 1;
      }
    }

    // The drop loop: the oldest message after the system messages goes first.
    method Fit(system: seq<Message>, cleaned: seq<Message>, cfg: TrimConfig) returns (combined: seq<Message>)
      requires AllKnown(objects, system) && AllKnown(objects, cleaned) && cfg.maxTotal > 0
      modifies this
      ensures (combined, objects) == Fitted(old(objects), system, cleaned, cfg)
    {
      combined := system + cleaned;
      ghost var dropped := 0;
      var total := TotalChars(combined);
      while combined != [] && total > cfg.maxTotal
        invariant dropped <= |cleaned| && combined == system + cleaned[dropped..]
        invariant objects == old(objects) && total == Total(objects, combined)
        invariant Fitted(objects, system, cleaned, cfg) == Fitted(objects, system, cleaned[dropped..], cfg)
        decreases |combined|
      {
        var dropIndex := |system|;
        if dropIndex >= |combined| {
          assert system == combined && cleaned[dropped..] == [];
          var last := combined[|combined| - 1];
          var text := TruncateText(Estimate(objects, last), cfg.maxTotal,
                                   Min(cfg.keepHead, cfg.maxTotal), Min(cfg.keepTail, cfg.maxTotal));
          last := SetMessageText(last, text);
          combined := combined[..|combined| - 1] + [last];
          return;
        }
        combined := combined[..dropIndex] + combined[dropIndex + 1..];
        assert cleaned[dropped..][1..] == cleaned[dropped + 1..];
        dropped := dropped + 1;
        total := TotalChars(combined);
      }
    }

    // _trim_messages
    method TrimMessages(messages: seq<Message>, cfg: TrimConfig) returns (combined: seq<Message>)
      requires AllKnown(objects, messages)
      modifies this
      ensures (combined, objects) == Trimmed(old(objects), messages, cfg)
      ensures Trims(old(objects), messages, cfg, combined, objects)
    {
      TrimmedExactly(objects, messages, cfg);
      hide Trims;
      if !cfg.enabled { return messages; }
      var system := [];
      if cfg.keepSystem { system := KeepSystem(messages); }
      assert system == SystemOf(objects, messages, cfg);
      var tail := messages;
      if cfg.keepLast > 0 && cfg.keepLast < |messages| {
        tail := messages[|messages| - cfg.keepLast..];
      }
      assert tail == Window(messages, cfg);
      assert AllKnown(objects, system) && AllKnown(objects, tail);
      hide Fitted, Scanned, SystemOf, Window, AllKnown;
      SameKeysKnown(objects, Scanned(objects, tail, cfg, |tail|).objects, system);
      var cleaned := Clean(tail, cfg);
      if cfg.maxTotal <= 0 { return system + cleaned; }
      combined := Fit(system, cleaned, cfg);
    }
  }
}
