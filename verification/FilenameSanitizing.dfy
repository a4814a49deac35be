// upload_validation.sanitize_filename: the name under which an upload is
// stored. Unicode normalisation (NFKC) is a parameter.
module FilenameSanitizing {
  import opened Wrappers
  import Utf8
  import ClaimPayload

  datatype NameError = TooLong

  // The characters _SAFE_FILENAME_CHARS_RE leaves alone.
  predicate Safe(c: char) {
    'A' <= c <= 'Z' || 'a' <= c <= 'z' || '0' <= c <= '9' || c in " ._()-"
  }

  predicate AllSafe(s: string) { forall i :: 0 <= i < |s| ==> Safe(s[i]) }

  // The pattern's substitution: every run of unsafe characters becomes "_".
  function Substitute(s: string, inRun: bool): string
    decreases |s|
  {
    if s == "" then ""
    else if Safe(s[0]) then [s[0]] + Substitute(s[1..], false)
    else (if inRun then "" else "_") + Substitute(s[1..], true)
  }

  predicate Trimmable(c: char) { c == ' ' || c == '.' }

  function LeftTrim(s: string): string
    decreases |s|
  {
    if s != "" && Trimmable(s[0]) then LeftTrim(s[1..]) else s
  }

  function RightTrim(s: string): string
    decreases |s|
  {
    if s != "" && Trimmable(s[|s| - 1]) then RightTrim(s[..|s| - 1]) else s
  }

  // filename.replace("\\\\", "/"): two backslashes in a row, from the left
  function ReplaceBackslashes(s: string): string
    decreases |s|
  {
    if |s| >= 2 && s[..2] == "\\\\" then "/" + ReplaceBackslashes(s[2..])
    else if s == "" then ""
    else [s[0]] + ReplaceBackslashes(s[1..])
  }

  // Position just after the last occurrence of c; 0 if there is none.
  function AfterLast(s: string, c: char): (n: nat)
    ensures n <= |s| && c !in s[n..] && (n > 0 ==> s[n - 1] == c)
    decreases |s|
  {
    if s == "" then 0
    else if s[|s| - 1] == c then |s|
    else
      var n := AfterLast(s[..|s| - 1], c);
      assert s[n..] == s[..|s| - 1][n..] + [s[|s| - 1]];
      n
  }

  function Printable(s: string): string
    decreases |s|
  {
    if s == "" then ""
    else (if ' ' <= s[0] && s[0] != '\U{7F}' then [s[0]] else "") + Printable(s[1..])
  }

  predicate AllDots(s: string) { forall i :: 0 <= i < |s| ==> s[i] == '.' }

  // os.path.splitext: the extension starts at the last dot of the last
  // component, unless only dots come before it there.
  function SplitExt(s: string): (r: (string, string))
    ensures s == r.0 + r.1
  {
    var dot, start := AfterLast(s, '.'), AfterLast(s, '/');
    if dot > start && !AllDots(s[start..dot - 1]) then (s[..dot - 1], s[dot - 1..]) else (s, "")
  }

  // filename.replace(...).split("/")[-1]
  function Component(filename: string): string {
    var replaced := ReplaceBackslashes(filename);
    replaced[AfterLast(replaced, '/')..]
  }

  // What is left after the path is dropped and the name normalised.
  function Normalized(filename: string, nfkc: string -> string): string {
    nfkc(ClaimPayload.Strip(Component(filename)))
  }

  // The name whose stem and extension are then made safe.
  function Cleaned(filename: string, nfkc: string -> string): string {
    var name := Printable(Normalized(filename, nfkc));
    if name in {"", ".", ".."} then "file" else name
  }

  // The stem made safe, and cut as far as the extension leaves room.
  function SafeStem(stem: string): string {
    var safe := RightTrim(LeftTrim(Substitute(stem, false)));
    if safe == "" then "file" else safe
  }

  function SafeExtension(ext: string): string {
    Substitute(if |ext| > 16 then ext[..16] else ext, false)
  }

  function Fitted(stem: string, ext: string, maxChars: int): string {
    var keep := Max(1, maxChars - |ext|);
    if |stem| + |ext| > maxChars && |stem| > keep then stem[..keep] else stem
  }

  // The name made of a stem and an extension.
  function SafeName(stem: string, ext: string, maxChars: int): string {
    var candidate := RightTrim(Fitted(SafeStem(stem), SafeExtension(ext), maxChars) + SafeExtension(ext));
    if candidate in {"", ".", ".."} then "file" else candidate
  }

  // What sanitize_filename returns.
  function Sanitized(filename: Option<string>, maxChars: int, maxUtf8Bytes: int, nfkc: string -> string)
      : Result<string, NameError>
  {
    if filename.None? || filename.value == "" then Ok("file")
    else if |Utf8.EncodeText(Normalized(filename.value, nfkc))| > maxUtf8Bytes then Err(TooLong)
    else
      var (stem, ext) := SplitExt(Cleaned(filename.value, nfkc));
      Ok(SafeName(stem, ext, maxChars))
  }

  function Max(a: int, b: int): int { if a > b then a else b }

  // ---- the parts ---------------------------------------------------------------

  lemma {:induction false} SubstituteIsSafe(s: string, inRun: bool)
    ensures AllSafe(Substitute(s, inRun)) && |Substitute(s, inRun)| <= |s|
    ensures AllSafe(s) ==> Substitute(s, inRun) == s
    decreases |s|
  {
    if s != "" {
      SubstituteIsSafe(s[1..], false);
      SubstituteIsSafe(s[1..], true);
      assert s == [s[0]] + s[1..];
      assert AllSafe(s) ==> AllSafe(s[1..]) && Safe(s[0]);
    }
  }

  function Kept(s: string): string
    decreases |s|
  {
    if s == "" then "" else (if Safe(s[0]) && s[0] != '_' then [s[0]] else "") + Kept(s[1..])
  }

  // The safe characters of a text survive, in order.
  lemma {:induction false} SubstituteKeeps(s: string, inRun: bool)
    ensures Kept(Substitute(s, inRun)) == Kept(s)
    decreases |s|
  {
    if s != "" {
      SubstituteKeeps(s[1..], false);
      SubstituteKeeps(s[1..], true);
      if Safe(s[0]) {
        assert ([s[0]] + Substitute(s[1..], false))[1..] == Substitute(s[1..], false);
      } else if !inRun {
        var t := "_" + Substitute(s[1..], true);
        assert Substitute(s, inRun) == t && t[0] == '_' && t[1..] == Substitute(s[1..], true);
        assert Kept(t) == "" + Kept(t[1..]);
      } else {
        assert Substitute(s, inRun) == Substitute(s[1..], true);
      }
    }
  }

  // Neither starting nor ending with a space or a dot.
  predicate Trim(s: string) {
    s != "" ==> !Trimmable(s[0]) && !Trimmable(s[|s| - 1])
  }

  lemma {:induction false} RightTrimmed(s: string)
    ensures RightTrim(s) <= s && (RightTrim(s) != "" ==> !Trimmable(RightTrim(s)[|RightTrim(s)| - 1]))
    ensures s != "" && !Trimmable(s[0]) ==> RightTrim(s) != ""
    decreases |s|
  {
    if s != "" && Trimmable(s[|s| - 1]) { RightTrimmed(s[..|s| - 1]); }
  }

  lemma {:induction false} LeftTrimmed(s: string)
    ensures LeftTrim(s) != "" ==> !Trimmable(LeftTrim(s)[0])
    ensures AllSafe(s) ==> AllSafe(LeftTrim(s))
    ensures |LeftTrim(s)| <= |s|
    decreases |s|
  {
    if s != "" && Trimmable(s[0]) { LeftTrimmed(s[1..]); }
  }

  // strip(" .")
  lemma StemIsTrim(s: string)
    requires AllSafe(s)
    ensures var t := RightTrim(LeftTrim(s)); AllSafe(t) && Trim(t)
  {
    LeftTrimmed(s);
    RightTrimmed(LeftTrim(s));
  }

  // What SplitExt finds in a stem followed by an extension.
  lemma ExtensionFound(stem: string, ext: string)
    requires stem != "" && stem[0] != '.' && '/' !in stem && '/' !in ext
    requires ext != "" && ext[0] == '.' && '.' !in ext[1..]
    ensures SplitExt(stem + ext) == (stem, ext)
  {
    var s := stem + ext;
    assert forall i :: |stem| < i < |s| ==> s[i] == ext[1..][i - |stem| - 1];
    LastIs(s, '.', |stem|);
    assert AfterLast(s, '/') == 0;
    assert s[0..|stem|] == stem && stem[0] != '.';
  }

  lemma {:induction false} LastIs(s: string, c: char, k: nat)
    requires k < |s| && s[k] == c && forall i :: k < i < |s| ==> s[i] != c
    ensures AfterLast(s, c) == k + 1
    decreases |s|
  {
    if k < |s| - 1 { LastIs(s[..|s| - 1], c, k); }
  }

  lemma ExtensionShape(s: string)
    ensures var ext := SplitExt(s).1; ext != "" ==> ext[0] == '.' && '.' !in ext[1..] && '/' !in ext
  {
    var dot, start := AfterLast(s, '.'), AfterLast(s, '/');
    if SplitExt(s).1 != "" {
      assert SplitExt(s).1[1..] == s[dot..];
      assert forall i :: dot - 1 <= i < |s| ==> s[start..][i - start] == s[i];
    }
  }

  lemma SafeHasNoSlash(s: string)
    requires AllSafe(s)
    ensures '/' !in s
  {
  }

  // ---- the parts by what they are -------------------------------------------------

  // A run of unsafe characters between safe ones becomes a single "_".
  lemma RunBecomesOne(a: string, u: string, b: string)
    requires AllSafe(a) && u != "" && (forall i :: 0 <= i < |u| ==> !Safe(u[i]))
    requires b != "" ==> Safe(b[0])
    ensures Substitute(a + u + b, false) == a + "_" + Substitute(b, false)
  {
    SubstituteRest(a, u + b);
    RunFirst(u, b);
    hide *;
    assert a + (u + b) == a + u + b;
    assert a + ("_" + Substitute(b, false)) == a + "_" + Substitute(b, false);
  }

  lemma RunFirst(u: string, b: string)
    requires u != "" && (forall i :: 0 <= i < |u| ==> !Safe(u[i])) && (b != "" ==> Safe(b[0]))
    ensures Substitute(u + b, false) == "_" + Substitute(b, false)
  {
    assert !Safe(u[0]) && forall i :: 0 <= i < |u[1..]| ==> u[1..][i] == u[i + 1];
    RunVanishes(u[1..], b);
    SubstituteStep(u + b);
    hide *;
    assert (u + b)[1..] == u[1..] + b && (u + b)[0] == u[0];
  }

  lemma SubstituteStep(s: string)
    requires s != "" && !Safe(s[0])
    ensures Substitute(s, false) == "_" + Substitute(s[1..], true)
  {
    hide Safe;
  }

  lemma {:induction false} RunVanishes(u: string, b: string)
    requires (forall i :: 0 <= i < |u| ==> !Safe(u[i])) && (b != "" ==> Safe(b[0]))
    ensures Substitute(u + b, true) == Substitute(b, false)
    decreases |u|
  {
    if u == "" {
      assert u + b == b;
    } else {
      RunVanishes(u[1..], b);
      assert (u + b)[1..] == u[1..] + b && (u + b)[0] == u[0];
    }
  }

  lemma {:induction false} SubstituteRest(a: string, t: string)
    requires AllSafe(a)
    ensures Substitute(a + t, false) == a + Substitute(t, false)
    decreases |a|
  {
    if a == "" {
      assert a + t == t;
    } else {
      assert Safe(a[0]) && AllSafe(a[1..]);
      SubstituteRest(a[1..], t);
      assert (a + t)[1..] == a[1..] + t && (a + t)[0] == a[0];
      assert [a[0]] + (a[1..] + Substitute(t, false)) == a + Substitute(t, false);
    }
  }

  // Exactly the control characters go.
  lemma {:induction false} ControlsGo(a: string, c: char, b: string)
    ensures Printable(a + [c] + b)
         == Printable(a) + (if c < ' ' || c == '\U{7F}' then "" else [c]) + Printable(b)
    decreases |a|
  {
    hide Printable;
    var s := a + [c] + b;
    PrintableStep(s);
    PrintableStep(a);
    if a == "" {
      assert s[1..] == b;
    } else {
      ControlsGo(a[1..], c, b);
      assert s[1..] == a[1..] + [c] + b;
    }
  }

  lemma PrintableStep(s: string)
    ensures Printable(s)
         == if s == "" then ""
            else (if s[0] < ' ' || s[0] == '\U{7F}' then "" else [s[0]]) + Printable(s[1..])
  {
  }

  // A dot and what follows it, after something other than dots in the last
  // component.
  predicate IsExtension(stem: string, ext: string) {
    && ext != "" && ext[0] == '.' && '.' !in ext[1..] && '/' !in ext
    && exists i :: 0 <= i < |stem| && stem[i] != '.' && '/' !in stem[i..]
  }

  lemma SplitExactly(s: string, stem: string, ext: string)
    requires s == stem + ext
    ensures ext != "" ==> (SplitExt(s) == (stem, ext) <==> IsExtension(stem, ext))
    ensures SplitExt(s) == (s, "") <==>
              forall k :: 0 <= k < |s| ==> !IsExtension(s[..k], s[k..])
  {
    if ext != "" { SplitAt(s, |stem|); assert s[..|stem|] == stem && s[|stem|..] == ext; }
    forall k | 0 <= k < |s| ensures SplitExt(s) == (s[..k], s[k..]) <==> IsExtension(s[..k], s[k..]) {
      SplitAt(s, k);
    }
    var n := |SplitExt(s).0|;
    assert SplitExt(s).0 == s[..n] && SplitExt(s).1 == s[n..];
  }

  lemma SplitAt(s: string, k: nat)
    requires k < |s|
    ensures SplitExt(s) == (s[..k], s[k..]) <==> IsExtension(s[..k], s[k..])
  {
    var dot, start := AfterLast(s, '.'), AfterLast(s, '/');
    if IsExtension(s[..k], s[k..]) {
      var i :| 0 <= i < k && s[..k][i] != '.' && '/' !in s[..k][i..];
      assert forall j :: k < j < |s| ==> s[j] == s[k..][1..][j - k - 1];
      LastIs(s, '.', k);
      assert forall j :: i <= j < |s| ==> s[j] == (if j < k then s[..k][i..][j - i] else s[k..][j - k]);
      assert start <= i;
      assert s[start..dot - 1][i - start] == s[i];
    } else if dot == k + 1 && dot > start && !AllDots(s[start..k]) {
      SplitIsExtension(s, k, start);
    }
  }

  lemma SplitIsExtension(s: string, k: nat, start: nat)
    requires k < |s| && AfterLast(s, '.') == k + 1 && start == AfterLast(s, '/') <= k
    requires !AllDots(s[start..k])
    ensures IsExtension(s[..k], s[k..])
  {
    hide AfterLast;
    var i :| 0 <= i < k - start && s[start..k][i] != '.';
    NoneFrom(s, '/', start, start + i, k);
    NoneFrom(s, '/', start, k, |s|);
    NoneFrom(s, '.', k + 1, k + 1, |s|);
    assert s[..k][start + i] == s[start..k][i];
    assert s[..k][start + i..] == s[start + i..k];
    assert s[k..][1..] == s[k + 1..] && s[k + 1..|s|] == s[k + 1..] && s[k..|s|] == s[k..];
  }

  lemma NoneFrom(s: string, c: char, i: nat, j: nat, k: nat)
    requires i <= j <= k <= |s| && c !in s[i..]
    ensures c !in s[j..k]
  {
    assert forall n :: j <= n < k ==> s[n] == s[i..][n - i];
  }

  // t is s without its spaces and dots at the ends.
  ghost predicate Stripped(s: string, t: string) {
    exists i: nat, j: nat :: StrippedAt(s, t, i, j)
  }

  predicate StrippedAt(s: string, t: string, i: nat, j: nat) {
    && i <= j <= |s| && t == s[i..j] && Trim(t)
    && (forall k :: 0 <= k < i ==> Trimmable(s[k])) && (forall k :: j <= k < |s| ==> Trimmable(s[k]))
  }

  // The name for a stem and an extension: at most 16 characters of the
  // extension, as much of the stem as they leave room for, and at least one.
  ghost predicate IsName(stem: string, ext: string, maxChars: int, name: string) {
    exists body :: Stripped(Substitute(stem, false), body) && NamedBy(body, ext, maxChars, name)
  }

  ghost predicate NamedBy(body: string, ext: string, maxChars: int, name: string) {
    var safe := if body == "" then "file" else body;
    var e := Substitute(if |ext| > 16 then ext[..16] else ext, false);
    var room := maxChars - |e|;
    var k := if |safe| <= room then |safe| else if room < 1 then 1 else room;
    var whole := safe[..k] + e;
    && name != "" && !Trimmable(name[|name| - 1])
    && |name| <= |whole| && name == whole[..|name|]
    && forall i :: |name| <= i < |whole| ==> Trimmable(whole[i])
  }

  lemma StemIsStripped(s: string)
    requires AllSafe(s)
    ensures Stripped(s, RightTrim(LeftTrim(s)))
  {
    StemIsTrim(s);
    LeftGone(s);
    var l := LeftTrim(s);
    RightGone(l);
    var t := RightTrim(l);
    hide *;
    StripOf(s, l, t);
  }

  lemma StripOf(s: string, l: string, t: string)
    requires |t| <= |l| <= |s| && l == s[|s| - |l|..] && t == l[..|t|] && Trim(t)
    requires forall k :: 0 <= k < |s| - |l| ==> Trimmable(s[k])
    requires forall k :: |t| <= k < |l| ==> Trimmable(l[k])
    ensures Stripped(s, t)
  {
    hide Trim, Trimmable;
    var i := |s| - |l|;
    forall k | i + |t| <= k < |s| ensures Trimmable(s[k]) { assert s[k] == l[k - i]; }
    assert t == s[i..i + |t|];
    assert StrippedAt(s, t, i, i + |t|);
  }

  lemma {:induction false} LeftGone(s: string)
    ensures var l := LeftTrim(s);
            |l| <= |s| && l == s[|s| - |l|..] && forall k :: 0 <= k < |s| - |l| ==> Trimmable(s[k])
    decreases |s|
  {
    if s != "" && Trimmable(s[0]) {
      LeftGone(s[1..]);
      assert forall k :: 1 <= k < |s| ==> s[k] == s[1..][k - 1];
    }
  }

  lemma {:induction false} RightGone(s: string)
    ensures var r := RightTrim(s);
            |r| <= |s| && r == s[..|r|] && forall k :: |r| <= k < |s| ==> Trimmable(s[k])
    decreases |s|
  {
    if s != "" && Trimmable(s[|s| - 1]) {
      RightGone(s[..|s| - 1]);
      assert forall k :: 0 <= k < |s| - 1 ==> s[k] == s[..|s| - 1][k];
    }
  }

  lemma FittedIs(safe: string, e: string, maxChars: int)
    requires safe != ""
    ensures var room := maxChars - |e|;
            Fitted(safe, e, maxChars) == safe[..if |safe| <= room then |safe| else if room < 1 then 1 else room]
  {
  }

  lemma TrimmedWhole(safe: string, e: string)
    requires safe != "" && !Trimmable(safe[0]) && AllSafe(safe) && AllSafe(e)
    ensures var whole, name := safe + e, RightTrim(safe + e);
            && name != "" && name !in {"", ".", ".."} && !Trimmable(name[|name| - 1])
            && |name| <= |whole| && name == whole[..|name|]
            && forall i :: |name| <= i < |whole| ==> Trimmable(whole[i])
  {
    WholeName(safe, e);
    RightGone(safe + e);
    hide RightTrim, Trimmable, AllSafe;
  }

  lemma NameExactly(stem: string, ext: string, maxChars: int)
    ensures IsName(stem, ext, maxChars, SafeName(stem, ext, maxChars))
  {
    SubstituteIsSafe(stem, false);
    StemIsStripped(Substitute(stem, false));
    SafeStemIs(stem);
    SubstituteIsSafe(if |ext| > 16 then ext[..16] else ext, false);
    var body, safe, e := RightTrim(LeftTrim(Substitute(stem, false))), SafeStem(stem), SafeExtension(ext);
    FittedIs(safe, e, maxChars);
    assert safe == if body == "" then "file" else body;
    FittedSafe(safe, e, maxChars);
    TrimmedWhole(Fitted(safe, e, maxChars), e);
    SafeNameIs(stem, ext, maxChars);
    var name := SafeName(stem, ext, maxChars);
    hide *;
    assert NamedBy(body, ext, maxChars, name) by { NameFrom(body, ext, maxChars, safe, e, name); }
    IsNameBy(stem, ext, maxChars, name, body);
  }

  lemma FittedSafe(safe: string, e: string, maxChars: int)
    requires safe != "" && !Trimmable(safe[0]) && AllSafe(safe)
    ensures var f := Fitted(safe, e, maxChars); f != "" && !Trimmable(f[0]) && AllSafe(f)
  {
    hide Safe;
  }

  lemma SafeNameIs(stem: string, ext: string, maxChars: int)
    requires var whole := Fitted(SafeStem(stem), SafeExtension(ext), maxChars) + SafeExtension(ext);
             RightTrim(whole) !in {"", ".", ".."}
    ensures SafeName(stem, ext, maxChars)
            == RightTrim(Fitted(SafeStem(stem), SafeExtension(ext), maxChars) + SafeExtension(ext))
  {
    hide RightTrim, Fitted, SafeStem, SafeExtension;
  }

  lemma NameFrom(body: string, ext: string, maxChars: int, safe: string, e: string, name: string)
    requires safe == (if body == "" then "file" else body) && e == SafeExtension(ext)
    requires var whole := Fitted(safe, e, maxChars) + e;
             && name != "" && !Trimmable(name[|name| - 1])
             && |name| <= |whole| && name == whole[..|name|]
             && forall i :: |name| <= i < |whole| ==> Trimmable(whole[i])
    ensures NamedBy(body, ext, maxChars, name)
  {
    FittedIs(safe, e, maxChars);
    hide Fitted, Substitute, Trimmable;
  }

  lemma IsNameBy(stem: string, ext: string, maxChars: int, name: string, body: string)
    requires Stripped(Substitute(stem, false), body) && NamedBy(body, ext, maxChars, name)
    ensures IsName(stem, ext, maxChars, name)
  {
  }

  // ---- sanitize_filename ---------------------------------------------------------

  // An extension the function promises to keep.
  predicate KeepsExtension(ext: string) {
    2 <= |ext| <= 16 && AllSafe(ext) && !Trimmable(ext[|ext| - 1])
  }

  method SanitizeFilename(filename: Option<string>, maxChars: int, maxUtf8Bytes: int, nfkc: string -> string)
      returns (res: Result<string, NameError>)
    ensures res == Sanitized(filename, maxChars, maxUtf8Bytes, nfkc)
    ensures filename.None? || filename.value == "" ==> res == Ok("file")
    ensures filename.Some? && filename.value != "" ==>
              (res.Err? <==> |Utf8.EncodeText(Normalized(filename.value, nfkc))| > maxUtf8Bytes)
    ensures res.Ok? ==> res.value != "" && AllSafe(res.value) && Trim(res.value) && |res.value| <= Max(maxChars, 17)
    ensures res.Ok? && filename.Some? && filename.value != "" ==>
              var ext := SplitExt(Cleaned(filename.value, nfkc)).1;
              KeepsExtension(ext) ==> SplitExt(res.value).1 == ext
    ensures filename.Some? && filename.value != "" ==>
              SanitizesTo(filename.value, maxChars, maxUtf8Bytes, nfkc, res)
  {
    SanitizedIsSafe(filename, maxChars, maxUtf8Bytes, nfkc);
    SanitizedIsName(filename, maxChars, maxUtf8Bytes, nfkc);
    hide SanitizesTo;
    hide AfterLast, ReplaceBackslashes, Printable, Substitute, RightTrim, LeftTrim, Trim, AllSafe, KeepsExtension,
         SplitExt;
    hide Utf8.EncodeText, ClaimPayload.Strip;
    if filename.None? || filename.value == "" { return Ok("file"); }
    var normalized := ReplaceBackslashes(filename.value);
    normalized := ClaimPayload.Strip(normalized[AfterLast(normalized, '/')..]);
    normalized := nfkc(normalized);
    if |Utf8.EncodeText(normalized)| > maxUtf8Bytes { return Err(TooLong); }
    normalized := Printable(normalized);
    if normalized in {"", ".", ".."} { normalized := "file"; }
    var (stem, ext) := SplitExt(normalized);
    ext := if |ext| > 16 then ext[..16] else ext;
    var safeStem := RightTrim(LeftTrim(Substitute(stem, false)));
    var safeExt := Substitute(ext, false);
    if safeStem == "" { safeStem := "file"; }
    if |safeStem| + |safeExt| > maxChars {
      var keep := Max(1, maxChars - |safeExt|);
      safeStem := if |safeStem| > keep then safeStem[..keep] else safeStem;
    }
    var candidate := RightTrim(safeStem + safeExt);
    if candidate in {"", ".", ".."} { candidate := "file"; }
    res := Ok(candidate);
  }

  // From the filename to the returned name: the last component without the
  // spaces at its ends, normalised; refused if it is too long in bytes; its
  // control characters dropped; "file" for a name of no or only one or two
  // dots; and the parts of what is left.
  ghost predicate SanitizesTo(filename: string, maxChars: int, maxUtf8Bytes: int, nfkc: string -> string,
                              res: Result<string, NameError>) {
    exists part :: ClaimPayload.TrimsTo(Component(filename), part) && NamesPart(nfkc(part), maxChars, maxUtf8Bytes, res)
  }

  ghost predicate NamesPart(normal: string, maxChars: int, maxUtf8Bytes: int, res: Result<string, NameError>) {
    if |Utf8.EncodeText(normal)| > maxUtf8Bytes then res == Err(TooLong)
    else
      var shown := Printable(normal);
      var name := if shown == "" || shown == "." || shown == ".." then "file" else shown;
      res.Ok? && IsName(SplitExt(name).0, SplitExt(name).1, maxChars, res.value)
  }

  lemma SanitizedIsName(filename: Option<string>, maxChars: int, maxUtf8Bytes: int, nfkc: string -> string)
    ensures filename.Some? && filename.value != "" ==>
              SanitizesTo(filename.value, maxChars, maxUtf8Bytes, nfkc,
                          Sanitized(filename, maxChars, maxUtf8Bytes, nfkc))
  {
    hide SplitExt, SafeName, IsName, ClaimPayload.TrimsTo, ClaimPayload.Strip, Component, Printable, Utf8.EncodeText;
    if filename.Some? && filename.value != "" {
      var (stem, ext) := SplitExt(Cleaned(filename.value, nfkc));
      NameExactly(stem, ext, maxChars);
      ClaimPayload.StripTrims(Component(filename.value));
      var part := ClaimPayload.Strip(Component(filename.value));
      assert Normalized(filename.value, nfkc) == nfkc(part);
      assert NamesPart(nfkc(part), maxChars, maxUtf8Bytes, Sanitized(filename, maxChars, maxUtf8Bytes, nfkc));
    }
  }

  lemma SanitizedIsSafe(filename: Option<string>, maxChars: int, maxUtf8Bytes: int, nfkc: string -> string)
    ensures var res := Sanitized(filename, maxChars, maxUtf8Bytes, nfkc);
            res.Ok? ==> res.value != "" && AllSafe(res.value) && Trim(res.value) && |res.value| <= Max(maxChars, 17)
    ensures var res := Sanitized(filename, maxChars, maxUtf8Bytes, nfkc);
            res.Ok? && filename.Some? && filename.value != "" ==>
              var ext := SplitExt(Cleaned(filename.value, nfkc)).1;
              KeepsExtension(ext) ==> SplitExt(res.value).1 == ext
  {
    if filename.Some? && filename.value != "" {
      var cleaned := Cleaned(filename.value, nfkc);
      ExtensionShape(cleaned);
      SafeNameIsSafe(SplitExt(cleaned).0, SplitExt(cleaned).1, maxChars);
      hide SplitExt, Cleaned, SafeName, KeepsExtension;
    }
  }

  lemma SafeNameIsSafe(stem: string, ext: string, maxChars: int)
    ensures var name := SafeName(stem, ext, maxChars);
            name != "" && AllSafe(name) && Trim(name) && |name| <= Max(maxChars, 17)
    ensures KeepsExtension(ext) && ext[0] == '.' && '.' !in ext[1..] ==>
              SplitExt(SafeName(stem, ext, maxChars)).1 == ext
  {
    SubstituteIsSafe(if |ext| > 16 then ext[..16] else ext, false);
    SafeStemIs(stem);
    var safeStem := Fitted(SafeStem(stem), SafeExtension(ext), maxChars);
    assert safeStem != "" && safeStem[0] == SafeStem(stem)[0];
    hide SafeStem, Substitute;
    WholeName(safeStem, SafeExtension(ext));
    if KeepsExtension(ext) && ext[0] == '.' && '.' !in ext[1..] {
      WholeExtension(safeStem, ext);
    }
  }

  lemma SafeStemIs(stem: string)
    ensures var safe := SafeStem(stem); safe != "" && !Trimmable(safe[0]) && AllSafe(safe)
  {
    SubstituteIsSafe(stem, false);
    StemIsTrim(Substitute(stem, false));
  }

  lemma WholeName(stem: string, ext: string)
    requires stem != "" && !Trimmable(stem[0]) && AllSafe(stem) && AllSafe(ext)
    ensures var name := RightTrim(stem + ext);
            name != "" && AllSafe(name) && Trim(name) && |name| <= |stem| + |ext| && name !in {"", ".", ".."}
  {
    assert (stem + ext)[0] == stem[0];
    RightTrimmed(stem + ext);
  }

  lemma WholeExtension(stem: string, ext: string)
    requires stem != "" && !Trimmable(stem[0]) && AllSafe(stem)
    requires KeepsExtension(ext) && ext[0] == '.' && '.' !in ext[1..]
    ensures RightTrim(stem + ext) == stem + ext && SplitExt(stem + ext).1 == ext
  {
    assert (stem + ext)[|stem + ext| - 1] == ext[|ext| - 1];
    SafeHasNoSlash(stem);
    SafeHasNoSlash(ext);
    ExtensionFound(stem, ext);
  }

  // ---- names that need no change -------------------------------------------------

  // A stem and an extension the pattern leaves alone.
  predicate PlainParts(stem: string, ext: string) {
    && stem != "" && Trim(stem) && '/' !in stem
    && KeepsExtension(ext) && ext[0] == '.' && '.' !in ext[1..]
  }

  lemma PlainName(stem: string, ext: string, maxChars: int)
    requires PlainParts(stem, ext) && Trim(Substitute(stem, false)) && Substitute(stem, false) != ""
    requires |Substitute(stem, false)| + |ext| <= maxChars || |Substitute(stem, false)| == 1
    ensures SafeName(stem, ext, maxChars) == Substitute(stem, false) + ext
  {
    var safe := Substitute(stem, false);
    SubstituteIsSafe(stem, false);
    PlainStem(stem);
    PlainExtension(ext);
    hide Substitute, LeftTrim, RightTrim, Safe, SplitExt, SafeStem, SafeExtension;
    assert Fitted(safe, ext, maxChars) == safe;
    WholeExtension(safe, ext);
    WholeName(safe, ext);
    hide AllSafe, Trim, Fitted, KeepsExtension;
  }

  lemma PlainStem(stem: string)
    requires Trim(Substitute(stem, false)) && Substitute(stem, false) != ""
    ensures SafeStem(stem) == Substitute(stem, false)
  {
    hide Substitute;
  }

  lemma PlainExtension(ext: string)
    requires KeepsExtension(ext)
    ensures SafeExtension(ext) == ext
  {
    SubstituteIsSafe(ext, false);
    hide Substitute, Safe;
  }

  // Up to the split nothing happens to a printable name in normal form that is
  // one path component.
  lemma PlainFilename(stem: string, ext: string, nfkc: string -> string)
    requires PlainParts(stem, ext) && Component(stem + ext) == stem + ext && nfkc(stem + ext) == stem + ext
    requires !ClaimPayload.IsSpace(stem[0]) && forall i :: 0 <= i < |stem| ==> ' ' <= stem[i] < '\U{7F}'
    ensures Normalized(stem + ext, nfkc) == stem + ext && SplitExt(Cleaned(stem + ext, nfkc)) == (stem, ext)
    ensures |Utf8.EncodeText(stem + ext)| == |stem + ext|
  {
    var name := stem + ext;
    assert name[0] == stem[0] && name[|name| - 1] == ext[|ext| - 1];
    SafeIsPrintable(ext);
    hide Safe;
    StripPlain(name);
    PlainText(name);
    SafeHasNoSlash(ext);
    ExtensionFound(stem, ext);
    hide SplitExt, Component, Printable, ClaimPayload.Strip, Utf8.EncodeText, AllSafe, Trim;
  }

  lemma SafeIsPrintable(s: string)
    requires AllSafe(s)
    ensures forall i :: 0 <= i < |s| ==> ' ' <= s[i] < '\U{7F}'
  {
  }

  lemma StripPlain(s: string)
    requires s != "" && !ClaimPayload.IsSpace(s[0]) && !ClaimPayload.IsSpace(s[|s| - 1])
    ensures ClaimPayload.Strip(s) == s
  {
  }

  lemma {:induction false} PlainText(s: string)
    requires forall i :: 0 <= i < |s| ==> ' ' <= s[i] < '\U{7F}'
    ensures Printable(s) == s && |Utf8.EncodeText(s)| == |s|
    decreases |s|
  {
    if s != "" {
      PlainText(s[1..]);
      assert s == [s[0]] + s[1..];
    }
  }

  // ---- the limit is met exactly from 17 on -----------------------------------------

  // An extension of full length.
  function LongExtension(): (ext: string)
    ensures |ext| == 16 && ext[0] == '.' && forall i :: 0 < i < 16 ==> ext[i] == 'b'
  {
    "." + seq(15, _ => 'b')
  }

  // One character of the stem and a whole extension are always kept.
  lemma ShortestIsKept(maxChars: int, maxUtf8Bytes: int, nfkc: string -> string)
    requires nfkc("a" + LongExtension()) == "a" + LongExtension() && maxUtf8Bytes >= 17
    ensures Sanitized(Some("a" + LongExtension()), maxChars, maxUtf8Bytes, nfkc) == Ok("a" + LongExtension())
  {
    ShortestParts();
    hide *;
    PlainFilename("a", LongExtension(), nfkc);
    PlainName("a", LongExtension(), maxChars);
    PlainResult("a", LongExtension(), maxChars, maxUtf8Bytes, nfkc);
  }

  lemma ShortestParts()
    ensures var stem, ext := "a", LongExtension();
            && PlainParts(stem, ext) && Component(stem + ext) == stem + ext
            && !ClaimPayload.IsSpace(stem[0]) && ' ' <= stem[0] < '\U{7F}'
            && Substitute(stem, false) == "a" && Trim("a")
  {
    LongExtensionIs();
    assert AllSafe("a") && Trim("a");
    SubstituteIsSafe("a", false);
    hide LongExtension, KeepsExtension, AllSafe, Safe, Trim, Trimmable, Substitute;
    PlainComponent("a" + LongExtension());
    hide Component;
  }

  lemma LongExtensionIs()
    ensures var ext := LongExtension();
            KeepsExtension(ext) && '.' !in ext[1..] && '/' !in ext && '\\' !in ext
  {
    hide LongExtension;
    assert AllSafe(LongExtension());
    hide AllSafe, Safe;
  }

  lemma PlainComponent(s: string)
    requires '\\' !in s && '/' !in s
    ensures Component(s) == s
  {
    NoBackslash(s);
    assert AfterLast(s, '/') == 0;
  }

  lemma PlainResult(stem: string, ext: string, maxChars: int, maxUtf8Bytes: int, nfkc: string -> string)
    requires stem + ext != "" && Normalized(stem + ext, nfkc) == stem + ext
    requires SplitExt(Cleaned(stem + ext, nfkc)) == (stem, ext) && |Utf8.EncodeText(stem + ext)| <= maxUtf8Bytes
    ensures Sanitized(Some(stem + ext), maxChars, maxUtf8Bytes, nfkc) == Ok(SafeName(stem, ext, maxChars))
  {
  }

  // Whether a limit is met by every name that is returned.
  ghost predicate LimitHolds(maxChars: int) {
    forall filename, maxUtf8Bytes, nfkc :: Sanitized(filename, maxChars, maxUtf8Bytes, nfkc).Ok? ==>
      |Sanitized(filename, maxChars, maxUtf8Bytes, nfkc).value| <= maxChars
  }

  lemma LimitHoldsExactly(maxChars: int)
    ensures LimitHolds(maxChars) <==> maxChars >= 17
  {
    if maxChars >= 17 {
      forall filename, maxUtf8Bytes, nfkc | Sanitized(filename, maxChars, maxUtf8Bytes, nfkc).Ok?
        ensures |Sanitized(filename, maxChars, maxUtf8Bytes, nfkc).value| <= maxChars
      {
        SanitizedIsSafe(filename, maxChars, maxUtf8Bytes, nfkc);
      }
    } else {
      ShortestIsKept(maxChars, 17, s => s);
      assert |Sanitized(Some("a" + LongExtension()), maxChars, 17, s => s).value| == 17;
    }
  }

  // ---- path components ----------------------------------------------------------

  predicate IsSeparator(c: char) { c == '/' || c == '\\' }

  predicate HasSeparator(s: string) { exists i :: 0 <= i < |s| && IsSeparator(s[i]) }

  // What is left when every path component but the last is dropped, both '\\'
  // and '/' being separators: the longest suffix without one.
  function LastPart(s: string): string
    decreases |s|
  {
    if HasSeparator(s) then LastPart(s[1..]) else s
  }

  predicate PairAt(s: string, i: int) { 0 <= i < |s| - 1 && s[i] == '\\' && s[i + 1] == '\\' }

  predicate HasPair(s: string) { exists i :: 0 <= i < |s| && PairAt(s, i) }

  // The length of the run of backslashes that ends at a position.
  function Run(s: string, i: nat): nat
    requires i < |s|
  {
    if s[i] != '\\' then 0 else if i == 0 then 1 else 1 + Run(s, i - 1)
  }

  // A run of backslashes of odd length ends here, and neither "/" nor two
  // backslashes in a row come later.
  predicate LoneBackslash(s: string, i: nat) {
    && i < |s| && s[i] == '\\' && Run(s, i) % 2 == 1
    && (i + 1 < |s| ==> s[i + 1] != '\\')
    && '/' !in s[i + 1..] && !HasPair(s[i + 1..])
  }

  lemma {:induction false} NoPair(s: string)
    requires !HasPair(s)
    ensures ReplaceBackslashes(s) == s
    decreases |s|
  {
    if s != "" {
      assert !PairAt(s, 0);
      assert forall i :: PairAt(s[1..], i) ==> PairAt(s, i + 1);
      NoPair(s[1..]);
      assert |s| >= 2 ==> s[..2] == [s[0], s[1]];
    }
  }

  lemma NoBackslash(s: string)
    requires '\\' !in s
    ensures ReplaceBackslashes(s) == s
  {
    assert !HasPair(s);
    NoPair(s);
  }

  // Replacing, one step at a time.
  lemma ReplaceStep(s: string)
    requires s != ""
    ensures if PairAt(s, 0) then ReplaceBackslashes(s) == "/" + ReplaceBackslashes(s[2..])
            else ReplaceBackslashes(s) == [s[0]] + ReplaceBackslashes(s[1..])
  {
    if |s| >= 2 {
      assert s[..2] == [s[0], s[1]];
    }
  }

  lemma {:induction false} SlashExactly(s: string)
    ensures '/' in ReplaceBackslashes(s) <==> '/' in s || HasPair(s)
    decreases |s|
  {
    if s != "" {
      ReplaceStep(s);
      if !PairAt(s, 0) {
        SlashExactly(s[1..]);
        assert s == [s[0]] + s[1..];
        assert forall i :: PairAt(s, i) ==> PairAt(s[1..], i - 1);
        assert forall i :: PairAt(s[1..], i) ==> PairAt(s, i + 1);
      }
    }
  }

  lemma {:induction false} AfterLastStep(c: char, t: string, d: char)
    ensures AfterLast([c] + t, d) == if d in t then AfterLast(t, d) + 1 else if c == d then 1 else 0
    ensures d in t <==> AfterLast(t, d) > 0
    decreases |t|
  {
    if t != "" {
      var n := |t| - 1;
      AfterLastStep(c, t[..n], d);
      assert ([c] + t)[..n + 1] == [c] + t[..n];
      assert t == t[..n] + [t[n]];
    }
  }

  lemma ComponentStep(s: string)
    requires s != ""
    ensures PairAt(s, 0) ==> Component(s) == Component(s[2..])
    ensures !PairAt(s, 0) ==>
              Component(s) == if s[0] == '/' || '/' in s[1..] || HasPair(s[1..]) then Component(s[1..])
                              else [s[0]] + s[1..]
    ensures !PairAt(s, 0) && '/' !in s[1..] && !HasPair(s[1..]) ==> Component(s[1..]) == s[1..]
  {
    var first := if PairAt(s, 0) then '/' else s[0];
    var t := if PairAt(s, 0) then s[2..] else s[1..];
    ReplaceStep(s);
    SlashExactly(t);
    AfterLastStep(first, ReplaceBackslashes(t), '/');
    assert ReplaceBackslashes(s) == [first] + ReplaceBackslashes(t);
    if !HasPair(t) { NoPair(t); }
    hide ReplaceBackslashes, AfterLast, HasPair, PairAt;
    AfterStep(s, first, t);
  }

  lemma AfterStep(s: string, first: char, t: string)
    requires ReplaceBackslashes(s) == [first] + ReplaceBackslashes(t)
    requires var r := ReplaceBackslashes(t);
             && AfterLast([first] + r, '/')
                == (if '/' in r then AfterLast(r, '/') + 1 else if first == '/' then 1 else 0)
             && ('/' in r <==> AfterLast(r, '/') > 0)
    ensures var r := ReplaceBackslashes(t);
            && Component(s) == (if first == '/' || '/' in r then Component(t) else [first] + r)
            && ('/' !in r ==> Component(t) == r)
  {
    hide ReplaceBackslashes, AfterLast;
  }

  // Runs, seen from one or two characters further on.
  lemma {:induction false} RunStep(s: string, i: nat)
    requires 0 < i < |s| && !PairAt(s, 0)
    ensures Run(s, i) == Run(s[1..], i - 1)
  {
    if i > 1 { RunStep(s, i - 1); }
  }

  lemma {:induction false} RunPairStep(s: string, i: nat)
    requires 2 <= i < |s| && PairAt(s, 0)
    ensures Run(s, i) % 2 == Run(s[2..], i - 2) % 2
  {
    if i > 2 {
      RunPairStep(s, i - 1);
    } else {
      assert Run(s, 1) == 2;
    }
  }

  lemma LoneStep(s: string, i: nat)
    requires s != "" && i < |s|
    ensures PairAt(s, 0) && i < 2 ==> !LoneBackslash(s, i)
    ensures PairAt(s, 0) && i >= 2 ==> (LoneBackslash(s, i) <==> LoneBackslash(s[2..], i - 2))
    ensures !PairAt(s, 0) && i >= 1 ==> (LoneBackslash(s, i) <==> LoneBackslash(s[1..], i - 1))
    ensures !PairAt(s, 0) && i == 0 ==>
              (LoneBackslash(s, i) <==> s[0] == '\\' && '/' !in s[1..] && !HasPair(s[1..]))
  {
    if PairAt(s, 0) {
      if i >= 2 {
        RunPairStep(s, i);
        assert s[2..][i - 2 + 1..] == s[i + 1..];
      } else if i == 1 {
        assert Run(s, 1) == 2;
      }
    } else if i >= 1 {
      RunStep(s, i);
      assert s[1..][i - 1 + 1..] == s[i + 1..];
    }
  }

  ghost predicate HasLone(s: string) { exists i: nat :: LoneBackslash(s, i) }

  lemma HasLoneStep(s: string)
    requires s != ""
    ensures PairAt(s, 0) ==> (HasLone(s) <==> HasLone(s[2..]))
    ensures !PairAt(s, 0) ==>
              (HasLone(s) <==> HasLone(s[1..]) || (s[0] == '\\' && '/' !in s[1..] && !HasPair(s[1..])))
  {
    var k := if PairAt(s, 0) then 2 else 1;
    forall i: nat | i < |s| ensures LoneBackslash(s, i) ==> i == 0 || (i >= k && LoneBackslash(s[k..], i - k)) {
      LoneStep(s, i);
    }
    forall i: nat | i < |s[k..]| ensures LoneBackslash(s[k..], i) ==> LoneBackslash(s, i + k) {
      LoneStep(s, i + k);
    }
    LoneStep(s, 0);
    hide Run, HasPair, PairAt;
  }

  // The kept component has a backslash exactly when some backslash is lone.
  lemma {:induction false} BackslashExactly(s: string)
    ensures '\\' in Component(s) <==> HasLone(s)
    decreases |s|
  {
    if s != "" {
      ComponentStep(s);
      HasLoneStep(s);
      BackslashExactly(s[1..]);
      if PairAt(s, 0) { BackslashExactly(s[2..]); }
    }
  }

  lemma LastPartStep(s: string)
    requires s != ""
    ensures IsSeparator(s[0]) || HasSeparator(s[1..]) ==> LastPart(s) == LastPart(s[1..])
    ensures !IsSeparator(s[0]) && !HasSeparator(s[1..]) ==> LastPart(s) == s && LastPart(s[1..]) == s[1..]
  {
    assert s == [s[0]] + s[1..];
    if HasSeparator(s[1..]) {
      var i :| 0 <= i < |s[1..]| && IsSeparator(s[1..][i]);
      assert IsSeparator(s[i + 1]);
    }
    if IsSeparator(s[0]) { assert HasSeparator(s); }
    if !IsSeparator(s[0]) && !HasSeparator(s[1..]) {
      forall i | 0 <= i < |s| ensures !IsSeparator(s[i]) { assert i > 0 ==> s[i] == s[1..][i - 1]; }
    }
  }

  lemma {:induction false} NoLoneIsLastPart(s: string)
    requires '\\' !in Component(s)
    ensures Component(s) == LastPart(s)
    decreases |s|
  {
    if s != "" {
      ComponentStep(s);
      LastPartStep(s);
      SeparatorIn(s[1..]);
      if PairAt(s, 0) {
        LastPartStep(s[1..]);
        assert s[1..][1..] == s[2..];
        hide *;
        NoLoneIsLastPart(s[2..]);
      } else if s[0] == '/' || '/' in s[1..] || HasPair(s[1..]) {
        hide Component, LastPart, HasPair, HasSeparator;
        NoLoneIsLastPart(s[1..]);
      } else {
        PlainHasNoSeparator(s);
        hide *;
      }
    }
  }

  lemma SeparatorIn(s: string)
    ensures '/' in s || HasPair(s) ==> HasSeparator(s)
  {
    if '/' in s {
      var i :| 0 <= i < |s| && s[i] == '/';
      assert IsSeparator(s[i]);
    } else if HasPair(s) {
      var i :| 0 <= i < |s| && PairAt(s, i);
      assert IsSeparator(s[i]);
    }
  }

  lemma PlainHasNoSeparator(s: string)
    requires s != "" && s[0] != '/' && '/' !in s[1..] && !HasPair(s[1..]) && '\\' !in s
    ensures !IsSeparator(s[0]) && !HasSeparator(s[1..])
  {
  }

  lemma LastPartIsOne(s: string)
    ensures !HasSeparator(LastPart(s)) && |LastPart(s)| <= |s| && LastPart(s) == s[|s| - |LastPart(s)|..]
    ensures |LastPart(s)| < |s| ==> IsSeparator(s[|s| - |LastPart(s)| - 1])
    decreases |s|
  {
    if HasSeparator(s) { LastPartIsOne(s[1..]); }
  }

  // The promise of dropping path components of both kinds is kept exactly for
  // filenames without a lone backslash; with one, the kept name still has it.
  lemma PathDroppedExactly(filename: string)
    ensures Component(filename) == LastPart(filename) <==> !HasLone(filename)
    ensures '\\' in ClaimPayload.Strip(Component(filename)) <==> HasLone(filename)
  {
    BackslashExactly(filename);
    StripKeeps(Component(filename), '\\');
    if '\\' in Component(filename) {
      LastPartIsOne(filename);
      var i :| 0 <= i < |Component(filename)| && Component(filename)[i] == '\\';
      assert IsSeparator(Component(filename)[i]);
    } else {
      NoLoneIsLastPart(filename);
    }
  }

  lemma StripKeeps(s: string, c: char)
    requires !ClaimPayload.IsSpace(c)
    ensures c in ClaimPayload.Strip(s) <==> c in s
  {
    LeftStripKeeps(s, c);
    RightStripKeeps(ClaimPayload.LeftStrip(s), c);
  }

  lemma {:induction false} LeftStripKeeps(s: string, c: char)
    requires !ClaimPayload.IsSpace(c)
    ensures c in ClaimPayload.LeftStrip(s) <==> c in s
    decreases |s|
  {
    if s != "" && ClaimPayload.IsSpace(s[0]) {
      LeftStripKeeps(s[1..], c);
      assert s == [s[0]] + s[1..];
    }
  }

  lemma {:induction false} RightStripKeeps(s: string, c: char)
    requires !ClaimPayload.IsSpace(c)
    ensures c in ClaimPayload.RightStrip(s) <==> c in s
    decreases |s|
  {
    if s != "" && ClaimPayload.IsSpace(s[|s| - 1]) {
      RightStripKeeps(s[..|s| - 1], c);
      assert s == s[..|s| - 1] + [s[|s| - 1]];
    }
  }

  // So a directory before a single backslash becomes part of the name, joined
  // by the "_" of an unsafe character.
  lemma SingleBackslashIsJoined(a: string, b: string, ext: string, maxChars: int, maxUtf8Bytes: int,
                                nfkc: string -> string)
    requires a != "" && b != "" && AllSafe(a) && AllSafe(b) && !Trimmable(a[0]) && !Trimmable(b[|b| - 1])
    requires KeepsExtension(ext) && ext[0] == '.' && '.' !in ext[1..]
    requires var filename := a + "\\" + b + ext;
             nfkc(filename) == filename && |filename| <= maxChars && |filename| <= maxUtf8Bytes
    ensures Sanitized(Some(a + "\\" + b + ext), maxChars, maxUtf8Bytes, nfkc) == Ok(a + "_" + b + ext)
  {
    var stem, name := a + "\\" + b, a + "\\" + b + ext;
    SingleParts(a, b, ext);
    assert Normalized(name, nfkc) == name && SplitExt(Cleaned(name, nfkc)) == (stem, ext)
           && |Utf8.EncodeText(name)| == |name| by {
      hide *;
      PlainFilename(stem, ext, nfkc);
    }
    assert SafeName(stem, ext, maxChars) == a + "_" + b + ext by {
      hide *;
      PlainName(stem, ext, maxChars);
    }
    hide *;
    PlainResult(stem, ext, maxChars, maxUtf8Bytes, nfkc);
  }

  lemma SingleParts(a: string, b: string, ext: string)
    requires a != "" && b != "" && AllSafe(a) && AllSafe(b) && !Trimmable(a[0]) && !Trimmable(b[|b| - 1])
    requires KeepsExtension(ext) && ext[0] == '.' && '.' !in ext[1..]
    ensures var stem, safe := a + "\\" + b, a + "_" + b;
            && PlainParts(stem, ext) && Component(stem + ext) == stem + ext
            && !ClaimPayload.IsSpace(stem[0]) && (forall i :: 0 <= i < |stem| ==> ' ' <= stem[i] < '\U{7F}')
            && Substitute(stem, false) == safe && Trim(safe)
  {
    var stem, safe := a + "\\" + b, a + "_" + b;
    SafeHasNoSlash(a);
    SafeHasNoSlash(b);
    SafeHasNoSlash(ext);
    SingleIsComponent(a, b + ext);
    assert a + "\\" + (b + ext) == stem + ext;
    SubstituteSingle(a, b);
    SafeIsPrintable(a);
    SafeIsPrintable(b);
    assert !ClaimPayload.IsSpace(a[0]);
    hide Substitute, Component, Safe, AllSafe, KeepsExtension;
    assert stem[0] == a[0] && stem[|stem| - 1] == b[|b| - 1];
    assert safe[0] == a[0] && safe[|safe| - 1] == b[|b| - 1];
  }

  lemma SingleIsComponent(a: string, t: string)
    requires '\\' !in a && '\\' !in t && '/' !in a && '/' !in t
    ensures Component(a + "\\" + t) == a + "\\" + t
  {
    var s := a + "\\" + t;
    assert !HasPair(s);
    NoPair(s);
    assert '/' !in s;
    assert AfterLast(s, '/') == 0;
  }

  lemma SubstituteSingle(a: string, b: string)
    requires AllSafe(a) && AllSafe(b)
    ensures Substitute(a + "\\" + b, false) == a + "_" + b
  {
    SubstituteRest(a, "\\" + b);
    assert a + ("\\" + b) == a + "\\" + b;
    SubstituteIsSafe(b, true);
    assert ("\\" + b)[1..] == b;
  }

  lemma SingleBackslashExample(nfkc: string -> string)
    requires nfkc("a\\b.txt") == "a\\b.txt"
    ensures Sanitized(Some("a\\b.txt"), 255, 1024, nfkc) == Ok("a_b.txt") && LastPart("a\\b.txt") == "b.txt"
  {
    assert "a" + "\\" + "b" + ".txt" == "a\\b.txt" && "a" + "_" + "b" + ".txt" == "a_b.txt";
    ExampleParts();
    hide *;
    SingleBackslashIsJoined("a", "b", ".txt", 255, 1024, nfkc);
  }

  lemma ExampleParts()
    ensures AllSafe("a") && AllSafe("b") && KeepsExtension(".txt") && !Trimmable('a') && !Trimmable('b')
    ensures LastPart("a\\b.txt") == "b.txt"
  {
    hide LastPart;
    var s := "a\\b.txt";
    LastPartStep(s);
    LastPartStep(s[1..]);
    assert s[1..][1..] == "b.txt" && IsSeparator(s[1..][0]);
    LastPartStep("ab.txt");
    assert "ab.txt"[1..] == "b.txt";
  }
}
