/** The supervisor's view of the tunnel child's output: `logTail` in
    internal/awsdb/transport.go. Output arrives in chunks cut at arbitrary places. */
module LogTails {
  import opened Text
  import opened Redaction
  import opened Recovery

  /** The size limit of the kept text and of an unfinished line. */
  const LIMIT: nat := 8192

  /** Everything that the chunks carry. */
  function Stream(chunks: seq<string>): string {
    if chunks == [] then "" else Stream(Init(chunks)) + Last(chunks)
  }

  // ---- The kept text ----

  function Limited(s: string): string { if |s| > LIMIT then s[|s| - LIMIT..] else s }

  /** The kept text after these writes. */
  function TextAfter(token: string, chunks: seq<string>): (text: string)
    ensures |text| <= LIMIT
  {
    if chunks == [] then "" else Limited(Redact(TextAfter(token, Init(chunks)) + Last(chunks), token))
  }

  /** How much of the redacted stream is no longer kept. */
  function Dropped(token: string, chunks: seq<string>): nat {
    if chunks == [] then 0
    else
      var r := Redact(TextAfter(token, Init(chunks)) + Last(chunks), token);
      Dropped(token, Init(chunks)) + (if |r| > LIMIT then |r| - LIMIT else 0)
  }

  /** The longest beginning of a token that may still be unsettled. */
  function Unsettled(token: string): nat { if token == "" then 0 else |token| - 1 }

  /** The text is the redacted stream without its first `k` characters, all settled. */
  predicate Keeps(token: string, w: string, k: nat, text: string) {
    && k <= |Out(w, token)|
    && (k > 0 ==> k + LIMIT - Unsettled(token) <= |Out(w, token)|)
    && text == Redact(w, token)[k..]
  }

  lemma {:induction false} TextIsRest(token: string, chunks: seq<string>)
    requires Clean(token) && |token| <= LIMIT + 1
    ensures Keeps(token, Stream(chunks), Dropped(token, chunks), TextAfter(token, chunks))
  {
    hide Clean, MARK, Keeps;
    if chunks == [] {
      NothingKept(token);
    } else {
      hide Redact, Limited;
      TextIsRest(token, Init(chunks));
      WriteKeeps(token, Stream(Init(chunks)), Dropped(token, Init(chunks)),
        TextAfter(token, Init(chunks)), Last(chunks));
    }
  }

  lemma NothingKept(token: string)
    ensures Keeps(token, "", 0, "")
  {
    assert Redact("", token) == "";
  }

  lemma WriteKeeps(token: string, w: string, k: nat, text: string, d: string)
    requires Clean(token) && |token| <= LIMIT + 1 && Keeps(token, w, k, text)
    ensures var r := Redact(text + d, token);
      Keeps(token, w + d, k + (if |r| > LIMIT then |r| - LIMIT else 0), Limited(r))
  {
    hide Clean, MARK, Out, Rest, Redact, Limited;
    var all, r := Redact(w + d, token), Redact(text + d, token);
    SettledLength(w + d, token);
    assert |Out(w, token)| <= |Out(w + d, token)| by { RedactResumes(w, d, token, k); }
    assert r == all[k..] by { RedactResumes(w, d, token, k); }
    LimitedRest(all, k);
  }

  lemma SettledLength(w: string, token: string)
    ensures |Out(w, token)| <= |Redact(w, token)| <= |Out(w, token)| + Unsettled(token)
  {}

  lemma LimitedRest(r: string, k: nat)
    requires k <= |r|
    ensures var n := if |r[k..]| > LIMIT then |r[k..]| - LIMIT else 0;
      Limited(r[k..]) == r[k + n..]
  {}

  /** After every write the text is the end of the redacted stream, however the stream was
      cut into chunks: all of it as long as nothing was dropped, and otherwise no fewer than
      the last 8193 - |token| and no more than the last 8192 characters. */
  lemma TextIsSuffix(token: string, chunks: seq<string>)
    requires Clean(token) && |token| <= LIMIT + 1
    ensures var text, all := TextAfter(token, chunks), Redact(Stream(chunks), token);
      && IsSuffix(text, all) && |text| <= LIMIT && Free(text, token)
      && (text == all || |text| >= LIMIT - Unsettled(token))
  {
    hide Clean, Out, Rest, MARK, Redact;
    var w, k := Stream(chunks), Dropped(token, chunks);
    TextIsRest(token, chunks);
    SettledLength(w, token);
    RedactedIsFree(w, token);
    var text, all := TextAfter(token, chunks), Redact(w, token);
    assert |all| - |text| == k && all[0..] == all;
    SuffixIsFree(text, all, token);
  }

  lemma OneWrite(token: string, a: string)
    ensures Stream([a]) == a && TextAfter(token, [a]) == Limited(Redact(a, token))
  {
    hide Redact, Limited;
    assert Init([a]) == [] && "" + a == a;
    assert Stream([]) == "" && TextAfter(token, []) == "";
  }

  lemma TwoWrites(token: string, a: string, b: string)
    ensures Stream([a, b]) == a + b
    ensures TextAfter(token, [a, b]) == Limited(Redact(TextAfter(token, [a]) + b, token))
  {
    OneWrite(token, a);
    hide Redact, Limited;
    assert Init([a, b]) == [a] && Last([a, b]) == b;
  }

  /** A longer token can be cut so that its end stays in the text unredacted. */
  lemma LongTokenLeaks(token: string)
    requires |token| > LIMIT + 1
    ensures var chunks := [token[..LIMIT + 1], token[LIMIT + 1..]];
      && Stream(chunks) == token && Redact(token, token) == MARK
      && TextAfter(token, chunks) == token[|token| - LIMIT..]
      && !IsSuffix(TextAfter(token, chunks), MARK)
  {
    hide MARK, Redact, Limited, TextAfter, Stream;
    MarkShape();
    var a, b := token[..LIMIT + 1], token[LIMIT + 1..];
    Slices(token);
    OneWrite(token, a);
    TwoWrites(token, a, b);
    ShortIsCopied(a, token);
    ShortIsCopied(token[1..], token);
    TokenIsReplaced(token, "");
    assert token + "" == token && MARK + "" == MARK;
  }

  lemma Slices(token: string)
    requires |token| > LIMIT + 1
    ensures var a, b := token[..LIMIT + 1], token[LIMIT + 1..];
      && a + b == token && Limited(a) + b == token[1..]
      && Limited(token[1..]) == token[|token| - LIMIT..]
  {
    assert token[..LIMIT + 1][1..] == token[1..][..LIMIT];
  }

  /** Some character does not occur. */
  lemma {:induction false} FreshChar(s: string, n: nat) returns (c: char)
    requires |s| <= n < 0xD800
    ensures c as int <= n && c !in s
    decreases n
  {
    c := n as char;
    if c in s {
      var i :| 0 <= i < |s| && s[i] == c;
      c := FreshChar(Rid(s, c), n - 1);
    }
  }

  function Rid(s: string, c: char): (r: string)
    ensures |r| <= |s| && (c in s ==> |r| < |s|)
    ensures forall x | x in s :: x == c || x in r
  {
    if s == "" then ""
    else
      assert s == [s[0]] + s[1..];
      if s[0] == c then Rid(s[1..], c) else [s[0]] + Rid(s[1..], c)
  }

  /** What a token that comes back leaves in the text is redacted again by the next write,
      even an empty one, behind a character that it does not have. */
  lemma UncleanRepeats(token: string) returns (chunks: seq<string>)
    requires !Clean(token) && token != MARK && |token| + 12 <= LIMIT
    ensures !IsSuffix(TextAfter(token, chunks), Redact(Stream(chunks), token))
  {
    hide MARK, Redact, TextAfter, Stream, Fits, Quiet, Free;
    MarkShape();
    var i :| -|token| < i < 10 && ComesBack(token, i);
    TokenComesBack(token, i);
    var x, z := Ahead(token, i), Behind(token, i);
    var w, r := x + (token + z), x + (MARK + z);
    var c := FreshChar(r + token, |r + token|);
    FreshIsCopied(c, w, token);
    FreshIsCopied(c, r, token);
    RedactChanges(r, token);
    chunks := [[c] + w, ""];
    assert ([c] + w) + "" == [c] + w && ([c] + r) + "" == [c] + r;
    OneWrite(token, [c] + w);
    TwoWrites(token, [c] + w, "");
    FreshIsFirst(c, r, Redact(r, token));
  }

  lemma FreshIsCopied(c: char, s: string, token: string)
    requires token != "" && c !in token
    ensures Redact([c] + s, token) == [c] + Redact(s, token)
  {
    hide Redact;
    var w := [c] + s;
    assert token[0] in token;
    Starts(w, token);
    QuietIsCopied(w, 1, token);
    assert w[..1] == [c] && w[1..] == s;
  }

  lemma Starts(s: string, token: string)
    requires s != "" && token != ""
    ensures At(s, token, 0) ==> s[0] == token[0]
  {
    assert s[0..] == s;
  }

  lemma FreshIsFirst(c: char, r: string, r': string)
    requires c !in r && r' != r && |r| + 2 <= LIMIT
    ensures !IsSuffix(Limited([c] + r'), [c] + r)
  {
    var a, b := Limited([c] + r'), [c] + r;
    if |a| <= |b| && |r'| < LIMIT {
      assert a == [c] + r' && a[0] == c && a[1..] == r';
      var k := |b| - |a|;
      assert b[k..][0] == b[k] && b[k..][1..] == b[k + 1..] && b[1..] == r;
      assert k > 0 ==> b[k] == r[k - 1] && r[k - 1] in r;
    }
  }

  /** A token that equals the mark is redacted into itself. */
  lemma {:induction false} MarkIsHarmless(chunks: seq<string>)
    ensures IsSuffix(TextAfter(MARK, chunks), Redact(Stream(chunks), MARK))
  {
    hide MARK, Redact;
    MarkIsKept(Stream(chunks));
    if chunks != [] {
      MarkIsHarmless(Init(chunks));
      MarkIsKept(Stream(Init(chunks)));
      var text, d := TextAfter(MARK, Init(chunks)), Last(chunks);
      MarkIsKept(text + d);
      SuffixGrows(text, Stream(Init(chunks)), d);
    }
  }

  lemma SuffixGrows(a: string, b: string, d: string)
    requires IsSuffix(a, b)
    ensures IsSuffix(Limited(a + d), b + d)
  {
    assert (b + d)[|b| - |a|..] == a + d;
  }

  /** The text is a suffix of the redacted stream for every cutting of every stream exactly
      when the token is the mark, or is clean and has at most 8193 characters; the 8192 byte
      limit on the session response that carries the token guarantees the latter. Only for
      unclean tokens of 8181 to 8193 characters this does not say. */
  lemma TextIsSuffixIff(token: string)
    requires Clean(token) || |token| + 12 <= LIMIT || |token| > LIMIT + 1
    ensures (forall chunks :: IsSuffix(TextAfter(token, chunks), Redact(Stream(chunks), token)))
      <==> token == MARK || (Clean(token) && |token| <= LIMIT + 1)
  {
    hide Clean, TextAfter, Stream, Redact, MARK;
    MarkShape();
    if token == MARK {
      forall chunks ensures IsSuffix(TextAfter(token, chunks), Redact(Stream(chunks), token)) {
        MarkIsHarmless(chunks);
      }
    } else if |token| > LIMIT + 1 {
      LongTokenLeaks(token);
    } else if Clean(token) {
      forall chunks ensures IsSuffix(TextAfter(token, chunks), Redact(Stream(chunks), token)) {
        TextIsSuffix(token, chunks);
      }
    } else {
      var chunks := UncleanRepeats(token);
      assert !IsSuffix(TextAfter(token, chunks), Redact(Stream(chunks), token));
    }
  }

  // ---- Lines ----

  /** The newline-terminated lines of `s`, without their newlines. */
  function Lines(s: string): seq<string> {
    if '\n' !in s then []
    else
      var line := Before(s, '\n');
      [line] + Lines(s[|line| + 1..])
  }

  /** What follows the last newline. */
  function Partial(s: string): (p: string)
    ensures '\n' !in p
  {
    if '\n' !in s then s else Partial(s[|Before(s, '\n')| + 1..])
  }

  /** The unfinished line after these writes; one that grew over the limit is forgotten. */
  function PendingAfter(chunks: seq<string>): (p: string)
    ensures '\n' !in p
  {
    if chunks == [] then ""
    else
      var p := Partial(PendingAfter(Init(chunks)) + Last(chunks));
      if |p| > LIMIT then "" else p
  }

  /** The lines that the writes look at. */
  function LinesAfter(chunks: seq<string>): seq<string> {
    if chunks == [] then []
    else LinesAfter(Init(chunks)) + Lines(PendingAfter(Init(chunks)) + Last(chunks))
  }

  lemma FirstBreak(a: string, b: string)
    requires '\n' in a
    ensures Before(a + b, '\n') == Before(a, '\n') && '\n' in a + b
    ensures var n := |Before(a, '\n')| + 1; n <= |a| && (a + b)[n..] == a[n..] + b
  {
    var l := Before(a, '\n');
    assert a + b == l + ['\n'] + (a[|l| + 1..] + b);
    BeforeIs(l, '\n', a[|l| + 1..] + b);
  }

  lemma {:induction false} LinesOfConcat(a: string, b: string)
    ensures Lines(a + b) == Lines(a) + Lines(Partial(a) + b)
    ensures Partial(a + b) == Partial(Partial(a) + b)
  {
    if '\n' in a {
      FirstBreak(a, b);
      var line := Before(a, '\n');
      var tail := a[|line| + 1..];
      LinesOfConcat(tail, b);
      assert ([line] + Lines(tail)) + Lines(Partial(tail) + b) == [line] + (Lines(tail) + Lines(Partial(tail) + b));
    } else {
      assert [] + Lines(a + b) == Lines(a + b);
    }
  }

  predicate Short(lines: seq<string>) { forall l | l in lines :: |l| <= LIMIT }

  /** With no line over the limit, chunks are immaterial: the lines seen are the lines of the
      stream. */
  lemma {:induction false} LinesIntact(chunks: seq<string>)
    requires Short(Lines(Stream(chunks)))
    ensures LinesAfter(chunks) == Lines(Stream(chunks))
    ensures |Partial(Stream(chunks))| <= LIMIT ==> PendingAfter(chunks) == Partial(Stream(chunks))
  {
    if chunks != [] {
      hide Lines, Partial;
      var before, d := Init(chunks), Last(chunks);
      var w := Stream(before);
      LinesOfConcat(w, d);
      assert Short(Lines(w)) by { assert forall l | l in Lines(w) :: l in Lines(w + d); }
      LinesIntact(before);
      if |Partial(w)| > LIMIT {
        LongPartial(Partial(w), d);
        NoLines(PendingAfter(before), d);
      }
    } else {
      assert Stream(chunks) == "";
    }
  }

  lemma LineCovers(p: string, d: string)
    requires '\n' !in p
    ensures '\n' in p + d ==> |Before(p + d, '\n')| >= |p|
    ensures '\n' in p + d ==> Before(p + d, '\n') in Lines(p + d)
    ensures '\n' in d ==> '\n' in p + d
  {
    CharOfFirst(p, d, |Before(p + d, '\n')|);
  }

  lemma CharOfFirst(p: string, d: string, n: nat)
    ensures n < |p| ==> (p + d)[n] in p
  {}

  /** An unfinished line that is already over the limit can only grow. */
  lemma LongPartial(p: string, d: string)
    requires '\n' !in p && |p| > LIMIT && Short(Lines(p + d))
    ensures '\n' !in d && Lines(p + d) == [] && Partial(p + d) == p + d
  {
    LineCovers(p, d);
  }

  lemma NoLines(p: string, d: string)
    requires '\n' !in p && '\n' !in d
    ensures Lines(p + d) == [] && Partial(p + d) == p + d
  {}

  lemma LinesOfTwo(a: string, b: string)
    ensures PendingAfter([a]) == if |Partial(a)| > LIMIT then "" else Partial(a)
    ensures LinesAfter([a, b]) == Lines(a) + Lines(PendingAfter([a]) + b)
    ensures Stream([a, b]) == a + b
  {
    hide Lines, Partial;
    TwoWrites("", a, b);
    assert Init([a, b]) == [a] && Init([a]) == [] && "" + a == a;
    assert PendingAfter([]) == "" && LinesAfter([]) == [];
    assert LinesAfter([a]) == [] + Lines(a);
  }

  function Ended(line: string): string { line + ['\n'] }

  function Later(w: string): string
    requires '\n' in w
  {
    w[|Before(w, '\n')| + 1..]
  }

  /** A line over the limit can be cut so that its beginning is forgotten and its end is
      taken for a line. */
  lemma {:induction false} LongLineTears(w: string) returns (a: string, b: string)
    requires !Short(Lines(w))
    ensures a + b == w && LinesAfter([a, b]) != Lines(w)
  {
    FirstLineOff(w);
    hide Lines, LinesAfter, Ended, Later, Short;
    var line := Before(w, '\n');
    if |line| > LIMIT {
      a, b := w[..LIMIT + 1], w[LIMIT + 1..];
      FirstLineTears(w);
    } else {
      a, b := LongLineTears(Later(w));
      LineInFront(line, a, b);
      Associate(Ended(line), a, b);
      Differ(line, LinesAfter([a, b]), Lines(Later(w)));
      a := Ended(line) + a;
    }
  }

  lemma Differ(l: string, u: seq<string>, v: seq<string>)
    requires u != v
    ensures [l] + u != [l] + v
  {
    assert ([l] + u)[1..] == u && ([l] + v)[1..] == v;
  }

  lemma FirstLineOff(w: string)
    requires !Short(Lines(w))
    ensures '\n' in w
    ensures w == Ended(Before(w, '\n')) + Later(w) && |Later(w)| < |w|
    ensures Lines(w) == [Before(w, '\n')] + Lines(Later(w))
    ensures |Before(w, '\n')| <= LIMIT ==> !Short(Lines(Later(w)))
  {
    BreakSplits(w);
    hide Ended;
    assert '\n' in w;
    assert forall l | l in Lines(w) :: l == Before(w, '\n') || l in Lines(Later(w));
  }

  lemma BreakSplits(w: string)
    ensures '\n' in w ==> w == Ended(Before(w, '\n')) + Later(w)
  {}

  lemma FirstLineTears(w: string)
    requires '\n' in w && |Before(w, '\n')| > LIMIT
    ensures LinesAfter([w[..LIMIT + 1], w[LIMIT + 1..]]) != Lines(w)
  {
    var line := Before(w, '\n');
    var a, b := w[..LIMIT + 1], w[LIMIT + 1..];
    LinesOfTwo(a, b);
    FirstLineSplit(w, LIMIT + 1);
    hide PendingAfter, LinesAfter;
    assert "" + b == b && [] + Lines(b) == Lines(b);
    assert Lines(b)[0] == line[LIMIT + 1..] && Lines(w)[0] == line;
  }

  lemma FirstLineSplit(w: string, k: nat)
    requires '\n' in w && k <= |Before(w, '\n')|
    ensures '\n' !in w[..k] && '\n' in w[k..] && Before(w[k..], '\n') == Before(w, '\n')[k..]
  {
    var line, rest := Before(w, '\n'), Later(w);
    BreakSplits(w);
    SliceOfLine(line, rest, k);
    BeforeIs(line[k..], '\n', rest);
    hide Before, Later;
    assert (line[k..] + ['\n'] + rest)[|line| - k] == '\n';
  }

  lemma SliceOfLine(line: string, rest: string, k: nat)
    requires '\n' !in line && k <= |line|
    ensures (Ended(line) + rest)[..k] == line[..k]
    ensures (Ended(line) + rest)[k..] == line[k..] + ['\n'] + rest
  {}

  lemma LineInFront(line: string, a: string, b: string)
    requires '\n' !in line
    ensures LinesAfter([Ended(line) + a, b]) == [line] + LinesAfter([a, b])
  {
    hide Lines, Partial, Ended, LinesAfter;
    OneLine(line, a);
    LinesOfTwo(a, b);
    LinesOfTwo(Ended(line) + a, b);
    assert PendingAfter([Ended(line) + a]) == PendingAfter([a]);
    hide PendingAfter;
    assert ([line] + Lines(a)) + Lines(PendingAfter([a]) + b) == [line] + (Lines(a) + Lines(PendingAfter([a]) + b));
  }

  lemma OneLine(line: string, rest: string)
    requires '\n' !in line
    ensures Lines(Ended(line) + rest) == [line] + Lines(rest)
    ensures Partial(Ended(line) + rest) == Partial(rest)
  {
    var s := Ended(line) + rest;
    BeforeIs(line, '\n', rest);
    assert s[|line|] == '\n' && s[|line| + 1..] == rest;
  }

  /** The lines and what follows them make up the text, and none holds a newline. */
  lemma {:induction false} LinesRecompose(s: string)
    ensures Terminated(Lines(s)) + Partial(s) == s
    ensures forall l | l in Lines(s) :: '\n' !in l
  {
    if '\n' in s {
      hide Lines, Partial, Terminated, Before, Later;
      LinesUnfold(s);
      LinesRecompose(Later(s));
      BreakSplits(s);
      TerminatedFirst(Before(s, '\n'), Lines(Later(s)));
      Associate(Ended(Before(s, '\n')), Terminated(Lines(Later(s))), Partial(s));
    } else {
      NoLines(s, "");
      assert s + "" == s;
    }
  }

  lemma TerminatedFirst(line: string, lines: seq<string>)
    ensures Terminated([line] + lines) == Ended(line) + Terminated(lines)
  {
    assert ([line] + lines)[1..] == lines;
  }

  /** Every cutting of a stream shows its lines exactly when none of them is over the limit. */
  lemma LinesIntactIff(w: string)
    ensures (forall chunks | Stream(chunks) == w :: LinesAfter(chunks) == Lines(w)) <==> Short(Lines(w))
  {
    hide Short, Lines, LinesAfter, Stream;
    if Short(Lines(w)) {
      forall chunks | Stream(chunks) == w ensures LinesAfter(chunks) == Lines(w) {
        LinesIntact(chunks);
      }
    } else {
      var a, b := LongLineTears(w);
      TwoWrites("", a, b);
    }
  }

  // ---- What is read from the lines ----

  predicate Progress(line: string) { line == RECOVERY_STARTED || line == RECOVERY_RESUMED }

  /** The lines that are passed on while the tunnel runs. */
  function Forwarded(lines: seq<string>): seq<string> {
    if lines == [] then []
    else if Progress(Last(lines)) then Forwarded(Init(lines)) + [Last(lines)]
    else Forwarded(Init(lines))
  }

  /** The last line that says why the tunnel stopped; empty when there is none. */
  function Stop(lines: seq<string>): string {
    if lines == [] then ""
    else if StopReason(Last(lines)) then Last(lines)
    else Stop(Init(lines))
  }

  lemma ReasonsAreNotEmpty(line: string)
    requires StopReason(line)
    ensures line != ""
  {
    hide RECOVERY_EXPIRED, RESUME_REJECTED;
    ExpiredIsMessage();
    RejectedIsMessage();
  }

  /** The stop reason is empty exactly when no line is one, and otherwise is the last one. */
  lemma {:induction false} StopIsLastReason(lines: seq<string>)
    ensures Stop(lines) == "" <==> forall l | l in lines :: !StopReason(l)
    ensures Stop(lines) != "" ==> exists i | 0 <= i < |lines| :: lines[i] == Stop(lines) && ReasonAt(lines, i)
  {
    hide StopReason, ReasonAt;
    if lines != [] {
      var before := Init(lines);
      assert forall l | l in lines :: l in before || l == Last(lines);
      StopIsLastReason(before);
      if StopReason(Last(lines)) {
        ReasonsAreNotEmpty(Last(lines));
        LastReason(lines);
      } else if Stop(before) != "" {
        var i :| 0 <= i < |before| && before[i] == Stop(before) && ReasonAt(before, i);
        EarlierReason(lines, i);
        assert lines[i] == Stop(lines);
      }
    }
  }

  /** So a reason begins with one of the two fixed texts, there is none without such a line,
      and a recovery that is under way or has succeeded is never one. */
  lemma StopBegins(lines: seq<string>)
    ensures var stop := Stop(lines);
      && (stop == "" <==> forall l | l in lines :: !(RECOVERY_EXPIRED <= l) && !(RESUME_REJECTED <= l))
      && (stop != "" ==> stop in lines && (RECOVERY_EXPIRED <= stop || RESUME_REJECTED <= stop))
      && stop != RECOVERY_STARTED && stop != RECOVERY_RESUMED
  {
    hide StopReason, RECOVERY_EXPIRED, RESUME_REJECTED, RECOVERY_STARTED, RECOVERY_RESUMED, Stop;
    StopIsLastReason(lines);
    ReasonsBegin(Stop(lines));
    ProgressIsMessage();
    forall l | l in lines ensures StopReason(l) <==> RECOVERY_EXPIRED <= l || RESUME_REJECTED <= l {
      ReasonsBegin(l);
    }
  }

  ghost predicate ReasonAt(lines: seq<string>, i: nat) {
    i < |lines| && StopReason(lines[i]) && forall j | i < j < |lines| :: !StopReason(lines[j])
  }

  lemma LastReason(lines: seq<string>)
    requires lines != [] && StopReason(Last(lines))
    ensures ReasonAt(lines, |lines| - 1) && lines[|lines| - 1] == Last(lines)
  {}

  lemma EarlierReason(lines: seq<string>, i: nat)
    requires lines != [] && !StopReason(Last(lines)) && ReasonAt(Init(lines), i)
    ensures ReasonAt(lines, i)
  {
    hide StopReason;
    var before := Init(lines);
    assert lines[i] == before[i];
    forall j | i < j < |lines| ensures !StopReason(lines[j]) {
      if j < |before| { assert lines[j] == before[j]; } else { assert lines[j] == Last(lines); }
    }
  }

  /** The two progress messages are forwarded, in order, and nothing else is. */
  lemma {:induction false} ForwardedOfConcat(a: seq<string>, b: seq<string>)
    ensures Forwarded(a + b) == Forwarded(a) + Forwarded(b)
    ensures forall l :: Forwarded([l]) == if l == RECOVERY_STARTED || l == RECOVERY_RESUMED then [l] else []
  {
    hide RECOVERY_STARTED, RECOVERY_RESUMED;
    forall l ensures Forwarded([l]) == if l == RECOVERY_STARTED || l == RECOVERY_RESUMED then [l] else [] {
      Single(l);
    }
    hide Progress;
    if b == [] {
      assert a + b == a;
    } else {
      assert Init(a + b) == a + Init(b) && Last(a + b) == Last(b);
      ForwardedOfConcat(a, Init(b));
    }
  }

  /** The reported messages and the stop reason do not depend on how the stream was cut, as
      long as no line is over the limit. */
  lemma ChunksAreImmaterial(chunks: seq<string>)
    requires Short(Lines(Stream(chunks)))
    ensures Forwarded(LinesAfter(chunks)) == Forwarded(Lines(Stream(chunks)))
    ensures Stop(LinesAfter(chunks)) == Stop(Lines(Stream(chunks)))
  {
    LinesIntact(chunks);
  }

  /** The end of a line over the limit can pass for a progress message. */
  lemma TornLineIsForwarded(junk: string)
    requires |junk| == LIMIT + 1 && '\n' !in junk
    ensures var line := junk + RECOVERY_STARTED;
      && Lines(Ended(line)) == [line] && Forwarded([line]) == []
      && Forwarded(LinesAfter([junk, Ended(RECOVERY_STARTED)])) == [RECOVERY_STARTED]
  {
    hide RECOVERY_STARTED, RECOVERY_RESUMED, Ended, LinesAfter;
    ProgressIsMessage();
    var line := junk + RECOVERY_STARTED;
    SingleLine(line);
    SingleLine(RECOVERY_STARTED);
    LinesOfTwo(junk, Ended(RECOVERY_STARTED));
    NoLines(junk, "");
    assert junk + "" == junk && "" + Ended(RECOVERY_STARTED) == Ended(RECOVERY_STARTED);
    hide Lines, Partial, PendingAfter;
    Single(line);
    Single(RECOVERY_STARTED);
  }

  lemma SingleLine(line: string)
    requires '\n' !in line
    ensures Lines(Ended(line)) == [line] && Partial(Ended(line)) == ""
  {
    OneLine(line, "");
    assert Ended(line) + "" == Ended(line);
  }

  lemma Single(line: string)
    ensures Forwarded([line]) == if Progress(line) then [line] else []
  {
    hide Progress;
    assert Init([line]) == [];
  }

  /** When a recovery that began on a fresh line fails, its error text is the stop reason,
      however the child's output was cut. */
  lemma FailureIsReported(chunks: seq<string>, earlier: seq<string>, e: ResumeError, v: Ending)
    requires Short(earlier) && v != Resumed && (v.Rejected? ==> TerminalReason(e) == Some(v.reason))
    ensures ErrorText(v).Some?
    ensures Lines(Stream(chunks)) == earlier + [RECOVERY_STARTED, ErrorText(v).value] ==>
      Stop(LinesAfter(chunks)) == ErrorText(v).value
  {
    hide StopReason, RECOVERY_STARTED, RECOVERY_RESUMED, Progress, ErrorText, TerminalReason;
    hide Lines, LinesAfter, Stream, Forwarded, Short;
    ProgressIsMessage();
    ErrorTextIsStopReason(e, v);
    var begun, reason := earlier + [RECOVERY_STARTED], ErrorText(v).value;
    assert earlier + [RECOVERY_STARTED, reason] == begun + [reason];
    ShortLines(earlier, RECOVERY_STARTED);
    ShortLines(begun, reason);
    LineJudged(begun, reason);
    if Lines(Stream(chunks)) == begun + [reason] { LinesIntact(chunks); }
  }

  /** When it succeeds, both progress messages are passed on and no reason is added. */
  lemma SuccessIsReported(chunks: seq<string>, earlier: seq<string>)
    requires Short(earlier) && Lines(Stream(chunks)) == earlier + [RECOVERY_STARTED, RECOVERY_RESUMED]
    ensures Stop(LinesAfter(chunks)) == Stop(earlier)
    ensures Forwarded(LinesAfter(chunks)) == Forwarded(earlier) + [RECOVERY_STARTED, RECOVERY_RESUMED]
  {
    ProgressForwarded();
    hide StopReason, RECOVERY_STARTED, RECOVERY_RESUMED, Progress, Lines, LinesAfter, Stream, Forwarded, Short;
    ProgressIsMessage();
    ReasonsBegin("");
    var begun := earlier + [RECOVERY_STARTED];
    assert earlier + [RECOVERY_STARTED, RECOVERY_RESUMED] == begun + [RECOVERY_RESUMED];
    ShortLines(earlier, RECOVERY_STARTED);
    ShortLines(begun, RECOVERY_RESUMED);
    LineJudged(earlier, RECOVERY_STARTED);
    LineJudged(begun, RECOVERY_RESUMED);
    Associate(Forwarded(earlier), [RECOVERY_STARTED], [RECOVERY_RESUMED]);
    LinesIntact(chunks);
  }

  lemma ProgressForwarded()
    ensures Progress(RECOVERY_STARTED) && Progress(RECOVERY_RESUMED)
  {
    hide RECOVERY_STARTED, RECOVERY_RESUMED;
  }

  lemma ShortLines(lines: seq<string>, line: string)
    requires Short(lines) && |line| <= LIMIT
    ensures Short(lines + [line])
  {}

  // ---- The writer ----

  lemma WriteUnfolds(token: string, chunks: seq<string>, data: string)
    ensures var now := chunks + [data];
      && TextAfter(token, now) == Limited(Redact(TextAfter(token, chunks) + data, token))
      && LinesAfter(now) == LinesAfter(chunks) + Lines(PendingAfter(chunks) + data)
      && PendingAfter(now) == var p := Partial(PendingAfter(chunks) + data); if |p| > LIMIT then "" else p
  {
    hide Redact, Lines, Partial, Limited;
    var now := chunks + [data];
    assert Init(now) == chunks && Last(now) == data;
  }

  lemma NoToken(s: string)
    ensures Redact(s, "") == s
  {}

  lemma LineRead(p: string, seen: seq<string>, line: string)
    requires '\n' in p && line == Before(p, '\n')
    ensures |line| < |p|
    ensures (seen + [line]) + Lines(p[|line| + 1..]) == seen + Lines(p)
    ensures Partial(p[|line| + 1..]) == Partial(p)
  {
    hide Lines, Partial, Before;
    LinesUnfold(p);
    Associate(seen, [line], Lines(Later(p)));
  }

  lemma LinesUnfold(p: string)
    requires '\n' in p
    ensures Lines(p) == [Before(p, '\n')] + Lines(Later(p)) && Partial(p) == Partial(Later(p))
    ensures |Later(p)| < |p| && '\n' !in Before(p, '\n')
  {}

  lemma LineJudged(seen: seq<string>, line: string)
    ensures Stop(seen + [line]) == if StopReason(line) then line else Stop(seen)
    ensures Forwarded(seen + [line]) == if Progress(line) then Forwarded(seen) + [line] else Forwarded(seen)
  {
    hide StopReason, Progress;
    var next := seen + [line];
    assert Init(next) == seen && Last(next) == line;
  }

  lemma NothingUnread(p: string, seen: seq<string>)
    requires '\n' !in p
    ensures Partial(p) == p && seen + Lines(p) == seen
  {}

  /** What the specifications promise after these writes. */
  lemma WritesPromise(token: string, chunks: seq<string>)
    ensures Clean(token) && |token| <= LIMIT + 1 ==>
      var text := TextAfter(token, chunks); IsSuffix(text, Redact(Stream(chunks), token)) && Free(text, token)
    ensures Short(Lines(Stream(chunks))) ==>
      && Stop(LinesAfter(chunks)) == Stop(Lines(Stream(chunks)))
      && Forwarded(LinesAfter(chunks)) == Forwarded(Lines(Stream(chunks)))
      && (Stop(LinesAfter(chunks)) == "" <==>
            forall l | l in Lines(Stream(chunks)) :: !(RECOVERY_EXPIRED <= l) && !(RESUME_REJECTED <= l))
    ensures var stop := Stop(LinesAfter(chunks)); stop != "" ==> RECOVERY_EXPIRED <= stop || RESUME_REJECTED <= stop
  {
    hide TextAfter, LinesAfter, PendingAfter, Stop, Forwarded, Stream, Clean, IsSuffix, Free, Short, Lines, Redact;
    hide RECOVERY_EXPIRED, RESUME_REJECTED, RECOVERY_STARTED, RECOVERY_RESUMED;
    StopBegins(LinesAfter(chunks));
    if Clean(token) && |token| <= LIMIT + 1 { TextIsSuffix(token, chunks); }
    if Short(Lines(Stream(chunks))) {
      ChunksAreImmaterial(chunks);
      StopBegins(Lines(Stream(chunks)));
    }
  }

  /** `messages` is what was handed to the report callback, `chunks` what was written. */
  class LogTail {
    const token: string
    const reporting: bool
    var text: string
    var pending: string
    var stop: string
    var messages: seq<string>
    ghost var chunks: seq<string>

    ghost predicate Valid()
      reads this
    {
      && text == TextAfter(token, chunks)
      && pending == PendingAfter(chunks)
      && stop == Stop(LinesAfter(chunks))
      && messages == if reporting then Forwarded(LinesAfter(chunks)) else []
    }

    constructor (token: string, reporting: bool)
      ensures Valid() && chunks == [] && this.token == token && this.reporting == reporting
    {
      this.token, this.reporting := token, reporting;
      text, pending, stop, messages, chunks := "", "", "", [], [];
    }

    method Write(data: string) returns (n: nat)
      requires Valid()
      modifies this
      ensures Valid() && chunks == old(chunks) + [data] && n == |data|
      ensures Clean(token) && |token| <= LIMIT + 1 ==>
        IsSuffix(text, Redact(Stream(chunks), token)) && Free(text, token)
      ensures Short(Lines(Stream(chunks))) ==>
        && stop == Stop(Lines(Stream(chunks)))
        && (reporting ==> messages == Forwarded(Lines(Stream(chunks))))
        && (stop == "" <==>
              forall l | l in Lines(Stream(chunks)) :: !(RECOVERY_EXPIRED <= l) && !(RESUME_REJECTED <= l))
      ensures stop != "" ==> RECOVERY_EXPIRED <= stop || RESUME_REJECTED <= stop
      ensures !reporting ==> messages == []
    {
      hide Redact, Lines, Partial, StopReason, Before, RECOVERY_STARTED, RECOVERY_RESUMED;
      hide RECOVERY_EXPIRED, RESUME_REJECTED;
      hide TextAfter, LinesAfter, PendingAfter, Stop, Forwarded, Stream, Clean, IsSuffix, Free, Short;
      WriteUnfolds(token, chunks, data);
      text := text + data;
      if token != "" {
        text := Redact(text, token);
      } else {
        NoToken(text);
      }
      pending := pending + data;
      ghost var unread, seen := pending, LinesAfter(chunks);
      while '\n' in pending
        invariant seen + Lines(pending) == LinesAfter(chunks + [data])
        invariant Partial(pending) == Partial(unread)
        invariant stop == Stop(seen) && messages == if reporting then Forwarded(seen) else []
        invariant text == Redact(TextAfter(token, chunks) + data, token) && chunks == old(chunks)
        decreases |pending|
      {
        var line := Before(pending, '\n');
        LineRead(pending, seen, line);
        LineJudged(seen, line);
        pending := pending[|line| + 1..];
        if reporting && (line == RECOVERY_STARTED || line == RECOVERY_RESUMED) {
          messages := messages + [line];
        }
        if StopReason(line) {
          stop := line;
        }
        seen := seen + [line];
      }
      NothingUnread(pending, seen);
      if |pending| > 8192 {
        pending := "";
      }
      if |text| > 8192 {
        text := text[|text| - 8192..];
      }
      chunks := chunks + [data];
      n := |data|;
      WritesPromise(token, chunks);
    }

    /** The reason why the tunnel stopped, if the child gave one. */
    method Reason() returns (reason: string)
      requires Valid()
      ensures reason == Stop(LinesAfter(chunks))
      ensures reason != "" ==> RECOVERY_EXPIRED <= reason || RESUME_REJECTED <= reason
    {
      StopBegins(LinesAfter(chunks));
      hide RECOVERY_EXPIRED, RESUME_REJECTED, RECOVERY_STARTED, RECOVERY_RESUMED;
      reason := stop;
    }
  }
}
