/** Redaction of a secret token by replacing its occurrences, leftmost first, and what can be
    said when only a suffix of the replaced text is kept and more input arrives later. */
module Redaction {
  import opened Text

  const WORD := "redacted"
  const MARK := "[" + WORD + "]"

  lemma MarkShape()
    ensures |MARK| == 10 && MARK[0] == '[' && MARK[9] == ']' && MARK[1..9] == WORD
  {}

  /** `s` with the occurrences of `t` replaced, scanning left to right; an empty token
      replaces nothing. */
  function Redact(s: string, t: string): string {
    Out(s, t) + Rest(s, t)
  }

  /** One step of the scan at the front of `s`: what is written and how much is consumed. */
  function Emit(s: string, t: string): (e: string)
    requires t != "" && |t| <= |s|
    ensures e != "" && (t <= s ==> |e| == 10 && e[0] == '[')
  {
    if t <= s then MARK else [s[0]]
  }

  function Ate(s: string, t: string): (n: nat)
    requires t != "" && |t| <= |s|
    ensures 0 < n <= |s|
  {
    if t <= s then |t| else 1
  }

  /** The replaced text up to the point where what is left is shorter than the token. */
  function Out(s: string, t: string): string {
    if t == "" then s
    else if |s| < |t| then ""
    else Emit(s, t) + Out(s[Ate(s, t)..], t)
  }

  /** What is left at that point; it may be the beginning of a token. */
  function Rest(s: string, t: string): (r: string)
    ensures t == "" ==> r == ""
    ensures t != "" ==> |r| < |t|
  {
    if t == "" then ""
    else if |s| < |t| then s
    else Rest(s[Ate(s, t)..], t)
  }

  predicate At(s: string, t: string, i: nat) {
    i <= |s| && t <= s[i..]
  }

  /** No occurrence of a non-empty `t` in `s`. */
  predicate Free(s: string, t: string) {
    t != "" ==> forall i: nat | i + |t| <= |s| :: !At(s, t, i)
  }

  /** `t` laid over the mark, `i` characters after its beginning, agrees with it wherever both
      have a character. */
  predicate Fits(t: string, i: int) {
    forall j: nat | j < |t| && 0 <= i + j < 10 :: t[j] == MARK[i + j]
  }

  /** No occurrence of a non-empty `t` starts in the first `n` characters of `s`. */
  predicate Quiet(s: string, n: nat, t: string) {
    t != "" ==> forall i: nat | i < n :: !At(s, t, i)
  }

  /** Laid over the mark like this the token can come back: what it has before the mark, in
      front of an occurrence, must not make an earlier one. */
  predicate ComesBack(t: string, i: int)
    requires -|t| < i
  {
    Fits(t, i) && (i < 0 ==> Quiet(t[..-i] + t, -i, t))
  }

  /** A token that cannot come back in a mark. */
  ghost predicate Clean(t: string) {
    t != "" ==> forall i: int | -|t| < i < 10 :: !ComesBack(t, i)
  }

  predicate IsSuffix(a: string, b: string) {
    |a| <= |b| && b[|b| - |a|..] == a
  }

  // ---- Scanning ----

  /** A step depends only on the first |t| characters. */
  lemma StepAhead(s: string, d: string, t: string)
    requires t != "" && |t| <= |s|
    ensures Emit(s + d, t) == Emit(s, t) && Ate(s + d, t) == Ate(s, t)
    ensures (s + d)[Ate(s, t)..] == s[Ate(s, t)..] + d
  {
    hide MARK;
    assert (s + d)[..|t|] == s[..|t|];
  }

  lemma RedactStep(s: string, t: string)
    requires t != "" && |t| <= |s|
    ensures Redact(s, t) == Emit(s, t) + Redact(s[Ate(s, t)..], t)
  {
    hide Emit, Ate, MARK;
    var rest := s[Ate(s, t)..];
    Associate(Emit(s, t), Out(rest, t), Rest(rest, t));
  }

  lemma TokenAlone(t: string)
    requires t != ""
    ensures Redact(t, t) == "[redacted]"
  {
    RedactStep(t, t);
    assert t[|t|..] == "" && "" + "" == "";
  }

  /** Later input changes nothing before the unsettled rest. */
  lemma {:induction false} OutExtends(s: string, d: string, t: string)
    ensures Out(s + d, t) == Out(s, t) + Out(Rest(s, t) + d, t)
    ensures Rest(s + d, t) == Rest(Rest(s, t) + d, t)
  {
    hide Emit, Ate, MARK;
    if t == "" {
      assert "" + d == d;
    } else if |s| >= |t| {
      StepAhead(s, d, t);
      var rest := s[Ate(s, t)..];
      OutExtends(rest, d, t);
      Associate(Emit(s, t), Out(rest, t), Out(Rest(s, t) + d, t));
    }
  }

  /** A stretch where no occurrence starts is copied. */
  lemma {:induction false} QuietIsCopied(s: string, n: nat, t: string)
    requires t != "" && n <= |s| && Quiet(s, n, t)
    ensures Redact(s, t) == s[..n] + Redact(s[n..], t)
  {
    hide MARK;
    if |s| < |t| {
      assert s == s[..n] + s[n..];
    } else if n == 0 {
      assert s[0..] == s && s[..0] + Redact(s, t) == Redact(s, t);
    } else {
      hide Redact, Quiet, At;
      QuietTail(s, n, t);
      RedactStep(s, t);
      QuietIsCopied(s[1..], n - 1, t);
      CopyOne(s, n, Redact(s[n..], t));
    }
  }

  lemma QuietTail(s: string, n: nat, t: string)
    requires 0 < n <= |s| && Quiet(s, n, t)
    ensures Quiet(s[1..], n - 1, t) && (t != "" ==> !(t <= s))
  {
    assert s[0..] == s && (t != "" ==> !At(s, t, 0));
    forall i: nat | i < n - 1 && t != "" ensures !At(s[1..], t, i) {
      assert !At(s, t, i + 1);
      assert s[1..][i..] == s[i + 1..];
    }
  }

  lemma CopyOne(s: string, n: nat, x: string)
    requires 0 < n <= |s|
    ensures [s[0]] + (s[1..][..n - 1] + x) == s[..n] + x
    ensures s[1..][n - 1..] == s[n..]
  {
    assert [s[0]] + s[1..][..n - 1] == s[..n];
    Associate([s[0]], s[1..][..n - 1], x);
  }

  /** Behind copied characters that begin a clean token, replacing does not move the token's
      end to the front of the input. */
  lemma {:induction false} FrontOfRedacted(s: string, d: string, t: string, a: nat)
    requires Clean(t) && 0 < a <= |t| && |t| - a <= |s| && t[a..] <= Redact(s, t) + d
    requires Quiet(t[..a] + s, a, t)
    ensures t[a..] <= s
    decreases |s|
  {
    if |s| >= |t| && a < |t| {
      hide Clean, MARK, Fits, Quiet;
      RedactStep(s, t);
      var rest := Redact(s[Ate(s, t)..], t);
      Associate(Emit(s, t), rest, d);
      var r := rest + d;
      assert t[a..] <= Emit(s, t) + r;
      if t <= s { NoMarkInFront(s, t, a, r); }
      TailOfPrefix(s[0], t[a..], r);
      assert t[a..][1..] == t[a + 1..];
      QuietNext(s, t, a);
      FrontOfRedacted(s[1..], d, t, a + 1);
      assert s == [s[0]] + s[1..];
    }
  }

  lemma QuietNext(s: string, t: string, a: nat)
    requires a < |t| <= |s| && !(t <= s) && t[a] == s[0] && Quiet(t[..a] + s, a, t)
    ensures Quiet(t[..a + 1] + s[1..], a + 1, t)
  {
    var w := t[..a] + s;
    assert w == t[..a + 1] + s[1..];
    assert w[a..] == s;
    assert !At(w, t, a);
  }

  lemma NoMarkInFront(s: string, t: string, a: nat, r: string)
    requires Clean(t) && 0 < a < |t| && t <= s && Quiet(t[..a] + s, a, t)
    ensures !(t[a..] <= MARK + r)
  {
    hide MARK, Fits, Quiet;
    var i: int := 0 - a;
    CannotComeBack(t, i);
    QuietFront(t[..a], t, s);
    if t[a..] <= MARK + r { FrontFits(t, i, r); }
  }

  lemma CannotComeBack(t: string, i: int)
    requires Clean(t) && t != "" && -|t| < i < 10
    ensures !ComesBack(t, i)
  {
    hide ComesBack;
  }

  /** Occurrences that start in `x` do not depend on what follows the token behind it. */
  lemma QuietFront(x: string, t: string, s: string)
    requires t <= s
    ensures Quiet(x + s, |x|, t) <==> Quiet(x + t, |x|, t)
  {
    forall k: nat | k < |x| ensures At(x + s, t, k) <==> At(x + t, t, k) {
      assert (x + s)[k..][..|t|] == (x + t)[k..][..|t|];
    }
  }

  lemma FrontFits(t: string, i: int, r: string)
    requires -|t| < i <= 0 && t[-i..] <= MARK + r
    ensures Fits(t, i)
  {
    hide MARK;
    MarkShape();
    forall j: nat | j < |t| && 0 <= i + j < 10 ensures t[j] == MARK[i + j] {
      assert t[j] == t[-i..][j + i] && (MARK + r)[j + i] == MARK[j + i];
    }
  }

  lemma TailOfPrefix(c: char, u: string, r: string)
    requires u != "" && u <= [c] + r
    ensures u == [c] + u[1..] && u[1..] <= r
  {
    assert ([c] + r)[1..] == r;
  }

  /** An occurrence of a clean token does not start inside the mark. */
  lemma MarkIsQuiet(y: string, t: string, i: nat)
    requires Clean(t) && t != "" && i < 10
    ensures !At(MARK + y, t, i)
  {
    hide MARK, At, Fits;
    CannotComeBack(t, i);
    if At(MARK + y, t, i) { MatchFits(y, t, i); }
  }

  lemma MatchFits(y: string, t: string, i: nat)
    requires i < 10 && At(MARK + y, t, i)
    ensures Fits(t, i)
  {
    hide MARK;
    MarkShape();
    forall j: nat | j < |t| && 0 <= i + j < 10 ensures t[j] == MARK[i + j] {
      assert t[j] == (MARK + y)[i..][j] == (MARK + y)[i + j];
    }
  }

  /** No occurrence starts in the settled output, whatever follows the rest. */
  lemma {:induction false} OutIsQuiet(s: string, d: string, t: string)
    requires Clean(t)
    ensures Quiet(Redact(s, t) + d, |Out(s, t)|, t)
  {
    hide Clean, MARK, At, Emit, Ate, Redact, Quiet;
    if t != "" && |s| >= |t| {
      var head, tail := Emit(s, t), s[Ate(s, t)..];
      OutIsQuiet(tail, d, t);
      RedactStep(s, t);
      var r := Redact(tail, t) + d;
      Associate(head, Redact(tail, t), d);
      HeadIsQuiet(s, d, t);
      OutShorter(tail, t);
      QuietAppend(head, r, |Out(tail, t)|, t);
    } else {
      NothingOut(s, d, t);
    }
  }

  lemma OutShorter(s: string, t: string)
    ensures |Out(s, t)| <= |Redact(s, t)|
  {}

  lemma NothingOut(s: string, d: string, t: string)
    requires t == "" || |s| < |t|
    ensures Quiet(Redact(s, t) + d, |Out(s, t)|, t)
  {}

  lemma HeadIsQuiet(s: string, d: string, t: string)
    requires Clean(t) && t != "" && |s| >= |t|
    ensures var head, tail := Emit(s, t), s[Ate(s, t)..];
      forall i: nat | i < |head| :: !At(head + (Redact(tail, t) + d), t, i)
  {
    hide Clean, MARK, At, Redact;
    var head, tail := Emit(s, t), s[Ate(s, t)..];
    var r := Redact(tail, t) + d;
    forall i: nat | i < |head| ensures !At(head + r, t, i) {
      if t <= s { MarkIsQuiet(r, t, i); } else { HeadMatch(s, d, t); }
    }
  }

  lemma QuietAppend(head: string, r: string, n: nat, t: string)
    requires t != "" && n <= |r| && Quiet(r, n, t)
    requires forall i: nat | i < |head| :: !At(head + r, t, i)
    ensures Quiet(head + r, |head| + n, t)
  {
    forall i: nat | |head| <= i < |head| + n ensures !At(head + r, t, i) {
      assert (head + r)[i..] == r[i - |head|..];
      assert !At(r, t, i - |head|);
    }
  }

  lemma HeadMatch(s: string, d: string, t: string)
    requires Clean(t) && t != "" && |s| >= |t| && !(t <= s)
    ensures !At([s[0]] + (Redact(s[1..], t) + d), t, 0)
  {
    hide Redact, Clean;
    var x := [s[0]] + (Redact(s[1..], t) + d);
    assert x[0..] == x;
    SameHead(s, t);
    if t <= x { HeadBack(s, d, t); }
  }

  lemma SameHead(s: string, t: string)
    requires t != "" && s != ""
    ensures t[0] == s[0] && t[1..] <= s[1..] ==> t <= s
  {
    assert t == [t[0]] + t[1..] && s == [s[0]] + s[1..];
  }

  lemma HeadBack(s: string, d: string, t: string)
    requires Clean(t) && t != "" && |s| >= |t| && !(t <= s) && t <= [s[0]] + (Redact(s[1..], t) + d)
    ensures t[1..] <= s[1..] && t[0] == s[0]
  {
    hide Redact, Clean;
    TailOfPrefix(s[0], t, Redact(s[1..], t) + d);
    assert t[..1] + s[1..] == s;
    assert s[0..] == s && !At(s, t, 0);
    FrontOfRedacted(s[1..], d, t, 1);
  }

  // ---- What redaction promises ----

  /** The redacted text holds no token. */
  lemma RedactedIsFree(s: string, t: string)
    requires Clean(t)
    ensures Free(Redact(s, t), t)
  {
    OutIsQuiet(s, "", t);
    assert Redact(s, t) + "" == Redact(s, t);
  }

  /** The text between the replaced occurrences. */
  function Pieces(s: string, t: string): (p: seq<string>)
    ensures p != []
  {
    if t == "" || |s| < |t| then [s]
    else
      var rest := Pieces(s[Ate(s, t)..], t);
      if t <= s then [""] + rest else [[s[0]] + rest[0]] + rest[1..]
  }

  /** Redaction cuts the text at occurrences of the token and puts the mark in their place,
      leaving no occurrence inside a piece. */
  lemma {:induction false} RedactReplacesPieces(s: string, t: string)
    ensures Join(Pieces(s, t), t) == s
    ensures Join(Pieces(s, t), MARK) == Redact(s, t)
  {
    if t != "" && |s| >= |t| {
      hide MARK, Join, Redact, Pieces, Emit, Ate;
      var tail := s[Ate(s, t)..];
      RedactReplacesPieces(tail, t);
      RedactStep(s, t);
      JoinStep(s, t, t);
      JoinStep(s, t, MARK);
      FrontOff(s, t);
    }
  }

  lemma FrontOff(s: string, t: string)
    requires t != "" && |t| <= |s|
    ensures (if t <= s then t else [s[0]]) + s[Ate(s, t)..] == s
    ensures Emit(s, t) == if t <= s then MARK else [s[0]]
  {
    hide MARK;
  }

  lemma JoinStep(s: string, t: string, sep: string)
    requires t != "" && |t| <= |s|
    ensures Join(Pieces(s, t), sep) == (if t <= s then sep else [s[0]]) + Join(Pieces(s[Ate(s, t)..], t), sep)
  {
    hide Join;
    var p := Pieces(s[Ate(s, t)..], t);
    if t <= s { JoinEmptyFirst(p, sep); } else { JoinPushes(s[0], p, sep); }
  }

  lemma JoinEmptyFirst(p: seq<string>, sep: string)
    requires p != []
    ensures Join([""] + p, sep) == sep + Join(p, sep)
  {
    assert ([""] + p)[1..] == p;
    assert "" + sep == sep;
  }

  lemma JoinPushes(c: char, p: seq<string>, sep: string)
    requires p != []
    ensures Join([[c] + p[0]] + p[1..], sep) == [c] + Join(p, sep)
  {
    var q := [[c] + p[0]] + p[1..];
    assert q[1..] == p[1..];
    assert ([c] + p[0]) + sep + Join(p[1..], sep) == [c] + (p[0] + sep + Join(p[1..], sep));
  }

  lemma {:induction false} PiecesAreFree(s: string, t: string)
    requires t != ""
    ensures forall p | p in Pieces(s, t) :: Free(p, t)
    ensures Pieces(s, t)[0] <= s
  {
    if |s| >= |t| {
      var tail := s[Ate(s, t)..];
      PiecesAreFree(tail, t);
      var rest := Pieces(tail, t);
      if !(t <= s) {
        assert s == [s[0]] + s[1..];
        assert Free([s[0]] + rest[0], t) by { PushIsFree(s[0], rest[0], s, t); }
        assert forall p | p in rest[1..] :: p in rest;
      }
    }
  }

  lemma PushIsFree(c: char, p: string, s: string, t: string)
    requires t != "" && Free(p, t) && [c] + p <= s && !(t <= s)
    ensures Free([c] + p, t)
  {
    var q := [c] + p;
    forall i: nat | i + |t| <= |q| ensures !At(q, t, i) {
      if i == 0 {
        assert q[0..] == q && t <= q ==> t <= s;
      } else {
        assert q[i..] == p[i - 1..];
        assert !At(p, t, i - 1);
      }
    }
  }

  /** Redacting a suffix of already redacted text together with new input gives a suffix of
      the redaction of everything, as long as only settled output was dropped. */
  lemma RedactResumes(s: string, d: string, t: string, k: nat)
    requires Clean(t) && k <= |Out(s, t)|
    ensures |Out(s, t)| <= |Out(s + d, t)|
    ensures Redact(Redact(s, t)[k..] + d, t) == Redact(s + d, t)[k..]
  {
    hide Out, Rest, Clean;
    var o, r := Out(s, t), Rest(s, t);
    OutExtends(s, d, t);
    var x := Redact(s, t)[k..] + d;
    Associate(o, Out(r + d, t), Rest(r + d, t));
    assert Redact(s + d, t) == o + Redact(r + d, t);
    assert x == o[k..] + (r + d);
    OutIsQuiet(s, d, t);
    assert Redact(x, t) == o[k..] + Redact(r + d, t) by { CopyOut(o, r + d, t, k, Redact(s, t) + d); }
  }

  lemma CopyOut(o: string, y: string, t: string, k: nat, w: string)
    requires k <= |o| && w == o + y && Quiet(w, |o|, t)
    ensures Redact(o[k..] + y, t) == o[k..] + Redact(y, t)
  {
    var x := o[k..] + y;
    if t == "" {
      assert Redact(x, t) == x && Redact(y, t) == y;
    } else {
      hide Out, Rest, Redact;
      forall i: nat | i < |o| - k ensures !At(x, t, i) {
        assert x[i..] == w[i + k..];
        assert !At(w, t, i + k);
      }
      QuietIsCopied(x, |o| - k, t);
      assert x[|o| - k..] == y;
      assert x[..|o| - k] == o[k..];
    }
  }

  lemma SuffixIsFree(a: string, b: string, t: string)
    requires IsSuffix(a, b) && Free(b, t)
    ensures Free(a, t)
  {
    forall i: nat | t != "" && i + |t| <= |a| ensures !At(a, t, i) {
      assert a[i..] == b[|b| - |a| + i..];
      assert !At(b, t, |b| - |a| + i);
    }
  }

  // ---- Tokens that come back ----

  lemma ShortIsCopied(s: string, t: string)
    requires |s| < |t|
    ensures Redact(s, t) == s
  {
    assert "" + s == s;
  }

  lemma TokenIsReplaced(t: string, z: string)
    requires t != "" && |z| < |t|
    ensures Redact(t + z, t) == MARK + z
  {
    hide MARK;
    var s := t + z;
    assert t <= s && s[|t|..] == z;
    RedactStep(s, t);
    ShortIsCopied(z, t);
  }

  /** What a token that fits the mark at `i` has before and after the mark. */
  function Ahead(t: string, i: int): string
    requires -|t| < i
  {
    if i < 0 then t[..-i] else ""
  }

  function Behind(t: string, i: int): string
    requires -|t| < i < 10
  {
    if 10 - i < |t| then t[10 - i..] else ""
  }

  /** A token comes back when the text around one of its occurrences supplies the rest. */
  lemma TokenComesBack(t: string, i: int)
    requires t != "" && -|t| < i < 10 && ComesBack(t, i)
    ensures var x, z := Ahead(t, i), Behind(t, i);
      |x| + |z| <= |t| && |z| < |t|
      && Redact(x + (t + z), t) == x + (MARK + z) && !Free(x + (MARK + z), t)
  {
    var x, z := Ahead(t, i), Behind(t, i);
    var w := x + (t + z);
    hide MARK, Fits;
    QuietFront(x, t, t + z);
    QuietIsCopied(w, |x|, t);
    assert w[..|x|] == x && w[|x|..] == t + z;
    TokenIsReplaced(t, z);
    FitsAt(t, i);
  }

  lemma FitsAt(t: string, i: int)
    requires t != "" && -|t| < i < 10 && Fits(t, i)
    ensures !Free(Ahead(t, i) + (MARK + Behind(t, i)), t)
  {
    hide MARK;
    MarkShape();
    var r := Ahead(t, i) + (MARK + Behind(t, i));
    var at: nat := if i < 0 then 0 else i;
    assert at + |t| <= |r|;
    assert r[at..][..|t|] == t by {
      forall j: nat | j < |t| ensures r[at + j] == t[j] {
        if 0 <= i + j < 10 { assert t[j] == MARK[i + j]; }
      }
    }
    assert At(r, t, at);
  }

  /** A token never reappears in redacted text exactly when it cannot come back in a mark. */
  lemma RedactedIsFreeIff(t: string)
    ensures (forall s :: Free(Redact(s, t), t)) <==> Clean(t)
  {
    hide Free, Redact, MARK, Fits, Quiet;
    if Clean(t) {
      forall s ensures Free(Redact(s, t), t) { RedactedIsFree(s, t); }
    } else {
      var i :| -|t| < i < 10 && ComesBack(t, i);
      TokenComesBack(t, i);
      var x, z := Ahead(t, i), Behind(t, i);
      assert !Free(Redact(x + (t + z), t), t);
    }
  }

  /** For a token without brackets that means that it does not occur in the mark's word. */
  lemma CleanIff(t: string)
    requires '[' !in t && ']' !in t
    ensures Clean(t) <==> Free(WORD, t)
  {
    hide MARK, WORD, Fits;
    MarkShape();
    forall i: int | t != "" && -|t| < i < 10 && ComesBack(t, i) ensures !Free(WORD, t) { FitsInside(t, i); }
    forall i: nat | t != "" && i + |t| <= |WORD| && At(WORD, t, i) ensures ComesBack(t, i + 1) {
      assert MARK[i + 1..][..|t|] == MARK[1..9][i..][..|t|];
      assert MARK + "" == MARK;
      MatchFits("", t, i + 1);
    }
  }

  lemma FitsInside(t: string, i: int)
    requires '[' !in t && ']' !in t && t != "" && -|t| < i < 10 && Fits(t, i)
    ensures !Free(WORD, t)
  {
    hide MARK, WORD, Fits;
    FitsBracket(t, i);
    InsideWord(t, i - 1);
  }

  lemma FitsBracket(t: string, i: int)
    requires t != "" && -|t| < i < 10 && Fits(t, i)
    ensures i <= 0 ==> '[' in t
    ensures i + |t| > 9 ==> ']' in t
  {
    hide MARK;
    MarkShape();
    if i <= 0 { assert t[-i] == MARK[i + -i]; }
    if i + |t| > 9 { assert t[9 - i] == MARK[i + (9 - i)]; }
  }

  lemma InsideWord(t: string, i: nat)
    requires i + |t| <= 8 && t != "" && Fits(t, i + 1)
    ensures !Free(WORD, t)
  {
    hide MARK, WORD;
    MarkShape();
    assert WORD[i..][..|t|] == t by {
      forall j: nat | j < |t| ensures WORD[i + j] == t[j] {
        assert MARK[1..9][i + j] == MARK[i + 1 + j];
      }
    }
    assert At(WORD, t, i);
  }

  /** Redaction changes every text that holds the token, unless that is the mark itself. */
  lemma {:induction false} RedactChanges(s: string, t: string)
    requires t != ""
    ensures |t| <= 10 ==> |Redact(s, t)| >= |s|
    ensures |t| >= 10 ==> |Redact(s, t)| <= |s|
    ensures !Free(s, t) && |t| != 10 ==> |Redact(s, t)| != |s|
    ensures !Free(s, t) && |t| == 10 && t != MARK ==> Redact(s, t) != s
    decreases |s|
  {
    if |s| >= |t| {
      hide MARK, Redact, Free;
      MarkShape();
      RedactStep(s, t);
      var rest := s[Ate(s, t)..];
      RedactChanges(rest, t);
      FrontOff(s, t);
      if t <= s {
        if |t| == 10 { SameFront(MARK, t, Redact(rest, t), rest); }
      } else {
        SameFront([s[0]], [s[0]], Redact(rest, t), rest);
        if !Free(s, t) { LaterOccurrence(s, t); }
      }
    } else {
      ShortIsCopied(s, t);
    }
  }

  lemma SameFront(a: string, b: string, x: string, y: string)
    requires |a| == |b|
    ensures a + x == b + y ==> a == b && x == y
  {
    assert (a + x)[..|a|] == a && (a + x)[|a|..] == x;
    assert (b + y)[..|b|] == b && (b + y)[|b|..] == y;
  }

  lemma LaterOccurrence(s: string, t: string)
    requires t != "" && |t| <= |s| && !(t <= s) && !Free(s, t)
    ensures !Free(s[1..], t)
  {
    var i: nat :| i + |t| <= |s| && At(s, t, i);
    assert s[0..] == s;
    assert s[1..][i - 1..] == s[i..];
    assert At(s[1..], t, i - 1);
  }

  /** Redacting the mark changes nothing. */
  lemma {:induction false} MarkIsKept(s: string)
    ensures Redact(s, MARK) == s
    decreases |s|
  {
    hide Redact, MARK;
    MarkShape();
    if |s| >= |MARK| {
      RedactStep(s, MARK);
      MarkIsKept(s[Ate(s, MARK)..]);
      FrontOff(s, MARK);
    } else {
      ShortIsCopied(s, MARK);
    }
  }
}
