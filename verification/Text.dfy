/** String helpers shared by the file formats: lines, separators and decimal numbers.
    A `string` stands for the bytes of a file or stream. */
module Text {

  datatype Option<+T> = None | Some(value: T)

  /** Durations and times are in nanoseconds. */
  const SECOND: nat := 1_000_000_000

  function Init<T>(xs: seq<T>): seq<T>
    requires xs != []
  {
    xs[..|xs| - 1]
  }

  function Last<T>(xs: seq<T>): T
    requires xs != []
  {
    xs[|xs| - 1]
  }

  lemma Associate<T>(a: seq<T>, b: seq<T>, c: seq<T>)
    ensures (a + b) + c == a + (b + c)
  {}

  /** The first line of `s` with its newline, or all of `s` when it has no newline. */
  function FirstLine(s: string): (line: string)
    ensures line <= s
    ensures s != "" ==> line != ""
  {
    if s == "" then ""
    else if s[0] == '\n' then "\n"
    else [s[0]] + FirstLine(s[1..])
  }

  /** A newline-terminated line. */
  predicate IsLine(l: string) {
    |l| > 0 && l[|l| - 1] == '\n' && '\n' !in l[..|l| - 1]
  }

  lemma {:induction false} FirstLineOfLine(l: string, rest: string)
    requires IsLine(l)
    ensures FirstLine(l + rest) == l
    ensures (l + rest)[|l|..] == rest
  {
    if |l| > 1 {
      assert l[0] in l[..|l| - 1];
      assert IsLine(l[1..]) by { assert l[1..][..|l| - 2] == l[..|l| - 1][1..]; }
      assert (l + rest)[1..] == l[1..] + rest;
      FirstLineOfLine(l[1..], rest);
    }
  }

  /** A first line either ends the text or is terminated by a newline. */
  lemma {:induction false} FirstLineShape(s: string)
    requires s != ""
    ensures IsLine(FirstLine(s)) || (FirstLine(s) == s && '\n' !in s)
  {
    if s[0] != '\n' && |s| > 1 {
      FirstLineShape(s[1..]);
      var l := FirstLine(s);
      var tail := FirstLine(s[1..]);
      assert s == [s[0]] + s[1..];
      if IsLine(tail) { assert l[..|l| - 1] == [s[0]] + tail[..|tail| - 1]; }
    }
  }

  /** The line without its newline. */
  function Chomp(line: string): string {
    if line != "" && line[|line| - 1] == '\n' then line[..|line| - 1] else line
  }

  /** The strings one after the other, each ended by a newline. */
  function Terminated(lines: seq<string>): string {
    if lines == [] then "" else lines[0] + "\n" + Terminated(lines[1..])
  }

  /** The strings with `sep` between neighbours. */
  function Join(parts: seq<string>, sep: string): string {
    if parts == [] then ""
    else if |parts| == 1 then parts[0]
    else parts[0] + sep + Join(parts[1..], sep)
  }

  lemma {:induction false} JoinIsTerminated(lines: seq<string>)
    requires lines != []
    ensures Join(lines, "\n") + "\n" == Terminated(lines)
  {
    if |lines| == 1 {
      assert lines[1..] == [];
    } else {
      JoinIsTerminated(lines[1..]);
      var tail := Join(lines[1..], "\n");
      assert (lines[0] + "\n" + tail) + "\n" == lines[0] + "\n" + (tail + "\n");
    }
  }

  /** Decimal notation of a natural number, as `strconv.Itoa` prints it. */
  function Decimal(n: nat): (s: string)
    ensures |s| > 0 && Digits(s)
  {
    if n < 10 then [Digit(n)] else Decimal(n / 10) + [Digit(n % 10)]
  }

  predicate Digits(s: string) {
    forall i | 0 <= i < |s| :: '0' <= s[i] <= '9'
  }

  function Digit(d: nat): (c: char)
    requires d < 10
    ensures '0' <= c <= '9'
  {
    '0' + d as char
  }

  /** The number that a string of digits denotes. */
  function Number(s: string): nat
    requires Digits(s)
  {
    if s == "" then 0 else 10 * Number(s[..|s| - 1]) + (s[|s| - 1] - '0') as nat
  }

  lemma {:induction false} DecimalRoundTrip(n: nat)
    ensures Number(Decimal(n)) == n
  {
    var s := Decimal(n);
    if n < 10 {
      assert s[..0] == "";
    } else {
      DecimalRoundTrip(n / 10);
      assert s[..|s| - 1] == Decimal(n / 10);
    }
  }

  /** The part of `s` before its first `sep`; all of `s` when there is none. */
  function Before(s: string, sep: char): (b: string)
    ensures b <= s && sep !in b
    ensures sep in s <==> |b| < |s|
    ensures |b| < |s| ==> s[|b|] == sep
  {
    if s == "" || s[0] == sep then "" else [s[0]] + Before(s[1..], sep)
  }

  lemma {:induction false} BeforeIs(b: string, sep: char, rest: string)
    requires sep !in b
    ensures Before(b + [sep] + rest, sep) == b
  {
    var s := b + [sep] + rest;
    if b != "" {
      assert b[0] in b;
      assert s[1..] == b[1..] + [sep] + rest;
      assert forall c | c in b[1..] :: c in b;
      BeforeIs(b[1..], sep, rest);
    }
  }
}
