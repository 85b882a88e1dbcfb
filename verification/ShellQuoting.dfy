/** Quoting of values in the commands that setup prints for the user's shell:
    internal/setup/setup.go. The reader is the token recognition of the POSIX.1-2017 Shell
    Command Language restricted to blanks, single quotes (section 2.2.2), double quotes
    (section 2.2.3) and characters without any special meaning. */
module ShellQuoting {
  import opened Text

  function Escaped(value: string): string {
    if value == "" then ""
    else (if value[0] == '\'' then "'\"'\"'" else [value[0]]) + Escaped(value[1..])
  }

  function ShellQuote(value: string): string { "'" + Escaped(value) + "'" }

  /** The command line that starts a saved connection; `byDefault` tells whether the
      configuration file is the one that is used without `--config`. */
  function Command(subcommand: string, path: string, name: string, byDefault: bool): string {
    "pg-tunnel " + (subcommand + " ") +
    (if byDefault then "" else "--config " + (ShellQuote(path) + " ")) + ShellQuote(name)
  }

  // ---- The shell ----

  datatype Mode = Unquoted | Single | Double

  /** Letters, digits and other characters that mean themselves outside quotes. */
  predicate Plain(c: char) {
    'a' <= c <= 'z' || 'A' <= c <= 'Z' || '0' <= c <= '9' || c == '-' || c == '_' || c == '.' || c == '/'
  }

  predicate Blank(c: char) { c == ' ' || c == '\t' }

  function Append(word: Option<string>, c: char): Option<string> {
    Some((if word.Some? then word.value else "") + [c])
  }

  function Flush(word: Option<string>): seq<string> { if word.Some? then [word.value] else [] }

  /** The words of `s` when the scan is inside the current `word`, if any; None when `s` is
      not just words: an unclosed quote, an expansion, an escape, an operator or a pattern. */
  function Scan(s: string, mode: Mode, word: Option<string>): Option<seq<string>> {
    if s == "" then
      if mode == Unquoted then Some(Flush(word)) else None
    else
      var c, rest := s[0], s[1..];
      match mode
      case Single =>
        if c == '\'' then Scan(rest, Unquoted, word) else Scan(rest, Single, Append(word, c))
      case Double =>
        if c == '"' then Scan(rest, Unquoted, word)
        else if c == '$' || c == '`' || c == '\\' then None
        else Scan(rest, Double, Append(word, c))
      case Unquoted =>
        if Blank(c) then Prepend(Flush(word), Scan(rest, Unquoted, None))
        else if c == '\'' then Scan(rest, Single, Begun(word))
        else if c == '"' then Scan(rest, Double, Begun(word))
        else if Plain(c) then Scan(rest, Unquoted, Append(word, c))
        else None
  }

  function Begun(word: Option<string>): Option<string> { if word.Some? then word else Some("") }

  function Prepend(words: seq<string>, more: Option<seq<string>>): Option<seq<string>> {
    if more.Some? then Some(words + more.value) else None
  }

  function Words(s: string): Option<seq<string>> { Scan(s, Unquoted, None) }

  // ---- Reading back ----

  lemma {:induction false} EscapedIsRead(value: string, rest: string, word: string)
    ensures Scan(Escaped(value) + ("'" + rest), Single, Some(word)) == Scan(rest, Unquoted, Some(word + value))
  {
    if value == "" {
      assert Escaped(value) + ("'" + rest) == "'" + rest && word + value == word;
    } else {
      var tail := Escaped(value[1..]) + ("'" + rest);
      EscapedIsRead(value[1..], rest, word + [value[0]]);
      assert word + value == (word + [value[0]]) + value[1..];
      if value[0] == '\'' {
        assert Escaped(value) + ("'" + rest) == "'\"'\"'" + tail;
        QuoteIsRead(tail, word);
      } else {
        assert Escaped(value) + ("'" + rest) == [value[0]] + tail;
        assert Scan([value[0]] + tail, Single, Some(word)) == Scan(tail, Single, Some(word + [value[0]]));
      }
    }
  }

  /** The five characters that stand for a single quote. */
  lemma QuoteIsRead(tail: string, word: string)
    ensures Scan("'\"'\"'" + tail, Single, Some(word)) == Scan(tail, Single, Some(word + "'"))
  {
    var s1, s2, s3, s4 := "\"'\"'" + tail, "'\"'" + tail, "\"'" + tail, "'" + tail;
    assert ("'\"'\"'" + tail)[1..] == s1;
    assert s1[1..] == s2 && s2[1..] == s3 && s3[1..] == s4 && s4[1..] == tail;
    assert Scan("'\"'\"'" + tail, Single, Some(word)) == Scan(s1, Unquoted, Some(word)) == Scan(s2, Double, Some(word));
    assert Scan(s2, Double, Some(word)) == Scan(s3, Double, Some(word + "'")) == Scan(s4, Unquoted, Some(word + "'"));
  }

  /** A quoted value is read as exactly that value, whatever follows. */
  lemma QuotedIsRead(value: string, rest: string)
    ensures Scan(ShellQuote(value) + rest, Unquoted, None) == Scan(rest, Unquoted, Some(value))
  {
    var s := ShellQuote(value) + rest;
    assert s[1..] == Escaped(value) + ("'" + rest);
    EscapedIsRead(value, rest, "");
    assert "" + value == value;
  }

  /** The shell reads a quoted value as one word with the same characters. */
  lemma ShellQuoteRoundTrip(value: string)
    ensures Words(ShellQuote(value)) == Some([value])
  {
    QuotedIsRead(value, "");
    assert ShellQuote(value) + "" == ShellQuote(value);
  }

  predicate PlainWord(w: string) { w != "" && forall c | c in w :: Plain(c) }

  lemma {:induction false} PlainIsRead(w: string, rest: string, word: Option<string>)
    requires PlainWord(w)
    ensures Scan(w + rest, Unquoted, word) == Scan(rest, Unquoted, Some((if word.Some? then word.value else "") + w))
  {
    var s := w + rest;
    var before := if word.Some? then word.value else "";
    assert w[0] in w;
    assert s[1..] == w[1..] + rest;
    assert (before + [w[0]]) + w[1..] == before + w;
    if |w| > 1 {
      assert forall c | c in w[1..] :: c in w;
      PlainIsRead(w[1..], rest, Append(word, w[0]));
    } else {
      assert w[1..] + rest == rest && before + w == before + [w[0]];
    }
  }

  lemma BlankIsRead(word: string, rest: string)
    ensures Scan(" " + rest, Unquoted, Some(word)) == Prepend([word], Scan(rest, Unquoted, None))
  {
    assert (" " + rest)[1..] == rest;
  }

  lemma PlainWordIsRead(w: string, rest: string)
    requires PlainWord(w)
    ensures Words(w + (" " + rest)) == Prepend([w], Words(rest))
  {
    PlainIsRead(w, " " + rest, None);
    assert "" + w == w;
    BlankIsRead(w, rest);
  }

  lemma QuotedWordIsRead(value: string, rest: string)
    ensures Words(ShellQuote(value) + (" " + rest)) == Prepend([value], Words(rest))
  {
    QuotedIsRead(value, " " + rest);
    BlankIsRead(value, rest);
  }

  function Options(path: string, byDefault: bool): seq<string> {
    if byDefault then [] else ["--config", path]
  }

  /** The printed command is read as exactly its intended words. */
  lemma CommandIsRead(subcommand: string, path: string, name: string, byDefault: bool)
    requires PlainWord(subcommand)
    ensures Words(Command(subcommand, path, name, byDefault)) ==
      Some(["pg-tunnel", subcommand] + Options(path, byDefault) + [name])
    ensures Words(Command(subcommand, path, name, byDefault) + " -- psql") ==
      Some(["pg-tunnel", subcommand] + Options(path, byDefault) + [name, "--", "psql"])
  {
    hide Command;
    ShellQuoteRoundTrip(name);
    assert ShellQuote(name) + "" == ShellQuote(name);
    CommandThen(subcommand, path, name, byDefault, "", [name]);
    assert Command(subcommand, path, name, byDefault) + "" == Command(subcommand, path, name, byDefault);
    PsqlIsRead(name);
    CommandThen(subcommand, path, name, byDefault, " -- psql", [name, "--", "psql"]);
  }

  lemma PsqlIsRead(name: string)
    ensures Words(ShellQuote(name) + " -- psql") == Some([name, "--", "psql"])
  {
    hide Scan;
    assert " -- psql" == " " + ("--" + (" " + "psql"));
    QuotedWordIsRead(name, "--" + (" " + "psql"));
    PlainWordIsRead("--", "psql");
    LastPlainWord("psql");
    assert [name] + (["--"] + ["psql"]) == [name, "--", "psql"];
  }

  lemma LastPlainWord(w: string)
    requires PlainWord(w)
    ensures Words(w) == Some([w])
  {
    PlainIsRead(w, "", None);
    assert w + "" == w && "" + w == w;
  }

  lemma CommandThen(subcommand: string, path: string, name: string, byDefault: bool, tail: string, words: seq<string>)
    requires PlainWord(subcommand) && Words(ShellQuote(name) + tail) == Some(words)
    ensures Words(Command(subcommand, path, name, byDefault) + tail) ==
      Some(["pg-tunnel", subcommand] + Options(path, byDefault) + words)
  {
    hide Words, Command, Options;
    var last := ShellQuote(name) + tail;
    CommandParts(subcommand, path, name, byDefault, tail);
    var rest := if byDefault then last else "--config" + (" " + (ShellQuote(path) + (" " + last)));
    PlainWordIsRead("pg-tunnel", subcommand + (" " + rest));
    PlainWordIsRead(subcommand, rest);
    PlainWordIsRead("--config", ShellQuote(path) + (" " + last));
    QuotedWordIsRead(path, last);
    assert Words(rest) == Some(Options(path, byDefault) + words) by { OptionsThen(path, byDefault, words); }
    var opts := Options(path, byDefault);
    assert ["pg-tunnel"] + ([subcommand] + (opts + words)) == ["pg-tunnel", subcommand] + opts + words;
  }

  lemma OptionsThen(path: string, byDefault: bool, words: seq<string>)
    ensures Options(path, byDefault) + words == if byDefault then words else ["--config"] + ([path] + words)
  {}

  lemma CommandParts(subcommand: string, path: string, name: string, byDefault: bool, tail: string)
    ensures var last := ShellQuote(name) + tail;
      Command(subcommand, path, name, byDefault) + tail ==
      "pg-tunnel" + (" " + (subcommand + (" " +
        (if byDefault then last else "--config" + (" " + (ShellQuote(path) + (" " + last)))))))
  {
    hide ShellQuote;
    assert "pg-tunnel " == "pg-tunnel" + " " && "--config " == "--config" + " ";
  }
}
