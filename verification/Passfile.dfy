/** The password-file line printer of internal/libpq/pgpass.go, against the reader that
    section 34.16 of the PostgreSQL 16 documentation describes. */
module Passfile {
  import opened Text

  // ---- The printer ----

  function EscapeChar(c: char): string {
    if c == '\\' then "\\\\" else if c == ':' then "\\:" else [c]
  }

  function Escape(field: string): string {
    if field == "" then "" else EscapeChar(field[0]) + Escape(field[1..])
  }

  function EscapeAll(fields: seq<string>): (escaped: seq<string>)
    ensures |escaped| == |fields|
    ensures forall i | 0 <= i < |fields| :: escaped[i] == Escape(fields[i])
  {
    seq(|fields|, i requires 0 <= i < |fields| => Escape(fields[i]))
  }

  /** The line for `fields`. */
  function Line(fields: seq<string>): string {
    Join(EscapeAll(fields), ":")
  }

  /** The source's loop: it escapes the caller's slice in place and then joins it. */
  method FormatLine(fields: array<string>) returns (line: string)
    modifies fields
    ensures fields[..] == EscapeAll(old(fields[..]))
    ensures line == Line(old(fields[..]))
  {
    for index := 0 to fields.Length
      invariant forall i | 0 <= i < index :: fields[i] == Escape(old(fields[i]))
      invariant forall i | index <= i < fields.Length :: fields[i] == old(fields[i])
    {
      fields[index] := Escape(fields[index]);
    }
    assert fields[..] == EscapeAll(old(fields[..]));
    line := Join(fields[..], ":");
  }

  /** Characters other than the two escaped ones appear in a line only if a field has them. */
  predicate Verbatim(c: char) { c != '\\' && c != ':' }

  lemma {:induction false} EscapeWithout(field: string, c: char)
    requires c !in field && Verbatim(c)
    ensures c !in Escape(field)
  {
    if field != "" {
      assert field[0] in field;
      assert forall d | d in field[1..] :: d in field;
      EscapeWithout(field[1..], c);
    }
  }

  /** With newline-free fields the line is one line of the file. */
  lemma {:induction false} LineWithout(fields: seq<string>, c: char)
    requires Verbatim(c) && forall f | f in fields :: c !in f
    ensures c !in Line(fields)
  {
    if fields != [] {
      EscapeWithout(fields[0], c);
      assert EscapeAll(fields)[1..] == EscapeAll(fields[1..]);
      LineWithout(fields[1..], c);
    }
  }

  // ---- Splitting and unescaping ----

  /** The fields of a line: split at unescaped colons, a backslash taking the next
      character literally. `field` is the part of the current field already read. */
  function Fields(line: string, field: string := ""): (fields: seq<string>)
    ensures fields != []
  {
    if line == "" then [field]
    else if line[0] == '\\' && |line| > 1 then Fields(line[2..], field + [line[1]])
    else if line[0] == ':' then [field] + Fields(line[1..], "")
    else Fields(line[1..], field + [line[0]])
  }

  lemma FieldsOfChar(c: char, tail: string, field: string)
    ensures Fields(EscapeChar(c) + tail, field) == Fields(tail, field + [c])
  {
    var line := EscapeChar(c) + tail;
    assert line[|EscapeChar(c)|..] == tail;
  }

  lemma {:induction false} FieldsOfEscaped(f: string, rest: string, field: string)
    ensures Fields(Escape(f) + rest, field) == Fields(rest, field + f)
  {
    hide EscapeChar, Fields;
    if f == "" {
      assert Escape(f) + rest == rest && field + f == field;
    } else {
      var tail := Escape(f[1..]) + rest;
      assert Escape(f) + rest == EscapeChar(f[0]) + tail;
      FieldsOfChar(f[0], tail, field);
      FieldsOfEscaped(f[1..], rest, field + [f[0]]);
      assert field + f == field + [f[0]] + f[1..];
    }
  }

  /** Round trip: splitting a printed line gives back exactly its fields. */
  lemma {:induction false} LineRoundTrip(fields: seq<string>)
    ensures Fields(Line(fields)) == if fields == [] then [""] else fields
  {
    if |fields| == 1 {
      FieldsOfEscaped(fields[0], "", "");
      assert Escape(fields[0]) + "" == Line(fields);
    } else if |fields| > 1 {
      var rest := ":" + Line(fields[1..]);
      assert EscapeAll(fields)[1..] == EscapeAll(fields[1..]);
      assert Line(fields) == Escape(fields[0]) + rest;
      FieldsOfEscaped(fields[0], rest, "");
      assert "" + fields[0] == fields[0];
      assert rest[1..] == Line(fields[1..]);
      LineRoundTrip(fields[1..]);
      assert fields == [fields[0]] + fields[1..];
    }
  }

  /** Different field lists are printed as different lines. */
  lemma LineIsInjective(a: seq<string>, b: seq<string>)
    requires a != [] && b != []
    requires Line(a) == Line(b)
    ensures a == b
  {
    LineRoundTrip(a);
    LineRoundTrip(b);
  }

  // ---- First-match lookup ----

  /** What follows the field at the start of `line` when that field stands for `value`. */
  function AfterField(line: string, value: string): Option<string> {
    if "*:" <= line then Some(line[2..]) else AfterLiteral(line, value)
  }

  function AfterLiteral(line: string, value: string): Option<string> {
    if line == "" then None
    else if line[0] == ':' && value == "" then Some(line[1..])
    else
      var escaped := line[0] == '\\' && |line| > 1;
      var c := if escaped then line[1] else line[0];
      if value == "" || c != value[0] then None
      else AfterLiteral(line[if escaped then 2 else 1..], value[1..])
  }

  /** A printed field matches its own value, a star any value, and nothing else matches. */
  lemma FieldIff(f: string, value: string, rest: string)
    requires ':' !in value
    ensures AfterField(Escape(f) + ":" + rest, value) == if f == value || f == "*" then Some(rest) else None
  {
    var line := Escape(f) + ":" + rest;
    LiteralIff(f, value, rest);
    StarIff(f, rest);
    if f == "*" { assert line[2..] == rest; }
  }

  lemma StarIff(f: string, rest: string)
    ensures "*:" <= Escape(f) + ":" + rest <==> f == "*"
  {
    var line := Escape(f) + ":" + rest;
    StarsBegin(line);
    if f == "" {
      assert line[0] == ':';
    } else {
      var tail := Escape(f[1..]) + ":" + rest;
      assert line == EscapeChar(f[0]) + tail;
      if f[0] == '*' {
        assert line[1..] == tail;
        if |f| > 1 {
          assert f[1..][0] == f[1] && Escape(f[1..]) == EscapeChar(f[1]) + Escape(f[1..][1..]);
          assert tail[0] == EscapeChar(f[1])[0] != ':';
        } else {
          assert f == ['*'] && Escape(f[1..]) == "" && tail[0] == ':';
        }
      } else {
        assert line[0] == EscapeChar(f[0])[0] != '*';
      }
    }
  }

  lemma StarsBegin(line: string)
    ensures "*:" <= line <==> |line| >= 2 && line[0] == '*' && line[1] == ':'
  {
    if |line| >= 2 && line[0] == '*' && line[1] == ':' { assert line[..2] == "*:"; }
  }

  lemma {:induction false} LiteralIff(f: string, value: string, rest: string)
    requires ':' !in value
    ensures AfterLiteral(Escape(f) + ":" + rest, value) == if f == value then Some(rest) else None
  {
    var line := Escape(f) + ":" + rest;
    if f == "" {
      assert line == ":" + rest;
      if value != "" { assert value[0] in value; }
    } else {
      var tail := Escape(f[1..]) + ":" + rest;
      assert line == EscapeChar(f[0]) + tail && (EscapeChar(f[0]) + tail)[|EscapeChar(f[0])|..] == tail;
      if value != "" {
        assert forall c | c in value[1..] :: c in value;
        LiteralIff(f[1..], value[1..], rest);
        assert f == [f[0]] + f[1..] && value == [value[0]] + value[1..];
      }
    }
  }

  /** What follows all the fields of the line that `values` match in turn. */
  function AfterFields(line: string, values: seq<string>): Option<string>
    decreases |values|
  {
    if values == [] then Some(line)
    else match AfterField(line, values[0])
         case None => None
         case Some(rest) => AfterFields(rest, values[1..])
  }

  /** The line without the end-of-line characters at its end. */
  function Trimmed(line: string): string {
    if line != "" && line[|line| - 1] in {'\n', '\r'} then Trimmed(line[..|line| - 1]) else line
  }

  /** The password that one line gives for a connection; comments give none. */
  function LineLookup(line: string, key: seq<string>): Option<string> {
    var text := Trimmed(line);
    if text == "" || text[0] == '#' then None
    else match AfterFields(text, key)
         case None => None
         case Some(password) => Some(Fields(password)[0])
  }

  /** The password that the file gives for a connection: that of the first matching line. */
  function Lookup(content: string, key: seq<string>): Option<string> {
    if content == "" then None
    else
      var line := FirstLine(content);
      var found := LineLookup(line, key);
      if found.Some? then found else Lookup(content[|line|..], key)
  }

  lemma LookupLine(line: string, rest: string, key: seq<string>)
    requires IsLine(line)
    ensures Lookup(line + rest, key) ==
            if LineLookup(line, key).Some? then LineLookup(line, key) else Lookup(rest, key)
  {
    FirstLineOfLine(line, rest);
  }

  lemma {:induction false} AfterLiteralOfEscaped(f: string, rest: string)
    ensures AfterLiteral(Escape(f) + ":" + rest, f) == Some(rest)
  {
    if f == "" {
      assert Escape(f) + ":" + rest == ":" + rest;
    } else {
      var e := EscapeChar(f[0]);
      var tail := Escape(f[1..]) + ":" + rest;
      assert Escape(f) + ":" + rest == e + tail;
      assert (e + tail)[|e|..] == tail;
      AfterLiteralOfEscaped(f[1..], rest);
    }
  }

  /** A printed field matches its own value, whatever it contains. */
  lemma AfterOwnField(f: string, rest: string)
    ensures AfterField(Escape(f) + ":" + rest, f) == Some(rest)
  {
    var line := Escape(f) + ":" + rest;
    if "*:" <= line {
      assert line[0] == '*' && line[1] == ':';
      assert f != "" && line == EscapeChar(f[0]) + (Escape(f[1..]) + ":" + rest);
      assert f[0] == '*' && line[1..] == Escape(f[1..]) + ":" + rest;
      if |f| > 1 {
        assert false;
      }
    } else {
      AfterLiteralOfEscaped(f, rest);
    }
  }

  /** Two different numbers never match each other, so ports tell sessions apart. */
  lemma {:induction false} AfterOtherNumber(printed: string, value: string, rest: string)
    requires Digits(printed) && Digits(value) && printed != value
    ensures AfterLiteral(printed + ":" + rest, value).None?
  {
    var line := printed + ":" + rest;
    if printed == "" {
      assert line[0] == ':';
    } else if value != "" && printed[0] == value[0] {
      assert line[1..] == printed[1..] + ":" + rest;
      assert printed == [printed[0]] + printed[1..] && value == [value[0]] + value[1..];
      AfterOtherNumber(printed[1..], value[1..], rest);
    }
  }

  lemma {:induction false} EscapeOfDigits(s: string)
    requires Digits(s)
    ensures Escape(s) == s
  {
    if s != "" { EscapeOfDigits(s[1..]); }
  }

  lemma LineStep(fields: seq<string>)
    requires |fields| > 1
    ensures Line(fields) == Escape(fields[0]) + ":" + Line(fields[1..])
  {
    assert EscapeAll(fields)[1..] == EscapeAll(fields[1..]);
  }

  /** A printed line matches its own fields and leaves the last one, still escaped. */
  lemma {:induction false} OwnFields(values: seq<string>, last: string)
    ensures AfterFields(Line(values + [last]), values) == Some(Escape(last))
    decreases |values|
  {
    hide AfterField, Line;
    var fields := values + [last];
    if values == [] {
      assert Line(fields) == Escape(last) by { LineOfOne(last); assert fields == [last]; }
    } else {
      LineStep(fields);
      assert fields[1..] == values[1..] + [last];
      AfterOwnField(values[0], Line(fields[1..]));
      OwnFields(values[1..], last);
    }
  }

  lemma LineOfOne(field: string)
    ensures Line([field]) == Escape(field)
  {}

  lemma PasswordField(secret: string)
    ensures Fields(Escape(secret))[0] == secret
  {
    FieldsOfEscaped(secret, "", "");
    assert Escape(secret) + "" == Escape(secret) && "" + secret == secret;
  }

  /** A line whose second field is another number does not match. */
  lemma OtherSecondField(first: string, printed: string, others: seq<string>, value: string, values: seq<string>)
    requires Digits(printed) && Digits(value) && printed != value && printed != "" && others != []
    ensures AfterFields(Line([first, printed] + others), [first, value] + values).None?
  {
    hide Line;
    var fields, key := [first, printed] + others, [first, value] + values;
    LineStep(fields);
    var tail := fields[1..];
    assert tail == [printed] + others;
    LineStep(tail);
    AfterOwnField(first, Line(tail));
    assert key[1..] == [value] + values;
    EscapeOfDigits(printed);
    AfterOtherNumber(printed, value, Line(tail[1..]));
    assert Line(tail)[0] == printed[0];
  }

  lemma TrimmedLine(line: string)
    requires '\n' !in line && '\r' !in line
    ensures Trimmed(line + "\n") == line
  {
    assert (line + "\n")[..|line|] == line;
    if line != "" { assert line[|line| - 1] in line; }
  }

  lemma {:induction false} TrimmedStart(line: string)
    requires line != "" && line[0] != '\n' && line[0] != '\r'
    ensures Trimmed(line) != "" && Trimmed(line)[0] == line[0]
  {
    if |line| > 1 {
      TrimmedStart(line[..|line| - 1]);
    }
  }

  lemma CommentLine(line: string, key: seq<string>)
    requires line != "" && line[0] == '#'
    ensures LineLookup(line, key).None?
  {
    TrimmedStart(line);
  }
}
