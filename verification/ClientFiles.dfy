/** The private files of one session, as internal/libpq/files.go prints them and as libpq
    reads them: pg_service.conf (section 34.17 of the PostgreSQL 16 documentation) and pgpass
    (section 34.16). */
module ClientFiles {
  import opened Text
  import Passfile
  import opened SharedFile

  datatype Target = Target(host: string, database: string, user: string, rootCert: string)

  // ---- What initialize and Update accept ----

  /** White space as `strings.TrimSpace` sees it. */
  predicate UnicodeSpace(c: char) {
    '\t' <= c <= '\r' || c == ' ' || c == '\U{0085}' || c == '\U{00A0}' || c == '\U{1680}' ||
    '\U{2000}' <= c <= '\U{200A}' || c == '\U{2028}' || c == '\U{2029}' || c == '\U{202F}' ||
    c == '\U{205F}' || c == '\U{3000}'
  }

  /** The code points of the Unicode property White_Space. */
  lemma SpacesAre(c: char)
    ensures UnicodeSpace(c) <==>
      9 <= c as int <= 13 || 0x2000 <= c as int <= 0x200A ||
      c as int in {32, 0x85, 0xA0, 0x1680, 0x2028, 0x2029, 0x202F, 0x205F, 0x3000}
  {}

  /** White space as libpq's reader sees it. */
  predicate Space(c: char) { '\t' <= c <= '\r' || c == ' ' }

  function TrimLeft(s: string, space: char -> bool): string {
    if s != "" && space(s[0]) then TrimLeft(s[1..], space) else s
  }

  function TrimRight(s: string, space: char -> bool): string {
    if s != "" && space(s[|s| - 1]) then TrimRight(s[..|s| - 1], space) else s
  }

  function Trim(s: string, space: char -> bool): string { TrimRight(TrimLeft(s, space), space) }

  predicate PlainValue(v: string) {
    OneLine(v) && '\0' !in v && Trim(v, UnicodeSpace) == v
  }

  /** The check at the head of `initialize`. */
  predicate Accepts(t: Target) {
    PlainValue(t.host) && PlainValue(t.database) && PlainValue(t.user) && PlainValue(t.rootCert)
  }

  /** The check at the head of `Update`. */
  predicate AcceptsSecret(secret: string) { secret != "" && OneLine(secret) && '\0' !in secret }

  /** No line break, no NUL, and white space at neither end. */
  predicate Unspaced(v: string) {
    '\n' !in v && '\r' !in v && '\0' !in v &&
    (v != "" ==> !UnicodeSpace(v[0]) && !UnicodeSpace(v[|v| - 1]))
  }

  /** Exactly these targets are accepted. */
  lemma AcceptsIff(t: Target)
    ensures Accepts(t) <==> Unspaced(t.host) && Unspaced(t.database) && Unspaced(t.user) && Unspaced(t.rootCert)
  {
    PlainIff(t.host);
    PlainIff(t.database);
    PlainIff(t.user);
    PlainIff(t.rootCert);
    hide PlainValue, Unspaced;
  }

  /** And exactly these secrets. */
  lemma AcceptsSecretIff(secret: string)
    ensures AcceptsSecret(secret) <==> |secret| > 0 && forall c | c in secret :: c as int !in {0, 10, 13}
  {}

  lemma PlainIff(v: string)
    ensures PlainValue(v) <==> Unspaced(v)
  {
    hide UnicodeSpace;
    TrimLeftShorter(v, UnicodeSpace);
    TrimRightShorter(TrimLeft(v, UnicodeSpace), UnicodeSpace);
    if v != "" {
      TrimLeftShorter(v[1..], UnicodeSpace);
      TrimRightShorter(v[..|v| - 1], UnicodeSpace);
    }
  }

  // ---- The service file ----

  const SECTION := "pg-tunnel"

  /** The settings that the service file is for, in order. */
  function Settings(t: Target, port: nat): seq<(string, string)> {
    [("host", t.host), ("hostaddr", "127.0.0.1"), ("port", Decimal(port)), ("dbname", t.database),
     ("user", t.user), ("sslmode", "verify-full"), ("sslrootcert", t.rootCert), ("connect_timeout", "10")]
  }

  function SettingLines(settings: seq<(string, string)>): string {
    if settings == [] then ""
    else (settings[0].0 + "=" + settings[0].1 + "\n") + SettingLines(settings[1..])
  }

  /** What `initialize` prints, line by line. */
  function ServiceLines(t: Target, port: nat): seq<string> {
    ["[pg-tunnel]", "host=" + t.host, "hostaddr=127.0.0.1", "port=" + Decimal(port), "dbname=" + t.database,
     "user=" + t.user, "sslmode=verify-full", "sslrootcert=" + t.rootCert, "connect_timeout=10"]
  }

  function ServiceText(t: Target, port: nat): string { Terminated(ServiceLines(t, port)) }

  /** libpq's reader: the settings of `section`, None when a line of it has no `=`. */
  function ReadService(text: string, section: string, inside: bool): Option<seq<(string, string)>>
    decreases |text|
  {
    if text == "" then Some([])
    else
      var line := Trim(FirstLine(text), Space);
      var rest := text[|FirstLine(text)|..];
      if line == "" || line[0] == '#' then ReadService(rest, section, inside)
      else if line[0] == '[' then
        if inside then Some([]) else ReadService(rest, section, "[" + section + "]" <= line)
      else if !inside then ReadService(rest, section, false)
      else if '=' !in line then None
      else
        var key := Before(line, '=');
        match ReadService(rest, section, true)
        case None => None
        case Some(tail) => Some([(key, line[|key| + 1..])] + tail)
  }

  /** A key of the service file, as a name that no reader mistakes for something else. */
  predicate KeyName(key: string) {
    key != "" && forall i | 0 <= i < |key| :: 'a' <= key[i] <= 'z' || key[i] == '_'
  }

  predicate ValueText(v: string) { '\n' !in v && (v != "" ==> !Space(v[|v| - 1])) }

  lemma TrimLeftShorter(s: string, space: char -> bool)
    ensures |TrimLeft(s, space)| <= |s|
    ensures |TrimLeft(s, space)| == |s| ==> TrimLeft(s, space) == s
  {}

  lemma TrimRightShorter(s: string, space: char -> bool)
    ensures |TrimRight(s, space)| <= |s|
    ensures |TrimRight(s, space)| == |s| ==> TrimRight(s, space) == s
  {}

  lemma TrimmedEnds(v: string)
    requires Trim(v, UnicodeSpace) == v && v != ""
    ensures !Space(v[|v| - 1])
  {
    TrimLeftShorter(v, UnicodeSpace);
    TrimRightShorter(TrimLeft(v, UnicodeSpace), UnicodeSpace);
    assert TrimRight(v, UnicodeSpace) == v;
    if UnicodeSpace(v[|v| - 1]) {
      TrimRightShorter(v[..|v| - 1], UnicodeSpace);
    }
  }

  lemma ReadSetting(line: string, text: string, rest: string, section: string)
    requires IsLine(line) && Trim(line, Space) == text
    requires text != "" && text[0] != '#' && text[0] != '[' && '=' in text
    ensures var key := Before(text, '=');
            ReadService(line + rest, section, true) ==
            match ReadService(rest, section, true)
            case None => None
            case Some(tail) => Some([(key, text[|key| + 1..])] + tail)
  {
    FirstLineOfLine(line, rest);
    hide FirstLine, Trim, Before, IsLine;
  }

  lemma ReadHeader(line: string, text: string, rest: string, section: string)
    requires IsLine(line) && Trim(line, Space) == text
    requires "[" + section + "]" <= text
    ensures ReadService(line + rest, section, false) == ReadService(rest, section, true)
  {
    FirstLineOfLine(line, rest);
    hide FirstLine, Trim, IsLine;
    assert text[0] == ("[" + section + "]")[0];
  }

  lemma SettingText(key: string, value: string)
    requires KeyName(key) && ValueText(value)
    ensures var text := key + "=" + value;
            IsLine(text + "\n") && text[0] != '#' && text[0] != '[' && '=' in text &&
            Before(text, '=') == key && text[|key| + 1..] == value
  {
    var text := key + "=" + value;
    assert '\n' !in key && '=' !in key by { assert forall i | 0 <= i < |key| :: key[i] != '\n' && key[i] != '='; }
    assert (text + "\n")[..|text|] == text;
    BeforeIs(key, '=', value);
    assert key + ['='] + value == text;
    assert text[|key|] == '=' && text[0] == key[0];
  }

  lemma SettingLine(key: string, value: string, rest: string, section: string)
    requires KeyName(key) && ValueText(value)
    ensures ReadService((key + "=" + value + "\n") + rest, section, true) ==
            match ReadService(rest, section, true)
            case None => None
            case Some(tail) => Some([(key, value)] + tail)
  {
    SettingText(key, value);
    TrimSetting(key, value);
    hide KeyName, ValueText, IsLine, Trim, Before, ReadService;
    ReadSetting(key + "=" + value + "\n", key + "=" + value, rest, section);
  }

  lemma TrimSetting(key: string, value: string)
    requires KeyName(key) && ValueText(value)
    ensures Trim(key + "=" + value + "\n", Space) == key + "=" + value
  {
    var text := key + "=" + value;
    var line := text + "\n";
    assert line[0] == key[0];
    assert TrimLeft(line, Space) == line;
    assert line[..|line| - 1] == text;
    assert !Space(text[|text| - 1]);
    assert TrimRight(text, Space) == text;
  }

  ghost predicate Readable(settings: seq<(string, string)>) {
    forall i | 0 <= i < |settings| :: KeyName(settings[i].0) && ValueText(settings[i].1)
  }

  lemma {:induction false} ReadSettings(settings: seq<(string, string)>, section: string)
    requires Readable(settings)
    ensures ReadService(SettingLines(settings), section, true) == Some(settings)
  {
    hide KeyName, ValueText, ReadService;
    if settings == [] {
      ReadEmpty(section);
    } else {
      ReadSettings(settings[1..], section);
      assert KeyName(settings[0].0) && ValueText(settings[0].1);
      SettingLine(settings[0].0, settings[0].1, SettingLines(settings[1..]), section);
      assert settings == [(settings[0].0, settings[0].1)] + settings[1..];
    }
  }

  lemma ReadEmpty(section: string)
    ensures ReadService("", section, true) == Some([])
  {}

  lemma KeyNames()
    ensures KeyName("host") && KeyName("hostaddr") && KeyName("port") && KeyName("dbname")
    ensures KeyName("user") && KeyName("sslmode") && KeyName("sslrootcert") && KeyName("connect_timeout")
  {}

  lemma FixedValues(port: nat)
    ensures ValueText("127.0.0.1") && ValueText("verify-full") && ValueText("10") && ValueText(Decimal(port))
  {
    var d := Decimal(port);
    assert forall i | 0 <= i < |d| :: '0' <= d[i] <= '9';
  }

  lemma PlainIsReadable(v: string)
    requires PlainValue(v)
    ensures ValueText(v)
  {
    if v != "" { TrimmedEnds(v); }
  }

  lemma SettingsReadable(t: Target, port: nat)
    requires Accepts(t)
    ensures Readable(Settings(t, port))
  {
    KeyNames();
    FixedValues(port);
    PlainIsReadable(t.host);
    PlainIsReadable(t.database);
    PlainIsReadable(t.user);
    PlainIsReadable(t.rootCert);
    hide KeyName, ValueText, Decimal, PlainValue;
  }

  /** Round trip: for every target that `initialize` accepts, libpq reads exactly the intended
      settings from the printed service file, in order and no others. */
  lemma ServiceRoundTrip(t: Target, port: nat)
    requires Accepts(t)
    ensures ReadService(ServiceText(t, port), SECTION, false) == Some(Settings(t, port))
    ensures ReadService(ServiceText(t, port), "pg-tunnel", false) == Some([
      ("host", t.host), ("hostaddr", "127.0.0.1"), ("port", Decimal(port)), ("dbname", t.database),
      ("user", t.user), ("sslmode", "verify-full"), ("sslrootcert", t.rootCert), ("connect_timeout", "10")])
  {
    SettingsReadable(t, port);
    ReadSettings(Settings(t, port), SECTION);
    PrintedSettings(t, port);
    hide ServiceText, Settings, SettingLines, Decimal, Accepts, Readable;
    HeaderLine(SettingLines(Settings(t, port)));
  }

  /** A setting as one line. */
  function Printed(settings: seq<(string, string)>): seq<string> {
    if settings == [] then [] else [settings[0].0 + "=" + settings[0].1] + Printed(settings[1..])
  }

  lemma {:induction false} PrintedLines(settings: seq<(string, string)>)
    ensures Terminated(Printed(settings)) == SettingLines(settings)
    ensures |Printed(settings)| == |settings|
    ensures forall i | 0 <= i < |settings| :: Printed(settings)[i] == settings[i].0 + "=" + settings[i].1
  {
    if settings != [] {
      PrintedLines(settings[1..]);
      assert Printed(settings)[1..] == Printed(settings[1..]);
    }
  }

  /** The printed lines are the header and the settings. */
  lemma PrintedSettings(t: Target, port: nat)
    ensures ServiceText(t, port) == "[" + SECTION + "]\n" + SettingLines(Settings(t, port))
  {
    hide Decimal, Terminated, SettingLines, Printed;
    PrintedLines(Settings(t, port));
    SameSettings(t, port);
    var lines := ServiceLines(t, port);
    assert Terminated(lines) == lines[0] + "\n" + Terminated(lines[1..]) by { FirstTerminated(lines); }
    assert "[" + SECTION + "]\n" == "[pg-tunnel]" + "\n";
  }

  lemma FirstTerminated(lines: seq<string>)
    requires lines != []
    ensures Terminated(lines) == lines[0] + "\n" + Terminated(lines[1..])
  {}

  lemma SameSettings(t: Target, port: nat)
    ensures ServiceLines(t, port)[1..] == Printed(Settings(t, port))
  {
    hide Decimal, Printed;
    PrintedLines(Settings(t, port));
    var printed, lines := Printed(Settings(t, port)), ServiceLines(t, port)[1..];
    assert "host" + "=" == "host=" && "port" + "=" == "port=" && "dbname" + "=" == "dbname=" && "user" + "=" == "user=";
    assert "sslrootcert" + "=" == "sslrootcert=" && "hostaddr" + "=" + "127.0.0.1" == "hostaddr=127.0.0.1";
    assert "sslmode" + "=" + "verify-full" == "sslmode=verify-full" &&
      "connect_timeout" + "=" + "10" == "connect_timeout=10";
  }

  lemma HeaderLine(rest: string)
    ensures ReadService("[" + SECTION + "]\n" + rest, SECTION, false) == ReadService(rest, SECTION, true)
  {
    HeaderText();
    hide ReadService, Trim, IsLine;
    var header := "[" + SECTION + "]";
    assert "[" + SECTION + "]\n" == header + "\n";
    ReadHeader(header + "\n", header, rest, SECTION);
  }

  lemma HeaderText()
    ensures var header := "[" + SECTION + "]";
            IsLine(header + "\n") && Trim(header + "\n", Space) == header
  {
    var header := "[" + SECTION + "]";
    var line := header + "\n";
    assert '\n' !in header && line[..|header|] == header;
    assert TrimLeft(line, Space) == line;
    assert TrimRight(header, Space) == header;
  }

  // ---- The password file ----

  function PrivateLines(t: Target, port: nat, secret: string): seq<string> {
    [Passfile.Line([t.host, Decimal(port), t.database, t.user, secret]),
     Passfile.Line(["127.0.0.1", Decimal(port), t.database, t.user, secret])]
  }

  /** The private pgpass file of a session. */
  function PrivateText(t: Target, port: nat, secret: string): string {
    Join(PrivateLines(t, port, secret), "\n") + "\n"
  }

  /** A value without colons matches a printed field as a whole or not at all. */
  lemma {:induction false} AfterPrintedField(f: string, value: string, rest: string)
    requires ':' !in value
    ensures Passfile.AfterLiteral(Passfile.Escape(f) + ":" + rest, value) in {None, Some(rest)}
  {
    var line := Passfile.Escape(f) + ":" + rest;
    if f == "" {
      assert line == ":" + rest;
      if value != "" { assert value[0] in value; }
    } else if value != "" {
      var e := Passfile.EscapeChar(f[0]);
      var tail := Passfile.Escape(f[1..]) + ":" + rest;
      assert line == e + tail && (e + tail)[|e|..] == tail;
      assert forall c | c in value[1..] :: c in value;
      AfterPrintedField(f[1..], value[1..], rest);
    } else {
      assert line[0] == Passfile.EscapeChar(f[0])[0];
    }
  }

  /** The line of the real host answers a lookup of the loopback address with the same
      secret or not at all. */
  lemma HostLineAnswers(t: Target, port: nat, secret: string, host: string)
    requires host == t.host || ':' !in host
    ensures Passfile.AfterFields(PrivateLines(t, port, secret)[0], [host, Decimal(port), t.database, t.user]) in
            {None, Some(Passfile.Escape(secret))}
    ensures host == t.host ==>
            Passfile.AfterFields(PrivateLines(t, port, secret)[0], [host, Decimal(port), t.database, t.user]) ==
            Some(Passfile.Escape(secret))
  {
    hide Decimal, Passfile.Line;
    var values := [Decimal(port), t.database, t.user];
    var key := [host] + values;
    assert key == [host, Decimal(port), t.database, t.user];
    assert values + [secret] == [Decimal(port), t.database, t.user, secret];
    var fields := [t.host] + (values + [secret]);
    assert fields == [t.host, Decimal(port), t.database, t.user, secret];
    Passfile.LineStep(fields);
    assert fields[1..] == values + [secret];
    Passfile.OwnFields(values, secret);
    var tail := Passfile.Line(values + [secret]);
    Passfile.AfterOwnField(t.host, tail);
    if host != t.host { AfterPrintedField(t.host, host, tail); }
    HostField(t.host, host, tail);
    assert key[1..] == values;
    hide Passfile.AfterField;
  }

  lemma HostField(f: string, value: string, rest: string)
    requires value == f || ':' !in value
    ensures Passfile.AfterField(Passfile.Escape(f) + ":" + rest, value) in {None, Some(rest)}
    ensures value == f ==> Passfile.AfterField(Passfile.Escape(f) + ":" + rest, value) == Some(rest)
  {
    Passfile.AfterOwnField(f, rest);
    if value != f {
      var line := Passfile.Escape(f) + ":" + rest;
      if !("*:" <= line) {
        AfterPrintedField(f, value, rest);
      }
    }
  }

  /** The line of the loopback address does not match a host name with a comment sign. */
  lemma LoopbackLineOnly(t: Target, port: nat, secret: string)
    requires Hashed(t.host)
    ensures Passfile.AfterFields(PrivateLines(t, port, secret)[1], [t.host, Decimal(port), t.database, t.user]).None?
  {
    var fields := ["127.0.0.1", Decimal(port), t.database, t.user, secret];
    Passfile.LineStep(fields);
    assert Passfile.Escape("127.0.0.1")[0] == '1';
    assert Passfile.Line(fields)[0] == '1';
    hide Passfile.Line, Passfile.Escape, Decimal;
  }

  predicate Hashed(s: string) { s != "" && s[0] == '#' }

  lemma PrivateFields(t: Target, port: nat, secret: string, host: string, c: char)
    requires Accepts(t) && AcceptsSecret(secret) && (host == t.host || host == "127.0.0.1") && c in {'\n', '\r'}
    ensures c !in Passfile.Line([host, Decimal(port), t.database, t.user, secret])
  {
    var d := Decimal(port);
    assert forall i | 0 <= i < |d| :: '0' <= d[i] <= '9';
    Passfile.LineWithout([host, d, t.database, t.user, secret], c);
  }

  lemma PrivateLinesWhole(t: Target, port: nat, secret: string)
    requires Accepts(t) && AcceptsSecret(secret)
    ensures OneLine(PrivateLines(t, port, secret)[0]) && OneLine(PrivateLines(t, port, secret)[1])
  {
    PrivateFields(t, port, secret, t.host, '\n');
    PrivateFields(t, port, secret, t.host, '\r');
    PrivateFields(t, port, secret, "127.0.0.1", '\n');
    PrivateFields(t, port, secret, "127.0.0.1", '\r');
    hide Passfile.Line, Decimal, Accepts, AcceptsSecret;
  }

  /** How the two lines begin: the host name is printed first. */
  lemma PrivateLineStarts(t: Target, port: nat, secret: string)
    ensures Hashed(PrivateLines(t, port, secret)[0]) <==> Hashed(t.host)
    ensures !Hashed(PrivateLines(t, port, secret)[1])
    ensures PrivateLines(t, port, secret)[0] != "" && PrivateLines(t, port, secret)[1] != ""
  {
    LineStart([t.host, Decimal(port), t.database, t.user, secret]);
    LineStart(["127.0.0.1", Decimal(port), t.database, t.user, secret]);
  }

  lemma LineStart(fields: seq<string>)
    requires |fields| > 1
    ensures Passfile.Line(fields) != "" && (Hashed(Passfile.Line(fields)) <==> Hashed(fields[0]))
  {
    Passfile.LineStep(fields);
    if fields[0] != "" {
      assert Passfile.Escape(fields[0])[0] == Passfile.EscapeChar(fields[0][0])[0];
    }
  }

  lemma TwoLines(a: string, b: string, key: seq<string>)
    requires OneLine(a) && OneLine(b)
    ensures Passfile.Lookup(Join([a, b], "\n") + "\n", key) ==
            var first := Passfile.LineLookup(a + "\n", key);
            if first.Some? then first else Passfile.LineLookup(b + "\n", key)
  {
    assert (a + "\n")[..|a|] == a && (b + "\n")[..|b|] == b;
    assert [a, b][1..] == [b];
    assert Join([a, b], "\n") + "\n" == (a + "\n") + (b + "\n");
    assert (b + "\n") + "" == b + "\n";
    hide Passfile.LineLookup;
    Passfile.LookupLine(a + "\n", b + "\n", key);
    Passfile.LookupLine(b + "\n", "", key);
  }

  lemma LineLookupIs(line: string, key: seq<string>)
    requires OneLine(line) && line != ""
    ensures Passfile.LineLookup(line + "\n", key) ==
            if Hashed(line) then None
            else match Passfile.AfterFields(line, key)
                 case None => None
                 case Some(password) => Some(Passfile.Fields(password)[0])
  {
    Passfile.TrimmedLine(line);
    hide Passfile.AfterFields, Passfile.Fields, Passfile.Trimmed;
  }

  /** A client of the private file gets the current secret under 127.0.0.1, and under the real
      host name unless that name starts with the comment sign. */
  lemma PrivateFileAnswers(t: Target, port: nat, secret: string)
    requires Accepts(t) && AcceptsSecret(secret)
    ensures Passfile.Lookup(PrivateText(t, port, secret), ["127.0.0.1", Decimal(port), t.database, t.user]) ==
      Some(secret)
    ensures !Hashed(t.host) <==>
            Passfile.Lookup(PrivateText(t, port, secret), [t.host, Decimal(port), t.database, t.user]) == Some(secret)
  {
    LoopbackAnswers(t, port, secret);
    HostAnswers(t, port, secret);
  }

  lemma LoopbackMatches(t: Target, port: nat, secret: string)
    ensures var key := ["127.0.0.1", Decimal(port), t.database, t.user];
            Passfile.AfterFields(PrivateLines(t, port, secret)[0], key) in {None, Some(Passfile.Escape(secret))} &&
            Passfile.AfterFields(PrivateLines(t, port, secret)[1], key) == Some(Passfile.Escape(secret))
  {
    assert ':' !in "127.0.0.1";
    HostLineAnswers(t, port, secret, "127.0.0.1");
    HostLineAnswers(t.(host := "127.0.0.1"), port, secret, "127.0.0.1");
    hide Passfile.AfterFields, Passfile.Line, Decimal, Passfile.Escape;
    assert PrivateLines(t.(host := "127.0.0.1"), port, secret)[0] == PrivateLines(t, port, secret)[1];
  }

  lemma LoopbackAnswers(t: Target, port: nat, secret: string)
    requires Accepts(t) && AcceptsSecret(secret)
    ensures Passfile.Lookup(PrivateText(t, port, secret), ["127.0.0.1", Decimal(port), t.database, t.user]) ==
      Some(secret)
  {
    var lines := PrivateLines(t, port, secret);
    var key := ["127.0.0.1", Decimal(port), t.database, t.user];
    PrivateLinesWhole(t, port, secret);
    PrivateLineStarts(t, port, secret);
    Passfile.PasswordField(secret);
    LoopbackMatches(t, port, secret);
    assert lines == [lines[0], lines[1]];
    hide PrivateLines, Decimal, Passfile.AfterFields, Passfile.Fields, Passfile.LineLookup, Hashed, Accepts,
      AcceptsSecret, OneLine, Passfile.Lookup, Join;
    TwoLines(lines[0], lines[1], key);
    LineLookupIs(lines[0], key);
    LineLookupIs(lines[1], key);
  }

  lemma HostAnswers(t: Target, port: nat, secret: string)
    requires Accepts(t) && AcceptsSecret(secret)
    ensures !Hashed(t.host) <==>
            Passfile.Lookup(PrivateText(t, port, secret), [t.host, Decimal(port), t.database, t.user]) == Some(secret)
  {
    var lines := PrivateLines(t, port, secret);
    var key := [t.host, Decimal(port), t.database, t.user];
    PrivateLinesWhole(t, port, secret);
    PrivateLineStarts(t, port, secret);
    Passfile.PasswordField(secret);
    HostLineAnswers(t, port, secret, t.host);
    if Hashed(t.host) { LoopbackLineOnly(t, port, secret); }
    assert lines == [lines[0], lines[1]];
    hide PrivateLines, Decimal, Passfile.AfterFields, Passfile.Fields, Passfile.LineLookup, Hashed, Accepts,
      AcceptsSecret, OneLine, Passfile.Lookup, Join;
    TwoLines(lines[0], lines[1], key);
    LineLookupIs(lines[0], key);
    LineLookupIs(lines[1], key);
  }
}
