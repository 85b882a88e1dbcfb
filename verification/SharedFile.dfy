/** The shared password file as what it means: the blocks of sessions, most recently updated
    first, in front of the user's own bytes. The file is a function of the edits committed so
    far, and the editor of internal/libpq/pgpass.go computes it. */
module SharedFile {
  import opened Text
  import Passfile
  import opened Blocks

  /** What one session publishes for clients that connect to 127.0.0.1. */
  datatype Entry = Entry(session: string, port: nat, database: string, user: string, secret: string)

  function LocalLine(e: Entry): string {
    Passfile.Line(["127.0.0.1", Decimal(e.port), e.database, e.user, e.secret])
  }

  /** What `initialize` and `Update` accept, as far as the shared file is concerned. */
  predicate Acceptable(e: Entry) {
    Word(e.session) && OneLine(e.database) && OneLine(e.user) && OneLine(e.secret)
  }

  predicate OneLine(s: string) { '\n' !in s && '\r' !in s }

  function EntryItem(e: Entry): Item { Block(e.session, NOTE, [LocalLine(e)]) }

  function Items(entries: seq<Entry>): seq<Item> {
    if entries == [] then [] else [EntryItem(entries[0])] + Items(entries[1..])
  }

  function Content(entries: seq<Entry>, user: string): string { Render(Items(entries)) + user }

  function Dropping(entries: seq<Entry>, session: string): seq<Entry> {
    if entries == [] then []
    else if entries[0].session == session then Dropping(entries[1..], session)
    else [entries[0]] + Dropping(entries[1..], session)
  }

  // ---- The file as a function of the committed edits ----

  datatype Event = Published(entry: Entry) | Removed(name: string)

  function SessionOf(e: Event): string {
    match e
    case Published(entry) => entry.session
    case Removed(name) => name
  }

  /** The blocks after the edits of `log`, first to last in the file. */
  function Entries(log: seq<Event>): seq<Entry> {
    if log == [] then []
    else
      var last := log[|log| - 1];
      var others := Dropping(Entries(log[..|log| - 1]), SessionOf(last));
      match last
      case Published(entry) => [entry] + others
      case Removed(_) => others
  }

  /** The user's bytes after the edits of `log`: only removals of sessions whose name is not
      in use touch them, and those drop stale blocks that the user's bytes already held. */
  function UserPart(user: string, names: set<string>, log: seq<Event>): string {
    if log == [] then user
    else
      var last := log[|log| - 1];
      var before := UserPart(user, names, log[..|log| - 1]);
      if last.Removed? && last.name !in names then WithoutBlocks(before, Only(last.name)) else before
  }

  function FileContent(user: string, names: set<string>, log: seq<Event>): string {
    Content(Entries(log), UserPart(user, names, log))
  }

  /** The lines that the edit of an event puts into the file. */
  function EventLines(e: Event): Option<seq<string>> {
    match e
    case Published(entry) => Some([LocalLine(entry)])
    case Removed(_) => None
  }

  /** Names that a recovery can find missing among the session directories: no path, none of
      the entries that do exist there, and a possible file name. */
  predicate Removable(name: string) {
    && '/' !in name && '\\' !in name && '\0' !in name && |name| <= 255
    && name !in {"", ".", "..", "pgpass.lock"}
  }

  ghost predicate EventOk(e: Event, names: set<string>) {
    match e
    case Published(entry) => Acceptable(entry) && entry.session in names
    case Removed(name) => name in names || Removable(name)
  }

  ghost predicate LogOk(log: seq<Event>, names: set<string>) {
    forall i | 0 <= i < |log| :: EventOk(log[i], names)
  }

  /** The user's bytes hold no begin line of a session name in use. */
  ghost predicate UserOk(user: string, names: set<string>) {
    forall n | n in names :: NoBlock(user, n)
  }

  // ---- The editor computes it ----

  lemma LocalFields(e: Entry)
    requires Acceptable(e)
    ensures forall f | f in ["127.0.0.1", Decimal(e.port), e.database, e.user, e.secret] :: '\n' !in f && '\r' !in f
  {
    var d := Decimal(e.port);
    assert forall i | 0 <= i < |d| :: '0' <= d[i] <= '9';
  }

  lemma LocalLineIsBody(e: Entry)
    requires Acceptable(e)
    ensures BodyLine(LocalLine(e), e.session)
    ensures OneLine(LocalLine(e)) && LocalLine(e) != "" && LocalLine(e)[0] == '1'
  {
    var fields := ["127.0.0.1", Decimal(e.port), e.database, e.user, e.secret];
    LocalFields(e);
    Passfile.LineWithout(fields, '\n');
    Passfile.LineWithout(fields, '\r');
    LocalLineStart(fields);
    hide Passfile.Line;
  }

  lemma LocalLineStart(fields: seq<string>)
    requires |fields| > 1 && fields[0] != "" && fields[0][0] == '1'
    ensures Passfile.Line(fields) != "" && Passfile.Line(fields)[0] == '1'
  {
    assert Passfile.Escape(fields[0])[0] == '1';
  }

  lemma NoteIsPlain()
    ensures '\n' !in NOTE
  {}

  lemma EntrySeparate(e: Entry)
    requires Acceptable(e)
    ensures Separate(EntryItem(e))
  {
    LocalLineIsBody(e);
    NoteIsPlain();
    hide BodyLine, LocalLine;
  }

  predicate AllAcceptable(entries: seq<Entry>) {
    forall e | e in entries :: Acceptable(e)
  }

  lemma {:induction false} ItemsSeparate(entries: seq<Entry>)
    requires AllAcceptable(entries)
    ensures forall i | i in Items(entries) :: Separate(i)
  {
    hide Acceptable, Separate, EntryItem;
    if entries != [] {
      EntrySeparate(entries[0]);
      ItemsSeparate(entries[1..]);
    }
  }

  lemma {:induction false} ItemsRejecting(entries: seq<Entry>, session: string)
    ensures Rejecting(Items(entries), Only(session)) == Items(Dropping(entries, session))
  {
    hide LocalLine;
    if entries != [] {
      ItemsRejecting(entries[1..], session);
    }
  }

  lemma {:induction false} DroppingProperties(entries: seq<Entry>, session: string)
    ensures forall e | e in Dropping(entries, session) :: e in entries && e.session != session
    ensures (forall e | e in entries :: e.session != session) ==> Dropping(entries, session) == entries
    ensures forall e | e in entries && e.session != session :: e in Dropping(entries, session)
  {
    if entries != [] {
      DroppingProperties(entries[1..], session);
      assert entries == [entries[0]] + entries[1..];
    }
  }

  /** Removing a session from the file: its block goes and the user's bytes lose the same. */
  lemma ContentWithout(entries: seq<Entry>, user: string, session: string)
    requires AllAcceptable(entries)
    requires NoBlock(user, session) || forall e | e in entries :: e.session != session
    ensures WithoutBlocks(Content(entries, user), Only(session)) ==
            Content(Dropping(entries, session), WithoutBlocks(user, Only(session)))
    ensures NoBlock(user, session) ==> WithoutBlocks(user, Only(session)) == user
  {
    ItemsSeparate(entries);
    ItemsRejecting(entries, session);
    PassItems(Items(entries), user, Only(session));
    if NoBlock(user, session) {
      NoBlockKept(user, session);
    } else {
      DroppingProperties(entries, session);
    }
    hide NoBlock, Render, Items, Dropping, Acceptable, Kept, Open;
  }

  lemma ContentWith(e: Entry, entries: seq<Entry>, user: string)
    ensures Content([e] + entries, user) == BlockText(e.session, NOTE, [LocalLine(e)]) + Content(entries, user)
  {
    hide BlockText, LocalLine;
    assert ([e] + entries)[1..] == entries;
    assert Items([e] + entries) == [EntryItem(e)] + Items(entries);
    assert ([EntryItem(e)] + Items(entries))[1..] == Items(entries);
    Associate(BlockText(e.session, NOTE, [LocalLine(e)]), Render(Items(entries)), user);
  }

  lemma {:induction false} EntriesOk(log: seq<Event>, names: set<string>)
    requires LogOk(log, names)
    ensures AllAcceptable(Entries(log))
    ensures forall e | e in Entries(log) :: e.session in names
  {
    hide Acceptable;
    if log != [] {
      var n := |log| - 1;
      EntriesOk(log[..n], names);
      DroppingProperties(Entries(log[..n]), SessionOf(log[n]));
      assert EventOk(log[n], names);
    }
  }

  lemma {:induction false} UserPartOk(user: string, names: set<string>, log: seq<Event>)
    requires UserOk(user, names)
    ensures UserOk(UserPart(user, names, log), names)
  {
    hide NoBlock, WithoutBlocks;
    if log != [] {
      var n := |log| - 1;
      UserPartOk(user, names, log[..n]);
      var before := UserPart(user, names, log[..n]);
      forall m | m in names ensures NoBlock(UserPart(user, names, log), m) {
        assert NoBlock(before, m);
        WithoutBlocksHasNoBlock(before, Only(SessionOf(log[n])), m);
      }
    }
  }

  /** One edit: applied to the content that the log stands for, the editor gives the content
      that the longer log stands for. */
  lemma EditCommits(user: string, names: set<string>, log: seq<Event>, e: Event)
    requires UserOk(user, names) && LogOk(log, names) && EventOk(e, names)
    ensures Rewritten(FileContent(user, names, log), SessionOf(e), EventLines(e)) ==
            FileContent(user, names, log + [e])
  {
    hide NoBlock, WithoutBlocks, LocalLine, Content, Rewritten, Acceptable;
    var entries, part := Entries(log), UserPart(user, names, log);
    var session := SessionOf(e);
    EntriesOk(log, names);
    UserPartOk(user, names, log);
    assert (log + [e])[..|log|] == log;
    assert session in names ==> NoBlock(part, session);
    ContentWithout(entries, part, session);
    match e
    case Published(entry) =>
      RewrittenBlock(Content(entries, part), session, [LocalLine(entry)]);
      ContentWith(entry, Dropping(entries, session), part);
    case Removed(name) =>
      RewrittenNone(Content(entries, part), session);
  }

  lemma RewrittenNone(data: string, session: string)
    ensures Rewritten(data, session, None) == WithoutBlocks(data, Only(session))
  {}

  // ---- The user's bytes ----

  lemma {:induction false} UserPartShrinks(user: string, names: set<string>, log: seq<Event>)
    ensures UserPart(user, names, log) == user || |UserPart(user, names, log)| < |user|
  {
    hide WithoutBlocks, Only;
    if log != [] {
      UserPartShrinks(user, names, Init(log));
      RemovalShrinks(UserPart(user, names, Init(log)), Only(SessionOf(Last(log))));
    }
  }

  /** The removals of stale blocks in `log` that concern the user's bytes change nothing. */
  ghost predicate Harmless(user: string, names: set<string>, log: seq<Event>) {
    forall e | e in log && e.Removed? && e.name !in names :: WithoutBlocks(user, Only(e.name)) == user
  }

  /** The user's bytes are all there exactly when none of the removals would have changed
      them on its own. */
  lemma {:induction false} UserPartKeptIff(user: string, names: set<string>, log: seq<Event>)
    ensures UserPart(user, names, log) == user <==> Harmless(user, names, log)
  {
    hide WithoutBlocks, Only;
    if log != [] {
      var before := Init(log);
      UserPartKeptIff(user, names, before);
      UserPartShrinks(user, names, before);
      RemovalShrinks(UserPart(user, names, before), Only(SessionOf(Last(log))));
      assert forall e :: e in log <==> e in before || e == Last(log);
    }
  }

  /** For example a complete block of an unused name in front of other text: its removal is
      not harmless. */
  lemma StaleBlockIsHarmed(name: string, note: string, body: seq<string>, rest: string, names: set<string>)
    requires Separate(Block(name, note, body)) && '\n' !in rest && BlockSession(rest).None? && name !in names
    ensures var user := BlockText(name, note, body) + rest;
      UserPart(user, names, [Event.Removed(name)]) == rest && rest != user
  {
    var block := Block(name, note, body);
    assert Render([block]) == BlockText(name, note, body) by { assert Render([]) == ""; assert [block][1..] == []; }
    WithoutBlocksFilters([block], rest, Only(name));
    assert Rejecting([block], Only(name)) == [] by { assert [block][1..] == []; }
    hide WithoutBlocks, Separate, BlockText, BlockSession, Rejecting;
    assert Render([]) + rest == rest;
    assert [Event.Removed(name)][..0] == [];
    BlockTextLength(name, note, body);
  }

  lemma BlockTextLength(name: string, note: string, body: seq<string>)
    ensures BlockText(name, note, body) != ""
  {}

  // ---- What the file then is ----

  /** The position in the log of the last edit of `session`, -1 for none. */
  function LastEdit(log: seq<Event>, session: string): (i: int)
    ensures -1 <= i < |log|
    ensures i >= 0 ==> SessionOf(log[i]) == session
    ensures forall j | i < j < |log| :: SessionOf(log[j]) != session
  {
    if log == [] then -1
    else if SessionOf(log[|log| - 1]) == session then |log| - 1
    else LastEdit(log[..|log| - 1], session)
  }

  /** A block is in the file exactly when the last edit of its session published it. */
  lemma {:induction false} EntriesAreLastPublished(log: seq<Event>, e: Entry)
    ensures e in Entries(log) <==>
            (LastEdit(log, e.session) >= 0 && log[LastEdit(log, e.session)] == Published(e))
  {
    if log != [] {
      var n := |log| - 1;
      EntriesAreLastPublished(log[..n], e);
      DroppingProperties(Entries(log[..n]), SessionOf(log[n]));
    }
  }

  /** Each block was last edited after all the blocks that follow it. */
  ghost predicate NewestFirst(log: seq<Event>, entries: seq<Entry>) {
    entries == [] ||
    ((forall e | e in entries[1..] :: LastEdit(log, entries[0].session) > LastEdit(log, e.session)) &&
     NewestFirst(log, entries[1..]))
  }

  lemma {:induction false} DroppingKeepsOrder(log: seq<Event>, entries: seq<Entry>, session: string)
    requires NewestFirst(log, entries)
    ensures NewestFirst(log, Dropping(entries, session))
  {
    hide LastEdit;
    if entries != [] {
      var tail := entries[1..];
      DroppingKeepsOrder(log, tail, session);
      DroppingProperties(tail, session);
      assert ([entries[0]] + Dropping(tail, session))[1..] == Dropping(tail, session);
    }
  }

  /** Later edits of one session do not move the others. */
  lemma {:induction false} OrderCarriesOver(log: seq<Event>, e: Event, entries: seq<Entry>)
    requires NewestFirst(log, entries)
    requires forall x | x in entries :: x.session != SessionOf(e)
    ensures NewestFirst(log + [e], entries)
    ensures forall x | x in entries :: LastEdit(log + [e], x.session) == LastEdit(log, x.session)
  {
    assert (log + [e])[..|log|] == log;
    if entries != [] {
      assert forall x | x in entries[1..] :: x in entries;
      OrderCarriesOver(log, e, entries[1..]);
    }
  }

  /** The most recently updated session comes first, so no session has two blocks. */
  lemma {:induction false} EntriesNewestFirst(log: seq<Event>)
    ensures NewestFirst(log, Entries(log))
  {
    if log != [] {
      var n := |log| - 1;
      var before, session := Entries(log[..n]), SessionOf(log[n]);
      assert log[..n] + [log[n]] == log;
      EntriesNewestFirst(log[..n]);
      DroppingKeepsOrder(log[..n], before, session);
      DroppingProperties(before, session);
      OrderCarriesOver(log[..n], log[n], Dropping(before, session));
      hide LastEdit, Dropping;
      if log[n].Published? {
        assert Entries(log)[1..] == Dropping(before, session);
      }
    }
  }

  // ---- Who finds what in it ----

  function Key(e: Entry): seq<string> { ["127.0.0.1", Decimal(e.port), e.database, e.user] }

  /** The block of `e` is there, and no block in front of it has the same port. */
  predicate Leads(entries: seq<Entry>, e: Entry) {
    entries != [] && (entries[0] == e || (entries[0].port != e.port && Leads(entries[1..], e)))
  }

  lemma {:induction false} LeadsDropping(entries: seq<Entry>, session: string, e: Entry)
    requires Leads(entries, e) && session != e.session
    ensures Leads(Dropping(entries, session), e)
  {
    if entries[0] != e {
      LeadsDropping(entries[1..], session, e);
      assert ([entries[0]] + Dropping(entries[1..], session))[1..] == Dropping(entries[1..], session);
    }
  }

  /** A block keeps leading its port while only other sessions, on other ports, are edited. */
  lemma LeadsAfter(log: seq<Event>, event: Event, e: Entry)
    requires event == Published(e) ||
             (Leads(Entries(log), e) && SessionOf(event) != e.session &&
              (event.Published? ==> event.entry.port != e.port))
    ensures Leads(Entries(log + [event]), e)
  {
    assert (log + [event])[..|log|] == log;
    if event != Published(e) {
      var others := Dropping(Entries(log), SessionOf(event));
      LeadsDropping(Entries(log), SessionOf(event), e);
      if event.Published? {
        assert ([event.entry] + others)[1..] == others;
      }
    }
  }

  lemma OwnLine(e: Entry)
    requires Acceptable(e)
    ensures Passfile.LineLookup(LocalLine(e) + "\n", Key(e)) == Some(e.secret)
  {
    LocalLineIsBody(e);
    Passfile.TrimmedLine(LocalLine(e));
    assert Key(e) + [e.secret] == ["127.0.0.1", Decimal(e.port), e.database, e.user, e.secret];
    Passfile.OwnFields(Key(e), e.secret);
    hide LocalLine, Passfile.Fields, Passfile.AfterFields, Passfile.Trimmed;
    Passfile.PasswordField(e.secret);
  }

  lemma OtherPortFields(f: Entry, e: Entry)
    requires f.port != e.port
    ensures Passfile.AfterFields(LocalLine(f), Key(e)).None?
  {
    DecimalRoundTrip(f.port);
    DecimalRoundTrip(e.port);
    hide Passfile.Line, Passfile.AfterFields, Decimal, Number;
    var first := "127.0.0.1";
    assert [first, Decimal(f.port)] + [f.database, f.user, f.secret] ==
      [first, Decimal(f.port), f.database, f.user, f.secret];
    assert [first, Decimal(e.port)] + [e.database, e.user] == Key(e);
    Passfile.OtherSecondField(first, Decimal(f.port), [f.database, f.user, f.secret],
      Decimal(e.port), [e.database, e.user]);
  }

  lemma OtherPortLine(f: Entry, e: Entry)
    requires Acceptable(f) && f.port != e.port
    ensures Passfile.LineLookup(LocalLine(f) + "\n", Key(e)).None?
  {
    LocalLineIsBody(f);
    OtherPortFields(f, e);
    hide LocalLine, Passfile.Fields, Passfile.AfterFields, Passfile.Trimmed, Key;
    Passfile.TrimmedLine(LocalLine(f));
  }

  lemma BlockLines(e: Entry, rest: string)
    ensures ItemText(EntryItem(e)) + rest ==
            (BeginMarker(e.session) + "\n") + ((LocalLine(e) + "\n") + ((EndMarker(e.session) + "\n") + rest))
  {
    var begin, line, end := BeginMarker(e.session) + "\n", LocalLine(e) + "\n", EndMarker(e.session) + "\n";
    hide LocalLine, EndMarker, BeginLine;
    assert Terminated([LocalLine(e)]) == line;
    assert ItemText(EntryItem(e)) == begin + (line + end);
    hide *;
    assert (begin + (line + end)) + rest == begin + (line + (end + rest));
  }

  /** A block in front of the rest answers with its own line or not at all. */
  lemma LookupBlock(e: Entry, rest: string, key: seq<string>)
    requires Acceptable(e)
    ensures var own := Passfile.LineLookup(LocalLine(e) + "\n", key);
            Passfile.Lookup(ItemText(EntryItem(e)) + rest, key) == if own.Some? then own else Passfile.Lookup(rest, key)
  {
    MarkerLine(e.session, e.session);
    MarkerComments(e.session, key);
    LocalLineIsBody(e);
    WholeLine(LocalLine(e));
    BlockLines(e, rest);
    hide *;
    hide Passfile.Lookup, Passfile.LineLookup;
    var begin, line, end := BeginMarker(e.session) + "\n", LocalLine(e) + "\n", EndMarker(e.session) + "\n";
    Passfile.LookupLine(begin, line + (end + rest), key);
    Passfile.LookupLine(line, end + rest, key);
    Passfile.LookupLine(end, rest, key);
  }

  lemma MarkerComments(session: string, key: seq<string>)
    ensures Passfile.LineLookup(BeginMarker(session) + "\n", key).None?
    ensures Passfile.LineLookup(EndMarker(session) + "\n", key).None?
  {
    Passfile.CommentLine(BeginMarker(session) + "\n", key);
    Passfile.CommentLine(EndMarker(session) + "\n", key);
  }

  /** A client that looks up the session's port, database and user gets its secret, whatever
      the blocks of other ports and the user's own lines say. */
  lemma {:induction false} LookupFindsLeader(entries: seq<Entry>, user: string, e: Entry)
    requires AllAcceptable(entries) && Leads(entries, e)
    ensures Passfile.Lookup(Content(entries, user), Key(e)) == Some(e.secret)
  {
    hide Acceptable, Passfile.Lookup, Passfile.LineLookup, LocalLine, ItemText, EntryItem, Key;
    var f := entries[0];
    var rest := Content(entries[1..], user);
    Associate(ItemText(EntryItem(f)), Render(Items(entries[1..])), user);
    assert Items(entries)[1..] == Items(entries[1..]);
    LookupBlock(f, rest, Key(e));
    if f == e {
      OwnLine(e);
    } else {
      OtherPortLine(f, e);
      LookupFindsLeader(entries[1..], user, e);
    }
  }
}
