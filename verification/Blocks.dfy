/** The block editor of internal/libpq/pgpass.go: managed blocks inside a file whose other
    lines belong to the user. */
module Blocks {
  import opened Text

  const MARK := "# pg-tunnel "
  const NOTE := "(managed; removed when the session ends)"

  function BeginLine(session: string, note: string): string { MARK + (session + ([' '] + ("begin " + note))) }

  function BeginMarker(session: string): string { BeginLine(session, NOTE) }

  function EndMarker(session: string): string { MARK + (session + ([' '] + "end")) }

  /** The session whose block starts at `line`. */
  function BlockSession(line: string): Option<string> {
    if !(MARK <= line) then None
    else
      var rest := line[|MARK|..];
      var name := Before(rest, ' ');
      if |name| < |rest| && "begin " <= rest[|name| + 1..] then Some(name) else None
  }

  /** How the marker lines stand in the file. */
  lemma MarkersAre(session: string)
    ensures "# pg-tunnel " + (session + " begin ") <= BeginMarker(session)
    ensures EndMarker(session) == "# pg-tunnel " + (session + " end")
  {
    hide NOTE;
    assert [' '] + "end" == " end";
    assert session + ([' '] + ("begin " + NOTE)) == (session + " begin ") + NOTE;
    assert BeginMarker(session) == ("# pg-tunnel " + (session + " begin ")) + NOTE;
  }

  /** A line begins a block exactly when it starts with the mark, a name without blanks and the
      word `begin`, each followed by a blank. */
  lemma BlockSessionIff(line: string, session: string)
    ensures BlockSession(line) == Some(session) <==>
      ' ' !in session && "# pg-tunnel " + (session + " begin ") <= line
  {
    if BlockSession(line) == Some(session) {
      BeginIsThere(line, session);
    }
    if ' ' !in session && MARK + (session + " begin ") <= line {
      BeginIsSeen(line, session);
    }
  }

  lemma BeginIsThere(line: string, session: string)
    requires BlockSession(line) == Some(session)
    ensures ' ' !in session && MARK + (session + " begin ") <= line
  {
    hide MARK;
    var rest := line[|MARK|..];
    assert rest == session + [' '] + rest[|session| + 1..];
    assert rest[|session| + 1..] == "begin " + rest[|session| + 1..][6..];
    assert [' '] + "begin " == " begin ";
    assert rest == (session + " begin ") + rest[|session| + 1..][6..];
    assert line == MARK + rest;
  }

  lemma BeginIsSeen(line: string, session: string)
    requires ' ' !in session && MARK + (session + " begin ") <= line
    ensures BlockSession(line) == Some(session)
  {
    hide MARK;
    var begun := session + " begin ";
    var tail := line[|MARK + begun|..];
    assert [' '] + "begin " == " begin ";
    assert line[|MARK|..] == session + [' '] + ("begin " + tail);
    BeforeIs(session, ' ', "begin " + tail);
    assert line[|MARK|..][|session| + 1..] == "begin " + tail;
  }

  function Only(session: string): string -> bool { name => name == session }

  // ---- One pass over the lines ----

  predicate Starts(line: string, remove: string -> bool) {
    BlockSession(line).Some? && remove(BlockSession(line).value)
  }

  /** The session being skipped after `line`, "" for none. A matching session may have the
      empty name, which skips nothing, as in the source. */
  function Next(line: string, skipping: string, remove: string -> bool): string {
    if skipping != "" then if Chomp(line) == EndMarker(skipping) then "" else skipping
    else if Starts(line, remove) then BlockSession(line).value else ""
  }

  /** What `line` adds to the result. */
  function Keeps(line: string, skipping: string, remove: string -> bool): string {
    if skipping != "" || Starts(line, remove) then "" else line
  }

  function Kept(content: string, skipping: string, remove: string -> bool): string
    decreases |content|
  {
    if content == "" then ""
    else
      var line := FirstLine(content);
      Keeps(line, skipping, remove) + Kept(content[|line|..], Next(line, skipping, remove), remove)
  }

  /** The session whose block is still open at the end, "" for none. */
  function Open(content: string, skipping: string, remove: string -> bool): string
    decreases |content|
  {
    if content == "" then skipping
    else
      var line := FirstLine(content);
      Open(content[|line|..], Next(line, skipping, remove), remove)
  }

  /** The content without the blocks whose session matches; untouched when a matching
      block never ends. */
  function WithoutBlocks(content: string, remove: string -> bool): string {
    if Open(content, "", remove) != "" then content else Kept(content, "", remove)
  }

  /** The source's loop. The empty fragment that follows a final newline changes nothing,
      so the loop ends before it. */
  method RemoveBlocks(content: string, remove: string -> bool) returns (result: string)
    ensures result == WithoutBlocks(content, remove)
  {
    hide BlockSession, EndMarker, FirstLine;
    var kept := "";
    var skipping := "";
    var rest := content;
    while rest != ""
      invariant kept + Kept(rest, skipping, remove) == Kept(content, "", remove)
      invariant Open(rest, skipping, remove) == Open(content, "", remove)
      decreases |rest|
    {
      var line := FirstLine(rest);
      Associate(kept, Keeps(line, skipping, remove), Kept(rest[|line|..], Next(line, skipping, remove), remove));
      rest := rest[|line|..];
      if skipping != "" {
        assert Keeps(line, skipping, remove) == "" && kept + "" == kept;
        if Chomp(line) == EndMarker(skipping) {
          skipping := "";
        }
        continue;
      }
      var begun := BlockSession(line);
      if begun.Some? && remove(begun.value) {
        assert kept + "" == kept;
        skipping := begun.value;
        continue;
      }
      kept := kept + line;
    }
    if skipping != "" {
      return content;
    }
    return kept;
  }

  // ---- Arbitrary content ----

  lemma {:induction false} KeptIsSettled(content: string, skipping: string, remove: string -> bool)
    ensures var kept := Kept(content, skipping, remove);
            Kept(kept, "", remove) == kept && Open(kept, "", remove) == ""
    decreases |content|
  {
    hide BlockSession, EndMarker;
    if content != "" {
      var line := FirstLine(content);
      var rest := content[|line|..];
      var next := Next(line, skipping, remove);
      KeptIsSettled(rest, next, remove);
      var after := Kept(rest, next, remove);
      if Keeps(line, skipping, remove) == line {
        FirstLineShape(content);
        if IsLine(line) {
          FirstLineOfLine(line, after);
        } else {
          assert rest == "" && line + after == content;
        }
      } else {
        assert "" + after == after;
      }
    }
  }

  /** Removing the same blocks twice changes nothing more, whatever the content. */
  lemma WithoutBlocksIdempotent(content: string, remove: string -> bool)
    ensures WithoutBlocks(WithoutBlocks(content, remove), remove) == WithoutBlocks(content, remove)
  {
    KeptIsSettled(content, "", remove);
  }

  /** A removal that changes the content makes it shorter. */
  lemma {:induction false} KeptShrinks(content: string, skipping: string, remove: string -> bool)
    ensures |Kept(content, skipping, remove)| <= |content|
    ensures Kept(content, skipping, remove) == content || |Kept(content, skipping, remove)| < |content|
    decreases |content|
  {
    hide BlockSession, EndMarker;
    if content != "" {
      var line := FirstLine(content);
      var rest := content[|line|..];
      KeptShrinks(rest, Next(line, skipping, remove), remove);
      assert content == line + rest;
    }
  }

  lemma RemovalShrinks(content: string, remove: string -> bool)
    ensures WithoutBlocks(content, remove) == content || |WithoutBlocks(content, remove)| < |content|
  {
    KeptShrinks(content, "", remove);
  }

  /** Whole lines: empty, or ended by a newline. */
  predicate Closed(s: string) { s == "" || s[|s| - 1] == '\n' }

  lemma ClosedTail(s: string)
    requires Closed(s) && s != ""
    ensures IsLine(FirstLine(s)) && Closed(s[|FirstLine(s)|..])
  {
    FirstLineShape(s);
    assert s[|s| - 1] in s;
  }

  /** The pass over a line and what follows it. */
  lemma PassLine(line: string, rest: string, skipping: string, remove: string -> bool)
    requires IsLine(line)
    ensures Kept(line + rest, skipping, remove) ==
            Keeps(line, skipping, remove) + Kept(rest, Next(line, skipping, remove), remove)
    ensures Open(line + rest, skipping, remove) == Open(rest, Next(line, skipping, remove), remove)
  {
    hide Next, Keeps;
    FirstLineOfLine(line, rest);
  }

  /** The pass goes on from whole lines to what follows them. */
  lemma {:induction false} PassAppend(a: string, b: string, skipping: string, remove: string -> bool)
    requires Closed(a)
    ensures var open := Open(a, skipping, remove);
            Kept(a + b, skipping, remove) == Kept(a, skipping, remove) + Kept(b, open, remove) &&
            Open(a + b, skipping, remove) == Open(b, open, remove)
    decreases |a|
  {
    hide Next, Keeps;
    if a == "" {
      assert a + b == b;
    } else {
      ClosedTail(a);
      var line := FirstLine(a);
      var rest := a[|line|..];
      assert a + b == line + (rest + b);
      PassLine(line, rest + b, skipping, remove);
      var next := Next(line, skipping, remove);
      PassAppend(rest, b, next, remove);
      Associate(Keeps(line, skipping, remove), Kept(rest, next, remove), Kept(b, Open(rest, next, remove), remove));
    }
  }

  /** Whether some line of `content` is `wanted`. */
  predicate HasLine(content: string, wanted: string)
    decreases |content|
  {
    content != "" &&
    var line := FirstLine(content);
    Chomp(line) == wanted || HasLine(content[|line|..], wanted)
  }

  lemma {:induction false} PassUnended(content: string, session: string, remove: string -> bool)
    requires session != "" && !HasLine(content, EndMarker(session))
    ensures Open(content, session, remove) == session
    decreases |content|
  {
    hide EndMarker;
    if content != "" {
      PassUnended(content[|FirstLine(content)|..], session, remove);
    }
  }

  /** A matching block that never ends keeps the whole content as it is, also the
      matching blocks that do end before it. */
  lemma UnendedBlockIsLeftAlone(before: string, session: string, note: string, after: string, remove: string -> bool)
    requires Closed(before) && Open(before, "", remove) == ""
    requires Word(session) && '\n' !in note && remove(session)
    requires !HasLine(after, EndMarker(session))
    ensures var content := before + (BeginLine(session, note) + "\n" + after);
            WithoutBlocks(content, remove) == content
  {
    var begin := BeginLine(session, note) + "\n";
    BeginLineStarts(session, note);
    PassAppend(before, begin + after, "", remove);
    PassLine(begin, after, "", remove);
    PassUnended(after, session, remove);
  }

  // ---- Lines of complete blocks ----

  /** Names that a marker line can carry: one word. */
  predicate Word(name: string) { name != "" && ' ' !in name && '\n' !in name }

  lemma BlockSessionNewline(line: string)
    requires '\n' !in line
    ensures BlockSession(line + "\n") == BlockSession(line)
  {
    PrefixBeforeNewline(MARK, line);
    if MARK <= line {
      var rest := line[|MARK|..];
      assert (line + "\n")[|MARK|..] == rest + "\n";
      var name := Before(rest, ' ');
      if |name| < |rest| {
        var tail := rest[|name| + 1..];
        assert rest + "\n" == name + [' '] + (tail + "\n");
        BeforeIs(name, ' ', tail + "\n");
        assert (rest + "\n")[|name| + 1..] == tail + "\n";
        PrefixBeforeNewline("begin ", tail);
      }
    }
  }

  lemma PrefixBeforeNewline(prefix: string, line: string)
    requires '\n' !in prefix
    ensures prefix <= line + "\n" <==> prefix <= line
  {
    assert |line| < |prefix| ==> prefix[|line|] in prefix;
  }

  lemma MarkedLine(session: string, tail: string)
    requires Word(session)
    ensures BlockSession(MARK + (session + ([' '] + tail))) ==
            if "begin " <= tail then Some(session) else None
  {
    var rest := session + ([' '] + tail);
    assert (MARK + rest)[|MARK|..] == rest;
    assert rest == session + [' '] + tail;
    BeforeIs(session, ' ', tail);
    assert rest[|session| + 1..] == tail;
  }

  /** A newline-free line that carries a mark, with its newline. */
  lemma WholeLine(line: string)
    requires '\n' !in line
    ensures IsLine(line + "\n") && Chomp(line + "\n") == line
    ensures BlockSession(line + "\n") == BlockSession(line)
  {
    BlockSessionNewline(line);
    hide BlockSession;
    assert (line + "\n")[..|line|] == line;
  }

  lemma BeginLineStarts(session: string, note: string)
    requires Word(session) && '\n' !in note
    ensures BlockSession(BeginLine(session, note)) == Some(session)
    ensures BlockSession(BeginLine(session, note) + "\n") == Some(session)
    ensures IsLine(BeginLine(session, note) + "\n")
  {
    MarkedLine(session, "begin " + note);
    hide BlockSession, IsLine;
    assert '\n' !in BeginLine(session, note);
    WholeLine(BeginLine(session, note));
  }

  lemma EndMarkerStartsNothing(session: string)
    requires Word(session)
    ensures BlockSession(EndMarker(session) + "\n").None?
    ensures IsLine(EndMarker(session) + "\n") && Chomp(EndMarker(session) + "\n") == EndMarker(session)
  {
    MarkedLine(session, "end");
    hide BlockSession, IsLine, Chomp;
    assert '\n' !in EndMarker(session);
    WholeLine(EndMarker(session));
  }

  predicate BodyLine(line: string, session: string) {
    '\n' !in line && BlockSession(line).None? && line != EndMarker(session)
  }

  function BlockText(session: string, note: string, body: seq<string>): string {
    BeginLine(session, note) + "\n" + (Terminated(body) + (EndMarker(session) + "\n"))
  }

  lemma {:induction false} PassBody(body: seq<string>, session: string, rest: string, remove: string -> bool)
    requires session != ""
    requires forall l | l in body :: BodyLine(l, session)
    ensures Kept(Terminated(body) + rest, session, remove) == Kept(rest, session, remove)
    ensures Open(Terminated(body) + rest, session, remove) == Open(rest, session, remove)
    ensures Kept(Terminated(body) + rest, "", remove) == Terminated(body) + Kept(rest, "", remove)
    ensures Open(Terminated(body) + rest, "", remove) == Open(rest, "", remove)
    decreases |body|
  {
    hide BlockSession, EndMarker, Kept, Open, FirstLine;
    if body == [] {
      assert Terminated(body) + rest == rest;
      assert Terminated(body) + Kept(rest, "", remove) == Kept(rest, "", remove);
    } else {
      var line := body[0] + "\n";
      var tail := Terminated(body[1..]);
      assert BodyLine(body[0], session);
      assert line[..|line| - 1] == body[0];
      BlockSessionNewline(body[0]);
      assert Terminated(body) + rest == line + (tail + rest);
      PassLine(line, tail + rest, session, remove);
      PassLine(line, tail + rest, "", remove);
      PassBody(body[1..], session, rest, remove);
      assert "" + Kept(tail + rest, session, remove) == Kept(tail + rest, session, remove);
      Associate(line, tail, Kept(rest, "", remove));
    }
  }

  /** A complete block in front: skipped when it matches, kept otherwise. */
  lemma PassBlock(session: string, note: string, body: seq<string>, rest: string, remove: string -> bool)
    requires Word(session) && '\n' !in note
    requires forall l | l in body :: BodyLine(l, session)
    ensures var text := BlockText(session, note, body);
            Kept(text + rest, "", remove) ==
            (if remove(session) then "" else text) + Kept(rest, "", remove)
    ensures Open(BlockText(session, note, body) + rest, "", remove) == Open(rest, "", remove)
  {
    hide BlockSession, EndMarker, Kept, Open, FirstLine, BeginLine, Terminated, BodyLine, IsLine;
    var begin := BeginLine(session, note) + "\n";
    var end := EndMarker(session) + "\n";
    var middle := Terminated(body);
    BeginLineStarts(session, note);
    EndMarkerStartsNothing(session);
    assert BlockText(session, note, body) + rest == begin + (middle + (end + rest));
    PassLine(begin, middle + (end + rest), "", remove);
    PassBody(body, session, end + rest, remove);
    PassLine(end, rest, session, remove);
    PassLine(end, rest, "", remove);
    var kept := Kept(rest, "", remove);
    assert "" + kept == kept && "" + ("" + kept) == kept;
    Associate(middle, end, kept);
    Associate(begin, middle + end, kept);
  }

  // ---- Content made of text lines and complete blocks ----

  datatype Item = Plain(line: string) | Block(session: string, note: string, body: seq<string>)

  /** Blocks do not overlap: no block begins inside another one or inside plain text. */
  predicate Separate(item: Item) {
    match item
    case Plain(line) => '\n' !in line && BlockSession(line).None?
    case Block(session, note, body) =>
      Word(session) && '\n' !in note && forall l | l in body :: BodyLine(l, session)
  }

  function ItemText(item: Item): string {
    match item
    case Plain(line) => line + "\n"
    case Block(session, note, body) => BlockText(session, note, body)
  }

  function Render(items: seq<Item>): string {
    if items == [] then "" else ItemText(items[0]) + Render(items[1..])
  }

  predicate Matches(item: Item, remove: string -> bool) {
    item.Block? && remove(item.session)
  }

  function Rejecting(items: seq<Item>, remove: string -> bool): seq<Item> {
    if items == [] then []
    else if Matches(items[0], remove) then Rejecting(items[1..], remove)
    else [items[0]] + Rejecting(items[1..], remove)
  }

  lemma PassItem(item: Item, rest: string, remove: string -> bool)
    requires Separate(item)
    ensures Kept(ItemText(item) + rest, "", remove) ==
            (if Matches(item, remove) then "" else ItemText(item)) + Kept(rest, "", remove)
    ensures Open(ItemText(item) + rest, "", remove) == Open(rest, "", remove)
  {
    hide BlockSession, EndMarker, Kept, Open, FirstLine, BeginLine, Terminated, BlockText;
    match item
    case Plain(line) =>
      assert (line + "\n")[..|line|] == line;
      BlockSessionNewline(line);
      PassLine(line + "\n", rest, "", remove);
    case Block(session, note, body) =>
      PassBlock(session, note, body, rest, remove);
  }

  lemma {:induction false} PassItems(items: seq<Item>, rest: string, remove: string -> bool)
    requires forall i | i in items :: Separate(i)
    ensures Kept(Render(items) + rest, "", remove) == Render(Rejecting(items, remove)) + Kept(rest, "", remove)
    ensures Open(Render(items) + rest, "", remove) == Open(rest, "", remove)
    decreases |items|
  {
    hide Separate, Kept, Open, BlockSession, ItemText, Matches;
    var end := Kept(rest, "", remove);
    if items == [] {
      assert Render(items) + rest == rest && "" + end == end;
    } else {
      var item := items[0];
      var tail := Render(items[1..]) + rest;
      PassItems(items[1..], rest, remove);
      Associate(ItemText(item), Render(items[1..]), rest);
      PassItem(item, tail, remove);
      var kept := Rejecting(items[1..], remove);
      if Matches(item, remove) {
        assert "" + (Render(kept) + end) == Render(kept) + end;
      } else {
        assert ([item] + kept)[1..] == kept;
        Associate(ItemText(item), Render(kept), end);
      }
    }
  }

  lemma PassLast(last: string, remove: string -> bool)
    requires '\n' !in last && BlockSession(last).None?
    ensures Kept(last, "", remove) == last && Open(last, "", remove) == ""
  {
    hide BlockSession, EndMarker;
    if last != "" {
      FirstLineShape(last);
      assert last[|last|..] == "" && last + "" == last;
    }
  }

  /** On such content the editor drops exactly the matching blocks, in place, and keeps a
      last line without a newline. */
  lemma WithoutBlocksFilters(items: seq<Item>, last: string, remove: string -> bool)
    requires forall i | i in items :: Separate(i)
    requires '\n' !in last && BlockSession(last).None?
    ensures WithoutBlocks(Render(items) + last, remove) == Render(Rejecting(items, remove)) + last
  {
    PassItems(items, last, remove);
    PassLast(last, remove);
  }

  lemma {:induction false} RejectingCommutes(items: seq<Item>, a: string -> bool, b: string -> bool)
    ensures Rejecting(Rejecting(items, a), b) == Rejecting(Rejecting(items, b), a)
    ensures forall i | i in Rejecting(items, a) :: i in items
    decreases |items|
  {
    if items != [] {
      var tail := items[1..];
      RejectingCommutes(tail, a, b);
      assert ([items[0]] + Rejecting(tail, a))[1..] == Rejecting(tail, a);
      assert ([items[0]] + Rejecting(tail, b))[1..] == Rejecting(tail, b);
    }
  }

  /** Sessions can be removed in either order. */
  lemma RemovalsCommute(items: seq<Item>, last: string, a: string -> bool, b: string -> bool)
    requires forall i | i in items :: Separate(i)
    requires '\n' !in last && BlockSession(last).None?
    ensures var content := Render(items) + last;
            WithoutBlocks(WithoutBlocks(content, a), b) == WithoutBlocks(WithoutBlocks(content, b), a)
  {
    hide Separate, BlockSession, WithoutBlocks, Render;
    RejectingCommutes(items, a, b);
    RejectingCommutes(items, b, a);
    WithoutBlocksFilters(items, last, a);
    WithoutBlocksFilters(items, last, b);
    WithoutBlocksFilters(Rejecting(items, a), last, b);
    WithoutBlocksFilters(Rejecting(items, b), last, a);
  }

  lemma EndMarkerNames(session: string)
    ensures |EndMarker(session)| == 16 + |session| && EndMarker(session)[12..12 + |session|] == session
  {
    hide BlockSession;
  }

  lemma EndMarkersDiffer(a: string, b: string)
    requires Word(a) && Word(b) && a != b
    ensures EndMarker(a) != EndMarker(b) && EndMarker(a) != BeginMarker(b)
  {
    EndMarkerNames(a);
    EndMarkerNames(b);
    EndMarkerStartsNothing(a);
    BeginLineStarts(b, NOTE);
    hide EndMarker, BeginLine, BlockSession;
  }

  function Overlapping(a: string, b: string): string {
    (BeginMarker(a) + "\n") + ((BeginMarker(b) + "\n") + ((EndMarker(a) + "\n") + (EndMarker(b) + "\n")))
  }

  lemma FirstThenSecond(a: string, b: string)
    requires Word(a) && Word(b) && a != b
    ensures WithoutBlocks(WithoutBlocks(Overlapping(a, b), Only(a)), Only(b)) == EndMarker(b) + "\n"
  {
    MarkerLine(a, a);
    MarkerLine(b, a);
    MarkerLine(b, b);
    EndMarkersDiffer(a, b);
    hide BlockSession, EndMarker, BeginMarker, Kept, Open, FirstLine, IsLine, Word, Chomp, Starts, Only;
    var endB := EndMarker(b) + "\n";
    FourLines(BeginMarker(a) + "\n", BeginMarker(b) + "\n", EndMarker(a) + "\n", endB, Only(a));
    assert "" + ("" + ("" + endB)) == endB;
    EndPass(endB, "", Only(b));
  }

  lemma SecondThenFirst(a: string, b: string)
    requires Word(a) && Word(b) && a != b
    ensures WithoutBlocks(WithoutBlocks(Overlapping(a, b), Only(b)), Only(a)) == BeginMarker(a) + "\n"
  {
    MarkerLine(a, a);
    MarkerLine(a, b);
    MarkerLine(b, b);
    EndMarkersDiffer(a, b);
    EndMarkersDiffer(b, a);
    hide BlockSession, EndMarker, BeginMarker, Kept, Open, FirstLine, IsLine, Word, Chomp, Starts, Only;
    var beginA := BeginMarker(a) + "\n";
    FourLines(beginA, BeginMarker(b) + "\n", EndMarker(a) + "\n", EndMarker(b) + "\n", Only(b));
    assert beginA + ("" + ("" + "")) == beginA;
    EndPass(beginA, "", Only(a));
  }

  /** Overlapping blocks are why the items are separate: with them the order of the two
      removals matters. */
  lemma OverlappingRemovalsDiffer(a: string, b: string)
    requires Word(a) && Word(b) && a != b
    ensures var content := Overlapping(a, b);
            WithoutBlocks(WithoutBlocks(content, Only(a)), Only(b)) !=
            WithoutBlocks(WithoutBlocks(content, Only(b)), Only(a))
  {
    FirstThenSecond(a, b);
    SecondThenFirst(a, b);
    EndMarkersDiffer(b, a);
    MarkerLine(a, a);
    MarkerLine(b, b);
    hide WithoutBlocks, BeginMarker, EndMarker, Overlapping;
  }

  /** What the pass sees in the two marker lines of a session. */
  lemma MarkerLine(session: string, removed: string)
    requires Word(session)
    ensures var begin := BeginMarker(session) + "\n";
            IsLine(begin) && Chomp(begin) == BeginMarker(session) && BlockSession(begin) == Some(session) &&
            (Starts(begin, Only(removed)) <==> session == removed)
    ensures var end := EndMarker(session) + "\n";
            IsLine(end) && Chomp(end) == EndMarker(session) && !Starts(end, Only(removed))
  {
    BeginLineStarts(session, NOTE);
    EndMarkerStartsNothing(session);
    hide BlockSession, BeginLine, EndMarker;
    var begin := BeginMarker(session) + "\n";
    assert begin[..|begin| - 1] == BeginMarker(session);
  }

  lemma EndPass(line: string, skipping: string, remove: string -> bool)
    requires IsLine(line)
    ensures Kept(line, skipping, remove) == Keeps(line, skipping, remove)
    ensures Open(line, skipping, remove) == Next(line, skipping, remove)
  {
    hide Keeps, Next;
    PassLine(line, "", skipping, remove);
    assert line + "" == line;
    assert Keeps(line, skipping, remove) + "" == Keeps(line, skipping, remove);
  }

  lemma FourLines(l1: string, l2: string, l3: string, l4: string, remove: string -> bool)
    requires IsLine(l1) && IsLine(l2) && IsLine(l3) && IsLine(l4)
    ensures var s1 := Next(l1, "", remove);
            var s2 := Next(l2, s1, remove);
            var s3 := Next(l3, s2, remove);
            var content := l1 + (l2 + (l3 + l4));
            Open(content, "", remove) == Next(l4, s3, remove) &&
            Kept(content, "", remove) ==
            Keeps(l1, "", remove) + (Keeps(l2, s1, remove) + (Keeps(l3, s2, remove) + Keeps(l4, s3, remove)))
  {
    hide Keeps, Next;
    var s1 := Next(l1, "", remove);
    var s2 := Next(l2, s1, remove);
    PassLine(l1, l2 + (l3 + l4), "", remove);
    PassLine(l2, l3 + l4, s1, remove);
    PassLine(l3, l4, s2, remove);
    EndPass(l4, Next(l3, s2, remove), remove);
  }

  // ---- Replacing one block: rewriteShared ----

  /** The new text of the file for `session`: its block in front of everything else, or no
      block at all when there are no lines. */
  function Rewritten(data: string, session: string, lines: Option<seq<string>>): string {
    var kept := WithoutBlocks(data, Only(session));
    match lines
    case None => kept
    case Some(ls) =>
      BeginMarker(session) + "\n" + Join(ls, "\n") + "\n" + EndMarker(session) + "\n" + kept
  }

  lemma RewrittenBlock(data: string, session: string, ls: seq<string>)
    requires ls != []
    ensures Rewritten(data, session, Some(ls)) ==
            BlockText(session, NOTE, ls) + WithoutBlocks(data, Only(session))
  {
    hide WithoutBlocks;
    JoinIsTerminated(ls);
    var begin := BeginMarker(session) + "\n";
    var end := EndMarker(session) + "\n";
    assert begin + Join(ls, "\n") + "\n" == begin + Terminated(ls);
    hide BeginMarker, EndMarker, Terminated, Join;
    assert begin + Join(ls, "\n") + "\n" + EndMarker(session) + "\n" == begin + (Terminated(ls) + end);
  }

  /** No line of `content` starts a block of `session`. */
  predicate NoBlock(content: string, session: string)
    decreases |content|
  {
    content == "" ||
    (var line := FirstLine(content);
     BlockSession(line) != Some(session) && NoBlock(content[|line|..], session))
  }

  lemma {:induction false} NoBlockKept(content: string, session: string)
    requires NoBlock(content, session)
    ensures Kept(content, "", Only(session)) == content && Open(content, "", Only(session)) == ""
    decreases |content|
  {
    hide BlockSession, EndMarker;
    if content != "" {
      var line := FirstLine(content);
      NoBlockKept(content[|line|..], session);
      assert line + content[|line|..] == content;
    }
  }

  /** What the editor keeps has no block that the content did not have. */
  lemma {:induction false} KeptHasNoBlock(content: string, skipping: string, remove: string -> bool, session: string)
    requires NoBlock(content, session)
    ensures NoBlock(Kept(content, skipping, remove), session)
    decreases |content|
  {
    hide BlockSession, EndMarker;
    if content != "" {
      var line := FirstLine(content);
      var rest := content[|line|..];
      var next := Next(line, skipping, remove);
      KeptHasNoBlock(rest, next, remove, session);
      var after := Kept(rest, next, remove);
      if Keeps(line, skipping, remove) == line {
        FirstLineShape(content);
        if IsLine(line) {
          FirstLineOfLine(line, after);
        } else {
          assert rest == "" && line + after == content;
        }
      } else {
        assert "" + after == after;
      }
    }
  }

  lemma WithoutBlocksHasNoBlock(content: string, remove: string -> bool, session: string)
    requires NoBlock(content, session)
    ensures NoBlock(WithoutBlocks(content, remove), session)
  {
    KeptHasNoBlock(content, "", remove, session);
  }
}
