/** Exactly when the user's own bytes of the shared file survive every run. */
module SessionUser {
  import opened Text
  import opened Blocks
  import opened AtomicFile
  import opened SharedFile
  import opened Sessions
  import opened SessionInvariant
  import opened SessionTheorems
  import opened SessionRuns

  /** No name that a recovery can take for a dead session's, outside the names in use, has
      blocks in the user's bytes that its removal would take. */
  ghost predicate NothingStale(w: World) {
    forall n | Removable(n) && n !in w.names :: WithoutBlocks(w.user, Only(n)) == w.user
  }

  /** The shared file is its blocks followed by all of the user's bytes. */
  ghost predicate UserIntact(w: World, s: State) { Bytes(s.home) == Content(Entries(s.log), w.user) }

  lemma IntactIff(w: World, s: State)
    requires ContentOk(w, s)
    ensures UserIntact(w, s) <==> Harmless(w.user, w.names, s.log)
  {
    UserPartKeptIff(w.user, w.names, s.log);
    var a, b := UserPart(w.user, w.names, s.log), w.user;
    hide UserPart, Harmless, LogOk, Entries, Content;
    SameTail(Render(Items(Entries(s.log))), a, b);
    assert Content(Entries(s.log), a) == Render(Items(Entries(s.log))) + a by { ContentIs(Entries(s.log), a); }
    assert Content(Entries(s.log), b) == Render(Items(Entries(s.log))) + b by { ContentIs(Entries(s.log), b); }
  }

  lemma ContentIs(entries: seq<Entry>, user: string)
    ensures Content(entries, user) == Render(Items(entries)) + user
  {}

  lemma SameTail(head: string, a: string, b: string)
    ensures head + a == head + b <==> a == b
  {
    assert (head + a)[|head|..] == a && (head + b)[|head|..] == b;
  }

  lemma IntactWithoutStale(w: World, states: seq<State>, k: nat)
    requires Run(w, states) && k < |states| && NothingStale(w)
    ensures UserIntact(w, states[k])
  {
    RunInv(w, states, k);
    var log := states[k].log;
    hide Run, ProcOk, WithoutBlocks, Mutex, Inodes, Ports, FileContent, Removable;
    IntactIff(w, states[k]);
    forall e | e in log && e.Removed? && e.name !in w.names ensures WithoutBlocks(w.user, Only(e.name)) == w.user {
      var i :| 0 <= i < |log| && log[i] == e;
      assert EventOk(log[i], w.names);
    }
  }

  // ---- A recovery that removes a stale block ----

  /** A removal that changes something has a begin line to start from. */
  lemma {:induction false} BeginOfBlock(content: string, name: string)
    ensures HasBegin(LinesOf(content), name) || NoBlock(content, name)
    decreases |content|
  {
    hide BlockSession;
    if content != "" {
      var line := FirstLine(content);
      var rest := content[|line|..];
      BeginOfBlock(rest, name);
      BeginOfLine(content);
      var lines := LinesOf(content);
      if BlockSession(line) == Some(name) {
        assert BlockSession(lines[0]) == Some(name);
      } else if HasBegin(LinesOf(rest), name) {
        var i :| 0 <= i < |LinesOf(rest)| && BlockSession(LinesOf(rest)[i]) == Some(name);
        assert lines[i + 1] == LinesOf(rest)[i];
      }
    }
  }

  lemma BeginOfLine(content: string)
    requires content != ""
    ensures BlockSession(Chomp(FirstLine(content))) == BlockSession(FirstLine(content))
  {
    hide BlockSession, FirstLine;
    FirstLineShape(content);
    var line := FirstLine(content);
    if IsLine(line) {
      var text := line[..|line| - 1];
      BlockSessionNewline(text);
      assert text + "\n" == line;
    } else {
      assert line == "" || line[|line| - 1] in line;
    }
  }

  lemma BlocklessKept(content: string, name: string)
    requires NoBlock(content, name)
    ensures WithoutBlocks(content, Only(name)) == content
  {
    NoBlockKept(content, name);
  }

  lemma StaleIsRemoved(w: World, name: string) returns (states: seq<State>)
    requires WorldOk(w) && Removable(name) && name !in w.names && WithoutBlocks(w.user, Only(name)) != w.user
    ensures Ran(w, states) && !UserIntact(w, Last(states))
  {
    hide WithoutBlocks, HasBegin, NoBlock, LinesOf, Run, Removable, WorldOk;
    BeginOfBlock(w.user, name);
    if NoBlock(w.user, name) { BlocklessKept(w.user, name); }
    states := RecoveryRun(w, map[SHARED := w.user], Files(true, 0, false), Cleanup);
    LastContent(w, states);
    IntactIff(w, Last(states));
    assert Event.Removed(name) in Last(states).log;
  }

  /** For example a complete block of an unused name in front of other text. */
  lemma StaleBlockIsRemoved(w: World, name: string, note: string, body: seq<string>, rest: string)
    returns (states: seq<State>)
    requires WorldOk(w) && name !in w.names
    requires '/' !in name && '\\' !in name && '\0' !in name && |name| <= 255 && name !in {"", ".", "..", "pgpass.lock"}
    requires Separate(Block(name, note, body)) && '\n' !in rest && BlockSession(rest).None?
    requires w.user == BlockText(name, note, body) + rest
    ensures Ran(w, states) && !UserIntact(w, Last(states))
  {
    assert Removable(name);
    hide WithoutBlocks, Separate, BlockText, BlockSession, Removable, WorldOk, Run, UserIntact;
    StaleBlockIsHarmed(name, note, body, rest, w.names);
    assert [Event.Removed(name)][..0] == [];
    states := StaleIsRemoved(w, name);
  }

  lemma LastContent(w: World, states: seq<State>)
    requires Run(w, states)
    ensures ContentOk(w, Last(states))
  {
    RunInv(w, states, |states| - 1);
    hide ContentOk, ProcOk, Mutex, Inodes, Ports, WorldOk;
  }

  /** In every state of every run all of the user's bytes are in the shared file, to the last
      one, if and only if they hold no stale block that a recovery would remove. */
  lemma UserBytesKeptIff(w: World)
    requires WorldOk(w)
    ensures (forall states, k: nat | Run(w, states) && k < |states| :: UserIntact(w, states[k])) <==> NothingStale(w)
  {
    hide Run, UserIntact, WorldOk, WithoutBlocks, Removable;
    if NothingStale(w) {
      forall states, k: nat | Run(w, states) && k < |states| ensures UserIntact(w, states[k]) {
        IntactWithoutStale(w, states, k);
      }
    } else {
      var name :| Removable(name) && name !in w.names && WithoutBlocks(w.user, Only(name)) != w.user;
      var states := StaleIsRemoved(w, name);
      assert !UserIntact(w, states[|states| - 1]);
    }
  }

  /** No recovery removes a block whose name is a path or longer than a file name, or is that
      of something that the session storage does hold. */
  lemma OtherNamesKept(w: World, states: seq<State>, k: nat, name: string)
    requires Run(w, states) && k < |states| && name !in w.names
    requires '/' in name || '\\' in name || '\0' in name || |name| > 255 || name in {"", ".", "..", "pgpass.lock"}
    ensures Event.Removed(name) !in states[k].log
  {
    RunInv(w, states, k);
    hide Run, ProcOk, Mutex, Inodes, Ports, FileContent, WorldOk;
    forall i | 0 <= i < |states[k].log| ensures states[k].log[i] != Event.Removed(name) {
      assert EventOk(states[k].log[i], w.names);
    }
  }
}
