/** Every step of a process has a footprint and keeps its own part of the invariant. */
module SessionSteps {
  import opened Text
  import opened Blocks
  import opened AtomicFile
  import opened SharedFile
  import opened ClientFiles
  import opened Sessions
  import opened SessionInvariant

  ghost predicate Stepped(w: World, s: State, p: Pid, s': State) {
    Footprint(w, s, p, s') && ProcOk(w, s', p)
  }

  /** What a process may rely on before its step. */
  ghost predicate Ready(w: World, s: State, p: Pid) {
    WorldOk(w) && Mutex(s) && Inodes(s) && ContentOk(w, s) && p in s.procs && !Over(s.procs[p].pc) && ProcOk(w, s, p)
  }

  /** A process that owns no session and touches no file moves on. */
  lemma MoveStep(w: World, s: State, p: Pid, pc: Pc)
    requires Ready(w, s, p) && (s.procs[p].pc.Owning? ==> Over(pc))
    requires !pc.Waiting? && LocksStep(s, p, Move(s, p, pc)) && Tie(pc).None? && EditOf(pc).None?
    requires SweepOk(Move(s, p, pc).dirs, Move(s, p, pc).procs[p].pc) && DoomOk(w, Move(s, p, pc), p)
    requires CleanOk(Move(s, p, pc).home, Move(s, p, pc).procs[p].pc)
    ensures Stepped(w, s, p, Move(s, p, pc))
  {
    hide Mutex, Inodes, ContentOk, WorldOk, LocksStep, SweepOk, DoomOk, CleanOk, HoldsRoot, HoldsShared, Recovers, Uses;
  }

  /** Ending, by a kill or by returning an error, releases everything. */
  lemma EndStep(w: World, s: State, p: Pid, pc: Pc)
    requires Ready(w, s, p) && Over(pc)
    ensures Stepped(w, s, p, Move(s, p, pc))
  {
    MoveStep(w, s, p, pc) by {
      hide Mutex, Inodes, ContentOk, WorldOk, ProcOk;
    }
    hide *;
  }

  lemma RootStep(w: World, s: State, p: Pid, c: Choice, s': State)
    requires p in s.procs && Ready(w, s, p) && RootAct(w, s, p, c) == Some(s')
    ensures Stepped(w, s, p, s')
  {
    hide Ready, Stepped, RootFree, Abandoned;
    if c.Fail? {
      EndStep(w, s, p, Finished);
    } else if s.procs[p].pc.Waiting? {
      LockRootStep(w, s, p);
    } else {
      ListStep(w, s, p, c.names);
    }
  }

  lemma LockRootStep(w: World, s: State, p: Pid)
    requires p in s.procs && Ready(w, s, p) && s.procs[p].pc.Waiting? && RootFree(s)
    ensures Stepped(w, s, p, s.(procs := s.procs[p := s.procs[p].(doomed := Abandoned(w, s), pc := Listing)]))
  {
    hide Mutex, Inodes, ContentOk, WorldOk, FilesOk, Entries;
  }

  lemma ListStep(w: World, s: State, p: Pid, names: seq<string>)
    requires p in s.procs && Ready(w, s, p) && s.procs[p].pc.Listing? && (set n | n in names) == s.dirs.Keys
    ensures Stepped(w, s, p, Move(s, p, Sweeping(names)))
  {
    hide Mutex, Inodes, ContentOk, WorldOk, Entries, SeatOk, EditOk, TaskOk, PublishedOk, PrivateOk;
    assert forall n | n in s.dirs :: n in names by {
      assert forall n | n in s.dirs :: n in set m | m in names;
    }
    MoveStep(w, s, p, Sweeping(names));
  }

  lemma PendingTail(dirs: map<string, Dir>, doomed: set<string>, todo: seq<string>)
    requires todo != []
    ensures DirsPending(dirs, doomed, todo) && (todo[0] in doomed ==> todo[0] !in dirs) ==>
      DirsPending(dirs, doomed, todo[1..])
  {
    assert todo == [todo[0]] + todo[1..];
  }

  /** On to the next entry, when the current one is gone or not doomed. */
  lemma SkipStep(w: World, s: State, p: Pid)
    requires Ready(w, s, p)
    requires (s.procs[p].pc.Sweeping? || s.procs[p].pc.Opened? || s.procs[p].pc.Swept?) && s.procs[p].pc.todo != []
    requires s.procs[p].pc.todo[0] in s.procs[p].doomed ==> s.procs[p].pc.todo[0] !in s.dirs
    ensures Stepped(w, s, p, Move(s, p, Sweeping(s.procs[p].pc.todo[1..])))
  {
    var todo, doomed := s.procs[p].pc.todo, s.procs[p].doomed;
    PendingTail(s.dirs, doomed, todo);
    hide Mutex, Inodes, ContentOk, WorldOk, SeatOk, EditOk, TaskOk, PublishedOk, PrivateOk, DirsPending;
    MoveStep(w, s, p, Sweeping(todo[1..]));
  }

  lemma SweepOverStep(w: World, s: State, p: Pid)
    requires Ready(w, s, p) && s.procs[p].pc == Sweeping([])
    ensures Stepped(w, s, p, Move(s, p, AwaitingShared))
    ensures !s.procs[p].files.pgpass ==> Stepped(w, s, p, Move(s, p, Recovered))
  {
    hide Mutex, Inodes, ContentOk, WorldOk, Entries, SeatOk, EditOk, TaskOk, PublishedOk, PrivateOk;
    MoveStep(w, s, p, AwaitingShared);
    if !s.procs[p].files.pgpass { MoveStep(w, s, p, Recovered); }
  }

  lemma OpenStep(w: World, s: State, p: Pid)
    requires Ready(w, s, p) && s.procs[p].pc.Sweeping?
    requires s.procs[p].pc.todo != [] && s.procs[p].pc.todo[0] in s.dirs
    ensures var todo := s.procs[p].pc.todo; Stepped(w, s, p, Move(s, p, Opened(todo, s.dirs[todo[0]].inode)))
  {
    hide Mutex, Inodes, ContentOk, WorldOk, Entries, SeatOk, EditOk, TaskOk, PublishedOk, PrivateOk;
    var todo := s.procs[p].pc.todo;
    MoveStep(w, s, p, Opened(todo, s.dirs[todo[0]].inode));
  }

  lemma LockStep(w: World, s: State, p: Pid)
    requires Ready(w, s, p) && s.procs[p].pc.Opened? && FlockFree(s, s.procs[p].pc.inode)
    ensures Stepped(w, s, p, Move(s, p, Locked(s.procs[p].pc.todo, s.procs[p].pc.inode)))
  {
    hide Mutex, Inodes, ContentOk, WorldOk, Entries, SeatOk, EditOk, TaskOk, PublishedOk, PrivateOk;
    MoveStep(w, s, p, Locked(s.procs[p].pc.todo, s.procs[p].pc.inode));
  }

  /** A directory is skipped only when its session still holds it. */
  lemma HeldIsTied(w: World, s: State, p: Pid)
    requires Ready(w, s, p) && s.procs[p].pc.Opened? && !FlockFree(s, s.procs[p].pc.inode)
    ensures var name := s.procs[p].pc.todo[0]; name in s.procs[p].doomed ==> name !in s.dirs
  {
    hide ContentOk, WorldOk, FilesOk, Entries;
    var q :| q in s.procs && Flock(s.procs[q].pc) == Some(s.procs[p].pc.inode);
    assert q != p;
    assert s.procs[q].pc.Owning?;
  }

  /** A file of a directory to be removed goes. */
  lemma SweepFileStep(w: World, s: State, p: Pid, name: string)
    requires Ready(w, s, p) && s.procs[p].pc.Locked? && s.procs[p].pc.todo != [] && s.procs[p].pc.todo[0] in s.dirs
    ensures Stepped(w, s, p, s.(dirs := WithoutFile(s, s.procs[p].pc.todo[0], name)))
  {
    hide ContentOk, WorldOk, FilesOk, Entries, Inodes, Mutex, Leads, EditGood, CleanOk;
  }

  lemma SweepDirStep(w: World, s: State, p: Pid)
    requires Ready(w, s, p) && s.procs[p].pc.Locked? && s.procs[p].pc.todo != []
    ensures var pc := s.procs[p].pc;
      Stepped(w, s, p, Move(s, p, Swept(pc.todo, pc.inode)).(dirs := s.dirs - {pc.todo[0]}))
  {
    hide ContentOk, WorldOk, FilesOk, Entries, Inodes, Mutex, Leads, EditGood;
  }

  lemma SweepStep(w: World, s: State, p: Pid, c: Choice, s': State)
    requires Ready(w, s, p) && SweepAct(s, p, c) == Some(s')
    ensures Stepped(w, s, p, s')
  {
    if c.Fail? {
      EndStep(w, s, p, Finished);
    } else {
      match s.procs[p].pc {
        case Sweeping(todo) =>
          if todo == [] { SweepOverStep(w, s, p); }
          else if todo[0] in s.dirs { OpenStep(w, s, p); }
          else { SkipStep(w, s, p); }
        case Opened(todo, inode) =>
          if FlockFree(s, inode) { LockStep(w, s, p); } else { HeldIsTied(w, s, p); SkipStep(w, s, p); }
        case Locked(_, _) => if c.Pick? { SweepFileStep(w, s, p, c.name); } else { SweepDirStep(w, s, p); }
        case Swept(_, _) => GoneEntry(w, s, p); SkipStep(w, s, p);
        case _ =>
      }
    }
    hide Ready, Stepped, FlockFree;
  }

  lemma GoneEntry(w: World, s: State, p: Pid)
    requires Ready(w, s, p) && s.procs[p].pc.Swept?
    ensures s.procs[p].pc.todo != [] && s.procs[p].pc.todo[0] !in s.dirs
  {}

  // ---- One operation of an edit ----

  /** An operation of an edit either leaves the bytes of the shared file alone or is the one
      that commits the edit; and only the edit's own temporary file appears. */
  lemma EditStep(home: Directory, log: seq<Event>, event: Event, edit: Edit, c: Choice, r: EditResult)
    requires EditGood(home, event, edit) && EditAct(home, log, event, edit, c) == Some(r)
    ensures EditGood(r.home, event, r.edit)
    ensures !r.edit.Committed? ==> r.log == log && Bytes(r.home) == Bytes(home)
    ensures r.edit.Committed? ==> r.log == log + [event] && Bytes(r.home) == NewText(Bytes(home), event)
    ensures OnlyTemp(home, SHARED, EditTemp(Some(edit))) && !r.edit.Broken? ==>
      OnlyTemp(r.home, SHARED, EditTemp(Some(r.edit)))
    ensures Bystanders(r.home) == Bystanders(home) && MakesNone(home, r.home)
  {
    hide NewText, WriteAct, Holding, OnlyTemp, IsTemp, IsLeftover;
    if edit.Editing? && c.Writes? {
      var text := NewText(edit.data, event);
      var step := WriteAct(home, SHARED, text, edit.write, c.io).value;
      WriteEffect(home, SHARED, text, edit.write, c.io, step);
      TempsAreLeftovers();
    } else {
      HoldsNothing(home, SHARED, NewText(Bytes(home), event));
    }
  }

  lemma HoldsNothing(files: Directory, base: string, data: string)
    ensures Holding(files, base, data, Unopened)
  {}

  lemma TempsAreLeftovers()
    ensures forall n | IsTemp(SHARED, n) :: IsLeftover(SHARED, n)
    ensures !IsLeftover(SHARED, SHARED)
  {
    TargetIsNoLeftover(SHARED);
  }

  // ---- recoverShared ----

  lemma {:induction false} LinesCover(entries: seq<Entry>, user: string, e: Entry)
    requires AllAcceptable(entries) && e in entries
    ensures HasBegin(LinesOf(Content(entries, user)), e.session)
  {
    var f := entries[0];
    var rest := Content(entries[1..], user);
    assert Acceptable(f);
    MarkerLine(f.session, f.session);
    NoteIsPlain();
    BeginLineStarts(f.session, NOTE);
    LocalLineIsBody(f);
    WholeLine(LocalLine(f));
    assert ItemText(EntryItem(f)) + rest == Content(entries, user) by {
      hide ItemText, EntryItem;
      Associate(ItemText(EntryItem(f)), Render(Items(entries[1..])), user);
      assert Items(entries)[1..] == Items(entries[1..]);
    }
    BlockLines(f, rest);
    hide BlockSession, BeginMarker, EndMarker, LocalLine, Content, Acceptable, IsLine, BodyLine, Chomp, FirstLine;
    var begin, line, end := BeginMarker(f.session) + "\n", LocalLine(f) + "\n", EndMarker(f.session) + "\n";
    LinesStep(begin, line + (end + rest));
    LinesStep(line, end + rest);
    LinesStep(end, rest);
    if e == f {
      assert LinesOf(Content(entries, user))[0] == BeginMarker(f.session);
    } else {
      assert e in entries[1..];
      LinesCover(entries[1..], user, e);
    }
  }

  lemma HasBeginLater(line: string, lines: seq<string>, name: string)
    requires HasBegin(lines, name)
    ensures HasBegin([line] + lines, name)
  {
    hide BlockSession;
    var i :| 0 <= i < |lines| && BlockSession(lines[i]) == Some(name);
    assert ([line] + lines)[i + 1] == lines[i];
  }

  lemma LinesStep(line: string, rest: string)
    requires IsLine(line)
    ensures LinesOf(line + rest) == [Chomp(line)] + LinesOf(rest)
    ensures forall name | HasBegin(LinesOf(rest), name) :: HasBegin(LinesOf(line + rest), name)
  {
    FirstLineOfLine(line, rest);
    hide BlockSession, FirstLine, Chomp, HasBegin;
    forall name | HasBegin(LinesOf(rest), name) ensures HasBegin(LinesOf(line + rest), name) {
      HasBeginLater(Chomp(line), LinesOf(rest), name);
    }
  }

  /** When the file is loaded, every block is announced by one of its lines. */
  lemma LoadedPending(w: World, s: State, p: Pid)
    requires Ready(w, s, p)
    ensures SHARED in s.home ==> BlocksPending(s.log, s.procs[p].doomed, LinesOf(s.home[SHARED]), None)
    ensures SHARED !in s.home ==> NoBlocks(s.log, s.procs[p].doomed)
  {
    hide ProcOk, Mutex, Inodes, LinesOf, HasBegin, Content, Acceptable;
    EntriesOk(s.log, w.names);
    var entries, part := Entries(s.log), UserPart(w.user, w.names, s.log);
    forall e | e in entries ensures HasBegin(LinesOf(Bytes(s.home)), e.session) {
      LinesCover(entries, part, e);
    }
    if SHARED !in s.home && entries != [] {
      LinesCover(entries, part, entries[0]);
      NoLines();
      assert false;
    }
  }

  lemma NoLines()
    ensures forall name :: !HasBegin(LinesOf(""), name)
  {}

  /** The process of an edit moves on with the file as the edit leaves it. */
  function Moved(s: State, p: Pid, pc: Pc, home: Directory, log: seq<Event>): State
    requires p in s.procs
  {
    Move(s, p, pc).(home := home, log := log)
  }

  /** A recovering process works on the shared file. */
  lemma RecoverFileStep(w: World, s: State, p: Pid, pc: Pc, home: Directory, log: seq<Event>)
    requires Ready(w, s, p) && HoldsShared(s.procs[p].pc) && Recovers(s.procs[p].pc)
    requires !pc.Owning? && !pc.Made? && !Sweeps(pc) && !pc.Waiting?
    requires FileStep(s, p, Moved(s, p, pc, home, log))
    requires EditOk(Moved(s, p, pc, home, log).home, Moved(s, p, pc, home, log).procs[p])
    requires DoomOk(w, Moved(s, p, pc, home, log), p)
    requires CleanOk(Moved(s, p, pc, home, log).home, Moved(s, p, pc, home, log).procs[p].pc)
    ensures Stepped(w, s, p, Moved(s, p, pc, home, log))
  {
    hide Mutex, Inodes, ContentOk, WorldOk, EditOk, DoomOk, CleanOk, FileStep, Entries, Uses, Bystanders, MakesNone;
  }

  lemma ListLeftoversStep(w: World, s: State, p: Pid)
    requires Ready(w, s, p) && s.procs[p].pc.Cleaning?
    ensures Stepped(w, s, p, Move(s, p, Deleting(set n | n in s.home && IsLeftover(SHARED, n))))
  {
    hide Mutex, Inodes, ContentOk, WorldOk, Entries, DirsPending, IsLeftover;
    MoveStep(w, s, p, Deleting(set n | n in s.home && IsLeftover(SHARED, n)));
  }

  lemma DeletedFile(home: Directory, name: string)
    requires IsLeftover(SHARED, name)
    ensures Bytes(home - {name}) == Bytes(home)
    ensures Bystanders(home - {name}) == Bystanders(home) && MakesNone(home, home - {name})
  {
    TempsAreLeftovers();
    hide IsLeftover, IsTemp;
  }

  lemma DeleteStep(w: World, s: State, p: Pid, name: string)
    requires Ready(w, s, p) && s.procs[p].pc.Deleting? && name in s.procs[p].pc.leftovers
    ensures Stepped(w, s, p, Moved(s, p, Deleting(s.procs[p].pc.leftovers - {name}), s.home - {name}, s.log))
  {
    hide Mutex, Inodes, ContentOk, WorldOk, Entries, DirsPending, IsLeftover, IsTemp, Bytes, Bystanders, MakesNone;
    ReadyDoom(w, s, p);
    DeletedFile(s.home, name);
    RecoverFileStep(w, s, p, Deleting(s.procs[p].pc.leftovers - {name}), s.home - {name}, s.log);
  }

  lemma DeletedStep(w: World, s: State, p: Pid)
    requires Ready(w, s, p) && s.procs[p].pc == Deleting({})
    ensures Stepped(w, s, p, Move(s, p, Loading))
  {
    hide Mutex, Inodes, ContentOk, WorldOk, Entries, DirsPending, IsLeftover;
    ReadyDoom(w, s, p);
    MoveStep(w, s, p, Loading);
  }

  lemma ReadyDoom(w: World, s: State, p: Pid)
    requires Ready(w, s, p)
    ensures DoomOk(w, s, p) && CleanOk(s.home, s.procs[p].pc)
  {
    hide Mutex, Inodes, ContentOk, WorldOk, DoomOk, CleanOk;
  }

  lemma LoadingStep(w: World, s: State, p: Pid)
    requires p in s.procs && Ready(w, s, p) && s.procs[p].pc.Loading?
    ensures SHARED in s.home ==> Stepped(w, s, p, Move(s, p, Pruning(LinesOf(s.home[SHARED]))))
    ensures SHARED !in s.home ==> Stepped(w, s, p, Move(s, p, Pruned))
  {
    hide Ready, Stepped, Entries, DirsPending, BlocksPending, NoBlocks, OnlyTemp, LinesOf;
    ReadyDoom(w, s, p);
    LoadedPending(w, s, p);
    if SHARED in s.home {
      MoveStep(w, s, p, Pruning(LinesOf(s.home[SHARED])));
    } else {
      MoveStep(w, s, p, Pruned);
    }
  }

  predicate Prunable(s: State, line: string) {
    var begun := BlockSession(line);
    begun.Some? && Missing(s, begun.value)
  }

  /** A doomed session's begin line is never passed over. */
  lemma DoomedIsPrunable(w: World, s: State, p: Pid, line: string, name: string)
    requires Ready(w, s, p) && s.procs[p].pc.Pruning?
    requires name in s.procs[p].doomed && BlockSession(line) == Some(name)
    ensures Prunable(s, line)
  {
    hide Mutex, Inodes, ContentOk, Entries, BlockSession, BlocksPending;
    assert SessionName(name) && name[0] == "session-"[0];
    assert name !in s.dirs;
  }

  lemma PendingLine(log: seq<Event>, doomed: set<string>, lines: seq<string>)
    requires lines != [] && BlocksPending(log, doomed, lines, None)
    ensures forall e | e in Entries(log) && e.session in doomed ::
              BlockSession(lines[0]) == Some(e.session) || HasBegin(lines[1..], e.session)
  {
    hide Entries, BlockSession;
    forall e | e in Entries(log) && e.session in doomed && BlockSession(lines[0]) != Some(e.session)
      ensures HasBegin(lines[1..], e.session)
    {
      var i :| 0 <= i < |lines| && BlockSession(lines[i]) == Some(e.session);
      assert lines[1..][i - 1] == lines[i];
    }
  }

  lemma PruneSkipStep(w: World, s: State, p: Pid)
    requires p in s.procs && Ready(w, s, p) && s.procs[p].pc.Pruning? && s.procs[p].pc.lines != []
    requires !Prunable(s, s.procs[p].pc.lines[0])
    ensures Stepped(w, s, p, Move(s, p, Pruning(s.procs[p].pc.lines[1..])))
  {
    hide Ready, Stepped, Entries, DirsPending, OnlyTemp, Prunable, BlockSession, HasBegin;
    ReadyDoom(w, s, p);
    var lines, doomed := s.procs[p].pc.lines, s.procs[p].doomed;
    PendingLine(s.log, doomed, lines);
    forall e | e in Entries(s.log) && e.session in doomed ensures BlockSession(lines[0]) != Some(e.session) {
      if BlockSession(lines[0]) == Some(e.session) { DoomedIsPrunable(w, s, p, lines[0], e.session); }
    }
    assert BlocksPending(s.log, doomed, lines[1..], None);
    hide BlocksPending;
    MoveStep(w, s, p, Pruning(lines[1..]));
  }

  lemma PruneStartStep(w: World, s: State, p: Pid)
    requires p in s.procs && Ready(w, s, p) && s.procs[p].pc.Pruning? && s.procs[p].pc.lines != []
    requires Prunable(s, s.procs[p].pc.lines[0])
    ensures var lines := s.procs[p].pc.lines;
            Stepped(w, s, p, Move(s, p, PruneEdit(BlockSession(lines[0]).value, lines[1..], Reading)))
  {
    hide Ready, Stepped, Entries, DirsPending, BlockSession, HasBegin, Bytes, Bystanders;
    ReadyDoom(w, s, p);
    hide OnlyTemp, Removable;
    var lines, doomed := s.procs[p].pc.lines, s.procs[p].doomed;
    var name := BlockSession(lines[0]).value;
    PendingLine(s.log, doomed, lines);
    assert BlocksPending(s.log, doomed, lines[1..], Some(name));
    assert name !in s.dirs && Removable(name);
    hide BlocksPending, Prunable, DirsPending;
    RecoverFileStep(w, s, p, PruneEdit(name, lines[1..], Reading), s.home, s.log);
    assert Moved(s, p, PruneEdit(name, lines[1..], Reading), s.home, s.log) ==
      Move(s, p, PruneEdit(name, lines[1..], Reading));
  }

  lemma PruneOverStep(w: World, s: State, p: Pid)
    requires Ready(w, s, p) && s.procs[p].pc == Pruning([])
    ensures Stepped(w, s, p, Move(s, p, Pruned))
  {
    hide Mutex, Inodes, ContentOk, WorldOk, Entries, DirsPending, OnlyTemp;
    assert NoBlocks(s.log, s.procs[p].doomed);
    MoveStep(w, s, p, Pruned);
  }

  /** Once its removal is committed, a session is no longer pending. */
  lemma RemovedPending(log: seq<Event>, doomed: set<string>, lines: seq<string>, name: string)
    requires BlocksPending(log, doomed, lines, Some(name))
    ensures BlocksPending(log + [Event.Removed(name)], doomed, lines, None)
  {
    hide HasBegin;
    assert (log + [Event.Removed(name)])[..|log|] == log;
    DroppingProperties(Entries(log), name);
  }

  lemma PruneEditDoom(w: World, s: State, p: Pid, r: EditResult)
    requires p in s.procs && s.procs[p].pc.PruneEdit? && !s.procs[p].pc.edit.Committed? && DoomOk(w, s, p)
    requires r.log == if r.edit.Committed? then s.log + [Event.Removed(s.procs[p].pc.name)] else s.log
    ensures var pc := s.procs[p].pc; DoomOk(w, Moved(s, p, PruneEdit(pc.name, pc.lines, r.edit), r.home, r.log), p)
  {
    hide Entries, DirsPending, BlocksPending;
    var pc := s.procs[p].pc;
    if r.edit.Committed? { RemovedPending(s.log, s.procs[p].doomed, pc.lines, pc.name); }
  }

  lemma ReadyPruner(w: World, s: State, p: Pid)
    requires Ready(w, s, p) && s.procs[p].pc.PruneEdit?
    ensures DoomOk(w, s, p) && EditGood(s.home, Event.Removed(s.procs[p].pc.name), s.procs[p].pc.edit)
    ensures !s.procs[p].pc.edit.Broken? ==> OnlyTemp(s.home, SHARED, EditTemp(Some(s.procs[p].pc.edit)))
  {
    hide Mutex, Inodes, ContentOk, WorldOk, DoomOk, EditGood, OnlyTemp;
  }

  lemma EditGoesOn(home: Directory, log: seq<Event>, event: Event, edit: Edit, c: Choice)
    requires EditAct(home, log, event, edit, c).Some?
    ensures !edit.Committed? && !edit.Broken?
  {}

  lemma PruneFileStep(s: State, p: Pid, r: EditResult)
    requires p in s.procs && s.procs[p].pc.PruneEdit? && Bystanders(r.home) == Bystanders(s.home)
    requires MakesNone(s.home, r.home)
    requires !r.edit.Committed? ==> r.log == s.log && Bytes(r.home) == Bytes(s.home)
    requires r.edit.Committed? ==>
               r.log == s.log + [Event.Removed(s.procs[p].pc.name)] &&
               Bytes(r.home) == NewText(Bytes(s.home), Event.Removed(s.procs[p].pc.name))
    ensures var pc := s.procs[p].pc; FileStep(s, p, Moved(s, p, PruneEdit(pc.name, pc.lines, r.edit), r.home, r.log))
  {
    hide Bytes, NewText, Bystanders, MakesNone;
  }

  lemma PruneEditStep(w: World, s: State, p: Pid, c: Choice, r: EditResult)
    requires p in s.procs && Ready(w, s, p) && s.procs[p].pc.PruneEdit?
    requires EditAct(s.home, s.log, Event.Removed(s.procs[p].pc.name), s.procs[p].pc.edit, c) == Some(r)
    ensures var pc := s.procs[p].pc;
            Stepped(w, s, p, Moved(s, p, PruneEdit(pc.name, pc.lines, r.edit), r.home, r.log))
  {
    hide Ready, Stepped, FileStep, OnlyTemp, Bytes, Bystanders, MakesNone, EditAct, EditGood, NewText, DoomOk;
    var pc := s.procs[p].pc;
    var event := Event.Removed(pc.name);
    EditGoesOn(s.home, s.log, event, pc.edit, c);
    ReadyPruner(w, s, p);
    EditStep(s.home, s.log, event, pc.edit, c, r);
    PruneEditDoom(w, s, p, r);
    assert FileStep(s, p, Moved(s, p, PruneEdit(pc.name, pc.lines, r.edit), r.home, r.log)) by {
      PruneFileStep(s, p, r);
    }
    RecoverFileStep(w, s, p, PruneEdit(pc.name, pc.lines, r.edit), r.home, r.log);
  }

  lemma PruneNextStep(w: World, s: State, p: Pid)
    requires Ready(w, s, p) && s.procs[p].pc.PruneEdit? && s.procs[p].pc.edit.Committed?
    ensures Stepped(w, s, p, Move(s, p, Pruning(s.procs[p].pc.lines)))
  {
    hide Mutex, Inodes, ContentOk, WorldOk, Entries, DirsPending, BlocksPending;
    MoveStep(w, s, p, Pruning(s.procs[p].pc.lines));
  }

  lemma RecoveredStep(w: World, s: State, p: Pid)
    requires Ready(w, s, p) && s.procs[p].pc.Pruned?
    ensures Stepped(w, s, p, Move(s, p, Recovered))
  {
    hide Mutex, Inodes, ContentOk, WorldOk, Entries, DirsPending, NoBlocks, OnlyTemp;
    MoveStep(w, s, p, Recovered);
  }

  lemma AwaitStep(w: World, s: State, p: Pid)
    requires Ready(w, s, p) && s.procs[p].pc.AwaitingShared? && SharedFree(s)
    ensures Stepped(w, s, p, Move(s, p, Cleaning))
  {
    hide Mutex, Inodes, ContentOk, WorldOk, Entries, DirsPending, NoBlocks, OnlyTemp;
    MoveStep(w, s, p, Cleaning);
  }

  lemma PruneStep(w: World, s: State, p: Pid, c: Choice, s': State)
    requires Ready(w, s, p) && PruneAct(s, p, c) == Some(s')
    ensures Stepped(w, s, p, s')
  {
    assert p in s.procs;
    hide Ready, Stepped, SharedFree, BlockSession, Missing, EditAct, LinesOf, IsTemp, IsLeftover;
    match s.procs[p].pc {
      case AwaitingShared => if c.Go? { AwaitStep(w, s, p); } else { EndStep(w, s, p, Finished); }
      case Cleaning => if c.Go? { ListLeftoversStep(w, s, p); } else { EndStep(w, s, p, Finished); }
      case Deleting(_) =>
        if c.Pick? { DeleteStep(w, s, p, c.name); }
        else if c.Go? { DeletedStep(w, s, p); }
        else { EndStep(w, s, p, Finished); }
      case Loading => if c.Go? { LoadingStep(w, s, p); } else { EndStep(w, s, p, Finished); }
      case Pruning(lines) =>
        if lines == [] { PruneOverStep(w, s, p); }
        else if Prunable(s, lines[0]) { PruneStartStep(w, s, p); }
        else { PruneSkipStep(w, s, p); }
      case PruneEdit(name, lines, edit) =>
        if edit.Committed? && edit.clean { PruneNextStep(w, s, p); }
        else if edit.Committed? { EndStep(w, s, p, Finished); }
        else if edit.Broken? { EndStep(w, s, p, Finished); }
        else { PruneEditStep(w, s, p, c, EditAct(s.home, s.log, Event.Removed(name), edit, c).value); }
      case Pruned => RecoveredStep(w, s, p);
      case _ =>
    }
  }

  // ---- Prepare: a new session directory ----

  lemma MakeDirStep(w: World, s: State, p: Pid, name: string)
    requires Ready(w, s, p) && s.procs[p].pc.Recovered? && s.procs[p].job.Prepare?
    requires name in w.names && name !in s.dirs
    ensures Stepped(w, s, p, Move(s, p, Made(name, s.nextInode)).(
              dirs := s.dirs[name := Dir(s.nextInode, map[])], nextInode := s.nextInode + 1))
  {
    hide Mutex, Inodes, ContentOk, WorldOk, Entries, DirsPending, NoBlocks;
  }

  lemma OwnStep(w: World, s: State, p: Pid)
    requires Ready(w, s, p) && s.procs[p].pc.Made? && FlockFree(s, s.procs[p].pc.inode)
    ensures var pc := s.procs[p].pc; Stepped(w, s, p, Move(s, p, Owning(pc.session, pc.inode, Service(Unopened), true)))
  {
    hide Mutex, Inodes, ContentOk, WorldOk, Entries, Leads, FlockFree, DirsPending;
  }

  lemma UnmakeStep(w: World, s: State, p: Pid)
    requires Ready(w, s, p) && s.procs[p].pc.Made?
    ensures Stepped(w, s, p, Move(s, p, Finished).(dirs := s.dirs - {s.procs[p].pc.session}))
  {
    hide Mutex, Inodes, ContentOk, WorldOk, Entries, Leads, DirsPending;
  }

  lemma MakeStep(w: World, s: State, p: Pid, c: Choice, s': State)
    requires p in s.procs && Ready(w, s, p) && MakeAct(w, s, p, c) == Some(s')
    ensures Stepped(w, s, p, s')
  {
    hide Ready, Stepped, FlockFree;
    var pc := s.procs[p].pc;
    if pc.Recovered? && c.Pick? { MakeDirStep(w, s, p, c.name); }
    else if pc.Made? && c.Go? { OwnStep(w, s, p); }
    else if pc.Made? && c.Fail? { UnmakeStep(w, s, p); }
    else { EndStep(w, s, p, Finished); }
  }

  // ---- The owner of a session ----

  function With(s: State, p: Pid, pr: Proc, dirs: map<string, Dir>, home: Directory, log: seq<Event>): State {
    s.(procs := s.procs[p := pr], dirs := dirs, home := home, log := log)
  }

  /** The owner's own part of the invariant, on the values that it is about. */
  ghost predicate OwnOk(dirs: map<string, Dir>, home: Directory, log: seq<Event>, pr: Proc) {
    TaskOk(pr) && EditOk(home, pr) && PublishedOk(log, pr) && PrivateOk(dirs, pr)
  }

  ghost predicate OwnDirs(s: State, session: string, dirs: map<string, Dir>) {
    && dirs.Keys <= s.dirs.Keys
    && (forall n | n in dirs :: dirs[n].inode == s.dirs[n].inode)
    && (forall n | n in s.dirs && n != session :: n in dirs && dirs[n] == s.dirs[n])
  }

  predicate OwnMove(before: Proc, after: Proc, dirs: map<string, Dir>) {
    && after.files == before.files && after.job == before.job && after.doomed == before.doomed
    && before.pc.Owning? && after.pc.Owning?
    && after.pc.session == before.pc.session && after.pc.inode == before.pc.inode
    && (after.pc.starting ==> before.pc.starting)
    && !before.pc.task.Released?
    && (!after.pc.task.Released? ==> after.pc.session in dirs)
  }

  lemma OwnerStep(w: World, s: State, p: Pid, pr: Proc, dirs: map<string, Dir>, home: Directory, log: seq<Event>)
    requires Ready(w, s, p)
    requires OwnMove(s.procs[p], pr, dirs) && OwnDirs(s, s.procs[p].pc.session, dirs)
    requires HoldsShared(pr.pc) ==> HoldsShared(s.procs[p].pc) || SharedFree(s)
    requires !HoldsShared(s.procs[p].pc) ==> home == s.home && log == s.log
    requires FileStep(s, p, With(s, p, pr, dirs, home, log))
    requires OwnOk(dirs, home, log, pr)
    ensures Stepped(w, s, p, With(s, p, pr, dirs, home, log))
  {
    hide Mutex, Inodes, ContentOk, WorldOk, EditOk, PublishedOk, PrivateOk;
    hide TaskOk, FileStep, Entries, SharedFree, Bystanders, MakesNone;
  }

  function Doing(pr: Proc, task: Task, starting: bool): Proc
    requires pr.pc.Owning?
  {
    pr.(pc := Owning(pr.pc.session, pr.pc.inode, task, starting))
  }

  lemma ReadyOwner(w: World, s: State, p: Pid)
    requires Ready(w, s, p) && s.procs[p].pc.Owning?
    ensures OwnOk(s.dirs, s.home, s.log, s.procs[p]) && s.procs[p].job.Prepare?
    ensures !s.procs[p].pc.task.Released? ==> s.procs[p].pc.session in s.dirs
    ensures OwnDirs(s, s.procs[p].pc.session, s.dirs)
  {
    hide Mutex, Inodes, ContentOk, WorldOk, EditOk, PublishedOk, PrivateOk, Entries, DoomOk, SweepOk, CleanOk;
  }

  /** The owner goes from one task to another and touches no file. */
  lemma OwnerTask(w: World, s: State, p: Pid, task: Task, starting: bool)
    requires p in s.procs && Ready(w, s, p) && s.procs[p].pc.Owning? && !s.procs[p].pc.task.Released?
    requires starting ==> s.procs[p].pc.starting
    requires HoldsShared(Doing(s.procs[p], task, starting).pc) ==> HoldsShared(s.procs[p].pc) || SharedFree(s)
    requires OwnOk(s.dirs, s.home, s.log, Doing(s.procs[p], task, starting))
    ensures Stepped(w, s, p, At(s, p, task, starting))
  {
    hide Ready, OwnOk, OwnDirs, Bystanders, Stepped, SharedFree;
    var pr := Doing(s.procs[p], task, starting);
    ReadyOwner(w, s, p);
    assert With(s, p, pr, s.dirs, s.home, s.log) == At(s, p, task, starting);
    OwnerStep(w, s, p, pr, s.dirs, s.home, s.log);
  }

  // What the owner's tasks lead to

  predicate CanClose(task: Task) {
    task.Service? || task.Private? || task.AwaitingUpdate? || task.Idle? || (task.Updating? && !task.edit.Committed?)
  }

  function CloseTask(pr: Proc): Task { if Sharing(pr) then AwaitingClose else Removing(true) }

  lemma StartCloseOk(dirs: map<string, Dir>, home: Directory, log: seq<Event>, pr: Proc)
    requires OwnOk(dirs, home, log, pr) && pr.pc.Owning? && CanClose(pr.pc.task)
    ensures OwnOk(dirs, home, log, Doing(pr, CloseTask(pr), pr.pc.starting))
  {
    hide Leads, Entries, ServiceText, PrivateText, Holding, Shares, AcceptsSecret, Accepts, EditGood;
  }

  lemma IdleOk(dirs: map<string, Dir>, home: Directory, log: seq<Event>, pr: Proc)
    requires OwnOk(dirs, home, log, pr) && pr.pc.Owning? && CanClose(pr.pc.task) && !pr.pc.task.Service?
    requires !pr.pc.starting
    ensures OwnOk(dirs, home, log, Doing(pr, Idle(false), false))
    ensures forall secret :: OwnOk(dirs, home, log, Doing(pr, Private(secret, Unopened), false))
  {
    hide Leads, Entries, ServiceText, PrivateText, Shares, AcceptsSecret, Accepts, EditGood;
  }

  lemma ReadingOk(dirs: map<string, Dir>, home: Directory, log: seq<Event>, pr: Proc)
    requires OwnOk(dirs, home, log, pr) && pr.pc.Owning?
    ensures pr.pc.task.AwaitingUpdate? ==>
      OwnOk(dirs, home, log, Doing(pr, Updating(pr.pc.task.secret, Reading), pr.pc.starting))
    ensures pr.pc.task.AwaitingClose? ==> OwnOk(dirs, home, log, Doing(pr, Closing(Reading), pr.pc.starting))
  {
    hide Leads, Entries, ServiceText, PrivateText, Shares, AcceptsSecret, Accepts;
  }

  lemma EndingOk(dirs: map<string, Dir>, home: Directory, log: seq<Event>, pr: Proc,
                 dirs': map<string, Dir>, task: Task)
    requires OwnOk(dirs, home, log, pr) && pr.pc.Owning?
    requires task.Removing? || task.Released?
    requires task == Removing(true) ==> Cleared(pr) || !Sharing(pr)
    ensures OwnOk(dirs', home, log, Doing(pr, task, pr.pc.starting))
  {
    hide Leads, Entries, ServiceText, PrivateText, Holding, Shares, AcceptsSecret, Accepts, EditGood;
  }

  lemma StartCloseStep(w: World, s: State, p: Pid)
    requires p in s.procs && Ready(w, s, p) && s.procs[p].pc.Owning? && CanClose(s.procs[p].pc.task)
    ensures Stepped(w, s, p, StartClose(s, p))
  {
    hide Ready, OwnOk, OwnDirs, Stepped, Sharing;
    ReadyOwner(w, s, p);
    StartCloseOk(s.dirs, s.home, s.log, s.procs[p]);
    OwnerTask(w, s, p, CloseTask(s.procs[p]), s.procs[p].pc.starting);
  }

  lemma UpdateFailsStep(w: World, s: State, p: Pid)
    requires p in s.procs && Ready(w, s, p) && s.procs[p].pc.Owning? && CanClose(s.procs[p].pc.task)
    requires !s.procs[p].pc.task.Service?
    ensures Stepped(w, s, p, UpdateFails(s, p))
  {
    hide Ready, OwnOk, OwnDirs, Stepped, Sharing, StartClose;
    if s.procs[p].pc.starting {
      StartCloseStep(w, s, p);
    } else {
      ReadyOwner(w, s, p);
      IdleOk(s.dirs, s.home, s.log, s.procs[p]);
      OwnerTask(w, s, p, Idle(false), false);
    }
  }

  lemma NextCallStep(w: World, s: State, p: Pid, secret: string)
    requires p in s.procs && Ready(w, s, p) && s.procs[p].pc.Owning? && s.procs[p].pc.task.Idle?
    requires !s.procs[p].pc.starting
    ensures Stepped(w, s, p, At(s, p, Private(secret, Unopened), false))
  {
    hide Ready, OwnOk, OwnDirs, Stepped;
    ReadyOwner(w, s, p);
    IdleOk(s.dirs, s.home, s.log, s.procs[p]);
    OwnerTask(w, s, p, Private(secret, Unopened), false);
  }

  lemma LockUpdateStep(w: World, s: State, p: Pid)
    requires p in s.procs && Ready(w, s, p) && s.procs[p].pc.Owning? && s.procs[p].pc.task.AwaitingUpdate?
    requires SharedFree(s)
    ensures Stepped(w, s, p, At(s, p, Updating(s.procs[p].pc.task.secret, Reading), s.procs[p].pc.starting))
  {
    hide Ready, OwnOk, OwnDirs, Stepped, SharedFree;
    ReadyOwner(w, s, p);
    ReadingOk(s.dirs, s.home, s.log, s.procs[p]);
    OwnerTask(w, s, p, Updating(s.procs[p].pc.task.secret, Reading), s.procs[p].pc.starting);
  }

  /** The directories after an operation on a private file. */
  function Kept(s: State, session: string, files: Directory): map<string, Dir>
    requires session in s.dirs
  {
    s.dirs[session := s.dirs[session].(files := files)]
  }

  lemma OwnDirsUpdate(s: State, session: string, dir: Dir)
    requires session in s.dirs && dir.inode == s.dirs[session].inode
    ensures OwnDirs(s, session, s.dirs[session := dir])
    ensures OwnDirs(s, session, s.dirs - {session})
  {}

  /** After an operation of the write of the service file. */
  lemma ServiceOk(s: State, pr: Proc, c: Choice, r: Step)
    requires OwnOk(s.dirs, s.home, s.log, pr) && pr.pc.Owning? && pr.pc.task.Service? && pr.job.Prepare?
    requires Accepts(pr.job.target) && pr.pc.session in s.dirs
    requires PrivateAct(s, pr.pc.session, SERVICE, ServiceText(pr.job.target, pr.job.port), pr.pc.task.write, c) ==
      Some(r)
    ensures var dirs := Kept(s, pr.pc.session, r.files);
      && (r.write.Written? ==> OwnOk(dirs, s.home, s.log, Doing(pr, Private(pr.job.secret, Unopened), pr.pc.starting)))
      && (InProgress(r.write) ==> OwnOk(dirs, s.home, s.log, Doing(pr, Service(r.write), pr.pc.starting)))
      && OwnOk(dirs, s.home, s.log, Doing(pr, Service(Unopened), pr.pc.starting))
  {
    hide Leads, Entries, ServiceText, PrivateText, Shares, AcceptsSecret;
    hide Accepts, WriteAct, EditOk, IsTemp, PublishedOk;
    WriteEffect(s.dirs[pr.pc.session].files, SERVICE, ServiceText(pr.job.target, pr.job.port),
      pr.pc.task.write, c.io, r);
    assert TempOf(Unopened).None?;
    SamePublished(s.home, s.log, pr, Service(r.write));
    SamePublished(s.home, s.log, pr, Service(Unopened));
    SamePublished(s.home, s.log, pr, Private(pr.job.secret, Unopened));
  }

  /** Tasks before an edit owe the shared file the same. */
  lemma SamePublished(home: Directory, log: seq<Event>, pr: Proc, task: Task)
    requires EditOk(home, pr) && PublishedOk(log, pr) && pr.pc.Owning?
    requires pr.pc.task.Service? || pr.pc.task.Private?
    requires task.Service? || task.Private? || task.AwaitingUpdate?
    ensures EditOk(home, Doing(pr, task, pr.pc.starting)) && PublishedOk(log, Doing(pr, task, pr.pc.starting))
  {
    hide Leads, Entries, Shares;
  }

  lemma NamesApart()
    ensures SERVICE != PASSFILE && !IsTemp(PASSFILE, SERVICE)
  {
    assert SERVICE[0] == 'p' && PASSFILE[1] == 'g' && SERVICE[1] == 'g' && SERVICE[2] == '_' && PASSFILE[2] == 'p';
    assert TempPrefix(PASSFILE)[0] == '.';
  }

  /** After an operation of the write of the private password file. */
  lemma PrivateStepOk(s: State, pr: Proc, c: Choice, r: Step)
    requires OwnOk(s.dirs, s.home, s.log, pr) && pr.pc.Owning? && pr.pc.task.Private? && pr.job.Prepare?
    requires AcceptsSecret(pr.pc.task.secret) && pr.pc.session in s.dirs
    requires var text := PrivateText(pr.job.target, pr.job.port, pr.pc.task.secret);
      PrivateAct(s, pr.pc.session, PASSFILE, text, pr.pc.task.write, c) == Some(r)
    ensures var dirs, secret := Kept(s, pr.pc.session, r.files), pr.pc.task.secret;
      && (InProgress(r.write) ==> OwnOk(dirs, s.home, s.log, Doing(pr, Private(secret, r.write), pr.pc.starting)))
      && OwnOk(dirs, s.home, s.log, Doing(pr, Private(secret, Unopened), pr.pc.starting))
      && (r.write.Written? && Sharing(pr) ==>
            OwnOk(dirs, s.home, s.log, Doing(pr, AwaitingUpdate(secret), pr.pc.starting)))
  {
    hide Leads, Entries, ServiceText, PrivateText, Shares, AcceptsSecret, Accepts, WriteAct, EditOk, IsTemp, NoEntry;
    hide SERVICE, PASSFILE;
    StoredOk(s, pr, c, r);
    hide Holding;
    var secret := pr.pc.task.secret;
    SamePublished(s.home, s.log, pr, Private(secret, r.write));
    SamePublished(s.home, s.log, pr, Private(secret, Unopened));
    SamePublished(s.home, s.log, pr, AwaitingUpdate(secret));
  }

  /** What the private directory then has. */
  lemma StoredOk(s: State, pr: Proc, c: Choice, r: Step)
    requires OwnOk(s.dirs, s.home, s.log, pr) && pr.pc.Owning? && pr.pc.task.Private? && pr.job.Prepare?
    requires pr.pc.session in s.dirs
    requires var text := PrivateText(pr.job.target, pr.job.port, pr.pc.task.secret);
      PrivateAct(s, pr.pc.session, PASSFILE, text, pr.pc.task.write, c) == Some(r)
    ensures var text := PrivateText(pr.job.target, pr.job.port, pr.pc.task.secret);
      && Has(r.files, SERVICE, ServiceText(pr.job.target, pr.job.port))
      && Holding(r.files, PASSFILE, text, r.write) && Holding(r.files, PASSFILE, text, Unopened)
      && (r.write.Written? ==> Has(r.files, PASSFILE, text))
  {
    hide ServiceText, PrivateText, WriteAct, EditOk, IsTemp, PublishedOk, TaskOk, SERVICE, PASSFILE;
    var text := PrivateText(pr.job.target, pr.job.port, pr.pc.task.secret);
    WriteEffect(s.dirs[pr.pc.session].files, PASSFILE, text, pr.pc.task.write, c.io, r);
    NamesApart();
  }

  /** Without a shared file the Update is then over. */
  lemma PrivateOnlyOk(s: State, pr: Proc, c: Choice, r: Step)
    requires OwnOk(s.dirs, s.home, s.log, pr) && pr.pc.Owning? && pr.pc.task.Private? && pr.job.Prepare? && !Sharing(pr)
    requires AcceptsSecret(pr.pc.task.secret) && pr.pc.session in s.dirs && r.write.Written?
    requires var text := PrivateText(pr.job.target, pr.job.port, pr.pc.task.secret);
      PrivateAct(s, pr.pc.session, PASSFILE, text, pr.pc.task.write, c) == Some(r)
    ensures OwnOk(Kept(s, pr.pc.session, r.files), s.home, s.log,
      Doing(pr, Idle(true), false).(acked := Some(pr.pc.task.secret), late := None))
  {
    hide Leads, Entries, ServiceText, PrivateText, Shares, AcceptsSecret;
    hide Accepts, WriteAct, EditGood, IsTemp, NoEntry, Holding;
    hide SERVICE, PASSFILE;
    StoredOk(s, pr, c, r);
  }

  lemma AckedOk(dirs: map<string, Dir>, home: Directory, log: seq<Event>, pr: Proc, secret: string, clean: bool)
    requires OwnOk(dirs, home, log, pr) && pr.pc.Owning? && pr.pc.task == Updating(secret, Committed(clean))
    ensures OwnOk(dirs, home, log, Doing(pr, Idle(true), false).(acked := Some(secret), late := None))
    ensures !pr.pc.starting ==> OwnOk(dirs, home, log, Doing(pr, Idle(false), false).(late := Some(secret)))
    ensures OwnOk(dirs, home, log, Doing(pr, AwaitingClose, pr.pc.starting).(late := Some(secret)))
  {
    hide Leads, Entries, ServiceText, PrivateText, Shares, AcceptsSecret, Accepts;
  }

  /** The owner replaces one of its private files. */
  lemma OwnFileStep(w: World, s: State, p: Pid, pr: Proc, dirs: map<string, Dir>)
    requires p in s.procs && Ready(w, s, p) && s.procs[p].pc.Owning? && OwnMove(s.procs[p], pr, dirs)
    requires OwnDirs(s, s.procs[p].pc.session, dirs) && !HoldsShared(pr.pc)
    requires OwnOk(dirs, s.home, s.log, pr)
    ensures Stepped(w, s, p, With(s, p, pr, dirs, s.home, s.log))
  {
    hide Ready, OwnOk, OwnDirs, Bystanders, Stepped, OwnMove, SharedFree;
    OwnerStep(w, s, p, pr, dirs, s.home, s.log);
  }

  lemma ServiceStep(w: World, s: State, p: Pid, c: Choice, r: Step)
    requires p in s.procs && Ready(w, s, p) && s.procs[p].pc.Owning? && s.procs[p].pc.task.Service?
    requires s.procs[p].job.Prepare?
    requires Accepts(s.procs[p].job.target) && s.procs[p].pc.session in s.dirs
    requires var pr := s.procs[p];
      PrivateAct(s, pr.pc.session, SERVICE, ServiceText(pr.job.target, pr.job.port), pr.pc.task.write, c) == Some(r)
    ensures var pr := s.procs[p]; var stored := Stored(s, pr.pc.session, r.files);
      && (r.write.Written? ==> Stepped(w, s, p, At(stored, p, Private(pr.job.secret, Unopened), pr.pc.starting)))
      && (InProgress(r.write) ==> Stepped(w, s, p, At(stored, p, Service(r.write), pr.pc.starting)))
      && Stepped(w, s, p, StartClose(stored, p))
  {
    hide Ready, OwnOk, ServiceText, Accepts, OwnDirs, Stepped, Sharing, PrivateAct;
    var pr := s.procs[p];
    var dirs := Kept(s, pr.pc.session, r.files);
    ReadyOwner(w, s, p);
    ServiceOk(s, pr, c, r);
    OwnDirsUpdate(s, pr.pc.session, dirs[pr.pc.session]);
    var waiting := Doing(pr, Service(Unopened), pr.pc.starting);
    StartCloseOk(dirs, s.home, s.log, waiting);
    assert Doing(waiting, CloseTask(pr), pr.pc.starting) == Doing(pr, CloseTask(pr), pr.pc.starting);
    assert CloseTask(waiting) == CloseTask(pr) by { SameSharing(pr, waiting); }
    if r.write.Written? { OwnFileStep(w, s, p, Doing(pr, Private(pr.job.secret, Unopened), pr.pc.starting), dirs); }
    if InProgress(r.write) { OwnFileStep(w, s, p, Doing(pr, Service(r.write), pr.pc.starting), dirs); }
    OwnFileStep(w, s, p, Doing(pr, CloseTask(pr), pr.pc.starting), dirs);
  }

  lemma SameSharing(a: Proc, b: Proc)
    requires a.files == b.files && a.job == b.job
    ensures Sharing(a) == Sharing(b)
  {}

  lemma PrivateStep(w: World, s: State, p: Pid, c: Choice, r: Step)
    requires p in s.procs && Ready(w, s, p) && s.procs[p].pc.Owning? && s.procs[p].pc.task.Private?
    requires s.procs[p].job.Prepare?
    requires AcceptsSecret(s.procs[p].pc.task.secret) && s.procs[p].pc.session in s.dirs
    requires var pr := s.procs[p];
      PrivateAct(s, pr.pc.session, PASSFILE, PrivateText(pr.job.target, pr.job.port, pr.pc.task.secret),
        pr.pc.task.write, c) == Some(r)
    ensures var pr := s.procs[p]; var stored, secret := Stored(s, pr.pc.session, r.files), pr.pc.task.secret;
      && (r.write.Written? && Sharing(pr) ==> Stepped(w, s, p, At(stored, p, AwaitingUpdate(secret), pr.pc.starting)))
      && (r.write.Written? && !Sharing(pr) ==> Stepped(w, s, p, UpdateSucceeds(stored, p, secret)))
      && (InProgress(r.write) ==> Stepped(w, s, p, At(stored, p, Private(secret, r.write), pr.pc.starting)))
      && Stepped(w, s, p, UpdateFails(stored, p))
  {
    hide Ready, OwnOk, PrivateText, AcceptsSecret, OwnDirs, Stepped, Sharing, PrivateAct;
    var pr := s.procs[p];
    var secret := pr.pc.task.secret;
    var dirs := Kept(s, pr.pc.session, r.files);
    ReadyOwner(w, s, p);
    PrivateStepOk(s, pr, c, r);
    OwnDirsUpdate(s, pr.pc.session, dirs[pr.pc.session]);
    var waiting := Doing(pr, Private(secret, Unopened), pr.pc.starting);
    if InProgress(r.write) { OwnFileStep(w, s, p, Doing(pr, Private(secret, r.write), pr.pc.starting), dirs); }
    if r.write.Written? {
      if Sharing(pr) {
        OwnFileStep(w, s, p, Doing(pr, AwaitingUpdate(secret), pr.pc.starting), dirs);
      } else {
        PrivateOnlyOk(s, pr, c, r);
        OwnFileStep(w, s, p, Doing(pr, Idle(true), false).(acked := Some(secret), late := None), dirs);
      }
    }
    if pr.pc.starting {
      StartCloseOk(dirs, s.home, s.log, waiting);
      SameSharing(pr, waiting);
      OwnFileStep(w, s, p, Doing(pr, CloseTask(pr), pr.pc.starting), dirs);
    } else {
      IdleOk(dirs, s.home, s.log, waiting);
      OwnFileStep(w, s, p, Doing(pr, Idle(false), false), dirs);
    }
  }

  lemma CommittedStep(w: World, s: State, p: Pid, secret: string, clean: bool)
    requires p in s.procs && Ready(w, s, p) && s.procs[p].pc.Owning?
    requires s.procs[p].pc.task == Updating(secret, Committed(clean))
    ensures Stepped(w, s, p, UpdateSucceeds(s, p, secret))
    ensures Stepped(w, s, p, UpdateFailsLate(s, p, secret))
  {
    hide Ready, OwnOk, OwnDirs, Stepped, Sharing;
    var pr := s.procs[p];
    ReadyOwner(w, s, p);
    AckedOk(s.dirs, s.home, s.log, pr, secret, clean);
    assert Sharing(pr) by { UpdatingShares(s.dirs, s.home, s.log, pr); }
    SameSharing(pr, pr.(late := Some(secret)));
    OwnFileStep(w, s, p, Doing(pr, Idle(true), false).(acked := Some(secret), late := None), s.dirs);
    if pr.pc.starting {
      var after := Doing(pr, AwaitingClose, pr.pc.starting).(late := Some(secret));
      OwnFileStep(w, s, p, after, s.dirs);
      assert UpdateFailsLate(s, p, secret).procs == s.procs[p := after];
    } else {
      var after := Doing(pr, Idle(false), false).(late := Some(secret));
      OwnFileStep(w, s, p, after, s.dirs);
      assert UpdateFailsLate(s, p, secret).procs == s.procs[p := after];
    }
  }

  lemma UpdatingShares(dirs: map<string, Dir>, home: Directory, log: seq<Event>, pr: Proc)
    requires OwnOk(dirs, home, log, pr) && pr.pc.Owning? && pr.pc.task.Updating?
    ensures Sharing(pr)
  {
    hide PublishedOk, EditOk, PrivateOk, Sharing;
  }

  /** After the commit the session's new block leads its port. */
  lemma CommittedLeads(pr: Proc, log: seq<Event>)
    requires pr.job.Prepare? && pr.pc.Owning? && pr.pc.task.Updating?
    ensures Leads(Entries(log + [OwnEvent(pr)]), EntryOf(pr, pr.pc.session, pr.pc.task.secret))
  {
    LeadsAfter(log, OwnEvent(pr), EntryOf(pr, pr.pc.session, pr.pc.task.secret));
  }

  /** What the owner does while an edit goes on. */
  function WithEdit(task: Task, edit: Edit): Task
    requires task.Updating? || task.Closing?
  {
    if task.Updating? then Updating(task.secret, edit) else Closing(edit)
  }

  lemma EditedTaskOk(dirs: map<string, Dir>, pr: Proc, edit: Edit)
    requires pr.pc.Owning? && pr.job.Prepare? && (pr.pc.task.Updating? || pr.pc.task.Closing?)
    requires TaskOk(pr) && PrivateOk(dirs, pr)
    ensures TaskOk(Doing(pr, WithEdit(pr.pc.task, edit), pr.pc.starting))
    ensures PrivateOk(dirs, Doing(pr, WithEdit(pr.pc.task, edit), pr.pc.starting))
  {
    hide ServiceText, PrivateText, Holding, Shares, AcceptsSecret, Accepts;
  }

  lemma RemovedEntry(log: seq<Event>, session: string)
    ensures NoEntry(log + [Event.Removed(session)], session)
  {
    assert (log + [Event.Removed(session)])[..|log|] == log;
    DroppingProperties(Entries(log), session);
  }

  lemma EditedPublishedOk(log: seq<Event>, pr: Proc, r: EditResult)
    requires pr.pc.Owning? && pr.job.Prepare? && (pr.pc.task.Updating? || pr.pc.task.Closing?)
    requires !pr.pc.task.edit.Committed? && PublishedOk(log, pr)
    requires r.log == if r.edit.Committed? then log + [OwnEvent(pr)] else log
    ensures PublishedOk(r.log, Doing(pr, WithEdit(pr.pc.task, r.edit), pr.pc.starting))
  {
    if pr.pc.task.Updating? { CommittedLeads(pr, log); } else { RemovedEntry(log, pr.pc.session); }
    hide Leads, Entries, Shares, NoEntry;
  }

  lemma EditOkIs(home: Directory, pr: Proc)
    requires pr.pc.Owning? && pr.job.Prepare? && (pr.pc.task.Updating? || pr.pc.task.Closing?)
    ensures EditOk(home, pr) <==> EditGood(home, OwnEvent(pr), pr.pc.task.edit)
    ensures forall edit :: OwnEvent(Doing(pr, WithEdit(pr.pc.task, edit), pr.pc.starting)) == OwnEvent(pr)
  {
    hide EditGood;
  }

  lemma EditOwnOk(dirs: map<string, Dir>, home: Directory, log: seq<Event>, pr: Proc, c: Choice, r: EditResult)
    requires OwnOk(dirs, home, log, pr) && pr.pc.Owning? && pr.job.Prepare?
    requires pr.pc.task.Updating? || pr.pc.task.Closing?
    requires EditAct(home, log, OwnEvent(pr), pr.pc.task.edit, c) == Some(r)
    ensures OwnOk(dirs, r.home, r.log, Doing(pr, WithEdit(pr.pc.task, r.edit), pr.pc.starting))
    ensures Bystanders(r.home) == Bystanders(home) && MakesNone(home, r.home)
    ensures !r.edit.Committed? ==> r.log == log && Bytes(r.home) == Bytes(home)
    ensures r.edit.Committed? ==> r.log == log + [OwnEvent(pr)] && Bytes(r.home) == NewText(Bytes(home), OwnEvent(pr))
  {
    assert !pr.pc.task.edit.Committed?;
    EditOkIs(home, pr);
    EditOkIs(r.home, Doing(pr, WithEdit(pr.pc.task, r.edit), pr.pc.starting));
    hide TaskOk, PublishedOk, PrivateOk, EditOk, EditAct, EditGood, NewText, Bytes, OwnEvent, Bystanders, MakesNone;
    EditStep(home, log, OwnEvent(pr), pr.pc.task.edit, c, r);
    EditedTaskOk(dirs, pr, r.edit);
    EditedPublishedOk(log, pr, r);
  }

  lemma OwnEventFrom(pr: Proc)
    requires pr.job.Prepare? && pr.pc.Owning? && (pr.pc.task.Updating? || pr.pc.task.Closing?)
    ensures EventFrom(pr, OwnEvent(pr))
  {}

  lemma OwnEditStep(w: World, s: State, p: Pid, c: Choice, r: EditResult)
    requires p in s.procs && Ready(w, s, p) && s.procs[p].pc.Owning? && s.procs[p].job.Prepare?
    requires s.procs[p].pc.task.Updating? || s.procs[p].pc.task.Closing?
    requires EditAct(s.home, s.log, OwnEvent(s.procs[p]), s.procs[p].pc.task.edit, c) == Some(r)
    ensures var pr := s.procs[p];
            Stepped(w, s, p, At(s, p, WithEdit(pr.pc.task, r.edit), pr.pc.starting).(home := r.home, log := r.log))
  {
    hide Ready, OwnOk, OwnDirs, Bystanders, MakesNone, EditAct, NewText, Bytes, SharedFree, Stepped, OwnEvent;
    var pr := s.procs[p];
    ReadyOwner(w, s, p);
    EditOwnOk(s.dirs, s.home, s.log, pr, c, r);
    OwnEventFrom(pr);
    hide EventFrom;
    OwnerStep(w, s, p, Doing(pr, WithEdit(pr.pc.task, r.edit), pr.pc.starting), s.dirs, r.home, r.log);
  }

  lemma UpdateStep(w: World, s: State, p: Pid, c: Choice, s': State)
    requires Ready(w, s, p) && s.procs[p].pc.Owning? && s.procs[p].job.Prepare? && UpdateAct(s, p, c) == Some(s')
    ensures Stepped(w, s, p, s')
  {
    assert p in s.procs;
    var pr := s.procs[p];
    if pr.pc.task.Service? || pr.pc.task.Private? {
      WritingStep(w, s, p, c, s');
    } else {
      if pr.pc.task.Idle? { IdleStarted(w, s, p); }
      hide Ready, Stepped, SharedFree, EditAct, PrivateAct, Accepts, AcceptsSecret, Shares;
      match pr.pc.task
      case AwaitingUpdate(secret) =>
        if c.Go? { LockUpdateStep(w, s, p); } else { UpdateFailsStep(w, s, p); }
      case Updating(secret, edit) =>
        if edit.Committed? { CommittedStep(w, s, p, secret, edit.clean); }
        else if edit.Broken? { UpdateFailsStep(w, s, p); }
        else { OwnEditStep(w, s, p, c, EditAct(s.home, s.log, OwnEvent(pr), edit, c).value); }
      case Idle(_) =>
        if c.Update? { NextCallStep(w, s, p, c.secret); } else { StartCloseStep(w, s, p); }
      case _ =>
    }
  }

  lemma WritingStep(w: World, s: State, p: Pid, c: Choice, s': State)
    requires p in s.procs && Ready(w, s, p) && s.procs[p].pc.Owning?
    requires s.procs[p].pc.task.Service? || s.procs[p].pc.task.Private?
    requires s.procs[p].job.Prepare? && UpdateAct(s, p, c) == Some(s')
    ensures Stepped(w, s, p, s')
  {
    hide Ready, Stepped, PrivateAct, Accepts, AcceptsSecret, ServiceText;
    hide PrivateText, Sharing, StartClose, UpdateFails, UpdateSucceeds;
    WritingOwner(w, s, p);
    var pr := s.procs[p];
    match pr.pc.task
    case Service(write) =>
      if write.Unopened? && !Accepts(pr.job.target) { StartCloseStep(w, s, p); }
      else {
        ServiceStep(w, s, p, c,
          PrivateAct(s, pr.pc.session, SERVICE, ServiceText(pr.job.target, pr.job.port), write, c).value);
      }
    case Private(secret, write) =>
      if write.Unopened? && !AcceptsSecret(secret) { UpdateFailsStep(w, s, p); }
      else {
        PrivateStep(w, s, p, c,
          PrivateAct(s, pr.pc.session, PASSFILE, PrivateText(pr.job.target, pr.job.port, secret), write, c).value);
      }
    case _ =>
  }

  lemma WritingOwner(w: World, s: State, p: Pid)
    requires Ready(w, s, p) && s.procs[p].pc.Owning? && (s.procs[p].pc.task.Service? || s.procs[p].pc.task.Private?)
    ensures s.procs[p].job.Prepare? && s.procs[p].pc.session in s.dirs
    ensures s.procs[p].pc.task.Service? && !s.procs[p].pc.task.write.Unopened? ==> Accepts(s.procs[p].job.target)
    ensures s.procs[p].pc.task.Private? && !s.procs[p].pc.task.write.Unopened? ==>
      AcceptsSecret(s.procs[p].pc.task.secret)
  {
    ReadyOwner(w, s, p);
    hide Ready, EditOk, PublishedOk, PrivateOk, Accepts, AcceptsSecret;
  }

  lemma IdleStarted(w: World, s: State, p: Pid)
    requires Ready(w, s, p) && s.procs[p].pc.Owning? && s.procs[p].pc.task.Idle?
    ensures !s.procs[p].pc.starting
  {
    ReadyOwner(w, s, p);
    hide Ready, EditOk, PublishedOk, PrivateOk;
  }

  // Close

  lemma CloseTaskStep(w: World, s: State, p: Pid, task: Task)
    requires p in s.procs && Ready(w, s, p) && s.procs[p].pc.Owning? && !s.procs[p].pc.task.Released?
    requires task.Removing? || task.Released?
    requires task == Removing(true) ==> Cleared(s.procs[p])
    ensures Stepped(w, s, p, At(s, p, task, s.procs[p].pc.starting))
  {
    hide Ready, OwnOk, OwnDirs, Stepped, Cleared;
    ReadyOwner(w, s, p);
    EndingOk(s.dirs, s.home, s.log, s.procs[p], s.dirs, task);
    OwnerTask(w, s, p, task, s.procs[p].pc.starting);
  }

  lemma RemovedBlockStep(w: World, s: State, p: Pid)
    requires p in s.procs && Ready(w, s, p) && s.procs[p].pc.Owning? && s.procs[p].pc.task.Closing?
    requires s.procs[p].pc.task.edit.Committed?
    ensures forall ok :: Stepped(w, s, p, At(s, p, Removing(ok), s.procs[p].pc.starting))
  {
    ReadyOwner(w, s, p);
    assert Cleared(s.procs[p]);
    hide Ready, OwnOk, OwnDirs, Stepped, Cleared;
    forall ok ensures Stepped(w, s, p, At(s, p, Removing(ok), s.procs[p].pc.starting)) {
      CloseTaskStep(w, s, p, Removing(ok));
    }
  }

  lemma LockCloseStep(w: World, s: State, p: Pid)
    requires p in s.procs && Ready(w, s, p) && s.procs[p].pc.Owning? && s.procs[p].pc.task.AwaitingClose?
    requires SharedFree(s)
    ensures Stepped(w, s, p, At(s, p, Closing(Reading), s.procs[p].pc.starting))
  {
    hide Ready, OwnOk, OwnDirs, Stepped, SharedFree;
    ReadyOwner(w, s, p);
    ReadingOk(s.dirs, s.home, s.log, s.procs[p]);
    OwnerTask(w, s, p, Closing(Reading), s.procs[p].pc.starting);
  }

  lemma RemovingOwner(w: World, s: State, p: Pid)
    requires Ready(w, s, p) && s.procs[p].pc.Owning? && s.procs[p].pc.task.Removing?
    ensures s.procs[p].pc.task.ok ==> Cleared(s.procs[p]) || !Sharing(s.procs[p])
    ensures s.procs[p].pc.session in s.dirs
  {
    ReadyOwner(w, s, p);
    hide Ready, OwnOk, Shares;
  }

  lemma RemoveFileStep(w: World, s: State, p: Pid, file: string)
    requires p in s.procs && Ready(w, s, p) && s.procs[p].pc.Owning? && s.procs[p].pc.task.Removing?
    requires s.procs[p].pc.session in s.dirs
    ensures Stepped(w, s, p, s.(dirs := WithoutFile(s, s.procs[p].pc.session, file)))
  {
    hide Ready, OwnOk, OwnDirs, Stepped, Cleared, Sharing;
    var pr := s.procs[p];
    var dirs := WithoutFile(s, pr.pc.session, file);
    ReadyOwner(w, s, p);
    RemovingOwner(w, s, p);
    EndingOk(s.dirs, s.home, s.log, pr, dirs, pr.pc.task);
    assert Doing(pr, pr.pc.task, pr.pc.starting) == pr;
    OwnDirsUpdate(s, pr.pc.session, dirs[pr.pc.session]);
    OwnFileStep(w, s, p, pr, dirs);
    assert With(s, p, pr, dirs, s.home, s.log) == s.(dirs := dirs) by { assert s.procs[p := pr] == s.procs; }
  }

  lemma RemoveDirStep(w: World, s: State, p: Pid)
    requires p in s.procs && Ready(w, s, p) && s.procs[p].pc.Owning? && s.procs[p].pc.task.Removing?
    requires s.procs[p].pc.session in s.dirs
    ensures var pr := s.procs[p];
            Stepped(w, s, p, At(s, p, Released(pr.pc.task.ok), pr.pc.starting).(dirs := s.dirs - {pr.pc.session}))
  {
    hide Ready, OwnOk, OwnDirs, Stepped;
    var pr := s.procs[p];
    var task := Released(pr.pc.task.ok);
    ReadyOwner(w, s, p);
    EndingOk(s.dirs, s.home, s.log, pr, s.dirs - {pr.pc.session}, task);
    OwnDirsUpdate(s, pr.pc.session, s.dirs[pr.pc.session]);
    OwnFileStep(w, s, p, Doing(pr, task, pr.pc.starting), s.dirs - {pr.pc.session});
  }

  lemma CloseStep(w: World, s: State, p: Pid, c: Choice, s': State)
    requires Ready(w, s, p) && s.procs[p].pc.Owning? && s.procs[p].job.Prepare? && CloseAct(s, p, c) == Some(s')
    ensures Stepped(w, s, p, s')
  {
    assert p in s.procs;
    var pr := s.procs[p];
    hide Ready, Stepped, SharedFree, EditAct, Shares;
    match pr.pc.task {
      case AwaitingClose => if c.Go? { LockCloseStep(w, s, p); } else { CloseTaskStep(w, s, p, Removing(false)); }
      case Closing(edit) =>
        if edit.Committed? { RemovedBlockStep(w, s, p); }
        else if edit.Broken? { CloseTaskStep(w, s, p, Removing(false)); }
        else { OwnEditStep(w, s, p, c, EditAct(s.home, s.log, OwnEvent(pr), edit, c).value); }
      case Removing(_) =>
        RemovingOwner(w, s, p);
        if c.Pick? { RemoveFileStep(w, s, p, c.name); }
        else if c.Go? { RemoveDirStep(w, s, p); }
        else { CloseTaskStep(w, s, p, Released(false)); }
      case Released(_) => EndStep(w, s, p, Finished);
      case _ =>
    }
  }

  // ---- Any step ----

  lemma AnyStep(w: World, s: State, p: Pid, c: Choice, s': State)
    requires Ready(w, s, p) && Act(w, s, p, c) == Some(s')
    ensures Stepped(w, s, p, s')
  {
    assert p in s.procs;
    hide Ready, Stepped, RootAct, SweepAct, MakeAct, PruneAct, CloseAct, UpdateAct;
    var pc := s.procs[p].pc;
    if c.Kill? { EndStep(w, s, p, Crashed); }
    else if pc.Waiting? || pc.Listing? { RootStep(w, s, p, c, s'); }
    else if pc.Sweeping? || pc.Opened? || pc.Locked? || pc.Swept? { SweepStep(w, s, p, c, s'); }
    else if pc.Recovered? || pc.Made? { MakeStep(w, s, p, c, s'); }
    else if !pc.Owning? { PruneStep(w, s, p, c, s'); }
    else if Ending(pc.task) { CloseStep(w, s, p, c, s'); }
    else { UpdateStep(w, s, p, c, s'); }
  }
}
