/** Every call ends: a bound on the steps of a call that meets no error and no interference,
    and the run in which it reaches its end. */
module SessionEnds {
  import opened Text
  import opened AtomicFile
  import opened Blocks
  import opened SharedFile
  import opened ClientFiles
  import opened Sessions
  import opened SessionInvariant
  import opened SessionTheorems
  import opened SessionRuns
  import opened SessionProgress

  // ---- How much a call has still to do ----

  function WriteRank(write: Write): nat {
    match write
    case Unopened => 2
    case Filling(_) => 1
    case _ => 0
  }

  function EditRank(edit: Edit): nat {
    match edit
    case Reading => 4
    case Editing(_, write) => 1 + WriteRank(write)
    case _ => 0
  }

  function TaskRank(task: Task): nat {
    match task
    case Service(write) => 18 + WriteRank(write)
    case Private(_, write) => 15 + WriteRank(write)
    case AwaitingUpdate(_) => 14
    case Updating(_, edit) => 9 + EditRank(edit)
    case AwaitingClose => 8
    case Closing(edit) => 3 + EditRank(edit)
    case Removing(_) => 2
    case Released(_) => 1
    case Idle(_) => 0
  }

  /** What looks like a copy of the password file. */
  function Copies(home: Directory): set<string> { set n | n in home && IsLeftover(SHARED, n) }

  function SharedRank(s: State): (r: nat)
    ensures r >= 48
  {
    48 + 6 * |LinesOf(Bytes(s.home))| + |Copies(s.home)|
  }

  /** A sweep over `k` directories of at most `m` files. */
  function SweepRank(k: nat, m: nat): nat { if k == 0 then 0 else m + 4 + SweepRank(k - 1, m) }

  /** A bound on the steps that the call of `p` has still to make, partial writes not counted. */
  function Rank(s: State, p: Pid, m: nat): nat
    requires p in s.procs
  {
    match s.procs[p].pc
    case Waiting => SharedRank(s) + 3 + SweepRank(|s.dirs|, m)
    case Listing => SharedRank(s) + 2 + SweepRank(|s.dirs|, m)
    case Sweeping(todo) => SharedRank(s) + 1 + SweepRank(|todo|, m)
    case Opened(todo, _) => SharedRank(s) + SweepRank(|todo|, m)
    case Locked(todo, _) =>
      if todo == [] then 0 else SharedRank(s) + 3 + |Remaining(s, todo[0])| + SweepRank(|todo| - 1, m)
    case Swept(todo, _) => if todo == [] then 0 else SharedRank(s) + 2 + SweepRank(|todo| - 1, m)
    case AwaitingShared => SharedRank(s)
    case Cleaning => 47 + 6 * |LinesOf(Bytes(s.home))| + |Copies(s.home)|
    case Deleting(leftovers) => 46 + 6 * |LinesOf(Bytes(s.home))| + |leftovers|
    case Loading => 45 + 6 * |LinesOf(Bytes(s.home))|
    case Pruning(lines) => 44 + 6 * |lines|
    case PruneEdit(_, lines, edit) => 45 + 6 * |lines| + EditRank(edit)
    case Pruned => 43
    case Recovered => 42
    case Made(session, _) => 41 + |Remaining(s, session)|
    case Owning(session, _, task, _) => if task.Idle? then 0 else 2 * TaskRank(task) + |Remaining(s, session)|
    case Finished => 0
    case Crashed => 0
  }

  /** While directories are swept none has more than `m` files. */
  ghost predicate FewFiles(s: State, p: Pid, m: nat)
    requires p in s.procs
  {
    var pc := s.procs[p].pc;
    !pc.Made? && !pc.Owning? && !Over(pc) ==> forall n | n in s.dirs :: |s.dirs[n].files| <= m
  }

  /** Before the session's directory is made. */
  predicate Early(pc: Pc) { pc.Waiting? || Recovers(pc) }

  /** An error-free step that may also write a part of a file. */
  predicate Smooth(c: Choice) { Advances(c) || Partial(c) }

  predicate Partial(c: Choice) { c.Writes? && c.io.Fills? }

  function Cost(c: Choice): nat { if Partial(c) then 0 else 1 }

  // ---- Every step does some of it ----

  lemma Fewer(a: set<string>, x: string)
    requires x in a
    ensures |a - {x}| == |a| - 1
  {}

  lemma NoMore(a: set<string>, b: set<string>)
    requires a <= b
    ensures |a| <= |b|
  {
    if a != {} {
      var x :| x in a;
      NoMore(a - {x}, b - {x});
    }
  }

  lemma ListingRank(w: World, s: State, p: Pid, c: Choice, s': State, m: nat)
    requires p in s.procs && RootAct(w, s, p, c) == Some(s') && FewFiles(s, p, m) && Smooth(c)
    ensures p in s'.procs && FewFiles(s', p, m) && Rank(s', p, m) < Rank(s, p, m)
  {
    hide SharedRank, Abandoned, RootFree;
    assert SharedRank(s') == SharedRank(s) by { SameShared(s, s'); }
  }

  lemma SameShared(s: State, s': State)
    requires s'.home == s.home
    ensures SharedRank(s') == SharedRank(s)
  {}

  lemma SweepingRank(s: State, p: Pid, c: Choice, s': State, m: nat)
    requires p in s.procs && SweepAct(s, p, c) == Some(s') && FewFiles(s, p, m) && SweepOk(s.dirs, s.procs[p].pc)
    requires Smooth(c)
    ensures p in s'.procs && FewFiles(s', p, m) && Rank(s', p, m) < Rank(s, p, m)
  {
    hide SharedRank, Smooth, Remaining, SweepAct, FewFiles;
    SweepFrame(s, p, c, s', m);
    SameShared(s, s');
    SweepPc(s, p, c, s', m);
  }

  lemma SweepFrame(s: State, p: Pid, c: Choice, s': State, m: nat)
    requires p in s.procs && SweepAct(s, p, c) == Some(s') && FewFiles(s, p, m) && Smooth(c)
    ensures p in s'.procs && s'.home == s.home && FewFiles(s', p, m)
  {
    hide SweepAct;
    SweepDirs(s, p, c, s');
    forall n | n in s'.dirs ensures |s'.dirs[n].files| <= |s.dirs[n].files| {
      NoMore(s'.dirs[n].files.Keys, s.dirs[n].files.Keys);
    }
  }

  lemma SweepDirs(s: State, p: Pid, c: Choice, s': State)
    requires p in s.procs && SweepAct(s, p, c) == Some(s') && Smooth(c)
    ensures p in s'.procs && s'.home == s.home
    ensures !s.procs[p].pc.Made? && !s.procs[p].pc.Owning? && !Over(s.procs[p].pc)
    ensures forall n | n in s'.dirs :: n in s.dirs && s'.dirs[n].files.Keys <= s.dirs[n].files.Keys
  {
    hide FlockFree, SHARED;
  }

  /** Where a step of the sweep leads. */
  lemma SweepPc(s: State, p: Pid, c: Choice, s': State, m: nat)
    requires p in s.procs && SweepAct(s, p, c) == Some(s') && FewFiles(s, p, m) && SweepOk(s.dirs, s.procs[p].pc)
    requires Smooth(c)
    ensures p in s'.procs
    ensures var pc, pc' := s.procs[p].pc, s'.procs[p].pc;
      match pc
      case Sweeping(todo) =>
        if todo == [] then pc'.AwaitingShared? || pc'.Recovered?
        else (pc'.Opened? && pc'.todo == todo) || pc' == Sweeping(todo[1..])
      case Opened(todo, _) =>
        todo != [] && (pc' == Sweeping(todo[1..]) || (pc'.Locked? && pc'.todo == todo && |Remaining(s', todo[0])| <= m))
      case Locked(todo, i) =>
        todo != [] && (pc' == Swept(todo, i) || (pc' == pc && |Remaining(s', todo[0])| < |Remaining(s, todo[0])|))
      case Swept(todo, _) => todo != [] && pc' == Sweeping(todo[1..])
      case _ => false
  {
    hide FlockFree, SHARED, Remaining;
    var pc := s.procs[p].pc;
    if pc.Opened? { OpenedFiles(s, p, c, s', m); }
    if pc.Locked? && c.Pick? {
      InRemaining(s, pc.todo[0], c.name);
      FileGone(s, pc.todo[0], c.name);
    }
  }

  lemma OpenedFiles(s: State, p: Pid, c: Choice, s': State, m: nat)
    requires p in s.procs && SweepAct(s, p, c) == Some(s') && FewFiles(s, p, m) && s.procs[p].pc.Opened?
    requires s.procs[p].pc.todo != []
    ensures |Remaining(s', s.procs[p].pc.todo[0])| <= m
  {
    hide FlockFree, SHARED;
  }

  lemma InRemaining(s: State, name: string, file: string)
    requires file in Remaining(s, name)
    ensures name in s.dirs
  {}

  lemma FileGone(s: State, name: string, file: string)
    requires file in Remaining(s, name) && name in s.dirs
    ensures |Remaining(s.(dirs := WithoutFile(s, name, file)), name)| == |Remaining(s, name)| - 1
  {
    assert Remaining(s.(dirs := WithoutFile(s, name, file)), name) == Remaining(s, name) - {file};
    Fewer(Remaining(s, name), file);
  }

  lemma PruningRank(s: State, p: Pid, c: Choice, s': State, m: nat)
    requires p in s.procs && PruneAct(s, p, c) == Some(s') && FewFiles(s, p, m) && CleanOk(s.home, s.procs[p].pc)
    requires Smooth(c)
    ensures p in s'.procs && FewFiles(s', p, m) && Rank(s', p, m) + Cost(c) <= Rank(s, p, m)
  {
    hide LinesOf, IsLeftover, BlockSession, Missing, SharedFree, EditAct, Bytes, CleanOk, Smooth;
    PruneFrame(s, p, c, s', m);
    if s.procs[p].pc.Deleting? {
      DeletingRank(s, p, c, s', m);
    } else if s.procs[p].pc.PruneEdit? {
      PruneEditRank(s, p, c, s', m);
    } else {
      MovingRank(s, p, c, s', m);
    }
  }

  lemma PruneFrame(s: State, p: Pid, c: Choice, s': State, m: nat)
    requires p in s.procs && PruneAct(s, p, c) == Some(s') && FewFiles(s, p, m)
    ensures p in s'.procs && FewFiles(s', p, m)
  {
    hide PruneAct;
    PruneDirs(s, p, c, s');
  }

  lemma PruneDirs(s: State, p: Pid, c: Choice, s': State)
    requires p in s.procs && PruneAct(s, p, c) == Some(s')
    ensures p in s'.procs && s'.dirs == s.dirs
    ensures !s.procs[p].pc.Made? && !s.procs[p].pc.Owning? && !Over(s.procs[p].pc)
  {
    hide LinesOf, IsLeftover, BlockSession, Missing, SharedFree, EditAct, SHARED;
  }

  lemma DeletingRank(s: State, p: Pid, c: Choice, s': State, m: nat)
    requires p in s.procs && PruneAct(s, p, c) == Some(s') && CleanOk(s.home, s.procs[p].pc) && Smooth(c)
    requires s.procs[p].pc.Deleting?
    ensures p in s'.procs && Rank(s', p, m) < Rank(s, p, m)
  {
    hide LinesOf, PruneAct, Bytes, SharedRank, Smooth, CleanOk;
    DeletingPc(s, p, c, s');
  }

  lemma DeletingPc(s: State, p: Pid, c: Choice, s': State)
    requires p in s.procs && PruneAct(s, p, c) == Some(s') && CleanOk(s.home, s.procs[p].pc) && Smooth(c)
    requires s.procs[p].pc.Deleting?
    ensures p in s'.procs && Bytes(s'.home) == Bytes(s.home)
    ensures s'.procs[p].pc == Loading ||
      (s'.procs[p].pc.Deleting? && |s'.procs[p].pc.leftovers| < |s.procs[p].pc.leftovers|)
  {
    hide LinesOf, IsLeftover, EditAct, OnlyTemp;
    var leftovers := s.procs[p].pc.leftovers;
    if c.Pick? {
      Fewer(leftovers, c.name);
      TargetIsNoLeftover(SHARED);
    }
  }

  lemma PruneEditRank(s: State, p: Pid, c: Choice, s': State, m: nat)
    requires p in s.procs && PruneAct(s, p, c) == Some(s') && Smooth(c) && s.procs[p].pc.PruneEdit?
    ensures p in s'.procs && Rank(s', p, m) + Cost(c) <= Rank(s, p, m)
  {
    hide LinesOf, IsLeftover, BlockSession, Missing, SharedFree, EditAct, Smooth, Bytes;
    var pc := s.procs[p].pc;
    if pc.edit.Reading? || pc.edit.Editing? {
      EditFalls(s.home, s.log, Event.Removed(pc.name), pc.edit, c);
    }
  }

  lemma MovingRank(s: State, p: Pid, c: Choice, s': State, m: nat)
    requires p in s.procs && PruneAct(s, p, c) == Some(s') && Smooth(c) && !s.procs[p].pc.PruneEdit?
    requires !s.procs[p].pc.Deleting?
    ensures p in s'.procs && Rank(s', p, m) < Rank(s, p, m)
  {
    hide LinesOf, IsLeftover, PruneAct, Smooth, Bytes, SHARED;
    MovingPc(s, p, c, s');
  }

  lemma MovingPc(s: State, p: Pid, c: Choice, s': State)
    requires p in s.procs && PruneAct(s, p, c) == Some(s') && Smooth(c) && !s.procs[p].pc.PruneEdit?
    requires !s.procs[p].pc.Deleting?
    ensures p in s'.procs && s'.home == s.home
    ensures var pc, pc' := s.procs[p].pc, s'.procs[p].pc;
      match pc
      case AwaitingShared => pc' == Cleaning
      case Cleaning => pc' == Deleting(Copies(s.home))
      case Loading => pc' == Pruned || pc' == Pruning(LinesOf(Bytes(s.home)))
      case Pruning(lines) =>
        if lines == [] then pc' == Pruned
        else pc' == Pruning(lines[1..]) || (pc'.PruneEdit? && pc'.lines == lines[1..] && pc'.edit == Reading)
      case Pruned => pc' == Recovered
      case _ => false
  {
    hide LinesOf, IsLeftover, BlockSession, Missing, SharedFree, EditAct;
  }

  lemma EditFalls(home: Directory, log: seq<Event>, event: Event, edit: Edit, c: Choice)
    requires EditAct(home, log, event, edit, c).Some? && Smooth(c)
    ensures EditRank(EditAct(home, log, event, edit, c).value.edit) + Cost(c) <= EditRank(edit)
  {
    hide NewText, IsTemp;
  }

  lemma MakingRank(w: World, s: State, p: Pid, c: Choice, s': State, m: nat)
    requires p in s.procs && MakeAct(w, s, p, c) == Some(s') && Smooth(c)
    ensures p in s'.procs && FewFiles(s', p, m) && Rank(s', p, m) < Rank(s, p, m)
    ensures Early(s'.procs[p].pc) ==> Early(s.procs[p].pc)
  {
    hide FlockFree, SharedRank, SweepRank;
    MadePc(w, s, p, c, s');
  }

  lemma MadePc(w: World, s: State, p: Pid, c: Choice, s': State)
    requires p in s.procs && MakeAct(w, s, p, c) == Some(s') && Smooth(c)
    ensures p in s'.procs
    ensures match s.procs[p].pc
      case Recovered =>
        s'.procs[p].pc.Finished? || (s'.procs[p].pc.Made? && Remaining(s', s'.procs[p].pc.session) == {})
      case Made(n, i) => s'.procs[p].pc == Owning(n, i, Service(Unopened), true) && s'.dirs == s.dirs
      case _ => false
  {
    hide FlockFree;
  }

  lemma WriteFalls(files: Directory, base: string, data: string, write: Write, io: Io, r: Step)
    requires Holding(files, base, data, write) && WriteAct(files, base, data, write, io) == Some(r)
    requires Smooth(Writes(io))
    ensures WriteRank(r.write) + Cost(Writes(io)) <= WriteRank(write) || r.write.Written?
    ensures r.write.Filling? || r.write.Filled? || r.write.Written?
    ensures r.write.Written? ==> Cost(Writes(io)) == 1
  {
    hide IsTemp, Part;
  }

  lemma WriteGrows(files: Directory, base: string, data: string, write: Write, io: Io, r: Step)
    requires Holding(files, base, data, write) && WriteAct(files, base, data, write, io) == Some(r)
    requires Smooth(Writes(io))
    ensures |r.files.Keys| <= |files.Keys| + Cost(Writes(io))
  {
    assert write.Unopened? ==> io.Opens?;
    hide IsTemp, Part, Smooth;
    if write.Unopened? {
      OneMore(files, r.files, io.temp);
    } else {
      WriteSwaps(files, base, data, write, io, r);
    }
  }

  lemma OneMore(files: Directory, files': Directory, name: string)
    requires files'.Keys == files.Keys + {name}
    ensures |files'.Keys| <= |files.Keys| + 1
  {}

  lemma WriteSwaps(files: Directory, base: string, data: string, write: Write, io: Io, r: Step)
    requires Holding(files, base, data, write) && WriteAct(files, base, data, write, io) == Some(r)
    requires Smooth(Writes(io))
    requires !write.Unopened?
    ensures |r.files.Keys| <= |files.Keys|
  {
    hide IsTemp, Part;
    if write.Filling? {
      assert r.files.Keys == files.Keys;
    } else {
      Fewer(files.Keys, write.temp);
      Fewest(files.Keys - {write.temp}, base);
      assert r.files.Keys == files.Keys - {write.temp} + {base};
    }
  }

  lemma Fewest(a: set<string>, x: string)
    ensures |a + {x}| <= |a| + 1
  {}

  /** The owner's call comes closer to its end, and its directory gets at most one more file. */
  ghost predicate OwnerFalls(s: State, p: Pid, c: Choice, s': State)
    requires p in s.procs && s.procs[p].pc.Owning?
  {
    && p in s'.procs && s'.procs[p].pc.Owning?
    && var session := s.procs[p].pc.session;
      && s'.procs[p].pc.session == session
      && TaskRank(s'.procs[p].pc.task) + Cost(c) <= TaskRank(s.procs[p].pc.task)
      && |Remaining(s', session)| <= |Remaining(s, session)| + Cost(c)
  }

  /** One operation on a private file, and what it leads to. */
  lemma PrivateFalls(s: State, session: string, base: string, text: string, write: Write, c: Choice, r: Step)
    requires PrivateAct(s, session, base, text, write, c) == Some(r) && session in s.dirs && Smooth(c)
    requires Holding(s.dirs[session].files, base, text, write)
    ensures WriteRank(r.write) + Cost(c) <= WriteRank(write) || r.write.Written?
    ensures r.write.Filling? || r.write.Filled? || r.write.Written?
    ensures r.write.Written? ==> Cost(c) == 1
    ensures |Remaining(Stored(s, session, r.files), session)| <= |Remaining(s, session)| + Cost(c)
  {
    hide Holding, WriteAct, Smooth, Cost, WriteRank;
    WriteFalls(s.dirs[session].files, base, text, write, c.io, r);
    WriteGrows(s.dirs[session].files, base, text, write, c.io, r);
  }

  lemma ServiceFalls(s: State, p: Pid, c: Choice, s': State)
    requires p in s.procs && s.procs[p].job.Prepare? && s.procs[p].pc.Owning? && s.procs[p].pc.task.Service?
    requires UpdateAct(s, p, c) == Some(s') && Smooth(c)
    requires s.procs[p].pc.session in s.dirs && FilesOk(s.dirs[s.procs[p].pc.session].files, s.procs[p])
    ensures OwnerFalls(s, p, c, s')
  {
    hide PrivateAct, Accepts, ServiceText, Holding, Smooth, Shares;
    var pr := s.procs[p];
    var write := pr.pc.task.write;
    var text := ServiceText(pr.job.target, pr.job.port);
    if !(write.Unopened? && !Accepts(pr.job.target)) {
      var r := PrivateAct(s, pr.pc.session, SERVICE, text, write, c).value;
      PrivateFalls(s, pr.pc.session, SERVICE, text, write, c, r);
    }
  }

  lemma PasswordFalls(s: State, p: Pid, c: Choice, s': State)
    requires p in s.procs && s.procs[p].job.Prepare? && s.procs[p].pc.Owning? && s.procs[p].pc.task.Private?
    requires UpdateAct(s, p, c) == Some(s') && Smooth(c)
    requires s.procs[p].pc.session in s.dirs && FilesOk(s.dirs[s.procs[p].pc.session].files, s.procs[p])
    ensures OwnerFalls(s, p, c, s')
  {
    var task := s.procs[p].pc.task;
    hide UpdateAct, FilesOk, OwnerFalls, AcceptsSecret, Smooth;
    if task.write.Unopened? && !AcceptsSecret(task.secret) {
      PasswordRefused(s, p, c, s');
    } else {
      PasswordWritten(s, p, c, s');
    }
  }

  lemma PasswordRefused(s: State, p: Pid, c: Choice, s': State)
    requires p in s.procs && s.procs[p].job.Prepare? && s.procs[p].pc.Owning? && s.procs[p].pc.task.Private?
    requires UpdateAct(s, p, c) == Some(s') && Smooth(c)
    requires s.procs[p].pc.task.write.Unopened? && !AcceptsSecret(s.procs[p].pc.task.secret)
    ensures OwnerFalls(s, p, c, s')
  {
    hide PrivateAct, AcceptsSecret, PrivateText, Smooth, Shares;
  }

  lemma PasswordWritten(s: State, p: Pid, c: Choice, s': State)
    requires p in s.procs && s.procs[p].job.Prepare? && s.procs[p].pc.Owning? && s.procs[p].pc.task.Private?
    requires UpdateAct(s, p, c) == Some(s') && Smooth(c)
    requires s.procs[p].pc.session in s.dirs && FilesOk(s.dirs[s.procs[p].pc.session].files, s.procs[p])
    requires !(s.procs[p].pc.task.write.Unopened? && !AcceptsSecret(s.procs[p].pc.task.secret))
    ensures OwnerFalls(s, p, c, s')
  {
    hide PrivateAct, AcceptsSecret, PrivateText, Holding, Smooth, Shares, FilesOk, WriteRank;
    var pr := s.procs[p];
    PasswordHolding(s.dirs[pr.pc.session].files, pr);
    var secret, write := pr.pc.task.secret, pr.pc.task.write;
    var text := PrivateText(pr.job.target, pr.job.port, secret);
    var r := PrivateAct(s, pr.pc.session, PASSFILE, text, write, c).value;
    PrivateFalls(s, pr.pc.session, PASSFILE, text, write, c, r);
    NewWrite();
  }

  lemma NewWrite()
    ensures WriteRank(Unopened) == 2
  {}

  lemma PasswordHolding(files: Directory, pr: Proc)
    requires pr.job.Prepare? && pr.pc.Owning? && pr.pc.task.Private? && FilesOk(files, pr)
    ensures Holding(files, PASSFILE, PrivateText(pr.job.target, pr.job.port, pr.pc.task.secret), pr.pc.task.write)
  {}

  lemma SharingFalls(s: State, p: Pid, c: Choice, s': State)
    requires p in s.procs && s.procs[p].job.Prepare? && s.procs[p].pc.Owning?
    requires s.procs[p].pc.task.AwaitingUpdate? || s.procs[p].pc.task.Updating?
    requires UpdateAct(s, p, c) == Some(s') && Smooth(c)
    ensures OwnerFalls(s, p, c, s')
  {
    hide EditAct, Smooth, Shares, SharedFree, OwnEvent;
    var pr := s.procs[p];
    if pr.pc.task.Updating? && (pr.pc.task.edit.Reading? || pr.pc.task.edit.Editing?) {
      EditFalls(s.home, s.log, OwnEvent(pr), pr.pc.task.edit, c);
    }
  }

  lemma UpdateRank(s: State, p: Pid, c: Choice, s': State, m: nat)
    requires p in s.procs && s.procs[p].job.Prepare? && s.procs[p].pc.Owning?
    requires UpdateAct(s, p, c) == Some(s') && Smooth(c)
    requires var pr := s.procs[p];
      pr.pc.task.Service? || pr.pc.task.Private? ==> pr.pc.session in s.dirs && FilesOk(s.dirs[pr.pc.session].files, pr)
    ensures p in s'.procs && FewFiles(s', p, m) && Rank(s', p, m) + Cost(c) <= Rank(s, p, m)
    ensures !Early(s'.procs[p].pc)
  {
    hide UpdateAct, FilesOk, Smooth, OwnerFalls;
    UpdateTasks(s, p, c);
    var task := s.procs[p].pc.task;
    if task.Service? {
      ServiceFalls(s, p, c, s');
    } else if task.Private? {
      PasswordFalls(s, p, c, s');
    } else {
      SharingFalls(s, p, c, s');
    }
    FallsRank(s, p, c, s', m);
  }

  lemma FallsRank(s: State, p: Pid, c: Choice, s': State, m: nat)
    requires p in s.procs && s.procs[p].pc.Owning? && !s.procs[p].pc.task.Idle? && OwnerFalls(s, p, c, s')
    ensures p in s'.procs && FewFiles(s', p, m) && Rank(s', p, m) + Cost(c) <= Rank(s, p, m)
    ensures !Early(s'.procs[p].pc)
  {
    hide Remaining, SharedRank, SweepRank;
  }

  lemma UpdateTasks(s: State, p: Pid, c: Choice)
    requires p in s.procs && s.procs[p].job.Prepare? && s.procs[p].pc.Owning? && UpdateAct(s, p, c).Some? && Smooth(c)
    ensures var task := s.procs[p].pc.task; task.Service? || task.Private? || task.AwaitingUpdate? || task.Updating?
  {}

  lemma EndingRank(s: State, p: Pid, c: Choice, s': State, m: nat)
    requires p in s.procs && s.procs[p].job.Prepare? && s.procs[p].pc.Owning?
    requires CloseAct(s, p, c) == Some(s') && Smooth(c)
    ensures p in s'.procs && FewFiles(s', p, m) && Rank(s', p, m) + Cost(c) <= Rank(s, p, m)
    ensures !Early(s'.procs[p].pc)
  {
    hide CloseAct, Smooth, SharedRank, SweepRank, Remaining;
    EndingPc(s, p, c, s');
  }

  lemma EndingPc(s: State, p: Pid, c: Choice, s': State)
    requires p in s.procs && s.procs[p].job.Prepare? && s.procs[p].pc.Owning?
    requires CloseAct(s, p, c) == Some(s') && Smooth(c)
    ensures p in s'.procs
    ensures var pc, pc' := s.procs[p].pc, s'.procs[p].pc;
      || (pc.task.Released? && Cost(c) == 1 && pc' == Finished)
      || (pc'.Owning? && pc'.session == pc.session && Ending(pc'.task)
          && TaskRank(pc'.task) + Cost(c) <= TaskRank(pc.task)
          && |Remaining(s', pc.session)| <= |Remaining(s, pc.session)|)
      || (pc' == pc && pc.task.Removing? && |Remaining(s', pc.session)| + Cost(c) <= |Remaining(s, pc.session)|)
  {
    hide CloseAct, Smooth, Remaining, Cost;
    if s.procs[p].pc.task.Removing? { RemovingPc(s, p, c, s'); } else { ClosingPc(s, p, c, s'); }
  }

  lemma ClosingPc(s: State, p: Pid, c: Choice, s': State)
    requires p in s.procs && s.procs[p].job.Prepare? && s.procs[p].pc.Owning? && !s.procs[p].pc.task.Removing?
    requires CloseAct(s, p, c) == Some(s') && Smooth(c)
    ensures p in s'.procs
    ensures var pc, pc' := s.procs[p].pc, s'.procs[p].pc;
      || (pc.task.Released? && Cost(c) == 1 && pc' == Finished)
      || (pc'.Owning? && pc'.session == pc.session && Ending(pc'.task)
          && TaskRank(pc'.task) + Cost(c) <= TaskRank(pc.task)
          && Remaining(s', pc.session) == Remaining(s, pc.session))
  {
    hide EditAct, Smooth, SharedFree, OwnEvent;
    var pr := s.procs[p];
    if pr.pc.task.Closing? && (pr.pc.task.edit.Reading? || pr.pc.task.edit.Editing?) {
      EditFalls(s.home, s.log, OwnEvent(pr), pr.pc.task.edit, c);
    }
  }

  lemma RemovingPc(s: State, p: Pid, c: Choice, s': State)
    requires p in s.procs && s.procs[p].job.Prepare? && s.procs[p].pc.Owning? && s.procs[p].pc.task.Removing?
    requires CloseAct(s, p, c) == Some(s') && Smooth(c)
    ensures p in s'.procs && Cost(c) == 1
    ensures var pc, pc' := s.procs[p].pc, s'.procs[p].pc;
      || (pc'.Owning? && pc'.session == pc.session && pc'.task.Released? && Remaining(s', pc.session) == {})
      || (pc' == pc && |Remaining(s', pc.session)| + 1 == |Remaining(s, pc.session)|)
  {
    if c.Pick? { FileGone(s, s.procs[p].pc.session, c.name); }
  }

  /** Each step without an error brings the call closer to its end. */
  lemma StepRank(w: World, s: State, p: Pid, c: Choice, s': State, m: nat)
    requires Inv(w, s) && p in s.procs && FewFiles(s, p, m) && Busy(s.procs[p].pc)
    requires Smooth(c) && Act(w, s, p, c) == Some(s')
    ensures p in s'.procs && FewFiles(s', p, m) && Rank(s', p, m) + Cost(c) <= Rank(s, p, m)
    ensures Early(s'.procs[p].pc) ==> Early(s.procs[p].pc)
  {
    hide Inv, RootAct, SweepAct, PruneAct, MakeAct, CloseAct, UpdateAct, Rank, FewFiles, SweepOk, CleanOk, FilesOk;
    var pc := s.procs[p].pc;
    StepFacts(w, s, p);
    if pc.Waiting? || pc.Listing? {
      ListingRank(w, s, p, c, s', m);
    } else if pc.Sweeping? || pc.Opened? || pc.Locked? || pc.Swept? {
      SweepingRank(s, p, c, s', m);
    } else if pc.Recovered? || pc.Made? {
      MakingRank(w, s, p, c, s', m);
    } else if !pc.Owning? {
      PruningRank(s, p, c, s', m);
    } else if Ending(pc.task) {
      EndingRank(s, p, c, s', m);
    } else {
      OwnerFacts(w, s, p);
      UpdateRank(s, p, c, s', m);
    }
  }

  lemma StepFacts(w: World, s: State, p: Pid)
    requires Inv(w, s) && p in s.procs
    ensures SweepOk(s.dirs, s.procs[p].pc) && CleanOk(s.home, s.procs[p].pc)
    ensures s.procs[p].pc.Owning? ==> s.procs[p].job.Prepare?
  {
    assert ProcOk(w, s, p);
    hide Mutex, Inodes, Ports, ContentOk, DoomOk, PublishedOk, PrivateOk, EditOk, CleanOk, SweepOk;
  }

  // ---- Whole calls ----

  /** Consecutive steps of one call, none of them an error. */
  ghost predicate Calls(w: World, states: seq<State>, choices: seq<Choice>, p: Pid)
    decreases |choices|
  {
    && |states| == |choices| + 1 && p in states[0].procs
    && (choices != [] ==>
          && Busy(states[0].procs[p].pc) && Smooth(choices[0])
          && Act(w, states[0], p, choices[0]) == Some(states[1])
          && Calls(w, states[1..], choices[1..], p))
  }

  /** The steps without the partial writes. */
  function Operations(choices: seq<Choice>): nat {
    if choices == [] then 0 else Cost(choices[0]) + Operations(choices[1..])
  }

  /** A call that meets no error and no interference ends within a number of steps that the
      directories, the lines of the shared file and its copies determine. */
  lemma {:induction false} CallEnds(w: World, states: seq<State>, choices: seq<Choice>, p: Pid, m: nat)
    requires Calls(w, states, choices, p) && Inv(w, states[0]) && FewFiles(states[0], p, m)
    ensures Operations(choices) <= Rank(states[0], p, m)
    decreases |choices|
  {
    hide Inv, Act, Busy, Rank, FewFiles, Smooth, Cost;
    if choices != [] {
      StepRank(w, states[0], p, choices[0], states[1], m);
      ActKeeps(w, states[0], p, choices[0], states[1]);
      CallEnds(w, states[1..], choices[1..], p, m);
    }
  }

  /** In a run, from any of its states. */
  lemma CallsAreBounded(w: World, states: seq<State>, k: nat, choices: seq<Choice>, p: Pid, m: nat)
    requires Run(w, states) && k < |states| && Calls(w, states[k..], choices, p) && FewFiles(states[k], p, m)
    ensures Operations(choices) <= Rank(states[k], p, m)
  {
    hide Run, Calls, Inv, Rank, FewFiles;
    RunInv(w, states, k);
    CallEnds(w, states[k..], choices, p, m);
  }

  /** No other process is in the middle of a locked part. */
  ghost predicate Undisturbed(s: State, p: Pid) {
    forall q | q in s.procs && q != p :: !HoldsRoot(s.procs[q].pc) && !HoldsShared(s.procs[q].pc)
  }

  /** If the call has still to make a directory, there is a name for it. */
  ghost predicate CanMake(w: World, s: State, p: Pid)
    requires p in s.procs
  {
    Early(s.procs[p].pc) ==> NameLeft(w, s)
  }

  lemma UndisturbedGoesOn(w: World, s: State, p: Pid)
    requires Inv(w, s) && p in s.procs && Undisturbed(s, p) && CanMake(w, s, p) && Busy(s.procs[p].pc)
    ensures CanGoOn(w, s, p)
  {
    hide Inv, NameLeft, CanGoOn, HoldsRoot, HoldsShared, Recovers, Busy;
    if HoldsShared(s.procs[p].pc) {
      SharedHolderGoesOn(w, s, p);
    } else if HoldsRoot(s.procs[p].pc) {
      RootHolderGoesOn(w, s, p);
    } else {
      FreeGoesOn(w, s, p);
    }
  }

  lemma StaysUndisturbed(w: World, s: State, p: Pid, s': State)
    requires p in s.procs && Footprint(w, s, p, s') && Undisturbed(s, p) && CanMake(w, s, p)
    requires p in s'.procs && (Early(s'.procs[p].pc) ==> Early(s.procs[p].pc))
    ensures Undisturbed(s', p) && CanMake(w, s', p)
  {
    hide HoldsRoot, HoldsShared, Recovers, LocksStep, TiesStep, FileStep;
    NotEarly(s'.procs[p].pc);
  }

  lemma NotEarly(pc: Pc)
    ensures pc.Made? ==> !Early(pc)
  {}

  /** And it does come to its end: every run can be continued by the rest of the call. */
  lemma {:induction false} CallCompletes(w: World, states: seq<State>, p: Pid, m: nat)
    returns (more: seq<State>, choices: seq<Choice>)
    requires Ran(w, states) && p in Last(states).procs && FewFiles(Last(states), p, m)
    requires Undisturbed(Last(states), p) && CanMake(w, Last(states), p)
    ensures Ran(w, more) && |more| == |states| + |choices| && states <= more
    ensures Calls(w, more[|states| - 1..], choices, p) && |choices| <= Rank(Last(states), p, m)
    ensures p in Last(more).procs && !Busy(Last(more).procs[p].pc)
    decreases Rank(Last(states), p, m)
  {
    hide Run, Inv, Act, Busy, Rank, FewFiles, Footprint, Undisturbed, CanMake, Early;
    var s := Last(states);
    if !Busy(s.procs[p].pc) {
      more, choices := states, [];
    } else {
      RunInv(w, states, |states| - 1);
      UndisturbedGoesOn(w, s, p);
      var c :| Advances(c) && Act(w, s, p, c).Some?;
      var next := Extended(w, states, p, c);
      var s' := Last(next);
      StepRank(w, s, p, c, s', m);
      ActKeeps(w, s, p, c, s');
      StaysUndisturbed(w, s, p, s');
      var rest;
      more, rest := CallCompletes(w, next, p, m);
      choices := [c] + rest;
      Joined(w, states, more, c, rest, p);
    }
  }

  lemma Joined(w: World, states: seq<State>, more: seq<State>, c: Choice, rest: seq<Choice>, p: Pid)
    requires states != [] && |more| == |states| + 1 + |rest| && states <= more
    requires p in Last(states).procs && Busy(Last(states).procs[p].pc) && Smooth(c)
    requires Act(w, Last(states), p, c) == Some(more[|states|]) && Calls(w, more[|states|..], rest, p)
    ensures Calls(w, more[|states| - 1..], [c] + rest, p)
  {
    hide Act, Busy, Smooth;
    var all := more[|states| - 1..];
    assert all[0] == Last(states) && all[1] == more[|states|] && all[1..] == more[|states|..];
    assert ([c] + rest)[1..] == rest;
  }

  // ---- Without an error, calls succeed ----

  predicate Unbroken(edit: Edit) { !edit.Broken? && (edit.Committed? ==> edit.clean) }

  predicate For(pr: Proc, secret: string) {
    && pr.job.Prepare? && Accepts(pr.job.target) && AcceptsSecret(secret)
    && (EarlyOrStarting(pr.pc) ==> pr.job.secret == secret)
  }

  predicate EarlyOrStarting(pc: Pc) { Early(pc) || pc.Made? || (pc.Owning? && pc.starting) }

  /** A Recover, or a Prepare or Update of an accepted `secret`, in which nothing has failed. */
  predicate OnCourse(pr: Proc, secret: string) {
    match pr.pc
    case Finished => pr.job.Cleanup?
    case Crashed => false
    case Made(_, _) => For(pr, secret)
    case PruneEdit(_, _, edit) => Unbroken(edit) && (pr.job.Cleanup? || For(pr, secret))
    case Owning(_, _, task, starting) =>
      For(pr, secret) &&
      (match task
       case Service(_) => starting
       case Private(s, _) => s == secret
       case AwaitingUpdate(s) => s == secret
       case Updating(s, edit) => s == secret && Unbroken(edit)
       case Idle(agreed) => agreed && !starting && pr.acked == Some(secret) && pr.late.None?
       case _ => false)
    case _ => pr.job.Cleanup? || For(pr, secret)
  }

  lemma EditUnbroken(home: Directory, log: seq<Event>, event: Event, edit: Edit, c: Choice)
    requires EditAct(home, log, event, edit, c).Some? && Smooth(c)
    ensures Unbroken(EditAct(home, log, event, edit, c).value.edit)
  {
    hide NewText, IsTemp;
  }

  lemma ListingOnCourse(w: World, s: State, p: Pid, c: Choice, s': State, secret: string)
    requires p in s.procs && OnCourse(s.procs[p], secret) && Smooth(c)
    requires RootAct(w, s, p, c) == Some(s')
    ensures p in s'.procs && OnCourse(s'.procs[p], secret)
  {
    hide Accepts, AcceptsSecret, RootFree, Abandoned;
  }

  lemma SweepOnCourse(s: State, p: Pid, c: Choice, s': State, secret: string)
    requires p in s.procs && OnCourse(s.procs[p], secret) && Smooth(c)
    requires SweepAct(s, p, c) == Some(s')
    ensures p in s'.procs && OnCourse(s'.procs[p], secret)
  {
    hide Accepts, AcceptsSecret, FlockFree, Remaining, WithoutFile;
  }

  lemma MakingOnCourse(w: World, s: State, p: Pid, c: Choice, s': State, secret: string)
    requires p in s.procs && OnCourse(s.procs[p], secret) && Smooth(c)
    requires MakeAct(w, s, p, c) == Some(s')
    ensures p in s'.procs && OnCourse(s'.procs[p], secret)
  {
    hide Accepts, AcceptsSecret, FlockFree;
  }

  lemma PruningOnCourse(s: State, p: Pid, c: Choice, s': State, secret: string)
    requires p in s.procs && OnCourse(s.procs[p], secret) && Smooth(c) && PruneAct(s, p, c) == Some(s')
    ensures p in s'.procs && OnCourse(s'.procs[p], secret)
  {
    hide Accepts, AcceptsSecret, SharedFree, LinesOf, BlockSession, Missing, IsLeftover, EditAct;
    var pc := s.procs[p].pc;
    if pc.PruneEdit? && !pc.edit.Committed? && !pc.edit.Broken? {
      EditUnbroken(s.home, s.log, Event.Removed(pc.name), pc.edit, c);
    }
  }

  lemma PrivateOnCourse(s: State, p: Pid, c: Choice, s': State, secret: string)
    requires p in s.procs && OnCourse(s.procs[p], secret) && Smooth(c) && s.procs[p].pc.Owning?
    requires s.procs[p].pc.task.Service? || s.procs[p].pc.task.Private?
    requires s.procs[p].pc.session in s.dirs && FilesOk(s.dirs[s.procs[p].pc.session].files, s.procs[p])
    requires UpdateAct(s, p, c) == Some(s')
    ensures p in s'.procs && OnCourse(s'.procs[p], secret)
  {
    hide Accepts, AcceptsSecret, Shares, ServiceText, PrivateText, Holding, WriteAct, WriteRank, Cost, Smooth;
    var pr := s.procs[p];
    var files, write := s.dirs[pr.pc.session].files, pr.pc.task.write;
    assert c.Writes?;
    if pr.pc.task.Service? {
      var text := ServiceText(pr.job.target, pr.job.port);
      WriteFalls(files, SERVICE, text, write, c.io, WriteAct(files, SERVICE, text, write, c.io).value);
    } else {
      var text := PrivateText(pr.job.target, pr.job.port, pr.pc.task.secret);
      WriteFalls(files, PASSFILE, text, write, c.io, WriteAct(files, PASSFILE, text, write, c.io).value);
    }
  }

  lemma SharedOnCourse(s: State, p: Pid, c: Choice, s': State, secret: string)
    requires p in s.procs && OnCourse(s.procs[p], secret) && Smooth(c) && s.procs[p].pc.Owning?
    requires s.procs[p].pc.task.AwaitingUpdate? || s.procs[p].pc.task.Updating?
    requires UpdateAct(s, p, c) == Some(s')
    ensures p in s'.procs && OnCourse(s'.procs[p], secret)
  {
    hide Accepts, AcceptsSecret, Shares, SharedFree, EditAct, OwnEvent;
    var pr := s.procs[p];
    if pr.pc.task.Updating? && !pr.pc.task.edit.Committed? {
      EditUnbroken(s.home, s.log, OwnEvent(pr), pr.pc.task.edit, c);
    }
  }

  lemma StepOnCourse(w: World, s: State, p: Pid, c: Choice, s': State, secret: string)
    requires Inv(w, s) && p in s.procs && OnCourse(s.procs[p], secret) && Busy(s.procs[p].pc)
    requires Smooth(c) && Act(w, s, p, c) == Some(s')
    ensures p in s'.procs && OnCourse(s'.procs[p], secret)
  {
    assert !c.Kill?;
    hide Inv, RootAct, SweepAct, PruneAct, MakeAct, CloseAct, UpdateAct, FilesOk, OnCourse, Smooth;
    var pc := s.procs[p].pc;
    if pc.Waiting? || pc.Listing? {
      ListingOnCourse(w, s, p, c, s', secret);
    } else if pc.Sweeping? || pc.Opened? || pc.Locked? || pc.Swept? {
      SweepOnCourse(s, p, c, s', secret);
    } else if pc.Recovered? || pc.Made? {
      MakingOnCourse(w, s, p, c, s', secret);
    } else if !pc.Owning? {
      PruningOnCourse(s, p, c, s', secret);
    } else {
      OnCourseTasks(s.procs[p], secret);
      OwnerFacts(w, s, p);
      if pc.task.Service? || pc.task.Private? {
        PrivateOnCourse(s, p, c, s', secret);
      } else {
        SharedOnCourse(s, p, c, s', secret);
      }
    }
  }

  lemma OnCourseTasks(pr: Proc, secret: string)
    requires OnCourse(pr, secret) && pr.pc.Owning?
    ensures !Ending(pr.pc.task)
  {}

  lemma JobStays(w: World, s: State, p: Pid, s': State)
    requires Footprint(w, s, p, s')
    ensures p in s.procs && p in s'.procs && s'.procs[p].job == s.procs[p].job
  {
    hide LocksStep, TiesStep, DirsStep, FileStep;
  }

  lemma {:induction false} CallStaysOnCourse(w: World, states: seq<State>, choices: seq<Choice>, p: Pid,
                                             secret: string)
    requires Calls(w, states, choices, p) && Inv(w, states[0]) && OnCourse(states[0].procs[p], secret)
    ensures p in Last(states).procs && OnCourse(Last(states).procs[p], secret)
    ensures Last(states).procs[p].job == states[0].procs[p].job
    decreases |choices|
  {
    hide Inv, Act, Busy, Smooth, OnCourse, Footprint;
    if choices != [] {
      StepOnCourse(w, states[0], p, choices[0], states[1], secret);
      ActKeeps(w, states[0], p, choices[0], states[1]);
      JobStays(w, states[0], p, states[1]);
      CallStaysOnCourse(w, states[1..], choices[1..], p, secret);
    }
  }

  /** At the begin and at the end of such a call. */
  lemma OnCourseBegins(pr: Proc, secret: string)
    requires pr.job.Prepare? && Accepts(pr.job.target) && AcceptsSecret(secret)
    requires (pr.pc.Waiting? && pr.job.secret == secret) ||
      (pr.pc.Owning? && !pr.pc.starting && pr.pc.task == Private(secret, Unopened))
    ensures OnCourse(pr, secret)
  {
    hide Accepts, AcceptsSecret;
  }

  lemma OnCourseEnds(pr: Proc, secret: string)
    requires OnCourse(pr, secret) && pr.job.Prepare? && !Busy(pr.pc)
    ensures pr.pc.Owning? && pr.pc.task == Idle(true) && !pr.pc.starting && pr.acked == Some(secret) && pr.late.None?
  {
    hide Accepts, AcceptsSecret;
  }

  /** A Prepare or an Update that meets no error and no interference returns nil, if it is given
      an accepted target and secret: live sessions of others do not disturb it. */
  lemma CallsSucceed(w: World, states: seq<State>, k: nat, choices: seq<Choice>, p: Pid, secret: string)
    requires Run(w, states) && k < |states| && Calls(w, states[k..], choices, p) && p in states[k].procs
    requires var pr := states[k].procs[p];
      && pr.job.Prepare? && Accepts(pr.job.target) && AcceptsSecret(secret)
      && ((pr.pc.Waiting? && pr.job.secret == secret)
          || (pr.pc.Owning? && !pr.pc.starting && pr.pc.task == Private(secret, Unopened)))
    requires p in Last(states).procs && !Busy(Last(states).procs[p].pc)
    ensures var pr := Last(states).procs[p];
      pr.pc.Owning? && pr.pc.task == Idle(true) && !pr.pc.starting && pr.acked == Some(secret) && pr.late.None?
  {
    hide Run, Inv, Calls, Accepts, AcceptsSecret, OnCourse, Busy;
    RunInv(w, states, k);
    OnCourseBegins(states[k].procs[p], secret);
    CallStaysOnCourse(w, states[k..], choices, p, secret);
    assert Last(states[k..]) == Last(states);
    OnCourseEnds(Last(states).procs[p], secret);
  }

  /** A Close in which nothing has failed. */
  predicate Closes(pr: Proc) {
    match pr.pc
    case Finished => true
    case Owning(_, _, task, _) =>
      (match task
       case AwaitingClose => true
       case Closing(edit) => Unbroken(edit)
       case Removing(ok) => ok
       case Released(ok) => ok
       case _ => false)
    case _ => false
  }

  lemma StepCloses(s: State, p: Pid, c: Choice, s': State)
    requires p in s.procs && s.procs[p].job.Prepare? && s.procs[p].pc.Owning? && Closes(s.procs[p])
    requires Smooth(c) && CloseAct(s, p, c) == Some(s')
    ensures p in s'.procs && Closes(s'.procs[p])
    ensures s'.procs[p].pc.Finished? ==> s.procs[p].pc.task == Released(true)
  {
    hide SharedFree, EditAct, OwnEvent, Remaining, WithoutFile;
    var pr := s.procs[p];
    if pr.pc.task.Closing? && !pr.pc.task.edit.Committed? {
      EditUnbroken(s.home, s.log, OwnEvent(pr), pr.pc.task.edit, c);
    }
  }

  lemma ActCloses(w: World, s: State, p: Pid, c: Choice, s': State)
    requires Inv(w, s) && p in s.procs && Closes(s.procs[p]) && Busy(s.procs[p].pc)
    requires Smooth(c) && Act(w, s, p, c) == Some(s')
    ensures s.procs[p].pc.Owning? && p in s'.procs && Closes(s'.procs[p])
    ensures s'.procs[p].pc.Finished? ==> s.procs[p].pc.task == Released(true)
  {
    assert !c.Kill? && s.procs[p].pc.Owning? && Ending(s.procs[p].pc.task);
    OwnerFacts(w, s, p);
    OwnerAct(w, s, p, c);
    hide Inv, Act, CloseAct, FilesOk;
    StepCloses(s, p, c, s');
  }

  lemma {:induction false} CallCloses(w: World, states: seq<State>, choices: seq<Choice>, p: Pid)
    requires Calls(w, states, choices, p) && Inv(w, states[0]) && Closes(states[0].procs[p])
    ensures p in Last(states).procs && Closes(Last(states).procs[p])
    ensures choices != [] && Last(states).procs[p].pc.Finished? ==>
      var before := states[|states| - 2];
      p in before.procs && before.procs[p].pc.Owning? && before.procs[p].pc.task == Released(true)
    decreases |choices|
  {
    hide Inv, Act, Busy, Smooth, Closes;
    if choices != [] {
      ActCloses(w, states[0], p, choices[0], states[1]);
      ActKeeps(w, states[0], p, choices[0], states[1]);
      CallCloses(w, states[1..], choices[1..], p);
    }
  }

  /** A Close that meets no error and no interference comes to its end with everything
      removed: its last step follows an error-free removal. */
  lemma CloseSucceeds(w: World, states: seq<State>, k: nat, choices: seq<Choice>, p: Pid)
    requires Run(w, states) && k < |states| && Calls(w, states[k..], choices, p) && p in states[k].procs
    requires var pc := states[k].procs[p].pc; pc.Owning? && (pc.task.AwaitingClose? || pc.task == Removing(true))
    requires p in Last(states).procs && !Busy(Last(states).procs[p].pc)
    ensures Last(states).procs[p].pc == Finished && |states| > k + 1
    ensures var before := states[|states| - 2];
      p in before.procs && before.procs[p].pc.Owning? && before.procs[p].pc.task == Released(true)
  {
    hide Run, Inv, Act, Calls;
    RunInv(w, states, k);
    assert Closes(states[k].procs[p]) && Busy(states[k].procs[p].pc);
    hide Closes, Busy;
    assert Last(states[k..]) == Last(states);
    SomeChoice(w, states[k..], choices, p);
    assert states[k..][|states[k..]| - 2] == states[|states| - 2];
    CallCloses(w, states[k..], choices, p);
    ClosedIsFinished(Last(states).procs[p]);
  }

  lemma SomeChoice(w: World, states: seq<State>, choices: seq<Choice>, p: Pid)
    requires Calls(w, states, choices, p) && Busy(states[0].procs[p].pc)
    requires p in Last(states).procs && !Busy(Last(states).procs[p].pc)
    ensures choices != [] && |states| > 1
  {
    hide Act, Busy;
  }

  lemma ClosedIsFinished(pr: Proc)
    ensures Closes(pr) && !Busy(pr.pc) ==> pr.pc == Finished
  {}

  /** An owner ends only by its Close, which is also how a failed Prepare ends, or by a kill;
      and a Close tries to remove the directory whatever has failed before. */
  lemma OwnerEnds(w: World, s: State, p: Pid, c: Choice, s': State)
    requires Inv(w, s) && p in s.procs && s.procs[p].pc.Owning? && Act(w, s, p, c) == Some(s') && !c.Kill?
    ensures p in s'.procs
    ensures s'.procs[p].pc.Owning? || (s.procs[p].pc.task.Released? && s'.procs[p].pc.Finished?)
    ensures s'.procs[p].pc.Owning? && s'.procs[p].pc.task.Released? ==> s.procs[p].pc.task.Removing?
  {
    OwnerFacts(w, s, p);
    OwnerAct(w, s, p, c);
    hide Inv, Act, CloseAct, UpdateAct, FilesOk;
    if Ending(s.procs[p].pc.task) { CloserEnds(s, p, c, s'); } else { UpdaterEnds(s, p, c, s'); }
  }

  lemma CloserEnds(s: State, p: Pid, c: Choice, s': State)
    requires p in s.procs && s.procs[p].job.Prepare? && s.procs[p].pc.Owning? && CloseAct(s, p, c) == Some(s')
    ensures p in s'.procs
    ensures s'.procs[p].pc.Owning? || (s.procs[p].pc.task.Released? && s'.procs[p].pc.Finished?)
    ensures s'.procs[p].pc.Owning? && s'.procs[p].pc.task.Released? ==> s.procs[p].pc.task.Removing?
  {
    hide SharedFree, EditAct, OwnEvent, Remaining, WithoutFile;
  }

  lemma UpdaterEnds(s: State, p: Pid, c: Choice, s': State)
    requires p in s.procs && s.procs[p].job.Prepare? && s.procs[p].pc.Owning? && UpdateAct(s, p, c) == Some(s')
    ensures p in s'.procs && s'.procs[p].pc.Owning? && !s'.procs[p].pc.task.Released?
  {
    hide UpdateAct;
    if s.procs[p].pc.task.Service? || s.procs[p].pc.task.Private? {
      WriterEnds(s, p, c, s');
    } else {
      SharerEnds(s, p, c, s');
    }
  }

  lemma WriterEnds(s: State, p: Pid, c: Choice, s': State)
    requires p in s.procs && s.procs[p].job.Prepare? && s.procs[p].pc.Owning? && UpdateAct(s, p, c) == Some(s')
    requires s.procs[p].pc.task.Service? || s.procs[p].pc.task.Private?
    ensures p in s'.procs && s'.procs[p].pc.Owning? && !s'.procs[p].pc.task.Released?
  {
    hide Shares, Accepts, AcceptsSecret, ServiceText, PrivateText, WriteAct;
  }

  lemma SharerEnds(s: State, p: Pid, c: Choice, s': State)
    requires p in s.procs && s.procs[p].job.Prepare? && s.procs[p].pc.Owning? && UpdateAct(s, p, c) == Some(s')
    requires !s.procs[p].pc.task.Service? && !s.procs[p].pc.task.Private?
    ensures p in s'.procs && s'.procs[p].pc.Owning? && !s'.procs[p].pc.task.Released?
  {
    hide Shares, SharedFree, EditAct, OwnEvent;
  }

  /** A removal that fails, also one that fails only after its rename, ends the recovery. */
  lemma FailedPruneEnds(w: World, s: State, p: Pid, c: Choice, s': State)
    requires p in s.procs && s.procs[p].pc.PruneEdit? && !Unbroken(s.procs[p].pc.edit) && Act(w, s, p, c) == Some(s')
    ensures p in s'.procs && Over(s'.procs[p].pc)
  {}

  /** A directory goes only after its last file: a kill can leave it partly removed. */
  lemma RemovedWhenEmpty(w: World, s: State, p: Pid, c: Choice, s': State, name: string)
    requires p in s.procs && Act(w, s, p, c) == Some(s') && name in s.dirs && name !in s'.dirs
    ensures s.dirs[name].files == map[] || s.procs[p].pc.Made?
  {
    hide RootAct, SweepAct, PruneAct, MakeAct, CloseAct, UpdateAct;
    var pc := s.procs[p].pc;
    if !Over(pc) && !c.Kill? {
      if pc.Waiting? || pc.Listing? {
        RootKeepsDirs(w, s, p, c, s');
      } else if pc.Sweeping? || pc.Opened? || pc.Locked? || pc.Swept? {
        SweepEmpties(s, p, c, s', name);
      } else if pc.Recovered? || pc.Made? {
        MakeEmpties(w, s, p, c, s', name);
      } else if !pc.Owning? {
        PruneDirs(s, p, c, s');
      } else if Ending(pc.task) {
        CloseEmpties(s, p, c, s', name);
      } else {
        UpdateEmpties(s, p, c, s', name);
      }
    }
  }

  lemma RootKeepsDirs(w: World, s: State, p: Pid, c: Choice, s': State)
    requires p in s.procs && RootAct(w, s, p, c) == Some(s')
    ensures s'.dirs == s.dirs
  {
    hide RootFree, Abandoned;
  }

  lemma SweepEmpties(s: State, p: Pid, c: Choice, s': State, name: string)
    requires p in s.procs && SweepAct(s, p, c) == Some(s') && name in s.dirs && name !in s'.dirs
    ensures s.dirs[name].files == map[]
  {
    hide FlockFree;
  }

  lemma MakeEmpties(w: World, s: State, p: Pid, c: Choice, s': State, name: string)
    requires p in s.procs && MakeAct(w, s, p, c) == Some(s') && name in s.dirs && name !in s'.dirs
    ensures s.procs[p].pc.Made?
  {
    hide FlockFree;
  }

  lemma CloseEmpties(s: State, p: Pid, c: Choice, s': State, name: string)
    requires p in s.procs && s.procs[p].pc.Owning? && s.procs[p].job.Prepare? && CloseAct(s, p, c) == Some(s')
    requires name in s.dirs && name !in s'.dirs
    ensures s.dirs[name].files == map[]
  {
    hide EditAct, OwnEvent, SharedFree;
  }

  lemma UpdateEmpties(s: State, p: Pid, c: Choice, s': State, name: string)
    requires p in s.procs && s.procs[p].pc.Owning? && s.procs[p].job.Prepare? && UpdateAct(s, p, c) == Some(s')
    requires name in s.dirs
    ensures name in s'.dirs
  {
    hide EditAct, OwnEvent, SharedFree, Shares, WriteAct, ServiceText, PrivateText, Accepts, AcceptsSecret;
  }

  /** A Prepare that cannot lock its new directory removes it, unless that fails, too. */
  lemma UnlockedIsRemoved(w: World, s: State, p: Pid, s': State)
    requires p in s.procs && s.procs[p].pc.Made? && Act(w, s, p, Fail) == Some(s')
    ensures s.procs[p].pc.session !in s'.dirs && p in s'.procs && s'.procs[p].pc == Finished
  {}
}
