/** The nested locks cannot deadlock: while any call is in progress, some call can go on. */
module SessionProgress {
  import opened Text
  import opened AtomicFile
  import opened Blocks
  import opened SharedFile
  import opened ClientFiles
  import opened Sessions
  import opened SessionInvariant
  import opened SessionTheorems

  /** Inside a call of Prepare, Update, Close or Recover; an idle session waits for its user. */
  predicate Busy(pc: Pc) { !Over(pc) && !(pc.Owning? && pc.task.Idle?) }

  /** A step of the call itself, without an error; writing a part of a file is left out. */
  predicate Advances(c: Choice) {
    c.Go? || c.Listed? || c.Pick? || (c.Writes? && (c.io.Opens? || c.io.Flushes? || c.io == Renames(true)))
  }

  ghost predicate CanGoOn(w: World, s: State, p: Pid) {
    p in s.procs && Busy(s.procs[p].pc) && exists c :: Advances(c) && Act(w, s, p, c).Some?
  }

  /** MkdirTemp can find a name. */
  ghost predicate NameLeft(w: World, s: State) { exists n :: n in w.names && n !in s.dirs }

  lemma SeqOf(names: set<string>) returns (list: seq<string>)
    ensures |list| == |names| && forall n :: n in list <==> n in names
  {
    if names == {} {
      list := [];
    } else {
      var name :| name in names;
      var rest := SeqOf(names - {name});
      list := [name] + rest;
    }
  }

  lemma EditGoesOn(home: Directory, log: seq<Event>, event: Event, edit: Edit) returns (c: Choice)
    requires EditGood(home, event, edit) && (edit.Reading? || edit.Editing?)
    ensures Advances(c) && !c.Kill? && EditAct(home, log, event, edit, c).Some?
  {
    hide NewText, IsTemp;
    if edit.Reading? || (edit.write.Unopened? && event.Removed? && NewText(edit.data, event) == edit.data) {
      c := Go;
    } else {
      var io := WriteGoesOn(home, SHARED, NewText(edit.data, event), edit.write);
      c := Writes(io);
    }
  }

  lemma WriteGoesOn(files: Directory, base: string, data: string, write: Write) returns (io: Io)
    requires Holding(files, base, data, write) && InProgress(write)
    ensures Advances(Writes(io)) && WriteAct(files, base, data, write, io).Some?
  {
    hide IsTemp;
    match write
    case Unopened =>
      var temp := FreshTemp(files, base);
      io := Opens(temp);
    case Filling(_) => io := Flushes;
    case Filled(_) => io := Renames(true);
    case _ =>
  }

  // ---- Who can go on ----

  /** The holder of the shared file's lock waits for nobody. */
  lemma SharedHolderGoesOn(w: World, s: State, p: Pid)
    requires Inv(w, s) && p in s.procs && HoldsShared(s.procs[p].pc)
    ensures CanGoOn(w, s, p)
  {
    var pc := s.procs[p].pc;
    if pc.Owning? {
      var c := OwnEditGoesOn(w, s, p);
    } else if pc.PruneEdit? {
      var c := PruneEditGoesOn(w, s, p);
    } else {
      var c := CleanupGoesOn(w, s, p);
    }
    hide Inv, Act;
  }

  lemma OwnEditGoesOn(w: World, s: State, p: Pid) returns (c: Choice)
    requires Inv(w, s) && p in s.procs && HoldsShared(s.procs[p].pc) && s.procs[p].pc.Owning?
    ensures Advances(c) && Act(w, s, p, c).Some?
  {
    hide Inv, EditGood, EditAct, OwnEvent, UpdateAct, CloseAct, Act;
    OwnEditFacts(w, s, p);
    var pr := s.procs[p];
    c := Go;
    if pr.pc.task.edit.Reading? || pr.pc.task.edit.Editing? {
      c := EditGoesOn(s.home, s.log, OwnEvent(pr), pr.pc.task.edit);
    }
    OwnerAct(w, s, p, c);
    if pr.pc.task.Updating? { UpdatingAct(s, p, c); } else { ClosingAct(s, p, c); }
  }

  lemma UpdatingAct(s: State, p: Pid, c: Choice)
    requires p in s.procs && s.procs[p].pc.Owning? && s.procs[p].job.Prepare? && s.procs[p].pc.task.Updating?
    requires var edit := s.procs[p].pc.task.edit;
      if edit.Reading? || edit.Editing? then EditAct(s.home, s.log, OwnEvent(s.procs[p]), edit, c).Some? else c == Go
    ensures UpdateAct(s, p, c).Some?
  {
    hide EditAct, OwnEvent;
  }

  lemma ClosingAct(s: State, p: Pid, c: Choice)
    requires p in s.procs && s.procs[p].pc.Owning? && s.procs[p].job.Prepare? && s.procs[p].pc.task.Closing?
    requires var edit := s.procs[p].pc.task.edit;
      if edit.Reading? || edit.Editing? then EditAct(s.home, s.log, OwnEvent(s.procs[p]), edit, c).Some? else c == Go
    ensures CloseAct(s, p, c).Some?
  {
    hide EditAct, OwnEvent;
  }

  lemma OwnEditFacts(w: World, s: State, p: Pid)
    requires Inv(w, s) && p in s.procs && HoldsShared(s.procs[p].pc) && s.procs[p].pc.Owning?
    ensures s.procs[p].job.Prepare? && (s.procs[p].pc.task.Updating? || s.procs[p].pc.task.Closing?)
    ensures EditGood(s.home, OwnEvent(s.procs[p]), s.procs[p].pc.task.edit)
  {
    assert ProcOk(w, s, p);
    hide Mutex, Inodes, Ports, ContentOk, DoomOk, PublishedOk, PrivateOk, CleanOk, EditGood;
  }

  lemma PruneEditGoesOn(w: World, s: State, p: Pid) returns (c: Choice)
    requires Inv(w, s) && p in s.procs && s.procs[p].pc.PruneEdit?
    ensures Advances(c) && Act(w, s, p, c).Some?
  {
    hide Inv, EditGood, EditAct;
    PruneEditFacts(w, s, p);
    var pc := s.procs[p].pc;
    c := Go;
    if pc.edit.Reading? || pc.edit.Editing? {
      c := EditGoesOn(s.home, s.log, Event.Removed(pc.name), pc.edit);
    }
  }

  lemma PruneEditFacts(w: World, s: State, p: Pid)
    requires Inv(w, s) && p in s.procs && s.procs[p].pc.PruneEdit?
    ensures EditGood(s.home, Event.Removed(s.procs[p].pc.name), s.procs[p].pc.edit)
  {
    assert ProcOk(w, s, p);
    hide Mutex, Inodes, Ports, ContentOk, DoomOk, PublishedOk, PrivateOk, CleanOk, EditGood;
  }

  lemma CleanupGoesOn(w: World, s: State, p: Pid) returns (c: Choice)
    requires p in s.procs && HoldsShared(s.procs[p].pc) && !s.procs[p].pc.Owning? && !s.procs[p].pc.PruneEdit?
    ensures Advances(c) && Act(w, s, p, c).Some?
  {
    hide IsLeftover, BlockSession, Missing;
    var pc := s.procs[p].pc;
    c := Go;
    if pc.Deleting? && pc.leftovers != {} {
      var name :| name in pc.leftovers;
      c := Pick(name);
    }
  }

  /** The holder of the root lock waits at most for the shared file's lock. */
  lemma RootHolderGoesOn(w: World, s: State, p: Pid)
    requires Inv(w, s) && SharedFree(s) && p in s.procs && HoldsRoot(s.procs[p].pc)
    requires Recovers(s.procs[p].pc) ==> NameLeft(w, s)
    ensures CanGoOn(w, s, p)
  {
    var pc := s.procs[p].pc;
    assert !HoldsShared(pc);
    if pc.Owning? {
      assert Busy(pc) by { StartingIsBusy(w, s, p); }
      var c := OwnerGoesOn(w, s, p);
    } else if pc.Made? {
      NewIsFree(w, s, p);
      assert Act(w, s, p, Go).Some?;
    } else {
      var c := RecoveryGoesOn(w, s, p);
    }
    hide Inv, Act;
  }

  lemma StartingIsBusy(w: World, s: State, p: Pid)
    requires Inv(w, s) && p in s.procs && s.procs[p].pc.Owning? && HoldsRoot(s.procs[p].pc)
    ensures Busy(s.procs[p].pc)
  {
    assert ProcOk(w, s, p);
    hide Mutex, Inodes, Ports, ContentOk, DoomOk, PrivateOk, PublishedOk;
  }

  lemma SweepFacts(w: World, s: State, p: Pid)
    requires Inv(w, s) && p in s.procs
    ensures SweepOk(s.dirs, s.procs[p].pc)
  {
    assert ProcOk(w, s, p);
    hide Mutex, Inodes, Ports, ContentOk, DoomOk, PublishedOk, PrivateOk, EditOk, CleanOk, SweepOk;
  }

  lemma RecoveryGoesOn(w: World, s: State, p: Pid) returns (c: Choice)
    requires Inv(w, s) && SharedFree(s) && NameLeft(w, s) && p in s.procs
    requires HoldsRoot(s.procs[p].pc) && !HoldsShared(s.procs[p].pc) && !s.procs[p].pc.Owning? && !s.procs[p].pc.Made?
    ensures Advances(c) && Act(w, s, p, c).Some?
  {
    hide Inv, SharedFree, FlockFree, WithoutFile;
    SweepFacts(w, s, p);
    var pr := s.procs[p];
    c := Go;
    if pr.pc.Listing? {
      var names := SeqOf(s.dirs.Keys);
      assert (set n | n in names) == s.dirs.Keys;
      c := Listed(names);
    } else if pr.pc.Locked? && Remaining(s, pr.pc.todo[0]) != {} {
      var name :| name in Remaining(s, pr.pc.todo[0]);
      c := Pick(name);
    } else if pr.pc.Recovered? && pr.job.Prepare? {
      var name :| name in w.names && name !in s.dirs;
      c := Pick(name);
    }
  }

  /** Nobody holds the lock of a directory that was just made. */
  lemma NewIsFree(w: World, s: State, p: Pid)
    requires Inv(w, s) && p in s.procs && s.procs[p].pc.Made?
    ensures FlockFree(s, s.procs[p].pc.inode)
  {
    hide ProcOk, Ports, ContentOk, WorldOk;
    forall q | q in s.procs ensures Flock(s.procs[q].pc) != Some(s.procs[p].pc.inode) {
      assert HoldsRoot(s.procs[q].pc) ==> q == p;
    }
  }

  lemma OwnerGoesOn(w: World, s: State, p: Pid) returns (c: Choice)
    requires Inv(w, s) && SharedFree(s) && p in s.procs && s.procs[p].pc.Owning? && Busy(s.procs[p].pc)
    ensures Advances(c) && Act(w, s, p, c).Some?
  {
    assert !HoldsShared(s.procs[p].pc);
    hide Inv, FilesOk, Act, Remaining;
    OwnerFacts(w, s, p);
    var pr := s.procs[p];
    if pr.pc.task.Service? || pr.pc.task.Private? {
      c := WriterGoesOn(w, s, p);
    } else {
      c := Go;
      if pr.pc.task.Removing? && Remaining(s, pr.pc.session) != {} {
        var name :| name in Remaining(s, pr.pc.session);
        c := Pick(name);
      }
      CallerGoesOn(s, p, c);
      OwnerAct(w, s, p, c);
    }
  }

  lemma CallerGoesOn(s: State, p: Pid, c: Choice)
    requires p in s.procs && s.procs[p].pc.Owning? && s.procs[p].job.Prepare? && SharedFree(s)
    requires var task := s.procs[p].pc.task;
      && (task.AwaitingUpdate? || task.AwaitingClose? || task.Removing? || task.Released?)
      && var left := Remaining(s, s.procs[p].pc.session);
        if task.Removing? && left != {} then c.Pick? && c.name in left else c == Go
    ensures (if Ending(s.procs[p].pc.task) then CloseAct(s, p, c) else UpdateAct(s, p, c)).Some?
  {
    hide SharedFree, WithoutFile;
  }

  lemma WriterGoesOn(w: World, s: State, p: Pid) returns (c: Choice)
    requires p in s.procs && s.procs[p].pc.Owning? && (s.procs[p].pc.task.Service? || s.procs[p].pc.task.Private?)
    requires var pr := s.procs[p];
      pr.job.Prepare? && pr.pc.session in s.dirs &&
      FilesOk(s.dirs[pr.pc.session].files, pr) && InProgress(pr.pc.task.write)
    ensures Advances(c) && Act(w, s, p, c).Some?
  {
    hide WriteAct, ServiceText, PrivateText, Accepts, AcceptsSecret;
    hide Holding, InProgress, StartClose, UpdateFails, UpdateSucceeds;
    var pr := s.procs[p];
    var task, files := pr.pc.task, s.dirs[pr.pc.session].files;
    c := Go;
    if task.Service? {
      if !task.write.Unopened? || Accepts(pr.job.target) {
        var io := WriteGoesOn(files, SERVICE, ServiceText(pr.job.target, pr.job.port), task.write);
        c := Writes(io);
      }
    } else if !task.write.Unopened? || AcceptsSecret(task.secret) {
      var io := WriteGoesOn(files, PASSFILE, PrivateText(pr.job.target, pr.job.port, task.secret), task.write);
      c := Writes(io);
    }
  }

  lemma OwnerFacts(w: World, s: State, p: Pid)
    requires Inv(w, s) && p in s.procs && s.procs[p].pc.Owning?
    ensures var pr := s.procs[p];
      && pr.job.Prepare?
      && (!pr.pc.task.Released? ==> pr.pc.session in s.dirs && FilesOk(s.dirs[pr.pc.session].files, pr))
      && (pr.pc.task.Service? || pr.pc.task.Private? ==> InProgress(pr.pc.task.write))
  {
    assert ProcOk(w, s, p);
    hide Mutex, Inodes, Ports, ContentOk, DoomOk, PublishedOk, EditOk, FilesOk, CleanOk;
  }

  /** In every reachable state in which some call is in progress, some call can go on without
      an error, as long as MkdirTemp can find a name. */
  lemma NoDeadlock(w: World, states: seq<State>, k: nat, p: Pid)
    requires Run(w, states) && k < |states| && p in states[k].procs && Busy(states[k].procs[p].pc)
    requires NameLeft(w, states[k])
    ensures exists q :: CanGoOn(w, states[k], q)
  {
    RunInv(w, states, k);
    var s := states[k];
    hide Run, Inv, NameLeft, CanGoOn, HoldsRoot, HoldsShared;
    if q :| q in s.procs && HoldsShared(s.procs[q].pc) {
      SharedHolderGoesOn(w, s, q);
    } else if q :| q in s.procs && HoldsRoot(s.procs[q].pc) {
      RootHolderGoesOn(w, s, q);
    } else {
      FreeGoesOn(w, s, p);
    }
  }

  lemma FreeGoesOn(w: World, s: State, p: Pid)
    requires Inv(w, s) && SharedFree(s) && RootFree(s) && p in s.procs && Busy(s.procs[p].pc)
    ensures CanGoOn(w, s, p)
  {
    assert !HoldsRoot(s.procs[p].pc);
    if s.procs[p].pc.Waiting? {
      assert Act(w, s, p, Go).Some?;
    } else {
      var c := OwnerGoesOn(w, s, p);
    }
  }
}
