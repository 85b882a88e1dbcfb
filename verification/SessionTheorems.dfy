/** What holds in every state of every run of the protocol. */
module SessionTheorems {
  import opened Text
  import Passfile
  import Blocks
  import opened AtomicFile
  import opened SharedFile
  import opened ClientFiles
  import opened Sessions
  import opened SessionInvariant
  import SessionSteps

  // ---- Runs ----

  /** At first nothing runs. Directories of dead sessions may lie around, and the shared file
      holds the blocks of their earlier edits in front of the user's bytes. */
  ghost predicate Initial(w: World, s: State) {
    && WorldOk(w) && s.procs == map[] && ContentOk(w, s) && s.dirs.Keys <= w.names
    && (forall e | e in s.log :: SessionOf(e) in w.names)
    && (forall n | n in s.dirs :: s.dirs[n].inode < s.nextInode)
    && (forall n, m | n in s.dirs && m in s.dirs && s.dirs[n].inode == s.dirs[m].inode :: n == m)
  }

  ghost predicate Run(w: World, states: seq<State>) {
    states != [] && Initial(w, states[0]) && forall i | 0 <= i < |states| - 1 :: Next(w, states[i], states[i + 1])
  }

  lemma StartKeeps(w: World, s: State, s': State, p: Pid, files: Files, job: Request)
    requires Inv(w, s) && Starts(s, s', p, files, job)
    ensures Inv(w, s')
  {
    StartGlobals(w, s, s', p, files, job);
    forall q | q in s'.procs ensures ProcOk(w, s', q) {
      StartProc(w, s, s', p, files, job, q);
    }
    hide ProcOk, Mutex, Inodes, Ports, ContentOk;
  }

  lemma StartGlobals(w: World, s: State, s': State, p: Pid, files: Files, job: Request)
    requires Inv(w, s) && Starts(s, s', p, files, job)
    ensures Mutex(s') && Inodes(s') && Ports(s') && ContentOk(w, s')
  {
    hide ProcOk, FileContent, WorldOk;
    StartLocks(s, s', p, files, job);
    StartInodes(s, s', p, files, job);
    StartPorts(s, s', p, files, job);
    hide Mutex, Inodes, Ports, Starts;
    assert ContentOk(w, s') by { StartFiles(s, s', p, files, job); }
  }

  lemma StartFiles(s: State, s': State, p: Pid, files: Files, job: Request)
    requires Starts(s, s', p, files, job)
    ensures s'.home == s.home && s'.log == s.log && s'.dirs == s.dirs
  {}

  lemma StartLocks(s: State, s': State, p: Pid, files: Files, job: Request)
    requires Mutex(s) && Starts(s, s', p, files, job)
    ensures Mutex(s')
  {
    hide HoldsRoot, HoldsShared, Flock, Tie;
    assert s'.procs[p].pc == Waiting;
    IdleStart();
  }

  lemma StartInodes(s: State, s': State, p: Pid, files: Files, job: Request)
    requires Inodes(s) && Starts(s, s', p, files, job)
    ensures Inodes(s')
  {
    hide HoldsRoot, HoldsShared, Flock, Tie;
    assert s'.procs[p].pc == Waiting;
    IdleStart();
  }

  lemma StartPorts(s: State, s': State, p: Pid, files: Files, job: Request)
    requires Ports(s) && Starts(s, s', p, files, job)
    ensures Ports(s')
  {
    hide Over;
  }

  lemma IdleStart()
    ensures !HoldsRoot(Waiting) && !HoldsShared(Waiting) && Flock(Waiting).None? && Tie(Waiting).None?
    ensures !Recovers(Waiting)
  {}

  lemma StartProc(w: World, s: State, s': State, p: Pid, files: Files, job: Request, q: Pid)
    requires Inv(w, s) && Starts(s, s', p, files, job) && q in s'.procs
    ensures ProcOk(w, s', q)
  {
    hide Mutex, Inodes, Ports, ContentOk, WorldOk, EditOk, PublishedOk;
    hide PrivateOk, SweepOk, SeatOk, CleanOk, TaskOk, Recovers;
    IdleStart();
    if q == p {
      FreshProc(w, s', p);
    } else {
      assert ProcOk(w, s, q);
      assert DoomOk(w, s', q) by { StartDoom(w, s, s', p, files, job, q); }
    }
  }

  lemma FreshProc(w: World, s: State, p: Pid)
    requires p in s.procs && s.procs[p].pc == Waiting && s.procs[p].acked == None && s.procs[p].late == None
    ensures ProcOk(w, s, p)
  {}

  lemma StartDoom(w: World, s: State, s': State, p: Pid, files: Files, job: Request, q: Pid)
    requires Starts(s, s', p, files, job) && q in s.procs && DoomOk(w, s, q)
    ensures DoomOk(w, s', q)
  {
    hide DirsPending, BlocksPending, NoBlocks, Tie;
    IdleStart();
    assert forall n | Untied(s, n) :: Untied(s', n);
  }

  lemma ActKeeps(w: World, s: State, p: Pid, c: Choice, s': State)
    requires Inv(w, s) && p in s.procs && Act(w, s, p, c) == Some(s')
    ensures Inv(w, s') && Footprint(w, s, p, s')
  {
    ActFootprint(w, s, p, c, s');
    hide Act;
    assert ProcOk(w, s, p);
    KeepsGlobals(w, s, p, s');
    forall q | q in s'.procs ensures ProcOk(w, s', q) {
      if q != p { KeepsOther(w, s, p, s', q); }
    }
    hide ProcOk, Mutex, Inodes, Ports, ContentOk;
  }

  lemma ActFootprint(w: World, s: State, p: Pid, c: Choice, s': State)
    requires Inv(w, s) && p in s.procs && Act(w, s, p, c) == Some(s')
    ensures SessionSteps.Stepped(w, s, p, s')
  {
    hide ProcOk, Mutex, Inodes, Ports, ContentOk, RootAct, SweepAct;
    hide MakeAct, PruneAct, CloseAct, UpdateAct, SessionSteps.Stepped, WorldOk;
    assert ProcOk(w, s, p);
    SessionSteps.AnyStep(w, s, p, c, s');
  }

  lemma KeepsGlobals(w: World, s: State, p: Pid, s': State)
    requires Inv(w, s) && Footprint(w, s, p, s')
    ensures Mutex(s') && Inodes(s') && Ports(s') && ContentOk(w, s')
  {
    hide Mutex, Inodes, Ports, ContentOk, LocksStep, TiesStep;
    hide DirsStep, FileStep, ProcsStep, WorldOk, DoomOk, PrivateOk;
    assert p in s.procs by { FootprintProc(w, s, p, s'); }
    assert ProcOk(w, s, p);
    MutexKept(w, s, p, s');
    InodesKept(w, s, p, s');
    PortsKept(s, p, s');
    ContentKept(w, s, p, s');
  }

  lemma FootprintProc(w: World, s: State, p: Pid, s': State)
    requires Footprint(w, s, p, s')
    ensures p in s.procs && s'.procs.Keys == s.procs.Keys
  {}

  lemma KeepsOther(w: World, s: State, p: Pid, s': State, q: Pid)
    requires Inv(w, s) && Footprint(w, s, p, s') && q in s.procs && q != p
    ensures q in s'.procs && ProcOk(w, s', q)
  {
    FootprintProc(w, s, p, s');
    assert s'.procs[q] == s.procs[q];
    hide Mutex, Inodes, Ports, ContentOk, Footprint, WorldOk, DoomOk;
    hide SeatOk, SweepOk, EditOk, TaskOk, PublishedOk, PrivateOk, CleanOk;
    assert ProcOk(w, s, p) && ProcOk(w, s, q);
    SeatKept(w, s, p, s', q);
    SweepKept(w, s, p, s', q);
    EditKept(w, s, p, s', q);
    PublishedKept(w, s, p, s', q);
    PrivateKept(w, s, p, s', q);
    DoomKept(w, s, p, s', q);
  }

  lemma InvNext(w: World, s: State, s': State)
    requires Inv(w, s) && Next(w, s, s')
    ensures Inv(w, s')
  {
    hide Inv, Act, Starts;
    if p, files, job :| Starts(s, s', p, files, job) {
      StartKeeps(w, s, s', p, files, job);
    } else {
      var p, c :| p in s.procs && Act(w, s, p, c) == Some(s');
      ActKeeps(w, s, p, c, s');
    }
  }

  /** Every reachable state satisfies the invariant. */
  lemma {:induction false} RunInv(w: World, states: seq<State>, k: nat)
    requires Run(w, states) && k < |states|
    ensures Inv(w, states[k])
  {
    if k == 0 {
      hide WorldOk, ContentOk;
    } else {
      RunInv(w, states, k - 1);
      hide Inv, Next, Initial;
      assert Next(w, states[k - 1], states[k - 1 + 1]);
      InvNext(w, states[k - 1], states[k]);
    }
  }

  // ---- The shared file ----

  /** In every reachable state the shared file is exactly the complete blocks of the last
      publication of each session that published last, most recent first and none twice,
      followed by the user's part. */
  lemma SharedFileShape(w: World, states: seq<State>, k: nat)
    requires Run(w, states) && k < |states|
    ensures var s := states[k];
            && Bytes(s.home) == Content(Entries(s.log), UserPart(w.user, w.names, s.log))
            && NewestFirst(s.log, Entries(s.log))
            && (forall e | e in Entries(s.log) :: Acceptable(e) && e.session in w.names)
  {
    RunInv(w, states, k);
    EntriesNewestFirst(states[k].log);
    EntriesOk(states[k].log, w.names);
    hide Acceptable, Entries, UserPart, Content, ProcOk;
  }

  /** Files beside the shared one that do not look like a copy of it are never touched. */
  lemma {:induction false} BystandersKept(w: World, states: seq<State>, k: nat)
    requires Run(w, states) && k < |states|
    ensures Bystanders(states[k].home) == Bystanders(states[0].home)
    ensures MakesNone(states[0].home, states[k].home)
  {
    hide Initial, Inv, Act, Bystanders, MakesNone;
    if k == 0 {
      MakesNoneTransfers(states[0].home, states[0].home, states[0].home);
    } else {
      BystandersKept(w, states, k - 1);
      RunInv(w, states, k - 1);
      var s, s' := states[k - 1], states[k];
      assert Next(w, states[k - 1], states[k - 1 + 1]);
      if p, files, job :| Starts(s, s', p, files, job) {
      } else {
        var p, c :| p in s.procs && Act(w, s, p, c) == Some(s');
        ActKeeps(w, s, p, c, s');
        FootprintFile(w, s, p, s');
        MakesNoneTransfers(states[0].home, s.home, s'.home);
      }
    }
  }

  lemma MakesNoneTransfers(a: Directory, b: Directory, c: Directory)
    ensures MakesNone(a, a)
    ensures MakesNone(a, b) && MakesNone(b, c) ==> MakesNone(a, c)
  {
    hide IsTemp;
  }

  lemma FootprintFile(w: World, s: State, p: Pid, s': State)
    requires Footprint(w, s, p, s')
    ensures Bystanders(s'.home) == Bystanders(s.home) && MakesNone(s.home, s'.home)
  {
    hide Bystanders, MakesNone;
  }

  // ---- Sessions ----

  /** Two processes never hold the same lock: this is the modelled meaning of flock, carried
      from the guards of the steps to every reachable state. */
  lemma LocksExclude(w: World, states: seq<State>, k: nat)
    requires Run(w, states) && k < |states|
    ensures Mutex(states[k])
  {
    RunInv(w, states, k);
    hide Mutex, ProcOk;
  }

  /** In the recovery of a Prepare or a Recover, or later in that Prepare. */
  predicate Starting(pc: Pc) { Recovers(pc) || pc.Made? || (pc.Owning? && pc.starting) }

  /** Between the read and the last rename of an edit, or in the pruning. */
  predicate Rewriting(pc: Pc) {
    pc.Loading? || pc.Pruning? || pc.PruneEdit? || (pc.Owning? && (pc.task.Updating? || pc.task.Closing?))
  }

  /** So no two processes recover or prepare at the same time, no two rewrite the shared file at
      the same time, and nobody sweeps a directory that another one has locked. */
  lemma PartsExclude(w: World, states: seq<State>, k: nat, p: Pid, q: Pid)
    requires Run(w, states) && k < |states| && p in states[k].procs && q in states[k].procs && p != q
    ensures var a, b := states[k].procs[p].pc, states[k].procs[q].pc;
      && !(Starting(a) && Starting(b)) && !(Rewriting(a) && Rewriting(b))
      && !(a.Locked? && b.Owning? && a.inode == b.inode)
  {
    LocksExclude(w, states, k);
    var a, b := states[k].procs[p].pc, states[k].procs[q].pc;
    StartingHolds(a);
    StartingHolds(b);
    hide Run, HoldsRoot, HoldsShared, Recovers, Rewriting, Starting;
  }

  lemma StartingHolds(pc: Pc)
    ensures Starting(pc) ==> HoldsRoot(pc)
    ensures Rewriting(pc) ==> HoldsShared(pc)
  {}

  /** A live session keeps its directory from MkdirTemp until it has removed it itself, and
      its block from its first publication until its own removal of it: no cleanup and no
      other session takes either away. */
  lemma LiveSessionKept(w: World, states: seq<State>, k: nat, p: Pid)
    requires Run(w, states) && k < |states| && p in states[k].procs
    ensures var s, pr := states[k], states[k].procs[p];
            && (Seat(pr.pc).Some? ==>
                  Seat(pr.pc).value.0 in s.dirs && s.dirs[Seat(pr.pc).value.0].inode == Seat(pr.pc).value.1)
            && (Expected(pr).Some? ==>
                  EntryOf(pr, pr.pc.session, Expected(pr).value) in Entries(s.log))
  {
    RunInv(w, states, k);
    var s, pr := states[k], states[k].procs[p];
    assert ProcOk(w, s, p);
    if Expected(pr).Some? {
      LeaderIsThere(Entries(s.log), EntryOf(pr, pr.pc.session, Expected(pr).value));
    }
    hide Mutex, Inodes, Ports, ContentOk, Leads, Entries, DoomOk;
  }

  lemma {:induction false} LeaderIsThere(entries: seq<Entry>, e: Entry)
    requires Leads(entries, e)
    ensures e in entries
  {
    if entries[0] != e {
      LeaderIsThere(entries[1..], e);
    }
  }

  /** What a local client of a session asks the shared file for. */
  function LocalKey(job: Request): seq<string>
    requires job.Prepare?
  {
    ["127.0.0.1", Decimal(job.port), job.target.database, job.target.user]
  }

  /** End to end: whoever looks up a live session's port, database and user in the shared file
      finds what Expected says, whatever the user's own lines and the other blocks are: the
      secret of the last Update that returned nil, unless a later Update has committed its
      secret and not returned yet, or returned an error after its rename. */
  lemma LookupFindsSession(w: World, states: seq<State>, k: nat, p: Pid)
    requires Run(w, states) && k < |states| && p in states[k].procs
    requires Expected(states[k].procs[p]).Some?
    ensures var s, pr := states[k], states[k].procs[p];
            Passfile.Lookup(Bytes(s.home),
              ["127.0.0.1", Decimal(pr.job.port), pr.job.target.database, pr.job.target.user]) == Expected(pr)
  {
    RunInv(w, states, k);
    var s, pr := states[k], states[k].procs[p];
    assert ProcOk(w, s, p);
    var e := EntryOf(pr, pr.pc.session, Expected(pr).value);
    EntriesOk(s.log, w.names);
    LookupFindsLeader(Entries(s.log), UserPart(w.user, w.names, s.log), e);
    assert Key(e) == ["127.0.0.1", Decimal(pr.job.port), pr.job.target.database, pr.job.target.user];
    hide Mutex, Inodes, Ports, Leads, Entries, DoomOk, Passfile.Lookup, Key, Acceptable, PrivateOk;
  }

  /** Between its calls a sharing session is found with the secret of its last Update that
      returned nil exactly when no later Update failed only after its rename, or with the
      same secret. */
  lemma LookupFindsAckedIff(w: World, states: seq<State>, k: nat, p: Pid)
    requires Run(w, states) && k < |states| && p in states[k].procs
    requires var pr := states[k].procs[p]; pr.pc.Owning? && pr.pc.task.Idle? && Sharing(pr) && pr.acked.Some?
    ensures var s, pr := states[k], states[k].procs[p];
            Passfile.Lookup(Bytes(s.home), LocalKey(pr.job)) == pr.acked <==>
            (pr.late.None? || pr.late == pr.acked)
  {
    LookupFindsSession(w, states, k, p);
    hide Run, Passfile.Lookup;
  }

  /** When Close has removed the session's directory without an error, as it has when it
      returns nil, the directory is gone, and the session's block if it shared one. */
  lemma CloseRemoves(w: World, states: seq<State>, k: nat, p: Pid)
    requires Run(w, states) && k + 1 < |states| && p in states[k].procs
    requires states[k].procs[p].pc.Owning? && states[k].procs[p].pc.task.Removing?
    ensures p in states[k + 1].procs
    ensures var pc, pc' := states[k].procs[p].pc, states[k + 1].procs[p].pc;
      pc'.Owning? && pc'.task == Released(true) ==>
        && pc'.session == pc.session && pc.session !in states[k + 1].dirs
        && (Sharing(states[k].procs[p]) ==> NoEntry(states[k + 1].log, pc.session))
  {
    RunInv(w, states, k);
    var s, s' := states[k], states[k + 1];
    assert Next(w, states[k], states[k + 1]);
    assert PublishedOk(s.log, s.procs[p]) by { assert ProcOk(w, s, p); }
    hide Inv, Footprint, Act;
    if q, files, job :| Starts(s, s', q, files, job) {
    } else {
      var q, c :| q in s.procs && Act(w, s, q, c) == Some(s');
      ActKeeps(w, s, q, c, s');
      FootprintProc(w, s, q, s');
      if q != p {
        OtherProc(w, s, q, s', p);
      } else if s'.procs[p].pc.Owning? && s'.procs[p].pc.task == Released(true) {
        RemovalStep(w, s, p, c, s');
      }
    }
  }

  lemma RemovalStep(w: World, s: State, p: Pid, c: Choice, s': State)
    requires p in s.procs && Act(w, s, p, c) == Some(s') && p in s'.procs
    requires s.procs[p].pc.Owning? && s.procs[p].pc.task.Removing?
    requires s'.procs[p].pc.Owning? && s'.procs[p].pc.task == Released(true)
    ensures var session := s.procs[p].pc.session;
      s.procs[p].pc.task == Removing(true) && s'.procs[p].pc.session == session &&
      session !in s'.dirs && s'.log == s.log
  {}

  lemma OtherProc(w: World, s: State, q: Pid, s': State, p: Pid)
    requires Footprint(w, s, q, s') && p in s.procs && p != q
    ensures p in s'.procs && s'.procs[p] == s.procs[p]
  {}

  lemma IdleFiles(w: World, s: State, p: Pid)
    requires Inv(w, s) && p in s.procs && s.procs[p].pc.Owning? && s.procs[p].pc.task == Idle(true)
    ensures var pr := s.procs[p];
            && pr.job.Prepare? && pr.acked.Some? && pr.pc.session in s.dirs
            && Accepts(pr.job.target) && AcceptsSecret(pr.acked.value)
            && Has(s.dirs[pr.pc.session].files, SERVICE, ServiceText(pr.job.target, pr.job.port))
            && Has(s.dirs[pr.pc.session].files, PASSFILE, PrivateText(pr.job.target, pr.job.port, pr.acked.value))
            && (Sharing(pr) ==> Expected(pr) == pr.acked)
  {
    assert ProcOk(w, s, p);
    hide Mutex, Inodes, Ports, ContentOk, Leads, Entries;
    hide DoomOk, ServiceText, PrivateText, Accepts, AcceptsSecret, WorldOk;
  }

  /** After an Update that returned nil, while no call is in progress, the private password
      file holds the secret that the shared file is bound to hold, and answers with it under
      127.0.0.1; and the service file reads as the target's settings. */
  lemma PrivateFilesAgree(w: World, states: seq<State>, k: nat, p: Pid)
    requires Run(w, states) && k < |states| && p in states[k].procs
    requires states[k].procs[p].pc.Owning? && states[k].procs[p].pc.task == Idle(true)
    ensures var s, pr := states[k], states[k].procs[p];
            && pr.job.Prepare? && pr.acked.Some? && pr.pc.session in s.dirs
            && var files, t := s.dirs[pr.pc.session].files, pr.job.target;
            && "pgpass" in files && "pg_service.conf" in files
            && Passfile.Lookup(files["pgpass"], ["127.0.0.1", Decimal(pr.job.port), t.database, t.user]) == pr.acked
            && ReadService(files["pg_service.conf"], "pg-tunnel", false) == Some(Settings(t, pr.job.port))
            && (Sharing(pr) ==> Expected(pr) == pr.acked)
  {
    hide Run, Inv, Sharing, Expected, Passfile.Lookup, ReadService;
    hide ServiceText, PrivateText, Settings, Accepts, AcceptsSecret;
    RunInv(w, states, k);
    IdleFiles(w, states[k], p);
    var pr := states[k].procs[p];
    PrivateFileAnswers(pr.job.target, pr.job.port, pr.acked.value);
    ServiceRoundTrip(pr.job.target, pr.job.port);
  }

  // ---- Recovery ----

  lemma DoomedFixed(w: World, states: seq<State>, k: nat, p: Pid)
    requires Run(w, states) && k + 1 < |states| && p in states[k].procs && !states[k].procs[p].pc.Waiting?
    ensures p in states[k + 1].procs && !states[k + 1].procs[p].pc.Waiting?
    ensures states[k + 1].procs[p].doomed == states[k].procs[p].doomed
  {
    RunInv(w, states, k);
    var s, s' := states[k], states[k + 1];
    assert Next(w, states[k], states[k + 1]);
    hide Inv, Act, Footprint;
    if q, files, job :| Starts(s, s', q, files, job) {
    } else {
      var q, c :| q in s.procs && Act(w, s, q, c) == Some(s');
      ActKeeps(w, s, q, c, s');
      FootprintDoomed(w, s, q, s', p);
    }
  }

  lemma FootprintDoomed(w: World, s: State, q: Pid, s': State, p: Pid)
    requires Footprint(w, s, q, s') && p in s.procs && !s.procs[p].pc.Waiting?
    ensures p in s'.procs && !s'.procs[p].pc.Waiting? && s'.procs[p].doomed == s.procs[p].doomed
  {}

  lemma {:induction false} DoomedLater(w: World, states: seq<State>, i: nat, j: nat, p: Pid)
    requires Run(w, states) && i <= j < |states| && p in states[i].procs && !states[i].procs[p].pc.Waiting?
    ensures p in states[j].procs && states[j].procs[p].doomed == states[i].procs[p].doomed
    ensures !states[j].procs[p].pc.Waiting?
  {
    hide Run;
    if i < j {
      DoomedLater(w, states, i, j - 1, p);
      DoomedFixed(w, states, j - 1, p);
    }
  }

  lemma RecoveredClean(w: World, s: State, p: Pid, name: string)
    requires Inv(w, s) && p in s.procs && s.procs[p].pc.Recovered? && name in s.procs[p].doomed
    ensures name !in s.dirs
    ensures s.procs[p].files.pgpass ==> NoEntry(s.log, name)
  {
    hide Inv, Entries, Untied;
    ProcDoom(w, s, p);
  }

  lemma ProcDoom(w: World, s: State, p: Pid)
    requires Inv(w, s) && p in s.procs
    ensures DoomOk(w, s, p)
  {
    hide Mutex, Inodes, Ports, ContentOk, DoomOk, WorldOk, SeatOk;
    hide SweepOk, EditOk, TaskOk, PublishedOk, PrivateOk, CleanOk;
    assert ProcOk(w, s, p);
  }

  lemma DoomedAtLock(w: World, s: State, p: Pid, c: Choice, s': State, name: string)
    requires p in s.procs && s.procs[p].pc.Waiting? && c.Go? && RootAct(w, s, p, c) == Some(s')
    requires name in w.names && Untied(s, name)
    ensures p in s'.procs && name in s'.procs[p].doomed && !s'.procs[p].pc.Waiting?
  {
    hide Tie, RootFree;
  }

  /** Recovery is complete: when the recovery of a process that took the root lock in step `i`
      has succeeded in state `j`, no session that was over in state `i` has a directory left,
      nor a block in the shared file if one is configured. */
  lemma RecoveryIsComplete(w: World, states: seq<State>, i: nat, j: nat, p: Pid, name: string)
    requires Run(w, states) && i < j < |states| && p in states[i].procs && p in states[j].procs
    requires states[i].procs[p].pc.Waiting? && RootAct(w, states[i], p, Go) == Some(states[i + 1])
    requires states[j].procs[p].pc.Recovered?
    requires name in w.names && Untied(states[i], name)
    ensures name !in states[j].dirs
    ensures states[j].procs[p].files.pgpass ==> NoEntry(states[j].log, name)
  {
    hide Run, Entries, RootAct, Untied, Inv;
    DoomedAtLock(w, states[i], p, Go, states[i + 1], name);
    DoomedLater(w, states, i + 1, j, p);
    RunInv(w, states, j);
    RecoveredClean(w, states[j], p, name);
  }

  /** And no copy of the password file that a killed write left is still there when the pruning
      is over, nor anything else that is named like one. */
  lemma RecoveryRemovesCopies(w: World, states: seq<State>, k: nat, p: Pid, copy: string)
    requires Run(w, states) && k < |states| && p in states[k].procs && states[k].procs[p].pc.Pruned?
    requires copy in states[k].home
    ensures !IsLeftover(SHARED, copy)
  {
    RunInv(w, states, k);
    assert ProcOk(w, states[k], p);
    hide Mutex, Inodes, ContentOk, DoomOk, IsLeftover;
  }

  /** This is where a file of the user can go that no write has made: BystandersKept has no
      other exception. */
  lemma RecoveryTakesLookalikes(w: World, states: seq<State>, k: nat, p: Pid)
    requires Run(w, states) && k < |states| && p in states[k].procs && states[k].procs[p].pc.Pruned?
    ensures var backup := TempPrefix(SHARED) + "backup"; !IsTemp(SHARED, backup) && backup !in states[k].home
  {
    hide Run, IsTemp, IsLeftover;
    LeftoversNeedNotBeTemps(SHARED);
    var backup := TempPrefix(SHARED) + "backup";
    if backup in states[k].home { RecoveryRemovesCopies(w, states, k, p, backup); }
  }
}
