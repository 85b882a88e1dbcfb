/** Which sessions have a block in the shared file, and what an Update that fails leaves. */
module SessionSharing {
  import opened Text
  import Passfile
  import Blocks
  import opened AtomicFile
  import opened SharedFile
  import opened ClientFiles
  import opened Sessions
  import opened SessionInvariant
  import opened SessionTheorems

  // ---- Blocks come and go with their sessions ----

  ghost predicate HasBlock(log: seq<Event>, session: string) {
    exists e :: e in Entries(log) && e.session == session
  }

  /** An edit of one session leaves the blocks of the others. */
  lemma OtherBlocks(log: seq<Event>, event: Event, session: string)
    requires SessionOf(event) != session
    ensures HasBlock(log + [event], session) <==> HasBlock(log, session)
  {
    var more := log + [event];
    assert more[..|more| - 1] == log;
    Dropped(Entries(log), SessionOf(event), session);
    hide Dropping;
    var others := Dropping(Entries(log), SessionOf(event));
    assert Entries(more) == if event.Published? then [event.entry] + others else others;
  }

  lemma {:induction false} Dropped(entries: seq<Entry>, session: string, other: string)
    requires session != other
    ensures (exists e :: e in Dropping(entries, session) && e.session == other) <==>
      (exists e :: e in entries && e.session == other)
  {
    if entries != [] {
      Dropped(entries[1..], session, other);
      assert entries == [entries[0]] + entries[1..];
      assert entries[0] in entries && forall e | e in entries[1..] :: e in entries;
      if entries[0].session != session {
        var kept := [entries[0]] + Dropping(entries[1..], session);
        assert entries[0] in kept && forall e | e in Dropping(entries[1..], session) :: e in kept;
      }
    }
  }

  /** No step of another process makes or takes a session's block. */
  lemma BlockKeptByOthers(w: World, s: State, p: Pid, s': State, q: Pid)
    requires Inv(w, s) && Footprint(w, s, p, s') && q in s.procs && p != q && Seat(s.procs[q].pc).Some?
    ensures HasBlock(s'.log, Seat(s.procs[q].pc).value.0) <==> HasBlock(s.log, Seat(s.procs[q].pc).value.0)
  {
    FootprintProc(w, s, p, s');
    ProcParts(w, s, p);
    ProcParts(w, s, q);
    InvParts(w, s);
    hide Inv, ProcOk, Inodes, Ports, SeatOk, DoomOk, EventFrom, Seat, HasBlock, Over, Bytes, NewText;
    hide Bystanders, MakesNone, LocksStep, TiesStep, DirsStep;
    if s'.log != s.log {
      var event := s'.log[|s.log|];
      OtherEvent(w, s, p, q, event);
      OtherBlocks(s.log, event, Seat(s.procs[q].pc).value.0);
    }
  }

  lemma InvParts(w: World, s: State)
    requires Inv(w, s)
    ensures Inodes(s) && Ports(s)
  {
    hide Inodes, Ports, Mutex, ContentOk, WorldOk, ProcOk;
  }

  lemma ProcParts(w: World, s: State, p: Pid)
    requires Inv(w, s) && p in s.procs
    ensures SeatOk(w, s.dirs, s.procs[p]) && DoomOk(w, s, p) && TaskOk(s.procs[p])
  {
    assert ProcOk(w, s, p);
    hide Inodes, Ports, Mutex, ContentOk, WorldOk, SeatOk, DoomOk, TaskOk, EditOk, PublishedOk, PrivateOk;
  }

  /** A session that does not share makes no edit. */
  lemma UnsharedEditsNothing(w: World, s: State, p: Pid, s': State)
    requires Inv(w, s) && Footprint(w, s, p, s') && p in s.procs
    requires Seat(s.procs[p].pc).Some? && !Sharing(s.procs[p])
    ensures s'.log == s.log
  {
    ProcParts(w, s, p);
    hide Inv, SeatOk, DoomOk, FileStep, LocksStep, TiesStep, DirsStep, ProcsStep, Shares, Accepts, AcceptsSecret;
    assert !HoldsShared(s.procs[p].pc);
  }

  /** Inodes are not used again. */
  lemma {:induction false} InodesGrow(w: World, states: seq<State>, i: nat, j: nat)
    requires Run(w, states) && i <= j < |states|
    ensures states[i].nextInode <= states[j].nextInode
  {
    hide Initial, Inv, Act, Footprint;
    if i < j {
      InodesGrow(w, states, i, j - 1);
      RunInv(w, states, j - 1);
      var s, s' := states[j - 1], states[j];
      assert Next(w, states[j - 1], states[j - 1 + 1]);
      if p, files, job :| Starts(s, s', p, files, job) {
      } else {
        var p, c :| p in s.procs && Act(w, s, p, c) == Some(s');
        ActKeeps(w, s, p, c, s');
        InodeStep(w, s, p, s');
      }
    }
  }

  lemma InodeStep(w: World, s: State, p: Pid, s': State)
    requires Footprint(w, s, p, s')
    ensures s.nextInode <= s'.nextInode
  {
    hide FileStep, LocksStep, TiesStep, HoldsShared;
  }

  /** The step after which the seat was there did not make it. */
  lemma SeatBefore(w: World, s: State, p: Pid, s': State, q: Pid, seat: (string, Inode))
    requires Footprint(w, s, p, s') && q in s'.procs && Seat(s'.procs[q].pc) == Some(seat) && seat.1 < s.nextInode
    ensures q in s.procs && Seat(s.procs[q].pc) == Some(seat)
    ensures s'.procs[q].files == s.procs[q].files && s'.procs[q].job == s.procs[q].job
  {
    hide FileStep, LocksStep, HoldsShared, DirsStep;
  }

  /** While a session that does not share has its directory, its name has a block exactly if
      it had one when the directory was made. */
  lemma {:induction false} BlockLasts(w: World, states: seq<State>, i: nat, j: nat, p: Pid, seat: (string, Inode))
    requires Run(w, states) && i <= j < |states| && seat.1 < states[i].nextInode
    requires p in states[j].procs && Seat(states[j].procs[p].pc) == Some(seat) && !Sharing(states[j].procs[p])
    ensures HasBlock(states[j].log, seat.0) <==> HasBlock(states[i].log, seat.0)
  {
    hide Initial, Inv, Act, Footprint, Seat, HasBlock, Shares;
    if i < j {
      RunInv(w, states, j - 1);
      InodesGrow(w, states, i, j - 1);
      var s, s' := states[j - 1], states[j];
      assert Next(w, states[j - 1], states[j - 1 + 1]);
      if q, files, job :| Starts(s, s', q, files, job) {
        StartSeat(s, s', q, files, job, p, seat);
        BlockLasts(w, states, i, j - 1, p, seat);
      } else {
        var q, c :| q in s.procs && Act(w, s, q, c) == Some(s');
        ActKeeps(w, s, q, c, s');
        SeatBefore(w, s, q, s', p, seat);
        BlockLasts(w, states, i, j - 1, p, seat);
        if q == p { UnsharedEditsNothing(w, s, p, s'); } else { BlockKeptByOthers(w, s, q, s', p); }
      }
    }
  }

  lemma StartSeat(s: State, s': State, q: Pid, files: Files, job: Request, p: Pid, seat: (string, Inode))
    requires Starts(s, s', q, files, job) && p in s'.procs && Seat(s'.procs[p].pc) == Some(seat)
    ensures p in s.procs && s'.procs[p] == s.procs[p] && s'.log == s.log
  {}

  /** After an Update that returned nil the session has a block in the shared file exactly when
      one is configured, and for any port or for its own; except that a session without one
      keeps a block that its name had already when its directory was made. */
  lemma PublishedIff(w: World, states: seq<State>, i: nat, k: nat, p: Pid)
    requires Run(w, states) && i <= k < |states| && p in states[i].procs && p in states[k].procs
    requires states[i].procs[p].pc.Made? && states[k].procs[p].pc.Owning? && states[k].procs[p].pc.task == Idle(true)
    requires states[k].procs[p].pc.session == states[i].procs[p].pc.session
    requires states[k].procs[p].pc.inode == states[i].procs[p].pc.inode
    ensures states[k].procs[p].job.Prepare?
    ensures var f, port := states[k].procs[p].files, states[k].procs[p].job.port;
      var session := states[k].procs[p].pc.session;
      HasBlock(states[k].log, session) <==>
        || (f.pgpass && (f.anyPort || (f.localPort != 0 && f.localPort == port)))
        || HasBlock(states[i].log, session)
  {
    IdleIsPrepared(w, states, k, p);
    var pr := states[k].procs[p];
    assert Sharing(pr) <==>
      (pr.files.pgpass && (pr.files.anyPort || (pr.files.localPort != 0 && pr.files.localPort == pr.job.port)));
    hide Run, Shares, HasBlock;
    if Sharing(pr) { SharedHasBlock(w, states, k, p); } else { UnsharedBlock(w, states, i, k, p); }
  }

  lemma IdleIsPrepared(w: World, states: seq<State>, k: nat, p: Pid)
    requires Run(w, states) && k < |states| && p in states[k].procs
    requires states[k].procs[p].pc.Owning? && states[k].procs[p].pc.task == Idle(true)
    ensures states[k].procs[p].job.Prepare?
    ensures Sharing(states[k].procs[p]) ==> Expected(states[k].procs[p]).Some?
  {
    RunInv(w, states, k);
    IdleFiles(w, states[k], p);
    hide Run, Inv, Shares, Accepts, AcceptsSecret, ServiceText, PrivateText, Expected;
  }

  lemma SharedHasBlock(w: World, states: seq<State>, k: nat, p: Pid)
    requires Run(w, states) && k < |states| && p in states[k].procs && Sharing(states[k].procs[p])
    requires states[k].procs[p].pc.Owning? && states[k].procs[p].pc.task == Idle(true)
    ensures HasBlock(states[k].log, states[k].procs[p].pc.session)
  {
    IdleIsPrepared(w, states, k, p);
    LiveSessionKept(w, states, k, p);
    hide Run, Entries, Shares, Expected;
  }

  lemma UnsharedBlock(w: World, states: seq<State>, i: nat, k: nat, p: Pid)
    requires Run(w, states) && i <= k < |states| && p in states[i].procs && p in states[k].procs
    requires states[i].procs[p].pc.Made? && states[k].procs[p].pc.Owning? && states[k].procs[p].pc.task == Idle(true)
    requires states[k].procs[p].pc.session == states[i].procs[p].pc.session
    requires states[k].procs[p].pc.inode == states[i].procs[p].pc.inode && !Sharing(states[k].procs[p])
    ensures var session := states[k].procs[p].pc.session;
      HasBlock(states[k].log, session) <==> HasBlock(states[i].log, session)
  {
    hide Run, Inv, Shares, HasBlock;
    RunInv(w, states, i);
    MadeInode(w, states[i], p);
    BlockLasts(w, states, i, k, p, (states[k].procs[p].pc.session, states[k].procs[p].pc.inode));
  }

  lemma MadeInode(w: World, s: State, p: Pid)
    requires Inv(w, s) && p in s.procs && s.procs[p].pc.Made?
    ensures s.procs[p].pc.inode < s.nextInode
  {
    InvParts(w, s);
    hide Inv;
    assert Tie(s.procs[p].pc).Some?;
  }

  // ---- Update returns ----

  /** What a step of a session that serves its client comes to. */
  ghost predicate Returns(pr: Proc, pr': Proc)
    requires pr.pc.Owning? && Serving(pr.pc.task)
  {
    var task := pr.pc.task;
    && pr'.files == pr.files && pr'.job == pr.job
    && pr'.pc.Owning? && pr'.pc.session == pr.pc.session && pr'.pc.inode == pr.pc.inode
    && !pr'.pc.starting && Serving(pr'.pc.task)
    && (if task.Idle? || !pr'.pc.task.Idle? then pr'.acked == pr.acked && pr'.late == pr.late
        else if pr'.pc.task.agreed then pr'.acked == Some(task.secret) && pr'.late == None
        else pr'.acked == pr.acked &&
             pr'.late == if task == Updating(task.secret, Committed(false)) then Some(task.secret) else pr.late)
  }

  lemma PrivateReturns(s: State, p: Pid, c: Choice, s': State)
    requires p in s.procs && s.procs[p].job.Prepare? && s.procs[p].pc.Owning? && !s.procs[p].pc.starting
    requires s.procs[p].pc.task.Private? && UpdateAct(s, p, c) == Some(s')
    ensures p in s'.procs && Returns(s.procs[p], s'.procs[p])
  {
    hide WriteAct, PrivateText, AcceptsSecret, Shares;
  }

  lemma SharedReturns(s: State, p: Pid, c: Choice, s': State)
    requires p in s.procs && s.procs[p].job.Prepare? && s.procs[p].pc.Owning? && !s.procs[p].pc.starting
    requires s.procs[p].pc.task.AwaitingUpdate? || s.procs[p].pc.task.Updating?
    requires UpdateAct(s, p, c) == Some(s')
    ensures p in s'.procs && Returns(s.procs[p], s'.procs[p])
  {
    hide EditAct, OwnEvent, Shares, SharedFree;
  }

  lemma IdleReturns(s: State, p: Pid, c: Choice, s': State)
    requires p in s.procs && s.procs[p].job.Prepare? && s.procs[p].pc.Owning? && !s.procs[p].pc.starting
    requires s.procs[p].pc.task.Idle? && !c.Close? && UpdateAct(s, p, c) == Some(s')
    ensures p in s'.procs && Returns(s.procs[p], s'.procs[p])
  {}

  /** A session that Prepare has returned serves its client until Close is called or its
      process is killed, whatever fails. Update returns nil and acknowledges its secret, or an
      error and leaves what was acknowledged; only one that fails after its rename leaves
      its secret behind. */
  lemma ServesOn(w: World, s: State, p: Pid, c: Choice, s': State)
    requires Inv(w, s) && p in s.procs && Act(w, s, p, c) == Some(s') && !c.Kill?
    requires s.procs[p].pc.Owning? && !s.procs[p].pc.starting && Serving(s.procs[p].pc.task)
    requires s.procs[p].pc.task.Idle? ==> !c.Close?
    ensures p in s'.procs && Returns(s.procs[p], s'.procs[p])
  {
    ProcParts(w, s, p);
    hide Inv, Act, UpdateAct, CloseAct, DoomOk, SeatOk, Returns, Accepts, AcceptsSecret, Shares;
    OwnerAct(w, s, p, c);
    var task := s.procs[p].pc.task;
    if task.Private? {
      PrivateReturns(s, p, c, s');
    } else if task.Idle? {
      IdleReturns(s, p, c, s');
    } else {
      SharedReturns(s, p, c, s');
    }
  }

  /** Prepare has returned nil, and so has acknowledged a secret. */
  predicate Acknowledged(pr: Proc) { pr.pc.Owning? && !pr.pc.starting ==> pr.acked.Some? }

  lemma ServiceAcknowledges(s: State, p: Pid, c: Choice, s': State)
    requires p in s.procs && s.procs[p].job.Prepare? && s.procs[p].pc.Owning? && Acknowledged(s.procs[p])
    requires s.procs[p].pc.task.Service? && UpdateAct(s, p, c) == Some(s')
    ensures p in s'.procs && Acknowledged(s'.procs[p])
  {
    hide Shares, WriteAct, ServiceText, Accepts;
  }

  lemma PrivateAcknowledges(s: State, p: Pid, c: Choice, s': State)
    requires p in s.procs && s.procs[p].job.Prepare? && s.procs[p].pc.Owning? && Acknowledged(s.procs[p])
    requires s.procs[p].pc.task.Private? && UpdateAct(s, p, c) == Some(s')
    ensures p in s'.procs && Acknowledged(s'.procs[p])
  {
    hide Shares, WriteAct, PrivateText, AcceptsSecret;
  }

  lemma SharedAcknowledges(s: State, p: Pid, c: Choice, s': State)
    requires p in s.procs && s.procs[p].job.Prepare? && s.procs[p].pc.Owning? && Acknowledged(s.procs[p])
    requires !s.procs[p].pc.task.Service? && !s.procs[p].pc.task.Private? && UpdateAct(s, p, c) == Some(s')
    requires s.procs[p].pc.task.Idle? ==> !s.procs[p].pc.starting
    ensures p in s'.procs && Acknowledged(s'.procs[p])
  {
    hide EditAct, OwnEvent, Shares, SharedFree;
  }

  lemma CloseAcknowledges(s: State, p: Pid, c: Choice, s': State)
    requires p in s.procs && s.procs[p].job.Prepare? && s.procs[p].pc.Owning? && Acknowledged(s.procs[p])
    requires CloseAct(s, p, c) == Some(s')
    ensures p in s'.procs && Acknowledged(s'.procs[p])
  {
    hide EditAct, OwnEvent, SharedFree, Remaining;
  }

  lemma OthersAcknowledge(w: World, s: State, p: Pid, c: Choice, s': State)
    requires p in s.procs && Act(w, s, p, c) == Some(s') && (!s.procs[p].pc.Owning? || c.Kill?)
    ensures p in s'.procs && Acknowledged(s'.procs[p])
  {
    hide RootAct, SweepAct, PruneAct, MakeAct;
    if c.Kill? {
      assert s'.procs[p].pc == Crashed;
    } else {
      RecoveryOwnsNothing(w, s, p, c);
    }
  }

  /** Only lockDirectory makes an owner, and Prepare has not returned then. */
  lemma RecoveryOwnsNothing(w: World, s: State, p: Pid, c: Choice)
    requires p in s.procs
    ensures NoOwner(RootAct(w, s, p, c), p) && NoOwner(MakeAct(w, s, p, c), p)
    ensures NoOwner(SweepAct(s, p, c), p) && NoOwner(PruneAct(s, p, c), p)
  {
    hide RootAct, SweepAct, PruneAct, MakeAct, NoOwner;
    RootOwnsNothing(w, s, p, c);
    SweepOwnsNothing(s, p, c);
    PruneOwnsNothing(s, p, c);
  }

  predicate NoOwner(next: Option<State>, p: Pid) {
    next.Some? ==> p in next.value.procs && (next.value.procs[p].pc.Owning? ==> next.value.procs[p].pc.starting)
  }

  lemma RootOwnsNothing(w: World, s: State, p: Pid, c: Choice)
    requires p in s.procs
    ensures NoOwner(RootAct(w, s, p, c), p) && NoOwner(MakeAct(w, s, p, c), p)
  {
    hide RootFree, FlockFree, Abandoned;
  }

  lemma SweepOwnsNothing(s: State, p: Pid, c: Choice)
    requires p in s.procs
    ensures NoOwner(SweepAct(s, p, c), p)
  {
    hide FlockFree, Remaining;
  }

  lemma PruneOwnsNothing(s: State, p: Pid, c: Choice)
    requires p in s.procs
    ensures NoOwner(PruneAct(s, p, c), p)
  {
    hide SharedFree, EditAct, LinesOf, Missing, Blocks.BlockSession, IsLeftover, SHARED;
  }

  lemma StepAcknowledges(w: World, s: State, p: Pid, c: Choice, s': State)
    requires Inv(w, s) && p in s.procs && Act(w, s, p, c) == Some(s') && Acknowledged(s.procs[p])
    ensures p in s'.procs && Acknowledged(s'.procs[p])
  {
    ProcParts(w, s, p);
    hide Inv, Act, UpdateAct, CloseAct, DoomOk, SeatOk, Accepts, AcceptsSecret, Shares, Acknowledged;
    if !s.procs[p].pc.Owning? || c.Kill? {
      OthersAcknowledge(w, s, p, c, s');
    } else {
      OwnerAct(w, s, p, c);
      var task := s.procs[p].pc.task;
      if Ending(task) {
        CloseAcknowledges(s, p, c, s');
      } else if task.Service? {
        ServiceAcknowledges(s, p, c, s');
      } else if task.Private? {
        PrivateAcknowledges(s, p, c, s');
      } else {
        SharedAcknowledges(s, p, c, s');
      }
    }
  }

  /** In every state of every run. */
  lemma {:induction false} AcknowledgedSince(w: World, states: seq<State>, k: nat, p: Pid)
    requires Run(w, states) && k < |states| && p in states[k].procs
    ensures Acknowledged(states[k].procs[p])
  {
    hide Initial, Inv, Act, Acknowledged, Sessions.Starts;
    if k == 0 {
      NobodyAtFirst(w, states);
    } else {
      RunInv(w, states, k - 1);
      var s, s' := states[k - 1], states[k];
      assert Next(w, states[k - 1], states[k - 1 + 1]);
      if q, files, job :| Starts(s, s', q, files, job) {
        StartAcknowledges(s, s', q, files, job, p);
        if p in s.procs { AcknowledgedSince(w, states, k - 1, p); }
      } else {
        var q, c :| q in s.procs && Act(w, s, q, c) == Some(s');
        ActProcs(w, s, q, c, s');
        AcknowledgedSince(w, states, k - 1, p);
        if p == q { StepAcknowledges(w, s, p, c, s'); }
      }
    }
  }

  lemma NobodyAtFirst(w: World, states: seq<State>)
    requires Run(w, states)
    ensures states[0].procs == map[]
  {}

  lemma StartAcknowledges(s: State, s': State, q: Pid, files: Files, job: Request, p: Pid)
    requires Starts(s, s', q, files, job) && p in s'.procs
    ensures if p in s.procs then s'.procs[p] == s.procs[p] else Acknowledged(s'.procs[p])
  {}

  lemma ActProcs(w: World, s: State, q: Pid, c: Choice, s': State)
    requires Inv(w, s) && q in s.procs && Act(w, s, q, c) == Some(s')
    ensures s'.procs.Keys == s.procs.Keys && forall p | p in s.procs && p != q :: s'.procs[p] == s.procs[p]
  {
    ActKeeps(w, s, q, c, s');
    hide Act, Inv, FileStep, LocksStep, TiesStep, DirsStep;
  }

  lemma OwnStep(w: World, s: State, q: Pid, c: Choice, s': State, p: Pid)
    requires Inv(w, s) && q in s.procs && Act(w, s, q, c) == Some(s') && p in s.procs && p in s'.procs
    requires s'.procs[p] != s.procs[p]
    ensures q == p
  {
    ActKeeps(w, s, q, c, s');
    hide Act, Inv, FileStep, LocksStep, TiesStep, DirsStep;
  }

  lemma KillEnds(w: World, s: State, p: Pid, c: Choice, s': State)
    requires p in s.procs && Act(w, s, p, c) == Some(s') && c.Kill?
    ensures p in s'.procs && s'.procs[p].pc == Crashed
  {
    hide RootAct, SweepAct, PruneAct, MakeAct, UpdateAct, CloseAct;
  }

  /** In every run, an Update that returns an error before its rename leaves the session with
      its directory, and in the shared file with the secret that it had. */
  lemma FailedUpdateKeeps(w: World, states: seq<State>, k: nat, p: Pid)
    requires Run(w, states) && k + 1 < |states| && p in states[k].procs && p in states[k + 1].procs
    requires var pc := states[k].procs[p].pc;
      pc.Owning? && !pc.starting && Serving(pc.task) && !pc.task.Idle? &&
      !(pc.task.Updating? && pc.task.edit.Committed?)
    requires states[k + 1].procs[p].pc.Owning? && states[k + 1].procs[p].pc.task == Idle(false)
    ensures var s', pr, pr' := states[k + 1], states[k].procs[p], states[k + 1].procs[p];
      && pr'.pc.session == pr.pc.session && pr'.acked == pr.acked && pr'.late == pr.late
      && pr.pc.session in s'.dirs && pr.job.Prepare? && pr.acked.Some?
      && (Sharing(pr) ==>
            Passfile.Lookup(Bytes(s'.home), LocalKey(pr.job)) ==
              if pr.late.Some? then pr.late else pr.acked)
  {
    UpdateStep(w, states, k, p);
    hide Run, Shares, Passfile.Lookup, Bytes;
    LiveSessionKept(w, states, k + 1, p);
    AcknowledgedSince(w, states, k, p);
    if Sharing(states[k].procs[p]) { LookupFindsSession(w, states, k + 1, p); }
  }

  lemma UpdateStep(w: World, states: seq<State>, k: nat, p: Pid)
    requires Run(w, states) && k + 1 < |states| && p in states[k].procs && p in states[k + 1].procs
    requires states[k + 1].procs[p].pc.Owning? && states[k + 1].procs[p].pc.task.Idle?
    requires var pc := states[k].procs[p].pc; pc.Owning? && !pc.starting && Serving(pc.task) && !pc.task.Idle?
    ensures Returns(states[k].procs[p], states[k + 1].procs[p]) && states[k].procs[p].job.Prepare?
  {
    RunInv(w, states, k);
    var s, s' := states[k], states[k + 1];
    ProcParts(w, s, p);
    assert Next(w, states[k], states[k + 1]);
    hide Inv, Act, DoomOk, SeatOk, Accepts, AcceptsSecret, Shares, Returns;
    if q, files, job :| Starts(s, s', q, files, job) {
      assert false;
    } else {
      var q, c :| q in s.procs && Act(w, s, q, c) == Some(s');
      OwnStep(w, s, q, c, s', p);
      if c.Kill? { KillEnds(w, s, p, c, s'); }
      ServesOn(w, s, p, c, s');
    }
  }
}
