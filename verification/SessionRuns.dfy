/** Runs built step by step, with one process: a recovery of any home directory, and a session
    whose Update fails only after its rename. */
module SessionRuns {
  import opened Text
  import Passfile
  import opened Blocks
  import opened AtomicFile
  import opened SharedFile
  import opened ClientFiles
  import opened Sessions
  import opened SessionInvariant
  import opened SessionTheorems

  /** Process 0 is the only one. */
  ghost predicate Alone(s: State, pr: Proc) { s.procs == map[0 := pr] }

  /** A run with its states at hand. */
  ghost predicate Ran(w: World, states: seq<State>) { states != [] && Run(w, states) }

  ghost predicate Empty(s: State, pr: Proc) { Alone(s, pr) && s.dirs == map[] }

  function Fresh(w: World, files: Files, job: Request, pc: Pc): Proc { Proc(files, job, w.names, None, None, pc) }

  lemma MoveAlone(s: State, pr: Proc, pc: Pc)
    requires Alone(s, pr)
    ensures Alone(Move(s, 0, pc), pr.(pc := pc))
  {}

  lemma Extended(w: World, states: seq<State>, p: Pid, c: Choice) returns (more: seq<State>)
    requires Ran(w, states) && p in Last(states).procs && Act(w, Last(states), p, c).Some?
    ensures Ran(w, more) && |more| == |states| + 1 && states <= more && more[0] == states[0]
    ensures Last(more) == Act(w, Last(states), p, c).value
  {
    hide Act, Initial;
    var s' := Act(w, Last(states), p, c).value;
    more := states + [s'];
    assert Sessions.Next(w, Last(states), s');
    forall i | 0 <= i < |more| - 1 ensures Sessions.Next(w, more[i], more[i + 1]) {
      if i < |states| - 1 {
        assert more[i] == states[i] && more[i + 1] == states[i + 1];
      } else {
        assert more[i] == Last(states) && more[i + 1] == s';
      }
    }
  }

  // ---- Recovery ----

  /** A step of the recovery that only moves on. */
  lemma Moves(w: World, states: seq<State>, c: Choice, pr: Proc, pc: Pc) returns (more: seq<State>)
    requires Ran(w, states) && Empty(Last(states), pr)
    requires Act(w, Last(states), 0, c) == Some(Move(Last(states), 0, pc))
    ensures Ran(w, more) && more[0] == states[0] && Empty(Last(more), pr.(pc := pc))
    ensures Last(more) == Move(Last(states), 0, pc)
  {
    hide Run, Act;
    more := Extended(w, states, 0, c);
    MoveAlone(Last(states), pr, pc);
  }

  /** A machine with this home directory, where no session was ever made. */
  function Unused(home: Directory): State { State(map[], home, [], map[], 0) }

  lemma UnusedIsInitial(w: World, home: Directory)
    requires WorldOk(w) && Bytes(home) == w.user
    ensures Initial(w, Unused(home))
  {
    hide WorldOk, Bytes;
    assert Content([], w.user) == "" + w.user == w.user;
  }

  lemma BeginRun(w: World, s0: State, files: Files, job: Request) returns (states: seq<State>)
    requires Initial(w, s0) && s0.dirs == map[]
    ensures Ran(w, states) && states[0] == s0
    ensures Empty(Last(states), Proc(files, job, {}, None, None, Waiting))
    ensures Last(states).home == s0.home && Last(states).log == s0.log
  {
    hide WorldOk, ContentOk;
    var s1 := s0.(procs := s0.procs[0 := Proc(files, job, {}, None, None, Waiting)]);
    assert Sessions.Starts(s0, s1, 0, files, job);
    assert Sessions.Next(w, s0, s1);
    states := [s0, s1];
    forall i | 0 <= i < |states| - 1 ensures Sessions.Next(w, states[i], states[i + 1]) { assert i == 0; }
  }

  lemma FirstLock(w: World, s: State, files: Files, job: Request)
    requires Alone(s, Proc(files, job, {}, None, None, Waiting))
    ensures var s' := s.(procs := map[0 := Fresh(w, files, job, Listing)]);
      Act(w, s, 0, Go) == Some(s')
  {
    assert Abandoned(w, s) == w.names;
    assert RootFree(s);
    assert s.procs[0 := s.procs[0].(doomed := w.names, pc := Listing)] == map[0 := Fresh(w, files, job, Listing)];
  }

  lemma ToTheSweep(w: World, s0: State, files: Files, job: Request) returns (states: seq<State>)
    requires Initial(w, s0) && s0.dirs == map[]
    ensures Ran(w, states) && states[0] == s0
    ensures Empty(Last(states), Fresh(w, files, job, Sweeping([])))
    ensures Last(states).home == s0.home && Last(states).log == s0.log
  {
    hide Initial, Run, Bytes;
    states := BeginRun(w, s0, files, job);
    FirstLock(w, Last(states), files, job);
    states := Extended(w, states, 0, Go);
    assert (set n | n in []) == Last(states).dirs.Keys;
    states := Moves(w, states, Listed([]), Fresh(w, files, job, Listing), Sweeping([]));
  }

  lemma {:induction false} DeleteAll(w: World, states: seq<State>, pr: Proc, leftovers: set<string>)
    returns (more: seq<State>)
    requires Ran(w, states) && pr.pc == Deleting(leftovers) && Empty(Last(states), pr) && SHARED !in leftovers
    ensures Ran(w, more) && more[0] == states[0] && Empty(Last(more), pr.(pc := Deleting({})))
    ensures Bytes(Last(more).home) == Bytes(Last(states).home) && Last(more).log == Last(states).log
    decreases leftovers
  {
    hide Run;
    if leftovers == {} {
      more := states;
    } else {
      var name :| name in leftovers;
      MoveAlone(Last(states), pr, Deleting(leftovers - {name}));
      var fewer := Extended(w, states, 0, Pick(name));
      more := DeleteAll(w, fewer, pr.(pc := Deleting(leftovers - {name})), leftovers - {name});
    }
  }

  lemma ToTheCleaning(w: World, home: Directory, files: Files, job: Request) returns (states: seq<State>)
    requires WorldOk(w) && Bytes(home) == w.user && files.pgpass
    ensures Ran(w, states) && states[0].home == home
    ensures Empty(Last(states), Fresh(w, files, job, Cleaning))
    ensures Last(states).home == home && Last(states).log == []
  {
    hide WorldOk, Run, Bytes;
    UnusedIsInitial(w, home);
    hide Initial;
    states := ToTheSweep(w, Unused(home), files, job);
    states := Moves(w, states, Go, Fresh(w, files, job, Sweeping([])), AwaitingShared);
    assert SharedFree(Last(states));
    states := Moves(w, states, Go, Fresh(w, files, job, AwaitingShared), Cleaning);
  }

  /** Everything that looks like a copy is deleted, whatever it is. */
  lemma ToTheFile(w: World, home: Directory, files: Files, job: Request) returns (states: seq<State>)
    requires WorldOk(w) && Bytes(home) == w.user && files.pgpass
    ensures Ran(w, states) && states[0].home == home
    ensures Empty(Last(states), Fresh(w, files, job, Loading))
    ensures Bytes(Last(states).home) == w.user && Last(states).log == []
  {
    hide WorldOk, Run, IsLeftover, Bytes;
    states := ToTheCleaning(w, home, files, job);
    var leftovers := set n | n in home && IsLeftover(SHARED, n);
    TargetIsNoLeftover(SHARED);
    states := Moves(w, states, Go, Fresh(w, files, job, Cleaning), Deleting(leftovers));
    states := DeleteAll(w, states, Fresh(w, files, job, Deleting(leftovers)), leftovers);
    states := Moves(w, states, Go, Fresh(w, files, job, Deleting({})), Loading);
  }

  /** One operation of a removal. */
  lemma Prunes(w: World, states: seq<State>, c: Choice, pr: Proc, r: EditResult) returns (more: seq<State>)
    requires Ran(w, states) && Empty(Last(states), pr) && pr.pc.PruneEdit? && !c.Kill?
    requires EditAct(Last(states).home, Last(states).log, Event.Removed(pr.pc.name), pr.pc.edit, c) == Some(r)
    ensures Ran(w, more) && more[0] == states[0] && Empty(Last(more), pr.(pc := pr.pc.(edit := r.edit)))
    ensures Last(more).home == r.home && Last(more).log == r.log
  {
    assert !pr.pc.edit.Committed? && !pr.pc.edit.Broken?;
    hide Run, EditAct, Act, PruneAct;
    PrunerAct(w, Last(states), pr, c);
    MoveAlone(Last(states), pr, pr.pc.(edit := r.edit));
    more := Extended(w, states, 0, c);
  }

  lemma PrunerAct(w: World, s: State, pr: Proc, c: Choice)
    requires Alone(s, pr) && pr.pc.PruneEdit? && (pr.pc.edit.Reading? || pr.pc.edit.Editing?) && !c.Kill?
    ensures Act(w, s, 0, c) == match EditAct(s.home, s.log, Event.Removed(pr.pc.name), pr.pc.edit, c)
      case None => None
      case Some(r) => Some(Move(s, 0, pr.pc.(edit := r.edit)).(home := r.home, log := r.log))
  {
    hide EditAct;
  }

  /** The removal of one name, to its end. */
  lemma RemoveOne(w: World, states: seq<State>, pr: Proc) returns (more: seq<State>)
    requires Ran(w, states) && Empty(Last(states), pr) && pr.pc.PruneEdit? && pr.pc.edit.Reading?
    ensures Ran(w, more) && more[0] == states[0] && Empty(Last(more), pr.(pc := Pruning(pr.pc.lines)))
    ensures Last(more).log == Last(states).log + [Event.Removed(pr.pc.name)]
  {
    hide Run, NewText, IsTemp, Bytes;
    var s, event := Last(states), Event.Removed(pr.pc.name);
    var data := Bytes(s.home);
    more := Prunes(w, states, Go, pr, EditResult(s.home, s.log, Editing(data, Unopened)));
    var at := pr.(pc := pr.pc.(edit := Editing(data, Unopened)));
    if NewText(data, event) == data {
      more := Prunes(w, more, Go, at, EditResult(s.home, s.log + [event], Committed(true)));
    } else {
      more := RemoveFile(w, more, at);
    }
    more := Moves(w, more, Go, pr.(pc := pr.pc.(edit := Committed(true))), Pruning(pr.pc.lines));
  }

  lemma RemoveFile(w: World, states: seq<State>, pr: Proc) returns (more: seq<State>)
    requires Ran(w, states) && Empty(Last(states), pr) && pr.pc.PruneEdit?
    requires pr.pc.edit.Editing? && pr.pc.edit.write.Unopened?
    requires NewText(pr.pc.edit.data, Event.Removed(pr.pc.name)) != pr.pc.edit.data
    ensures Ran(w, more) && more[0] == states[0] && Empty(Last(more), pr.(pc := pr.pc.(edit := Committed(true))))
    ensures Last(more).log == Last(states).log + [Event.Removed(pr.pc.name)]
  {
    hide Run, NewText, IsTemp;
    var data, event := pr.pc.edit.data, Event.Removed(pr.pc.name);
    var text, log, home := NewText(data, event), Last(states).log, Last(states).home;
    var temp := FreshTemp(home, SHARED);
    var opening, filled := home[temp := ""], home[temp := ""][temp := text];
    more := Prunes(w, states, Writes(Opens(temp)), pr, EditResult(opening, log, Editing(data, Filling(temp))));
    var at := pr.(pc := pr.pc.(edit := Editing(data, Filling(temp))));
    more := Prunes(w, more, Writes(Flushes), at, EditResult(filled, log, Editing(data, Filled(temp))));
    at := pr.(pc := pr.pc.(edit := Editing(data, Filled(temp))));
    more := Prunes(w, more, Writes(Renames(true)), at,
      EditResult((filled - {temp})[SHARED := text], log + [event], Committed(true)));
  }

  /** Every begin line of a removable name leads to that name's removal. */
  lemma {:induction false} PruneLines(w: World, states: seq<State>, pr: Proc) returns (more: seq<State>)
    requires Ran(w, states) && Empty(Last(states), pr) && pr.pc.Pruning?
    ensures Ran(w, more) && more[0] == states[0] && Empty(Last(more), pr.(pc := Pruned))
    ensures forall e | e in Last(states).log :: e in Last(more).log
    ensures forall n | Removable(n) && HasBegin(pr.pc.lines, n) :: Event.Removed(n) in Last(more).log
    decreases |pr.pc.lines|
  {
    hide Run, BlockSession, Removable, HasBegin;
    var lines := pr.pc.lines;
    if lines == [] {
      more := Moves(w, states, Go, pr, Pruned);
      NoLines();
    } else {
      var begun, rest := BlockSession(lines[0]), lines[1..];
      var next: seq<State>;
      if begun.Some? && Removable(begun.value) {
        var edit := PruneEdit(begun.value, rest, Reading);
        next := Moves(w, states, Go, pr, edit);
        next := RemoveOne(w, next, pr.(pc := edit));
      } else {
        next := Moves(w, states, Go, pr, Pruning(rest));
      }
      more := PruneLines(w, next, pr.(pc := Pruning(rest)));
      forall n | Removable(n) && HasBegin(lines, n) ensures Event.Removed(n) in Last(more).log {
        if begun == Some(n) {
          assert Event.Removed(n) in Last(next).log;
        } else {
          LaterBegin(lines, n);
        }
      }
    }
  }

  lemma NoLines()
    ensures forall n :: !HasBegin([], n)
  {}

  lemma LaterBegin(lines: seq<string>, name: string)
    requires lines != [] && HasBegin(lines, name) && BlockSession(lines[0]) != Some(name)
    ensures HasBegin(lines[1..], name)
  {
    hide BlockSession;
    var i :| 0 <= i < |lines| && BlockSession(lines[i]) == Some(name);
    assert lines[1..][i - 1] == lines[i];
  }

  /** From every home directory with the user's bytes a recovery comes to the end of its
      pruning, and has performed a removal for each begin line of a removable name. */
  lemma RecoveryRun(w: World, home: Directory, files: Files, job: Request) returns (states: seq<State>)
    requires WorldOk(w) && Bytes(home) == w.user && files.pgpass
    ensures Ran(w, states) && states[0].home == home
    ensures Empty(Last(states), Fresh(w, files, job, Pruned))
    ensures forall n | Removable(n) && HasBegin(LinesOf(w.user), n) :: Event.Removed(n) in Last(states).log
  {
    hide WorldOk, Run, LinesOf, HasBegin, Removable;
    states := ToTheFile(w, home, files, job);
    if SHARED in Last(states).home {
      states := Moves(w, states, Go, Fresh(w, files, job, Loading), Pruning(LinesOf(w.user)));
      states := PruneLines(w, states, Fresh(w, files, job, Pruning(LinesOf(w.user))));
    } else {
      states := Moves(w, states, Go, Fresh(w, files, job, Loading), Pruned);
      assert LinesOf("") == [] by { EmptyLines(); }
      NoLines();
    }
  }

  lemma EmptyLines()
    ensures LinesOf("") == []
  {}

  /** A file of this name is what it was. */
  predicate Kept(before: State, after: State, name: string) {
    name in before.home ==> name in after.home && after.home[name] == before.home[name]
  }

  /** A file of the home directory, other than the shared one, survives every run exactly when
      its name does not begin like that of a copy of the password file. */
  lemma FileKeptIff(w: World, name: string)
    requires WorldOk(w) && name != SHARED
    ensures (forall states: seq<State>, k: nat | Run(w, states) && k < |states| :: Kept(states[0], states[k], name))
      <==> !IsLeftover(SHARED, name)
  {
    hide Run, WorldOk, IsLeftover;
    if IsLeftover(SHARED, name) {
      var states := LookalikeIsTaken(w, name, "");
      assert !Kept(states[0], states[|states| - 1], name);
    } else {
      forall states: seq<State>, k: nat | Run(w, states) && k < |states| ensures Kept(states[0], states[k], name) {
        BystandersKept(w, states, k);
        assert name in states[0].home ==> name in Bystanders(states[0].home);
        assert name in Bystanders(states[0].home) ==> name in Bystanders(states[k].home);
      }
    }
  }

  /** Such a file, whatever made it, is taken by a recovery. */
  lemma LookalikeIsTaken(w: World, name: string, data: string) returns (states: seq<State>)
    requires WorldOk(w) && name != SHARED && IsLeftover(SHARED, name)
    ensures Ran(w, states) && states[0].home == map[SHARED := w.user, name := data]
    ensures name !in Last(states).home
  {
    hide Run, WorldOk, IsLeftover, HasBegin, LinesOf, Removable;
    states := RecoveryRun(w, map[SHARED := w.user, name := data], Files(true, 0, false), Cleanup);
    if name in Last(states).home { RecoveryRemovesCopies(w, states, |states| - 1, 0, name); }
  }

  // ---- A session ----

  /** Process 0 owns the directory that it uses. */
  ghost predicate Owns(s: State, pr: Proc) {
    Alone(s, pr) && pr.job.Prepare? && pr.pc.Owning? && pr.pc.session in s.dirs
  }

  function Doing(pr: Proc, task: Task): Proc
    requires pr.pc.Owning?
  {
    pr.(pc := pr.pc.(task := task))
  }

  /** A step of Prepare or Update that changes no more than the files and what the owner does. */
  lemma Serves(w: World, states: seq<State>, c: Choice, pr: Proc, task: Task) returns (more: seq<State>)
    requires Ran(w, states) && Owns(Last(states), pr) && !Ending(pr.pc.task) && !c.Kill?
    requires var s' := UpdateAct(Last(states), 0, c);
      s'.Some? && s'.value.procs == At(Last(states), 0, task, pr.pc.starting).procs && pr.pc.session in s'.value.dirs
    ensures Ran(w, more) && more[0] == states[0] && Owns(Last(more), Doing(pr, task))
    ensures Some(Last(more)) == UpdateAct(Last(states), 0, c)
  {
    hide Run, UpdateAct, Act;
    OwnerAct(w, Last(states), 0, c);
    MoveAlone(Last(states), pr, pr.pc.(task := task));
    more := Extended(w, states, 0, c);
  }

  /** The write of the service file. */
  lemma ServiceWritten(w: World, states: seq<State>, pr: Proc) returns (more: seq<State>)
    requires Ran(w, states) && Owns(Last(states), pr) && pr.pc.task == Service(Unopened) && Accepts(pr.job.target)
    ensures Ran(w, more) && more[0] == states[0] && Owns(Last(more), Doing(pr, Private(pr.job.secret, Unopened)))
    ensures Last(more).log == Last(states).log
  {
    hide Run, Accepts, ServiceText, IsTemp;
    var temp := FreshTemp(Last(states).dirs[pr.pc.session].files, SERVICE);
    more := Serves(w, states, Writes(Opens(temp)), pr, Service(Filling(temp)));
    more := Serves(w, more, Writes(Flushes), Doing(pr, Service(Filling(temp))), Service(Filled(temp)));
    more := Serves(w, more, Writes(Renames(true)), Doing(pr, Service(Filled(temp))), Private(pr.job.secret, Unopened));
  }

  /** The write of the private password file. */
  lemma PrivateWritten(w: World, states: seq<State>, pr: Proc, secret: string) returns (more: seq<State>)
    requires Ran(w, states) && Owns(Last(states), pr) && pr.pc.task == Private(secret, Unopened)
    requires AcceptsSecret(secret) && Sharing(pr)
    ensures Ran(w, more) && more[0] == states[0] && Owns(Last(more), Doing(pr, AwaitingUpdate(secret)))
  {
    hide Run, AcceptsSecret, PrivateText, IsTemp, Shares;
    var temp := FreshTemp(Last(states).dirs[pr.pc.session].files, PASSFILE);
    more := Serves(w, states, Writes(Opens(temp)), pr, Private(secret, Filling(temp)));
    more := Serves(w, more, Writes(Flushes), Doing(pr, Private(secret, Filling(temp))), Private(secret, Filled(temp)));
    more := Serves(w, more, Writes(Renames(true)), Doing(pr, Private(secret, Filled(temp))), AwaitingUpdate(secret));
  }

  /** One operation of the edit of the shared file. */
  lemma Edits(w: World, states: seq<State>, c: Choice, pr: Proc, r: EditResult) returns (more: seq<State>)
    requires Ran(w, states) && Owns(Last(states), pr) && pr.pc.task.Updating? && !c.Kill?
    requires EditAct(Last(states).home, Last(states).log, OwnEvent(pr), pr.pc.task.edit, c) == Some(r)
    ensures Ran(w, more) && more[0] == states[0] && Owns(Last(more), Doing(pr, Updating(pr.pc.task.secret, r.edit)))
    ensures Last(more).home == r.home
  {
    assert !pr.pc.task.edit.Committed? && !pr.pc.task.edit.Broken?;
    hide Run, EditAct, OwnEvent;
    more := Serves(w, states, c, pr, Updating(pr.pc.task.secret, r.edit));
  }

  /** The edit of the shared file, to its rename. */
  lemma SharedEdited(w: World, states: seq<State>, pr: Proc, secret: string, clean: bool) returns (more: seq<State>)
    requires Ran(w, states) && Owns(Last(states), pr) && pr.pc.task == AwaitingUpdate(secret)
    ensures Ran(w, more) && more[0] == states[0] && Owns(Last(more), Doing(pr, Updating(secret, Committed(clean))))
  {
    hide Run, NewText, IsTemp, Bytes;
    assert SharedFree(Last(states));
    more := Serves(w, states, Go, pr, Updating(secret, Reading));
    var home, log, data := Last(more).home, Last(more).log, Bytes(Last(more).home);
    more := Edits(w, more, Go, Doing(pr, Updating(secret, Reading)), EditResult(home, log, Editing(data, Unopened)));
    more := SharedWritten(w, more, Doing(pr, Updating(secret, Editing(data, Unopened))), clean);
  }

  lemma SharedWritten(w: World, states: seq<State>, pr: Proc, clean: bool) returns (more: seq<State>)
    requires Ran(w, states) && Owns(Last(states), pr)
    requires pr.pc.task.Updating? && pr.pc.task.edit.Editing? && pr.pc.task.edit.write.Unopened?
    ensures Ran(w, more) && more[0] == states[0]
    ensures Owns(Last(more), Doing(pr, Updating(pr.pc.task.secret, Committed(clean))))
  {
    hide Run, NewText, IsTemp;
    var secret, data, home, log := pr.pc.task.secret, pr.pc.task.edit.data, Last(states).home, Last(states).log;
    var event := OwnEvent(pr);
    var text := NewText(data, event);
    var temp := FreshTemp(home, SHARED);
    var opening, filled := home[temp := ""], home[temp := ""][temp := text];
    more := Edits(w, states, Writes(Opens(temp)), pr, EditResult(opening, log, Editing(data, Filling(temp))));
    var at := Doing(pr, Updating(secret, Editing(data, Filling(temp))));
    more := Edits(w, more, Writes(Flushes), at, EditResult(filled, Last(more).log, Editing(data, Filled(temp))));
    at := Doing(pr, Updating(secret, Editing(data, Filled(temp))));
    more := Edits(w, more, Writes(Renames(clean)), at,
      EditResult((filled - {temp})[SHARED := text], Last(more).log + [event], Committed(clean)));
  }

  /** After its recovery a process makes a directory and owns it. */
  lemma NewSession(w: World, states: seq<State>, n: string, files: Files, job: Request)
    returns (more: seq<State>, pr: Proc)
    requires n in w.names && job.Prepare?
    requires Ran(w, states) && Empty(Last(states), Fresh(w, files, job, Recovered))
    ensures Ran(w, more) && more[0] == states[0] && Owns(Last(more), pr)
    ensures pr.pc.session == n && pr == Fresh(w, files, job, Owning(n, pr.pc.inode, Service(Unopened), true))
    ensures Last(more).log == Last(states).log
  {
    hide Run;
    var inode := Last(states).nextInode;
    MoveAlone(Last(states), Fresh(w, files, job, Recovered), Made(n, inode));
    more := Extended(w, states, 0, Pick(n));
    assert FlockFree(Last(more), inode);
    MoveAlone(Last(more), Fresh(w, files, job, Made(n, inode)), Owning(n, inode, Service(Unopened), true));
    more := Extended(w, more, 0, Go);
    pr := Fresh(w, files, job, Owning(n, inode, Service(Unopened), true));
  }

  /** A sharing session whose Prepare has returned. */
  lemma Prepared(w: World, n: string, files: Files, job: Request) returns (states: seq<State>, pr: Proc)
    requires WorldOk(w) && n in w.names && job.Prepare? && Accepts(job.target) && AcceptsSecret(job.secret)
    requires Shares(files, job.port)
    ensures Ran(w, states) && Owns(Last(states), pr)
    ensures pr.files == files && pr.job == job && pr.pc.session == n
    ensures pr.pc.task == Idle(true) && !pr.pc.starting && pr.acked == Some(job.secret) && pr.late.None?
  {
    hide WorldOk, Run, Accepts, AcceptsSecret, HasBegin, LinesOf, Removable;
    states := RecoveryRun(w, map[SHARED := w.user], files, job);
    states := Moves(w, states, Go, Fresh(w, files, job, Pruned), Recovered);
    hide Shares, Bytes;
    states, pr := NewSession(w, states, n, files, job);
    states := ServiceWritten(w, states, pr);
    pr := Doing(pr, Private(job.secret, Unopened));
    states := PrivateWritten(w, states, pr, job.secret);
    pr := Doing(pr, AwaitingUpdate(job.secret));
    states := SharedEdited(w, states, pr, job.secret, true);
    pr := Doing(pr, Updating(job.secret, Committed(true)));
    states, pr := Returned(w, states, pr);
  }

  lemma Returned(w: World, states: seq<State>, pr: Proc) returns (more: seq<State>, pr': Proc)
    requires Ran(w, states) && Owns(Last(states), pr) && pr.pc.task.Updating? && pr.pc.task.edit.Committed?
    requires !pr.pc.task.edit.clean ==> !pr.pc.starting
    ensures Ran(w, more) && more[0] == states[0] && Owns(Last(more), pr')
    ensures var secret, clean := pr.pc.task.secret, pr.pc.task.edit.clean;
      pr' == pr.(acked := if clean then Some(secret) else pr.acked, late := if clean then None else Some(secret),
        pc := Owning(pr.pc.session, pr.pc.inode, Idle(clean), false))
  {
    hide Run, Act;
    OwnerAct(w, Last(states), 0, Go);
    more := Extended(w, states, 0, Go);
    pr' := Last(more).procs[0];
    assert Last(more).procs == map[0 := pr'];
  }

  /** The lookup of an idle session that shares. */
  lemma Found(w: World, states: seq<State>, pr: Proc)
    requires Ran(w, states) && Owns(Last(states), pr) && pr.pc.task.Idle? && Sharing(pr) && pr.acked.Some?
    ensures Passfile.Lookup(Bytes(Last(states).home), LocalKey(pr.job)) == if pr.late.Some? then pr.late else pr.acked
  {
    hide Run, Bytes, Passfile.Lookup, Shares;
    LookupFindsSession(w, states, |states| - 1, 0);
  }

  /** When a shared file is configured, and for any port or for this one, a session that
      Prepare has returned is found in it. */
  lemma SharedIsFound(w: World, n: string, files: Files, job: Request) returns (states: seq<State>)
    requires WorldOk(w) && n in w.names && job.Prepare? && Accepts(job.target) && AcceptsSecret(job.secret)
    requires files.pgpass && (files.anyPort || (files.localPort != 0 && files.localPort == job.port))
    ensures Ran(w, states) && 0 in Last(states).procs
    ensures var s, pr := Last(states), Last(states).procs[0];
      && pr.files == files && pr.job == job && pr.pc.Owning? && pr.pc.session == n && pr.pc.task == Idle(true)
      && Passfile.Lookup(Bytes(s.home), LocalKey(job)) == Some(job.secret)
  {
    assert Shares(files, job.port);
    hide WorldOk, Run, Accepts, AcceptsSecret, Bytes, Passfile.Lookup, Shares;
    var pr;
    states, pr := Prepared(w, n, files, job);
    Found(w, states, pr);
  }

  /** In particular on its fixed port. */
  lemma FixedPortIsFound(w: World, n: string, job: Request) returns (states: seq<State>)
    requires WorldOk(w) && n in w.names && job.Prepare? && Accepts(job.target) && AcceptsSecret(job.secret)
    requires job.port != 0
    ensures Ran(w, states) && 0 in Last(states).procs
    ensures var s, pr := Last(states), Last(states).procs[0];
      && pr.files == Files(true, job.port, false) && pr.job == job && pr.pc.Owning? && pr.pc.task == Idle(true)
      && Passfile.Lookup(Bytes(s.home), LocalKey(job)) == Some(job.secret)
  {
    hide WorldOk, Run, Accepts, AcceptsSecret, Bytes, Passfile.Lookup, Shares;
    states := SharedIsFound(w, n, Files(true, job.port, false), job);
  }

  /** The last operation of the private write of a session that does not share. */
  lemma UnsharedWritten(w: World, states: seq<State>, pr: Proc, secret: string)
    returns (more: seq<State>, pr': Proc)
    requires Ran(w, states) && Owns(Last(states), pr) && pr.pc.task == Private(secret, Unopened)
    requires AcceptsSecret(secret) && !Sharing(pr)
    ensures Ran(w, more) && more[0] == states[0] && Owns(Last(more), pr') && Last(more).log == Last(states).log
    ensures pr' == pr.(acked := Some(secret), late := None, pc := Owning(pr.pc.session, pr.pc.inode, Idle(true), false))
  {
    hide Run, AcceptsSecret, PrivateText, IsTemp, Shares;
    var temp := FreshTemp(Last(states).dirs[pr.pc.session].files, PASSFILE);
    more := Serves(w, states, Writes(Opens(temp)), pr, Private(secret, Filling(temp)));
    more := Serves(w, more, Writes(Flushes), Doing(pr, Private(secret, Filling(temp))), Private(secret, Filled(temp)));
    more, pr' := UnsharedReturned(w, more, Doing(pr, Private(secret, Filled(temp))), secret, temp);
  }

  lemma UnsharedReturned(w: World, states: seq<State>, pr: Proc, secret: string, temp: string)
    returns (more: seq<State>, pr': Proc)
    requires Ran(w, states) && Owns(Last(states), pr) && pr.pc.task == Private(secret, Filled(temp)) && !Sharing(pr)
    requires temp in Last(states).dirs[pr.pc.session].files
    ensures Ran(w, more) && more[0] == states[0] && Owns(Last(more), pr') && Last(more).log == Last(states).log
    ensures pr' == pr.(acked := Some(secret), late := None, pc := Owning(pr.pc.session, pr.pc.inode, Idle(true), false))
  {
    hide Run, AcceptsSecret, PrivateText, IsTemp, Shares, Act;
    OwnerAct(w, Last(states), 0, Writes(Renames(true)));
    more := Extended(w, states, 0, Writes(Renames(true)));
    pr' := Last(more).procs[0];
    assert Last(more).procs == map[0 := pr'];
  }

  /** A session without a shared file can take over the name of a dead one that had, together
      with its block: its own recovery does not look at the file. */
  lemma NameIsReused(w: World, e: Entry, job: Request) returns (states: seq<State>)
    requires WorldOk(w) && e.session in w.names && Acceptable(e)
    requires job.Prepare? && Accepts(job.target) && AcceptsSecret(job.secret)
    ensures Ran(w, states) && 0 in Last(states).procs
    ensures var s, pr := Last(states), Last(states).procs[0];
      && !pr.files.pgpass && pr.pc.Owning? && pr.pc.session == e.session && pr.pc.task == Idle(true)
      && e in Entries(s.log)
  {
    hide WorldOk, Run, Accepts, AcceptsSecret, Acceptable, Entries, FileContent;
    var files := Files(false, 0, false);
    var s0 := State(map[], map[SHARED := FileContent(w.user, w.names, [Published(e)])], [Published(e)], map[], 0);
    OneEntry(w, e, s0);
    states := UnsharedRecovered(w, s0, job);
    states := UnsharedPrepared(w, states, e.session, job);
  }

  lemma UnsharedRecovered(w: World, s0: State, job: Request) returns (states: seq<State>)
    requires Initial(w, s0) && s0.dirs == map[]
    ensures Ran(w, states) && Empty(Last(states), Fresh(w, Files(false, 0, false), job, Recovered))
    ensures Last(states).log == s0.log
  {
    hide Initial, Run;
    var files := Files(false, 0, false);
    states := ToTheSweep(w, s0, files, job);
    states := Moves(w, states, Go, Fresh(w, files, job, Sweeping([])), Recovered);
  }

  lemma UnsharedPrepared(w: World, states: seq<State>, n: string, job: Request) returns (more: seq<State>)
    requires n in w.names && job.Prepare? && Accepts(job.target) && AcceptsSecret(job.secret)
    requires Ran(w, states) && Empty(Last(states), Fresh(w, Files(false, 0, false), job, Recovered))
    ensures Ran(w, more) && 0 in Last(more).procs && Last(more).log == Last(states).log
    ensures var pr := Last(more).procs[0];
      !pr.files.pgpass && pr.pc.Owning? && pr.pc.session == n && pr.pc.task == Idle(true)
  {
    hide Run, Accepts, AcceptsSecret;
    var pr;
    more, pr := NewSession(w, states, n, Files(false, 0, false), job);
    more := ServiceWritten(w, more, pr);
    more, pr := UnsharedWritten(w, more, Doing(pr, Private(job.secret, Unopened)), job.secret);
  }

  lemma OneEntry(w: World, e: Entry, s0: State)
    requires WorldOk(w) && e.session in w.names && Acceptable(e)
    requires s0 == State(map[], map[SHARED := FileContent(w.user, w.names, [Published(e)])], [Published(e)], map[], 0)
    ensures Initial(w, s0) && e in Entries(s0.log)
  {
    hide WorldOk, Acceptable, FileContent;
    assert [Published(e)][..0] == [];
    assert e == Entries(s0.log)[0];
  }

  /** Every accepted Update of a sharing session can fail late: a run in which Prepare has
      returned nil and acknowledged one secret, the next Update has returned an error after its
      rename, and a lookup gives the secret of that Update. */
  lemma LateUpdateHides(w: World, n: string, files: Files, job: Request, other: string)
    returns (states: seq<State>)
    requires WorldOk(w) && n in w.names && job.Prepare? && Shares(files, job.port)
    requires Accepts(job.target) && AcceptsSecret(job.secret) && AcceptsSecret(other)
    ensures Ran(w, states) && 0 in Last(states).procs
    ensures var s, pr := Last(states), Last(states).procs[0];
      && pr.job == job && pr.pc.Owning? && pr.pc.session == n && pr.pc.task.Idle? && Sharing(pr)
      && pr.acked == Some(job.secret) && pr.late == Some(other)
      && Passfile.Lookup(Bytes(s.home), LocalKey(job)) == Some(other)
  {
    hide WorldOk, Run, Accepts, AcceptsSecret, Bytes, Passfile.Lookup, Shares;
    var pr;
    states, pr := Prepared(w, n, files, job);
    states := Serves(w, states, Update(other), pr, Private(other, Unopened));
    pr := Doing(pr, Private(other, Unopened));
    states := PrivateWritten(w, states, pr, other);
    pr := Doing(pr, AwaitingUpdate(other));
    states := SharedEdited(w, states, pr, other, false);
    pr := Doing(pr, Updating(other, Committed(false)));
    states, pr := Returned(w, states, pr);
    Found(w, states, pr);
  }

  /** An Update that fails before its rename, here at the creation of the private file, leaves
      the session as it was: idle, and found with its old secret. */
  lemma EarlyFailureKeeps(w: World, n: string, files: Files, job: Request, other: string)
    returns (states: seq<State>)
    requires WorldOk(w) && n in w.names && job.Prepare? && Shares(files, job.port)
    requires Accepts(job.target) && AcceptsSecret(job.secret) && AcceptsSecret(other)
    ensures Ran(w, states) && 0 in Last(states).procs
    ensures var s, pr := Last(states), Last(states).procs[0];
      && pr.job == job && pr.pc.Owning? && pr.pc.session == n && pr.pc.task == Idle(false)
      && pr.acked == Some(job.secret) && pr.late.None?
      && Passfile.Lookup(Bytes(s.home), LocalKey(job)) == Some(job.secret)
  {
    hide WorldOk, Run, Accepts, AcceptsSecret, Bytes, Passfile.Lookup, Shares;
    var pr;
    states, pr := Prepared(w, n, files, job);
    states := Serves(w, states, Update(other), pr, Private(other, Unopened));
    pr := Doing(pr, Private(other, Unopened));
    states := CreationFails(w, states, pr, other);
    Found(w, states, Doing(pr, Idle(false)));
  }

  lemma CreationFails(w: World, states: seq<State>, pr: Proc, secret: string) returns (more: seq<State>)
    requires Ran(w, states) && Owns(Last(states), pr) && pr.pc.task == Private(secret, Unopened)
    requires AcceptsSecret(secret) && !pr.pc.starting
    ensures Ran(w, more) && more[0] == states[0] && Owns(Last(more), Doing(pr, Idle(false)))
  {
    hide Run, AcceptsSecret, PrivateText, Shares;
    more := Serves(w, states, Writes(Errs(false)), pr, Idle(false));
  }
}
