/** The multi-process protocol of internal/libpq/files.go and pgpass.go: any number of
    sessions and cleanups share a directory of private session directories and one password
    file. Each process runs the source's code one file operation at a time: every operation of
    an atomic write and every file that a removal deletes is a step. Every operation may fail,
    every process may be killed between two operations, and all processes interleave freely.

    An advisory lock is held by the process whose open descriptor holds it, so it is part of
    that process's control state and a kill or a close releases it. That a lock has one holder
    is the modelled meaning of flock: the steps that take a lock wait until it is free. */
module Sessions {
  import opened Text
  import opened Blocks
  import opened AtomicFile
  import opened SharedFile
  import opened ClientFiles

  type Pid = nat
  type Inode = nat

  /** The shared password file inside the user's home directory, and the private files. */
  const SHARED := ".pgpass"
  const SERVICE := "pg_service.conf"
  const PASSFILE := "pgpass"

  /** What stays fixed over a run: the session names in use and the user's original bytes. */
  datatype World = World(names: set<string>, user: string)

  /** `pgpass` tells whether a shared file is configured. */
  datatype Files = Files(pgpass: bool, localPort: nat, anyPort: bool)

  predicate Shares(f: Files, port: nat) {
    f.pgpass && (f.anyPort || (f.localPort != 0 && port == f.localPort))
  }

  datatype Request = Prepare(target: Target, port: nat, secret: string) | Cleanup

  /** A private session directory: its identity and its files. */
  datatype Dir = Dir(inode: Inode, files: Directory)

  /** Where an edit of the shared file is, from reading it to the rename. A commit that is
      not `clean` returns an error although the new content is in place. */
  datatype Edit =
    | Reading
    | Editing(data: string, write: Write)
    | Committed(clean: bool)
    | Broken

  /** What the owner of a session directory is doing: the calls initialize, Update and Close.
      `ok` tells that nothing of a Close has failed so far. */
  datatype Task =
    | Service(write: Write)
    | Private(secret: string, write: Write)
    | AwaitingUpdate(secret: string)
    | Updating(secret: string, edit: Edit)
    | Idle(agreed: bool)
    | AwaitingClose
    | Closing(edit: Edit)
    | Removing(ok: bool)
    | Released(ok: bool)

  /** Control states. Those from Listing to Recovered are `recover` under the root lock. */
  datatype Pc =
    | Waiting
    | Listing
    | Sweeping(todo: seq<string>)
    | Opened(todo: seq<string>, inode: Inode)
    | Locked(todo: seq<string>, inode: Inode)
    | Swept(todo: seq<string>, inode: Inode)
    | AwaitingShared
    | Cleaning
    | Deleting(leftovers: set<string>)
    | Loading
    | Pruning(lines: seq<string>)
    | PruneEdit(name: string, lines: seq<string>, edit: Edit)
    | Pruned
    | Recovered
    | Made(session: string, inode: Inode)
    | Owning(session: string, inode: Inode, task: Task, starting: bool)
    | Finished
    | Crashed

  /** One process. The rest records history: `doomed` are the abandoned names when it took the
      root lock, `acked` is the secret of its last Update that returned nil, and `late` that of
      a later Update that returned an error after its new content was in place. */
  datatype Proc = Proc(
    files: Files,
    job: Request,
    doomed: set<string>,
    acked: Option<string>,
    late: Option<string>,
    pc: Pc)

  /** `log` is the sequence of committed edits of the shared file. */
  datatype State = State(
    dirs: map<string, Dir>,
    home: Directory,
    log: seq<Event>,
    procs: map<Pid, Proc>,
    nextInode: Inode)

  function Bytes(home: Directory): string { if SHARED in home then home[SHARED] else "" }

  // ---- Who holds what ----

  predicate HoldsRoot(pc: Pc) {
    match pc
    case Waiting => false
    case Owning(_, _, _, starting) => starting
    case Finished => false
    case Crashed => false
    case _ => true
  }

  predicate HoldsShared(pc: Pc) {
    match pc
    case Cleaning => true
    case Loading => true
    case Pruning(_) => true
    case Deleting(_) => true
    case PruneEdit(_, _, _) => true
    case Pruned => true
    case Owning(_, _, task, _) => task.Updating? || task.Closing?
    case _ => false
  }

  function Flock(pc: Pc): Option<Inode> {
    match pc
    case Locked(_, inode) => Some(inode)
    case Swept(_, inode) => Some(inode)
    case Owning(_, inode, _, _) => Some(inode)
    case _ => None
  }

  /** The directory that a session made, until the session is over. */
  function Tie(pc: Pc): Option<(string, Inode)> {
    match pc
    case Made(session, inode) => Some((session, inode))
    case Owning(session, inode, _, _) => Some((session, inode))
    case _ => None
  }

  /** The same while the session has not yet removed it. */
  function Seat(pc: Pc): Option<(string, Inode)> {
    if pc.Owning? && pc.task.Released? then None else Tie(pc)
  }

  predicate Over(pc: Pc) { pc.Finished? || pc.Crashed? }

  predicate RootFree(s: State) { forall q | q in s.procs :: !HoldsRoot(s.procs[q].pc) }

  predicate SharedFree(s: State) { forall q | q in s.procs :: !HoldsShared(s.procs[q].pc) }

  predicate FlockFree(s: State, inode: Inode) { forall q | q in s.procs :: Flock(s.procs[q].pc) != Some(inode) }

  /** The names in use whose session is over: nothing owns their directory or block. */
  ghost function Abandoned(w: World, s: State): set<string> {
    set n | n in w.names && forall q | q in s.procs :: Tie(s.procs[q].pc).Some? ==> Tie(s.procs[q].pc).value.0 != n
  }

  // ---- Steps ----

  /** What the environment decides about one step. `Go` goes on, `Writes` is an operation of
      an atomic write, `Fail` and `Stuck` are errors, without and with what they leave. */
  datatype Choice =
    | Go
    | Fail
    | Stuck
    | Listed(names: seq<string>)
    | Pick(name: string)
    | Writes(io: Io)
    | Update(secret: string)
    | Close
    | Kill

  function Move(s: State, p: Pid, pc: Pc): State
    requires p in s.procs
  {
    s.(procs := s.procs[p := s.procs[p].(pc := pc)])
  }

  // rewriteShared, one file operation at a time

  datatype EditResult = EditResult(home: Directory, log: seq<Event>, edit: Edit)

  function NewText(data: string, event: Event): string {
    Rewritten(data, SessionOf(event), EventLines(event))
  }

  /** Where the edit is when its write is at `write`. */
  function EditAt(data: string, write: Write): Edit {
    match write
    case Written => Committed(true)
    case Late => Committed(false)
    case Spoilt => Broken
    case _ => Editing(data, write)
  }

  function EditAct(home: Directory, log: seq<Event>, event: Event, edit: Edit, c: Choice): Option<EditResult> {
    match edit
    case Reading =>
      if c.Go? then Some(EditResult(home, log, Editing(Bytes(home), Unopened)))
      else if c.Fail? then Some(EditResult(home, log, Broken)) else None
    case Editing(data, write) =>
      if write.Unopened? && event.Removed? && NewText(data, event) == data then
        if c.Go? then Some(EditResult(home, log + [event], Committed(true))) else None
      else if !c.Writes? then None
      else
        (match WriteAct(home, SHARED, NewText(data, event), write, c.io)
         case None => None
         case Some(r) =>
           Some(EditResult(r.files, if Publishes(r.write) then log + [event] else log, EditAt(data, r.write))))
    case _ => None
  }

  // rootLock and recoverSessions

  ghost function RootAct(w: World, s: State, p: Pid, c: Choice): Option<State>
    requires p in s.procs
  {
    var pr := s.procs[p];
    match pr.pc
    case Waiting =>
      if c.Go? && RootFree(s) then
        Some(s.(procs := s.procs[p := pr.(doomed := Abandoned(w, s), pc := Listing)]))
      else if c.Fail? then Some(Move(s, p, Finished)) else None
    case Listing =>
      if c.Listed? && (set n | n in c.names) == s.dirs.Keys && |c.names| == |s.dirs| then
        Some(Move(s, p, Sweeping(c.names)))
      else if c.Fail? then Some(Move(s, p, Finished)) else None
    case _ => None
  }

  /** os.RemoveAll of one session directory, a file at a time. */
  function Remaining(s: State, name: string): set<string> {
    if name in s.dirs then s.dirs[name].files.Keys else {}
  }

  function WithoutFile(s: State, name: string, file: string): map<string, Dir>
    requires name in s.dirs
  {
    s.dirs[name := s.dirs[name].(files := s.dirs[name].files - {file})]
  }

  function SweepAct(s: State, p: Pid, c: Choice): Option<State>
    requires p in s.procs
  {
    if c.Fail? then Some(Move(s, p, Finished))
    else match s.procs[p].pc
      case Sweeping(todo) =>
        if !c.Go? then None
        else if todo == [] then Some(Move(s, p, if s.procs[p].files.pgpass then AwaitingShared else Recovered))
        else if todo[0] in s.dirs then Some(Move(s, p, Opened(todo, s.dirs[todo[0]].inode)))
        else Some(Move(s, p, Sweeping(todo[1..])))
      case Opened(todo, inode) =>
        if !c.Go? || todo == [] then None
        else if FlockFree(s, inode) then Some(Move(s, p, Locked(todo, inode)))
        else Some(Move(s, p, Sweeping(todo[1..])))
      case Locked(todo, inode) =>
        if todo == [] then None
        else if c.Pick? && c.name in Remaining(s, todo[0]) then Some(s.(dirs := WithoutFile(s, todo[0], c.name)))
        else if c.Go? && Remaining(s, todo[0]) == {} then
          Some(Move(s, p, Swept(todo, inode)).(dirs := s.dirs - {todo[0]}))
        else None
      case Swept(todo, inode) =>
        if !c.Go? || todo == [] then None else Some(Move(s, p, Sweeping(todo[1..])))
      case _ => None
  }

  // recoverShared

  /** The lines of a file as `strings.SplitSeq` gives them, without their newlines. */
  function LinesOf(content: string): seq<string>
    decreases |content|
  {
    if content == "" then []
    else [Chomp(FirstLine(content))] + LinesOf(content[|FirstLine(content)|..])
  }

  /** `os.Stat` reports that the session directory does not exist, for a name that is no path. */
  predicate Missing(s: State, name: string) { name !in s.dirs && Removable(name) }

  /** The cleanup beside the shared file takes exactly what begins like a copy of it. */
  lemma SharedGlob(name: string)
    requires '/' !in name
    ensures Match(TempPattern(SHARED), name) <==> IsLeftover(SHARED, name)
  {
    GlobTakes(SHARED, name);
  }

  function PruneAct(s: State, p: Pid, c: Choice): Option<State>
    requires p in s.procs
  {
    match s.procs[p].pc
    case AwaitingShared =>
      if c.Go? && SharedFree(s) then Some(Move(s, p, Cleaning))
      else if c.Fail? then Some(Move(s, p, Finished)) else None
    case Cleaning =>
      if c.Go? then Some(Move(s, p, Deleting(set n | n in s.home && IsLeftover(SHARED, n))))
      else if c.Fail? then Some(Move(s, p, Finished)) else None
    case Deleting(leftovers) =>
      if c.Pick? && c.name in leftovers then
        Some(Move(s, p, Deleting(leftovers - {c.name})).(home := s.home - {c.name}))
      else if c.Go? && leftovers == {} then Some(Move(s, p, Loading))
      else if c.Fail? then Some(Move(s, p, Finished)) else None
    case Loading =>
      if c.Go? then Some(Move(s, p, if SHARED in s.home then Pruning(LinesOf(s.home[SHARED])) else Pruned))
      else if c.Fail? then Some(Move(s, p, Finished)) else None
    case Pruning(lines) =>
      if !c.Go? then None
      else if lines == [] then Some(Move(s, p, Pruned))
      else
        var begun := BlockSession(lines[0]);
        if begun.Some? && Missing(s, begun.value) then
          Some(Move(s, p, PruneEdit(begun.value, lines[1..], Reading)))
        else Some(Move(s, p, Pruning(lines[1..])))
    case PruneEdit(name, lines, edit) =>
      if edit.Committed? then
        if c.Go? then Some(Move(s, p, if edit.clean then Pruning(lines) else Finished)) else None
      else if edit.Broken? then if c.Go? then Some(Move(s, p, Finished)) else None
      else
        (match EditAct(s.home, s.log, Event.Removed(name), edit, c)
         case None => None
         case Some(r) => Some(Move(s, p, PruneEdit(name, lines, r.edit)).(home := r.home, log := r.log)))
    case Pruned => if c.Go? then Some(Move(s, p, Recovered)) else None
    case _ => None
  }

  // Prepare: MkdirTemp and lockDirectory

  function MakeAct(w: World, s: State, p: Pid, c: Choice): Option<State>
    requires p in s.procs
  {
    var pr := s.procs[p];
    match pr.pc
    case Recovered =>
      if pr.job.Cleanup? then if c.Go? then Some(Move(s, p, Finished)) else None
      else if c.Pick? && c.name in w.names && c.name !in s.dirs then
        Some(Move(s, p, Made(c.name, s.nextInode)).(
             dirs := s.dirs[c.name := Dir(s.nextInode, map[])], nextInode := s.nextInode + 1))
      else if c.Fail? then Some(Move(s, p, Finished)) else None
    case Made(session, inode) =>
      if c.Go? && FlockFree(s, inode) then Some(Move(s, p, Owning(session, inode, Service(Unopened), true)))
      else if c.Fail? then Some(Move(s, p, Finished).(dirs := s.dirs - {session}))
      else if c.Stuck? then Some(Move(s, p, Finished)) else None
    case _ => None
  }

  // initialize, Update and Close

  function EntryOf(pr: Proc, session: string, secret: string): Entry
    requires pr.job.Prepare?
  {
    Entry(session, pr.job.port, pr.job.target.database, pr.job.target.user, secret)
  }

  predicate Sharing(pr: Proc) { pr.job.Prepare? && Shares(pr.files, pr.job.port) }

  function At(s: State, p: Pid, task: Task, starting: bool): State
    requires p in s.procs && s.procs[p].pc.Owning?
  {
    Move(s, p, Owning(s.procs[p].pc.session, s.procs[p].pc.inode, task, starting))
  }

  function StartClose(s: State, p: Pid): State
    requires p in s.procs && s.procs[p].pc.Owning?
  {
    At(s, p, if Sharing(s.procs[p]) then AwaitingClose else Removing(true), s.procs[p].pc.starting)
  }

  /** Update returns an error; inside Prepare the new session is then closed again. */
  function UpdateFails(s: State, p: Pid): State
    requires p in s.procs && s.procs[p].pc.Owning?
  {
    if s.procs[p].pc.starting then StartClose(s, p) else At(s, p, Idle(false), false)
  }

  /** The same, after the shared file was replaced. */
  function UpdateFailsLate(s: State, p: Pid, secret: string): State
    requires p in s.procs && s.procs[p].pc.Owning?
  {
    UpdateFails(s.(procs := s.procs[p := s.procs[p].(late := Some(secret))]), p)
  }

  /** Update returns nil, and Prepare with it when this is the first one. */
  function UpdateSucceeds(s: State, p: Pid, secret: string): State
    requires p in s.procs && s.procs[p].pc.Owning?
  {
    var pr := s.procs[p];
    s.(procs := s.procs[p := pr.(acked := Some(secret), late := None,
         pc := Owning(pr.pc.session, pr.pc.inode, Idle(true), false))])
  }

  /** The edit of the shared file that the owner is performing. */
  function OwnEvent(pr: Proc): Event
    requires pr.job.Prepare? && pr.pc.Owning?
  {
    if pr.pc.task.Updating? then Published(EntryOf(pr, pr.pc.session, pr.pc.task.secret))
    else Event.Removed(pr.pc.session)
  }

  /** One operation of the write of a private file. */
  function PrivateAct(s: State, session: string, base: string, text: string, write: Write, c: Choice): Option<Step> {
    if c.Writes? && session in s.dirs then WriteAct(s.dirs[session].files, base, text, write, c.io) else None
  }

  function Stored(s: State, session: string, files: Directory): State
    requires session in s.dirs
  {
    s.(dirs := s.dirs[session := s.dirs[session].(files := files)])
  }

  function UpdateAct(s: State, p: Pid, c: Choice): Option<State>
    requires p in s.procs && s.procs[p].pc.Owning? && s.procs[p].job.Prepare?
  {
    var pr := s.procs[p];
    var session, starting, target, port := pr.pc.session, pr.pc.starting, pr.job.target, pr.job.port;
    match pr.pc.task
    case Service(write) =>
      if write.Unopened? && !Accepts(target) then if c.Go? then Some(StartClose(s, p)) else None
      else
        (match PrivateAct(s, session, SERVICE, ServiceText(target, port), write, c)
         case None => None
         case Some(r) =>
           var stored := Stored(s, session, r.files);
           match r.write
           case Written => Some(At(stored, p, Private(pr.job.secret, Unopened), starting))
           case Late => Some(StartClose(stored, p))
           case Spoilt => Some(StartClose(stored, p))
           case _ => Some(At(stored, p, Service(r.write), starting)))
    case Private(secret, write) =>
      if write.Unopened? && !AcceptsSecret(secret) then if c.Go? then Some(UpdateFails(s, p)) else None
      else
        (match PrivateAct(s, session, PASSFILE, PrivateText(target, port, secret), write, c)
         case None => None
         case Some(r) =>
           var stored := Stored(s, session, r.files);
           match r.write
           case Written =>
             Some(if Sharing(pr) then At(stored, p, AwaitingUpdate(secret), starting)
                  else UpdateSucceeds(stored, p, secret))
           case Late => Some(UpdateFails(stored, p))
           case Spoilt => Some(UpdateFails(stored, p))
           case _ => Some(At(stored, p, Private(secret, r.write), starting)))
    case AwaitingUpdate(secret) =>
      if c.Go? && SharedFree(s) then Some(At(s, p, Updating(secret, Reading), starting))
      else if c.Fail? then Some(UpdateFails(s, p)) else None
    case Updating(secret, edit) =>
      if edit.Committed? then
        if !c.Go? then None
        else if edit.clean then Some(UpdateSucceeds(s, p, secret)) else Some(UpdateFailsLate(s, p, secret))
      else if edit.Broken? then if c.Go? then Some(UpdateFails(s, p)) else None
      else
        (match EditAct(s.home, s.log, OwnEvent(pr), edit, c)
         case None => None
         case Some(r) => Some(At(s, p, Updating(secret, r.edit), starting).(home := r.home, log := r.log)))
    case Idle(_) =>
      if c.Update? then Some(At(s, p, Private(c.secret, Unopened), false))
      else if c.Close? then Some(StartClose(s, p)) else None
    case _ => None
  }

  function CloseAct(s: State, p: Pid, c: Choice): Option<State>
    requires p in s.procs && s.procs[p].pc.Owning? && s.procs[p].job.Prepare?
  {
    var pr := s.procs[p];
    var session, starting := pr.pc.session, pr.pc.starting;
    match pr.pc.task
    case AwaitingClose =>
      if c.Go? && SharedFree(s) then Some(At(s, p, Closing(Reading), starting))
      else if c.Fail? then Some(At(s, p, Removing(false), starting)) else None
    case Closing(edit) =>
      if edit.Committed? then if c.Go? then Some(At(s, p, Removing(edit.clean), starting)) else None
      else if edit.Broken? then if c.Go? then Some(At(s, p, Removing(false), starting)) else None
      else
        (match EditAct(s.home, s.log, OwnEvent(pr), edit, c)
         case None => None
         case Some(r) => Some(At(s, p, Closing(r.edit), starting).(home := r.home, log := r.log)))
    case Removing(ok) =>
      if c.Pick? && c.name in Remaining(s, session) then Some(s.(dirs := WithoutFile(s, session, c.name)))
      else if c.Go? && Remaining(s, session) == {} then
        Some(At(s, p, Released(ok), starting).(dirs := s.dirs - {session}))
      else if c.Fail? then Some(At(s, p, Released(false), starting)) else None
    case Released(_) => if c.Go? then Some(Move(s, p, Finished)) else None
    case _ => None
  }

  /** The calls of Close. */
  predicate Ending(task: Task) {
    task.AwaitingClose? || task.Closing? || task.Removing? || task.Released?
  }

  ghost function Act(w: World, s: State, p: Pid, c: Choice): Option<State>
    requires p in s.procs
  {
    var pc := s.procs[p].pc;
    if Over(pc) then None
    else if c.Kill? then Some(Move(s, p, Crashed))
    else if pc.Waiting? || pc.Listing? then RootAct(w, s, p, c)
    else if pc.Sweeping? || pc.Opened? || pc.Locked? || pc.Swept? then SweepAct(s, p, c)
    else if pc.Recovered? || pc.Made? then MakeAct(w, s, p, c)
    else if !pc.Owning? then PruneAct(s, p, c)
    else if s.procs[p].job.Cleanup? then None
    else if Ending(pc.task) then CloseAct(s, p, c)
    else UpdateAct(s, p, c)
  }

  lemma OwnerAct(w: World, s: State, p: Pid, c: Choice)
    requires p in s.procs && s.procs[p].pc.Owning? && s.procs[p].job.Prepare? && !c.Kill?
    ensures Act(w, s, p, c) == if Ending(s.procs[p].pc.task) then CloseAct(s, p, c) else UpdateAct(s, p, c)
  {
    hide CloseAct, UpdateAct;
  }

  /** Sessions that are not over have different ports: each listens on its own. */
  ghost predicate PortFree(s: State, port: nat) {
    forall q | q in s.procs && !Over(s.procs[q].pc) && s.procs[q].job.Prepare? :: s.procs[q].job.port != port
  }

  /** A new process calls Prepare or Recover. */
  ghost predicate Starts(s: State, s': State, p: Pid, files: Files, job: Request) {
    && p !in s.procs
    && (job.Prepare? ==> PortFree(s, job.port))
    && s' == s.(procs := s.procs[p := Proc(files, job, {}, None, None, Waiting)])
  }

  ghost predicate Next(w: World, s: State, s': State) {
    || (exists p, files, job :: Starts(s, s', p, files, job))
    || (exists p, c :: p in s.procs && Act(w, s, p, c) == Some(s'))
  }
}
