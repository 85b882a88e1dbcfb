/** What every step of the protocol keeps. A step's effects on the rest of the system are
    summed up by `Footprint`; each part of the invariant is kept by any step with such a
    footprint, and re-established for the stepping process itself. */
module SessionInvariant {
  import opened Text
  import opened Blocks
  import opened AtomicFile
  import opened SharedFile
  import opened ClientFiles
  import opened Sessions

  // ---- Assumptions on the environment ----

  /** The names that MkdirTemp makes. */
  predicate SessionName(n: string) {
    Word(n) && "session-" <= n && '/' !in n && '\\' !in n && '\0' !in n && |n| <= 255
  }

  /** MkdirTemp puts digits in the place of the star that it is not given. */
  lemma MadeNamesAreSessionNames(digits: string)
    requires Digits(digits) && |digits| <= 10
    ensures SessionName("session-" + digits)
  {
    var n := "session-" + digits;
    assert n[..8] == "session-";
    assert forall i | 8 <= i < |n| :: n[i] == digits[i - 8];
  }

  /** The user's bytes hold no begin line of a session name in use. */
  ghost predicate WorldOk(w: World) {
    (forall n | n in w.names :: SessionName(n)) && UserOk(w.user, w.names)
  }

  // ---- The invariant ----

  /** Every lock has one holder, as the guards of the locking steps make sure. */
  ghost predicate Mutex(s: State) {
    && (forall p, q | p in s.procs && q in s.procs && HoldsRoot(s.procs[p].pc) && HoldsRoot(s.procs[q].pc) :: p == q)
    && (forall p, q | p in s.procs && q in s.procs &&
              HoldsShared(s.procs[p].pc) && HoldsShared(s.procs[q].pc) :: p == q)
    && (forall p, q | p in s.procs && q in s.procs &&
              Flock(s.procs[p].pc).Some? && Flock(s.procs[p].pc) == Flock(s.procs[q].pc) :: p == q)
  }

  /** Directories are told apart by their inodes, and a session's inode only ever carries the
      session's own name. */
  ghost predicate Inodes(s: State) {
    && (forall n | n in s.dirs :: s.dirs[n].inode < s.nextInode)
    && (forall n, m | n in s.dirs && m in s.dirs && s.dirs[n].inode == s.dirs[m].inode :: n == m)
    && (forall p | p in s.procs && Tie(s.procs[p].pc).Some? :: Tie(s.procs[p].pc).value.1 < s.nextInode)
    && (forall p, q | p in s.procs && q in s.procs && Tie(s.procs[p].pc).Some? && Tie(s.procs[q].pc).Some? &&
                      Tie(s.procs[p].pc).value.1 == Tie(s.procs[q].pc).value.1 :: p == q)
    && (forall p, n | p in s.procs && n in s.dirs && Tie(s.procs[p].pc).Some? &&
                      Tie(s.procs[p].pc).value.1 == s.dirs[n].inode :: Tie(s.procs[p].pc).value.0 == n)
  }

  ghost predicate Ports(s: State) {
    forall p, q | p in s.procs && q in s.procs && !Over(s.procs[p].pc) && !Over(s.procs[q].pc) &&
                  s.procs[p].job.Prepare? && s.procs[q].job.Prepare? &&
                  s.procs[p].job.port == s.procs[q].job.port :: p == q
  }

  /** The bytes of the shared file are those that the committed edits stand for. */
  ghost predicate ContentOk(w: World, s: State) {
    Bytes(s.home) == FileContent(w.user, w.names, s.log) && LogOk(s.log, w.names)
  }

  /** A session's directory exists until the session itself has removed it. */
  ghost predicate SeatOk(w: World, dirs: map<string, Dir>, pr: Proc) {
    && (Tie(pr.pc).Some? ==> Tie(pr.pc).value.0 in w.names && pr.job.Prepare?)
    && (Seat(pr.pc).Some? ==> Seat(pr.pc).value.0 in dirs && dirs[Seat(pr.pc).value.0].inode == Seat(pr.pc).value.1)
  }

  predicate Sweeps(pc: Pc) { pc.Opened? || pc.Locked? || pc.Swept? }

  predicate SweepOk(dirs: map<string, Dir>, pc: Pc) {
    Sweeps(pc) ==>
      pc.todo != [] && (pc.todo[0] in dirs ==> !pc.Swept? && dirs[pc.todo[0]].inode == pc.inode)
  }

  function EditOf(pc: Pc): Option<Edit> {
    match pc
    case PruneEdit(_, _, edit) => Some(edit)
    case Owning(_, _, Updating(_, edit), _) => Some(edit)
    case Owning(_, _, Closing(edit), _) => Some(edit)
    case _ => None
  }

  function EventOf(pr: Proc): Event {
    match pr.pc
    case PruneEdit(name, _, _) => Event.Removed(name)
    case Owning(_, _, _, _) => if pr.job.Prepare? then OwnEvent(pr) else Event.Removed("")
    case _ => Event.Removed("")
  }

  /** An edit in progress still has the current bytes in hand. */
  ghost predicate EditGood(home: Directory, event: Event, edit: Edit) {
    edit.Editing? ==>
      edit.data == Bytes(home) && Holding(home, SHARED, NewText(edit.data, event), edit.write) && InProgress(edit.write)
  }

  ghost predicate EditOk(home: Directory, pr: Proc) {
    EditOf(pr.pc).Some? ==> EditGood(home, EventOf(pr), EditOf(pr.pc).value)
  }

  predicate Serving(task: Task) { task.Private? || task.AwaitingUpdate? || task.Updating? || task.Idle? }

  ghost predicate TaskOk(pr: Proc) {
    && (pr.acked.Some? ==> AcceptsSecret(pr.acked.value)) && (pr.late.Some? ==> AcceptsSecret(pr.late.value))
    && (!Over(pr.pc) && !(pr.pc.Owning? && !pr.pc.starting) ==> pr.acked.None?)
    && (!Over(pr.pc) && !pr.pc.Owning? ==> pr.late.None?)
    && (pr.pc.Owning? ==>
          var task := pr.pc.task;
          && pr.job.Prepare?
          && (Serving(task) || (task.Service? && !task.write.Unopened?) ==> Accepts(pr.job.target))
          && (task.Service? || task.Private? ==> InProgress(task.write))
          && (task.Idle? ==> !pr.pc.starting)
          && (task == Idle(true) ==> pr.late.None?)
          && (task.AwaitingUpdate? || task.Updating? || (task.Private? && !task.write.Unopened?) ==>
                AcceptsSecret(task.secret))
          && (task.AwaitingUpdate? || task.Updating? || task.AwaitingClose? || task.Closing? ==> Sharing(pr)))
  }

  /** The secret that the shared file holds between edits: that of the last Update that
      returned nil, unless a later one failed only after its rename. */
  function Standing(pr: Proc): Option<string> { if pr.late.Some? then pr.late else pr.acked }

  /** The secret that the shared file must hold for a session, None when it need not. */
  function Expected(pr: Proc): Option<string> {
    if !pr.pc.Owning? || !Sharing(pr) then None
    else match pr.pc.task
      case Updating(secret, Committed(_)) => Some(secret)
      case Closing(Committed(_)) => None
      case Removing(_) => None
      case Released(_) => None
      case _ => Standing(pr)
  }

  /** The session's own removal of its block has succeeded. */
  predicate Cleared(pr: Proc) {
    pr.pc.Owning? && Sharing(pr) &&
    ((pr.pc.task.Closing? && pr.pc.task.edit.Committed?) || pr.pc.task == Removing(true))
  }

  ghost predicate NoEntry(log: seq<Event>, session: string) {
    forall e | e in Entries(log) :: e.session != session
  }

  ghost predicate PublishedOk(log: seq<Event>, pr: Proc) {
    && (Expected(pr).Some? ==> Leads(Entries(log), EntryOf(pr, pr.pc.session, Expected(pr).value)))
    && (Cleared(pr) ==> NoEntry(log, pr.pc.session))
  }

  predicate Has(files: Directory, name: string, text: string) { name in files && files[name] == text }

  /** The private files of a session that serves its client, or is being prepared to. */
  ghost predicate FilesOk(files: Directory, pr: Proc)
    requires pr.pc.Owning? && pr.job.Prepare?
  {
    var t, port := pr.job.target, pr.job.port;
    match pr.pc.task
    case Service(write) => Holding(files, SERVICE, ServiceText(t, port), write)
    case Private(secret, write) =>
      Has(files, SERVICE, ServiceText(t, port)) && Holding(files, PASSFILE, PrivateText(t, port, secret), write)
    case AwaitingUpdate(secret) =>
      Has(files, SERVICE, ServiceText(t, port)) && Has(files, PASSFILE, PrivateText(t, port, secret))
    case Updating(secret, _) =>
      Has(files, SERVICE, ServiceText(t, port)) && Has(files, PASSFILE, PrivateText(t, port, secret))
    case Idle(agreed) =>
      Has(files, SERVICE, ServiceText(t, port)) &&
      (agreed ==> pr.acked.Some? && Has(files, PASSFILE, PrivateText(t, port, pr.acked.value)))
    case _ => true
  }

  ghost predicate PrivateOk(dirs: map<string, Dir>, pr: Proc) {
    pr.pc.Owning? && pr.job.Prepare? && pr.pc.session in dirs ==> FilesOk(dirs[pr.pc.session].files, pr)
  }

  // What recovery has still to do

  predicate Recovers(pc: Pc) {
    match pc
    case Waiting => false
    case Made(_, _) => false
    case Owning(_, _, _, _) => false
    case Finished => false
    case Crashed => false
    case _ => true
  }

  ghost predicate Untied(s: State, n: string) {
    forall q | q in s.procs && Tie(s.procs[q].pc).Some? :: Tie(s.procs[q].pc).value.0 != n
  }

  ghost predicate DirsPending(dirs: map<string, Dir>, doomed: set<string>, todo: seq<string>) {
    forall n | n in doomed && n in dirs :: n in todo
  }

  predicate HasBegin(lines: seq<string>, name: string) {
    exists i | 0 <= i < |lines| :: BlockSession(lines[i]) == Some(name)
  }

  ghost predicate BlocksPending(log: seq<Event>, doomed: set<string>, lines: seq<string>, current: Option<string>) {
    forall e | e in Entries(log) && e.session in doomed :: current == Some(e.session) || HasBegin(lines, e.session)
  }

  ghost predicate NoBlocks(log: seq<Event>, doomed: set<string>) {
    forall e | e in Entries(log) :: e.session !in doomed
  }

  ghost predicate DoomOk(w: World, s: State, p: Pid)
    requires p in s.procs
  {
    var pr := s.procs[p];
    Recovers(pr.pc) ==>
      && (forall n | n in pr.doomed :: n in w.names && Untied(s, n))
      && match pr.pc
         case Listing => true
         case Sweeping(todo) => DirsPending(s.dirs, pr.doomed, todo)
         case Opened(todo, _) => DirsPending(s.dirs, pr.doomed, todo)
         case Locked(todo, _) => DirsPending(s.dirs, pr.doomed, todo)
         case Swept(todo, _) => DirsPending(s.dirs, pr.doomed, todo)
         case Pruning(lines) => DirsPending(s.dirs, pr.doomed, []) && BlocksPending(s.log, pr.doomed, lines, None)
         case PruneEdit(name, lines, edit) =>
           DirsPending(s.dirs, pr.doomed, []) && name !in s.dirs && Removable(name) &&
           BlocksPending(s.log, pr.doomed, lines, if edit.Committed? then None else Some(name))
         case Pruned => DirsPending(s.dirs, pr.doomed, []) && NoBlocks(s.log, pr.doomed)
         case Recovered => DirsPending(s.dirs, pr.doomed, []) && (pr.files.pgpass ==> NoBlocks(s.log, pr.doomed))
         case _ => DirsPending(s.dirs, pr.doomed, [])
  }

  function EditTemp(edit: Option<Edit>): Option<string> {
    if edit.Some? && edit.value.Editing? then TempOf(edit.value.write) else None
  }

  /** What looks like a copy of the password file is still to be deleted, or is gone except for
      the one being written. */
  ghost predicate CleanOk(home: Directory, pc: Pc) {
    && (pc.Deleting? ==> forall t | t in home && IsLeftover(SHARED, t) :: t in pc.leftovers)
    && (pc.Deleting? ==> forall t | t in pc.leftovers :: IsLeftover(SHARED, t))
    && (pc.Loading? || pc.Pruning? || (pc.PruneEdit? && !pc.edit.Broken?) || pc.Pruned? ==>
          OnlyTemp(home, SHARED, EditTemp(EditOf(pc))))
  }

  ghost predicate ProcOk(w: World, s: State, p: Pid)
    requires p in s.procs
  {
    SeatOk(w, s.dirs, s.procs[p]) && SweepOk(s.dirs, s.procs[p].pc) && EditOk(s.home, s.procs[p]) &&
    TaskOk(s.procs[p]) && PublishedOk(s.log, s.procs[p]) &&
    PrivateOk(s.dirs, s.procs[p]) && DoomOk(w, s, p) && CleanOk(s.home, s.procs[p].pc)
  }

  ghost predicate Inv(w: World, s: State) {
    && WorldOk(w)
    && Mutex(s) && Inodes(s) && Ports(s) && ContentOk(w, s)
    && forall p | p in s.procs :: ProcOk(w, s, p)
  }

  // ---- The footprint of a step ----

  /** The directories that a process may change or remove. */
  predicate Uses(pc: Pc, n: string) {
    (Seat(pc).Some? && Seat(pc).value.0 == n) ||
    (pc.Locked? && pc.todo != [] && pc.todo[0] == n)
  }

  /** The step made a new session directory. */
  ghost predicate Makes(w: World, s: State, p: Pid, s': State)
    requires p in s.procs && p in s'.procs
  {
    var pc' := s'.procs[p].pc;
    && s.procs[p].pc.Recovered? && pc'.Made? && s.procs[p].job.Prepare?
    && pc'.session in w.names && pc'.session !in s.dirs && pc'.inode == s.nextInode
    && s'.dirs == s.dirs[pc'.session := Dir(s.nextInode, map[])]
    && s'.nextInode == s.nextInode + 1
  }

  ghost predicate DirsStep(w: World, s: State, p: Pid, s': State)
    requires p in s.procs && p in s'.procs
  {
    || Makes(w, s, p, s')
    || (&& s'.nextInode == s.nextInode
        && s'.dirs.Keys <= s.dirs.Keys
        && (forall n | n in s'.dirs :: s'.dirs[n].inode == s.dirs[n].inode)
        && (forall n | n in s.dirs :: (n in s'.dirs && s'.dirs[n] == s.dirs[n]) || Uses(s.procs[p].pc, n)))
  }

  ghost predicate ProcsStep(s: State, p: Pid, s': State) {
    && p in s.procs && s'.procs.Keys == s.procs.Keys
    && (forall q | q in s.procs && q != p :: s'.procs[q] == s.procs[q])
    && !Over(s.procs[p].pc) && !s'.procs[p].pc.Waiting?
    && (!s.procs[p].pc.Waiting? ==> s'.procs[p].doomed == s.procs[p].doomed)
    && s'.procs[p].files == s.procs[p].files && s'.procs[p].job == s.procs[p].job
  }

  ghost predicate LocksStep(s: State, p: Pid, s': State)
    requires p in s.procs && p in s'.procs
  {
    var pc, pc' := s.procs[p].pc, s'.procs[p].pc;
    && (HoldsRoot(pc') ==> HoldsRoot(pc) || RootFree(s))
    && (HoldsShared(pc') ==> HoldsShared(pc) || SharedFree(s))
    && (Flock(pc').Some? ==> Flock(pc) == Flock(pc') || FlockFree(s, Flock(pc').value))
  }

  ghost predicate TiesStep(w: World, s: State, p: Pid, s': State)
    requires p in s.procs && p in s'.procs
  {
    var pc, pc' := s.procs[p].pc, s'.procs[p].pc;
    && (Tie(pc').Some? ==> Tie(pc) == Tie(pc') || Makes(w, s, p, s'))
    && (Seat(pc').Some? ==> Seat(pc) == Seat(pc') || Makes(w, s, p, s'))
  }

  /** Which edits a process commits: its own session's, or the removal of a dead one's. */
  ghost predicate EventFrom(pr: Proc, event: Event) {
    match event
    case Published(e) =>
      pr.job.Prepare? && pr.pc.Owning? && pr.pc.task.Updating? && e == EntryOf(pr, pr.pc.session, pr.pc.task.secret)
    case Removed(name) =>
      (pr.pc.PruneEdit? && pr.pc.name == name) || (pr.pc.Owning? && pr.pc.task.Closing? && pr.pc.session == name)
  }

  /** The files that are neither the shared file nor look like a temporary copy of it. */
  function Bystanders(home: Directory): Directory {
    map f | f in home && f != SHARED && !IsLeftover(SHARED, f) :: home[f]
  }

  /** Only the shared file and its temporary copies are made or changed. */
  ghost predicate MakesNone(home: Directory, home': Directory) {
    forall f | f in home' && f != SHARED && !IsTemp(SHARED, f) :: f in home && home'[f] == home[f]
  }

  ghost predicate FileStep(s: State, p: Pid, s': State)
    requires p in s.procs
  {
    Bystanders(s'.home) == Bystanders(s.home) && MakesNone(s.home, s'.home) &&
    CommitStep(s, p, s')
  }

  ghost predicate CommitStep(s: State, p: Pid, s': State)
    requires p in s.procs
  {
    || (s'.log == s.log && Bytes(s'.home) == Bytes(s.home))
    || (|s'.log| == |s.log| + 1 &&
        var event := s'.log[|s.log|];
        s'.log == s.log + [event] && EventFrom(s.procs[p], event) && Bytes(s'.home) == NewText(Bytes(s.home), event))
  }

  ghost predicate Footprint(w: World, s: State, p: Pid, s': State) {
    && ProcsStep(s, p, s')
    && LocksStep(s, p, s')
    && TiesStep(w, s, p, s')
    && DirsStep(w, s, p, s')
    && (!HoldsShared(s.procs[p].pc) ==> s'.home == s.home && s'.log == s.log)
    && FileStep(s, p, s')
  }

  // ---- What any such step keeps ----

  lemma MutexKept(w: World, s: State, p: Pid, s': State)
    requires Mutex(s) && ProcsStep(s, p, s') && LocksStep(s, p, s')
    ensures Mutex(s')
  {
    hide HoldsRoot, HoldsShared, Flock;
  }

  lemma InodesKept(w: World, s: State, p: Pid, s': State)
    requires Inodes(s) && ProcsStep(s, p, s') && TiesStep(w, s, p, s') && DirsStep(w, s, p, s')
    ensures Inodes(s')
  {
    hide Seat, Over, Uses;
  }

  lemma PortsKept(s: State, p: Pid, s': State)
    requires Ports(s) && ProcsStep(s, p, s')
    ensures Ports(s')
  {
    hide Over;
  }

  /** Nobody else uses a directory that a session still has. */
  lemma OthersDirectory(w: World, s: State, p: Pid, q: Pid)
    requires Mutex(s) && Inodes(s) && p in s.procs && q in s.procs && p != q
    requires SeatOk(w, s.dirs, s.procs[p]) && SeatOk(w, s.dirs, s.procs[q]) && SweepOk(s.dirs, s.procs[p].pc)
    requires Seat(s.procs[q].pc).Some?
    ensures !Uses(s.procs[p].pc, Seat(s.procs[q].pc).value.0)
  {}

  lemma SeatKept(w: World, s: State, p: Pid, s': State, q: Pid)
    requires Mutex(s) && Inodes(s) && Footprint(w, s, p, s') && q in s.procs && p != q
    requires SeatOk(w, s.dirs, s.procs[p]) && SweepOk(s.dirs, s.procs[p].pc) && SeatOk(w, s.dirs, s.procs[q])
    ensures SeatOk(w, s'.dirs, s'.procs[q])
  {
    hide Uses, HoldsRoot, HoldsShared, Flock, FileStep, LocksStep, TiesStep, Mutex, Inodes;
    if Seat(s.procs[q].pc).Some? { OthersDirectory(w, s, p, q); }
  }

  lemma SweepKept(w: World, s: State, p: Pid, s': State, q: Pid)
    requires Mutex(s) && Footprint(w, s, p, s') && q in s.procs && p != q
    requires SweepOk(s.dirs, s.procs[q].pc)
    ensures SweepOk(s'.dirs, s'.procs[q].pc)
  {
    hide Uses, Flock, FileStep, LocksStep, TiesStep;
  }

  lemma EditKept(w: World, s: State, p: Pid, s': State, q: Pid)
    requires Mutex(s) && Footprint(w, s, p, s') && q in s.procs && p != q
    requires EditOk(s.home, s.procs[q]) && CleanOk(s.home, s.procs[q].pc)
    ensures EditOk(s'.home, s'.procs[q]) && CleanOk(s'.home, s'.procs[q].pc)
  {
    hide Uses, Flock, FileStep, LocksStep, TiesStep, DirsStep, EditGood, OnlyTemp, IsLeftover;
  }

  lemma PrivateKept(w: World, s: State, p: Pid, s': State, q: Pid)
    requires Mutex(s) && Inodes(s) && Footprint(w, s, p, s') && q in s.procs && p != q
    requires SeatOk(w, s.dirs, s.procs[p]) && SweepOk(s.dirs, s.procs[p].pc)
    requires SeatOk(w, s.dirs, s.procs[q]) && PrivateOk(s.dirs, s.procs[q])
    ensures PrivateOk(s'.dirs, s'.procs[q])
  {
    hide Uses, Flock, FileStep, LocksStep, TiesStep, HoldsRoot, HoldsShared, FilesOk, Mutex, Inodes;
    var pr := s.procs[q];
    if Seat(pr.pc).Some? {
      OthersDirectory(w, s, p, q);
    } else if pr.pc.Owning? && pr.job.Prepare? && pr.pc.session in s'.dirs {
      ReleasedFiles(s'.dirs[pr.pc.session].files, pr);
    }
  }

  lemma ReleasedFiles(files: Directory, pr: Proc)
    requires pr.pc.Owning? && pr.job.Prepare? && pr.pc.task.Released?
    ensures FilesOk(files, pr)
  {}

  lemma OtherSession(w: World, s: State, p: Pid, q: Pid)
    requires Inodes(s) && p in s.procs && q in s.procs && p != q
    requires SeatOk(w, s.dirs, s.procs[p]) && SeatOk(w, s.dirs, s.procs[q])
    requires Seat(s.procs[p].pc).Some? && Seat(s.procs[q].pc).Some?
    ensures Seat(s.procs[p].pc).value.0 != Seat(s.procs[q].pc).value.0
  {}

  /** A process commits no edit that concerns the block or the port of another session. */
  lemma OtherEvent(w: World, s: State, p: Pid, q: Pid, event: Event)
    requires Inodes(s) && Ports(s) && p in s.procs && q in s.procs && p != q
    requires SeatOk(w, s.dirs, s.procs[p]) && SeatOk(w, s.dirs, s.procs[q]) && DoomOk(w, s, p)
    requires EventFrom(s.procs[p], event)
    requires !Over(s.procs[p].pc) && Seat(s.procs[q].pc).Some?
    ensures SessionOf(event) != Seat(s.procs[q].pc).value.0
    ensures event.Published? ==> event.entry.port != s.procs[q].job.port
  {
    hide Inodes, Entries, DirsPending, BlocksPending, NoBlocks, Shares, Untied;
    if Seat(s.procs[p].pc).Some? { OtherSession(w, s, p, q); }
  }

  lemma NoEntryAfter(log: seq<Event>, event: Event, session: string)
    requires NoEntry(log, session) && SessionOf(event) != session
    ensures NoEntry(log + [event], session)
  {
    NoBlocksAfter(log, event, {session});
  }

  lemma PublishedKept(w: World, s: State, p: Pid, s': State, q: Pid)
    requires Inodes(s) && Ports(s) && Footprint(w, s, p, s') && q in s.procs && p != q
    requires SeatOk(w, s.dirs, s.procs[p]) && SeatOk(w, s.dirs, s.procs[q]) && PublishedOk(s.log, s.procs[q])
    requires DoomOk(w, s, p)
    ensures PublishedOk(s'.log, s'.procs[q])
  {
    hide Uses, Flock, LocksStep, TiesStep, DirsStep, Leads, Entries;
    hide NewText, DoomOk, Inodes, Ports, EventFrom, SeatOk, HoldsShared;
    var pr := s.procs[q];
    if (Expected(pr).Some? || Cleared(pr)) && s'.log != s.log {
      var event := s'.log[|s.log|];
      assert Seat(pr.pc) == Some((pr.pc.session, pr.pc.inode));
      OtherEvent(w, s, p, q, event);
      if Expected(pr).Some? { LeadsAfter(s.log, event, EntryOf(pr, pr.pc.session, Expected(pr).value)); }
      if Cleared(pr) { NoEntryAfter(s.log, event, pr.pc.session); }
    }
  }

  lemma ContentKept(w: World, s: State, p: Pid, s': State)
    requires WorldOk(w) && ContentOk(w, s) && Footprint(w, s, p, s')
    requires SeatOk(w, s.dirs, s.procs[p]) && TaskOk(s.procs[p]) && DoomOk(w, s, p)
    ensures ContentOk(w, s')
  {
    hide Uses, Flock, LocksStep, TiesStep, DirsStep, DoomOk, Removable, Entries, FileContent, Bytes, Shares,
      Rewritten, EventLines, AcceptsSecret, PlainValue, SessionName, UserOk;
    if s'.log != s.log {
      var event := s'.log[|s.log|];
      OwnEventOk(w, s, p, event);
      EditCommits(w.user, w.names, s.log, event);
      hide EventOk;
      assert LogOk(s'.log, w.names);
    }
  }

  lemma OwnEventOk(w: World, s: State, p: Pid, event: Event)
    requires WorldOk(w) && p in s.procs && SeatOk(w, s.dirs, s.procs[p]) && TaskOk(s.procs[p]) && DoomOk(w, s, p)
    requires EventFrom(s.procs[p], event)
    ensures EventOk(event, w.names)
  {
    if event.Published? {
      assert SessionName(event.entry.session);
    }
  }

  lemma NoBlocksAfter(log: seq<Event>, event: Event, doomed: set<string>)
    requires forall e | e in Entries(log) :: e.session !in doomed
    requires event.Published? ==> event.entry.session !in doomed
    ensures forall e | e in Entries(log + [event]) :: e.session !in doomed
  {
    assert (log + [event])[..|log|] == log;
    DroppingProperties(Entries(log), SessionOf(event));
  }

  lemma DoomKept(w: World, s: State, p: Pid, s': State, q: Pid)
    requires Mutex(s) && Inodes(s) && Footprint(w, s, p, s') && q in s.procs && p != q
    requires DoomOk(w, s, q)
    ensures DoomOk(w, s', q)
  {
    hide Uses, Flock, LocksStep, Leads, Entries, NewText, Seat, HasBegin, Inodes;
    var pr := s.procs[q];
    if Recovers(pr.pc) {
      assert HoldsRoot(pr.pc) && !HoldsRoot(s.procs[p].pc);
      assert !Makes(w, s, p, s');
      forall n | n in pr.doomed ensures Untied(s', n) {
        assert Untied(s, n);
      }
      if s'.log != s.log && (pr.pc.Recovered? && pr.files.pgpass) {
        var event := s'.log[|s.log|];
        assert event.Published? ==> Tie(s.procs[p].pc).Some? && event.entry.session == Tie(s.procs[p].pc).value.0;
        NoBlocksAfter(s.log, event, pr.doomed);
      }
    }
  }
}
