/** The lifecycle of one session: `Run` and `runCommand` in internal/session/session.go, with
    the command and the refresh loop running beside the main goroutine, the tunnel failing
    and the context being cancelled at any time. Every call to a provider is two steps, its
    begin and its return, so that everything else can happen in between. */
module Lifecycle {
  import opened Text
  import opened Refreshing

  /** Where the main goroutine is: the call it is in or what it waits for. */
  datatype Main =
    | Opening
    | Fetching
    | Checking(c: Credential)
    | Preparing(c: Credential)
    | Starting(c: Credential)
    | Selecting
    | AwaitingCommand
    | AwaitingRefresh
    | ClosingClient
    | ClosingTunnel
    | Done

  /** Where the refresh goroutine is; Deciding is the check of the context after `renew`. */
  datatype Refresher =
    | Unborn
    | Sleeping
    | Asking
    | Verifying(c: Credential)
    | Updating(c: Credential)
    | Deciding(answer: Option<Credential>)
    | Ended

  datatype Child = Absent | Spawned | Running | Exited(ok: bool)

  /** The database identity, and with the tunnel's local port what a credential is for. */
  datatype Target = Target(host: string, database: string, user: string, rootCert: string, port: nat)

  datatype Place = Place(target: Target, localPort: nat)

  datatype Event =
    | OpenReturned(ok: bool)
    | VerifyCalled(at: Place, secret: string)
    | VerifyReturned(at: Place, secret: string, ok: bool)
    | PrepareCalled(at: Place, secret: string)
    | PrepareReturned(secret: string, ok: bool)
    | CommandStarted
    | CommandExited(ok: bool)
    | TunnelStopSeen
    | UpdateCalled(at: Place, secret: string)
    | UpdateReturned(secret: string, ok: bool)
    | ClientClosing
    | ClientClosed(ok: bool)
    | TunnelClosing
    | TunnelClosed(ok: bool)

  datatype Failure =
    | OpenFailed | CredentialFailed | VerifyFailed | PrepareFailed
    | TunnelStopped | CommandFailed | ClientCloseFailed | TunnelCloseFailed

  /** `listening` is the port of the open tunnel, `place` the runner's target with that port,
      `client` what Prepare was given, `refreshing` what the refresh loop was given; `current`
      is that loop's variable and `result` the errors joined so far. */
  datatype State = State(
    listening: Option<nat>,
    place: Place,
    client: Option<Place>,
    refreshing: Place,
    main: Main,
    refresher: Refresher,
    current: Credential,
    command: Child,
    cancelled: bool,
    tunnelUp: bool,
    result: seq<Failure>,
    trace: seq<Event>)

  const NOTHING := Credential("", None)

  function Start(place: Place): State {
    State(None, place, None, place, Opening, Unborn, NOTHING, Absent, false, true, [], [])
  }

  /** What happens next and, where the outside decides, how it turns out. */
  datatype Choice =
    | Open(ok: bool, localPort: nat)
    | Fetch(answer: Option<Credential>)
    | Verify(ok: bool)
    | Prepare(ok: bool)
    | Launch
    | SeeCommand
    | SeeTunnel
    | JoinCommand
    | JoinRefresh
    | CloseClient(ok: bool)
    | CloseTunnel(ok: bool)
    | StartCommand
    | ExitCommand(ok: bool)
    | Wake
    | WakeCancelled
    | Refetch(answer: Option<Credential>)
    | Reverify(ok: bool)
    | Update(ok: bool)
    | Decide
    | StopTunnel
    | Cancel

  function Failed(ok: bool, f: Failure): seq<Failure> { if ok then [] else [f] }

  /** An error return of Run after Open: the deferred tunnel close begins. */
  function Abort(s: State, trace: seq<Event>, f: Failure): State {
    s.(main := ClosingTunnel, result := s.result + [f], trace := trace + [TunnelClosing])
  }

  function MainStep(s: State, a: Choice): Option<State> {
    match s.main
    case Opening =>
      if !a.Open? then None
      else if a.ok then
        Some(s.(main := Fetching, listening := Some(a.localPort), place := s.place.(localPort := a.localPort),
               trace := s.trace + [OpenReturned(true)]))
      else Some(s.(main := Done, result := s.result + [OpenFailed], trace := s.trace + [OpenReturned(false)]))
    case Fetching =>
      if !a.Fetch? then None
      else if a.answer.None? then Some(Abort(s, s.trace, CredentialFailed))
      else Some(s.(main := Checking(a.answer.value), trace := s.trace + [VerifyCalled(s.place, a.answer.value.secret)]))
    case Checking(c) =>
      if !a.Verify? then None
      else if !a.ok then Some(Abort(s, s.trace + [VerifyReturned(s.place, c.secret, false)], VerifyFailed))
      else Some(s.(main := Preparing(c),
             trace := s.trace + [VerifyReturned(s.place, c.secret, true)] + [PrepareCalled(s.place, c.secret)]))
    case Preparing(c) =>
      if !a.Prepare? then None
      else if !a.ok then Some(Abort(s, s.trace + [PrepareReturned(c.secret, false)], PrepareFailed))
      else Some(s.(main := Starting(c), client := Some(s.place), trace := s.trace + [PrepareReturned(c.secret, true)]))
    case Starting(c) =>
      if !a.Launch? then None
      else
        Some(s.(main := Selecting, refresher := Sleeping, refreshing := s.place, current := c, command := Spawned))
    case Selecting =>
      if a.SeeCommand? && s.command.Exited? then
        Some(s.(main := AwaitingRefresh, cancelled := true, result := s.result + Failed(s.command.ok, CommandFailed)))
      else if a.SeeTunnel? && !s.tunnelUp then
        Some(s.(main := AwaitingCommand, cancelled := true, result := s.result + [TunnelStopped],
               trace := s.trace + [TunnelStopSeen]))
      else None
    case AwaitingCommand =>
      if a.JoinCommand? && s.command.Exited? then
        Some(s.(main := AwaitingRefresh, result := s.result + Failed(s.command.ok, CommandFailed)))
      else None
    case AwaitingRefresh =>
      if a.JoinRefresh? && s.refresher.Ended? then
        Some(s.(main := ClosingClient, trace := s.trace + [ClientClosing])) else None
    case ClosingClient =>
      if !a.CloseClient? then None
      else Some(s.(main := ClosingTunnel, result := s.result + Failed(a.ok, ClientCloseFailed),
                   trace := s.trace + [ClientClosed(a.ok)] + [TunnelClosing]))
    case ClosingTunnel =>
      if !a.CloseTunnel? then None
      else Some(s.(main := Done, result := s.result + Failed(a.ok, TunnelCloseFailed),
                  trace := s.trace + [TunnelClosed(a.ok)]))
    case Done => None
  }

  function CommandStep(s: State, a: Choice): Option<State> {
    if a.StartCommand? && s.command.Spawned? then Some(s.(command := Running, trace := s.trace + [CommandStarted]))
    else if a.ExitCommand? && s.command.Running? then
      Some(s.(command := Exited(a.ok), trace := s.trace + [CommandExited(a.ok)]))
    else None
  }

  /** One step of `refresh`. A wake-up whose time has come does not look at the context. */
  function RefreshStep(s: State, a: Choice): Option<State> {
    match s.refresher
    case Unborn => None
    case Sleeping =>
      if a.Wake? then Some(s.(refresher := Asking))
      else if a.WakeCancelled? && s.cancelled then Some(s.(refresher := Ended))
      else None
    case Asking =>
      if !a.Refetch? then None
      else if a.answer.None? || Unchanged(a.answer.value, s.current) then Some(s.(refresher := Deciding(a.answer)))
      else Some(s.(refresher := Verifying(a.answer.value),
                  trace := s.trace + [VerifyCalled(s.refreshing, a.answer.value.secret)]))
    case Verifying(c) =>
      if !a.Reverify? then None
      else if !a.ok then Some(s.(refresher := Deciding(None),
                  trace := s.trace + [VerifyReturned(s.refreshing, c.secret, false)]))
      else
        Some(s.(refresher := Updating(c),
             trace := s.trace + [VerifyReturned(s.refreshing, c.secret, true)] +
             [UpdateCalled(if s.client.Some? then s.client.value else s.refreshing, c.secret)]))
    case Updating(c) =>
      if !a.Update? then None
      else Some(s.(refresher := Deciding(if a.ok then Some(c) else None),
                  trace := s.trace + [UpdateReturned(c.secret, a.ok)]))
    case Deciding(answer) =>
      if !a.Decide? then None
      else if s.cancelled then Some(s.(refresher := Ended))
      else Some(s.(refresher := Sleeping, current := if answer.Some? then answer.value else s.current))
    case Ended => None
  }

  function OutsideStep(s: State, a: Choice): Option<State> {
    if a.StopTunnel? && s.tunnelUp then Some(s.(tunnelUp := false))
    else if a.Cancel? && !s.cancelled then Some(s.(cancelled := true))
    else None
  }

  datatype Actor = MainActor | CommandActor | RefreshActor | Outside

  function Act(s: State, who: Actor, a: Choice): Option<State> {
    match who
    case MainActor => MainStep(s, a)
    case CommandActor => CommandStep(s, a)
    case RefreshActor => RefreshStep(s, a)
    case Outside => OutsideStep(s, a)
  }

  ghost predicate Next(s: State, s': State) { exists who, a :: Act(s, who, a) == Some(s') }

  ghost predicate Execution(states: seq<State>) {
    states != [] && states[0] == Start(states[0].place) &&
    forall i | 0 <= i < |states| - 1 :: Next(states[i], states[i + 1])
  }

  // ---- What a trace must look like ----

  /** The secret of Prepare, or of the last Update that returned nil. */
  function Held(t: seq<Event>): Option<string> {
    if t == [] then None
    else if Publishes(t[|t| - 1]) then Some(t[|t| - 1].secret)
    else Held(t[..|t| - 1])
  }

  predicate Publishes(e: Event) { (e.PrepareReturned? || e.UpdateReturned?) && e.ok }

  predicate Closing(e: Event) { e.ClientClosing? || e.ClientClosed? || e.TunnelClosing? || e.TunnelClosed? }

  predicate Ends(t: seq<Event>, e: Event) { t != [] && t[|t| - 1] == e }

  /** `e` may follow the events `t`. */
  ghost predicate Allowed(t: seq<Event>, e: Event) {
    // A close call returns before anything else happens, and is the only one of its kind.
    && (TunnelClosing in t ==> e.TunnelClosed?)
    && (ClientClosing in t ==> Closing(e) && !e.ClientClosing?)
    && (e.ClientClosed? ==> Ends(t, ClientClosing))
    && (e.TunnelClosed? ==> Ends(t, TunnelClosing))
    // A client that exists is closed before the tunnel.
    && (e.TunnelClosing? && Held(t).Some? ==> ClientClosing in t)
    // Nothing is published that was not verified before; only an existing client is used.
    && (e.PrepareCalled? || e.UpdateCalled? ==> VerifyReturned(e.at, e.secret, true) in t)
    && (e.CommandStarted? || e.UpdateCalled? || e.ClientClosing? ==> Held(t).Some?)
    // Nothing happens without a tunnel.
    && (!e.OpenReturned? ==> OpenReturned(true) in t)
  }

  ghost predicate Sound(t: seq<Event>) { forall i | 0 <= i < |t| :: Allowed(t[..i], t[i]) }

  lemma SoundGrows(t: seq<Event>, e: Event)
    requires Sound(t) && Allowed(t, e)
    ensures Sound(t + [e])
  {
    hide Allowed;
    var u := t + [e];
    forall i | 0 <= i < |u| ensures Allowed(u[..i], u[i]) {
      if i < |t| { assert u[..i] == t[..i] && u[i] == t[i]; } else { assert u[..i] == t; }
    }
  }

  lemma HeldGrows(t: seq<Event>, e: Event)
    ensures Held(t + [e]) == if Publishes(e) then Some(e.secret) else Held(t)
    ensures Ends(t + [e], e)
  {
    assert (t + [e])[..|t|] == t;
  }

  // ---- The invariant ----

  predicate BeforeLaunch(m: Main) { m.Opening? || m.Fetching? || m.Checking? || m.Preparing? || m.Starting? }

  /** The other goroutines exist between Launch and the joins. */
  predicate Phases(s: State) {
    && (BeforeLaunch(s.main) ==> s.refresher.Unborn? && s.command.Absent?)
    && (s.main.Selecting? || s.main.AwaitingCommand? ==> !s.refresher.Unborn? && !s.command.Absent?)
    && (s.main.AwaitingCommand? || s.main.AwaitingRefresh? ==> s.cancelled)
    && (s.main.AwaitingRefresh? ==> !s.refresher.Unborn? && s.command.Exited?)
    && (s.main.ClosingClient? ==> s.refresher.Ended? && s.command.Exited?)
    && (s.main.ClosingTunnel? || s.main.Done? ==>
        (s.refresher.Unborn? && s.command.Absent?) || (s.refresher.Ended? && s.command.Exited?))
  }

  /** A client exists. */
  predicate HasClient(s: State) {
    s.main.Starting? || s.main.Selecting? || s.main.AwaitingCommand? ||
    s.main.AwaitingRefresh? || s.main.ClosingClient? ||
    ((s.main.ClosingTunnel? || s.main.Done?) && s.refresher.Ended?)
  }

  /** What has been called, read from where the main goroutine is. */
  predicate Calls(s: State) {
    && (s.main.Opening? ==> s.trace == [])
    && (!s.main.Opening? && !s.main.Done? ==> OpenReturned(true) in s.trace)
    && (s.main.Done? ==> s.trace == [OpenReturned(false)] || OpenReturned(true) in s.trace)
    && (TunnelClosing in s.trace ==> s.main.ClosingTunnel? || s.main.Done?)
    && (ClientClosing in s.trace ==>
          s.main.ClosingClient? || ((s.main.ClosingTunnel? || s.main.Done?) && s.refresher.Ended?))
    && (s.main.ClosingClient? ==> Ends(s.trace, ClientClosing))
    && (s.main.ClosingTunnel? ==> Ends(s.trace, TunnelClosing))
    && (Held(s.trace).Some? <==> HasClient(s))
  }

  /** The loop runs and nothing was published since its variable was set. */
  predicate Awake(r: Refresher) {
    r.Sleeping? || r.Asking? || r.Verifying? || r.Updating? || r == Deciding(None)
  }

  /** The secret that the refresh loop believes to be published is. */
  predicate Believes(s: State) {
    && (s.main.Starting? ==> Held(s.trace) == Some(s.main.c.secret))
    && (Awake(s.refresher) ==> Held(s.trace) == Some(s.current.secret))
    && (s.refresher.Deciding? && s.refresher.answer.Some? ==> Held(s.trace) == Some(s.refresher.answer.value.secret))
  }

  /** The refresh loop and the client are for the same place. */
  predicate Agrees(s: State) {
    && (s.main.Starting? ==> s.client == Some(s.place))
    && (!s.refresher.Unborn? ==> s.client == Some(s.refreshing))
  }

  ghost predicate Inv(s: State) {
    Agrees(s) && Phases(s) && Calls(s) && Believes(s) && Sound(s.trace)
  }

  lemma MainKeeps(s: State, a: Choice, s': State)
    requires Inv(s) && MainStep(s, a) == Some(s')
    ensures Inv(s')
  {
    if s.main.Checking? || s.main.Preparing? {
      LoginKeeps(s, a, s');
    } else if BeforeLaunch(s.main) {
      StartupKeeps(s, a, s');
    } else if s.main.ClosingClient? || s.main.ClosingTunnel? {
      CloseKeeps(s, a, s');
    } else {
      JoinKeeps(s, a, s');
    }
  }

  /** Appending one event keeps what is known about the trace before it. */
  lemma Appends(t: seq<Event>, e: Event)
    requires Sound(t) && Allowed(t, e)
    ensures Sound(t + [e]) && Ends(t + [e], e)
    ensures Held(t + [e]) == if Publishes(e) then Some(e.secret) else Held(t)
    ensures forall x :: x in t + [e] <==> x in t || x == e
  {
    hide Allowed, Sound;
    SoundGrows(t, e);
    HeldGrows(t, e);
  }

  lemma StartupKeeps(s: State, a: Choice, s': State)
    requires Inv(s) && (s.main.Opening? || s.main.Fetching? || s.main.Starting?) && MainStep(s, a) == Some(s')
    ensures Inv(s')
  {
    hide Sound, Held, Ends;
    match s.main
    case Opening =>
      EmptyTrace();
      Appends(s.trace, OpenReturned(a.ok));
    case Fetching =>
      Appends(s.trace, if a.answer.Some? then VerifyCalled(s.place, a.answer.value.secret) else TunnelClosing);
    case Starting(c) =>
  }

  lemma LoginKeeps(s: State, a: Choice, s': State)
    requires Inv(s) && (s.main.Checking? || s.main.Preparing?) && MainStep(s, a) == Some(s')
    ensures Inv(s')
  {
    hide Sound, Held, Ends;
    match s.main
    case Checking(c) =>
      var e := VerifyReturned(s.place, c.secret, a.ok);
      Appends(s.trace, e);
      Appends(s.trace + [e], if a.ok then PrepareCalled(s.place, c.secret) else TunnelClosing);
    case Preparing(c) =>
      Appends(s.trace, PrepareReturned(c.secret, a.ok));
      if !a.ok { Appends(s.trace + [PrepareReturned(c.secret, false)], TunnelClosing); }
  }

  lemma EmptyTrace()
    ensures Held([]) == None && Sound([])
  {}

  lemma JoinKeeps(s: State, a: Choice, s': State)
    requires Inv(s) && (s.main.Selecting? || s.main.AwaitingCommand? || s.main.AwaitingRefresh?)
    requires MainStep(s, a) == Some(s')
    ensures Inv(s')
  {
    hide Sound, Held, Ends;
    if s.main.AwaitingRefresh? {
      Appends(s.trace, ClientClosing);
    } else if s.main.Selecting? && a.SeeTunnel? {
      Appends(s.trace, TunnelStopSeen);
    }
  }

  lemma CloseKeeps(s: State, a: Choice, s': State)
    requires Inv(s) && (s.main.ClosingClient? || s.main.ClosingTunnel?) && MainStep(s, a) == Some(s')
    ensures Inv(s')
  {
    hide Sound, Held;
    if s.main.ClosingClient? {
      Appends(s.trace, ClientClosed(a.ok));
      Appends(s.trace + [ClientClosed(a.ok)], TunnelClosing);
    } else {
      Appends(s.trace, TunnelClosed(a.ok));
    }
  }

  lemma CommandKeeps(s: State, a: Choice, s': State)
    requires Inv(s) && CommandStep(s, a) == Some(s')
    ensures Inv(s')
  {
    hide Held, Sound, Ends;
    Appends(s.trace, if s.command.Spawned? then CommandStarted else CommandExited(a.ok));
  }

  lemma RefreshKeeps(s: State, a: Choice, s': State)
    requires Inv(s) && RefreshStep(s, a) == Some(s')
    ensures Inv(s')
  {
    hide Held, Sound, Ends;
    match s.refresher
    case Asking =>
      if s'.refresher.Verifying? { Appends(s.trace, VerifyCalled(s.refreshing, s'.refresher.c.secret)); }
    case Verifying(c) => VerifyKeeps(s, a, s');
    case Updating(c) =>
      Appends(s.trace, UpdateReturned(c.secret, a.ok));
    case _ =>
  }

  lemma VerifyKeeps(s: State, a: Choice, s': State)
    requires Inv(s) && s.refresher.Verifying? && RefreshStep(s, a) == Some(s')
    ensures Inv(s')
  {
    hide Held, Sound, Ends;
    var c := s.refresher.c;
    Appends(s.trace, VerifyReturned(s.refreshing, c.secret, a.ok));
    if a.ok {
      Appends(s.trace + [VerifyReturned(s.refreshing, c.secret, true)], UpdateCalled(s.refreshing, c.secret));
    }
  }

  lemma OutsideKeeps(s: State, a: Choice, s': State)
    requires Inv(s) && OutsideStep(s, a) == Some(s')
    ensures Inv(s')
  {}

  /** The invariant holds in every state of every execution. */
  lemma {:induction false} AlwaysInv(states: seq<State>)
    requires Execution(states)
    ensures Inv(states[|states| - 1])
  {
    if |states| == 1 {
      StartInv(states[0].place);
    } else {
      hide Inv, Act;
      var before := states[..|states| - 1];
      AlwaysInv(before);
      var s, s' := before[|before| - 1], states[|states| - 1];
      assert Next(states[|states| - 2], states[|states| - 1]);
      var who, a :| Act(s, who, a) == Some(s');
      ActKeeps(s, who, a, s');
    }
  }

  lemma StartInv(place: Place)
    ensures Inv(Start(place))
  {
    EmptyTrace();
  }

  lemma ActKeeps(s: State, who: Actor, a: Choice, s': State)
    requires Inv(s) && Act(s, who, a) == Some(s')
    ensures Inv(s')
  {
    hide Inv, MainStep, CommandStep, RefreshStep, OutsideStep;
    match who
    case MainActor => MainKeeps(s, a, s');
    case CommandActor => CommandKeeps(s, a, s');
    case RefreshActor => RefreshKeeps(s, a, s');
    case Outside => OutsideKeeps(s, a, s');
  }

  // ---- Closing in order ----

  predicate AfterClient(e: Event) { e.ClientClosed? || e.TunnelClosing? || e.TunnelClosed? }

  /** Once the client close began, neither the command nor the refresh loop does anything any
      more: no update and no verification follows, only the rest of the cleanup. */
  lemma NothingAfterClientClose(states: seq<State>, i: nat, j: nat)
    requires Execution(states)
    requires var t := states[|states| - 1].trace; i < j < |t| && t[i] == ClientClosing
    ensures AfterClient(states[|states| - 1].trace[j])
  {
    AlwaysInv(states);
    var t := states[|states| - 1].trace;
    assert Allowed(t[..j], t[j]);
    assert t[..j][i] == ClientClosing;
  }

  /** The client close begins only when the command and the refresh loop have both ended. */
  lemma ClientCloseWaits(states: seq<State>)
    requires Execution(states) && ClientClosing in states[|states| - 1].trace
    ensures states[|states| - 1].command.Exited? && states[|states| - 1].refresher.Ended?
  {
    AlwaysInv(states);
    hide Sound, Held, Believes;
  }

  /** After the tunnel close began nothing follows but its return: it is closed once, and no
      verification can use it afterwards. */
  lemma NothingAfterTunnelClose(states: seq<State>, i: nat, j: nat)
    requires Execution(states)
    requires var t := states[|states| - 1].trace; i < j < |t| && t[i] == TunnelClosing
    ensures var t := states[|states| - 1].trace; t[j].TunnelClosed? && j == i + 1 && |t| == i + 2
  {
    AlwaysInv(states);
    var t := states[|states| - 1].trace;
    hide Inv, Allowed;
    TunnelClosesLast(t, i, i + 1);
    TunnelClosesLast(t, i, j);
    if |t| > i + 2 { TunnelClosesLast(t, i, i + 2); }
  }

  lemma TunnelClosesLast(t: seq<Event>, i: nat, j: nat)
    requires Sound(t) && i < j < |t| && t[i] == TunnelClosing
    ensures t[j].TunnelClosed? && t[j - 1] == TunnelClosing
  {
    hide Held, Publishes, Closing;
    var p := t[..j];
    assert Allowed(p, t[j]);
    hide Sound;
    assert p[i] == TunnelClosing && p[j - 1] == t[j - 1];
  }

  /** The last events of a session that is over or closing its tunnel. */
  predicate Closed(s: State) {
    var t := s.trace;
    var n := |t|;
    && (s.main.ClosingTunnel? ==> n >= 1 && t[n - 1] == TunnelClosing)
    && (s.main.ClosingTunnel? && s.refresher.Ended? ==> n >= 3 && t[n - 3] == ClientClosing && t[n - 2].ClientClosed?)
    && (s.main.Done? && OpenReturned(true) in t ==> n >= 2 && t[n - 2] == TunnelClosing && t[n - 1].TunnelClosed?)
    && (s.main.Done? && s.refresher.Ended? ==> n >= 4 && t[n - 4] == ClientClosing && t[n - 3].ClientClosed?)
  }

  lemma ActCloses(s: State, who: Actor, a: Choice, s': State)
    requires Phases(s) && Calls(s) && Closed(s) && Act(s, who, a) == Some(s')
    ensures Closed(s')
  {
    hide Held, Calls, Closed, MainStep, CommandStep, RefreshStep, OutsideStep;
    match who
    case MainActor => MainCloses(s, a, s');
    case Outside => OutsideCloses(s, a, s');
    case CommandActor => OthersAreOver(s, who, a, s');
    case RefreshActor => OthersAreOver(s, who, a, s');
  }

  lemma OthersAreOver(s: State, who: Actor, a: Choice, s': State)
    requires Phases(s) && (who.CommandActor? || who.RefreshActor?) && Act(s, who, a) == Some(s')
    ensures Closed(s')
  {}

  lemma OutsideCloses(s: State, a: Choice, s': State)
    requires Closed(s) && OutsideStep(s, a) == Some(s')
    ensures Closed(s')
  {}

  lemma MainCloses(s: State, a: Choice, s': State)
    requires Phases(s) && Calls(s) && Closed(s) && MainStep(s, a) == Some(s')
    ensures Closed(s')
  {
    hide Held;
  }

  lemma {:induction false} AlwaysClosed(states: seq<State>)
    requires Execution(states)
    ensures Closed(states[|states| - 1])
  {
    hide Act, Closed, Phases, Calls;
    if |states| == 1 {
      StartClosed(states[0].place);
    } else {
      var before := states[..|states| - 1];
      AlwaysClosed(before);
      AlwaysInv(before);
      var s, s' := before[|before| - 1], states[|states| - 1];
      assert Next(states[|states| - 2], states[|states| - 1]);
      var who, a :| Act(s, who, a) == Some(s');
      ActCloses(s, who, a, s');
    }
  }

  lemma StartClosed(place: Place)
    ensures Closed(Start(place))
  {}

  /** When Run returns, everything that was opened is closed, in order, as the last thing that
      happened, and nothing runs any more. */
  lemma EverythingIsClosed(states: seq<State>)
    requires Execution(states) && states[|states| - 1].main.Done?
    ensures var s := states[|states| - 1]; var n := |s.trace|;
      && (s.refresher.Unborn? || s.refresher.Ended?) && (s.command.Absent? || s.command.Exited?)
      && (OpenReturned(true) in s.trace <==> TunnelClosing in s.trace)
      && (TunnelClosing in s.trace ==> n >= 2 && s.trace[n - 2] == TunnelClosing && s.trace[n - 1].TunnelClosed?)
      && (Held(s.trace).Some? ==> n >= 4 && s.trace[n - 4] == ClientClosing && s.trace[n - 3].ClientClosed?)
  {
    hide Sound, Held, Believes, Allowed;
    AlwaysInv(states);
    AlwaysClosed(states);
    var s := states[|states| - 1];
    assert s.trace == [OpenReturned(false)] ==> TunnelClosing !in s.trace && OpenReturned(true) !in s.trace;
    assert OpenReturned(true) in s.trace ==> s.trace[|s.trace| - 2] in s.trace;
  }

  /** Every secret handed to Prepare or Update was verified earlier in the same run, for the
      same target and local port that the client is for. */
  lemma PublishedWasVerified(states: seq<State>, i: nat)
    requires Execution(states)
    requires var t := states[|states| - 1].trace; i < |t| && (t[i].PrepareCalled? || t[i].UpdateCalled?)
    ensures var t := states[|states| - 1].trace;
      exists j | 0 <= j < i :: t[j] == VerifyReturned(t[i].at, t[i].secret, true)
  {
    AlwaysInv(states);
    var t := states[|states| - 1].trace;
    var p := t[..i];
    assert Allowed(p, t[i]);
    hide Inv, Held;
    var j :| 0 <= j < |p| && p[j] == VerifyReturned(t[i].at, t[i].secret, true);
    assert t[j] == p[j];
  }

  /** At every head of the refresh loop its credential holds the secret of Prepare or of the
      last Update that returned nil, whether or not the last renewal published. */
  lemma CurrentIsHeld(states: seq<State>)
    requires Execution(states) && states[|states| - 1].refresher.Sleeping?
    ensures var s := states[|states| - 1]; Held(s.trace) == Some(s.current.secret)
  {
    AlwaysInv(states);
  }

  // ---- The refresh loop goes on ----

  /** The answers of one turn, as the choices of the refresh loop. */
  function TurnChoice(r: Refresher, turn: Turn): Choice {
    match r
    case Asking => Refetch(if turn.auth.Got? then Some(turn.auth.credential) else None)
    case Verifying(_) => Reverify(turn.verify.None?)
    case Updating(_) => Update(turn.update.None?)
    case Deciding(_) => Decide
    case _ => Wake
  }

  /** The rest of one turn of the loop. */
  function Through(s: State, turn: Turn): State
    decreases RefreshRank(s.refresher)
  {
    if s.refresher.Unborn? || s.refresher.Sleeping? || s.refresher.Ended? then s
    else
      match RefreshStep(s, TurnChoice(s.refresher, turn))
      case None => s
      case Some(s') => if s'.refresher.Sleeping? || s'.refresher.Ended? then s' else Through(s', turn)
  }

  /** The calls of one turn. */
  function CallsOf(s: State, turn: Turn): seq<Event> {
    if turn.auth.Lost? || Unchanged(turn.auth.credential, s.current) then []
    else
      var at, secret := s.refreshing, turn.auth.credential.secret;
      [VerifyCalled(at, secret), VerifyReturned(at, secret, turn.verify.None?)] +
      (if turn.verify.None? then [UpdateCalled(at, secret), UpdateReturned(secret, turn.update.None?)] else [])
  }

  /** A turn of this goroutine is a turn of Refreshing's loop: whatever fails, it goes back to
      sleep with the credential that the renewal leaves, having published what the renewal
      publishes; only a cancelled context ends it. */
  lemma TurnIsRenewal(s: State, turn: Turn)
    requires s.refresher.Asking? && s.client == Some(s.refreshing)
    ensures var e, answer := Through(s, turn), Renewal(turn, s.current);
      && e.refresher == (if s.cancelled then Ended else Sleeping)
      && (!s.cancelled ==> e.current == if answer.Got? then answer.credential else s.current)
      && e.trace == s.trace + CallsOf(s, turn)
      && e == s.(refresher := e.refresher, current := e.current, trace := e.trace)
  {
    if turn.auth.Got? && !Unchanged(turn.auth.credential, s.current) {
      TurnVerifies(s, turn);
    } else {
      TurnDecides(s, turn);
    }
  }

  lemma TurnDecides(s: State, turn: Turn)
    requires s.refresher.Asking? && (turn.auth.Lost? || Unchanged(turn.auth.credential, s.current))
    ensures var e, answer := Through(s, turn), Renewal(turn, s.current);
      && e.refresher == (if s.cancelled then Ended else Sleeping)
      && (!s.cancelled ==> e.current == if answer.Got? then answer.credential else s.current)
      && e.trace == s.trace + CallsOf(s, turn)
      && e == s.(refresher := e.refresher, current := e.current, trace := e.trace)
  {
    var answer := if turn.auth.Got? then Some(turn.auth.credential) else None;
    ThroughStep(s, turn, s.(refresher := Deciding(answer)));
    DecidingStep(s.(refresher := Deciding(answer)), turn);
    assert s.trace + [] == s.trace;
  }

  lemma TurnVerifies(s: State, turn: Turn)
    requires s.refresher.Asking? && s.client == Some(s.refreshing)
    requires turn.auth.Got? && !Unchanged(turn.auth.credential, s.current)
    ensures var e, answer := Through(s, turn), Renewal(turn, s.current);
      && e.refresher == (if s.cancelled then Ended else Sleeping)
      && (!s.cancelled ==> e.current == if answer.Got? then answer.credential else s.current)
      && e.trace == s.trace + CallsOf(s, turn)
      && e == s.(refresher := e.refresher, current := e.current, trace := e.trace)
  {
    hide Through, RefreshStep, TurnChoice, Renewal, Unchanged;
    var c, at := turn.auth.credential, s.refreshing;
    NewsIsVerified(s, turn);
    var asked := s.(refresher := Verifying(c), trace := s.trace + [VerifyCalled(at, c.secret)]);
    ThroughStep(s, turn, asked);
    var verified := asked.trace + [VerifyReturned(at, c.secret, turn.verify.None?)];
    if turn.verify.Some? {
      var failed := asked.(refresher := Deciding(None), trace := verified);
      VerifyingStep(asked, turn);
      ThroughStep(asked, turn, failed);
      DecidingStep(failed, turn);
      assert verified == s.trace + CallsOf(s, turn);
    } else {
      var updating := asked.(refresher := Updating(c), trace := verified + [UpdateCalled(at, c.secret)]);
      VerifyingStep(asked, turn);
      ThroughStep(asked, turn, updating);
      UpdatingStep(updating, turn);
      assert updating.trace + [UpdateReturned(c.secret, turn.update.None?)] == s.trace + CallsOf(s, turn);
    }
  }

  lemma ThroughStep(s: State, turn: Turn, s': State)
    requires !s.refresher.Unborn? && !s.refresher.Sleeping? && !s.refresher.Ended?
    requires RefreshStep(s, TurnChoice(s.refresher, turn)) == Some(s')
    ensures Through(s, turn) == if s'.refresher.Sleeping? || s'.refresher.Ended? then s' else Through(s', turn)
  {}

  lemma NewsIsVerified(s: State, turn: Turn)
    requires s.refresher.Asking? && turn.auth.Got? && !Unchanged(turn.auth.credential, s.current)
    ensures var c := turn.auth.credential;
      RefreshStep(s, TurnChoice(s.refresher, turn)) ==
        Some(s.(refresher := Verifying(c), trace := s.trace + [VerifyCalled(s.refreshing, c.secret)]))
    ensures Renewal(turn, s.current) ==
      if turn.verify.Some? then Lost(turn.verify.value)
      else if turn.update.Some? then Lost(PublishError(turn.update.value)) else turn.auth
    ensures CallsOf(s, turn) ==
      var at, secret := s.refreshing, turn.auth.credential.secret;
      [VerifyCalled(at, secret), VerifyReturned(at, secret, turn.verify.None?)] +
      (if turn.verify.None? then [UpdateCalled(at, secret), UpdateReturned(secret, turn.update.None?)] else [])
  {}

  lemma VerifyingStep(s: State, turn: Turn)
    requires s.refresher.Verifying? && s.client == Some(s.refreshing)
    ensures var c, at := s.refresher.c, s.refreshing;
      var verified := s.trace + [VerifyReturned(at, c.secret, turn.verify.None?)];
      RefreshStep(s, TurnChoice(s.refresher, turn)) == Some(
        if turn.verify.Some? then s.(refresher := Deciding(None), trace := verified)
        else s.(refresher := Updating(c), trace := verified + [UpdateCalled(at, c.secret)]))
  {}

  lemma UpdatingStep(s: State, turn: Turn)
    requires s.refresher.Updating?
    ensures var e, c := Through(s, turn), s.refresher.c;
      && e.refresher == (if s.cancelled then Ended else Sleeping)
      && (!s.cancelled ==> e.current == if turn.update.None? then c else s.current)
      && e.trace == s.trace + [UpdateReturned(c.secret, turn.update.None?)]
      && e == s.(refresher := e.refresher, current := e.current, trace := e.trace)
  {
    var c := s.refresher.c;
    var decided := s.(refresher := Deciding(if turn.update.None? then Some(c) else None),
      trace := s.trace + [UpdateReturned(c.secret, turn.update.None?)]);
    ThroughStep(s, turn, decided);
    DecidingStep(decided, turn);
  }

  lemma DecidingStep(s: State, turn: Turn)
    requires s.refresher.Deciding?
    ensures Through(s, turn) ==
      if s.cancelled then s.(refresher := Ended)
      else s.(refresher := Sleeping,
              current := if s.refresher.answer.Some? then s.refresher.answer.value else s.current)
  {}

  /** A wake-up whose time has come does not look at the context; a sleep that is interrupted
      ends the loop. */
  lemma SleepsEnd(s: State)
    requires s.refresher.Sleeping?
    ensures RefreshStep(s, Wake) == Some(s.(refresher := Asking))
    ensures RefreshStep(s, WakeCancelled) == if s.cancelled then Some(s.(refresher := Ended)) else None
  {}

  /** Nobody else moves the loop, and a cancellation is never taken back. */
  lemma OthersLeaveTheLoop(s: State, who: Actor, a: Choice, s': State)
    requires Act(s, who, a) == Some(s') && !who.RefreshActor? && !BeforeLaunch(s.main)
    ensures s'.refresher == s.refresher && s'.current == s.current
    ensures s'.client == s.client && s'.refreshing == s.refreshing && (s.cancelled ==> s'.cancelled)
  {}

  /** What cancels the context: the caller, the end of the command, or that of the tunnel. */
  lemma CancelledBy(s: State, who: Actor, a: Choice, s': State)
    requires Act(s, who, a) == Some(s') && !s.cancelled && s'.cancelled
    ensures (who.Outside? && a.Cancel?) || (who.MainActor? && s.main.Selecting? && (s.command.Exited? || !s.tunnelUp))
  {}

  lemma EndStep(s: State, who: Actor, a: Choice, s': State)
    requires Act(s, who, a) == Some(s') && (s.refresher.Ended? ==> s.cancelled)
    ensures s'.refresher.Ended? ==> s'.cancelled
  {
    hide MainStep, CommandStep, RefreshStep, OutsideStep;
    match who
    case RefreshActor => RefreshEnds(s, a, s');
    case MainActor => MainEnds(s, a, s');
    case _ => OthersEnd(s, who, a, s');
  }

  lemma RefreshEnds(s: State, a: Choice, s': State)
    requires RefreshStep(s, a) == Some(s') && (s.refresher.Ended? ==> s.cancelled)
    ensures s'.refresher.Ended? ==> s'.cancelled
  {}

  lemma MainEnds(s: State, a: Choice, s': State)
    requires MainStep(s, a) == Some(s') && (s.refresher.Ended? ==> s.cancelled)
    ensures s'.refresher.Ended? ==> s'.cancelled
  {}

  lemma OthersEnd(s: State, who: Actor, a: Choice, s': State)
    requires Act(s, who, a) == Some(s') && (who.CommandActor? || who.Outside?) && (s.refresher.Ended? ==> s.cancelled)
    ensures s'.refresher.Ended? ==> s'.cancelled
  {}

  lemma StartGoesOn(place: Place)
    ensures !Start(place).refresher.Ended? && !Start(place).cancelled
  {}

  /** The refresh loop ends only after a cancellation: no failed renewal ends it. */
  lemma {:induction false} LoopGoesOn(states: seq<State>)
    requires Execution(states) && states[|states| - 1].refresher.Ended?
    ensures states[|states| - 1].cancelled
  {
    hide Act;
    if |states| == 1 {
      StartGoesOn(states[0].place);
    } else {
      var before := states[..|states| - 1];
      var s, s' := before[|before| - 1], states[|states| - 1];
      if s.refresher.Ended? { LoopGoesOn(before); }
      assert Next(states[|states| - 2], states[|states| - 1]);
      var who, a :| Act(s, who, a) == Some(s');
      EndStep(s, who, a, s');
    }
  }

  // ---- Where ----

  predicate HasPlace(e: Event) { e.VerifyCalled? || e.VerifyReturned? || e.PrepareCalled? || e.UpdateCalled? }

  /** All calls are about the runner's target and the port on which the tunnel listens. */
  predicate Located(s: State, target: Target) {
    && s.place.target == target && (s.listening.Some? ==> s.place == Place(target, s.listening.value))
    && (s.listening.Some? <==> OpenReturned(true) in s.trace)
    && (s.client.Some? ==> s.client == Some(s.place)) && (!s.refresher.Unborn? ==> s.refreshing == s.place)
    && (s.main.Opening? ==> s.trace == [] && s.refresher.Unborn? && s.client.None?)
    && (!s.main.Opening? && !s.main.Done? ==> s.listening.Some?)
    && (!s.refresher.Unborn? ==> s.listening.Some?)
    && forall e | e in s.trace && HasPlace(e) :: s.listening.Some? && e.at == s.place
  }

  lemma StartupLocated(s: State, a: Choice, s': State, target: Target)
    requires Located(s, target) && (s.main.Opening? || s.main.Fetching? || s.main.Starting?)
    requires MainStep(s, a) == Some(s')
    ensures Located(s', target)
  {}

  lemma LoginLocated(s: State, a: Choice, s': State, target: Target)
    requires Located(s, target) && (s.main.Checking? || s.main.Preparing?) && MainStep(s, a) == Some(s')
    ensures Located(s', target)
  {}

  lemma RestLocated(s: State, a: Choice, s': State, target: Target)
    requires Located(s, target) && !BeforeLaunch(s.main) && MainStep(s, a) == Some(s')
    ensures Located(s', target)
  {}

  lemma RefreshLocated(s: State, a: Choice, s': State, target: Target)
    requires Located(s, target) && RefreshStep(s, a) == Some(s')
    ensures Located(s', target)
  {}

  lemma OthersLocated(s: State, who: Actor, a: Choice, s': State, target: Target)
    requires Located(s, target) && Phases(s) && (who.CommandActor? || who.Outside?) && Act(s, who, a) == Some(s')
    ensures Located(s', target)
  {}

  lemma ActLocated(s: State, who: Actor, a: Choice, s': State, target: Target)
    requires Located(s, target) && Phases(s) && Act(s, who, a) == Some(s')
    ensures Located(s', target)
  {
    hide Located, MainStep, CommandStep, RefreshStep, OutsideStep;
    match who
    case MainActor =>
      if s.main.Checking? || s.main.Preparing? {
        LoginLocated(s, a, s', target);
      } else if BeforeLaunch(s.main) {
        StartupLocated(s, a, s', target);
      } else {
        RestLocated(s, a, s', target);
      }
    case RefreshActor => RefreshLocated(s, a, s', target);
    case _ => OthersLocated(s, who, a, s', target);
  }

  lemma StartLocated(place: Place)
    ensures Located(Start(place), place.target)
  {}

  lemma {:induction false} AlwaysLocated(states: seq<State>)
    requires Execution(states)
    ensures Located(states[|states| - 1], states[0].place.target)
  {
    hide Act, Located, Inv, Phases;
    if |states| == 1 {
      StartLocated(states[0].place);
    } else {
      var before := states[..|states| - 1];
      AlwaysLocated(before);
      AlwaysInv(before);
      PhasesOf(before[|before| - 1]);
      var s, s' := before[|before| - 1], states[|states| - 1];
      assert Next(states[|states| - 2], states[|states| - 1]);
      var who, a :| Act(s, who, a) == Some(s');
      ActLocated(s, who, a, s', states[0].place.target);
    }
  }

  /** Every credential is verified, prepared and updated for the runner's own target and for
      the port on which its tunnel listens. */
  lemma CallsAreLocated(states: seq<State>, i: nat)
    requires Execution(states) && i < |states[|states| - 1].trace| && HasPlace(states[|states| - 1].trace[i])
    ensures var s := states[|states| - 1];
      s.listening.Some? && s.trace[i].at == Place(states[0].place.target, s.listening.value)
  {
    AlwaysLocated(states);
  }

  // ---- The result ----

  /** How the errors joined so far follow from what happened. */
  predicate Explains(s: State) {
    && (s.command.Exited? ==> CommandExited(s.command.ok) in s.trace)
    && (CommandExited(true) in s.trace ==> s.command == Exited(true))
    && (TunnelStopSeen in s.trace ==> !BeforeLaunch(s.main) && !s.main.Selecting?)
    && (ClientClosed(true) in s.trace ==> (s.main.ClosingTunnel? || s.main.Done?) && s.refresher.Ended?)
    && (TunnelClosed(true) in s.trace ==> s.main.Done?)
    && (BeforeLaunch(s.main) || s.main.Selecting? ==> s.result == [])
    && (s.main.AwaitingCommand? ==> s.result != [] && TunnelStopSeen in s.trace)
    && (s.main.AwaitingRefresh? || s.main.ClosingClient? ==> (s.result == [] <==> Succeeded(s)))
    && (s.main.ClosingTunnel? ==> (s.result == [] <==> Succeeded(s) && ClientClosed(true) in s.trace))
    && (s.main.Done? ==>
          (s.result == [] <==> Succeeded(s) && ClientClosed(true) in s.trace && TunnelClosed(true) in s.trace))
  }

  predicate Succeeded(s: State) { s.command == Exited(true) && TunnelStopSeen !in s.trace }

  predicate Decisive(e: Event) { e.CommandExited? || e.TunnelStopSeen? || e.ClientClosed? || e.TunnelClosed? }

  lemma StartupFrame(s: State, a: Choice, s': State)
    requires BeforeLaunch(s.main) && MainStep(s, a) == Some(s')
    ensures forall e | Decisive(e) :: e in s'.trace <==> e in s.trace
    ensures s'.command == s.command || s'.command.Spawned?
    ensures BeforeLaunch(s'.main) || s'.main.Selecting? ==> s'.result == s.result
    ensures s'.main.ClosingTunnel? || s'.main.Done? ==> s'.result != [] && s'.command == s.command
    ensures !s'.main.AwaitingCommand? && !s'.main.AwaitingRefresh? && !s'.main.ClosingClient?
  {}

  lemma StartupExplains(s: State, a: Choice, s': State)
    requires Phases(s) && Explains(s) && BeforeLaunch(s.main) && MainStep(s, a) == Some(s')
    ensures Explains(s')
  {
    hide MainStep;
    StartupFrame(s, a, s');
    assert Decisive(TunnelStopSeen) && Decisive(ClientClosed(true)) && Decisive(TunnelClosed(true));
    assert Decisive(CommandExited(true)) && Decisive(CommandExited(false));
  }

  lemma JoinExplains(s: State, a: Choice, s': State)
    requires Phases(s) && Explains(s) && !BeforeLaunch(s.main) && !s.main.ClosingClient? && !s.main.ClosingTunnel?
    requires MainStep(s, a) == Some(s')
    ensures Explains(s')
  {}

  lemma CloseExplains(s: State, a: Choice, s': State)
    requires Phases(s) && Explains(s) && (s.main.ClosingClient? || s.main.ClosingTunnel?) && MainStep(s, a) == Some(s')
    ensures Explains(s')
  {}

  lemma CommandExplains(s: State, a: Choice, s': State)
    requires Phases(s) && Explains(s) && CommandStep(s, a) == Some(s')
    ensures Explains(s')
  {}

  lemma RefreshFrame(s: State, a: Choice, s': State)
    requires RefreshStep(s, a) == Some(s')
    ensures s'.main == s.main && s'.command == s.command && s'.result == s.result
    ensures forall e | Decisive(e) :: e in s'.trace <==> e in s.trace
    ensures OpenReturned(false) in s'.trace <==> OpenReturned(false) in s.trace
    ensures !s.refresher.Unborn? && !s.refresher.Ended?
  {}

  lemma RefreshExplains(s: State, a: Choice, s': State)
    requires Phases(s) && Explains(s) && RefreshStep(s, a) == Some(s')
    ensures Explains(s')
  {
    hide RefreshStep;
    RefreshFrame(s, a, s');
    assert Decisive(TunnelStopSeen) && Decisive(ClientClosed(true)) && Decisive(TunnelClosed(true));
    assert Decisive(CommandExited(true)) && Decisive(CommandExited(false));
  }

  lemma OutsideExplains(s: State, a: Choice, s': State)
    requires Phases(s) && Explains(s) && OutsideStep(s, a) == Some(s')
    ensures Explains(s')
  {}

  lemma {:induction false} AlwaysExplains(states: seq<State>)
    requires Execution(states)
    ensures Explains(states[|states| - 1])
  {
    hide Act, Explains, Phases, Calls;
    if |states| == 1 {
      StartExplains(states[0].place);
    } else {
      var before := states[..|states| - 1];
      AlwaysExplains(before);
      AlwaysInv(before);
      var s, s' := before[|before| - 1], states[|states| - 1];
      assert Next(states[|states| - 2], states[|states| - 1]);
      var who, a :| Act(s, who, a) == Some(s');
      ActExplains(s, who, a, s');
    }
  }

  lemma StartExplains(place: Place)
    ensures Explains(Start(place))
  {}

  lemma ActExplains(s: State, who: Actor, a: Choice, s': State)
    requires Phases(s) && Explains(s) && Act(s, who, a) == Some(s')
    ensures Explains(s')
  {
    hide Explains, Phases, MainStep, CommandStep, RefreshStep, OutsideStep;
    match who
    case MainActor =>
      if BeforeLaunch(s.main) {
        StartupExplains(s, a, s');
      } else if s.main.ClosingClient? || s.main.ClosingTunnel? {
        CloseExplains(s, a, s');
      } else {
        JoinExplains(s, a, s');
      }
    case CommandActor => CommandExplains(s, a, s');
    case RefreshActor => RefreshExplains(s, a, s');
    case Outside => OutsideExplains(s, a, s');
  }

  /** Run returns no error exactly when the command succeeded without the tunnel having been
      seen to stop before, and both closes succeeded. */
  lemma NoErrorIff(states: seq<State>)
    requires Execution(states) && states[|states| - 1].main.Done?
    ensures var s := states[|states| - 1];
      s.result == [] <==>
        && CommandExited(true) in s.trace && TunnelStopSeen !in s.trace
        && ClientClosed(true) in s.trace && TunnelClosed(true) in s.trace
  {
    AlwaysExplains(states);
  }

  // ---- Which errors ----

  ghost predicate Verifies(t: seq<Event>) { exists e :: e in t && e.VerifyCalled? }

  ghost predicate Prepares(t: seq<Event>) { exists e :: e in t && e.PrepareCalled? }

  /** The error of a startup that did not get as far as a client. */
  ghost function StartupError(t: seq<Event>): Failure {
    if !Verifies(t) then CredentialFailed else if !Prepares(t) then VerifyFailed else PrepareFailed
  }

  function Only(condition: bool, f: Failure): seq<Failure> { if condition then [f] else [] }

  ghost function RunErrors(t: seq<Event>): seq<Failure> {
    if Held(t).None? then [StartupError(t)]
    else Only(TunnelStopSeen in t, TunnelStopped) + Only(CommandExited(false) in t, CommandFailed)
  }

  /** What Run returns. */
  ghost function Errors(t: seq<Event>): seq<Failure> {
    if OpenReturned(false) in t then [OpenFailed]
    else
      RunErrors(t) + Only(ClientClosed(false) in t, ClientCloseFailed) +
      Only(TunnelClosed(false) in t, TunnelCloseFailed)
  }

  /** What the joined errors are so far. */
  ghost predicate Accounts(s: State) {
    var t := s.trace;
    match s.main
    case Opening => t == [] && s.result == []
    case Fetching => s.result == [] && !Verifies(t) && !Prepares(t) && Idle(t)
    case Checking(_) => s.result == [] && Verifies(t) && !Prepares(t) && Idle(t)
    case Preparing(_) => s.result == [] && Verifies(t) && Prepares(t) && Idle(t)
    case Starting(_) => s.result == [] && Idle(t)
    case Selecting => s.result == [] && TunnelStopSeen !in t && Exits(s) && Unclosed(t)
    case AwaitingCommand => s.result == [TunnelStopped] && TunnelStopSeen in t && Exits(s) && Unclosed(t)
    case AwaitingRefresh => s.result == RunErrors(t) && Unclosed(t)
    case ClosingClient => s.result == RunErrors(t) && Unclosed(t)
    case ClosingTunnel =>
      && s.result == RunErrors(t) + Only(ClientClosed(false) in t, ClientCloseFailed)
      && TunnelClosed(false) !in t && OpenReturned(false) !in t
    case Done => s.result == Errors(t)
  }

  predicate Unclosed(t: seq<Event>) {
    ClientClosed(false) !in t && TunnelClosed(false) !in t && OpenReturned(false) !in t
  }

  predicate Idle(t: seq<Event>) { Unclosed(t) && CommandExited(false) !in t && TunnelStopSeen !in t }

  predicate Exits(s: State) { CommandExited(false) in s.trace <==> s.command == Exited(false) }

  lemma Grows(t: seq<Event>, e: Event)
    ensures forall x :: x in t + [e] <==> x in t || x == e
    ensures Verifies(t + [e]) <==> Verifies(t) || e.VerifyCalled?
    ensures Prepares(t + [e]) <==> Prepares(t) || e.PrepareCalled?
    ensures Held(t + [e]) == if Publishes(e) then Some(e.secret) else Held(t)
  {
    HeldGrows(t, e);
    assert e in t + [e];
    assert forall x | x in t :: x in t + [e];
  }

  lemma StartupAccounts(s: State, a: Choice, s': State)
    requires Accounts(s) && MainStep(s, a) == Some(s')
    requires s.main.Opening? || s.main.Fetching? || s.main.Starting?
    requires s.main.Starting? || Held(s.trace).None?
    ensures Accounts(s')
  {
    hide Held, Ends, Verifies, Prepares;
    EmptyTrace();
    NothingSeen();
    if s.main.Opening? {
      Grows(s.trace, OpenReturned(a.ok));
    } else if s.main.Fetching? {
      Grows(s.trace, if a.answer.Some? then VerifyCalled(s.place, a.answer.value.secret) else TunnelClosing);
    }
  }

  lemma CheckAccounts(s: State, a: Choice, s': State)
    requires Held(s.trace).None? && Accounts(s) && s.main.Checking? && MainStep(s, a) == Some(s')
    ensures Accounts(s')
  {
    hide Held, Ends, Verifies, Prepares;
    var t, c := s.trace, s.main.c;
    Grows(t, VerifyReturned(s.place, c.secret, a.ok));
    Grows(t + [VerifyReturned(s.place, c.secret, a.ok)],
      if a.ok then PrepareCalled(s.place, c.secret) else TunnelClosing);
  }

  lemma PrepareAccounts(s: State, a: Choice, s': State)
    requires Held(s.trace).None? && Accounts(s) && s.main.Preparing? && MainStep(s, a) == Some(s')
    ensures Accounts(s')
  {
    hide Held, Ends, Verifies, Prepares;
    var t, c := s.trace, s.main.c;
    Grows(t, PrepareReturned(c.secret, a.ok));
    Grows(t + [PrepareReturned(c.secret, a.ok)], TunnelClosing);
  }

  lemma NothingSeen()
    ensures !Verifies([]) && !Prepares([])
  {}

  lemma JoinAccounts(s: State, a: Choice, s': State)
    requires Phases(s) && Calls(s) && Accounts(s) && MainStep(s, a) == Some(s')
    requires s.main.Selecting? || s.main.AwaitingCommand? || s.main.AwaitingRefresh?
    ensures Accounts(s')
  {
    hide Held, Ends, Verifies, Prepares;
    var t := s.trace;
    if s.main.AwaitingRefresh? {
      Grows(t, ClientClosing);
    } else if s.main.Selecting? && a.SeeTunnel? {
      Grows(t, TunnelStopSeen);
    }
  }

  lemma ClientAccounts(s: State, a: Choice, s': State)
    requires Calls(s) && Accounts(s) && s.main.ClosingClient? && MainStep(s, a) == Some(s')
    ensures Accounts(s')
  {
    hide Held, Ends, Verifies, Prepares;
    Grows(s.trace, ClientClosed(a.ok));
    Grows(s.trace + [ClientClosed(a.ok)], TunnelClosing);
  }

  lemma TunnelAccounts(s: State, a: Choice, s': State)
    requires Calls(s) && Accounts(s) && s.main.ClosingTunnel? && MainStep(s, a) == Some(s')
    ensures Accounts(s')
  {
    hide Held, Ends, Verifies, Prepares;
    Grows(s.trace, TunnelClosed(a.ok));
  }

  lemma CommandAccounts(s: State, a: Choice, s': State)
    requires Phases(s) && Calls(s) && Accounts(s) && CommandStep(s, a) == Some(s')
    ensures Accounts(s')
  {
    hide Held, Ends, Verifies, Prepares;
    Grows(s.trace, if s.command.Spawned? then CommandStarted else CommandExited(a.ok));
  }

  lemma RefreshAccounts(s: State, a: Choice, s': State)
    requires Phases(s) && Calls(s) && Accounts(s) && RefreshStep(s, a) == Some(s')
    ensures Accounts(s')
  {
    hide RefreshStep, Ends, Verifies, Prepares, Held;
    RefreshFrame(s, a, s');
    RefreshHolds(s, a, s');
    assert Decisive(TunnelStopSeen) && Decisive(ClientClosed(false)) && Decisive(TunnelClosed(false));
    assert Decisive(CommandExited(false));
  }

  lemma RefreshHolds(s: State, a: Choice, s': State)
    requires RefreshStep(s, a) == Some(s') && Held(s.trace).Some?
    ensures Held(s'.trace).Some?
  {
    hide Held;
    match s.refresher
    case Asking =>
      if s'.refresher.Verifying? { HeldGrows(s.trace, VerifyCalled(s.refreshing, s'.refresher.c.secret)); }
    case Verifying(c) =>
      var e := VerifyReturned(s.refreshing, c.secret, a.ok);
      HeldGrows(s.trace, e);
      HeldGrows(s.trace + [e], UpdateCalled(if s.client.Some? then s.client.value else s.refreshing, c.secret));
    case Updating(c) => HeldGrows(s.trace, UpdateReturned(c.secret, a.ok));
    case _ =>
  }

  lemma OutsideAccounts(s: State, a: Choice, s': State)
    requires Accounts(s) && OutsideStep(s, a) == Some(s')
    ensures Accounts(s')
  {}

  lemma NoClientYet(s: State)
    requires Phases(s) && Calls(s) && BeforeLaunch(s.main) && !s.main.Starting?
    ensures Held(s.trace).None?
  {
    hide Held;
  }

  lemma MainAccounts(s: State, a: Choice, s': State)
    requires Phases(s) && Calls(s) && Accounts(s) && MainStep(s, a) == Some(s')
    ensures Accounts(s')
  {
    NotDone(s, a, s');
    if BeforeLaunch(s.main) && !s.main.Starting? { NoClientYet(s); }
    hide Phases, Accounts, Calls, MainStep, Held;
    match s.main
    case Checking(_) => CheckAccounts(s, a, s');
    case Preparing(_) => PrepareAccounts(s, a, s');
    case ClosingClient => ClientAccounts(s, a, s');
    case ClosingTunnel => TunnelAccounts(s, a, s');
    case Done =>
    case _ => if BeforeLaunch(s.main) { StartupAccounts(s, a, s'); } else { JoinAccounts(s, a, s'); }
  }

  lemma ActAccounts(s: State, who: Actor, a: Choice, s': State)
    requires Phases(s) && Calls(s) && Accounts(s) && Act(s, who, a) == Some(s')
    ensures Accounts(s')
  {
    hide Accounts, Calls, Phases, MainStep, CommandStep, RefreshStep, OutsideStep;
    match who
    case MainActor => MainAccounts(s, a, s');
    case CommandActor => CommandAccounts(s, a, s');
    case RefreshActor => RefreshAccounts(s, a, s');
    case Outside => OutsideAccounts(s, a, s');
  }

  lemma NotDone(s: State, a: Choice, s': State)
    requires MainStep(s, a) == Some(s')
    ensures !s.main.Done?
  {}

  lemma StartAccounts(place: Place)
    ensures Accounts(Start(place))
  {}

  lemma {:induction false} AlwaysAccounts(states: seq<State>)
    requires Execution(states)
    ensures Accounts(states[|states| - 1])
  {
    hide Act, Accounts, Phases, Calls;
    if |states| == 1 {
      StartAccounts(states[0].place);
    } else {
      var before := states[..|states| - 1];
      AlwaysAccounts(before);
      AlwaysInv(before);
      var s, s' := before[|before| - 1], states[|states| - 1];
      assert Next(states[|states| - 2], states[|states| - 1]);
      var who, a :| Act(s, who, a) == Some(s');
      ActAccounts(s, who, a, s');
    }
  }

  /** Run returns exactly the errors that occurred, in this order: that of opening the tunnel
      and no other; or that of the startup step that failed, or of the tunnel and of the
      command; then those of closing the client and the tunnel. */
  lemma ErrorsAre(states: seq<State>)
    requires Execution(states) && states[|states| - 1].main.Done?
    ensures states[|states| - 1].result == Errors(states[|states| - 1].trace)
  {
    AlwaysAccounts(states);
  }

  /** The tunnel is seen to stop only when it has. */
  lemma {:induction false} StopIsSeen(states: seq<State>)
    requires Execution(states)
    ensures TunnelStopSeen in states[|states| - 1].trace ==> !states[|states| - 1].tunnelUp
  {
    hide Act;
    if |states| == 1 {
      NothingYet(states[0].place);
    } else {
      var before := states[..|states| - 1];
      var s, s' := before[|before| - 1], states[|states| - 1];
      StopIsSeen(before);
      assert Next(states[|states| - 2], states[|states| - 1]);
      var who, a :| Act(s, who, a) == Some(s');
      StopStep(s, who, a, s');
    }
  }

  lemma NothingYet(place: Place)
    ensures Start(place).trace == []
  {}

  lemma StopStep(s: State, who: Actor, a: Choice, s': State)
    requires Act(s, who, a) == Some(s') && (TunnelStopSeen in s.trace ==> !s.tunnelUp)
    ensures TunnelStopSeen in s'.trace ==> !s'.tunnelUp
  {
    hide MainStep, CommandStep, RefreshStep, OutsideStep;
    if who.MainActor? { MainStops(s, a, s'); } else { OthersStop(s, who, a, s'); }
  }

  lemma MainStops(s: State, a: Choice, s': State)
    requires MainStep(s, a) == Some(s') && (TunnelStopSeen in s.trace ==> !s.tunnelUp)
    ensures TunnelStopSeen in s'.trace ==> !s'.tunnelUp
  {}

  lemma OthersStop(s: State, who: Actor, a: Choice, s': State)
    requires Act(s, who, a) == Some(s') && !who.MainActor? && (TunnelStopSeen in s.trace ==> !s.tunnelUp)
    ensures TunnelStopSeen in s'.trace ==> !s'.tunnelUp
  {}

  // ---- Coming to an end ----

  function MainRank(m: Main): nat {
    match m
    case Opening => 10
    case Fetching => 9
    case Checking(_) => 8
    case Preparing(_) => 7
    case Starting(_) => 6
    case Selecting => 5
    case AwaitingCommand => 4
    case AwaitingRefresh => 3
    case ClosingClient => 2
    case ClosingTunnel => 1
    case Done => 0
  }

  function RefreshRank(r: Refresher): nat {
    match r
    case Unborn => 6
    case Sleeping => 5
    case Asking => 4
    case Verifying(_) => 3
    case Updating(_) => 2
    case Deciding(_) => 1
    case Ended => 0
  }

  function CommandRank(c: Child): nat {
    match c
    case Absent => 3
    case Spawned => 2
    case Running => 1
    case Exited(_) => 0
  }

  function Rank(s: State): nat {
    MainRank(s.main) + RefreshRank(s.refresher) + CommandRank(s.command) + (if s.tunnelUp then 1 else 0)
  }

  /** After the cancellation every step brings the session nearer to its end. */
  lemma CancelledStepsDescend(s: State, who: Actor, a: Choice, s': State)
    requires Phases(s) && s.cancelled && Act(s, who, a) == Some(s')
    ensures s'.cancelled && Rank(s') < Rank(s)
  {
    hide Phases, Rank, MainStep, CommandStep, RefreshStep, OutsideStep;
    match who
    case MainActor => MainDescends(s, a, s');
    case CommandActor => CommandDescends(s, a, s');
    case RefreshActor => RefreshDescends(s, a, s');
    case Outside => OutsideDescends(s, a, s');
  }

  lemma MainDescends(s: State, a: Choice, s': State)
    requires Phases(s) && s.cancelled && MainStep(s, a) == Some(s')
    ensures s'.cancelled && Rank(s') < Rank(s)
  {}

  lemma CommandDescends(s: State, a: Choice, s': State)
    requires s.cancelled && CommandStep(s, a) == Some(s')
    ensures s'.cancelled && Rank(s') < Rank(s)
  {}

  lemma RefreshDescends(s: State, a: Choice, s': State)
    requires s.cancelled && RefreshStep(s, a) == Some(s')
    ensures s'.cancelled && Rank(s') < Rank(s)
  {}

  lemma OutsideDescends(s: State, a: Choice, s': State)
    requires s.cancelled && OutsideStep(s, a) == Some(s')
    ensures s'.cancelled && Rank(s') < Rank(s)
  {}

  ghost predicate CanStep(s: State) { exists s' :: Next(s, s') }

  /** As long as Run has not returned, somebody can take a step: it never deadlocks. */
  lemma NeverStuck(states: seq<State>)
    requires Execution(states) && !states[|states| - 1].main.Done?
    ensures CanStep(states[|states| - 1])
  {
    AlwaysInv(states);
    var s := states[|states| - 1];
    var who, a := SomeStep(s);
    assert Next(s, Act(s, who, a).value);
  }

  lemma SomeStep(s: State) returns (who: Actor, a: Choice)
    requires Phases(s) && !s.main.Done?
    ensures Act(s, who, a).Some?
  {
    who := MainActor;
    match s.main
    case Opening => a := Open(true, 0);
    case Fetching => a := Fetch(None);
    case Checking(_) => a := Verify(true);
    case Preparing(_) => a := Prepare(true);
    case Starting(_) => a := Launch;
    case ClosingClient => a := CloseClient(true);
    case ClosingTunnel => a := CloseTunnel(true);
    case AwaitingRefresh =>
      if s.refresher.Ended? { a := JoinRefresh; } else { who, a := RefreshActor, RefreshChoice(s.refresher); }
    case _ =>
      if s.command.Exited? {
        a := if s.main.Selecting? then SeeCommand else JoinCommand;
      } else {
        who, a := CommandActor, if s.command.Spawned? then StartCommand else ExitCommand(true);
      }
  }

  function RefreshChoice(r: Refresher): Choice {
    match r
    case Asking => Refetch(None)
    case Verifying(_) => Reverify(true)
    case Updating(_) => Update(true)
    case Deciding(_) => Decide
    case _ => WakeCancelled
  }

  /** Once the context is cancelled, at most 20 more steps are left in the whole session:
      together with NeverStuck, every session ends with everything closed. */
  lemma {:induction false} CancelledRunsEnd(states: seq<State>, i: nat)
    requires Execution(states) && i < |states| && states[i].cancelled
    ensures states[|states| - 1].cancelled && |states| - 1 - i + Rank(states[|states| - 1]) <= Rank(states[i]) <= 20
  {
    hide Act, Inv, Phases;
    if i < |states| - 1 {
      var before := states[..|states| - 1];
      CancelledRunsEnd(before, i);
      AlwaysInv(before);
      var s, s' := before[|before| - 1], states[|states| - 1];
      assert Next(states[|states| - 2], states[|states| - 1]);
      var who, a :| Act(s, who, a) == Some(s');
      assert Phases(s) by { PhasesOf(s); }
      CancelledStepsDescend(s, who, a, s');
    }
  }

  lemma PhasesOf(s: State)
    requires Inv(s)
    ensures Phases(s)
  {}
}
