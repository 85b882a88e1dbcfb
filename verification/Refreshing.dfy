/** Credential renewal: `refresh` and its helpers in internal/session/session.go, and the
    expiry of IAM credentials in internal/awsdb/aws.go. Times and durations are wall-clock
    nanoseconds; computations between clock readings take no time. */
module Refreshing {
  import opened Text

  const MINUTE: nat := 60 * SECOND
  const RENEWAL_MARGIN: nat := 3 * MINUTE
  const MINIMUM_RENEWAL: nat := 30 * SECOND
  const REFRESH_TIMEOUT: nat := 30 * SECOND
  const WALL_CLOCK_CHECK: nat := MINUTE

  /** `expires` is None for a password without a known expiry. */
  datatype Credential = Credential(secret: string, expires: Option<int>)

  function Max(a: int, b: int): int { if a >= b then a else b }

  function RenewalTime(now: int, c: Credential, poll: nat): int {
    if c.expires.None? then now + poll
    else if c.expires.value - RENEWAL_MARGIN > now + MINIMUM_RENEWAL then c.expires.value - RENEWAL_MARGIN
    else now + MINIMUM_RENEWAL
  }

  // ---- Sleeping ----

  /** What ends one timer's wait: its time, possibly late as after a suspension of the machine,
      or a cancellation before it. */
  datatype Wait = Fires(late: nat) | Cancelled(after: nat)

  function Min(a: int, b: int): int { if a <= b then a else b }

  function Lateness(wait: Wait): nat { if wait.Fires? then wait.late else 0 }

  /** The time after these timers. */
  function Clock(start: int, timers: seq<nat>, waits: nat -> Wait): int {
    if timers == [] then start
    else Clock(start, Init(timers), waits) + Last(timers) + Lateness(waits(|timers| - 1))
  }

  /** Each timer was set for what was left, but for no more than a minute, so that the wall
      clock is looked at again at least once a minute. */
  ghost predicate Watched(start: int, due: int, timers: seq<nat>, waits: nat -> Wait) {
    forall i | 0 <= i < |timers| ::
      Clock(start, timers[..i], waits) < due && timers[i] == Min(due - Clock(start, timers[..i], waits), 60 * SECOND)
  }

  /** Waits until `due` with timers of at most a minute. It succeeds exactly when no timer that
      it gets to is interrupted, and then only the lateness of the last timer delays the end;
      a due time in the past is not waited for, cancelled or not. */
  method SleepUntil(start: int, due: int, waits: nat -> Wait) returns (ok: bool, now: int, timers: seq<nat>)
    ensures Watched(start, due, timers, waits)
    ensures due <= start ==> ok && now == start && timers == []
    ensures due > start ==> timers != [] && (ok <==> waits(|timers| - 1).Fires?)
    ensures forall i: nat | i + 1 < |timers| :: waits(i).Fires? && waits(i).late < due - start
    ensures ok ==> now == Clock(start, timers, waits)
    ensures ok && due > start ==> due <= now <= due + waits(|timers| - 1).late
    ensures !ok ==> start <= now <= due
  {
    hide Watched, Clock, MINUTE, WALL_CLOCK_CHECK;
    now, timers := start, [];
    NoTimer(start, due, waits);
    while due > now
      invariant now >= start && now == Clock(start, timers, waits) && Watched(start, due, timers, waits)
      invariant timers != [] ==> waits(|timers| - 1).Fires? && start < due
      invariant timers != [] ==> now <= due + waits(|timers| - 1).late && now >= start + waits(|timers| - 1).late
      invariant forall i: nat | i + 1 < |timers| :: waits(i).Fires? && waits(i).late < due - start
      decreases due - now
    {
      CheckedEveryMinute();
      var wait := if due - now < WALL_CLOCK_CHECK then due - now else WALL_CLOCK_CHECK;
      TimerSet(start, due, timers, waits, wait);
      timers := timers + [wait];
      match waits(|timers| - 1)
      case Cancelled(after) =>
        return false, now + (if after < wait then after else wait), timers;
      case Fires(late) =>
        now := now + wait + late;
    }
    return true, now, timers;
  }

  lemma CheckedEveryMinute()
    ensures WALL_CLOCK_CHECK == 60 * SECOND
  {}

  lemma NoTimer(start: int, due: int, waits: nat -> Wait)
    ensures Watched(start, due, [], waits) && Clock(start, [], waits) == start
  {}

  lemma TimerSet(start: int, due: int, timers: seq<nat>, waits: nat -> Wait, wait: nat)
    requires Watched(start, due, timers, waits) && Clock(start, timers, waits) < due
    requires wait == Min(due - Clock(start, timers, waits), 60 * SECOND)
    ensures Watched(start, due, timers + [wait], waits)
    ensures Clock(start, timers + [wait], waits) == Clock(start, timers, waits) + wait + Lateness(waits(|timers|))
  {
    var more := timers + [wait];
    assert Init(more) == timers;
    forall i | 0 <= i < |more|
      ensures Clock(start, more[..i], waits) < due && more[i] == Min(due - Clock(start, more[..i], waits), 60 * SECOND)
    {
      if i < |timers| { assert more[..i] == timers[..i] && more[i] == timers[i]; } else { assert more[..i] == timers; }
    }
  }

  // ---- One renewal ----

  datatype Answer = Got(credential: Credential) | Lost(error: string)

  /** What the outside does in one turn of the loop: the lateness of the wake-up, the duration
      of the renewal, and the results of fetching, verifying and publishing. */
  datatype Turn = Turn(late: nat, took: nat, auth: Answer, verify: Option<string>, update: Option<string>)

  datatype Report = Failing(error: string) | Recovered | Expiry(expires: int) | Rotated

  predicate Unchanged(next: Credential, current: Credential) {
    next.expires.None? && current.expires.None? && next.secret == current.secret
  }

  function PublishError(error: string): string { "publish replacement credential: " + error }

  /** The result of a renewal: the fetched credential if nothing fails; an unchanged password
      is neither verified nor published again. */
  function Renewal(turn: Turn, current: Credential): Answer {
    if turn.auth.Lost? || Unchanged(turn.auth.credential, current) then turn.auth
    else if turn.verify.Some? then Lost(turn.verify.value)
    else if turn.update.Some? then Lost(PublishError(turn.update.value))
    else turn.auth
  }

  /** The secret that an Update of this turn publishes without an error, if there is one. */
  function Published(turn: Turn, current: Credential): seq<string> {
    if Renewal(turn, current).Got? && !Unchanged(turn.auth.credential, current)
      then [turn.auth.credential.secret] else []
  }

  method Renew(turn: Turn, current: Credential) returns (answer: Answer, published: seq<string>)
    ensures answer == Renewal(turn, current) && published == Published(turn, current)
    ensures answer.Got? ==> turn.auth.Got? && answer.credential == turn.auth.credential
    ensures turn.auth.Lost? ==> answer == Lost(turn.auth.error) && published == []
    ensures turn.auth.Got? ==>
      var c := turn.auth.credential;
      if c.expires.None? && current.expires.None? && c.secret == current.secret then
        answer.Got? && published == []
      else if turn.verify.Some? then answer == Lost(turn.verify.value) && published == []
      else if turn.update.Some? then
        answer == Lost("publish replacement credential: " + turn.update.value) && published == []
      else answer.Got? && published == [c.secret]
  {
    published := [];
    if turn.auth.Lost? {
      return turn.auth, [];
    }
    var credential := turn.auth.credential;
    if credential.expires.None? && current.expires.None? && credential.secret == current.secret {
      return Got(credential), [];
    }
    if turn.verify.Some? {
      return Lost(turn.verify.value), [];
    }
    if turn.update.Some? {
      return Lost(PublishError(turn.update.value)), [];
    }
    return Got(credential), [credential.secret];
  }

  // ---- The loop ----

  /** The loop variables of `refresh`, at the time `now`. */
  datatype Loop = Loop(now: int, due: int, backoff: nat, failure: string, current: Credential)

  function Begin(now: int, current: Credential, poll: nat): Loop {
    Loop(now, RenewalTime(now, current, poll), 5 * SECOND, "", current)
  }

  /** When the next renewal is attempted. */
  function Wake(s: Loop, turn: Turn): int { if s.due > s.now then s.due + turn.late else s.now }

  function Doubled(backoff: nat): nat { if 2 * backoff < MINUTE then 2 * backoff else MINUTE }

  function Step(s: Loop, turn: Turn, poll: nat): Loop {
    var now := Wake(s, turn) + turn.took;
    match Renewal(turn, s.current)
    case Lost(error) => Loop(now, now + s.backoff, Doubled(s.backoff), error, s.current)
    case Got(next) => Loop(now, RenewalTime(now, next, poll), 5 * SECOND, "", next)
  }

  function StepReports(s: Loop, turn: Turn): seq<Report> {
    match Renewal(turn, s.current)
    case Lost(error) => if error != s.failure then [Failing(error)] else []
    case Got(next) =>
      (if s.failure != "" then [Recovered] else []) +
      (if next.expires.Some? then [Expiry(next.expires.value)]
       else if next.secret != s.current.secret then [Rotated] else [])
  }

  /** The state after these turns. */
  function After(s: Loop, turns: seq<Turn>, poll: nat): Loop {
    if turns == [] then s else Step(After(s, Init(turns), poll), Last(turns), poll)
  }

  /** Everything reported during these turns. */
  function Said(s: Loop, turns: seq<Turn>, poll: nat): seq<Report> {
    if turns == [] then []
    else Said(s, Init(turns), poll) + StepReports(After(s, Init(turns), poll), Last(turns))
  }

  /** Everything published during these turns. */
  function Given(s: Loop, turns: seq<Turn>, poll: nat): seq<string> {
    if turns == [] then []
    else Given(s, Init(turns), poll) + Published(Last(turns), After(s, Init(turns), poll).current)
  }

  /** The sleep from `s.now` to `s.due` was not interrupted, and ended so late. */
  ghost predicate Woken(s: Loop, waits: nat -> Wait, late: nat) {
    if s.due <= s.now then late == 0
    else exists t: nat :: late <= Lateness(waits(t)) && forall i: nat | i <= t :: waits(i).Fires?
  }

  /** A timer of the sleep was interrupted. */
  ghost predicate Interrupted(s: Loop, waits: nat -> Wait) {
    s.due > s.now && exists t: nat :: waits(t).Cancelled? && forall i: nat | i < t :: waits(i).Fires?
  }

  /** Each turn begins when the sleep before it has ended. */
  ghost predicate AllWoken(s: Loop, turns: seq<Turn>, sleeps: nat -> (nat -> Wait), poll: nat) {
    turns != [] ==>
      && AllWoken(s, Init(turns), sleeps, poll)
      && Woken(After(s, Init(turns), poll), sleeps(|turns| - 1), Last(turns).late)
  }

  /** The renewal loop until its context is cancelled: during the sleep after the turns `woken`,
      or, when `cut`, during the renewal of the last of `turns`, whose result is then ignored
      although it may have been published. The lateness of a turn is what its sleep makes of
      the timers. */
  method Refresh(turns: seq<Turn>, sleeps: nat -> (nat -> Wait), cut: bool, start: int, initial: Credential, poll: nat)
    returns (reports: seq<Report>, published: seq<string>, current: Credential, woken: seq<Turn>)
    ensures |woken| <= |turns| && forall i | 0 <= i < |woken| :: woken[i] == turns[i].(late := woken[i].late)
    ensures var s := Begin(start, initial, poll);
      var counted := if cut && woken != [] && |woken| == |turns| then Init(woken) else woken;
      && AllWoken(s, woken, sleeps, poll)
      && (|woken| < |turns| ==> Interrupted(After(s, woken, poll), sleeps(|woken|)))
      && reports == Said(s, counted, poll) && current == After(s, counted, poll).current
      && published == Given(s, woken, poll)
  {
    hide After, Said, Given, Renewal, Published, RenewalTime, Woken, Interrupted, AllWoken, Watched, Clock;
    var now := start;
    var due := RenewalTime(now, initial, poll);
    var backoff: nat, failure := 5 * SECOND, "";
    current := initial;
    reports, published, woken := [], [], [];
    ghost var s := Begin(start, initial, poll);
    NothingYet(s, sleeps, poll);
    while |woken| < |turns|
      invariant |woken| <= |turns| && (cut && turns != [] ==> |woken| < |turns|)
      invariant forall i | 0 <= i < |woken| :: woken[i] == turns[i].(late := woken[i].late)
      invariant AllWoken(s, woken, sleeps, poll)
      invariant Loop(now, due, backoff, failure, current) == After(s, woken, poll)
      invariant reports == Said(s, woken, poll) && published == Given(s, woken, poll)
    {
      var waits := sleeps(|woken|);
      var ok, awake, timers := SleepUntil(now, due, waits);
      SleepEnds(After(s, woken, poll), waits, ok, awake, |timers|);
      if !ok {
        return;
      }
      var turn := turns[|woken|].(late := if due > now then awake - due else 0);
      Appended(s, woken, turn, sleeps, poll);
      var next, given := Renew(turn, current);
      now := awake + turn.took;
      woken := woken + [turn];
      published := published + given;
      if cut && |woken| == |turns| {
        return;
      }
      if next.Lost? {
        due := now + backoff;
        if next.error != failure {
          failure := next.error;
          reports := reports + [Failing(failure)];
        }
        backoff := if 2 * backoff < MINUTE then 2 * backoff else MINUTE;
        continue;
      }
      ghost var earlier := reports;
      if failure != "" {
        failure := "";
        reports := reports + [Recovered];
      }
      var rotated := next.credential.secret != current.secret;
      current := next.credential;
      backoff := 5 * SECOND;
      due := RenewalTime(now, current, poll);
      ghost var recovered := reports;
      if current.expires.Some? {
        reports := reports + [Expiry(current.expires.value)];
      } else if rotated {
        reports := reports + [Rotated];
      }
      Associate(earlier, recovered[|earlier|..], reports[|recovered|..]);
    }
  }

  lemma NothingYet(s: Loop, sleeps: nat -> (nat -> Wait), poll: nat)
    ensures After(s, [], poll) == s && Said(s, [], poll) == [] && Given(s, [], poll) == []
    ensures AllWoken(s, [], sleeps, poll)
  {}

  /** What SleepUntil promises, for the loop. */
  lemma SleepEnds(s: Loop, waits: nat -> Wait, ok: bool, awake: int, timers: nat)
    requires s.due <= s.now ==> ok && awake == s.now
    requires s.due > s.now ==> timers > 0 && (ok <==> waits(timers - 1).Fires?)
    requires forall i: nat | i + 1 < timers :: waits(i).Fires?
    requires ok && s.due > s.now ==> s.due <= awake <= s.due + waits(timers - 1).late
    ensures !ok ==> Interrupted(s, waits)
    ensures ok ==> var late := if s.due > s.now then awake - s.due else 0; late >= 0 && Woken(s, waits, late)
  {
    if s.due > s.now {
      assert forall i: nat | i < timers - 1 :: waits(i).Fires? by {
        forall i: nat | i < timers - 1 ensures waits(i).Fires? { assert i + 1 < timers; }
      }
      if ok { assert awake - s.due <= Lateness(waits(timers - 1)); }
    }
  }

  lemma Appended(s: Loop, turns: seq<Turn>, turn: Turn, sleeps: nat -> (nat -> Wait), poll: nat)
    ensures var e, more := After(s, turns, poll), turns + [turn];
      && Init(more) == turns
      && After(s, more, poll) == Step(e, turn, poll)
      && Said(s, more, poll) == Said(s, turns, poll) + StepReports(e, turn)
      && Given(s, more, poll) == Given(s, turns, poll) + Published(turn, e.current)
      && (AllWoken(s, turns, sleeps, poll) && Woken(e, sleeps(|turns|), turn.late) ==> AllWoken(s, more, sleeps, poll))
  {
    assert Init(turns + [turn]) == turns && Last(turns + [turn]) == turn;
  }

  // ---- What is reported ----

  /** The outcome of each turn: its error text, or nothing for success. */
  function Outcome(answer: Answer): string { if answer.Lost? then answer.error else "" }

  function Outcomes(s: Loop, turns: seq<Turn>, poll: nat): seq<string> {
    if turns == [] then []
    else Outcomes(s, Init(turns), poll) + [Outcome(Renewal(Last(turns), After(s, Init(turns), poll).current))]
  }

  /** The reports on failure and recovery, read as the outcome that they announce. */
  function Notices(reports: seq<Report>): seq<string> {
    if reports == [] then []
    else
      match Last(reports)
      case Failing(error) => Notices(Init(reports)) + [error]
      case Recovered => Notices(Init(reports)) + [""]
      case _ => Notices(Init(reports))
  }

  /** The places where a sequence differs from what was before. */
  function Changes(before: string, outcomes: seq<string>): seq<string>
    decreases |outcomes|
  {
    if outcomes == [] then []
    else (if outcomes[0] != before then [outcomes[0]] else []) + Changes(outcomes[0], outcomes[1..])
  }

  function Latest(before: string, outcomes: seq<string>): string {
    if outcomes == [] then before else Last(outcomes)
  }

  lemma {:induction false} ChangesGrow(before: string, outcomes: seq<string>, next: string)
    ensures Changes(before, outcomes + [next]) ==
      Changes(before, outcomes) + (if next != Latest(before, outcomes) then [next] else [])
    decreases |outcomes|
  {
    var all := outcomes + [next];
    if outcomes == [] {
      assert all[0] == next && all[1..] == [] && Changes(next, []) == [];
    } else {
      assert all[0] == outcomes[0] && all[1..] == outcomes[1..] + [next];
      ChangesGrow(outcomes[0], outcomes[1..], next);
      Associate(if outcomes[0] != before then [outcomes[0]] else [], Changes(outcomes[0], outcomes[1..]),
        if next != Latest(before, outcomes) then [next] else []);
    }
  }

  lemma {:induction false} NoticesOfConcat(a: seq<Report>, b: seq<Report>)
    ensures Notices(a + b) == Notices(a) + Notices(b)
  {
    if b == [] {
      assert a + b == a;
    } else {
      assert Init(a + b) == a + Init(b) && Last(a + b) == Last(b);
      NoticesOfConcat(a, Init(b));
      Associate(Notices(a), Notices(Init(b)), Notices([Last(b)]));
      assert Init([Last(b)]) == [];
    }
  }

  lemma StepNotices(s: Loop, turn: Turn, poll: nat)
    ensures var outcome := Outcome(Renewal(turn, s.current));
      Step(s, turn, poll).failure == outcome
      && Notices(StepReports(s, turn)) == if outcome != s.failure then [outcome] else []
  {
    hide Renewal, RenewalTime;
    var answer := Renewal(turn, s.current);
    if answer.Got? {
      var first: seq<Report> := if s.failure != "" then [Recovered] else [];
      var second: seq<Report> := if answer.credential.expires.Some? then [Expiry(answer.credential.expires.value)]
        else if answer.credential.secret != s.current.secret then [Rotated] else [];
      NoticesOfConcat(first, second);
      assert |first| == 1 ==> Init(first) == [];
      assert |second| == 1 ==> Init(second) == [];
    } else if answer.error != s.failure {
      assert Init([Failing(answer.error)]) == [];
    }
  }

  /** Failure and recovery are reported exactly at the turns whose outcome differs from the
      outcome before, starting from success. */
  lemma {:induction false} ReportsAreChanges(s: Loop, turns: seq<Turn>, poll: nat)
    ensures Notices(Said(s, turns, poll)) == Changes(s.failure, Outcomes(s, turns, poll))
    ensures After(s, turns, poll).failure == Latest(s.failure, Outcomes(s, turns, poll))
  {
    hide Step, StepReports, Notices, Changes, Renewal;
    if turns == [] {
      Quiet(s.failure);
    } else {
      var before, turn := Init(turns), Last(turns);
      var mid := After(s, before, poll);
      ReportsAreChanges(s, before, poll);
      StepNotices(mid, turn, poll);
      NoticesOfConcat(Said(s, before, poll), StepReports(mid, turn));
      ChangesGrow(s.failure, Outcomes(s, before, poll), Outcome(Renewal(turn, mid.current)));
    }
  }

  lemma Quiet(before: string)
    ensures Notices([]) == [] && Changes(before, []) == []
  {}

  /** Turn `i` succeeded, and `r` is the news: the expiry of its credential, or for one
      without an expiry that its secret is another one. */
  ghost predicate NewsAt(s: Loop, turns: seq<Turn>, poll: nat, r: Report, i: nat) {
    i < |turns| && IsNews(After(s, turns[..i], poll).current, turns[i], r)
  }

  predicate IsNews(current: Credential, turn: Turn, r: Report) {
    Renewal(turn, current).Got? &&
    match r
    case Expiry(x) => turn.auth.credential.expires == Some(x)
    case Rotated => turn.auth.credential.expires.None? && turn.auth.credential.secret != current.secret
    case _ => false
  }

  /** Expiries and rotations are reported exactly for the turns that bring them. */
  lemma {:induction false} NewsIsReported(s: Loop, turns: seq<Turn>, poll: nat, r: Report)
    requires r.Expiry? || r.Rotated?
    ensures r in Said(s, turns, poll) <==> exists i: nat :: NewsAt(s, turns, poll, r, i)
  {
    hide After, IsNews, NewsAt, StepReports;
    if turns == [] {
      NoNews(s, poll, r);
    } else {
      var n, before := |turns| - 1, Init(turns);
      NewsIsReported(s, before, poll, r);
      TurnNews(After(s, before, poll), Last(turns), r);
      forall i: nat ensures NewsAt(s, turns, poll, r, i) <==>
        (if i == n then IsNews(After(s, before, poll).current, Last(turns), r) else NewsAt(s, before, poll, r, i))
      {
        NewsBefore(s, turns, poll, r, i);
      }
      NewsBefore(s, turns, poll, r, n);
      assert NewsAt(s, turns, poll, r, n) <==> IsNews(After(s, before, poll).current, Last(turns), r);
    }
  }

  lemma NoNews(s: Loop, poll: nat, r: Report)
    ensures r !in Said(s, [], poll) && forall i: nat :: !NewsAt(s, [], poll, r, i)
  {}

  lemma TurnNews(s: Loop, turn: Turn, r: Report)
    requires r.Expiry? || r.Rotated?
    ensures r in StepReports(s, turn) <==> IsNews(s.current, turn, r)
  {}

  lemma NewsBefore(s: Loop, turns: seq<Turn>, poll: nat, r: Report, i: nat)
    requires turns != []
    ensures NewsAt(s, turns, poll, r, i) <==>
      (if i == |turns| - 1 then IsNews(After(s, Init(turns), poll).current, Last(turns), r)
       else NewsAt(s, Init(turns), poll, r, i))
    ensures !NewsAt(s, Init(turns), poll, r, |turns| - 1)
  {
    hide After, IsNews;
    if i < |turns| - 1 { assert Init(turns)[..i] == turns[..i]; }
  }

  // ---- What is published ----

  /** At every head of the loop the current secret is the one that was published last. */
  lemma {:induction false} CurrentIsPublished(s: Loop, turns: seq<Turn>, poll: nat)
    ensures After(s, turns, poll).current.secret == Latest(s.current.secret, Given(s, turns, poll))
  {
    if turns != [] {
      hide RenewalTime;
      CurrentIsPublished(s, Init(turns), poll);
    }
  }

  /** The turn fetched `secret`, which is news, verified it and updated the client with it. */
  predicate Passes(current: Credential, turn: Turn, secret: string) {
    && turn.auth.Got? && turn.auth.credential.secret == secret && !Unchanged(turn.auth.credential, current)
    && turn.verify.None? && turn.update.None?
  }

  ghost predicate PassesAt(s: Loop, turns: seq<Turn>, poll: nat, secret: string, i: nat) {
    i < |turns| && Passes(After(s, turns[..i], poll).current, turns[i], secret)
  }

  /** What a run publishes is exactly what its turns fetched as news, verified and passed to
      the client without an error. */
  lemma {:induction false} GivenIff(s: Loop, turns: seq<Turn>, poll: nat, secret: string)
    ensures secret in Given(s, turns, poll) <==> exists i: nat :: PassesAt(s, turns, poll, secret, i)
  {
    hide After, Passes, PassesAt, Published;
    if turns == [] {
      NothingPasses(s, poll, secret);
    } else {
      var n, before := |turns| - 1, Init(turns);
      GivenIff(s, before, poll, secret);
      TurnPublishes(Last(turns), After(s, before, poll).current, secret);
      forall i: nat ensures PassesAt(s, turns, poll, secret, i) <==>
        (if i == n then Passes(After(s, before, poll).current, Last(turns), secret)
         else PassesAt(s, before, poll, secret, i))
      {
        PassesBefore(s, turns, poll, secret, i);
      }
      PassesBefore(s, turns, poll, secret, n);
      assert PassesAt(s, turns, poll, secret, n) <==> Passes(After(s, before, poll).current, Last(turns), secret);
    }
  }

  lemma NothingPasses(s: Loop, poll: nat, secret: string)
    ensures forall i: nat :: !PassesAt(s, [], poll, secret, i)
  {}

  lemma TurnPublishes(turn: Turn, current: Credential, secret: string)
    ensures secret in Published(turn, current) <==> Passes(current, turn, secret)
  {}

  lemma PassesBefore(s: Loop, turns: seq<Turn>, poll: nat, secret: string, i: nat)
    requires turns != []
    ensures PassesAt(s, turns, poll, secret, i) <==>
      (if i == |turns| - 1 then Passes(After(s, Init(turns), poll).current, Last(turns), secret)
       else PassesAt(s, Init(turns), poll, secret, i))
    ensures !PassesAt(s, Init(turns), poll, secret, |turns| - 1)
  {
    hide After, Passes;
    if i < |turns| - 1 { assert Init(turns)[..i] == turns[..i]; }
  }

  // ---- When it is retried ----

  predicate Fails(s: Loop, turn: Turn) { Renewal(turn, s.current).Lost? }

  /** The number of failures since the last success. */
  function Streak(s: Loop, turns: seq<Turn>, poll: nat): nat {
    if turns == [] then 0
    else if Fails(After(s, Init(turns), poll), Last(turns)) then Streak(s, Init(turns), poll) + 1
    else 0
  }

  /** The wait after the next failure when there have been `k` in a row. */
  function Backoff(k: nat): (b: nat)
    ensures b > 0
  {
    if k == 0 then 5 * SECOND else Doubled(Backoff(k - 1))
  }

  /** Failure number k in a row is followed by a wait of 5, 10, 20, 40 and then always 60
      seconds; a success puts the backoff back and schedules by the new credential. */
  lemma {:induction false} BackoffFollowsFailures(s: Loop, turns: seq<Turn>, poll: nat)
    requires s.backoff == 5 * SECOND && s.due == RenewalTime(s.now, s.current, poll)
    ensures var e, k := After(s, turns, poll), Streak(s, turns, poll);
      && e.backoff == Backoff(k)
      && e.due == if k > 0 then e.now + Backoff(k - 1) else RenewalTime(e.now, e.current, poll)
  {
    if turns != [] {
      hide RenewalTime, Renewal, Doubled;
      BackoffFollowsFailures(s, Init(turns), poll);
    }
  }

  /** When the next attempt starts. After a success, and at first, a password is looked at
      again after the polling interval, and an expiring credential three minutes before its
      expiry, but not within 30 seconds; after failure k the backoff decides. */
  lemma NextAttempt(start: int, initial: Credential, turns: seq<Turn>, next: Turn, poll: nat)
    requires poll > 0
    ensures var b := Begin(start, initial, poll);
      var s, k, wake := After(b, turns, poll), Streak(b, turns, poll), Wake(After(b, turns, poll), next);
      && (k > 0 ==> wake == s.now + Backoff(k - 1) + next.late)
      && (k == 0 && s.current.expires.None? ==> wake == s.now + poll + next.late)
      && (k == 0 && s.current.expires.Some? ==>
            wake == Max(s.now + 30 * SECOND, s.current.expires.value - 180 * SECOND) + next.late)
  {
    hide After, Streak, Backoff;
    BackoffFollowsFailures(Begin(start, initial, poll), turns, poll);
  }

  lemma BackoffsAre()
    ensures Backoff(0) == 5 * SECOND && Backoff(1) == 10 * SECOND && Backoff(2) == 20 * SECOND
    ensures Backoff(3) == 40 * SECOND
    ensures forall k: nat | k >= 4 :: Backoff(k) == MINUTE
  {
    forall k: nat | k >= 4 ensures Backoff(k) == MINUTE { BackoffIsCapped(k); }
  }

  lemma {:induction false} BackoffIsCapped(k: nat)
    requires k >= 4
    ensures Backoff(k) == MINUTE
  {
    if k == 4 {
      assert Backoff(1) == 10 * SECOND && Backoff(2) == 20 * SECOND && Backoff(3) == 40 * SECOND;
    } else {
      BackoffIsCapped(k - 1);
    }
  }

  /** From the due time to the start of attempt `k` when all earlier attempts fail. */
  function Elapsed(turns: seq<Turn>, k: nat): nat
    requires k < |turns|
  {
    if k == 0 then turns[0].late else Elapsed(turns, k - 1) + turns[k - 1].took + Backoff(k - 1) + turns[k].late
  }

  lemma {:induction false} AttemptTime(s: Loop, turns: seq<Turn>, poll: nat, k: nat)
    requires k < |turns| && s.backoff == 5 * SECOND && s.now < s.due
    requires Streak(s, turns[..k], poll) == k
    ensures Wake(After(s, turns[..k], poll), turns[k]) == s.due + Elapsed(turns, k)
    ensures After(s, turns[..k], poll).backoff == Backoff(k)
  {
    hide RenewalTime, Renewal, Doubled;
    if k == 0 {
      assert turns[..0] == [];
    } else {
      assert Init(turns[..k]) == turns[..k - 1] && Last(turns[..k]) == turns[k - 1];
      AttemptTime(s, turns, poll, k - 1);
    }
  }

  /** When a renewal was scheduled three minutes before the expiry, every attempt takes at most
      its timeout and the wake-ups are late by less than 55 seconds in all, then at least four
      attempts are started before the expiry, even if all of them fail. */
  lemma FourAttemptsBeforeExpiry(s: Loop, turns: seq<Turn>, poll: nat, expires: int, k: nat)
    requires s.backoff == 5 * SECOND && s.now < s.due == expires - RENEWAL_MARGIN
    requires |turns| == 4 && forall t | t in turns :: t.took <= REFRESH_TIMEOUT
    requires turns[0].late + turns[1].late + turns[2].late + turns[3].late < 55 * SECOND
    requires k < 4 && Streak(s, turns[..k], poll) == k
    ensures Wake(After(s, turns[..k], poll), turns[k]) < expires
  {
    AttemptTime(s, turns, poll, k);
    hide Streak, After, Wake, Backoff;
    ElapsedOfFour(turns);
  }

  lemma {:induction false} AfterConcat(s: Loop, before: seq<Turn>, turns: seq<Turn>, poll: nat)
    ensures After(s, before + turns, poll) == After(After(s, before, poll), turns, poll)
  {
    if turns == [] {
      assert before + turns == before;
    } else {
      assert Init(before + turns) == before + Init(turns) && Last(before + turns) == Last(turns);
      AfterConcat(s, before, Init(turns), poll);
    }
  }

  /** In every run of the loop: whenever a success, or the start, leaves a credential that
      expires in more than three minutes and 30 seconds, the next four attempts are started
      before that expiry even if all of them fail. */
  lemma FourAttemptsInEveryRun(start: int, initial: Credential, before: seq<Turn>, turns: seq<Turn>, poll: nat, k: nat)
    requires var s := After(Begin(start, initial, poll), before, poll);
      && Streak(Begin(start, initial, poll), before, poll) == 0
      && s.current.expires.Some? && s.current.expires.value > s.now + RENEWAL_MARGIN + MINIMUM_RENEWAL
      && k < 4 == |turns| && Streak(s, turns[..k], poll) == k
    requires forall t | t in turns :: t.took <= REFRESH_TIMEOUT
    requires turns[0].late + turns[1].late + turns[2].late + turns[3].late < 55 * SECOND
    ensures var s := After(Begin(start, initial, poll), before, poll);
      Wake(After(Begin(start, initial, poll), before + turns[..k], poll), turns[k]) < s.current.expires.value
  {
    hide After, Streak, Wake;
    var b := Begin(start, initial, poll);
    BackoffFollowsFailures(b, before, poll);
    var s := After(b, before, poll);
    AfterConcat(b, before, turns[..k], poll);
    FourAttemptsBeforeExpiry(s, turns, poll, s.current.expires.value, k);
  }

  lemma ElapsedOfFour(turns: seq<Turn>)
    requires |turns| >= 4
    ensures Elapsed(turns, 0) == turns[0].late
    ensures Elapsed(turns, 1) == Elapsed(turns, 0) + turns[0].took + 5 * SECOND + turns[1].late
    ensures Elapsed(turns, 2) == Elapsed(turns, 1) + turns[1].took + 10 * SECOND + turns[2].late
    ensures Elapsed(turns, 3) == Elapsed(turns, 2) + turns[2].took + 20 * SECOND + turns[3].late
    ensures |turns| >= 5 ==> Elapsed(turns, 4) == Elapsed(turns, 3) + turns[3].took + 40 * SECOND + turns[4].late
  {
    BackoffsAre();
  }

  /** Four is all that can be promised: when every attempt uses its whole timeout, the fifth
      starts 15 seconds after the expiry. */
  lemma FifthAttemptCanBeLate(s: Loop, turns: seq<Turn>, poll: nat, expires: int)
    requires s.backoff == 5 * SECOND && s.now < s.due == expires - RENEWAL_MARGIN
    requires |turns| == 5 && forall t | t in turns :: t.took == REFRESH_TIMEOUT && t.late == 0
    requires Streak(s, turns[..4], poll) == 4
    ensures Wake(After(s, turns[..4], poll), turns[4]) == expires + 15 * SECOND
  {
    AttemptTime(s, turns, poll, 4);
    hide Streak, After, Wake, Backoff;
    ElapsedOfFour(turns);
  }

  /** The next renewal is due by the expiry exactly when the expiry is at least 30 seconds
      ahead, and then it leaves three minutes unless the expiry is nearer than that. */
  lemma RenewalBeforeExpiryIff(now: int, c: Credential, poll: nat)
    requires c.expires.Some?
    ensures RenewalTime(now, c, poll) <= c.expires.value <==> now + MINIMUM_RENEWAL <= c.expires.value
    ensures RenewalTime(now, c, poll) == Max(now + MINIMUM_RENEWAL, c.expires.value - RENEWAL_MARGIN)
  {}

  // ---- IAM credentials ----

  const TOKEN_LIFETIME: nat := 15 * MINUTE

  /** AWS credentials as retrieved; the zero time is None. */
  datatype Value = Value(fromEnvironment: bool, canExpire: bool, expires: Option<int>, temporary: bool)

  datatype Status = Silent | Unknown | Until(seconds: int)

  function AwsExpiry(value: Value, environmentExpiry: Option<int>): Option<int> {
    if value.canExpire then value.expires else if value.fromEnvironment then environmentExpiry else None
  }

  /** A status names the expiry in whole seconds. */
  function StatusOf(value: Value, aws: Option<int>): Status {
    if aws.Some? then Until(aws.value / SECOND) else if value.temporary then Unknown else Silent
  }

  /** The usable lifetime of a token signed at `now`. */
  function TokenExpiry(now: int, aws: Option<int>): int {
    if aws.Some? && aws.value < now + TOKEN_LIFETIME then aws.value else now + TOKEN_LIFETIME
  }

  class IAM {
    const environmentExpiry: Option<int>
    const reporting: bool
    var reported: Status
    var reports: seq<Status>

    constructor (environmentExpiry: Option<int>, reporting: bool)
      ensures reported == Silent && reports == []
      ensures this.environmentExpiry == environmentExpiry && this.reporting == reporting
    {
      this.environmentExpiry, this.reporting := environmentExpiry, reporting;
      reported, reports := Silent, [];
    }

    /** An expiry is known: the provider's, or for a credential from the environment that names
        none, the environment's. */
    predicate Bounded(value: Value) {
      if value.canExpire then value.expires.Some? else value.fromEnvironment && environmentExpiry.Some?
    }

    /** A credential that expires at `expiry` is returned if it was signed and that is at least
        a minute after the guard, and none otherwise. */
    static predicate Signed(c: Option<Credential>, token: Option<string>, guard: int, expiry: int) {
      c == if token.Some? && guard + MINUTE <= expiry then Some(Credential(token.value, Some(expiry))) else None
    }

    /** The token would be usable for at least a minute. */
    predicate InTime(value: Value, now: int, guard: int) {
      guard + MINUTE <= TokenExpiry(now, AwsExpiry(value, environmentExpiry))
    }

    /** `now` is the time when the expiry is computed and `guard` when it is checked; `value`
        and `token` are the answers of the credential provider and of signing. */
    method Fetch(value: Option<Value>, now: int, guard: int, token: Option<string>) returns (c: Option<Credential>)
      requires now <= guard
      modifies this
      ensures c.Some? <==> (value.Some? && token.Some? && InTime(value.value, now, guard))
      ensures c.Some? ==>
        c.value == Credential(token.value, Some(TokenExpiry(now, AwsExpiry(value.value, environmentExpiry))))
      // A token lives for 15 minutes, but not longer than the AWS credential that signed it.
      ensures c.Some? ==> guard + MINUTE <= c.value.expires.value <= now + 15 * MINUTE
      ensures value.Some? && value.value.canExpire && value.value.expires.Some? ==>
        Signed(c, token, guard, Min(value.value.expires.value, now + 15 * MINUTE))
      ensures value.Some? && !value.value.canExpire && value.value.fromEnvironment && environmentExpiry.Some? ==>
        Signed(c, token, guard, Min(environmentExpiry.value, now + 15 * MINUTE))
      ensures value.Some? && !Bounded(value.value) ==> Signed(c, token, guard, now + 15 * MINUTE)
      // What is reported.
      ensures reported != old(reported) ==> reports == old(reports) + [reported]
      ensures reported == old(reported) ==> reports == old(reports)
      ensures reported == (if reporting && value.Some? && InTime(value.value, now, guard)
        then StatusOf(value.value, AwsExpiry(value.value, environmentExpiry)) else old(reported))
      ensures c.Some? && reporting ==>
        var v := value.value;
        && (v.canExpire && v.expires.Some? ==> reported == Until(v.expires.value / 1_000_000_000))
        && (!v.canExpire && v.fromEnvironment && environmentExpiry.Some? ==>
              reported == Until(environmentExpiry.value / 1_000_000_000))
        && (!Bounded(v) ==> reported == if v.temporary then Unknown else Silent)
    {
      if value.None? {
        return None;
      }
      var v := value.value;
      var expiry := now + TOKEN_LIFETIME;
      var awsExpiry: Option<int> := None;
      if v.fromEnvironment {
        awsExpiry := environmentExpiry;
      }
      if v.canExpire {
        awsExpiry := v.expires;
      }
      if awsExpiry.Some? && awsExpiry.value < expiry {
        expiry := awsExpiry.value;
      }
      if expiry - guard < MINUTE {
        return None;
      }
      var status := StatusOf(v, awsExpiry);
      if reporting && status != reported {
        reported := status;
        reports := reports + [status];
      }
      if token.None? {
        return None;
      }
      return Some(Credential(token.value, Some(expiry)));
    }
  }

  /** Every credential that passed the one-minute guard is scheduled to be renewed by its
      expiry exactly when the schedule is made within 30 seconds of the guard. */
  lemma ScheduledInTimeIff(now: int, poll: nat, guard: int)
    ensures (forall c: Credential | c.expires.Some? && guard + MINUTE <= c.expires.value ::
      RenewalTime(now, c, poll) <= c.expires.value) <==> now - guard <= MINIMUM_RENEWAL
  {
    var soonest := Credential("", Some(guard + MINUTE));
    assert RenewalTime(now, soonest, poll) <= guard + MINUTE <==> now - guard <= MINIMUM_RENEWAL;
  }

  /** So a renewal that ends within 30 seconds of its guard, verifying and publishing
      included, leaves the loop with a due time by the new expiry, and in the future. */
  lemma RefreshedIsRenewedInTime(s: Loop, turn: Turn, poll: nat, guard: int)
    requires Renewal(turn, s.current).Got? && turn.auth.credential.expires.Some?
    requires Wake(s, turn) + turn.took - guard <= MINIMUM_RENEWAL
    requires guard + MINUTE <= turn.auth.credential.expires.value
    ensures var next := Step(s, turn, poll);
      next.current == turn.auth.credential
      && next.now + MINIMUM_RENEWAL <= next.due <= turn.auth.credential.expires.value
  {
    ScheduledInTimeIff(Step(s, turn, poll).now, poll, guard);
  }

  /** The first schedule is made when startup is over: for all first credentials that passed
      their guard it is in time exactly when that takes at most 30 seconds from the guard. */
  lemma FirstRenewalInTimeIff(start: int, secret: string, poll: nat, guard: int)
    ensures (forall x | guard + MINUTE <= x :: Begin(start, Credential(secret, Some(x)), poll).due <= x)
      <==> start - guard <= 30 * SECOND
  {
    if start - guard <= 30 * SECOND {
      ScheduledInTimeIff(start, poll, guard);
    } else {
      assert Begin(start, Credential(secret, Some(guard + MINUTE)), poll).due > guard + MINUTE;
    }
  }
}
