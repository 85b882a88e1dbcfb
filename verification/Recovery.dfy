/** The embedded tunnel's reconnection after a lost socket: internal/ssmplugin/recovery.go.
    Time is in nanoseconds since the interruption; timers fire on time. */
module Recovery {
  import opened Text

  // ---- Messages ----

  /** One short line of output. */
  predicate Message(s: string) { 0 < |s| <= 300 && '\n' !in s }

  const INTERRUPTED := "SSM connection " + "interrupted; " + ("resuming the " + "session for " + "up to 1 minute.")
  const CLIENT_RUNS := " Your client " + "keeps running, " + ("but queries " + "may fail meanwhile.")
  const RECOVERY_STARTED := INTERRUPTED + CLIENT_RUNS
  const RESTORED := "SSM connection " + "restored on the " + "same local port."
  const NOT_REPLAYED := " Failed queries " + "were not " + ("replayed; retry " + "them if safe.")
  const RECOVERY_RESUMED := RESTORED + NOT_REPLAYED
  const NETWORK_ADVICE := ". Check network " + "access and AWS " + ("login, then rerun " + "your pg-tunnel command")
  const RECOVERY_EXPIRED := "SSM recovery " + "exceeded 1 minute" + NETWORK_ADVICE
  const LOGIN_ADVICE := ". Check AWS login " + "and session " + ("access, then rerun " + "your pg-tunnel command")
  const RESUME_REJECTED := "SSM resume rejected"

  predicate Sentence(s: string) { 0 < |s| <= 100 && '\n' !in s }

  lemma InterruptedIsSentence()
    ensures Sentence(INTERRUPTED)
  {}

  lemma ClientRunsIsSentence()
    ensures Sentence(CLIENT_RUNS)
  {}

  lemma RestoredIsSentence()
    ensures Sentence(RESTORED)
  {}

  lemma NotReplayedIsSentence()
    ensures Sentence(NOT_REPLAYED)
  {}

  lemma ProgressIsMessage()
    ensures Message(RECOVERY_STARTED) && Message(RECOVERY_RESUMED)
  {
    hide INTERRUPTED, CLIENT_RUNS, RESTORED, NOT_REPLAYED;
    InterruptedIsSentence();
    ClientRunsIsSentence();
    RestoredIsSentence();
    NotReplayedIsSentence();
  }

  lemma NetworkAdviceIsSentence()
    ensures Sentence(NETWORK_ADVICE)
  {}

  lemma ExpiredIsMessage()
    ensures Message(RECOVERY_EXPIRED)
  {
    hide NETWORK_ADVICE;
    NetworkAdviceIsSentence();
  }

  lemma LoginAdviceIsSentence()
    ensures Sentence(LOGIN_ADVICE)
  {}

  lemma RejectedIsMessage()
    ensures Message(RESUME_REJECTED) && |RESUME_REJECTED| == 19
  {}

  predicate StopReason(line: string) { RECOVERY_EXPIRED <= line || RESUME_REJECTED <= line }

  /** What a failed resume call may carry: the expiry of this process's credentials, an AWS
      error code and an HTTP status. */
  datatype ResumeError = ResumeError(credentialsExpired: bool, code: Option<string>, status: Option<nat>)

  datatype Reason = Denied | Expired | Unknown | Gone | Refused(status: nat)

  function CodeReason(code: string): Option<Reason> {
    if code == "AccessDenied" || code == "AccessDeniedException" || code == "UnauthorizedOperation" then Some(Denied)
    else if code == "ExpiredToken" || code == "ExpiredTokenException" then Some(Expired)
    else if code == "InvalidClientTokenId" || code == "UnrecognizedClientException" then Some(Unknown)
    else if code == "InvalidSessionId" || code == "InvalidSessionIdException" || code == "DoesNotExistException" then
      Some(Gone)
    else None
  }

  /** Why retrying is pointless, if it is. */
  function TerminalReason(e: ResumeError): Option<Reason> {
    if e.credentialsExpired then Some(Expired)
    else if e.code.Some? && CodeReason(e.code.value).Some? then CodeReason(e.code.value)
    else if e.status == Some(401) || e.status == Some(403) then Some(Refused(e.status.value))
    else None
  }

  function StatusText(status: nat): (s: string)
    ensures '\n' !in s && |s| == 49 + |Decimal(status)|
  {
    var number := Decimal(status);
    assert '\n' !in number;
    "AWS rejected SSM " + "authentication " + ("or access (HTTP " + (number + ")"))
  }

  function ReasonText(r: Reason): (s: string)
    ensures '\n' !in s && (!r.Refused? ==> |s| <= 40)
  {
    match r
    case Denied => "AWS denied ssm:ResumeSession"
    case Expired => "AWS credentials expired"
    case Unknown => "AWS credentials were rejected"
    case Gone => "the SSM session no longer exists"
    case Refused(status) => StatusText(status)
  }

  /** How a recovery can end, and the error text that says so. */
  datatype Ending = Resumed | Rejected(reason: Reason) | TimedOut

  function ErrorText(v: Ending): Option<string> {
    match v
    case Resumed => None
    case Rejected(reason) => Some(RESUME_REJECTED + ": " + ReasonText(reason) + LOGIN_ADVICE)
    case TimedOut => Some(RECOVERY_EXPIRED)
  }

  // ---- Bounded retrying ----

  /** One resume call: how long it takes (never returning is None), its error if any, and
      whether its result is picked when it arrives exactly at the deadline. */
  datatype Call = Call(took: Option<nat>, error: Option<ResumeError>, wins: bool)

  /** The calls of one recovery: call `i` is made if the recovery gets that far. */
  type Remote = nat -> Call

  /** How and when a recovery ends, and when each call was started. */
  datatype Episode = Episode(ending: Ending, end: nat, starts: seq<nat>)

  function Longer(delay: nat): (d: nat)
    ensures delay > 0 ==> d > 0
  {
    if 2 * delay < 5 * SECOND then 2 * delay else 5 * SECOND
  }

  /** The result of the call arrives in time. */
  predicate Returns(c: Call, now: nat, limit: nat) {
    c.took.Some? && (now + c.took.value < limit || (now + c.took.value == limit && c.wins))
  }

  lemma InTime(c: Call, now: nat, limit: nat)
    requires Returns(c, now, limit)
    ensures c.took.Some? && now + c.took.value <= limit
  {}

  predicate Transient(c: Call) {
    c.took.Some? && c.error.Some? && TerminalReason(c.error.value).None?
  }

  /** The recovery from its `i`-th call on, when `now` is the time and `delay` the next wait. */
  function Resume(remote: Remote, limit: nat, now: nat, delay: nat, i: nat): (e: Episode)
    requires delay > 0
    decreases limit - now
  {
    if now >= limit then Episode(TimedOut, now, [])
    else if !Returns(remote(i), now, limit) then Episode(TimedOut, limit, [now])
    else
      var t := now + remote(i).took.value;
      if remote(i).error.None? then Episode(Resumed, t, [now])
      else if TerminalReason(remote(i).error.value).Some? then
        Episode(Rejected(TerminalReason(remote(i).error.value).value), t, [now])
      else if t + delay >= limit then Episode(TimedOut, limit, [now])
      else
        var rest := Resume(remote, limit, t + delay, Longer(delay), i + 1);
        Episode(rest.ending, rest.end, [now] + rest.starts)
  }

  function Recover(remote: Remote, limit: nat): Episode { Resume(remote, limit, 0, SECOND, 0) }

  function After(starts: seq<nat>, e: Episode): Episode { Episode(e.ending, e.end, starts + e.starts) }

  lemma AfterAppend(starts: seq<nat>, now: nat, e: Episode)
    ensures After(starts + [now], e) == After(starts, Episode(e.ending, e.end, [now] + e.starts))
  {
    assert (starts + [now]) + e.starts == starts + ([now] + e.starts);
  }

  lemma FirstCall(remote: Remote, limit: nat)
    ensures After([], Resume(remote, limit, 0, SECOND, 0)) == Recover(remote, limit)
  {
    hide Resume;
    assert [] + Recover(remote, limit).starts == Recover(remote, limit).starts;
  }

  /** What a turn of the loop comes to. */
  lemma OneCall(remote: Remote, limit: nat, now: nat, delay: nat, i: nat, starts: seq<nat>)
    requires delay > 0
    ensures var e, c, more := After(starts, Resume(remote, limit, now, delay, i)), remote(i), starts + [now];
      if now >= limit then e == Episode(TimedOut, now, starts)
      else if !Returns(c, now, limit) then e == Episode(TimedOut, limit, more)
      else if c.error.None? then e == Episode(Resumed, now + c.took.value, more)
      else if TerminalReason(c.error.value).Some? then
        e == Episode(Rejected(TerminalReason(c.error.value).value), now + c.took.value, more)
      else if now + c.took.value + delay >= limit then e == Episode(TimedOut, limit, more)
      else e == After(more, Resume(remote, limit, now + c.took.value + delay, Longer(delay), i + 1))
  {
    hide TerminalReason, Longer;
    var c := remote(i);
    if now < limit && Returns(c, now, limit) && now + c.took.value + delay < limit {
      AfterAppend(starts, now, Resume(remote, limit, now + c.took.value + delay, Longer(delay), i + 1));
    }
  }

  /** The retry loop: calls one after the other, each awaited until the deadline. */
  method ResumeWithin(remote: Remote, limit: nat) returns (ending: Ending, end: nat, starts: seq<nat>)
    ensures Episode(ending, end, starts) == Recover(remote, limit)
  {
    hide TerminalReason, Longer, Returns, Resume, After, Recover;
    var delay, now, i := SECOND, 0, 0;
    starts := [];
    FirstCall(remote, limit);
    while true
      invariant delay > 0
      invariant After(starts, Resume(remote, limit, now, delay, i)) == Recover(remote, limit)
      decreases limit - now
    {
      OneCall(remote, limit, now, delay, i, starts);
      if now >= limit {
        return TimedOut, now, starts;
      }
      starts := starts + [now];
      var call := remote(i);
      if !Returns(call, now, limit) {
        return TimedOut, limit, starts;
      }
      assert call.took.Some? by { InTime(call, now, limit); }
      now := now + call.took.value;
      if call.error.None? {
        return Resumed, now, starts;
      }
      var reason := TerminalReason(call.error.value);
      if reason.Some? {
        return Rejected(reason.value), now, starts;
      }
      if now + delay >= limit {
        return TimedOut, limit, starts;
      }
      now, delay, i := now + delay, Longer(delay), i + 1;
    }
  }

  // ---- What a recovery does ----

  function Delay(i: nat): (d: nat)
    ensures d > 0
  {
    if i == 0 then SECOND else Longer(Delay(i - 1))
  }

  /** When call `i` is started, if every call before it returns and is retried. */
  function Start(remote: Remote, i: nat): nat {
    if i == 0 then 0
    else Start(remote, i - 1) + (if remote(i - 1).took.Some? then remote(i - 1).took.value else 0) + Delay(i - 1)
  }

  /** The recovery gets as far as call `n`. */
  predicate Reaches(remote: Remote, limit: nat, n: nat) {
    (forall j: nat | j < n :: Transient(remote(j))) && Start(remote, n) < limit
  }

  lemma {:induction false} StartGrows(remote: Remote, i: nat, n: nat)
    requires i <= n
    ensures Start(remote, i) <= Start(remote, n)
  {
    hide Longer;
    if i < n { StartGrows(remote, i, n - 1); }
  }

  lemma {:induction false} ResumeStarts(remote: Remote, limit: nat, i: nat, n: nat)
    requires i <= n && forall j: nat | j < i :: Transient(remote(j))
    ensures var starts := Resume(remote, limit, Start(remote, i), Delay(i), i).starts;
      && (n - i < |starts| <==> Reaches(remote, limit, n))
      && (n - i < |starts| ==> starts[n - i] == Start(remote, n))
    decreases n - i
  {
    hide TerminalReason, Longer;
    StartGrows(remote, i, n);
    if i < n && Start(remote, i) < limit {
      StartGrows(remote, i + 1, n);
      if Transient(remote(i)) { ResumeStarts(remote, limit, i + 1, n); }
    }
  }

  /** Exactly these calls are made, one at a time: each starts one backoff delay after the
      previous one returned a transient error, and no call starts at or after the deadline. */
  lemma CallsMade(remote: Remote, limit: nat, n: nat)
    ensures n < |Recover(remote, limit).starts| <==> Reaches(remote, limit, n)
    ensures Reaches(remote, limit, n) ==> Recover(remote, limit).starts[n] == Start(remote, n)
    ensures Reaches(remote, limit, n + 1) ==>
      Start(remote, n + 1) == Start(remote, n) + remote(n).took.value + Delay(n)
  {
    ResumeStarts(remote, limit, 0, n);
    hide Transient;
    if Reaches(remote, limit, n + 1) {
      assert Transient(remote(n));
      assert remote(n).took.Some? by { TransientReturns(remote(n)); }
    }
  }

  lemma TransientReturns(c: Call)
    requires Transient(c)
    ensures c.took.Some? && c.error.Some?
  {}

  /** How the last call decides the end. */
  ghost predicate EndsBy(remote: Remote, limit: nat, n: nat, e: Episode) {
    var c, s := remote(n), Start(remote, n);
    if !Returns(c, s, limit) then e.ending == TimedOut && e.end == limit
    else if c.error.None? then e.ending == Resumed && e.end == s + c.took.value
    else if TerminalReason(c.error.value).Some? then
      e.ending == Rejected(TerminalReason(c.error.value).value) && e.end == s + c.took.value
    else e.ending == TimedOut && e.end == limit && Start(remote, n + 1) >= limit
  }

  lemma {:induction false} ResumeEnds(remote: Remote, limit: nat, i: nat)
    requires Start(remote, i) < limit
    ensures var e := Resume(remote, limit, Start(remote, i), Delay(i), i);
      e.starts != [] && EndsBy(remote, limit, i + |e.starts| - 1, e)
    decreases limit - Start(remote, i)
  {
    hide TerminalReason, Longer;
    var c, s := remote(i), Start(remote, i);
    if Returns(c, s, limit) && c.error.Some? && TerminalReason(c.error.value).None? && Start(remote, i + 1) < limit {
      ResumeEnds(remote, limit, i + 1);
    }
  }

  /** Call `n` is made and its success arrives in time. */
  predicate Succeeds(remote: Remote, limit: nat, n: nat) {
    Reaches(remote, limit, n) && Returns(remote(n), Start(remote, n), limit) && remote(n).error.None?
  }

  lemma SuccessIsLast(remote: Remote, limit: nat, n: nat, last: nat)
    requires Succeeds(remote, limit, n) && Reaches(remote, limit, last) && !Reaches(remote, limit, last + 1)
    ensures n == last
  {
    hide Start, Returns, TerminalReason;
    if n > last { StartGrows(remote, last + 1, n); }
    assert n < last ==> Transient(remote(n));
  }

  /** How a recovery ends is decided by its last call. */
  lemma LastCallDecides(remote: Remote, limit: nat)
    requires limit > 0
    ensures var e := Recover(remote, limit);
      |e.starts| > 0 && EndsBy(remote, limit, |e.starts| - 1, e) && e.end <= limit
  {
    ResumeEnds(remote, limit, 0);
    hide Resume, TerminalReason, Start, Returns;
    var n := |Recover(remote, limit).starts| - 1;
    assert EndsBy(remote, limit, n, Recover(remote, limit));
    if Returns(remote(n), Start(remote, n), limit) { InTime(remote(n), Start(remote, n), limit); }
  }

  /** The recovery reports success exactly when some call that it reaches succeeds in time. */
  lemma ResumesIff(remote: Remote, limit: nat)
    requires limit > 0
    ensures Recover(remote, limit).ending == Resumed <==> exists n: nat :: Succeeds(remote, limit, n)
    ensures forall n: nat | Succeeds(remote, limit, n) ::
      Recover(remote, limit).end == Start(remote, n) + remote(n).took.value
  {
    hide TerminalReason, Recover, Reaches, Start, Returns;
    var last := |Recover(remote, limit).starts| - 1;
    LastCallDecides(remote, limit);
    CallsMade(remote, limit, last);
    CallsMade(remote, limit, last + 1);
    assert Recover(remote, limit).ending == Resumed ==> Succeeds(remote, limit, last);
    forall n: nat | Succeeds(remote, limit, n) ensures n == last {
      SuccessIsLast(remote, limit, n, last);
    }
  }

  /** A success counts when it arrives before the deadline, not when it comes later; of a
      success and the deadline at the same moment either may be picked. */
  lemma SuccessInTime(remote: Remote, limit: nat, n: nat)
    requires Reaches(remote, limit, n) && remote(n).took.Some? && remote(n).error.None?
    ensures var arrives, e := Start(remote, n) + remote(n).took.value, Recover(remote, limit);
      && (arrives < limit ==> e.ending == Resumed && e.end == arrives)
      && (arrives > limit ==> e.ending == TimedOut && e.end == limit)
      && (arrives == limit ==> e.ending == (if remote(n).wins then Resumed else TimedOut) && e.end == limit)
  {
    hide TerminalReason, Recover, Start, Longer;
    CallsMade(remote, limit, n);
    CallsMade(remote, limit, n + 1);
    LastCallDecides(remote, limit);
    assert !Transient(remote(n)) && !Reaches(remote, limit, n + 1);
    assert |Recover(remote, limit).starts| == n + 1;
  }

  // ---- What is terminal ----

  const DENIALS := {"AccessDenied", "AccessDeniedException", "UnauthorizedOperation"}
  const EXPIRIES := {"ExpiredToken", "ExpiredTokenException"}
  const UNKNOWN_IDENTITIES := {"InvalidClientTokenId", "UnrecognizedClientException"}
  const MISSING_SESSIONS := {"InvalidSessionId", "InvalidSessionIdException", "DoesNotExistException"}

  predicate HasCode(e: ResumeError, codes: set<string>) { e.code.Some? && e.code.value in codes }

  /** None of the ten codes, no expiry of this process's own credentials and no HTTP status
      that refuses them. */
  predicate Retryable(e: ResumeError) {
    && !e.credentialsExpired && e.status != Some(401) && e.status != Some(403)
    && !HasCode(e, DENIALS + EXPIRIES + UNKNOWN_IDENTITIES + MISSING_SESSIONS)
  }

  /** Every other error ends the recovery, and only these do. */
  lemma RetriedIff(e: ResumeError)
    ensures TerminalReason(e).None? <==> Retryable(e)
  {}

  predicate Reports(e: ResumeError, cause: string) {
    TerminalReason(e).Some? && ReasonText(TerminalReason(e).value) == cause
  }

  /** What is said about each of them. The code comes before the status. */
  lemma CausesAre(e: ResumeError)
    ensures e.credentialsExpired ==> Reports(e, "AWS credentials expired")
    ensures !e.credentialsExpired ==>
      && (HasCode(e, DENIALS) ==> Reports(e, "AWS denied ssm:ResumeSession"))
      && (HasCode(e, EXPIRIES) ==> Reports(e, "AWS credentials expired"))
      && (HasCode(e, UNKNOWN_IDENTITIES) ==> Reports(e, "AWS credentials were rejected"))
      && (HasCode(e, MISSING_SESSIONS) ==> Reports(e, "the SSM session no longer exists"))
  {}

  lemma StatusCausesAre(e: ResumeError)
    requires !e.credentialsExpired && !HasCode(e, DENIALS + EXPIRIES + UNKNOWN_IDENTITIES + MISSING_SESSIONS)
    ensures e.status == Some(401) ==> Reports(e, "AWS rejected SSM " + "authentication " + "or access (HTTP 401)")
    ensures e.status == Some(403) ==> Reports(e, "AWS rejected SSM " + "authentication " + "or access (HTTP 403)")
  {
    hide ReasonText;
    StatusIsReason(e);
    RefusedTexts();
  }

  lemma StatusIsReason(e: ResumeError)
    requires !e.credentialsExpired && !HasCode(e, DENIALS + EXPIRIES + UNKNOWN_IDENTITIES + MISSING_SESSIONS)
    ensures e.status == Some(401) || e.status == Some(403) ==> TerminalReason(e) == Some(Refused(e.status.value))
  {}

  lemma RefusedTexts()
    ensures ReasonText(Refused(401)) == "AWS rejected SSM " + "authentication " + "or access (HTTP 401)"
    ensures ReasonText(Refused(403)) == "AWS rejected SSM " + "authentication " + "or access (HTTP 403)"
  {
    assert Decimal(401) == "401" && Decimal(403) == "403";
    StatusEnd("401");
    StatusEnd("403");
  }

  lemma StatusEnd(number: string)
    requires |number| == 3
    ensures "AWS rejected SSM " + "authentication " + ("or access (HTTP " + (number + ")")) ==
      "AWS rejected SSM " + "authentication " + ("or access (HTTP " + [number[0], number[1], number[2], ')'])
  {
    assert number + ")" == [number[0], number[1], number[2], ')'];
  }

  /** Call `n` is made and fails in time with such an error. */
  predicate Fatal(remote: Remote, limit: nat, n: nat) {
    Reaches(remote, limit, n) && Returns(remote(n), Start(remote, n), limit) &&
    remote(n).error.Some? && !Retryable(remote(n).error.value)
  }

  lemma FatalIsLast(remote: Remote, limit: nat, n: nat, last: nat)
    requires Fatal(remote, limit, n) && Reaches(remote, limit, last) && !Reaches(remote, limit, last + 1)
    ensures n == last
  {
    RetriedIff(remote(n).error.value);
    hide Start, Returns, TerminalReason, Retryable;
    if n > last { StartGrows(remote, last + 1, n); }
    assert n < last ==> Transient(remote(n));
  }

  /** The recovery is rejected exactly when a call that it reaches fails in time with a
      terminal error; that call is its last, and its error gives the reason. */
  lemma RejectedIff(remote: Remote, limit: nat)
    requires limit > 0
    ensures Recover(remote, limit).ending.Rejected? <==> exists n: nat :: Fatal(remote, limit, n)
    ensures forall n: nat | Fatal(remote, limit, n) ::
      && Recover(remote, limit).ending == Rejected(TerminalReason(remote(n).error.value).value)
      && Recover(remote, limit).end == Start(remote, n) + remote(n).took.value
      && |Recover(remote, limit).starts| == n + 1
  {
    hide TerminalReason, Recover, Reaches, Start, Returns, Retryable;
    var last := |Recover(remote, limit).starts| - 1;
    LastCallDecides(remote, limit);
    CallsMade(remote, limit, last);
    CallsMade(remote, limit, last + 1);
    if remote(last).error.Some? { RetriedIff(remote(last).error.value); }
    assert Recover(remote, limit).ending.Rejected? ==> Fatal(remote, limit, last);
    forall n: nat | Fatal(remote, limit, n) ensures n == last {
      FatalIsLast(remote, limit, n, last);
    }
  }

  /** Errors that are retried never reject a recovery. */
  lemma RetryableNeverRejects(remote: Remote, limit: nat)
    requires forall i: nat | remote(i).error.Some? :: Retryable(remote(i).error.value)
    ensures !Recover(remote, limit).ending.Rejected?
  {
    hide Recover, Reaches, Start, Returns, Retryable;
    if limit > 0 { RejectedIff(remote, limit); } else { NoTime(remote); }
  }

  lemma NoTime(remote: Remote)
    ensures Recover(remote, 0).ending == TimedOut
  {}

  // ---- The minute ----

  /** The least time that can pass before call `i`: the waits alone. */
  function Waits(i: nat): nat { if i == 0 then 0 else Waits(i - 1) + Delay(i - 1) }

  lemma {:induction false} WaitsAre(i: nat)
    ensures Delay(i) ==
      if i == 0 then SECOND else if i == 1 then 2 * SECOND else if i == 2 then 4 * SECOND else 5 * SECOND
    ensures Waits(i) ==
      if i == 0 then 0 else if i == 1 then SECOND else if i == 2 then 3 * SECOND else (5 * i - 8) * SECOND
  {
    if i > 0 { WaitsAre(i - 1); }
  }

  lemma {:induction false} StartsAfterWaits(remote: Remote, i: nat)
    ensures Start(remote, i) >= Waits(i)
  {
    hide Longer;
    if i > 0 { StartsAfterWaits(remote, i - 1); }
  }

  /** Within a minute at most 14 calls are started. */
  lemma AtMostFourteenCalls(remote: Remote)
    ensures |Recover(remote, 60 * SECOND).starts| <= 14
  {
    hide Resume, Recover, Waits, Delay;
    CallsMade(remote, 60 * SECOND, 14);
    StartsAfterWaits(remote, 14);
    WaitsAre(14);
  }

  /** Every call fails at once until time `t` and succeeds at once from then on. */
  ghost predicate OutageUntil(remote: Remote, t: nat) {
    forall i: nat ::
      && remote(i).took == Some(0)
      && (Waits(i) < t ==> Transient(remote(i)))
      && (Waits(i) >= t ==> remote(i).error.None?)
  }

  lemma {:induction false} OutageStarts(remote: Remote, t: nat, i: nat)
    requires OutageUntil(remote, t)
    ensures Start(remote, i) == Waits(i)
  {
    hide Transient, Longer, Delay;
    if i > 0 {
      OutageStarts(remote, t, i - 1);
      assert remote(i - 1).took == Some(0);
    }
  }

  lemma {:induction false} WaitsGrow(i: nat, n: nat)
    requires i < n
    ensures Waits(i) < Waits(n)
  {
    hide Delay;
    if i + 1 < n { WaitsGrow(i, n - 1); }
  }

  /** The first call that is due at or after `t`. */
  lemma FirstCallAfter(t: nat) returns (m: nat)
    ensures t <= Waits(m) && (m > 0 ==> Waits(m - 1) < t)
  {
    hide Delay;
    m := 0;
    while Waits(m) < t
      invariant m > 0 ==> Waits(m - 1) < t
      decreases t - Waits(m)
    {
      m := m + 1;
    }
  }

  lemma OutageReaches(remote: Remote, t: nat, n: nat)
    requires OutageUntil(remote, t) && (n > 0 ==> Waits(n - 1) < t)
    ensures Reaches(remote, 60 * SECOND, n) <==> Waits(n) < 60 * SECOND
    ensures Start(remote, n) == Waits(n)
  {
    OutageStarts(remote, t, n);
    hide Start, Transient, Waits;
    forall j: nat | j < n ensures Transient(remote(j)) {
      if j < n - 1 { WaitsGrow(j, n - 1); }
    }
  }

  /** An outage is survived exactly when it lasts at most 57 seconds, and then the tunnel is
      back less than five seconds after the outage; otherwise 14 calls were made in vain. */
  lemma OutageSurvivedIff(remote: Remote, t: nat)
    requires OutageUntil(remote, t)
    ensures var e := Recover(remote, 60 * SECOND);
      && (e.ending == Resumed <==> t <= 57 * SECOND)
      && (t <= 57 * SECOND ==> t <= e.end && (t > 0 ==> e.end < t + 5 * SECOND))
      && (t > 57 * SECOND ==> e.ending == TimedOut && |e.starts| == 14)
  {
    hide Recover, OutageUntil;
    if t <= 57 * SECOND { ShortOutage(remote, t); } else { LongOutage(remote, t); }
  }

  lemma ShortOutage(remote: Remote, t: nat)
    requires OutageUntil(remote, t) && t <= 57 * SECOND
    ensures var e := Recover(remote, 60 * SECOND);
      e.ending == Resumed && t <= e.end && (t > 0 ==> e.end < t + 5 * SECOND)
  {
    hide Recover, Waits, Delay, Start, Reaches;
    var m := FirstCallAfter(t);
    WaitsAre(m);
    if m > 0 { WaitsAre(m - 1); }
    OutageReaches(remote, t, m);
    assert Succeeds(remote, 60 * SECOND, m);
    ResumesIff(remote, 60 * SECOND);
  }

  lemma LongOutage(remote: Remote, t: nat)
    requires OutageUntil(remote, t) && t > 57 * SECOND
    ensures var e := Recover(remote, 60 * SECOND); e.ending == TimedOut && |e.starts| == 14
  {
    hide Recover, Waits, Delay, Start, Reaches, TerminalReason;
    WaitsAre(12);
    WaitsAre(13);
    WaitsAre(14);
    OutageReaches(remote, t, 13);
    OutageReaches(remote, t, 14);
    CallsMade(remote, 60 * SECOND, 13);
    CallsMade(remote, 60 * SECOND, 14);
    LastCallDecides(remote, 60 * SECOND);
    assert Transient(remote(13));
  }

  // ---- The texts ----

  lemma FourthOfProgress()
    ensures |RECOVERY_STARTED| > 4 && |RECOVERY_RESUMED| > 4 && RECOVERY_STARTED[4] == RECOVERY_RESUMED[4] == 'c'
  {
    hide CLIENT_RUNS, NOT_REPLAYED;
    assert |INTERRUPTED| > 4 && INTERRUPTED[4] == 'c';
    assert |RESTORED| > 4 && RESTORED[4] == 'c';
  }

  lemma FourthOfReasons()
    ensures |RECOVERY_EXPIRED| > 4 && |RESUME_REJECTED| > 4 && RECOVERY_EXPIRED[4] == RESUME_REJECTED[4] == 'r'
  {
    hide NETWORK_ADVICE;
  }

  /** The progress messages are not taken for the reason the tunnel stopped, nor is any line
      that begins with neither of the two texts. */
  lemma ReasonsBegin(line: string)
    ensures StopReason(line) <==> RECOVERY_EXPIRED <= line || RESUME_REJECTED <= line
    ensures StopReason(line) ==> |line| > 4 && line[4] == 'r'
    ensures !StopReason(RECOVERY_STARTED) && !StopReason(RECOVERY_RESUMED)
  {
    hide RECOVERY_EXPIRED, RESUME_REJECTED, RECOVERY_STARTED, RECOVERY_RESUMED;
    FourthOfReasons();
    FourthOfProgress();
  }

  lemma ReasonTextLength(e: ResumeError)
    requires TerminalReason(e).Some?
    ensures |ReasonText(TerminalReason(e).value)| <= 60
  {
    hide StatusText;
    assert |Decimal(401)| == 3 && |Decimal(403)| == 3;
  }

  /** Every error text that a recovery prints is one short line that the supervisor takes
      for the reason the tunnel stopped. */
  lemma ErrorTextIsStopReason(e: ResumeError, v: Ending)
    requires v.Rejected? ==> TerminalReason(e) == Some(v.reason)
    ensures v == Resumed <==> ErrorText(v).None?
    ensures v == TimedOut ==> ErrorText(v) == Some(RECOVERY_EXPIRED)
    ensures ErrorText(v).Some? ==> StopReason(ErrorText(v).value) && Message(ErrorText(v).value)
  {
    hide RECOVERY_EXPIRED, RESUME_REJECTED, ReasonText, LOGIN_ADVICE;
    ExpiredIsMessage();
    RejectedIsMessage();
    LoginAdviceIsSentence();
    if v.Rejected? {
      ReasonTextLength(e);
      assert '\n' !in ": ";
      var tail := ": " + ReasonText(v.reason) + LOGIN_ADVICE;
      assert RESUME_REJECTED + ": " + ReasonText(v.reason) + LOGIN_ADVICE == RESUME_REJECTED + tail;
    }
  }

  /** The text names the cause, between fixed words. */
  lemma ErrorNamesCause(e: ResumeError, cause: string)
    requires Reports(e, cause)
    ensures ErrorText(Rejected(TerminalReason(e).value)).Some?
    ensures var t, n := ErrorText(Rejected(TerminalReason(e).value)).value, |RESUME_REJECTED| + 2;
      |t| >= n + |cause| && t[..n] == RESUME_REJECTED + ": " && t[n..n + |cause|] == cause
  {
    hide TerminalReason, ReasonText, RESUME_REJECTED, LOGIN_ADVICE;
  }
}
