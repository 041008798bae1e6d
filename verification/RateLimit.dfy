// The sliding-window rate limit of the four e-mail flows.
module RateLimit {
  import opened Wrappers
  import opened Text

  datatype Action = RegisterAction | LoginAction | PasswordReset | VerificationResend
  datatype Attempt = Attempt(identifier: string, action: Action, at: int)

  // RATE_LIMITS: (max_attempts, window_seconds)
  function MaxAttempts(a: Action): nat {
    match a case RegisterAction => 5 case LoginAction => 10 case PasswordReset => 3 case VerificationResend => 3
  }

  function WindowSeconds(a: Action): nat {
    match a case RegisterAction => 3600 case LoginAction => 900 case PasswordReset => 3600 case VerificationResend => 3600
  }

  // SELECT COUNT(*) ... WHERE identifier = LOWER($1) AND action = $2 AND attempt_at > $3
  function CountSince(log: seq<Attempt>, identifier: string, a: Action, start: int): nat {
    if log == [] then 0
    else
      var x := log[|log| - 1];
      CountSince(log[..|log| - 1], identifier, a, start)
      + if x.identifier == Lower(identifier) && x.action == a && x.at > start then 1 else 0
  }

  predicate Limited(log: seq<Attempt>, identifier: string, a: Action, now: int) {
    CountSince(log, identifier, a, now - WindowSeconds(a)) >= MaxAttempts(a)
  }

  // ---- The calls ----

  // What happens once the rate limit lets a call through.
  datatype RegisterOutcome = Invalid | EmailTaken | LostRace | Registered
  datatype ResendOutcome = NoUser | AlreadyVerified | Resent
  datatype Call =
    | Register(outcome: RegisterOutcome)
    | Login(success: bool)
    | Resend(resend: ResendOutcome)
    | RequestReset(userExists: bool)

  function ActionOf(c: Call): Action {
    match c
    case Register(_) => RegisterAction
    case Login(_) => LoginAction
    case Resend(_) => VerificationResend
    case RequestReset(_) => PasswordReset
  }

  // Which exits of each service method record an attempt.
  predicate Records(c: Call) {
    match c
    case Register(outcome) => outcome == EmailTaken || outcome == Registered
    case Login(_) => true
    case Resend(outcome) => outcome == Resent
    case RequestReset(_) => true
  }

  function Handle(log: seq<Attempt>, email: string, ip: Option<string>, now: int, c: Call): (seq<Attempt>, bool) {
    var id, a := Lower(email), ActionOf(c);
    if Limited(log, id, a, now) || (ip.Some? && ip.value != "" && Limited(log, ip.value, a, now)) then (log, false)
    else if Records(c) then (log + [Attempt(Lower(id), a, now)], true)
    else (log, true)
  }

  class AuthService {
    var log: seq<Attempt>

    method FetchRateLimitCount(identifier: string, a: Action, start: int) returns (count: nat)
      ensures count == CountSince(log, identifier, a, start)
    {
      count := 0;
      assert log[..0] == [];
      for i := 0 to |log|
        invariant count == CountSince(log[..i], identifier, a, start)
      {
        assert log[..i + 1][..i] == log[..i];
        if log[i].identifier == Lower(identifier) && log[i].action == a && log[i].at > start {
          count := count + 1;
        }
      }
      assert log[..|log|] == log;
    }

    method CheckRateLimit(identifier: string, a: Action, now: int) returns (allowed: bool)
      ensures allowed <==> !Limited(log, identifier, a, now)
    {
      var count := FetchRateLimitCount(identifier, a, now - WindowSeconds(a));
      allowed := count < MaxAttempts(a);
    }

    method RecordAttempt(identifier: string, a: Action, now: int)
      modifies this
      ensures log == old(log) + [Attempt(Lower(identifier), a, now)]
    {
      log := log + [Attempt(Lower(identifier), a, now)];
    }

    method CheckBoth(id: string, ip: Option<string>, a: Action, now: int) returns (allowed: bool)
      ensures allowed <==> !(Limited(log, id, a, now) || (ip.Some? && ip.value != "" && Limited(log, ip.value, a, now)))
    {
      allowed := CheckRateLimit(id, a, now);
      if allowed && ip.Some? && ip.value != "" {
        allowed := CheckRateLimit(ip.value, a, now);
      }
    }

    method RegisterUser(email: string, ip: Option<string>, now: int, outcome: RegisterOutcome) returns (allowed: bool)
      modifies this
      ensures (log, allowed) == Handle(old(log), email, ip, now, Register(outcome))
    {
      var identifier := Lower(email);
      allowed := CheckBoth(identifier, ip, RegisterAction, now);
      if !allowed || outcome == Invalid {
        return;
      }
      if outcome == EmailTaken {
        RecordAttempt(identifier, RegisterAction, now);
        return;
      }
      if outcome == LostRace {
        return;  // the insert failed: EmailAlreadyExistsError without a record
      }
      RecordAttempt(identifier, RegisterAction, now);
    }

    method LoginUser(email: string, ip: Option<string>, now: int, success: bool) returns (allowed: bool)
      modifies this
      ensures (log, allowed) == Handle(old(log), email, ip, now, Login(success))
    {
      var identifier := Lower(email);
      allowed := CheckBoth(identifier, ip, LoginAction, now);
      if allowed {
        RecordAttempt(identifier, LoginAction, now);
      }
    }

    method ResendVerification(email: string, ip: Option<string>, now: int, outcome: ResendOutcome) returns (allowed: bool)
      modifies this
      ensures (log, allowed) == Handle(old(log), email, ip, now, Resend(outcome))
    {
      var identifier := Lower(email);
      allowed := CheckBoth(identifier, ip, VerificationResend, now);
      if !allowed || outcome == NoUser || outcome == AlreadyVerified {
        return;
      }
      RecordAttempt(identifier, VerificationResend, now);
    }

    method RequestPasswordReset(email: string, ip: Option<string>, now: int, userExists: bool) returns (allowed: bool)
      modifies this
      ensures (log, allowed) == Handle(old(log), email, ip, now, RequestReset(userExists))
    {
      var identifier := Lower(email);
      allowed := CheckBoth(identifier, ip, PasswordReset, now);
      if allowed {
        RecordAttempt(identifier, PasswordReset, now);
      }
    }
  }

  // ---- Which calls are refused, and which leave an attempt ----

  // The attempts of one key later than start.
  function AttemptsSince(log: seq<Attempt>, key: string, a: Action, start: int): set<nat> {
    set i: nat | i < |log| && log[i].identifier == key && log[i].action == a && log[i].at > start
  }

  // RATE_LIMITS, attempts per seconds.
  ghost predicate WindowFull(log: seq<Attempt>, key: string, a: Action, now: int) {
    match a
    case RegisterAction => |AttemptsSince(log, key, a, now - 3600)| >= 5
    case LoginAction => |AttemptsSince(log, key, a, now - 900)| >= 10
    case PasswordReset => |AttemptsSince(log, key, a, now - 3600)| >= 3
    case VerificationResend => |AttemptsSince(log, key, a, now - 3600)| >= 3
  }

  lemma OneMoreAttempt(log: seq<Attempt>, x: Attempt, key: string, a: Action, start: int)
    ensures |AttemptsSince(log + [x], key, a, start)| == |AttemptsSince(log, key, a, start)|
              + if x.identifier == key && x.action == a && x.at > start then 1 else 0
  {
    assert AttemptsSince(log + [x], key, a, start) == AttemptsSince(log, key, a, start)
             + if x.identifier == key && x.action == a && x.at > start then {|log|} else {};
  }

  lemma {:induction false} CountIsAttempts(log: seq<Attempt>, identifier: string, a: Action, start: int)
    ensures CountSince(log, identifier, a, start) == |AttemptsSince(log, Lower(identifier), a, start)|
  {
    if log != [] {
      var last := |log| - 1;
      CountIsAttempts(log[..last], identifier, a, start);
      OneMoreAttempt(log[..last], log[last], Lower(identifier), a, start);
      assert log[..last] + [log[last]] == log;
    }
  }

  lemma LimitedIff(log: seq<Attempt>, identifier: string, a: Action, now: int)
    ensures Limited(log, identifier, a, now) <==> WindowFull(log, Lower(identifier), a, now)
  {
    CountIsAttempts(log, identifier, a, now - WindowSeconds(a));
  }

  // A call is refused exactly when the window of its e-mail, or of the address it comes from, is
  // full for its action.
  lemma RefusedIff(log: seq<Attempt>, email: string, ip: Option<string>, now: int, c: Call)
    ensures !Handle(log, email, ip, now, c).1 <==>
              WindowFull(log, Lower(email), ActionOf(c), now)
              || (ip.Some? && ip.value != "" && WindowFull(log, Lower(ip.value), ActionOf(c), now))
  {
    LowerTwice(email);
    LimitedIff(log, Lower(email), ActionOf(c), now);
    if ip.Some? {
      LimitedIff(log, ip.value, ActionOf(c), now);
    }
  }

  // An admitted call leaves one attempt of its e-mail and action, except a registration with
  // invalid data or one that loses the race for its address, and a resend with nobody to verify.
  lemma AttemptLeftIff(log: seq<Attempt>, email: string, ip: Option<string>, now: int, c: Call)
    requires Handle(log, email, ip, now, c).1
    ensures Handle(log, email, ip, now, c).0 ==
              if c in {Register(Invalid), Register(LostRace), Resend(NoUser), Resend(AlreadyVerified)} then log
              else log + [Attempt(Lower(email),
                                  match c
                                  case Register(_) => RegisterAction
                                  case Login(_) => LoginAction
                                  case Resend(_) => VerificationResend
                                  case RequestReset(_) => PasswordReset,
                                  now)]
  {
    LowerTwice(email);
  }

  // ---- The window bound ----

  // Attempts of one key in the window (start, end].
  function CountBetween(log: seq<Attempt>, key: string, a: Action, start: int, end: int): nat {
    if log == [] then 0
    else
      var x := log[|log| - 1];
      CountBetween(log[..|log| - 1], key, a, start, end)
      + if x.identifier == key && x.action == a && start < x.at <= end then 1 else 0
  }

  // Each attempt came at a time no earlier than its predecessors and found room in its window.
  ghost predicate Admitted(log: seq<Attempt>) {
    log == [] ||
    var before, x := log[..|log| - 1], log[|log| - 1];
    && Admitted(before) && (forall i :: 0 <= i < |before| ==> before[i].at <= x.at)
    && x.identifier == Lower(x.identifier) && !Limited(before, x.identifier, x.action, x.at)
  }

  datatype Request = Request(email: string, ip: Option<string>, at: int, call: Call)

  ghost predicate ClockOrder(requests: seq<Request>) {
    forall i, j :: 0 <= i < j < |requests| ==> requests[i].at <= requests[j].at
  }

  function Serve(log: seq<Attempt>, requests: seq<Request>): seq<Attempt>
    decreases requests
  {
    if requests == [] then log
    else var r := requests[0]; Serve(Handle(log, r.email, r.ip, r.at, r.call).0, requests[1..])
  }

  ghost predicate NoLater(log: seq<Attempt>, requests: seq<Request>) {
    forall i, j :: 0 <= i < |log| && 0 <= j < |requests| ==> log[i].at <= requests[j].at
  }

  lemma AttemptAdmits(log: seq<Attempt>, x: Attempt)
    requires Admitted(log) && forall i :: 0 <= i < |log| ==> log[i].at <= x.at
    requires x.identifier == Lower(x.identifier) && !Limited(log, x.identifier, x.action, x.at)
    ensures Admitted(log + [x]) && forall i :: 0 <= i < |log + [x]| ==> (log + [x])[i].at <= x.at
  {
    var log' := log + [x];
    assert log'[..|log|] == log && log'[|log|] == x;
  }

  lemma HandleAdmits(log: seq<Attempt>, r: Request)
    requires Admitted(log) && forall i :: 0 <= i < |log| ==> log[i].at <= r.at
    ensures var log' := Handle(log, r.email, r.ip, r.at, r.call).0;
            Admitted(log') && forall i :: 0 <= i < |log'| ==> log'[i].at <= r.at
  {
    var id := Lower(r.email);
    LowerTwice(r.email);
    if !Limited(log, id, ActionOf(r.call), r.at) {
      AttemptAdmits(log, Attempt(id, ActionOf(r.call), r.at));
    }
  }

  lemma {:induction false} ServeAdmits(log: seq<Attempt>, requests: seq<Request>)
    requires Admitted(log) && ClockOrder(requests) && NoLater(log, requests)
    ensures Admitted(Serve(log, requests))
    decreases requests
  {
    if requests != [] {
      var r := requests[0];
      var log' := Handle(log, r.email, r.ip, r.at, r.call).0;
      HandleAdmits(log, r);
      forall i, j | 0 <= i < |log'| && 0 <= j < |requests[1..]| ensures log'[i].at <= requests[1..][j].at {
        assert requests[0].at <= requests[j + 1].at;
      }
      ServeAdmits(log', requests[1..]);
    }
  }

  lemma {:induction false} CountWithin(log: seq<Attempt>, key: string, a: Action, start: int, end: int, since: int)
    requires key == Lower(key) && since <= start
    ensures CountBetween(log, key, a, start, end) <= CountSince(log, key, a, since)
  {
    if log != [] {
      CountWithin(log[..|log| - 1], key, a, start, end, since);
    }
  }

  lemma {:induction false} WindowBound(log: seq<Attempt>, key: string, a: Action, t: int)
    requires Admitted(log)
    ensures CountBetween(log, key, a, t - WindowSeconds(a), t) <= MaxAttempts(a)
  {
    if log != [] {
      var before, x := log[..|log| - 1], log[|log| - 1];
      WindowBound(before, key, a, t);
      if x.identifier == key && x.action == a && x.at <= t {
        CountWithin(before, key, a, t - WindowSeconds(a), t, x.at - WindowSeconds(a));
      }
    }
  }

  // In every run with a clock that does not go back, every window (t - W, t] holds at most
  // max_attempts recorded attempts per identifier, for each of the four actions.
  lemma SlidingWindow(requests: seq<Request>, key: string, a: Action, t: int)
    requires ClockOrder(requests)
    ensures CountBetween(Serve([], requests), key, a, t - WindowSeconds(a), t) <= MaxAttempts(a)
  {
    ServeAdmits([], requests);
    WindowBound(Serve([], requests), key, a, t);
  }
}
