/** The circuit breaker of `src/utils/circuitBreaker.js`.

    The wall clock is a parameter: `now` is the reading `fire` takes before
    deciding whether to let the call through, and a failed action carries the
    reading `recordFailure` takes after it (`failedAt`). The wrapped request
    action is replaced by its outcome for this call, `Success(v)` or
    `Failure(message, failedAt)`. The pure functions `AfterReset`, `AfterFailure` and
    `AfterFire` are the specification of the class's methods; the lemmas
    about them state the transition table and the state invariants. */
module Circuit {
  import opened Wrappers

  datatype State = Closed | Open | HalfOpen

  /** What the wrapped action does when it is invoked; a failure carries the
      clock reading at which it is recorded. */
  datatype Outcome<T> = Success(value: T) | Failure(message: string, failedAt: int)

  /** How a call to `fire` completes: it returns a value or throws an error. */
  datatype Fired<T> = Returned(value: T) | Raised(message: string)

  /** The fields that `fire`, `reset` and `recordFailure` mutate.
      `lastFailureTime` is `None` until the first failure (`null` in the source). */
  datatype Snapshot = Snapshot(state: State, failureCount: nat, lastFailureTime: Option<int>)

  /** The per-instance configuration fixed at construction. */
  datatype Config = Config(name: string, failureThreshold: int, resetTimeout: int)

  /** Constructor options; a missing option is `None`. */
  datatype Options = Options(failureThreshold: Option<int>, resetTimeout: Option<int>)

  const DefaultFailureThreshold := 3
  const DefaultResetTimeout := 10000

  /** JavaScript's `option || fallback` on a number: a missing option and 0 are
      both falsy and give the fallback. */
  function OrDefault(option: Option<int>, fallback: int): (r: int)
    ensures option == None || option == Some(0) ==> r == fallback
    ensures option.Some? && option.value != 0 ==> r == option.value
  {
    if option.Some? && option.value != 0 then option.value else fallback
  }

  function ConfigOf(name: string, options: Options): Config {
    Config(name, OrDefault(options.failureThreshold, DefaultFailureThreshold),
           OrDefault(options.resetTimeout, DefaultResetTimeout))
  }

  /** The state of a newly constructed breaker. */
  function Initial(): Snapshot {
    Snapshot(Closed, 0, None)
  }

  function OpenMessage(name: string): string {
    "Circuit " + name + " is OPEN. Request aborted to prevent system overload."
  }

  /** `now - lastFailureTime`, where JavaScript coerces a `null` timestamp to 0. */
  function Elapsed(s: Snapshot, now: int): int {
    now - (if s.lastFailureTime.Some? then s.lastFailureTime.value else 0)
  }

  /** The effect of `reset`. */
  function AfterReset(s: Snapshot): Snapshot {
    s.(state := Closed, failureCount := 0)
  }

  /** The effect of `recordFailure` at time `now`. */
  function AfterFailure(cfg: Config, s: Snapshot, now: int): Snapshot {
    var count := s.failureCount + 1;
    var state := if s.state == HalfOpen || count >= cfg.failureThreshold then Open else s.state;
    Snapshot(state, count, Some(now))
  }

  /** The guard at the top of `fire`: `None` when the call is rejected, otherwise
      the state in which the action is invoked (an expired `Open` becomes `HalfOpen`). */
  function Admission(cfg: Config, s: Snapshot, now: int): Option<Snapshot> {
    if s.state == Open then
      (if Elapsed(s, now) > cfg.resetTimeout then Some(s.(state := HalfOpen)) else None)
    else Some(s)
  }

  /** Whether `fire` invokes the wrapped action. */
  predicate Invokes(cfg: Config, s: Snapshot, now: int) {
    Admission(cfg, s, now).Some?
  }

  /** The new state and the completion of one call to `fire`. */
  function AfterFire<T>(cfg: Config, s: Snapshot, now: int, outcome: Outcome<T>): (Snapshot, Fired<T>) {
    match Admission(cfg, s, now)
    case None => (s, Raised(OpenMessage(cfg.name)))
    case Some(t) =>
      match outcome
      case Success(v) => (AfterReset(t), Returned(v))
      case Failure(m, at) => (AfterFailure(cfg, t, at), Raised(m))
  }

  /** The invariant every completed call keeps. */
  predicate Consistent(cfg: Config, s: Snapshot) {
    && s.state != HalfOpen
    && (s.state == Open ==> s.lastFailureTime.Some? && s.failureCount >= 1)
    && (cfg.failureThreshold >= 1 && s.state == Closed ==> s.failureCount < cfg.failureThreshold)
  }

  /** One call to `fire`. */
  datatype Call<T> = Call(now: int, outcome: Outcome<T>)

  /** The state after a sequence of calls, one after the other. */
  function Run<T>(cfg: Config, s: Snapshot, calls: seq<Call<T>>): Snapshot
    decreases |calls|
  {
    if |calls| == 0 then s
    else Run(cfg, AfterFire(cfg, s, calls[0].now, calls[0].outcome).0, calls[1..])
  }

  // ---------------------------------------------------------------------------
  // The transition table

  lemma NewBreakerIsClosed(name: string, options: Options)
    ensures Initial().state == Closed && Initial().failureCount == 0
    ensures ConfigOf(name, options).failureThreshold ==
            (if options.failureThreshold == None || options.failureThreshold == Some(0) then 3
             else options.failureThreshold.value)
    ensures ConfigOf(name, options).resetTimeout ==
            (if options.resetTimeout == None || options.resetTimeout == Some(0) then 10000
             else options.resetTimeout.value)
    ensures Consistent(ConfigOf(name, options), Initial())
  {
  }

  /** While open and not yet expired, `fire` throws the "is OPEN" error, does not
      invoke the action and changes nothing. */
  lemma RejectedWhileOpen<T>(cfg: Config, s: Snapshot, now: int, outcome: Outcome<T>)
    requires s.state == Open && Elapsed(s, now) <= cfg.resetTimeout
    ensures !Invokes(cfg, s, now)
    ensures AfterFire(cfg, s, now, outcome) == (s, Raised(OpenMessage(cfg.name)))
  {
  }

  /** Strictly after the reset timeout an open breaker lets the call through as a
      half-open trial: success closes it, failure reopens it at the failure's time. */
  lemma TrialAfterTimeout<T>(cfg: Config, s: Snapshot, now: int, outcome: Outcome<T>)
    requires s.state == Open && Elapsed(s, now) > cfg.resetTimeout
    ensures Invokes(cfg, s, now)
    ensures outcome.Success? ==>
      AfterFire(cfg, s, now, outcome) == (Snapshot(Closed, 0, s.lastFailureTime), Returned(outcome.value))
    ensures outcome.Failure? ==>
      AfterFire(cfg, s, now, outcome) == (Snapshot(Open, s.failureCount + 1, Some(outcome.failedAt)), Raised(outcome.message))
  {
  }

  /** Any invoked action that succeeds closes the breaker, zeroes the counter,
      keeps the last failure time and returns the action's value. */
  lemma SuccessCloses<T>(cfg: Config, s: Snapshot, now: int, v: T)
    requires Invokes(cfg, s, now)
    ensures AfterFire(cfg, s, now, Success(v)) == (Snapshot(Closed, 0, s.lastFailureTime), Returned(v))
  {
  }

  /** Any invoked action that fails counts exactly one more failure at its time,
      re-throws the action's error, and opens the breaker iff the call was a
      half-open trial or the count reached the threshold. */
  lemma FailureRecorded<T>(cfg: Config, s: Snapshot, now: int, message: string, failedAt: int)
    requires Invokes(cfg, s, now)
    ensures var (t, fired) := AfterFire(cfg, s, now, Outcome<T>.Failure(message, failedAt));
      && fired == Raised(message)
      && t.failureCount == s.failureCount + 1
      && t.lastFailureTime == Some(failedAt)
      && (t.state == Open <==> s.state != Closed || s.failureCount + 1 >= cfg.failureThreshold)
      && (t.state != Open ==> t.state == Closed)
  {
  }

  /** One call keeps the invariant, whatever it does. */
  lemma FireKeepsConsistent<T>(cfg: Config, s: Snapshot, now: int, outcome: Outcome<T>)
    requires Consistent(cfg, s)
    ensures Consistent(cfg, AfterFire(cfg, s, now, outcome).0)
  {
  }

  /** After any completed call, returned or thrown, the breaker is not half-open. */
  lemma {:induction false} NeverHalfOpenAfterRun<T>(cfg: Config, s: Snapshot, calls: seq<Call<T>>)
    requires |calls| > 0
    ensures Run(cfg, s, calls).state != HalfOpen
    decreases |calls|
  {
    if |calls| > 1 {
      NeverHalfOpenAfterRun(cfg, AfterFire(cfg, s, calls[0].now, calls[0].outcome).0, calls[1..]);
    }
  }

  /** Every sequence of calls keeps the invariant. */
  lemma {:induction false} RunKeepsConsistent<T>(cfg: Config, s: Snapshot, calls: seq<Call<T>>)
    requires Consistent(cfg, s)
    ensures Consistent(cfg, Run(cfg, s, calls))
    decreases |calls|
  {
    if |calls| > 0 {
      var t := AfterFire(cfg, s, calls[0].now, calls[0].outcome).0;
      FireKeepsConsistent(cfg, s, calls[0].now, calls[0].outcome);
      RunKeepsConsistent(cfg, t, calls[1..]);
    }
  }

  /** Failures from a closed breaker count up one by one; the breaker stays closed
      until the count reaches the threshold and is open exactly then. */
  lemma {:induction false} FailuresCountUp<T>(cfg: Config, s: Snapshot, calls: seq<Call<T>>)
    requires s.state == Closed && s.failureCount < cfg.failureThreshold
    requires s.failureCount + |calls| <= cfg.failureThreshold
    requires forall i :: 0 <= i < |calls| ==> calls[i].outcome.Failure?
    ensures Run(cfg, s, calls).failureCount == s.failureCount + |calls|
    ensures Run(cfg, s, calls).state == (if s.failureCount + |calls| == cfg.failureThreshold then Open else Closed)
    ensures |calls| > 0 ==> Run(cfg, s, calls).lastFailureTime == Some(calls[|calls| - 1].outcome.failedAt)
    decreases |calls|
  {
    if |calls| > 0 {
      var t := AfterFire(cfg, s, calls[0].now, calls[0].outcome).0;
      assert t.failureCount == s.failureCount + 1 && t.lastFailureTime == Some(calls[0].outcome.failedAt);
      if |calls| > 1 {
        FailuresCountUp(cfg, t, calls[1..]);
        assert calls[1..][|calls[1..]| - 1] == calls[|calls| - 1];
      }
    }
  }

  /** A new breaker opens after exactly `failureThreshold` consecutive failures,
      and not before. */
  lemma ThresholdFailuresOpen<T>(cfg: Config, calls: seq<Call<T>>)
    requires cfg.failureThreshold >= 1 && |calls| <= cfg.failureThreshold
    requires forall i :: 0 <= i < |calls| ==> calls[i].outcome.Failure?
    ensures Run(cfg, Initial(), calls).state == Open <==> |calls| == cfg.failureThreshold
    ensures Run(cfg, Initial(), calls).failureCount == |calls|
  {
    FailuresCountUp(cfg, Initial(), calls);
  }

  /** Calls made while open and not yet expired are all rejected and change nothing. */
  lemma {:induction false} OpenAbsorbsEarlyCalls<T>(cfg: Config, s: Snapshot, calls: seq<Call<T>>)
    requires s.state == Open
    requires forall i :: 0 <= i < |calls| ==> Elapsed(s, calls[i].now) <= cfg.resetTimeout
    ensures Run(cfg, s, calls) == s
    decreases |calls|
  {
    if |calls| > 0 {
      assert AfterFire(cfg, s, calls[0].now, calls[0].outcome).0 == s;
      OpenAbsorbsEarlyCalls(cfg, s, calls[1..]);
    }
  }

  /** A run followed by one more call is that call applied to the run's state. */
  lemma {:induction false} RunAppend<T>(cfg: Config, s: Snapshot, calls: seq<Call<T>>, c: Call<T>)
    ensures Run(cfg, s, calls + [c]) == AfterFire(cfg, Run(cfg, s, calls), c.now, c.outcome).0
    decreases |calls|
  {
    if |calls| == 0 {
      assert ([] + [c])[1..] == [];
    } else {
      assert (calls + [c])[0] == calls[0];
      assert (calls + [c])[1..] == calls[1..] + [c];
      RunAppend(cfg, AfterFire(cfg, s, calls[0].now, calls[0].outcome).0, calls[1..], c);
    }
  }

  // ---------------------------------------------------------------------------
  // The mutable breaker

  class CircuitBreaker {
    const name: string
    const failureThreshold: int
    const resetTimeout: int
    var state: State
    var failureCount: nat
    var lastFailureTime: Option<int>

    function Cfg(): Config {
      Config(name, failureThreshold, resetTimeout)
    }

    function Current(): Snapshot
      reads this
    {
      Snapshot(state, failureCount, lastFailureTime)
    }

    ghost predicate Valid()
      reads this
    {
      Consistent(Cfg(), Current())
    }

    constructor (name: string, options: Options)
      ensures Cfg() == ConfigOf(name, options)
      ensures Current() == Initial()
      ensures Valid()
    {
      this.name := name;
      state := Closed;
      failureThreshold := OrDefault(options.failureThreshold, DefaultFailureThreshold);
      resetTimeout := OrDefault(options.resetTimeout, DefaultResetTimeout);
      failureCount := 0;
      lastFailureTime := None;
    }

    /** Runs one call through the breaker; `invoked` tells whether the wrapped
        action ran. */
    method Fire<T>(now: int, outcome: Outcome<T>) returns (result: Fired<T>, invoked: bool)
      modifies this
      ensures (Current(), result) == AfterFire(Cfg(), old(Current()), now, outcome)
      ensures invoked == Invokes(Cfg(), old(Current()), now)
      ensures old(Valid()) ==> Valid()
      ensures state != HalfOpen
    {
      if state == Open {
        var since := if lastFailureTime.Some? then lastFailureTime.value else 0;
        if now - since > resetTimeout {
          state := HalfOpen;
        } else {
          return Raised(OpenMessage(name)), false;
        }
      }
      invoked := true;
      match outcome
      case Success(v) =>
        Reset();
        result := Returned(v);
      case Failure(m, at) =>
        RecordFailure(at);
        result := Raised(m);
    }

    method Reset()
      modifies this
      ensures Current() == AfterReset(old(Current()))
      ensures old(Valid()) ==> Valid()
    {
      failureCount := 0;
      state := Closed;
    }

    method RecordFailure(now: int)
      modifies this
      ensures Current() == AfterFailure(Cfg(), old(Current()), now)
      ensures old(Valid()) ==> Valid()
    {
      failureCount := failureCount + 1;
      lastFailureTime := Some(now);
      if state == HalfOpen || failureCount >= failureThreshold {
        state := Open;
      }
    }
  }
}
