/** The injection throttle: a context injector may write a suggestion only
    when at least `intervalMs` milliseconds have passed since its previous
    injection. The monotonic clock the Rust code reads (`Instant::now`) is an
    explicit reading `now`, in whole milliseconds. */
module InjectorTriggers {
  import opened Base

  /** The interval `ContextInjector::default` uses. */
  const DefaultIntervalMs: nat := 5000

  /** The `injection_interval_ms` that `Config::new` supplies. */
  const ConfigInjectionIntervalMs: nat := 5000

  /** Milliseconds from `last` to `now`. Rust's `Instant::elapsed` saturates
      at zero when the clock reads earlier than `last`. */
  function Elapsed(last: nat, now: nat): (d: nat)
    ensures now >= last ==> last + d == now
    ensures now < last ==> d == 0
  {
    if now >= last then now - last else 0
  }

  /** `can_inject` over the injector's state: never injected, or injected at
      time `t` and at least `intervalMs` milliseconds have elapsed since. */
  function MayInject(intervalMs: nat, last: Option<nat>, now: nat): (ok: bool)
    ensures last.None? || intervalMs == 0 ==> ok
    ensures last.Some? && intervalMs > 0 ==> (ok <==> last.value + intervalMs <= now)
  {
    match last
    case None => true
    case Some(t) => Elapsed(t, now) >= intervalMs
  }

  /** A fresh injector may inject whatever the interval and the time. */
  lemma NeverInjectedMayInject(intervalMs: nat, now: nat)
    ensures MayInject(intervalMs, None, now)
  {
  }

  /** After an injection at `t`, injection is allowed again at `now >= t`
      exactly when `now - t` reaches the interval. */
  lemma MayInjectAfterMark(intervalMs: nat, t: nat, now: nat)
    requires t <= now
    ensures MayInject(intervalMs, Some(t), now) <==> now - t >= intervalMs
  {
  }

  /** Immediately after an injection a positive interval blocks the next one;
      a zero interval never blocks. */
  lemma BlockedRightAfterMark(intervalMs: nat, t: nat, now: nat)
    ensures intervalMs > 0 ==> !MayInject(intervalMs, Some(t), t)
    ensures intervalMs == 0 ==> MayInject(intervalMs, Some(t), now)
  {
  }

  /** Once injection is allowed it stays allowed at every later time, until
      the next `mark_injected`. */
  lemma MayInjectMonotone(intervalMs: nat, last: Option<nat>, now: nat, later: nat)
    requires now <= later
    requires MayInject(intervalMs, last, now)
    ensures MayInject(intervalMs, last, later)
  {
  }

  /** `ContextInjector::default` and `Config::new` agree on the interval. */
  lemma DefaultMatchesConfig()
    ensures DefaultIntervalMs == ConfigInjectionIntervalMs == 5000
  {
  }

  /** The state after a run of `mark_injected` calls at the given times. */
  function Replay(last: Option<nat>, marks: seq<nat>): (r: Option<nat>)
    ensures marks == [] ==> r == last
    ensures marks != [] ==> r.Some? && r.value in marks
    decreases |marks|
  {
    if marks == [] then last else Replay(Some(marks[0]), marks[1..])
  }

  /** Only the latest `mark_injected` is remembered. */
  lemma {:induction false} ReplayLast(last: Option<nat>, marks: seq<nat>)
    ensures Replay(last, marks) == if marks == [] then last else Some(marks[|marks| - 1])
    decreases |marks|
  {
    if marks != [] {
      ReplayLast(Some(marks[0]), marks[1..]);
    }
  }

  /** Clock readings taken in order. */
  predicate NonDecreasing(times: seq<nat>)
  {
    forall j, k :: 0 <= j <= k < |times| ==> times[j] <= times[k]
  }

  /** Every injection in `marks` was made only when `can_inject` allowed it. */
  predicate Guarded(intervalMs: nat, marks: seq<nat>)
  {
    forall k :: 0 <= k < |marks| ==> MayInject(intervalMs, Replay(None, marks[..k]), marks[k])
  }

  /** With a monotonic clock, `can_inject` holds after a run of injections
      exactly when at least the interval has passed since every one of them. */
  lemma MayInjectAfterRun(intervalMs: nat, marks: seq<nat>, now: nat)
    requires NonDecreasing(marks)
    requires forall k :: 0 <= k < |marks| ==> marks[k] <= now
    ensures MayInject(intervalMs, Replay(None, marks), now)
        <==> forall k :: 0 <= k < |marks| ==> now - marks[k] >= intervalMs
  {
    ReplayLast(None, marks);
  }

  /** The throttle's purpose: injections made only when `can_inject` allowed
      them, on a monotonic clock, are at least the interval apart. */
  lemma ThrottleSpacing(intervalMs: nat, marks: seq<nat>)
    requires NonDecreasing(marks)
    requires Guarded(intervalMs, marks)
    ensures forall k :: 0 < k < |marks| ==> marks[k] - marks[k - 1] >= intervalMs
  {
    forall k | 0 < k < |marks|
      ensures marks[k] - marks[k - 1] >= intervalMs
    {
      ReplayLast(None, marks[..k]);
      assert MayInject(intervalMs, Replay(None, marks[..k]), marks[k]);
    }
  }

  /** `ContextInjector`: the interval and the time of the last injection. */
  class ContextInjector {
    const intervalMs: nat
    var lastInjection: Option<nat>

    /** `ContextInjector::new`: never injected yet. */
    constructor (intervalMs: nat)
      ensures this.intervalMs == intervalMs && lastInjection == None
    {
      this.intervalMs := intervalMs;
      lastInjection := None;
    }

    /** `ContextInjector::default`: a 5000 ms interval. */
    constructor Default()
      ensures intervalMs == DefaultIntervalMs && lastInjection == None
    {
      intervalMs := DefaultIntervalMs;
      lastInjection := None;
    }

    /** `ContextInjector::can_inject` at clock reading `now`; reads the state
        and changes nothing. */
    method CanInject(now: nat) returns (r: bool)
      ensures r == MayInject(intervalMs, lastInjection, now)
    {
      match lastInjection
      case None =>
        r := true;
      case Some(t) =>
        r := Elapsed(t, now) >= intervalMs;
    }

    /** `ContextInjector::mark_injected` at clock reading `now`. */
    method MarkInjected(now: nat)
      modifies this
      ensures lastInjection == Some(now)
    {
      lastInjection := Some(now);
    }
  }
}
