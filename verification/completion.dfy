/**
 * `waitForVideoCompletion`: an interval callback once a second and a
 * mutation-observer callback share three variables (`attempts`,
 * `foundVideoUrl`, `videoFoundTime`) and together settle a promise. Timers
 * and DOM mutations become a sequence of events, each carrying the clock
 * reading and what `findVideoUrl` returned at that moment.
 */
module Completion {
  import opened Wrappers

  /** The interval callback gives up after this many runs (three minutes). */
  const MaxAttempts: nat := 180
  /** A URL must stay unchanged this long (ms) before it is accepted. */
  const StabilizationMs: int := 10000
  /** Error indicators on the page are ignored until more ticks than this have run. */
  const ErrorGraceAttempts: nat := 30

  datatype Event =
    /** A run of the interval callback: the clock, `findVideoUrl()`, whether error indicators are on the page, and `shouldStop`. */
    | Tick(now: int, url: Option<string>, errorOnPage: bool, stop: bool)
    /** A run of the mutation-observer callback. */
    | Mutation(now: int, url: Option<string>)

  /**
   * The shared variables, and how the promise was settled: `outcome` is
   * `None` while pending and `Some(v)` once resolved with `v` (`None` being
   * `null`). `connected` says whether the mutation observer is still
   * attached: the interval callback disconnects it on every way of settling
   * except the stop, so after a stop the observer goes on replacing the URL.
   */
  datatype State = State(attempts: nat, found: Option<string>, foundAt: Option<int>,
                         outcome: Option<Option<string>>, connected: bool)

  function Start(): State {
    State(0, None, None, None, true)
  }

  /** `videoUrl && videoUrl !== foundVideoUrl`. */
  predicate IsNewUrl(url: Option<string>, found: Option<string>) {
    url.Some? && url.value != "" && url != found
  }

  /** Both callbacks: a new URL replaces the held one and restarts the clock. */
  function Observe(s: State, now: int, url: Option<string>): State {
    if IsNewUrl(url, s.found) then s.(found := url, foundAt := Some(now)) else s
  }

  /** `foundVideoUrl && videoFoundTime` and at least the stabilisation time since. */
  predicate Stable(s: State, now: int) {
    s.found.Some? && s.foundAt.Some? && now - s.foundAt.value >= StabilizationMs
  }

  /**
   * One callback. The interval is cleared once the promise is settled, so
   * later ticks do nothing; the observer runs for as long as it is
   * connected, whether or not the promise is settled.
   */
  function Step(s: State, e: Event): State {
    match e
    case Mutation(now, url) => if s.connected then Observe(s, now, url) else s
    case Tick(now, url, errorOnPage, stop) =>
      if s.outcome.Some? then s
      else if stop then s.(outcome := Some(None))
      else
        var t := Observe(s.(attempts := s.attempts + 1), now, url);
        if Stable(t, now) then t.(outcome := Some(t.found), connected := false)
        else if errorOnPage && t.attempts > ErrorGraceAttempts then t.(outcome := Some(None), connected := false)
        else if t.attempts >= MaxAttempts then t.(outcome := Some(t.found), connected := false)
        else t
  }

  /** The callbacks `es`, in order, from state `s`. */
  function Run(s: State, es: seq<Event>): State
    decreases |es|
  {
    if es == [] then s else Step(Run(s, es[..|es| - 1]), es[|es| - 1])
  }

  function TickCount(es: seq<Event>): nat
    decreases |es|
  {
    if es == [] then 0 else TickCount(es[..|es| - 1]) + (if es[|es| - 1].Tick? then 1 else 0)
  }

  /**
   * What holds after any sequence of callbacks: a URL is held exactly when
   * its time is; while pending, the observer is connected, `attempts`
   * counts the ticks and is below 180; an observer still connected after
   * settlement means the promise was resolved with `null`; a URL result is
   * the held URL, which no longer changes.
   */
  ghost predicate Inv(s: State, es: seq<Event>) {
    && (s.found.Some? <==> s.foundAt.Some?)
    && (s.found.Some? ==> s.found.value != "")
    && (s.outcome.None? ==> s.connected && s.attempts == TickCount(es) && s.attempts < MaxAttempts)
    && (s.outcome.Some? && s.connected ==> s.outcome == Some(None))
    && (s.outcome.Some? && s.outcome.value.Some? ==> s.outcome.value == s.found && !s.connected)
  }

  lemma {:induction false} RunInvariant(es: seq<Event>)
    ensures Inv(Run(Start(), es), es)
    decreases |es|
  {
    if es != [] {
      var prefix := es[..|es| - 1];
      RunInvariant(prefix);
    }
  }

  /** The watcher never waits past 180 ticks: by then the promise is settled. */
  lemma TimesOut(es: seq<Event>)
    requires TickCount(es) >= MaxAttempts
    ensures Run(Start(), es).outcome.Some?
  {
    RunInvariant(es);
  }

  /**
   * A settled promise stays settled, with the same value, and the interval
   * runs no more: the attempt count is frozen.
   */
  lemma {:induction false} SettledIsFinal(s: State, es: seq<Event>)
    requires s.outcome.Some?
    ensures Run(s, es).outcome == s.outcome && Run(s, es).attempts == s.attempts
    ensures Run(s, es).connected == s.connected
    decreases |es|
  {
    if es != [] {
      SettledIsFinal(s, es[..|es| - 1]);
    }
  }

  /** Once the observer is disconnected as well, later callbacks change nothing at all. */
  lemma {:induction false} DisconnectedIsFinal(s: State, es: seq<Event>)
    requires s.outcome.Some? && !s.connected
    ensures Run(s, es) == s
    decreases |es|
  {
    if es != [] {
      DisconnectedIsFinal(s, es[..|es| - 1]);
    }
  }

  /**
   * Settling by a stable URL, by error indicators or by the timeout
   * disconnects the observer; settling by a stop leaves it connected, so
   * a new URL seen afterwards still replaces the held one.
   */
  lemma StopLeavesObserverConnected(s: State, now: int, url: Option<string>, errorOnPage: bool, stop: bool,
                                    later: int, b: string)
    requires s.outcome.None? && s.connected
    ensures var t := Step(s, Tick(now, url, errorOnPage, stop));
      t.outcome.Some? ==> (t.connected <==> stop)
    ensures stop && b != "" && s.found != Some(b) ==>
      var t := Step(Step(s, Tick(now, url, errorOnPage, stop)), Mutation(later, Some(b)));
      t.outcome == Some(None) && t.found == Some(b) && t.foundAt == Some(later)
  {
  }

  /**
   * A `null` result comes only from `shouldStop`, from error indicators
   * seen after the 30-tick grace period, or from the timeout with no URL
   * held; and an error indicator before the grace period ends changes
   * nothing.
   */
  lemma NullResolution(s: State, now: int, url: Option<string>, errorOnPage: bool, stop: bool)
    requires s.outcome.None?
    ensures var t := Step(s, Tick(now, url, errorOnPage, stop));
      t.outcome == Some(None) ==>
        stop || (errorOnPage && t.attempts > ErrorGraceAttempts) || (t.attempts >= MaxAttempts && t.found.None?)
    ensures s.attempts < ErrorGraceAttempts ==>
      Step(s, Tick(now, url, errorOnPage, stop)) == Step(s, Tick(now, url, false, stop))
  {
  }

  /** A quiet callback for URL `a`: it sees nothing or `a` itself, and (a tick) neither a stop nor an error. */
  predicate Quiet(e: Event, a: string) {
    (e.url.None? || e.url == Some(a)) && (e.Tick? ==> !e.stop && !e.errorOnPage)
  }

  /**
   * Stabilisation: once `a` is held since `t0`, quiet callbacks (including
   * ones that see nothing) never move the clock. The promise is then
   * settled with `a` by the first tick at least 10 s after `t0`, and not
   * before unless 180 ticks have run.
   */
  lemma {:induction false} Stabilizes(s: State, es: seq<Event>, a: string, t0: int)
    requires s.outcome.None? && s.found == Some(a) && s.foundAt == Some(t0)
    requires forall k :: 0 <= k < |es| ==> Quiet(es[k], a)
    ensures var r := Run(s, es);
      && r.found == Some(a) && r.foundAt == Some(t0)
      && (r.outcome.None? || r.outcome == Some(Some(a)))
    ensures |es| > 0 && es[|es| - 1].Tick? && es[|es| - 1].now - t0 >= StabilizationMs ==>
      Run(s, es).outcome == Some(Some(a))
    ensures ((forall k :: 0 <= k < |es| && es[k].Tick? ==> es[k].now - t0 < StabilizationMs)
             && s.attempts + TickCount(es) < MaxAttempts) ==>
      Run(s, es).outcome.None? && Run(s, es).attempts == s.attempts + TickCount(es)
    decreases |es|
  {
    if es != [] {
      var prefix := es[..|es| - 1];
      assert forall k :: 0 <= k < |prefix| ==> prefix[k] == es[k];
      Stabilizes(s, prefix, a, t0);
    }
  }

  /**
   * A different URL restarts the clock: after `a` (held since `t0`) is
   * replaced by `b` at `t1`, quiet callbacks for `b` settle on `b`, and a
   * tick 10 s after `t0` but less than 10 s after `t1` does not settle.
   */
  lemma NewUrlRestartsClock(s: State, t1: int, b: string, es: seq<Event>)
    requires s.outcome.None? && s.connected && s.found != Some(b) && b != ""
    requires forall k :: 0 <= k < |es| ==> Quiet(es[k], b)
    ensures var t := Step(s, Mutation(t1, Some(b)));
      t.found == Some(b) && t.foundAt == Some(t1) && t.outcome.None? && t.attempts == s.attempts
    ensures var r := Run(Step(s, Mutation(t1, Some(b))), es);
      r.found == Some(b) && r.foundAt == Some(t1) && (r.outcome.None? || r.outcome == Some(Some(b)))
    ensures ((forall k :: 0 <= k < |es| && es[k].Tick? ==> es[k].now - t1 < StabilizationMs)
             && s.attempts + TickCount(es) < MaxAttempts) ==>
      Run(Step(s, Mutation(t1, Some(b))), es).outcome.None?
  {
    Stabilizes(Step(s, Mutation(t1, Some(b))), es, b, t1);
  }

  /** The closure's variables and the interval/observer callbacks, as they update them. */
  class Watcher {
    var attempts: nat
    var foundVideoUrl: Option<string>
    var videoFoundTime: Option<int>
    /** How the promise was settled; `None` while pending. */
    var resolved: Option<Option<string>>
    /** Whether `observer` is still observing the page. */
    var observing: bool

    function Current(): State
      reads this
    {
      State(attempts, foundVideoUrl, videoFoundTime, resolved, observing)
    }

    constructor ()
      ensures Current() == Start()
    {
      attempts := 0;
      foundVideoUrl := None;
      videoFoundTime := None;
      resolved := None;
      observing := true;
    }

    /** The mutation-observer callback. */
    method OnMutation(now: int, videoUrl: Option<string>)
      modifies this
      ensures Current() == Step(old(Current()), Mutation(now, videoUrl))
    {
      if !observing {
        return;
      }
      if videoUrl.Some? && videoUrl.value != "" && videoUrl != foundVideoUrl {
        foundVideoUrl := videoUrl;
        videoFoundTime := Some(now);
      }
    }

    /** The interval callback. */
    method OnTick(now: int, videoUrl: Option<string>, errorOnPage: bool, shouldStop: bool)
      modifies this
      ensures Current() == Step(old(Current()), Tick(now, videoUrl, errorOnPage, shouldStop))
    {
      if resolved.Some? {
        return;
      }
      if shouldStop {
        resolved := Some(None);
        return;
      }
      attempts := attempts + 1;
      if videoUrl.Some? && videoUrl.value != "" && videoUrl != foundVideoUrl {
        foundVideoUrl := videoUrl;
        videoFoundTime := Some(now);
      }
      if foundVideoUrl.Some? && videoFoundTime.Some? && now - videoFoundTime.value >= StabilizationMs {
        observing := false;
        resolved := Some(foundVideoUrl);
        return;
      }
      if errorOnPage && attempts > ErrorGraceAttempts {
        observing := false;
        resolved := Some(None);
        return;
      }
      if attempts >= MaxAttempts {
        observing := false;
        resolved := Some(foundVideoUrl);
      }
    }
  }
}
