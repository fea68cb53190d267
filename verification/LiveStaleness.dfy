/** How old what the page shows can get, while it is visible, its timer runs and its requests settle. */
module LiveStaleness {
  import opened Wire
  import opened LiveModel

  const TICK := 1000.0
  const REQUEST := 8000.0
  const LONGEST_RETRY := 45000.0

  /** What the bounds speak of: the last tick, when the awaited request was made, when the last awaited one settled
      and whether the stream was healthy then, and when the last stream was lost. */
  datatype Clock = Clock(now: real, tick: real, asked: real, settled: real, wasHealthy: bool, lost: real)

  /** The page stays started and visible, and nothing replaces a request before it settles. */
  predicate Quiet(t: Transport, a: Action) {
    && !a.Starts? && !a.Stops? && !a.Resumes? && !a.Changes? && !a.ComesOnline?
    && (a == Refreshes(true) ==> t.pending.None?)
    && !(a.Answers? && a.answer.NotFound? && t.pending == Some(a.id))
  }

  /** Time does not go back, nor more than a second past the last tick, nor past the deadline of a request. */
  predicate OnTime(t: Transport, k: Clock, at: real) {
    k.now <= at <= k.tick + TICK && (t.pending.Some? ==> at <= k.asked + REQUEST)
  }

  predicate Steady(t: Transport, k: Clock, m: Move) {
    Enabled(t, m.action) && Quiet(t, m.action) && OnTime(t, k, m.at)
  }

  predicate Settles(t: Transport, a: Action) {
    a.Finishes? && t.pending == Some(a.id)
  }

  function Observed(t: Transport, k: Clock, m: Move): Clock {
    var t1 := Act(t, m.action, m.at);
    Clock(m.at,
          if m.action.Ticks? then m.at else k.tick,
          if t1.pending.Some? && t1.pending != t.pending then m.at else k.asked,
          if Settles(t, m.action) then m.at else k.settled,
          if Settles(t, m.action) then t.healthy else k.wasHealthy,
          if t.es.Some? && t1.es != t.es then m.at else k.lost)
  }

  predicate SteadyRun(t: Transport, k: Clock, run: seq<Move>)
    decreases run
  {
    run == [] || (Steady(t, k, run[0])
                  && SteadyRun(Act(t, run[0].action, run[0].at), Observed(t, k, run[0]), run[1..]))
  }

  function Pace(k: Clock): real {
    if k.wasHealthy then POLL_HEALTHY else POLL_DEGRADED
  }

  predicate Polling(t: Transport, k: Clock) {
    if t.pending.Some? then k.asked <= k.settled + Pace(k) + TICK
    else t.nextPoll <= k.settled + Pace(k) && k.tick <= k.settled + Pace(k)
  }

  predicate Watched(t: Transport, k: Clock) {
    if t.es.None? then !t.healthy && t.nextConnect <= k.lost + LONGEST_RETRY && k.tick <= k.lost + LONGEST_RETRY
    else if t.healthy then k.tick <= t.lastHeard + SILENT_STREAM
    else k.tick < t.openedAt + SILENT_START
  }

  predicate Fresh(t: Transport, k: Clock) {
    && !t.stopped && !t.hidden && 0.0 <= k.settled <= k.now && k.tick <= k.now
    && 0.0 <= t.retryDelay <= LAST_RETRY
    && Polling(t, k) && Watched(t, k)
  }

  lemma ProductNotNegative(x: real, y: real)
    requires x >= 0.0 && y >= 0.0
    ensures x * y >= 0.0
  {
  }

  lemma JitterBounds(delay: real, jitter: real)
    requires 0.0 <= delay <= LAST_RETRY && 0.5 <= jitter < 1.5
    ensures Jittered(delay, jitter) <= LONGEST_RETRY
  {
    ProductNotNegative(delay, 1.5 - jitter);
    assert delay * 1.5 - delay * jitter == delay * (1.5 - jitter);
  }

  lemma TickFresh(t: Transport, k: Clock, m: Move)
    requires Fresh(t, k) && Steady(t, k, m) && m.action.Ticks?
    ensures Fresh(Act(t, m.action, m.at), Observed(t, k, m))
  {
  }

  lemma StreamFresh(t: Transport, k: Clock, m: Move)
    requires Fresh(t, k) && Steady(t, k, m)
    requires var a := m.action; a.StreamSays? || a.StreamPings? || a.StreamReacts? || a.StreamFails?
    ensures Fresh(Act(t, m.action, m.at), Observed(t, k, m))
  {
    hide Jittered;
    if m.action.StreamFails? {
      JitterBounds(t.retryDelay, m.action.jitter);
    }
  }

  lemma RequestFresh(t: Transport, k: Clock, m: Move)
    requires Fresh(t, k) && Steady(t, k, m)
    requires var a := m.action; a.Answers? || a.Finishes? || a.Refreshes?
    ensures Fresh(Act(t, m.action, m.at), Observed(t, k, m))
  {
  }

  lemma StepFresh(t: Transport, k: Clock, m: Move)
    requires Fresh(t, k) && Steady(t, k, m)
    ensures Fresh(Act(t, m.action, m.at), Observed(t, k, m))
  {
    hide Fresh, Act, Observed, OnTime;
    var a := m.action;
    if a.Ticks? {
      TickFresh(t, k, m);
    } else if a.Answers? || a.Finishes? || a.Refreshes? {
      RequestFresh(t, k, m);
    } else {
      StreamFresh(t, k, m);
    }
  }

  function EndClock(t: Transport, k: Clock, run: seq<Move>): Clock
    decreases run
  {
    if run == [] then k else EndClock(Act(t, run[0].action, run[0].at), Observed(t, k, run[0]), run[1..])
  }

  lemma {:induction false} RunFresh(t: Transport, k: Clock, run: seq<Move>)
    requires Fresh(t, k) && SteadyRun(t, k, run)
    ensures Fresh(End(t, run), EndClock(t, k, run))
    decreases run
  {
    hide Fresh, Act, Observed, Steady;
    if run != [] {
      StepFresh(t, k, run[0]);
      RunFresh(Act(t, run[0].action, run[0].at), Observed(t, k, run[0]), run[1..]);
    }
  }

  /** A visible connection that has just been resumed, and the clock at that moment. */
  function Resumed(now: real): Clock {
    Clock(now, now, now, now, true, now)
  }

  lemma ResumedIsFresh(t: Transport, now: real)
    requires !t.stopped && !t.hidden && now >= 0.0
    ensures Fresh(Resume(t, now), Resumed(now))
  {
  }

  /** What the bounds say at a moment `at` of the state before it. */
  ghost predicate Bounded(t: Transport, k: Clock, at: real) {
    && at <= k.settled + (if k.wasHealthy then 24000.0 else 11000.0)
    && (t.es.Some? && !t.healthy ==> at < t.openedAt + SILENT_START + TICK)
    && (t.es.Some? && t.healthy ==> at <= t.lastHeard + SILENT_STREAM + TICK)
    && (t.es.None? ==> at <= k.lost + LONGEST_RETRY + TICK)
  }

  lemma FreshIsBounded(t: Transport, k: Clock, at: real)
    requires Fresh(t, k) && OnTime(t, k, at)
    ensures Bounded(t, k, at)
  {
  }

  /** From the moment a visible connection resumes, ticking every second and with requests that settle in eight,
      no two settlements are more than 24 s apart, nor more than 11 s after one that found the stream unhealthy; no
      stream is kept that has been silent for its time and a tick; and none is missing for longer than the
      longest retry and a tick. */
  lemma StalenessIsBounded(t: Transport, now: real, run: seq<Move>, next: Move)
    requires !t.stopped && !t.hidden && now >= 0.0
    requires SteadyRun(Resume(t, now), Resumed(now), run)
    requires Steady(End(Resume(t, now), run), EndClock(Resume(t, now), Resumed(now), run), next)
    ensures Bounded(End(Resume(t, now), run), EndClock(Resume(t, now), Resumed(now), run), next.at)
  {
    hide Fresh, Bounded, SteadyRun, End, EndClock, Resume, OnTime;
    var t0, k0 := Resume(t, now), Resumed(now);
    ResumedIsFresh(t, now);
    RunFresh(t0, k0, run);
    FreshIsBounded(End(t0, run), EndClock(t0, k0, run), next.at);
  }

  /** Whatever came before: a stream that a tick keeps was opened less than 5 s ago, or has been heard from within
      35 s. */
  lemma TickKeepsNoDeadStream(t: Transport, now: real)
    requires !t.stopped && !t.hidden && (t.es.None? ==> !t.healthy)
    ensures var t1 := Tick(t, now);
            t1.es.Some? ==> if t1.healthy then now - t1.lastHeard <= 35000.0 else now - t1.openedAt < 5000.0
  {
  }
}
