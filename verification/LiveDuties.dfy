/** What the connection owes the page: what it tells it and when, and what each of its fields changes for. */
module LiveDuties {
  import opened Wire
  import opened LiveModel
  import opened LiveOwnership

  // ---------- what happens to a connection ----------

  predicate InUse(t: Transport) {
    !t.stopped && !t.hidden
  }

  predicate IsCurrent(t: Transport, id: nat) {
    !t.stopped && t.es == Some(id)
  }

  /** It is started, resumed, shown again or back online. */
  predicate Restarts(t: Transport, a: Action) {
    match a
    case Starts => t.stopped && !t.hidden
    case Resumes => !t.stopped
    case Changes(hidden) => !t.stopped && !hidden
    case ComesOnline => InUse(t)
    case _ => false
  }

  /** The awaited request finds no room. */
  predicate FindsNoRoom(t: Transport, a: Action) {
    a.Answers? && a.answer.NotFound? && !t.stopped && t.pending == Some(a.id)
  }

  /** It is stopped or hidden, or there is nothing left to connect to. */
  predicate Rests(t: Transport, a: Action) {
    a.Stops? || (a.Changes? && a.hidden && !t.stopped) || FindsNoRoom(t, a)
  }

  /** Its stream sends a state, or a ping after one. */
  predicate Hears(t: Transport, a: Action) {
    match a
    case StreamSays(id, st) => IsCurrent(t, id) && st.Some?
    case StreamPings(id) => IsCurrent(t, id) && t.healthy
    case _ => false
  }

  predicate Fails(t: Transport, a: Action) {
    a.StreamFails? && IsCurrent(t, a.id)
  }

  /** Its stream sends nonsense, or is found to have been silent for 5 s from its opening, or for over 35 s since. */
  predicate GivesUp(t: Transport, a: Action, now: real) {
    match a
    case StreamSays(id, st) => IsCurrent(t, id) && st.None?
    case Ticks =>
      InUse(t) && t.es.Some? && if t.healthy then now - t.lastHeard > 35000.0 else now - t.openedAt >= 5000.0
    case _ => false
  }

  predicate Loses(t: Transport, a: Action, now: real) {
    Fails(t, a) || GivesUp(t, a, now)
  }

  /** It looks around: whether to open a stream, and whether to ask. */
  predicate Looks(t: Transport, a: Action) {
    if a.Ticks? || a.Resumes? then InUse(t) else Restarts(t, a)
  }

  predicate Ends(t: Transport, a: Action) {
    a.Finishes? && t.pending == Some(a.id)
  }

  // ---------- what it leads to ----------

  /** What the page is told. */
  function Tidings(t: Transport, a: Action, now: real): seq<Note> {
    if FindsNoRoom(t, a) then [Live(false), Missing]
    else if Restarts(t, a) || Rests(t, a) || Loses(t, a, now) then [Live(false)]
    else match a
      case StreamSays(id, Some(st)) => if IsCurrent(t, id) then [Live(true), Show(ByStream(id), st)] else []
      case StreamPings(id) => if IsCurrent(t, id) && t.healthy then [Live(true)] else []
      case StreamReacts(id, Some(reaction)) => if IsCurrent(t, id) then [Float(ByStream(id), reaction)] else []
      case Answers(id, Got(st)) => if !t.stopped && t.pending == Some(id) then [Show(ByRequest(id), st)] else []
      case Answers(id, Trouble) => if !t.stopped && t.pending == Some(id) then [Live(false)] else []
      case _ => []
  }

  /** The stream is kept until it is lost or the connection rests or restarts; a new one is opened when the connection
      looks around without one and its time has come. */
  ghost predicate StreamExplained(t: Transport, a: Action, now: real, t1: Transport) {
    && (t1.es == if t.es.Some? && !Restarts(t, a) && !Rests(t, a) && !Loses(t, a, now) then t.es
                 else if Looks(t, a) && now >= t1.nextConnect then Some(t.made)
                 else None)
    && (t1.healthy <==> Hears(t, a) || (t.healthy && t1.es == t.es))
    && t1.openedAt == (if t1.es.Some? && t1.es != t.es then now else t.openedAt)
    && t1.lastHeard == (if Hears(t, a) then now else t.lastHeard)
  }

  /** How long to wait before another stream: jittered and doubled at every failure, half a minute after giving one up,
      and back to a second once a stream is heard. */
  ghost predicate BackoffExplained(t: Transport, a: Action, now: real, t1: Transport) {
    && t1.retryDelay == (if Hears(t, a) || Restarts(t, a) then 1000.0
                         else if !Fails(t, a) then t.retryDelay
                         else if t.retryDelay < 15000.0 then 2.0 * t.retryDelay else 30000.0)
    && t1.nextConnect == (if Restarts(t, a) then 0.0
                          else if Fails(t, a) then now + t.retryDelay * a.jitter
                          else if GivesUp(t, a, now) then now + 30000.0
                          else t.nextConnect)
  }

  /** A request is awaited until it ends, is replaced, or the connection rests or restarts; another is made when the
      connection looks around without one and its time has come, or when the page asks for it. */
  ghost predicate PollsExplained(t: Transport, a: Action, now: real, t1: Transport) {
    var asked := a.Refreshes? && InUse(t);
    var kept := if Restarts(t, a) || Rests(t, a) || Ends(t, a) || (asked && a.replace) then None else t.pending;
    var newStreams := if t1.es.Some? && t1.es != t.es then 1 else 0;
    && t1.pending == (if kept.None? && (asked || (Looks(t, a) && now >= t1.nextPoll)) then Some(t.made + newStreams)
                      else kept)
    && t1.nextPoll == (if Ends(t, a) then now + (if t.healthy then 15000.0 else 2000.0)
                       else if Restarts(t, a) || Loses(t, a, now) then 0.0
                       else t.nextPoll)
  }

  ghost predicate Explained(t: Transport, a: Action, now: real, t1: Transport) {
    && t1.notes == t.notes + Tidings(t, a, now)
    && (t1.stopped <==> if a.Starts? then false else t.stopped || a.Stops? || FindsNoRoom(t, a))
    && (t1.hidden <==> if a.Changes? then a.hidden else t.hidden)
    && StreamExplained(t, a, now, t1) && BackoffExplained(t, a, now, t1) && PollsExplained(t, a, now, t1)
  }

  lemma TickExplained(t: Transport, now: real)
    requires Owned(t)
    ensures Explained(t, Ticks, now, Act(t, Ticks, now))
  {
  }

  lemma ResumeExplained(t: Transport, a: Action, now: real)
    requires Owned(t) && (a.Resumes? || a.ComesOnline?)
    ensures Explained(t, a, now, Act(t, a, now))
  {
  }

  lemma StartExplained(t: Transport, now: real)
    requires Owned(t)
    ensures Explained(t, Starts, now, Act(t, Starts, now))
  {
  }

  lemma ChangeExplained(t: Transport, hidden: bool, now: real)
    requires Owned(t)
    ensures Explained(t, Changes(hidden), now, Act(t, Changes(hidden), now))
  {
  }

  lemma StateExplained(t: Transport, a: Action, now: real)
    requires Owned(t) && (a.StreamSays? || a.StreamFails?)
    ensures Explained(t, a, now, Act(t, a, now))
  {
  }

  lemma PingExplained(t: Transport, a: Action, now: real)
    requires Owned(t) && (a.StreamPings? || a.StreamReacts?)
    ensures Explained(t, a, now, Act(t, a, now))
  {
  }

  lemma RequestActionExplained(t: Transport, a: Action, now: real)
    requires Owned(t) && Enabled(t, a) && (a.Answers? || a.Finishes? || a.Refreshes? || a.Stops?)
    ensures Explained(t, a, now, Act(t, a, now))
  {
  }

  /** Every call and callback tells the page exactly what it owes it, and moves each field for a reason. */
  lemma EveryStepIsExplained(t: Transport, a: Action, now: real)
    requires Owned(t) && Enabled(t, a)
    ensures Explained(t, a, now, Act(t, a, now))
  {
    hide Owned, Explained, Act, Enabled;
    match a {
      case Ticks => TickExplained(t, now);
      case Starts => StartExplained(t, now);
      case Resumes => ResumeExplained(t, a, now);
      case Changes(hidden) => ChangeExplained(t, hidden, now);
      case ComesOnline => ResumeExplained(t, a, now);
      case Answers(_, _) => RequestActionExplained(t, a, now);
      case Finishes(_) => RequestActionExplained(t, a, now);
      case Refreshes(_) => RequestActionExplained(t, a, now);
      case Stops => RequestActionExplained(t, a, now);
      case StreamSays(_, _) => StateExplained(t, a, now);
      case StreamFails(_, _) => StateExplained(t, a, now);
      case _ => PingExplained(t, a, now);
    }
  }

  // ---------- over runs ----------

  /** The stream is healthy exactly when it has shown the page a state. */
  ghost predicate HealthIsEarned(t: Transport) {
    && (t.healthy <==> t.es.Some? && exists st :: Show(ByStream(t.es.value), st) in t.notes)
    && (forall note | note in t.notes && (note.Show? || note.Float?) :: note.source.id < t.made)
  }

  /** How many streams in a row have failed, since one was last heard or the connection restarted. */
  function Failures(t: Transport, run: seq<Move>, sofar: nat): nat
    decreases run
  {
    if run == [] then sofar
    else
      var a := run[0].action;
      Failures(Act(t, a, run[0].at), run[1..],
               if Hears(t, a) || Restarts(t, a) then 0 else if Fails(t, a) then sofar + 1 else sofar)
  }

  /** One second, doubled `n` times, up to half a minute. */
  function Backoff(n: nat): real {
    if n == 0 then 1000.0
    else if n == 1 then 2000.0
    else if n == 2 then 4000.0
    else if n == 3 then 8000.0
    else if n == 4 then 16000.0
    else 30000.0
  }

  lemma {:induction false} RetriesBackOff(t: Transport, run: seq<Move>, sofar: nat)
    requires Owned(t) && Legal(t, run) && t.retryDelay == Backoff(sofar)
    ensures End(t, run).retryDelay == Backoff(Failures(t, run, sofar))
    decreases run
  {
    hide Owned, Act, Enabled, StreamExplained, PollsExplained, Hears, Restarts, Fails, GivesUp;
    if run != [] {
      var a, now := run[0].action, run[0].at;
      StepOwned(t, a, now);
      EveryStepIsExplained(t, a, now);
      RetriesBackOff(Act(t, a, now), run[1..],
                     if Hears(t, a) || Restarts(t, a) then 0 else if Fails(t, a) then sofar + 1 else sofar);
    }
  }

  lemma StepEarnsHealth(t: Transport, a: Action, now: real)
    requires Owned(t) && Enabled(t, a) && HealthIsEarned(t)
    ensures HealthIsEarned(Act(t, a, now))
  {
    hide Act, BackoffExplained;
    EveryStepIsExplained(t, a, now);
    MadeGrows(t, a, now);
    var t1, news := Act(t, a, now), Tidings(t, a, now);
    assert forall note | note in t1.notes :: note in t.notes || note in news;
    if t.es.Some? && t1.es == t.es {
      forall st | Show(ByStream(t.es.value), st) in t.notes ensures Show(ByStream(t.es.value), st) in t1.notes {
      }
    }
    if a.StreamSays? && Hears(t, a) {
      assert news[1] in t1.notes;
    }
  }

  lemma MadeGrows(t: Transport, a: Action, now: real)
    ensures t.made <= Act(t, a, now).made
  {
  }

  /** However a fresh connection is used, its stream counts as healthy exactly when it has shown the page a state. */
  lemma HealthyMeansShown(run: seq<Move>)
    requires Legal(UNSTARTED, run)
    ensures var t := End(UNSTARTED, run);
            t.healthy <==> t.es.Some? && exists st :: Show(ByStream(t.es.value), st) in t.notes
  {
    hide Legal, End;
    RunEarnsHealth(UNSTARTED, run);
  }

  lemma {:induction false} RunEarnsHealth(t: Transport, run: seq<Move>)
    requires Owned(t) && HealthIsEarned(t) && Legal(t, run)
    ensures HealthIsEarned(End(t, run))
    decreases run
  {
    hide Owned, Act, Enabled, HealthIsEarned;
    if run != [] {
      StepOwned(t, run[0].action, run[0].at);
      StepEarnsHealth(t, run[0].action, run[0].at);
      RunEarnsHealth(Act(t, run[0].action, run[0].at), run[1..]);
    }
  }

  predicate Undisturbed(a: Action) {
    !a.Starts? && !a.Resumes? && !a.Changes? && !a.ComesOnline?
  }

  lemma {:induction false} NoStreamBeforeItsTime(t: Transport, run: seq<Move>)
    requires Owned(t) && Legal(t, run) && t.es.None?
    requires forall m | m in run :: Undisturbed(m.action) && m.at < t.nextConnect
    ensures End(t, run).es.None? && End(t, run).open == {}
    decreases run
  {
    hide Act, Enabled, PollsExplained, Tidings;
    if run != [] {
      StepOwned(t, run[0].action, run[0].at);
      EveryStepIsExplained(t, run[0].action, run[0].at);
      assert run[0] in run && forall m | m in run[1..] :: m in run;
      NoStreamBeforeItsTime(Act(t, run[0].action, run[0].at), run[1..]);
    }
  }

  lemma AtLeastHalf(delay: real, jitter: real)
    requires delay >= 0.0 && jitter >= 0.5
    ensures delay * jitter >= delay * 0.5
  {
  }

  /** After a failure no stream is opened for at least half of the delay the failures before it have led to, unless the
      connection restarts. */
  lemma FailuresAreWaitedOut(t: Transport, id: nat, jitter: real, now: real, run: seq<Move>)
    requires Owned(t) && IsCurrent(t, id) && 0.5 <= jitter < 1.5 && t.retryDelay >= 0.0
    requires id < t.made && Legal(Act(t, StreamFails(id, jitter), now), run)
    requires forall m | m in run :: Undisturbed(m.action) && m.at < now + t.retryDelay * 0.5
    ensures End(Act(t, StreamFails(id, jitter), now), run).open == {}
  {
    hide Act, Owned, Legal, End, Tidings, PollsExplained;
    var a := StreamFails(id, jitter);
    StepOwned(t, a, now);
    EveryStepIsExplained(t, a, now);
    AtLeastHalf(t.retryDelay, jitter);
    NoStreamBeforeItsTime(Act(t, a, now), run);
  }

  /** No stream is lost, nothing restarts, and nobody asks for a request. */
  predicate Uneventful(t: Transport, run: seq<Move>)
    decreases run
  {
    run == [] || var a := run[0].action;
                 && Undisturbed(a) && !a.Refreshes? && !Loses(t, a, run[0].at)
                 && Uneventful(Act(t, a, run[0].at), run[1..])
  }

  lemma {:induction false} NoPollBeforeItsTime(t: Transport, run: seq<Move>)
    requires Owned(t) && Legal(t, run) && Uneventful(t, run) && t.pending.None?
    requires forall m | m in run :: m.at < t.nextPoll
    ensures End(t, run).pending.None? && End(t, run).flying == {}
    decreases run
  {
    hide Act, Enabled, BackoffExplained, StreamExplained, Tidings, Loses;
    if run != [] {
      StepOwned(t, run[0].action, run[0].at);
      EveryStepIsExplained(t, run[0].action, run[0].at);
      assert run[0] in run && forall m | m in run[1..] :: m in run;
      NoPollBeforeItsTime(Act(t, run[0].action, run[0].at), run[1..]);
    }
  }

  /** Once a request has settled there is not another for 15 s, or 2 s without a healthy stream, as long as nothing
      else happens. */
  lemma PollsArePaced(t: Transport, id: nat, now: real, run: seq<Move>)
    requires Owned(t) && t.pending == Some(id) && id in t.finishing
    requires Legal(Act(t, Finishes(id), now), run) && Uneventful(Act(t, Finishes(id), now), run)
    requires forall m | m in run :: m.at < now + if t.healthy then 15000.0 else 2000.0
    ensures End(Act(t, Finishes(id), now), run).flying == {}
  {
    hide Act, Owned, Legal, End, Tidings, BackoffExplained, StreamExplained, Uneventful;
    StepOwned(t, Finishes(id), now);
    EveryStepIsExplained(t, Finishes(id), now);
    NoPollBeforeItsTime(Act(t, Finishes(id), now), run);
  }
}
