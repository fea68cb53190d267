/** The browser's side of the connection, call by call: the fields it assigns, and what is left outside of it in
    streams that are open and requests that are under way. Times are in milliseconds. */
module LiveModel {
  import opened Wire

  const SILENT_START := 5000.0
  const SILENT_STREAM := 35000.0
  const GIVE_UP := 30000.0
  const FIRST_RETRY := 1000.0
  const LAST_RETRY := 30000.0
  const POLL_HEALTHY := 15000.0
  const POLL_DEGRADED := 2000.0

  datatype Source = ByStream(id: nat) | ByRequest(id: nat)

  /** A call of one of the page's callbacks. */
  datatype Note =
    | Show(source: Source, state: State)
    | Float(source: Source, reaction: Reaction)
    | Live(on: bool)
    | Missing

  /** Streams and requests are numbered as they are made. A request is `flying` until it is answered or aborted;
      whether aborted or not its first handlers run once, while it is `waiting`, and its last one after them, while
      it is `finishing`. */
  datatype Transport = Transport(
    stopped: bool, es: Option<nat>, pending: Option<nat>, healthy: bool,
    openedAt: real, lastHeard: real, retryDelay: real, nextConnect: real, nextPoll: real,
    hidden: bool, made: nat, open: set<nat>, flying: set<nat>, waiting: set<nat>, finishing: set<nat>,
    notes: seq<Note>)

  const UNSTARTED := Transport(true, None, None, false, 0.0, 0.0, FIRST_RETRY, 0.0, 0.0, false, 0, {}, {}, {}, {}, [])

  function Told(t: Transport, note: Note): Transport {
    t.(notes := t.notes + [note])
  }

  function Closed(t: Transport): set<nat> {
    if t.es.Some? then t.open - {t.es.value} else t.open
  }

  function Disconnect(t: Transport): Transport {
    t.(es := None, healthy := false, open := Closed(t))
  }

  function Aborted(t: Transport): set<nat> {
    if t.pending.Some? then t.flying - {t.pending.value} else t.flying
  }

  function Pause(t: Transport): Transport {
    Told(Disconnect(t).(pending := None, flying := Aborted(t)), Live(false))
  }

  function Degrade(t: Transport, delay: real, now: real): Transport {
    Told(Disconnect(t).(nextConnect := now + delay, nextPoll := 0.0), Live(false))
  }

  function Connect(t: Transport, now: real): Transport {
    t.(es := Some(t.made), openedAt := now, open := t.open + {t.made}, made := t.made + 1)
  }

  function Refresh(t: Transport, replace: bool): Transport {
    if t.stopped || t.hidden || (t.pending.Some? && !replace) then t
    else t.(pending := Some(t.made), flying := Aborted(t) + {t.made}, waiting := t.waiting + {t.made},
            made := t.made + 1)
  }

  /** Nothing was heard from the stream since it was opened, or nothing for too long. */
  predicate Dead(t: Transport, now: real) {
    t.es.Some? && if t.healthy then now - t.lastHeard > SILENT_STREAM else now - t.openedAt >= SILENT_START
  }

  function Watch(t: Transport, now: real): Transport {
    if Dead(t, now) then Degrade(t, GIVE_UP, now) else t
  }

  function Reopen(t: Transport, now: real): Transport {
    if t.es.None? && now >= t.nextConnect then Connect(t, now) else t
  }

  function Poll(t: Transport, now: real): Transport {
    if now >= t.nextPoll && t.pending.None? then Refresh(t, false) else t
  }

  function Tick(t: Transport, now: real): Transport {
    if t.stopped || t.hidden then t else Poll(Reopen(Watch(t, now), now), now)
  }

  function Resume(t: Transport, now: real): Transport {
    if t.stopped then t
    else Tick(Pause(t).(retryDelay := FIRST_RETRY, nextConnect := 0.0, nextPoll := 0.0), now)
  }

  function Start(t: Transport, now: real): Transport {
    if !t.stopped then t
    else if t.hidden then t.(stopped := false)
    else Resume(t.(stopped := false), now)
  }

  function Stop(t: Transport): Transport {
    Pause(t.(stopped := true))
  }

  /** The page is hidden or shown; only a started connection listens. */
  function Visibility(t: Transport, hidden: bool, now: real): Transport {
    var t1 := t.(hidden := hidden);
    if t.stopped then t1 else if hidden then Pause(t1) else Resume(t1, now)
  }

  function Online(t: Transport, now: real): Transport {
    if t.stopped || t.hidden then t else Resume(t, now)
  }

  // ---------- callbacks of a stream ----------

  predicate Current(t: Transport, id: nat) {
    !t.stopped && t.es == Some(id)
  }

  function Heard(t: Transport, now: real): Transport {
    Told(t.(lastHeard := now, healthy := true, retryDelay := FIRST_RETRY), Live(true))
  }

  /** No state is what does not parse, or has no round in it. */
  function StreamState(t: Transport, id: nat, st: Option<State>, now: real): Transport {
    if !Current(t, id) then t
    else if st.None? then Degrade(t, GIVE_UP, now)
    else Told(Heard(t, now), Show(ByStream(id), st.value))
  }

  function StreamPing(t: Transport, id: nat, now: real): Transport {
    if Current(t, id) && t.healthy then Heard(t, now) else t
  }

  function StreamReaction(t: Transport, id: nat, reaction: Option<Reaction>): Transport {
    if Current(t, id) && reaction.Some? then Told(t, Float(ByStream(id), reaction.value)) else t
  }

  function Jittered(delay: real, jitter: real): real {
    delay * jitter
  }

  function Doubled(delay: real): real {
    if delay * 2.0 < LAST_RETRY then delay * 2.0 else LAST_RETRY
  }

  function StreamError(t: Transport, id: nat, jitter: real, now: real): Transport {
    if !Current(t, id) then t
    else Degrade(t, Jittered(t.retryDelay, jitter), now).(retryDelay := Doubled(t.retryDelay))
  }

  // ---------- callbacks of a request ----------

  datatype Answer = Got(state: State) | NotFound | Trouble

  predicate Awaited(t: Transport, id: nat) {
    t.pending == Some(id) && !t.stopped
  }

  /** What the awaited request's answer leads to. */
  function Deliver(t: Transport, id: nat, answer: Answer): Transport {
    match answer
    case Got(st) => Told(t, Show(ByRequest(id), st))
    case NotFound => Told(Stop(t), Missing)
    case Trouble => Told(t, Live(false))
  }

  function Respond(t: Transport, id: nat, answer: Answer): Transport {
    var t1 := t.(flying := t.flying - {id}, waiting := t.waiting - {id}, finishing := t.finishing + {id});
    if Awaited(t, id) then Deliver(t1, id, answer) else t1
  }

  function Finish(t: Transport, id: nat, now: real): Transport {
    var t1 := t.(finishing := t.finishing - {id});
    if t.pending != Some(id) then t1
    else t1.(pending := None, nextPoll := now + if t.healthy then POLL_HEALTHY else POLL_DEGRADED)
  }

  // ---------- runs ----------

  datatype Action =
    | Starts
    | Stops
    | Resumes
    | Changes(hidden: bool)
    | ComesOnline
    | Ticks
    | Refreshes(replace: bool)
    | StreamSays(id: nat, state: Option<State>)
    | StreamPings(id: nat)
    | StreamReacts(id: nat, reaction: Option<Reaction>)
    | StreamFails(id: nat, jitter: real)
    | Answers(id: nat, answer: Answer)
    | Finishes(id: nat)

  /** A stream may call back at any time, even when it has been closed; a request answers once, and then
      finishes. */
  predicate Enabled(t: Transport, a: Action) {
    match a
    case StreamSays(id, _) => id < t.made
    case StreamPings(id) => id < t.made
    case StreamReacts(id, _) => id < t.made
    case StreamFails(id, jitter) => id < t.made && 0.5 <= jitter < 1.5
    case Answers(id, _) => id in t.waiting
    case Finishes(id) => id in t.finishing
    case _ => true
  }

  function Act(t: Transport, a: Action, now: real): Transport {
    match a
    case Starts => Start(t, now)
    case Stops => Stop(t)
    case Resumes => Resume(t, now)
    case Changes(hidden) => Visibility(t, hidden, now)
    case ComesOnline => Online(t, now)
    case Ticks => Tick(t, now)
    case Refreshes(replace) => Refresh(t, replace)
    case StreamSays(id, st) => StreamState(t, id, st, now)
    case StreamPings(id) => StreamPing(t, id, now)
    case StreamReacts(id, reaction) => StreamReaction(t, id, reaction)
    case StreamFails(id, jitter) => StreamError(t, id, jitter, now)
    case Answers(id, answer) => Respond(t, id, answer)
    case Finishes(id) => Finish(t, id, now)
  }

  datatype Move = Move(at: real, action: Action)

  predicate Legal(t: Transport, run: seq<Move>)
    decreases run
  {
    run == [] || (Enabled(t, run[0].action) && Legal(Act(t, run[0].action, run[0].at), run[1..]))
  }

  function End(t: Transport, run: seq<Move>): Transport
    decreases run
  {
    if run == [] then t else End(Act(t, run[0].action, run[0].at), run[1..])
  }
}
