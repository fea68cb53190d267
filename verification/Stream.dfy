/** From the room to the page: the event stream's handler, the connection, REST replies in any order, and
    the page's revision filter. */
module Stream {
  import opened Wire
  import opened RoomModel
  import opened Revisions
  import opened Hub
  import Delivery

  /** What goes down the stream. A ping has no ID. */
  datatype Frame =
    | StateFrame(name: Option<Change>, id: nat, state: State)
    | ReactionFrame(id: nat, reaction: Reaction)
    | Ping

  // ---------- the handler ----------

  /** The frames an event leads to, given the last ID sent: a stale one leads to none. */
  function Relayed(last: nat, e: Event): seq<Frame> {
    if e.id <= last then []
    else if e.ReactionEvent? then [ReactionFrame(e.id, e.reaction)]
    else [StateFrame(Some(e.change), e.id, e.state)]
  }

  function LastAfter(last: nat, e: Event): nat {
    if e.id <= last then last else e.id
  }

  datatype Wake = Heartbeat | Received(event: Event) | Finished

  function FramesFor(last: nat, wakes: seq<Wake>): seq<Frame>
    decreases wakes
  {
    if wakes == [] || wakes[0].Finished? then []
    else if wakes[0].Heartbeat? then [Ping] + FramesFor(last, wakes[1..])
    else Relayed(last, wakes[0].event) + FramesFor(LastAfter(last, wakes[0].event), wakes[1..])
  }

  /** The frames of one connection: the first snapshot, then what was received. */
  function Handled(first: State, wakes: seq<Wake>): seq<Frame> {
    [StateFrame(None, first.revision, first)] + FramesFor(first.revision, wakes)
  }

  predicate IdsAbove(frames: seq<Frame>, last: nat) {
    && (forall i | 0 <= i < |frames| && !frames[i].Ping? :: frames[i].id > last)
    && (forall i, j | 0 <= i < j < |frames| && !frames[i].Ping? && !frames[j].Ping? :: frames[i].id < frames[j].id)
  }

  /** One frame a step, and no ID at or below one already sent. */
  method HandleEvents(first: State, wakes: seq<Wake>) returns (frames: seq<Frame>)
    ensures frames == Handled(first, wakes)
  {
    frames := [StateFrame(None, first.revision, first)];
    var lastEventId := first.revision;
    var i := 0;
    while i < |wakes|
      invariant i <= |wakes|
      invariant frames + FramesFor(lastEventId, wakes[i..]) == Handled(first, wakes)
    {
      var wake := wakes[i];
      assert wakes[i..][1..] == wakes[i + 1..];
      i := i + 1;
      match wake {
        case Finished => break;
        case Heartbeat => frames := frames + [Ping];
        case Received(ev) =>
          if ev.id <= lastEventId {
            continue;
          }
          lastEventId := ev.id;
          if ev.ReactionEvent? {
            frames := frames + [ReactionFrame(ev.id, ev.reaction)];
          } else {
            frames := frames + [StateFrame(Some(ev.change), ev.id, ev.state)];
          }
      }
    }
  }

  /** Whatever is received, in whatever order, the IDs sent after the first snapshot are positive and
      strictly increasing, starting above its revision. */
  lemma {:induction false} IdsIncrease(last: nat, wakes: seq<Wake>)
    ensures IdsAbove(FramesFor(last, wakes), last)
    decreases wakes
  {
    if wakes != [] && !wakes[0].Finished? {
      if wakes[0].Heartbeat? {
        IdsIncrease(last, wakes[1..]);
        AboveAfter([Ping], FramesFor(last, wakes[1..]), last, last);
      } else {
        var now := LastAfter(last, wakes[0].event);
        IdsIncrease(now, wakes[1..]);
        AboveAfter(Relayed(last, wakes[0].event), FramesFor(now, wakes[1..]), last, now);
      }
    }
  }

  lemma AboveAfter(head: seq<Frame>, rest: seq<Frame>, last: nat, now: nat)
    requires |head| <= 1 && last <= now && IdsAbove(rest, now)
    requires head != [] && !head[0].Ping? ==> head[0].id == now > last
    ensures IdsAbove(head + rest, last)
  {
    var all, k := head + rest, |head|;
    forall i | 0 <= i < |all| && !all[i].Ping? ensures all[i].id > last && (i >= k ==> all[i].id > now) {
      assert i >= k ==> all[i] == rest[i - k];
    }
    forall i, j | 0 <= i < j < |all| && !all[i].Ping? && !all[j].Ping? ensures all[i].id < all[j].id {
      assert all[j] == rest[j - k];
      assert i >= k ==> all[i] == rest[i - k];
    }
  }

  ghost predicate Newest(last: nat, wakes: seq<Wake>, id: nat) {
    id > last && forall w | w in wakes && w.Received? :: w.event.id < id
  }

  /** While the connection lasts, every heartbeat gives a ping and every event newer than all before it its one frame,
      each in its turn and with what it carries; an older event gives none. */
  lemma {:induction false} EachWakeGivesItsFrame(last: nat, wakes: seq<Wake>, w: Wake)
    requires Finished !in wakes
    ensures FramesFor(last, wakes + [w]) == FramesFor(last, wakes) +
              match w
              case Heartbeat => [Ping]
              case Finished => []
              case Received(StateEvent(id, change, st)) =>
                if Newest(last, wakes, id) then [StateFrame(Some(change), id, st)] else []
              case Received(ReactionEvent(id, reaction)) =>
                if Newest(last, wakes, id) then [ReactionFrame(id, reaction)] else []
    decreases wakes
  {
    if wakes != [] {
      var last' := if wakes[0].Received? then LastAfter(last, wakes[0].event) else last;
      assert (wakes + [w])[1..] == wakes[1..] + [w] && wakes == [wakes[0]] + wakes[1..];
      EachWakeGivesItsFrame(last', wakes[1..], w);
    } else {
      assert (wakes + [w])[1..] == [];
    }
  }

  /** And the end of the connection is the end of its frames. */
  lemma {:induction false} NothingAfterTheEnd(last: nat, wakes: seq<Wake>, more: seq<Wake>)
    requires Finished !in wakes
    ensures FramesFor(last, wakes + [Finished] + more) == FramesFor(last, wakes)
    decreases wakes
  {
    if wakes != [] {
      var last' := if wakes[0].Received? then LastAfter(last, wakes[0].event) else last;
      assert (wakes + [Finished] + more)[1..] == wakes[1..] + [Finished] + more;
      NothingAfterTheEnd(last', wakes[1..], more);
    }
  }

  // ---------- the page ----------

  /** What the page shows once a state reaches it: only a newer revision replaces what is there. */
  function Newer(shown: State, next: State): State {
    if next.revision <= shown.revision then shown else next
  }

  class Page {
    var state: Option<State>

    constructor ()
      ensures state.None?
    {
      state := None;
    }

    method ApplyState(next: State)
      modifies this
      ensures state == Some(if old(state).None? then next else Newer(old(state).value, next))
      ensures old(state).Some? ==> state.value.revision >= old(state).value.revision
    {
      if state.Some? && next.revision <= state.value.revision {
        return;
      }
      state := Some(next);
    }
  }

  // ---------- all of it together ----------

  /** `greeting` is the revision of the stream's first snapshot, `relayed` that of the last state sent. */
  datatype Handler = Opening | Streaming(last: nat, greeting: nat, relayed: nat)

  /** `replies` are the states of REST replies that may still reach the page, in any order, any of them more
      than once or never. */
  datatype World = World(hub: Hub, handler: Handler, wire: seq<Frame>, replies: set<State>, page: State)

  datatype Action =
    | CallRoom(call: Call)
    | Produce
    | Greet(now: int)
    | Relay
    | Beat
    | FrameArrives
    | ReplyArrives(state: State)
    | Reconnect

  ghost predicate Enabled(cfg: Config, cap: nat, w: World, a: Action) {
    HubInv(cfg, cap, w.hub) &&
    match a
    case CallRoom(_) => LockFree(w.hub)
    case Produce => Delivery.Enabled(cap, w.hub.feed, Delivery.Produce)
    case Greet(_) => w.handler.Opening? && LockFree(w.hub)
    case Relay => w.handler.Streaming? && w.hub.feed.queue != []
    case Beat => w.handler.Streaming?
    case FrameArrives => w.wire != []
    case ReplyArrives(st) => st in w.replies
    case Reconnect => LockFree(w.hub)
  }

  ghost function StateOf(reply: Reply): set<State> {
    if ReplyState(reply).Some? then {ReplyState(reply).value} else {}
  }

  ghost function Act(cfg: Config, cap: nat, w: World, a: Action): World
    requires Enabled(cfg, cap, w, a)
  {
    match a
    case CallRoom(call) =>
      w.(hub := Called(cfg, cap, w.hub, call), replies := w.replies + StateOf(Step(cfg, w.hub.room, call).reply))
    case Produce => w.(hub := Moved(cap, w.hub, Delivery.Produce))
    case Greet(now) =>
      var st := Snapshot(cfg, w.hub.room);
      w.(hub := Called(cfg, cap, w.hub, Call(GetState, now)),
         handler := Streaming(st.revision, st.revision, st.revision),
         wire := w.wire + [StateFrame(None, st.revision, st)])
    case Relay =>
      var e := w.hub.feed.queue[0];
      var h := w.handler;
      w.(hub := Moved(cap, w.hub, Delivery.Receive),
         handler := Streaming(LastAfter(h.last, e), h.greeting,
                              if e.id > h.last && e.StateEvent? then e.id else h.relayed),
         wire := w.wire + Relayed(h.last, e))
    case Beat => w.(wire := w.wire + [Ping])
    case FrameArrives =>
      var frame := w.wire[0];
      w.(wire := w.wire[1..], page := if frame.StateFrame? then Newer(w.page, frame.state) else w.page)
    case ReplyArrives(st) => w.(page := Newer(w.page, st))
    case Reconnect => w.(hub := Resubscribed(w.hub), handler := Opening, wire := [])
  }

  // ---------- what every step keeps ----------

  ghost predicate AllGenuine(first: State, w: World) {
    && Genuine(first, w.hub.log, w.page)
    && (forall st | st in w.replies :: Genuine(first, w.hub.log, st))
    && (forall f | f in w.wire && f.StateFrame? :: Genuine(first, w.hub.log, f.state))
  }

  /** The newest state relayed is on the page, or newer is, or it is still on the wire. */
  ghost predicate OnItsWay(w: World) {
    w.handler.Streaming? ==>
      || w.page.revision >= w.handler.relayed
      || exists f :: f in w.wire && f.StateFrame? && f.state.revision == w.handler.relayed
  }

  ghost predicate Relaying(w: World) {
    match w.handler
    case Opening => w.hub.feed.taken == []
    case Streaming(last, greeting, relayed) =>
      && w.hub.base <= greeting <= relayed <= last
      && (last == greeting || exists e :: e in w.hub.feed.taken && e.id == last)
      && (forall e | e in w.hub.feed.taken && e.StateEvent? :: e.id <= relayed)
  }

  ghost predicate WorldInv(cfg: Config, cap: nat, first: State, w: World) {
    && HubInv(cfg, cap, w.hub) && Linked(cfg, first, w.hub)
    && (w.hub.feed.subscribed || w.hub.room.closed)
    && AllGenuine(first, w) && OnItsWay(w) && Relaying(w)
  }

  lemma GenuineAfter(first: State, w: World, more: seq<Event>)
    requires AllGenuine(first, w)
    ensures AllGenuine(first, w.(hub := w.hub.(log := w.hub.log + more)))
  {
    hide Genuine;
    forall st | Genuine(first, w.hub.log, st) ensures Genuine(first, w.hub.log + more, st) {
      GenuineLater(first, w.hub.log, more, st);
    }
  }

  lemma CallKeeps(cfg: Config, cap: nat, first: State, w: World, call: Call)
    requires WorldInv(cfg, cap, first, w) && Enabled(cfg, cap, w, CallRoom(call))
    ensures WorldInv(cfg, cap, first, Act(cfg, cap, w, CallRoom(call)))
  {
    hide Step, Delivery.FeedInv, Shown, Public, Genuine, Snapshot;
    var o, w' := Step(cfg, w.hub.room, call), Act(cfg, cap, w, CallRoom(call));
    CalledKeeps(cfg, cap, first, w.hub, call);
    ClosedBy(cfg, w.hub.room, call);
    StepPublishes(cfg, w.hub.room, call);
    GenuineAfter(first, w, o.events);
    SnapshotIsGenuine(cfg, first, w'.hub);
  }

  lemma ProduceKeeps(cfg: Config, cap: nat, first: State, w: World)
    requires WorldInv(cfg, cap, first, w) && Enabled(cfg, cap, w, Produce)
    ensures WorldInv(cfg, cap, first, Act(cfg, cap, w, Produce))
  {
    hide Delivery.FeedInv, Shown, Public, Genuine;
    MovedKeeps(cfg, cap, first, w.hub, Delivery.Produce);
  }

  lemma GreetKeeps(cfg: Config, cap: nat, first: State, w: World, now: int)
    requires WorldInv(cfg, cap, first, w) && Enabled(cfg, cap, w, Greet(now))
    ensures WorldInv(cfg, cap, first, Act(cfg, cap, w, Greet(now)))
  {
    hide Delivery.FeedInv, Shown, Genuine;
    var call, w' := Call(GetState, now), Act(cfg, cap, w, Greet(now));
    CalledKeeps(cfg, cap, first, w.hub, call);
    SnapshotIsGenuine(cfg, first, w.hub);
    assert w'.hub.log == w.hub.log;
    assert StateFrame(None, w'.handler.greeting, Snapshot(cfg, w.hub.room)) in w'.wire;
  }

  lemma RelayKeeps(cfg: Config, cap: nat, first: State, w: World)
    requires WorldInv(cfg, cap, first, w) && Enabled(cfg, cap, w, Relay)
    ensures WorldInv(cfg, cap, first, Act(cfg, cap, w, Relay))
  {
    hide Delivery.FeedInv, Shown, Public, Genuine;
    var e, w' := w.hub.feed.queue[0], Act(cfg, cap, w, Relay);
    MovedKeeps(cfg, cap, first, w.hub, Delivery.Receive);
    NextInLine(cfg, cap, first, w.hub);
    assert w'.hub.feed.taken == w.hub.feed.taken + [e];
    if e.StateEvent? {
      SentIsGenuine(cfg, first, w.hub, e);
    }
    if e.id > w.handler.last && e.StateEvent? {
      assert StateFrame(Some(e.change), e.id, e.state) in w'.wire;
    } else {
      assert forall f | f in w.wire :: f in w'.wire;
    }
    assert e in w'.hub.feed.taken;
  }

  lemma ArrivalKeeps(cfg: Config, cap: nat, first: State, w: World)
    requires WorldInv(cfg, cap, first, w) && Enabled(cfg, cap, w, FrameArrives)
    ensures WorldInv(cfg, cap, first, Act(cfg, cap, w, FrameArrives))
  {
    hide HubInv, Linked, Genuine;
    assert w.wire == [w.wire[0]] + w.wire[1..];
  }

  lemma ReplyKeeps(cfg: Config, cap: nat, first: State, w: World, st: State)
    requires WorldInv(cfg, cap, first, w) && Enabled(cfg, cap, w, ReplyArrives(st))
    ensures WorldInv(cfg, cap, first, Act(cfg, cap, w, ReplyArrives(st)))
  {
    hide HubInv, Linked, Genuine;
  }

  lemma ReconnectKeeps(cfg: Config, cap: nat, first: State, w: World)
    requires cap >= 1 && WorldInv(cfg, cap, first, w) && Enabled(cfg, cap, w, Reconnect)
    ensures WorldInv(cfg, cap, first, Act(cfg, cap, w, Reconnect))
  {
    hide Genuine, Shown, Public, Delivery.FeedInv;
    ResubscribedKeeps(cfg, cap, first, w.hub);
  }

  lemma BeatKeeps(cfg: Config, cap: nat, first: State, w: World)
    requires WorldInv(cfg, cap, first, w) && Enabled(cfg, cap, w, Beat)
    ensures WorldInv(cfg, cap, first, Act(cfg, cap, w, Beat))
  {
    hide HubInv, Linked, Genuine;
    assert forall f | f in w.wire :: f in Act(cfg, cap, w, Beat).wire;
  }

  lemma StepInv(cfg: Config, cap: nat, first: State, w: World, a: Action)
    requires cap >= 1 && WorldInv(cfg, cap, first, w) && Enabled(cfg, cap, w, a)
    ensures WorldInv(cfg, cap, first, Act(cfg, cap, w, a))
    ensures Act(cfg, cap, w, a).page.revision >= w.page.revision
  {
    hide WorldInv, HubInv, Step, Snapshot;
    match a {
      case CallRoom(call) => CallKeeps(cfg, cap, first, w, call);
      case Produce => ProduceKeeps(cfg, cap, first, w);
      case Greet(now) => GreetKeeps(cfg, cap, first, w, now);
      case Relay => RelayKeeps(cfg, cap, first, w);
      case Beat => BeatKeeps(cfg, cap, first, w);
      case FrameArrives => ArrivalKeeps(cfg, cap, first, w);
      case ReplyArrives(st) => ReplyKeeps(cfg, cap, first, w, st);
      case Reconnect => ReconnectKeeps(cfg, cap, first, w);
    }
  }

  // ---------- whole runs ----------

  ghost predicate Legal(cfg: Config, cap: nat, w: World, run: seq<Action>)
    decreases run
  {
    run == [] || (Enabled(cfg, cap, w, run[0]) && Legal(cfg, cap, Act(cfg, cap, w, run[0]), run[1..]))
  }

  ghost function End(cfg: Config, cap: nat, w: World, run: seq<Action>): World
    requires Legal(cfg, cap, w, run)
    decreases run
  {
    if run == [] then w else End(cfg, cap, Act(cfg, cap, w, run[0]), run[1..])
  }

  lemma {:induction false} RunInv(cfg: Config, cap: nat, first: State, w: World, run: seq<Action>)
    requires cap >= 1 && WorldInv(cfg, cap, first, w) && Legal(cfg, cap, w, run)
    ensures WorldInv(cfg, cap, first, End(cfg, cap, w, run))
    ensures End(cfg, cap, w, run).page.revision >= w.page.revision
    decreases run
  {
    hide WorldInv, Act, Enabled;
    if run != [] {
      StepInv(cfg, cap, first, w, run[0]);
      RunInv(cfg, cap, first, Act(cfg, cap, w, run[0]), run[1..]);
    }
  }

  /** The page loads the room's state once, then connects. */
  ghost function Loaded(cfg: Config, h: Hub): World {
    World(Resubscribed(h), Opening, [], {}, Snapshot(cfg, h.room))
  }

  lemma LoadedInv(cfg: Config, cap: nat, past: Past)
    requires Lived(cfg, cap, past)
    ensures cap >= 1
    ensures WorldInv(cfg, cap, First(cfg, past.subject, past.context), Loaded(cfg, Present(cfg, cap, past)))
  {
    hide Present;
    var h, first := Present(cfg, cap, past), First(cfg, past.subject, past.context);
    PresentIsLinked(cfg, cap, past);
    LinkedLoads(cfg, cap, first, h);
  }

  lemma LinkedLoads(cfg: Config, cap: nat, first: State, h: Hub)
    requires cap >= 1 && Linked(cfg, first, h)
    ensures WorldInv(cfg, cap, first, Loaded(cfg, h))
  {
    hide Shown, Public, Delivery.FeedInv;
    ResubscribedKeeps(cfg, cap, first, h);
    SnapshotIsGenuine(cfg, first, h);
  }

  /** However replies are delayed and reordered, however the stream overflows, reconnects and interleaves
      with calls, the page shows a genuine state of the room, as it was at some revision the room has
      reached, and going on from anywhere its revision never goes back. */
  lemma DisplayIsGenuineAndMonotone(cfg: Config, cap: nat, past: Past, run: seq<Action>, more: seq<Action>)
    requires Lived(cfg, cap, past) && Legal(cfg, cap, Loaded(cfg, Present(cfg, cap, past)), run)
    requires Legal(cfg, cap, End(cfg, cap, Loaded(cfg, Present(cfg, cap, past)), run), more)
    ensures var w := End(cfg, cap, Loaded(cfg, Present(cfg, cap, past)), run);
            && Genuine(First(cfg, past.subject, past.context), w.hub.log, w.page)
            && w.page.revision <= w.hub.room.eventSeq
            && w.page.revision <= End(cfg, cap, w, more).page.revision
  {
    hide Act, Enabled, Legal, End, Lived, Present;
    var h, first := Present(cfg, cap, past), First(cfg, past.subject, past.context);
    LoadedInv(cfg, cap, past);
    RunInv(cfg, cap, first, Loaded(cfg, h), run);
    RunInv(cfg, cap, first, End(cfg, cap, Loaded(cfg, h), run), more);
  }

  /** Nobody is calling, the stream has been greeted, and everything on the way has arrived. */
  ghost predicate Drained(w: World) {
    LockFree(w.hub) && w.handler.Streaming? && w.hub.feed.queue == [] && w.wire == [] && !w.hub.room.closed
  }

  lemma DrainedShowsNow(cfg: Config, cap: nat, first: State, w: World)
    requires WorldInv(cfg, cap, first, w) && Drained(w)
    ensures Content(w.page) == Public(cfg, w.hub.room)
  {
    hide Snapshot, Numbered, Delivery.Ascending, Public;
    var h, rev := w.hub, w.page.revision;
    var log, sent := h.log, h.feed.sent;
    assert log == log[..h.base] + sent;
    assert h.feed.taken + h.feed.queue == h.feed.taken;
    assert LastState(sent).Some? ==> LastState(sent).value in h.feed.taken;
    LastStateAppend(log[..h.base], sent);
    LateState(log, rev);
    if LastState(log[rev..]).Some? {
      SentSinceBase(log, h.base, rev, sent);
    }
    UnchangedSince(first, log, rev);
  }

  /** Convergence. Once the queue and the stream are drained the page shows what the room shows, whatever
      overflowed, was lost with an earlier connection or arrived out of order on the way; only the revision
      may differ, by reactions. */
  lemma DisplayConverges(cfg: Config, cap: nat, past: Past, run: seq<Action>)
    requires Lived(cfg, cap, past) && Legal(cfg, cap, Loaded(cfg, Present(cfg, cap, past)), run)
    requires Drained(End(cfg, cap, Loaded(cfg, Present(cfg, cap, past)), run))
    ensures var w := End(cfg, cap, Loaded(cfg, Present(cfg, cap, past)), run);
            Content(w.page) == Content(Snapshot(cfg, w.hub.room))
  {
    hide Act, Enabled, Legal, End, WorldInv, Drained, Lived, Present;
    var h, first := Present(cfg, cap, past), First(cfg, past.subject, past.context);
    LoadedInv(cfg, cap, past);
    RunInv(cfg, cap, first, Loaded(cfg, h), run);
    DrainedShowsNow(cfg, cap, first, End(cfg, cap, Loaded(cfg, h), run));
  }
}
