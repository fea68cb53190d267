/** A room together with one of its subscriptions, call by call and step by step. */
module Hub {
  import opened Wire
  import opened RoomModel
  import opened Revisions
  import Delivery
  import RoundStats

  /** `log` is everything the room ever published, `base` how much of it came before the subscription. */
  datatype Hub = Hub(room: RoomState, log: seq<Event>, base: nat, feed: Delivery.Feed)

  ghost predicate LockFree(h: Hub) {
    h.feed.todo == []
  }

  /** A call that has the room's lock: it changes the room and starts fanning out what it publishes. */
  ghost function Called(cfg: Config, cap: nat, h: Hub, call: Call): Hub
    requires LockFree(h) && HubInv(cfg, cap, h)
  {
    var o := Step(cfg, h.room, call);
    StepPublishes(cfg, h.room, call);
    Hub(o.room, h.log + o.events, h.base,
        Delivery.Act(cap, h.feed, if call.op.Close? then Delivery.CloseRoom else Delivery.Fan(o.events)))
  }

  ghost function Moved(cap: nat, h: Hub, a: Delivery.Action): Hub
    requires Delivery.Enabled(cap, h.feed, a)
  {
    h.(feed := Delivery.Act(cap, h.feed, a))
  }

  ghost predicate Local(a: Delivery.Action) {
    a.Produce? || a.Receive? || a.Cancel?
  }

  ghost function Resubscribed(h: Hub): Hub {
    h.(base := |h.log|, feed := Delivery.Subscribed(|h.log|, h.room.closed))
  }

  /** What the room showed before it published anything. */
  ghost function First(cfg: Config, subject: string, context: string): State {
    Public(cfg, NewRoom(subject, context, 0))
  }

  /** The room shows what its log amounts to, and the subscriber was sent the log since it subscribed. */
  ghost predicate Linked(cfg: Config, first: State, h: Hub) {
    && h.room.eventSeq == |h.log| == h.feed.last && h.base <= |h.log|
    && Numbered(h.log, 0)
    && Public(cfg, h.room) == Shown(first, h.log)
    && h.feed.roomClosed == h.room.closed
    && (forall e | e in h.feed.sent :: e in h.log)
    && (h.feed.subscribed ==> h.log == h.log[..h.base] + h.feed.sent + h.feed.todo)
  }

  ghost predicate HubInv(cfg: Config, cap: nat, h: Hub) {
    && h.room.eventSeq == h.feed.last
    && h.feed.roomClosed == h.room.closed
    && Delivery.FeedInv(cap, h.base, h.feed)
  }

  lemma FreshHub(cfg: Config, cap: nat, subject: string, context: string, now: int)
    requires cap >= 1
    ensures var h := Hub(NewRoom(subject, context, now), [], 0, Delivery.Subscribed(0, false));
            HubInv(cfg, cap, h) && Linked(cfg, First(cfg, subject, context), h)
  {
  }

  lemma CalledKeeps(cfg: Config, cap: nat, first: State, h: Hub, call: Call)
    requires LockFree(h) && HubInv(cfg, cap, h) && Linked(cfg, first, h)
    ensures HubInv(cfg, cap, Called(cfg, cap, h, call)) && Linked(cfg, first, Called(cfg, cap, h, call))
  {
    hide Delivery.FeedInv, Public, Step, Shown, Numbered;
    var o, h' := Step(cfg, h.room, call), Called(cfg, cap, h, call);
    StepPublishes(cfg, h.room, call);
    ClosedBy(cfg, h.room, call);
    ShownAppend(first, h.log, o.events);
    var a := if call.op.Close? then Delivery.CloseRoom else Delivery.Fan(o.events);
    Delivery.StepInv(cap, h.base, h.feed, a);
    NumberedAppend(h.log, o.events);
    assert h'.log[..h.base] == h.log[..h.base];
  }

  lemma NumberedAppend(a: seq<Event>, b: seq<Event>)
    requires Numbered(a, 0) && Numbered(b, |a|)
    ensures Numbered(a + b, 0)
  {
  }

  lemma ClosedBy(cfg: Config, r: RoomState, call: Call)
    ensures Step(cfg, r, call).room.closed == (r.closed || call.op.Close?)
    ensures call.op.Close? ==> Step(cfg, r, call).events == []
  {
    hide Snapshot, RoundStats.StatsOf, Ballots, AllVoted;
  }

  lemma SentStaysLogged(cap: nat, h: Hub, a: Delivery.Action)
    requires Delivery.Enabled(cap, h.feed, a) && Local(a)
    requires forall e | e in h.feed.sent :: e in h.log
    requires h.base <= |h.log| && (h.feed.subscribed ==> h.log == h.log[..h.base] + h.feed.sent + h.feed.todo)
    ensures forall e | e in Moved(cap, h, a).feed.sent :: e in h.log
  {
    if h.feed.subscribed && h.feed.todo != [] {
      assert h.feed.todo[0] in h.log;
    }
  }

  lemma MovedKeeps(cfg: Config, cap: nat, first: State, h: Hub, a: Delivery.Action)
    requires HubInv(cfg, cap, h) && Linked(cfg, first, h) && Delivery.Enabled(cap, h.feed, a) && Local(a)
    ensures HubInv(cfg, cap, Moved(cap, h, a)) && Linked(cfg, first, Moved(cap, h, a))
  {
    hide Delivery.FeedInv, Delivery.Act, Shown, Public;
    Delivery.StepInv(cap, h.base, h.feed, a);
    Delivery.NothingLeavesTheLog(cap, h.base, h.feed, a);
    var f, f', sofar := h.feed, Moved(cap, h, a).feed, h.log[..h.base];
    SentStaysLogged(cap, h, a);
    if f'.subscribed {
      assert sofar + f.sent + f.todo == sofar + (f.sent + f.todo);
      assert sofar + f'.sent + f'.todo == sofar + (f'.sent + f'.todo);
    }
  }

  lemma ResubscribedKeeps(cfg: Config, cap: nat, first: State, h: Hub)
    requires cap >= 1 && Linked(cfg, first, h)
    ensures HubInv(cfg, cap, Resubscribed(h)) && Linked(cfg, first, Resubscribed(h))
  {
    hide Delivery.FeedInv;
    Delivery.SubscribedInv(cap, |h.log|, h.room.closed);
  }

  // ---------- versions ----------

  /** A state of this room: what its log amounted to at the state's revision. */
  ghost predicate Genuine(first: State, log: seq<Event>, st: State) {
    st.revision <= |log| && Content(st) == VersionAt(first, log, st.revision)
  }

  lemma GenuineLater(first: State, log: seq<Event>, more: seq<Event>, st: State)
    requires Genuine(first, log, st)
    ensures Genuine(first, log + more, st)
  {
    assert (log + more)[..st.revision] == log[..st.revision];
  }

  lemma SnapshotIsGenuine(cfg: Config, first: State, h: Hub)
    requires Linked(cfg, first, h)
    ensures Genuine(first, h.log, Snapshot(cfg, h.room))
  {
    assert h.log[..|h.log|] == h.log;
  }

  lemma SentIsGenuine(cfg: Config, first: State, h: Hub, e: Event)
    requires Linked(cfg, first, h) && e in h.log && e.StateEvent?
    ensures Genuine(first, h.log, e.state) && e.state.revision == e.id
  {
    var i :| 0 <= i < |h.log| && h.log[i] == e;
    EventIsVersion(first, h.log, i);
  }

  lemma NextInLine(cfg: Config, cap: nat, first: State, h: Hub)
    requires HubInv(cfg, cap, h) && Linked(cfg, first, h) && h.feed.queue != []
    ensures var e := h.feed.queue[0];
            && e in h.log && e.id <= |h.log|
            && (forall t | t in h.feed.taken :: t.id < e.id)
  {
    var seen, n := Delivery.Seen(h.feed), |h.feed.taken|;
    assert seen[n] == h.feed.queue[0];
    forall t | t in h.feed.taken ensures t.id < seen[n].id {
      var i :| 0 <= i < n && h.feed.taken[i] == t;
      assert seen[i] == t;
    }
  }

  /** Nothing changes between a revision and now unless a state was published in between. */
  lemma UnchangedSince(first: State, log: seq<Event>, rev: nat)
    requires rev <= |log| && LastState(log[rev..]).None?
    ensures VersionAt(first, log, rev) == Shown(first, log)
  {
    assert log == log[..rev] + log[rev..];
    LastStateAppend(log[..rev], log[rev..]);
  }

  lemma {:induction false} LateState(log: seq<Event>, rev: nat)
    requires Numbered(log, 0) && rev <= |log|
    ensures LastState(log[rev..]).Some? ==> LastState(log) == LastState(log[rev..]) && LastState(log).value.id > rev
  {
    assert log == log[..rev] + log[rev..];
    LastStateAppend(log[..rev], log[rev..]);
    if LastState(log[rev..]).Some? {
      var i :| 0 <= i < |log[rev..]| && log[rev..][i] == LastState(log[rev..]).value;
      assert log[rev + i].id == rev + i + 1;
    }
  }

  /** A state among the unread events is a state among those sent. */
  lemma SentSinceBase(log: seq<Event>, base: nat, rev: nat, sent: seq<Event>)
    requires base <= rev <= |log| && log == log[..base] + sent
    requires LastState(log[rev..]).Some?
    ensures LastState(sent).Some?
  {
    assert sent == sent[..rev - base] + log[rev..];
    LastStateAppend(sent[..rev - base], log[rev..]);
  }

  // ---------- runs from a new room ----------

  datatype HubAction = Calls(call: Call) | Moves(move: Delivery.Action) | Resubscribes

  ghost predicate Possible(cfg: Config, cap: nat, h: Hub, a: HubAction) {
    HubInv(cfg, cap, h) &&
    match a
    case Calls(_) => LockFree(h)
    case Moves(move) => Local(move) && Delivery.Enabled(cap, h.feed, move)
    case Resubscribes => LockFree(h)
  }

  ghost function Next(cfg: Config, cap: nat, h: Hub, a: HubAction): Hub
    requires Possible(cfg, cap, h, a)
  {
    match a
    case Calls(call) => Called(cfg, cap, h, call)
    case Moves(move) => Moved(cap, h, move)
    case Resubscribes => Resubscribed(h)
  }

  ghost predicate Legal(cfg: Config, cap: nat, h: Hub, run: seq<HubAction>)
    decreases run
  {
    run == [] || (Possible(cfg, cap, h, run[0]) && Legal(cfg, cap, Next(cfg, cap, h, run[0]), run[1..]))
  }

  ghost function End(cfg: Config, cap: nat, h: Hub, run: seq<HubAction>): Hub
    requires Legal(cfg, cap, h, run)
    decreases run
  {
    if run == [] then h else End(cfg, cap, Next(cfg, cap, h, run[0]), run[1..])
  }

  lemma NextKeeps(cfg: Config, cap: nat, first: State, h: Hub, a: HubAction)
    requires cap >= 1 && Linked(cfg, first, h) && Possible(cfg, cap, h, a)
    ensures HubInv(cfg, cap, Next(cfg, cap, h, a)) && Linked(cfg, first, Next(cfg, cap, h, a))
  {
    hide Linked, Called, Moved, Resubscribed, Delivery.FeedInv;
    match a {
      case Calls(call) => CalledKeeps(cfg, cap, first, h, call);
      case Moves(move) => MovedKeeps(cfg, cap, first, h, move);
      case Resubscribes => ResubscribedKeeps(cfg, cap, first, h);
    }
  }

  lemma {:induction false} RunKeeps(cfg: Config, cap: nat, first: State, h: Hub, run: seq<HubAction>)
    requires cap >= 1 && HubInv(cfg, cap, h) && Linked(cfg, first, h) && Legal(cfg, cap, h, run)
    ensures HubInv(cfg, cap, End(cfg, cap, h, run)) && Linked(cfg, first, End(cfg, cap, h, run))
    decreases run
  {
    hide Linked, HubInv, Next, Possible;
    if run != [] {
      NextKeeps(cfg, cap, first, h, run[0]);
      RunKeeps(cfg, cap, first, Next(cfg, cap, h, run[0]), run[1..]);
    }
  }

  /** A new room, one subscriber of it, and what the two have been through since. */
  datatype Past = Past(subject: string, context: string, now: int, run: seq<HubAction>)

  ghost function NewHub(p: Past): Hub {
    Hub(NewRoom(p.subject, p.context, p.now), [], 0, Delivery.Subscribed(0, false))
  }

  /** What has happened could have, and nobody is in the middle of a call. */
  ghost predicate Lived(cfg: Config, cap: nat, p: Past) {
    cap >= 1 && Legal(cfg, cap, NewHub(p), p.run) && LockFree(End(cfg, cap, NewHub(p), p.run))
  }

  ghost function Present(cfg: Config, cap: nat, p: Past): Hub
    requires Lived(cfg, cap, p)
  {
    End(cfg, cap, NewHub(p), p.run)
  }

  /** Whatever a new room and its subscriber go through, the room shows what its log amounts to, and the
      subscriber was sent the log since it last subscribed. */
  lemma PresentIsLinked(cfg: Config, cap: nat, p: Past)
    requires Lived(cfg, cap, p)
    ensures HubInv(cfg, cap, Present(cfg, cap, p))
    ensures Linked(cfg, First(cfg, p.subject, p.context), Present(cfg, cap, p))
  {
    hide Linked, HubInv, Legal, End;
    FreshHub(cfg, cap, p.subject, p.context, p.now);
    RunKeeps(cfg, cap, First(cfg, p.subject, p.context), NewHub(p), p.run);
  }
}
