/** WaitForReveal: subscribe, check, then wait on the timer, a two-second recheck and the queue. */
module LongPoll {
  import opened Wire
  import opened RoomModel
  import opened Revisions
  import opened Hub
  import Delivery

  /** What the select statement can wake up with. A state is absent when the room is no longer there. */
  datatype Wake =
    | Cancelled
    | TimerFired(now: Option<State>)
    | Rechecked(now: Option<State>)
    | Received(event: Event)
    | ChannelClosed

  datatype Answer = Returned(state: State) | NotFound | Abandoned

  predicate ShowsReveal(e: Event) {
    e.StateEvent? && e.state.round.phase.Revealed?
  }

  /** The answer a wake-up leads to, if it ends the wait. */
  function AnswerTo(w: Wake): Option<Answer> {
    match w
    case Cancelled => Some(Abandoned)
    case TimerFired(None) => Some(NotFound)
    case TimerFired(Some(st)) => Some(Returned(st))
    case Rechecked(None) => Some(NotFound)
    case Rechecked(Some(st)) => if st.round.phase.Revealed? then Some(Returned(st)) else None
    case Received(e) => if ShowsReveal(e) then Some(Returned(e.state)) else None
    case ChannelClosed => Some(NotFound)
  }

  function AnswerAtOnce(first: Option<State>, patient: bool): Option<Answer> {
    match first
    case None => Some(NotFound)
    case Some(st) => if st.round.phase.Revealed? || !patient then Some(Returned(st)) else None
  }

  /** The room turns out not to be there any more. */
  predicate RoomGone(w: Wake) {
    w.ChannelClosed? || w == TimerFired(None) || w == Rechecked(None)
  }

  ghost predicate Brings(w: Wake, st: State) {
    w == TimerFired(Some(st)) || w == Rechecked(Some(st)) || (w.Received? && w.event.StateEvent? && w.event.state == st)
  }

  /** The wait ends when the caller gives up, the room is gone, a revealed state comes, or the timer fires; with that
      state, and with no other answer. */
  lemma AnswersMean(w: Wake)
    ensures AnswerTo(w) == Some(Abandoned) <==> w.Cancelled?
    ensures AnswerTo(w) == Some(NotFound) <==> RoomGone(w)
    ensures forall st :: AnswerTo(w) == Some(Returned(st)) <==>
                           Brings(w, st) && (st.round.phase.Revealed? || w.TimerFired?)
  {
  }

  lemma AnswersAtOnceMean(first: Option<State>, patient: bool)
    ensures AnswerAtOnce(first, patient) == Some(NotFound) <==> first.None?
    ensures forall st :: AnswerAtOnce(first, patient) == Some(Returned(st)) <==>
                           first == Some(st) && (patient ==> st.round.phase.Revealed?)
    ensures AnswerAtOnce(first, patient) != Some(Abandoned)
  {
  }

  /** The loop over the wake-ups that come. It answers with the first decisive one and consumes nothing
      after it; it goes on waiting only if none has been decisive. */
  method WaitForReveal(first: Option<State>, patient: bool, wakes: seq<Wake>)
    returns (answer: Option<Answer>, used: nat)
    ensures AnswerAtOnce(first, patient).Some? ==> answer == AnswerAtOnce(first, patient) && used == 0
    ensures AnswerAtOnce(first, patient).None? ==>
              && used <= |wakes|
              && (forall i | 0 <= i < used - 1 :: AnswerTo(wakes[i]).None?)
              && (answer.Some? ==> used > 0 && answer == AnswerTo(wakes[used - 1]))
              && (answer.None? ==> used == |wakes| && forall i | 0 <= i < |wakes| :: AnswerTo(wakes[i]).None?)
    ensures answer.Some? && answer.value.Returned? && used > 0 && !wakes[used - 1].TimerFired? ==>
              answer.value.state.round.phase.Revealed?
  {
    used := 0;
    if first.None? {
      return Some(NotFound), 0;
    }
    if first.value.round.phase.Revealed? || !patient {
      return Some(Returned(first.value)), 0;
    }
    while used < |wakes|
      invariant used <= |wakes|
      invariant forall i | 0 <= i < used :: AnswerTo(wakes[i]).None?
    {
      var wake := wakes[used];
      used := used + 1;
      match wake {
        case Cancelled => return Some(Abandoned), used;
        case TimerFired(now) => return Some(if now.Some? then Returned(now.value) else NotFound), used;
        case Rechecked(now) =>
          if now.None? {
            return Some(NotFound), used;
          }
          if now.value.round.phase.Revealed? {
            return Some(Returned(now.value)), used;
          }
        case ChannelClosed => return Some(NotFound), used;
        case Received(event) =>
          if event.StateEvent? && event.state.round.phase.Revealed? {
            return Some(Returned(event.state)), used;
          }
      }
    }
    return None, used;
  }

  // ---------- the caller among everything else that happens ----------

  /** A caller that has subscribed, one parked in its loop, or one that has its answer. */
  datatype Stage = Subscribed | Parked(checkedAt: nat) | Answered(answer: Answer, waited: bool, timedOut: bool)

  datatype World = World(hub: Hub, stage: Stage)

  datatype Action =
    | Others(call: Call)
    | Move(action: Delivery.Action)
    | Check(now: int)
    | Recheck(now: int)
    | Timer(now: int)
    | Take
    | SeeClosed
    | GiveUp

  ghost predicate Enabled(cfg: Config, cap: nat, w: World, a: Action) {
    HubInv(cfg, cap, w.hub) &&
    match a
    case Others(_) => LockFree(w.hub)
    case Move(action) => action.Produce? && Delivery.Enabled(cap, w.hub.feed, action)
    case Check(_) => w.stage.Subscribed? && LockFree(w.hub)
    case Recheck(_) => w.stage.Parked? && LockFree(w.hub)
    case Timer(_) => w.stage.Parked? && LockFree(w.hub)
    case Take => w.stage.Parked? && w.hub.feed.queue != []
    case SeeClosed => w.stage.Parked? && w.hub.feed.queue == [] && w.hub.feed.chanClosed
    case GiveUp => w.stage.Parked? && LockFree(w.hub)
  }

  /** Reading the state takes the room's lock; a room that is gone has no state. */
  ghost function Look(cfg: Config, h: Hub): Option<State> {
    if h.room.closed then None else Some(Snapshot(cfg, h.room))
  }

  ghost function Decide(stage: Stage, answer: Option<Answer>, timedOut: bool): Stage {
    if answer.Some? then Answered(answer.value, true, timedOut) else stage
  }

  ghost function Act(cfg: Config, cap: nat, w: World, a: Action): World
    requires Enabled(cfg, cap, w, a)
  {
    match a
    case Others(call) => w.(hub := Called(cfg, cap, w.hub, call))
    case Move(action) => w.(hub := Moved(cap, w.hub, action))
    case Check(now) =>
      var seen := Look(cfg, w.hub);
      var answer := AnswerAtOnce(seen, true);
      World(Called(cfg, cap, w.hub, Call(GetState, now)),
            if answer.Some? then Answered(answer.value, false, false) else Parked(seen.value.revision))
    case Recheck(now) =>
      World(Called(cfg, cap, w.hub, Call(GetState, now)),
            Decide(w.stage, AnswerTo(Rechecked(Look(cfg, w.hub))), false))
    case Timer(now) =>
      World(Called(cfg, cap, w.hub, Call(GetState, now)),
            Decide(w.stage, AnswerTo(TimerFired(Look(cfg, w.hub))), true))
    case Take =>
      World(Moved(cap, w.hub, Delivery.Receive), Decide(w.stage, AnswerTo(Received(w.hub.feed.queue[0])), false))
    case SeeClosed => w.(stage := Decide(w.stage, AnswerTo(ChannelClosed), false))
    case GiveUp => World(Moved(cap, w.hub, Delivery.Cancel), Decide(w.stage, AnswerTo(Cancelled), false))
  }

  ghost predicate SawNoReveal(events: seq<Event>) {
    forall e | e in events :: !ShowsReveal(e)
  }

  ghost predicate Waits(first: State, w: World) {
    match w.stage
    case Subscribed => w.hub.feed.taken == []
    case Parked(rev) =>
      && SawNoReveal(w.hub.feed.taken)
      && w.hub.base <= rev <= |w.hub.log| && VersionAt(first, w.hub.log, rev).round.phase.Voting?
    case Answered(answer, waited, timedOut) =>
      && (answer.Returned? ==> Genuine(first, w.hub.log, answer.state))
      && (answer.Returned? && !timedOut ==> answer.state.round.phase.Revealed?)
      && (answer.NotFound? ==> w.hub.room.closed)
  }

  ghost predicate WorldInv(cfg: Config, cap: nat, first: State, w: World) {
    && HubInv(cfg, cap, w.hub) && Linked(cfg, first, w.hub)
    && (!w.stage.Answered? ==> w.hub.feed.subscribed || w.hub.room.closed)
    && Waits(first, w)
  }

  lemma CallWaits(cfg: Config, cap: nat, first: State, w: World, call: Call)
    requires WorldInv(cfg, cap, first, w) && LockFree(w.hub)
    ensures WorldInv(cfg, cap, first, w.(hub := Called(cfg, cap, w.hub, call)))
  {
    hide Step, Delivery.FeedInv, Shown, Public;
    CalledKeeps(cfg, cap, first, w.hub, call);
    ClosedBy(cfg, w.hub.room, call);
    StepPublishes(cfg, w.hub.room, call);
    if w.stage.Parked? {
      var log, log' := w.hub.log, Called(cfg, cap, w.hub, call).log;
      assert log'[..w.stage.checkedAt] == log[..w.stage.checkedAt];
    }
    if w.stage.Answered? && w.stage.answer.Returned? {
      GenuineLater(first, w.hub.log, Step(cfg, w.hub.room, call).events, w.stage.answer.state);
    }
  }

  lemma LookIsNow(cfg: Config, cap: nat, first: State, h: Hub)
    requires Linked(cfg, first, h) && HubInv(cfg, cap, h)
    ensures VersionAt(first, h.log, |h.log|).round.phase == h.room.round.phase
    ensures Snapshot(cfg, h.room).revision == |h.log| && Snapshot(cfg, h.room).round.phase == h.room.round.phase
    ensures Genuine(first, h.log, Snapshot(cfg, h.room))
  {
    SnapshotIsGenuine(cfg, first, h);
  }

  lemma TakeWaits(cfg: Config, cap: nat, first: State, w: World)
    requires WorldInv(cfg, cap, first, w) && Enabled(cfg, cap, w, Take)
    ensures WorldInv(cfg, cap, first, Act(cfg, cap, w, Take))
  {
    hide Delivery.FeedInv, Shown, Public;
    MovedKeeps(cfg, cap, first, w.hub, Delivery.Receive);
    NextInLine(cfg, cap, first, w.hub);
    if w.hub.feed.queue[0].StateEvent? {
      SentIsGenuine(cfg, first, w.hub, w.hub.feed.queue[0]);
    }
  }

  lemma ProduceWaits(cfg: Config, cap: nat, first: State, w: World)
    requires WorldInv(cfg, cap, first, w) && Enabled(cfg, cap, w, Move(Delivery.Produce))
    ensures WorldInv(cfg, cap, first, Act(cfg, cap, w, Move(Delivery.Produce)))
  {
    hide Delivery.FeedInv, Shown, Public;
    MovedKeeps(cfg, cap, first, w.hub, Delivery.Produce);
  }

  lemma StepInv(cfg: Config, cap: nat, first: State, w: World, a: Action)
    requires WorldInv(cfg, cap, first, w) && Enabled(cfg, cap, w, a)
    ensures WorldInv(cfg, cap, first, Act(cfg, cap, w, a))
  {
    hide Step, Delivery.FeedInv, Shown, Public, HubInv, Linked, Snapshot;
    match a {
      case Others(call) => CallWaits(cfg, cap, first, w, call);
      case Move(_) => ProduceWaits(cfg, cap, first, w);
      case Check(now) => LookWaits(cfg, cap, first, w, a, now);
      case Recheck(now) => LookWaits(cfg, cap, first, w, a, now);
      case Timer(now) => LookWaits(cfg, cap, first, w, a, now);
      case Take => TakeWaits(cfg, cap, first, w);
      case SeeClosed => ClosedIsGone(cfg, cap, w);
      case GiveUp => MovedKeeps(cfg, cap, first, w.hub, Delivery.Cancel);
    }
  }

  lemma LookWaits(cfg: Config, cap: nat, first: State, w: World, a: Action, now: int)
    requires WorldInv(cfg, cap, first, w) && Enabled(cfg, cap, w, a)
    requires a == Check(now) || a == Recheck(now) || a == Timer(now)
    ensures WorldInv(cfg, cap, first, Act(cfg, cap, w, a))
  {
    hide Step, Delivery.FeedInv, Shown, Public;
    var call := Call(GetState, now);
    CallWaits(cfg, cap, first, w, call);
    LookIsNow(cfg, cap, first, w.hub);
    ReadingPublishesNothing(cfg, cap, w.hub, now);
  }

  lemma ClosedIsGone(cfg: Config, cap: nat, w: World)
    requires HubInv(cfg, cap, w.hub) && w.hub.feed.chanClosed && (w.hub.feed.subscribed || w.hub.room.closed)
    ensures w.hub.room.closed
  {
  }

  lemma ReadingPublishesNothing(cfg: Config, cap: nat, h: Hub, now: int)
    requires HubInv(cfg, cap, h) && LockFree(h)
    ensures var h' := Called(cfg, cap, h, Call(GetState, now));
            h'.log == h.log && h'.base == h.base && h'.feed.taken == h.feed.taken
  {
  }

  ghost predicate Legal(cfg: Config, cap: nat, w: World, run: seq<Action>)
    decreases run
  {
    run == [] || (Enabled(cfg, cap, w, run[0]) && Legal(cfg, cap, Act(cfg, cap, w, run[0]), run[1..]))
  }

  ghost function End(cfg: Config, cap: nat, w: World, run: seq<Action>): World
    requires Legal(cfg, cap, w, run)
    decreases run
  {
    if run == [] then w else End(cfg, cap, Act(cfg, cap, w, run[0]), run[1..])
  }

  lemma {:induction false} RunInv(cfg: Config, cap: nat, first: State, w: World, run: seq<Action>)
    requires WorldInv(cfg, cap, first, w) && Legal(cfg, cap, w, run)
    ensures WorldInv(cfg, cap, first, End(cfg, cap, w, run))
    decreases run
  {
    hide WorldInv, Act, Enabled;
    if run != [] {
      StepInv(cfg, cap, first, w, run[0]);
      RunInv(cfg, cap, first, Act(cfg, cap, w, run[0]), run[1..]);
    }
  }

  /** A caller subscribes between any two calls of a room that has lived through anything. */
  ghost function Arrived(h: Hub): World {
    World(Resubscribed(h), Subscribed)
  }

  lemma ArrivedInv(cfg: Config, cap: nat, past: Past)
    requires Lived(cfg, cap, past)
    ensures cap >= 1
    ensures WorldInv(cfg, cap, First(cfg, past.subject, past.context), Arrived(Present(cfg, cap, past)))
  {
    hide HubInv, Linked, Present;
    PresentIsLinked(cfg, cap, past);
    ResubscribedKeeps(cfg, cap, First(cfg, past.subject, past.context), Present(cfg, cap, past));
  }

  /** No lost wake-up. In every interleaving, whenever a caller is parked, nobody is in the middle of a call,
      and the live room stands revealed, its queue holds an event that shows the reveal: coalescing and
      reactions cannot have hidden it. */
  lemma NoLostWakeUp(cfg: Config, cap: nat, past: Past, run: seq<Action>)
    requires Lived(cfg, cap, past) && Legal(cfg, cap, Arrived(Present(cfg, cap, past)), run)
    ensures var w := End(cfg, cap, Arrived(Present(cfg, cap, past)), run);
            w.stage.Parked? && LockFree(w.hub) && !w.hub.room.closed && w.hub.room.round.phase.Revealed? ==>
              exists e :: e in w.hub.feed.queue && ShowsReveal(e)
  {
    hide Act, Enabled, Legal, End, Lived, Present;
    var h, first := Present(cfg, cap, past), First(cfg, past.subject, past.context);
    ArrivedInv(cfg, cap, past);
    RunInv(cfg, cap, first, Arrived(h), run);
    var w := End(cfg, cap, Arrived(h), run);
    if w.stage.Parked? && LockFree(w.hub) && !w.hub.room.closed && w.hub.room.round.phase.Revealed? {
      ParkedSees(cfg, cap, first, w);
    }
  }

  lemma ParkedSees(cfg: Config, cap: nat, first: State, w: World)
    requires WorldInv(cfg, cap, first, w) && w.stage.Parked? && LockFree(w.hub)
    requires !w.hub.room.closed && w.hub.room.round.phase.Revealed?
    ensures exists e :: e in w.hub.feed.queue && ShowsReveal(e)
  {
    hide Snapshot, Numbered, Delivery.Ascending;
    var h, rev := w.hub, w.stage.checkedAt;
    var log, sent := h.log, h.feed.sent;
    assert log == log[..h.base] + sent && log[..|log|] == log;
    LookIsNow(cfg, cap, first, h);
    var unread := LastState(log[rev..]);
    if unread.None? {
      UnchangedSince(first, log, rev);
    } else {
      LateState(log, rev);
      LastStateAppend(log[..h.base], sent);
      SentSinceBase(log, h.base, rev, sent);
      assert LastState(log) == LastState(sent);
      var e := LastState(sent).value;
      assert e in h.feed.taken + h.feed.queue;
      assert Shown(first, log) == Content(e.state);
    }
  }

  lemma AnsweredBy(cfg: Config, cap: nat, w: World, a: Action)
    requires Enabled(cfg, cap, w, a) && !w.stage.Answered?
    ensures var stage := Act(cfg, cap, w, a).stage;
            stage.Answered? ==> (stage.answer.Abandoned? ==> a.GiveUp?) && (stage.timedOut ==> a.Timer?)
  {
    hide HubInv, Step;
  }

  lemma {:induction false} AbandonedByChoice(cfg: Config, cap: nat, w: World, run: seq<Action>)
    requires Legal(cfg, cap, w, run) && !w.stage.Answered?
    ensures var stage := End(cfg, cap, w, run).stage;
            stage.Answered? ==>
              && (stage.answer.Abandoned? ==> GiveUp in run)
              && (stage.timedOut ==> exists now :: Timer(now) in run)
    decreases run
  {
    hide Act, Enabled;
    if run != [] {
      var next := Act(cfg, cap, w, run[0]);
      AnsweredBy(cfg, cap, w, run[0]);
      assert run[0] in run && forall a | a in run[1..] :: a in run;
      if next.stage.Answered? {
        AnsweredStays(cfg, cap, next, run[1..]);
      } else {
        AbandonedByChoice(cfg, cap, next, run[1..]);
      }
    }
  }

  lemma {:induction false} AnsweredStays(cfg: Config, cap: nat, w: World, run: seq<Action>)
    requires Legal(cfg, cap, w, run) && w.stage.Answered?
    ensures End(cfg, cap, w, run).stage == w.stage
    decreases run
  {
    if run != [] {
      AnsweredStays(cfg, cap, Act(cfg, cap, w, run[0]), run[1..]);
    }
  }

  /** Every answer is true: whoever is told that the room is gone, it is gone; a state returned is one the room had,
      and a revealed one unless the timer had to fire; and the wait is abandoned only by its caller. */
  lemma EveryAnswerIsTrue(cfg: Config, cap: nat, past: Past, run: seq<Action>)
    requires Lived(cfg, cap, past) && Legal(cfg, cap, Arrived(Present(cfg, cap, past)), run)
    ensures var w := End(cfg, cap, Arrived(Present(cfg, cap, past)), run);
            w.stage.Answered? ==>
              match w.stage.answer
              case NotFound => w.hub.room.closed
              case Abandoned => GiveUp in run
              case Returned(st) =>
                && Genuine(First(cfg, past.subject, past.context), w.hub.log, st)
                && (st.round.phase.Revealed? || exists now :: Timer(now) in run)
  {
    hide Act, Enabled, Legal, End, Lived, Present, Genuine;
    var start := Arrived(Present(cfg, cap, past));
    ArrivedInv(cfg, cap, past);
    RunInv(cfg, cap, First(cfg, past.subject, past.context), start, run);
    AbandonedByChoice(cfg, cap, start, run);
  }

  /** What ends the wait of a parked caller at once, and with what answer. */
  ghost function Ending(cfg: Config, h: Hub, a: Action): Option<Answer>
    requires a.Take? ==> h.feed.queue != []
  {
    match a
    case GiveUp => Some(Abandoned)
    case SeeClosed => Some(NotFound)
    case Timer(_) => Some(if h.room.closed then NotFound else Returned(Snapshot(cfg, h.room)))
    case Recheck(_) =>
      if h.room.closed then Some(NotFound)
      else if h.room.round.phase.Revealed? then Some(Returned(Snapshot(cfg, h.room)))
      else None
    case Take =>
      if h.feed.queue[0].StateEvent? && h.feed.queue[0].state.round.phase.Revealed?
      then Some(Returned(h.feed.queue[0].state))
      else None
    case _ => None
  }

  /** A reveal answers the moment it is taken or looked up, with the state it is seen in; the timer answers with the
      room as it stands; nothing else ends a wait but giving up and the room's end. */
  lemma WaitEndsExactlyWhen(cfg: Config, cap: nat, w: World, a: Action)
    requires Enabled(cfg, cap, w, a) && w.stage.Parked?
    ensures var stage, ending := Act(cfg, cap, w, a).stage, Ending(cfg, w.hub, a);
            if ending.Some? then stage.Answered? && stage.answer == ending.value && (stage.timedOut <==> a.Timer?)
            else stage == w.stage
  {
    hide Step, HubInv;
  }

  /** Any state returned after a wait and before the timer fires is a revealed one, and so is any state
      returned at once to a patient caller. */
  lemma OnlyRevealsBeforeTheTimer(cfg: Config, cap: nat, past: Past, run: seq<Action>)
    requires Lived(cfg, cap, past) && Legal(cfg, cap, Arrived(Present(cfg, cap, past)), run)
    ensures var w := End(cfg, cap, Arrived(Present(cfg, cap, past)), run);
            w.stage.Answered? && w.stage.answer.Returned? && !w.stage.timedOut ==>
              w.stage.answer.state.round.phase.Revealed?
  {
    hide Act, Enabled, Legal, End, Lived, Present;
    ArrivedInv(cfg, cap, past);
    RunInv(cfg, cap, First(cfg, past.subject, past.context), Arrived(Present(cfg, cap, past)), run);
  }
}
