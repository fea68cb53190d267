/** Blindness at the subscribers: not only what is published, but what every queue holds and every consumer took. */
module BlindDelivery {
  import opened RoomModel
  import opened Blindness
  import opened Hub
  import Delivery

  /** The same actions in the same order, but for what valid ballots say. */
  ghost predicate TwinHubs(cfg: Config, xs: seq<HubAction>, ys: seq<HubAction>) {
    |xs| == |ys| && forall i | 0 <= i < |xs| :: TwinActions(cfg, xs[i], ys[i])
  }

  predicate TwinActions(cfg: Config, x: HubAction, y: HubAction) {
    x == y || (x.Calls? && y.Calls? && Twins(cfg, x.call, y.call))
  }

  /** No call of the run reveals the round. */
  ghost predicate Unrevealed(cfg: Config, cap: nat, h: Hub, run: seq<HubAction>)
    requires Legal(cfg, cap, h, run)
    decreases run
  {
    run == [] || ((run[0].Calls? ==> !Reveals(cfg, h.room, run[0].call))
                  && Unrevealed(cfg, cap, Next(cfg, cap, h, run[0]), run[1..]))
  }

  /** One subscriber of two rooms: the rooms differ at most in what the open round's ballots say, and everything
      the subscriber has been sent, has queued and has taken is the same. */
  ghost predicate LookAlike(a: Hub, b: Hub) {
    SameButBallots(a.room, b.room) && b.log == a.log && b.base == a.base && b.feed == a.feed
  }

  lemma TwinCalls(cfg: Config, a: RoomState, b: RoomState, x: Call, y: Call)
    requires SameButBallots(a, b) && Twins(cfg, x, y) && !Reveals(cfg, a, x)
    ensures Step(cfg, a, x).events == Step(cfg, b, y).events
    ensures SameButBallots(Step(cfg, a, x).room, Step(cfg, b, y).room)
  {
    hide Step, Reveals;
    StepAgrees(cfg, a, b, x, y, a.round.votes.Keys);
  }

  lemma TwinsAreOfOneKind(cfg: Config, x: Call, y: Call)
    requires Twins(cfg, x, y)
    ensures x.op.Close? <==> y.op.Close?
  {
  }

  lemma NextLooksAlike(cfg: Config, cap: nat, a: Hub, b: Hub, x: HubAction, y: HubAction)
    requires LookAlike(a, b) && TwinActions(cfg, x, y) && Possible(cfg, cap, a, x)
    requires x.Calls? ==> !Reveals(cfg, a.room, x.call)
    ensures Possible(cfg, cap, b, y) && LookAlike(Next(cfg, cap, a, x), Next(cfg, cap, b, y))
  {
    hide Step, Reveals, Twins, SameButBallots, Delivery.FeedInv, Delivery.Act;
    SameButBallotsMeans(a.room, b.room);
    if x.Calls? {
      TwinWithItself(cfg, x.call);
      TwinCalls(cfg, a.room, b.room, x.call, y.call);
      TwinsAreOfOneKind(cfg, x.call, y.call);
    }
  }

  lemma TwinWithItself(cfg: Config, x: Call)
    ensures Twins(cfg, x, x)
  {
  }

  lemma SameButBallotsMeans(a: RoomState, b: RoomState)
    requires SameButBallots(a, b)
    ensures a.eventSeq == b.eventSeq && a.closed == b.closed
  {
  }

  /** Blindness for a subscriber, whatever its consumer does and when. Take two look-alike rooms and one
      interleaving of calls, deliveries, takings, cancellations and new subscriptions in both, but for what valid
      ballots say. Until the round is revealed what is possible in the one is possible in the other, and the
      subscriber's queue and everything its consumer took are the same. */
  lemma {:induction false} QueuesAreBlind(cfg: Config, cap: nat, a: Hub, b: Hub, xs: seq<HubAction>, ys: seq<HubAction>)
    requires LookAlike(a, b) && TwinHubs(cfg, xs, ys)
    requires Legal(cfg, cap, a, xs) && Unrevealed(cfg, cap, a, xs)
    ensures Legal(cfg, cap, b, ys)
    ensures var p, q := End(cfg, cap, a, xs), End(cfg, cap, b, ys);
            LookAlike(p, q) && p.feed.queue == q.feed.queue && p.feed.taken == q.feed.taken
    decreases xs
  {
    hide Next, Possible, TwinActions, Reveals, SameButBallots;
    if xs != [] {
      NextLooksAlike(cfg, cap, a, b, xs[0], ys[0]);
      QueuesAreBlind(cfg, cap, Next(cfg, cap, a, xs[0]), Next(cfg, cap, b, ys[0]), xs[1..], ys[1..]);
    }
  }
}
