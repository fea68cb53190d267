/** One subscriber's bounded queue, between a producer holding the room's lock and a consumer that may take
    from the queue at any moment, even between two steps of the producer's drain loop. */
module Delivery {
  import opened Wire
  import opened Revisions

  /** Where the producer is with the event at hand: offering it, draining a full queue, or sending at last. */
  datatype Stage = Offering | Draining | Sending

  /** `todo` is what the current call has yet to fan out; the lock is held while there is any.
      `taken` and `sent` record what the consumer took, and everything fanned out while subscribed.
      `lossless` says that nothing has been dropped yet. `fault` would be a panic: a send on a closed
      channel, or a second close. */
  datatype Feed = Feed(todo: seq<Event>, stage: Stage, last: nat, subscribed: bool, chanClosed: bool,
                       roomClosed: bool, queue: seq<Event>, taken: seq<Event>, sent: seq<Event>,
                       lossless: bool, fault: bool)

  datatype Action = Fan(events: seq<Event>) | Produce | Receive | Cancel | CloseRoom

  ghost function Subscribed(last: nat, roomClosed: bool): Feed {
    Feed([], Offering, last, !roomClosed, roomClosed, roomClosed, [], [], [], true, false)
  }

  /** A send blocks while the queue is full; everything but taking needs the lock. */
  ghost predicate Enabled(cap: nat, f: Feed, a: Action) {
    match a
    case Fan(events) => f.todo == [] && Numbered(events, f.last) && (f.roomClosed ==> events == [])
    case Produce => f.todo != [] && (f.subscribed && f.stage.Sending? ==> |f.queue| < cap)
    case Receive => f.queue != []
    case Cancel => f.todo == []
    case CloseRoom => f.todo == []
  }

  ghost function Next(f: Feed): Feed
    requires f.todo != []
  {
    f.(todo := f.todo[1..], stage := Offering)
  }

  ghost function Push(f: Feed): Feed
    requires f.todo != []
  {
    Next(f).(queue := f.queue + [f.todo[0]], sent := f.sent + [f.todo[0]], fault := f.fault || f.chanClosed)
  }

  ghost function Act(cap: nat, f: Feed, a: Action): Feed
    requires Enabled(cap, f, a)
  {
    match a
    case Fan(events) => f.(todo := events, stage := Offering, last := f.last + |events|)
    case Produce =>
      if !f.subscribed then Next(f)
      else (match f.stage
            case Offering =>
              if |f.queue| < cap then Push(f)
              else if f.todo[0].ReactionEvent? then Next(f).(sent := f.sent + [f.todo[0]], lossless := false)
              else f.(stage := Draining)
            case Draining =>
              if f.queue != [] then f.(queue := f.queue[1..], lossless := false) else f.(stage := Sending)
            case Sending => Push(f))
    case Receive => f.(queue := f.queue[1..], taken := f.taken + [f.queue[0]])
    case Cancel => f.(subscribed := false)
    case CloseRoom =>
      if f.roomClosed then f
      else f.(roomClosed := true, subscribed := false,
              fault := f.fault || (f.subscribed && f.chanClosed), chanClosed := f.chanClosed || f.subscribed)
  }

  // ---------- what every step keeps ----------

  ghost predicate Ascending(events: seq<Event>) {
    forall i, j | 0 <= i < j < |events| :: events[i].id < events[j].id
  }

  ghost predicate UpTo(events: seq<Event>, last: nat) {
    forall e | e in events :: e.id <= last
  }

  ghost function Seen(f: Feed): seq<Event> {
    f.taken + f.queue
  }

  /** How far the numbering has got with the events already fanned out. */
  ghost function FannedOut(f: Feed): int {
    f.last - |f.todo|
  }

  ghost predicate Ordered(base: nat, f: Feed) {
    && FannedOut(f) >= base
    && Numbered(f.todo, FannedOut(f))
    && Ascending(Seen(f)) && UpTo(Seen(f), FannedOut(f))
    && (forall e | e in Seen(f) :: e in f.sent)
    && (f.lossless ==> Seen(f) == f.sent)
    && (f.subscribed ==> Numbered(f.sent, base) && base + |f.sent| == FannedOut(f))
  }

  ghost predicate Staged(cap: nat, f: Feed) {
    && |f.queue| <= cap
    && (f.stage.Offering? ==> LastState(Seen(f)) == LastState(f.sent))
    && (!f.stage.Offering? ==> f.subscribed && f.todo != [] && f.todo[0].StateEvent?)
    && (f.stage.Sending? ==> f.queue == [])
  }

  ghost predicate Lifetime(f: Feed) {
    && !f.fault
    && (f.subscribed ==> !f.chanClosed && !f.roomClosed)
    && (f.roomClosed ==> f.todo == [])
  }

  ghost predicate FeedInv(cap: nat, base: nat, f: Feed) {
    cap >= 1 && Ordered(base, f) && Staged(cap, f) && Lifetime(f)
  }

  lemma SubscribedInv(cap: nat, base: nat, roomClosed: bool)
    requires cap >= 1
    ensures FeedInv(cap, base, Subscribed(base, roomClosed))
  {
  }

  lemma NumberedSplit(events: seq<Event>, from: nat, m: nat)
    requires Numbered(events, from) && m <= |events|
    ensures Numbered(events[..m], from) && Numbered(events[m..], from + m)
  {
  }

  lemma NumberedJoin(a: seq<Event>, b: seq<Event>, from: nat)
    requires Numbered(a, from) && Numbered(b, from + |a|)
    ensures Numbered(a + b, from)
  {
  }

  lemma AscendingAppend(events: seq<Event>, e: Event, last: nat)
    requires Ascending(events) && UpTo(events, last) && e.id > last
    ensures Ascending(events + [e])
  {
  }

  lemma PushInv(cap: nat, base: nat, f: Feed)
    requires FeedInv(cap, base, f) && f.todo != [] && f.subscribed && |f.queue| < cap
    requires f.stage.Offering? || f.stage.Sending?
    ensures FeedInv(cap, base, Push(f))
  {
    var e, f' := f.todo[0], Push(f);
    assert Seen(f') == Seen(f) + [e];
    assert e.id == FannedOut(f) + 1;
    AscendingAppend(Seen(f), e, FannedOut(f));
    NumberedSplit(f.todo, FannedOut(f), 1);
    NumberedJoin(f.sent, [e], base);
    LastStateAppend(Seen(f), [e]);
    LastStateAppend(f.sent, [e]);
    assert [e][..0] == [];
  }

  lemma DropInv(cap: nat, base: nat, f: Feed)
    requires FeedInv(cap, base, f) && f.todo != [] && f.stage.Offering?
    requires f.subscribed ==> f.todo[0].ReactionEvent?
    ensures FeedInv(cap, base, Next(f).(sent := if f.subscribed then f.sent + [f.todo[0]] else f.sent,
                                        lossless := if f.subscribed then false else f.lossless))
  {
    var e := f.todo[0];
    NumberedSplit(f.todo, FannedOut(f), 1);
    if f.subscribed {
      NumberedJoin(f.sent, [e], base);
      LastStateAppend(f.sent, [e]);
      assert [e][..0] == [];
    }
  }

  lemma TakeInv(cap: nat, base: nat, f: Feed)
    requires FeedInv(cap, base, f) && f.queue != []
    ensures FeedInv(cap, base, Act(cap, f, Receive))
  {
    assert Seen(Act(cap, f, Receive)) == Seen(f);
  }

  lemma DrainInv(cap: nat, base: nat, f: Feed)
    requires FeedInv(cap, base, f) && f.queue != [] && f.stage.Draining?
    ensures FeedInv(cap, base, f.(queue := f.queue[1..], lossless := false))
  {
    var f' := f.(queue := f.queue[1..], lossless := false);
    var before, after := Seen(f), Seen(f');
    var n := |f.taken|;
    forall i | 0 <= i < |after| ensures after[i] == before[if i < n then i else i + 1] {
    }
  }

  /** Every step of every interleaving keeps the invariant. */
  lemma StepInv(cap: nat, base: nat, f: Feed, a: Action)
    requires FeedInv(cap, base, f) && Enabled(cap, f, a)
    ensures FeedInv(cap, base, Act(cap, f, a))
  {
    match a {
      case Produce =>
        if !f.subscribed {
          DropInv(cap, base, f);
        } else {
          match f.stage {
            case Offering =>
              if |f.queue| < cap {
                PushInv(cap, base, f);
              } else if f.todo[0].ReactionEvent? {
                DropInv(cap, base, f);
              }
            case Draining =>
              if f.queue != [] {
                DrainInv(cap, base, f);
              }
            case Sending => PushInv(cap, base, f);
          }
        }
      case Receive => TakeInv(cap, base, f);
      case Fan(events) =>
      case Cancel =>
      case CloseRoom =>
    }
  }

  /** Fanning out moves events from what is to do to what is sent, and changes nothing else of the record. */
  lemma NothingLeavesTheLog(cap: nat, base: nat, f: Feed, a: Action)
    requires FeedInv(cap, base, f) && Enabled(cap, f, a) && (a.Produce? || a.Receive? || a.Cancel?)
    ensures var f' := Act(cap, f, a);
            && f'.last == f.last && f'.roomClosed == f.roomClosed
            && (f'.subscribed ==> f.subscribed && f'.sent + f'.todo == f.sent + f.todo)
  {
    if a.Produce? {
      assert f.todo == [f.todo[0]] + f.todo[1..];
    }
  }

  /** The consumer takes `n` events in a row. */
  ghost function TakeSome(f: Feed, n: nat): Feed
    requires n <= |f.queue|
  {
    f.(queue := f.queue[n..], taken := f.taken + f.queue[..n])
  }

  lemma SeenStays(f: Feed, n: nat)
    requires n <= |f.queue|
    ensures Seen(TakeSome(f, n)) == Seen(f)
    ensures f.taken <= TakeSome(f, n).taken
  {
    assert f.queue == f.queue[..n] + f.queue[n..];
  }

  lemma {:induction false} TakeSomeIsReceiving(cap: nat, base: nat, f: Feed, n: nat)
    requires FeedInv(cap, base, f) && n <= |f.queue|
    ensures FeedInv(cap, base, TakeSome(f, n))
    ensures n > 0 ==> TakeSome(f, n) == Act(cap, TakeSome(f, n - 1), Receive)
  {
    hide FeedInv;
    if n == 0 {
      assert f.queue[0..] == f.queue && f.taken + f.queue[..0] == f.taken;
    } else {
      TakeSomeIsReceiving(cap, base, f, n - 1);
      var before := TakeSome(f, n - 1);
      TakeInv(cap, base, before);
      assert before.queue[1..] == f.queue[n..];
      assert before.taken + [before.queue[0]] == f.taken + f.queue[..n];
    }
  }

  // ---------- whole runs ----------

  ghost predicate Legal(cap: nat, f: Feed, run: seq<Action>)
    decreases run
  {
    run == [] || (Enabled(cap, f, run[0]) && Legal(cap, Act(cap, f, run[0]), run[1..]))
  }

  ghost function End(cap: nat, f: Feed, run: seq<Action>): Feed
    requires Legal(cap, f, run)
    decreases run
  {
    if run == [] then f else End(cap, Act(cap, f, run[0]), run[1..])
  }

  lemma {:induction false} RunInv(cap: nat, base: nat, f: Feed, run: seq<Action>)
    requires FeedInv(cap, base, f) && Legal(cap, f, run)
    ensures FeedInv(cap, base, End(cap, f, run))
    decreases run
  {
    hide FeedInv, Act, Enabled;
    if run != [] {
      StepInv(cap, base, f, run[0]);
      RunInv(cap, base, Act(cap, f, run[0]), run[1..]);
    }
  }

  /** Latest-state delivery. Whatever the interleaving of calls, taking, cancelling and closing, nothing is
      ever sent on or closed over a closed channel; what was taken and is queued comes in strictly
      increasing order, is all of it unless something overflowed, and whenever the producer is not in the
      middle of draining it ends, as far as states go, in the newest state fanned out since subscribing. */
  lemma LatestStateIsDelivered(cap: nat, base: nat, roomClosed: bool, run: seq<Action>)
    requires cap >= 1 && Legal(cap, Subscribed(base, roomClosed), run)
    ensures var f := End(cap, Subscribed(base, roomClosed), run);
            && !f.fault && |f.queue| <= cap
            && Ascending(f.taken + f.queue)
            && (forall e | e in f.taken + f.queue :: e in f.sent)
            && (f.lossless ==> f.taken + f.queue == f.sent)
            && (f.stage.Offering? ==> LastState(f.taken + f.queue) == LastState(f.sent))
            && (f.subscribed ==> Numbered(f.sent, base) && base + |f.sent| + |f.todo| == f.last)
            && (f.todo == [] ==> f.stage.Offering?)
  {
    SubscribedInv(cap, base, roomClosed);
    RunInv(cap, base, Subscribed(base, roomClosed), run);
  }

  /** The producer never blocks: while it has work, its next step is possible. */
  lemma ProducerNeverBlocks(cap: nat, base: nat, f: Feed)
    requires FeedInv(cap, base, f) && f.todo != []
    ensures Enabled(cap, f, Produce)
  {
  }

  /** Steps left before the lock can be released, the consumer's included. */
  ghost function Work(f: Feed): nat {
    if f.todo == [] then 0
    else 4 * (|f.todo| - 1) + |f.queue| + (match f.stage case Offering => 3 case Draining => 2 case Sending => 1)
  }

  /** A step by either side uses up some of the work. */
  lemma StepsUseWork(cap: nat, base: nat, f: Feed, a: Action)
    requires FeedInv(cap, base, f) && f.todo != [] && Enabled(cap, f, a) && (a.Produce? || a.Receive?)
    ensures Work(Act(cap, f, a)) < Work(f) <= cap + 4 * |f.todo|
  {
  }

  /** The run is the producer's and the consumer's alone, and holds the lock until its end. */
  ghost predicate HoldsLock(cap: nat, f: Feed, run: seq<Action>)
    decreases run
  {
    run == [] || (&& f.todo != [] && (run[0].Produce? || run[0].Receive?) && Enabled(cap, f, run[0])
                  && HoldsLock(cap, Act(cap, f, run[0]), run[1..]))
  }

  /** Fanning out terminates: however often the consumer gets in between, the lock is held for at most as
      many steps of either as the queue is long and four for each event. */
  lemma {:induction false} FanoutTerminates(cap: nat, base: nat, f: Feed, run: seq<Action>)
    requires FeedInv(cap, base, f) && HoldsLock(cap, f, run)
    ensures |run| <= Work(f) <= cap + 4 * |f.todo|
    decreases run
  {
    hide FeedInv, Act;
    if run != [] {
      StepInv(cap, base, f, run[0]);
      StepsUseWork(cap, base, f, run[0]);
      FanoutTerminates(cap, base, Act(cap, f, run[0]), run[1..]);
    } else if f.todo != [] {
      ProducerNeverBlocks(cap, base, f);
      StepsUseWork(cap, base, f, Produce);
    }
  }

  // ---------- what gets lost ----------

  /** The producer never finds the queue full. */
  ghost predicate NeverFull(cap: nat, f: Feed, run: seq<Action>)
    requires Legal(cap, f, run)
    decreases run
  {
    run == [] || ((run[0].Produce? && f.subscribed ==> |f.queue| < cap)
                  && NeverFull(cap, Act(cap, f, run[0]), run[1..]))
  }

  lemma {:induction false} OnlyOverflowLoses(cap: nat, f: Feed, run: seq<Action>)
    requires Legal(cap, f, run) && NeverFull(cap, f, run) && f.lossless && f.stage.Offering?
    ensures End(cap, f, run).lossless
    decreases run
  {
    if run != [] {
      OnlyOverflowLoses(cap, Act(cap, f, run[0]), run[1..]);
    }
  }

  /** Every event reaches the queue, in order, as long as the producer never finds it full. */
  lemma NothingIsLostUnlessFull(cap: nat, base: nat, roomClosed: bool, run: seq<Action>)
    requires cap >= 1 && Legal(cap, Subscribed(base, roomClosed), run)
    requires NeverFull(cap, Subscribed(base, roomClosed), run)
    ensures var f := End(cap, Subscribed(base, roomClosed), run); f.taken + f.queue == f.sent
  {
    hide FeedInv, Act, Legal, NeverFull;
    LatestStateIsDelivered(cap, base, roomClosed, run);
    OnlyOverflowLoses(cap, Subscribed(base, roomClosed), run);
  }

  /** `n` steps of the producer, with nobody in between. */
  function Alone(n: nat): seq<Action> {
    if n == 0 then [] else [Produce] + Alone(n - 1)
  }

  lemma OneStepAlone(cap: nat, f: Feed, n: nat)
    requires Enabled(cap, f, Produce) && Legal(cap, Act(cap, f, Produce), Alone(n))
    ensures Legal(cap, f, Alone(n + 1)) && End(cap, f, Alone(n + 1)) == End(cap, Act(cap, f, Produce), Alone(n))
  {
    hide Act;
    assert Alone(n + 1)[1..] == Alone(n);
  }

  lemma {:induction false} DrainsToTheNewest(cap: nat, base: nat, f: Feed)
    requires FeedInv(cap, base, f) && f.stage.Draining?
    ensures Legal(cap, f, Alone(|f.queue| + 2))
    ensures End(cap, f, Alone(|f.queue| + 2))
         == Next(f).(queue := [f.todo[0]], sent := f.sent + [f.todo[0]], lossless := f.lossless && f.queue == [])
    decreases |f.queue|
  {
    hide FeedInv, Legal, End;
    DrainingFacts(cap, base, f);
    ProducerNeverBlocks(cap, base, f);
    StepInv(cap, base, f, Produce);
    var f1 := Act(cap, f, Produce);
    if f.queue != [] {
      DrainsToTheNewest(cap, base, f1);
    } else {
      DrainingFacts(cap, base, f1);
      ProducerNeverBlocks(cap, base, f1);
      NoStepAlone(cap, Act(cap, f1, Produce));
      OneStepAlone(cap, f1, 0);
    }
    OneStepAlone(cap, f, |f.queue| + 1);
  }

  lemma NoStepAlone(cap: nat, f: Feed)
    ensures Legal(cap, f, Alone(0)) && End(cap, f, Alone(0)) == f
  {
  }

  lemma DrainingFacts(cap: nat, base: nat, f: Feed)
    requires FeedInv(cap, base, f)
    ensures cap >= 1 && |f.queue| <= cap && !f.fault && (f.subscribed ==> !f.chanClosed)
    ensures !f.stage.Offering? ==> f.subscribed && f.todo != []
  {
  }

  /** What becomes of an event that nobody disturbs: it joins a queue with room; a full queue is emptied for a state and
      keeps what it holds for a reaction, which is dropped. */
  lemma AnOfferAlone(cap: nat, base: nat, f: Feed)
    requires FeedInv(cap, base, f) && f.stage.Offering? && f.subscribed && f.todo != []
    ensures var e, full := f.todo[0], |f.queue| == cap;
            var steps := Alone(if full && e.StateEvent? then cap + 3 else 1);
            && Legal(cap, f, steps)
            && End(cap, f, steps)
               == Next(f).(queue := if !full then f.queue + [e] else if e.StateEvent? then [e] else f.queue,
                           sent := f.sent + [e], lossless := f.lossless && !full)
  {
    hide FeedInv, Legal, End;
    DrainingFacts(cap, base, f);
    ProducerNeverBlocks(cap, base, f);
    var f1 := Act(cap, f, Produce);
    if |f.queue| == cap && f.todo[0].StateEvent? {
      StepInv(cap, base, f, Produce);
      DrainsToTheNewest(cap, base, f1);
      OneStepAlone(cap, f, cap + 2);
    } else {
      NoStepAlone(cap, f1);
      OneStepAlone(cap, f, 0);
    }
  }

  /** Whoever has cancelled, or was closed, is sent nothing any more, and can still take what it was sent. */
  lemma {:induction false} SilenceAfterTheEnd(cap: nat, f: Feed, run: seq<Action>)
    requires Legal(cap, f, run) && !f.subscribed
    ensures var f' := End(cap, f, run);
            !f'.subscribed && f'.sent == f.sent && f'.taken + f'.queue == f.taken + f.queue
    decreases run
  {
    if run != [] {
      SilenceAfterTheEnd(cap, Act(cap, f, run[0]), run[1..]);
    }
  }

  /** The room's end closes the channel of everyone who has not cancelled. */
  lemma {:induction false} TheEndIsTold(cap: nat, f: Feed, run: seq<Action>)
    requires Legal(cap, f, run) && Cancel !in run && (f.subscribed || f.chanClosed) && (f.subscribed ==> !f.roomClosed)
    ensures CloseRoom in run || f.chanClosed ==> End(cap, f, run).chanClosed
    decreases run
  {
    if run != [] {
      assert run[0] in run && forall a | a in run[1..] :: a in run;
      assert CloseRoom in run ==> run[0].CloseRoom? || CloseRoom in run[1..];
      TheEndIsTold(cap, Act(cap, f, run[0]), run[1..]);
    }
  }
}
