/** A subscriber's channel, with the consumer getting in between any two steps of the producer. */
module Channels {
  import opened Wire
  import opened Revisions
  import opened Delivery
  import opened Sharing

  /** A message carries an event: the same, with the state that reads as the event's. */
  ghost predicate Carries(record: Record, m: Message, e: Event) {
    match m
    case StateEvent(id, change, s) => s in record && e == StateEvent(id, change, record[s])
    case ReactionEvent(id, reaction) => e == ReactionEvent(id, reaction)
  }

  ghost predicate CarriesAll(record: Record, queue: seq<Message>, events: seq<Event>) {
    |queue| == |events| && forall i | 0 <= i < |queue| :: Carries(record, queue[i], events[i])
  }

  lemma CarriesLength(record: Record, queue: seq<Message>, events: seq<Event>)
    requires CarriesAll(record, queue, events)
    ensures |queue| == |events|
  {
  }

  lemma CarriesRest(record: Record, queue: seq<Message>, events: seq<Event>, n: nat)
    requires CarriesAll(record, queue, events) && n <= |queue|
    ensures |events| == |queue| && CarriesAll(record, queue[n..], events[n..])
  {
  }

  lemma CarriesMore(record: Record, queue: seq<Message>, events: seq<Event>, m: Message, e: Event)
    requires CarriesAll(record, queue, events) && Carries(record, m, e)
    ensures CarriesAll(record, queue + [m], events + [e])
  {
  }

  lemma CarriesStill(record: Record, more: Record, queue: seq<Message>, events: seq<Event>)
    requires CarriesAll(record, queue, events)
    requires Includes(more, record)
    ensures CarriesAll(more, queue, events)
  {
  }

  /** `feed` is the same channel as the delivery protocol sees it, which moves in step with the real one; `record`
      is what its states read as. */
  class Channel {
    const cap: nat
    var queue: seq<Message>
    var closed: bool
    ghost var base: nat
    ghost var feed: Feed
    ghost var record: Record

    ghost predicate Tracked()
      reads this
    {
      CarriesAll(record, queue, feed.queue) && feed.chanClosed == closed && FeedInv(cap, base, feed)
    }

    /** Between calls, while subscribed, with everything up to event `last` fanned out. */
    ghost predicate Idle(last: nat)
      reads this
    {
      Tracked() && feed.todo == [] && feed.subscribed && feed.last == last && !closed
    }

    constructor (cap: nat, ghost last: nat)
      requires cap >= 1
      ensures this.cap == cap && queue == [] && Idle(last) && base == last && feed == Subscribed(last, false)
      ensures record == map[]
    {
      this.cap := cap;
      queue := [];
      closed := false;
      base := last;
      feed := Subscribed(last, false);
      record := map[];
    }

    /** More has been handed out since. */
    ghost method Learn(more: Record)
      requires Tracked() && Includes(more, record)
      modifies this`record
      ensures Tracked() && record == more
    {
      CarriesStill(record, more, queue, feed.queue);
      record := more;
    }

    /** The consumer takes any number of the queued events: the caller cannot tell how many. */
    method ConsumerMoves()
      requires Tracked()
      modifies this`queue, this`feed
      ensures Tracked()
      ensures |queue| <= |old(queue)| && feed == TakeSome(old(feed), |old(queue)| - |queue|)
      ensures Seen(feed) == old(Seen(feed)) && old(feed.taken) <= feed.taken
    {
      hide FeedInv, Seen, CarriesAll;
      var n: nat :| n <= |queue|;
      CarriesRest(record, queue, feed.queue, n);
      SeenStays(feed, n);
      TakeSomeIsReceiving(cap, base, feed, n);
      feed := TakeSome(feed, n);
      queue := queue[n..];
    }

    /** The producer's next step, as the protocol sees it. */
    ghost method Advance()
      requires FeedInv(cap, base, feed) && Enabled(cap, feed, Produce)
      modifies this`feed
      ensures feed == Act(cap, old(feed), Produce) && FeedInv(cap, base, feed)
    {
      StepInv(cap, base, feed, Produce);
      feed := Act(cap, feed, Produce);
    }

    /** A blocking send: it needs room in the buffer, and a channel that is not closed. */
    method Send(m: Message)
      requires !closed && |queue| < cap
      modifies this`queue
      ensures queue == old(queue) + [m]
    {
      queue := queue + [m];
    }

    /** Holding the lock with `ev` still to be delivered after everything in `sent`. */
    ghost predicate Delivering(ev: Event, stage: Stage, last: nat, sent: seq<Event>)
      reads this
    {
      Tracked() && feed.todo == [ev] && feed.stage == stage && feed.subscribed && feed.last == last && feed.sent == sent
    }

    /** Finding the queue full, empties it, racing the consumer for what is in it. */
    method Drain(ghost ev: Event, ghost last: nat, ghost sent: seq<Event>)
      requires Delivering(ev, Offering, last, sent) && |queue| == cap && ev.StateEvent?
      modifies this`queue, this`feed
      ensures Delivering(ev, Sending, last, sent) && queue == []
      ensures old(feed.taken) <= feed.taken
      ensures feed.lossless ==> old(feed.lossless) && Seen(feed) == old(Seen(feed))
    {
      hide FeedInv, CarriesAll;
      CarriesLength(record, queue, feed.queue);
      Advance();
      while true
        invariant Delivering(ev, Draining, last, sent) && old(feed.taken) <= feed.taken
        invariant feed.lossless ==> old(feed.lossless) && Seen(feed) == old(Seen(feed))
        decreases |queue|
      {
        ConsumerMoves();
        CarriesLength(record, queue, feed.queue);
        if queue == [] {
          break;
        }
        CarriesRest(record, queue, feed.queue, 1);
        Advance();
        queue := queue[1..];
      }
      Advance();
    }

    ghost method Begin(ev: Event, last: nat)
      requires Idle(last) && ev.id == last + 1 && CarriesRevision(ev)
      modifies this`feed
      ensures Delivering(ev, Offering, last + 1, old(feed.sent))
      ensures feed == old(feed).(todo := [ev], stage := Offering, last := last + 1)
      ensures Seen(feed) == old(Seen(feed))
    {
      StepInv(cap, base, feed, Fan([ev]));
      feed := Act(cap, feed, Fan([ev]));
    }

    /** The last step: the message is sent, or, being a reaction that found the queue full, dropped. */
    method Finish(m: Message, ghost ev: Event, ghost stage: Stage, ghost last: nat, ghost sent: seq<Event>)
      requires Delivering(ev, stage, last, sent) && !stage.Draining? && Carries(record, m, ev)
      requires |queue| < cap || (stage.Offering? && ev.ReactionEvent?)
      modifies this`queue, this`feed
      ensures Idle(last) && feed.sent == sent + [ev] && feed.taken == old(feed.taken)
      ensures feed.lossless ==> old(feed.lossless) && Seen(feed) == old(Seen(feed)) + [ev]
      ensures old(|queue|) < cap ==> feed.lossless == old(feed.lossless) && Seen(feed) == old(Seen(feed)) + [ev]
    {
      hide CarriesAll, Carries, Act, Seen, FeedInv;
      CarriesLength(record, queue, feed.queue);
      CarriesMore(record, queue, feed.queue, m, ev);
      LastStep(cap, base, feed, ev);
      Advance();
      if |queue| < cap {
        Send(m);
      }
    }

    /** Delivers without blocking. Whatever the consumer does meanwhile, afterwards the event is counted as
        fanned out, nothing taken is taken back, nothing is lost unless the queue overflowed, which it cannot if
        there was room, and the newest state delivered or queued is the newest sent. */
    method Deliver(m: Message, ghost ev: Event, ghost last: nat, ghost more: Record)
      requires Idle(last) && ev.id == last + 1 && CarriesRevision(ev)
      requires Includes(more, record) && Carries(more, m, ev)
      modifies this`queue, this`feed, this`record
      ensures Idle(last + 1) && record == more
      ensures feed.sent == old(feed.sent) + [ev]
      ensures old(feed.taken) <= feed.taken
      ensures feed.lossless ==> old(feed.lossless) && Seen(feed) == old(Seen(feed)) + [ev]
      ensures old(|queue|) < cap ==> feed.lossless == old(feed.lossless) && Seen(feed) == old(Seen(feed)) + [ev]
      ensures ev.StateEvent? ==> LastState(Seen(feed)) == Some(ev)
    {
      hide FeedInv, Act, Seen, CarriesAll, Includes;
      ghost var sent := feed.sent;
      Learn(more);
      Begin(ev, last);
      ConsumerMoves();
      IdleFacts(cap, base, feed);
      CarriesLength(record, queue, feed.queue);
      if |queue| < cap || m.ReactionEvent? {
        Finish(m, ev, Offering, last + 1, sent);
      } else {
        Drain(ev, last + 1, sent);
        ConsumerMoves();
        Finish(m, ev, Sending, last + 1, sent);
      }
      ConsumerMoves();
      IdleFacts(cap, base, feed);
      NewestState(sent, ev);
    }

    /** Closing happens once, to a channel that is still open. */
    method Close(ghost last: nat)
      requires Idle(last)
      modifies this`closed, this`feed
      ensures closed && Tracked() && feed == Act(cap, old(feed), CloseRoom) && !feed.subscribed
    {
      StepInv(cap, base, feed, CloseRoom);
      feed := Act(cap, feed, CloseRoom);
      closed := true;
    }

    /** Cancelling leaves the channel and what it holds alone; nothing more will be sent. */
    ghost method Unsubscribe(last: nat)
      requires Idle(last)
      modifies this`feed
      ensures Tracked() && feed == Act(cap, old(feed), Cancel) && !feed.subscribed
    {
      StepInv(cap, base, feed, Cancel);
      feed := Act(cap, feed, Cancel);
    }
  }

  /** The event joins the queue, or is dropped as a reaction that finds it full. */
  lemma LastStep(cap: nat, base: nat, f: Feed, ev: Event)
    requires FeedInv(cap, base, f) && f.subscribed && f.todo == [ev] && !f.stage.Draining?
    requires |f.queue| < cap || (f.stage.Offering? && ev.ReactionEvent?)
    ensures Enabled(cap, f, Produce)
    ensures var f' := Act(cap, f, Produce);
            && f'.todo == [] && f'.subscribed && f'.last == f.last && f'.sent == f.sent + [ev]
            && f'.taken == f.taken && f'.chanClosed == f.chanClosed == false
            && f'.queue == (if |f.queue| < cap then f.queue + [ev] else f.queue)
            && f'.lossless == (f.lossless && |f.queue| < cap)
            && (|f.queue| < cap ==> Seen(f') == Seen(f) + [ev])
  {
  }

  lemma IdleFacts(cap: nat, base: nat, f: Feed)
    requires FeedInv(cap, base, f)
    ensures 1 <= cap && |f.queue| <= cap
    ensures f.subscribed ==> !f.chanClosed
    ensures f.todo == [] ==> LastState(Seen(f)) == LastState(f.sent)
  {
  }

  lemma NewestState(sent: seq<Event>, ev: Event)
    ensures ev.StateEvent? ==> LastState(sent + [ev]) == Some(ev)
  {
  }
}
