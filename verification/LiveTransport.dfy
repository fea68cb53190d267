/** The browser's connection to a room: the object itself, with the streams it opens and the requests it makes as
    objects too. Each method and callback does what the model of it says, and so guarantees what was proved of
    that. */
module LiveTransport {
  import opened Wire
  import opened Live = LiveModel
  import opened LiveDuties
  import opened LiveOwnership
  import opened LiveStaleness

  class EventSource {
    const id: nat
    var closed: bool

    constructor (id: nat)
      ensures this.id == id && !closed
    {
      this.id := id;
      closed := false;
    }

    method Close()
      modifies this
      ensures closed
    {
      closed := true;
    }
  }

  class Request {
    const id: nat
    var aborted: bool

    constructor (id: nat)
      ensures this.id == id && !aborted
    {
      this.id := id;
      aborted := false;
    }

    method Abort()
      modifies this
      ensures aborted
    {
      aborted := true;
    }
  }

  /** What every call and callback guarantees, going from `t` to `t1`: ownership; that the page is told exactly what it
      is owed and each field changes for a reason; that only the owners publish, and what they were sent; that what was
      superseded stays so; that a stopped connection stays silent; that no more losses are reported than there were
      starts; and that polling and watching stay on time. */
  ghost predicate Guarantee(t: Transport, a: Action, now: real, t1: Transport) {
    && Owned(t1) && Explained(t, a, now, t1)
    && Since(t.notes, t1.notes, note => Due(t, a, note))
    && (forall s | Superseded(t, s) :: Superseded(t1, s))
    && (t.stopped && !a.Starts? ==> t1.stopped && Since(t.notes, t1.notes, note => note == Note.Live(false)))
    && Losses(t1.notes) + Running(t1) <= Losses(t.notes) + Running(t) + (if a.Starts? then 1 else 0)
    && (forall k | Fresh(t, k) && Steady(t, k, Move(now, a)) :: Fresh(t1, Observed(t, k, Move(now, a))))
  }

  lemma Guaranteed(t: Transport, a: Action, now: real)
    requires Owned(t) && Enabled(t, a)
    ensures Guarantee(t, a, now, Act(t, a, now))
  {
    hide Owned, Act, Enabled, Since, Fresh, Steady, Observed, Superseded, Losses, Explained;
    StepOwned(t, a, now);
    EveryStepIsExplained(t, a, now);
    OnlyOwnersPublish(t, a, now);
    forall s | Superseded(t, s) ensures Superseded(Act(t, a, now), s) {
      StepSuperseded(t, a, now, s);
    }
    if t.stopped && !a.Starts? {
      StoppedTells(t, a, now);
    }
    StepLosses(t, a, now);
    forall k | Fresh(t, k) && Steady(t, k, Move(now, a))
      ensures Fresh(Act(t, a, now), Observed(t, k, Move(now, a)))
    {
      StepFresh(t, k, Move(now, a));
    }
  }

  lemma StoppedTells(t: Transport, a: Action, now: real)
    requires Owned(t) && Enabled(t, a) && t.stopped && !a.Starts?
    ensures Act(t, a, now).stopped
    ensures Since(t.notes, Act(t, a, now).notes, note => note == Note.Live(false))
  {
    hide Act;
    OnlyOwnersPublish(t, a, now);
    StepStopped(t, a, now);
  }

  ghost function Open(streams: set<EventSource>): set<nat>
    reads streams
  {
    set s | s in streams && !s.closed :: s.id
  }

  ghost function Flying(requests: set<Request>, waiting: set<nat>): set<nat>
    reads requests
  {
    set p | p in requests && !p.aborted && p.id in waiting :: p.id
  }

  lemma OpenMore(streams: set<EventSource>, source: EventSource)
    requires !source.closed
    ensures Open(streams + {source}) == Open(streams) + {source.id}
  {
  }

  lemma FlyingMore(requests: set<Request>, waiting: set<nat>, request: Request)
    requires !request.aborted && forall p | p in requests :: p.id != request.id
    ensures Flying(requests + {request}, waiting + {request.id}) == Flying(requests, waiting) + {request.id}
  {
  }

  class RoomConnection {
    var stopped: bool
    var es: EventSource?
    var pending: Request?
    var healthy: bool
    var openedAt: real
    var lastHeard: real
    var retryDelay: real
    var nextConnect: real
    var nextPoll: real

    /** The document's visibility. */
    var hidden: bool

    /** What the page has been told. */
    var notes: seq<Note>

    /** Every stream opened and every request made, in the order of their numbers; and the requests whose handlers
        have yet to run. */
    var made: nat
    ghost var streams: set<EventSource>
    ghost var requests: set<Request>
    ghost var waiting: set<nat>
    ghost var finishing: set<nat>

    ghost predicate Rep()
      reads this`es, this`pending, this`streams, this`requests, this`made
    {
      && (es != null ==> es in streams) && (pending != null ==> pending in requests)
      && (forall s | s in streams :: s.id < made)
      && (forall p | p in requests :: p.id < made)
      && (forall s, u | s in streams && u in streams && s.id == u.id :: s == u)
      && (forall p, q | p in requests && q in requests && p.id == q.id :: p == q)
    }

    ghost function View(): Transport
      reads this, streams, requests
    {
      Transport(stopped, if es == null then None else Some(es.id), if pending == null then None else Some(pending.id),
                healthy, openedAt, lastHeard, retryDelay, nextConnect, nextPoll,
                hidden, made, Open(streams), Flying(requests, waiting), waiting, finishing, notes)
    }

    /** At most one stream is open, the connection's own; at most one request is under way, the one it awaits; a
        stopped or hidden page has neither. */
    ghost predicate Valid()
      reads this, streams, requests
    {
      && Rep() && Owned(View())
      && (forall s | s in streams && !s.closed :: s == es)
      && (forall p | p in requests && !p.aborted && p.id in waiting :: p == pending)
      && (stopped || hidden ==> es == null && pending == null)
    }

    twostate predicate Becomes(t: Transport)
      reads this, streams, requests
    {
      && Rep() && View() == t
      && old(streams) <= streams && fresh(streams - old(streams))
      && old(requests) <= requests && fresh(requests - old(requests))
    }

    /** The call does what the model says, and guarantees what was proved of it. */
    twostate predicate Performs(a: Action, now: real)
      reads this, streams, requests
    {
      Becomes(Act(old(View()), a, now)) && Valid() && Guarantee(old(View()), a, now, View())
    }

    lemma OwnedIsValid()
      requires Rep() && Owned(View())
      ensures Valid()
    {
      forall s | s in streams && !s.closed ensures s == es {
        assert s.id in Open(streams);
      }
      forall p | p in requests && !p.aborted && p.id in waiting ensures p == pending {
        assert p.id in Flying(requests, waiting);
      }
    }

    lemma Performed(before: Transport, a: Action, now: real)
      requires Owned(before) && Enabled(before, a)
      requires Rep() && View() == Act(before, a, now)
      ensures Valid() && Guarantee(before, a, now, View())
    {
      hide Act, Enabled, Owned, Guarantee, Rep, View;
      Guaranteed(before, a, now);
      OwnedAfter(before, a, now, View());
      OwnedIsValid();
    }

    constructor ()
      ensures Valid() && View() == UNSTARTED && streams == {} && requests == {}
    {
      stopped, es, pending, healthy := true, null, null, false;
      openedAt, lastHeard := 0.0, 0.0;
      retryDelay, nextConnect, nextPoll := 1000.0, 0.0, 0.0;
      hidden, made, notes := false, 0, [];
      streams, requests, waiting, finishing := {}, {}, {}, {};
    }

    // ---------- what the calls are made of ----------

    method OnLive(on: bool)
      requires Rep()
      modifies this`notes
      ensures Becomes(Told(old(View()), Note.Live(on)))
    {
      hide Rep, Open, Flying;
      notes := notes + [Note.Live(on)];
    }

    method Disconnect()
      requires Rep()
      modifies this`es, this`healthy, streams
      ensures Becomes(Live.Disconnect(old(View()))) && es == null
    {
      if es != null {
        es.Close();
        assert Open(streams) == old(Open(streams)) - {old(es).id} by {
          forall s | s in streams && s.id != old(es).id ensures s.closed == old(s.closed) {
            assert s != old(es);
          }
        }
      }
      es := null;
      healthy := false;
    }

    method AbortPending()
      requires Rep()
      modifies requests
      ensures Becomes(old(View()).(flying := Aborted(old(View()))))
    {
      if pending != null {
        pending.Abort();
        assert Flying(requests, waiting) == old(Flying(requests, waiting)) - {pending.id} by {
          forall p | p in requests && p.id != pending.id ensures p.aborted == old(p.aborted) {
            assert p != pending;
          }
        }
      }
    }

    method Pause()
      requires Rep()
      modifies this`es, this`healthy, this`pending, this`notes, streams, requests
      ensures Becomes(Live.Pause(old(View())))
    {
      Disconnect();
      AbortPending();
      pending := null;
      OnLive(false);
    }

    method Degrade(delay: real, now: real)
      requires Rep()
      modifies this, streams
      ensures Becomes(Live.Degrade(old(View()), delay, now))
    {
      hide Rep, Open, Flying;
      Disconnect();
      OnLive(false);
      nextConnect := now + delay;
      nextPoll := 0.0;
    }

    method Connect(now: real)
      requires Rep()
      modifies this
      ensures Becomes(Live.Connect(old(View()), now))
    {
      hide Open, Flying;
      var source := new EventSource(made);
      OpenMore(streams, source);
      es := source;
      made := made + 1;
      streams := streams + {es};
      openedAt := now;
    }

    method Heard(now: real)
      requires Rep()
      modifies this
      ensures Becomes(Live.Heard(old(View()), now))
    {
      hide Rep, Open, Flying;
      lastHeard := now;
      healthy := true;
      retryDelay := 1000.0;
      OnLive(true);
    }

    method MakeRequest()
      requires Rep()
      modifies this
      ensures var t := old(View());
              Becomes(t.(pending := Some(t.made), flying := t.flying + {t.made}, waiting := t.waiting + {t.made},
                         made := t.made + 1))
    {
      hide Open, Flying;
      var request := new Request(made);
      FlyingMore(requests, waiting, request);
      pending := request;
      made := made + 1;
      requests, waiting := requests + {pending}, waiting + {pending.id};
    }

    /** Everything afresh, as on arriving. */
    method Restart()
      requires Rep()
      modifies this, streams, requests
      ensures Becomes(Live.Pause(old(View())).(retryDelay := FIRST_RETRY, nextConnect := 0.0, nextPoll := 0.0))
    {
      hide Rep, Open, Flying;
      Pause();
      retryDelay := 1000.0;
      nextConnect := 0.0;
      nextPoll := 0.0;
    }

    method WatchStream(now: real)
      requires Rep()
      modifies this, streams
      ensures Becomes(Reopen(Watch(old(View()), now), now))
    {
      hide Rep, Open, Flying;
      if es != null && ((!healthy && now - openedAt >= 5000.0) || (healthy && now - lastHeard > 35000.0)) {
        Degrade(30000.0, now);
      }
      if es == null && now >= nextConnect {
        Connect(now);
      }
    }

    // ---------- the calls ----------

    method Start(now: real)
      requires Valid()
      modifies this, streams, requests
      ensures Performs(Starts, now)
    {
      hide Rep, Open, Flying, Owned, Guarantee;
      if stopped {
        StartingKeeps(View());
        stopped := false;
        if !hidden {
          OwnedIsValid();
          Resume(now);
        }
      }
      Performed(old(View()), Starts, now);
    }

    method Stop(ghost now: real)
      requires Valid()
      modifies this, streams, requests
      ensures Performs(Stops, now)
    {
      hide Rep, Open, Flying, Owned, Guarantee;
      stopped := true;
      Pause();
      Performed(old(View()), Stops, now);
    }

    method Resume(now: real)
      requires Valid()
      modifies this, streams, requests
      ensures Performs(Resumes, now)
    {
      hide Rep, Open, Flying, Owned, Guarantee;
      if !stopped {
        PauseKeepsOwned(View());
        Restart();
        OwnedIsValid();
        Tick(now);
      }
      Performed(old(View()), Resumes, now);
    }

    method Tick(now: real)
      requires Valid()
      modifies this, streams, requests
      ensures Performs(Ticks, now)
      ensures !stopped && !hidden && es != null ==>
                if healthy then now - lastHeard <= 35000.0 else now - openedAt < 5000.0
    {
      hide Rep, Open, Flying, Owned, Guarantee, Watch, Reopen;
      if !stopped && !hidden {
        WatchingKeeps(View(), now);
        TickWatches(View(), now);
        WatchStream(now);
        assert View() == Reopen(Watch(old(View()), now), now);
        if now >= nextPoll && pending == null {
          OwnedIsValid();
          Refresh(false, now);
        }
      }
      Performed(old(View()), Ticks, now);
    }

    method Refresh(replace: bool, ghost now: real)
      requires Valid()
      modifies this, requests
      ensures Performs(Refreshes(replace), now)
    {
      hide Rep, Open, Flying, Owned, Guarantee;
      if !(stopped || hidden || (pending != null && !replace)) {
        AbortPending();
        MakeRequest();
      }
      Performed(old(View()), Refreshes(replace), now);
    }

    method VisibilityChange(nowHidden: bool, now: real)
      requires Valid()
      modifies this, streams, requests
      ensures Performs(Changes(nowHidden), now)
    {
      hide Rep, Open, Flying, Owned, Guarantee;
      ShowingKeeps(View());
      hidden := nowHidden;
      if !stopped {
        if hidden {
          Pause();
        } else {
          OwnedIsValid();
          Resume(now);
        }
      }
      Performed(old(View()), Changes(nowHidden), now);
    }

    method Online(now: real)
      requires Valid()
      modifies this, streams, requests
      ensures Performs(ComesOnline, now)
    {
      hide Rep, Open, Flying, Owned, Guarantee;
      if !stopped && !hidden {
        Resume(now);
      }
      Performed(old(View()), ComesOnline, now);
    }

    // ---------- callbacks of a stream ----------

    method OnStreamState(source: EventSource, state: Option<State>, now: real)
      requires Valid() && source in streams
      modifies this, streams
      ensures Performs(StreamSays(source.id, state), now)
    {
      hide Open, Flying, Owned, Guarantee;
      if !stopped && es == source {
        if state.None? {
          Degrade(30000.0, now);
        } else {
          Heard(now);
          notes := notes + [Show(ByStream(source.id), state.value)];
        }
      }
      Performed(old(View()), StreamSays(source.id, state), now);
    }

    method OnPing(source: EventSource, now: real)
      requires Valid() && source in streams
      modifies this
      ensures Performs(StreamPings(source.id), now)
    {
      hide Open, Flying, Owned, Guarantee;
      if !stopped && es == source && healthy {
        Heard(now);
      }
      Performed(old(View()), StreamPings(source.id), now);
    }

    method OnReaction(source: EventSource, reaction: Option<Reaction>, ghost now: real)
      requires Valid() && source in streams
      modifies this
      ensures Performs(StreamReacts(source.id, reaction), now)
    {
      hide Open, Flying, Owned, Guarantee;
      if !stopped && es == source && reaction.Some? {
        notes := notes + [Float(ByStream(source.id), reaction.value)];
      }
      Performed(old(View()), StreamReacts(source.id, reaction), now);
    }

    method OnError(source: EventSource, jitter: real, now: real)
      requires Valid() && source in streams && 0.5 <= jitter < 1.5
      modifies this, streams
      ensures Performs(StreamFails(source.id, jitter), now)
    {
      hide Open, Flying, Owned, Guarantee;
      if !stopped && es == source {
        Degrade(retryDelay * jitter, now);
        retryDelay := if retryDelay * 2.0 < 30000.0 then retryDelay * 2.0 else 30000.0;
      }
      Performed(old(View()), StreamFails(source.id, jitter), now);
    }

    // ---------- callbacks of a request ----------

    lemma OnlyRequest(request: Request)
      requires Rep() && request in requests
      ensures pending == request <==> View().pending == Some(request.id)
    {
    }

    ghost method Settle(request: Request)
      requires Rep() && request in requests
      modifies this`waiting, this`finishing
      ensures var t := old(View());
              Becomes(t.(flying := t.flying - {request.id}, waiting := t.waiting - {request.id},
                         finishing := t.finishing + {request.id}))
    {
      waiting, finishing := waiting - {request.id}, finishing + {request.id};
      assert Flying(requests, waiting) == old(Flying(requests, waiting)) - {request.id};
    }

    method Deliver(request: Request, answer: Answer, ghost now: real)
      requires Valid()
      modifies this, streams, requests
      ensures Becomes(Live.Deliver(old(View()), request.id, answer))
    {
      hide Rep, Open, Flying, Owned, Guarantee;
      match answer {
        case Got(state) => notes := notes + [Show(ByRequest(request.id), state)];
        case NotFound =>
          Stop(now);
          notes := notes + [Missing];
        case Trouble => OnLive(false);
      }
    }

    method OnAnswer(request: Request, answer: Answer, ghost now: real)
      requires Valid() && request in requests && request.id in waiting
      modifies this, streams, requests
      ensures Performs(Answers(request.id, answer), now)
    {
      OnlyRequest(request);
      hide Rep, Open, Flying, Owned, Guarantee, Live.Deliver;
      AnsweringKeeps(View(), request.id);
      Settle(request);
      if pending == request && !stopped {
        OwnedIsValid();
        Deliver(request, answer, now);
      }
      Performed(old(View()), Answers(request.id, answer), now);
    }

    method OnSettled(request: Request, now: real)
      requires Valid() && request in requests && request.id in finishing
      modifies this
      ensures Performs(Finishes(request.id), now)
    {
      hide Open, Flying, Owned, Guarantee;
      finishing := finishing - {request.id};
      if pending == request {
        pending := null;
        nextPoll := now + if healthy then 15000.0 else 2000.0;
      }
      Performed(old(View()), Finishes(request.id), now);
    }
  }

  lemma StartingKeeps(t: Transport)
    requires Owned(t) && t.stopped
    ensures Owned(t.(stopped := false))
  {
  }

  lemma PauseKeepsOwned(t: Transport)
    requires Owned(t)
    ensures Owned(Live.Pause(t).(retryDelay := FIRST_RETRY, nextConnect := 0.0, nextPoll := 0.0))
  {
    PauseKeeps(t);
  }

  lemma ShowingKeeps(t: Transport)
    requires Owned(t)
    ensures Owned(t.(hidden := false))
  {
  }

  lemma WatchingKeeps(t: Transport, now: real)
    requires Owned(t) && !t.stopped && !t.hidden
    ensures Owned(Reopen(Watch(t, now), now))
  {
    hide Owned;
    WatchKeeps(t, now);
    ReopenKeeps(Watch(t, now), now);
  }

  lemma TickWatches(t: Transport, now: real)
    requires Owned(t) && !t.stopped && !t.hidden
    ensures var t1 := Live.Tick(t, now);
            t1.es.Some? ==> if t1.healthy then now - t1.lastHeard <= 35000.0 else now - t1.openedAt < 5000.0
  {
    TickKeepsNoDeadStream(t, now);
  }

  lemma AnsweringKeeps(t: Transport, id: nat)
    requires Owned(t) && id in t.waiting
    ensures Owned(t.(flying := t.flying - {id}, waiting := t.waiting - {id}, finishing := t.finishing + {id}))
  {
  }

  lemma OwnedAfter(t: Transport, a: Action, now: real, t1: Transport)
    requires Guarantee(t, a, now, t1)
    ensures Owned(t1)
  {
  }
}
