/** The room object over a whole life: any calls, with subscribers coming, taking and going in between. */
module RoomRuns {
  import opened Wire
  import opened RoomModel
  import opened RoomInvariants
  import opened Channels
  import opened Sharing
  import opened Rooms
  import Delivery
  import People
  import Hub
  import Revisions

  datatype Turn = Takes(call: Call) | Subscribes | Consumes | Cancels

  function CallsOf(turns: seq<Turn>): seq<Call> {
    if turns == [] then [] else (if turns[0].Takes? then [turns[0].call] else []) + CallsOf(turns[1..])
  }

  /** What the reply's states hold in memory now is what the reply says. */
  ghost predicate ReadsNow(vault: set<object>, given: ReplyOf<SharedState>, reply: Reply)
    reads vault
  {
    match given
    case Now(s) => Within(vault, s) && reply == Now(Reading(vault, s))
    case Voted(kind, Some(s)) => Within(vault, s) && reply == Voted(kind, Some(Reading(vault, s)))
    case Gone(Some(s)) => Within(vault, s) && reply == Gone(Some(Reading(vault, s)))
    case _ => Says(map[], given, reply)
  }

  lemma SaidReads(vault: set<object>, record: Record, given: ReplyOf<SharedState>, reply: Reply)
    requires Standing(vault, record) && Says(record, given, reply)
    ensures ReadsNow(vault, given, reply)
  {
    hide Within, Reading;
  }

  lemma SaysStill(more: Record, record: Record, given: ReplyOf<SharedState>, reply: Reply)
    requires Includes(more, record) && Says(record, given, reply)
    ensures Says(more, given, reply)
  {
  }

  /** Any one call. */
  method Perform(room: Room, call: Call) returns (reply: ReplyOf<SharedState>)
    requires room.Valid() && Mintable(room.View(), call.op)
    modifies room, room.subs, room.history.buf
    ensures room.Valid() && room.subs <= old(room.subs)
    ensures room.history.buf == old(room.history.buf) || fresh(room.history.buf)
    ensures var o := Step(room.cfg, old(room.View()), call);
            && room.View() == o.room && room.log == old(room.log) + o.events
            && Says(room.published, reply, o.reply)
    ensures Includes(room.published, old(room.published))
  {
    hide Inv, Step, People.Roll, People.Covers, Includes, Mintable;
    match call.op {
      case Join(name, kind, id, token) => reply := room.Join(name, kind, id, token, call.now);
      case CastVote(token, value, rationale) => reply := room.CastVote(token, value, rationale, call.now);
      case Reveal(token) => reply := room.Reveal(token, call.now);
      case StartRound(token, subject, context) => reply := room.StartRound(token, subject, context, call.now);
      case Leave(token) => reply := room.Leave(token, call.now);
      case React(token, emoji) => reply := room.React(token, emoji, call.now);
      case Settle(token, value) => reply := room.Settle(token, value, call.now);
      case GetState => reply := room.GetState(call.now);
      case Close =>
        CloseStep(room.cfg, room.View(), call.now);
        IncludesItself(room.published);
        reply := room.Close(call.now);
    }
  }

  /** A consumer takes what it likes of what it has queued. */
  method Consume(room: Room, ch: Channel)
    requires room.Valid() && ch in room.subs
    modifies ch
    ensures room.Valid()
  {
    hide Inv, People.Roll, People.Covers, Holds, Standing, Includes, Delivery.FeedInv;
    ch.ConsumerMoves();
  }

  /** The subscription is as the delivery protocol has it: the room shows what its log amounts to, and the channel
      was sent the log since it was made. */
  ghost predicate InStep(cfg: Config, first: State, room: RoomState, log: seq<Event>, ch: Channel)
    reads ch
  {
    var h := Hub.Hub(room, log, ch.base, ch.feed);
    Hub.HubInv(cfg, ch.cap, h) && Hub.Linked(cfg, first, h)
  }

  lemma ServedInStep(cfg: Config, subject: string, context: string, now: int, calls: seq<Call>, ch: Channel,
                     record: Record)
    requires var r := NewRoom(subject, context, now);
             !At(cfg, r, calls, |calls|).closed && Served(ch, record, Log(cfg, r, calls, |calls|))
    ensures var r := NewRoom(subject, context, now);
            InStep(cfg, Hub.First(cfg, subject, context), At(cfg, r, calls, |calls|), Log(cfg, r, calls, |calls|), ch)
  {
    hide Step, At, Log, Revisions.Shown, CarriesAll, Includes;
    var r := NewRoom(subject, context, now);
    var log := Log(cfg, r, calls, |calls|);
    Revisions.LogIsFaithful(cfg, r, calls, |calls|);
    assert log[..|log|] == log && log == log[..ch.base] + log[ch.base..];
    assert log == log[..ch.base] + ch.feed.sent + ch.feed.todo;
    forall e | e in ch.feed.sent ensures e in log {
      assert e in log[ch.base..];
    }
  }

  ghost predicate Answered(record: Record, cfg: Config, first: RoomState, calls: seq<Call>,
                           replies: seq<ReplyOf<SharedState>>)
  {
    |replies| <= |calls| &&
    forall i | 0 <= i < |replies| :: Says(record, replies[i], Did(cfg, first, calls, i).reply)
  }

  lemma AnsweredMore(more: Record, record: Record, cfg: Config, first: RoomState, calls: seq<Call>,
                     replies: seq<ReplyOf<SharedState>>, reply: ReplyOf<SharedState>)
    requires Answered(record, cfg, first, calls, replies) && Includes(more, record) && |replies| < |calls|
    requires Says(more, reply, Did(cfg, first, calls, |replies|).reply)
    ensures Answered(more, cfg, first, calls, replies + [reply])
  {
    hide Says, Includes, Did;
    forall i | 0 <= i < |replies| ensures Says(more, replies[i], Did(cfg, first, calls, i).reply) {
      SaysStill(more, record, replies[i], Did(cfg, first, calls, i).reply);
    }
  }

  /** As many calls in as there are replies, the room is where the step function has it and has published the log. */
  ghost predicate Alive(room: Room, first: RoomState, calls: seq<Call>, replies: seq<ReplyOf<SharedState>>)
    reads room, room.subs, room.vault, room.history.buf
  {
    && room.Valid() && Answered(room.published, room.cfg, first, calls, replies)
    && room.View() == At(room.cfg, first, calls, |replies|)
    && room.log == Log(room.cfg, first, calls, |replies|)
  }

  /** The next call. */
  method TakeCall(room: Room, call: Call, ghost first: RoomState, ghost calls: seq<Call>,
                  replies: seq<ReplyOf<SharedState>>)
    returns (more: seq<ReplyOf<SharedState>>)
    requires Alive(room, first, calls, replies) && Proper(room.cfg, first, calls)
    requires |replies| < |calls| && call == calls[|replies|]
    modifies room, room.subs, room.history.buf
    ensures Alive(room, first, calls, more) && |more| == |replies| + 1
    ensures room.subs <= old(room.subs)
    ensures room.history.buf == old(room.history.buf) || fresh(room.history.buf)
  {
    hide Step, Says, Includes, Mintable, Inv, Answered, People.Covers, People.Roll;
    var reply := Perform(room, call);
    AnsweredMore(room.published, old(room.published), room.cfg, first, calls, replies, reply);
    more := replies + [reply];
  }

  /** Anything else that happens to subscribers: one comes, or one of those there takes something, or goes. */
  method TakeTurn(room: Room, turn: Turn, ghost first: RoomState, ghost calls: seq<Call>,
                  ghost replies: seq<ReplyOf<SharedState>>)
    requires Alive(room, first, calls, replies) && !turn.Takes?
    modifies room`subs, room.subs
    ensures Alive(room, first, calls, replies)
    ensures forall ch | ch in room.subs :: ch in old(room.subs) || fresh(ch)
  {
    hide At, Log, Inv, Answered, People.Covers, People.Roll, Standing, Holds, Served, Includes;
    match turn {
      case Subscribes =>
        var ch := room.Subscribe();
      case Consumes =>
        if room.subs != {} {
          var ch :| ch in room.subs;
          Consume(room, ch);
        }
      case Cancels =>
        if room.subs != {} {
          var ch :| ch in room.subs;
          room.Unsubscribe(ch);
        }
    }
  }

  /** The end of a life, as anyone can see it. */
  ghost predicate Fulfilled(room: Room, subject: string, context: string, first: RoomState, calls: seq<Call>,
                            replies: seq<ReplyOf<SharedState>>)
    reads room, room.vault, room.subs
  {
    && room.Covered()
    && room.View() == At(room.cfg, first, calls, |calls|) && room.log == Log(room.cfg, first, calls, |calls|)
    && |replies| == |calls|
    && (forall i | 0 <= i < |calls| :: ReadsNow(room.vault, replies[i], Did(room.cfg, first, calls, i).reply))
    && (forall ch | ch in room.subs ::
          InStep(room.cfg, Hub.First(room.cfg, subject, context), room.View(), room.log, ch))
  }

  lemma AliveIsFulfilled(room: Room, subject: string, context: string, now: int, calls: seq<Call>,
                         replies: seq<ReplyOf<SharedState>>)
    requires Alive(room, NewRoom(subject, context, now), calls, replies) && |replies| == |calls|
    ensures Fulfilled(room, subject, context, NewRoom(subject, context, now), calls, replies)
  {
    hide At, Log, Inv, People.Roll, Standing, Holds, Served, Says, ReadsNow, InStep, Did;
    var first := NewRoom(subject, context, now);
    forall i | 0 <= i < |calls| ensures ReadsNow(room.vault, replies[i], Did(room.cfg, first, calls, i).reply) {
      SaidReads(room.vault, room.published, replies[i], Did(room.cfg, first, calls, i).reply);
    }
    forall ch | ch in room.subs
      ensures InStep(room.cfg, Hub.First(room.cfg, subject, context), room.View(), room.log, ch)
    {
      ServedInStep(room.cfg, subject, context, now, calls, ch, room.published);
    }
  }

  /** Nothing has been called yet. */
  method Open(cfg: Config, subBuffer: nat, subject: string, context: string, now: int, ghost calls: seq<Call>)
    returns (room: Room)
    requires subBuffer >= 1
    ensures fresh(room) && fresh(room.history.buf) && room.cfg == cfg && room.subs == {}
    ensures Alive(room, NewRoom(subject, context, now), calls, [])
  {
    hide Inv, Standing, Holds;
    room := new Room(cfg, subBuffer, subject, context, now);
  }

  /** The turn's call, if it is one, is the next of the calls to come. */
  lemma CallsToCome(turns: seq<Turn>, i: nat, calls: seq<Call>, n: nat)
    requires i < |turns| && n <= |calls| && CallsOf(turns[i..]) == calls[n..]
    ensures !turns[i].Takes? ==> CallsOf(turns[i + 1..]) == calls[n..]
    ensures turns[i].Takes? ==> n < |calls| && turns[i].call == calls[n] && CallsOf(turns[i + 1..]) == calls[n + 1..]
  {
    assert turns[i..][1..] == turns[i + 1..];
    if turns[i].Takes? {
      assert calls[n..][0] == turns[i].call && calls[n..][1..] == CallsOf(turns[i + 1..]);
    }
  }

  lemma AliveIsValid(room: Room, first: RoomState, calls: seq<Call>, replies: seq<ReplyOf<SharedState>>)
    requires Alive(room, first, calls, replies)
    ensures room.Valid() && |replies| <= |calls|
  {
  }

  /** A whole life. A new room takes any calls whose IDs and tokens are minted afresh, while subscribers come, take
      what they like when they like, and go. It ends as the step function has it after those calls, having published
      exactly their log; every reply it ever gave, read now, is the one the step function gives; and every
      subscriber still there is in step. */
  method Live(cfg: Config, subBuffer: nat, subject: string, context: string, now: int, turns: seq<Turn>)
    returns (room: Room, replies: seq<ReplyOf<SharedState>>)
    requires subBuffer >= 1 && Proper(cfg, NewRoom(subject, context, now), CallsOf(turns))
    ensures fresh(room) && room.Valid() && room.cfg == cfg
    ensures Fulfilled(room, subject, context, NewRoom(subject, context, now), CallsOf(turns), replies)
  {
    hide Alive, Fulfilled, NewRoom, Proper, CallsOf, Room.Valid;
    ghost var first, calls := NewRoom(subject, context, now), CallsOf(turns);
    room := Open(cfg, subBuffer, subject, context, now, calls);
    replies := [];
    assert turns[0..] == turns && calls[0..] == calls;
    for i := 0 to |turns|
      invariant fresh(room) && room.cfg == cfg && Alive(room, first, calls, replies)
      invariant fresh(room.history.buf) && forall ch | ch in room.subs :: fresh(ch)
      invariant |replies| <= |calls| && CallsOf(turns[i..]) == calls[|replies|..]
    {
      CallsToCome(turns, i, calls, |replies|);
      if turns[i].Takes? {
        replies := TakeCall(room, turns[i].call, first, calls, replies);
      } else {
        TakeTurn(room, turns[i], first, calls, replies);
      }
    }
    NoMoreCalls(turns, calls, |replies|);
    AliveIsFulfilled(room, subject, context, now, calls, replies);
    AliveIsValid(room, first, calls, replies);
  }

  lemma NoMoreCalls(turns: seq<Turn>, calls: seq<Call>, n: nat)
    requires n <= |calls| && CallsOf(turns[|turns|..]) == calls[n..]
    ensures n == |calls|
  {
  }
}
