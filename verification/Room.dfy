/** The live room: an object whose methods, each under its lock, do what the step function says, and whose states,
    once handed out, read the same for ever, although they share the room's memory. */
module Rooms {
  import opened Wire
  import opened RoomModel
  import opened RoomInvariants
  import opened People
  import opened Channels
  import opened Sharing
  import Delivery
  import Revisions
  import RoundStats
  import Awards

  function Stamped(ev: Event, id: nat): Event {
    match ev
    case StateEvent(_, change, st) => StateEvent(id, change, st.(revision := id))
    case ReactionEvent(_, reaction) => ReactionEvent(id, reaction)
  }

  function StampedMessage(m: Message, id: nat): Message {
    match m
    case StateEvent(_, change, s) => StateEvent(id, change, s.(revision := id))
    case ReactionEvent(_, reaction) => ReactionEvent(id, reaction)
  }

  /** The reply as it is given: the same, with states that read as the reply's. */
  ghost predicate Says(record: Record, given: ReplyOf<SharedState>, reply: Reply) {
    match given
    case Now(s) => s in record && reply == Now(record[s])
    case Voted(kind, None) => reply == Voted(kind, None)
    case Voted(kind, Some(s)) => s in record && reply == Voted(kind, Some(record[s]))
    case Gone(None) => reply == Gone(None)
    case Gone(Some(s)) => s in record && reply == Gone(Some(record[s]))
    case Welcome(id, token) => reply == Welcome(id, token)
    case Failed(error) => reply == Failed(error)
    case Done => reply == Done
  }

  datatype LiveRound = LiveRound(number: nat, subject: string, context: string, phase: Phase,
                                 votes: map<string, Vote>, results: SharedResults?)

  lemma JoinStep(cfg: Config, r: RoomState, op: Op, now: int)
    requires op.Join?
    ensures var r1 := r.(lastActive := now);
            && Step(cfg, r, Call(op, now)) == (if !(1 <= |op.name| <= MAX_NAME_LEN) then Fail(r, BadName)
                                               else if r.closed then Fail(r, RoomNotFound)
                                               else DoJoin(cfg, r1, op))
            && (Mintable(r, op) <==> Mintable(r1, op))
  {
  }

  lemma CloseStep(cfg: Config, r: RoomState, now: int)
    ensures Step(cfg, r, Call(Close, now)) == Outcome(r.(closed := true), Done, [])
  {
  }

  lemma CastVoteStep(cfg: Config, r: RoomState, token: string, value: string, rationale: string, now: int)
    ensures var o, r1, p := Step(cfg, r, Call(CastVote(token, value, rationale), now)), r.(lastActive := now),
                            Authenticate(r.participants, token);
            o == if |rationale| > MAX_RATIONALE_LEN then Fail(r, BadRationale)
                 else if r.closed then Fail(r, RoomNotFound)
                 else if p.None? then Fail(r1, BadToken)
                 else DoCastVote(cfg, r1, p.value, CastVote(token, value, rationale))
  {
  }

  lemma RevealStep(cfg: Config, r: RoomState, token: string, now: int)
    ensures var o, r1, p := Step(cfg, r, Call(Reveal(token), now)), r.(lastActive := now),
                            Authenticate(r.participants, token);
            o == if r.closed then Fail(r, RoomNotFound)
                 else if p.None? then Fail(r1, BadToken)
                 else DoReveal(cfg, r1)
  {
  }

  lemma StartRoundStep(cfg: Config, r: RoomState, token: string, subject: string, context: string, now: int)
    ensures var o, r1, p := Step(cfg, r, Call(StartRound(token, subject, context), now)), r.(lastActive := now),
                            Authenticate(r.participants, token);
            o == if r.closed then Fail(r, RoomNotFound)
                 else if p.None? then Fail(r1, BadToken)
                 else DoStartRound(cfg, r1, StartRound(token, subject, context))
  {
  }

  lemma LeaveStep(cfg: Config, r: RoomState, token: string, now: int)
    ensures var o, r1, p := Step(cfg, r, Call(Leave(token), now)), r.(lastActive := now),
                            Authenticate(r.participants, token);
            o == if r.closed then Fail(r, RoomNotFound)
                 else if p.None? then Fail(r1, BadToken)
                 else DoLeave(cfg, r1, p.value)
  {
  }

  lemma ReactStep(cfg: Config, r: RoomState, token: string, emoji: string, now: int)
    ensures var o, r1, p := Step(cfg, r, Call(React(token, emoji), now)), r.(lastActive := now),
                            Authenticate(r.participants, token);
            o == if r.closed then Fail(r, RoomNotFound)
                 else if p.None? then Fail(r1, BadToken)
                 else DoReact(r1, p.value, emoji, now)
  {
  }

  lemma SettleStep(cfg: Config, r: RoomState, token: string, value: string, now: int)
    ensures var o, r1, p := Step(cfg, r, Call(Settle(token, value), now)), r.(lastActive := now),
                            Authenticate(r.participants, token);
            o == if r.closed then Fail(r, RoomNotFound)
                 else if p.None? then Fail(r1, BadToken)
                 else DoSettle(cfg, r1, p.value, value, now)
  {
  }

  class Room {
    const cfg: Config
    const subBuffer: nat

    var participants: map<string, Participant>
    var joinSeq: nat
    var round: LiveRound
    var history: Slice<Entry>
    var settled: SharedSettlement?
    var lastActive: int
    var subs: set<Channel>
    var eventSeq: nat
    var closed: bool

    /** The IDs in join order. */
    ghost var order: seq<string>

    /** What results, history and settlement read as; everything ever shared, the history's own buffer apart; and
        every state ever handed out, with what it read as then. */
    ghost var shown: Shown
    ghost var vault: set<object>
    ghost var published: Record

    /** Every event ever published. */
    ghost var log: seq<Event>

    ghost predicate Covered()
      reads this
    {
      Covers(order, participants)
    }

    ghost function View(): RoomState
      reads this
      requires Covered()
    {
      RoomState(Roll(order, participants), joinSeq,
                Round(round.number, round.subject, round.context, round.phase, round.votes, shown.results),
                shown.history, shown.settled, eventSeq, closed, lastActive)
    }

    /** Neither the room, nor a channel, nor the buffer the history is kept in has ever been shared; all else that
        the room refers to has, and everything handed out reads as it did. */
    ghost predicate Stored()
      reads this`round, this`history, this`settled, this`shown, this`vault, this`published, this`subs,
            vault, history.buf
    {
      && this !in vault && history.buf !in vault && (forall ch | ch in subs :: ch !in vault)
      && Holds(vault, round.results, history, settled, shown)
      && Standing(vault, published)
    }

    /** Every subscriber has been sent everything since it subscribed. */
    ghost predicate AllServed()
      reads this`subs, this`eventSeq, this`log, this`published, subs
    {
      |log| == eventSeq && forall ch | ch in subs :: Served(ch, published, log)
    }

    ghost predicate Ready()
      reads this, subs, vault, history.buf
    {
      Covered() && Orderly(View().participants, joinSeq) && AllServed() && Stored()
    }

    ghost predicate Valid()
      reads this, subs, vault, history.buf
    {
      && subBuffer >= 1
      && Covered() && Inv(cfg, View())
      && AllServed() && Stored()
      && (closed ==> subs == {})
    }

    /** These have been published; the subscribers are the same, and each has been sent them too. */
    twostate predicate Sent(events: seq<Event>)
      reads this`subs, this`log, subs
    {
      && log == old(log) + events
      && subs == old(subs) && forall ch | ch in subs :: ch.feed.sent == old(ch.feed.sent) + events
    }

    /** The history is where it was, or in a new buffer. */
    twostate predicate OwnBuffer()
      reads this`history
    {
      history.buf == old(history.buf) || fresh(history.buf)
    }

    /** Everything handed out before still is what it was: it reads as it did. */
    twostate predicate PublishedStand()
      reads this`published, this`vault, vault
    {
      Includes(published, old(published)) &&
      forall s | s in old(published) ::
        Within(vault, s) && old(Within(vault, s)) && Reading(vault, s) == old(Reading(vault, s))
    }

    /** The call has been answered, and has changed and published, exactly as the step function says. */
    twostate predicate Does(call: Call, new reply: ReplyOf<SharedState>)
      reads this, subs
      requires old(Covered())
    {
      var o := Step(cfg, old(View()), call);
      Covered() && View() == o.room && Says(published, reply, o.reply) && Sent(o.events)
    }

    /** Whoever holds the lock has done what the outcome says. */
    twostate predicate Yields(o: Outcome, new reply: ReplyOf<SharedState>)
      reads this, subs, vault, history.buf
    {
      && Ready() && View() == o.room && Says(published, reply, o.reply) && Sent(o.events)
      && Includes(published, old(published)) && OwnBuffer()
    }

    constructor (cfg: Config, subBuffer: nat, subject: string, context: string, now: int)
      requires subBuffer >= 1
      ensures Valid() && this.cfg == cfg && this.subBuffer == subBuffer && subs == {}
      ensures View() == NewRoom(subject, context, now)
      ensures log == [] && published == map[] && fresh(history.buf)
    {
      this.cfg, this.subBuffer := cfg, subBuffer;
      participants, joinSeq := map[], 0;
      round := LiveRound(1, subject, context, Voting, map[], null);
      settled := null;
      lastActive := now;
      subs := {};
      eventSeq, closed := 0, false;
      order := [];
      shown, vault, published, log := Shown(None, [], None), {}, map[], [];
      var buf := new Entry[0];
      history := Slice(buf, 0, 0);
    }

    // ---------- sharing ----------

    /** These are shared from now on. */
    ghost method Share(more: set<object>)
      requires Stored()
      requires this !in more && history.buf !in more && forall ch | ch in subs :: ch !in more
      modifies this`vault
      ensures Stored() && vault == old(vault) + more
    {
      hide Holds, Standing;
      HoldsStill(vault, vault + more, round.results, history, settled, shown);
      StandingStill(vault, vault + more, published);
      vault := vault + more;
    }

    /** The state is handed out from now on. */
    ghost method Publish(s: SharedState, st: State)
      requires Stored() && AllServed() && Stands(vault, s, st)
      modifies this`published
      ensures Stored() && AllServed() && published == old(published)[s := st]
      ensures Includes(published, old(published))
    {
      hide Holds, Standing, Includes;
      StandingMore(vault, published, s, st);
      forall ch | ch in subs ensures Served(ch, published[s := st], log) {
        IncludesAll(published[s := st], published, ch.record);
      }
      published := published[s := st];
    }

    // ---------- reading ----------

    method Auth(token: string) returns (p: Option<Participant>)
      requires Covered() && Orderly(View().participants, joinSeq)
      ensures p == Authenticate(View().participants, token)
    {
      PeopleMembers(order, participants);
      if token == "" {
        return None;
      }
      var left := participants.Keys;
      while left != {}
        invariant left <= participants.Keys
        invariant forall id | id in participants && id !in left :: participants[id].token != token
      {
        var id :| id in left;
        left := left - {id};
        if participants[id].token == token {
          OnlyOneHolds(View().participants, joinSeq, token, participants[id]);
          return Some(participants[id]);
        }
      }
      p := None;
    }

    method SortedParticipants() returns (ps: seq<Participant>)
      requires Covered() && Orderly(View().participants, joinSeq)
      ensures ps == View().participants
    {
      OrderlyIsInJoinOrder(View().participants, joinSeq);
      ps := [];
      var left := participants.Keys;
      ghost var seen: seq<string> := [];
      while left != {}
        invariant left <= participants.Keys
        invariant Distinct(seen) && forall id :: id in seen <==> id in participants && id !in left
        invariant ps == Roll(seen, participants)
      {
        var id :| id in left;
        left := left - {id};
        RollSnoc(seen, participants, id);
        seen := seen + [id];
        ps := ps + [participants[id]];
      }
      SortingRestoresJoinOrder(order, seen, participants);
      ps := SortByJoin(ps);
    }

    method AllHaveVoted() returns (all: bool)
      requires Covered()
      ensures all == AllVoted(View().participants, round.votes)
    {
      AllVotedByKey(order, participants, round.votes);
      hide Roll, Covers, AllVoted;
      var n := 0;
      var left := participants.Keys;
      while left != {}
        invariant left <= participants.Keys
        invariant forall id | id in participants && id !in left && Voter(participants[id]) :: id in round.votes
        invariant n > 0 <==> exists id :: id in participants && id !in left && Voter(participants[id])
      {
        var id :| id in left;
        left := left - {id};
        if participants[id].kind.Observer? {
          continue;
        }
        n := n + 1;
        if id !in round.votes {
          return false;
        }
      }
      all := n > 0;
    }

    /** The ballots, in a slice of the room for them that their number is known to need. */
    method ListBallots(ps: seq<Participant>) returns (votes: Votes)
      ensures votes.Fits() && fresh(votes.buf) && votes.Contents() == Ballots(ps, round.votes)
    {
      hide Ballots, Slice.Contents;
      votes := MakeSlice(|round.votes|);
      ghost var sofar: seq<RevealedVote> := [];
      for i := 0 to |ps|
        invariant votes.Fits() && fresh(votes.buf) && votes.Contents() == sofar
        invariant sofar + Ballots(ps[i..], round.votes) == Ballots(ps, round.votes)
      {
        var p := ps[i];
        BallotsFrom(ps, round.votes, i, sofar);
        if p.id in round.votes {
          var v := round.votes[p.id];
          var ballot := RevealedVote(p.name, p.kind, v.value, v.rationale);
          votes := Append(votes, ballot);
          sofar := sofar + [ballot];
        }
      }
      BallotsFrom(ps, round.votes, |ps|, sofar);
    }

    method BuildResults() returns (results: SharedResults)
      requires Ready()
      modifies this`vault
      ensures Ready() && vault >= old(vault) && ResultsIn(vault, results)
      ensures var votes := Ballots(View().participants, round.votes);
              ResultsRead(vault, results) == Some(Results(votes, RoundStats.StatsOf(votes, cfg.deck, cfg.parse)))
    {
      hide Orderly, Roll, Ballots, RoundStats.StatsOf, Delivery.FeedInv, Holds, Standing, Includes;
      var ps := SortedParticipants();
      var votes := ListBallots(ps);
      var stats := RoundStats.ComputeStats(votes.Contents(), cfg.deck, cfg.parse);
      results := new SharedResults(votes, stats);
      Share({results, votes.buf});
    }

    method ListParticipants(ps: seq<Participant>) returns (parts: seq<ParticipantState>)
      ensures parts == RoomModel.Listed(ps, round.votes)
    {
      parts := [];
      for i := 0 to |ps|
        invariant parts + RoomModel.Listed(ps[i..], round.votes) == RoomModel.Listed(ps, round.votes)
      {
        assert ps[i..][1..] == ps[i + 1..];
        var p := ps[i];
        var part := ParticipantState(p.id, p.name, p.kind, p.id in round.votes);
        assert parts + ([part] + RoomModel.Listed(ps[i + 1..], round.votes))
            == parts + [part] + RoomModel.Listed(ps[i + 1..], round.votes);
        parts := parts + [part];
      }
    }

    method ListPresent() returns (parts: seq<ParticipantState>)
      requires Ready()
      ensures parts == RoomModel.Listed(View().participants, round.votes)
    {
      hide Orderly, Roll, Covers, Stored, AllServed, RoomModel.Listed;
      var ps := SortedParticipants();
      parts := ListParticipants(ps);
    }

    /** The redacted state, with the history in a buffer of its own. */
    method TakeSnapshot() returns (s: SharedState)
      requires Ready()
      modifies this`vault, this`published
      ensures Ready() && s in published && published[s] == Snapshot(cfg, View())
      ensures Includes(published, old(published))
    {
      hide Orderly, Roll, Covers, Includes, Standing, Holds, Stands, AllServed, RoomModel.Listed;
      var parts := ListPresent();
      HoldsFits(vault, round.results, history, settled, shown);
      var c := Clone(history);
      s := SharedState(eventSeq, cfg.roomId, cfg.deck, cfg.autoReveal,
                       RoundState(round.number, round.subject, round.context, round.phase, |round.votes|, parts),
                       null, c, settled);
      if round.phase.Revealed? {
        s := s.(results := round.results);
      }
      Share({c.buf});
      CopyStands(vault, round.results, history, settled, shown, s);
      Publish(s, Snapshot(cfg, View()));
    }

    // ---------- publishing ----------

    /** Stamps the message and delivers it to everyone without blocking. */
    method Fanout(m: Message, ghost ev: Event)
      requires AllServed() && Stored() && Carries(published, m, ev)
      modifies this`eventSeq, this`log, this`published, subs
      ensures AllServed() && Stored() && eventSeq == old(eventSeq) + 1
      ensures Sent([Stamped(ev, eventSeq)]) && Includes(published, old(published))
    {
      hide Holds, Includes, Standing, Served;
      ghost var e := Stamped(ev, eventSeq + 1);
      var stamped := StampedMessage(m, eventSeq + 1);
      PublishStamped(m, ev, eventSeq + 1);
      eventSeq := eventSeq + 1;
      DeliverToAll(stamped, e);
      log := log + [e];
    }

    method DeliverToAll(m: Message, ghost e: Event)
      requires Stored() && (forall ch | ch in subs :: Served(ch, published, log))
      requires e.id == |log| + 1 && Revisions.CarriesRevision(e) && Carries(published, m, e)
      modifies subs
      ensures Stored()
      ensures forall ch | ch in subs :: Served(ch, published, log + [e]) && ch.feed.sent == old(ch.feed.sent) + [e]
    {
      hide Holds, Includes, Standing, Served, Carries;
      var left := subs;
      while left != {}
        modifies subs
        invariant left <= subs && Stored()
        invariant forall ch | ch in left :: Served(ch, published, log) && ch.feed == old(ch.feed)
        invariant forall ch | ch in subs - left ::
                    Served(ch, published, log + [e]) && ch.feed.sent == old(ch.feed.sent) + [e]
      {
        var ch :| ch in left;
        left := left - {ch};
        DeliverTo(ch, m, e, published, log);
      }
      assert subs - left == subs;
    }

    ghost method PublishStamped(m: Message, ev: Event, id: nat)
      requires AllServed() && Stored() && Carries(published, m, ev)
      modifies this`published
      ensures AllServed() && Stored() && Includes(published, old(published))
      ensures Carries(published, StampedMessage(m, id), Stamped(ev, id))
    {
      hide Delivery.FeedInv, Holds, Stands;
      if m.StateEvent? {
        StandsRevised(vault, m.state, ev.state, id);
        Publish(m.state.(revision := id), ev.state.(revision := id));
      }
    }

    /** The state as of the new revision; nothing from a dead room. */
    method Broadcast(change: Change)
      requires Ready()
      modifies this`eventSeq, this`log, this`vault, this`published, subs
      ensures Ready() && Includes(published, old(published))
      ensures old(closed) ==> eventSeq == old(eventSeq) && Sent([])
      ensures !old(closed) ==> View() == Bump(old(View())) && Sent([Announce(cfg, old(View()), change)])
    {
      hide Holds, Standing, Includes, Orderly, Roll, Covers, AllServed, Snapshot, Announce, Stamped;
      if closed {
        IncludesItself(published);
        return;
      }
      StampedIsAnnounced(cfg, View(), change);
      var st := TakeSnapshot();
      ghost var taken := published;
      Fanout(StateEvent(0, change, st), StateEvent(0, change, published[st]));
      IncludesAll(published, taken, old(published));
    }

    method FreezeResults()
      requires Ready()
      modifies this`round, this`shown, this`vault
      ensures Ready() && View() == RevealedRoom(cfg, old(View()))
    {
      hide Standing, HoldsVerdict, HoldsHistory, Includes, Orderly, Roll, Covers, AllServed, Ballots;
      hide RoundStats.StatsOf;
      var results := BuildResults();
      Revealing(vault, round.results, settled, shown.results, shown.settled, results);
      round := round.(phase := Revealed, results := results);
      shown := shown.(results := ResultsRead(vault, results));
    }

    method RevealRound()
      requires Ready() && !closed
      modifies this`eventSeq, this`log, this`round, this`shown, this`vault, this`published, subs
      ensures Ready() && Includes(published, old(published))
      ensures View() == Bump(RevealedRoom(cfg, old(View())))
      ensures Sent([Announce(cfg, RevealedRoom(cfg, old(View())), RoundRevealed)])
    {
      hide Stored, Includes, Orderly, Roll, Covers, AllServed, RevealedRoom, Announce, Bump;
      FreezeResults();
      Broadcast(RoundRevealed);
    }

    method RevealAndLook() returns (s: SharedState)
      requires Ready() && !closed
      modifies this`eventSeq, this`log, this`round, this`shown, this`vault, this`published, subs
      ensures Ready() && Includes(published, old(published))
      ensures View() == Bump(RevealedRoom(cfg, old(View())))
      ensures Sent([Announce(cfg, RevealedRoom(cfg, old(View())), RoundRevealed)])
      ensures s in published && published[s] == Snapshot(cfg, View())
    {
      hide Standing, Holds, Includes, Orderly, Roll, Covers, Snapshot, AllServed, Announce, Bump, RevealedRoom;
      RevealRound();
      ghost var told := published;
      s := TakeSnapshot();
      IncludesAll(published, told, old(published));
    }

    /** What a vote and a departure end with: the announcement, then the reveal if it is due. */
    method AnnounceBallot(change: Change) returns (revealed: Option<SharedState>)
      requires Ready() && !closed
      modifies this`eventSeq, this`log, this`round, this`shown, this`vault, this`published, subs
      ensures Ready() && Includes(published, old(published))
      ensures var flow := AfterBallotChange(cfg, old(View()), change);
              && View() == flow.room && Sent(flow.events)
              && Says(published, Gone(revealed), Reply.Gone(flow.revealed))
    {
      hide Snapshot, RevealedRoom, AllServed, Includes, Standing, Holds, Orderly, Roll, Covers, Announce, AllVoted;
      Broadcast(change);
      revealed := None;
      if round.phase.Voting? && cfg.autoReveal {
        var all := AllHaveVoted();
        if all {
          ghost var told := published;
          var st := RevealAndLook();
          revealed := Some(st);
          IncludesAll(published, told, old(published));
        }
      }
    }

    // ---------- changing who is here ----------

    method Enter(p: Participant)
      requires Ready() && p.joinNo == joinSeq + 1
      requires Mintable(View(), RoomModel.Join(p.name, p.kind, p.id, p.token))
      modifies this`participants, this`order, this`joinSeq
      ensures Ready() && joinSeq == p.joinNo
      ensures View() == old(View()).(participants := old(View()).participants + [p], joins := p.joinNo)
    {
      hide Roll, Orderly, Holds, Standing, AllServed;
      PeopleMembers(order, participants);
      PeopleAppend(order, participants, p.id, p);
      OrderlyAppend(View().participants, joinSeq, p);
      joinSeq := joinSeq + 1;
      participants := participants[p.id := p];
      order := order + [p.id];
    }

    method Depart(id: string)
      requires Ready()
      modifies this`participants, this`order
      ensures Ready()
      ensures View() == old(View()).(participants := Without(old(View()).participants, id))
    {
      hide Holds, Standing, AllServed, Roll, Orderly;
      PeopleWithout(order, participants, id);
      WithoutIdMembers(order, id);
      OrderlyWithout(View().participants, joinSeq, id);
      participants := participants - {id};
      order := WithoutId(order, id);
    }

    method Touch(id: string, now: int)
      requires Ready() && id in participants
      modifies this`participants
      ensures Ready()
      ensures View() == old(View()).(participants := Stamp(old(View()).participants, id, now))
    {
      hide Holds, Standing, AllServed;
      PeopleStamp(order, participants, id, now);
      StampKeeps(View().participants, joinSeq, id, now);
      participants := participants[id := participants[id].(lastReaction := Some(now))];
    }

    method AppendEntry(summary: Entry)
      requires Ready() && VotesIn(vault, summary.votes)
      modifies this`history, this`shown, history.buf
      ensures Ready() && OwnBuffer()
      ensures var past := RoundSummary(summary.number, summary.subject, old(VotesRead(vault, summary.votes)),
                                       summary.stats, summary.called);
              View() == old(View()).(history := old(shown.history) + [past])
    {
      hide Standing, HoldsVerdict, HoldsHistory, Orderly, Roll, AllServed, Covers;
      hide EntriesRead, EntriesIn, VotesRead, VotesIn;
      HoldsEntries(vault, history, shown.history);
      ghost var entries := history.Contents();
      history := Append(history, summary);
      HoldsLonger(vault, entries, summary, history);
      shown := shown.(history := shown.history + [RoundSummary(summary.number, summary.subject,
                                                               VotesRead(vault, summary.votes),
                                                               summary.stats, summary.called)]);
    }

    /** Appended in place, or to a larger copy; the oldest entry falls out of a full history. */
    method RememberRound(summary: Entry)
      requires Ready() && VotesIn(vault, summary.votes)
      modifies this`history, this`shown, history.buf
      ensures Ready() && OwnBuffer()
      ensures var past := RoundSummary(summary.number, summary.subject, old(VotesRead(vault, summary.votes)),
                                       summary.stats, summary.called);
              View() == old(View()).(history := Remember(old(shown.history), past, cfg.historyLen))
    {
      hide Standing, HoldsVerdict, HoldsHistory, Orderly, Roll, AllServed, Covers;
      AppendEntry(summary);
      HoldsTail(vault, history, shown.history);
      if history.len > cfg.historyLen {
        history := history.Tail();
        shown := shown.(history := shown.history[1..]);
      }
    }

    /** The revealed round goes into the history, with the verdict it was settled on, and a new one opens. */
    method ArchiveRound(subject: string, context: string)
      requires Ready() && shown.results.Some?
      modifies this`history, this`settled, this`round, this`shown, history.buf
      ensures Ready() && OwnBuffer()
      ensures View() == old(View()).(history := Remember(old(shown.history), Archive(old(View())), cfg.historyLen),
                                     settled := None, round := NewRound(old(round.number) + 1, subject, context))
    {
      hide Standing, HoldsVerdict, HoldsHistory, Orderly, Roll, AllServed, Remember;
      Archiving(vault, round.results, settled, shown.results, shown.settled);
      var results := round.results;
      var summary := Entry(round.number, round.subject, results.votes, results.stats, "");
      if settled != null {
        summary := summary.(called := settled.settlement.value);
        Settling(vault, round.results, settled, shown.results, shown.settled, null);
        settled := null;
        shown := shown.(settled := None);
      }
      RememberRound(summary);
      Revealing(vault, round.results, settled, shown.results, shown.settled, null);
      round := LiveRound(round.number + 1, subject, context, Voting, map[], null);
      shown := shown.(results := None);
    }

    method BroadcastAndLook(change: Change) returns (s: SharedState)
      requires Ready() && !closed
      modifies this`eventSeq, this`log, this`vault, this`published, subs
      ensures Ready() && Includes(published, old(published))
      ensures View() == Bump(old(View())) && Sent([Announce(cfg, old(View()), change)])
      ensures s in published && published[s] == Snapshot(cfg, View())
    {
      hide Standing, Holds, Includes, Orderly, Roll, Covers, Snapshot, AllServed, Announce, Bump;
      Broadcast(change);
      ghost var told := published;
      s := TakeSnapshot();
      IncludesAll(published, told, old(published));
    }

    /** The history, copied, with the revealed round at its end. */
    method RoundsSoFar() returns (rounds: seq<RoundSummary>)
      requires Ready() && shown.results.Some?
      ensures var results := shown.results.value;
              rounds == shown.history + [RoundSummary(round.number, round.subject, results.votes, results.stats, "")]
    {
      hide Standing, HoldsVerdict, HoldsHistory, Orderly, Roll, AllServed, Covers;
      Archiving(vault, round.results, settled, shown.results, shown.settled);
      HoldsEntries(vault, history, shown.history);
      ghost var entries := history.Contents();
      var c := Clone(history);
      var e := Entry(round.number, round.subject, round.results.votes, round.results.stats, "");
      c := Append(c, e);
      EntriesAppend(vault, entries, e);
      rounds := EntriesRead(vault, c.Contents());
    }

    method AwardsFor(value: string) returns (awards: seq<Award>)
      requires Ready() && shown.results.Some?
      ensures var results := shown.results.value;
              var now := RoundSummary(round.number, round.subject, results.votes, results.stats, "");
              awards == Awards.AwardsOf(shown.history + [now], Awards.Scale(cfg.deck, value, cfg.parse))
    {
      hide Ready, Awards.AwardsOf;
      var rounds := RoundsSoFar();
      awards := Awards.ComputeAwards(rounds, Awards.Scale(cfg.deck, value, cfg.parse));
    }

    method SettleOn(settlement: Settlement)
      requires Ready()
      modifies this`settled, this`shown, this`vault
      ensures Ready() && View() == old(View()).(settled := Some(settlement))
    {
      hide Standing, HoldsVerdict, HoldsHistory, Orderly, Roll, AllServed, Covers;
      var verdict := new SharedSettlement(settlement);
      Share({verdict});
      Settling(vault, round.results, settled, shown.results, shown.settled, verdict);
      settled := verdict;
      shown := shown.(settled := Some(settlement));
    }

    /** Nothing that is done to the room reaches what was handed out. */
    twostate lemma AllStand()
      requires old(Stored()) && Stored() && Includes(published, old(published))
      ensures PublishedStand()
    {
      hide Within, Reading, Holds;
      forall s | s in old(published)
        ensures Within(vault, s) && old(Within(vault, s)) && Reading(vault, s) == old(Reading(vault, s))
      {
        assert Stands(vault, s, published[s]);
        assert old(Stands(vault, s, published[s]));
      }
    }

    // ---------- the calls ----------

    method Join(name: string, kind: Kind, id: string, token: string, now: int) returns (reply: ReplyOf<SharedState>)
      requires Valid() && Mintable(View(), RoomModel.Join(name, kind, id, token))
      modifies this, subs
      ensures Valid() && Does(Call(RoomModel.Join(name, kind, id, token), now), reply) && PublishedStand()
      ensures subs == old(subs) && OwnBuffer()
    {
      hide PublishedStand, AllServed, Holds, Standing, Snapshot, Inv, Orderly, Roll, Covers, Includes;
      hide Step, DoJoin, Mintable;
      IncludesItself(published);
      AllStand();
      JoinStep(cfg, View(), RoomModel.Join(name, kind, id, token), now);
      StepInv(cfg, View(), Call(RoomModel.Join(name, kind, id, token), now));
      Peopled();
      if !(1 <= |name| <= MAX_NAME_LEN) {
        return Failed(BadName);
      }
      if closed {
        return Failed(RoomNotFound);
      }
      lastActive := now;
      reply := JoinAs(name, kind, id, token);
      AllStand();
    }

    method JoinAs(name: string, kind: Kind, id: string, token: string) returns (reply: ReplyOf<SharedState>)
      requires Ready() && !closed && |participants| == |View().participants|
      requires Mintable(View(), RoomModel.Join(name, kind, id, token))
      modifies this`participants, this`order, this`joinSeq, this`eventSeq, this`log, this`vault, this`published, subs
      ensures Yields(DoJoin(cfg, old(View()), RoomModel.Join(name, kind, id, token)), reply)
    {
      hide AllServed, Holds, Standing, Snapshot, Orderly, Roll, Covers, Includes, Mintable;
      IncludesItself(published);
      if |participants| >= MAX_PARTICIPANTS {
        return Failed(RoomFull);
      }
      Enter(Participant(id, name, kind, token, joinSeq + 1, None));
      Broadcast(Joined);
      reply := Welcome(id, token);
    }

    lemma Ordered()
      requires Covered() && Inv(cfg, View())
      ensures Orderly(View().participants, joinSeq)
    {
    }

    /** There are as many participants as names on the roll. */
    lemma Peopled()
      requires Covered() && Inv(cfg, View())
      ensures Orderly(View().participants, joinSeq)
      ensures |participants| == |View().participants|
      ensures forall p | p in View().participants :: p.id in participants && participants[p.id] == p
      ensures forall id | id in participants :: participants[id] in View().participants
    {
      PeopleMembers(order, participants);
      DistinctRoll(order, participants, joinSeq);
      DistinctCount(order, participants.Keys);
      assert |participants| == |participants.Keys|;
    }

    method CastVoteBy(p: Participant, token: string, value: string, rationale: string)
      returns (reply: ReplyOf<SharedState>)
      requires Ready() && !closed
      modifies this`round, this`shown, this`eventSeq, this`log, this`vault, this`published, subs
      ensures Yields(DoCastVote(cfg, old(View()), p, RoomModel.CastVote(token, value, rationale)), reply)
    {
      hide AllServed, Holds, Standing, Snapshot, Orderly, Roll, Covers, Includes, AfterBallotChange;
      IncludesItself(published);
      if p.kind.Observer? {
        return Failed(ObserverVote);
      }
      if !round.phase.Voting? {
        return Failed(WrongState);
      }
      if value !in cfg.deck {
        return Failed(NotInDeck);
      }
      round := round.(votes := round.votes[p.id := Vote(value, rationale)]);
      var revealed := AnnounceBallot(VoteCast);
      reply := Voted(p.kind, revealed);
    }

    method CastVote(token: string, value: string, rationale: string, now: int) returns (reply: ReplyOf<SharedState>)
      requires Valid()
      modifies this, subs
      ensures Valid() && Does(Call(RoomModel.CastVote(token, value, rationale), now), reply) && PublishedStand()
      ensures subs == old(subs) && OwnBuffer()
    {
      hide PublishedStand, AllServed, Holds, Standing, Snapshot, Inv, Orderly, Roll, Covers, Includes;
      hide Step, Authenticate, DoCastVote, DoReveal, DoStartRound, DoLeave, DoReact, DoSettle;
      IncludesItself(published);
      AllStand();
      CastVoteStep(cfg, View(), token, value, rationale, now);
      StepInv(cfg, View(), Call(RoomModel.CastVote(token, value, rationale), now));
      Ordered();
      if |rationale| > MAX_RATIONALE_LEN {
        return Failed(BadRationale);
      }
      if closed {
        return Failed(RoomNotFound);
      }
      lastActive := now;
      var p := Auth(token);
      if p.None? {
        return Failed(BadToken);
      }
      reply := CastVoteBy(p.value, token, value, rationale);
      AllStand();
    }

    method RevealBy() returns (reply: ReplyOf<SharedState>)
      requires Ready() && !closed
      modifies this`round, this`shown, this`eventSeq, this`log, this`vault, this`published, subs
      ensures Yields(DoReveal(cfg, old(View())), reply)
    {
      hide AllServed, Holds, Standing, Snapshot, Orderly, Roll, Covers, Includes, RevealedRoom, Announce;
      IncludesItself(published);
      if !round.phase.Voting? {
        return Failed(WrongState);
      }
      var st := RevealAndLook();
      reply := Now(st);
    }

    method Reveal(token: string, now: int) returns (reply: ReplyOf<SharedState>)
      requires Valid()
      modifies this, subs
      ensures Valid() && Does(Call(RoomModel.Reveal(token), now), reply) && PublishedStand()
      ensures subs == old(subs) && OwnBuffer()
    {
      hide PublishedStand, AllServed, Holds, Standing, Snapshot, Inv, Orderly, Roll, Covers, Includes;
      hide Step, Authenticate, DoCastVote, DoReveal, DoStartRound, DoLeave, DoReact, DoSettle;
      IncludesItself(published);
      AllStand();
      RevealStep(cfg, View(), token, now);
      StepInv(cfg, View(), Call(RoomModel.Reveal(token), now));
      Ordered();
      if closed {
        return Failed(RoomNotFound);
      }
      lastActive := now;
      var p := Auth(token);
      if p.None? {
        return Failed(BadToken);
      }
      reply := RevealBy();
      AllStand();
    }

    method StartRoundBy(token: string, subject: string, context: string) returns (reply: ReplyOf<SharedState>)
      requires Ready() && !closed && (round.phase.Revealed? ==> shown.results.Some?)
      modifies this`round, this`history, this`settled, this`shown,
               this`eventSeq, this`log, this`vault, this`published, subs,
               history.buf
      ensures Yields(DoStartRound(cfg, old(View()), RoomModel.StartRound(token, subject, context)), reply)
    {
      hide AllServed, Holds, Standing, Snapshot, Orderly, Roll, Covers, Includes, Remember, Archive, Announce;
      IncludesItself(published);
      if !round.phase.Revealed? {
        return Failed(WrongState);
      }
      ArchiveRound(subject, context);
      var st := BroadcastAndLook(RoundStarted);
      reply := Now(st);
    }

    method StartRound(token: string, subject: string, context: string, now: int) returns (reply: ReplyOf<SharedState>)
      requires Valid()
      modifies this, subs, history.buf
      ensures Valid() && Does(Call(RoomModel.StartRound(token, subject, context), now), reply) && PublishedStand()
      ensures subs == old(subs) && OwnBuffer()
    {
      hide PublishedStand, AllServed, Holds, Standing, Snapshot, Inv, Orderly, Roll, Covers, Includes;
      hide Step, Authenticate, DoCastVote, DoReveal, DoStartRound, DoLeave, DoReact, DoSettle;
      IncludesItself(published);
      AllStand();
      StartRoundStep(cfg, View(), token, subject, context, now);
      StepInv(cfg, View(), Call(RoomModel.StartRound(token, subject, context), now));
      Ordered();
      ResultsWhenRevealed();
      if closed {
        return Failed(RoomNotFound);
      }
      lastActive := now;
      var p := Auth(token);
      if p.None? {
        return Failed(BadToken);
      }
      reply := StartRoundBy(token, subject, context);
      AllStand();
    }

    lemma ResultsWhenRevealed()
      requires Covered() && Inv(cfg, View())
      ensures round.phase.Revealed? ==> shown.results.Some?
    {
    }

    method LeaveBy(p: Participant) returns (reply: ReplyOf<SharedState>)
      requires Ready() && !closed
      modifies this`round, this`participants, this`order, this`shown,
               this`eventSeq, this`log, this`vault, this`published, subs
      ensures Yields(DoLeave(cfg, old(View()), p), reply)
    {
      hide AllServed, Holds, Standing, Snapshot, Orderly, Roll, Covers, Includes, AfterBallotChange, Without;
      Depart(p.id);
      if round.phase.Voting? {
        round := round.(votes := round.votes - {p.id});
      }
      var revealed := AnnounceBallot(Departed);
      reply := Gone(revealed);
    }

    method Leave(token: string, now: int) returns (reply: ReplyOf<SharedState>)
      requires Valid()
      modifies this, subs
      ensures Valid() && Does(Call(RoomModel.Leave(token), now), reply) && PublishedStand()
      ensures subs == old(subs) && OwnBuffer()
    {
      hide PublishedStand, AllServed, Holds, Standing, Snapshot, Inv, Orderly, Roll, Covers, Includes;
      hide Step, Authenticate, DoCastVote, DoReveal, DoStartRound, DoLeave, DoReact, DoSettle;
      IncludesItself(published);
      AllStand();
      LeaveStep(cfg, View(), token, now);
      StepInv(cfg, View(), Call(RoomModel.Leave(token), now));
      Ordered();
      if closed {
        return Failed(RoomNotFound);
      }
      lastActive := now;
      var p := Auth(token);
      if p.None? {
        return Failed(BadToken);
      }
      reply := LeaveBy(p.value);
      AllStand();
    }

    method ReactBy(p: Participant, emoji: string, now: int) returns (reply: ReplyOf<SharedState>)
      requires Ready() && p.id in participants
      modifies this`participants, this`eventSeq, this`log, this`published, subs
      ensures Yields(DoReact(old(View()), p, emoji, now), reply)
    {
      hide AllServed, Holds, Standing, Snapshot, Orderly, Roll, Covers, Includes, Stamp;
      IncludesItself(published);
      if p.lastReaction.Some? && now - p.lastReaction.value < REACTION_COOLDOWN {
        return Failed(TooFast);
      }
      Touch(p.id, now);
      var reaction := Reaction(p.name, p.kind, emoji);
      Fanout(ReactionEvent(0, reaction), ReactionEvent(0, reaction));
      reply := Done;
    }

    method React(token: string, emoji: string, now: int) returns (reply: ReplyOf<SharedState>)
      requires Valid()
      modifies this, subs
      ensures Valid() && Does(Call(RoomModel.React(token, emoji), now), reply) && PublishedStand()
      ensures subs == old(subs) && OwnBuffer()
    {
      hide PublishedStand, AllServed, Holds, Standing, Snapshot, Inv, Orderly, Roll, Covers, Includes;
      hide Step, Authenticate, DoCastVote, DoReveal, DoStartRound, DoLeave, DoReact, DoSettle;
      IncludesItself(published);
      AllStand();
      ReactStep(cfg, View(), token, emoji, now);
      StepInv(cfg, View(), Call(RoomModel.React(token, emoji), now));
      Peopled();
      if closed {
        return Failed(RoomNotFound);
      }
      lastActive := now;
      var p := Auth(token);
      if p.None? {
        return Failed(BadToken);
      }
      reply := ReactBy(p.value, emoji, now);
      AllStand();
    }

    method SettleBy(p: Participant, value: string, now: int) returns (reply: ReplyOf<SharedState>)
      requires Ready() && !closed && (round.phase.Revealed? ==> shown.results.Some?)
      modifies this`settled, this`shown, this`eventSeq, this`log, this`vault, this`published, subs
      ensures Yields(DoSettle(cfg, old(View()), p, value, now), reply)
    {
      hide AllServed, Holds, Standing, Snapshot, Orderly, Roll, Covers, Includes, Awards.AwardsOf, Announce;
      IncludesItself(published);
      if value !in cfg.deck {
        return Failed(NotInDeck);
      }
      if !round.phase.Revealed? {
        return Failed(WrongState);
      }
      var awards := AwardsFor(value);
      SettleOn(Settlement(value, p.name, now, awards));
      var st := BroadcastAndLook(RoundSettled);
      reply := Now(st);
    }

    method Settle(token: string, value: string, now: int) returns (reply: ReplyOf<SharedState>)
      requires Valid()
      modifies this, subs
      ensures Valid() && Does(Call(RoomModel.Settle(token, value), now), reply) && PublishedStand()
      ensures subs == old(subs) && OwnBuffer()
    {
      hide PublishedStand, AllServed, Holds, Standing, Snapshot, Inv, Orderly, Roll, Covers, Includes;
      hide Step, Authenticate, DoCastVote, DoReveal, DoStartRound, DoLeave, DoReact, DoSettle;
      IncludesItself(published);
      AllStand();
      SettleStep(cfg, View(), token, value, now);
      StepInv(cfg, View(), Call(RoomModel.Settle(token, value), now));
      Ordered();
      ResultsWhenRevealed();
      if closed {
        return Failed(RoomNotFound);
      }
      lastActive := now;
      var p := Auth(token);
      if p.None? {
        return Failed(BadToken);
      }
      reply := SettleBy(p.value, value, now);
      AllStand();
    }

    method GetState(now: int) returns (reply: ReplyOf<SharedState>)
      requires Valid()
      modifies this, subs
      ensures Valid() && Does(Call(RoomModel.GetState, now), reply) && PublishedStand()
      ensures subs == old(subs) && OwnBuffer()
    {
      hide PublishedStand, AllServed, Holds, Standing, Snapshot, Inv, Orderly, Roll, Covers, Includes;
      IncludesItself(published);
      AllStand();
      StepInv(cfg, View(), Call(RoomModel.GetState, now));
      Ordered();
      lastActive := now;
      var st := TakeSnapshot();
      AllStand();
      reply := Now(st);
    }

    // ---------- subscribers ----------

    /** A live room hands out a fresh open channel that will get everything from now on; a dead one a channel
        already closed. */
    method Subscribe() returns (ch: Channel)
      requires Valid()
      modifies this`subs
      ensures Valid() && View() == old(View()) && fresh(ch) && ch.queue == [] && PublishedStand()
      ensures !closed ==> subs == old(subs) + {ch} && ch.base == eventSeq && ch.feed.sent == [] && ch.Idle(eventSeq)
      ensures closed ==> subs == old(subs) && ch.closed
    {
      hide PublishedStand, Holds, Standing, Inv, Roll, Covers, Channel.Idle;
      ch := new Channel(subBuffer, eventSeq);
      if closed {
        ch.Close(eventSeq);
      } else {
        subs := subs + {ch};
      }
      AllStand();
    }

    /** Cancelling twice is cancelling once, and never touches the channel or what it holds. */
    method Unsubscribe(ch: Channel)
      requires Valid()
      modifies this`subs, (if ch in subs then {ch} else {})`feed
      ensures Valid() && View() == old(View()) && PublishedStand()
      ensures subs == old(subs) - {ch} && ch.queue == old(ch.queue) && ch.closed == old(ch.closed)
    {
      hide PublishedStand, Holds, Standing, Inv, Roll, Covers, Channel.Idle;
      if ch in subs {
        ch.Unsubscribe(eventSeq);
      }
      subs := subs - {ch};
      AllStand();
    }

    /** Every channel is closed once, after which the room never touches it again. */
    method Close(now: int) returns (reply: ReplyOf<SharedState>)
      requires Valid()
      modifies this`closed, this`subs, subs
      ensures Valid() && closed && subs == {} && PublishedStand()
      ensures View() == Step(cfg, old(View()), Call(RoomModel.Close, now)).room && reply == Done
      ensures forall ch | ch in old(subs) :: ch.closed && ch.queue == old(ch.queue)
    {
      hide PublishedStand, Holds, Standing, Inv, Roll, Covers, Step;
      CloseStep(cfg, View(), now);
      StepInv(cfg, View(), Call(RoomModel.Close, now));
      if !closed {
        closed := true;
        CloseAll();
        subs := {};
      }
      IncludesItself(published);
      AllStand();
      reply := Done;
    }

    method CloseAll()
      requires Stored() && forall ch | ch in subs :: ch.Idle(eventSeq)
      modifies subs
      ensures Stored() && forall ch | ch in subs :: ch.closed && ch.queue == old(ch.queue)
    {
      hide Holds, Standing, Channel.Idle;
      var left := subs;
      while left != {}
        modifies subs
        invariant left <= subs && Stored()
        invariant forall ch | ch in left :: ch.Idle(eventSeq) && ch.queue == old(ch.queue)
        invariant forall ch | ch in subs - left :: ch.closed && ch.queue == old(ch.queue)
      {
        var ch :| ch in left;
        left := left - {ch};
        ch.Close(eventSeq);
      }
      assert subs - left == subs;
    }
  }

  lemma AllVotedByKey(order: seq<string>, m: map<string, Participant>, votes: map<string, Vote>)
    requires Covers(order, m)
    ensures AllVoted(Roll(order, m), votes) <==>
              (forall id | id in m && Voter(m[id]) :: id in votes) && exists id :: id in m && Voter(m[id])
  {
    PeopleMembers(order, m);
    var ps := Roll(order, m);
    assert forall p | p in ps :: p.id in m && m[p.id] == p;
    assert forall id | id in m :: m[id] in ps && m[id].id == id;
  }

  /** The ballots from a place on are that participant's, if there is one, and the rest. */
  lemma BallotsFrom(ps: seq<Participant>, votes: map<string, Vote>, i: nat, sofar: seq<RevealedVote>)
    requires i <= |ps|
    ensures i == |ps| ==> sofar + Ballots(ps[i..], votes) == sofar
    ensures i < |ps| ==> var p, rest := ps[i], Ballots(ps[i + 1..], votes);
              sofar + Ballots(ps[i..], votes) ==
                if p.id !in votes then sofar + rest
                else sofar + [RevealedVote(p.name, p.kind, votes[p.id].value, votes[p.id].rationale)] + rest
  {
    if i < |ps| {
      assert ps[i..][1..] == ps[i + 1..];
    }
  }

  /** The channel has been sent the log since it was made, and knows only what is on record. */
  ghost predicate Served(ch: Channel, record: Record, log: seq<Event>)
    reads ch
  {
    ch.Idle(|log|) && Includes(record, ch.record) && ch.base <= |log| && log[ch.base..] == ch.feed.sent
  }

  method DeliverTo(ch: Channel, m: Message, ghost e: Event, ghost record: Record, ghost log: seq<Event>)
    requires Served(ch, record, log) && e.id == |log| + 1 && Revisions.CarriesRevision(e) && Carries(record, m, e)
    modifies ch
    ensures Served(ch, record, log + [e]) && ch.feed.sent == old(ch.feed.sent) + [e]
  {
    hide Includes, Carries, Channel.Idle;
    ch.Deliver(m, e, |log|, record);
    IncludesItself(record);
    assert (log + [e])[ch.base..] == log[ch.base..] + [e];
  }

  lemma StampedIsAnnounced(cfg: Config, r: RoomState, change: Change)
    ensures Stamped(StateEvent(0, change, Snapshot(cfg, r)), r.eventSeq + 1) == Announce(cfg, r, change)
  {
  }

  lemma IncludesItself(record: Record)
    ensures Includes(record, record)
  {
  }
}
