/** What each call is for: when it is accepted, what it answers, what it changes and what it tells, from the room
    before it and its arguments. */
module Calls {
  import opened Wire
  import opened RoomModel
  import opened RoomInvariants
  import opened People
  import Awards
  import RoundStats

  ghost predicate Holder(r: RoomState, token: string, p: Participant) {
    token != "" && p in r.participants && p.token == token
  }

  /** What is wrong with a call, if anything: what is looked for first comes first. */
  ghost function Fault(cfg: Config, r: RoomState, call: Call): Option<Error> {
    match call.op
    case Join(name, _, _, _) =>
      if name == "" || |name| > 40 then Some(BadName)
      else if r.closed then Some(RoomNotFound)
      else if |r.participants| >= 100 then Some(RoomFull)
      else None
    case CastVote(token, value, rationale) =>
      if |rationale| > 500 then Some(BadRationale)
      else if Stranger(r, token).Some? then Stranger(r, token)
      else if exists p :: Holder(r, token, p) && p.kind.Observer? then Some(ObserverVote)
      else if r.round.phase.Revealed? then Some(WrongState)
      else if value !in cfg.deck then Some(NotInDeck)
      else None
    case Reveal(token) =>
      if Stranger(r, token).Some? then Stranger(r, token)
      else if r.round.phase.Revealed? then Some(WrongState)
      else None
    case StartRound(token, _, _) =>
      if Stranger(r, token).Some? then Stranger(r, token)
      else if r.round.phase.Voting? then Some(WrongState)
      else None
    case Leave(token) => Stranger(r, token)
    case React(token, _) =>
      if Stranger(r, token).Some? then Stranger(r, token)
      else if exists p :: Holder(r, token, p) && Reacted(p, call.now) then Some(TooFast)
      else None
    case Settle(token, value) =>
      if Stranger(r, token).Some? then Stranger(r, token)
      else if value !in cfg.deck then Some(NotInDeck)
      else if r.round.phase.Voting? then Some(WrongState)
      else None
    case GetState => None
    case Close => None
  }

  ghost function Stranger(r: RoomState, token: string): Option<Error> {
    if r.closed then Some(RoomNotFound)
    else if forall p :: !Holder(r, token, p) then Some(BadToken)
    else None
  }

  /** Less than a second ago. */
  predicate Reacted(p: Participant, now: int) {
    p.lastReaction.Some? && now - p.lastReaction.value < 1000
  }

  /** Nobody finds out that anything was asked; only the time of last use may have moved. */
  ghost predicate Refused(r: RoomState, o: Outcome, now: int) {
    && o.reply.Failed? && o.events == []
    && o.room == match o.reply.error
                 case BadName => r
                 case BadRationale => r
                 case RoomNotFound => r
                 case _ => r.(lastActive := now)
  }

  lemma Authenticated(r: RoomState, token: string)
    requires Orderly(r.participants, r.joins)
    ensures var p := Authenticate(r.participants, token);
            (p.Some? <==> exists q :: Holder(r, token, q)) && forall q | Holder(r, token, q) :: p == Some(q)
  {
    forall q | Holder(r, token, q) ensures Authenticate(r.participants, token) == Some(q) {
      OnlyOneHolds(r.participants, r.joins, token, q);
    }
    var p := Authenticate(r.participants, token);
    assert p.Some? ==> Holder(r, token, p.value);
  }

  /** A call is refused exactly when something is wrong with it, and for what comes first; a refusal changes and
      tells nothing. */
  lemma RefusedExactlyWhen(cfg: Config, r: RoomState, call: Call)
    requires Inv(cfg, r)
    ensures var o, fault := Step(cfg, r, call), Fault(cfg, r, call);
            && (o.reply.Failed? <==> fault.Some?)
            && (fault.Some? ==> o.reply == Failed(fault.value) && Refused(r, o, call.now))
  {
    hide Snapshot, AfterBallotChange, RevealedRoom, Awards.AwardsOf, Orderly, Authenticate, Stamp, Remember, Archive;
    if !call.op.Join? && !call.op.GetState? && !call.op.Close? {
      Authenticated(r, call.op.token);
      Authenticated(r.(lastActive := call.now), call.op.token);
    }
  }

  /** A vote is counted exactly when it is short enough, the room is open and voting, the value is in the deck, and
      someone with that token may vote. */
  lemma VoteCountsExactlyWhen(cfg: Config, r: RoomState, token: string, value: string, rationale: string, now: int)
    requires Inv(cfg, r)
    ensures Step(cfg, r, Call(CastVote(token, value, rationale), now)).reply.Voted? <==>
              && |rationale| <= 500 && !r.closed && r.round.phase.Voting? && value in cfg.deck
              && exists p :: Holder(r, token, p) && !p.kind.Observer?
  {
    hide Snapshot, AfterBallotChange, Awards.AwardsOf, Orderly, Authenticate, Step;
    var call := Call(CastVote(token, value, rationale), now);
    RefusedExactlyWhen(cfg, r, call);
    Authenticated(r, token);
    VotedOrFailed(cfg, r, call);
  }

  lemma VotedOrFailed(cfg: Config, r: RoomState, call: Call)
    requires call.op.CastVote?
    ensures Step(cfg, r, call).reply.Voted? || Step(cfg, r, call).reply.Failed?
  {
    hide Snapshot, AfterBallotChange, Authenticate;
  }

  // ---------- what an accepted call answers and tells ----------

  /** What is told of an accepted call, before a reveal it may lead to. */
  function Announced(op: Op): Option<Change> {
    match op
    case Join(_, _, _, _) => Some(Joined)
    case CastVote(_, _, _) => Some(VoteCast)
    case Reveal(_) => Some(RoundRevealed)
    case StartRound(_, _, _) => Some(RoundStarted)
    case Leave(_) => Some(Departed)
    case Settle(_, _) => Some(RoundSettled)
    case React(_, _) => None
    case GetState => None
    case Close => None
  }

  ghost predicate Shows(e: Event, change: Change, st: State) {
    e == StateEvent(st.revision, change, st)
  }

  ghost predicate Answers(cfg: Config, r: RoomState, call: Call, o: Outcome, p: Participant) {
    var op, shown := call.op, Snapshot(cfg, o.room);
    var revealed := if Reveals(cfg, r, call) then Some(shown) else None;
    match op
    case Join(_, _, id, token) => o.reply == Welcome(id, token)
    case CastVote(_, _, _) => o.reply == Voted(p.kind, revealed)
    case Leave(_) => o.reply == Gone(revealed)
    case React(_, _) => o.reply == Done
    case Close => o.reply == Done
    case _ => o.reply == Now(shown)
  }

  /** As `after`, but for the reveal. */
  ghost predicate JustBefore(before: State, after: State) {
    && before.revision + 1 == after.revision
    && before == after.(revision := before.revision, round := after.round.(phase := Voting), results := None)
  }

  /** A state event shows the room as it is then; only one that leads to a reveal shows it still voting. */
  ghost predicate Announces(cfg: Config, r: RoomState, call: Call, o: Outcome, p: Participant) {
    var op, shown := call.op, Snapshot(cfg, o.room);
    if op.GetState? || op.Close? then o.events == []
    else if op.React? then o.events == [ReactionEvent(r.eventSeq + 1, Reaction(p.name, p.kind, op.emoji))]
    else if Reveals(cfg, r, call) && !op.Reveal? then
      && |o.events| == 2 && Shows(o.events[1], RoundRevealed, shown)
      && o.events[0].StateEvent? && Shows(o.events[0], Announced(op).value, o.events[0].state)
      && JustBefore(o.events[0].state, shown)
    else |o.events| == 1 && Shows(o.events[0], Announced(op).value, shown)
  }

  /** An accepted call answers its caller with who they are, or with the state they brought about; `p` is the caller. */
  lemma AcceptedCallsAnswer(cfg: Config, r: RoomState, call: Call, p: Participant)
    requires Inv(cfg, r) && Fault(cfg, r, call).None?
    requires call.op.Join? || call.op.GetState? || call.op.Close? || Holder(r, call.op.token, p)
    ensures Answers(cfg, r, call, Step(cfg, r, call), p)
  {
    hide Inv, Fault, Orderly, Authenticate, Listed, Ballots, AllVoted, Stamp, Without, Remember, Awards.AwardsOf,
      RoundStats.StatsOf, Archive, NewRound, Snapshot;
    RefusedExactlyWhen(cfg, r, call);
    OrderlyRoom(cfg, r);
    if !call.op.Join? && !call.op.GetState? && !call.op.Close? {
      Authenticated(r, call.op.token);
    }
  }

  lemma Announcements(cfg: Config)
    ensures forall r, change :: var e := Announce(cfg, r, change);
                                Shows(e, change, Snapshot(cfg, Bump(r)))
    ensures forall r: RoomState | r.round.phase.Voting? ::
              JustBefore(Snapshot(cfg, r), Snapshot(cfg, Bump(RevealedRoom(cfg, r))))
  {
  }

  /** And tells the room what it did, and then of the reveal that led to, if it did. */
  lemma AcceptedCallsAreTold(cfg: Config, r: RoomState, call: Call, p: Participant)
    requires Inv(cfg, r) && Fault(cfg, r, call).None?
    requires call.op.Join? || call.op.GetState? || call.op.Close? || Holder(r, call.op.token, p)
    ensures Announces(cfg, r, call, Step(cfg, r, call), p)
  {
    hide Inv, Fault, Orderly, Authenticate, Listed, Ballots, AllVoted, Stamp, Without, Remember, Awards.AwardsOf,
      RoundStats.StatsOf, Archive, NewRound, Snapshot, Announce;
    Announcements(cfg);
    RefusedExactlyWhen(cfg, r, call);
    OrderlyRoom(cfg, r);
    if !call.op.Join? && !call.op.GetState? && !call.op.Close? {
      Authenticated(r, call.op.token);
    }
  }

  lemma OrderlyRoom(cfg: Config, r: RoomState)
    requires Inv(cfg, r)
    ensures Orderly(r.participants, r.joins)
  {
  }

  // ---------- joining ----------

  lemma {:induction false} ListedMore(ps: seq<Participant>, votes: map<string, Vote>, p: Participant)
    ensures Listed(ps + [p], votes) == Listed(ps, votes) + [ParticipantState(p.id, p.name, p.kind, p.id in votes)]
  {
    if ps == [] {
      assert (ps + [p])[1..] == [];
    } else {
      assert (ps + [p])[1..] == ps[1..] + [p];
      ListedMore(ps[1..], votes, p);
    }
  }

  lemma NoBallotYet(cfg: Config, r: RoomState, id: string)
    requires BallotInv(cfg, r) && r.round.phase.Voting? && forall q | q in r.participants :: q.id != id
    ensures id !in r.round.votes
  {
    assert id in r.round.votes ==> Eligible(r.participants, id);
  }

  /** Whoever joins is listed last, under the name and kind asked for, and without a vote while a round is open; the
      token that comes back is theirs alone. */
  lemma JoinAdmits(cfg: Config, r: RoomState, call: Call)
    requires Inv(cfg, r) && call.op.Join? && Mintable(r, call.op) && Fault(cfg, r, call).None?
    ensures var op, o := call.op, Step(cfg, r, call);
            var p := Participant(op.id, op.name, op.kind, op.token, r.joins + 1, None);
            && o.reply == Welcome(op.id, op.token)
            && o.room.participants == r.participants + [p]
            && (forall q :: Holder(o.room, op.token, q) <==> q == p)
            && (r.round.phase.Voting? ==>
                  Snapshot(cfg, o.room).round.participants
                  == Snapshot(cfg, r).round.participants + [ParticipantState(op.id, op.name, op.kind, false)])
  {
    hide Orderly, Snapshot, Authenticate, AllVoted, Listed;
    var op := call.op;
    var p := Participant(op.id, op.name, op.kind, op.token, r.joins + 1, None);
    if r.round.phase.Voting? {
      NoBallotYet(cfg, r, op.id);
      ShownLast(cfg, r, Step(cfg, r, call).room, p);
    }
  }

  lemma ShownLast(cfg: Config, r: RoomState, r1: RoomState, p: Participant)
    requires r1.participants == r.participants + [p] && r1.round == r.round && p.id !in r.round.votes
    ensures Snapshot(cfg, r1).round.participants
         == Snapshot(cfg, r).round.participants + [ParticipantState(p.id, p.name, p.kind, false)]
  {
    ListedMore(r.participants, r.round.votes, p);
  }

  // ---------- voting ----------

  /** Whoever has a ballot is shown with what it says, right after those who joined before and have one. */
  lemma {:induction false} BallotInTurn(ps: seq<Participant>, votes: map<string, Vote>, i: nat)
    requires i < |ps| && ps[i].id in votes
    ensures var shown, before, v := Ballots(ps, votes), |Ballots(ps[..i], votes)|, votes[ps[i].id];
            before < |shown| && shown[before] == RevealedVote(ps[i].name, ps[i].kind, v.value, v.rationale)
  {
    if i == 0 {
      assert ps[..0] == [];
    } else {
      BallotInTurn(ps[1..], votes, i - 1);
      assert ps[..i][1..] == ps[1..][..i - 1] && ps[..i][0] == ps[0];
    }
  }

  // ---------- settling ----------

  /** The rounds a page shows: the kept ones and, once revealed, the current one. */
  ghost function RoundsShown(r: RoomState): seq<RoundSummary> {
    if r.round.results.None? then r.history
    else
      var results := r.round.results.value;
      r.history + [RoundSummary(r.round.number, r.round.subject, results.votes, results.stats, "")]
  }

  /** What is settled is the value that was asked for, by whoever asked, at that time; and the awards are those of the
      kept rounds, oldest first, followed by the revealed one. */
  lemma SettlingRecords(cfg: Config, r: RoomState, call: Call, p: Participant)
    requires Inv(cfg, r) && call.op.Settle? && Fault(cfg, r, call).None? && Holder(r, call.op.token, p)
    ensures var o := Step(cfg, r, call);
            && o.reply.Now? && o.reply.state == Snapshot(cfg, o.room) && o.room.settled.Some?
            && o.room.round == r.round && o.room.history == r.history && o.room.participants == r.participants
            && var s := o.room.settled.value;
               && o.reply.state.settled == Some(s)
               && s.value == call.op.value && s.caller == p.name && s.settledAt == call.now
               && r.round.results.Some?
               && s.awards == Awards.AwardsOf(RoundsShown(r), Awards.Scale(cfg.deck, call.op.value, cfg.parse))
  {
    hide Fault, Orderly, Authenticate, Awards.AwardsOf, RoundStats.StatsOf;
    RefusedExactlyWhen(cfg, r, call);
    Authenticated(r, call.op.token);
  }

  /** The votes that came in first, of the rounds kept. */
  ghost function OldestVotes(r: RoomState): seq<RevealedVote>
    requires r.round.results.Some?
  {
    if r.history == [] then r.round.results.value.votes else r.history[0].votes
  }

  /** So accuracy goes by the oldest kept round, diplomacy by who moved from there to the revealed one, and bias by
      everything kept and revealed. */
  lemma SettlementIsJudgedByTheRoundsShown(cfg: Config, r: RoomState, call: Call, p: Participant)
    requires Inv(cfg, r) && call.op.Settle? && Fault(cfg, r, call).None? && Holder(r, call.op.token, p)
    ensures r.round.results.Some? && Step(cfg, r, call).room.settled.Some?
    ensures var awards := Step(cfg, r, call).room.settled.value.awards;
            var sc := Awards.Scale(cfg.deck, call.op.value, cfg.parse);
            var first, last := OldestVotes(r), r.round.results.value.votes;
            && ((exists a :: a in awards && a.id.Oracle?) <==> exists v :: v in first && sc.Competes(v))
            && (forall a | a in awards && a.id.Oracle? ::
                  a.names == Awards.NamesWhere(first, v => Awards.Closest(sc, first, v)))
            && (forall a | a in awards && a.id.SawSomething? ::
                  a.names == Awards.NamesWhere(first, v => Awards.Furthest(sc, first, v)))
            && ((exists a :: a in awards && a.id.Diplomat?) <==>
                  r.history != [] && exists v :: v in last && Awards.Moved(sc, first, v))
            && (forall a | a in awards && a.id.Diplomat? ::
                  a.names == Awards.NamesWhere(last, v => Awards.Moved(sc, first, v)))
    ensures var awards := Step(cfg, r, call).room.settled.value.awards;
            var sc := Awards.Scale(cfg.deck, call.op.value, cfg.parse);
            var net, votes := Awards.Nets(sc, RoundsShown(r)), Awards.AllVotes(r.history) + r.round.results.value.votes;
            && (forall name :: name in net <==> exists v :: v in votes && sc.Counted(v) && v.name == name)
            && (forall name | name in net :: net[name] == Awards.NetOf(sc, votes, name))
            && (forall a | a in awards && a.id.Optimist? :: Awards.Alphabetical(a.names, Awards.Lowest(net)))
            && (forall a | a in awards && a.id.Pessimist? :: Awards.Alphabetical(a.names, Awards.Highest(net)))
  {
    hide Step, Awards.AwardsOf, Awards.Nets, Awards.Closest, Awards.Furthest, Awards.Moved, Awards.NamesWhere,
      Awards.Alphabetical, Awards.NetOf, Inv;
    SettlingRecords(cfg, r, call, p);
    var sc, rounds := Awards.Scale(cfg.deck, call.op.value, cfg.parse), RoundsShown(r);
    assert rounds[..|rounds| - 1] == r.history;
    Awards.OracleNamesTheNearest(rounds, sc);
    Awards.SawSomethingNamesTheFurthest(rounds, sc);
    Awards.DiplomatNamesTheMovers(rounds, sc);
    Awards.NetsAddUp(sc, rounds);
    Awards.BiasAwardsAreTheExtremes(rounds, sc);
  }
}
