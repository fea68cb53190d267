/** What every call keeps, and when exactly a round is revealed. */
module RoomInvariants {
  import opened Wire
  import opened RoomModel

  // ---------- participants ----------

  ghost predicate Precedes(p: Participant, q: Participant) {
    p.joinNo < q.joinNo && p.id != q.id && p.token != q.token
  }

  /** In join order, with distinct IDs and tokens. */
  ghost predicate Orderly(ps: seq<Participant>, joins: nat) {
    ps == [] || (&& ps[0].joinNo <= joins && ps[0].token != ""
                 && (forall q | q in ps[1..] :: Precedes(ps[0], q))
                 && Orderly(ps[1..], joins))
  }

  lemma {:induction false} OrderlyPairs(ps: seq<Participant>, joins: nat, i: nat, j: nat)
    requires Orderly(ps, joins) && i < j < |ps|
    ensures Precedes(ps[i], ps[j])
  {
    if i == 0 {
      assert ps[j] == ps[1..][j - 1];
    } else {
      OrderlyPairs(ps[1..], joins, i - 1, j - 1);
    }
  }

  lemma {:induction false} OrderlyAppend(ps: seq<Participant>, joins: nat, p: Participant)
    requires Orderly(ps, joins) && p.joinNo == joins + 1 && p.token != ""
    requires forall q | q in ps :: q.id != p.id && q.token != p.token
    ensures Orderly(ps + [p], joins + 1)
  {
    if ps != [] {
      assert ps[0] in ps;
      OrderlyAppend(ps[1..], joins, p);
      assert (ps + [p])[1..] == ps[1..] + [p];
    } else {
      assert (ps + [p])[1..] == [];
    }
  }

  lemma {:induction false} WithoutMembers(ps: seq<Participant>, id: string)
    ensures forall p :: p in Without(ps, id) <==> p in ps && p.id != id
    ensures |Without(ps, id)| <= |ps|
  {
    if ps != [] {
      WithoutMembers(ps[1..], id);
      assert ps == [ps[0]] + ps[1..];
    }
  }

  lemma {:induction false} OrderlyWithout(ps: seq<Participant>, joins: nat, id: string)
    requires Orderly(ps, joins)
    ensures Orderly(Without(ps, id), joins)
  {
    if ps != [] {
      OrderlyWithout(ps[1..], joins, id);
      WithoutMembers(ps[1..], id);
      var rest := Without(ps[1..], id);
      assert ps[0].id != id ==> Without(ps, id)[1..] == rest;
      assert ps[0].id == id ==> Without(ps, id) == rest;
    }
  }

  lemma {:induction false} StampKeeps(ps: seq<Participant>, joins: nat, id: string, now: int)
    requires Orderly(ps, joins)
    ensures Orderly(Stamp(ps, id, now), joins)
    ensures |Stamp(ps, id, now)| == |ps|
    ensures forall i | 0 <= i < |ps| ::
              Stamp(ps, id, now)[i] == if ps[i].id == id then ps[i].(lastReaction := Some(now)) else ps[i]
  {
    if ps != [] {
      StampKeeps(ps[1..], joins, id, now);
      var rest := Stamp(ps[1..], id, now);
      assert Stamp(ps, id, now)[1..] == rest;
      forall q | q in rest ensures Precedes(ps[0], q) {
        var i :| 0 <= i < |rest| && rest[i] == q;
        assert ps[1..][i] in ps[1..];
      }
    }
  }

  // ---------- the room ----------

  ghost predicate Eligible(ps: seq<Participant>, id: string) {
    exists p :: p in ps && p.id == id && Voter(p)
  }

  /** While voting, every ballot belongs to a present voter, and an auto-reveal room is still waiting
      for someone, unless it has no voter at all. */
  ghost predicate BallotInv(cfg: Config, r: RoomState) {
    r.round.phase.Voting? ==>
      && (forall id | id in r.round.votes :: Eligible(r.participants, id))
      && !MustReveal(cfg, r)
  }

  ghost predicate RoundInv(cfg: Config, r: RoomState) {
    && r.round.number >= 1
    && (r.round.phase.Revealed? <==> r.round.results.Some?)
    && (r.settled.Some? ==> r.round.phase.Revealed?)
    && (forall id | id in r.round.votes :: r.round.votes[id].value in cfg.deck)
  }

  ghost predicate Inv(cfg: Config, r: RoomState) {
    && Orderly(r.participants, r.joins)
    && |r.participants| <= MAX_PARTICIPANTS
    && BallotInv(cfg, r)
    && RoundInv(cfg, r)
  }

  lemma NewRoomInv(cfg: Config, subject: string, context: string, now: int)
    ensures Inv(cfg, NewRoom(subject, context, now))
  {
  }

  lemma FlowInv(cfg: Config, r: RoomState, change: Change)
    requires Orderly(r.participants, r.joins) && |r.participants| <= MAX_PARTICIPANTS && RoundInv(cfg, r)
    requires r.round.phase.Voting? ==> forall id | id in r.round.votes :: Eligible(r.participants, id)
    ensures Inv(cfg, AfterBallotChange(cfg, r, change).room)
  {
  }

  lemma JoinInv(cfg: Config, r: RoomState, op: Op)
    requires op.Join? && Inv(cfg, r) && Mintable(r, op)
    ensures Inv(cfg, DoJoin(cfg, r, op).room)
  {
    hide Orderly, BallotInv, Snapshot;
    var p := Participant(op.id, op.name, op.kind, op.token, r.joins + 1, None);
    OrderlyAppend(r.participants, r.joins, p);
    if |r.participants| < MAX_PARTICIPANTS {
      JoinBallots(cfg, r, p);
    }
  }

  /** Whoever joins has no ballot, so the round goes on waiting. */
  lemma JoinBallots(cfg: Config, r: RoomState, p: Participant)
    requires BallotInv(cfg, r) && forall q | q in r.participants :: q.id != p.id
    ensures BallotInv(cfg, Bump(r.(participants := r.participants + [p], joins := r.joins + 1)))
  {
    if r.round.phase.Voting? {
      var ps := r.participants + [p];
      assert p in ps && forall q | q in r.participants :: q in ps;
      forall id | id in r.round.votes ensures id != p.id && Eligible(ps, id) {
        assert Eligible(r.participants, id);
      }
      AllVotedById(r.participants, r.round.votes);
      AllVotedById(ps, r.round.votes);
      forall id | Eligible(r.participants, id) ensures Eligible(ps, id) {
      }
      assert Voter(p) ==> Eligible(ps, p.id);
    }
  }

  lemma LeaveInv(cfg: Config, r: RoomState, p: Participant)
    requires Inv(cfg, r) && p in r.participants
    ensures Inv(cfg, DoLeave(cfg, r, p).room)
  {
    OrderlyWithout(r.participants, r.joins, p.id);
    WithoutMembers(r.participants, p.id);
    FlowInv(cfg, WithoutVoter(r, p.id), Departed);
  }

  lemma {:induction false} StampEligible(ps: seq<Participant>, id: string, now: int, who: string)
    ensures Eligible(Stamp(ps, id, now), who) <==> Eligible(ps, who)
  {
    if ps != [] {
      var ps' := Stamp(ps, id, now);
      StampEligible(ps[1..], id, now, who);
      assert ps == [ps[0]] + ps[1..] && ps' == [ps'[0]] + ps'[1..];
      assert Eligible(ps, who) <==> (ps[0].id == who && Voter(ps[0])) || Eligible(ps[1..], who);
      assert Eligible(ps', who) <==> (ps'[0].id == who && Voter(ps'[0])) || Eligible(ps'[1..], who);
    }
  }

  lemma AllVotedById(ps: seq<Participant>, votes: map<string, Vote>)
    ensures AllVoted(ps, votes) <==>
              (exists id :: Eligible(ps, id)) && (forall id | Eligible(ps, id) :: id in votes)
  {
    if p :| p in ps && Voter(p) {
      assert Eligible(ps, p.id);
    }
    forall p | p in ps && Voter(p) ensures Eligible(ps, p.id) {
    }
  }

  lemma ReactInv(cfg: Config, r: RoomState, p: Participant, emoji: string, now: int)
    requires Inv(cfg, r)
    ensures Inv(cfg, DoReact(r, p, emoji, now).room)
  {
    var ps, ps' := r.participants, Stamp(r.participants, p.id, now);
    StampKeeps(ps, r.joins, p.id, now);
    forall id ensures Eligible(ps', id) <==> Eligible(ps, id) {
      StampEligible(ps, p.id, now, id);
    }
    AllVotedById(ps, r.round.votes);
    AllVotedById(ps', r.round.votes);
  }

  lemma CastVoteInv(cfg: Config, r: RoomState, p: Participant, op: Op)
    requires Inv(cfg, r) && p in r.participants && op.CastVote?
    ensures Inv(cfg, DoCastVote(cfg, r, p, op).room)
  {
    if Voter(p) && r.round.phase.Voting? && op.value in cfg.deck {
      FlowInv(cfg, WithVote(r, p.id, Vote(op.value, op.rationale)), VoteCast);
    }
  }

  /** Revealing, going on to the next round and settling leave the people alone. */
  lemma RoundCallsInv(cfg: Config, r: RoomState, p: Participant, op: Op, now: int)
    requires Inv(cfg, r)
    ensures Inv(cfg, DoReveal(cfg, r).room)
    ensures op.StartRound? ==> Inv(cfg, DoStartRound(cfg, r, op).room)
    ensures op.Settle? ==> Inv(cfg, DoSettle(cfg, r, p, op.value, now).room)
  {
  }

  lemma TouchedInv(cfg: Config, room: RoomState, now: int)
    requires Inv(cfg, room)
    ensures Inv(cfg, room.(lastActive := now)) && Inv(cfg, room.(closed := true))
  {
  }

  /** Every call keeps the invariant. */
  lemma StepInv(cfg: Config, room: RoomState, call: Call)
    requires Inv(cfg, room) && Mintable(room, call.op)
    ensures Inv(cfg, Step(cfg, room, call).room)
  {
    hide Inv, DoJoin, DoCastVote, DoReveal, DoStartRound, DoLeave, DoReact, DoSettle, Snapshot;
    var r, op := room.(lastActive := call.now), call.op;
    TouchedInv(cfg, room, call.now);
    if op.Join? {
      JoinInv(cfg, r, op);
    } else if !op.GetState? && !op.Close? {
      var p := Authenticate(r.participants, op.token);
      if p.Some? {
        match op {
          case CastVote(_, _, _) => CastVoteInv(cfg, r, p.value, op);
          case Leave(_) => LeaveInv(cfg, r, p.value);
          case React(_, emoji) => ReactInv(cfg, r, p.value, emoji, call.now);
          case Reveal(_) => RoundCallsInv(cfg, r, p.value, op, call.now);
          case StartRound(_, _, _) => RoundCallsInv(cfg, r, p.value, op, call.now);
          case Settle(_, _) => RoundCallsInv(cfg, r, p.value, op, call.now);
        }
      }
    }
  }

  /** Every room any proper run of calls can lead to satisfies the invariant. */
  lemma {:induction false} RunInv(cfg: Config, r: RoomState, calls: seq<Call>, n: nat)
    requires n <= |calls| && Inv(cfg, r) && Proper(cfg, r, calls)
    ensures Inv(cfg, At(cfg, r, calls, n))
  {
    hide Step, Inv, Mintable;
    if n > 0 {
      RunInv(cfg, r, calls, n - 1);
      StepInv(cfg, At(cfg, r, calls, n - 1), calls[n - 1]);
    }
  }

  // ---------- when a round is revealed ----------

  /** The call gets past every check and changes something. */
  ghost predicate Accepted(cfg: Config, r: RoomState, call: Call) {
    !Step(cfg, r, call).reply.Failed?
  }

  ghost predicate KnownToken(r: RoomState, token: string) {
    token != "" && exists p :: p in r.participants && p.token == token
  }

  /** The people and ballots a successful vote or departure leaves, before any reveal. */
  ghost function BallotAfter(r: RoomState, call: Call): (seq<Participant>, map<string, Vote>)
    requires call.op.CastVote? || call.op.Leave?
    requires KnownToken(r, call.op.token)
  {
    var p := Authenticate(r.participants, call.op.token).value;
    if call.op.Leave? then (Without(r.participants, p.id), r.round.votes - {p.id})
    else (r.participants, r.round.votes[p.id := Vote(call.op.value, call.op.rationale)])
  }

  /** A voting round is revealed by a known participant asking for it, or, in an auto-reveal room, by the
      vote or departure that leaves at least one present voter and every present voter's ballot in. Nothing
      else reveals it, and these always do. */
  lemma RevealedExactlyWhen(cfg: Config, r: RoomState, call: Call)
    requires Inv(cfg, r) && r.round.phase.Voting?
    ensures Reveals(cfg, r, call) <==>
              && !r.closed
              && ((call.op.Reveal? && KnownToken(r, call.op.token))
                  || (&& cfg.autoReveal && (call.op.CastVote? || call.op.Leave?)
                      && Accepted(cfg, r, call)
                      && KnownToken(r, call.op.token)
                      && var (ps, votes) := BallotAfter(r, call); AllVoted(ps, votes)))
  {
  }

  /** Between calls an auto-reveal room that is still voting has no voter, or one who has not voted. */
  lemma StillWaiting(cfg: Config, r: RoomState, calls: seq<Call>, n: nat)
    requires n <= |calls| && Inv(cfg, r) && Proper(cfg, r, calls)
    ensures var s := At(cfg, r, calls, n);
            cfg.autoReveal && s.round.phase.Voting? ==>
              (forall p | p in s.participants :: !Voter(p))
              || exists p :: p in s.participants && Voter(p) && p.id !in s.round.votes
  {
    RunInv(cfg, r, calls, n);
  }

  /** A revealed round stays as it was revealed until the next round starts. */
  lemma RevealIsFinal(cfg: Config, r: RoomState, call: Call)
    requires Inv(cfg, r) && r.round.phase.Revealed?
    ensures var r' := Step(cfg, r, call).room;
            || r'.round == r.round
            || (call.op.StartRound? && Accepted(cfg, r, call)
                && r'.round == NewRound(r.round.number + 1, call.op.subject, call.op.context))
  {
  }
}
