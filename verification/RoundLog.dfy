/** The history a room keeps, against the full record that its public events amount to. */
module RoundLog {
  import opened Wire
  import opened RoomModel
  import opened RoomInvariants
  import RoundStats

  /** Everything an observer can write down about the rounds, from the events alone. */
  datatype Ledger = Ledger(archived: seq<RoundSummary>, number: nat, subject: string, results: Option<Results>,
                           called: string)

  function FirstPage(subject: string): Ledger {
    Ledger([], 1, subject, None, "")
  }

  function Record(l: Ledger, e: Event): Ledger {
    if e.ReactionEvent? then l
    else match e.change
      case RoundRevealed => l.(results := e.state.results)
      case RoundSettled => l.(called := if e.state.settled.Some? then e.state.settled.value.value else "")
      case RoundStarted =>
        if l.results.None? then l
        else
          var page := RoundSummary(l.number, l.subject, l.results.value.votes, l.results.value.stats, l.called);
          Ledger(l.archived + [page], e.state.round.number, e.state.round.subject, None, "")
      case _ => l
  }

  function RecordAll(l: Ledger, events: seq<Event>): Ledger {
    if events == [] then l else Record(RecordAll(l, events[..|events| - 1]), events[|events| - 1])
  }

  /** Who is shown to have voted, in the order listed. */
  function VotersShown(parts: seq<ParticipantState>): seq<(string, Kind)> {
    if parts == [] then []
    else (if parts[0].hasVoted then [(parts[0].name, parts[0].kind)] else []) + VotersShown(parts[1..])
  }

  function VotersRevealed(votes: seq<RevealedVote>): seq<(string, Kind)> {
    if votes == [] then [] else [(votes[0].name, votes[0].kind)] + VotersRevealed(votes[1..])
  }

  /** An event may only come at its time: votes before the reveal, one reveal a round, with the ballots in
      join order, settlements after it, and the next round after it too. */
  ghost predicate InTurn(l: Ledger, e: Event) {
    e.StateEvent? ==>
      && (e.change.VoteCast? ==> l.results.None?)
      && (e.change.RoundRevealed? ==>
            && l.results.None? && e.state.results.Some?
            && VotersRevealed(e.state.results.value.votes) == VotersShown(e.state.round.participants))
      && (e.change.RoundSettled? ==> l.results.Some? && e.state.settled.Some? && e.state.results == l.results)
      && (e.change.RoundStarted? ==> l.results.Some? && e.state.round.number == l.number + 1)
  }

  ghost predicate AllInTurn(l: Ledger, events: seq<Event>) {
    forall i | 0 <= i < |events| :: InTurn(RecordAll(l, events[..i]), events[i])
  }

  ghost predicate Pages(archived: seq<RoundSummary>) {
    forall i | 0 <= i < |archived| :: archived[i].number == i + 1
  }

  /** The room agrees with the record, of which it keeps the last rounds. */
  ghost predicate Matches(cfg: Config, r: RoomState, l: Ledger) {
    && r.history == LastOf(l.archived, cfg.historyLen)
    && |l.archived| == r.round.number - 1 && Pages(l.archived)
    && l.number == r.round.number && l.subject == r.round.subject
    && l.results == r.round.results
    && l.called == (if r.settled.Some? then r.settled.value.value else "")
  }

  lemma {:induction false} RecordAllAppend(l: Ledger, a: seq<Event>, b: seq<Event>)
    ensures RecordAll(l, a + b) == RecordAll(RecordAll(l, a), b)
  {
    if b == [] {
      assert a + b == a;
    } else {
      assert (a + b)[..|a + b| - 1] == a + b[..|b| - 1];
      RecordAllAppend(l, a, b[..|b| - 1]);
    }
  }

  lemma AllInTurnAppend(l: Ledger, a: seq<Event>, b: seq<Event>)
    requires AllInTurn(l, a) && AllInTurn(RecordAll(l, a), b)
    ensures AllInTurn(l, a + b)
  {
    forall i | 0 <= i < |a + b| ensures InTurn(RecordAll(l, (a + b)[..i]), (a + b)[i]) {
      if i < |a| {
        assert (a + b)[..i] == a[..i];
      } else {
        assert (a + b)[..i] == a + b[..i - |a|];
        RecordAllAppend(l, a, b[..i - |a|]);
      }
    }
  }

  /** Dropping the oldest of too many, every time, keeps the last ones. */
  lemma RememberKeepsLast(archived: seq<RoundSummary>, page: RoundSummary, n: nat)
    ensures Remember(LastOf(archived, n), page, n) == LastOf(archived + [page], n)
  {
    var kept := LastOf(archived, n);
    if |archived| >= n {
      assert (kept + [page])[1..] == LastOf(archived + [page], n);
    }
  }

  lemma RecordOne(l: Ledger, e: Event)
    ensures RecordAll(l, [e]) == Record(l, e)
    ensures InTurn(l, e) ==> AllInTurn(l, [e])
  {
    assert [e][..0] == [];
  }

  lemma {:induction false} VotersInJoinOrder(ps: seq<Participant>, votes: map<string, Vote>)
    ensures VotersRevealed(Ballots(ps, votes)) == VotersShown(Listed(ps, votes))
  {
    if ps != [] {
      VotersInJoinOrder(ps[1..], votes);
      assert Listed(ps, votes)[1..] == Listed(ps[1..], votes);
      if ps[0].id in votes {
        assert Ballots(ps, votes)[1..] == Ballots(ps[1..], votes);
      } else {
        assert Ballots(ps, votes) == Ballots(ps[1..], votes);
        assert VotersShown(Listed(ps, votes)) == VotersShown(Listed(ps[1..], votes));
      }
    }
  }

  lemma RevealMatches(cfg: Config, r: RoomState, l: Ledger)
    requires Matches(cfg, r, l) && r.round.phase.Voting? && r.round.results.None?
    ensures var r1 := RevealedRoom(cfg, r); var e := Announce(cfg, r1, RoundRevealed);
            InTurn(l, e) && Matches(cfg, Bump(r1), Record(l, e))
  {
    hide RoundStats.StatsOf;
    VotersInJoinOrder(r.participants, r.round.votes);
  }

  lemma FlowMatches(cfg: Config, r: RoomState, change: Change, l: Ledger)
    requires Matches(cfg, r, l)
    requires change.VoteCast? || change.Departed?
    requires r.round.phase.Voting? <==> r.round.results.None?
    requires change.VoteCast? ==> r.round.phase.Voting?
    ensures var f := AfterBallotChange(cfg, r, change);
            AllInTurn(l, f.events) && Matches(cfg, f.room, RecordAll(l, f.events))
  {
    hide MustReveal, RevealedRoom, Snapshot, Ballots;
    var f, r1 := AfterBallotChange(cfg, r, change), Bump(r);
    RecordOne(l, f.events[0]);
    if |f.events| == 2 {
      RevealingIsVoting(cfg, r1);
      RevealMatches(cfg, r1, l);
      RecordOne(l, f.events[1]);
      assert f.events == [f.events[0]] + [f.events[1]];
      RecordAllAppend(l, [f.events[0]], [f.events[1]]);
      AllInTurnAppend(l, [f.events[0]], [f.events[1]]);
    }
  }

  lemma RevealingIsVoting(cfg: Config, r: RoomState)
    ensures MustReveal(cfg, r) ==> r.round.phase.Voting?
  {
  }

  lemma AcceptedMatches(cfg: Config, r: RoomState, call: Call, l: Ledger)
    requires RoundInv(cfg, r) && Matches(cfg, r, l)
    requires !call.op.Join? && !call.op.GetState? && !call.op.Close? && !Step(cfg, r, call).reply.Failed?
    ensures var o := Step(cfg, r, call);
            AllInTurn(l, o.events) && Matches(cfg, o.room, RecordAll(l, o.events))
  {
    hide AfterBallotChange, RoundStats.StatsOf, Ballots, Listed, Pages, LastOf, Remember;
    var r1, op, o := r.(lastActive := call.now), call.op, Step(cfg, r, call);
    var p := Authenticate(r1.participants, op.token).value;
    match op {
      case CastVote(_, value, rationale) =>
        FlowMatches(cfg, WithVote(r1, p.id, Vote(value, rationale)), VoteCast, l);
      case Leave(_) => FlowMatches(cfg, WithoutVoter(r1, p.id), Departed, l);
      case Reveal(_) =>
        RevealMatches(cfg, r1, l);
        RecordOne(l, o.events[0]);
      case React(_, _) => RecordOne(l, o.events[0]);
      case Settle(_, _) => RecordOne(l, o.events[0]);
      case StartRound(_, _, _) =>
        RememberKeepsLast(l.archived, Archive(r1), cfg.historyLen);
        RecordOne(l, o.events[0]);
        OneMorePage(l.archived, Archive(r1));
    }
  }

  lemma OneMorePage(archived: seq<RoundSummary>, page: RoundSummary)
    requires Pages(archived) && page.number == |archived| + 1
    ensures Pages(archived + [page])
  {
  }

  lemma StepMatches(cfg: Config, r: RoomState, call: Call, l: Ledger)
    requires RoundInv(cfg, r) && Matches(cfg, r, l)
    ensures var o := Step(cfg, r, call);
            AllInTurn(l, o.events) && Matches(cfg, o.room, RecordAll(l, o.events))
  {
    hide AfterBallotChange, RoundStats.StatsOf, Ballots, Listed, Pages, LastOf, Remember;
    var op, o := call.op, Step(cfg, r, call);
    if o.reply.Failed? || op.GetState? || op.Close? {
    } else if op.Join? {
      RecordOne(l, o.events[0]);
    } else {
      AcceptedMatches(cfg, r, call, l);
    }
  }

  /** In every run, votes precede and settlements follow the one reveal of their round; and the room's
      history is always the last rounds of the full record, each with its revealed results and the value it
      was last settled on, while its current results and settlement are the record's open page. */
  lemma {:induction false} HistoryIsTheRecord(cfg: Config, subject: string, context: string, now: int,
                                              calls: seq<Call>, n: nat)
    requires n <= |calls| && Proper(cfg, NewRoom(subject, context, now), calls)
    ensures var r := NewRoom(subject, context, now);
            var log := Log(cfg, r, calls, n);
            && AllInTurn(FirstPage(subject), log)
            && Matches(cfg, At(cfg, r, calls, n), RecordAll(FirstPage(subject), log))
  {
    hide Step, Matches, AllInTurn, Mintable, Inv;
    var r := NewRoom(subject, context, now);
    if n == 0 {
      Beginning(cfg, subject, context, now);
    } else {
      HistoryIsTheRecord(cfg, subject, context, now, calls, n - 1);
      NewRoomInv(cfg, subject, context, now);
      RunInv(cfg, r, calls, n - 1);
      InvGivesRoundInv(cfg, At(cfg, r, calls, n - 1));
      var before := Log(cfg, r, calls, n - 1);
      var l, o := RecordAll(FirstPage(subject), before), Did(cfg, r, calls, n - 1);
      StepMatches(cfg, At(cfg, r, calls, n - 1), calls[n - 1], l);
      RecordAllAppend(FirstPage(subject), before, o.events);
      AllInTurnAppend(FirstPage(subject), before, o.events);
    }
  }

  lemma Beginning(cfg: Config, subject: string, context: string, now: int)
    ensures AllInTurn(FirstPage(subject), [])
    ensures Matches(cfg, NewRoom(subject, context, now), RecordAll(FirstPage(subject), []))
  {
  }

  lemma InvGivesRoundInv(cfg: Config, r: RoomState)
    requires Inv(cfg, r)
    ensures RoundInv(cfg, r)
  {
  }

  /** The kept rounds are consecutive and end just before the current one, and there are
      min(number - 1, historyLen) of them. */
  lemma HistoryIsConsecutive(cfg: Config, subject: string, context: string, now: int, calls: seq<Call>, n: nat)
    requires n <= |calls| && Proper(cfg, NewRoom(subject, context, now), calls)
    ensures var s := At(cfg, NewRoom(subject, context, now), calls, n);
            && |s.history| == (if s.round.number - 1 < cfg.historyLen then s.round.number - 1 else cfg.historyLen)
            && forall i | 0 <= i < |s.history| :: s.history[i].number == s.round.number - |s.history| + i
  {
    hide Step, AllInTurn, Mintable, Log;
    HistoryIsTheRecord(cfg, subject, context, now, calls, n);
  }

  // ---------- whose ballot counts ----------

  /** The ballot `id` last cast in the round open after `n` calls and has not withdrawn, going by the calls. */
  ghost function LastBallot(cfg: Config, r: RoomState, calls: seq<Call>, n: nat, id: string): Option<Vote>
    requires n <= |calls|
  {
    if n == 0 then if id in r.round.votes then Some(r.round.votes[id]) else None
    else
      var before, call := At(cfg, r, calls, n - 1), calls[n - 1];
      if Did(cfg, r, calls, n - 1).reply.Failed? then LastBallot(cfg, r, calls, n - 1, id)
      else match call.op
        case StartRound(_, _, _) => None
        case CastVote(token, value, rationale) =>
          var p := Authenticate(before.participants, token);
          if p.Some? && p.value.id == id then Some(Vote(value, rationale)) else LastBallot(cfg, r, calls, n - 1, id)
        case Leave(token) =>
          var p := Authenticate(before.participants, token);
          if p.Some? && p.value.id == id && before.round.phase.Voting? then None
          else LastBallot(cfg, r, calls, n - 1, id)
        case _ => LastBallot(cfg, r, calls, n - 1, id)
  }

  lemma StepBallots(cfg: Config, r: RoomState, call: Call)
    ensures var o := Step(cfg, r, call);
            var p := if call.op.CastVote? || call.op.Leave? then Authenticate(r.participants, call.op.token) else None;
            o.room.round.votes ==
              if o.reply.Failed? then r.round.votes
              else if call.op.StartRound? then map[]
              else if call.op.CastVote? then r.round.votes[p.value.id := Vote(call.op.value, call.op.rationale)]
              else if call.op.Leave? && r.round.phase.Voting? then r.round.votes - {p.value.id}
              else r.round.votes
    ensures (call.op.CastVote? || call.op.Leave?) && !Step(cfg, r, call).reply.Failed? ==>
              Authenticate(r.participants, call.op.token).Some?
  {
    hide AllVoted, RoundStats.StatsOf, Ballots, Listed, Snapshot;
  }

  /** The last write wins: the ballots held are exactly those last cast and not withdrawn. */
  lemma {:induction false} LastWriteWins(cfg: Config, r: RoomState, calls: seq<Call>, n: nat, id: string)
    requires n <= |calls|
    ensures var votes := At(cfg, r, calls, n).round.votes;
            LastBallot(cfg, r, calls, n, id) == if id in votes then Some(votes[id]) else None
  {
    hide Step;
    if n > 0 {
      LastWriteWins(cfg, r, calls, n - 1, id);
      StepBallots(cfg, At(cfg, r, calls, n - 1), calls[n - 1]);
    }
  }

  lemma RevealedResults(cfg: Config, r: RoomState, call: Call)
    requires Reveals(cfg, r, call)
    ensures var r' := Step(cfg, r, call).room;
            var ballots := Ballots(r'.participants, r'.round.votes);
            r'.round.results == Some(Results(ballots, RoundStats.StatsOf(ballots, cfg.deck, cfg.parse)))
  {
    hide RoundStats.StatsOf, Snapshot, AllVoted, Ballots, Without;
  }

  /** And what a reveal shows is exactly the ballots held when it happens, one for each, in join order. */
  lemma RevealShowsTheBallotsHeld(cfg: Config, r: RoomState, call: Call)
    requires Inv(cfg, r) && Reveals(cfg, r, call)
    ensures var r' := Step(cfg, r, call).room;
            var ballots := Ballots(r'.participants, r'.round.votes);
            && r'.round.results == Some(Results(ballots, RoundStats.StatsOf(ballots, cfg.deck, cfg.parse)))
            && |ballots| == |r'.round.votes|
  {
    hide Step, Inv, Reveals, Ballots;
    var r' := Step(cfg, r, call).room;
    RevealedResults(cfg, r, call);
    BallotsOfTheRoom(cfg, r, call);
    OneBallotEach(r'.participants, r'.joins, r'.round.votes);
  }

  lemma RevealedPeople(cfg: Config, r: RoomState, call: Call)
    requires Reveals(cfg, r, call)
    ensures var r' := Step(cfg, r, call).room;
            && r'.joins == r.joins
            && r'.participants ==
                 if call.op.Leave? then Without(r.participants, Authenticate(r.participants, call.op.token).value.id)
                 else r.participants
    ensures call.op.Leave? || call.op.CastVote? || call.op.Reveal?
    ensures !Step(cfg, r, call).reply.Failed?
  {
    hide RoundStats.StatsOf, Snapshot, AllVoted, Ballots, Without;
  }

  lemma BallotsOfTheRoom(cfg: Config, r: RoomState, call: Call)
    requires Inv(cfg, r) && Reveals(cfg, r, call)
    ensures var r' := Step(cfg, r, call).room;
            && Orderly(r'.participants, r'.joins)
            && forall id | id in r'.round.votes :: exists p :: p in r'.participants && p.id == id
  {
    hide Step;
    RevealedPeople(cfg, r, call);
    StepBallots(cfg, r, call);
    if call.op.Leave? {
      var p := Authenticate(r.participants, call.op.token).value;
      OrderlyWithout(r.participants, r.joins, p.id);
      WithoutMembers(r.participants, p.id);
    }
    forall id | id in r.round.votes ensures exists p :: p in r.participants && p.id == id {
      assert Eligible(r.participants, id);
    }
  }

  lemma {:induction false} OneBallotEach(ps: seq<Participant>, joins: nat, votes: map<string, Vote>)
    requires Orderly(ps, joins)
    requires forall id | id in votes :: exists p :: p in ps && p.id == id
    ensures |Ballots(ps, votes)| == |votes|
  {
    if ps == [] {
      assert votes == map[];
    } else {
      var id, rest := ps[0].id, votes - {ps[0].id};
      assert ps == [ps[0]] + ps[1..];
      forall other | other in rest ensures exists p :: p in ps[1..] && p.id == other {
        var p :| p in ps && p.id == other;
      }
      OneBallotEach(ps[1..], joins, rest);
      SameBallots(ps[1..], votes, id);
      assert rest.Keys == votes.Keys - {id};
      assert |rest| == |rest.Keys| && |votes| == |votes.Keys|;
    }
  }

  lemma {:induction false} SameBallots(ps: seq<Participant>, votes: map<string, Vote>, id: string)
    requires forall p | p in ps :: p.id != id
    ensures Ballots(ps, votes) == Ballots(ps, votes - {id})
  {
    if ps != [] {
      assert ps[0] in ps;
      SameBallots(ps[1..], votes, id);
    }
  }
}
