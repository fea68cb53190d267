/** Two runs of one room that differ only in what hidden ballots say. */
module Blindness {
  import opened Wire
  import opened RoomModel
  import opened RoomInvariants

  /** The rooms are the same but for the contents of ballots cast by `tainted`, who are still voting. */
  ghost predicate AgreeOutside(a: RoomState, b: RoomState, tainted: set<string>) {
    && b == a.(round := a.round.(votes := b.round.votes))
    && a.round.votes.Keys == b.round.votes.Keys
    && (forall id | id in a.round.votes && id !in tainted :: a.round.votes[id] == b.round.votes[id])
    && (a.round.phase.Revealed? ==> a == b)
  }

  /** Only the open round's ballots differ. */
  ghost predicate SameButBallots(a: RoomState, b: RoomState) {
    AgreeOutside(a, b, a.round.votes.Keys)
  }

  /** The same call, or two ballots by one caller that are both fit to be cast. */
  predicate Twins(cfg: Config, x: Call, y: Call) {
    x == y || (&& x.op.CastVote? && y.op.CastVote? && x.now == y.now && x.op.token == y.op.token
               && x.op.value in cfg.deck && y.op.value in cfg.deck
               && |x.op.rationale| <= MAX_RATIONALE_LEN && |y.op.rationale| <= MAX_RATIONALE_LEN)
  }

  ghost function Caller(r: RoomState, call: Call): Option<string> {
    if call.op.Join? || call.op.GetState? || call.op.Close? then None
    else
      var p := Authenticate(r.participants, call.op.token);
      if p.Some? then Some(p.value.id) else None
  }

  /** The caller's ballot is replaced or withdrawn. */
  ghost predicate Supersedes(cfg: Config, r: RoomState, call: Call, id: string) {
    (call.op.CastVote? || call.op.Leave?) && Accepted(cfg, r, call) && Caller(r, call) == Some(id)
  }

  /** Whose ballots may differ after the call, if it reveals nothing. */
  ghost function Taint(cfg: Config, r: RoomState, tainted: set<string>, x: Call, y: Call): set<string> {
    var touched := set id | id in tainted && !Supersedes(cfg, r, x, id);
    if x == y then touched
    else
      var caller := Caller(r, x);
      if caller.Some? && Accepted(cfg, r, x) then touched + {caller.value} else touched
  }

  /** A state that gives nothing away. */
  function Masked(st: State): State {
    match st.results
    case None => st
    case Some(results) => st.(results := Some(Results(MaskedVotes(results.votes), Stats(None, false, map[], None))))
  }

  function MaskedVotes(votes: seq<RevealedVote>): seq<RevealedVote> {
    if votes == [] then [] else [votes[0].(value := "", rationale := "")] + MaskedVotes(votes[1..])
  }

  function MaskedEvents(events: seq<Event>): seq<Event> {
    if events == [] then []
    else [if events[0].StateEvent? then events[0].(state := Masked(events[0].state)) else events[0]]
         + MaskedEvents(events[1..])
  }

  function MaskedReply(reply: Reply): Reply {
    match reply
    case Voted(kind, Some(st)) => Voted(kind, Some(Masked(st)))
    case Now(st) => Now(Masked(st))
    case Gone(Some(st)) => Gone(Some(Masked(st)))
    case _ => reply
  }

  /** What anyone outside learns from the call. */
  ghost predicate SameObservations(a: Outcome, b: Outcome) {
    a.reply == b.reply && a.events == b.events
  }

  /** The same, up to the values, rationales and statistics of the round being revealed. */
  ghost predicate SameButResults(a: Outcome, b: Outcome) {
    MaskedReply(a.reply) == MaskedReply(b.reply) && MaskedEvents(a.events) == MaskedEvents(b.events)
  }

  // ---------- one step ----------

  lemma {:induction false} SameListing(ps: seq<Participant>, a: map<string, Vote>, b: map<string, Vote>)
    requires a.Keys == b.Keys
    ensures Listed(ps, a) == Listed(ps, b)
    ensures MaskedVotes(Ballots(ps, a)) == MaskedVotes(Ballots(ps, b))
  {
    if ps != [] {
      SameListing(ps[1..], a, b);
      assert ps[0].id in a <==> ps[0].id in b;
      if ps[0].id in a {
        var x, y := Ballots(ps, a), Ballots(ps, b);
        assert x[1..] == Ballots(ps[1..], a) && y[1..] == Ballots(ps[1..], b);
      } else {
        assert Ballots(ps, a) == Ballots(ps[1..], a) && Ballots(ps, b) == Ballots(ps[1..], b);
      }
    }
  }

  lemma SameSnapshots(cfg: Config, a: RoomState, b: RoomState, tainted: set<string>)
    requires AgreeOutside(a, b, tainted)
    ensures Snapshot(cfg, a) == Snapshot(cfg, b)
    ensures MustReveal(cfg, a) <==> MustReveal(cfg, b)
  {
    SameListing(a.participants, a.round.votes, b.round.votes);
    assert |a.round.votes| == |a.round.votes.Keys| == |b.round.votes|;
  }

  lemma SameReveal(cfg: Config, a: RoomState, b: RoomState, tainted: set<string>)
    requires AgreeOutside(a, b, tainted) && a.round.phase.Voting?
    ensures Masked(Snapshot(cfg, RevealedRoom(cfg, a))) == Masked(Snapshot(cfg, RevealedRoom(cfg, b)))
    ensures tainted == {} ==> RevealedRoom(cfg, a) == RevealedRoom(cfg, b)
  {
    SameListing(a.participants, a.round.votes, b.round.votes);
    assert |a.round.votes| == |a.round.votes.Keys| == |b.round.votes|;
    if tainted == {} {
      assert a.round.votes == b.round.votes;
    }
  }

  lemma SameRevealAnnouncement(cfg: Config, a: RoomState, b: RoomState, tainted: set<string>)
    requires AgreeOutside(a, b, tainted) && a.round.phase.Voting?
    ensures var x, y := Bump(RevealedRoom(cfg, a)), Bump(RevealedRoom(cfg, b));
            Masked(Snapshot(cfg, x)) == Masked(Snapshot(cfg, y))
    ensures MaskedEvents([Announce(cfg, RevealedRoom(cfg, a), RoundRevealed)])
         == MaskedEvents([Announce(cfg, RevealedRoom(cfg, b), RoundRevealed)])
    ensures tainted == {} ==> RevealedRoom(cfg, a) == RevealedRoom(cfg, b)
    ensures RevealedRoom(cfg, a).round.phase.Revealed? && RevealedRoom(cfg, b).round.phase.Revealed?
  {
    SameReveal(cfg, a, b, tainted);
    SameReveal(cfg, Bump(a), Bump(b), tainted);
    assert Bump(RevealedRoom(cfg, a)) == RevealedRoom(cfg, Bump(a));
    assert Bump(RevealedRoom(cfg, b)) == RevealedRoom(cfg, Bump(b));
  }

  ghost predicate SameFlow(cfg: Config, x: Flow, y: Flow, tainted: set<string>) {
    && x.room.round.phase == y.room.round.phase
    && (x.room.round.phase.Voting? || tainted == {} ==> x.events == y.events && x.revealed == y.revealed
                                                        && AgreeOutside(x.room, y.room, tainted))
    && MaskedEvents(x.events) == MaskedEvents(y.events)
    && (x.revealed.Some? <==> y.revealed.Some?)
    && (x.revealed.Some? ==> Masked(x.revealed.value) == Masked(y.revealed.value))
  }

  lemma MaskTwo(x: Event, y: Event)
    ensures MaskedEvents([x, y]) == MaskedEvents([x]) + MaskedEvents([y])
  {
    assert [x, y][1..] == [y];
  }

  lemma FlowsAgree(cfg: Config, a: RoomState, b: RoomState, tainted: set<string>, change: Change)
    requires AgreeOutside(a, b, tainted) && a.round.phase.Voting?
    ensures SameFlow(cfg, AfterBallotChange(cfg, a, change), AfterBallotChange(cfg, b, change), tainted)
  {
    hide Snapshot, RevealedRoom, MustReveal;
    var a1, b1 := Bump(a), Bump(b);
    SameSnapshots(cfg, a1, b1, tainted);
    if MustReveal(cfg, a1) {
      SameRevealAnnouncement(cfg, a1, b1, tainted);
      MaskTwo(Announce(cfg, a, change), Announce(cfg, RevealedRoom(cfg, a1), RoundRevealed));
      MaskTwo(Announce(cfg, b, change), Announce(cfg, RevealedRoom(cfg, b1), RoundRevealed));
    }
  }

  ghost predicate SameStep(cfg: Config, a: RoomState, b: RoomState, x: Call, y: Call, tainted: set<string>) {
    var p, q, t := Step(cfg, a, x), Step(cfg, b, y), Taint(cfg, a, tainted, x, y);
    && p.room.round.phase == q.room.round.phase
    && (!Reveals(cfg, a, x) || t == {} ==> SameObservations(p, q) && AgreeOutside(p.room, q.room, t))
    && SameButResults(p, q)
  }

  lemma CastVoteAgrees(cfg: Config, a: RoomState, b: RoomState, x: Call, y: Call, tainted: set<string>)
    requires AgreeOutside(a, b, tainted) && Twins(cfg, x, y) && x.op.CastVote?
    ensures SameStep(cfg, a, b, x, y, tainted)
  {
    hide AfterBallotChange, Snapshot, RevealedRoom, MaskedEvents, Masked, Authenticate;
    var r, s := a.(lastActive := x.now), b.(lastActive := x.now);
    var p := Authenticate(r.participants, x.op.token);
    if Accepted(cfg, a, x) {
      var id, t := p.value.id, Taint(cfg, a, tainted, x, y);
      var r1 := WithVote(r, id, Vote(x.op.value, x.op.rationale));
      var s1 := WithVote(s, id, Vote(y.op.value, y.op.rationale));
      assert Caller(a, x) == Some(id);
      assert AgreeOutside(r1, s1, t);
      FlowsAgree(cfg, r1, s1, t, VoteCast);
    }
  }

  lemma LeaveAgrees(cfg: Config, a: RoomState, b: RoomState, x: Call, tainted: set<string>)
    requires AgreeOutside(a, b, tainted) && x.op.Leave?
    ensures SameStep(cfg, a, b, x, x, tainted)
  {
    hide AfterBallotChange, Snapshot, RevealedRoom, MaskedEvents, Masked, Authenticate;
    var r, s := a.(lastActive := x.now), b.(lastActive := x.now);
    var p := Authenticate(r.participants, x.op.token);
    if Accepted(cfg, a, x) && r.round.phase.Voting? {
      var id, t := p.value.id, Taint(cfg, a, tainted, x, x);
      var r1, s1 := WithoutVoter(r, id), WithoutVoter(s, id);
      assert Caller(a, x) == Some(id);
      assert AgreeOutside(r1, s1, t);
      FlowsAgree(cfg, r1, s1, t, Departed);
    }
  }

  lemma RevealAgrees(cfg: Config, a: RoomState, b: RoomState, x: Call, tainted: set<string>)
    requires AgreeOutside(a, b, tainted) && x.op.Reveal?
    ensures SameStep(cfg, a, b, x, x, tainted)
  {
    hide AfterBallotChange, Snapshot, RevealedRoom, Authenticate;
    var r, s := a.(lastActive := x.now), b.(lastActive := x.now);
    if Accepted(cfg, a, x) {
      var t := Taint(cfg, a, tainted, x, x);
      assert t == tainted;
      SameRevealAnnouncement(cfg, r, s, tainted);
    }
  }

  lemma JoinAgrees(cfg: Config, a: RoomState, b: RoomState, x: Call, tainted: set<string>)
    requires AgreeOutside(a, b, tainted) && x.op.Join?
    ensures SameStep(cfg, a, b, x, x, tainted)
  {
    hide AfterBallotChange, RevealedRoom, Authenticate, Listed;
    var r, s := a.(lastActive := x.now), b.(lastActive := x.now);
    assert Taint(cfg, a, tainted, x, x) == tainted;
    if Accepted(cfg, a, x) {
      var p := Participant(x.op.id, x.op.name, x.op.kind, x.op.token, r.joins + 1, None);
      var r1 := r.(participants := r.participants + [p], joins := r.joins + 1);
      var s1 := s.(participants := s.participants + [p], joins := s.joins + 1);
      assert AgreeOutside(Bump(r1), Bump(s1), tainted);
      SameSnapshots(cfg, Bump(r1), Bump(s1), tainted);
    }
  }

  lemma OtherCallsAgree(cfg: Config, a: RoomState, b: RoomState, x: Call, tainted: set<string>)
    requires AgreeOutside(a, b, tainted) && (x.op.React? || x.op.GetState? || x.op.Close?)
    ensures SameStep(cfg, a, b, x, x, tainted)
  {
    hide AfterBallotChange, RevealedRoom, Authenticate, Listed;
    var r, s := a.(lastActive := x.now), b.(lastActive := x.now);
    SameSnapshots(cfg, r, s, tainted);
    assert Taint(cfg, a, tainted, x, x) == tainted;
  }

  lemma RevealedCallsAgree(cfg: Config, a: RoomState, b: RoomState, x: Call, tainted: set<string>)
    requires AgreeOutside(a, b, tainted) && (x.op.StartRound? || x.op.Settle?)
    ensures SameStep(cfg, a, b, x, x, tainted)
  {
    hide AfterBallotChange, RevealedRoom, Authenticate, Listed;
    assert Taint(cfg, a, tainted, x, x) == tainted;
  }

  /** One call in two rooms that differ only in tainted ballots: both reveal or neither does; if neither
      does, or no differing ballot is left when they do, nobody can tell the rooms apart. */
  lemma StepAgrees(cfg: Config, a: RoomState, b: RoomState, x: Call, y: Call, tainted: set<string>)
    requires AgreeOutside(a, b, tainted) && Twins(cfg, x, y)
    ensures SameStep(cfg, a, b, x, y, tainted)
  {
    match x.op {
      case CastVote(_, _, _) => CastVoteAgrees(cfg, a, b, x, y, tainted);
      case Leave(_) => LeaveAgrees(cfg, a, b, x, tainted);
      case Reveal(_) => RevealAgrees(cfg, a, b, x, tainted);
      case Join(_, _, _, _) => JoinAgrees(cfg, a, b, x, tainted);
      case StartRound(_, _, _) => RevealedCallsAgree(cfg, a, b, x, tainted);
      case Settle(_, _) => RevealedCallsAgree(cfg, a, b, x, tainted);
      case _ => OtherCallsAgree(cfg, a, b, x, tainted);
    }
  }
}
