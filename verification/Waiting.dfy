/** How many voters a round is waiting for: the page subtracts the votes cast, the text rendering counts
    the missing ticks. */
module Waiting {
  import opened Wire
  import opened RoomModel
  import opened RoomInvariants
  import RoundLog

  datatype Status =
    | NobodyHere
    | RoundOver
    | Submitting
    | NoVotersYet
    | AllVotesIn
    | WaitingOn(waiting: int, voters: nat)

  function VotersIn(parts: seq<ParticipantState>): nat {
    if parts == [] then 0
    else VotersIn(parts[..|parts| - 1]) + if parts[|parts| - 1].kind.Observer? then 0 else 1
  }

  function MissingIn(parts: seq<ParticipantState>): nat {
    if parts == [] then 0
    else
      var p := parts[|parts| - 1];
      MissingIn(parts[..|parts| - 1]) + if !p.kind.Observer? && !p.hasVoted then 1 else 0
  }

  function StatusOf(phase: Phase, voters: nat, waiting: int): Status {
    if phase.Revealed? then RoundOver
    else if voters == 0 then NoVotersYet
    else if waiting == 0 then AllVotesIn
    else WaitingOn(waiting, voters)
  }

  method TextStatus(st: State) returns (status: Status)
    ensures status == if st.round.participants == [] then NobodyHere
                      else StatusOf(st.round.phase, VotersIn(st.round.participants), MissingIn(st.round.participants))
  {
    var parts := st.round.participants;
    if |parts| == 0 {
      return NobodyHere;
    }
    var voters, waiting := 0, 0;
    for i := 0 to |parts|
      invariant voters == VotersIn(parts[..i]) && waiting == MissingIn(parts[..i])
    {
      assert parts[..i + 1][..i] == parts[..i];
      if parts[i].kind.Observer? {
      } else if parts[i].hasVoted {
      } else {
        waiting := waiting + 1;
      }
      if !parts[i].kind.Observer? {
        voters := voters + 1;
      }
    }
    assert parts[..|parts|] == parts;
    if st.round.phase.Voting? {
      if voters == 0 {
        status := NoVotersYet;
      } else if waiting == 0 {
        status := AllVotesIn;
      } else {
        status := WaitingOn(waiting, voters);
      }
    } else {
      status := RoundOver;
    }
  }

  method PageStatus(st: State, votePending: bool) returns (status: Status)
    ensures status == if st.round.phase.Voting? && votePending then Submitting
                      else StatusOf(st.round.phase, VotersIn(st.round.participants),
                                    VotersIn(st.round.participants) - st.round.votesCast)
  {
    var parts := st.round.participants;
    var voters := 0;
    for i := 0 to |parts|
      invariant voters == VotersIn(parts[..i])
    {
      assert parts[..i + 1][..i] == parts[..i];
      if !parts[i].kind.Observer? {
        voters := voters + 1;
      }
    }
    assert parts[..|parts|] == parts;
    if !st.round.phase.Voting? {
      status := RoundOver;
    } else if voters == 0 {
      status := NoVotersYet;
    } else {
      var waiting := voters - st.round.votesCast;
      status := if waiting == 0 then AllVotesIn else WaitingOn(waiting, voters);
    }
    if st.round.phase.Voting? && votePending {
      status := Submitting;
    }
  }

  lemma {:induction false} CountsCons(p: ParticipantState, parts: seq<ParticipantState>)
    ensures VotersIn([p] + parts) == VotersIn(parts) + if p.kind.Observer? then 0 else 1
    ensures MissingIn([p] + parts) == MissingIn(parts) + if !p.kind.Observer? && !p.hasVoted then 1 else 0
  {
    if parts == [] {
      assert ([p] + parts)[..0] == [];
    } else {
      CountsCons(p, parts[..|parts| - 1]);
      assert ([p] + parts)[..|parts|] == [p] + parts[..|parts| - 1];
    }
  }

  lemma {:induction false} VotersLessMissing(ps: seq<Participant>, votes: map<string, Vote>)
    requires forall p | p in ps && p.id in votes :: Voter(p)
    ensures VotersIn(Listed(ps, votes)) - |Ballots(ps, votes)| == MissingIn(Listed(ps, votes))
  {
    if ps != [] {
      assert ps == [ps[0]] + ps[1..];
      VotersLessMissing(ps[1..], votes);
      CountsCons(Listed(ps, votes)[0], Listed(ps[1..], votes));
    }
  }

  lemma OnlyVotersVote(ps: seq<Participant>, joins: nat, votes: map<string, Vote>)
    requires Orderly(ps, joins)
    requires forall id | id in votes :: Eligible(ps, id)
    ensures forall p | p in ps && p.id in votes :: Voter(p)
    ensures forall id | id in votes :: exists p :: p in ps && p.id == id
  {
    forall p | p in ps && p.id in votes ensures Voter(p) {
      assert Eligible(ps, p.id);
      var q :| q in ps && q.id == p.id && Voter(q);
      var i, j :| 0 <= i < |ps| && 0 <= j < |ps| && ps[i] == p && ps[j] == q;
      if i < j {
        OrderlyPairs(ps, joins, i, j);
      } else if j < i {
        OrderlyPairs(ps, joins, j, i);
      }
    }
    forall id | id in votes ensures exists p :: p in ps && p.id == id {
      assert Eligible(ps, id);
    }
  }

  lemma {:induction false} NoneMissing(ps: seq<Participant>, votes: map<string, Vote>)
    ensures MissingIn(Listed(ps, votes)) == 0 <==> forall p | p in ps && Voter(p) :: p.id in votes
  {
    if ps != [] {
      assert ps == [ps[0]] + ps[1..];
      NoneMissing(ps[1..], votes);
      CountsCons(Listed(ps, votes)[0], Listed(ps[1..], votes));
      assert (forall p | p in ps && Voter(p) :: p.id in votes) <==>
        (Voter(ps[0]) ==> ps[0].id in votes) && forall p | p in ps[1..] && Voter(p) :: p.id in votes;
    }
  }

  lemma {:induction false} SomeVoter(ps: seq<Participant>, votes: map<string, Vote>)
    ensures VotersIn(Listed(ps, votes)) > 0 ==> exists p :: p in ps && Voter(p)
  {
    if ps != [] {
      SomeVoter(ps[1..], votes);
      CountsCons(Listed(ps, votes)[0], Listed(ps[1..], votes));
      assert ps[0] in ps && forall p | p in ps[1..] :: p in ps;
    }
  }

  lemma TalliesOf(cfg: Config, s: RoomState)
    requires Inv(cfg, s) && s.round.phase.Voting?
    ensures var parts := Listed(s.participants, s.round.votes);
            && VotersIn(parts) - |s.round.votes| == MissingIn(parts)
            && (cfg.autoReveal && VotersIn(parts) > 0 ==> MissingIn(parts) > 0)
  {
    hide Listed, VotersIn, MissingIn, Ballots, Orderly;
    OnlyVotersVote(s.participants, s.joins, s.round.votes);
    VotersLessMissing(s.participants, s.round.votes);
    RoundLog.OneBallotEach(s.participants, s.joins, s.round.votes);
    NoneMissing(s.participants, s.round.votes);
    SomeVoter(s.participants, s.round.votes);
  }

  /** In every room any run leads to, the two tallies say the same, and an auto-reveal room with voters is
      always shown waiting for someone. */
  lemma TalliesAgree(cfg: Config, r: RoomState, calls: seq<Call>, n: nat)
    requires n <= |calls| && Inv(cfg, r) && Proper(cfg, r, calls)
    ensures var st := Snapshot(cfg, At(cfg, r, calls, n));
            var voters, missing := VotersIn(st.round.participants), MissingIn(st.round.participants);
            && StatusOf(st.round.phase, voters, missing)
               == StatusOf(st.round.phase, voters, voters - st.round.votesCast)
            && (st.round.phase.Voting? ==> voters - st.round.votesCast == missing)
            && (st.round.phase.Voting? && cfg.autoReveal && voters > 0 ==> missing > 0)
  {
    hide Step, Proper, Inv, VotersIn, MissingIn, Listed, At;
    RunInv(cfg, r, calls, n);
    var s := At(cfg, r, calls, n);
    if s.round.phase.Voting? {
      TalliesOf(cfg, s);
    }
  }

  // ---------- what the tallies count ----------

  ghost function Voters(parts: seq<ParticipantState>): set<int> {
    set i | 0 <= i < |parts| && !parts[i].kind.Observer?
  }

  ghost function Missing(parts: seq<ParticipantState>): set<int> {
    set i | 0 <= i < |parts| && !parts[i].kind.Observer? && !parts[i].hasVoted
  }

  lemma {:induction false} VotersAreCounted(parts: seq<ParticipantState>)
    ensures VotersIn(parts) == |Voters(parts)|
  {
    if parts != [] {
      var k := |parts| - 1;
      VotersAreCounted(parts[..k]);
      assert Voters(parts) == Voters(parts[..k]) + if parts[k].kind.Observer? then {} else {k};
    }
  }

  lemma {:induction false} MissingAreCounted(parts: seq<ParticipantState>)
    ensures MissingIn(parts) == |Missing(parts)|
  {
    if parts != [] {
      var k := |parts| - 1;
      MissingAreCounted(parts[..k]);
      assert Missing(parts) == Missing(parts[..k]) + if !parts[k].kind.Observer? && !parts[k].hasVoted then {k} else {};
    }
  }

  /** What a status says of the room it is about. */
  ghost predicate Says(s: RoomState, status: Status) {
    && (status.RoundOver? <==> s.round.phase.Revealed?)
    && (status.NoVotersYet? <==> s.round.phase.Voting? && forall p | p in s.participants :: !Voter(p))
    && (status.AllVotesIn? <==> s.round.phase.Voting? && AllVoted(s.participants, s.round.votes))
    && (status.WaitingOn? ==>
          && status.voters == |Voters(Listed(s.participants, s.round.votes))|
          && status.waiting == |Missing(Listed(s.participants, s.round.votes))|)
    && !status.NobodyHere? && !status.Submitting?
  }

  /** Both statuses say it of every room a run leads to: the round is over, nobody has come to vote, everybody who has
      voted, or how many of how many have not. */
  lemma StatusesAreTrue(cfg: Config, r: RoomState, calls: seq<Call>, n: nat)
    requires n <= |calls| && Inv(cfg, r) && Proper(cfg, r, calls)
    ensures var s := At(cfg, r, calls, n);
            var st := Snapshot(cfg, s);
            var voters, missing := VotersIn(st.round.participants), MissingIn(st.round.participants);
            && Says(s, StatusOf(st.round.phase, voters, missing))
            && Says(s, StatusOf(st.round.phase, voters, voters - st.round.votesCast))
  {
    hide Step, Proper, Inv, VotersIn, MissingIn, Listed, At;
    TalliesAgree(cfg, r, calls, n);
    var s := At(cfg, r, calls, n);
    var parts := Listed(s.participants, s.round.votes);
    VotersAreCounted(parts);
    MissingAreCounted(parts);
    NoneMissing(s.participants, s.round.votes);
    SomeVoter(s.participants, s.round.votes);
    NoVoter(s.participants, s.round.votes);
  }

  lemma NoVoter(ps: seq<Participant>, votes: map<string, Vote>)
    ensures |Voters(Listed(ps, votes))| == 0 ==> forall p | p in ps :: !Voter(p)
  {
    forall p | p in ps && Voter(p) ensures Voters(Listed(ps, votes)) != {} {
      var i :| 0 <= i < |ps| && ps[i] == p;
      assert i in Voters(Listed(ps, votes));
    }
  }
}
