/** A room as a step function: what each call answers, what it publishes, and the room it leaves behind.
    Participants are listed in join order. */
module RoomModel {
  import opened Wire
  import RoundStats
  import Awards

  const MAX_PARTICIPANTS: nat := 100
  const MAX_NAME_LEN: nat := 40
  const MAX_RATIONALE_LEN: nat := 500
  const REACTION_COOLDOWN: int := 1000

  /** What never changes in a room. The program keeps 20 archived rounds. */
  datatype Config = Config(roomId: string, deck: seq<string>, autoReveal: bool, historyLen: nat,
                           parse: RoundStats.Parser)

  /** `lastReaction` is absent until the participant first reacts. */
  datatype Participant = Participant(id: string, name: string, kind: Kind, token: string, joinNo: nat,
                                     lastReaction: Option<int>)

  datatype Vote = Vote(value: string, rationale: string)

  datatype Round = Round(number: nat, subject: string, context: string, phase: Phase, votes: map<string, Vote>,
                         results: Option<Results>)

  datatype RoomState = RoomState(participants: seq<Participant>, joins: nat, round: Round,
                                 history: seq<RoundSummary>, settled: Option<Settlement>, eventSeq: nat,
                                 closed: bool, lastActive: int)

  datatype Op =
    | Join(name: string, kind: Kind, id: string, token: string)
    | CastVote(token: string, value: string, rationale: string)
    | Reveal(token: string)
    | StartRound(token: string, subject: string, context: string)
    | Leave(token: string)
    | React(token: string, emoji: string)
    | Settle(token: string, value: string)
    | GetState
    | Close

  datatype Call = Call(op: Op, now: int)

  datatype Error = RoomNotFound | BadToken | WrongState | RoomFull | ObserverVote | TooFast | BadName
                 | BadRationale | NotInDeck

  datatype ReplyOf<+S> =
    | Welcome(id: string, token: string)
    | Voted(kind: Kind, revealed: Option<S>)
    | Now(state: S)
    | Gone(revealed: Option<S>)
    | Done
    | Failed(error: Error)

  type Reply = ReplyOf<State>

  datatype Outcome = Outcome(room: RoomState, reply: Reply, events: seq<Event>)

  function NewRound(number: nat, subject: string, context: string): Round {
    Round(number, subject, context, Voting, map[], None)
  }

  function NewRoom(subject: string, context: string, now: int): RoomState {
    RoomState([], 0, NewRound(1, subject, context), [], None, 0, false, now)
  }

  // ---------- participants ----------

  function Authenticate(ps: seq<Participant>, token: string): (p: Option<Participant>)
    ensures p.Some? ==> p.value in ps && p.value.token == token != ""
    ensures p.None? ==> token == "" || forall q | q in ps :: q.token != token
  {
    if ps == [] || token == "" then None
    else if ps[0].token == token then Some(ps[0])
    else Authenticate(ps[1..], token)
  }

  function Without(ps: seq<Participant>, id: string): seq<Participant> {
    if ps == [] then []
    else (if ps[0].id == id then [] else [ps[0]]) + Without(ps[1..], id)
  }

  function Stamp(ps: seq<Participant>, id: string, now: int): seq<Participant> {
    if ps == [] then []
    else [if ps[0].id == id then ps[0].(lastReaction := Some(now)) else ps[0]] + Stamp(ps[1..], id, now)
  }

  predicate Voter(p: Participant) {
    !p.kind.Observer?
  }

  /** Every present non-observer has voted, and there is one. */
  predicate AllVoted(ps: seq<Participant>, votes: map<string, Vote>) {
    && (exists p :: p in ps && Voter(p))
    && (forall p | p in ps && Voter(p) :: p.id in votes)
  }

  /** The ballots in join order. */
  function Ballots(ps: seq<Participant>, votes: map<string, Vote>): seq<RevealedVote> {
    if ps == [] then []
    else
      var p := ps[0];
      (if p.id in votes then [RevealedVote(p.name, p.kind, votes[p.id].value, votes[p.id].rationale)] else [])
      + Ballots(ps[1..], votes)
  }

  function Listed(ps: seq<Participant>, votes: map<string, Vote>): (parts: seq<ParticipantState>)
    ensures |parts| == |ps|
    ensures forall i | 0 <= i < |ps| ::
              parts[i] == ParticipantState(ps[i].id, ps[i].name, ps[i].kind, ps[i].id in votes)
  {
    if ps == [] then []
    else [ParticipantState(ps[0].id, ps[0].name, ps[0].kind, ps[0].id in votes)] + Listed(ps[1..], votes)
  }

  // ---------- publishing ----------

  /** The redacted state: while voting there is nowhere for a value or rationale to be. */
  ghost function Snapshot(cfg: Config, r: RoomState): State {
    State(r.eventSeq, cfg.roomId, cfg.deck, cfg.autoReveal,
          RoundState(r.round.number, r.round.subject, r.round.context, r.round.phase, |r.round.votes|,
                     Listed(r.participants, r.round.votes)),
          if r.round.phase.Revealed? then r.round.results else None,
          r.history, r.settled)
  }

  ghost function Public(cfg: Config, r: RoomState): State {
    Content(Snapshot(cfg, r))
  }

  ghost function Bump(r: RoomState): RoomState {
    r.(eventSeq := r.eventSeq + 1)
  }

  ghost function Announce(cfg: Config, r: RoomState, change: Change): Event {
    StateEvent(r.eventSeq + 1, change, Snapshot(cfg, Bump(r)))
  }

  ghost function RevealedRoom(cfg: Config, r: RoomState): RoomState {
    var votes := Ballots(r.participants, r.round.votes);
    r.(round := r.round.(phase := Revealed,
                         results := Some(Results(votes, RoundStats.StatsOf(votes, cfg.deck, cfg.parse)))))
  }

  /** What a call that may complete the ballot leaves behind: the announced change, then possibly a reveal. */
  datatype Flow = Flow(room: RoomState, events: seq<Event>, revealed: Option<State>)

  ghost predicate MustReveal(cfg: Config, r: RoomState) {
    r.round.phase.Voting? && cfg.autoReveal && AllVoted(r.participants, r.round.votes)
  }

  ghost function AfterBallotChange(cfg: Config, r: RoomState, change: Change): Flow {
    var r1 := Bump(r);
    if MustReveal(cfg, r1) then
      var r2 := RevealedRoom(cfg, r1);
      Flow(Bump(r2), [Announce(cfg, r, change), Announce(cfg, r2, RoundRevealed)], Some(Snapshot(cfg, Bump(r2))))
    else Flow(r1, [Announce(cfg, r, change)], None)
  }

  ghost function Publish(cfg: Config, r: RoomState, change: Change): Outcome {
    Outcome(Bump(r), Now(Snapshot(cfg, Bump(r))), [Announce(cfg, r, change)])
  }

  // ---------- the calls ----------

  ghost function Fail(r: RoomState, e: Error): Outcome {
    Outcome(r, Failed(e), [])
  }

  ghost function DoJoin(cfg: Config, r: RoomState, op: Op): Outcome
    requires op.Join?
  {
    if |r.participants| >= MAX_PARTICIPANTS then Fail(r, RoomFull)
    else
      var p := Participant(op.id, op.name, op.kind, op.token, r.joins + 1, None);
      var r1 := r.(participants := r.participants + [p], joins := r.joins + 1);
      Outcome(Bump(r1), Welcome(op.id, op.token), [Announce(cfg, r1, Joined)])
  }

  ghost function WithVote(r: RoomState, id: string, v: Vote): RoomState {
    r.(round := r.round.(votes := r.round.votes[id := v]))
  }

  ghost function DoCastVote(cfg: Config, r: RoomState, p: Participant, op: Op): Outcome
    requires op.CastVote?
  {
    if p.kind.Observer? then Fail(r, ObserverVote)
    else if !r.round.phase.Voting? then Fail(r, WrongState)
    else if op.value !in cfg.deck then Fail(r, NotInDeck)
    else
      var flow := AfterBallotChange(cfg, WithVote(r, p.id, Vote(op.value, op.rationale)), VoteCast);
      Outcome(flow.room, Voted(p.kind, flow.revealed), flow.events)
  }

  ghost function DoReveal(cfg: Config, r: RoomState): Outcome {
    if !r.round.phase.Voting? then Fail(r, WrongState)
    else Publish(cfg, RevealedRoom(cfg, r), RoundRevealed)
  }

  ghost function Archive(r: RoomState): RoundSummary
    requires r.round.results.Some?
  {
    var results := r.round.results.value;
    RoundSummary(r.round.number, r.round.subject, results.votes, results.stats,
                 if r.settled.Some? then r.settled.value.value else "")
  }

  function LastOf<T>(xs: seq<T>, n: nat): seq<T> {
    if |xs| > n then xs[|xs| - n..] else xs
  }

  /** One more archived round; the oldest goes when there are too many. */
  function Remember(history: seq<RoundSummary>, summary: RoundSummary, historyLen: nat): seq<RoundSummary> {
    var longer := history + [summary];
    if |longer| > historyLen then longer[1..] else longer
  }

  ghost function DoStartRound(cfg: Config, r: RoomState, op: Op): Outcome
    requires op.StartRound?
  {
    if !r.round.phase.Revealed? || r.round.results.None? then Fail(r, WrongState)
    else
      Publish(cfg, r.(history := Remember(r.history, Archive(r), cfg.historyLen), settled := None,
                      round := NewRound(r.round.number + 1, op.subject, op.context)), RoundStarted)
  }

  ghost function WithoutVoter(r: RoomState, id: string): RoomState {
    r.(participants := Without(r.participants, id),
       round := if r.round.phase.Voting? then r.round.(votes := r.round.votes - {id}) else r.round)
  }

  ghost function DoLeave(cfg: Config, r: RoomState, p: Participant): Outcome {
    var flow := AfterBallotChange(cfg, WithoutVoter(r, p.id), Departed);
    Outcome(flow.room, Gone(flow.revealed), flow.events)
  }

  ghost function DoReact(r: RoomState, p: Participant, emoji: string, now: int): Outcome {
    if p.lastReaction.Some? && now - p.lastReaction.value < REACTION_COOLDOWN then Fail(r, TooFast)
    else
      Outcome(Bump(r.(participants := Stamp(r.participants, p.id, now))), Done,
              [ReactionEvent(r.eventSeq + 1, Reaction(p.name, p.kind, emoji))])
  }

  ghost function DoSettle(cfg: Config, r: RoomState, p: Participant, value: string, now: int): Outcome {
    if value !in cfg.deck then Fail(r, NotInDeck)
    else if !r.round.phase.Revealed? || r.round.results.None? then Fail(r, WrongState)
    else
      var rounds := r.history + [Archive(r).(called := "")];
      var awards := Awards.AwardsOf(rounds, Awards.Scale(cfg.deck, value, cfg.parse));
      Publish(cfg, r.(settled := Some(Settlement(value, p.name, now, awards))), RoundSettled)
  }

  ghost function Step(cfg: Config, room: RoomState, call: Call): Outcome {
    var op, now := call.op, call.now;
    var r := room.(lastActive := now);
    if op.GetState? then Outcome(r, Now(Snapshot(cfg, r)), [])
    else if op.Close? then Outcome(room.(closed := true), Done, [])
    else if op.Join? then
      if !(1 <= |op.name| <= MAX_NAME_LEN) then Fail(room, BadName)
      else if room.closed then Fail(room, RoomNotFound)
      else DoJoin(cfg, r, op)
    else if op.CastVote? && |op.rationale| > MAX_RATIONALE_LEN then Fail(room, BadRationale)
    else if room.closed then Fail(room, RoomNotFound)
    else
      var p := Authenticate(r.participants, op.token);
      if p.None? then Fail(r, BadToken)
      else match op
        case CastVote(_, _, _) => DoCastVote(cfg, r, p.value, op)
        case Reveal(_) => DoReveal(cfg, r)
        case StartRound(_, _, _) => DoStartRound(cfg, r, op)
        case Leave(_) => DoLeave(cfg, r, p.value)
        case React(_, emoji) => DoReact(r, p.value, emoji, now)
        case Settle(_, value) => DoSettle(cfg, r, p.value, value, now)
  }

  // ---------- runs ----------

  /** The room after the first `n` calls. */
  ghost function At(cfg: Config, r: RoomState, calls: seq<Call>, n: nat): RoomState
    requires n <= |calls|
  {
    if n == 0 then r else Step(cfg, At(cfg, r, calls, n - 1), calls[n - 1]).room
  }

  /** What the `n`th call did. */
  ghost function Did(cfg: Config, r: RoomState, calls: seq<Call>, n: nat): Outcome
    requires n < |calls|
  {
    Step(cfg, At(cfg, r, calls, n), calls[n])
  }

  /** Everything published by the first `n` calls. */
  ghost function Log(cfg: Config, r: RoomState, calls: seq<Call>, n: nat): seq<Event>
    requires n <= |calls|
  {
    if n == 0 then [] else Log(cfg, r, calls, n - 1) + Did(cfg, r, calls, n - 1).events
  }

  /** IDs and tokens are minted afresh. */
  predicate Mintable(r: RoomState, op: Op) {
    op.Join? ==> op.token != "" && forall p | p in r.participants :: p.id != op.id && p.token != op.token
  }

  ghost predicate Proper(cfg: Config, r: RoomState, calls: seq<Call>) {
    forall n | 0 <= n < |calls| :: Mintable(At(cfg, r, calls, n), calls[n].op)
  }

  ghost predicate Reveals(cfg: Config, r: RoomState, call: Call) {
    r.round.phase.Voting? && Step(cfg, r, call).room.round.phase.Revealed?
  }
}
