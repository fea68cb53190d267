/** The values a room publishes: its wire state, its events, and the parts they are made of. */
module Wire {

  datatype Option<+T> = None | Some(value: T)

  /** Observers watch; only humans and agents vote. */
  datatype Kind = Human | Agent | Observer

  datatype Phase = Voting | Revealed

  datatype RevealedVote = RevealedVote(name: string, kind: Kind, value: string, rationale: string)

  datatype NumericStats = NumericStats(min: real, max: real, median: real, mean: real, spread: real)

  datatype Top = Top(values: seq<string>, count: nat, tied: bool)

  /** `numeric` is absent when no vote parses as a number, `top` when nobody voted. */
  datatype Stats = Stats(numeric: Option<NumericStats>, consensus: bool, counts: map<string, nat>, top: Option<Top>)

  datatype Results = Results(votes: seq<RevealedVote>, stats: Stats)

  /** `called` is empty when the round was archived unsettled. */
  datatype RoundSummary = RoundSummary(number: nat, subject: string, votes: seq<RevealedVote>, stats: Stats,
                                       called: string)

  datatype AwardId = Oracle | SawSomething | Diplomat | Optimist | Pessimist

  /** What the text under an award says. */
  datatype Detail =
    | CalledBlind(settled: string, round: nat)
    | Landed(round: nat, cards: nat, settled: string)
    | Argued(values: seq<string>)
    | MovedWithGrace
    | BelowTheLine
    | AboveTheLine

  datatype Award = Award(id: AwardId, names: seq<string>, detail: Detail)

  datatype Settlement = Settlement(value: string, caller: string, settledAt: int, awards: seq<Award>)

  datatype ParticipantState = ParticipantState(id: string, name: string, kind: Kind, hasVoted: bool)

  datatype RoundState = RoundState(number: nat, subject: string, context: string, phase: Phase, votesCast: nat,
                                   participants: seq<ParticipantState>)

  datatype State = State(revision: nat, roomId: string, deck: seq<string>, autoReveal: bool, round: RoundState,
                         results: Option<Results>, history: seq<RoundSummary>, settled: Option<Settlement>)

  datatype Change = Joined | VoteCast | RoundRevealed | RoundStarted | Departed | RoundSettled

  datatype Reaction = Reaction(name: string, kind: Kind, emoji: string)

  /** Every event carries the whole state after the change, except the transient reaction. */
  datatype EventOf<+S> =
    | StateEvent(id: nat, change: Change, state: S)
    | ReactionEvent(id: nat, reaction: Reaction)

  type Event = EventOf<State>

  /** Everything a state says apart from its version number. */
  function Content(st: State): State {
    st.(revision := 0)
  }

  /** The newest event that carries a state. */
  function LastState(events: seq<Event>): (last: Option<Event>)
    ensures last.Some? ==> last.value.StateEvent? && last.value in events
  {
    if events == [] then None
    else if events[|events| - 1].StateEvent? then Some(events[|events| - 1])
    else LastState(events[..|events| - 1])
  }

  lemma {:induction false} LastStateAppend(a: seq<Event>, b: seq<Event>)
    ensures LastState(a + b) == if LastState(b).Some? then LastState(b) else LastState(a)
  {
    if b == [] {
      assert a + b == a;
    } else {
      var last := |b| - 1;
      assert (a + b)[..|a + b| - 1] == a + b[..last];
      LastStateAppend(a, b[..last]);
    }
  }

  /** There is none exactly when only reactions were sent, and after it came nothing else. */
  lemma {:induction false} LastStateIsNewest(events: seq<Event>)
    ensures LastState(events).None? <==> forall e | e in events :: e.ReactionEvent?
    ensures LastState(events).Some? ==>
              exists i :: 0 <= i < |events| && events[i] == LastState(events).value
                          && forall j | i < j < |events| :: events[j].ReactionEvent?
  {
    if events != [] && events[|events| - 1].ReactionEvent? {
      var rest := events[..|events| - 1];
      LastStateIsNewest(rest);
      assert events == rest + [events[|events| - 1]];
      if LastState(rest).Some? {
        var i :| 0 <= i < |rest| && rest[i] == LastState(rest).value
                 && forall j | i < j < |rest| :: rest[j].ReactionEvent?;
        assert events[i] == LastState(events).value;
      }
    }
  }
}
