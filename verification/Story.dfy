/** A room retold from the calls it accepted, and that this is what it shows. */
module Story {
  import opened Wire
  import opened RoomModel
  import opened RoomInvariants
  import opened Calls
  import opened RoundLog
  import opened Revisions
  import Awards
  import RoundStats

  datatype Guest = Guest(id: string, name: string, kind: Kind, token: string, reacted: Option<int>)

  datatype Verdict = Verdict(value: string, caller: string, at: int)

  datatype Chapter = Chapter(subject: string, called: string)

  /** Who is there, in the order they came; what is voted on; the verdict so far; and the rounds before. */
  datatype Tale = Tale(present: seq<Guest>, subject: string, context: string, verdict: Option<Verdict>,
                       past: seq<Chapter>, closed: bool)

  function Others(present: seq<Guest>, token: string): seq<Guest> {
    if present == [] then []
    else (if present[0].token == token then [] else [present[0]]) + Others(present[1..], token)
  }

  function Noted(present: seq<Guest>, token: string, now: int): seq<Guest> {
    if present == [] then []
    else [if present[0].token == token then present[0].(reacted := Some(now)) else present[0]]
         + Noted(present[1..], token, now)
  }

  function NameOf(present: seq<Guest>, token: string): string {
    if present == [] then ""
    else if present[0].token == token then present[0].name
    else NameOf(present[1..], token)
  }

  function CalledIn(verdict: Option<Verdict>): string {
    if verdict.Some? then verdict.value.value else ""
  }

  /** The tale after one more call was accepted. */
  function Retold(t: Tale, call: Call): Tale {
    match call.op
    case Join(name, kind, id, token) => t.(present := t.present + [Guest(id, name, kind, token, None)])
    case Leave(token) => t.(present := Others(t.present, token))
    case React(token, _) => t.(present := Noted(t.present, token, call.now))
    case Settle(token, value) => t.(verdict := Some(Verdict(value, NameOf(t.present, token), call.now)))
    case StartRound(_, subject, context) =>
      t.(subject := subject, context := context, verdict := None,
         past := t.past + [Chapter(t.subject, CalledIn(t.verdict))])
    case Close => t.(closed := true)
    case CastVote(_, _, _) => t
    case Reveal(_) => t
    case GetState => t
  }

  /** The tale of the first `n` calls on a new room. */
  ghost function TaleOf(cfg: Config, subject: string, context: string, now: int, calls: seq<Call>, n: nat): Tale
    requires n <= |calls|
  {
    if n == 0 then Tale([], subject, context, None, [], false)
    else
      var before := TaleOf(cfg, subject, context, now, calls, n - 1);
      if Fault(cfg, At(cfg, NewRoom(subject, context, now), calls, n - 1), calls[n - 1]).Some? then before
      else Retold(before, calls[n - 1])
  }

  // ---------- the room fits the tale ----------

  function Guests(ps: seq<Participant>): (gs: seq<Guest>)
    ensures |gs| == |ps|
    ensures forall i | 0 <= i < |ps| ::
              gs[i] == Guest(ps[i].id, ps[i].name, ps[i].kind, ps[i].token, ps[i].lastReaction)
  {
    if ps == [] then []
    else [Guest(ps[0].id, ps[0].name, ps[0].kind, ps[0].token, ps[0].lastReaction)] + Guests(ps[1..])
  }

  ghost predicate Tells(history: seq<RoundSummary>, past: seq<Chapter>) {
    |history| == |past| && forall i | 0 <= i < |past| :: Chapter(history[i].subject, history[i].called) == past[i]
  }

  ghost predicate Settled(settled: Option<Settlement>, verdict: Option<Verdict>) {
    && (settled.Some? <==> verdict.Some?)
    && (settled.Some? ==> var s := settled.value; verdict.value == Verdict(s.value, s.caller, s.settledAt))
  }

  ghost predicate Fits(cfg: Config, r: RoomState, t: Tale) {
    && Guests(r.participants) == t.present
    && r.round.number == |t.past| + 1 && r.round.subject == t.subject && r.round.context == t.context
    && Settled(r.settled, t.verdict)
    && Tells(r.history, LastOf(t.past, cfg.historyLen))
    && r.closed == t.closed
  }

  lemma {:induction false} GuestsWithout(ps: seq<Participant>, joins: nat, p: Participant)
    requires Orderly(ps, joins)
    requires forall q | q in ps :: q.id == p.id <==> q.token == p.token
    ensures Guests(Without(ps, p.id)) == Others(Guests(ps), p.token)
  {
    if ps != [] {
      assert ps[0] in ps && forall q | q in ps[1..] :: q in ps;
      GuestsWithout(ps[1..], joins, p);
      assert Guests(ps)[1..] == Guests(ps[1..]);
      var rest := Without(ps[1..], p.id);
      assert ps[0].id != p.id ==> Without(ps, p.id)[1..] == rest;
      assert ps[0].id == p.id ==> Without(ps, p.id) == rest;
    }
  }

  lemma {:induction false} GuestsStamped(ps: seq<Participant>, p: Participant, now: int)
    requires forall q | q in ps :: q.id == p.id <==> q.token == p.token
    ensures Guests(Stamp(ps, p.id, now)) == Noted(Guests(ps), p.token, now)
  {
    if ps != [] {
      assert ps[0] in ps && forall q | q in ps[1..] :: q in ps;
      GuestsStamped(ps[1..], p, now);
      assert Guests(ps)[1..] == Guests(ps[1..]);
      assert Stamp(ps, p.id, now)[1..] == Stamp(ps[1..], p.id, now);
    }
  }

  lemma {:induction false} GuestsMore(ps: seq<Participant>, p: Participant)
    ensures Guests(ps + [p]) == Guests(ps) + Guests([p])
  {
  }

  lemma {:induction false} NamedByToken(ps: seq<Participant>, p: Participant)
    requires p in ps && forall q | q in ps && q.token == p.token :: q == p
    ensures NameOf(Guests(ps), p.token) == p.name
  {
    if ps[0] != p {
      assert ps[0] in ps && p in ps[1..] && forall q | q in ps[1..] :: q in ps;
      assert Guests(ps)[1..] == Guests(ps[1..]);
      NamedByToken(ps[1..], p);
    }
  }

  lemma OneOfEach(ps: seq<Participant>, joins: nat, p: Participant)
    requires Orderly(ps, joins) && p in ps
    ensures forall q | q in ps :: q.id == p.id <==> q == p
    ensures forall q | q in ps :: q.token == p.token <==> q == p
  {
    var i :| 0 <= i < |ps| && ps[i] == p;
    forall q | q in ps && q != p ensures q.id != p.id && q.token != p.token {
      var j :| 0 <= j < |ps| && ps[j] == q;
      OrderlyPairs(ps, joins, if i < j then i else j, if i < j then j else i);
    }
  }

  lemma Remembered(history: seq<RoundSummary>, page: RoundSummary, past: seq<Chapter>, n: nat)
    requires Tells(history, LastOf(past, n))
    ensures Tells(Remember(history, page, n), LastOf(past + [Chapter(page.subject, page.called)], n))
  {
  }

  lemma StepFits(cfg: Config, r: RoomState, call: Call, t: Tale)
    requires Inv(cfg, r) && Fits(cfg, r, t) && Fault(cfg, r, call).None?
    ensures Fits(cfg, Step(cfg, r, call).room, Retold(t, call))
  {
    hide Inv, Orderly, Guests, Tells, LastOf, Snapshot, Remember, Ballots, AllVoted,
      Awards.AwardsOf, RoundStats.StatsOf, Stamp, Without, Others, Noted, NameOf, Listed;
    RefusedExactlyWhen(cfg, r, call);
    OrderlyRoom(cfg, r);
    var op := call.op;
    if op.Join? {
      GuestsMore(r.participants, Participant(op.id, op.name, op.kind, op.token, r.joins + 1, None));
    } else if !op.GetState? && !op.Close? {
      var p := Authenticate(r.participants, op.token).value;
      OneOfEach(r.participants, r.joins, p);
      GuestsWithout(r.participants, r.joins, p);
      GuestsStamped(r.participants, p, call.now);
      NamedByToken(r.participants, p);
      RevealedHasResults(cfg, r);
      if op.StartRound? && r.round.phase.Revealed? {
        Remembered(r.history, Archive(r), t.past, cfg.historyLen);
      }
    }
  }

  lemma RevealedHasResults(cfg: Config, r: RoomState)
    requires Inv(cfg, r)
    ensures r.round.phase.Revealed? <==> r.round.results.Some?
  {
  }

  /** In every run the room is what the calls it accepted tell: who came and stayed, when each last reacted, what is
      voted on, what the round was last settled on, by whom and when, and what the rounds before were. */
  lemma {:induction false} RoomFitsTheTale(cfg: Config, subject: string, context: string, now: int, calls: seq<Call>,
                                           n: nat)
    requires n <= |calls| && Proper(cfg, NewRoom(subject, context, now), calls)
    ensures var r := NewRoom(subject, context, now);
            Fits(cfg, At(cfg, r, calls, n), TaleOf(cfg, subject, context, now, calls, n))
  {
    hide Step, Inv, Fault, Mintable, Retold;
    var r := NewRoom(subject, context, now);
    if n > 0 {
      RoomFitsTheTale(cfg, subject, context, now, calls, n - 1);
      NewRoomInv(cfg, subject, context, now);
      RunInv(cfg, r, calls, n - 1);
      var before := At(cfg, r, calls, n - 1);
      RefusedExactlyWhen(cfg, before, calls[n - 1]);
      if Fault(cfg, before, calls[n - 1]).None? {
        StepFits(cfg, before, calls[n - 1], TaleOf(cfg, subject, context, now, calls, n - 1));
      }
    }
  }

  /** So a page or agent reading the state is shown that tale: the room as it was set up, the round with its number and
      topic, everyone present in the order they came and whether each holds a ballot, the verdict, and the last
      rounds with what they were called. */
  lemma StateTellsTheTale(cfg: Config, subject: string, context: string, now: int, calls: seq<Call>, n: nat)
    requires n <= |calls| && Proper(cfg, NewRoom(subject, context, now), calls)
    ensures var r := NewRoom(subject, context, now);
            var st, t := Snapshot(cfg, At(cfg, r, calls, n)), TaleOf(cfg, subject, context, now, calls, n);
            && st.roomId == cfg.roomId && st.deck == cfg.deck && st.autoReveal == cfg.autoReveal
            && st.revision == |Log(cfg, r, calls, n)|
            && st.round.number == |t.past| + 1 && st.round.subject == t.subject && st.round.context == t.context
            && st.round.votesCast == |At(cfg, r, calls, n).round.votes|
            && st.results == At(cfg, r, calls, n).round.results && (st.results.Some? <==> st.round.phase.Revealed?)
            && Settled(st.settled, t.verdict)
            && Tells(st.history, LastOf(t.past, cfg.historyLen))
            && |st.round.participants| == |t.present|
            && forall i | 0 <= i < |t.present| ::
                 var p, g := st.round.participants[i], t.present[i];
                 && p.id == g.id && p.name == g.name && p.kind == g.kind
                 && (p.hasVoted <==> LastBallot(cfg, r, calls, n, g.id).Some?)
  {
    hide Step, Inv, Fault, Mintable, Retold, Tells, Settled, LastOf;
    var r := NewRoom(subject, context, now);
    RoomFitsTheTale(cfg, subject, context, now, calls, n);
    NewRoomInv(cfg, subject, context, now);
    RunInv(cfg, r, calls, n);
    RevealedHasResults(cfg, At(cfg, r, calls, n));
    LogIsFaithful(cfg, r, calls, n);
    var s := At(cfg, r, calls, n);
    forall i | 0 <= i < |s.participants|
      ensures s.participants[i].id in s.round.votes <==> LastBallot(cfg, r, calls, n, s.participants[i].id).Some?
    {
      LastWriteWins(cfg, r, calls, n, s.participants[i].id);
    }
  }

  // ---------- how often one may react ----------

  ghost predicate AcceptedAt(cfg: Config, r: RoomState, calls: seq<Call>, n: nat)
    requires n < |calls|
  {
    Fault(cfg, At(cfg, r, calls, n), calls[n]).None?
  }

  ghost predicate ReactsAt(cfg: Config, r: RoomState, calls: seq<Call>, n: nat, token: string)
    requires n < |calls|
  {
    AcceptedAt(cfg, r, calls, n) && calls[n].op.React? && calls[n].op.token == token
  }

  ghost predicate ReactedSince(r: RoomState, token: string, t: int) {
    exists p :: Holder(r, token, p) && p.lastReaction.Some? && p.lastReaction.value >= t
  }

  lemma ReactingIsNoted(cfg: Config, r: RoomState, call: Call)
    requires Inv(cfg, r) && call.op.React? && Fault(cfg, r, call).None?
    ensures ReactedSince(Step(cfg, r, call).room, call.op.token, call.now)
  {
    hide Inv, Orderly, Authenticate, Snapshot, Stamp;
    RefusedExactlyWhen(cfg, r, call);
    OrderlyRoom(cfg, r);
    var p := Authenticate(r.participants, call.op.token).value;
    StampKeeps(r.participants, r.joins, p.id, call.now);
    var i :| 0 <= i < |r.participants| && r.participants[i] == p;
    assert Holder(Step(cfg, r, call).room, call.op.token, Stamp(r.participants, p.id, call.now)[i]);
  }

  lemma StillNoted(cfg: Config, r: RoomState, call: Call, token: string, t: int)
    requires Inv(cfg, r) && ReactedSince(r, token, t)
    requires call.op.Leave? && call.op.token == token ==> Fault(cfg, r, call).Some?
    ensures ReactedSince(Step(cfg, r, call).room, token, t)
  {
    hide Inv, Orderly, Authenticate, Snapshot, Stamp, Without, AllVoted, Ballots, Listed, Remember,
      Awards.AwardsOf, RoundStats.StatsOf;
    RefusedExactlyWhen(cfg, r, call);
    OrderlyRoom(cfg, r);
    var p :| Holder(r, token, p) && p.lastReaction.Some? && p.lastReaction.value >= t;
    var o := Step(cfg, r, call);
    if Fault(cfg, r, call).None? && (call.op.Leave? || call.op.React?) {
      var q := Authenticate(r.participants, call.op.token).value;
      OneOfEach(r.participants, r.joins, q);
      WithoutMembers(r.participants, q.id);
      StampKeeps(r.participants, r.joins, q.id, call.now);
      var i :| 0 <= i < |r.participants| && r.participants[i] == p;
      assert call.op.Leave? ==> Holder(o.room, token, p);
      assert call.op.React? ==> Holder(o.room, token, Stamp(r.participants, q.id, call.now)[i]);
    } else {
      assert Holder(o.room, token, p);
    }
  }

  lemma {:induction false} NotedThroughout(cfg: Config, r: RoomState, calls: seq<Call>, i: nat, j: nat)
    requires i < j <= |calls| && Inv(cfg, r) && Proper(cfg, r, calls)
    requires calls[i].op.React? && AcceptedAt(cfg, r, calls, i)
    requires forall k | i < k < j && calls[k].op == Leave(calls[i].op.token) :: !AcceptedAt(cfg, r, calls, k)
    ensures ReactedSince(At(cfg, r, calls, j), calls[i].op.token, calls[i].now)
  {
    hide Step, Inv, Fault, Mintable, ReactedSince;
    RunInv(cfg, r, calls, j - 1);
    if j == i + 1 {
      ReactingIsNoted(cfg, At(cfg, r, calls, i), calls[i]);
    } else {
      NotedThroughout(cfg, r, calls, i, j - 1);
      StillNoted(cfg, At(cfg, r, calls, j - 1), calls[j - 1], calls[i].op.token, calls[i].now);
    }
  }

  /** Any two reactions of someone who stays are at least a second apart. */
  lemma ReactionsAreSpaced(cfg: Config, r: RoomState, calls: seq<Call>, i: nat, j: nat)
    requires i < j < |calls| && Inv(cfg, r) && Proper(cfg, r, calls)
    requires calls[i].op.React? && AcceptedAt(cfg, r, calls, i) && ReactsAt(cfg, r, calls, j, calls[i].op.token)
    requires forall k | i < k < j && calls[k].op == Leave(calls[i].op.token) :: !AcceptedAt(cfg, r, calls, k)
    ensures calls[j].now - calls[i].now >= 1000
  {
    hide Step, Inv, Mintable;
    NotedThroughout(cfg, r, calls, i, j);
  }

  lemma {:induction false} NotedMembers(present: seq<Guest>, token: string, now: int, g: Guest)
    requires g in Noted(present, token, now)
    ensures g in present || (g.token == token && g.reacted == Some(now))
  {
    if g != Noted(present, token, now)[0] {
      NotedMembers(present[1..], token, now, g);
    }
  }

  lemma {:induction false} OthersMembers(present: seq<Guest>, token: string, g: Guest)
    requires g in Others(present, token)
    ensures g in present
  {
    if present[0] != g {
      OthersMembers(present[1..], token, g);
    }
  }

  lemma {:induction false} ReactionsAreReal(cfg: Config, subject: string, context: string, now: int, calls: seq<Call>,
                                            n: nat, g: Guest)
    requires n <= |calls| && g in TaleOf(cfg, subject, context, now, calls, n).present && g.reacted.Some?
    ensures exists i :: 0 <= i < n && ReactsAt(cfg, NewRoom(subject, context, now), calls, i, g.token)
                        && calls[i].now == g.reacted.value
  {
    hide Fault, Noted, Others;
    var before := TaleOf(cfg, subject, context, now, calls, n - 1).present;
    var op := calls[n - 1].op;
    if op.React? && g in Noted(before, op.token, calls[n - 1].now) {
      NotedMembers(before, op.token, calls[n - 1].now, g);
    }
    if op.Leave? && g in Others(before, op.token) {
      OthersMembers(before, op.token, g);
    }
    if g in before {
      ReactionsAreReal(cfg, subject, context, now, calls, n - 1, g);
    } else {
      assert ReactsAt(cfg, NewRoom(subject, context, now), calls, n - 1, g.token);
    }
  }

  /** And whoever is told to slow down has reacted within the last second. */
  lemma TooFastMeansJustNow(cfg: Config, subject: string, context: string, now: int, calls: seq<Call>, n: nat)
    requires n < |calls| && Proper(cfg, NewRoom(subject, context, now), calls)
    requires Did(cfg, NewRoom(subject, context, now), calls, n).reply == Failed(TooFast)
    ensures calls[n].op.React?
    ensures exists i :: 0 <= i < n && ReactsAt(cfg, NewRoom(subject, context, now), calls, i, calls[n].op.token)
                        && calls[n].now - calls[i].now < 1000
  {
    hide Inv, Step, Mintable, Retold;
    var r := NewRoom(subject, context, now);
    var s, call := At(cfg, r, calls, n), calls[n];
    NewRoomInv(cfg, subject, context, now);
    RunInv(cfg, r, calls, n);
    RefusedExactlyWhen(cfg, s, call);
    RoomFitsTheTale(cfg, subject, context, now, calls, n);
    var p :| Holder(s, call.op.token, p) && Reacted(p, call.now);
    var i :| 0 <= i < |s.participants| && s.participants[i] == p;
    ReactionsAreReal(cfg, subject, context, now, calls, n, Guests(s.participants)[i]);
  }
}
