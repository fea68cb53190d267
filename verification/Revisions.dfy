/** The revision as a version number of what the room shows. */
module Revisions {
  import opened Wire
  import opened RoomModel
  import RoundStats

  ghost predicate CarriesRevision(e: Event) {
    e.StateEvent? ==> e.state.revision == e.id
  }

  /** IDs count up from `from`, and every state is stamped with its event's ID. */
  ghost predicate Numbered(events: seq<Event>, from: nat) {
    forall i | 0 <= i < |events| :: events[i].id == from + i + 1 && CarriesRevision(events[i])
  }

  /** What is public after `events`, having been `before`. */
  ghost function Shown(before: State, events: seq<Event>): State {
    var last := LastState(events);
    if last.Some? then Content(last.value.state) else before
  }

  ghost function ReplyState(reply: Reply): Option<State> {
    match reply
    case Voted(_, revealed) => revealed
    case Now(st) => Some(st)
    case Gone(revealed) => revealed
    case _ => None
  }

  lemma ShownOne(before: State, e: Event)
    ensures Shown(before, [e]) == if e.StateEvent? then Content(e.state) else before
  {
    assert [e][..0] == [];
    assert LastState([]) == None;
  }

  lemma ShownAppend(before: State, a: seq<Event>, b: seq<Event>)
    ensures Shown(before, a + b) == Shown(Shown(before, a), b)
  {
    LastStateAppend(a, b);
  }

  lemma FlowPublishes(cfg: Config, r: RoomState, change: Change, before: State)
    ensures var f := AfterBallotChange(cfg, r, change);
            && Numbered(f.events, r.eventSeq) && f.room.eventSeq == r.eventSeq + |f.events|
            && Public(cfg, f.room) == Shown(before, f.events)
            && (f.revealed.Some? ==> f.revealed.value == Snapshot(cfg, f.room))
  {
    hide MustReveal;
    var f := AfterBallotChange(cfg, r, change);
    if |f.events| == 2 {
      assert f.events == [f.events[0]] + [f.events[1]];
      ShownAppend(before, [f.events[0]], [f.events[1]]);
      ShownOne(Shown(before, [f.events[0]]), f.events[1]);
    } else {
      ShownOne(before, f.events[0]);
    }
  }

  ghost predicate Publishes(cfg: Config, r: RoomState, o: Outcome) {
    && Numbered(o.events, r.eventSeq) && o.room.eventSeq == r.eventSeq + |o.events|
    && Public(cfg, o.room) == Shown(Public(cfg, r), o.events)
    && (ReplyState(o.reply).Some? ==> ReplyState(o.reply).value == Snapshot(cfg, o.room))
  }

  lemma PublishPublishes(cfg: Config, r: RoomState, r1: RoomState, reply: Reply, change: Change)
    requires r1.eventSeq == r.eventSeq
    requires ReplyState(reply).Some? ==> ReplyState(reply).value == Snapshot(cfg, Bump(r1))
    ensures Publishes(cfg, r, Outcome(Bump(r1), reply, [Announce(cfg, r1, change)]))
  {
    ShownOne(Public(cfg, r), Announce(cfg, r1, change));
  }

  lemma FailPublishes(cfg: Config, r: RoomState, r1: RoomState, reply: Reply)
    requires Snapshot(cfg, r1) == Snapshot(cfg, r)
    requires ReplyState(reply).Some? ==> ReplyState(reply).value == Snapshot(cfg, r1)
    ensures Publishes(cfg, r, Outcome(r1, reply, []))
  {
  }

  lemma ReactPublishes(cfg: Config, r: RoomState, p: Participant, emoji: string, now: int)
    ensures Publishes(cfg, r, DoReact(r, p, emoji, now))
  {
    StampListing(r.participants, r.round.votes, p.id, now);
    ShownOne(Public(cfg, r), ReactionEvent(r.eventSeq + 1, Reaction(p.name, p.kind, emoji)));
  }

  /** Every call numbers what it publishes, ends on a room showing the last thing published, and answers
      with nothing but that; a closed room publishes nothing. */
  lemma StepPublishes(cfg: Config, r: RoomState, call: Call)
    ensures Publishes(cfg, r, Step(cfg, r, call))
    ensures r.closed ==> Step(cfg, r, call).room.closed && Step(cfg, r, call).events == []
  {
    hide AfterBallotChange, RevealedRoom, Remember, Archive, Numbered, Shown, Listed;
    var r1, op, o := r.(lastActive := call.now), call.op, Step(cfg, r, call);
    assert Snapshot(cfg, r1) == Snapshot(cfg, r) == Snapshot(cfg, r.(closed := true));
    if o.reply.Failed? || op.GetState? || op.Close? {
      FailPublishes(cfg, r, o.room, o.reply);
    } else if op.Join? {
      var p := Participant(op.id, op.name, op.kind, op.token, r.joins + 1, None);
      PublishPublishes(cfg, r, r1.(participants := r.participants + [p], joins := r.joins + 1), o.reply, Joined);
    } else {
      AcceptedPublishes(cfg, r, call);
    }
  }

  lemma AcceptedPublishes(cfg: Config, r: RoomState, call: Call)
    requires !call.op.Join? && !call.op.GetState? && !call.op.Close? && !Step(cfg, r, call).reply.Failed?
    ensures Publishes(cfg, r, Step(cfg, r, call))
  {
    hide AfterBallotChange, RoundStats.StatsOf, Ballots, Remember, Archive, Numbered, Shown, Listed;
    var r1, op, o := r.(lastActive := call.now), call.op, Step(cfg, r, call);
    assert Public(cfg, r1) == Public(cfg, r);
    var p := Authenticate(r1.participants, op.token).value;
    match op {
      case CastVote(_, value, rationale) =>
        FlowPublishes(cfg, WithVote(r1, p.id, Vote(value, rationale)), VoteCast, Public(cfg, r));
      case Leave(_) => FlowPublishes(cfg, WithoutVoter(r1, p.id), Departed, Public(cfg, r));
      case Reveal(_) => PublishPublishes(cfg, r, RevealedRoom(cfg, r1), o.reply, RoundRevealed);
      case React(_, emoji) => ReactPublishes(cfg, r1, p, emoji, call.now);
      case StartRound(_, _, _) => PublishPublishes(cfg, r, o.room.(eventSeq := r.eventSeq), o.reply, RoundStarted);
      case Settle(_, _) => PublishPublishes(cfg, r, o.room.(eventSeq := r.eventSeq), o.reply, RoundSettled);
    }
  }

  lemma {:induction false} StampListing(ps: seq<Participant>, votes: map<string, Vote>, id: string, now: int)
    ensures Listed(Stamp(ps, id, now), votes) == Listed(ps, votes)
  {
    if ps != [] {
      StampListing(ps[1..], votes, id, now);
    }
  }

  // ---------- whole runs ----------

  /** What a fresh room shows at revision `rev`, going by the events alone. */
  ghost function VersionAt(first: State, log: seq<Event>, rev: nat): State
    requires rev <= |log|
  {
    Shown(first, log[..rev])
  }

  lemma {:induction false} LogIsFaithful(cfg: Config, r: RoomState, calls: seq<Call>, n: nat)
    requires n <= |calls| && r.eventSeq == 0
    ensures var log := Log(cfg, r, calls, n);
            && Numbered(log, 0) && At(cfg, r, calls, n).eventSeq == |log|
            && Public(cfg, At(cfg, r, calls, n)) == VersionAt(Public(cfg, r), log, |log|)
  {
    hide Step, Public;
    if n > 0 {
      LogIsFaithful(cfg, r, calls, n - 1);
      var before, o := Log(cfg, r, calls, n - 1), Did(cfg, r, calls, n - 1);
      StepPublishes(cfg, At(cfg, r, calls, n - 1), calls[n - 1]);
      ShownAppend(Public(cfg, r), before, o.events);
      assert before[..|before|] == before && (before + o.events)[..|before + o.events|] == before + o.events;
    }
  }

  lemma {:induction false} LogGrows(cfg: Config, r: RoomState, calls: seq<Call>, m: nat, n: nat)
    requires m <= n <= |calls|
    ensures Log(cfg, r, calls, m) <= Log(cfg, r, calls, n)
  {
    hide Step;
    if m < n {
      LogGrows(cfg, r, calls, m, n - 1);
    }
  }

  /** A state anyone could have seen by call `n`: read from the room, or pushed in an event. */
  ghost predicate Published(cfg: Config, r: RoomState, calls: seq<Call>, n: nat, st: State)
    requires n <= |calls|
  {
    || (exists k :: 0 <= k <= n && st == Snapshot(cfg, At(cfg, r, calls, k)))
    || (exists e :: e in Log(cfg, r, calls, n) && e.StateEvent? && e.state == st)
  }

  lemma SnapshotIsVersion(cfg: Config, r: RoomState, calls: seq<Call>, n: nat, k: nat)
    requires k <= n <= |calls| && r.eventSeq == 0
    ensures var log, st := Log(cfg, r, calls, n), Snapshot(cfg, At(cfg, r, calls, k));
            st.revision <= |log| && Content(st) == VersionAt(Public(cfg, r), log, st.revision)
  {
    hide Step, Shown, Numbered;
    LogIsFaithful(cfg, r, calls, k);
    LogGrows(cfg, r, calls, k, n);
    var log, earlier := Log(cfg, r, calls, n), Log(cfg, r, calls, k);
    assert log[..|earlier|] == earlier == earlier[..|earlier|];
  }

  lemma EventIsVersion(before: State, log: seq<Event>, i: nat)
    requires i < |log| && Numbered(log, 0) && log[i].StateEvent?
    ensures log[i].state.revision == i + 1
    ensures Content(log[i].state) == VersionAt(before, log, i + 1)
  {
    assert CarriesRevision(log[i]);
    assert log[..i + 1] == log[..i] + [log[i]];
    ShownAppend(before, log[..i], [log[i]]);
    ShownOne(Shown(before, log[..i]), log[i]);
  }

  /** Anything published is the version its revision names. */
  lemma PublishedIsVersion(cfg: Config, r: RoomState, calls: seq<Call>, n: nat, st: State)
    requires n <= |calls| && r.eventSeq == 0
    requires Published(cfg, r, calls, n, st)
    ensures st.revision <= |Log(cfg, r, calls, n)|
    ensures Content(st) == VersionAt(Public(cfg, r), Log(cfg, r, calls, n), st.revision)
  {
    hide Step, Shown, Numbered, Log, Snapshot;
    var log := Log(cfg, r, calls, n);
    if k :| 0 <= k <= n && st == Snapshot(cfg, At(cfg, r, calls, k)) {
      SnapshotIsVersion(cfg, r, calls, n, k);
    } else {
      var e :| e in log && e.StateEvent? && e.state == st;
      var i :| 0 <= i < |log| && log[i] == e;
      LogIsFaithful(cfg, r, calls, n);
      EventIsVersion(Public(cfg, r), log, i);
    }
  }

  /** Two published states of a room with one revision are one state. */
  lemma RevisionIsFaithful(cfg: Config, r: RoomState, calls: seq<Call>, n: nat, a: State, b: State)
    requires n <= |calls| && r.eventSeq == 0
    requires Published(cfg, r, calls, n, a) && Published(cfg, r, calls, n, b)
    requires a.revision == b.revision
    ensures a == b
  {
    hide Step, Published, Log, VersionAt;
    PublishedIsVersion(cfg, r, calls, n, a);
    PublishedIsVersion(cfg, r, calls, n, b);
    assert a == Content(a).(revision := a.revision) && b == Content(b).(revision := b.revision);
  }

  /** What call `n` pushes has revisions above the room's before it, and none above the room's after it. */
  lemma PushedBetween(cfg: Config, r: RoomState, calls: seq<Call>, n: nat)
    requires n < |calls| && r.eventSeq == 0
    ensures forall e | e in Did(cfg, r, calls, n).events && e.StateEvent? ::
              Snapshot(cfg, At(cfg, r, calls, n)).revision < e.state.revision
                <= Snapshot(cfg, At(cfg, r, calls, n + 1)).revision
  {
    hide Step;
    LogIsFaithful(cfg, r, calls, n);
    LogIsFaithful(cfg, r, calls, n + 1);
    StepPublishes(cfg, At(cfg, r, calls, n), calls[n]);
    var events := Did(cfg, r, calls, n).events;
    assert Log(cfg, r, calls, n + 1) == Log(cfg, r, calls, n) + events;
    forall e | e in events && e.StateEvent?
      ensures Snapshot(cfg, At(cfg, r, calls, n)).revision < e.state.revision
                <= Snapshot(cfg, At(cfg, r, calls, n + 1)).revision
    {
      var i :| 0 <= i < |events| && events[i] == e;
      assert CarriesRevision(e);
    }
  }

  lemma ReadsNeverGoBack(cfg: Config, r: RoomState, calls: seq<Call>, m: nat, n: nat)
    requires m <= n <= |calls| && r.eventSeq == 0
    ensures Snapshot(cfg, At(cfg, r, calls, m)).revision <= Snapshot(cfg, At(cfg, r, calls, n)).revision
  {
    LogIsFaithful(cfg, r, calls, m);
    LogIsFaithful(cfg, r, calls, n);
    LogGrows(cfg, r, calls, m, n);
  }

  /** Whatever is read or pushed first, what is read later has no smaller revision, and what is pushed later a
      larger one: within one call's pushes, and from any call `m` to any later call `n`. */
  lemma RevisionNeverGoesBack(cfg: Config, r: RoomState, calls: seq<Call>, m: nat, n: nat)
    requires m <= n <= |calls| && r.eventSeq == 0
    ensures Snapshot(cfg, At(cfg, r, calls, m)).revision <= Snapshot(cfg, At(cfg, r, calls, n)).revision
    ensures n < |calls| ==> forall e | e in Did(cfg, r, calls, n).events && e.StateEvent? ::
              Snapshot(cfg, At(cfg, r, calls, m)).revision < e.state.revision
    ensures m < n ==> forall d | d in Did(cfg, r, calls, m).events && d.StateEvent? ::
              d.state.revision <= Snapshot(cfg, At(cfg, r, calls, n)).revision
    ensures m < n < |calls| ==> forall d, e | d in Did(cfg, r, calls, m).events && d.StateEvent?
                                           && e in Did(cfg, r, calls, n).events && e.StateEvent? ::
              d.state.revision < e.state.revision
    ensures n < |calls| ==> var events := Did(cfg, r, calls, n).events;
              forall i, j | 0 <= i < j < |events| && events[i].StateEvent? && events[j].StateEvent? ::
                events[i].state.revision < events[j].state.revision
  {
    hide Step, Snapshot;
    ReadsNeverGoBack(cfg, r, calls, m, n);
    if m < n {
      PushedBetween(cfg, r, calls, m);
      ReadsNeverGoBack(cfg, r, calls, m + 1, n);
    }
    if n < |calls| {
      PushedBetween(cfg, r, calls, n);
      PushedInOrder(cfg, r, calls, n);
    }
  }

  lemma PushedInOrder(cfg: Config, r: RoomState, calls: seq<Call>, n: nat)
    requires n < |calls| && r.eventSeq == 0
    ensures var events := Did(cfg, r, calls, n).events;
            forall i, j | 0 <= i < j < |events| && events[i].StateEvent? && events[j].StateEvent? ::
              events[i].state.revision < events[j].state.revision
  {
    hide Step;
    StepPublishes(cfg, At(cfg, r, calls, n), calls[n]);
    var events := Did(cfg, r, calls, n).events;
    assert forall i | 0 <= i < |events| :: CarriesRevision(events[i]);
  }

  /** The states in replies are published ones too. */
  lemma RepliesArePublished(cfg: Config, r: RoomState, calls: seq<Call>, n: nat)
    requires n < |calls|
    ensures var st := ReplyState(Did(cfg, r, calls, n).reply);
            st.Some? ==> Published(cfg, r, calls, n + 1, st.value)
  {
    hide Step;
    StepPublishes(cfg, At(cfg, r, calls, n), calls[n]);
    assert At(cfg, r, calls, n + 1) == Did(cfg, r, calls, n).room;
  }
}
