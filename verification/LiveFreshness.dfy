/** How far what the page shows can be behind the room: the connection's clockwork, the page's revision filter and
    the room's revisions together. */
module LiveFreshness {
  import opened Wire
  import opened RoomModel
  import opened LiveModel
  import opened LiveOwnership
  import opened LiveStaleness
  import Revisions
  import Stream

  /** A room's calls with the clock at each, in milliseconds. */
  datatype History = History(cfg: Config, room: RoomState, calls: seq<Call>)

  /** How many calls had been made by `time`. */
  function CallsBy(calls: seq<Call>, time: real): (n: nat)
    ensures n <= |calls|
  {
    if calls == [] || calls[|calls| - 1].now as real <= time then |calls| else CallsBy(calls[..|calls| - 1], time)
  }

  ghost function RevisionAfter(h: History, n: nat): nat
    requires n <= |h.calls|
  {
    Snapshot(h.cfg, At(h.cfg, h.room, h.calls, n)).revision
  }

  /** The room's revision at `time`. */
  ghost function RevisionAt(h: History, time: real): nat {
    RevisionAfter(h, CallsBy(h.calls, time))
  }

  lemma {:induction false} CallsByGrows(calls: seq<Call>, from: real, to: real)
    requires from <= to
    ensures CallsBy(calls, from) <= CallsBy(calls, to)
  {
    if calls != [] && calls[|calls| - 1].now as real > to {
      CallsByGrows(calls[..|calls| - 1], from, to);
    }
  }

  lemma RevisionRises(h: History, from: real, to: real)
    requires from <= to && h.room.eventSeq == 0
    ensures RevisionAt(h, from) <= RevisionAt(h, to)
  {
    CallsByGrows(h.calls, from, to);
    Revisions.ReadsNeverGoBack(h.cfg, h.room, h.calls, CallsBy(h.calls, from), CallsBy(h.calls, to));
  }

  // ---------- the page ----------

  /** What the page shows after being told `notes`, going by its revision filter. */
  function Display(before: Option<State>, notes: seq<Note>): Option<State> {
    if notes == [] then before
    else
      var shown, note := Display(before, notes[..|notes| - 1]), notes[|notes| - 1];
      if !note.Show? then shown
      else if shown.None? then Some(note.state)
      else Some(Stream.Newer(shown.value, note.state))
  }

  ghost predicate ShowsAtLeast(before: Option<State>, notes: seq<Note>, revision: nat) {
    var shown := Display(before, notes);
    shown.Some? && shown.value.revision >= revision
  }

  lemma {:induction false} StillShown(before: Option<State>, notes: seq<Note>, more: seq<Note>, revision: nat)
    requires notes <= more && ShowsAtLeast(before, notes, revision)
    ensures ShowsAtLeast(before, more, revision)
  {
    if more == notes {
    } else {
      StillShown(before, notes, more[..|more| - 1], revision);
    }
  }

  lemma JustShown(before: Option<State>, notes: seq<Note>, source: Source, st: State)
    ensures ShowsAtLeast(before, notes + [Show(source, st)], st.revision)
  {
    assert (notes + [Show(source, st)])[..|notes|] == notes;
  }

  // ---------- requests that succeed ----------

  /** The state is one the room had between the request and its answer. */
  ghost predicate Served(h: History, asked: real, answered: real, st: State) {
    exists n :: CallsBy(h.calls, asked) <= n <= CallsBy(h.calls, answered) && ReadAfter(h, n, st)
  }

  ghost predicate ReadAfter(h: History, n: int, st: State) {
    0 <= n <= |h.calls| && st == Snapshot(h.cfg, At(h.cfg, h.room, h.calls, n))
  }

  lemma ServedIsRecent(h: History, asked: real, answered: real, st: State)
    requires Served(h, asked, answered, st) && h.room.eventSeq == 0
    ensures st.revision >= RevisionAt(h, asked)
  {
    var n :| CallsBy(h.calls, asked) <= n <= CallsBy(h.calls, answered) && ReadAfter(h, n, st);
    Revisions.ReadsNeverGoBack(h.cfg, h.room, h.calls, CallsBy(h.calls, asked), n);
  }

  /** If the awaited request is answered, it is with a state the room had meanwhile. */
  ghost predicate Succeeds(h: History, t: Transport, k: Clock, m: Move) {
    m.action.Answers? && t.pending == Some(m.action.id) ==>
      m.action.answer.Got? && Served(h, k.asked, m.at, m.action.answer.state)
  }

  ghost predicate SteadySuccess(h: History, t: Transport, k: Clock, run: seq<Move>)
    decreases run
  {
    run == [] || (Steady(t, k, run[0]) && Succeeds(h, t, k, run[0])
                  && SteadySuccess(h, Act(t, run[0].action, run[0].at), Observed(t, k, run[0]), run[1..]))
  }

  /** When the last request that settled had been made. */
  function SettledFor(t: Transport, k: Clock, m: Move, since: Option<real>): Option<real> {
    if Settles(t, m.action) then Some(k.asked) else since
  }

  /** The page shows what the room was when the last settled request was made, or newer; and what it was when the
      awaited one was made, once that is answered. Until one settles the first is awaited. */
  ghost predicate Fed(h: History, before: Option<State>, start: real, t: Transport, k: Clock, since: Option<real>) {
    && (since.Some? ==> k.settled <= since.value + REQUEST && ShowsAtLeast(before, t.notes, RevisionAt(h, since.value)))
    && (since.None? ==> t.pending.Some? && k.asked == start)
    && (t.pending.Some? && t.pending.value in t.finishing ==> ShowsAtLeast(before, t.notes, RevisionAt(h, k.asked)))
  }

  lemma StepFed(h: History, before: Option<State>, start: real, t: Transport, k: Clock, since: Option<real>, m: Move)
    requires h.room.eventSeq == 0 && Owned(t) && Fed(h, before, start, t, k, since)
    requires Steady(t, k, m) && Succeeds(h, t, k, m)
    ensures Fed(h, before, start, Act(t, m.action, m.at), Observed(t, k, m), SettledFor(t, k, m, since))
  {
    hide Served, ShowsAtLeast, RevisionAt, Since;
    var t1 := Act(t, m.action, m.at);
    NotesGrow(t, m.action, m.at);
    forall revision | ShowsAtLeast(before, t.notes, revision) ensures ShowsAtLeast(before, t1.notes, revision) {
      StillShown(before, t.notes, t1.notes, revision);
    }
    if m.action.Answers? && t.pending == Some(m.action.id) {
      var st := m.action.answer.state;
      ServedIsRecent(h, k.asked, m.at, st);
      JustShown(before, t.notes, ByRequest(m.action.id), st);
      AtLeastLess(before, t1.notes, st.revision, RevisionAt(h, k.asked));
    }
  }

  lemma AtLeastLess(before: Option<State>, notes: seq<Note>, more: nat, less: nat)
    requires ShowsAtLeast(before, notes, more) && less <= more
    ensures ShowsAtLeast(before, notes, less)
  {
  }

  lemma NotesGrow(t: Transport, a: Action, now: real)
    ensures t.notes <= Act(t, a, now).notes
  {
    hide Act, Due;
    OnlyOwnersPublish(t, a, now);
  }

  function EndSettledFor(t: Transport, k: Clock, run: seq<Move>, since: Option<real>): Option<real>
    decreases run
  {
    if run == [] then since
    else EndSettledFor(Act(t, run[0].action, run[0].at), Observed(t, k, run[0]), run[1..],
                       SettledFor(t, k, run[0], since))
  }

  lemma {:induction false} RunFed(h: History, before: Option<State>, start: real, t: Transport, k: Clock,
                                  since: Option<real>, run: seq<Move>)
    requires h.room.eventSeq == 0 && Owned(t) && Fresh(t, k) && Fed(h, before, start, t, k, since)
    requires SteadySuccess(h, t, k, run)
    ensures Fresh(End(t, run), EndClock(t, k, run))
    ensures Fed(h, before, start, End(t, run), EndClock(t, k, run), EndSettledFor(t, k, run, since))
    decreases run
  {
    hide Owned, Fresh, Fed, Act, Observed, SettledFor, OnTime, Quiet, Enabled, Succeeds;
    if run != [] {
      var m := run[0];
      StepOwned(t, m.action, m.at);
      StepFresh(t, k, m);
      StepFed(h, before, start, t, k, since, m);
      RunFed(h, before, start, Act(t, m.action, m.at), Observed(t, k, m), SettledFor(t, k, m, since), run[1..]);
    }
  }

  lemma ResumedIsFed(h: History, before: Option<State>, t: Transport, now: real)
    requires Owned(t) && !t.stopped && !t.hidden && now >= 0.0
    ensures Fed(h, before, now, Resume(t, now), Resumed(now), None)
  {
  }

  lemma FedIsRecent(h: History, before: Option<State>, start: real, t: Transport, k: Clock, since: Option<real>,
                    at: real)
    requires h.room.eventSeq == 0 && Fed(h, before, start, t, k, since)
    requires OnTime(t, k, at) && Bounded(t, k, at) && at > start + REQUEST
    ensures ShowsAtLeast(before, t.notes, RevisionAt(h, at - if k.wasHealthy then 32000.0 else 19000.0))
  {
    hide RevisionAt, ShowsAtLeast;
    assert since.Some?;
    RevisionRises(h, at - (if k.wasHealthy then 32000.0 else 19000.0), since.value);
    AtLeastLess(before, t.notes, RevisionAt(h, since.value),
                RevisionAt(h, at - if k.wasHealthy then 32000.0 else 19000.0));
  }

  /** From eight seconds after a visible connection resumes, while its timer ticks and its requests succeed, the page
      is never more than 32 s behind the room, nor more than 19 s if the last request to settle found the stream
      unhealthy: whatever the stream loses or delays, and whatever the page showed before. */
  lemma DisplayIsRecent(h: History, before: Option<State>, t: Transport, now: real, run: seq<Move>, next: Move)
    requires h.room.eventSeq == 0 && Owned(t) && !t.stopped && !t.hidden && now >= 0.0
    requires SteadySuccess(h, Resume(t, now), Resumed(now), run)
    requires Steady(End(Resume(t, now), run), EndClock(Resume(t, now), Resumed(now), run), next)
    requires next.at > now + 8000.0
    ensures var t1, k1 := End(Resume(t, now), run), EndClock(Resume(t, now), Resumed(now), run);
            ShowsAtLeast(before, t1.notes, RevisionAt(h, next.at - if k1.wasHealthy then 32000.0 else 19000.0))
  {
    hide Owned, Fresh, Fed, Bounded, SteadySuccess, End, EndClock, EndSettledFor;
    hide Resume, OnTime, ShowsAtLeast, RevisionAt;
    var t0, k0 := Resume(t, now), Resumed(now);
    ResumedIsFresh(t, now);
    ResumedIsFed(h, before, t, now);
    ResumedIsOwned(t, now);
    RunFed(h, before, now, t0, k0, None, run);
    FreshIsBounded(End(t0, run), EndClock(t0, k0, run), next.at);
    FedIsRecent(h, before, now, End(t0, run), EndClock(t0, k0, run), EndSettledFor(t0, k0, run, None), next.at);
  }

  lemma ResumedIsOwned(t: Transport, now: real)
    requires Owned(t) && !t.stopped && !t.hidden
    ensures Owned(Resume(t, now))
  {
    hide Owned;
    StepOwned(t, Resumes, now);
  }
}
