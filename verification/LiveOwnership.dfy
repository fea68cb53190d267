/** Who may publish: the one open stream, and the one request under way. */
module LiveOwnership {
  import opened Wire
  import opened LiveModel

  function Only(id: Option<nat>): set<nat> {
    if id.Some? then {id.value} else {}
  }

  /** At most one stream is open and it is the connection's own; at most one request is flying and it is the one
      awaited, which its handlers will let go of. A stopped or hidden page has neither. */
  predicate Owned(t: Transport) {
    && t.open == Only(t.es)
    && t.flying == t.waiting * Only(t.pending)
    && (t.pending.Some? ==> t.pending.value in t.waiting || t.pending.value in t.finishing)
    && t.waiting !! t.finishing
    && (forall id | id in t.open :: id < t.made)
    && (forall id | id in t.waiting :: id < t.made)
    && (forall id | id in t.finishing :: id < t.made)
    && (t.stopped || t.hidden ==> t.es.None? && t.pending.None?)
    && (t.es.None? ==> !t.healthy)
  }

  lemma PauseKeeps(t: Transport)
    requires Owned(t.(stopped := false, hidden := false))
    ensures Owned(Pause(t)) && Pause(t).open == {} && Pause(t).flying == {}
  {
  }

  lemma TickKeeps(t: Transport, now: real)
    requires Owned(t)
    ensures Owned(Tick(t, now))
  {
    hide Owned;
    if !(t.stopped || t.hidden) {
      WatchKeeps(t, now);
      ReopenKeeps(Watch(t, now), now);
      RefreshKeeps(Reopen(Watch(t, now), now), false);
    }
  }

  lemma WatchKeeps(t: Transport, now: real)
    requires Owned(t)
    ensures Owned(Watch(t, now))
  {
  }

  lemma ReopenKeeps(t: Transport, now: real)
    requires Owned(t) && !t.stopped && !t.hidden
    ensures Owned(Reopen(t, now))
  {
  }

  lemma RefreshKeeps(t: Transport, replace: bool)
    requires Owned(t)
    ensures Owned(Refresh(t, replace))
  {
  }

  lemma ResumeKeeps(t: Transport, now: real)
    requires Owned(t.(hidden := false))
    ensures !t.stopped ==> Owned(Resume(t, now))
  {
    if !t.stopped {
      PauseKeeps(t);
      TickKeeps(Pause(t).(retryDelay := FIRST_RETRY, nextConnect := 0.0, nextPoll := 0.0), now);
    }
  }

  lemma StreamKeeps(t: Transport, a: Action, now: real)
    requires Owned(t) && (a.StreamSays? || a.StreamPings? || a.StreamReacts? || a.StreamFails?)
    ensures Owned(Act(t, a, now))
  {
  }

  lemma AnswerKeeps(t: Transport, id: nat, answer: Answer)
    requires Owned(t) && id in t.waiting
    ensures Owned(Respond(t, id, answer))
  {
  }

  lemma FinishKeeps(t: Transport, id: nat, now: real)
    requires Owned(t) && id in t.finishing
    ensures Owned(Finish(t, id, now))
  {
  }

  lemma StepOwned(t: Transport, a: Action, now: real)
    requires Owned(t) && Enabled(t, a)
    ensures Owned(Act(t, a, now))
  {
    match a {
      case Starts =>
        if t.stopped {
          ResumeKeeps(t.(stopped := false), now);
        }
      case Stops => PauseKeeps(t.(stopped := true));
      case Resumes => ResumeKeeps(t, now);
      case Changes(hidden) =>
        if !t.stopped {
          PauseKeeps(t.(hidden := hidden));
          ResumeKeeps(t.(hidden := hidden), now);
        }
      case ComesOnline => ResumeKeeps(t, now);
      case Ticks => TickKeeps(t, now);
      case Refreshes(replace) => RefreshKeeps(t, replace);
      case Answers(id, answer) => AnswerKeeps(t, id, answer);
      case Finishes(id) => FinishKeeps(t, id, now);
      case _ => StreamKeeps(t, a, now);
    }
  }

  /** In every run of calls, ticks, visibility changes and callbacks. */
  lemma {:induction false} RunOwned(t: Transport, run: seq<Move>)
    requires Owned(t) && Legal(t, run)
    ensures Owned(End(t, run))
    decreases run
  {
    hide Owned, Act, Enabled;
    if run != [] {
      StepOwned(t, run[0].action, run[0].at);
      RunOwned(Act(t, run[0].action, run[0].at), run[1..]);
    }
  }

  /** However a fresh connection is used: at most one stream is open, the connection's own; at most one request is
      under way, the one whose answer is awaited; a stopped or hidden page has neither. */
  lemma OneStreamOneRequest(run: seq<Move>)
    requires Legal(UNSTARTED, run)
    ensures var t := End(UNSTARTED, run);
            && t.open == Only(t.es) && t.flying <= Only(t.pending)
            && (t.stopped || t.hidden ==> t.open == {} && t.flying == {})
  {
    hide Legal, End;
    RunOwned(UNSTARTED, run);
  }

  // ---------- publication ----------

  predicate Owner(t: Transport, s: Source) {
    match s
    case ByStream(id) => t.es == Some(id)
    case ByRequest(id) => t.pending == Some(id)
  }

  predicate From(note: Note, s: Source) {
    (note.Show? || note.Float?) && note.source == s
  }

  /** The note is one the action may lead to: a state or a reaction only from its owner and just as it arrived, the
      loss of the room only from the request that is awaited. */
  predicate Due(t: Transport, a: Action, note: Note) {
    match note
    case Show(ByStream(id), st) => Owner(t, ByStream(id)) && a == StreamSays(id, Some(st))
    case Show(ByRequest(id), st) => Owner(t, ByRequest(id)) && a == Answers(id, Got(st))
    case Float(s, reaction) => s.ByStream? && Owner(t, s) && a == StreamReacts(s.id, Some(reaction))
    case Live(on) => on ==> (a.StreamSays? || a.StreamPings?) && Owner(t, ByStream(a.id))
    case Missing => a.Answers? && a.answer.NotFound? && Owner(t, ByRequest(a.id))
  }

  ghost predicate Since(before: seq<Note>, after: seq<Note>, p: Note -> bool) {
    before <= after && forall i | |before| <= i < |after| :: p(after[i])
  }

  lemma TickTells(t: Transport, now: real)
    ensures Tick(t, now).notes == t.notes + if !t.stopped && !t.hidden && Dead(t, now) then [Live(false)] else []
  {
  }

  lemma ResumeTells(t: Transport, now: real)
    ensures Resume(t, now).notes == t.notes + if t.stopped then [] else [Live(false)]
  {
    if !t.stopped {
      TickTells(Pause(t).(retryDelay := FIRST_RETRY, nextConnect := 0.0, nextPoll := 0.0), now);
    }
  }

  lemma StreamPublishes(t: Transport, a: Action, now: real)
    requires a.StreamSays? || a.StreamPings? || a.StreamReacts? || a.StreamFails?
    ensures Since(t.notes, Act(t, a, now).notes, note => Due(t, a, note))
  {
  }

  lemma AnswerPublishes(t: Transport, id: nat, answer: Answer, now: real)
    ensures Since(t.notes, Respond(t, id, answer).notes, note => Due(t, Answers(id, answer), note))
  {
  }

  /** Only the owners publish, and they publish what they were sent. */
  lemma OnlyOwnersPublish(t: Transport, a: Action, now: real)
    ensures Since(t.notes, Act(t, a, now).notes, note => Due(t, a, note))
  {
    hide Tick, Resume, Owned;
    match a {
      case Starts => ResumeTells(t.(stopped := false), now);
      case Resumes => ResumeTells(t, now);
      case Changes(hidden) => ResumeTells(t.(hidden := hidden), now);
      case ComesOnline => ResumeTells(t, now);
      case Ticks => TickTells(t, now);
      case Stops =>
      case Refreshes(_) =>
      case Answers(id, answer) => AnswerPublishes(t, id, answer, now);
      case Finishes(_) =>
      case _ => StreamPublishes(t, a, now);
    }
  }

  predicate Superseded(t: Transport, s: Source) {
    s.id < t.made && !Owner(t, s)
  }

  lemma TickSuperseded(t: Transport, now: real, s: Source)
    requires Superseded(t, s)
    ensures Superseded(Tick(t, now), s)
  {
  }

  lemma ResumeSuperseded(t: Transport, now: real, s: Source)
    requires Superseded(t, s)
    ensures Superseded(Resume(t, now), s)
  {
    hide Tick;
    if !t.stopped {
      TickSuperseded(Pause(t).(retryDelay := FIRST_RETRY, nextConnect := 0.0, nextPoll := 0.0), now, s);
    }
  }

  /** What has been replaced or closed never becomes the owner again: numbers are never used twice. */
  lemma StepSuperseded(t: Transport, a: Action, now: real, s: Source)
    requires Superseded(t, s)
    ensures Superseded(Act(t, a, now), s)
  {
    hide Tick, Resume;
    match a {
      case Starts => ResumeSuperseded(t.(stopped := false), now, s);
      case Resumes => ResumeSuperseded(t, now, s);
      case Changes(hidden) => ResumeSuperseded(t.(hidden := hidden), now, s);
      case ComesOnline => ResumeSuperseded(t, now, s);
      case Ticks => TickSuperseded(t, now, s);
      case _ =>
    }
  }

  lemma SinceThen(a: seq<Note>, b: seq<Note>, c: seq<Note>, p: Note -> bool, q: Note -> bool, r: Note -> bool)
    requires Since(a, b, p) && Since(b, c, q) && forall note :: p(note) || q(note) ==> r(note)
    ensures Since(a, c, r)
  {
    assert c[..|b|] == b;
    forall i | |a| <= i < |c| ensures r(c[i]) {
      assert i < |b| ==> c[i] == b[i];
    }
  }

  /** A superseded stream or request never publishes again, whatever it calls back with and whatever happens. */
  lemma {:induction false} SupersededStaysSilent(t: Transport, run: seq<Move>, s: Source)
    requires Owned(t) && Legal(t, run) && Superseded(t, s)
    ensures Since(t.notes, End(t, run).notes, note => !From(note, s))
    decreases run
  {
    hide Owned, Act, Enabled, Since;
    if run == [] {
      NothingSince(t.notes, note => !From(note, s));
    } else {
      var a, now := run[0].action, run[0].at;
      var t1 := Act(t, a, now);
      StepOwned(t, a, now);
      OnlyOwnersPublish(t, a, now);
      StepSuperseded(t, a, now, s);
      SupersededStaysSilent(t1, run[1..], s);
      SinceThen(t.notes, t1.notes, End(t, run).notes, note => Due(t, a, note), note => !From(note, s),
                note => !From(note, s));
    }
  }

  lemma NothingSince(notes: seq<Note>, p: Note -> bool)
    ensures Since(notes, notes, p)
  {
  }

  lemma StepStopped(t: Transport, a: Action, now: real)
    requires Owned(t) && t.stopped && !a.Starts?
    ensures Act(t, a, now).stopped
  {
  }

  /** Once stopped, and until started again, nothing is published, no loss is reported, the page is never told it
      is live, and nothing is open or under way. */
  lemma {:induction false} StoppedStaysSilent(t: Transport, run: seq<Move>)
    requires Owned(t) && Legal(t, run) && t.stopped && forall m | m in run :: !m.action.Starts?
    ensures End(t, run).stopped && End(t, run).open == {} && End(t, run).flying == {}
    ensures Since(t.notes, End(t, run).notes, note => note == Live(false))
    decreases run
  {
    if run == [] {
      NothingSince(t.notes, note => note == Live(false));
    } else {
      hide Act, Enabled, Since;
      var a, now := run[0].action, run[0].at;
      var t1 := Act(t, a, now);
      StepOwned(t, a, now);
      OnlyOwnersPublish(t, a, now);
      StepStopped(t, a, now);
      StoppedStaysSilent(t1, run[1..]);
      SinceThen(t.notes, t1.notes, End(t, run).notes, note => Due(t, a, note), note => note == Live(false),
                note => note == Live(false));
    }
  }

  /** A lost room stops the connection, and that it is lost is the last thing the page is told. */
  lemma LostRoomStops(t: Transport, id: nat, now: real)
    requires Owned(t) && id in t.waiting
    ensures var t1 := Act(t, Answers(id, NotFound), now);
            Awaited(t, id) ==>
              t1.stopped && t1.open == {} && t1.flying == {} && t1.notes == t.notes + [Live(false), Missing]
  {
  }

  function Losses(notes: seq<Note>): nat {
    if notes == [] then 0 else Losses(notes[..|notes| - 1]) + if notes[|notes| - 1].Missing? then 1 else 0
  }

  function Starts(run: seq<Move>): nat {
    if run == [] then 0 else (if run[0].action.Starts? then 1 else 0) + Starts(run[1..])
  }

  function Running(t: Transport): nat {
    if t.stopped then 0 else 1
  }

  lemma {:induction false} LossesAppend(a: seq<Note>, b: seq<Note>)
    ensures Losses(a + b) == Losses(a) + Losses(b)
  {
    if b == [] {
      assert a + b == a;
    } else {
      var k := |b| - 1;
      assert (a + b)[..|a + b| - 1] == a + b[..k];
      LossesAppend(a, b[..k]);
    }
  }

  lemma {:induction false} NoLosses(notes: seq<Note>)
    requires Missing !in notes
    ensures Losses(notes) == 0
  {
    if notes != [] {
      NoLosses(notes[..|notes| - 1]);
    }
  }

  lemma StepRunning(t: Transport, a: Action, now: real)
    requires Owned(t)
    ensures Running(Act(t, a, now)) <= Running(t) + if a.Starts? then 1 else 0
  {
  }

  /** Being started is spent when a loss is reported. */
  lemma StepLosses(t: Transport, a: Action, now: real)
    requires Owned(t) && Enabled(t, a)
    ensures var t1 := Act(t, a, now);
            Losses(t1.notes) + Running(t1) <= Losses(t.notes) + Running(t) + if a.Starts? then 1 else 0
  {
    hide Owned, Act;
    var t1 := Act(t, a, now);
    if a.Answers? && a.answer.NotFound? && Awaited(t, a.id) {
      LostRoomStops(t, a.id, now);
      LossesAppend(t.notes, [Live(false), Missing]);
      assert [Live(false), Missing][..1] == [Live(false)];
    } else {
      OnlyOwnersPublish(t, a, now);
      StepRunning(t, a, now);
      if a.Answers? {
        OwnerWasAwaited(t, a);
      }
      var news := t1.notes[|t.notes|..];
      assert t1.notes == t.notes + news;
      forall note | note in news ensures note != Missing {
        var i :| 0 <= i < |news| && news[i] == note;
        assert note == t1.notes[|t.notes| + i];
      }
      NoLosses(news);
      LossesAppend(t.notes, news);
    }
  }

  lemma OwnerWasAwaited(t: Transport, a: Action)
    requires Owned(t) && a.Answers?
    ensures Owner(t, ByRequest(a.id)) ==> Awaited(t, a.id)
  {
  }

  /** The loss of the room is reported at most once for every time the connection was started. */
  lemma {:induction false} OneLossPerStart(t: Transport, run: seq<Move>)
    requires Owned(t) && Legal(t, run)
    ensures Losses(End(t, run).notes) + Running(End(t, run)) <= Losses(t.notes) + Running(t) + Starts(run)
    decreases run
  {
    hide Owned, Act, Enabled, Losses;
    if run != [] {
      var a, now := run[0].action, run[0].at;
      StepOwned(t, a, now);
      StepLosses(t, a, now);
      OneLossPerStart(Act(t, a, now), run[1..]);
    }
  }
}
