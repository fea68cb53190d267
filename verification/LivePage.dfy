/** The page between the room's stream and its connection: what arrives is shown, and so the page shows the room. */
module LivePage {
  import opened Wire
  import opened RoomModel
  import opened LiveOwnership
  import opened LiveDuties
  import opened LiveFreshness
  import opened Hub
  import Live = LiveModel
  import Stream

  /** The current stream or the awaited request delivers a state. */
  predicate Delivers(t: Live.Transport, a: Live.Action, st: State) {
    match a
    case StreamSays(id, said) => IsCurrent(t, id) && said == Some(st)
    case Answers(id, answer) => !t.stopped && t.pending == Some(id) && answer == Live.Got(st)
    case _ => false
  }

  lemma {:induction false} DisplaySplit(before: Option<State>, notes: seq<Live.Note>, more: seq<Live.Note>)
    ensures Display(before, notes + more) == Display(Display(before, notes), more)
  {
    if more == [] {
      assert notes + more == notes;
    } else {
      assert (notes + more)[..|notes + more| - 1] == notes + more[..|more| - 1];
      DisplaySplit(before, notes, more[..|more| - 1]);
    }
  }

  lemma NoShow(t: Live.Transport, a: Live.Action, now: real)
    requires forall st :: !Delivers(t, a, st)
    ensures forall note | note in Tidings(t, a, now) :: !note.Show?
  {
    match a {
      case StreamSays(_, Some(st)) => assert !Delivers(t, a, st);
      case Answers(_, Got(st)) => assert !Delivers(t, a, st);
      case _ =>
    }
  }

  lemma {:induction false} NothingShown(before: Option<State>, notes: seq<Live.Note>)
    requires forall note | note in notes :: !note.Show?
    ensures Display(before, notes) == before
  {
    if notes != [] {
      NothingShown(before, notes[..|notes| - 1]);
      assert notes[|notes| - 1] in notes;
    }
  }

  function SourceOf(a: Live.Action): Live.Source
    requires a.StreamSays? || a.Answers?
  {
    if a.StreamSays? then Live.ByStream(a.id) else Live.ByRequest(a.id)
  }

  /** What the page shows after one more state. */
  function Shown(before: Option<State>, st: State): State {
    if before.None? then st else Stream.Newer(before.value, st)
  }

  lemma OneMoreShown(before: Option<State>, notes: seq<Live.Note>, told: seq<Live.Note>, source: Live.Source, st: State)
    requires forall note | note in told :: !note.Show?
    ensures Display(before, notes + told + [Live.Show(source, st)]) == Some(Shown(Display(before, notes), st))
  {
    DisplaySplit(before, notes, told);
    NothingShown(Display(before, notes), told);
    assert (notes + told + [Live.Show(source, st)])[..|notes + told|] == notes + told;
  }

  lemma DeliveryIsTold(t: Live.Transport, a: Live.Action, now: real, st: State)
    requires Owned(t) && Live.Enabled(t, a) && Delivers(t, a, st)
    ensures Live.Act(t, a, now).notes
         == t.notes + (if a.StreamSays? then [Live.Note.Live(true)] else []) + [Live.Show(SourceOf(a), st)]
  {
    hide Live.Act, Owned, StreamExplained, BackoffExplained, PollsExplained;
    EveryStepIsExplained(t, a, now);
  }

  /** Whatever the current stream or the awaited request delivers is on the page at once, unless what is there is as
      new; and it is the last thing the page is told. */
  lemma ArrivalsAreShown(before: Option<State>, t: Live.Transport, a: Live.Action, now: real, st: State)
    requires Owned(t) && Live.Enabled(t, a) && Delivers(t, a, st)
    ensures var notes := Live.Act(t, a, now).notes;
            && t.notes < notes && notes[|notes| - 1] == Live.Show(SourceOf(a), st)
            && Display(before, notes) == Some(Shown(Display(before, t.notes), st))
            && ShowsAtLeast(before, notes, st.revision)
  {
    hide Live.Act, Owned, Display;
    var told := if a.StreamSays? then [Live.Note.Live(true)] else [];
    DeliveryIsTold(t, a, now, st);
    OneMoreShown(before, t.notes, told, SourceOf(a), st);
  }

  /** Nothing else changes what the page shows. */
  lemma OnlyArrivalsAreShown(before: Option<State>, t: Live.Transport, a: Live.Action, now: real)
    requires Owned(t) && Live.Enabled(t, a) && forall st :: !Delivers(t, a, st)
    ensures Display(before, Live.Act(t, a, now).notes) == Display(before, t.notes)
  {
    hide Live.Act, Owned, StreamExplained, BackoffExplained, PollsExplained;
    EveryStepIsExplained(t, a, now);
    var news := Tidings(t, a, now);
    NoShow(t, a, now);
    DisplaySplit(before, t.notes, news);
    NothingShown(Display(before, t.notes), news);
  }

  // ---------- the connection at the end of the room's stream ----------

  /** What happens to the room, its stream and its replies; what happens at the page that brings no state; a frame that
      reaches the current stream; and a reply that reaches the awaited request. */
  datatype Event =
    | Away(action: Stream.Action)
    | Here(call: Live.Action)
    | FrameComes
    | ReplyComes(state: State)

  datatype Scene = Scene(world: Stream.World, page: Live.Transport)

  /** What the connection makes of a frame. */
  function Heard(id: nat, frame: Stream.Frame): Live.Action {
    match frame
    case StateFrame(_, _, st) => Live.StreamSays(id, Some(st))
    case ReactionFrame(_, reaction) => Live.StreamReacts(id, Some(reaction))
    case Ping => Live.StreamPings(id)
  }

  ghost predicate Possible(cfg: Config, cap: nat, s: Scene, e: Event) {
    match e
    case Away(a) => !a.FrameArrives? && !a.ReplyArrives? && Stream.Enabled(cfg, cap, s.world, a)
    case Here(a) => Live.Enabled(s.page, a) && forall st :: !Delivers(s.page, a, st)
    case FrameComes => Stream.Enabled(cfg, cap, s.world, Stream.FrameArrives) && !s.page.stopped && s.page.es.Some?
    case ReplyComes(st) =>
      && Stream.Enabled(cfg, cap, s.world, Stream.ReplyArrives(st))
      && !s.page.stopped && s.page.pending.Some? && s.page.pending.value in s.page.waiting
  }

  ghost function Next(cfg: Config, cap: nat, s: Scene, e: Event, now: real): Scene
    requires Possible(cfg, cap, s, e)
  {
    match e
    case Away(a) => s.(world := Stream.Act(cfg, cap, s.world, a))
    case Here(a) => s.(page := Live.Act(s.page, a, now))
    case FrameComes =>
      Scene(Stream.Act(cfg, cap, s.world, Stream.FrameArrives),
            Live.Act(s.page, Heard(s.page.es.value, s.world.wire[0]), now))
    case ReplyComes(st) =>
      Scene(Stream.Act(cfg, cap, s.world, Stream.ReplyArrives(st)),
            Live.Act(s.page, Live.Answers(s.page.pending.value, Live.Got(st)), now))
  }

  /** The page of the one is the page of the other. */
  ghost predicate InStep(before: Option<State>, s: Scene) {
    Owned(s.page) && Display(before, s.page.notes) == Some(s.world.page)
  }

  lemma FrameKeepsStep(cfg: Config, cap: nat, before: Option<State>, s: Scene, now: real)
    requires InStep(before, s) && Possible(cfg, cap, s, FrameComes)
    ensures InStep(before, Next(cfg, cap, s, FrameComes, now))
  {
    hide Live.Act, Display, HubInv;
    var id, frame := s.page.es.value, s.world.wire[0];
    StepOwned(s.page, Heard(id, frame), now);
    if frame.StateFrame? {
      ArrivalsAreShown(before, s.page, Heard(id, frame), now, frame.state);
    } else {
      OnlyArrivalsAreShown(before, s.page, Heard(id, frame), now);
    }
  }

  lemma ReplyKeepsStep(cfg: Config, cap: nat, before: Option<State>, s: Scene, st: State, now: real)
    requires InStep(before, s) && Possible(cfg, cap, s, ReplyComes(st))
    ensures InStep(before, Next(cfg, cap, s, ReplyComes(st), now))
  {
    hide Live.Act, Display, HubInv;
    var a := Live.Answers(s.page.pending.value, Live.Got(st));
    StepOwned(s.page, a, now);
    ArrivalsAreShown(before, s.page, a, now, st);
  }

  lemma AwayKeepsStep(cfg: Config, cap: nat, before: Option<State>, s: Scene, a: Stream.Action, now: real)
    requires InStep(before, s) && Possible(cfg, cap, s, Away(a))
    ensures InStep(before, Next(cfg, cap, s, Away(a), now))
  {
    hide Display, HubInv, Owned, Snapshot, Step;
  }

  lemma StepInStep(cfg: Config, cap: nat, first: State, before: Option<State>, s: Scene, e: Event, now: real)
    requires cap >= 1 && Stream.WorldInv(cfg, cap, first, s.world) && InStep(before, s) && Possible(cfg, cap, s, e)
    ensures var s1 := Next(cfg, cap, s, e, now);
            && InStep(before, s1) && Stream.WorldInv(cfg, cap, first, s1.world)
            && s1.world.page.revision >= s.world.page.revision
  {
    hide Stream.WorldInv, Stream.Act, Stream.Enabled, Live.Act, Live.Enabled, Owned, Display;
    match e {
      case Away(a) =>
        Stream.StepInv(cfg, cap, first, s.world, a);
        AwayKeepsStep(cfg, cap, before, s, a, now);
      case Here(a) =>
        StepOwned(s.page, a, now);
        OnlyArrivalsAreShown(before, s.page, a, now);
      case FrameComes =>
        Stream.StepInv(cfg, cap, first, s.world, Stream.FrameArrives);
        FrameKeepsStep(cfg, cap, before, s, now);
      case ReplyComes(st) =>
        Stream.StepInv(cfg, cap, first, s.world, Stream.ReplyArrives(st));
        ReplyKeepsStep(cfg, cap, before, s, st, now);
    }
  }

  datatype Moment = Moment(at: real, event: Event)

  ghost predicate Legal(cfg: Config, cap: nat, s: Scene, run: seq<Moment>)
    decreases run
  {
    run == [] || (Possible(cfg, cap, s, run[0].event)
                  && Legal(cfg, cap, Next(cfg, cap, s, run[0].event, run[0].at), run[1..]))
  }

  ghost function End(cfg: Config, cap: nat, s: Scene, run: seq<Moment>): Scene
    requires Legal(cfg, cap, s, run)
    decreases run
  {
    if run == [] then s else End(cfg, cap, Next(cfg, cap, s, run[0].event, run[0].at), run[1..])
  }

  lemma {:induction false} RunInStep(cfg: Config, cap: nat, first: State, before: Option<State>, s: Scene,
                                     run: seq<Moment>)
    requires cap >= 1 && Stream.WorldInv(cfg, cap, first, s.world) && InStep(before, s) && Legal(cfg, cap, s, run)
    ensures var s1 := End(cfg, cap, s, run);
            && InStep(before, s1) && Stream.WorldInv(cfg, cap, first, s1.world)
            && s1.world.page.revision >= s.world.page.revision
    decreases run
  {
    hide Stream.WorldInv, InStep, Possible, Next;
    if run != [] {
      var s1 := Next(cfg, cap, s, run[0].event, run[0].at);
      StepInStep(cfg, cap, first, before, s, run[0].event, run[0].at);
      RunInStep(cfg, cap, first, before, s1, run[1..]);
    }
  }

  /** The page has loaded the room's state, and its connection is new. */
  ghost function Opened(cfg: Config, h: Hub): Scene {
    Scene(Stream.Loaded(cfg, h), Live.UNSTARTED)
  }

  /** From the room to the page: whatever happens to the room and to the connection, in any interleaving, the
      connection has the page show exactly what reached it, which is a state the room had; and what the page shows
      never goes back. */
  lemma PageShowsTheRoom(cfg: Config, cap: nat, past: Past, run: seq<Moment>, more: seq<Moment>)
    requires Lived(cfg, cap, past) && Legal(cfg, cap, Opened(cfg, Present(cfg, cap, past)), run)
    requires Legal(cfg, cap, End(cfg, cap, Opened(cfg, Present(cfg, cap, past)), run), more)
    ensures var before := Some(Snapshot(cfg, Present(cfg, cap, past).room));
            var s := End(cfg, cap, Opened(cfg, Present(cfg, cap, past)), run);
            var shown := Display(before, s.page.notes);
            && shown == Some(s.world.page)
            && Genuine(First(cfg, past.subject, past.context), s.world.hub.log, shown.value)
            && ShowsAtLeast(before, End(cfg, cap, s, more).page.notes, shown.value.revision)
  {
    hide Possible, Next, Legal, End, Lived, Present, Stream.Enabled, Snapshot, HubInv, Linked, Genuine;
    var h, first := Present(cfg, cap, past), First(cfg, past.subject, past.context);
    var before := Some(Snapshot(cfg, h.room));
    Stream.LoadedInv(cfg, cap, past);
    RunInStep(cfg, cap, first, before, Opened(cfg, h), run);
    RunInStep(cfg, cap, first, before, End(cfg, cap, Opened(cfg, h), run), more);
  }
}
