/** The handler's frames as the browser gets them. */
module EventText {
  import opened Wire
  import opened Stream
  import Sse

  /** The encoder of the payloads, which is not part of this model but writes no line breaks. */
  datatype Encoder = Encoder(state: State -> string, reaction: Reaction -> string)

  ghost predicate WritesOneLine(enc: Encoder) {
    && (forall st :: Sse.OneLine(enc.state(st)))
    && (forall r :: Sse.OneLine(enc.reaction(r)))
  }

  function NameOfChange(change: Change): string {
    match change
    case Joined => "joined"
    case VoteCast => "voted"
    case RoundRevealed => "revealed"
    case RoundStarted => "round_started"
    case Departed => "left"
    case RoundSettled => "settled"
  }

  function NameOf(f: Frame): string {
    match f
    case Ping => "ping"
    case ReactionFrame(_, _) => "reaction"
    case StateFrame(None, _, _) => "state"
    case StateFrame(Some(change), _, _) => NameOfChange(change)
  }

  function PayloadOf(enc: Encoder, f: Frame): string {
    match f
    case Ping => "{}"
    case ReactionFrame(_, reaction) => enc.reaction(reaction)
    case StateFrame(_, _, st) => enc.state(st)
  }

  function Rendered(enc: Encoder, f: Frame): Sse.Frame {
    Sse.Frame(if f.Ping? then 0 else f.id, NameOf(f), PayloadOf(enc, f))
  }

  function RenderedAll(enc: Encoder, frames: seq<Frame>): (rs: seq<Sse.Frame>)
    ensures |rs| == |frames| && forall i | 0 <= i < |frames| :: rs[i] == Rendered(enc, frames[i])
  {
    seq(|frames|, i requires 0 <= i < |frames| => Rendered(enc, frames[i]))
  }

  function Read(enc: Encoder, frames: seq<Frame>): seq<Sse.Message> {
    Sse.ReadAll(Sse.FRESH, Sse.PrintedAll(RenderedAll(enc, frames))).messages
  }

  lemma ChangesAreOneLine(change: Change)
    ensures NameOfChange(change) != "" && Sse.OneLine(NameOfChange(change))
  {
  }

  lemma NamesAreOneLine(f: Frame)
    ensures NameOf(f) != "" && Sse.OneLine(NameOf(f))
  {
    hide NameOfChange;
    if f.StateFrame? && f.name.Some? {
      ChangesAreOneLine(f.name.value);
    }
  }

  lemma FramesArePrintable(enc: Encoder, f: Frame)
    requires WritesOneLine(enc)
    ensures NameOf(f) != "" && Sse.Printable(Rendered(enc, f))
  {
    hide NameOf;
    NamesAreOneLine(f);
  }

  lemma ReadIsDelivered(enc: Encoder, frames: seq<Frame>, i: nat)
    requires WritesOneLine(enc) && i < |frames|
    ensures var rs, msgs := RenderedAll(enc, frames), Read(enc, frames);
            |msgs| == |frames| && msgs[i] == Sse.Delivered(rs[i], Sse.LastId(rs[..i]))
  {
    hide Sse.ReadAll, Sse.OneLine, Sse.Delivered, Sse.LastId;
    var rs := RenderedAll(enc, frames);
    forall r | r in rs ensures Sse.Printable(r) {
      var j :| 0 <= j < |rs| && r == rs[j];
      FramesArePrintable(enc, frames[j]);
    }
    Sse.StreamRoundTrip(rs);
    Sse.EachIsDelivered(rs, i);
  }

  /** Only the first snapshot, of a room where nothing has happened, goes without an ID. */
  lemma HandledHasId(first: State, wakes: seq<Wake>, i: nat)
    requires 0 < i <= |FramesFor(first.revision, wakes)|
    ensures var f := Handled(first, wakes)[i]; f.Ping? || f.id > first.revision
  {
    IdsIncrease(first.revision, wakes);
    assert Handled(first, wakes)[i] == FramesFor(first.revision, wakes)[i - 1];
  }

  /** The browser gets every event the handler sends, under its name, in order and with its ID; a ping leaves the
      ID to resume from as it was. */
  lemma HandledEventsArrive(enc: Encoder, first: State, wakes: seq<Wake>, i: nat)
    requires WritesOneLine(enc) && i < |Handled(first, wakes)|
    ensures var frames := Handled(first, wakes); var f, msgs := frames[i], Read(enc, frames);
            && |msgs| == |frames|
            && msgs[i].name == NameOf(f)
            && (f.StateFrame? ==> msgs[i].data == enc.state(f.state))
            && (f.ReactionFrame? ==> msgs[i].data == enc.reaction(f.reaction))
            && (!f.Ping? ==> Sse.Number(msgs[i].lastEventId) == f.id)
            && (f.Ping? ==> i > 0 && msgs[i].lastEventId == msgs[i - 1].lastEventId)
  {
    hide Read, FramesFor;
    var frames := Handled(first, wakes);
    var f, rs := frames[i], RenderedAll(enc, frames);
    FramesArePrintable(enc, f);
    ReadIsDelivered(enc, frames, i);
    if f.Ping? {
      ReadIsDelivered(enc, frames, i - 1);
      assert rs[..i][..i - 1] == rs[..i - 1];
    } else if f.id > 0 {
      Sse.DecimalReadsBack(f.id);
    } else if i > 0 {
      HandledHasId(first, wakes, i);
    }
  }

  /** The events the page's connection takes a state from. */
  predicate CarriesState(name: string) {
    name == "state" || name == "joined" || name == "left" || name == "voted" || name == "revealed"
    || name == "round_started" || name == "settled"
  }

  /** The page can tell from a frame's name what it carries. */
  lemma NamesTellFramesApart(f: Frame)
    ensures CarriesState(NameOf(f)) <==> f.StateFrame?
    ensures NameOf(f) == "reaction" <==> f.ReactionFrame?
    ensures NameOf(f) == "ping" <==> f.Ping?
  {
    assert "ping"[0] == 'p' && "reaction"[2] == 'a' && "revealed"[2] == 'v' && "round_started"[1] == 'o';
    assert "state"[0] == 's' && "settled"[0] == 's' && "joined"[0] == 'j' && "left"[0] == 'l' && "voted"[0] == 'v';
  }
}
