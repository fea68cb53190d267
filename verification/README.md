# point.vote, verified

point.vote is a planning-poker service: people and agents join a room, vote blind on a deck, and see each other's votes
only when the round is revealed. This project models its room engine, the way a room's events reach long-polling agents
and open pages, the page's connection, the limit on room creation and the arithmetic of the anchoring experiment, and
proves what the service promises about them.

`dafny verify dfyconfig.toml` checks everything.

## How it is built

**The room.** `RoomModel.dfy` gives a call's meaning as one step function, `Step(cfg, room, call)`: the room
afterwards, the reply, and the events it publishes. All that is proved over whole runs is proved of it: the invariant
(`RoomInvariants.dfy`), what each call is refused for, answers and tells, from the room and its arguments alone
(`Calls.dfy`), the room retold from the calls it accepted (`Story.dfy`), blindness as a two-run property
(`Blindness.dfy` for one call, `BlindRuns.dfy` for runs), revisions as version numbers (`Revisions.dfy`), the round
log that the history ring is a window of (`RoundLog.dfy`), and the two waiting tallies (`Waiting.dfy`). `Room.dfy` is
the room as the program has it, an object with a map of participants, a history appended to and shifted in place in a
buffer, results and settlements that are shared by reference, and a set of subscriber channels; each of its methods is
proved to answer, change and publish exactly what `Step` says (`Does`), with maps visited in any order (`People.dfy`),
and to leave everything handed out before reading as it did (`PublishedStand`). `Sharing.dfy` has the slices and
shared objects, and what a state that refers to them reads as; `RoomRuns.dfy` takes the object through a whole life of
calls, with subscribers coming and going in between. Statistics and awards (`Stats.dfy`, `Awards.dfy`) have their
loops as methods, proved equal to functions, and lemmas saying what those functions mean.

**Delivery.** `Delivery.dfy` is one subscriber's bounded queue as a machine of small steps: the consumer may take an
event between any two steps of the producer's offer, drain and send. `Channel.dfy` is the channel as an object that
moves in step with it, and is what `Room.Fanout` sends on. `Hub.dfy` puts a room and one subscription together; on it
stand the long poll (`LongPoll.dfy`) and the stream, the connection, REST replies in any order and the page's revision
filter (`Stream.dfy`), and blindness at a subscriber's queue (`BlindDelivery.dfy`). `Sse.dfy` is the stream as text,
printed and parsed back, and `EventText.dfy` ties the two.

**The page's connection.** `LiveModel.dfy` gives each call and callback of the connection as a function on its fields,
together with the streams and requests the browser holds for it. `LiveOwnership.dfy` proves who may publish,
`LiveDuties.dfy` exactly what the page is told and what each field changes for, with the pace of streams and requests
that follows, `LiveStaleness.dfy` how far apart requests settle and how silent a stream can be, `LiveFreshness.dfy`,
with the room's revisions and the page's filter, how far behind the room the page can be, and `LivePage.dfy`, with the
stream, that what reaches the page is shown. `LiveTransport.dfy` is the object itself, with the streams it opens and
the requests it makes as objects; its methods keep ownership (`Valid`) and carry all of those guarantees (`Performs`).

**The rest.** `RateLimit.dfy` is the token bucket; `Regression.dfy` and `Bootstrap.dfy` are the experiment's slope and
confidence interval, and `Resampling.dfy` what the samples behind it are made of. `Sorting.dfy` says what the standard
library's sorts are relied on for; `Wire.dfy` holds the published values.

Numbers that the program keeps as floating point are reals here, and `strconv.ParseFloat`, restricted to finite
results, is a partial function `parse` that nothing is assumed about. The queue's size (16 in the program), the
history's length (20) and the number of samples (10000) are parameters; the first and the last are at least one. A new
participant's ID and token come with the call; the ID is any that is not in use, and the token differs from those in
use (`Mintable`).

## Model

| member | source | states |
|---|---|---|
| `RoomInvariants.NewRoomInv` | internal/room/room.go:182-202 | a new room satisfies the room's invariant |
| `RoomInvariants.StepInv` | internal/room/room.go:215-589 | every call keeps it: distinct IDs, tokens and join numbers; while voting, every ballot is a present voter's and no reveal is overdue; results exist exactly when revealed; only a revealed round is settled; ballots are in the deck |
| `RoomInvariants.RunInv` | internal/room/room.go:215-589 | so does every run of calls |
| `RoomInvariants.RevealedExactlyWhen` | internal/room/room.go:271-429 | a voting round is revealed if and only if a known participant asks for it, or, with auto-reveal, an accepted vote or departure leaves at least one voter and all of them with a ballot in |
| `RoomInvariants.StillWaiting` | internal/room/room.go:298-319 | between calls, in every run, an auto-reveal room still voting has no voter, or one who has not voted |
| `RoomInvariants.RevealIsFinal` | internal/room/room.go:322-403 | nothing changes a revealed round but the start of the next, which is empty and one higher |
| `Calls.RefusedExactlyWhen` | internal/room/room.go:215-500 | a call is refused if and only if something is wrong with it, which the room and the arguments alone say, and for what the program looks for first; a refusal changes nothing but the time of last use, and tells nobody |
| `Calls.VoteCountsExactlyWhen` | internal/room/room.go:271-304 | a vote is taken if and only if its rationale is at most 500 characters, the room is open and voting, the value is in the deck, and someone with that token is not an observer |
| `Calls.AcceptedCallsAnswer` | internal/room/room.go:215-508 | an accepted call answers with the newcomer's ID and token, the caller's kind, or the state it brought about, and with the revealed state exactly when it leads to a reveal |
| `Calls.AcceptedCallsAreTold` | internal/room/room.go:215-606 | an accepted call publishes one event that says what happened and shows the room as it then is, or the reaction with its sender's name and kind; a second event follows exactly when a vote or departure leads to a reveal, and the first shows the same room still voting |
| `Calls.JoinAdmits` | internal/room/room.go:215-252 | the newcomer is listed last, under the name and kind asked for and, while voting, without a vote, and the token handed out is theirs alone |
| `Calls.BallotInTurn` | internal/room/room.go:328-336 | whoever has a ballot is shown with its value and rationale, right after those who joined before and have one |
| `Calls.SettlingRecords` | internal/room/room.go:467-500 | an accepted settlement has the value asked for, the caller's name and the time, and the awards of the kept rounds, oldest first, followed by the revealed one |
| `Calls.SettlementIsJudgedByTheRoundsShown` | internal/room/room.go:485-497 | so the accuracy awards name the nearest and furthest of the oldest kept round, the Diplomat those who moved from there to the revealed votes, and the biased those at the extremes of the nets over everything kept and revealed |
| `Story.RoomFitsTheTale` | internal/room/room.go:182-500 | in every run the room is what the calls it accepted tell: who came and stayed and when each last reacted, the topic, what the round was last settled on, by whom and when, and what each past round was called |
| `Story.StateTellsTheTale` | internal/room/room.go:513-539 | and the state published shows that tale, with as many events as its revision, the room's set-up, the ballots cast, and a tick at exactly those who have one |
| `Story.ReactionsAreSpaced` | internal/room/room.go:435-459 | in every run, any two reactions of someone who stays are at least a second apart |
| `Story.TooFastMeansJustNow` | internal/room/room.go:453-455 | and whoever is told to slow down has reacted within the last second |
| `Blindness.SameSnapshots` | internal/room/room.go:510-539 | rooms that differ only in what ballots say, while voting, have one snapshot |
| `Blindness.StepAgrees` | internal/room/room.go:271-500 | one call on two such rooms gives the same reply and events, and a difference survives only in ballots nobody has replaced, withdrawn or been shown |
| `BlindRuns.VotesAreBlind` | internal/room/room.go:271-304 | blindness over runs: make the same calls in two rooms, values and rationales of valid ballots differing at will; until the reveal every reply, event and snapshot is the same, the reveal comes with the same call, and even that differs only in the values, rationales and statistics it reveals |
| `BlindDelivery.QueuesAreBlind` | internal/room/room.go:601-625 | blindness at a subscriber: under one interleaving of calls, deliveries, takings, cancellations and new subscriptions, until the reveal its queue and all its consumer took are the same whatever valid ballots say |
| `BlindRuns.WithdrawnBallotsLeaveNoTrace` | internal/room/room.go:405-429 | runs that differ only in ballots re-voted, or whose caster leaves, before the reveal give the same replies, events and snapshots for ever, and the same room whenever it is revealed: results, history and awards |
| `Revisions.LogIsFaithful` | internal/room/room.go:591-606 | events are numbered one by one from 1, each state carries its event's number, and the newest state's content is the room's |
| `Revisions.PublishedIsVersion` | internal/room/room.go:513-539 | every snapshot or pushed state of a run is the version its revision names |
| `Revisions.RevisionIsFaithful` | internal/room/room.go:513-539 | two published states of a room with equal revisions are equal |
| `Revisions.RevisionNeverGoesBack` | internal/room/room.go:601-606 | whatever is read or pushed first, what is read later has no smaller revision and what is pushed later a larger one, within a call's pushes and across calls |
| `Revisions.RepliesArePublished` | internal/room/room.go:339-500 | the states in replies are published ones |
| `RoundLog.HistoryIsTheRecord` | internal/room/room.go:322-403 | in every run a round's votes precede its one reveal, whose results are in join order, and its settlements follow it; the history is the last `historyLen` rounds of the record an observer could keep of all events, each with its revealed results and the value it was last settled on |
| `RoundLog.HistoryIsConsecutive` | internal/room/room.go:389-392 | the history holds min(number - 1, historyLen) rounds, numbered consecutively up to the one before the current |
| `RoundLog.LastWriteWins` | internal/room/room.go:268-304 | after any run the ballots held are exactly those each ID cast last in this round and has not withdrawn |
| `RoundLog.RevealShowsTheBallotsHeld` | internal/room/room.go:322-336 | a reveal shows the ballots held, one for each, in join order, with their statistics |
| `RoundLog.OneBallotEach` | internal/room/room.go:328-336 | in an orderly room no ballot is shown twice or left out |
| `Waiting.TextStatus` | internal/api/text.go:50-90 | the text rendering's status, from the voters listed and the ticks missing; an empty room has a line of its own |
| `Waiting.PageStatus` | web/app.js:153-167 | the page's status, from the voters listed and the votes cast, or that a vote is being submitted |
| `Waiting.TalliesAgree` | web/app.js:153-167 | in every room a run leads to, voters less votes cast is the number of missing ticks, so the two statuses are one wherever both tally, and an auto-reveal room with voters is waiting for someone |
| `Waiting.StatusesAreTrue` | web/app.js:153-167 | in every room a run leads to, both statuses say that nobody can vote exactly when nobody can, that all votes are in exactly when they are, and otherwise how many of how many voters have no ballot |
| `Waiting.VotersAreCounted` | internal/api/text.go:66-82 | the voters tallied are those listed who do not only watch |
| `Waiting.MissingAreCounted` | internal/api/text.go:66-82 | the missing ticks are those of voters without a vote |
| `Rooms.Room.constructor` | internal/room/room.go:182-202 | a new room, round 1 open, nobody in it, nobody subscribed, nothing published, and a history in a buffer of its own |
| `Rooms.Room.Auth` | internal/room/room.go:255-266 | finds the one participant who holds the token, whatever order the map is visited in |
| `Rooms.Room.AllHaveVoted` | internal/room/room.go:308-320 | true exactly when there is a voter and every voter has a ballot in |
| `Rooms.Room.SortedParticipants` | internal/room/room.go:541-548 | the participants in join order, whatever order the map is visited in |
| `Rooms.Room.BuildResults` | internal/room/room.go:328-336 | a new results object, reading as the ballots in join order with their statistics |
| `Rooms.Room.RevealRound` | internal/room/room.go:322-326 | freezes the results and publishes them |
| `Rooms.Room.TakeSnapshot` | internal/room/room.go:513-539 | a state that shares the room's results and settlement, has the history in a buffer of its own, and reads as the redacted state; nothing handed out before reads otherwise |
| `Rooms.Room.Broadcast` | internal/room/room.go:591-596 | sends every subscriber the state as of the new revision; nothing once closed |
| `Rooms.Room.Fanout` | internal/room/room.go:601-625 | raises the revision by one and delivers the stamped event to every subscriber, whatever their consumers do meanwhile |
| `Rooms.Room.Join` | internal/room/room.go:215-252 | answers, changes the room and publishes exactly as `Step` says, on every path, and keeps the invariant |
| `Rooms.Room.CastVote` | internal/room/room.go:271-304 | as `Step` says, in reply, room and events: each refusal in its order, the vote replaced, and the reveal it completes |
| `Rooms.Room.Reveal` | internal/room/room.go:339-354 | as `Step` says: a known participant reveals a voting round, and gets its state |
| `Rooms.Room.StartRound` | internal/room/room.go:359-403 | as `Step` says: a revealed round is archived, the next opens, and every subscriber is told |
| `Rooms.Room.ArchiveRound` | internal/room/room.go:377-400 | the round goes into the history with the value it was settled on, sharing its votes; the next opens unsettled |
| `Rooms.Room.RememberRound` | internal/room/room.go:389-392 | the entry is appended in place or to a larger copy, and the oldest falls out of a full history, while everything handed out reads as it did |
| `Rooms.Room.Leave` | internal/room/room.go:407-429 | as `Step` says: the participant goes, the ballot only while voting, and the reveal this completes follows |
| `Rooms.Room.React` | internal/room/room.go:435-459 | as `Step` says: at most one reaction per cooldown, sent to every subscriber, with nothing changed but its time and the revision |
| `Rooms.Room.Settle` | internal/room/room.go:467-500 | as `Step` says: a revealed round is settled, or settled again, with awards over the kept rounds and this one |
| `Rooms.Room.GetState` | internal/room/room.go:503-508 | as `Step` says: the redacted state, and nothing changed but the time of last use |
| `Rooms.Room.Subscribe` | internal/room/room.go:557-575 | a live room hands out an empty open channel that misses nothing from now on, a dead one a channel that is already closed |
| `Rooms.Room.Unsubscribe` | internal/room/room.go:567-573 | the channel is forgotten and left as it is; a second time changes nothing |
| `Rooms.Room.Close` | internal/room/room.go:578-589 | every subscribed channel is closed once and forgotten, with what it holds left in it |
| `Rooms.Room.AllStand` | internal/room/room.go:513-539 | the third part of the revision's promise, ensured by every call: whatever was handed out before, in replies or events, reads exactly as it did, although it shares results, votes and settlements with the room |
| `RoomRuns.Live` | internal/room/room.go:182-589 | a whole life: after any calls with freshly minted IDs and tokens, subscribers coming, taking and going in between, the room object is where the step function has it and has published exactly its log; every reply it ever gave, read from memory at the end, is the step function's; and every subscriber there was sent the log since it came |
| `RoomRuns.Perform` | internal/room/room.go:215-589 | any one call moves the object one step, and extends its log by what the step publishes |
| `Sharing.Append` | internal/room/room.go:389-389 | appends in place while the buffer has room, otherwise to a larger copy that nobody shares |
| `Sharing.Clone` | internal/room/room.go:532-532 | the same elements in a buffer nobody shares |
| `Sharing.CopyStands` | internal/room/room.go:519-538 | a state with a copy of the history and the room's own results and settlement reads as the room's |
| `Sharing.StandsStill` | internal/room/room.go:513-539 | sharing more changes nothing about what a state reads as |
| `People.SortingRestoresJoinOrder` | internal/room/room.go:541-548 | sorting the map's entries by join number, however gathered, is the join order |
| `Delivery.StepInv` | internal/room/room.go:601-625 | every step of every interleaving of fan-out, taking, cancelling and closing keeps the queue's invariant |
| `Delivery.LatestStateIsDelivered` | internal/room/room.go:550-625 | in every interleaving no closed channel is sent on or closed again, the queue stays in bounds, what is taken and queued strictly increases, is all that was sent unless something overflowed, and, outside a drain, ends in the newest state sent |
| `Delivery.ProducerNeverBlocks` | internal/room/room.go:598-624 | the producer can always take its next step, so the send after a drain does not block |
| `Delivery.FanoutTerminates` | internal/room/room.go:613-622 | the lock is held for at most `cap + 4 * events` steps of either side |
| `Delivery.NothingIsLostUnlessFull` | internal/room/room.go:608-623 | as long as no event finds the queue full, all that was sent is taken or queued, in order |
| `Delivery.AnOfferAlone` | internal/room/room.go:608-623 | with the consumer idle, an event joins a queue with room; a full queue is left with nothing but the new state, and as it is by a reaction |
| `Delivery.SilenceAfterTheEnd` | internal/room/room.go:567-589 | after cancelling or closing nothing more is sent, and what was can still be taken |
| `Delivery.TheEndIsTold` | internal/room/room.go:578-589 | the room's end closes the channel of every subscriber that has not cancelled |
| `Channels.Channel.constructor` | internal/room/room.go:560-560 | an open, empty channel that is sent everything from here on |
| `Channels.Channel.ConsumerMoves` | internal/api/stream.go:59-62 | the consumer takes some of the queue, in order, at a time of its choosing |
| `Channels.Channel.Drain` | internal/room/room.go:614-621 | empties a full queue, racing the consumer; nothing taken is taken back |
| `Channels.Channel.Deliver` | internal/room/room.go:608-623 | the event is sent or, a reaction on a full queue, dropped; a state is then the newest taken or queued; nothing is lost without an overflow |
| `Channels.Channel.Close` | internal/room/room.go:585-587 | an open channel is closed; what it holds can still be taken |
| `Hub.CalledKeeps` | internal/room/room.go:601-625 | a call keeps the room, its log of events and a subscription in step |
| `Hub.MovedKeeps` | internal/room/room.go:608-623 | so does each step of delivery |
| `Hub.ResubscribedKeeps` | internal/room/room.go:557-575 | and subscribing anew, between any two calls |
| `Hub.PresentIsLinked` | internal/room/room.go:557-625 | whatever a new room and its subscriber go through, the room shows what its log amounts to and the subscriber was sent the log since it last subscribed |
| `LongPoll.WaitForReveal` | internal/room/service.go:187-234 | answers at once for a revealed round or no patience, otherwise with the first decisive wake-up; what it returns after waiting shows a reveal unless the timer fired |
| `LongPoll.NoLostWakeUp` | internal/room/service.go:187-234 | in every interleaving, in every room a new one can become, when a caller is parked and the live room is revealed, its queue holds an event that shows it |
| `LongPoll.OnlyRevealsBeforeTheTimer` | internal/room/service.go:211-233 | in every interleaving, a state returned before the timer fires is a revealed one |
| `LongPoll.EveryAnswerIsTrue` | internal/room/service.go:187-234 | in every interleaving: whoever is told the room is not found, it is closed; a state returned is one the room had, revealed unless the timer fired; and only its caller abandons a wait |
| `LongPoll.WaitEndsExactlyWhen` | internal/room/service.go:211-233 | a parked caller that takes an event showing a reveal is answered with that event's state at once; so is a recheck of a revealed room, and a timer of a live one, with its snapshot; besides only giving up and the room's end end the wait |
| `Stream.HandleEvents` | internal/api/stream.go:35-79 | the first snapshot, then one frame for each event newer than all before, and pings |
| `Stream.IdsIncrease` | internal/api/stream.go:59-76 | whatever arrives in whatever order, the IDs sent are positive and strictly increase |
| `Stream.EachWakeGivesItsFrame` | internal/api/stream.go:46-78 | each heartbeat gives one ping, and each event newer than all before one frame, with its name, ID and payload, in its turn; an older one gives none |
| `Stream.NothingAfterTheEnd` | internal/api/stream.go:46-78 | and nothing is sent once the connection or the channel has ended |
| `Stream.Page.ApplyState` | web/app.js:523-529 | a state is shown only if it is the first or newer; the revision shown never goes back |
| `Stream.StepInv` | internal/api/stream.go:20-79 | every call, delivery step, frame, reply and reconnection keeps the display genuine and its revision from going back |
| `Stream.DisplayIsGenuineAndMonotone` | web/app.js:523-529 | with replies delayed, reordered and repeated at will, overflows and reconnections, the page always shows a state the room had at that revision, and never goes back |
| `Stream.DisplayConverges` | web/app.js:523-529 | in every room a new one can become, once queue and stream are drained the page shows the room's public state, but for revisions raised by reactions |
| `Sse.Writer.WriteSSE` | internal/api/stream.go:83-95 | writes an `id` line for a positive ID, the name, the payload and an empty line |
| `Sse.ReadFrame` | internal/api/stream.go:83-95 | a browser's parser (sections 9.2.5 and 9.2.6 of the WHATWG HTML Standard) reads a printed frame as one message with its name and payload, and the ID replaces the last one if it was positive |
| `Sse.StreamRoundTrip` | internal/api/stream.go:83-95 | for any frames of one-line names and payloads the parser gives back the names and payloads in order, and ends between messages |
| `Sse.LastIdIsTheNewest` | internal/api/stream.go:88-92 | the last event ID is the newest positive one, which pings leave alone |
| `Sse.DecimalReadsBack` | internal/api/stream.go:89-89 | an ID's decimal determines it |
| `EventText.HandledEventsArrive` | internal/api/stream.go:35-95 | each frame of the handler reaches the browser under its name, in order, with its ID; a ping leaves the last ID as it was |
| `EventText.NamesTellFramesApart` | web/live.js:147-156 | the page takes a state from exactly the frames that carry one, and knows reactions and pings by their names |
| `LiveTransport.RoomConnection.constructor` | web/live.js:52-66 | a connection not yet started, which has made no stream and no request |
| `LiveTransport.RoomConnection.OwnedIsValid` | web/live.js:131-195 | of all the stream objects ever opened only `es` can be open, and of all request objects only `pending` can be under way, neither when stopped or hidden |
| `LiveTransport.Guaranteed` | web/live.js:68-195 | every call and callback keeps ownership, tells the page exactly what it is owed, publishes only as owner and only what it was sent, leaves the superseded superseded and the stopped silent, spends a start on each loss, and keeps polling and watching on time |
| `LiveTransport.RoomConnection.Start` | web/live.js:68-75 | started once; a visible page resumes at once; ownership, silence and timeliness are kept |
| `LiveTransport.RoomConnection.Stop` | web/live.js:77-83 | stopped, and paused; ownership, silence and timeliness are kept |
| `LiveTransport.RoomConnection.Pause` | web/live.js:85-90 | the stream object is closed, the request object aborted and no longer awaited, the page told it is not live |
| `LiveTransport.RoomConnection.Resume` | web/live.js:92-99 | unless stopped, everything is paused, the delays are reset and a tick follows; ownership, silence and timeliness are kept |
| `LiveTransport.RoomConnection.Disconnect` | web/live.js:101-105 | the stream object is closed and forgotten, and is not healthy |
| `LiveTransport.RoomConnection.Degrade` | web/live.js:107-112 | disconnected, with the next stream due after the delay and the next poll at once |
| `LiveTransport.RoomConnection.Tick` | web/live.js:114-125 | while running and visible: a dead stream is given up, a missing one reopened when due, a poll made when due and none is awaited; ownership, silence and timeliness are kept |
| `LiveTransport.RoomConnection.Connect` | web/live.js:127-130 | a new stream object is opened and is the connection's own |
| `LiveTransport.RoomConnection.Refresh` | web/live.js:165-171 | nothing while stopped, hidden or, unless told to replace, awaiting; otherwise a new request, and the one before it aborted; ownership, silence and timeliness are kept |
| `LiveTransport.RoomConnection.VisibilityChange` | web/live.js:61-64 | a started connection pauses when hidden and resumes when shown; ownership, silence and timeliness are kept |
| `LiveTransport.RoomConnection.Online` | web/live.js:65-65 | a started and visible connection resumes; ownership, silence and timeliness are kept |
| `LiveTransport.RoomConnection.OnStreamState` | web/live.js:138-146 | only the current stream is heard; it is healthy from then on and its state is shown, or it is given up for sending nonsense; ownership, silence and timeliness are kept |
| `LiveTransport.RoomConnection.OnPing` | web/live.js:150-152 | a ping of the current stream counts only once a state has come; ownership, silence and timeliness are kept |
| `LiveTransport.RoomConnection.OnReaction` | web/live.js:153-156 | only the current stream's reactions are shown; ownership, silence and timeliness are kept |
| `LiveTransport.RoomConnection.OnError` | web/live.js:158-162 | the current stream is given up for the jittered delay, which then doubles up to half a minute; ownership, silence and timeliness are kept |
| `LiveTransport.RoomConnection.OnAnswer` | web/live.js:171-186 | only the awaited request publishes, and its 404 stops the connection; ownership, silence and timeliness are kept |
| `LiveTransport.RoomConnection.OnSettled` | web/live.js:187-193 | the awaited request is awaited no more, and the next poll is due in 15 s, or 2 s when unhealthy; ownership, silence and timeliness are kept |
| `LiveDuties.EveryStepIsExplained` | web/live.js:68-195 | every call and callback tells the page exactly what it is owed, no more and no less, and changes each field for its reasons alone: what becomes of the stream and its health, the delays, and the request |
| `LiveDuties.HealthyMeansShown` | web/live.js:127-152 | in every run the stream counts as healthy exactly when it has shown the page a state |
| `LiveDuties.RetriesBackOff` | web/live.js:158-162 | the delay is a second, doubled at each failure in a row, up to half a minute |
| `LiveDuties.FailuresAreWaitedOut` | web/live.js:107-125 | after a failure no stream is open for at least half of that delay, unless the connection restarts |
| `LiveDuties.PollsArePaced` | web/live.js:114-194 | after a request settles there is no other for 15 s, or 2 s without a healthy stream, unless a stream is lost, the connection restarts or the page asks |
| `LiveOwnership.StepOwned` | web/live.js:68-195 | every call and callback keeps ownership |
| `LiveOwnership.OneStreamOneRequest` | web/live.js:68-195 | in every run at most one stream is open and it is `this.es`, at most one request is under way and it is `this.pending`, and a stopped or hidden page has neither |
| `LiveOwnership.OnlyOwnersPublish` | web/live.js:131-195 | a state or reaction reaches the page only from the owning stream or request and just as it arrived; a loss is reported only by the awaited request |
| `LiveOwnership.SupersededStaysSilent` | web/live.js:131-195 | a stream or request that has been replaced, closed or aborted never publishes again, whatever it still calls back with |
| `LiveOwnership.StoppedStaysSilent` | web/live.js:77-90 | once stopped, until started again, nothing is published or reported, the page is never told it is live, and nothing is open or under way |
| `LiveOwnership.LostRoomStops` | web/live.js:176-186 | a 404 for the awaited request stops the connection, and the loss is the last thing reported |
| `LiveOwnership.OneLossPerStart` | web/live.js:176-186 | the loss of the room is reported at most once for every start |
| `LiveStaleness.StepFresh` | web/live.js:107-194 | every timely step keeps the polling and watching bounds |
| `LiveStaleness.StalenessIsBounded` | web/live.js:107-194 | from a resumption on, ticking every second and with requests that settle in 8 s, no two settlements are more than 24 s apart, nor more than 11 s after one that found the stream unhealthy; and no stream is silent for longer than its time and a tick, or missing for longer than 46 s |
| `LiveStaleness.TickKeepsNoDeadStream` | web/live.js:114-125 | a stream a tick keeps was opened less than 5 s ago or was heard from within 35 s |
| `LiveFreshness.RevisionRises` | internal/room/room.go:601-606 | the room's revision, as a function of time, never falls |
| `LiveFreshness.DisplayIsRecent` | web/live.js:107-194 | from 8 s after a visible connection resumes, while it ticks and its requests succeed, the revision the page shows is at least the room's of 32 s ago, or of 19 s ago if the last request to settle found the stream unhealthy, whatever the stream loses |
| `LivePage.ArrivalsAreShown` | web/live.js:138-175 | a state from the current stream or the awaited request is the last thing the page is told, and is on the page at once unless something as new is there |
| `LivePage.OnlyArrivalsAreShown` | web/live.js:68-195 | nothing else changes what the page shows |
| `LivePage.PageShowsTheRoom` | web/live.js:127-195 | from the room to the page: in any interleaving of the room's calls, its stream, its replies and the connection's own doings, what the connection has the page show is what reached it, a state the room had, and never goes back |
| `RateLimit.IpLimiter.constructor` | internal/api/ratelimit.go:26-33 | no buckets, an hour's burst and rate |
| `RateLimit.IpLimiter.Allow` | internal/api/ratelimit.go:35-53 | answers and updates the buckets as the specification's `Serve` |
| `RateLimit.IpLimiter.Prune` | internal/api/ratelimit.go:58-68 | below 10000 buckets nothing; otherwise drops exactly those that would be full, in whatever order the map is visited |
| `RateLimit.PruningIsInvisible` | internal/api/ratelimit.go:55-68 | with a clock that never goes back every call is answered as by a limiter that never prunes |
| `RateLimit.DenialsChangeNothing` | internal/api/ratelimit.go:46-50 | a denied call leaves every later answer as it would have been without it |
| `RateLimit.AtMostBurstAndRate` | internal/api/ratelimit.go:35-53 | in any window from s to t one address is allowed at most burst + rate * (t - s) times, whatever came before and whatever others do |
| `RateLimit.AllowedExactlyWhen` | internal/api/ratelimit.go:35-53 | exactly the bound: a call is allowed if and only if, with it, the grants stay within burst + rate * (t - s) in every window that ends with it and begins with an earlier call or with it alone |
| `RateLimit.AnHourEarnsTheLimit` | internal/api/ratelimit.go:26-33 | an hour earns the hour's limit, and other times in proportion |
| `RateLimit.FirstCallsAreAllowed` | internal/api/ratelimit.go:35-53 | the first calls of an address, as many as the hour's limit, are all allowed |
| `RateLimit.AtMostTwiceInAnHour` | internal/api/ratelimit.go:35-53 | no address is allowed more than twice the limit in any hour |
| `RateLimit.OnlyTheLastHourIsRemembered` | internal/api/ratelimit.go:55-68 | a new address on top of ten thousand leaves only those remembered that have called within the hour, with what they had |
| `RateLimit.NobodyIsForgottenBefore` | internal/api/ratelimit.go:58-61 | and until then nobody is forgotten |
| `RoundStats.ComputeStats` | internal/room/stats.go:18-52 | the loops compute the statistics' specification |
| `RoundStats.CountVotes` | internal/room/stats.go:19-26 | counts by value, and the numbers voted for in order |
| `RoundStats.Summarise` | internal/room/stats.go:28-51 | minimum, maximum, median, mean, spread and consensus of the numbers |
| `RoundStats.FindTop` | internal/room/stats.go:58-73 | the options with the highest count, whatever order the counts are visited in |
| `RoundStats.CountsSumToVotes` | internal/room/stats.go:19-26 | the counts sum to the number of votes |
| `RoundStats.TopIsExactlyTheModes` | internal/room/stats.go:56-73 | top is absent exactly without votes; otherwise it is the non-empty list of exactly the most chosen options, in deck order |
| `RoundStats.NumericStatsAreSound` | internal/room/stats.go:28-51 | the numeric part exists exactly when a number was voted, its bounds are attained and enclose every number, the median and the mean; consensus means some number and all numbers equal |
| `RoundStats.MedianSplitsTheVotes` | internal/room/stats.go:37-47 | at least half of the numbers are no more than the median, and at least half no less |
| `RoundStats.MedianIsMirrored` | internal/room/stats.go:37-47 | mirror what every card is worth in any point and the median is mirrored with it, which of all numbers between the middle two only their midpoint does |
| `RoundStats.CountsAreExact` | internal/room/stats.go:19-26 | an option's count is the number of votes for it, and no other option has one |
| `RoundStats.NumbersAreExact` | internal/room/stats.go:19-26 | each number is there as often as it was voted for |
| `RoundStats.StatsForgetVoteOrder` | internal/room/stats.go:18-73 | any shuffle of the votes has the same statistics |
| `Awards.ComputeAwards` | internal/room/awards.go:23-171 | the loops compute the awards' specification |
| `Awards.AccuracyAwards` | internal/room/awards.go:50-111 | the Oracle's and Saw Something's loops |
| `Awards.DiplomatAward` | internal/room/awards.go:113-133 | the Diplomat's loops |
| `Awards.BiasAwards` | internal/room/awards.go:139-168 | the nets' loops and the two awards made of them |
| `Awards.NamesWithNet` | internal/room/awards.go:173-182 | the names at a net, sorted, whatever order the map is visited in |
| `Awards.OracleNamesTheNearest` | internal/room/awards.go:66-85 | the Oracle exists exactly when a first vote competes, and names exactly the nearest ones, in order |
| `Awards.SawSomethingNamesTheFurthest` | internal/room/awards.go:87-111 | Saw Something exists exactly when two competing first votes are unequally far, and names exactly the furthest |
| `Awards.DiplomatNamesTheMovers` | internal/room/awards.go:113-133 | the Diplomat exists exactly when someone ended on the settled value after starting elsewhere, and names exactly those |
| `Awards.NetsAddUp` | internal/room/awards.go:139-150 | each name's net is the sum of its numeric votes' offsets, and the nets sum to the total offset over all kept rounds |
| `Awards.NamesWithNetAreAlphabetical` | internal/room/awards.go:173-182 | the names are exactly those at the net, each once, sorted |
| `Awards.BiasAwardsAreTheExtremes` | internal/room/awards.go:135-168 | Optimist and Pessimist exist exactly when the settled value is numeric, there are at least two nets, and some net is negative or positive; they name exactly those at the minimum and maximum, and share nobody |
| `Awards.AwardsAreDeserved` | internal/room/awards.go:23-168 | what an award says is so: how near the nearest came and in which round, what the furthest argued for, each value once, and the side of the line; and there are none without rounds or off the deck |
| `Awards.AwardsComeOnceInOrder` | internal/room/awards.go:23-168 | each kind of award comes at most once, in one fixed order |
| `Awards.DistancesAreInCards` | internal/room/awards.go:40-54 | distances are counted in cards of the deck, and the numeric filter is on exactly for a numeric settled value |
| `Regression.OlsSlope` | experiment/analyze/main.go:173-190 | nothing for fewer than two points or a zero denominator, otherwise the quotient of the sums |
| `Regression.Sums` | experiment/analyze/main.go:178-184 | the four running sums |
| `Regression.DenominatorIsZeroExactlyWhen` | experiment/analyze/main.go:185-188 | the denominator is never negative, and zero exactly when all abscissas are equal |
| `Regression.SlopeIsLeastSquares` | experiment/analyze/main.go:173-190 | the slope belongs to a line whose squared error no other line beats |
| `Regression.BestLineIsUnique` | experiment/analyze/main.go:173-190 | it is the only such line: another has the same squared error if and only if it is that line |
| `Regression.SlopeIsRecovered` | experiment/analyze/main.go:173-190 | points on a line give back the line's slope |
| `Bootstrap.Rng.Next` | experiment/analyze/main.go:123-128 | one step of the generator, the product wrapped to 64 bits |
| `Bootstrap.Rng.Intn` | experiment/analyze/main.go:129-129 | a number below n out of the next state |
| `Bootstrap.NeverStuck` | experiment/analyze/main.go:119-129 | after any number of steps the state is zero if and only if it began as zero |
| `Bootstrap.Mean` | experiment/analyze/main.go:85-94 | the mean, or nothing of nothing |
| `Bootstrap.MeanBetween` | experiment/analyze/main.go:85-94 | a mean lies within any bounds on its numbers |
| `Bootstrap.Quantile` | experiment/analyze/main.go:110-116 | the number at the rounded rank, which is always in range |
| `Bootstrap.RankRises` | experiment/analyze/main.go:114-114 | a higher quantile is read off no earlier place |
| `Bootstrap.FindTickets` | experiment/analyze/main.go:135-141 | the eligible tickets, sorted, whatever order the map is visited in |
| `Bootstrap.Sample` | experiment/analyze/main.go:149-155 | as many draws as tickets, and the difference of the pooled means, neither of them over nothing |
| `Bootstrap.ClusterBootstrapCI` | experiment/analyze/main.go:134-159 | the interval is a function of the trials alone |
| `Bootstrap.TicketsAreTheEligible` | experiment/analyze/main.go:135-141 | the tickets are exactly those with trials in both arms, each once, in order |
| `Bootstrap.IntervalIsEnclosed` | experiment/analyze/main.go:134-159 | there is an interval exactly when a ticket is eligible; lower is at most upper, and both lie between the least and greatest difference that bounds on the arms' trials allow |
| `Bootstrap.ConstantArmsLeaveAPoint` | experiment/analyze/main.go:134-159 | arms of equal trials collapse the interval to their difference |
| `Resampling.FirstNumbers` | experiment/analyze/main.go:118-129 | the generator's first two numbers from seed 42, as xorshift64* has them |
| `Resampling.DrawsFollowOneAnother` | experiment/analyze/main.go:145-151 | one generator serves all samples: draw j of sample i is its number k * i + j + 1, modulo the k tickets |
| `Resampling.EffectInItsTurn` | experiment/analyze/main.go:145-156 | effect i is that of the sample drawn after k * i numbers |
| `Resampling.EffectWeighsEveryDraw` | experiment/analyze/main.go:149-155 | an effect is the difference of two means, each the sum of every trial of every draw over their number |
| `Resampling.ShufflingLeavesTheMean` | experiment/analyze/main.go:149-155 | the same tickets drawn in another order have the same means |
| `Resampling.RankIsNearest` | experiment/analyze/main.go:110-116 | the rank is within a half of the quantile's share of the way |
| `Resampling.IntervalLeavesOutItsShare` | experiment/analyze/main.go:157-158 | at most the nearest-rank share of the effects lies below the interval and above it, and its ends are the innermost for which that is so |
| `Resampling.IntervalExistsExactlyWhen` | experiment/analyze/main.go:135-144 | there is an interval exactly when a ticket has trials in both arms, and those are the tickets drawn from |
| `Sorting.SortSorts` | experiment/analyze/main.go:140-157 | sorting arranges the same elements in order |
| `Sorting.SortedIsUnique` | internal/room/awards.go:180-181 | there is one sorted arrangement, so the order of gathering cannot matter |

## Left out

- HTTP routing, JSON, error mapping, logging, static files and the MCP wrappers.
- Drawing the page, toasts, storage and the formatting of tables.
- `internal/room/ids.go`: hashing and randomness; an ID is any not in use, tokens are distinct and compared as such. An ID may recur after its holder has left, as it may in the program.
- `internal/room/memstore.go`, `CreateRoom` and the sweeper: expiry is a `Close` that may come between any two calls.
- Times the program writes but never reads back into an answer (`joinedAt`, `startedAt`, `castAt`, `createdAt`), and `lastActive` beyond recording it.
- Rooms.Room.Join: the name comes trimmed and the kind is one of the three; the name's length is checked, on characters.
- Rooms.Room.StartRound: the limits on subject and context, which refuse a call before it touches the room.
- Rooms.Room.React: the emoji comes normalised and from the fixed set.
- The checks of a new room's deck, subject and context.
- Floating point: rounding, overflow to infinity and NaN, for which the model has reals and absent values. In the program a sum or spread of finite numbers can overflow.
- Rooms.Room.TakeSnapshot: the deck, and the counts, pointers and awards inside statistics and settlements, are values; what is shared by reference is the results, their votes, the settlement and the history's buffer.
- LongPoll.WaitForReveal: the timer, the two-second ticker and the queue are the script of wake-ups it is given; what can wake it when is in the machine `NoLostWakeUp` is about.
- Stream.HandleEvents: likewise for the heartbeat and the channel; a write that fails ends the stream and is not shown.
- Stream.DisplayConverges: speaks of a drained stream and does not promise that one drains; what holds without draining is `LiveFreshness.DisplayIsRecent`.
- Awards.ComputeAwards: the wording of an award is kept as what it is made of.
- Sse.StreamRoundTrip: on characters, without the decoding of UTF-8 or a byte order mark; the `retry` field has no effect on messages.
- EventText.HandledEventsArrive: the JSON encoder is any that writes one line.
- LiveTransport.RoomConnection.Refresh: the promise handed to the caller, and page callbacks that throw.
- LiveFreshness.DisplayIsRecent: a successful request is one answered with a state the room had between the request and the answer; and as for the bounds it rests on, see the next line.
- LivePage.PageShowsTheRoom: which of its streams a frame was sent on is not followed; any frame on its way may reach the current one, which allows more than can happen.
- LiveStaleness.StalenessIsBounded: holds while nothing resumes the connection or replaces a request that has not settled; a request that is replaced again and again can put off the next settlement for as long as that goes on.
- Regression.OlsSlope: `doseSlope`, which calls it per sample, and the report's tables, medians and model comparison are not modelled.
- Bootstrap.ClusterBootstrapCI: `trialBootstrapCI` and `compareModels` use the same pieces and are not modelled.
