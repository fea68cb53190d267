/** What the room hands out shares its memory: results and settlements by pointer, the votes of archived rounds by
    slice, and the history by a copy of a buffer that is appended to and shifted in place. */
module Sharing {
  import opened Wire

  /** A stretch of a buffer, as a slice of the program is. */
  datatype Slice<T> = Slice(buf: array<T>, from: nat, len: nat) {
    predicate Fits() {
      from + len <= buf.Length
    }

    function Contents(): seq<T>
      requires Fits()
      reads buf
    {
      buf[from..from + len]
    }

    function Tail(): Slice<T>
      requires len > 0
    {
      Slice(buf, from + 1, len - 1)
    }
  }

  method MakeSlice<T(0)>(capacity: nat) returns (s: Slice<T>)
    ensures s.Fits() && fresh(s.buf) && s.Contents() == []
  {
    var buf := new T[capacity];
    s := Slice(buf, 0, 0);
  }

  /** A copy in a buffer of its own. */
  method Clone<T(0)>(s: Slice<T>) returns (c: Slice<T>)
    requires s.Fits()
    ensures c.Fits() && fresh(c.buf) && c.Contents() == s.Contents()
  {
    var capacity: nat :| s.len <= capacity;
    c := CopyTo(s, capacity);
  }

  method CopyTo<T(0)>(s: Slice<T>, capacity: nat) returns (c: Slice<T>)
    requires s.Fits() && s.len <= capacity
    ensures c.Fits() && fresh(c.buf) && c.buf.Length == capacity && c.from == 0 && c.Contents() == s.Contents()
  {
    var buf := new T[capacity];
    for i := 0 to s.len
      invariant forall j | 0 <= j < i :: buf[j] == s.buf[s.from + j]
      invariant s.Contents() == old(s.Contents())
    {
      buf[i] := s.buf[s.from + i];
    }
    c := Slice(buf, 0, s.len);
    assert c.Contents() == s.Contents();
  }

  /** Appends in place while there is room behind the slice, and to a larger copy otherwise: whoever shares the
      buffer sees the first. */
  method Append<T(0)>(s: Slice<T>, x: T) returns (a: Slice<T>)
    requires s.Fits()
    modifies s.buf
    ensures a.Fits() && a.Contents() == old(s.Contents()) + [x]
    ensures a.buf == s.buf || (fresh(a.buf) && s.Contents() == old(s.Contents()))
  {
    if s.from + s.len < s.buf.Length {
      a := s.(len := s.len + 1);
    } else {
      var capacity: nat :| s.len < capacity;
      a := CopyTo(s, capacity);
      a := a.(len := a.len + 1);
    }
    assert a.buf[a.from..a.from + a.len - 1] == old(s.Contents());
    a.buf[a.from + a.len - 1] := x;
    assert a.Contents() == a.buf[a.from..a.from + a.len - 1] + [x];
  }

  // ---------- what is shared ----------

  type Votes = Slice<RevealedVote>

  class SharedResults {
    var votes: Votes
    var stats: Stats

    constructor (votes: Votes, stats: Stats)
      ensures this.votes == votes && this.stats == stats
    {
      this.votes, this.stats := votes, stats;
    }
  }

  class SharedSettlement {
    var settlement: Settlement

    constructor (settlement: Settlement)
      ensures this.settlement == settlement
    {
      this.settlement := settlement;
    }
  }

  /** An archived round shares the votes of the results it was made of. */
  datatype Entry = Entry(number: nat, subject: string, votes: Votes, stats: Stats, called: string)

  /** A state as it is handed out. */
  datatype SharedState = SharedState(revision: nat, roomId: string, deck: seq<string>, autoReveal: bool,
                                     round: RoundState, results: SharedResults?, history: Slice<Entry>,
                                     settled: SharedSettlement?)

  type Message = EventOf<SharedState>

  /** The votes are in the vault: the set of everything that was ever shared. */
  ghost predicate VotesIn(vault: set<object>, votes: Votes) {
    votes.buf in vault && votes.Fits()
  }

  function VotesRead(ghost vault: set<object>, votes: Votes): seq<RevealedVote>
    requires VotesIn(vault, votes)
    reads vault
  {
    votes.Contents()
  }

  ghost predicate EntriesIn(vault: set<object>, entries: seq<Entry>) {
    forall e | e in entries :: VotesIn(vault, e.votes)
  }

  function EntriesRead(ghost vault: set<object>, entries: seq<Entry>): seq<RoundSummary>
    requires EntriesIn(vault, entries)
    reads vault
  {
    if entries == [] then []
    else
      var k := |entries| - 1;
      var e := entries[k];
      EntriesRead(vault, entries[..k])
      + [RoundSummary(e.number, e.subject, VotesRead(vault, e.votes), e.stats, e.called)]
  }

  ghost predicate ResultsIn(vault: set<object>, results: SharedResults?)
    reads vault
  {
    results != null ==> results in vault && VotesIn(vault, results.votes)
  }

  ghost function ResultsRead(vault: set<object>, results: SharedResults?): Option<Results>
    requires ResultsIn(vault, results)
    reads vault
  {
    if results == null then None else Some(Results(VotesRead(vault, results.votes), results.stats))
  }

  ghost predicate SettlementIn(vault: set<object>, settled: SharedSettlement?) {
    settled != null ==> settled in vault
  }

  ghost function SettlementRead(vault: set<object>, settled: SharedSettlement?): Option<Settlement>
    requires SettlementIn(vault, settled)
    reads vault
  {
    if settled == null then None else Some(settled.settlement)
  }

  /** Everything the state refers to is in the vault. */
  ghost predicate Within(vault: set<object>, s: SharedState)
    reads vault
  {
    && ResultsIn(vault, s.results) && SettlementIn(vault, s.settled)
    && s.history.buf in vault && s.history.Fits() && EntriesIn(vault, s.history.Contents())
  }

  /** What whoever holds the state reads there. */
  ghost function Reading(vault: set<object>, s: SharedState): State
    requires Within(vault, s)
    reads vault
  {
    State(s.revision, s.roomId, s.deck, s.autoReveal, s.round, ResultsRead(vault, s.results),
          EntriesRead(vault, s.history.Contents()), SettlementRead(vault, s.settled))
  }

  ghost predicate Stands(vault: set<object>, s: SharedState, st: State)
    reads vault
  {
    Within(vault, s) && Reading(vault, s) == st
  }

  lemma {:induction false} EntriesStay(vault: set<object>, more: set<object>, entries: seq<Entry>)
    requires vault <= more && EntriesIn(vault, entries)
    ensures EntriesIn(more, entries) && EntriesRead(more, entries) == EntriesRead(vault, entries)
  {
    if entries != [] {
      EntriesStay(vault, more, entries[..|entries| - 1]);
    }
  }

  /** Sharing more changes nothing for what was shared. */
  lemma StandsStill(vault: set<object>, more: set<object>, s: SharedState, st: State)
    requires vault <= more && Stands(vault, s, st)
    ensures Stands(more, s, st)
  {
    EntriesStay(vault, more, s.history.Contents());
  }

  lemma EntriesAppend(vault: set<object>, entries: seq<Entry>, e: Entry)
    requires EntriesIn(vault, entries) && VotesIn(vault, e.votes)
    ensures EntriesIn(vault, entries + [e])
    ensures EntriesRead(vault, entries + [e])
         == EntriesRead(vault, entries)
            + [RoundSummary(e.number, e.subject, VotesRead(vault, e.votes), e.stats, e.called)]
  {
    assert (entries + [e])[..|entries|] == entries;
  }

  lemma {:induction false} EntriesTail(vault: set<object>, entries: seq<Entry>)
    requires EntriesIn(vault, entries) && entries != []
    ensures EntriesIn(vault, entries[1..])
    ensures EntriesRead(vault, entries) != [] && EntriesRead(vault, entries[1..]) == EntriesRead(vault, entries)[1..]
    ensures |EntriesRead(vault, entries)| == |entries|
  {
    var k := |entries| - 1;
    if k > 0 {
      EntriesTail(vault, entries[..k]);
      assert entries[1..][..k - 1] == entries[..k][1..];
    }
  }

  // ---------- the room's own ----------

  /** What the room's results, history and settlement read as. */
  datatype Shown = Shown(results: Option<Results>, history: seq<RoundSummary>, settled: Option<Settlement>)

  ghost predicate HoldsVerdict(vault: set<object>, results: SharedResults?, settled: SharedSettlement?,
                               seen: Option<Results>, verdict: Option<Settlement>)
    reads vault
  {
    && ResultsIn(vault, results) && ResultsRead(vault, results) == seen
    && SettlementIn(vault, settled) && SettlementRead(vault, settled) == verdict
  }

  ghost predicate HoldsHistory(vault: set<object>, history: Slice<Entry>, past: seq<RoundSummary>)
    reads vault, history.buf
  {
    history.Fits() && EntriesIn(vault, history.Contents()) && EntriesRead(vault, history.Contents()) == past
  }

  ghost predicate Holds(vault: set<object>, results: SharedResults?, history: Slice<Entry>,
                        settled: SharedSettlement?, shown: Shown)
    reads vault, history.buf
  {
    HoldsVerdict(vault, results, settled, shown.results, shown.settled) && HoldsHistory(vault, history, shown.history)
  }

  lemma Revealing(vault: set<object>, before: SharedResults?, settled: SharedSettlement?, seen: Option<Results>,
                  verdict: Option<Settlement>, results: SharedResults?)
    requires HoldsVerdict(vault, before, settled, seen, verdict) && ResultsIn(vault, results)
    ensures HoldsVerdict(vault, results, settled, ResultsRead(vault, results), verdict)
  {
  }

  lemma Settling(vault: set<object>, results: SharedResults?, before: SharedSettlement?, seen: Option<Results>,
                 verdict: Option<Settlement>, settled: SharedSettlement?)
    requires HoldsVerdict(vault, results, before, seen, verdict) && SettlementIn(vault, settled)
    ensures HoldsVerdict(vault, results, settled, seen, SettlementRead(vault, settled))
  {
  }

  lemma Archiving(vault: set<object>, results: SharedResults?, settled: SharedSettlement?, seen: Option<Results>,
                  verdict: Option<Settlement>)
    requires HoldsVerdict(vault, results, settled, seen, verdict) && seen.Some?
    ensures results != null && VotesIn(vault, results.votes)
    ensures seen.value == Results(VotesRead(vault, results.votes), results.stats)
    ensures settled != null <==> verdict.Some?
    ensures settled != null ==> settled.settlement == verdict.value
  {
  }

  lemma HoldsEntries(vault: set<object>, history: Slice<Entry>, past: seq<RoundSummary>)
    requires HoldsHistory(vault, history, past)
    ensures history.Fits() && EntriesIn(vault, history.Contents()) && EntriesRead(vault, history.Contents()) == past
  {
  }

  /** Appending to the history, and shifting it. */
  lemma HoldsLonger(vault: set<object>, entries: seq<Entry>, e: Entry, longer: Slice<Entry>)
    requires EntriesIn(vault, entries) && VotesIn(vault, e.votes)
    requires longer.Fits() && longer.Contents() == entries + [e]
    ensures HoldsHistory(vault, longer,
                         EntriesRead(vault, entries)
                         + [RoundSummary(e.number, e.subject, VotesRead(vault, e.votes), e.stats, e.called)])
  {
    EntriesAppend(vault, entries, e);
  }

  lemma HoldsTail(vault: set<object>, history: Slice<Entry>, past: seq<RoundSummary>)
    requires HoldsHistory(vault, history, past)
    ensures |past| == history.len
    ensures past != [] ==> history.len > 0 && HoldsHistory(vault, history.Tail(), past[1..])
  {
    if history.len > 0 {
      EntriesTail(vault, history.Contents());
      assert history.Tail().Contents() == history.Contents()[1..];
    }
  }

  lemma HoldsStill(vault: set<object>, more: set<object>, results: SharedResults?, history: Slice<Entry>,
                   settled: SharedSettlement?, shown: Shown)
    requires vault <= more && Holds(vault, results, history, settled, shown)
    ensures Holds(more, results, history, settled, shown)
  {
    EntriesStay(vault, more, history.Contents());
  }

  lemma HoldsFits(vault: set<object>, results: SharedResults?, history: Slice<Entry>, settled: SharedSettlement?,
                  shown: Shown)
    requires Holds(vault, results, history, settled, shown)
    ensures history.Fits() && (results != null <==> shown.results.Some?) && (settled != null <==> shown.settled.Some?)
  {
  }

  /** A state with a copy of the history reads as the room's own. */
  lemma CopyStands(vault: set<object>, results: SharedResults?, history: Slice<Entry>, settled: SharedSettlement?,
                   shown: Shown, s: SharedState)
    requires Holds(vault, results, history, settled, shown)
    requires s.history.buf in vault && s.history.Fits() && history.Fits() && s.history.Contents() == history.Contents()
    requires s.settled == settled && (s.results == null || s.results == results)
    ensures Stands(vault, s, State(s.revision, s.roomId, s.deck, s.autoReveal, s.round,
                                   if s.results == null then None else shown.results, shown.history, shown.settled))
  {
  }

  /** What the states handed out read as when they were. */
  type Record = map<SharedState, State>

  ghost predicate Includes(more: Record, record: Record) {
    forall s | s in record :: s in more && more[s] == record[s]
  }

  lemma IncludesAll(most: Record, more: Record, record: Record)
    requires Includes(most, more) && Includes(more, record)
    ensures Includes(most, record)
  {
  }

  /** Everything on record still reads as it did. */
  ghost predicate Standing(vault: set<object>, record: Record)
    reads vault
  {
    forall s | s in record :: Stands(vault, s, record[s])
  }

  lemma StandingStill(vault: set<object>, more: set<object>, record: Record)
    requires vault <= more && Standing(vault, record)
    ensures Standing(more, record)
  {
    hide Stands;
    forall s | s in record ensures Stands(more, s, record[s]) {
      StandsStill(vault, more, s, record[s]);
    }
  }

  lemma StandingMore(vault: set<object>, record: Record, s: SharedState, st: State)
    requires Standing(vault, record) && Stands(vault, s, st)
    ensures Standing(vault, record[s := st]) && Includes(record[s := st], record)
  {
  }

  lemma StandsRevised(vault: set<object>, s: SharedState, st: State, revision: nat)
    requires Stands(vault, s, st)
    ensures Stands(vault, s.(revision := revision), st.(revision := revision))
  {
  }
}
