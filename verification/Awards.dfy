/** The confetti handed out when a room settles. */
module Awards {
  import opened Wire
  import opened Sorting
  import opened MapSums
  import opened RoundStats

  /** The position of `value` in the deck, or -1. */
  function IndexOf(deck: seq<string>, value: string): (i: int)
    ensures i == -1 <==> value !in deck
    ensures -1 <= i < |deck|
    ensures i >= 0 ==> deck[i] == value && value !in deck[..i]
  {
    if deck == [] then -1
    else if deck[0] == value then 0
    else
      var rest := IndexOf(deck[1..], value);
      if rest < 0 then -1 else rest + 1
  }

  function Abs(n: int): nat {
    if n < 0 then -n else n
  }

  /** What every award is measured against. */
  datatype Scale = Scale(deck: seq<string>, settled: string, parse: Parser) {
    predicate Numeric(value: string) {
      parse(value).Some?
    }

    /** When the settled value is numeric, only numeric votes compete for the accuracy awards. */
    predicate Competes(v: RevealedVote) {
      && (Numeric(settled) ==> Numeric(v.value))
      && IndexOf(deck, v.value) >= 0
    }

    function Offset(v: RevealedVote): int {
      IndexOf(deck, v.value) - IndexOf(deck, settled)
    }

    /** How many cards `v` is from the settled value. */
    function Distance(v: RevealedVote): nat {
      Abs(Offset(v))
    }

    function AsFirst(v: RevealedVote): FirstVote {
      FirstVote(v.name, v.value, Distance(v))
    }

    predicate Counted(v: RevealedVote) {
      Numeric(v.value) && IndexOf(deck, v.value) >= 0
    }
  }

  datatype FirstVote = FirstVote(name: string, value: string, distance: nat)

  function Firsts(sc: Scale, votes: seq<RevealedVote>): seq<FirstVote> {
    if votes == [] then []
    else
      var v := votes[|votes| - 1];
      Firsts(sc, votes[..|votes| - 1])
      + if sc.Competes(v) then [sc.AsFirst(v)] else []
  }

  function Least(fs: seq<FirstVote>): nat
    requires fs != []
  {
    var last := fs[|fs| - 1].distance;
    if |fs| == 1 then last
    else
      var rest := Least(fs[..|fs| - 1]);
      if last < rest then last else rest
  }

  function Greatest(fs: seq<FirstVote>): nat {
    if fs == [] then 0
    else
      var last, rest := fs[|fs| - 1].distance, Greatest(fs[..|fs| - 1]);
      if rest < last then last else rest
  }

  function NamesAt(fs: seq<FirstVote>, d: nat): seq<string> {
    if fs == [] then []
    else
      var f := fs[|fs| - 1];
      NamesAt(fs[..|fs| - 1], d) + if f.distance == d then [f.name] else []
  }

  function ValuesAt(fs: seq<FirstVote>, d: nat): seq<string> {
    if fs == [] then []
    else
      var f, rest := fs[|fs| - 1], ValuesAt(fs[..|fs| - 1], d);
      rest + if f.distance == d && f.value !in rest then [f.value] else []
  }

  function OracleOf(sc: Scale, first: RoundSummary): seq<Award> {
    var fs := Firsts(sc, first.votes);
    if fs == [] then []
    else
      var best := Least(fs);
      [Award(Oracle, NamesAt(fs, best),
             if best > 0 then Landed(first.number, best, sc.settled) else CalledBlind(sc.settled, first.number))]
  }

  function SawSomethingOf(sc: Scale, first: RoundSummary): seq<Award> {
    var fs := Firsts(sc, first.votes);
    if |fs| <= 1 || Greatest(fs) <= Least(fs) then []
    else [Award(SawSomething, NamesAt(fs, Greatest(fs)), Argued(ValuesAt(fs, Greatest(fs))))]
  }

  function StartedElsewhere(votes: seq<RevealedVote>, settled: string): set<string> {
    set i | 0 <= i < |votes| && votes[i].value != settled :: votes[i].name
  }

  function Movers(votes: seq<RevealedVote>, settled: string, elsewhere: set<string>): seq<string> {
    if votes == [] then []
    else
      var v := votes[|votes| - 1];
      Movers(votes[..|votes| - 1], settled, elsewhere)
      + if v.value == settled && v.name in elsewhere then [v.name] else []
  }

  function DiplomatOf(sc: Scale, rounds: seq<RoundSummary>): seq<Award>
    requires rounds != []
  {
    if |rounds| == 1 then []
    else
      var names := Movers(rounds[|rounds| - 1].votes, sc.settled, StartedElsewhere(rounds[0].votes, sc.settled));
      if names == [] then [] else [Award(Diplomat, names, MovedWithGrace)]
  }

  /** The nets after one more round of votes. */
  function AddVotes(sc: Scale, net: map<string, int>, votes: seq<RevealedVote>): map<string, int> {
    if votes == [] then net
    else
      var v, before := votes[|votes| - 1], AddVotes(sc, net, votes[..|votes| - 1]);
      if sc.Counted(v) then before[v.name := (if v.name in before then before[v.name] else 0) + sc.Offset(v)]
      else before
  }

  function Nets(sc: Scale, rounds: seq<RoundSummary>): map<string, int> {
    if rounds == [] then map[]
    else AddVotes(sc, Nets(sc, rounds[..|rounds| - 1]), rounds[|rounds| - 1].votes)
  }

  ghost predicate IsLow(net: map<string, int>, low: int) {
    && low <= 0
    && (forall name | name in net :: low <= net[name])
    && (low == 0 || exists name :: name in net && net[name] == low)
  }

  ghost predicate IsHigh(net: map<string, int>, high: int) {
    && high >= 0
    && (forall name | name in net :: net[name] <= high)
    && (high == 0 || exists name :: name in net && net[name] == high)
  }

  ghost function Low(net: map<string, int>): (low: int)
    ensures IsLow(net, low)
    decreases |net|
  {
    if net == map[] then 0
    else
      var name :| name in net;
      var others := net - {name};
      assert forall other | other in net && other != name :: other in others && others[other] == net[other];
      var rest := Low(others);
      if net[name] < rest then net[name] else rest
  }

  ghost function High(net: map<string, int>): (high: int)
    ensures IsHigh(net, high)
    decreases |net|
  {
    if net == map[] then 0
    else
      var name :| name in net;
      var others := net - {name};
      assert forall other | other in net && other != name :: other in others && others[other] == net[other];
      var rest := High(others);
      if rest < net[name] then net[name] else rest
  }

  ghost predicate Lists(names: seq<string>, these: set<string>) {
    multiset(names) == multiset(these)
  }

  ghost function Listing(these: set<string>): (names: seq<string>)
    ensures Lists(names, these)
  {
    if these == {} then []
    else
      var name :| name in these;
      assert these == (these - {name}) + {name};
      [name] + Listing(these - {name})
  }

  function Holding(net: map<string, int>, target: int): set<string> {
    set name | name in net && net[name] == target
  }

  ghost function NamesWithNetOf(net: map<string, int>, target: int): seq<string> {
    Sort(StringLe, Listing(Holding(net, target)))
  }

  ghost function OptimistOf(net: map<string, int>): seq<Award> {
    if Low(net) < 0 then [Award(Optimist, NamesWithNetOf(net, Low(net)), BelowTheLine)] else []
  }

  ghost function PessimistOf(net: map<string, int>): seq<Award> {
    if High(net) > 0 then [Award(Pessimist, NamesWithNetOf(net, High(net)), AboveTheLine)] else []
  }

  ghost function BiasOf(net: map<string, int>): seq<Award> {
    if |net| <= 1 then [] else OptimistOf(net) + PessimistOf(net)
  }

  ghost function AwardsOf(rounds: seq<RoundSummary>, sc: Scale): seq<Award> {
    if rounds == [] || IndexOf(sc.deck, sc.settled) < 0 then []
    else
      OracleOf(sc, rounds[0]) + SawSomethingOf(sc, rounds[0]) + DiplomatOf(sc, rounds)
      + if sc.Numeric(sc.settled) then BiasOf(Nets(sc, rounds)) else []
  }

  // ---------- the loops of the program ----------

  method ComputeAwards(rounds: seq<RoundSummary>, sc: Scale) returns (awards: seq<Award>)
    ensures awards == AwardsOf(rounds, sc)
  {
    if |rounds| == 0 {
      return [];
    }
    if IndexOf(sc.deck, sc.settled) < 0 {
      return [];
    }
    var accuracy := AccuracyAwards(sc, rounds[0]);
    var diplomat := DiplomatAward(sc, rounds);
    awards := accuracy + diplomat;
    if sc.Numeric(sc.settled) {
      var bias := BiasAwards(sc, rounds);
      awards := awards + bias;
    }
  }

  lemma NoneYet(sc: Scale, votes: seq<RevealedVote>)
    ensures Firsts(sc, votes[..0]) == [] && forall fs: seq<FirstVote> :: Greatest(fs[..0]) == 0
  {
    assert votes[..0] == [];
  }

  lemma OneMoreVote(sc: Scale, votes: seq<RevealedVote>, i: nat)
    requires i < |votes|
    ensures Firsts(sc, votes[..i + 1])
         == Firsts(sc, votes[..i]) + if sc.Competes(votes[i]) then [sc.AsFirst(votes[i])] else []
  {
    assert votes[..i + 1][..i] == votes[..i];
  }

  lemma OneMoreFirst(firsts: seq<FirstVote>, i: nat)
    requires i < |firsts|
    ensures var rest := Greatest(firsts[..i]);
            Greatest(firsts[..i + 1]) == if rest < firsts[i].distance then firsts[i].distance else rest
  {
    assert firsts[..i + 1][..i] == firsts[..i];
  }

  method AccuracyAwards(sc: Scale, first: RoundSummary) returns (awards: seq<Award>)
    ensures awards == OracleOf(sc, first) + SawSomethingOf(sc, first)
  {
    hide Firsts, Least, Greatest, NamesAt, ValuesAt;
    awards := [];
    var firsts := [];
    var votes := first.votes;
    NoneYet(sc, votes);
    for i := 0 to |votes|
      invariant firsts == Firsts(sc, votes[..i])
    {
      OneMoreVote(sc, votes, i);
      var v := votes[i];
      if sc.Numeric(sc.settled) && !sc.Numeric(v.value) {
        continue;
      }
      if IndexOf(sc.deck, v.value) >= 0 {
        firsts := firsts + [sc.AsFirst(v)];
      }
    }
    assert votes[..|votes|] == votes;
    if |firsts| > 0 {
      var best := Nearest(firsts);
      var names, _ := At(firsts, best);
      awards := [Award(Oracle, names, if best > 0 then Landed(first.number, best, sc.settled)
                                      else CalledBlind(sc.settled, first.number))];
    }
    if |firsts| > 1 {
      var worst := 0;
      NoneYet(sc, votes);
      for i := 0 to |firsts|
        invariant worst == Greatest(firsts[..i])
      {
        OneMoreFirst(firsts, i);
        worst := if worst < firsts[i].distance then firsts[i].distance else worst;
      }
      assert firsts[..|firsts|] == firsts;
      var best := Nearest(firsts);
      if worst > best {
        var names, values := At(firsts, worst);
        awards := awards + [Award(SawSomething, names, Argued(values))];
      }
    }
  }

  method Nearest(firsts: seq<FirstVote>) returns (best: nat)
    requires firsts != []
    ensures best == Least(firsts)
  {
    best := firsts[0].distance;
    for i := 0 to |firsts|
      invariant best == if i == 0 then firsts[0].distance else Least(firsts[..i])
    {
      assert firsts[..i + 1][..i] == firsts[..i];
      best := if firsts[i].distance < best then firsts[i].distance else best;
    }
    assert firsts[..|firsts|] == firsts;
  }

  method At(firsts: seq<FirstVote>, d: nat) returns (names: seq<string>, values: seq<string>)
    ensures names == NamesAt(firsts, d) && values == ValuesAt(firsts, d)
  {
    names, values := [], [];
    for i := 0 to |firsts|
      invariant names == NamesAt(firsts[..i], d) && values == ValuesAt(firsts[..i], d)
    {
      assert firsts[..i + 1][..i] == firsts[..i];
      var f := firsts[i];
      if f.distance == d {
        names := names + [f.name];
        if f.value !in values {
          values := values + [f.value];
        }
      }
    }
    assert firsts[..|firsts|] == firsts;
  }

  method DiplomatAward(sc: Scale, rounds: seq<RoundSummary>) returns (awards: seq<Award>)
    requires rounds != []
    ensures awards == DiplomatOf(sc, rounds)
  {
    awards := [];
    if |rounds| > 1 {
      var first, last := rounds[0].votes, rounds[|rounds| - 1].votes;
      var elsewhere := {};
      for i := 0 to |first|
        invariant elsewhere == StartedElsewhere(first[..i], sc.settled)
      {
        if first[i].value != sc.settled {
          elsewhere := elsewhere + {first[i].name};
        }
      }
      assert first[..|first|] == first;
      var names := [];
      for i := 0 to |last|
        invariant names == Movers(last[..i], sc.settled, elsewhere)
      {
        assert last[..i + 1][..i] == last[..i];
        if last[i].value == sc.settled && last[i].name in elsewhere {
          names := names + [last[i].name];
        }
      }
      assert last[..|last|] == last;
      if |names| > 0 {
        awards := [Award(Diplomat, names, MovedWithGrace)];
      }
    }
  }

  method BiasAwards(sc: Scale, rounds: seq<RoundSummary>) returns (awards: seq<Award>)
    ensures awards == BiasOf(Nets(sc, rounds))
  {
    awards := [];
    var net := NetVotes(sc, rounds);
    if |net| > 1 {
      var low, high := Extremes(net);
      if low < 0 {
        var names := NamesWithNet(net, low);
        awards := awards + [Award(Optimist, names, BelowTheLine)];
      }
      if high > 0 {
        var names := NamesWithNet(net, high);
        awards := awards + [Award(Pessimist, names, AboveTheLine)];
      }
    }
  }

  method NetVotes(sc: Scale, rounds: seq<RoundSummary>) returns (net: map<string, int>)
    ensures net == Nets(sc, rounds)
  {
    net := map[];
    for r := 0 to |rounds|
      invariant net == Nets(sc, rounds[..r])
    {
      assert rounds[..r + 1][..r] == rounds[..r];
      ghost var before := net;
      var votes := rounds[r].votes;
      for i := 0 to |votes|
        invariant net == AddVotes(sc, before, votes[..i])
      {
        assert votes[..i + 1][..i] == votes[..i];
        var v := votes[i];
        if !sc.Numeric(v.value) {
          continue;
        }
        if IndexOf(sc.deck, v.value) >= 0 {
          net := net[v.name := (if v.name in net then net[v.name] else 0) + sc.Offset(v)];
        }
      }
      assert votes[..|votes|] == votes;
    }
    assert rounds[..|rounds|] == rounds;
  }

  method Extremes(net: map<string, int>) returns (low: int, high: int)
    ensures low == Low(net) && high == High(net)
  {
    low, high := 0, 0;
    var left := net.Keys;
    while left != {}
      invariant left <= net.Keys
      invariant low <= 0 <= high
      invariant forall name | name in net && name !in left :: low <= net[name] <= high
      invariant low == 0 || exists name :: name in net && net[name] == low
      invariant high == 0 || exists name :: name in net && net[name] == high
    {
      var name :| name in left;
      low := if net[name] < low then net[name] else low;
      high := if high < net[name] then net[name] else high;
      left := left - {name};
    }
  }

  /** The map is visited in any order; sorting makes the answer independent of it. */
  method NamesWithNet(net: map<string, int>, target: int) returns (names: seq<string>)
    ensures names == NamesWithNetOf(net, target)
  {
    names := [];
    var left := net.Keys;
    ghost var found: set<string> := {};
    while left != {}
      invariant left <= net.Keys
      invariant found == set name | name in net && name !in left && net[name] == target
      invariant multiset(names) == multiset(found)
    {
      var name :| name in left;
      left := left - {name};
      if net[name] == target {
        found := found + {name};
        names := names + [name];
      }
    }
    assert found == Holding(net, target);
    StringOrder();
    SortForgetsOrder(StringLe, names, Listing(found));
    names := Sort(StringLe, names);
  }

  // ---------- what the awards mean ----------

  ghost function NamesWhere(votes: seq<RevealedVote>, p: RevealedVote -> bool): seq<string> {
    if votes == [] then []
    else NamesWhere(votes[..|votes| - 1], p) + if p(votes[|votes| - 1]) then [votes[|votes| - 1].name] else []
  }

  /** A competing vote no other competing vote is nearer than. */
  ghost predicate Closest(sc: Scale, votes: seq<RevealedVote>, v: RevealedVote) {
    sc.Competes(v) && forall w | w in votes && sc.Competes(w) :: sc.Distance(v) <= sc.Distance(w)
  }

  ghost predicate Furthest(sc: Scale, votes: seq<RevealedVote>, v: RevealedVote) {
    sc.Competes(v) && forall w | w in votes && sc.Competes(w) :: sc.Distance(w) <= sc.Distance(v)
  }

  lemma {:induction false} CompetitorIsFirst(sc: Scale, votes: seq<RevealedVote>, v: RevealedVote)
    requires v in votes && sc.Competes(v)
    ensures sc.AsFirst(v) in Firsts(sc, votes)
  {
    var rest, last := votes[..|votes| - 1], votes[|votes| - 1];
    assert votes == rest + [last];
    if v != last {
      CompetitorIsFirst(sc, rest, v);
    }
  }

  lemma {:induction false} FirstIsCompetitor(sc: Scale, votes: seq<RevealedVote>, f: FirstVote)
    returns (v: RevealedVote)
    requires f in Firsts(sc, votes)
    ensures v in votes && sc.Competes(v) && f == sc.AsFirst(v)
  {
    var rest, last := votes[..|votes| - 1], votes[|votes| - 1];
    assert votes == rest + [last];
    if f in Firsts(sc, rest) {
      v := FirstIsCompetitor(sc, rest, f);
    } else {
      v := last;
    }
  }

  lemma {:induction false} LeastIsLeast(fs: seq<FirstVote>)
    requires fs != []
    ensures forall f | f in fs :: Least(fs) <= f.distance <= Greatest(fs)
    ensures exists f :: f in fs && f.distance == Least(fs)
    ensures exists f :: f in fs && f.distance == Greatest(fs)
  {
    var rest, last := fs[..|fs| - 1], fs[|fs| - 1];
    assert fs == rest + [last];
    assert last in fs;
    if |fs| > 1 {
      LeastIsLeast(rest);
      assert forall f | f in rest :: f in fs;
    }
  }

  lemma {:induction false} NamesAtDistance(sc: Scale, votes: seq<RevealedVote>, d: nat, p: RevealedVote -> bool)
    requires forall v | v in votes :: p(v) <==> sc.Competes(v) && sc.Distance(v) == d
    ensures NamesAt(Firsts(sc, votes), d) == NamesWhere(votes, p)
  {
    if votes != [] {
      var rest, v := votes[..|votes| - 1], votes[|votes| - 1];
      assert votes == rest + [v];
      NamesAtDistance(sc, rest, d, p);
      assert p(v) <==> sc.Competes(v) && sc.Distance(v) == d;
      if sc.Competes(v) {
        var fs := Firsts(sc, votes);
        assert fs[..|fs| - 1] == Firsts(sc, rest) && fs[|fs| - 1] == sc.AsFirst(v);
        assert NamesAt(fs, d) == NamesAt(Firsts(sc, rest), d) + if p(v) then [v.name] else [];
      } else {
        assert Firsts(sc, votes) == Firsts(sc, rest);
      }
      assert NamesWhere(votes, p) == NamesWhere(rest, p) + if p(v) then [v.name] else [];
    }
  }

  ghost predicate Scorable(rounds: seq<RoundSummary>, sc: Scale) {
    rounds != [] && sc.settled in sc.deck
  }

  lemma Bounded(sc: Scale, votes: seq<RevealedVote>, v: RevealedVote)
    requires v in votes && sc.Competes(v)
    ensures var fs := Firsts(sc, votes); fs != [] && Least(fs) <= sc.Distance(v) <= Greatest(fs)
  {
    CompetitorIsFirst(sc, votes, v);
    LeastIsLeast(Firsts(sc, votes));
  }

  lemma Attained(sc: Scale, votes: seq<RevealedVote>) returns (near: RevealedVote, far: RevealedVote)
    requires Firsts(sc, votes) != []
    ensures near in votes && sc.Competes(near) && sc.Distance(near) == Least(Firsts(sc, votes))
    ensures far in votes && sc.Competes(far) && sc.Distance(far) == Greatest(Firsts(sc, votes))
  {
    var fs := Firsts(sc, votes);
    LeastIsLeast(fs);
    var n :| n in fs && n.distance == Least(fs);
    near := FirstIsCompetitor(sc, votes, n);
    var f :| f in fs && f.distance == Greatest(fs);
    far := FirstIsCompetitor(sc, votes, f);
  }

  lemma ClosestIsLeast(sc: Scale, votes: seq<RevealedVote>, v: RevealedVote)
    requires v in votes && Firsts(sc, votes) != []
    ensures Closest(sc, votes, v) <==> sc.Competes(v) && sc.Distance(v) == Least(Firsts(sc, votes))
    ensures Furthest(sc, votes, v) <==> sc.Competes(v) && sc.Distance(v) == Greatest(Firsts(sc, votes))
  {
    var near, far := Attained(sc, votes);
    forall w | w in votes && sc.Competes(w)
      ensures Least(Firsts(sc, votes)) <= sc.Distance(w) <= Greatest(Firsts(sc, votes))
    {
      Bounded(sc, votes, w);
    }
  }

  lemma CompetitionIsOpen(sc: Scale, votes: seq<RevealedVote>)
    ensures Firsts(sc, votes) != [] <==> exists v :: v in votes && sc.Competes(v)
  {
    if v :| v in votes && sc.Competes(v) {
      Bounded(sc, votes, v);
    }
    if Firsts(sc, votes) != [] {
      var near, _ := Attained(sc, votes);
    }
  }

  lemma CalledExactly(sc: Scale, votes: seq<RevealedVote>)
    requires sc.settled in sc.deck && Firsts(sc, votes) != []
    ensures Least(Firsts(sc, votes)) == 0 <==> exists v :: v in votes && v.value == sc.settled && sc.Competes(v)
  {
    var near, _ := Attained(sc, votes);
    if v :| v in votes && v.value == sc.settled && sc.Competes(v) {
      Bounded(sc, votes, v);
    }
  }

  lemma TheOracle(sc: Scale, first: RoundSummary)
    requires OracleOf(sc, first) != []
    ensures OracleOf(sc, first)[0].names == NamesWhere(first.votes, v => Closest(sc, first.votes, v))
  {
    var votes := first.votes;
    var d := Least(Firsts(sc, votes));
    forall v | v in votes ensures Closest(sc, votes, v) <==> sc.Competes(v) && sc.Distance(v) == d {
      ClosestIsLeast(sc, votes, v);
    }
    NamesAtDistance(sc, votes, d, v => Closest(sc, votes, v));
  }

  lemma TheFurthest(sc: Scale, first: RoundSummary)
    ensures SawSomethingOf(sc, first) != [] <==>
              exists v, w :: v in first.votes && w in first.votes && sc.Competes(v) && sc.Competes(w)
                             && sc.Distance(v) != sc.Distance(w)
    ensures SawSomethingOf(sc, first) != [] ==>
              SawSomethingOf(sc, first)[0].names == NamesWhere(first.votes, v => Furthest(sc, first.votes, v))
  {
    var votes := first.votes;
    var fs := Firsts(sc, votes);
    if v, w :| v in votes && w in votes && sc.Competes(v) && sc.Competes(w) && sc.Distance(v) != sc.Distance(w) {
      Bounded(sc, votes, v);
      Bounded(sc, votes, w);
    }
    if fs != [] {
      forall v | v in votes ensures Furthest(sc, votes, v) <==> sc.Competes(v) && sc.Distance(v) == Greatest(fs) {
        ClosestIsLeast(sc, votes, v);
      }
      NamesAtDistance(sc, votes, Greatest(fs), v => Furthest(sc, votes, v));
      var near, far := Attained(sc, votes);
      if |fs| == 1 {
        assert fs[..0] == [] && Greatest(fs) == fs[0].distance;
      }
    }
  }

  /** Which award comes from where. */
  lemma AwardSource(rounds: seq<RoundSummary>, sc: Scale, a: Award)
    requires Scorable(rounds, sc)
    ensures a in AwardsOf(rounds, sc) <==>
              match a.id
              case Oracle => OracleOf(sc, rounds[0]) == [a]
              case SawSomething => SawSomethingOf(sc, rounds[0]) == [a]
              case Diplomat => DiplomatOf(sc, rounds) == [a]
              case Optimist => sc.Numeric(sc.settled) && |Nets(sc, rounds)| > 1 && OptimistOf(Nets(sc, rounds)) == [a]
              case Pessimist => sc.Numeric(sc.settled) && |Nets(sc, rounds)| > 1 && PessimistOf(Nets(sc, rounds)) == [a]
  {
    var net := Nets(sc, rounds);
    var accuracy := OracleOf(sc, rounds[0]) + SawSomethingOf(sc, rounds[0]) + DiplomatOf(sc, rounds);
    assert a in accuracy <==>
           a in OracleOf(sc, rounds[0]) || a in SawSomethingOf(sc, rounds[0]) || a in DiplomatOf(sc, rounds);
    assert a in BiasOf(net) <==> |net| > 1 && (a in OptimistOf(net) || a in PessimistOf(net));
    assert a in AwardsOf(rounds, sc) <==> a in accuracy || (sc.Numeric(sc.settled) && a in BiasOf(net));
  }

  /** The Oracle names exactly the competing first votes nearest the settled value, in the order of that round. */
  lemma OracleNamesTheNearest(rounds: seq<RoundSummary>, sc: Scale)
    requires Scorable(rounds, sc)
    ensures var votes := rounds[0].votes;
            && ((exists a :: a in AwardsOf(rounds, sc) && a.id.Oracle?) <==> exists v :: v in votes && sc.Competes(v))
            && (forall a | a in AwardsOf(rounds, sc) && a.id.Oracle? ::
                  && a.names == NamesWhere(votes, v => Closest(sc, votes, v))
                  && (a.detail.CalledBlind? <==> exists v :: v in votes && v.value == sc.settled && sc.Competes(v)))
  {
    CompetitionIsOpen(sc, rounds[0].votes);
    forall a: Award | a.id.Oracle? ensures a in AwardsOf(rounds, sc) <==> OracleOf(sc, rounds[0]) == [a] {
      AwardSource(rounds, sc, a);
    }
    if OracleOf(sc, rounds[0]) != [] {
      TheOracle(sc, rounds[0]);
      CalledExactly(sc, rounds[0].votes);
      assert OracleOf(sc, rounds[0])[0] in AwardsOf(rounds, sc);
    }
  }

  /** Saw Something names exactly the competing first votes furthest from the settled value, and is handed
      out only when not all of them are equally far. */
  lemma SawSomethingNamesTheFurthest(rounds: seq<RoundSummary>, sc: Scale)
    requires Scorable(rounds, sc)
    ensures var votes := rounds[0].votes;
            && ((exists a :: a in AwardsOf(rounds, sc) && a.id.SawSomething?) <==>
                exists v, w :: v in votes && w in votes && sc.Competes(v) && sc.Competes(w)
                               && sc.Distance(v) != sc.Distance(w))
            && (forall a | a in AwardsOf(rounds, sc) && a.id.SawSomething? ::
                  a.names == NamesWhere(votes, v => Furthest(sc, votes, v)))
  {
    TheFurthest(sc, rounds[0]);
    forall a: Award | a.id.SawSomething? ensures a in AwardsOf(rounds, sc) <==> SawSomethingOf(sc, rounds[0]) == [a] {
      AwardSource(rounds, sc, a);
    }
    if SawSomethingOf(sc, rounds[0]) != [] {
      assert SawSomethingOf(sc, rounds[0])[0] in AwardsOf(rounds, sc);
    }
  }

  /** A vote for the settled value by a name that voted otherwise in the first round. */
  ghost predicate Moved(sc: Scale, first: seq<RevealedVote>, v: RevealedVote) {
    v.value == sc.settled && exists w :: w in first && w.name == v.name && w.value != sc.settled
  }

  lemma StartedElsewhereMeans(votes: seq<RevealedVote>, settled: string, name: string)
    ensures name in StartedElsewhere(votes, settled) <==> exists w :: w in votes && w.name == name && w.value != settled
  {
  }

  lemma {:induction false} MoversMoved(sc: Scale, first: seq<RevealedVote>, votes: seq<RevealedVote>)
    ensures Movers(votes, sc.settled, StartedElsewhere(first, sc.settled))
         == NamesWhere(votes, v => Moved(sc, first, v))
    ensures NamesWhere(votes, v => Moved(sc, first, v)) != [] <==> exists v :: v in votes && Moved(sc, first, v)
  {
    hide StartedElsewhere, Moved;
    if votes != [] {
      var k := |votes| - 1;
      MoversMoved(sc, first, votes[..k]);
      MovedMeans(sc, first, votes[k]);
      assert votes == votes[..k] + [votes[k]];
    }
  }

  lemma MovedMeans(sc: Scale, first: seq<RevealedVote>, v: RevealedVote)
    ensures Moved(sc, first, v) <==> v.value == sc.settled && v.name in StartedElsewhere(first, sc.settled)
  {
    StartedElsewhereMeans(first, sc.settled, v.name);
  }

  /** The Diplomat names exactly those who ended on the settled value after starting on another, in the order of the
      last round. */
  lemma DiplomatNamesTheMovers(rounds: seq<RoundSummary>, sc: Scale)
    requires Scorable(rounds, sc)
    ensures var first, last := rounds[0].votes, rounds[|rounds| - 1].votes;
            && ((exists a :: a in AwardsOf(rounds, sc) && a.id.Diplomat?) <==>
                |rounds| > 1 && exists v :: v in last && Moved(sc, first, v))
            && (forall a | a in AwardsOf(rounds, sc) && a.id.Diplomat? ::
                  a.names == NamesWhere(last, v => Moved(sc, first, v)))
  {
    hide AwardsOf, Moved, NamesWhere, Movers;
    MoversMoved(sc, rounds[0].votes, rounds[|rounds| - 1].votes);
    forall a: Award | a.id.Diplomat? ensures a in AwardsOf(rounds, sc) <==> DiplomatOf(sc, rounds) == [a] {
      AwardSource(rounds, sc, a);
    }
    if DiplomatOf(sc, rounds) != [] {
      assert DiplomatOf(sc, rounds)[0] in AwardsOf(rounds, sc);
    }
  }

  /** The signed distance of every counted vote of `votes` by `name`, added up. */
  function NetOf(sc: Scale, votes: seq<RevealedVote>, name: string): int {
    if votes == [] then 0
    else
      var v := votes[|votes| - 1];
      NetOf(sc, votes[..|votes| - 1], name) + if sc.Counted(v) && v.name == name then sc.Offset(v) else 0
  }

  function TotalOf(sc: Scale, votes: seq<RevealedVote>): int {
    if votes == [] then 0
    else
      var v := votes[|votes| - 1];
      TotalOf(sc, votes[..|votes| - 1]) + if sc.Counted(v) then sc.Offset(v) else 0
  }

  function AllVotes(rounds: seq<RoundSummary>): seq<RevealedVote> {
    if rounds == [] then [] else AllVotes(rounds[..|rounds| - 1]) + rounds[|rounds| - 1].votes
  }

  lemma {:induction false} AddVotesAppends(sc: Scale, net: map<string, int>, a: seq<RevealedVote>, b: seq<RevealedVote>)
    ensures AddVotes(sc, AddVotes(sc, net, a), b) == AddVotes(sc, net, a + b)
  {
    if b == [] {
      assert a + b == a;
    } else {
      assert (a + b)[..|a + b| - 1] == a + b[..|b| - 1];
      AddVotesAppends(sc, net, a, b[..|b| - 1]);
    }
  }

  lemma {:induction false} NetsInOneGo(sc: Scale, rounds: seq<RoundSummary>)
    ensures Nets(sc, rounds) == AddVotes(sc, map[], AllVotes(rounds))
  {
    if rounds != [] {
      NetsInOneGo(sc, rounds[..|rounds| - 1]);
      AddVotesAppends(sc, map[], AllVotes(rounds[..|rounds| - 1]), rounds[|rounds| - 1].votes);
    }
  }

  lemma {:induction false} NetKeys(sc: Scale, votes: seq<RevealedVote>, name: string)
    ensures name in AddVotes(sc, map[], votes) <==> exists v :: v in votes && sc.Counted(v) && v.name == name
  {
    if votes != [] {
      var rest, v := votes[..|votes| - 1], votes[|votes| - 1];
      assert votes == rest + [v];
      NetKeys(sc, rest, name);
      assert v in votes;
    }
  }

  lemma {:induction false} NetValues(sc: Scale, votes: seq<RevealedVote>, name: string)
    ensures var net := AddVotes(sc, map[], votes);
            NetOf(sc, votes, name) == if name in net then net[name] else 0
  {
    if votes != [] {
      NetValues(sc, votes[..|votes| - 1], name);
    }
  }

  lemma {:induction false} NetTotal(sc: Scale, votes: seq<RevealedVote>)
    ensures MapSum(AddVotes(sc, map[], votes)) == TotalOf(sc, votes)
  {
    if votes != [] {
      var rest, v := votes[..|votes| - 1], votes[|votes| - 1];
      NetTotal(sc, rest);
      MapSumAdd(AddVotes(sc, map[], rest), v.name, sc.Offset(v));
    }
  }

  /** Each name's net is the signed distance of its own retained numeric votes; together they are the
      signed distance of all of them. */
  lemma NetsAddUp(sc: Scale, rounds: seq<RoundSummary>)
    ensures var net, votes := Nets(sc, rounds), AllVotes(rounds);
            && (forall name :: name in net <==> exists v :: v in votes && sc.Counted(v) && v.name == name)
            && (forall name | name in net :: net[name] == NetOf(sc, votes, name))
            && MapSum(net) == TotalOf(sc, votes)
  {
    NetsInOneGo(sc, rounds);
    var net, votes := Nets(sc, rounds), AllVotes(rounds);
    forall name
      ensures name in net <==> exists v :: v in votes && sc.Counted(v) && v.name == name
      ensures name in net ==> net[name] == NetOf(sc, votes, name)
    {
      NetKeys(sc, votes, name);
      NetValues(sc, votes, name);
    }
    NetTotal(sc, votes);
  }

  /** A strictly increasing list of exactly `these`. */
  ghost predicate Alphabetical(names: seq<string>, these: set<string>) {
    && (forall name :: name in names <==> name in these)
    && |names| == |these|
    && Sorted(StringLe, names)
  }

  lemma NamesWithNetAreAlphabetical(net: map<string, int>, target: int)
    ensures Alphabetical(NamesWithNetOf(net, target), Holding(net, target))
  {
    var these := Holding(net, target);
    StringOrder();
    SortSorts(StringLe, Listing(these));
    var names := NamesWithNetOf(net, target);
    assert |names| == |multiset(names)| == |multiset(these)|;
    forall name ensures name in names <==> name in these {
      assert name in multiset(names) <==> name in multiset(these);
    }
  }

  ghost function Lowest(net: map<string, int>): set<string> {
    set n | n in net && net[n] < 0 && forall m | m in net :: net[n] <= net[m]
  }

  ghost function Highest(net: map<string, int>): set<string> {
    set n | n in net && net[n] > 0 && forall m | m in net :: net[m] <= net[n]
  }

  lemma HoldersOfExtremes(net: map<string, int>)
    ensures Low(net) < 0 <==> exists n :: n in net && net[n] < 0
    ensures High(net) > 0 <==> exists n :: n in net && net[n] > 0
    ensures Low(net) < 0 ==> Holding(net, Low(net)) == Lowest(net) != {}
    ensures High(net) > 0 ==> Holding(net, High(net)) == Highest(net) != {}
  {
    if Low(net) < 0 {
      var n :| n in net && net[n] == Low(net);
      assert n in Holding(net, Low(net));
    }
    if High(net) > 0 {
      var n :| n in net && net[n] == High(net);
      assert n in Holding(net, High(net));
    }
  }

  /** Optimist and Pessimist are exactly the names at a strictly negative minimum and a strictly positive
      maximum net, they share nobody, and neither exists for a settled value that is not numeric or with fewer
      than two numeric voters. */
  lemma BiasAwardsAreTheExtremes(rounds: seq<RoundSummary>, sc: Scale)
    requires Scorable(rounds, sc)
    ensures var net, awards := Nets(sc, rounds), AwardsOf(rounds, sc);
            && ((exists a :: a in awards && a.id.Optimist?) <==>
                sc.Numeric(sc.settled) && |net| > 1 && exists n :: n in net && net[n] < 0)
            && ((exists a :: a in awards && a.id.Pessimist?) <==>
                sc.Numeric(sc.settled) && |net| > 1 && exists n :: n in net && net[n] > 0)
            && (forall a | a in awards && a.id.Optimist? :: Alphabetical(a.names, Lowest(net)))
            && (forall a | a in awards && a.id.Pessimist? :: Alphabetical(a.names, Highest(net)))
            && Lowest(net) !! Highest(net)
  {
    hide AwardsOf, Nets;
    var net := Nets(sc, rounds);
    HoldersOfExtremes(net);
    NamesWithNetAreAlphabetical(net, Low(net));
    NamesWithNetAreAlphabetical(net, High(net));
    forall a: Award | a.id.Optimist?
      ensures a in AwardsOf(rounds, sc) <==> sc.Numeric(sc.settled) && |net| > 1 && OptimistOf(net) == [a]
    {
      AwardSource(rounds, sc, a);
    }
    forall a: Award | a.id.Pessimist?
      ensures a in AwardsOf(rounds, sc) <==> sc.Numeric(sc.settled) && |net| > 1 && PessimistOf(net) == [a]
    {
      AwardSource(rounds, sc, a);
    }
    if sc.Numeric(sc.settled) && |net| > 1 {
      assert Low(net) < 0 ==> OptimistOf(net)[0] in AwardsOf(rounds, sc);
      assert High(net) > 0 ==> PessimistOf(net)[0] in AwardsOf(rounds, sc);
    }
  }

  // ---------- what the awards say ----------

  /** Distances are counted in cards, and the numeric filter is on exactly when the settled value is numeric. */
  lemma DistancesAreInCards(sc: Scale, v: RevealedVote, i: nat, j: nat)
    requires i < |sc.deck| && sc.deck[i] == v.value && v.value !in sc.deck[..i]
    requires j < |sc.deck| && sc.deck[j] == sc.settled && sc.settled !in sc.deck[..j]
    ensures sc.Offset(v) == i - j && sc.Distance(v) == if i < j then j - i else i - j
    ensures sc.Competes(v) <==> sc.parse(sc.settled).None? || sc.parse(v.value).Some?
    ensures sc.Counted(v) <==> sc.parse(v.value).Some?
  {
    FirstIndex(sc.deck, v.value, i);
    FirstIndex(sc.deck, sc.settled, j);
  }

  lemma FirstIndex(deck: seq<string>, value: string, i: nat)
    requires i < |deck| && deck[i] == value && value !in deck[..i]
    ensures IndexOf(deck, value) == i
  {
    var k := IndexOf(deck, value);
    forall m | 0 <= m < i ensures deck[m] != value {
      assert deck[..i][m] == deck[m];
    }
    forall m | 0 <= m < k ensures deck[m] != value {
      assert deck[..k][m] == deck[m];
    }
  }

  lemma OffDeck(sc: Scale, v: RevealedVote)
    requires v.value !in sc.deck
    ensures !sc.Competes(v) && !sc.Counted(v)
  {
  }

  lemma {:induction false} ValuesAtDistance(fs: seq<FirstVote>, d: nat, value: string)
    ensures value in ValuesAt(fs, d) <==> exists f :: f in fs && f.distance == d && f.value == value
    ensures multiset(ValuesAt(fs, d))[value] <= 1
  {
    if fs != [] {
      var rest, f := fs[..|fs| - 1], fs[|fs| - 1];
      assert fs == rest + [f];
      ValuesAtDistance(rest, d, value);
    }
  }

  lemma ArguedFor(sc: Scale, votes: seq<RevealedVote>, value: string)
    requires Firsts(sc, votes) != []
    ensures var fs := Firsts(sc, votes);
            value in ValuesAt(fs, Greatest(fs)) <==>
              exists v :: v in votes && Furthest(sc, votes, v) && v.value == value
  {
    hide Furthest, Greatest, ValuesAt;
    var fs := Firsts(sc, votes);
    ValuesAtDistance(fs, Greatest(fs), value);
    if f :| f in fs && f.distance == Greatest(fs) && f.value == value {
      var v := FirstIsCompetitor(sc, votes, f);
      ClosestIsLeast(sc, votes, v);
    }
    if v :| v in votes && Furthest(sc, votes, v) && v.value == value {
      ClosestIsLeast(sc, votes, v);
      CompetitorIsFirst(sc, votes, v);
      assert sc.AsFirst(v) in fs;
    }
  }

  /** What an award says of its holders is so: how near the nearest came and in which round, what the furthest argued
      for, each value once, and on which side of the line the biased were. */
  ghost predicate Deserved(rounds: seq<RoundSummary>, sc: Scale, a: Award)
    requires rounds != []
  {
    var first := rounds[0];
    match a.id
    case Oracle =>
      exists v :: v in first.votes && Closest(sc, first.votes, v)
                  && a.detail == if v.value == sc.settled then CalledBlind(sc.settled, first.number)
                                 else Landed(first.number, sc.Distance(v), sc.settled)
    case SawSomething =>
      a.detail.Argued? && forall value ::
        && (value in a.detail.values <==>
              exists v :: v in first.votes && Furthest(sc, first.votes, v) && v.value == value)
        && multiset(a.detail.values)[value] <= 1
    case Diplomat => a.detail == MovedWithGrace
    case Optimist => a.detail == BelowTheLine
    case Pessimist => a.detail == AboveTheLine
  }

  lemma OracleIsDeserved(sc: Scale, rounds: seq<RoundSummary>, a: Award)
    requires Scorable(rounds, sc) && OracleOf(sc, rounds[0]) == [a]
    ensures Deserved(rounds, sc, a)
  {
    hide Closest, Furthest;
    var first := rounds[0];
    var near, _ := Attained(sc, first.votes);
    ClosestIsLeast(sc, first.votes, near);
    assert near.value == sc.settled <==> sc.Distance(near) == 0;
  }

  lemma SawSomethingIsDeserved(sc: Scale, rounds: seq<RoundSummary>, a: Award)
    requires Scorable(rounds, sc) && SawSomethingOf(sc, rounds[0]) == [a]
    ensures Deserved(rounds, sc, a)
  {
    hide Closest, Furthest, ValuesAt, Greatest, Least;
    var fs := Firsts(sc, rounds[0].votes);
    forall value
      ensures value in a.detail.values <==>
                exists v :: v in rounds[0].votes && Furthest(sc, rounds[0].votes, v) && v.value == value
      ensures multiset(a.detail.values)[value] <= 1
    {
      ArguedFor(sc, rounds[0].votes, value);
      ValuesAtDistance(fs, Greatest(fs), value);
    }
  }

  /** Every award handed out is deserved, and none are without rounds or for a value that is not in the deck. */
  lemma AwardsAreDeserved(rounds: seq<RoundSummary>, sc: Scale)
    ensures !Scorable(rounds, sc) ==> AwardsOf(rounds, sc) == []
    ensures Scorable(rounds, sc) ==> forall a | a in AwardsOf(rounds, sc) :: Deserved(rounds, sc, a)
  {
    hide Deserved, OracleOf, SawSomethingOf;
    if Scorable(rounds, sc) {
      forall a | a in AwardsOf(rounds, sc) ensures Deserved(rounds, sc, a) {
        AwardSource(rounds, sc, a);
        match a.id {
          case Oracle => OracleIsDeserved(sc, rounds, a);
          case SawSomething => SawSomethingIsDeserved(sc, rounds, a);
          case _ => PlainlyDeserved(rounds, sc, a);
        }
      }
    }
  }

  lemma PlainlyDeserved(rounds: seq<RoundSummary>, sc: Scale, a: Award)
    requires rounds != []
    requires match a.id
             case Diplomat => DiplomatOf(sc, rounds) == [a]
             case Optimist => OptimistOf(Nets(sc, rounds)) == [a]
             case Pessimist => PessimistOf(Nets(sc, rounds)) == [a]
             case _ => false
    ensures Deserved(rounds, sc, a)
  {
  }

  function Place(id: AwardId): nat {
    match id
    case Oracle => 0
    case SawSomething => 1
    case Diplomat => 2
    case Optimist => 3
    case Pessimist => 4
  }

  ghost predicate InOrderFrom(awards: seq<Award>, low: nat, high: nat) {
    && (forall i | 0 <= i < |awards| :: low <= Place(awards[i].id) < high)
    && (forall i, j | 0 <= i < j < |awards| :: Place(awards[i].id) < Place(awards[j].id))
  }

  lemma InOrderTogether(a: seq<Award>, b: seq<Award>, low: nat, mid: nat, high: nat)
    requires low <= mid <= high && InOrderFrom(a, low, mid) && InOrderFrom(b, mid, high)
    ensures InOrderFrom(a + b, low, high)
  {
  }

  /** Each kind of award comes at most once, in one fixed order. */
  lemma AwardsComeOnceInOrder(rounds: seq<RoundSummary>, sc: Scale)
    ensures InOrderFrom(AwardsOf(rounds, sc), 0, 5)
  {
    hide Firsts, Least, Greatest, NamesAt, ValuesAt, Movers, StartedElsewhere, NamesWithNetOf, Nets, InOrderFrom;
    NoAwards(0, 5);
    if Scorable(rounds, sc) {
      var oracle, saw, diplomat := OracleOf(sc, rounds[0]), SawSomethingOf(sc, rounds[0]), DiplomatOf(sc, rounds);
      var net := Nets(sc, rounds);
      SingleAwards(rounds, sc);
      NoAwards(3, 5);
      InOrderTogether(oracle, saw, 0, 1, 2);
      InOrderTogether(oracle + saw, diplomat, 0, 2, 3);
      InOrderTogether(OptimistOf(net), PessimistOf(net), 3, 4, 5);
      InOrderTogether(oracle + saw + diplomat, BiasOf(net), 0, 3, 5);
      InOrderTogether(oracle + saw + diplomat, [], 0, 3, 5);
    }
  }

  lemma AtMostOne(awards: seq<Award>, place: nat)
    requires |awards| <= 1 && (awards != [] ==> Place(awards[0].id) == place)
    ensures InOrderFrom(awards, place, place + 1)
  {
  }

  lemma NoAwards(low: nat, high: nat)
    ensures InOrderFrom([], low, high)
  {
  }

  lemma SingleAwards(rounds: seq<RoundSummary>, sc: Scale)
    requires rounds != []
    ensures InOrderFrom(OracleOf(sc, rounds[0]), 0, 1) && InOrderFrom(SawSomethingOf(sc, rounds[0]), 1, 2)
    ensures InOrderFrom(DiplomatOf(sc, rounds), 2, 3)
    ensures InOrderFrom(OptimistOf(Nets(sc, rounds)), 3, 4) && InOrderFrom(PessimistOf(Nets(sc, rounds)), 4, 5)
  {
    hide Firsts, Least, Greatest, NamesAt, ValuesAt, Movers, StartedElsewhere, NamesWithNetOf, Nets, InOrderFrom;
    AtMostOne(OracleOf(sc, rounds[0]), 0);
    AtMostOne(SawSomethingOf(sc, rounds[0]), 1);
    AtMostOne(DiplomatOf(sc, rounds), 2);
    AtMostOne(OptimistOf(Nets(sc, rounds)), 3);
    AtMostOne(PessimistOf(Nets(sc, rounds)), 4);
  }
}
