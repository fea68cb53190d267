/** Sums over maps, whatever order their entries are visited in. */
module MapSums {

  ghost function MapSum(m: map<string, int>): int {
    if m == map[] then 0 else
      var k :| k in m;
      m[k] + MapSum(m - {k})
  }

  lemma {:induction false} MapSumSplit(m: map<string, int>, k: string)
    requires k in m
    ensures MapSum(m) == m[k] + MapSum(m - {k})
    decreases |m|
  {
    var first :| first in m && MapSum(m) == m[first] + MapSum(m - {first});
    if first != k {
      MapSumSplit(m - {first}, k);
      MapSumSplit(m - {k}, first);
      assert m - {first} - {k} == m - {k} - {first};
    }
  }

  lemma MapSumAdd(m: map<string, int>, k: string, d: int)
    ensures MapSum(m[k := (if k in m then m[k] else 0) + d]) == MapSum(m) + d
  {
    var m' := m[k := (if k in m then m[k] else 0) + d];
    MapSumSplit(m', k);
    assert m' - {k} == m - {k};
    if k in m {
      MapSumSplit(m, k);
    } else {
      assert m - {k} == m;
    }
  }
}

/** The statistics of a revealed round. */
module RoundStats {
  import opened Wire
  import opened Sorting
  import MapSums

  type Parser = string -> Option<real>

  /** How many votes chose `option`. */
  function Tally(votes: seq<RevealedVote>, option: string): nat {
    if votes == [] then 0
    else Tally(votes[..|votes| - 1], option) + if votes[|votes| - 1].value == option then 1 else 0
  }

  function Counts(votes: seq<RevealedVote>): map<string, nat> {
    map v | v in (set i | 0 <= i < |votes| :: votes[i].value) :: Tally(votes, v)
  }

  /** The numbers voted for, in the order of the votes. */
  function Numbers(votes: seq<RevealedVote>, parse: Parser): seq<real> {
    if votes == [] then []
    else
      var number := parse(votes[|votes| - 1].value);
      Numbers(votes[..|votes| - 1], parse) + if number.Some? then [number.value] else []
  }

  function Sum(xs: seq<real>): real {
    if xs == [] then 0.0 else Sum(xs[..|xs| - 1]) + xs[|xs| - 1]
  }

  function Median(sorted: seq<real>): real
    requires sorted != []
  {
    var n := |sorted|;
    if n % 2 == 1 then sorted[n / 2] else (sorted[n / 2 - 1] + sorted[n / 2]) / 2.0
  }

  /** The highest tally among the options of `some`. */
  function Most(votes: seq<RevealedVote>, some: seq<RevealedVote>): nat {
    if some == [] then 0
    else
      var last := Tally(votes, some[|some| - 1].value);
      var rest := Most(votes, some[..|some| - 1]);
      if rest < last then last else rest
  }

  function WithTally(votes: seq<RevealedVote>, deck: seq<string>, count: nat): seq<string> {
    if deck == [] then []
    else
      var last := deck[|deck| - 1];
      WithTally(votes, deck[..|deck| - 1], count) + if Tally(votes, last) == count then [last] else []
  }

  function TopOf(votes: seq<RevealedVote>, deck: seq<string>): Option<Top> {
    if votes == [] then None
    else
      var most := Most(votes, votes);
      var values := WithTally(votes, deck, most);
      Some(Top(values, most, |values| > 1))
  }

  function NumericOf(nums: seq<real>): Option<NumericStats> {
    var n := |nums|;
    if n == 0 then None
    else Some(NumericStats(nums[0], nums[n - 1], Median(nums), Sum(nums) / n as real, nums[n - 1] - nums[0]))
  }

  predicate ConsensusOf(nums: seq<real>) {
    nums != [] && nums[0] == nums[|nums| - 1]
  }

  function StatsOf(votes: seq<RevealedVote>, deck: seq<string>, parse: Parser): Stats {
    var nums := Sort(RealLe, Numbers(votes, parse));
    Stats(NumericOf(nums), ConsensusOf(nums), Counts(votes), TopOf(votes, deck))
  }

  lemma RealOrder()
    ensures TotalOrder(RealLe)
  {
  }

  // ---------- the loops of the program ----------

  method ComputeStats(votes: seq<RevealedVote>, deck: seq<string>, parse: Parser) returns (st: Stats)
    ensures st == StatsOf(votes, deck, parse)
  {
    var counts, nums := CountVotes(votes, parse);
    var top := FindTop(counts, deck, votes);
    var numeric, consensus := Summarise(nums);
    st := Stats(numeric, consensus, counts, top);
  }

  method CountVotes(votes: seq<RevealedVote>, parse: Parser) returns (counts: map<string, nat>, nums: seq<real>)
    ensures counts == Counts(votes) && nums == Numbers(votes, parse)
  {
    counts, nums := map[], [];
    for i := 0 to |votes|
      invariant counts == Counts(votes[..i])
      invariant nums == Numbers(votes[..i], parse)
    {
      CountsAppend(votes[..i], votes[i]);
      assert votes[..i + 1] == votes[..i] + [votes[i]];
      assert votes[..i + 1][..i] == votes[..i];
      var value := votes[i].value;
      counts := counts[value := (if value in counts then counts[value] else 0) + 1];
      var number := parse(value);
      if number.Some? {
        nums := nums + [number.value];
      }
    }
    assert votes[..|votes|] == votes;
  }

  method Summarise(numbers: seq<real>) returns (numeric: Option<NumericStats>, consensus: bool)
    ensures numeric == NumericOf(Sort(RealLe, numbers))
    ensures consensus == ConsensusOf(Sort(RealLe, numbers))
  {
    hide Sort;
    var nums := Sort(RealLe, numbers);
    var n := |nums|;
    if n == 0 {
      return None, false;
    }
    var sum := 0.0;
    for i := 0 to n
      invariant sum == Sum(nums[..i])
    {
      assert nums[..i + 1][..i] == nums[..i];
      sum := sum + nums[i];
    }
    assert nums[..n] == nums;
    var median;
    if n % 2 == 1 {
      median := nums[n / 2];
    } else {
      median := (nums[n / 2 - 1] + nums[n / 2]) / 2.0;
    }
    numeric := Some(NumericStats(nums[0], nums[n - 1], median, sum / n as real, nums[n - 1] - nums[0]));
    consensus := nums[0] == nums[n - 1];
  }

  method FindTop(counts: map<string, nat>, deck: seq<string>, ghost votes: seq<RevealedVote>)
    returns (top: Option<Top>)
    requires counts == Counts(votes)
    ensures top == TopOf(votes, deck)
  {
    if |counts| == 0 {
      assert votes != [] ==> votes[0].value in counts;
      return None;
    }
    assert votes != [];
    var most := 0;
    var left := counts.Keys;
    while left != {}
      invariant left <= counts.Keys
      invariant forall v | v in counts && v !in left :: counts[v] <= most
      invariant most == 0 || exists v :: v in counts && counts[v] == most
    {
      var v :| v in left;
      most := if most < counts[v] then counts[v] else most;
      left := left - {v};
    }
    MostByCounts(votes, most);
    var values := [];
    for i := 0 to |deck|
      invariant values == WithTally(votes, deck[..i], most)
    {
      assert deck[..i + 1][..i] == deck[..i];
      AbsentTally(votes, deck[i]);
      if (if deck[i] in counts then counts[deck[i]] else 0) == most {
        values := values + [deck[i]];
      }
    }
    assert deck[..|deck|] == deck;
    top := Some(Top(values, most, |values| > 1));
  }

  // ---------- what the numbers mean ----------

  lemma {:induction false} AbsentTally(votes: seq<RevealedVote>, option: string)
    ensures Tally(votes, option) == 0 <==> forall i | 0 <= i < |votes| :: votes[i].value != option
  {
    if votes != [] {
      AbsentTally(votes[..|votes| - 1], option);
    }
  }

  lemma CountsAppend(votes: seq<RevealedVote>, v: RevealedVote)
    ensures var c := Counts(votes);
            Counts(votes + [v]) == c[v.value := (if v.value in c then c[v.value] else 0) + 1]
  {
    var all := votes + [v];
    assert all[..|votes|] == votes;
    AbsentTally(votes, v.value);
    forall i | 0 <= i < |all| ensures all[i].value in Counts(votes).Keys + {v.value} {
    }
    assert forall i | 0 <= i < |votes| :: votes[i] == all[i];
    assert v == all[|votes|];
    assert Counts(all).Keys == Counts(votes).Keys + {v.value};
  }

  lemma {:induction false} MostIsMost(votes: seq<RevealedVote>, some: seq<RevealedVote>)
    requires forall v | v in some :: v in votes
    ensures forall v | v in some :: Tally(votes, v.value) <= Most(votes, some)
    ensures some != [] ==> Most(votes, some) > 0
    ensures some != [] ==> exists i :: 0 <= i < |votes| && Tally(votes, votes[i].value) == Most(votes, some)
  {
    if some != [] {
      var last := some[|some| - 1];
      MostIsMost(votes, some[..|some| - 1]);
      AbsentTally(votes, last.value);
      assert last in votes;
      assert some == some[..|some| - 1] + [last];
    }
  }

  lemma MostByCounts(votes: seq<RevealedVote>, most: nat)
    requires votes != []
    requires forall v | v in Counts(votes) :: Counts(votes)[v] <= most
    requires most == 0 || exists v :: v in Counts(votes) && Counts(votes)[v] == most
    ensures most == Most(votes, votes)
  {
    MostIsMost(votes, votes);
    var mode :| 0 <= mode < |votes| && Tally(votes, votes[mode].value) == Most(votes, votes);
    assert votes[mode].value in Counts(votes);
    var v :| v in Counts(votes) && Counts(votes)[v] == most;
    var holder :| 0 <= holder < |votes| && votes[holder].value == v;
    assert votes[holder] in votes;
  }

  /** Every vote is counted once. */
  lemma {:induction false} CountsSumToVotes(votes: seq<RevealedVote>)
    ensures MapSums.MapSum(Counts(votes)) == |votes|
  {
    if votes == [] {
      assert Counts(votes) == map[];
    } else {
      var rest, last := votes[..|votes| - 1], votes[|votes| - 1];
      assert votes == rest + [last];
      CountsSumToVotes(rest);
      CountsAppend(rest, last);
      MapSums.MapSumAdd(Counts(rest), last.value, 1);
    }
  }

  ghost predicate IsMode(votes: seq<RevealedVote>, option: string) {
    forall other :: Tally(votes, other) <= Tally(votes, option)
  }

  ghost function Modes(votes: seq<RevealedVote>, deck: seq<string>): seq<string> {
    if deck == [] then []
    else
      var last := deck[|deck| - 1];
      Modes(votes, deck[..|deck| - 1]) + if IsMode(votes, last) then [last] else []
  }

  lemma {:induction false} WithTallyIsModes(votes: seq<RevealedVote>, deck: seq<string>, count: nat)
    requires forall option :: Tally(votes, option) == count <==> IsMode(votes, option)
    ensures WithTally(votes, deck, count) == Modes(votes, deck)
    ensures forall option :: option in Modes(votes, deck) <==> option in deck && IsMode(votes, option)
  {
    if deck != [] {
      WithTallyIsModes(votes, deck[..|deck| - 1], count);
      assert deck == deck[..|deck| - 1] + [deck[|deck| - 1]];
    }
  }

  /** Top lists exactly the most chosen options, in deck order, and never comes back empty. */
  lemma TopIsExactlyTheModes(votes: seq<RevealedVote>, deck: seq<string>)
    requires forall i | 0 <= i < |votes| :: votes[i].value in deck
    ensures TopOf(votes, deck).None? <==> votes == []
    ensures votes != [] ==>
              var top := TopOf(votes, deck).value;
              && top.values != [] && top.values == Modes(votes, deck)
              && (forall option :: option in top.values <==> option in deck && IsMode(votes, option))
              && (forall option | option in top.values :: Tally(votes, option) == top.count)
              && (top.tied <==> |top.values| > 1)
  {
    if votes != [] {
      var most := Most(votes, votes);
      MostIsMost(votes, votes);
      forall option ensures Tally(votes, option) <= most {
        AbsentTally(votes, option);
      }
      var i :| 0 <= i < |votes| && Tally(votes, votes[i].value) == most;
      assert forall option :: Tally(votes, option) == most <==> IsMode(votes, option);
      WithTallyIsModes(votes, deck, most);
      assert votes[i].value in Modes(votes, deck);
    }
  }

  lemma {:induction false} SumBetween(xs: seq<real>, low: real, high: real)
    requires forall i | 0 <= i < |xs| :: low <= xs[i] <= high
    ensures low * |xs| as real <= Sum(xs) <= high * |xs| as real
  {
    if xs != [] {
      SumBetween(xs[..|xs| - 1], low, high);
      var k := |xs| - 1;
      assert low * |xs| as real == low * k as real + low;
      assert high * |xs| as real == high * k as real + high;
    }
  }

  lemma ScaleStrictly(a: real, b: real, n: real)
    requires a < b && n > 0.0
    ensures a * n < b * n
  {
    assert (b - a) * n > 0.0;
  }

  lemma DivideBetween(low: real, high: real, sum: real, n: real)
    requires n > 0.0 && low * n <= sum <= high * n
    ensures low <= sum / n <= high && sum / n * n == sum
  {
    var mean := sum / n;
    assert mean * n == sum;
    if mean < low {
      ScaleStrictly(mean, low, n);
    }
    if mean > high {
      ScaleStrictly(high, mean, n);
    }
  }

  lemma SortedEnds(nums: seq<real>)
    requires nums != [] && Sorted(RealLe, nums)
    ensures forall i | 0 <= i < |nums| :: nums[0] <= nums[i] <= nums[|nums| - 1]
  {
    forall i | 0 <= i < |nums| ensures nums[0] <= nums[i] <= nums[|nums| - 1] {
      assert i > 0 ==> RealLe(nums[0], nums[i]);
      assert i < |nums| - 1 ==> RealLe(nums[i], nums[|nums| - 1]);
    }
  }

  lemma MeanBetween(nums: seq<real>)
    requires nums != [] && Sorted(RealLe, nums)
    ensures var mean := Sum(nums) / |nums| as real;
            nums[0] <= mean <= nums[|nums| - 1] && mean * |nums| as real == Sum(nums)
  {
    hide Sum;
    SortedEnds(nums);
    SumBetween(nums, nums[0], nums[|nums| - 1]);
    DivideBetween(nums[0], nums[|nums| - 1], Sum(nums), |nums| as real);
  }

  lemma MedianBetween(nums: seq<real>)
    requires nums != [] && Sorted(RealLe, nums)
    ensures nums[0] <= Median(nums) <= nums[|nums| - 1]
  {
    var n := |nums|;
    assert forall i | 0 <= i < n :: RealLe(nums[0], nums[i]) && RealLe(nums[i], nums[n - 1]);
    assert n % 2 == 0 ==> n / 2 >= 1;
  }

  /** The summary of numbers, in whatever order they come, is attained by them and encloses them. */
  ghost predicate Summarises(s: NumericStats, nums: seq<real>) {
    && s.min in nums && s.max in nums
    && (forall x | x in nums :: s.min <= x <= s.max)
    && s.min <= s.median <= s.max
    && s.min <= s.mean <= s.max
    && s.mean * |nums| as real == Sum(nums)
    && s.spread == s.max - s.min
  }

  lemma SortedSummary(nums: seq<real>)
    requires nums != [] && Sorted(RealLe, nums)
    ensures Summarises(NumericOf(nums).value, nums)
    ensures ConsensusOf(nums) <==> forall x, y | x in nums && y in nums :: x == y
  {
    MeanBetween(nums);
    MedianBetween(nums);
    assert forall i | 0 <= i < |nums| :: RealLe(nums[0], nums[i]) && RealLe(nums[i], nums[|nums| - 1]);
    assert nums[0] in nums && nums[|nums| - 1] in nums;
  }

  /** The numeric part appears exactly when something numeric was voted, its bounds are attained and
      enclose every number, and consensus means that all the numbers are one. */
  lemma NumericStatsAreSound(votes: seq<RevealedVote>, deck: seq<string>, parse: Parser)
    ensures var st, nums := StatsOf(votes, deck, parse), Numbers(votes, parse);
            && (st.numeric.Some? <==> nums != [])
            && (nums != [] ==> Summarises(st.numeric.value, nums))
            && (st.consensus <==> nums != [] && forall x, y | x in nums && y in nums :: x == y)
  {
    var nums := Numbers(votes, parse);
    var sorted := Sort(RealLe, nums);
    RealOrder();
    SortSorts(RealLe, nums);
    SameElements(nums, sorted);
    SumForgetsOrder(nums, sorted);
    if nums != [] {
      SortedSummary(sorted);
      Resummarise(NumericOf(sorted).value, sorted, nums);
    }
  }

  lemma SameElements(a: seq<real>, b: seq<real>)
    requires multiset(a) == multiset(b)
    ensures |a| == |b|
    ensures forall x :: x in a <==> x in b
  {
    assert |a| == |multiset(a)| == |b|;
    forall x ensures x in a <==> x in b {
      assert x in multiset(a) <==> x in multiset(b);
    }
  }

  lemma Resummarise(s: NumericStats, a: seq<real>, b: seq<real>)
    requires Summarises(s, a)
    requires |a| == |b| && Sum(a) == Sum(b) && forall x :: x in a <==> x in b
    ensures Summarises(s, b)
  {
  }

  lemma {:induction false} SumSplit(a: seq<real>, b: seq<real>)
    ensures Sum(a + b) == Sum(a) + Sum(b)
  {
    if b == [] {
      assert a + b == a;
    } else {
      assert (a + b)[..|a + b| - 1] == a + b[..|b| - 1];
      SumSplit(a, b[..|b| - 1]);
    }
  }

  lemma {:induction false} SumForgetsOrder(a: seq<real>, b: seq<real>)
    requires multiset(a) == multiset(b)
    ensures Sum(a) == Sum(b)
  {
    if a == [] {
      assert |multiset(b)| == 0;
    } else {
      var j := PluckLast(a, b);
      var x, l, r := b[j], b[..j], b[j + 1..];
      SumForgetsOrder(a[..|a| - 1], l + r);
      SumSplit(l, r);
      SumSplit(l + [x], r);
      assert (l + [x])[..|l|] == l;
    }
  }

  /** How many of the numbers pass a test. */
  function Passing(nums: seq<real>, test: real -> bool): nat {
    if nums == [] then 0 else Passing(nums[..|nums| - 1], test) + if test(nums[|nums| - 1]) then 1 else 0
  }

  lemma {:induction false} PassingSplit(a: seq<real>, b: seq<real>, test: real -> bool)
    ensures Passing(a + b, test) == Passing(a, test) + Passing(b, test)
  {
    if b == [] {
      assert a + b == a;
    } else {
      assert (a + b)[..|a + b| - 1] == a + b[..|b| - 1];
      PassingSplit(a, b[..|b| - 1], test);
    }
  }

  lemma {:induction false} PassingForgetsOrder(a: seq<real>, b: seq<real>, test: real -> bool)
    requires multiset(a) == multiset(b)
    ensures Passing(a, test) == Passing(b, test)
  {
    if a == [] {
      assert |multiset(b)| == 0;
    } else {
      var j := PluckLast(a, b);
      var x, l, r := b[j], b[..j], b[j + 1..];
      PassingForgetsOrder(a[..|a| - 1], l + r, test);
      PassingSplit(l, r, test);
      PassingSplit(l + [x], r, test);
      assert (l + [x])[..|l|] == l;
    }
  }

  lemma {:induction false} AllPass(nums: seq<real>, test: real -> bool)
    requires forall i | 0 <= i < |nums| :: test(nums[i])
    ensures Passing(nums, test) == |nums|
  {
    if nums != [] {
      AllPass(nums[..|nums| - 1], test);
    }
  }

  lemma SomePass(nums: seq<real>, from: nat, to: nat, test: real -> bool)
    requires from <= to <= |nums| && forall i | from <= i < to :: test(nums[i])
    ensures Passing(nums, test) >= to - from
  {
    var left, middle, right := nums[..from], nums[from..to], nums[to..];
    assert nums == left + (middle + right);
    PassingSplit(left, middle + right, test);
    PassingSplit(middle, right, test);
    AllPass(middle, test);
  }

  lemma SortedHalves(nums: seq<real>, median: real)
    requires nums != [] && Sorted(RealLe, nums) && median == Median(nums)
    ensures 2 * Passing(nums, x => x <= median) >= |nums| && 2 * Passing(nums, x => x >= median) >= |nums|
  {
    hide Passing;
    var n := |nums|;
    var low, high := (n - 1) / 2, n / 2;
    assert n % 2 == 0 ==> high == low + 1 && RealLe(nums[low], nums[high]);
    assert nums[low] <= median <= nums[high];
    forall i | 0 <= i < n ensures (i <= low ==> nums[i] <= median) && (i >= high ==> nums[i] >= median) {
      assert i < low ==> RealLe(nums[i], nums[low]);
      assert i > high ==> RealLe(nums[high], nums[i]);
    }
    SomePass(nums, 0, low + 1, x => x <= median);
    SomePass(nums, high, n, x => x >= median);
  }

  /** Half of the numbers voted for are at most the median, and half at least. */
  lemma MedianSplitsTheVotes(votes: seq<RevealedVote>, deck: seq<string>, parse: Parser)
    requires Numbers(votes, parse) != []
    ensures var nums, numeric := Numbers(votes, parse), StatsOf(votes, deck, parse).numeric;
            && numeric.Some?
            && 2 * Passing(nums, x => x <= numeric.value.median) >= |nums|
            && 2 * Passing(nums, x => x >= numeric.value.median) >= |nums|
  {
    var nums := Numbers(votes, parse);
    var sorted := Sort(RealLe, nums);
    RealOrder();
    SortKeepsMembers(RealLe, nums);
    SortSorts(RealLe, nums);
    var median := Median(sorted);
    SortedHalves(sorted, median);
    PassingForgetsOrder(sorted, nums, x => x <= median);
    PassingForgetsOrder(sorted, nums, x => x >= median);
  }

  // ---------- the median is the midpoint ----------

  /** Every number mirrored in the point `b / 2`. */
  function Mirrored(xs: seq<real>, b: real): seq<real> {
    if xs == [] then [] else Mirrored(xs[..|xs| - 1], b) + [b - xs[|xs| - 1]]
  }

  /** The same, back to front. */
  function Flipped(xs: seq<real>, b: real): (ys: seq<real>)
    ensures |ys| == |xs|
    ensures forall i | 0 <= i < |xs| :: ys[i] == b - xs[|xs| - 1 - i]
  {
    if xs == [] then [] else [b - xs[|xs| - 1]] + Flipped(xs[..|xs| - 1], b)
  }

  lemma {:induction false} FlippedIsMirrored(xs: seq<real>, b: real)
    ensures multiset(Flipped(xs, b)) == multiset(Mirrored(xs, b))
  {
    if xs != [] {
      FlippedIsMirrored(xs[..|xs| - 1], b);
    }
  }

  lemma {:induction false} MirroredSplit(xs: seq<real>, ys: seq<real>, b: real)
    ensures Mirrored(xs + ys, b) == Mirrored(xs, b) + Mirrored(ys, b)
  {
    if ys == [] {
      assert xs + ys == xs;
    } else {
      assert (xs + ys)[..|xs + ys| - 1] == xs + ys[..|ys| - 1];
      MirroredSplit(xs, ys[..|ys| - 1], b);
    }
  }

  lemma OneMoreMirrored(xs: seq<real>, x: real, b: real)
    ensures Mirrored(xs + [x], b) == Mirrored(xs, b) + [b - x]
  {
    assert (xs + [x])[..|xs|] == xs;
  }

  lemma {:induction false} MirroredForgetsOrder(xs: seq<real>, ys: seq<real>, b: real)
    requires multiset(xs) == multiset(ys)
    ensures multiset(Mirrored(xs, b)) == multiset(Mirrored(ys, b))
  {
    hide Mirrored;
    if xs == [] {
      assert |multiset(ys)| == 0;
    } else {
      var j := PluckLast(xs, ys);
      var x, init, l, r := ys[j], xs[..|xs| - 1], ys[..j], ys[j + 1..];
      MirroredForgetsOrder(init, l + r, b);
      MirroredSplit(l, r, b);
      MirroredSplit(l + [x], r, b);
      OneMoreMirrored(l, x, b);
      assert xs == init + [x];
      OneMoreMirrored(init, x, b);
    }
  }

  lemma SortedFlip(nums: seq<real>, b: real)
    ensures Sort(RealLe, Mirrored(nums, b)) == Flipped(Sort(RealLe, nums), b)
  {
    var sorted := Sort(RealLe, nums);
    RealOrder();
    SortSorts(RealLe, nums);
    SortSorts(RealLe, Mirrored(nums, b));
    MirroredForgetsOrder(nums, sorted, b);
    FlippedIsMirrored(sorted, b);
    forall i, j | 0 <= i < j < |sorted| ensures RealLe(Flipped(sorted, b)[i], Flipped(sorted, b)[j]) {
      assert RealLe(sorted[|sorted| - 1 - j], sorted[|sorted| - 1 - i]);
    }
    SortedIsUnique(RealLe, Sort(RealLe, Mirrored(nums, b)), Flipped(sorted, b));
  }

  ghost predicate Mirrors(votes: seq<RevealedVote>, parse: Parser, mirror: Parser, b: real) {
    forall v | v in votes ::
      mirror(v.value) == if parse(v.value).Some? then Some(b - parse(v.value).value) else None
  }

  lemma {:induction false} NumbersMirrored(votes: seq<RevealedVote>, parse: Parser, mirror: Parser, b: real)
    requires Mirrors(votes, parse, mirror, b)
    ensures Numbers(votes, mirror) == Mirrored(Numbers(votes, parse), b)
  {
    if votes != [] {
      NumbersMirrored(votes[..|votes| - 1], parse, mirror, b);
      var rest, v := votes[..|votes| - 1], votes[|votes| - 1];
      assert v in votes;
      if parse(v.value).Some? {
        OneMoreMirrored(Numbers(rest, parse), parse(v.value).value, b);
      } else {
        assert Numbers(votes, parse) == Numbers(rest, parse) && Numbers(votes, mirror) == Numbers(rest, mirror);
      }
    }
  }

  lemma MedianOfFlipped(nums: seq<real>, b: real)
    requires nums != []
    ensures Median(Flipped(nums, b)) == b - Median(nums)
  {
  }

  /** Mirror what every card is worth, in any point, and the median is mirrored with it. Between two middle numbers
      only the midpoint does that. */
  lemma MedianIsMirrored(votes: seq<RevealedVote>, deck: seq<string>, parse: Parser, mirror: Parser, b: real)
    requires Mirrors(votes, parse, mirror, b) && Numbers(votes, parse) != []
    ensures var numeric, mirrored := StatsOf(votes, deck, parse).numeric, StatsOf(votes, deck, mirror).numeric;
            numeric.Some? && mirrored.Some? && mirrored.value.median == b - numeric.value.median
  {
    hide Mirrors, Median, Flipped, Mirrored, Sort, Numbers;
    var nums := Numbers(votes, parse);
    NumbersMirrored(votes, parse, mirror, b);
    SortedFlip(nums, b);
    RealOrder();
    SortKeepsMembers(RealLe, nums);
    MedianOfFlipped(Sort(RealLe, nums), b);
  }

  // ---------- every vote counts once ----------

  ghost function Choosing(votes: seq<RevealedVote>, option: string): set<int> {
    set i | 0 <= i < |votes| && votes[i].value == option
  }

  ghost function Worth(votes: seq<RevealedVote>, parse: Parser, x: real): set<int> {
    set i | 0 <= i < |votes| && parse(votes[i].value) == Some(x)
  }

  lemma {:induction false} TallyIsExact(votes: seq<RevealedVote>, option: string)
    ensures Tally(votes, option) == |Choosing(votes, option)|
  {
    if votes != [] {
      var k := |votes| - 1;
      TallyIsExact(votes[..k], option);
      var last := if votes[k].value == option then {k} else {};
      assert Choosing(votes, option) == Choosing(votes[..k], option) + last;
    }
  }

  /** The counts are those of the options chosen, each as often as it was, and of no others. */
  lemma CountsAreExact(votes: seq<RevealedVote>, deck: seq<string>, parse: Parser, option: string)
    ensures var counts := StatsOf(votes, deck, parse).counts;
            && (option in counts <==> Choosing(votes, option) != {})
            && (option in counts ==> counts[option] == |Choosing(votes, option)|)
  {
    TallyIsExact(votes, option);
    if option in Counts(votes) {
      var i :| 0 <= i < |votes| && votes[i].value == option;
      assert i in Choosing(votes, option);
    }
    if i :| i in Choosing(votes, option) {
      assert votes[i].value in Counts(votes);
    }
  }

  /** A number is there as often as it was voted for. */
  lemma {:induction false} NumbersAreExact(votes: seq<RevealedVote>, parse: Parser, x: real)
    ensures multiset(Numbers(votes, parse))[x] == |Worth(votes, parse, x)|
  {
    if votes != [] {
      var k := |votes| - 1;
      NumbersAreExact(votes[..k], parse, x);
      var last := if parse(votes[k].value) == Some(x) then {k} else {};
      assert Worth(votes, parse, x) == Worth(votes[..k], parse, x) + last;
    }
  }

  lemma {:induction false} NumbersAppend(a: seq<RevealedVote>, b: seq<RevealedVote>, parse: Parser)
    ensures Numbers(a + b, parse) == Numbers(a, parse) + Numbers(b, parse)
  {
    if b == [] {
      assert a + b == a;
    } else {
      assert (a + b)[..|a + b| - 1] == a + b[..|b| - 1];
      NumbersAppend(a, b[..|b| - 1], parse);
    }
  }

  lemma {:induction false} TallyAppend(a: seq<RevealedVote>, b: seq<RevealedVote>, option: string)
    ensures Tally(a + b, option) == Tally(a, option) + Tally(b, option)
  {
    if b == [] {
      assert a + b == a;
    } else {
      assert (a + b)[..|a + b| - 1] == a + b[..|b| - 1];
      TallyAppend(a, b[..|b| - 1], option);
    }
  }

  lemma MoveToEnd(l: seq<RevealedVote>, v: RevealedVote, r: seq<RevealedVote>, parse: Parser)
    ensures forall option :: Tally(l + [v] + r, option) == Tally(l + r + [v], option)
    ensures multiset(Numbers(l + [v] + r, parse)) == multiset(Numbers(l + r + [v], parse))
  {
    forall option ensures Tally(l + [v] + r, option) == Tally(l + r + [v], option) {
      TallyAppend(l, r, option);
      TallyAppend(l + [v], r, option);
      TallyAppend(l, [v], option);
      TallyAppend(l + r, [v], option);
    }
    NumbersAppend(l, r, parse);
    NumbersAppend(l + [v], r, parse);
    NumbersAppend(l, [v], parse);
    NumbersAppend(l + r, [v], parse);
  }

  lemma SameLast(a: seq<RevealedVote>, b: seq<RevealedVote>, v: RevealedVote, parse: Parser)
    requires forall option :: Tally(a, option) == Tally(b, option)
    requires multiset(Numbers(a, parse)) == multiset(Numbers(b, parse))
    ensures forall option :: Tally(a + [v], option) == Tally(b + [v], option)
    ensures multiset(Numbers(a + [v], parse)) == multiset(Numbers(b + [v], parse))
  {
    assert (a + [v])[..|a|] == a && (b + [v])[..|b|] == b;
  }

  lemma {:induction false} ShufflingKeepsTallies(a: seq<RevealedVote>, b: seq<RevealedVote>, parse: Parser)
    requires multiset(a) == multiset(b)
    ensures forall option :: Tally(a, option) == Tally(b, option)
    ensures multiset(Numbers(a, parse)) == multiset(Numbers(b, parse))
  {
    if a == [] {
      assert |multiset(b)| == 0;
    } else {
      var j := PluckLast(a, b);
      var v, rest, l, r := b[j], a[..|a| - 1], b[..j], b[j + 1..];
      assert a == rest + [v];
      ShufflingKeepsTallies(rest, l + r, parse);
      SameLast(rest, l + r, v, parse);
      MoveToEnd(l, v, r, parse);
    }
  }

  lemma SameCounts(a: seq<RevealedVote>, b: seq<RevealedVote>)
    requires forall option :: Tally(a, option) == Tally(b, option)
    ensures Counts(a) == Counts(b)
  {
    forall option ensures option in Counts(a) <==> option in Counts(b) {
      AbsentTally(a, option);
      AbsentTally(b, option);
    }
  }

  lemma SameMost(a: seq<RevealedVote>, b: seq<RevealedVote>)
    requires a != [] && b != []
    requires forall option :: Tally(a, option) == Tally(b, option)
    ensures Most(a, a) == Most(b, b)
  {
    MostIsMost(a, a);
    MostIsMost(b, b);
    var i :| 0 <= i < |a| && Tally(a, a[i].value) == Most(a, a);
    var j :| 0 <= j < |b| && Tally(b, b[j].value) == Most(b, b);
    AbsentTally(b, a[i].value);
    AbsentTally(a, b[j].value);
    var i' :| 0 <= i' < |b| && b[i'].value == a[i].value;
    var j' :| 0 <= j' < |a| && a[j'].value == b[j].value;
    assert b[i'] in b && a[j'] in a;
  }

  lemma {:induction false} SameTallies(a: seq<RevealedVote>, b: seq<RevealedVote>, deck: seq<string>, count: nat)
    requires forall option :: Tally(a, option) == Tally(b, option)
    ensures WithTally(a, deck, count) == WithTally(b, deck, count)
  {
    if deck != [] {
      SameTallies(a, b, deck[..|deck| - 1], count);
    }
  }

  /** Who voted first does not matter. */
  lemma StatsForgetVoteOrder(a: seq<RevealedVote>, b: seq<RevealedVote>, deck: seq<string>, parse: Parser)
    requires multiset(a) == multiset(b)
    ensures StatsOf(a, deck, parse) == StatsOf(b, deck, parse)
  {
    ShufflingKeepsTallies(a, b, parse);
    RealOrder();
    SortForgetsOrder(RealLe, Numbers(a, parse), Numbers(b, parse));
    assert |a| == |multiset(a)| == |b|;
    SameCounts(a, b);
    if a != [] {
      SameMost(a, b);
      SameTallies(a, b, deck, Most(a, a));
    }
  }
}
