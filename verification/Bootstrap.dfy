/** The cluster bootstrap of the experiment: tickets are drawn with replacement by a seeded generator, and the
    effect's interval is read off the sorted effects of the samples. */
module Bootstrap {
  import opened Wire
  import opened Sorting
  import RoundStats
  import Awards

  // ---------- the generator ----------

  const MULTIPLIER := 0x2545F4914F6CDD1D
  const WORDS := 0x1_0000_0000_0000_0000
  const SEED: bv64 := 42

  function Fold12(s: bv64): bv64 {
    s ^ (s >> 12)
  }

  function Fold25(s: bv64): bv64 {
    s ^ (s << 25)
  }

  function Fold27(s: bv64): bv64 {
    s ^ (s >> 27)
  }

  function Scramble(s: bv64): bv64 {
    Fold27(Fold25(Fold12(s)))
  }

  /** What the state `s` is handed out as: its product with the multiplier, wrapped to 64 bits. */
  function Output(s: bv64): nat {
    s as nat * MULTIPLIER % WORDS
  }

  function Draw(s: bv64, n: nat): (k: nat)
    requires n > 0
    ensures k < n
  {
    Output(s) % n
  }

  /** The generator's state after `k` more numbers. */
  function After(s: bv64, k: nat): bv64
    decreases k
  {
    if k == 0 then s else Scramble(After(s, k - 1))
  }

  class Rng {
    var s: bv64

    constructor (seed: bv64)
      ensures s == seed
    {
      s := seed;
    }

    method Next() returns (x: nat)
      modifies this
      ensures s == Scramble(old(s)) && x == Output(s)
    {
      hide Fold12, Fold25, Fold27;
      s := Fold12(s);
      s := Fold25(s);
      s := Fold27(s);
      x := s as nat * MULTIPLIER % WORDS;
    }

    method Intn(n: nat) returns (k: nat)
      requires n > 0
      modifies this
      ensures s == Scramble(old(s)) && k == Draw(s, n)
    {
      hide Scramble, Output;
      var x := Next();
      k := x % n;
    }
  }

  lemma Fold12Zero(s: bv64)
    ensures Fold12(s) == 0 <==> s == 0
  {
  }

  lemma Fold25Zero(s: bv64)
    ensures Fold25(s) == 0 <==> s == 0
  {
  }

  lemma Fold27Zero(s: bv64)
    ensures Fold27(s) == 0 <==> s == 0
  {
  }

  /** Zero is where the generator would be stuck, and it gets there only from there. */
  lemma {:induction false} NeverStuck(s: bv64, k: nat)
    ensures After(s, k) == 0 <==> s == 0
    decreases k
  {
    if k > 0 {
      NeverStuck(s, k - 1);
      hide Fold12, Fold25, Fold27;
      var a := After(s, k - 1);
      Fold12Zero(a);
      Fold25Zero(Fold12(a));
      Fold27Zero(Fold25(Fold12(a)));
    }
  }

  // ---------- means and quantiles ----------

  function MeanOf(xs: seq<real>): real
    requires xs != []
  {
    RoundStats.Sum(xs) / |xs| as real
  }

  /** The mean, or nothing where the program answers NaN. */
  method Mean(xs: seq<real>) returns (mean: Option<real>)
    ensures mean == if xs == [] then None else Some(MeanOf(xs))
  {
    if |xs| == 0 {
      return None;
    }
    var s := 0.0;
    for i := 0 to |xs|
      invariant s == RoundStats.Sum(xs[..i])
    {
      assert xs[..i + 1][..i] == xs[..i];
      s := s + xs[i];
    }
    assert xs[..|xs|] == xs;
    mean := Some(s / |xs| as real);
  }

  lemma MeanBetween(xs: seq<real>, low: real, high: real)
    requires xs != [] && forall i | 0 <= i < |xs| :: low <= xs[i] <= high
    ensures low <= MeanOf(xs) <= high
  {
    RoundStats.SumBetween(xs, low, high);
    RoundStats.DivideBetween(low, high, RoundStats.Sum(xs), |xs| as real);
  }

  function Scaled(q: real, n: real): real {
    q * n
  }

  lemma ScaledBetween(p: real, q: real, n: real)
    requires 0.0 <= p <= q <= 1.0 && n >= 0.0
    ensures 0.0 <= Scaled(p, n) <= Scaled(q, n) <= n
  {
  }

  /** Rounding half away from zero, as it is for what is not negative. */
  function Round(x: real): int {
    (x + 0.5).Floor
  }

  function Rank(q: real, n: nat): (i: nat)
    requires 0.0 <= q <= 1.0 && n > 0
    ensures i < n
  {
    ScaledBetween(q, q, (n - 1) as real);
    Round(Scaled(q, (n - 1) as real))
  }

  /** A higher quantile is never read off an earlier place. */
  lemma RankRises(p: real, q: real, n: nat)
    requires 0.0 <= p <= q <= 1.0 && n > 0
    ensures Rank(p, n) <= Rank(q, n)
  {
    ScaledBetween(p, q, (n - 1) as real);
  }

  method Quantile(sorted: seq<real>, q: real) returns (x: Option<real>)
    requires 0.0 <= q <= 1.0
    ensures x == if sorted == [] then None else Some(sorted[Rank(q, |sorted|)])
  {
    if |sorted| == 0 {
      return None;
    }
    var i := Rank(q, |sorted|);
    x := Some(sorted[i]);
  }

  // ---------- the samples ----------

  type Trials = map<string, map<string, seq<real>>>

  function Arm(arms: map<string, seq<real>>, arm: string): seq<real> {
    if arm in arms then arms[arm] else []
  }

  /** The tickets with trials in both arms. */
  function Eligible(byTicket: Trials, lo: string, hi: string): set<string> {
    set t | t in byTicket && Arm(byTicket[t], lo) != [] && Arm(byTicket[t], hi) != []
  }

  ghost function Tickets(byTicket: Trials, lo: string, hi: string): seq<string> {
    Sort(StringLe, Awards.Listing(Eligible(byTicket, lo, hi)))
  }

  /** `k` tickets drawn with replacement by a generator in state `s`. */
  function Picks(tickets: seq<string>, s: bv64, k: nat): seq<string>
    requires tickets != []
    decreases k
  {
    if k == 0 then [] else Picks(tickets, s, k - 1) + [tickets[Draw(After(s, k), |tickets|)]]
  }

  function Pooled(byTicket: Trials, arm: string, picks: seq<string>): seq<real>
    requires forall t | t in picks :: t in byTicket
  {
    if picks == [] then []
    else
      var k := |picks| - 1;
      Pooled(byTicket, arm, picks[..k]) + Arm(byTicket[picks[k]], arm)
  }

  ghost predicate AllEligible(byTicket: Trials, lo: string, hi: string, tickets: seq<string>) {
    forall t | t in tickets :: t in Eligible(byTicket, lo, hi)
  }

  ghost predicate Usable(byTicket: Trials, lo: string, hi: string, tickets: seq<string>) {
    tickets != [] && AllEligible(byTicket, lo, hi, tickets)
  }

  lemma {:induction false} PicksAreTickets(tickets: seq<string>, s: bv64, k: nat)
    requires tickets != []
    ensures |Picks(tickets, s, k)| == k && forall t | t in Picks(tickets, s, k) :: t in tickets
    decreases k
  {
    if k > 0 {
      PicksAreTickets(tickets, s, k - 1);
    }
  }

  lemma {:induction false} PooledIsNotEmpty(byTicket: Trials, lo: string, hi: string, picks: seq<string>)
    requires Usable(byTicket, lo, hi, picks)
    ensures Pooled(byTicket, lo, picks) != [] && Pooled(byTicket, hi, picks) != []
  {
    assert picks[|picks| - 1] in picks;
  }

  /** The effect in one sample: as many draws as there are tickets, and the difference of the pooled means. */
  ghost function Effect(byTicket: Trials, lo: string, hi: string, tickets: seq<string>, s: bv64): real
    requires Usable(byTicket, lo, hi, tickets)
  {
    PicksAreTickets(tickets, s, |tickets|);
    var picks := Picks(tickets, s, |tickets|);
    PooledIsNotEmpty(byTicket, lo, hi, picks);
    MeanOf(Pooled(byTicket, hi, picks)) - MeanOf(Pooled(byTicket, lo, picks))
  }

  /** The generator's state after `i` samples of `k` draws. */
  function Later(s: bv64, k: nat, i: nat): bv64
    decreases i
  {
    if i == 0 then s else After(Later(s, k, i - 1), k)
  }

  ghost function Effects(byTicket: Trials, lo: string, hi: string, tickets: seq<string>, n: nat): (es: seq<real>)
    requires Usable(byTicket, lo, hi, tickets)
    ensures |es| == n
    decreases n
  {
    if n == 0 then []
    else Effects(byTicket, lo, hi, tickets, n - 1)
         + [Effect(byTicket, lo, hi, tickets, Later(SEED, |tickets|, n - 1))]
  }

  // ---------- the interval ----------

  /** The tickets are the eligible ones, each once, in order: whatever order the map was walked in. */
  lemma TicketsAreTheEligible(byTicket: Trials, lo: string, hi: string)
    ensures var tickets, these := Tickets(byTicket, lo, hi), Eligible(byTicket, lo, hi);
            && Sorted(StringLe, tickets) && multiset(tickets) == multiset(these)
            && (forall t :: t in tickets <==> t in these)
  {
    StringOrder();
    var these := Eligible(byTicket, lo, hi);
    SortSorts(StringLe, Awards.Listing(these));
    var tickets := Tickets(byTicket, lo, hi);
    forall t ensures t in tickets <==> t in these {
      assert t in multiset(tickets) <==> t in multiset(these);
    }
  }

  datatype Interval = Interval(lower: real, upper: real)

  ghost function InOrder(es: seq<real>): (sorted: seq<real>)
    ensures |sorted| == |es| && Sorted(RealLe, sorted)
    ensures forall e :: e in sorted <==> e in es
  {
    SortKeepsMembers(RealLe, es);
    Sort(RealLe, es)
  }

  ghost function IntervalOf(byTicket: Trials, lo: string, hi: string, n: nat): Option<Interval>
    requires n > 0
  {
    var tickets := Tickets(byTicket, lo, hi);
    TicketsAreTheEligible(byTicket, lo, hi);
    if tickets == [] then None
    else
      var es := InOrder(Effects(byTicket, lo, hi, tickets, n));
      Some(Interval(es[Rank(0.025, n)], es[Rank(0.975, n)]))
  }

  method FindTickets(byTicket: Trials, lo: string, hi: string) returns (tickets: seq<string>)
    ensures tickets == Tickets(byTicket, lo, hi)
  {
    tickets := [];
    ghost var found: set<string> := {};
    var left := byTicket.Keys;
    while left != {}
      invariant left <= byTicket.Keys
      invariant found == set t | t in Eligible(byTicket, lo, hi) && t !in left
      invariant multiset(tickets) == multiset(found)
    {
      var t :| t in left;
      left := left - {t};
      if |Arm(byTicket[t], lo)| > 0 && |Arm(byTicket[t], hi)| > 0 {
        found := found + {t};
        tickets := tickets + [t];
      }
    }
    assert found == Eligible(byTicket, lo, hi);
    StringOrder();
    SortForgetsOrder(StringLe, tickets, Awards.Listing(found));
    tickets := Sort(StringLe, tickets);
  }

  method Sample(byTicket: Trials, lo: string, hi: string, tickets: seq<string>, r: Rng) returns (diff: real)
    requires Usable(byTicket, lo, hi, tickets)
    modifies r
    ensures r.s == After(old(r.s), |tickets|)
    ensures diff == Effect(byTicket, lo, hi, tickets, old(r.s))
  {
    hide Draw, Scramble, MeanOf;
    var his, los := Pool(byTicket, lo, hi, tickets, r);
    PicksAreTickets(tickets, old(r.s), |tickets|);
    PooledIsNotEmpty(byTicket, lo, hi, Picks(tickets, old(r.s), |tickets|));
    var high := Mean(his);
    var low := Mean(los);
    diff := high.value - low.value;
  }

  method Pool(byTicket: Trials, lo: string, hi: string, tickets: seq<string>, r: Rng)
    returns (his: seq<real>, los: seq<real>)
    requires Usable(byTicket, lo, hi, tickets)
    modifies r
    ensures r.s == After(old(r.s), |tickets|)
    ensures var picks := Picks(tickets, old(r.s), |tickets|);
            && (forall t | t in picks :: t in byTicket)
            && his == Pooled(byTicket, hi, picks) && los == Pooled(byTicket, lo, picks)
  {
    hide Draw, Scramble;
    his, los := [], [];
    ghost var picks := [];
    for i := 0 to |tickets|
      invariant r.s == After(old(r.s), i)
      invariant picks == Picks(tickets, old(r.s), i)
      invariant forall t | t in picks :: t in tickets
      invariant his == Pooled(byTicket, hi, picks) && los == Pooled(byTicket, lo, picks)
    {
      var k := r.Intn(|tickets|);
      var t := tickets[k];
      assert t in tickets;
      his := his + Arm(byTicket[t], hi);
      los := los + Arm(byTicket[t], lo);
      assert (picks + [t])[..|picks|] == picks;
      picks := picks + [t];
    }
  }

  method Resample(byTicket: Trials, lo: string, hi: string, tickets: seq<string>, n: nat) returns (diffs: seq<real>)
    requires Usable(byTicket, lo, hi, tickets)
    ensures diffs == Effects(byTicket, lo, hi, tickets, n)
  {
    hide Effect, Usable, After;
    var r := new Rng(SEED);
    diffs := [];
    for i := 0 to n
      invariant r.s == Later(SEED, |tickets|, i)
      invariant diffs == Effects(byTicket, lo, hi, tickets, i)
    {
      var diff := Sample(byTicket, lo, hi, tickets, r);
      diffs := diffs + [diff];
    }
  }

  /** The interval from `n` samples, or nothing where the program answers NaN. */
  method ClusterBootstrapCI(byTicket: Trials, lo: string, hi: string, n: nat) returns (ci: Option<Interval>)
    requires n > 0
    ensures ci == IntervalOf(byTicket, lo, hi, n)
  {
    hide Effects, Rank, Tickets, Eligible, Sort;
    var tickets := FindTickets(byTicket, lo, hi);
    TicketsAreTheEligible(byTicket, lo, hi);
    if |tickets| == 0 {
      return None;
    }
    var diffs := Resample(byTicket, lo, hi, tickets, n);
    SortKeepsMembers(RealLe, diffs);
    diffs := Sort(RealLe, diffs);
    var lower := Quantile(diffs, 0.025);
    var upper := Quantile(diffs, 0.975);
    ci := Some(Interval(lower.value, upper.value));
  }

  // ---------- what the interval encloses ----------

  /** Every trial of `arm`, on any ticket that is sampled, is within the bounds. */
  ghost predicate ArmWithin(byTicket: Trials, lo: string, hi: string, arm: string, least: real, most: real) {
    forall t, i | t in Eligible(byTicket, lo, hi) && 0 <= i < |Arm(byTicket[t], arm)| ::
      least <= Arm(byTicket[t], arm)[i] <= most
  }

  lemma {:induction false} PooledWithin(byTicket: Trials, lo: string, hi: string, arm: string, picks: seq<string>,
                                        least: real, most: real)
    requires AllEligible(byTicket, lo, hi, picks) && ArmWithin(byTicket, lo, hi, arm, least, most)
    ensures forall i | 0 <= i < |Pooled(byTicket, arm, picks)| :: least <= Pooled(byTicket, arm, picks)[i] <= most
  {
    if picks != [] {
      var k := |picks| - 1;
      PooledWithin(byTicket, lo, hi, arm, picks[..k], least, most);
      assert picks[k] in Eligible(byTicket, lo, hi);
    }
  }

  lemma EffectWithin(byTicket: Trials, lo: string, hi: string, tickets: seq<string>, s: bv64,
                     minLo: real, maxLo: real, minHi: real, maxHi: real)
    requires Usable(byTicket, lo, hi, tickets)
    requires ArmWithin(byTicket, lo, hi, lo, minLo, maxLo) && ArmWithin(byTicket, lo, hi, hi, minHi, maxHi)
    ensures minHi - maxLo <= Effect(byTicket, lo, hi, tickets, s) <= maxHi - minLo
  {
    hide MeanOf, ArmWithin;
    PicksAreTickets(tickets, s, |tickets|);
    var picks := Picks(tickets, s, |tickets|);
    PooledIsNotEmpty(byTicket, lo, hi, picks);
    PooledWithin(byTicket, lo, hi, lo, picks, minLo, maxLo);
    PooledWithin(byTicket, lo, hi, hi, picks, minHi, maxHi);
    MeanBetween(Pooled(byTicket, lo, picks), minLo, maxLo);
    MeanBetween(Pooled(byTicket, hi, picks), minHi, maxHi);
  }

  ghost predicate Within(xs: seq<real>, least: real, most: real) {
    forall x | x in xs :: least <= x <= most
  }

  lemma NoneWithin(least: real, most: real)
    ensures Within([], least, most)
  {
  }

  lemma OneMoreWithin(xs: seq<real>, x: real, least: real, most: real)
    requires Within(xs, least, most) && least <= x <= most
    ensures Within(xs + [x], least, most)
  {
  }

  lemma {:induction false} EffectsWithin(byTicket: Trials, lo: string, hi: string, tickets: seq<string>, n: nat,
                                         minLo: real, maxLo: real, minHi: real, maxHi: real)
    requires Usable(byTicket, lo, hi, tickets)
    requires ArmWithin(byTicket, lo, hi, lo, minLo, maxLo) && ArmWithin(byTicket, lo, hi, hi, minHi, maxHi)
    ensures Within(Effects(byTicket, lo, hi, tickets, n), minHi - maxLo, maxHi - minLo)
    decreases n
  {
    hide Effect, ArmWithin, Within;
    if n == 0 {
      NoneWithin(minHi - maxLo, maxHi - minLo);
    } else {
      EffectsWithin(byTicket, lo, hi, tickets, n - 1, minLo, maxLo, minHi, maxHi);
      var s := Later(SEED, |tickets|, n - 1);
      EffectWithin(byTicket, lo, hi, tickets, s, minLo, maxLo, minHi, maxHi);
      OneMoreWithin(Effects(byTicket, lo, hi, tickets, n - 1), Effect(byTicket, lo, hi, tickets, s),
                    minHi - maxLo, maxHi - minLo);
    }
  }

  /** There is an interval exactly when some ticket has trials in both arms. Its ends are in order, and they stay
      between the least and the greatest difference that bounds on the two arms' trials allow. */
  lemma IntervalIsEnclosed(byTicket: Trials, lo: string, hi: string, n: nat,
                           minLo: real, maxLo: real, minHi: real, maxHi: real)
    requires n > 0
    requires ArmWithin(byTicket, lo, hi, lo, minLo, maxLo) && ArmWithin(byTicket, lo, hi, hi, minHi, maxHi)
    ensures var ci := IntervalOf(byTicket, lo, hi, n);
            && (ci.Some? <==> exists t :: t in Eligible(byTicket, lo, hi))
            && (ci.Some? ==> minHi - maxLo <= ci.value.lower <= ci.value.upper <= maxHi - minLo)
  {
    hide ArmWithin, Effects, Rank, Tickets, Eligible, InOrder;
    TicketsAreTheEligible(byTicket, lo, hi);
    var tickets := Tickets(byTicket, lo, hi);
    if tickets != [] {
      assert tickets[0] in tickets;
      EffectsWithin(byTicket, lo, hi, tickets, n, minLo, maxLo, minHi, maxHi);
      var es := InOrder(Effects(byTicket, lo, hi, tickets, n));
      RankRises(0.025, 0.975, n);
      var i, j := Rank(0.025, n), Rank(0.975, n);
      assert es[i] in es && es[j] in es && (i < j ==> RealLe(es[i], es[j]));
    }
  }

  /** Arms whose trials are all alike leave no doubt: the interval is the one difference there is. */
  lemma ConstantArmsLeaveAPoint(byTicket: Trials, lo: string, hi: string, n: nat, low: real, high: real)
    requires n > 0 && Eligible(byTicket, lo, hi) != {}
    requires ArmWithin(byTicket, lo, hi, lo, low, low) && ArmWithin(byTicket, lo, hi, hi, high, high)
    ensures IntervalOf(byTicket, lo, hi, n) == Some(Interval(high - low, high - low))
  {
    hide IntervalOf, ArmWithin;
    IntervalIsEnclosed(byTicket, lo, hi, n, low, low, high, high);
    var t :| t in Eligible(byTicket, lo, hi);
  }
}
