/** What the bootstrap's samples are made of, and what share of them its interval leaves out. */
module Resampling {
  import opened Sorting
  import opened Bootstrap
  import RoundStats

  // ---------- the draws ----------

  lemma {:induction false} AfterAdds(s: bv64, a: nat, b: nat)
    ensures After(After(s, a), b) == After(s, a + b)
    decreases b
  {
    hide Scramble;
    if b > 0 {
      AfterAdds(s, a, b - 1);
    }
  }

  lemma {:induction false} LaterIsAfter(s: bv64, k: nat, i: nat)
    ensures Later(s, k, i) == After(s, k * i)
    decreases i
  {
    hide After;
    if i == 0 {
      NoneAfter(s, k);
    } else {
      LaterIsAfter(s, k, i - 1);
      AfterAdds(s, k * (i - 1), k);
      assert k * (i - 1) + k == k * i;
    }
  }

  lemma NoneAfter(s: bv64, k: nat)
    ensures After(s, k * 0) == s
  {
  }

  lemma {:induction false} PickIsDrawn(tickets: seq<string>, s: bv64, k: nat, i: nat)
    requires tickets != [] && i < k
    ensures |Picks(tickets, s, k)| == k
    ensures Picks(tickets, s, k)[i] == tickets[Draw(After(s, i + 1), |tickets|)]
    decreases k
  {
    hide After, Draw;
    PicksAreTickets(tickets, s, k - 1);
    if i < k - 1 {
      PickIsDrawn(tickets, s, k - 1, i);
    }
  }

  /** One generator serves all samples, a number to a draw: draw `j` of sample `i` takes number `k * i + j + 1`. */
  lemma DrawsFollowOneAnother(tickets: seq<string>, i: nat, j: nat)
    requires j < |tickets|
    ensures var k := |tickets|;
            && |Picks(tickets, Later(SEED, k, i), k)| == k
            && Picks(tickets, Later(SEED, k, i), k)[j] == tickets[Output(After(SEED, k * i + j + 1)) % k]
  {
    hide After, Output;
    var k := |tickets|;
    LaterIsAfter(SEED, k, i);
    PickIsDrawn(tickets, Later(SEED, k, i), k, j);
    AfterAdds(SEED, k * i, j + 1);
  }

  lemma FirstFolds()
    ensures Scramble(42) == 0x5400_0020 && Scramble(0x5400_0020) == 0x00A8_0A80_0104_1022
  {
  }

  lemma FirstOutputs()
    ensures Output(0x5400_0020) == 0x56CE_4AB7_719B_A3A0 && Output(0x00A8_0A80_0104_1022) == 0xC841_EB53_EBBB_2DDA
  {
  }

  /** The numbers xorshift64* gives first from seed 42. */
  lemma FirstNumbers()
    ensures Output(After(SEED, 1)) == 0x56CE_4AB7_719B_A3A0 && Output(After(SEED, 2)) == 0xC841_EB53_EBBB_2DDA
  {
    hide Scramble, Output;
    FirstFolds();
    FirstOutputs();
    assert After(SEED, 0) == 42;
    assert After(SEED, 1) == Scramble(42);
  }

  // ---------- every draw counts ----------

  /** All trials of `arm` on the tickets drawn, added up draw by draw. */
  ghost function Total(byTicket: Trials, arm: string, picks: seq<string>): real
    requires forall t | t in picks :: t in byTicket
  {
    if picks == [] then 0.0 else RoundStats.Sum(Arm(byTicket[picks[0]], arm)) + Total(byTicket, arm, picks[1..])
  }

  /** How many they are. */
  ghost function Size(byTicket: Trials, arm: string, picks: seq<string>): nat
    requires forall t | t in picks :: t in byTicket
  {
    if picks == [] then 0 else |Arm(byTicket[picks[0]], arm)| + Size(byTicket, arm, picks[1..])
  }

  lemma OneDraw(byTicket: Trials, arm: string, picks: seq<string>)
    requires |picks| == 1 && picks[0] in byTicket
    ensures Pooled(byTicket, arm, picks) == Arm(byTicket[picks[0]], arm) + Pooled(byTicket, arm, picks[1..])
  {
    assert picks[..0] == [] && picks[1..] == [];
  }

  lemma MoreDraws(byTicket: Trials, arm: string, picks: seq<string>, k: nat)
    requires |picks| == k + 1 && forall t | t in picks :: t in byTicket
    ensures Pooled(byTicket, arm, picks) == Pooled(byTicket, arm, picks[..k]) + Arm(byTicket[picks[k]], arm)
  {
  }

  lemma PutTogether(a: seq<real>, b: seq<real>, c: seq<real>)
    ensures (a + b) + c == a + (b + c)
  {
  }

  lemma {:induction false} PooledFromTheFront(byTicket: Trials, arm: string, picks: seq<string>)
    requires picks != [] && forall t | t in picks :: t in byTicket
    ensures Pooled(byTicket, arm, picks) == Arm(byTicket[picks[0]], arm) + Pooled(byTicket, arm, picks[1..])
  {
    hide Pooled;
    if |picks| == 1 {
      OneDraw(byTicket, arm, picks);
    } else {
      var k := |picks| - 1;
      PooledFromTheFront(byTicket, arm, picks[..k]);
      var rest, mid := picks[1..], picks[1..k];
      assert rest[..k - 1] == mid == picks[..k][1..];
      MoreDraws(byTicket, arm, picks, k);
      MoreDraws(byTicket, arm, rest, k - 1);
      PutTogether(Arm(byTicket[picks[0]], arm), Pooled(byTicket, arm, mid), Arm(byTicket[picks[k]], arm));
    }
  }

  lemma {:induction false} PooledAddsUp(byTicket: Trials, arm: string, picks: seq<string>)
    requires forall t | t in picks :: t in byTicket
    ensures RoundStats.Sum(Pooled(byTicket, arm, picks)) == Total(byTicket, arm, picks)
    ensures |Pooled(byTicket, arm, picks)| == Size(byTicket, arm, picks)
  {
    if picks != [] {
      PooledFromTheFront(byTicket, arm, picks);
      PooledAddsUp(byTicket, arm, picks[1..]);
      RoundStats.SumSplit(Arm(byTicket[picks[0]], arm), Pooled(byTicket, arm, picks[1..]));
    }
  }

  /** The effect of a sample is the difference of two means, each over every trial of every draw. */
  lemma EffectWeighsEveryDraw(byTicket: Trials, lo: string, hi: string, tickets: seq<string>, s: bv64)
    requires Usable(byTicket, lo, hi, tickets)
    ensures var picks := Picks(tickets, s, |tickets|);
            && (forall t | t in picks :: t in byTicket)
            && Size(byTicket, hi, picks) > 0 && Size(byTicket, lo, picks) > 0
            && Effect(byTicket, lo, hi, tickets, s)
               == Total(byTicket, hi, picks) / Size(byTicket, hi, picks) as real
                  - Total(byTicket, lo, picks) / Size(byTicket, lo, picks) as real
  {
    hide Draw, After, Total, Size, Pooled;
    var picks := Picks(tickets, s, |tickets|);
    PicksAreTickets(tickets, s, |tickets|);
    PooledIsNotEmpty(byTicket, lo, hi, picks);
    PooledAddsUp(byTicket, hi, picks);
    PooledAddsUp(byTicket, lo, picks);
  }

  lemma {:induction false} TotalSplit(byTicket: Trials, arm: string, a: seq<string>, b: seq<string>)
    requires forall t | t in a + b :: t in byTicket
    ensures (forall t | t in a :: t in byTicket) && (forall t | t in b :: t in byTicket)
    ensures Total(byTicket, arm, a + b) == Total(byTicket, arm, a) + Total(byTicket, arm, b)
    ensures Size(byTicket, arm, a + b) == Size(byTicket, arm, a) + Size(byTicket, arm, b)
  {
    assert forall t | t in a :: t in a + b;
    assert forall t | t in b :: t in a + b;
    if a == [] {
      assert a + b == b;
    } else {
      assert (a + b)[1..] == a[1..] + b;
      TotalSplit(byTicket, arm, a[1..], b);
    }
  }

  /** In whatever order the same tickets are drawn, what they amount to is the same. */
  lemma {:induction false} DrawingOrderIsForgotten(byTicket: Trials, arm: string, a: seq<string>, b: seq<string>)
    requires multiset(a) == multiset(b) && forall t | t in a :: t in byTicket
    ensures forall t | t in b :: t in byTicket
    ensures Total(byTicket, arm, a) == Total(byTicket, arm, b) && Size(byTicket, arm, a) == Size(byTicket, arm, b)
  {
    hide Total, Size;
    forall t | t in b ensures t in byTicket {
      assert t in multiset(a);
    }
    if a == [] {
      assert |multiset(b)| == 0;
    } else {
      var j := PluckLast(a, b);
      var t, init, l, r := b[j], a[..|a| - 1], b[..j], b[j + 1..];
      assert a == init + [t] && b == (l + [t]) + r;
      DrawingOrderIsForgotten(byTicket, arm, init, l + r);
      TotalSplit(byTicket, arm, init, [t]);
      TotalSplit(byTicket, arm, l, r);
      TotalSplit(byTicket, arm, l + [t], r);
      TotalSplit(byTicket, arm, l, [t]);
    }
  }

  /** So a sample and its shuffle have the same means. */
  lemma ShufflingLeavesTheMean(byTicket: Trials, arm: string, a: seq<string>, b: seq<string>)
    requires multiset(a) == multiset(b) && forall t | t in a :: t in byTicket
    requires Pooled(byTicket, arm, a) != []
    ensures forall t | t in b :: t in byTicket
    ensures Pooled(byTicket, arm, b) != []
    ensures MeanOf(Pooled(byTicket, arm, a)) == MeanOf(Pooled(byTicket, arm, b))
  {
    hide Total, Size, Pooled;
    DrawingOrderIsForgotten(byTicket, arm, a, b);
    PooledAddsUp(byTicket, arm, a);
    PooledAddsUp(byTicket, arm, b);
  }

  lemma {:induction false} EffectInItsTurn(byTicket: Trials, lo: string, hi: string, tickets: seq<string>, n: nat,
                                           i: nat)
    requires Usable(byTicket, lo, hi, tickets) && i < n
    ensures Effects(byTicket, lo, hi, tickets, n)[i] == Effect(byTicket, lo, hi, tickets, After(SEED, |tickets| * i))
    decreases n
  {
    hide Effect, Usable, Later, After;
    if i == n - 1 {
      LaterIsAfter(SEED, |tickets|, i);
    } else {
      EffectInItsTurn(byTicket, lo, hi, tickets, n - 1, i);
    }
  }

  // ---------- what the interval leaves out ----------

  /** The rank is the nearest to the share of the way from the first to the last. */
  lemma RankIsNearest(q: real, n: nat)
    requires 0.0 <= q <= 1.0 && n > 0
    ensures -0.5 <= Rank(q, n) as real - q * (n - 1) as real <= 0.5
  {
  }

  lemma {:induction false} PassOrFail(xs: seq<real>, test: real -> bool)
    ensures RoundStats.Passing(xs, test) + RoundStats.Passing(xs, x => !test(x)) == |xs|
  {
    if xs != [] {
      PassOrFail(xs[..|xs| - 1], test);
    }
  }

  lemma FewBelow(es: seq<real>, k: nat)
    requires Sorted(RealLe, es) && k < |es|
    ensures RoundStats.Passing(es, x => x < es[k]) <= k
    ensures RoundStats.Passing(es, x => x > es[k]) <= |es| - 1 - k
    ensures RoundStats.Passing(es, x => x <= es[k]) >= k + 1
    ensures RoundStats.Passing(es, x => x >= es[k]) >= |es| - k
  {
    var below, above := (x: real) => x < es[k], (x: real) => x > es[k];
    forall i | 0 <= i < |es| ensures (i >= k ==> !below(es[i])) && (i <= k ==> !above(es[i])) {
      assert i < k ==> RealLe(es[i], es[k]);
      assert k < i ==> RealLe(es[k], es[i]);
    }
    PassOrFail(es, below);
    PassOrFail(es, above);
    RoundStats.SomePass(es, k, |es|, x => !below(x));
    RoundStats.SomePass(es, 0, k + 1, x => !above(x));
    RoundStats.SomePass(es, 0, k + 1, x => x <= es[k]);
    RoundStats.SomePass(es, k, |es|, x => x >= es[k]);
  }

  /** The interval leaves out no more than its share: at most the nearest-rank share of the samples' effects lies below
      it and at most that share above, and its ends are the innermost for which that is so. */
  lemma IntervalLeavesOutItsShare(byTicket: Trials, lo: string, hi: string, n: nat)
    requires n > 0 && IntervalOf(byTicket, lo, hi, n).Some?
    ensures Usable(byTicket, lo, hi, Tickets(byTicket, lo, hi))
    ensures var ci := IntervalOf(byTicket, lo, hi, n).value;
            var es := Effects(byTicket, lo, hi, Tickets(byTicket, lo, hi), n);
            && RoundStats.Passing(es, e => e < ci.lower) <= Rank(0.025, n) < RoundStats.Passing(es, e => e <= ci.lower)
            && RoundStats.Passing(es, e => e > ci.upper) <= n - 1 - Rank(0.975, n)
            && RoundStats.Passing(es, e => e >= ci.upper) > n - 1 - Rank(0.975, n)
  {
    hide Effects, Rank, Tickets, Eligible, Sort;
    TicketsAreTheEligible(byTicket, lo, hi);
    var ci, es := IntervalOf(byTicket, lo, hi, n).value, Effects(byTicket, lo, hi, Tickets(byTicket, lo, hi), n);
    var sorted := InOrder(es);
    SortSorts(RealLe, es);
    RoundStats.PassingForgetsOrder(sorted, es, e => e < ci.lower);
    RoundStats.PassingForgetsOrder(sorted, es, e => e > ci.upper);
    RoundStats.PassingForgetsOrder(sorted, es, e => e <= ci.lower);
    RoundStats.PassingForgetsOrder(sorted, es, e => e >= ci.upper);
    FewBelow(sorted, Rank(0.025, n));
    FewBelow(sorted, Rank(0.975, n));
    assert ci.lower == sorted[Rank(0.025, n)] && ci.upper == sorted[Rank(0.975, n)];
  }

  ghost predicate InBothArms(byTicket: Trials, lo: string, hi: string, t: string) {
    && t in byTicket && lo in byTicket[t] && hi in byTicket[t]
    && byTicket[t][lo] != [] && byTicket[t][hi] != []
  }

  /** There is an interval exactly when some ticket has trials in both arms, and it is drawn from all such tickets. */
  lemma IntervalExistsExactlyWhen(byTicket: Trials, lo: string, hi: string, n: nat)
    requires n > 0
    ensures IntervalOf(byTicket, lo, hi, n).Some? <==> exists t :: InBothArms(byTicket, lo, hi, t)
    ensures forall t :: t in Tickets(byTicket, lo, hi) <==> InBothArms(byTicket, lo, hi, t)
  {
    hide Tickets, Effects, Rank;
    TicketsAreTheEligible(byTicket, lo, hi);
    var tickets := Tickets(byTicket, lo, hi);
    forall t ensures t in tickets <==> InBothArms(byTicket, lo, hi, t) {
      assert t in Eligible(byTicket, lo, hi) <==> InBothArms(byTicket, lo, hi, t);
    }
    assert tickets != [] ==> InBothArms(byTicket, lo, hi, tickets[0]);
  }
}
