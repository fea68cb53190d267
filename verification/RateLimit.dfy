/** The per-address token bucket that limits room creation. */
module RateLimit {

  /** Tokens left, as of the last call. */
  datatype Bucket = Bucket(tokens: real, last: real)

  /** `rate` tokens a second, never more than `burst`. */
  datatype Limits = Limits(rate: real, burst: real) {
    ghost predicate Valid() {
      rate >= 0.0 && burst >= 0.0
    }
  }

  function LimitsPerHour(perHour: nat): (l: Limits)
    ensures l.Valid()
  {
    Limits(perHour as real / 3600.0, perHour as real)
  }

  function Min(a: real, b: real): real {
    if a < b then a else b
  }

  function Earned(l: Limits, from: real, until: real): real {
    (until - from) * l.rate
  }

  function Refilled(l: Limits, b: Bucket, now: real): real {
    Min(l.burst, b.tokens + Earned(l, b.last, now))
  }

  lemma EarnMore(l: Limits, a: real, b: real, c: real)
    requires l.Valid() && b <= c
    ensures Earned(l, a, c) == Earned(l, a, b) + Earned(l, b, c)
    ensures Earned(l, b, c) >= 0.0 && Earned(l, a, a) == 0.0
  {
    assert (c - a) * l.rate == (b - a) * l.rate + (c - b) * l.rate;
    assert (c - b) * l.rate >= 0.0;
  }

  /** One call for one address: the bucket afterwards, and whether it is allowed. */
  function Served(l: Limits, b: Bucket, now: real): (Bucket, bool) {
    var tokens := Refilled(l, b, now);
    if tokens < 1.0 then (Bucket(tokens, now), false) else (Bucket(tokens - 1.0, now), true)
  }

  type Buckets = map<string, Bucket>

  /** An address without a bucket is served from a full one. */
  function BucketOf(l: Limits, m: Buckets, ip: string, now: real): Bucket {
    if ip in m then m[ip] else Bucket(l.burst, now)
  }

  const PRUNE_AT: nat := 10000

  predicate Full(l: Limits, b: Bucket, now: real) {
    Refilled(l, b, now) >= l.burst
  }

  function Pruned(l: Limits, m: Buckets, now: real): Buckets {
    map ip | ip in m && !Full(l, m[ip], now) :: m[ip]
  }

  /** A call at `now`; `later` is the clock as pruning reads it, a moment afterwards. */
  datatype Request = Request(ip: string, now: real, later: real)

  function Serve(l: Limits, m: Buckets, q: Request): (Buckets, bool) {
    var kept := if q.ip !in m && |m| >= PRUNE_AT then Pruned(l, m, q.later) else m;
    var (b, ok) := Served(l, BucketOf(l, kept, q.ip, q.now), q.now);
    (kept[q.ip := b], ok)
  }

  /** The same limiter, except that it never prunes. */
  function ServeKeepingAll(l: Limits, m: Buckets, q: Request): (Buckets, bool) {
    var (b, ok) := Served(l, BucketOf(l, m, q.ip, q.now), q.now);
    (m[q.ip := b], ok)
  }

  class IpLimiter {
    var buckets: Buckets
    const limits: Limits

    constructor (perHour: nat)
      ensures buckets == map[] && limits == LimitsPerHour(perHour)
    {
      buckets := map[];
      limits := LimitsPerHour(perHour);
    }

    method Allow(ip: string, now: real, later: real) returns (ok: bool)
      modifies this`buckets
      ensures (buckets, ok) == Serve(limits, old(buckets), Request(ip, now, later))
    {
      hide Earned, Full;
      ghost var kept := buckets;
      if ip !in buckets {
        Prune(later);
        kept := buckets;
        buckets := buckets[ip := Bucket(limits.burst, now)];
      }
      var b := buckets[ip];
      b := b.(tokens := Min(limits.burst, b.tokens + Earned(limits, b.last, now)));
      b := b.(last := now);
      if b.tokens < 1.0 {
        buckets := buckets[ip := b];
        assert buckets == kept[ip := b];
        return false;
      }
      buckets := buckets[ip := b.(tokens := b.tokens - 1.0)];
      assert buckets == kept[ip := b.(tokens := b.tokens - 1.0)];
      ok := true;
    }

    /** Drops full buckets once there are very many; the map is visited in any order. */
    method Prune(now: real)
      modifies this`buckets
      ensures buckets == if |old(buckets)| >= PRUNE_AT then Pruned(limits, old(buckets), now) else old(buckets)
    {
      if |buckets| < PRUNE_AT {
        return;
      }
      var left := buckets.Keys;
      while left != {}
        invariant left <= old(buckets).Keys
        invariant buckets == map ip | ip in old(buckets) && (ip in left || !Full(limits, old(buckets)[ip], now)) ::
                    old(buckets)[ip]
      {
        var ip :| ip in left;
        left := left - {ip};
        var b := buckets[ip];
        if Min(limits.burst, b.tokens + Earned(limits, b.last, now)) >= limits.burst {
          buckets := buckets - {ip};
        }
      }
    }
  }

  // ---------- what an address can spend ----------

  /** What `ip` could spend at `now`. */
  function Purse(l: Limits, m: Buckets, ip: string, now: real): real {
    if ip in m then Refilled(l, m[ip], now) else l.burst
  }

  /** From `time` on, every address could spend the same under either. */
  ghost predicate Agree(l: Limits, a: Buckets, b: Buckets, time: real) {
    forall ip, now | now >= time :: Purse(l, a, ip, now) == Purse(l, b, ip, now)
  }

  /** The clock never goes back. */
  ghost predicate Clocked(start: real, qs: seq<Request>)
    decreases qs
  {
    qs == [] || (start <= qs[0].now <= qs[0].later && Clocked(qs[0].later, qs[1..]))
  }

  lemma ServedByPurse(l: Limits, m: Buckets, q: Request)
    requires l.Valid()
    ensures var (m', ok) := ServeKeepingAll(l, m, q);
            var purse := Purse(l, m, q.ip, q.now);
            && (ok <==> purse >= 1.0)
            && m' == m[q.ip := Bucket(if ok then purse - 1.0 else purse, q.now)]
  {
    EarnMore(l, q.now, q.now, q.now);
  }

  lemma AgreeServes(l: Limits, a: Buckets, b: Buckets, time: real, q: Request)
    requires l.Valid() && Agree(l, a, b, time) && time <= q.now
    ensures ServeKeepingAll(l, a, q).1 == ServeKeepingAll(l, b, q).1
    ensures Agree(l, ServeKeepingAll(l, a, q).0, ServeKeepingAll(l, b, q).0, q.now)
  {
    hide ServeKeepingAll, Refilled, Earned;
    ServedByPurse(l, a, q);
    ServedByPurse(l, b, q);
    var a', b' := ServeKeepingAll(l, a, q).0, ServeKeepingAll(l, b, q).0;
    assert Purse(l, a, q.ip, q.now) == Purse(l, b, q.ip, q.now);
    forall ip, now | now >= q.now ensures Purse(l, a', ip, now) == Purse(l, b', ip, now) {
      assert Purse(l, a, ip, now) == Purse(l, b, ip, now);
    }
  }

  lemma PruningAgrees(l: Limits, m: Buckets, time: real)
    requires l.Valid()
    ensures Agree(l, Pruned(l, m, time), m, time)
  {
    hide Earned;
    forall ip, now | now >= time ensures Purse(l, Pruned(l, m, time), ip, now) == Purse(l, m, ip, now) {
      if ip in m {
        EarnMore(l, m[ip].last, time, now);
      }
    }
  }

  lemma DenyingAgrees(l: Limits, m: Buckets, q: Request)
    requires l.Valid() && !ServeKeepingAll(l, m, q).1
    ensures Agree(l, ServeKeepingAll(l, m, q).0, m, q.now)
  {
    hide Earned;
    ServedByPurse(l, m, q);
    var m' := ServeKeepingAll(l, m, q).0;
    forall ip, now | now >= q.now ensures Purse(l, m', ip, now) == Purse(l, m, ip, now) {
      EarnMore(l, q.now, q.now, now);
      if ip in m {
        EarnMore(l, m[ip].last, q.now, now);
      }
    }
  }

  lemma AgreeTransitive(l: Limits, a: Buckets, b: Buckets, c: Buckets, time: real, later: real)
    requires Agree(l, a, b, time) && Agree(l, b, c, time) && time <= later
    ensures Agree(l, a, c, later) && Agree(l, b, a, later)
  {
    forall ip, now | now >= later
      ensures Purse(l, a, ip, now) == Purse(l, c, ip, now) && Purse(l, b, ip, now) == Purse(l, a, ip, now)
    {
      assert Purse(l, a, ip, now) == Purse(l, b, ip, now) == Purse(l, c, ip, now);
    }
  }

  // ---------- runs ----------

  function Answers(l: Limits, m: Buckets, qs: seq<Request>): (r: seq<bool>)
    ensures |r| == |qs|
    decreases qs
  {
    if qs == [] then []
    else
      var (m', ok) := Serve(l, m, qs[0]);
      [ok] + Answers(l, m', qs[1..])
  }

  function AnswersKeepingAll(l: Limits, m: Buckets, qs: seq<Request>): (r: seq<bool>)
    ensures |r| == |qs|
    decreases qs
  {
    if qs == [] then []
    else
      var (m', ok) := ServeKeepingAll(l, m, qs[0]);
      [ok] + AnswersKeepingAll(l, m', qs[1..])
  }

  lemma ServeAgrees(l: Limits, few: Buckets, all: Buckets, time: real, q: Request)
    requires l.Valid() && Agree(l, few, all, time) && time <= q.now <= q.later
    ensures Serve(l, few, q).1 == ServeKeepingAll(l, all, q).1
    ensures Agree(l, Serve(l, few, q).0, ServeKeepingAll(l, all, q).0, q.later)
  {
    hide Served, Agree, Pruned, Purse;
    AgreeServes(l, few, all, time, q);
    var kept, all' := ServeKeepingAll(l, few, q).0, ServeKeepingAll(l, all, q).0;
    PruneOrNot(l, few, q);
    AgreeLater(l, kept, all', q.now, q.later);
    if q.ip !in few && |few| >= PRUNE_AT {
      AgreeTransitive(l, Serve(l, few, q).0, kept, all', q.later, q.later);
    }
  }

  lemma AgreeLater(l: Limits, a: Buckets, b: Buckets, time: real, later: real)
    requires Agree(l, a, b, time) && time <= later
    ensures Agree(l, a, b, later)
  {
  }

  lemma PruneOrNot(l: Limits, m: Buckets, q: Request)
    requires l.Valid() && q.now <= q.later
    ensures Serve(l, m, q).1 == ServeKeepingAll(l, m, q).1
    ensures if q.ip !in m && |m| >= PRUNE_AT then Agree(l, Serve(l, m, q).0, ServeKeepingAll(l, m, q).0, q.later)
            else Serve(l, m, q).0 == ServeKeepingAll(l, m, q).0
  {
    hide Served, Refilled;
    PruningAgrees(l, m, q.later);
    if q.ip !in m && |m| >= PRUNE_AT {
      var a, b := Serve(l, m, q).0, ServeKeepingAll(l, m, q).0;
      forall ip, now | now >= q.later ensures Purse(l, a, ip, now) == Purse(l, b, ip, now) {
        assert Purse(l, Pruned(l, m, q.later), ip, now) == Purse(l, m, ip, now);
      }
    }
  }

  /** Pruning cannot be noticed: with a clock that never goes back, every call is answered as by a limiter
      that keeps every bucket for ever. */
  lemma {:induction false} PruningIsInvisible(l: Limits, few: Buckets, all: Buckets, time: real, qs: seq<Request>)
    requires l.Valid() && Agree(l, few, all, time) && Clocked(time, qs)
    ensures Answers(l, few, qs) == AnswersKeepingAll(l, all, qs)
    decreases qs
  {
    hide Serve, ServeKeepingAll, Agree;
    if qs != [] {
      ServeAgrees(l, few, all, time, qs[0]);
      PruningIsInvisible(l, Serve(l, few, qs[0]).0, ServeKeepingAll(l, all, qs[0]).0, qs[0].later, qs[1..]);
    }
  }

  /** A denied call leaves every later answer as it would have been without it. */
  lemma DenialsChangeNothing(l: Limits, m: Buckets, q: Request, rest: seq<Request>)
    requires l.Valid() && Clocked(q.now, [q] + rest) && !Serve(l, m, q).1
    ensures Answers(l, Serve(l, m, q).0, rest) == Answers(l, m, rest)
  {
    hide Serve, ServeKeepingAll, Agree;
    assert ([q] + rest)[1..] == rest;
    AgreeWithItself(l, m, q.now);
    ServeAgrees(l, m, m, q.now, q);
    DenyingAgrees(l, m, q);
    AgreeLater(l, ServeKeepingAll(l, m, q).0, m, q.now, q.later);
    AgreeTransitive(l, Serve(l, m, q).0, ServeKeepingAll(l, m, q).0, m, q.later, q.later);
    AgreeWithItself(l, m, q.later);
    PruningIsInvisible(l, Serve(l, m, q).0, m, q.later, rest);
    PruningIsInvisible(l, m, m, q.later, rest);
  }

  lemma AgreeWithItself(l: Limits, m: Buckets, time: real)
    ensures Agree(l, m, m, time)
  {
  }

  // ---------- the bound ----------

  /** How many of `ip`'s requests were allowed. */
  function Granted(qs: seq<Request>, answers: seq<bool>, ip: string): nat
    requires |answers| == |qs|
  {
    if qs == [] then 0
    else (if qs[0].ip == ip && answers[0] then 1 else 0) + Granted(qs[1..], answers[1..], ip)
  }

  function AfterKeepingAll(l: Limits, m: Buckets, qs: seq<Request>): Buckets
    decreases qs
  {
    if qs == [] then m else AfterKeepingAll(l, ServeKeepingAll(l, m, qs[0]).0, qs[1..])
  }

  /** No bucket is in debt or from the future. */
  ghost predicate Sane(l: Limits, m: Buckets, time: real) {
    forall ip | ip in m :: m[ip].tokens >= 0.0 && m[ip].last <= time
  }

  lemma PurseInBounds(l: Limits, m: Buckets, ip: string, now: real)
    requires l.Valid() && Sane(l, m, now)
    ensures 0.0 <= Purse(l, m, ip, now) <= l.burst
  {
    hide Earned;
    if ip in m {
      EarnMore(l, m[ip].last, m[ip].last, now);
    }
  }

  lemma ServeSane(l: Limits, m: Buckets, time: real, q: Request)
    requires l.Valid() && Sane(l, m, time) && time <= q.now
    ensures Sane(l, ServeKeepingAll(l, m, q).0, q.now)
  {
    hide ServeKeepingAll, Earned;
    PurseInBounds(l, m, q.ip, q.now);
    ServedByPurse(l, m, q);
  }

  /** Serving spends a token or nothing, and a second earns at most `rate`. */
  lemma Spend(l: Limits, m: Buckets, q: Request, ip: string, from: real)
    requires l.Valid() && Sane(l, m, from) && from <= q.now
    ensures var (m', ok) := ServeKeepingAll(l, m, q);
            Purse(l, m', ip, q.now) + (if q.ip == ip && ok then 1.0 else 0.0)
            <= Purse(l, m, ip, from) + Earned(l, from, q.now)
  {
    hide ServeKeepingAll, Earned;
    ServedByPurse(l, m, q);
    PurseInBounds(l, m, ip, from);
    EarnMore(l, q.now, from, q.now);
    if ip in m {
      EarnMore(l, m[ip].last, from, q.now);
    }
  }

  lemma {:induction false} SpendingIsBounded(l: Limits, m: Buckets, qs: seq<Request>, ip: string,
                                             from: real, until: real)
    requires l.Valid() && Sane(l, m, from) && Clocked(from, qs) && from <= until
    requires forall q | q in qs :: q.now <= until
    ensures Granted(qs, AnswersKeepingAll(l, m, qs), ip) as real <= Purse(l, m, ip, from) + Earned(l, from, until)
    decreases qs
  {
    hide ServeKeepingAll, Purse, Sane, Earned;
    if qs == [] {
      PurseInBounds(l, m, ip, from);
      EarnMore(l, from, from, until);
    } else {
      var q, m' := qs[0], ServeKeepingAll(l, m, qs[0]).0;
      assert q in qs && forall r | r in qs[1..] :: r in qs;
      Spend(l, m, q, ip, from);
      ServeSane(l, m, from, q);
      ClockedEarlier(qs[1..], q.later, q.now);
      SpendingIsBounded(l, m', qs[1..], ip, q.now, until);
      EarnMore(l, from, q.now, until);
    }
  }

  lemma ClockedEarlier(qs: seq<Request>, start: real, earlier: real)
    requires Clocked(start, qs) && earlier <= start
    ensures Clocked(earlier, qs)
  {
  }

  lemma {:induction false} SplitRun(l: Limits, m: Buckets, before: seq<Request>, window: seq<Request>, start: real)
    requires l.Valid() && Sane(l, m, start) && Clocked(start, before + window)
    ensures AnswersKeepingAll(l, m, before + window)
         == AnswersKeepingAll(l, m, before) + AnswersKeepingAll(l, AfterKeepingAll(l, m, before), window)
    ensures window != [] ==> Sane(l, AfterKeepingAll(l, m, before), window[0].now)
    ensures window != [] ==> Clocked(window[0].now, window)
    decreases before
  {
    hide ServeKeepingAll, Earned;
    if before == [] {
      assert before + window == window;
    } else {
      var q := before[0];
      assert (before + window)[1..] == before[1..] + window;
      ServeSane(l, m, start, q);
      ClockedEarlier(before[1..] + window, q.later, q.now);
      SplitRun(l, ServeKeepingAll(l, m, q).0, before[1..], window, q.now);
    }
  }

  /** Whatever came before, and whatever others do, one address is allowed at most burst + rate * (t - s)
      times between the instants s and t. */
  lemma AtMostBurstAndRate(l: Limits, before: seq<Request>, window: seq<Request>, ip: string, start: real,
                           s: real, t: real)
    requires l.Valid() && Clocked(start, before + window) && s <= t
    requires forall q | q in window :: s <= q.now <= t
    ensures Granted(window, Answers(l, map[], before + window)[|before|..], ip) as real <= l.burst + Earned(l, s, t)
  {
    hide Earned, Answers, AnswersKeepingAll, AfterKeepingAll, Purse;
    var m := AfterKeepingAll(l, map[], before);
    AgreeWithItself(l, map[], start);
    PruningIsInvisible(l, map[], map[], start, before + window);
    SplitRun(l, map[], before, window, start);
    assert Answers(l, map[], before + window)[|before|..] == AnswersKeepingAll(l, m, window);
    EarnMore(l, s, s, t);
    if window != [] {
      var first := window[0].now;
      assert window[0] in window;
      SpendingIsBounded(l, m, window, ip, first, t);
      PurseInBounds(l, m, ip, first);
      EarnMore(l, s, first, t);
      EarnMore(l, s, s, first);
    }
  }

  // ---------- exactly the bound ----------

  /** When the window that begins with request `k` opens: with none left, now. */
  function Opens(qs: seq<Request>, k: nat, now: real): real {
    if k < |qs| then qs[k].now else now
  }

  /** What the window that begins with request `k` still allows `ip` at `now`. */
  function Left(l: Limits, qs: seq<Request>, answers: seq<bool>, ip: string, k: nat, now: real): real
    requires k <= |qs| == |answers|
  {
    l.burst + Earned(l, Opens(qs, k, now), now) - Granted(qs[k..], answers[k..], ip) as real
  }

  /** What an address may spend is what one of the windows ending now leaves it, or what it began with and has
      earned and not spent since. */
  lemma {:induction false} Tightest(l: Limits, m: Buckets, qs: seq<Request>, ip: string, from: real, now: real)
    returns (k: nat, sinceStart: bool)
    requires l.Valid() && Sane(l, m, from) && Clocked(from, qs) && from <= now
    requires forall q | q in qs :: q.now <= now
    ensures k <= |qs|
    ensures var purse, answers := Purse(l, AfterKeepingAll(l, m, qs), ip, now), AnswersKeepingAll(l, m, qs);
            purse == if sinceStart then Purse(l, m, ip, from) + Earned(l, from, now) - Granted(qs, answers, ip) as real
                     else Left(l, qs, answers, ip, k, now)
    decreases qs
  {
    hide ServeKeepingAll, Earned, Purse, Sane, Left;
    if qs == [] {
      NothingLeft(l, ip, now);
      CappedOrEarned(l, m, ip, from, now);
      EarnMore(l, now, now, now);
      return 0, Purse(l, m, ip, now) != l.burst;
    }
    var q, m' := qs[0], ServeKeepingAll(l, m, qs[0]).0;
    var answers := AnswersKeepingAll(l, m, qs);
    assert q in qs && forall r | r in qs[1..] :: r in qs;
    ServeSane(l, m, from, q);
    ClockedEarlier(qs[1..], q.later, q.now);
    k, sinceStart := Tightest(l, m', qs[1..], ip, q.now, now);
    if !sinceStart {
      LeftInRest(l, qs, answers, ip, k, now);
      k := k + 1;
    } else {
      CappedOrEarned(l, m, ip, from, q.now);
      SpentAt(l, m, q, ip, from);
      EarnMore(l, from, q.now, now);
      LeftFromFirst(l, qs, answers, ip, now);
      k, sinceStart := 0, Purse(l, m, ip, q.now) != l.burst;
    }
  }

  lemma NothingLeft(l: Limits, ip: string, now: real)
    requires l.Valid()
    ensures Left(l, [], [], ip, 0, now) == l.burst
  {
    EarnMore(l, now, now, now);
  }

  lemma LeftInRest(l: Limits, qs: seq<Request>, answers: seq<bool>, ip: string, k: nat, now: real)
    requires k < |qs| == |answers|
    ensures Left(l, qs[1..], answers[1..], ip, k, now) == Left(l, qs, answers, ip, k + 1, now)
  {
    assert qs[1..][k..] == qs[k + 1..] && answers[1..][k..] == answers[k + 1..];
  }

  lemma LeftFromFirst(l: Limits, qs: seq<Request>, answers: seq<bool>, ip: string, now: real)
    requires 0 < |qs| == |answers|
    ensures Left(l, qs, answers, ip, 0, now) == l.burst + Earned(l, qs[0].now, now) - Granted(qs, answers, ip) as real
  {
    assert qs[0..] == qs && answers[0..] == answers;
  }

  lemma CappedOrEarned(l: Limits, m: Buckets, ip: string, from: real, now: real)
    requires l.Valid() && Sane(l, m, from) && from <= now
    ensures Purse(l, m, ip, now) == l.burst || Purse(l, m, ip, now) == Purse(l, m, ip, from) + Earned(l, from, now)
  {
    hide Earned;
    if ip in m {
      EarnMore(l, m[ip].last, from, now);
      EarnMore(l, from, from, now);
    }
  }

  lemma SpentAt(l: Limits, m: Buckets, q: Request, ip: string, from: real)
    requires l.Valid() && Sane(l, m, from) && from <= q.now
    ensures var (m', ok) := ServeKeepingAll(l, m, q);
            Purse(l, m', ip, q.now) == Purse(l, m, ip, q.now) - (if q.ip == ip && ok then 1.0 else 0.0)
  {
    hide ServeKeepingAll, Earned;
    ServedByPurse(l, m, q);
    PurseInBounds(l, m, q.ip, q.now);
    EarnMore(l, q.now, q.now, q.now);
  }

  lemma {:induction false} GrantedAppend(a: seq<Request>, b: seq<Request>, x: seq<bool>, y: seq<bool>, ip: string)
    requires |a| == |x| && |b| == |y|
    ensures Granted(a + b, x + y, ip) == Granted(a, x, ip) + Granted(b, y, ip)
    decreases a
  {
    if a == [] {
      assert a + b == b && x + y == y;
    } else {
      assert (a + b)[1..] == a[1..] + b && (x + y)[1..] == x[1..] + y;
      GrantedAppend(a[1..], b, x[1..], y, ip);
    }
  }

  lemma {:induction false} ClockRises(start: real, qs: seq<Request>, i: nat, j: nat)
    requires Clocked(start, qs) && i <= j < |qs|
    ensures start <= qs[i].now <= qs[j].now
    decreases qs
  {
    if i > 0 {
      ClockRises(qs[0].later, qs[1..], i - 1, j - 1);
    } else if j > 0 {
      ClockRises(qs[0].later, qs[1..], 0, j - 1);
    }
  }

  /** The answers to `before` and then to `q`, against a limiter that never prunes. */
  lemma LastAnswer(l: Limits, before: seq<Request>, q: Request, start: real)
    requires l.Valid() && Clocked(start, before + [q])
    ensures var kept := AnswersKeepingAll(l, map[], before);
            var ok := Purse(l, AfterKeepingAll(l, map[], before), q.ip, q.now) >= 1.0;
            Answers(l, map[], before + [q]) == kept + [ok]
  {
    hide Purse, Earned, Answers;
    AgreeWithItself(l, map[], start);
    PruningIsInvisible(l, map[], map[], start, before + [q]);
    SplitRun(l, map[], before, [q], start);
    ServedByPurse(l, AfterKeepingAll(l, map[], before), q);
  }

  lemma ClockedBefore(start: real, a: seq<Request>, b: seq<Request>)
    requires Clocked(start, a + b)
    ensures Clocked(start, a)
    decreases a
  {
    if a != [] {
      assert (a + b)[1..] == a[1..] + b;
      ClockedBefore(a[0].later, a[1..], b);
    }
  }

  /** A window never allows more than it has left. */
  lemma WindowHasRoom(l: Limits, before: seq<Request>, q: Request, start: real, k: nat)
    requires l.Valid() && Clocked(start, before + [q]) && k <= |before|
    ensures var answers := Answers(l, map[], before + [q]);
            answers[|before|] ==> Left(l, before, answers[..|before|], q.ip, k, q.now) >= 1.0
  {
    hide Earned, Answers, Granted;
    var answers, n := Answers(l, map[], before + [q]), |before|;
    var all, window, s := before + [q], before[k..] + [q], Opens(before, k, q.now);
    assert all == before[..k] + window && all[n] == q;
    forall r | r in window ensures s <= r.now <= q.now {
      var i :| 0 <= i < |window| && window[i] == r;
      assert all[k + i] == r && all[k].now == s;
      ClockRises(start, all, k, k + i);
      ClockRises(start, all, k + i, n);
    }
    ClockRises(start, all, k, n);
    AtMostBurstAndRate(l, before[..k], window, q.ip, start, s, q.now);
    assert answers[k..] == answers[k..n] + [answers[n]] && answers[..n][k..] == answers[k..n];
    GrantedAppend(before[k..], [q], answers[k..n], [answers[n]], q.ip);
    GrantedOne(q, answers[n]);
  }

  lemma GrantedOne(q: Request, ok: bool)
    ensures Granted([q], [ok], q.ip) == if ok then 1 else 0
  {
    assert Granted([q][1..], [ok][1..], q.ip) == 0;
  }

  /** Exactly the bound. A call is allowed if and only if it fits into every window that ends with it: whichever
      earlier call the window begins with, or with this one alone, the grants in it with this one more stay within
      burst + rate * (t - s). */
  lemma AllowedExactlyWhen(l: Limits, before: seq<Request>, q: Request, start: real)
    requires l.Valid() && Clocked(start, before + [q])
    ensures var answers := Answers(l, map[], before + [q]);
            answers[|before|] <==>
              forall k | 0 <= k <= |before| :: Left(l, before, answers[..|before|], q.ip, k, q.now) >= 1.0
  {
    hide Earned, Answers, AnswersKeepingAll, AfterKeepingAll, Granted, Left;
    var answers := Answers(l, map[], before + [q]);
    forall k | 0 <= k <= |before|
      ensures answers[|before|] ==> Left(l, before, answers[..|before|], q.ip, k, q.now) >= 1.0
    {
      WindowHasRoom(l, before, q, start, k);
    }
    LastAnswer(l, before, q, start);
    assert answers[..|before|] == AnswersKeepingAll(l, map[], before);
    var k := TightestFromNothing(l, before, q, start);
  }

  lemma TightestFromNothing(l: Limits, before: seq<Request>, q: Request, start: real) returns (k: nat)
    requires l.Valid() && Clocked(start, before + [q])
    ensures k <= |before|
    ensures Purse(l, AfterKeepingAll(l, map[], before), q.ip, q.now)
         == Left(l, before, AnswersKeepingAll(l, map[], before), q.ip, k, q.now)
  {
    hide Earned, AfterKeepingAll, AnswersKeepingAll, Granted;
    var all, n, from := before + [q], |before|, Opens(before, 0, q.now);
    var answers := AnswersKeepingAll(l, map[], before);
    ClockedBefore(start, before, [q]);
    forall r | r in before ensures r.now <= q.now {
      var i :| 0 <= i < n && before[i] == r;
      assert all[i] == r && all[n] == q;
      ClockRises(start, all, i, n);
    }
    assert before != [] ==> before[0] in before;
    var sinceStart;
    k, sinceStart := Tightest(l, map[], before, q.ip, from, q.now);
    if sinceStart {
      k := 0;
      assert before[0..] == before && answers[0..] == answers;
    }
  }

  // ---------- by the hour ----------

  lemma Proportion(time: real, perHour: real)
    ensures time * (perHour / 3600.0) * 3600.0 == time * perHour
  {
    assert perHour / 3600.0 * 3600.0 == perHour;
    assert time * (perHour / 3600.0) * 3600.0 == time * (perHour / 3600.0 * 3600.0);
  }

  lemma InProportion(time: real, perHour: real)
    requires perHour >= 0.0
    ensures time >= 3600.0 ==> time * perHour >= 3600.0 * perHour
    ensures time <= 3600.0 ==> time * perHour <= 3600.0 * perHour
  {
    if time >= 3600.0 {
      assert (time - 3600.0) * perHour >= 0.0;
    } else {
      assert (3600.0 - time) * perHour >= 0.0;
    }
  }

  /** An hour earns what the limit is for an hour, and other times in proportion. */
  lemma AnHourEarnsTheLimit(perHour: nat, from: real, until: real)
    ensures var l := LimitsPerHour(perHour);
            && l.burst == perHour as real
            && Earned(l, from, until) * 3600.0 == (until - from) * perHour as real
            && (until - from >= 3600.0 ==> Earned(l, from, until) >= perHour as real)
            && (until - from <= 3600.0 ==> Earned(l, from, until) <= perHour as real)
  {
    Proportion(until - from, perHour as real);
    EarnedInProportion(Earned(LimitsPerHour(perHour), from, until), until - from, perHour as real);
  }

  lemma EarnedInProportion(earned: real, time: real, perHour: real)
    requires earned * 3600.0 == time * perHour && perHour >= 0.0
    ensures time >= 3600.0 ==> earned >= perHour
    ensures time <= 3600.0 ==> earned <= perHour
  {
    InProportion(time, perHour);
  }

  /** How often `ip` asked. */
  function Asked(qs: seq<Request>, ip: string): nat {
    if qs == [] then 0 else (if qs[0].ip == ip then 1 else 0) + Asked(qs[1..], ip)
  }

  lemma {:induction false} GrantedAtMostAsked(qs: seq<Request>, answers: seq<bool>, ip: string, k: nat)
    requires |answers| == |qs| && k <= |qs|
    ensures Granted(qs[k..], answers[k..], ip) <= Asked(qs, ip)
  {
    if qs == [] {
    } else if k > 0 {
      GrantedAtMostAsked(qs[1..], answers[1..], ip, k - 1);
      assert qs[1..][k - 1..] == qs[k..] && answers[1..][k - 1..] == answers[k..];
    } else {
      GrantedAtMostAsked(qs[1..], answers[1..], ip, 0);
      assert qs[0..] == qs && answers[0..] == answers && qs[1..][0..] == qs[1..] && answers[1..][0..] == answers[1..];
    }
  }

  /** The first calls of an address, as many as it may make in an hour, are all allowed. */
  lemma FirstCallsAreAllowed(perHour: nat, before: seq<Request>, q: Request, start: real)
    requires Clocked(start, before + [q]) && Asked(before, q.ip) < perHour
    ensures Answers(LimitsPerHour(perHour), map[], before + [q])[|before|]
  {
    hide Earned, Answers, Granted, Asked;
    var l, n := LimitsPerHour(perHour), |before|;
    var answers := Answers(l, map[], before + [q]);
    forall k | 0 <= k <= n ensures Left(l, before, answers[..n], q.ip, k, q.now) >= 1.0 {
      var all := before + [q];
      assert all[n] == q && (k < n ==> all[k] == before[k]);
      ClockRises(start, all, k, n);
      EarnMore(l, Opens(before, k, q.now), Opens(before, k, q.now), q.now);
      GrantedAtMostAsked(before, answers[..n], q.ip, k);
    }
    AllowedExactlyWhen(l, before, q, start);
  }

  /** Nobody is allowed more than twice the hour's limit in any hour. */
  lemma AtMostTwiceInAnHour(perHour: nat, before: seq<Request>, window: seq<Request>, ip: string, start: real, s: real)
    requires Clocked(start, before + window) && forall q | q in window :: s <= q.now <= s + 3600.0
    ensures Granted(window, Answers(LimitsPerHour(perHour), map[], before + window)[|before|..], ip) <= 2 * perHour
  {
    hide Earned, Answers, Granted;
    AtMostBurstAndRate(LimitsPerHour(perHour), before, window, ip, start, s, s + 3600.0);
    AnHourEarnsTheLimit(perHour, s, s + 3600.0);
  }

  lemma RealServeSane(l: Limits, m: Buckets, q: Request)
    requires l.Valid() && Sane(l, m, q.now)
    ensures Sane(l, Serve(l, m, q).0, q.now)
  {
    hide Served, Full;
    var kept := if q.ip !in m && |m| >= PRUNE_AT then Pruned(l, m, q.later) else m;
    ServeSane(l, kept, q.now, q);
    assert Serve(l, m, q).0 == ServeKeepingAll(l, kept, q).0;
  }

  /** Memory is bounded by an hour's callers: whenever a new address comes on top of ten thousand, only addresses that
      have called within the last hour are remembered besides, and those that are keep what they have. */
  lemma OnlyTheLastHourIsRemembered(perHour: nat, m: Buckets, q: Request)
    requires Sane(LimitsPerHour(perHour), m, q.now) && q.now <= q.later && q.ip !in m && |m| >= 10000
    ensures var l := LimitsPerHour(perHour);
            var m' := Serve(l, m, q).0;
            && Sane(l, m', q.now) && q.ip in m'
            && forall ip | ip in m' && ip != q.ip :: ip in m && m'[ip] == m[ip] && q.later - m[ip].last < 3600.0
  {
    hide Served, Earned, Sane;
    var l := LimitsPerHour(perHour);
    RealServeSane(l, m, q);
    forall ip | ip in Serve(l, m, q).0 && ip != q.ip
      ensures ip in m && Serve(l, m, q).0[ip] == m[ip] && q.later - m[ip].last < 3600.0
    {
      NotInDebt(l, m, ip, q.now);
      AnHourEarnsTheLimit(perHour, m[ip].last, q.later);
    }
  }

  /** Until then nobody is forgotten. */
  lemma NobodyIsForgottenBefore(l: Limits, m: Buckets, q: Request)
    requires q.ip in m || |m| < 10000
    ensures var m' := Serve(l, m, q).0;
            m'.Keys == m.Keys + {q.ip} && forall ip | ip in m && ip != q.ip :: m'[ip] == m[ip]
  {
    hide Served;
  }

  lemma NotInDebt(l: Limits, m: Buckets, ip: string, time: real)
    requires Sane(l, m, time) && ip in m
    ensures m[ip].tokens >= 0.0 && m[ip].last <= time
  {
  }
}
