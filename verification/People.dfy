/** A room's participants, kept in a map and listed in join order. */
module People {
  import opened RoomModel
  import opened RoomInvariants
  import opened Sorting

  ghost predicate Covers(order: seq<string>, m: map<string, Participant>) {
    && (forall id | id in order :: id in m)
    && (forall id | id in m :: id in order && m[id].id == id)
  }

  ghost function Roll(order: seq<string>, m: map<string, Participant>): seq<Participant>
    requires forall id | id in order :: id in m
  {
    if order == [] then [] else [m[order[0]]] + Roll(order[1..], m)
  }

  function WithoutId(order: seq<string>, id: string): seq<string> {
    if order == [] then [] else (if order[0] == id then [] else [order[0]]) + WithoutId(order[1..], id)
  }

  lemma {:induction false} PeopleMembers(order: seq<string>, m: map<string, Participant>)
    requires forall id | id in order :: id in m
    ensures |Roll(order, m)| == |order|
    ensures forall i | 0 <= i < |order| :: Roll(order, m)[i] == m[order[i]]
    ensures forall id | id in order :: m[id] in Roll(order, m)
    ensures forall p | p in Roll(order, m) :: exists id :: id in order && m[id] == p
  {
    if order != [] {
      PeopleMembers(order[1..], m);
      assert order == [order[0]] + order[1..];
    }
  }

  lemma {:induction false} PeopleAppend(order: seq<string>, m: map<string, Participant>, id: string, p: Participant)
    requires (forall k | k in order :: k in m) && id !in order
    ensures Roll(order + [id], m[id := p]) == Roll(order, m) + [p]
  {
    if order == [] {
      assert (order + [id])[1..] == [];
    } else {
      assert order[0] in order;
      PeopleAppend(order[1..], m, id, p);
      assert (order + [id])[1..] == order[1..] + [id];
    }
  }

  lemma {:induction false} WithoutIdMembers(order: seq<string>, id: string)
    ensures forall k :: k in WithoutId(order, id) <==> k in order && k != id
  {
    if order != [] {
      WithoutIdMembers(order[1..], id);
      assert order == [order[0]] + order[1..];
    }
  }

  lemma {:induction false} PeopleWithout(order: seq<string>, m: map<string, Participant>, id: string)
    requires forall k | k in order :: k in m && m[k].id == k
    ensures forall k | k in WithoutId(order, id) :: k in m - {id}
    ensures Roll(WithoutId(order, id), m - {id}) == Without(Roll(order, m), id)
  {
    WithoutIdMembers(order, id);
    if order != [] {
      assert order[0] in order;
      WithoutIdMembers(order[1..], id);
      PeopleWithout(order[1..], m, id);
      var rest := WithoutId(order[1..], id);
      assert Roll(order, m)[1..] == Roll(order[1..], m);
      if order[0] == id {
        assert WithoutId(order, id) == rest;
      } else {
        assert WithoutId(order, id) == [order[0]] + rest && ([order[0]] + rest)[1..] == rest;
      }
    }
  }

  lemma {:induction false} PeopleStamp(order: seq<string>, m: map<string, Participant>, id: string, now: int)
    requires (forall k | k in order :: k in m && m[k].id == k) && id in m && m[id].id == id
    ensures Roll(order, m[id := m[id].(lastReaction := RoomModel.Wire.Some(now))]) == Stamp(Roll(order, m), id, now)
  {
    if order != [] {
      assert order[0] in order;
      PeopleStamp(order[1..], m, id, now);
    }
  }

  // ---------- sorting by join number ----------

  ghost predicate InJoinOrder(ps: seq<Participant>) {
    forall i, j | 0 <= i < j < |ps| :: ps[i].joinNo < ps[j].joinNo
  }

  predicate JoinedBy(p: Participant, q: Participant) {
    p.joinNo <= q.joinNo
  }

  function SortByJoin(ps: seq<Participant>): seq<Participant> {
    Sort(JoinedBy, ps)
  }

  ghost predicate DistinctJoins(ps: seq<Participant>) {
    forall i, j | 0 <= i < j < |ps| :: ps[i].joinNo != ps[j].joinNo
  }

  lemma {:induction false} OnceEach(ps: seq<Participant>, p: Participant)
    requires DistinctJoins(ps)
    ensures multiset(ps)[p] <= 1
  {
    if ps != [] {
      assert ps == [ps[0]] + ps[1..];
      OnceEach(ps[1..], p);
      assert forall i | 0 <= i < |ps[1..]| :: ps[1..][i].joinNo != ps[0].joinNo;
    }
  }

  lemma InTwoPlaces(ps: seq<Participant>, i: nat, j: nat)
    requires i < j < |ps| && ps[i] == ps[j]
    ensures multiset(ps)[ps[i]] >= 2
  {
    var left, right := ps[..i + 1], ps[i + 1..];
    assert ps == left + right && left[i] == ps[i] && right[j - i - 1] == ps[j];
    assert ps[i] in multiset(left) && ps[i] in multiset(right);
  }

  /** No two people joined at once, so ranking them by when they did orders them. */
  lemma SortByJoinSorts(ps: seq<Participant>)
    requires DistinctJoins(ps)
    ensures InJoinOrder(SortByJoin(ps))
    ensures forall q :: q in SortByJoin(ps) <==> q in ps
  {
    SortSorts(JoinedBy, ps);
    SortKeepsMembers(JoinedBy, ps);
    var sorted := SortByJoin(ps);
    forall i, j | 0 <= i < j < |sorted| ensures sorted[i].joinNo < sorted[j].joinNo {
      var p, q := sorted[i], sorted[j];
      assert JoinedBy(p, q);
      if p.joinNo == q.joinNo {
        SameJoin(ps, p, q);
        InTwoPlaces(sorted, i, j);
        OnceEach(ps, p);
      }
    }
  }

  lemma SameJoin(ps: seq<Participant>, p: Participant, q: Participant)
    requires DistinctJoins(ps) && p in ps && q in ps && p.joinNo == q.joinNo
    ensures p == q
  {
    var i :| 0 <= i < |ps| && ps[i] == p;
    var j :| 0 <= j < |ps| && ps[j] == q;
    assert i < j || j < i || i == j;
  }

  lemma SomebodyIn(ps: seq<Participant>)
    requires ps != []
    ensures exists p :: p in ps
  {
    assert ps[0] in ps;
  }

  /** Whatever order the map is visited in, sorting by join number lists the same people the same way. */
  lemma {:induction false} OneJoinOrder(a: seq<Participant>, b: seq<Participant>)
    requires InJoinOrder(a) && InJoinOrder(b)
    requires forall p :: p in a <==> p in b
    ensures a == b
  {
    if a == [] {
      if b != [] {
        SomebodyIn(b);
      }
    } else {
      assert a[0] in b && b != [];
      assert b[0] in a;
      assert a[0] == b[0];
      forall p ensures p in a[1..] <==> p in b[1..] {
        assert p in a <==> p == a[0] || p in a[1..];
        assert p in b <==> p == b[0] || p in b[1..];
        assert a[0] !in a[1..] && b[0] !in b[1..];
      }
      OneJoinOrder(a[1..], b[1..]);
      assert a == [a[0]] + a[1..] && b == [b[0]] + b[1..];
    }
  }

  lemma {:induction false} RollSnoc(order: seq<string>, m: map<string, Participant>, id: string)
    requires (forall k | k in order :: k in m) && id in m
    ensures Roll(order + [id], m) == Roll(order, m) + [m[id]]
  {
    if order == [] {
      assert (order + [id])[1..] == [];
    } else {
      assert order[0] in order;
      RollSnoc(order[1..], m, id);
      assert (order + [id])[1..] == order[1..] + [id];
    }
  }

  ghost predicate Distinct(ids: seq<string>) {
    forall i, j | 0 <= i < j < |ids| :: ids[i] != ids[j]
  }

  lemma RollHasDistinctJoins(order: seq<string>, seen: seq<string>, m: map<string, Participant>)
    requires Covers(order, m) && InJoinOrder(Roll(order, m))
    requires Distinct(seen) && forall id | id in seen :: id in m
    ensures DistinctJoins(Roll(seen, m))
  {
    PeopleMembers(order, m);
    PeopleMembers(seen, m);
    hide Roll;
    var ps, all := Roll(seen, m), Roll(order, m);
    forall i, j | 0 <= i < j < |ps| ensures ps[i].joinNo != ps[j].joinNo {
      assert seen[i] in order && seen[j] in order;
      var a :| 0 <= a < |order| && order[a] == seen[i];
      var b :| 0 <= b < |order| && order[b] == seen[j];
      assert all[a] == ps[i] && all[b] == ps[j];
      assert a < b || b < a;
    }
  }

  /** Whatever order the map is visited in, sorting by join number restores join order. */
  lemma SortingRestoresJoinOrder(order: seq<string>, seen: seq<string>, m: map<string, Participant>)
    requires Covers(order, m) && InJoinOrder(Roll(order, m))
    requires Distinct(seen) && forall id :: id in seen <==> id in m
    ensures SortByJoin(Roll(seen, m)) == Roll(order, m)
  {
    RollHasDistinctJoins(order, seen, m);
    SortByJoinSorts(Roll(seen, m));
    PeopleMembers(order, m);
    PeopleMembers(seen, m);
    OneJoinOrder(SortByJoin(Roll(seen, m)), Roll(order, m));
  }

  lemma OrderlyIsInJoinOrder(ps: seq<Participant>, joins: nat)
    requires Orderly(ps, joins)
    ensures InJoinOrder(ps)
  {
    forall i, j | 0 <= i < j < |ps| ensures ps[i].joinNo < ps[j].joinNo {
      OrderlyPairs(ps, joins, i, j);
    }
  }

  /** Tokens are distinct, so whoever presents one is found whatever order the map is searched in. */
  lemma {:induction false} OnlyOneHolds(ps: seq<Participant>, joins: nat, token: string, p: Participant)
    requires Orderly(ps, joins) && p in ps && p.token == token
    ensures Authenticate(ps, token) == RoomModel.Wire.Some(p)
  {
    if ps[0] != p {
      assert p in ps[1..];
      OnlyOneHolds(ps[1..], joins, token, p);
    } else {
      assert ps[0].token != "";
    }
  }

  lemma DistinctRoll(order: seq<string>, m: map<string, Participant>, joins: nat)
    requires Covers(order, m) && Orderly(Roll(order, m), joins)
    ensures Distinct(order)
  {
    PeopleMembers(order, m);
    forall i, j | 0 <= i < j < |order| ensures order[i] != order[j] {
      OrderlyPairs(Roll(order, m), joins, i, j);
    }
  }

  lemma {:induction false} DistinctCount(ids: seq<string>, these: set<string>)
    requires Distinct(ids) && forall id :: id in ids <==> id in these
    ensures |ids| == |these|
  {
    if ids != [] {
      assert ids == [ids[0]] + ids[1..];
      assert forall id :: id in ids[1..] <==> id in these - {ids[0]};
      DistinctCount(ids[1..], these - {ids[0]});
    } else {
      assert these == {};
    }
  }
}
