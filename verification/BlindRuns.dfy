/** Blindness and forgetting over whole runs of a room. */
module BlindRuns {
  import opened Wire
  import opened RoomModel
  import opened RoomInvariants
  import opened Blindness

  ghost predicate TwinRuns(cfg: Config, xs: seq<Call>, ys: seq<Call>) {
    |xs| == |ys| && forall i | 0 <= i < |xs| :: Twins(cfg, xs[i], ys[i])
  }

  /** Whose ballots may differ after `n` calls. */
  ghost function TaintAt(cfg: Config, r: RoomState, xs: seq<Call>, ys: seq<Call>, start: set<string>,
                         n: nat): set<string>
    requires |xs| == |ys| && n <= |xs|
  {
    if n == 0 then start
    else Taint(cfg, At(cfg, r, xs, n - 1), TaintAt(cfg, r, xs, ys, start, n - 1), xs[n - 1], ys[n - 1])
  }

  ghost predicate NothingRevealed(cfg: Config, r: RoomState, calls: seq<Call>, from: nat, to: nat)
    requires to <= |calls|
  {
    forall k | from <= k < to :: !Reveals(cfg, At(cfg, r, calls, k), calls[k])
  }

  lemma {:induction false} AgreeUntilReveal(cfg: Config, a: RoomState, b: RoomState, xs: seq<Call>, ys: seq<Call>,
                                            start: set<string>, n: nat)
    requires TwinRuns(cfg, xs, ys) && n <= |xs|
    requires AgreeOutside(a, b, start)
    requires NothingRevealed(cfg, a, xs, 0, n)
    ensures AgreeOutside(At(cfg, a, xs, n), At(cfg, b, ys, n), TaintAt(cfg, a, xs, ys, start, n))
  {
    hide Step, Taint;
    if n > 0 {
      AgreeUntilReveal(cfg, a, b, xs, ys, start, n - 1);
      StepAgrees(cfg, At(cfg, a, xs, n - 1), At(cfg, b, ys, n - 1), xs[n - 1], ys[n - 1],
                 TaintAt(cfg, a, xs, ys, start, n - 1));
    }
  }

  /** Blindness. Take two rooms that differ at most in what the ballots of the open round say, and make the
      same calls in both, except that the values and rationales of valid ballots may differ. Until the round
      is revealed nobody, through any reply or event, can tell the two apart; they are revealed by the same
      call; and even that call differs only in the values, rationales and statistics it reveals. */
  lemma VotesAreBlind(cfg: Config, a: RoomState, b: RoomState, xs: seq<Call>, ys: seq<Call>, n: nat)
    requires TwinRuns(cfg, xs, ys) && n < |xs|
    requires SameButBallots(a, b)
    requires NothingRevealed(cfg, a, xs, 0, n)
    ensures forall i | 0 <= i < n :: SameObservations(Did(cfg, a, xs, i), Did(cfg, b, ys, i))
    ensures Snapshot(cfg, At(cfg, a, xs, n)) == Snapshot(cfg, At(cfg, b, ys, n))
    ensures Reveals(cfg, At(cfg, a, xs, n), xs[n]) <==> Reveals(cfg, At(cfg, b, ys, n), ys[n])
    ensures SameButResults(Did(cfg, a, xs, n), Did(cfg, b, ys, n))
  {
    var start := a.round.votes.Keys;
    forall i | 0 <= i < n ensures SameObservations(Did(cfg, a, xs, i), Did(cfg, b, ys, i)) {
      AgreeUntilReveal(cfg, a, b, xs, ys, start, i);
      StepAgrees(cfg, At(cfg, a, xs, i), At(cfg, b, ys, i), xs[i], ys[i], TaintAt(cfg, a, xs, ys, start, i));
    }
    var t := TaintAt(cfg, a, xs, ys, start, n);
    AgreeUntilReveal(cfg, a, b, xs, ys, start, n);
    SameSnapshots(cfg, At(cfg, a, xs, n), At(cfg, b, ys, n), t);
    StepAgrees(cfg, At(cfg, a, xs, n), At(cfg, b, ys, n), xs[n], ys[n], t);
  }

  // ---------- withdrawn and overwritten ballots ----------

  /** Before any reveal that follows, the caster of ballot `i` casts another or leaves. */
  ghost predicate Superseded(cfg: Config, r: RoomState, calls: seq<Call>, i: nat)
    requires i < |calls|
  {
    forall k | i <= k < |calls| && Reveals(cfg, At(cfg, r, calls, k), calls[k]) ::
      exists j :: i < j <= k && SupersededBy(cfg, r, calls, i, j)
  }

  ghost predicate SupersededBy(cfg: Config, r: RoomState, calls: seq<Call>, i: nat, j: nat)
    requires i < |calls| && j < |calls|
  {
    var caller := Caller(At(cfg, r, calls, i), calls[i]);
    caller.Some? && Supersedes(cfg, At(cfg, r, calls, j), calls[j], caller.value)
  }

  /** Ballot `i` of `id` differs between the runs, and by call `n` it has been neither replaced nor revealed. */
  ghost predicate Pending(cfg: Config, r: RoomState, xs: seq<Call>, ys: seq<Call>, id: string, i: nat, n: nat)
    requires |xs| == |ys| && i < n <= |xs|
  {
    && xs[i] != ys[i]
    && Accepted(cfg, At(cfg, r, xs, i), xs[i])
    && Caller(At(cfg, r, xs, i), xs[i]) == Some(id)
    && (forall j | i < j < n :: !SupersededBy(cfg, r, xs, i, j))
    && NothingRevealed(cfg, r, xs, i, n)
  }

  /** The ballots that differ are superseded before they can be revealed. */
  ghost predicate Withdrawn(cfg: Config, r: RoomState, xs: seq<Call>, ys: seq<Call>) {
    && TwinRuns(cfg, xs, ys)
    && forall i | 0 <= i < |xs| && xs[i] != ys[i] && Accepted(cfg, At(cfg, r, xs, i), xs[i]) ::
         Superseded(cfg, r, xs, i)
  }

  ghost predicate AllPending(cfg: Config, r: RoomState, xs: seq<Call>, ys: seq<Call>, n: nat)
    requires |xs| == |ys| && n <= |xs|
  {
    forall id | id in TaintAt(cfg, r, xs, ys, {}, n) :: exists i :: 0 <= i < n && Pending(cfg, r, xs, ys, id, i, n)
  }

  lemma NothingTaintedAtReveal(cfg: Config, r: RoomState, xs: seq<Call>, ys: seq<Call>, n: nat)
    requires n < |xs| && Withdrawn(cfg, r, xs, ys)
    requires AllPending(cfg, r, xs, ys, n)
    requires Reveals(cfg, At(cfg, r, xs, n), xs[n])
    ensures TaintAt(cfg, r, xs, ys, {}, n + 1) == {}
  {
    hide Step, Reveals, Accepted, Caller;
    var now, next := TaintAt(cfg, r, xs, ys, {}, n), TaintAt(cfg, r, xs, ys, {}, n + 1);
    assert !Superseded(cfg, r, xs, n);
    forall id | id in now ensures Supersedes(cfg, At(cfg, r, xs, n), xs[n], id) {
      var i :| 0 <= i < n && Pending(cfg, r, xs, ys, id, i, n);
      assert Superseded(cfg, r, xs, i);
      var j :| i < j <= n && SupersededBy(cfg, r, xs, i, j);
    }
  }

  lemma StillPending(cfg: Config, r: RoomState, xs: seq<Call>, ys: seq<Call>, n: nat)
    requires n < |xs| && TwinRuns(cfg, xs, ys)
    requires AllPending(cfg, r, xs, ys, n)
    requires !Reveals(cfg, At(cfg, r, xs, n), xs[n])
    ensures AllPending(cfg, r, xs, ys, n + 1)
  {
    hide Step, Reveals, Accepted, Caller, At, Supersedes;
    var now, m := TaintAt(cfg, r, xs, ys, {}, n), n + 1;
    var next := TaintAt(cfg, r, xs, ys, {}, m);
    forall id | id in next ensures exists i :: 0 <= i < m && Pending(cfg, r, xs, ys, id, i, m) {
      if id in now && !Supersedes(cfg, At(cfg, r, xs, n), xs[n], id) {
        var i :| 0 <= i < n && Pending(cfg, r, xs, ys, id, i, n);
        assert Pending(cfg, r, xs, ys, id, i, m);
      } else {
        assert Pending(cfg, r, xs, ys, id, n, m);
      }
    }
  }

  lemma NobodyPending(cfg: Config, r: RoomState, xs: seq<Call>, ys: seq<Call>, n: nat)
    requires |xs| == |ys| && n <= |xs| && TaintAt(cfg, r, xs, ys, {}, n) == {}
    ensures AllPending(cfg, r, xs, ys, n)
  {
  }

  lemma {:induction false} AgreeForever(cfg: Config, r: RoomState, xs: seq<Call>, ys: seq<Call>, n: nat)
    requires n <= |xs| && Withdrawn(cfg, r, xs, ys)
    ensures AgreeOutside(At(cfg, r, xs, n), At(cfg, r, ys, n), TaintAt(cfg, r, xs, ys, {}, n))
    ensures AllPending(cfg, r, xs, ys, n)
    ensures n > 0 ==> SameObservations(Did(cfg, r, xs, n - 1), Did(cfg, r, ys, n - 1))
  {
    hide Step, Taint, AllPending, Reveals;
    if n > 0 {
      var m := n - 1;
      AgreeForever(cfg, r, xs, ys, m);
      StepAgrees(cfg, At(cfg, r, xs, m), At(cfg, r, ys, m), xs[m], ys[m], TaintAt(cfg, r, xs, ys, {}, m));
      if Reveals(cfg, At(cfg, r, xs, m), xs[m]) {
        NothingTaintedAtReveal(cfg, r, xs, ys, m);
        NobodyPending(cfg, r, xs, ys, n);
      } else {
        StillPending(cfg, r, xs, ys, m);
      }
    } else {
      NobodyPending(cfg, r, xs, ys, n);
    }
  }

  /** Withdrawn and overwritten ballots leave no trace. Two runs that differ only in ballots that are
      re-voted, or whose caster leaves, before the round is revealed give every reply and event alike, for
      ever, and whenever the round stands revealed the rooms are the same, results, history and awards. */
  lemma WithdrawnBallotsLeaveNoTrace(cfg: Config, r: RoomState, xs: seq<Call>, ys: seq<Call>)
    requires Withdrawn(cfg, r, xs, ys)
    ensures |xs| == |ys|
    ensures forall n | 0 <= n < |xs| :: SameObservations(Did(cfg, r, xs, n), Did(cfg, r, ys, n))
    ensures forall n | 0 <= n <= |xs| :: Snapshot(cfg, At(cfg, r, xs, n)) == Snapshot(cfg, At(cfg, r, ys, n))
    ensures forall n | 0 <= n <= |xs| && At(cfg, r, xs, n).round.phase.Revealed? ::
              At(cfg, r, xs, n) == At(cfg, r, ys, n)
  {
    hide Step, Taint, SameObservations, AllPending, Snapshot;
    forall n | 0 <= n < |xs| ensures SameObservations(Did(cfg, r, xs, n), Did(cfg, r, ys, n)) {
      AgreeForever(cfg, r, xs, ys, n + 1);
    }
    forall n | 0 <= n <= |xs|
      ensures Snapshot(cfg, At(cfg, r, xs, n)) == Snapshot(cfg, At(cfg, r, ys, n))
      ensures At(cfg, r, xs, n).round.phase.Revealed? ==> At(cfg, r, xs, n) == At(cfg, r, ys, n)
    {
      AgreeForever(cfg, r, xs, ys, n);
      SameSnapshots(cfg, At(cfg, r, xs, n), At(cfg, r, ys, n), TaintAt(cfg, r, xs, ys, {}, n));
    }
  }
}
