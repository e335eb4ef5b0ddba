/** What the two batch drivers share: how a batch can end, what waiting for relief decides, and the
    log of committed batches. */
module BatchDriver {
  import opened Options
  import opened BatchSizing

  /** How waiting for relief ends: pressure cleared after `waited`, the log did not drain, or the
      wait failed (monitoring went blind, a graceful stop, a cancelled context). */
  datatype Relief = Cleared(waited: nat) | DrainTimedOut | ReliefFailed

  /** What became of a batch. `landed` says whether the server had committed it all the same: the
      driver ignores the outcome of a statement it has decided to stop. `Broken` covers a failed
      statement, a lost connection and the death of the process before the watermark was saved. */
  datatype Outcome = Committed | Stopped(landed: bool, relief: Relief) | Broken(landed: bool)

  predicate Landed(o: Outcome) {
    o.Committed? || o.landed
  }

  /** How a run ended. Only the predicate loop has a row ceiling; Killed is the death of the process
      between two batches. */
  datatype Ending = Exhausted | GracefulStop | Errored | StoppedShort | RowCeilingHit | Killed

  /** The verdict after waiting for relief, with the wait banked so far. */
  function AfterStop(tuning: Tuning, stall: nat, relief: Relief): (Option<Ending>, nat) {
    match relief
    case DrainTimedOut => (Some(StoppedShort), stall)
    case ReliefFailed => (Some(Errored), stall)
    case Cleared(waited) =>
      var total := stall + waited;
      (if tuning.selfWait > 0 && total >= tuning.selfWait then Some(StoppedShort) else None, total)
  }

  lemma StopVerdicts(tuning: Tuning, stall: nat, relief: Relief)
    ensures AfterStop(tuning, stall, relief).0 == None
         || AfterStop(tuning, stall, relief).0 == Some(StoppedShort)
         || AfterStop(tuning, stall, relief).0 == Some(Errored)
  {
  }

  // --- what a run's turns say of its end ----------------------------------------------------

  /** The waits for relief since the last committed batch, over the outcomes of a run's turns. */
  function Waited(outcomes: seq<Outcome>): nat {
    if outcomes == [] then 0
    else
      var before := Waited(outcomes[..|outcomes| - 1]);
      match outcomes[|outcomes| - 1]
      case Committed => 0
      case Stopped(_, Cleared(waited)) => before + waited
      case _ => before
  }

  /** The last batch was stopped, and the log did not drain or the waits since the last commit have used up
      the self-wait budget; there is no budget to use up when it is not positive. */
  predicate GivesUp(tuning: Tuning, outcomes: seq<Outcome>) {
    outcomes != [] &&
    var last := outcomes[|outcomes| - 1];
    && last.Stopped?
    && (|| last.relief == DrainTimedOut
        || (last.relief.Cleared? && 0 < tuning.selfWait <= Waited(outcomes)))
  }

  /** The statement or the wait for relief failed. */
  predicate Fails(o: Outcome) {
    o.Broken? || (o.Stopped? && o.relief == ReliefFailed)
  }

  /** One more turn, its batch sent: what waiting for relief decides is what the outcomes say. */
  lemma AfterStopGivesUp(tuning: Tuning, outcomes: seq<Outcome>, o: Outcome)
    requires o.Stopped?
    ensures var (ending, stall) := AfterStop(tuning, Waited(outcomes), o.relief);
      && (ending == Some(StoppedShort) <==> GivesUp(tuning, outcomes + [o]))
      && (ending == Some(Errored) <==> Fails(o))
      && (ending == None <==> !GivesUp(tuning, outcomes + [o]) && !Fails(o))
      && stall == Waited(outcomes + [o])
  {
    assert (outcomes + [o])[..|outcomes|] == outcomes;
  }

  // --- the log of committed batches -------------------------------------------------------

  function Union(log: seq<set<int>>): set<int> {
    if log == [] then {} else Union(log[..|log| - 1]) + log[|log| - 1]
  }

  predicate Disjoint(log: seq<set<int>>) {
    forall i, j | 0 <= i < j < |log| :: log[i] !! log[j]
  }

  lemma {:induction false} UnionContains(log: seq<set<int>>)
    ensures forall i | 0 <= i < |log| :: log[i] <= Union(log)
  {
    if log != [] {
      UnionContains(log[..|log| - 1]);
    }
  }

  lemma {:induction false} UnionMembers(log: seq<set<int>>)
    ensures forall k <- Union(log) :: exists i :: 0 <= i < |log| && k in log[i]
  {
    if log != [] {
      var front := log[..|log| - 1];
      UnionMembers(front);
      forall k <- Union(log)
        ensures exists i :: 0 <= i < |log| && k in log[i]
      {
        if k in Union(front) {
          var i :| 0 <= i < |front| && k in front[i];
          assert log[i] == front[i];
        }
      }
    }
  }

  lemma DisjointGrows(log: seq<set<int>>, keys: set<int>)
    requires Disjoint(log) && Union(log) !! keys
    ensures Disjoint(log + [keys])
  {
    UnionContains(log);
    forall i, j | 0 <= i < j < |log + [keys]|
      ensures (log + [keys])[i] !! (log + [keys])[j]
    {
      if j == |log| {
        assert log[i] <= Union(log);
      }
    }
  }

  /** Taking two disjoint parts away one after the other, or together. */
  lemma TakenTwice(all: set<int>, first: set<int>, second: set<int>)
    requires first <= all && second <= all - first
    ensures all - first - second == all - (first + second)
    ensures first + second <= all && first !! second
  {
  }

  function TotalRows(log: seq<set<int>>): nat {
    if log == [] then 0 else TotalRows(log[..|log| - 1]) + |log[|log| - 1]|
  }

  lemma {:induction false} DisjointTotals(log: seq<set<int>>)
    requires Disjoint(log)
    ensures TotalRows(log) == |Union(log)|
  {
    if log != [] {
      var front, last := log[..|log| - 1], log[|log| - 1];
      DisjointTotals(front);
      UnionMembers(front);
      forall k <- Union(front)
        ensures k !in last
      {
        var i :| 0 <= i < |front| && k in front[i];
        assert log[i] == front[i];
      }
    }
  }

  lemma LogGrows(log: seq<set<int>>, keys: set<int>)
    ensures TotalRows(log + [keys]) == TotalRows(log) + |keys|
    ensures Union(log + [keys]) == Union(log) + keys
  {
    assert (log + [keys])[..|log|] == log;
  }

  lemma {:induction false} LogsJoin(log: seq<set<int>>, more: seq<set<int>>)
    ensures Union(log + more) == Union(log) + Union(more)
    ensures TotalRows(log + more) == TotalRows(log) + TotalRows(more)
    decreases |more|
  {
    if more == [] {
      assert log + more == log;
    } else {
      var front, last := more[..|more| - 1], more[|more| - 1];
      LogsJoin(log, front);
      assert log + more == log + front + [last] && more == front + [last];
      LogGrows(log + front, last);
      LogGrows(front, last);
    }
  }

  lemma DisjointJoin(log: seq<set<int>>, more: seq<set<int>>)
    requires Disjoint(log) && Disjoint(more) && Union(log) !! Union(more)
    ensures Disjoint(log + more)
  {
    UnionContains(log);
    UnionContains(more);
    var all := log + more;
    forall i, j | 0 <= i < j < |all|
      ensures all[i] !! all[j]
    {
      if i < |log| <= j {
        assert log[i] <= Union(log) && more[j - |log|] <= Union(more);
      }
    }
  }

  // --- counting down ------------------------------------------------------------------------

  /** n units; kept as a recursion because only its order matters. */
  function Units(n: nat, unit: nat): nat {
    if n == 0 then 0 else Units(n - 1, unit) + unit
  }

  lemma {:induction false} FewerUnits(m: nat, n: nat, unit: nat)
    requires m < n
    ensures Units(m, unit) + unit <= Units(n, unit)
  {
    if m < n - 1 {
      FewerUnits(m, n - 1, unit);
    }
  }

  lemma FuelFalls(after: nat, before: nat, unit: nat)
    requires after <= before
    ensures Units(after, unit) + (if after < before then unit else 0) <= Units(before, unit)
  {
    if after < before {
      FewerUnits(after, before, unit);
    }
  }
}
