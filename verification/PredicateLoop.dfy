/** The predicate loop: UPDATE/DELETE TOP (n) repeated until a batch affects no row, with a ceiling
    on the rows it may report. The server picks which matching rows a TOP takes. */
module PredicateLoop {
  import opened Options
  import opened SqlPredicates
  import opened BatchStatements
  import opened BatchSizing
  import opened Tables
  import opened BatchDriver

  /** `pick` is the server's choice of rows for this batch. */
  datatype Pass = Pass(stop: bool, pick: set<int>, outcome: Outcome, feedback: Feedback)

  datatype Task = Task(o: BatchDML, tuning: Tuning, rcsi: bool, est: int)

  datatype Loop = Loop(db: Table, log: seq<set<int>>, size: int, stall: nat,
                       rows: nat, batches: nat, finalRows: int, ending: Option<Ending>)

  predicate Runnable(task: Task) {
    Usable(task.o) && Configured(task.tuning)
  }

  function Start(task: Task, db: Table): Loop {
    Loop(db, [], InitialSize(task.o.initialRows, task.est, task.tuning, task.rcsi), 0, 0, 0, 0, None)
  }

  function Matches(task: Task, db: Table): set<int>
    requires Validate(task.o) == None
  {
    Matching(db, PredicateWhere(task.o))
  }

  /** The rows a TOP (size) acts on: any `size` of the matching ones, or all when there are fewer. A
      pick no server could make stands for the rows with the smallest keys. */
  function Top(matching: set<int>, size: int, pick: set<int>): set<int> {
    if pick <= matching && |pick| == MinInt(size, |matching|) then pick
    else match NthSmallest(matching, size)
      case None => {}
      case Some(at) => UpTo(matching, at)
  }

  function Batch(task: Task, l: Loop, p: Pass): set<int>
    requires Validate(task.o) == None
  {
    Top(Matches(task, l.db), l.size, p.pick)
  }

  function Act(o: BatchDML, db: Table, keys: set<int>): Table {
    if o.verb == Delete then DeleteRows(db, keys) else UpdateRows(db, keys, o)
  }

  function Applied(task: Task, l: Loop, keys: set<int>, landed: bool): Loop {
    if landed then l.(db := Act(task.o, l.db, keys), log := l.log + [keys]) else l
  }

  function Counting(task: Task, l: Loop, keys: set<int>, f: Feedback): Loop {
    var done := Applied(task, l, keys, true).(finalRows := l.size);
    if keys == {} then done.(ending := Some(Exhausted))
    else
      var counted := done.(rows := l.rows + |keys|, batches := l.batches + 1);
      if counted.rows >= RowCeiling(task.est) then counted.(ending := Some(RowCeilingHit))
      else counted.(stall := 0,
                    size := AdjustBatchRows(l.size, f, task.tuning, BatchCeiling(task.tuning, task.rcsi)))
  }

  function Go(task: Task, l: Loop, p: Pass): Loop
    requires Validate(task.o) == None && l.ending == None
  {
    if p.stop then l.(ending := Some(GracefulStop))
    else
      var keys := Batch(task, l, p);
      match p.outcome
      case Committed => Counting(task, l, keys, p.feedback)
      case Broken(landed) => Applied(task, l, keys, landed).(ending := Some(Errored))
      case Stopped(landed, relief) =>
        var (ending, stall) := AfterStop(task.tuning, l.stall, relief);
        Applied(task, l, keys, landed).(stall := stall, ending := ending)
  }

  function Passes(task: Task, l: Loop, script: seq<Pass>): (end: Loop)
    requires Validate(task.o) == None
    ensures end.ending.Some?
    decreases |script|
  {
    if l.ending.Some? then l
    else if script == [] then l.(ending := Some(Killed))
    else Passes(task, Go(task, l, script[0]), script[1..])
  }

  lemma PassesNext(task: Task, l: Loop, script: seq<Pass>, i: nat)
    requires Validate(task.o) == None && l.ending == None && i < |script|
    ensures Passes(task, l, script[i..]) == Passes(task, Go(task, l, script[i]), script[i + 1..])
  {
    assert script[i..][0] == script[i] && script[i..][1..] == script[i + 1..];
  }

  lemma PassesOver(task: Task, l: Loop)
    requires Validate(task.o) == None
    ensures Passes(task, l, []) == if l.ending.Some? then l else l.(ending := Some(Killed))
    ensures l.ending.Some? ==> forall script :: Passes(task, l, script) == l
  {
  }

  // --- what one batch takes -------------------------------------------------------------------

  lemma MatchesArePending(task: Task, db: Table)
    requires Runnable(task)
    ensures Matches(task, db) == Pending(db, task.o)
  {
    forall k | k in db
      ensures Selects(PredicateWhere(task.o), db[k]) <==> Needs(task.o, db[k])
    {
      PredicateWhereMeaning(task.o, db[k]);
      assert Needs(task.o, db[k]) ==> k in Pending(db, task.o);
    }
  }

  lemma TopIsBounded(matching: set<int>, size: int, pick: set<int>)
    requires size >= 1
    ensures Top(matching, size, pick) <= matching
    ensures |Top(matching, size, pick)| == MinInt(size, |matching|)
    ensures Top(matching, size, pick) == {} <==> matching == {}
  {
    NthSmallestBounds(matching, size);
    if matching != {} {
      assert |matching| > 0;
    }
  }

  /** A DELETE, or an UPDATE to literals: what it has acted on it does not match again. */
  predicate SelfConsuming(o: BatchDML) {
    o.verb == Delete || Literal(o)
  }

  predicate SafeLoop(task: Task, l: Loop)
    requires Validate(task.o) == None
  {
    && SafeSize(l.size, task.tuning, task.rcsi)
    && (l.ending == None ==> l.rows < RowCeiling(task.est))
    && l.rows < RowCeiling(task.est) + BatchCeiling(task.tuning, task.rcsi)
    && l.size <= BatchCeiling(task.tuning, task.rcsi)
    && l.rows <= TotalRows(l.log)
    && (l.ending == Some(RowCeilingHit) ==> l.rows >= RowCeiling(task.est))
  }

  lemma StartIsSafe(task: Task, db: Table)
    requires Runnable(task)
    ensures SafeLoop(task, Start(task, db))
  {
    EverySizeIsSafe(task.o.initialRows, task.est, [], task.tuning, task.rcsi);
  }

  lemma GoKeepsSafe(task: Task, l: Loop, p: Pass)
    requires Runnable(task) && SafeLoop(task, l) && l.ending == None
    ensures SafeLoop(task, Go(task, l, p))
  {
    hide Top, Matches, Act, TotalRows, Union, AdjustBatchRows, AfterStop, RowCeiling;
    if !p.stop {
      var keys := Batch(task, l, p);
      TopIsBounded(Matches(task, l.db), l.size, p.pick);
      LogGrows(l.log, keys);
      if p.outcome.Stopped? {
        StopVerdicts(task.tuning, l.stall, p.outcome.relief);
      }
      AdjustKeepsSafe(l.size, p.feedback, task.tuning, task.rcsi);
    }
  }

  /** Whatever the predicate, whatever the server does: the rows a run reports stay below the ceiling
      plus one batch. */
  lemma {:induction false} ReportedRowsBounded(task: Task, l: Loop, script: seq<Pass>)
    requires Runnable(task) && SafeLoop(task, l)
    ensures SafeLoop(task, Passes(task, l, script))
    ensures Passes(task, l, script).rows < RowCeiling(task.est) + task.tuning.maxRows
    decreases |script|
  {
    if l.ending == None && script != [] {
      GoKeepsSafe(task, l, script[0]);
      ReportedRowsBounded(task, Go(task, l, script[0]), script[1..]);
    }
  }

  // --- the loop ends --------------------------------------------------------------------------

  predicate PassWaits(p: Pass) {
    p.outcome.Stopped? && p.outcome.relief.Cleared? ==> p.outcome.relief.waited > 0
  }

  /** Rows left to the ceiling, then self-wait budget left. */
  function LoopFuel(task: Task, l: Loop): int
    requires Runnable(task) && l.rows < RowCeiling(task.est)
  {
    Units(RowCeiling(task.est) - l.rows, task.tuning.selfWait + 1) - l.stall
  }

  lemma GoBurns(task: Task, l: Loop, p: Pass)
    requires Runnable(task) && SafeLoop(task, l) && l.ending == None
    requires l.stall < task.tuning.selfWait && PassWaits(p) && Go(task, l, p).ending == None
    ensures Go(task, l, p).rows < RowCeiling(task.est)
    ensures LoopFuel(task, Go(task, l, p)) < LoopFuel(task, l)
    ensures Go(task, l, p).stall < task.tuning.selfWait
  {
    hide Top, Matches, Act, AdjustBatchRows, TotalRows, RowCeiling;
    GoKeepsSafe(task, l, p);
    var ceiling, unit := RowCeiling(task.est), task.tuning.selfWait + 1;
    FuelFalls(ceiling - Go(task, l, p).rows, ceiling - l.rows, unit);
  }

  lemma GoNeverKills(task: Task, l: Loop, p: Pass)
    requires Runnable(task) && l.ending == None
    ensures Go(task, l, p).ending != Some(Killed)
  {
    hide Top, Matches, Act, AdjustBatchRows, RowCeiling;
  }

  /** For any predicate at all, with every wait positive, a run of enough passes ends by itself. */
  lemma {:induction false} LoopEnds(task: Task, l: Loop, script: seq<Pass>)
    requires Runnable(task) && SafeLoop(task, l) && l.ending == None
    requires l.stall < task.tuning.selfWait && (forall p <- script :: PassWaits(p))
    requires |script| >= LoopFuel(task, l)
    ensures Passes(task, l, script).ending != Some(Killed)
    decreases |script|
  {
    hide Go, RowCeiling;
    assert l.rows < RowCeiling(task.est);
    FewerUnits(0, RowCeiling(task.est) - l.rows, task.tuning.selfWait + 1);
    GoKeepsSafe(task, l, script[0]);
    GoNeverKills(task, l, script[0]);
    if Go(task, l, script[0]).ending == None {
      GoBurns(task, l, script[0]);
      LoopEnds(task, Go(task, l, script[0]), script[1..]);
    }
  }

  // --- self-consuming operations --------------------------------------------------------------

  /** Where the table and the log of committed batches stand, in terms of the table at the start. */
  predicate Settled(o: BatchDML, start: Table, db: Table, log: seq<set<int>>)
    requires Usable(o)
  {
    && Disjoint(log)
    && Union(log) <= Pending(start, o)
    && db == Act(o, start, Union(log))
    && Pending(db, o) == Pending(start, o) - Union(log)
  }

  predicate Progress(task: Task, start: Table, l: Loop)
    requires Runnable(task)
  {
    && Settled(task.o, start, l.db, l.log)
    && (l.ending == Some(Exhausted) ==> Pending(l.db, task.o) == {})
  }

  lemma BatchKeepsSettled(task: Task, start: Table, db: Table, log: seq<set<int>>, keys: set<int>)
    requires Runnable(task) && SelfConsuming(task.o) && Settled(task.o, start, db, log)
    requires keys <= Pending(db, task.o)
    ensures Settled(task.o, start, Act(task.o, db, keys), log + [keys])
    ensures keys == {} ==> Act(task.o, db, keys) == db
  {
    hide Act, Pending, Union, TotalRows;
    LogGrows(log, keys);
    UnionContains(log);
    ActSettles(task, db, keys);
    ActTwice(task.o, start, Union(log), keys);
    ActOnNothing(task.o, db);
  }

  /** Every row taken is counted once in the log. */
  lemma SettledCounts(o: BatchDML, start: Table, db: Table, log: seq<set<int>>)
    requires Usable(o) && Settled(o, start, db, log)
    ensures TotalRows(log) == |Pending(start, o)| - |Pending(db, o)|
    ensures Pending(db, o) == {} ==> Union(log) == Pending(start, o)
  {
    hide Act, Pending, Union, TotalRows, Disjoint;
    DisjointTotals(log);
    var all, taken, left := Pending(start, o), Union(log), Pending(db, o);
    assert all == left + taken;
  }

  lemma ActOnNothing(o: BatchDML, db: Table)
    ensures Act(o, db, {}) == db
  {
  }

  /** Acting on pending rows takes exactly those out of the pending set. */
  lemma ActSettles(task: Task, db: Table, keys: set<int>)
    requires Runnable(task) && SelfConsuming(task.o) && keys <= Pending(db, task.o)
    ensures Pending(Act(task.o, db, keys), task.o) == Pending(db, task.o) - keys
  {
    forall k
      ensures k in Pending(Act(task.o, db, keys), task.o) <==> k in Pending(db, task.o) - keys
    {
      if k in keys && task.o.verb != Delete {
        UpdatedRowIsSettled(task.o.assigns, db[k]);
      }
    }
  }

  lemma ActTwice(o: BatchDML, start: Table, first: set<int>, second: set<int>)
    requires first !! second
    ensures Act(o, Act(o, start, first), second) == Act(o, start, first + second)
  {
  }

  lemma GoKeepsProgress(task: Task, start: Table, l: Loop, p: Pass)
    requires Runnable(task) && SelfConsuming(task.o) && Progress(task, start, l) && l.ending == None
    requires SafeLoop(task, l)
    ensures Progress(task, start, Go(task, l, p))
  {
    hide Top, Act, Pending, Union, RowCeiling, AdjustBatchRows, AfterStop, Matches, Settled;
    if !p.stop {
      var keys := Batch(task, l, p);
      MatchesArePending(task, l.db);
      TopIsBounded(Matches(task, l.db), l.size, p.pick);
      if p.outcome.Stopped? {
        StopVerdicts(task.tuning, l.stall, p.outcome.relief);
      }
      BatchKeepsSettled(task, start, l.db, l.log, keys);
    }
  }

  lemma {:induction false} PassesKeepProgress(task: Task, start: Table, l: Loop, script: seq<Pass>)
    requires Runnable(task) && SelfConsuming(task.o) && SafeLoop(task, l) && Progress(task, start, l)
    ensures Progress(task, start, Passes(task, l, script))
    ensures SafeLoop(task, Passes(task, l, script))
    decreases |script|
  {
    if l.ending == None && script != [] {
      GoKeepsSafe(task, l, script[0]);
      GoKeepsProgress(task, start, l, script[0]);
      PassesKeepProgress(task, start, Go(task, l, script[0]), script[1..]);
    }
  }

  /** A literal UPDATE or a DELETE touches each initially matching row at most once and no other; when
      the run reports the loop drained, no row matches any more and every initially matching row was
      touched; and the ceiling is never reported while that set is smaller than it. */
  lemma SelfConsumingLoop(task: Task, db: Table, script: seq<Pass>)
    requires Runnable(task) && SelfConsuming(task.o)
    ensures var end := Passes(task, Start(task, db), script);
      && Disjoint(end.log) && Union(end.log) <= Pending(db, task.o)
      && end.db == Act(task.o, db, Union(end.log))
      && (end.ending == Some(Exhausted) ==>
            Matches(task, end.db) == {} && Union(end.log) == Pending(db, task.o) && TotalRows(end.log) == |Pending(db, task.o)|)
      && (end.ending == Some(RowCeilingHit) ==> RowCeiling(task.est) <= |Pending(db, task.o)|)
  {
    StartIsSafe(task, db);
    assert db == Act(task.o, db, {});
    PassesKeepProgress(task, db, Start(task, db), script);
    var end := Passes(task, Start(task, db), script);
    hide Passes, Start, Act, Pending, Union, TotalRows, Disjoint, Validate, RowCeiling;
    SettledCounts(task.o, db, end.db, end.log);
    MatchesArePending(task, end.db);
  }

  predicate PassCounted(p: Pass) {
    p.outcome.Committed? || !p.outcome.landed
  }

  /** This pass commits a batch of rows that the driver does not count. */
  predicate Misses(task: Task, l: Loop, p: Pass)
    requires Validate(task.o) == None
  {
    !p.stop && Matches(task, l.db) != {} && !PassCounted(p)
  }

  /** How many passes of a run do, of those it gets to. */
  function Missed(task: Task, l: Loop, script: seq<Pass>): nat
    requires Validate(task.o) == None
    decreases |script|
  {
    if l.ending.Some? || script == [] then 0
    else (if Misses(task, l, script[0]) then 1 else 0) + Missed(task, Go(task, l, script[0]), script[1..])
  }

  /** What a pass that sends its batch does to the log and to the rows reported. */
  lemma GoEffect(task: Task, l: Loop, p: Pass)
    requires Validate(task.o) == None && l.ending == None && !p.stop
    ensures var keys := Batch(task, l, p);
      && Go(task, l, p).log == (if Landed(p.outcome) then l.log + [keys] else l.log)
      && Go(task, l, p).rows == l.rows + (if p.outcome.Committed? then |keys| else 0)
  {
    hide Batch, Act, AfterStop, AdjustBatchRows, RowCeiling;
  }

  /** A batch stopped or broken after the server had committed it: none of its rows is ever reported. */
  lemma GoCounts(task: Task, l: Loop, p: Pass)
    requires Runnable(task) && SafeLoop(task, l) && l.ending == None
    ensures var l' := Go(task, l, p);
      && TotalRows(l'.log) - TotalRows(l.log) == (l'.rows - l.rows)
         + (if Misses(task, l, p) then MinInt(l.size, |Matches(task, l.db)|) else 0)
      && (Misses(task, l, p) ==> l'.rows == l.rows && MinInt(l.size, |Matches(task, l.db)|) > 0)
  {
    if !p.stop {
      TopIsBounded(Matches(task, l.db), l.size, p.pick);
      LogGrows(l.log, Batch(task, l, p));
      GoEffect(task, l, p);
      hide Go, Top, Matches, TotalRows, Union, Validate;
    }
  }

  /** A run reports exactly the rows it committed if and only if it missed no commit, and fewer otherwise. */
  lemma {:induction false} ReportedRows(task: Task, l: Loop, script: seq<Pass>)
    requires Runnable(task) && SafeLoop(task, l)
    ensures var end := Passes(task, l, script);
      var reported, committed := end.rows - l.rows, TotalRows(end.log) - TotalRows(l.log);
      reported <= committed && (reported == committed <==> Missed(task, l, script) == 0)
    decreases |script|
  {
    if l.ending == None && script != [] {
      assert Validate(task.o) == None;
      hide Go, TotalRows, Misses, Validate;
      GoCounts(task, l, script[0]);
      GoKeepsSafe(task, l, script[0]);
      hide SafeLoop, Matches;
      ReportedRows(task, Go(task, l, script[0]), script[1..]);
    }
  }

  lemma {:induction false} DrainedBelowCeiling(task: Task, l: Loop, script: seq<Pass>)
    requires Runnable(task) && SafeLoop(task, l)
    requires l.ending == Some(Exhausted) ==> l.rows < RowCeiling(task.est)
    ensures Passes(task, l, script).ending == Some(Exhausted) ==> Passes(task, l, script).rows < RowCeiling(task.est)
    decreases |script|
  {
    if l.ending == None && script != [] {
      GoKeepsSafe(task, l, script[0]);
      DrainedBelowCeiling(task, Go(task, l, script[0]), script[1..]);
    }
  }

  /** When no commit is missed the ending is decided by the size of the match set alone: a run that
      finishes drains it if that set is below the ceiling, and hits the ceiling if it is not. */
  lemma VerdictByCeiling(task: Task, db: Table, script: seq<Pass>)
    requires Runnable(task) && SelfConsuming(task.o) && Missed(task, Start(task, db), script) == 0
    ensures var end := Passes(task, Start(task, db), script);
      end.ending in {Some(Exhausted), Some(RowCeilingHit)} ==>
        (end.ending == Some(Exhausted) <==> |Pending(db, task.o)| < RowCeiling(task.est))
  {
    SelfConsumingLoop(task, db, script);
    StartIsSafe(task, db);
    ReportedRows(task, Start(task, db), script);
    DrainedBelowCeiling(task, Start(task, db), script);
    hide Passes, Missed, Pending, Matches, Act, Union, RowCeiling, Validate;
  }

  /** A literal UPDATE or a DELETE nothing disturbs, with fewer matching rows than the ceiling, drains its
      match set. */
  lemma UndisturbedLoopDrains(task: Task, db: Table, script: seq<Pass>)
    requires Runnable(task) && SelfConsuming(task.o) && |Pending(db, task.o)| < RowCeiling(task.est)
    requires forall p <- script :: !p.stop && p.outcome == Committed
    requires |script| >= LoopFuel(task, Start(task, db))
    ensures var end := Passes(task, Start(task, db), script);
      end.ending == Some(Exhausted) && Matches(task, end.db) == {}
  {
    StartIsSafe(task, db);
    LoopEnds(task, Start(task, db), script);
    UndisturbedVerdicts(task, Start(task, db), script);
    SelfConsumingLoop(task, db, script);
  }

  // --- how a run ends ---------------------------------------------------------------------------

  function Outcomes(script: seq<Pass>): (os: seq<Outcome>)
    ensures |os| == |script| && forall i | 0 <= i < |script| :: os[i] == script[i].outcome
  {
    seq(|script|, i requires 0 <= i < |script| => script[i].outcome)
  }

  /** The run gets to pass i: cut off before it, it has not ended by itself. */
  predicate GetsTo(task: Task, l: Loop, script: seq<Pass>, i: nat)
    requires Validate(task.o) == None && i <= |script|
  {
    Passes(task, l, script[..i]).ending == Some(Killed)
  }

  /** How pass i ends the run, if it gets to it and does not go on from it: stopped short where the driver
      gives up on its batch, in error where the statement or the wait failed, exhausted where it commits
      no row, at the ceiling where the rows it commits bring the reported ones there. */
  function HowAt(task: Task, l: Loop, script: seq<Pass>, i: nat): Option<Ending>
    requires Validate(task.o) == None && i < |script|
  {
    if !GetsTo(task, l, script, i) then None
    else
      How(task, Passes(task, l, script[..i]), Outcomes(script[..i]), script[i])
  }

  /** The same, in terms of the state before the pass and the outcomes of the passes before it. */
  function How(task: Task, l: Loop, before: seq<Outcome>, p: Pass): Option<Ending>
    requires Validate(task.o) == None
  {
    if p.stop then Some(GracefulStop)
    else if GivesUp(task.tuning, before + [p.outcome]) then Some(StoppedShort)
    else if Fails(p.outcome) then Some(Errored)
    else if !p.outcome.Committed? then None
    else if Batch(task, l, p) == {} then Some(Exhausted)
    else if l.rows + |Batch(task, l, p)| >= RowCeiling(task.est) then Some(RowCeilingHit)
    else None
  }

  predicate EndsBy(task: Task, l: Loop, script: seq<Pass>, e: Ending)
    requires Validate(task.o) == None
  {
    exists i :: 0 <= i < |script| && HowAt(task, l, script, i) == Some(e)
  }

  /** One pass more. */
  lemma {:induction false} OneMore(task: Task, l: Loop, front: seq<Pass>, p: Pass)
    requires Validate(task.o) == None
    ensures var before, end := Passes(task, l, front), Passes(task, l, front + [p]);
      if before.ending != Some(Killed) || l.ending.Some? then end == before
      else
        var next := Go(task, before.(ending := None), p);
        end == if next.ending.Some? then next else next.(ending := Some(Killed))
    decreases |front|
  {
    hide Go;
    if l.ending == None {
      assert [p][1..] == [] && front + [] == front;
      if front == [] {
        assert front + [p] == [p];
        var next := Go(task, l, p);
        assert Passes(task, l, [p]) == Passes(task, next, []);
        assert l.(ending := Some(Killed)).(ending := None) == l;
      } else {
        assert (front + [p])[1..] == front[1..] + [p];
        var next := Go(task, l, front[0]);
        if next.ending == None {
          OneMore(task, next, front[1..], p);
        } else {
          GoDecides(task, l, [], front[0], false);
        }
      }
    }
  }

  lemma OutcomesGrow(front: seq<Pass>, p: Pass)
    ensures Outcomes(front + [p]) == Outcomes(front) + [p.outcome]
  {
  }

  /** What a pass does to the ending and to the wait the driver has banked. */
  lemma GoDecides(task: Task, l: Loop, before: seq<Outcome>, p: Pass, banked: bool)
    requires Validate(task.o) == None && l.ending == None && (banked ==> l.stall == Waited(before))
    ensures banked ==> Go(task, l, p).ending == How(task, l, before, p)
    ensures banked && Go(task, l, p).ending == None ==> Go(task, l, p).stall == Waited(before + [p.outcome])
    ensures Go(task, l, p).ending != Some(Killed)
  {
    assert (before + [p.outcome])[..|before|] == before;
    if p.outcome.Stopped? {
      AfterStopGivesUp(task.tuning, before, p.outcome);
    }
    hide Batch, Act, AdjustBatchRows, RowCeiling;
  }

  /** The wait the driver has banked is what the outcomes say, as long as the run goes on. */
  lemma {:induction false} BankedIsWaited(task: Task, l: Loop, script: seq<Pass>)
    requires Validate(task.o) == None && l.ending == None && l.stall == 0
    ensures Passes(task, l, script).ending == Some(Killed) ==> Passes(task, l, script).stall == Waited(Outcomes(script))
  {
    if script != [] {
      var front, p := script[..|script| - 1], script[|script| - 1];
      assert script == front + [p];
      BankedIsWaited(task, l, front);
      OneMore(task, l, front, p);
      OutcomesGrow(front, p);
      var before := Passes(task, l, front);
      if before.ending == Some(Killed) {
        GoDecides(task, before.(ending := None), Outcomes(front), p, true);
      }
      hide Go, Passes, Outcomes, Waited, How;
    }
  }

  lemma BatchIgnoresEnding(task: Task, l: Loop, before: seq<Outcome>, p: Pass)
    requires Validate(task.o) == None
    ensures How(task, l.(ending := None), before, p) == How(task, l, before, p)
  {
  }

  /** What the server reported of the committed batches, in order. */
  function Reports(script: seq<Pass>): seq<Feedback> {
    if script == [] then []
    else
      var front, p := Reports(script[..|script| - 1]), script[|script| - 1];
      if p.outcome.Committed? then front + [p.feedback] else front
  }

  /** What a pass counts: a committed batch of some rows once, with its rows; one of no row only the size it
      was sent with; any other nothing. */
  lemma PassCounts(task: Task, l: Loop, p: Pass)
    requires Validate(task.o) == None && l.ending == None
    ensures var l', keys := Go(task, l, p), Batch(task, l, p);
      if p.stop || !p.outcome.Committed? then
        l'.size == l.size && l'.batches == l.batches && l'.finalRows == l.finalRows && l'.rows == l.rows
      else
        && l'.finalRows == l.size
        && l'.batches == l.batches + (if keys == {} then 0 else 1) && l'.rows == l.rows + |keys|
        && (l'.ending == None ==>
              l'.size == AdjustBatchRows(l.size, p.feedback, task.tuning, BatchCeiling(task.tuning, task.rcsi)))
  {
    hide Batch, Act, AdjustBatchRows, AfterStop, RowCeiling;
  }

  function CountersOf(l: Loop): Counters {
    Counters(l.size, l.batches, l.finalRows)
  }

  /** As long as a run goes on, its batch size is the first one adjusted by the committed batches' reports, it
      counts exactly those batches, and it reports the size of the last of them. */
  lemma {:induction false} CountersByScript(task: Task, l: Loop, script: seq<Pass>)
    requires Validate(task.o) == None && l.ending == None && Passes(task, l, script).ending == Some(Killed)
    ensures CountersOf(Passes(task, l, script))
         == CountersAfter(CountersOf(l), Reports(script), task.tuning, BatchCeiling(task.tuning, task.rcsi))
  {
    if script != [] {
      var front, t := script[..|script| - 1], script[|script| - 1];
      assert script == front + [t];
      OneMore(task, l, front, t);
      CountersByScript(task, l, front);
      var before := Passes(task, l, front).(ending := None);
      PassCounts(task, before, t);
      EmptyBatchEnds(task, before, t);
      OneMoreReport(CountersOf(l), Reports(front), t.feedback, task.tuning, BatchCeiling(task.tuning, task.rcsi));
      hide Go, Passes, CountersAfter, BatchCeiling, AdjustBatchRows, Validate, Batch;
    }
  }

  lemma EmptyBatchEnds(task: Task, l: Loop, p: Pass)
    requires Validate(task.o) == None && l.ending == None
    ensures Go(task, l, p).ending == None ==> !p.stop && (p.outcome.Committed? ==> Batch(task, l, p) != {})
  {
    hide Batch, Act, AdjustBatchRows, AfterStop, RowCeiling;
  }

  /** What one pass the run gets to makes of it. */
  lemma PassDecides(task: Task, l: Loop, script: seq<Pass>)
    requires Validate(task.o) == None && l.ending == None && l.stall == 0 && script != []
    requires GetsTo(task, l, script, |script| - 1)
    ensures var how := HowAt(task, l, script, |script| - 1);
      Passes(task, l, script).ending == if how.Some? then how else Some(Killed)
  {
    var n := |script| - 1;
    var front, p := script[..n], script[n];
    var before := Passes(task, l, front);
    assert script == front + [p];
    BankedIsWaited(task, l, front);
    OneMore(task, l, front, p);
    BatchIgnoresEnding(task, before, Outcomes(front), p);
    GoDecides(task, before.(ending := None), Outcomes(front), p, true);
    hide Go, Passes, Outcomes, Waited, How, Validate;
  }

  lemma EarlierPasses(task: Task, l: Loop, script: seq<Pass>, i: nat)
    requires Validate(task.o) == None && i < |script| - 1
    ensures GetsTo(task, l, script[..|script| - 1], i) == GetsTo(task, l, script, i)
    ensures HowAt(task, l, script[..|script| - 1], i) == HowAt(task, l, script, i)
  {
    assert script[..|script| - 1][..i] == script[..i];
    hide Passes, How;
  }

  lemma EarlierOrLast(task: Task, l: Loop, script: seq<Pass>, e: Ending)
    requires Validate(task.o) == None && script != []
    ensures var n := |script| - 1;
      EndsBy(task, l, script, e) <==> EndsBy(task, l, script[..n], e) || HowAt(task, l, script, n) == Some(e)
  {
    var n := |script| - 1;
    forall i | 0 <= i < n
      ensures HowAt(task, l, script[..n], i) == HowAt(task, l, script, i)
    {
      EarlierPasses(task, l, script, i);
    }
    hide HowAt, Validate;
    if EndsBy(task, l, script[..n], e) {
      var i :| 0 <= i < n && HowAt(task, l, script[..n], i) == Some(e);
      assert HowAt(task, l, script, i) == Some(e);
    }
    if EndsBy(task, l, script, e) {
      var i :| 0 <= i <= n && HowAt(task, l, script, i) == Some(e);
      assert i < n ==> HowAt(task, l, script[..n], i) == Some(e);
    }
  }

  /** How a run ends, by its script. It is stopped short if and only if some pass it gets to has its batch
      stopped, and the log does not drain or the waits since the last committed batch use up the self-wait
      budget; it errs if and only if a statement or a wait fails; and so on. */
  lemma {:induction false} EndingByScript(task: Task, l: Loop, script: seq<Pass>, e: Ending)
    requires Validate(task.o) == None && l.ending == None && l.stall == 0 && e != Killed
    ensures Passes(task, l, script).ending == Some(e) <==> EndsBy(task, l, script, e)
  {
    if script != [] {
      var n := |script| - 1;
      var front := script[..n];
      EndingByScript(task, l, front, e);
      EarlierOrLast(task, l, script, e);
      assert script == front + [script[n]];
      OneMore(task, l, front, script[n]);
      if GetsTo(task, l, script, n) {
        PassDecides(task, l, script);
      }
      hide Passes, Go, EndsBy, Validate, How;
    }
  }

  /** A pass is followed by another if and only if it does not end the run: after a stopped batch exactly
      when nothing failed and the driver does not give up. */
  lemma PassIsFollowed(task: Task, l: Loop, script: seq<Pass>, i: nat)
    requires Validate(task.o) == None && l.ending == None && l.stall == 0 && i < |script|
    ensures GetsTo(task, l, script, i + 1) <==> GetsTo(task, l, script, i) && HowAt(task, l, script, i) == None
    ensures !script[i].stop && script[i].outcome.Stopped? && GetsTo(task, l, script, i) ==>
              (GetsTo(task, l, script, i + 1) <==>
                 !GivesUp(task.tuning, Outcomes(script[..i + 1])) && !Fails(script[i].outcome))
  {
    var upTo := script[..i + 1];
    assert upTo[..i] == script[..i] && upTo == script[..i] + [script[i]];
    OutcomesGrow(script[..i], script[i]);
    OneMore(task, l, script[..i], script[i]);
    if GetsTo(task, l, upTo, i) {
      PassDecides(task, l, upTo);
    }
    hide Passes, Go, GivesUp, Fails, Batch, RowCeiling, Validate;
  }

  // --- a campaign of runs -----------------------------------------------------------------------

  /** One run of the operation: the settings and the estimate it starts with, and the passes it gets to
      before it ends, is stopped or is killed. */
  datatype Session = Session(tuning: Tuning, rcsi: bool, est: int, script: seq<Pass>)

  /** The table and every batch committed to it over all the runs so far, and how the last one ended. */
  datatype Campaign = Campaign(db: Table, log: seq<set<int>>, ending: Option<Ending>)

  function InSession(o: BatchDML, s: Session): Task {
    Task(o, s.tuning, s.rcsi, s.est)
  }

  function RunAgain(o: BatchDML, c: Campaign, s: Session): Campaign
    requires Validate(o) == None
  {
    var end := Passes(InSession(o, s), Start(InSession(o, s), c.db), s.script);
    Campaign(end.db, c.log + end.log, end.ending)
  }

  function RunAll(o: BatchDML, c: Campaign, runs: seq<Session>): Campaign
    requires Validate(o) == None
    decreases |runs|
  {
    if runs == [] then c else RunAll(o, RunAgain(o, c, runs[0]), runs[1..])
  }

  predicate Advanced(o: BatchDML, start: Table, c: Campaign)
    requires Usable(o)
  {
    && Settled(o, start, c.db, c.log)
    && (c.ending == Some(Exhausted) ==> Pending(c.db, o) == {})
  }

  lemma CampaignStarts(o: BatchDML, db: Table)
    requires Usable(o)
    ensures Advanced(o, db, Campaign(db, [], None))
  {
    ActOnNothing(o, db);
  }

  lemma RunKeepsAdvanced(o: BatchDML, start: Table, c: Campaign, s: Session)
    requires Usable(o) && SelfConsuming(o) && Configured(s.tuning) && Advanced(o, start, c)
    ensures Advanced(o, start, RunAgain(o, c, s))
  {
    var task := InSession(o, s);
    StartIsSafe(task, c.db);
    ActOnNothing(o, c.db);
    PassesKeepProgress(task, c.db, Start(task, c.db), s.script);
    var end := Passes(task, Start(task, c.db), s.script);
    hide Passes, Start, Act, Pending, Union, TotalRows, Disjoint, Validate;
    LogsJoin(c.log, end.log);
    DisjointJoin(c.log, end.log);
    ActTwice(o, start, Union(c.log), Union(end.log));
    TakenTwice(Pending(start, o), Union(c.log), Union(end.log));
  }

  lemma {:induction false} RunsKeepAdvanced(o: BatchDML, start: Table, c: Campaign, runs: seq<Session>)
    requires Usable(o) && SelfConsuming(o) && Advanced(o, start, c)
    requires forall s <- runs :: Configured(s.tuning)
    ensures Advanced(o, start, RunAll(o, c, runs))
    decreases |runs|
  {
    hide Advanced;
    if runs != [] {
      RunKeepsAdvanced(o, start, c, runs[0]);
      RunsKeepAdvanced(o, start, RunAgain(o, c, runs[0]), runs[1..]);
    }
  }

  /** A literal UPDATE or a DELETE keeps no position: however many runs there are, each stopped, broken or
      killed anywhere and under any settings, they touch each initially matching row at most once among
      them and no other, and a run that reports the loop drained leaves every such row touched. */
  lemma CampaignTouchesOnce(o: BatchDML, db: Table, runs: seq<Session>)
    requires Usable(o) && SelfConsuming(o) && forall s <- runs :: Configured(s.tuning)
    ensures var c := RunAll(o, Campaign(db, [], None), runs);
      && Disjoint(c.log) && Union(c.log) <= Pending(db, o)
      && c.db == Act(o, db, Union(c.log))
      && Pending(c.db, o) == Pending(db, o) - Union(c.log)
      && TotalRows(c.log) == |Pending(db, o)| - |Pending(c.db, o)|
      && (c.ending == Some(Exhausted) ==> Pending(c.db, o) == {} && Union(c.log) == Pending(db, o))
  {
    CampaignStarts(o, db);
    RunsKeepAdvanced(o, db, Campaign(db, [], None), runs);
    var c := RunAll(o, Campaign(db, [], None), runs);
    hide RunAll, Act, Pending, Union, TotalRows, Disjoint, Validate;
    SettledCounts(o, db, c.db, c.log);
  }

  /** The next run continues naturally: after any such history, one run that nothing disturbs and that
      still has fewer matching rows than its ceiling ends with every initially matching row touched, each
      by exactly one batch of the whole campaign. */
  lemma NextRunContinues(o: BatchDML, db: Table, runs: seq<Session>, last: Session)
    requires Usable(o) && SelfConsuming(o) && Configured(last.tuning) && forall s <- runs :: Configured(s.tuning)
    requires forall p <- last.script :: !p.stop && p.outcome == Committed
    requires var left := RunAll(o, Campaign(db, [], None), runs).db;
      && |Pending(left, o)| < RowCeiling(last.est)
      && |last.script| >= LoopFuel(InSession(o, last), Start(InSession(o, last), left))
    ensures var c := RunAgain(o, RunAll(o, Campaign(db, [], None), runs), last);
      && c.ending == Some(Exhausted) && Pending(c.db, o) == {}
      && Disjoint(c.log) && Union(c.log) == Pending(db, o) && TotalRows(c.log) == |Pending(db, o)|
      && c.db == Act(o, db, Pending(db, o))
  {
    var before := RunAll(o, Campaign(db, [], None), runs);
    CampaignStarts(o, db);
    RunsKeepAdvanced(o, db, Campaign(db, [], None), runs);
    hide RunAll, Act, Pending, Union, TotalRows, Disjoint, RowCeiling, LoopFuel, Validate;
    UndisturbedLoopDrains(InSession(o, last), before.db, last.script);
    hide Passes, Start, Matches;
    RunKeepsAdvanced(o, db, before, last);
    hide RunAgain;
    var c := RunAgain(o, before, last);
    SettledCounts(o, db, c.db, c.log);
  }

  /** A confirmed DELETE of a table. */
  function ExampleTask(est: int): (task: Task)
    ensures Runnable(task) && SelfConsuming(task.o)
  {
    assert 'd' in "dbo" && 'T' in "T";
    Task(BatchDML(Delete, "dbo", "T", [], None, [], None, true, false, None, None, true),
         Tuning(1, 1, 1, 1, 1, 1, 1, 1), true, est)
  }

  lemma ExampleMatches(est: int, db: Table)
    ensures Matches(ExampleTask(est), db) == db.Keys
  {
    forall k | k in db
      ensures k in Matches(ExampleTask(est), db)
    {
    }
  }

  /** One row to delete; its batch is stopped after the server committed it. The run goes on, reports the
      loop drained and no row, and the row is gone. */
  lemma AnUncountedBatch(est: int, row: Row, f: Feedback)
    ensures var task, db := ExampleTask(est), map[7 := row];
      var script := [Pass(false, {7}, Stopped(true, Cleared(0)), f), Pass(false, {}, Committed, f)];
      var end := Passes(task, Start(task, db), script);
      end.ending == Some(Exhausted) && end.rows == 0 && TotalRows(end.log) == 1 && end.db == map[]
  {
    var task, db := ExampleTask(est), map[7 := row];
    var p, p' := Pass(false, {7}, Stopped(true, Cleared(0)), f), Pass(false, {}, Committed, f);
    var l := Start(task, db);
    StartIsSafe(task, db);
    ExampleMatches(est, db);
    ExampleMatches(est, map[]);
    assert |{7}| == 1;
    hide Matches, RowCeiling, AdjustBatchRows, InitialSize, Validate;
    assert Batch(task, l, p) == {7};
    var l' := Go(task, l, p);
    assert l'.db == map[] && l'.log == [{7}] && l'.rows == 0 && l'.ending == None;
    TopIsBounded({}, l'.size, {});
    assert Batch(task, l', p') == {};
    var end := Go(task, l', p');
    assert end.ending == Some(Exhausted) && end.log == [{7}] + [{}] && end.db == map[] && end.rows == 0;
    hide Go, Top, Act, ExampleTask, Start;
    assert [] + [{7}] == [{7}];
    LogGrows([], {7});
    LogGrows([{7}], {});
    hide TotalRows, Union;
    assert Passes(task, l, [p, p']) == Passes(task, l', [p']) == Passes(task, end, []);
  }

  // --- operations that never consume their filter -----------------------------------------------

  /** A raw SET after which a matching row still matches, such as a counter increment filtered on
      another column. */
  ghost predicate NeverConsumes(o: BatchDML)
    requires Validate(o) == None
  {
    o.verb == Update && forall row :: Needs(o, row) ==> Needs(o, Change(o, row))
  }

  lemma GoKeepsMatches(task: Task, l: Loop, p: Pass)
    requires Runnable(task) && NeverConsumes(task.o) && SafeLoop(task, l) && l.ending == None
    requires Pending(l.db, task.o) != {}
    ensures Pending(Go(task, l, p).db, task.o) != {} && Go(task, l, p).ending != Some(Exhausted)
  {
    hide Pending, NeverConsumes, SafeLoop, Validate;
    if !p.stop {
      BatchTakesSome(task, l, p);
      StillMatches(task.o, l.db, Batch(task, l, p));
      StopVerdicts(task.tuning, l.stall, if p.outcome.Stopped? then p.outcome.relief else Cleared(0));
      hide Batch, RowCeiling, AdjustBatchRows, Act, AfterStop;
    }
  }

  lemma BatchTakesSome(task: Task, l: Loop, p: Pass)
    requires Runnable(task) && SafeLoop(task, l) && Pending(l.db, task.o) != {}
    ensures Batch(task, l, p) != {}
  {
    hide Pending, Top;
    MatchesArePending(task, l.db);
    TopIsBounded(Matches(task, l.db), l.size, p.pick);
  }

  lemma StillMatches(o: BatchDML, db: Table, keys: set<int>)
    requires Validate(o) == None && NeverConsumes(o) && Pending(db, o) != {}
    ensures Pending(Act(o, db, keys), o) != {}
  {
    SomeElement(Pending(db, o));
    var k :| k in Pending(db, o);
    assert k in Pending(Act(o, db, keys), o);
  }

  lemma {:induction false} NeverDrains(task: Task, l: Loop, script: seq<Pass>)
    requires Runnable(task) && NeverConsumes(task.o) && SafeLoop(task, l)
    requires Pending(l.db, task.o) != {} && l.ending != Some(Exhausted)
    ensures Passes(task, l, script).ending != Some(Exhausted)
    decreases |script|
  {
    hide Pending, SafeLoop, NeverConsumes, Go;
    if l.ending == None && script != [] {
      GoKeepsSafe(task, l, script[0]);
      GoKeepsMatches(task, l, script[0]);
      NeverDrains(task, Go(task, l, script[0]), script[1..]);
    }
  }

  /** The ceiling is what ends such a loop: undisturbed, it never drains and always hits the ceiling. */
  lemma OnlyTheCeilingEnds(task: Task, db: Table, script: seq<Pass>)
    requires Runnable(task) && NeverConsumes(task.o) && Pending(db, task.o) != {}
    requires forall p <- script :: !p.stop && p.outcome == Committed
    requires |script| >= LoopFuel(task, Start(task, db))
    ensures Passes(task, Start(task, db), script).ending == Some(RowCeilingHit)
  {
    StartIsSafe(task, db);
    LoopEnds(task, Start(task, db), script);
    NeverDrains(task, Start(task, db), script);
    UndisturbedVerdicts(task, Start(task, db), script);
  }

  lemma {:induction false} UndisturbedVerdicts(task: Task, l: Loop, script: seq<Pass>)
    requires Runnable(task) && (l.ending == None || l.ending.value in {Exhausted, RowCeilingHit})
    requires forall p <- script :: !p.stop && p.outcome == Committed
    ensures Passes(task, l, script).ending.value in {Exhausted, RowCeilingHit, Killed}
    decreases |script|
  {
    if l.ending == None && script != [] {
      UndisturbedVerdicts(task, Go(task, l, script[0]), script[1..]);
    }
  }

  // --- the driver -------------------------------------------------------------------------------

  class PredicateRunner {
    const task: Task
    var db: Table
    var log: seq<set<int>>
    var rows: nat
    var batches: nat
    var finalRows: int

    constructor (task: Task, db: Table)
      ensures this.task == task && this.db == db && log == []
      ensures rows == 0 && batches == 0 && finalRows == 0
    {
      this.task, this.db, log := task, db, [];
      rows, batches, finalRows := 0, 0, 0;
    }

    method Apply(keys: set<int>, landed: bool)
      modifies this`db, this`log
      ensures db == if landed then Act(task.o, old(db), keys) else old(db)
      ensures log == if landed then old(log) + [keys] else old(log)
    {
      if landed {
        db, log := Act(task.o, db, keys), log + [keys];
      }
    }

    ghost function Seen(size: int, stall: nat, ending: Option<Ending>): Loop
      reads this
    {
      Loop(db, log, size, stall, rows, batches, finalRows, ending)
    }

    /** One pass of the loop. */
    method RunPass(p: Pass, size: int, stall: nat) returns (ending: Option<Ending>, newSize: int, newStall: nat)
      requires Validate(task.o) == None
      modifies this
      ensures Seen(newSize, newStall, ending) == Go(task, old(Seen(size, stall, None)), p)
    {
      hide Matching, PredicateWhere, Top, Act, AdjustBatchRows, AfterStop, RowCeiling, Validate;
      ending, newSize, newStall := None, size, stall;
      if p.stop {
        return Some(GracefulStop), size, stall;
      }
      var keys := Top(Matching(db, PredicateWhere(task.o)), size, p.pick);
      Apply(keys, Landed(p.outcome));
      match p.outcome {
        case Broken(_) => return Some(Errored), size, stall;
        case Stopped(_, relief) =>
          var (stopped, total) := AfterStop(task.tuning, stall, relief);
          return stopped, size, total;
        case Committed =>
          finalRows := size;
          if keys == {} {
            return Some(Exhausted), size, stall;
          }
          rows, batches := rows + |keys|, batches + 1;
          if rows >= RowCeiling(task.est) {
            return Some(RowCeilingHit), size, stall;
          }
          newStall := 0;
          newSize := AdjustBatchRows(size, p.feedback, task.tuning, BatchCeiling(task.tuning, task.rcsi));
      }
    }

    method Run(script: seq<Pass>) returns (ending: Ending)
      requires Validate(task.o) == None
      requires log == [] && rows == 0 && batches == 0 && finalRows == 0
      modifies this
      ensures var end := Passes(task, Start(task, old(db)), script);
        && Some(ending) == end.ending && db == end.db && log == end.log
        && rows == end.rows && batches == end.batches && finalRows == end.finalRows
    {
      var size := InitialSize(task.o.initialRows, task.est, task.tuning, task.rcsi);
      var stall: nat := 0;
      ghost var end := Passes(task, Start(task, db), script);
      assert script[0..] == script;
      hide Passes, Validate, Go, InitialSize;
      for i := 0 to |script|
        invariant Passes(task, Seen(size, stall, None), script[i..]) == end
      {
        ghost var l := Seen(size, stall, None);
        PassesNext(task, l, script, i);
        PassesOver(task, Go(task, l, script[i]));
        var stopped;
        stopped, size, stall := RunPass(script[i], size, stall);
        if stopped.Some? {
          return stopped.value;
        }
      }
      assert script[|script|..] == [];
      PassesOver(task, Seen(size, stall, None));
      return Killed;
    }
  }
}
