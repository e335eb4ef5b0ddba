/** The key_range walk: ascending key ranges, each committed by the server before its watermark is
    written to a file beside the manifest. A history is any sequence of runs, each cut off wherever
    the process dies, and of losses and replacements of the file. */
module KeyRangeWalk {
  import opened Options
  import opened SqlPredicates
  import opened Text
  import opened BatchStatements
  import opened BatchSizing
  import opened BatchDriver
  import opened Tables

  // --- the key ------------------------------------------------------------------------------

  datatype KeyColumn = KeyColumn(name: Column, isInteger: bool, isUnique: bool)

  /** The column the walk goes by: the clustered key, when it is one unique integer column and the
      operation names no other. `sameName` is the case-insensitive comparison of names. */
  function KeyRangeColumn(o: BatchDML, cols: seq<KeyColumn>, sameName: (Column, Column) -> bool): (key: Option<Column>)
    ensures key.Some? ==> cols == [KeyColumn(key.value, true, true)] && (o.key.Some? ==> sameName(o.key.value, key.value))
    ensures key == None && |cols| == 1 && cols[0].isInteger && cols[0].isUnique ==>
              o.key.Some? && !sameName(o.key.value, cols[0].name)
  {
    if |cols| != 1 then None
    else if o.key.Some? && !sameName(o.key.value, cols[0].name) then None
    else if !cols[0].isInteger then None
    else if !cols[0].isUnique then None
    else Some(cols[0].name)
  }

  function RowsUpTo(keys: seq<int>, at: int): nat {
    if keys == [] then 0 else RowsUpTo(keys[1..], at) + (if keys[0] <= at then 1 else 0)
  }

  lemma {:induction false} RowsUpToSplits(keys: seq<int>, at: int, m: nat)
    requires m <= |keys| && forall i | 0 <= i < m :: keys[i] <= at
    ensures m <= RowsUpTo(keys, at)
    ensures (forall i | m <= i < |keys| :: at < keys[i]) ==> RowsUpTo(keys, at) == m
  {
    if keys != [] {
      RowsUpToSplits(keys[1..], at, if m == 0 then 0 else m - 1);
    }
  }

  predicate Ascending(keys: seq<int>) {
    forall i, j | 0 <= i < j < |keys| :: keys[i] <= keys[j]
  }

  predicate NoRepeats(keys: seq<int>) {
    forall i, j | 0 <= i < j < |keys| :: keys[i] != keys[j]
  }

  /** Why uniqueness is demanded. With the keys listed in ascending order, one entry a row, the range
      the (m + 1)-th one bounds holds m + 1 rows for every m if and only if no key repeats. */
  lemma UniquenessIsTheBound(keys: seq<int>)
    requires Ascending(keys)
    ensures (forall m | 0 <= m < |keys| :: RowsUpTo(keys, keys[m]) == m + 1) <==> NoRepeats(keys)
  {
    if !NoRepeats(keys) {
      var i, j :| 0 <= i < j < |keys| && keys[i] == keys[j];
      RowsUpToSplits(keys, keys[i], i + 2);
      assert RowsUpTo(keys, keys[i]) != i + 1;
    } else {
      forall m | 0 <= m < |keys|
        ensures RowsUpTo(keys, keys[m]) == m + 1
      {
        RowsUpToSplits(keys, keys[m], m + 1);
      }
    }
  }

  // --- one run ------------------------------------------------------------------------------

  datatype Turn = Turn(stop: bool, queryFails: bool, outcome: Outcome, saved: bool, feedback: Feedback)

  /** The persisted position, with the fingerprint of the statement it belongs to. */
  datatype Saved = Saved(at: int, fingerprint: nat)

  datatype Job = Job(o: BatchDML, key: Column, fingerprint: nat, tuning: Tuning, rcsi: bool)

  /** What survives a crash: the table, the position file, and the log of committed batches. */
  datatype Disk = Disk(db: Table, file: Option<Saved>, log: seq<set<int>>)

  datatype Walk = Walk(disk: Disk, mark: Option<int>, size: int, stall: nat,
                       rows: nat, batches: nat, finalRows: int, ending: Option<Ending>)

  /** Preconditions of the walk: the operation validated as a key_range one, the key is not among
      the SET columns, and the configuration loaded. */
  predicate Admissible(job: Job) {
    && Usable(job.o) && job.o.keyRange
    && (forall a <- job.o.assigns :: a.col != job.key)
    && Configured(job.tuning)
  }

  function Load(job: Job, disk: Disk): Option<int> {
    if disk.file.Some? && disk.file.value.fingerprint == job.fingerprint then Some(disk.file.value.at) else None
  }

  function Begin(job: Job, disk: Disk, est: int): Walk {
    Walk(disk, Load(job, disk), InitialSize(job.o.initialRows, est, job.tuning, job.rcsi), 0, 0, 0, 0, None)
  }

  /** The upper bound the next-key query returns. */
  function NextKey(job: Job, w: Walk): Option<int>
    requires Validate(job.o) == None
  {
    NthSmallest(Matching(w.disk.db, KeyRangeWhere(job.o, job.key, w.mark, None)), w.size)
  }

  /** The rows the batch statement changes. */
  function BatchKeys(job: Job, w: Walk, next: int): set<int>
    requires Validate(job.o) == None
  {
    Matching(w.disk.db, KeyRangeWhere(job.o, job.key, w.mark, Some(next)))
  }

  function Land(job: Job, disk: Disk, keys: set<int>): Disk {
    disk.(db := UpdateRows(disk.db, keys, job.o), log := disk.log + [keys])
  }

  /** The disk after the batch up to `next`, committed or rolled back. */
  function After(job: Job, w: Walk, next: int, landed: bool): Disk
    requires Validate(job.o) == None
  {
    if landed then Land(job, w.disk, BatchKeys(job, w, next)) else w.disk
  }

  function Commit(job: Job, w: Walk, next: int, t: Turn): Walk
    requires Validate(job.o) == None
  {
    var disk := After(job, w, next, true);
    w.(disk := if t.saved then disk.(file := Some(Saved(next, job.fingerprint))) else disk,
       mark := Some(next), stall := 0, rows := w.rows + |BatchKeys(job, w, next)|,
       batches := w.batches + 1, finalRows := w.size,
       size := AdjustBatchRows(w.size, t.feedback, job.tuning, BatchCeiling(job.tuning, job.rcsi)))
  }

  /** One pass through the driver's loop. */
  function Step(job: Job, w: Walk, t: Turn): Walk
    requires Validate(job.o) == None && w.ending == None
  {
    if t.stop then w.(ending := Some(GracefulStop))
    else if t.queryFails then w.(ending := Some(Errored))
    else match NextKey(job, w)
      case None => w.(ending := Some(Exhausted))
      case Some(next) =>
        match t.outcome
        case Committed => Commit(job, w, next, t)
        case Broken(landed) => w.(disk := After(job, w, next, landed), ending := Some(Errored))
        case Stopped(landed, relief) =>
          var (ending, stall) := AfterStop(job.tuning, w.stall, relief);
          w.(disk := After(job, w, next, landed), stall := stall, ending := ending)
  }

  /** The process dies when its script runs out. */
  function Steps(job: Job, w: Walk, script: seq<Turn>): (end: Walk)
    requires Validate(job.o) == None
    ensures end.ending.Some?
    decreases |script|
  {
    if w.ending.Some? then w
    else if script == [] then w.(ending := Some(Killed))
    else Steps(job, Step(job, w, script[0]), script[1..])
  }

  lemma StepsNext(job: Job, w: Walk, script: seq<Turn>, i: nat)
    requires Validate(job.o) == None && w.ending == None && i < |script|
    ensures Steps(job, w, script[i..]) == Steps(job, Step(job, w, script[i]), script[i + 1..])
  {
    assert script[i..][0] == script[i] && script[i..][1..] == script[i + 1..];
  }

  lemma StepsOver(job: Job, w: Walk)
    requires Validate(job.o) == None
    ensures Steps(job, w, []) == if w.ending.Some? then w else w.(ending := Some(Killed))
    ensures w.ending.Some? ==> forall script :: Steps(job, w, script) == w
  {
  }

  // --- histories ----------------------------------------------------------------------------

  /** A run; or the position file lost, or replaced by any other: one left by another statement, or by
      the same statement over another key. `cleared` says whether the file was removed after an
      exhausted walk. */
  datatype Event = Run(est: int, script: seq<Turn>, cleared: bool) | FileLost | FileReplaced(other: Saved)

  function Happen(job: Job, disk: Disk, e: Event): Disk
    requires Validate(job.o) == None
  {
    match e
    case Run(est, script, cleared) =>
      var end := Steps(job, Begin(job, disk, est), script);
      if end.ending == Some(Exhausted) && cleared then end.disk.(file := None) else end.disk
    case FileLost => disk.(file := None)
    case FileReplaced(other) => disk.(file := Some(other))
  }

  function History(job: Job, disk: Disk, es: seq<Event>): Disk
    requires Validate(job.o) == None
    decreases |es|
  {
    if es == [] then disk else History(job, Happen(job, disk, es[0]), es[1..])
  }

  // --- soundness ----------------------------------------------------------------------------

  /** The pending rows a walk from this mark has before it, and those it will never look at. */
  function Ahead(pending: set<int>, mark: Option<int>): set<int> {
    set k | k in pending && (mark.Some? ==> mark.value < k)
  }

  function Passed(pending: set<int>, mark: Option<int>): set<int> {
    set k | k in pending && mark.Some? && k <= mark.value
  }

  /** The rows the next run will never look at, behind the position it loads. */
  function Unvisited(job: Job, d: Disk): set<int>
    requires Validate(job.o) == None
  {
    Passed(Pending(d.db, job.o), Load(job, d))
  }

  /** The state of the disk after any part of the campaign, in terms of the table it began with. */
  predicate Sound(job: Job, start: Table, d: Disk)
    requires Validate(job.o) == None
  {
    && WellKeyed(d.db, job.key)
    && Disjoint(d.log)
    && Union(d.log) <= Pending(start, job.o)
    && d.db == UpdateRows(start, Union(d.log), job.o)
    && Pending(d.db, job.o) == Pending(start, job.o) - Union(d.log)
  }

  predicate SoundWalk(job: Job, start: Table, w: Walk)
    requires Validate(job.o) == None
  {
    Sound(job, start, w.disk) && SafeSize(w.size, job.tuning, job.rcsi)
  }

  /** The persisted position never runs ahead of the walk's own. */
  predicate PositionBehind(job: Job, w: Walk) {
    Load(job, w.disk).Some? ==> w.mark.Some? && Load(job, w.disk).value <= w.mark.value
  }

  /** What the two statements of a pass see: the query every pending row ahead of the mark, the batch
      those of them up to its bound. */
  lemma StatementsSee(job: Job, w: Walk)
    requires Admissible(job) && WellKeyed(w.disk.db, job.key)
    ensures Matching(w.disk.db, KeyRangeWhere(job.o, job.key, w.mark, None)) == Ahead(Pending(w.disk.db, job.o), w.mark)
    ensures forall next :: BatchKeys(job, w, next) == UpTo(Ahead(Pending(w.disk.db, job.o), w.mark), next)
  {
    var db, ahead := w.disk.db, Ahead(Pending(w.disk.db, job.o), w.mark);
    forall k | k in db
      ensures Selects(KeyRangeWhere(job.o, job.key, w.mark, None), db[k]) <==> k in ahead
    {
      KeyRangeWhereMeaning(job.o, job.key, w.mark, None, db[k], k);
    }
    forall next
      ensures BatchKeys(job, w, next) == UpTo(ahead, next)
    {
      forall k | k in db
        ensures k in BatchKeys(job, w, next) <==> k in UpTo(ahead, next)
      {
        KeyRangeWhereMeaning(job.o, job.key, w.mark, Some(next), db[k], k);
      }
    }
  }

  /** Every batch changes exactly min(size, rows ahead) rows, the smallest keys ahead of the mark. */
  lemma BatchIsExact(job: Job, start: Table, w: Walk)
    requires Admissible(job) && SoundWalk(job, start, w)
    ensures NextKey(job, w) == None <==> Ahead(Pending(w.disk.db, job.o), w.mark) == {}
    ensures NextKey(job, w).Some? ==>
      var ahead, keys := Ahead(Pending(w.disk.db, job.o), w.mark), BatchKeys(job, w, NextKey(job, w).value);
      && keys == UpTo(ahead, NextKey(job, w).value)
      && NextKey(job, w).value in keys
      && |keys| == MinInt(w.size, |ahead|)
      && |keys| <= job.tuning.maxRows
      && (!job.rcsi ==> |keys| <= job.tuning.escalationCap)
  {
    StatementsSee(job, w);
    NthSmallestBounds(Ahead(Pending(w.disk.db, job.o), w.mark), w.size);
    hide Matching, Pending, Ahead, Sound, KeyRangeWhere, Validate;
  }

  lemma UpdateTakesOut(job: Job, db: Table, keys: set<int>)
    requires Admissible(job) && WellKeyed(db, job.key) && keys <= Pending(db, job.o)
    ensures WellKeyed(UpdateRows(db, keys, job.o), job.key)
    ensures Pending(UpdateRows(db, keys, job.o), job.o) == Pending(db, job.o) - keys
  {
    forall k | k in db
      ensures Get(UpdateRows(db, keys, job.o)[k], job.key) == Val(k)
      ensures Needs(job.o, UpdateRows(db, keys, job.o)[k]) <==> Needs(job.o, db[k]) && k !in keys
    {
      if k in keys {
        ApplySetAt(job.o.assigns, db[k], job.key);
        UpdatedRowIsSettled(job.o.assigns, db[k]);
      }
    }
    hide Needs, Validate;
    var after, left := Pending(UpdateRows(db, keys, job.o), job.o), Pending(db, job.o) - keys;
    assert forall k :: k in after <==> k in left;
  }

  lemma UpdatesCompose(o: BatchDML, start: Table, first: set<int>, second: set<int>)
    requires first !! second
    ensures UpdateRows(UpdateRows(start, first, o), second, o) == UpdateRows(start, first + second, o)
  {
  }

  /** Committing a batch of pending rows takes exactly those rows out of the pending set. */
  lemma LandKeepsSound(job: Job, start: Table, d: Disk, keys: set<int>)
    requires Admissible(job) && Sound(job, start, d) && keys <= Pending(d.db, job.o)
    ensures Sound(job, start, Land(job, d, keys))
    ensures Pending(Land(job, d, keys).db, job.o) == Pending(d.db, job.o) - keys
    ensures Union(Land(job, d, keys).log) == Union(d.log) + keys
  {
    assert Validate(job.o) == None;
    UpdateTakesOut(job, d.db, keys);
    LogGrows(d.log, keys);
    TakenTwice(Pending(start, job.o), Union(d.log), keys);
    DisjointGrows(d.log, keys);
    UpdatesCompose(job.o, start, Union(d.log), keys);
    hide UpdateRows, Pending, Union, TotalRows, WellKeyed, Admissible, Validate, Disjoint, Load;
  }

  /** A range taken out ahead of a mark changes nothing behind it, and moving the mark to the range's end
      passes no other row. */
  lemma RangeTaken(pending: set<int>, mark: Option<int>, next: int)
    ensures var left := pending - UpTo(Ahead(pending, mark), next);
      && Passed(left, mark) == Passed(pending, mark)
      && UpTo(Ahead(left, mark), next) == {}
      && (next in Ahead(pending, mark) ==> Passed(left, Some(next)) == Passed(pending, mark))
  {
  }

  /** A batch, committed or rolled back, keeps the invariant and leaves the rows behind the mark. */
  lemma AfterKeepsSound(job: Job, start: Table, w: Walk, next: int, landed: bool)
    requires Admissible(job) && SoundWalk(job, start, w)
    ensures Sound(job, start, After(job, w, next, landed))
    ensures Pending(After(job, w, next, landed).db, job.o)
         == Pending(w.disk.db, job.o) - if landed then UpTo(Ahead(Pending(w.disk.db, job.o), w.mark), next) else {}
    ensures Passed(Pending(After(job, w, next, landed).db, job.o), w.mark) == Passed(Pending(w.disk.db, job.o), w.mark)
  {
    if landed {
      StatementsSee(job, w);
      RangeTaken(Pending(w.disk.db, job.o), w.mark, next);
      LandKeepsSound(job, start, w.disk, BatchKeys(job, w, next));
    }
  }

  /** What a pass keeps: the invariant, the rows behind the mark, and a position no further than it. */
  predicate Kept(job: Job, start: Table, w: Walk, w': Walk)
    requires Validate(job.o) == None
  {
    && SoundWalk(job, start, w')
    && Passed(Pending(w'.disk.db, job.o), w'.mark) == Passed(Pending(w.disk.db, job.o), w.mark)
    && (PositionBehind(job, w) ==> PositionBehind(job, w'))
  }

  lemma SoundIgnoresFile(job: Job, start: Table, d: Disk, file: Option<Saved>)
    requires Validate(job.o) == None
    ensures Sound(job, start, d.(file := file)) == Sound(job, start, d)
  {
  }

  /** What a committed batch leaves, apart from the table. */
  lemma CommitLeaves(job: Job, w: Walk, next: int, t: Turn)
    requires Validate(job.o) == None && (w.mark.Some? ==> w.mark.value < next)
    ensures var w', after := Commit(job, w, next, t), After(job, w, next, true);
      && (w'.disk == after || w'.disk == after.(file := Some(Saved(next, job.fingerprint))))
      && w'.mark == Some(next)
      && w'.size == AdjustBatchRows(w.size, t.feedback, job.tuning, BatchCeiling(job.tuning, job.rcsi))
      && (PositionBehind(job, w) ==> PositionBehind(job, w'))
  {
    hide BatchKeys, UpdateRows, AdjustBatchRows;
  }

  lemma CommitKeepsSound(job: Job, start: Table, w: Walk, t: Turn)
    requires Admissible(job) && SoundWalk(job, start, w) && NextKey(job, w).Some?
    ensures Kept(job, start, w, Commit(job, w, NextKey(job, w).value, t))
  {
    var next := NextKey(job, w).value;
    var pending, after := Pending(w.disk.db, job.o), After(job, w, next, true);
    assert Validate(job.o) == None;
    BatchIsExact(job, start, w);
    assert next in Ahead(pending, w.mark) && (w.mark.Some? ==> w.mark.value < next);
    AfterKeepsSound(job, start, w, next, true);
    RangeTaken(pending, w.mark, next);
    SoundIgnoresFile(job, start, after, Some(Saved(next, job.fingerprint)));
    AdjustKeepsSafe(w.size, t.feedback, job.tuning, job.rcsi);
    CommitLeaves(job, w, next, t);
    hide Sound, NextKey, BatchKeys, After, Pending, Passed, Ahead, UpTo, Validate, Admissible, AdjustBatchRows, SafeSize,
         Commit, PositionBehind, BatchCeiling;
  }

  /** One pass, however it ends; and the walk reports exhaustion only with nothing ahead. */
  lemma StepKeepsSound(job: Job, start: Table, w: Walk, t: Turn)
    requires Admissible(job) && SoundWalk(job, start, w) && w.ending == None
    ensures Kept(job, start, w, Step(job, w, t))
    ensures Step(job, w, t).ending == Some(Exhausted) ==>
              Ahead(Pending(Step(job, w, t).disk.db, job.o), Step(job, w, t).mark) == {}
  {
    hide Sound, Pending, Passed, BatchKeys, NextKey, AfterStop, Validate;
    if t.stop || t.queryFails {
      return;
    }
    var bound := NextKey(job, w);
    if bound == None {
      BatchIsExact(job, start, w);
    } else if t.outcome.Committed? {
      CommitKeepsSound(job, start, w, t);
      hide Kept, Commit;
    } else {
      AfterKeepsSound(job, start, w, bound.value, t.outcome.landed);
      if t.outcome.Stopped? {
        StopVerdicts(job.tuning, w.stall, t.outcome.relief);
      }
    }
  }

  predicate DrainedAhead(job: Job, w: Walk)
    requires Validate(job.o) == None
  {
    w.ending == Some(Exhausted) ==> Ahead(Pending(w.disk.db, job.o), w.mark) == {}
  }

  lemma {:induction false} StepsKeepSound(job: Job, start: Table, w: Walk, script: seq<Turn>)
    requires Admissible(job) && SoundWalk(job, start, w) && DrainedAhead(job, w)
    ensures Kept(job, start, w, Steps(job, w, script)) && DrainedAhead(job, Steps(job, w, script))
    decreases |script|
  {
    if w.ending == None && script != [] {
      StepKeepsSound(job, start, w, script[0]);
      StepsKeepSound(job, start, Step(job, w, script[0]), script[1..]);
      hide Step, SoundWalk, Passed, Pending, PositionBehind, DrainedAhead;
    }
  }

  lemma SplitAtMark(pending: set<int>, mark: Option<int>)
    ensures pending == Ahead(pending, mark) + Passed(pending, mark)
  {
  }

  /** A run keeps the invariant, and when it reports exhaustion exactly the rows behind the position it
      loaded are left. */
  lemma RunKeepsSound(job: Job, start: Table, d: Disk, est: int, script: seq<Turn>)
    requires Admissible(job) && Sound(job, start, d)
    ensures var end := Steps(job, Begin(job, d, est), script);
      && SoundWalk(job, start, end) && PositionBehind(job, end)
      && Passed(Pending(end.disk.db, job.o), end.mark) == Unvisited(job, d)
      && (end.ending == Some(Exhausted) ==> Pending(end.disk.db, job.o) == Unvisited(job, d))
  {
    EverySizeIsSafe(job.o.initialRows, est, [], job.tuning, job.rcsi);
    StepsKeepSound(job, start, Begin(job, d, est), script);
    var end := Steps(job, Begin(job, d, est), script);
    SplitAtMark(Pending(end.disk.db, job.o), end.mark);
    hide Steps, Ahead, Passed, Pending, Sound, InitialSize, Load, Validate;
  }

  /** Every history keeps the invariant, whatever becomes of the position file. */
  lemma {:induction false} HistoryKeepsSound(job: Job, start: Table, d: Disk, es: seq<Event>)
    requires Admissible(job) && Sound(job, start, d)
    ensures Sound(job, start, History(job, d, es))
    decreases |es|
  {
    if es != [] {
      hide Steps, Pending, UpdateRows, Union, Matching;
      if es[0].Run? {
        RunKeepsSound(job, start, d, es[0].est, es[0].script);
      }
      HistoryKeepsSound(job, start, Happen(job, d, es[0]), es[1..]);
    }
  }

  // --- main results -------------------------------------------------------------------------

  /** The disk a campaign starts from: any well-keyed table, and any position file or none. */
  predicate Fresh(job: Job, d: Disk) {
    WellKeyed(d.db, job.key) && d.log == []
  }

  lemma FreshIsSound(job: Job, d: Disk)
    requires Admissible(job) && Fresh(job, d)
    ensures Sound(job, d.db, d)
  {
    assert d.db == UpdateRows(d.db, {}, job.o);
  }

  /** Exactly-once over any history: no two committed batches share a row, only rows that matched
      the filter and differed from the target at the start are ever changed, each such row holds
      its single application of the SET list, and every other row is as it was. */
  lemma ExactlyOnce(job: Job, d: Disk, es: seq<Event>)
    requires Admissible(job) && Fresh(job, d)
    ensures var h := History(job, d, es);
      && Disjoint(h.log)
      && (forall i | 0 <= i < |h.log| :: h.log[i] <= Pending(d.db, job.o))
      && h.db.Keys == d.db.Keys
      && (forall k <- d.db :: h.db[k] ==
            if exists i :: 0 <= i < |h.log| && k in h.log[i] then ApplySet(job.o.assigns, d.db[k]) else d.db[k])
  {
    FreshIsSound(job, d);
    HistoryKeepsSound(job, d.db, d, es);
    var h := History(job, d, es);
    UnionContains(h.log);
    UnionMembers(h.log);
  }

  /** Every row that needed the update holds its target, and the committed batches add up to exactly
      those rows. */
  predicate Done(job: Job, start: Table, d: Disk)
    requires Validate(job.o) == None
  {
    && Union(d.log) == Pending(start, job.o)
    && TotalRows(d.log) == |Pending(start, job.o)|
    && (forall k <- Pending(start, job.o) :: k in d.db && !Differs(job.o.assigns, d.db[k]))
  }

  /** When a run of the history reports the walk exhausted, exactly the rows pending behind the position
      it loaded are left; so all is done if and only if there was no such row. */
  lemma ExhaustedMeansDone(job: Job, d: Disk, es: seq<Event>, est: int, script: seq<Turn>)
    requires Admissible(job) && Fresh(job, d)
    ensures var h := History(job, d, es);
      var end := Steps(job, Begin(job, h, est), script);
      end.ending == Some(Exhausted) ==>
        && Pending(end.disk.db, job.o) == Unvisited(job, h)
        && (Done(job, d.db, end.disk) <==> Unvisited(job, h) == {})
  {
    FreshIsSound(job, d);
    HistoryKeepsSound(job, d.db, d, es);
    var h := History(job, d, es);
    RunKeepsSound(job, d.db, h, est, script);
    var end := Steps(job, Begin(job, h, est), script);
    hide Steps, History, Unvisited;
    if end.ending == Some(Exhausted) {
      DrainedIsDone(job, d.db, end.disk);
    }
  }

  lemma NothingLeft(all: set<int>, done: set<int>)
    requires done <= all
    ensures done == all <==> all - done == {}
  {
    assert forall x <- all :: x in all - done || x in done;
  }

  lemma DrainedIsDone(job: Job, start: Table, d: Disk)
    requires Admissible(job) && Sound(job, start, d)
    ensures Done(job, start, d) <==> Pending(d.db, job.o) == {}
  {
    DisjointTotals(d.log);
    NothingLeft(Pending(start, job.o), Union(d.log));
    SettledAfterUpdate(job, start, Union(d.log));
    hide Union, Pending, UpdateRows, Disjoint, TotalRows, WellKeyed, Differs, Validate;
  }

  lemma SettledAfterUpdate(job: Job, start: Table, keys: set<int>)
    requires Admissible(job) && keys <= Pending(start, job.o)
    ensures forall k <- keys :: k in UpdateRows(start, keys, job.o)
                                && !Differs(job.o.assigns, UpdateRows(start, keys, job.o)[k])
  {
    forall k <- keys
      ensures k in UpdateRows(start, keys, job.o) && !Differs(job.o.assigns, UpdateRows(start, keys, job.o)[k])
    {
      UpdatedRowIsSettled(job.o.assigns, start[k]);
    }
  }

  /** No file of this statement's but its own walks' is ever put in place. */
  predicate OwnPositions(job: Job, es: seq<Event>) {
    forall e <- es :: e.FileReplaced? ==> e.other.fingerprint != job.fingerprint
  }

  /** Through such a history the rows that would never be looked at only become fewer: crashes, lost saves
      and stops add none. */
  lemma {:induction false} UnvisitedShrinks(job: Job, start: Table, d: Disk, es: seq<Event>)
    requires Admissible(job) && Sound(job, start, d) && OwnPositions(job, es)
    ensures Unvisited(job, History(job, d, es)) <= Unvisited(job, d)
    decreases |es|
  {
    if es != [] {
      var e := es[0];
      assert e in es && forall e' <- es[1..] :: e' in es;
      HistoryKeepsSound(job, start, d, [e]);
      assert History(job, d, [e]) == Happen(job, d, e);
      if e.Run? {
        RunKeepsSound(job, start, d, e.est, e.script);
        var end := Steps(job, Begin(job, d, e.est), e.script);
        LowerMarkPassesLess(Pending(end.disk.db, job.o), Load(job, end.disk), end.mark);
      }
      hide Steps, Sound, Pending;
      UnvisitedShrinks(job, start, Happen(job, d, e), es[1..]);
    }
  }

  lemma LowerMarkPassesLess(pending: set<int>, low: Option<int>, high: Option<int>)
    requires low.Some? ==> high.Some? && low.value <= high.value
    ensures Passed(pending, low) <= Passed(pending, high)
  {
  }

  /** So a campaign that starts with nothing behind its position is done whenever a run of it reports
      exhaustion. */
  lemma OwnCampaignIsDone(job: Job, d: Disk, es: seq<Event>, est: int, script: seq<Turn>)
    requires Admissible(job) && Fresh(job, d) && OwnPositions(job, es) && Unvisited(job, d) == {}
    ensures var end := Steps(job, Begin(job, History(job, d, es), est), script);
      end.ending == Some(Exhausted) ==> Done(job, d.db, end.disk)
  {
    FreshIsSound(job, d);
    UnvisitedShrinks(job, d.db, d, es);
    ExhaustedMeansDone(job, d, es, est, script);
  }

  /** A position file that already bears this statement's fingerprint, with every pending row behind it:
      one undisturbed turn reports the walk exhausted and changes nothing. */
  lemma StalePositionSkipsAll(job: Job, d: Disk, est: int, t: Turn)
    requires Admissible(job) && WellKeyed(d.db, job.key) && Unvisited(job, d) == Pending(d.db, job.o) && Undisturbed(t)
    ensures var end := Steps(job, Begin(job, d, est), [t]);
      end.ending == Some(Exhausted) && end.disk == d && end.rows == 0
  {
    var w := Begin(job, d, est);
    StatementsSee(job, w);
    assert Ahead(Pending(d.db, job.o), w.mark) == {};
    assert NextKey(job, w) == None;
    hide NextKey, InitialSize, Pending, Validate;
    assert Steps(job, w, [t]) == Steps(job, Step(job, w, t), []);
  }

  /** A stopped batch is retried over exactly the same range if and only if the server had not
      committed it; when it had, the next range shares no row with it. */
  lemma StoppedBatchRetries(job: Job, start: Table, w: Walk, t: Turn)
    requires Admissible(job) && SoundWalk(job, start, w) && w.ending == None
    requires !t.stop && !t.queryFails && t.outcome.Stopped? && NextKey(job, w).Some?
    requires Step(job, w, t).ending == None
    ensures var w' := Step(job, w, t);
      var keys := BatchKeys(job, w, NextKey(job, w).value);
      && (!t.outcome.landed <==>
            NextKey(job, w') == NextKey(job, w) && BatchKeys(job, w', NextKey(job, w).value) == keys)
      && (t.outcome.landed && NextKey(job, w').Some? ==> BatchKeys(job, w', NextKey(job, w').value) !! keys)
  {
    var w' := Step(job, w, t);
    if t.outcome.landed {
      assert w' == w.(disk := After(job, w, NextKey(job, w).value, true), stall := w'.stall);
      hide Step;
      LandedRangeIsSpent(job, start, w, w'.stall);
    } else {
      assert w' == w.(stall := w'.stall);
      hide Step, Sound;
    }
  }

  /** Whatever comes after a range that did commit shares no row with it. */
  lemma LandedRangeIsSpent(job: Job, start: Table, w: Walk, stall: nat)
    requires Admissible(job) && SoundWalk(job, start, w) && NextKey(job, w).Some?
    ensures var next, keys := NextKey(job, w).value, BatchKeys(job, w, NextKey(job, w).value);
      var w' := w.(disk := After(job, w, next, true), stall := stall);
      && keys != {} && BatchKeys(job, w', next) == {}
      && (NextKey(job, w').Some? ==> BatchKeys(job, w', NextKey(job, w').value) !! keys)
  {
    var next, keys := NextKey(job, w).value, BatchKeys(job, w, NextKey(job, w).value);
    var w' := w.(disk := After(job, w, next, true), stall := stall);
    BatchIsExact(job, start, w);
    AfterKeepsSound(job, start, w, next, true);
    RangeTaken(Pending(w.disk.db, job.o), w.mark, next);
    StatementsSee(job, w');
    hide Sound, NextKey, BatchKeys, Pending, Validate;
  }

  /** Validation does not stop an operation from assigning the very key it is walked by, which is why
      Admissible has to ask. */
  lemma KeyInSetPassesValidation(key: Column)
    requires !Blank(key)
    ensures exists o: BatchDML :: Usable(o) && o.keyRange && o.key == Some(key) && exists a <- o.assigns :: a.col == key
  {
    var o := BatchDML(Update, "dbo", "T", [Assign(key, Val(0))], None, [], None, true, true, Some(key), None, true);
    assert o.assigns[0].col == key;
    assert !Blank(o.schema) by { assert 'd' in o.schema; }
    assert !Blank(o.table) by { assert 'T' in o.table; }
  }

  /** A committed batch ends at its largest key, above the old watermark; the walk goes on from there, and
      so does the next run when the position was saved. */
  lemma CommitMovesTheMark(job: Job, start: Table, w: Walk, t: Turn)
    requires Admissible(job) && SoundWalk(job, start, w) && w.ending == None
    requires !t.stop && !t.queryFails && t.outcome.Committed? && NextKey(job, w).Some?
    ensures var w', next := Step(job, w, t), NextKey(job, w).value;
      && w'.mark == Some(next) && (w.mark.Some? ==> w.mark.value < next)
      && next in BatchKeys(job, w, next) && (forall k <- BatchKeys(job, w, next) :: k <= next)
      && Load(job, w'.disk) == (if t.saved then Some(next) else Load(job, w.disk))
  {
    BatchIsExact(job, start, w);
    hide NextKey, Matching, UpdateRows, Sound, AdjustBatchRows, BatchKeys, Validate, Pending;
  }

  // --- the walk ends ------------------------------------------------------------------------

  predicate Waits(t: Turn) {
    t.outcome.Stopped? && t.outcome.relief.Cleared? ==> t.outcome.relief.waited > 0
  }

  /** Rows left, then self-wait budget left: every pass that goes on uses some of it up. */
  function Fuel(job: Job, w: Walk): int
    requires Admissible(job)
  {
    Units(Left(job, w.disk), job.tuning.selfWait + 1) - w.stall
  }

  function Left(job: Job, d: Disk): nat
    requires Admissible(job)
  {
    |Pending(d.db, job.o)|
  }

  lemma AfterTakes(job: Job, start: Table, w: Walk, landed: bool)
    requires Admissible(job) && SoundWalk(job, start, w) && NextKey(job, w).Some?
    ensures 0 < Left(job, w.disk)
    ensures Left(job, After(job, w, NextKey(job, w).value, landed)) <= Left(job, w.disk) - (if landed then 1 else 0)
  {
    var next := NextKey(job, w).value;
    var before, keys := Pending(w.disk.db, job.o), BatchKeys(job, w, next);
    BatchIsExact(job, start, w);
    AfterKeepsSound(job, start, w, next, landed);
    hide NextKey, BatchKeys, Pending, Sound, SafeSize, Validate, After, TotalRows;
    assert keys <= before && next in before;
    assert |before - keys| == |before| - |keys|;
  }

  /** Where a pass that goes on leaves the table and the banked wait. */
  lemma StepGoesOn(job: Job, w: Walk, t: Turn)
    requires Admissible(job) && w.ending == None && Step(job, w, t).ending == None
    ensures NextKey(job, w).Some? && !t.outcome.Broken?
    ensures Step(job, w, t).disk.db == After(job, w, NextKey(job, w).value, Landed(t.outcome)).db
    ensures Step(job, w, t).stall == (if t.outcome.Committed? then 0 else AfterStop(job.tuning, w.stall, t.outcome.relief).1)
    ensures t.outcome.Stopped? ==> AfterStop(job.tuning, w.stall, t.outcome.relief).0 == None
  {
  }

  lemma StepBurns(job: Job, w: Walk, t: Turn)
    requires Admissible(job) && w.ending == None && Step(job, w, t).ending == None
    requires w.stall < job.tuning.selfWait && Waits(t)
    requires 0 < Left(job, w.disk) && NextKey(job, w).Some?
    requires Left(job, After(job, w, NextKey(job, w).value, Landed(t.outcome))) <=
             Left(job, w.disk) - (if Landed(t.outcome) then 1 else 0)
    ensures Fuel(job, Step(job, w, t)) < Fuel(job, w)
    ensures Step(job, w, t).stall < job.tuning.selfWait
  {
    hide NextKey;
    StepGoesOn(job, w, t);
    hide Step, After, Left;
    FuelFalls(Left(job, Step(job, w, t).disk), Left(job, w.disk), job.tuning.selfWait + 1);
  }

  /** With every wait positive, a run of enough turns is never merely cut off: it ends by itself. */
  lemma {:induction false} WalkEnds(job: Job, start: Table, w: Walk, script: seq<Turn>)
    requires Admissible(job) && SoundWalk(job, start, w) && w.ending == None
    requires w.stall < job.tuning.selfWait && (forall t <- script :: Waits(t))
    requires |script| > 0 && |script| > Fuel(job, w)
    ensures Steps(job, w, script).ending != Some(Killed)
    decreases |script|
  {
    hide SoundWalk, Step, Left, NextKey;
    StepKeepsSound(job, start, w, script[0]);
    StepNeverKilled(job, w, script[0]);
    if Step(job, w, script[0]).ending == None {
      StepGoesOn(job, w, script[0]);
      AfterTakes(job, start, w, Landed(script[0].outcome));
      StepBurns(job, w, script[0]);
      FewerUnits(0, Left(job, w.disk), job.tuning.selfWait + 1);
      WalkEnds(job, start, Step(job, w, script[0]), script[1..]);
    }
  }

  // --- how a run ends ---------------------------------------------------------------------------

  function Outcomes(script: seq<Turn>): (os: seq<Outcome>)
    ensures |os| == |script| && forall i | 0 <= i < |script| :: os[i] == script[i].outcome
  {
    seq(|script|, i requires 0 <= i < |script| => script[i].outcome)
  }

  /** The run gets to turn i: cut off before it, it has not ended by itself. */
  predicate GetsTo(job: Job, w: Walk, script: seq<Turn>, i: nat)
    requires Validate(job.o) == None && i <= |script|
  {
    Steps(job, w, script[..i]).ending == Some(Killed)
  }

  /** It gets to turn i, finds a key there and sends a batch. */
  predicate Sends(job: Job, w: Walk, script: seq<Turn>, i: nat)
    requires Validate(job.o) == None && i < |script|
  {
    && GetsTo(job, w, script, i) && !script[i].stop && !script[i].queryFails
    && NextKey(job, Steps(job, w, script[..i])).Some?
  }

  /** How turn i ends the run, if it gets to it and does not go on from it: stopped short where the driver
      gives up on a batch it sent, in error where a query, a statement or a wait failed. */
  function HowAt(job: Job, w: Walk, script: seq<Turn>, i: nat): Option<Ending>
    requires Validate(job.o) == None && i < |script|
  {
    if !GetsTo(job, w, script, i) then None
    else if script[i].stop then Some(GracefulStop)
    else if script[i].queryFails then Some(Errored)
    else if !Sends(job, w, script, i) then Some(Exhausted)
    else if GivesUp(job.tuning, Outcomes(script[..i + 1])) then Some(StoppedShort)
    else if Fails(script[i].outcome) then Some(Errored)
    else None
  }

  predicate EndsBy(job: Job, w: Walk, script: seq<Turn>, e: Ending)
    requires Validate(job.o) == None
  {
    exists i :: 0 <= i < |script| && HowAt(job, w, script, i) == Some(e)
  }

  /** One turn more. */
  lemma {:induction false} OneMore(job: Job, w: Walk, front: seq<Turn>, t: Turn)
    requires Validate(job.o) == None
    ensures var before, end := Steps(job, w, front), Steps(job, w, front + [t]);
      if before.ending != Some(Killed) || w.ending.Some? then end == before
      else
        var next := Step(job, before.(ending := None), t);
        end == if next.ending.Some? then next else next.(ending := Some(Killed))
    decreases |front|
  {
    hide Step;
    if w.ending == None {
      assert [t][1..] == [] && front + [] == front;
      if front == [] {
        assert front + [t] == [t];
        var next := Step(job, w, t);
        assert Steps(job, w, [t]) == Steps(job, next, []);
        assert w.(ending := Some(Killed)).(ending := None) == w;
      } else {
        assert (front + [t])[1..] == front[1..] + [t];
        var next := Step(job, w, front[0]);
        if next.ending == None {
          OneMore(job, next, front[1..], t);
        } else {
          StepNeverKilled(job, w, front[0]);
        }
      }
    }
  }

  lemma StepNeverKilled(job: Job, w: Walk, t: Turn)
    requires Validate(job.o) == None && w.ending == None
    ensures Step(job, w, t).ending != Some(Killed)
  {
    hide NextKey, After, AdjustBatchRows;
  }

  lemma OutcomesGrow(front: seq<Turn>, t: Turn)
    ensures Outcomes(front + [t]) == Outcomes(front) + [t.outcome]
  {
  }

  lemma StepDecides(job: Job, w: Walk, before: seq<Outcome>, t: Turn)
    requires Validate(job.o) == None && w.ending == None && w.stall == Waited(before)
    ensures Step(job, w, t).ending ==
            if t.stop then Some(GracefulStop)
            else if t.queryFails then Some(Errored)
            else if NextKey(job, w) == None then Some(Exhausted)
            else if GivesUp(job.tuning, before + [t.outcome]) then Some(StoppedShort)
            else if Fails(t.outcome) then Some(Errored)
            else None
    ensures Step(job, w, t).ending == None ==> Step(job, w, t).stall == Waited(before + [t.outcome])
  {
    assert (before + [t.outcome])[..|before|] == before;
    if t.outcome.Stopped? {
      AfterStopGivesUp(job.tuning, before, t.outcome);
    }
    hide NextKey, After, AdjustBatchRows, AfterStop, Waited;
  }

  /** What the server reported of the committed batches, in order. */
  function Reports(script: seq<Turn>): seq<Feedback> {
    if script == [] then []
    else
      var front, t := Reports(script[..|script| - 1]), script[|script| - 1];
      if t.outcome.Committed? then front + [t.feedback] else front
  }

  function CountersOf(w: Walk): Counters {
    Counters(w.size, w.batches, w.finalRows)
  }

  /** A committed batch counts; any other turn counts nothing, one that ends the run among them. */
  lemma CommitCounts(job: Job, w: Walk, t: Turn)
    requires Validate(job.o) == None && w.ending == None
    ensures var w', hi := Step(job, w, t), BatchCeiling(job.tuning, job.rcsi);
      if w'.ending == None && t.outcome.Committed? then
        CountersOf(w') == Counters(AdjustBatchRows(w.size, t.feedback, job.tuning, hi), w.batches + 1, w.size)
      else
        CountersOf(w') == CountersOf(w) && w'.rows == w.rows && w'.mark == w.mark
  {
    hide NextKey, After, AdjustBatchRows, AfterStop, BatchCeiling;
  }

  lemma ReportsGrow(front: seq<Turn>, t: Turn)
    ensures Reports(front + [t]) == if t.outcome.Committed? then Reports(front) + [t.feedback] else Reports(front)
  {
    assert (front + [t])[..|front|] == front;
  }

  lemma CountersGrow(job: Job, start: Counters, reports: seq<Feedback>, before: Walk, t: Turn)
    requires Validate(job.o) == None && before.ending == None && Step(job, before, t).ending == None
    requires CountersOf(before) == CountersAfter(start, reports, job.tuning, BatchCeiling(job.tuning, job.rcsi))
    ensures CountersOf(Step(job, before, t))
         == CountersAfter(start, if t.outcome.Committed? then reports + [t.feedback] else reports,
                          job.tuning, BatchCeiling(job.tuning, job.rcsi))
  {
    hide Validate, Step, CountersAfter, BatchCeiling, AdjustBatchRows;
    CommitCounts(job, before, t);
    OneMoreReport(start, reports, t.feedback, job.tuning, BatchCeiling(job.tuning, job.rcsi));
  }

  /** The turn before the run is cut off was one that went on. */
  lemma WentOn(job: Job, w: Walk, front: seq<Turn>, t: Turn)
    requires Validate(job.o) == None && w.ending == None && Steps(job, w, front + [t]).ending == Some(Killed)
    ensures Steps(job, w, front).ending == Some(Killed)
    ensures var before := Steps(job, w, front).(ending := None);
      && Step(job, before, t).ending == None && CountersOf(Steps(job, w, front + [t])) == CountersOf(Step(job, before, t))
      && Steps(job, w, front + [t]).stall == Step(job, before, t).stall
    ensures CountersOf(Steps(job, w, front).(ending := None)) == CountersOf(Steps(job, w, front))
  {
    OneMore(job, w, front, t);
    StepNeverKilled(job, Steps(job, w, front).(ending := None), t);
    hide Step, Steps, Validate;
  }

  /** As long as a run goes on, its batch size is the first one adjusted by the committed batches' reports, it
      counts exactly those batches, and it reports the size of the last of them. */
  lemma {:induction false} CountersByScript(job: Job, w: Walk, script: seq<Turn>)
    requires Validate(job.o) == None && w.ending == None && Steps(job, w, script).ending == Some(Killed)
    ensures CountersOf(Steps(job, w, script))
         == CountersAfter(CountersOf(w), Reports(script), job.tuning, BatchCeiling(job.tuning, job.rcsi))
  {
    if script != [] {
      hide *;
      var front, t := script[..|script| - 1], script[|script| - 1];
      assert script == front + [t];
      WentOn(job, w, front, t);
      CountersByScript(job, w, front);
      CountersGrow(job, CountersOf(w), Reports(front), Steps(job, w, front).(ending := None), t);
      ReportsGrow(front, t);
    }
  }

  /** The wait the driver has banked is what the outcomes say, as long as the run goes on. */
  lemma {:induction false} BankedIsWaited(job: Job, w: Walk, script: seq<Turn>)
    requires Validate(job.o) == None && w.ending == None && w.stall == 0
    ensures Steps(job, w, script).ending == Some(Killed) ==> Steps(job, w, script).stall == Waited(Outcomes(script))
  {
    if script != [] && Steps(job, w, script).ending == Some(Killed) {
      hide *;
      var front, t := script[..|script| - 1], script[|script| - 1];
      assert script == front + [t];
      WentOn(job, w, front, t);
      BankedIsWaited(job, w, front);
      StepDecides(job, Steps(job, w, front).(ending := None), Outcomes(front), t);
      OutcomesGrow(front, t);
    }
  }

  /** What one turn the run gets to makes of it. */
  lemma TurnDecides(job: Job, w: Walk, script: seq<Turn>)
    requires Validate(job.o) == None && w.ending == None && w.stall == 0 && script != []
    requires GetsTo(job, w, script, |script| - 1)
    ensures var how := HowAt(job, w, script, |script| - 1);
      Steps(job, w, script).ending == if how.Some? then how else Some(Killed)
  {
    var n := |script| - 1;
    var front, t := script[..n], script[n];
    var before := Steps(job, w, front);
    assert script == front + [t] && script[..n + 1] == script;
    BankedIsWaited(job, w, front);
    OneMore(job, w, front, t);
    OutcomesGrow(front, t);
    NextKeyIgnoresEnding(job, before);
    StepDecides(job, before.(ending := None), Outcomes(front), t);
    hide NextKey, Step, Steps, Outcomes, Waited, GivesUp, Fails, Validate;
  }

  lemma NextKeyIgnoresEnding(job: Job, w: Walk)
    requires Validate(job.o) == None
    ensures NextKey(job, w.(ending := None)) == NextKey(job, w)
  {
  }

  lemma EarlierTurns(job: Job, w: Walk, script: seq<Turn>, i: nat)
    requires Validate(job.o) == None && i < |script| - 1
    ensures HowAt(job, w, script[..|script| - 1], i) == HowAt(job, w, script, i)
  {
    var front := script[..|script| - 1];
    assert front[..i] == script[..i] && front[..i + 1] == script[..i + 1];
    hide NextKey, Steps, GivesUp;
  }

  lemma EarlierOrLast(job: Job, w: Walk, script: seq<Turn>, e: Ending)
    requires Validate(job.o) == None && script != []
    ensures var n := |script| - 1;
      EndsBy(job, w, script, e) <==> EndsBy(job, w, script[..n], e) || HowAt(job, w, script, n) == Some(e)
  {
    var n := |script| - 1;
    forall i | 0 <= i < n
      ensures HowAt(job, w, script[..n], i) == HowAt(job, w, script, i)
    {
      EarlierTurns(job, w, script, i);
    }
    hide HowAt, Validate;
    if EndsBy(job, w, script[..n], e) {
      var i :| 0 <= i < n && HowAt(job, w, script[..n], i) == Some(e);
      assert HowAt(job, w, script, i) == Some(e);
    }
    if EndsBy(job, w, script, e) {
      var i :| 0 <= i <= n && HowAt(job, w, script, i) == Some(e);
      assert i < n ==> HowAt(job, w, script[..n], i) == Some(e);
    }
  }

  /** A run that does not report exhaustion never loses a position: the next run goes on from there or further. */
  predicate PositionFrom(job: Job, w: Walk, at: int) {
    Load(job, w.disk).Some? && w.mark.Some? && at <= Load(job, w.disk).value <= w.mark.value
  }

  lemma StepKeepsPosition(job: Job, start: Table, w: Walk, t: Turn, at: int)
    requires Admissible(job) && SoundWalk(job, start, w) && w.ending == None && PositionFrom(job, w, at)
    ensures PositionFrom(job, Step(job, w, t), at)
  {
    if !t.stop && !t.queryFails && NextKey(job, w).Some? && t.outcome.Committed? {
      BatchIsExact(job, start, w);
      assert w.mark.value < NextKey(job, w).value;
    }
    hide NextKey, BatchKeys, AdjustBatchRows, AfterStop, Sound, Pending, Validate, UpdateRows;
  }

  lemma {:induction false} StepsKeepPosition(job: Job, start: Table, w: Walk, script: seq<Turn>, at: int)
    requires Admissible(job) && SoundWalk(job, start, w) && PositionFrom(job, w, at)
    ensures PositionFrom(job, Steps(job, w, script), at)
    decreases |script|
  {
    if w.ending == None && script != [] {
      StepKeepsPosition(job, start, w, script[0], at);
      StepKeepsSound(job, start, w, script[0]);
      hide Step, SoundWalk, PositionFrom, Validate;
      StepsKeepPosition(job, start, Step(job, w, script[0]), script[1..], at);
    }
  }

  /** However a run is cut short, the position it started from is kept or moved on, and only a run that reports
      exhaustion may clear it. */
  lemma PositionSurvives(job: Job, start: Table, d: Disk, est: int, script: seq<Turn>, cleared: bool)
    requires Admissible(job) && Sound(job, start, d) && Load(job, d).Some?
    ensures var end := Steps(job, Begin(job, d, est), script);
      var d' := Happen(job, d, Run(est, script, cleared));
      Load(job, d').Some? <==> !(end.ending == Some(Exhausted) && cleared)
    ensures var d' := Happen(job, d, Run(est, script, cleared));
      Load(job, d').Some? ==> Load(job, d).value <= Load(job, d').value
  {
    EverySizeIsSafe(job.o.initialRows, est, [], job.tuning, job.rcsi);
    StepsKeepPosition(job, start, Begin(job, d, est), script, Load(job, d).value);
    hide Steps, Sound, Validate, InitialSize;
  }

  /** How a run ends, by its script. It is stopped short if and only if some turn it gets to sends a batch
      that is stopped, and the log does not drain or the waits since the last committed batch use up the
      self-wait budget; it errs if and only if a query, a statement or a wait fails; and so on. */
  lemma {:induction false} EndingByScript(job: Job, w: Walk, script: seq<Turn>, e: Ending)
    requires Validate(job.o) == None && w.ending == None && w.stall == 0 && e != Killed
    ensures Steps(job, w, script).ending == Some(e) <==> EndsBy(job, w, script, e)
  {
    if script != [] {
      var n := |script| - 1;
      var front := script[..n];
      EndingByScript(job, w, front, e);
      EarlierOrLast(job, w, script, e);
      assert script == front + [script[n]];
      OneMore(job, w, front, script[n]);
      if GetsTo(job, w, script, n) {
        TurnDecides(job, w, script);
      }
      hide Steps, Step, EndsBy, Validate, Sends, NextKey, GivesUp, Fails;
    }
  }

  /** A turn is followed by another if and only if it sends its batch, nothing fails and the driver does not
      give up: a stopped batch is retried exactly then, and a committed one always followed. */
  lemma TurnIsFollowed(job: Job, w: Walk, script: seq<Turn>, i: nat)
    requires Validate(job.o) == None && w.ending == None && w.stall == 0 && i < |script|
    ensures GetsTo(job, w, script, i + 1) <==>
            Sends(job, w, script, i) && !GivesUp(job.tuning, Outcomes(script[..i + 1])) && !Fails(script[i].outcome)
  {
    var upTo := script[..i + 1];
    assert upTo[..i] == script[..i] && upTo[..i + 1] == upTo && upTo == script[..i] + [script[i]];
    OneMore(job, w, script[..i], script[i]);
    if GetsTo(job, w, upTo, i) {
      TurnDecides(job, w, upTo);
    }
    hide NextKey, Step, GivesUp, Fails;
  }

  predicate Undisturbed(t: Turn) {
    !t.stop && !t.queryFails && t.outcome == Committed
  }

  lemma {:induction false} UndisturbedEndings(job: Job, w: Walk, script: seq<Turn>)
    requires Admissible(job) && (w.ending == None || w.ending == Some(Exhausted)) && forall t <- script :: Undisturbed(t)
    ensures Steps(job, w, script).ending in {Some(Exhausted), Some(Killed)}
    decreases |script|
  {
    if w.ending == None && script != [] {
      assert Undisturbed(script[0]);
      hide NextKey, Commit;
      UndisturbedEndings(job, Step(job, w, script[0]), script[1..]);
    }
  }

  /** A run nothing disturbs, given a turn for every row left and one more, reports the walk exhausted
      and leaves only what lay behind the position it loaded. */
  lemma UndisturbedWalkDrains(job: Job, d: Disk, est: int, script: seq<Turn>)
    requires Admissible(job) && Fresh(job, d) && forall t <- script :: Undisturbed(t)
    requires |script| > 0 && |script| > Fuel(job, Begin(job, d, est))
    ensures var end := Steps(job, Begin(job, d, est), script);
      end.ending == Some(Exhausted) && Pending(end.disk.db, job.o) == Unvisited(job, d)
  {
    var w := Begin(job, d, est);
    FreshIsSound(job, d);
    EverySizeIsSafe(job.o.initialRows, est, [], job.tuning, job.rcsi);
    RunKeepsSound(job, d.db, d, est, script);
    assert forall t <- script :: Undisturbed(t) ==> Waits(t);
    UndisturbedEndings(job, w, script);
    WalkEnds(job, d.db, w, script);
  }

  // --- what a run reports -------------------------------------------------------------------

  /** A turn whose commit, if any, the driver gets to count. */
  predicate Counted(t: Turn) {
    t.outcome.Committed? || !t.outcome.landed
  }

  /** This turn commits a batch that the driver does not count. */
  predicate Misses(job: Job, w: Walk, t: Turn)
    requires Validate(job.o) == None
  {
    !t.stop && !t.queryFails && NextKey(job, w).Some? && !Counted(t)
  }

  /** How many turns of a run do, of those it gets to. */
  function Missed(job: Job, w: Walk, script: seq<Turn>): nat
    requires Validate(job.o) == None
    decreases |script|
  {
    if w.ending.Some? || script == [] then 0
    else (if Misses(job, w, script[0]) then 1 else 0) + Missed(job, Step(job, w, script[0]), script[1..])
  }

  lemma MissedStep(job: Job, w: Walk, t: Turn)
    requires Validate(job.o) == None && w.ending == None && Misses(job, w, t)
    ensures var w' := Step(job, w, t);
      && w'.disk == Land(job, w.disk, BatchKeys(job, w, NextKey(job, w).value))
      && w'.rows == w.rows && w'.batches == w.batches && w'.mark == w.mark && w'.size == w.size
      && w'.ending == if t.outcome.Broken? then Some(Errored) else AfterStop(job.tuning, w.stall, t.outcome.relief).0
  {
    hide NextKey, BatchKeys, UpdateRows, AfterStop;
  }

  /** A batch that was stopped, or whose statement broke, after the server had committed it: its rows are
      changed and none of them is ever reported. */
  lemma LandedStopIsNotCounted(job: Job, start: Table, w: Walk, t: Turn)
    requires Admissible(job) && SoundWalk(job, start, w) && w.ending == None && Misses(job, w, t)
    ensures var w' := Step(job, w, t);
      && w'.rows == w.rows && w'.batches == w.batches && |w'.disk.log| == |w.disk.log| + 1
      && TotalRows(w'.disk.log) - TotalRows(w.disk.log)
         == MinInt(w.size, |Ahead(Pending(w.disk.db, job.o), w.mark)|) > 0
  {
    assert Validate(job.o) == None;
    MissedStep(job, w, t);
    BatchIsExact(job, start, w);
    var keys := BatchKeys(job, w, NextKey(job, w).value);
    LogGrows(w.disk.log, keys);
    hide Step, NextKey, BatchKeys, UpdateRows, AfterStop, TotalRows, Sound, Pending, Ahead, Validate, UpTo, Admissible;
    assert keys != {};
  }

  lemma CountedStep(job: Job, w: Walk, t: Turn)
    requires Validate(job.o) == None && w.ending == None && !Misses(job, w, t)
    ensures var w' := Step(job, w, t);
      || (w'.disk == w.disk && w'.rows == w.rows && w'.batches == w.batches)
      || (exists next :: w'.disk.log == w.disk.log + [BatchKeys(job, w, next)]
                         && w'.rows == w.rows + |BatchKeys(job, w, next)| && w'.batches == w.batches + 1)
  {
    hide NextKey, BatchKeys, UpdateRows, AfterStop, AdjustBatchRows, Validate;
    if !t.stop && !t.queryFails && NextKey(job, w).Some? {
      var next := NextKey(job, w).value;
      if t.outcome.Committed? {
        assert Step(job, w, t).disk.log == w.disk.log + [BatchKeys(job, w, next)];
      }
    }
  }

  lemma StepReports(job: Job, start: Table, w: Walk, t: Turn)
    requires Admissible(job) && SoundWalk(job, start, w) && w.ending == None
    ensures var w' := Step(job, w, t);
      var reported, committed := w'.rows - w.rows, TotalRows(w'.disk.log) - TotalRows(w.disk.log);
      && (if Misses(job, w, t) then reported < committed else reported == committed)
      && |w'.disk.log| - |w.disk.log| == w'.batches - w.batches + if Misses(job, w, t) then 1 else 0
  {
    if Misses(job, w, t) {
      LandedStopIsNotCounted(job, start, w, t);
      hide Step, TotalRows;
    } else {
      CountedStep(job, w, t);
      assert Validate(job.o) == None;
      hide Step, Misses, BatchKeys, TotalRows, SoundWalk, Validate, Admissible;
      var log := Step(job, w, t).disk.log;
      if log != w.disk.log {
        var next :| log == w.disk.log + [BatchKeys(job, w, next)]
                    && Step(job, w, t).rows == w.rows + |BatchKeys(job, w, next)| && Step(job, w, t).batches == w.batches + 1;
        LogGrows(w.disk.log, BatchKeys(job, w, next));
      }
    }
  }

  /** A run reports exactly the rows it committed if and only if it missed no commit, and fewer otherwise;
      its batches fall short by exactly the commits it missed. */
  lemma {:induction false} ReportedRows(job: Job, start: Table, w: Walk, script: seq<Turn>)
    requires Admissible(job) && SoundWalk(job, start, w)
    ensures var end := Steps(job, w, script);
      var reported, committed := end.rows - w.rows, TotalRows(end.disk.log) - TotalRows(w.disk.log);
      && reported <= committed
      && (reported == committed <==> Missed(job, w, script) == 0)
      && |end.disk.log| - |w.disk.log| == end.batches - w.batches + Missed(job, w, script)
    decreases |script|
  {
    assert Validate(job.o) == None;
    hide Step, TotalRows, Misses, Validate, Admissible, SoundWalk;
    if w.ending == None && script != [] {
      StepReports(job, start, w, script[0]);
      StepKeepsSound(job, start, w, script[0]);
      hide Sound, Passed, Pending, PositionBehind;
      ReportedRows(job, start, Step(job, w, script[0]), script[1..]);
    }
  }

  // --- two inputs ---------------------------------------------------------------------------

  /** SET c = 1 over a table of one row, key 7, that holds c = 0. */
  function ExampleJob(): (job: Job)
    ensures Admissible(job)
  {
    assert 'd' in "dbo" && 'T' in "T" && 'c' in "c";
    Job(BatchDML(Update, "dbo", "T", [Assign("c", Val(1))], None, [], None, true, true, None, None, true),
        "k", 0, Tuning(1, 1, 1, 1, 1, 1, 1, 1), true)
  }

  function ExampleTable(): Table {
    map[7 := map["k" := Val(7), "c" := Val(0)]]
  }

  lemma ExampleIsPending()
    ensures WellKeyed(ExampleTable(), ExampleJob().key) && Pending(ExampleTable(), ExampleJob().o) == {7}
  {
    var o, row := ExampleJob().o, ExampleTable()[7];
    assert Get(row, o.assigns[0].col) != o.assigns[0].target;
    assert Needs(o, row);
  }

  lemma ExampleBegins(est: int)
    ensures var job, start := ExampleJob(), Disk(ExampleTable(), None, []);
      var w := Begin(job, start, est);
      && w == Walk(start, None, w.size, 0, 0, 0, 0, None)
      && SoundWalk(job, start.db, w) && Pending(w.disk.db, job.o) == {7}
  {
    ExampleIsPending();
    var job := ExampleJob();
    FreshIsSound(job, Disk(ExampleTable(), None, []));
    EverySizeIsSafe(job.o.initialRows, est, [], job.tuning, job.rcsi);
    hide Pending, ExampleTable, Sound, Validate, InitialSize;
  }

  lemma UncountedTurnMisses(est: int, f: Feedback)
    ensures var job, start := ExampleJob(), Disk(ExampleTable(), None, []);
      var w, t := Begin(job, start, est), Turn(false, false, Stopped(true, Cleared(0)), true, f);
      && w.ending == None && SoundWalk(job, start.db, w) && Misses(job, w, t) && Ahead(Pending(w.disk.db, job.o), w.mark) == {7}
      && NextKey(job, w).Some? && 7 <= NextKey(job, w).value
  {
    ExampleBegins(est);
    var job, start := ExampleJob(), Disk(ExampleTable(), None, []);
    var w := Begin(job, start, est);
    BatchIsExact(job, start.db, w);
    hide Begin, Pending, ExampleTable, Sound, NextKey, BatchKeys, Validate, InitialSize;
    assert Ahead({7}, None) == {7};
    var keys := BatchKeys(job, w, NextKey(job, w).value);
    assert 7 in keys;
  }

  lemma NoneAhead(pending: set<int>, mark: Option<int>, next: int)
    requires Ahead(pending, mark) == {7} && 7 <= next
    ensures Ahead(pending - UpTo(Ahead(pending, mark), next), mark) == {}
  {
    assert 7 in UpTo(Ahead(pending, mark), next);
    assert forall k <- Ahead(pending - UpTo(Ahead(pending, mark), next), mark) :: k in Ahead(pending, mark);
  }

  /** Where that run stands after its first turn: the row is updated and logged, and not counted. */
  lemma UncountedTurn(est: int, f: Feedback)
    ensures var job, start := ExampleJob(), Disk(ExampleTable(), None, []);
      var w := Begin(job, start, est);
      var w' := Step(job, w, Turn(false, false, Stopped(true, Cleared(0)), true, f));
      && w'.ending == None && w'.rows == 0 && TotalRows(w'.disk.log) == 1
      && SoundWalk(job, start.db, w') && Ahead(Pending(w'.disk.db, job.o), w'.mark) == {}
  {
    ExampleBegins(est);
    UncountedTurnMisses(est, f);
    var job, start := ExampleJob(), Disk(ExampleTable(), None, []);
    var w := Begin(job, start, est);
    var t := Turn(false, false, Stopped(true, Cleared(0)), true, f);
    hide Begin, Pending, ExampleTable, Sound, NextKey, BatchKeys, Validate, Land, InitialSize, Ahead, UpTo, Misses, Step;
    MissedStep(job, w, t);
    LandedStopIsNotCounted(job, start.db, w, t);
    AfterKeepsSound(job, start.db, w, NextKey(job, w).value, true);
    NoneAhead(Pending(w.disk.db, job.o), w.mark, NextKey(job, w).value);
  }

  /** One row to update; its batch is stopped after the server committed it. The run goes on, reports
      the range exhausted and no row, and the row has been updated. */
  lemma AnUncountedBatch(est: int, f: Feedback)
    ensures var start := Disk(ExampleTable(), None, []);
      var script := [Turn(false, false, Stopped(true, Cleared(0)), true, f), Turn(false, false, Committed, true, f)];
      var end := Steps(ExampleJob(), Begin(ExampleJob(), start, est), script);
      end.ending == Some(Exhausted) && end.rows == 0 && TotalRows(end.disk.log) == 1
  {
    UncountedTurn(est, f);
    var job, start := ExampleJob(), Disk(ExampleTable(), None, []);
    var w := Begin(job, start, est);
    var t, t' := Turn(false, false, Stopped(true, Cleared(0)), true, f), Turn(false, false, Committed, true, f);
    hide NextKey, BatchKeys, Pending, Sound, Land, ExampleJob, ExampleTable, InitialSize, TotalRows;
    var w' := Step(job, w, t);
    BatchIsExact(job, start.db, w');
    assert Steps(job, w, [t, t']) == Steps(job, w', [t']) == Steps(job, Step(job, w', t'), []);
  }

  /** The same row behind a position file that already bears the statement's fingerprint: one undisturbed
      turn reports exhaustion, and the row still needs the update. */
  lemma AStalePosition(est: int, f: Feedback)
    ensures var start := Disk(ExampleTable(), Some(Saved(9, 0)), []);
      var end := Steps(ExampleJob(), Begin(ExampleJob(), start, est), [Turn(false, false, Committed, true, f)]);
      end.ending == Some(Exhausted) && end.disk == start && Pending(end.disk.db, ExampleJob().o) == {7}
  {
    ExampleIsPending();
    var start := Disk(ExampleTable(), Some(Saved(9, 0)), []);
    assert Unvisited(ExampleJob(), start) == {7};
    StalePositionSkipsAll(ExampleJob(), start, est, Turn(false, false, Committed, true, f));
  }

  // --- the driver ---------------------------------------------------------------------------

  /** The server's table and log and the position file, as the driver changes them. */
  class KeyRangeRunner {
    const job: Job
    var disk: Disk
    var rows: nat
    var batches: nat
    var finalRows: int

    constructor (job: Job, disk: Disk)
      ensures this.job == job && this.disk == disk && rows == 0 && batches == 0 && finalRows == 0
    {
      this.job, this.disk := job, disk;
      rows, batches, finalRows := 0, 0, 0;
    }

    method Save(at: int, ok: bool)
      modifies this`disk
      ensures disk == if ok then old(disk).(file := Some(Saved(at, job.fingerprint))) else old(disk)
    {
      if ok {
        disk := disk.(file := Some(Saved(at, job.fingerprint)));
      }
    }

    ghost function Seen(mark: Option<int>, size: int, stall: nat, ending: Option<Ending>): Walk
      reads this
    {
      Walk(disk, mark, size, stall, rows, batches, finalRows, ending)
    }

    /** One pass: the bound, the batch up to it, and what became of it. */
    method RunTurn(t: Turn, mark: Option<int>, size: int, stall: nat)
      returns (ending: Option<Ending>, newMark: Option<int>, newSize: int, newStall: nat)
      requires Validate(job.o) == None
      modifies this
      ensures Seen(newMark, newSize, newStall, ending) == Step(job, old(Seen(mark, size, stall, None)), t)
    {
      hide Matching, KeyRangeWhere, NthSmallest, UpdateRows, AdjustBatchRows, AfterStop, Validate;
      ending, newMark, newSize, newStall := None, mark, size, stall;
      if t.stop {
        return Some(GracefulStop), mark, size, stall;
      }
      if t.queryFails {
        return Some(Errored), mark, size, stall;
      }
      var above := BuildKeyRangeWhere(job.o, job.key, mark, None);
      var next := NthSmallest(Matching(disk.db, above), size);
      if next == None {
        return Some(Exhausted), mark, size, stall;
      }
      var where := BuildKeyRangeWhere(job.o, job.key, mark, next);
      var keys := Matching(disk.db, where);
      if Landed(t.outcome) {
        disk := Land(job, disk, keys);
      }
      match t.outcome {
        case Broken(_) => return Some(Errored), mark, size, stall;
        case Stopped(_, relief) =>
          var (verdict, total) := AfterStop(job.tuning, stall, relief);
          return verdict, mark, size, total;
        case Committed =>
          rows, batches, finalRows := rows + |keys|, batches + 1, size;
          newMark := next;
          Save(next.value, t.saved);
          newStall := 0;
          newSize := AdjustBatchRows(size, t.feedback, job.tuning, BatchCeiling(job.tuning, job.rcsi));
      }
    }

    /** The walk, turn by turn, against whatever the script of outcomes holds. */
    method Run(est: int, script: seq<Turn>) returns (ending: Ending)
      requires Validate(job.o) == None
      requires rows == 0 && batches == 0 && finalRows == 0
      modifies this
      ensures var end := Steps(job, Begin(job, old(disk), est), script);
        && Some(ending) == end.ending && disk == end.disk
        && rows == end.rows && batches == end.batches && finalRows == end.finalRows
    {
      var size := InitialSize(job.o.initialRows, est, job.tuning, job.rcsi);
      var mark := Load(job, disk);
      var stall: nat := 0;
      ghost var end := Steps(job, Begin(job, disk, est), script);
      assert script[0..] == script;
      hide Steps, Validate, Step, InitialSize, Load;
      for i := 0 to |script|
        invariant Steps(job, Seen(mark, size, stall, None), script[i..]) == end
      {
        ghost var w := Seen(mark, size, stall, None);
        StepsNext(job, w, script, i);
        StepsOver(job, Step(job, w, script[i]));
        var stopped;
        stopped, mark, size, stall := RunTurn(script[i], mark, size, stall);
        if stopped.Some? {
          return stopped.value;
        }
      }
      assert script[|script|..] == [];
      StepsOver(job, Seen(mark, size, stall, None));
      return Killed;
    }
  }
}
