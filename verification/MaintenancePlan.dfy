/** The maintenance plan: one decision per measurement, then the suppression of what another decision
    of the same plan already does. What each measurement wants on its own is given. */
module MaintenancePlan {
  import opened Options
  import opened Text

  /** What an index measurement calls for on its own. */
  datatype IndexVerdict = LeaveIndex | Reorganize | Rebuild

  /** `partition` is set when the measurement is of one partition. */
  datatype IndexMeasurement = IndexMeasurement(schema: string, table: string, index: string, partition: Option<int>,
                                               verdict: IndexVerdict)

  datatype HeapMeasurement = HeapMeasurement(schema: string, table: string, rebuild: bool)

  datatype StatMeasurement = StatMeasurement(schema: string, table: string, statistic: string, update: bool)

  datatype Input = Input(indexes: seq<IndexMeasurement>, heaps: seq<HeapMeasurement>, statistics: seq<StatMeasurement>,
                         checkEnabled: bool, databases: seq<string>, connDatabase: string)

  datatype Operation =
    | RebuildIndex(schema: string, table: string, index: string, partition: Option<int>)
    | ReorganizeIndex(schema: string, table: string, index: string, partition: Option<int>)
    | RebuildHeap(schema: string, table: string)
    | UpdateStatistics(schema: string, table: string, statistic: string)
    | CheckDB(database: string)

  datatype Category = IndexWork | HeapWork | StatisticsWork | CheckWork

  /** Why a decision has no operation, or that it stands as the measurement wanted it. */
  datatype Reason = OnItsOwn | HeapRebuildCoversIt | BackingRebuildCoversIt

  datatype Decision = Decision(category: Category, op: Option<Operation>, reason: Reason)

  // --- keys -----------------------------------------------------------------------------------

  /** The map key of an object: its parts joined by dots, in lower case. */
  function Key(schema: string, table: string, name: string): string {
    Lower(schema + "." + table + "." + name)
  }

  predicate DotFree(s: string) {
    '.' !in s
  }

  /** The same table. Names are compared as they are: under a case-sensitive collation two that differ
      in case only may name two objects. */
  predicate SameTable(s: string, t: string, s': string, t': string) {
    s == s' && t == t'
  }

  /** Where the last dot of a key stands, when the name has none. */
  lemma KeyOfDotFreeName(schema: string, table: string, name: string)
    requires DotFree(name)
    ensures var k, t := Key(schema, table, name), Key(schema, table, "");
      && |t| <= |k| && k[..|t|] == t && |t| > 0 && t[|t| - 1] == '.' && k[|t|..] == Lower(name)
      && forall i | |t| <= i < |k| :: k[i] != '.'
  {
    var whole, prefix := schema + "." + table + "." + name, schema + "." + table + ".";
    assert prefix + "" == prefix && whole == prefix + name;
    forall i | |prefix| <= i < |whole|
      ensures Lower(whole)[i] != '.'
    {
      assert whole[i] == name[i - |prefix|] && name[i - |prefix|] in name;
    }
  }

  /** With no dot in either name, objects that share a key share a name, and are on tables that share a
      key. */
  lemma SameKeySameTable(s: string, t: string, n: string, s': string, t': string, n': string)
    requires DotFree(n) && DotFree(n') && Key(s, t, n) == Key(s', t', n')
    ensures Key(s, t, "") == Key(s', t', "") && Lower(n) == Lower(n')
  {
    KeyOfDotFreeName(s, t, n);
    KeyOfDotFreeName(s', t', n');
    OnlyLast(Key(s, t, n), |Key(s, t, "")| - 1, |Key(s', t', "")| - 1);
  }

  /** A string has one last dot and one first dot. */
  lemma OnlyLast(k: string, p: nat, q: nat)
    requires p < |k| && q < |k| && k[p] == '.' && k[q] == '.'
    requires forall i | p < i < |k| :: k[i] != '.'
    requires forall i | q < i < |k| :: k[i] != '.'
    ensures p == q
  {
  }

  lemma OnlyFirst(k: string, p: nat, q: nat)
    requires p < |k| && q < |k| && k[p] == '.' && k[q] == '.'
    requires forall i | 0 <= i < p :: k[i] != '.'
    requires forall i | 0 <= i < q :: k[i] != '.'
    ensures p == q
  {
  }

  /** Where the first dot of a key stands, when the schema has none. */
  lemma KeyOfDotFreeSchema(schema: string, table: string)
    requires DotFree(schema)
    ensures var k := Key(schema, table, "");
      && |k| == |schema| + |table| + 2 && k[|schema|] == '.'
      && (forall i | 0 <= i < |schema| :: k[i] != '.')
      && k[..|schema|] == Lower(schema) && k[|schema| + 1..|k| - 1] == Lower(table)
  {
    var whole := schema + "." + table + "." + "";
    forall i | 0 <= i < |schema|
      ensures Key(schema, table, "")[i] != '.'
    {
      assert whole[i] == schema[i] && schema[i] in schema;
    }
  }

  /** With no dot in either schema, tables that share a key share their names, up to case. */
  lemma SameTableKeySameTable(s: string, t: string, s': string, t': string)
    requires DotFree(s) && DotFree(s') && Key(s, t, "") == Key(s', t', "")
    ensures Lower(s) == Lower(s') && Lower(t) == Lower(t')
  {
    KeyOfDotFreeSchema(s, t);
    KeyOfDotFreeSchema(s', t');
    var k := Key(s, t, "");
    OnlyFirst(k, |s|, |s'|);
  }

  // --- what the plan is -----------------------------------------------------------------------

  function OwnIndex(m: IndexMeasurement): Decision {
    match m.verdict
    case LeaveIndex => Decision(IndexWork, None, OnItsOwn)
    case Reorganize => Decision(IndexWork, Some(ReorganizeIndex(m.schema, m.table, m.index, m.partition)), OnItsOwn)
    case Rebuild => Decision(IndexWork, Some(RebuildIndex(m.schema, m.table, m.index, m.partition)), OnItsOwn)
  }

  function OwnHeap(m: HeapMeasurement): Decision {
    Decision(HeapWork, if m.rebuild then Some(RebuildHeap(m.schema, m.table)) else None, OnItsOwn)
  }

  function OwnStatistic(m: StatMeasurement): Decision {
    Decision(StatisticsWork, if m.update then Some(UpdateStatistics(m.schema, m.table, m.statistic)) else None, OnItsOwn)
  }

  predicate HeapRebuilt(input: Input, key: string) {
    exists i :: 0 <= i < |input.heaps| && RebuildsTable(input.heaps[i], key)
  }

  predicate RebuildsTable(m: HeapMeasurement, key: string) {
    m.rebuild && Key(m.schema, m.table, "") == key
  }

  /** A whole-index rebuild refreshes the statistic it backs; a single partition's does not. */
  predicate RefreshesKey(m: IndexMeasurement, key: string) {
    m.verdict == Rebuild && m.partition == None && Key(m.schema, m.table, m.index) == key
  }

  predicate IndexRebuilt(input: Input, key: string) {
    exists i :: 0 <= i < |input.indexes| && RefreshesKey(input.indexes[i], key)
  }

  function IndexDecision(input: Input, m: IndexMeasurement): Decision {
    if m.verdict != LeaveIndex && HeapRebuilt(input, Key(m.schema, m.table, ""))
    then Decision(IndexWork, None, HeapRebuildCoversIt) else OwnIndex(m)
  }

  function StatDecision(input: Input, m: StatMeasurement): Decision {
    if m.update && (IndexRebuilt(input, Key(m.schema, m.table, m.statistic)) || HeapRebuilt(input, Key(m.schema, m.table, "")))
    then Decision(StatisticsWork, None, BackingRebuildCoversIt) else OwnStatistic(m)
  }

  function CheckDecisions(databases: seq<string>): seq<Decision> {
    if databases == [] then []
    else
      var front := CheckDecisions(databases[..|databases| - 1]);
      var db := databases[|databases| - 1];
      if Blank(db) then front else front + [Decision(CheckWork, Some(CheckDB(db)), OnItsOwn)]
  }

  function Checks(input: Input): seq<Decision> {
    if !input.checkEnabled then []
    else CheckDecisions(if input.databases == [] then [input.connDatabase] else input.databases)
  }

  /** One decision per measurement, in order, then the checks. */
  predicate IsPlan(input: Input, ds: seq<Decision>) {
    var n, h, s := |input.indexes|, |input.heaps|, |input.statistics|;
    && |ds| == n + h + s + |Checks(input)|
    && (forall i | 0 <= i < n :: ds[i] == IndexDecision(input, input.indexes[i]))
    && (forall i | n <= i < n + h :: ds[i] == OwnHeap(input.heaps[i - n]))
    && (forall i | n + h <= i < n + h + s :: ds[i] == StatDecision(input, input.statistics[i - n - h]))
    && ds[n + h + s..] == Checks(input)
  }

  /** Every operation of the plan is one of the object measured at its place, of the kind the measurement asks
      for; and a measurement that asks for one has it there, unless a rebuild covers it. */
  lemma PlanIsOfTheMeasured(input: Input, ds: seq<Decision>, i: nat)
    requires IsPlan(input, ds) && i < |ds|
    ensures var n, h, s := |input.indexes|, |input.heaps|, |input.statistics|;
      if i < n then
        var m := input.indexes[i];
        match ds[i].op
        case None => m.verdict == LeaveIndex || ds[i].reason == HeapRebuildCoversIt
        case Some(ReorganizeIndex(schema, table, index, partition)) =>
          m.verdict == Reorganize && (schema, table, index, partition) == (m.schema, m.table, m.index, m.partition)
        case Some(RebuildIndex(schema, table, index, partition)) =>
          m.verdict == Rebuild && (schema, table, index, partition) == (m.schema, m.table, m.index, m.partition)
        case _ => false
      else if i < n + h then
        var m := input.heaps[i - n];
        match ds[i].op
        case None => !m.rebuild
        case Some(RebuildHeap(schema, table)) => m.rebuild && (schema, table) == (m.schema, m.table)
        case _ => false
      else if i < n + h + s then
        var m := input.statistics[i - n - h];
        match ds[i].op
        case None => !m.update || ds[i].reason == BackingRebuildCoversIt
        case Some(UpdateStatistics(schema, table, statistic)) =>
          m.update && (schema, table, statistic) == (m.schema, m.table, m.statistic)
        case _ => false
      else
        input.checkEnabled && ds[i].op.Some? && ds[i].op.value.CheckDB? && !Blank(ds[i].op.value.database)
        && ds[i].op.value.database in (if input.databases == [] then [input.connDatabase] else input.databases)
  {
    hide HeapRebuilt, IndexRebuilt, Key;
    var n := |input.indexes| + |input.heaps| + |input.statistics|;
    if i >= n {
      assert ds[i] == ds[n..][i - n];
      var dbs := if input.databases == [] then [input.connDatabase] else input.databases;
      ChecksAreInScope(dbs, i - n);
    }
  }

  lemma {:induction false} ChecksAreInScope(databases: seq<string>, k: nat)
    requires k < |CheckDecisions(databases)|
    ensures var op := CheckDecisions(databases)[k].op;
      op.Some? && op.value.CheckDB? && op.value.database in databases && !Blank(op.value.database)
  {
    var front := databases[..|databases| - 1];
    if k < |CheckDecisions(front)| {
      ChecksAreInScope(front, k);
    }
  }

  function NotBlank(databases: seq<string>): nat {
    if databases == [] then 0
    else NotBlank(databases[..|databases| - 1]) + if Blank(databases[|databases| - 1]) then 0 else 1
  }

  /** Every database in scope that is not blank has its check, in the order of the scope, and there is no other. */
  lemma {:induction false} EachIsChecked(databases: seq<string>, i: nat)
    requires i < |databases|
    ensures |CheckDecisions(databases)| == NotBlank(databases)
    ensures !Blank(databases[i]) ==>
              var k := NotBlank(databases[..i]);
              k < NotBlank(databases) && CheckDecisions(databases)[k] == Decision(CheckWork, Some(CheckDB(databases[i])), OnItsOwn)
  {
    hide Blank;
    var n := |databases| - 1;
    var front := databases[..n];
    if front == [] {
      assert databases[..i] == [];
    } else {
      EachIsChecked(front, if i < n then i else 0);
      assert i < n ==> front[..i] == databases[..i];
    }
  }

  /** The plan's last decisions: none where checks are off, and otherwise one for each database listed that is not
      blank, in order, the connected one standing in for an empty list. */
  lemma ChecksFollowTheScope(input: Input, ds: seq<Decision>, i: nat)
    requires IsPlan(input, ds)
    ensures var n := |input.indexes| + |input.heaps| + |input.statistics|;
      && (!input.checkEnabled ==> |ds| == n)
      && (input.checkEnabled && input.databases == [] ==>
            |ds| == n + (if Blank(input.connDatabase) then 0 else 1)
            && (!Blank(input.connDatabase) ==> ds[n].op == Some(CheckDB(input.connDatabase))))
      && (input.checkEnabled && input.databases != [] ==>
            |ds| == n + NotBlank(input.databases)
            && (i < |input.databases| && !Blank(input.databases[i]) ==>
                  var k := n + NotBlank(input.databases[..i]);
                  k < |ds| && ds[k].op == Some(CheckDB(input.databases[i]))))
  {
    var n := |input.indexes| + |input.heaps| + |input.statistics|;
    hide HeapRebuilt, IndexRebuilt, Key, Blank, IndexDecision, StatDecision, OwnHeap;
    if input.checkEnabled {
      if input.databases == [] {
        EachIsChecked([input.connDatabase], 0);
        assert [input.connDatabase][..0] == [];
        assert NotBlank([input.connDatabase]) == if Blank(input.connDatabase) then 0 else 1;
        assert !Blank(input.connDatabase) ==> ds[n] == ds[n..][0];
      } else {
        EachIsChecked(input.databases, if i < |input.databases| then i else 0);
        if i < |input.databases| && !Blank(input.databases[i]) {
          var k := NotBlank(input.databases[..i]);
          assert ds[n + k] == ds[n..][k];
        }
      }
    }
  }

  /** Which rebuilds the decisions so far ask for. */
  ghost predicate Collected(input: Input, ds: seq<Decision>, upTo: nat, rebuiltIndex: set<string>, heapTable: set<string>)
    requires upTo <= |ds|
  {
    && (forall key :: key in rebuiltIndex <==> exists i :: 0 <= i < upTo && RefreshesByDecision(ds[i], key))
    && (forall key :: key in heapTable <==> exists i :: 0 <= i < upTo && RebuildsByDecision(ds[i], key))
  }

  predicate RefreshesByDecision(d: Decision, key: string) {
    d.op.Some? && d.op.value.RebuildIndex? && d.op.value.partition == None
    && Key(d.op.value.schema, d.op.value.table, d.op.value.index) == key
  }

  predicate RebuildsByDecision(d: Decision, key: string) {
    d.op.Some? && d.op.value.RebuildHeap? && Key(d.op.value.schema, d.op.value.table, "") == key
  }

  predicate OwnDecisions(input: Input, ds: seq<Decision>) {
    var n := |input.indexes|;
    && |ds| == n + |input.heaps|
    && (forall i | 0 <= i < n :: ds[i] == OwnIndex(input.indexes[i]))
    && (forall i | n <= i < |ds| :: ds[i] == OwnHeap(input.heaps[i - n]))
  }

  lemma CollectedAll(input: Input, ds: seq<Decision>, rebuiltIndex: set<string>, heapTable: set<string>)
    requires OwnDecisions(input, ds) && Collected(input, ds, |ds|, rebuiltIndex, heapTable)
    ensures forall key :: (key in rebuiltIndex <==> IndexRebuilt(input, key)) && (key in heapTable <==> HeapRebuilt(input, key))
  {
    hide Key;
    var n := |input.indexes|;
    forall key
      ensures key in rebuiltIndex <==> IndexRebuilt(input, key)
      ensures key in heapTable <==> HeapRebuilt(input, key)
    {
      if i :| 0 <= i < n && RefreshesKey(input.indexes[i], key) {
        assert RefreshesByDecision(ds[i], key);
      }
      if i :| 0 <= i < |ds| && RefreshesByDecision(ds[i], key) {
        assert i < n && RefreshesKey(input.indexes[i], key);
      }
      if i :| 0 <= i < |input.heaps| && RebuildsTable(input.heaps[i], key) {
        assert RebuildsByDecision(ds[n + i], key);
      }
      if i :| 0 <= i < |ds| && RebuildsByDecision(ds[i], key) {
        assert i >= n && RebuildsTable(input.heaps[i - n], key);
      }
    }
  }

  /** Decides every index and heap on its own. */
  method DecideObjects(input: Input) returns (ds: seq<Decision>)
    ensures OwnDecisions(input, ds)
  {
    ds := [];
    for i := 0 to |input.indexes|
      invariant |ds| == i && forall k | 0 <= k < i :: ds[k] == OwnIndex(input.indexes[k])
    {
      ds := ds + [OwnIndex(input.indexes[i])];
    }
    for i := 0 to |input.heaps|
      invariant |ds| == |input.indexes| + i
      invariant forall k | 0 <= k < |input.indexes| :: ds[k] == OwnIndex(input.indexes[k])
      invariant forall k | |input.indexes| <= k < |ds| :: ds[k] == OwnHeap(input.heaps[k - |input.indexes|])
    {
      ds := ds + [OwnHeap(input.heaps[i])];
    }
  }

  /** Notes the whole-index rebuilds and the heap rebuilds decided. */
  method CollectRebuilds(input: Input, ds: seq<Decision>) returns (rebuiltIndex: set<string>, heapTable: set<string>)
    requires OwnDecisions(input, ds)
    ensures forall key :: (key in rebuiltIndex <==> IndexRebuilt(input, key)) && (key in heapTable <==> HeapRebuilt(input, key))
  {
    hide Key, OwnIndex, OwnHeap;
    rebuiltIndex, heapTable := {}, {};
    for i := 0 to |ds|
      invariant Collected(input, ds, i, rebuiltIndex, heapTable)
    {
      match ds[i].op {
        case Some(RebuildIndex(schema, table, index, partition)) =>
          if partition == None {
            assert RefreshesByDecision(ds[i], Key(schema, table, index));
            rebuiltIndex := rebuiltIndex + {Key(schema, table, index)};
          }
        case Some(RebuildHeap(schema, table)) =>
          assert RebuildsByDecision(ds[i], Key(schema, table, ""));
          heapTable := heapTable + {Key(schema, table, "")};
        case _ =>
      }
    }
    CollectedAll(input, ds, rebuiltIndex, heapTable);
  }

  method DecideChecks(input: Input) returns (ds: seq<Decision>)
    ensures ds == Checks(input)
  {
    ds := [];
    if !input.checkEnabled {
      return;
    }
    var databases := input.databases;
    if databases == [] {
      databases := [input.connDatabase];
    }
    for i := 0 to |databases|
      invariant ds == CheckDecisions(databases[..i])
    {
      assert databases[..i + 1][..i] == databases[..i];
      if !Blank(databases[i]) {
        ds := ds + [Decision(CheckWork, Some(CheckDB(databases[i])), OnItsOwn)];
      }
    }
    assert databases[..|databases|] == databases;
  }

  /** Overwrites the index operations on a table whose heap is rebuilt. */
  method SuppressIndexWork(input: Input, own: seq<Decision>, heapTable: set<string>) returns (ds: seq<Decision>)
    requires OwnDecisions(input, own) && forall key :: key in heapTable <==> HeapRebuilt(input, key)
    ensures |ds| == |own|
    ensures forall k | 0 <= k < |input.indexes| :: ds[k] == IndexDecision(input, input.indexes[k])
    ensures forall k | |input.indexes| <= k < |ds| :: ds[k] == OwnHeap(input.heaps[k - |input.indexes|])
  {
    hide HeapRebuilt, Key;
    var n := |input.indexes|;
    ds := own;
    for i := 0 to |ds|
      invariant |ds| == |own|
      invariant forall k | 0 <= k < n :: ds[k] == if k < i then IndexDecision(input, input.indexes[k]) else own[k]
      invariant forall k | n <= k < |ds| :: ds[k] == own[k]
    {
      match ds[i].op {
        case Some(RebuildIndex(schema, table, _, _)) =>
          if Key(schema, table, "") in heapTable {
            ds := ds[i := Decision(IndexWork, None, HeapRebuildCoversIt)];
          }
        case Some(ReorganizeIndex(schema, table, _, _)) =>
          if Key(schema, table, "") in heapTable {
            ds := ds[i := Decision(IndexWork, None, HeapRebuildCoversIt)];
          }
        case _ =>
      }
    }
  }

  method DecideStatistics(input: Input, rebuiltIndex: set<string>, heapTable: set<string>) returns (ds: seq<Decision>)
    requires forall key :: (key in rebuiltIndex <==> IndexRebuilt(input, key)) && (key in heapTable <==> HeapRebuilt(input, key))
    ensures |ds| == |input.statistics|
    ensures forall k | 0 <= k < |ds| :: ds[k] == StatDecision(input, input.statistics[k])
  {
    hide HeapRebuilt, IndexRebuilt, Key;
    ds := [];
    for i := 0 to |input.statistics|
      invariant |ds| == i && forall k | 0 <= k < i :: ds[k] == StatDecision(input, input.statistics[k])
    {
      var m := input.statistics[i];
      var d := OwnStatistic(m);
      if d.op.Some? {
        if Key(m.schema, m.table, m.statistic) in rebuiltIndex || Key(m.schema, m.table, "") in heapTable {
          d := Decision(StatisticsWork, None, BackingRebuildCoversIt);
        }
      }
      ds := ds + [d];
    }
  }

  /** The whole analysis. */
  method Decide(input: Input) returns (ds: seq<Decision>)
    ensures IsPlan(input, ds)
  {
    ds := DecideObjects(input);
    var rebuiltIndex, heapTable := CollectRebuilds(input, ds);
    ds := SuppressIndexWork(input, ds, heapTable);
    var statistics := DecideStatistics(input, rebuiltIndex, heapTable);
    var checks := DecideChecks(input);
    hide OwnDecisions, IndexDecision, StatDecision, OwnHeap, HeapRebuilt, IndexRebuilt, Checks;
    ds := ds + statistics + checks;
  }

  // --- what holds of every plan ---------------------------------------------------------------

  lemma ChecksAreChecks(databases: seq<string>)
    ensures forall d <- CheckDecisions(databases) :: d.category == CheckWork && d.op.Some? && d.op.value.CheckDB?
  {
  }

  /** The decisions after the measurements are the checks, and nothing else is. */
  lemma ChecksComeLast(input: Input, ds: seq<Decision>, i: nat)
    requires IsPlan(input, ds) && i < |ds|
    ensures ds[i].category == CheckWork <==> i >= |input.indexes| + |input.heaps| + |input.statistics|
    ensures ds[i].category == CheckWork <==> ds[i].op.Some? && ds[i].op.value.CheckDB?
  {
    hide HeapRebuilt, IndexRebuilt, Key;
    ChecksAreChecks(if input.databases == [] then [input.connDatabase] else input.databases);
    var first := |input.indexes| + |input.heaps| + |input.statistics|;
    if i >= first {
      assert ds[i] == ds[first..][i - first];
    }
  }

  /** This decision rebuilds the heap of this very table. */
  predicate RebuildsHeapOf(d: Decision, schema: string, table: string) {
    d.op.Some? && d.op.value.RebuildHeap? && SameTable(d.op.value.schema, d.op.value.table, schema, table)
  }

  /** This decision rebuilds the very index behind the statistic, all its partitions. */
  predicate RebuildsIndexOf(d: Decision, m: StatMeasurement) {
    && d.op.Some? && d.op.value.RebuildIndex? && d.op.value.partition == None
    && SameTable(d.op.value.schema, d.op.value.table, m.schema, m.table) && d.op.value.index == m.statistic
  }

  /** The plan rebuilds the table's heap, and with it all its nonclustered indexes. */
  ghost predicate Covered(ds: seq<Decision>, schema: string, table: string) {
    exists i :: 0 <= i < |ds| && RebuildsHeapOf(ds[i], schema, table)
  }

  datatype Named = Named(schema: string, table: string, name: string)

  /** The indexes the database has: the measured ones, and any that were not measured. */
  type Catalogue = set<Named>

  predicate Lists(cat: Catalogue, input: Input) {
    forall i | 0 <= i < |input.indexes| ::
      Named(input.indexes[i].schema, input.indexes[i].table, input.indexes[i].index) in cat
  }

  /** An index backs the statistic: one of its table that bears its name. Column statistics have none. */
  predicate Backed(cat: Catalogue, m: StatMeasurement) {
    Named(m.schema, m.table, m.statistic) in cat
  }

  /** The plan rebuilds what refreshes the statistic: the very index that backs it, by itself or with the
      heap of its table. */
  ghost predicate Refreshed(cat: Catalogue, ds: seq<Decision>, m: StatMeasurement) {
    || (Backed(cat, m) && Covered(ds, m.schema, m.table))
    || exists i :: 0 <= i < |ds| && RebuildsIndexOf(ds[i], m)
  }

  predicate IsHeapOf(h: HeapMeasurement, schema: string, table: string) {
    h.rebuild && SameTable(h.schema, h.table, schema, table)
  }

  predicate IsIndexOf(x: IndexMeasurement, m: StatMeasurement) {
    && x.verdict == Rebuild && x.partition == None
    && SameTable(x.schema, x.table, m.schema, m.table) && x.index == m.statistic
  }

  /** The measurements ask to rebuild the heap of this very table; the index behind this statistic. */
  predicate OwnHeapRebuilt(input: Input, schema: string, table: string) {
    exists i :: 0 <= i < |input.heaps| && IsHeapOf(input.heaps[i], schema, table)
  }

  predicate OwnIndexRebuilt(input: Input, m: StatMeasurement) {
    exists i :: 0 <= i < |input.indexes| && IsIndexOf(input.indexes[i], m)
  }

  /** A heap rebuild is in the plan exactly when its measurement asked for one. */
  lemma PlannedHeaps(input: Input, ds: seq<Decision>, schema: string, table: string)
    requires IsPlan(input, ds)
    ensures Covered(ds, schema, table) <==> OwnHeapRebuilt(input, schema, table)
  {
    hide SameTable;
    var n, h := |input.indexes|, |input.heaps|;
    if i :| 0 <= i < h && IsHeapOf(input.heaps[i], schema, table) {
      assert RebuildsHeapOf(ds[n + i], schema, table);
    }
    if i :| 0 <= i < |ds| && RebuildsHeapOf(ds[i], schema, table) {
      ChecksComeLast(input, ds, i);
      assert n <= i < n + h && IsHeapOf(input.heaps[i - n], schema, table);
    }
  }

  /** The rebuild of the index behind a statistic is in the plan exactly when it was asked for and no heap
      under its table's key is rebuilt. */
  lemma PlannedRefreshes(input: Input, ds: seq<Decision>, m: StatMeasurement)
    requires IsPlan(input, ds)
    ensures (exists i :: 0 <= i < |ds| && RebuildsIndexOf(ds[i], m))
       <==> OwnIndexRebuilt(input, m) && !HeapRebuilt(input, Key(m.schema, m.table, ""))
  {
    hide Key, HeapRebuilt;
    var n := |input.indexes|;
    if i :| 0 <= i < n && IsIndexOf(input.indexes[i], m) {
      if !HeapRebuilt(input, Key(m.schema, m.table, "")) {
        assert RebuildsIndexOf(ds[i], m);
      }
    }
    if i :| 0 <= i < |ds| && RebuildsIndexOf(ds[i], m) {
      ChecksComeLast(input, ds, i);
      assert i < n && IsIndexOf(input.indexes[i], m);
    }
  }

  /** What is asked for under its own name is asked for under its key. */
  lemma OwnHasTheKey(input: Input, m: StatMeasurement)
    ensures OwnHeapRebuilt(input, m.schema, m.table) ==> HeapRebuilt(input, Key(m.schema, m.table, ""))
    ensures OwnIndexRebuilt(input, m) ==> IndexRebuilt(input, Key(m.schema, m.table, m.statistic))
  {
    hide Key;
    if i :| 0 <= i < |input.heaps| && IsHeapOf(input.heaps[i], m.schema, m.table) {
      assert RebuildsTable(input.heaps[i], Key(m.schema, m.table, ""));
    }
    if i :| 0 <= i < |input.indexes| && IsIndexOf(input.indexes[i], m) {
      var x := input.indexes[i];
      assert RefreshesKey(x, Key(m.schema, m.table, m.statistic));
    }
  }

  predicate IsIndexWork(d: Decision) {
    d.op.Some? && (d.op.value.RebuildIndex? || d.op.value.ReorganizeIndex?)
  }

  /** No plan keeps an index operation on a table whose heap it rebuilds, nor on one that shares its key. */
  lemma NoIndexWorkUnderAHeapRebuild(input: Input, ds: seq<Decision>, i: nat, j: nat)
    requires IsPlan(input, ds) && i < |ds| && j < |ds|
    requires ds[i].op.Some? && ds[i].op.value.RebuildHeap? && IsIndexWork(ds[j])
    ensures var heap, work := ds[i].op.value, ds[j].op.value;
      && Key(heap.schema, heap.table, "") != Key(work.schema, work.table, "")
      && !SameTable(heap.schema, heap.table, work.schema, work.table)
  {
    var heap, work := ds[i].op.value, ds[j].op.value;
    ChecksComeLast(input, ds, i);
    ChecksComeLast(input, ds, j);
    var n := |input.indexes|;
    hide Key, IndexRebuilt;
    assert n <= i < n + |input.heaps| && j < n;
    assert RebuildsTable(input.heaps[i - n], Key(heap.schema, heap.table, ""));
  }

  /** Which index operations are dropped: those on a table that shares its key with a rebuilt heap. Such a
      one is covered by the plan if and only if the heap of its own table is among those rebuilt. */
  lemma DroppedIndexIsCovered(input: Input, ds: seq<Decision>, i: nat)
    requires IsPlan(input, ds) && i < |input.indexes|
    ensures var m := input.indexes[i];
      && (ds[i].reason == HeapRebuildCoversIt <==>
            m.verdict != LeaveIndex && HeapRebuilt(input, Key(m.schema, m.table, "")))
      && (Covered(ds, m.schema, m.table) <==> OwnHeapRebuilt(input, m.schema, m.table))
  {
    PlannedHeaps(input, ds, input.indexes[i].schema, input.indexes[i].table);
    hide Key, Covered, OwnHeapRebuilt, HeapRebuilt;
  }

  /** Which statistics are dropped, and when such a one is refreshed by the plan: if and only if an index
      backs it and the heap of its own table is rebuilt, or its own index is asked to be and no rebuilt heap
      shares its table's key. */
  lemma DroppedStatisticIsRefreshed(cat: Catalogue, input: Input, ds: seq<Decision>, i: nat)
    requires IsPlan(input, ds) && i < |input.statistics|
    ensures var m := input.statistics[i];
      && (ds[|input.indexes| + |input.heaps| + i].reason == BackingRebuildCoversIt <==>
            m.update && (IndexRebuilt(input, Key(m.schema, m.table, m.statistic))
                         || HeapRebuilt(input, Key(m.schema, m.table, ""))))
      && (Refreshed(cat, ds, m) <==>
            || (Backed(cat, m) && OwnHeapRebuilt(input, m.schema, m.table))
            || (OwnIndexRebuilt(input, m) && !HeapRebuilt(input, Key(m.schema, m.table, ""))))
  {
    var m := input.statistics[i];
    PlannedHeaps(input, ds, m.schema, m.table);
    PlannedRefreshes(input, ds, m);
    hide Key, Covered, OwnHeapRebuilt, OwnIndexRebuilt, HeapRebuilt, IndexRebuilt, RebuildsIndexOf, Backed;
  }

  /** No schema that is measured holds a dot, and no index or statistic name does. */
  predicate DotFreeNames(input: Input) {
    && (forall j | 0 <= j < |input.indexes| :: DotFree(input.indexes[j].schema) && DotFree(input.indexes[j].index))
    && (forall j | 0 <= j < |input.heaps| :: DotFree(input.heaps[j].schema))
    && (forall j | 0 <= j < |input.statistics| ::
          DotFree(input.statistics[j].schema) && DotFree(input.statistics[j].statistic))
  }

  /** Every name that is measured. */
  function NamesOf(input: Input): set<string> {
    (set j | 0 <= j < |input.indexes| :: input.indexes[j].schema)
    + (set j | 0 <= j < |input.indexes| :: input.indexes[j].table)
    + (set j | 0 <= j < |input.indexes| :: input.indexes[j].index)
    + (set j | 0 <= j < |input.heaps| :: input.heaps[j].schema)
    + (set j | 0 <= j < |input.heaps| :: input.heaps[j].table)
    + (set j | 0 <= j < |input.statistics| :: input.statistics[j].schema)
    + (set j | 0 <= j < |input.statistics| :: input.statistics[j].table)
    + (set j | 0 <= j < |input.statistics| :: input.statistics[j].statistic)
  }

  /** No two of them differ in case only. */
  predicate CaseDistinct(names: set<string>) {
    forall a, b | a in names && b in names :: Lower(a) == Lower(b) ==> a == b
  }

  lemma DotFreeHeapIsOwn(input: Input, schema: string, table: string)
    requires DotFreeNames(input) && DotFree(schema) && HeapRebuilt(input, Key(schema, table, ""))
    requires CaseDistinct(NamesOf(input)) && schema in NamesOf(input) && table in NamesOf(input)
    ensures OwnHeapRebuilt(input, schema, table)
  {
    var j :| 0 <= j < |input.heaps| && RebuildsTable(input.heaps[j], Key(schema, table, ""));
    SameTableKeySameTable(input.heaps[j].schema, input.heaps[j].table, schema, table);
    assert input.heaps[j].schema in NamesOf(input) && input.heaps[j].table in NamesOf(input);
    hide Key, NamesOf;
    assert IsHeapOf(input.heaps[j], schema, table);
  }

  /** Where, moreover, no two measured names differ in case only, every dropped index operation is covered by
      what stayed in the plan, and a dropped statistic is refreshed by it if and only if an index backs it.
      Table names may hold dots. */
  lemma PlainPlansDropOnlyTheRedundant(cat: Catalogue, input: Input, ds: seq<Decision>)
    requires IsPlan(input, ds) && DotFreeNames(input) && CaseDistinct(NamesOf(input)) && Lists(cat, input)
    ensures forall i | 0 <= i < |input.indexes| && ds[i].reason == HeapRebuildCoversIt ::
              Covered(ds, input.indexes[i].schema, input.indexes[i].table)
    ensures forall i | 0 <= i < |input.statistics|
              && ds[|input.indexes| + |input.heaps| + i].reason == BackingRebuildCoversIt ::
              Refreshed(cat, ds, input.statistics[i]) <==> Backed(cat, input.statistics[i])
  {
    forall i | 0 <= i < |input.indexes| && ds[i].reason == HeapRebuildCoversIt
      ensures Covered(ds, input.indexes[i].schema, input.indexes[i].table)
    {
      DroppedIndexIsCovered(input, ds, i);
      DotFreeHeapIsOwn(input, input.indexes[i].schema, input.indexes[i].table);
    }
    forall i | 0 <= i < |input.statistics| && ds[|input.indexes| + |input.heaps| + i].reason == BackingRebuildCoversIt
      ensures Refreshed(cat, ds, input.statistics[i]) <==> Backed(cat, input.statistics[i])
    {
      DroppedStatisticIsRefreshed(cat, input, ds, i);
      PlainStatisticIsOwn(cat, input, i);
      hide Key, Refreshed, Backed, NamesOf, OwnHeapRebuilt, OwnIndexRebuilt, HeapRebuilt, IndexRebuilt;
    }
  }

  lemma PlainStatisticIsOwn(cat: Catalogue, input: Input, i: nat)
    requires DotFreeNames(input) && CaseDistinct(NamesOf(input)) && Lists(cat, input) && i < |input.statistics|
    ensures var m := input.statistics[i];
      && (HeapRebuilt(input, Key(m.schema, m.table, "")) ==> OwnHeapRebuilt(input, m.schema, m.table))
      && (IndexRebuilt(input, Key(m.schema, m.table, m.statistic)) ==> OwnIndexRebuilt(input, m))
      && (OwnIndexRebuilt(input, m) ==> Backed(cat, m))
  {
    var m := input.statistics[i];
    assert m.schema in NamesOf(input) && m.table in NamesOf(input) && m.statistic in NamesOf(input);
    if HeapRebuilt(input, Key(m.schema, m.table, "")) {
      DotFreeHeapIsOwn(input, m.schema, m.table);
    }
    if IndexRebuilt(input, Key(m.schema, m.table, m.statistic)) {
      var j :| 0 <= j < |input.indexes| && RefreshesKey(input.indexes[j], Key(m.schema, m.table, m.statistic));
      var x := input.indexes[j];
      SameKeySameTable(x.schema, x.table, x.index, m.schema, m.table, m.statistic);
      SameTableKeySameTable(x.schema, x.table, m.schema, m.table);
      assert x.schema in NamesOf(input) && x.table in NamesOf(input) && x.index in NamesOf(input);
      hide Key, NamesOf;
      assert IsIndexOf(x, m);
    }
  }

  /** No redundant statistic either: one that stays in the plan is refreshed by nothing else in it. */
  lemma KeptStatisticIsNeeded(cat: Catalogue, input: Input, ds: seq<Decision>, i: nat)
    requires IsPlan(input, ds) && i < |input.statistics|
    requires ds[|input.indexes| + |input.heaps| + i].op.Some?
    ensures !Refreshed(cat, ds, input.statistics[i])
  {
    var m := input.statistics[i];
    DroppedStatisticIsRefreshed(cat, input, ds, i);
    OwnHasTheKey(input, m);
    hide Key, Refreshed, OwnHeapRebuilt, OwnIndexRebuilt, HeapRebuilt;
  }

  /** Nothing else is dropped: an index operation on a table that shares its key with no rebuilt heap, and
      every heap's decision, stand as the measurement wants them. */
  lemma WantedWorkStays(input: Input, ds: seq<Decision>, i: nat)
    requires IsPlan(input, ds) && i < |input.indexes| + |input.heaps|
    ensures i < |input.indexes| && ds[i] != OwnIndex(input.indexes[i]) ==>
      exists j :: 0 <= j < |ds| && SharesHeapKey(ds[j], input.indexes[i])
    ensures i >= |input.indexes| ==> ds[i] == OwnHeap(input.heaps[i - |input.indexes|])
  {
    hide Key;
    if i < |input.indexes| && ds[i] != OwnIndex(input.indexes[i]) {
      var m, n := input.indexes[i], |input.indexes|;
      var j :| 0 <= j < |input.heaps| && RebuildsTable(input.heaps[j], Key(m.schema, m.table, ""));
      assert ds[n + j] == OwnHeap(input.heaps[j]);
      assert SharesHeapKey(ds[n + j], m);
    }
  }

  predicate SharesHeapKey(d: Decision, m: IndexMeasurement) {
    d.op.Some? && d.op.value.RebuildHeap? && Key(d.op.value.schema, d.op.value.table, "") == Key(m.schema, m.table, "")
  }

  // --- what names can do -------------------------------------------------------------------------

  function Only(indexes: seq<IndexMeasurement>, heaps: seq<HeapMeasurement>, statistics: seq<StatMeasurement>): Input {
    Input(indexes, heaps, statistics, false, [], "")
  }

  /** A statistic dropped for the index of another table, whose rebuild stays in the plan: index [c.d] of
      [a].[b] shares its key with statistic [d] of [a].[b.c]. */
  lemma DroppedForAnotherIndex(cat: Catalogue, ds: seq<Decision>)
    requires IsPlan(Only([IndexMeasurement("a", "b", "c.d", None, Rebuild)], [],
                           [StatMeasurement("a", "b.c", "d", true)]), ds)
    ensures ds[0].op == Some(RebuildIndex("a", "b", "c.d", None))
    ensures ds[1].reason == BackingRebuildCoversIt && !Refreshed(cat, ds, StatMeasurement("a", "b.c", "d", true))
  {
    var x, m := IndexMeasurement("a", "b", "c.d", None, Rebuild), StatMeasurement("a", "b.c", "d", true);
    var input := Only([x], [], [m]);
    assert "a" + "." + "b" + "." + "c.d" == "a" + "." + "b.c" + "." + "d";
    assert RefreshesKey(input.indexes[0], Key("a", "b.c", "d"));
    assert "b" != "b.c" && input.statistics[0] == m;
    DroppedStatisticIsRefreshed(cat, input, ds, 0);
  }

  /** The same, for a rebuild that the plan has dropped as well, since the heap [a].[b] is rebuilt. */
  lemma DroppedForADroppedIndex(cat: Catalogue, ds: seq<Decision>)
    requires IsPlan(Only([IndexMeasurement("a", "b", "c.d", None, Rebuild)], [HeapMeasurement("a", "b", true)],
                           [StatMeasurement("a", "b.c", "d", true)]), ds)
    ensures ds[0].reason == HeapRebuildCoversIt && Covered(ds, "a", "b")
    ensures ds[2].reason == BackingRebuildCoversIt && !Refreshed(cat, ds, StatMeasurement("a", "b.c", "d", true))
  {
    var x, h, m := IndexMeasurement("a", "b", "c.d", None, Rebuild), HeapMeasurement("a", "b", true),
                   StatMeasurement("a", "b.c", "d", true);
    var input := Only([x], [h], [m]);
    assert "a" + "." + "b" + "." + "c.d" == "a" + "." + "b.c" + "." + "d";
    assert RefreshesKey(input.indexes[0], Key("a", "b.c", "d"));
    assert RebuildsTable(input.heaps[0], Key("a", "b", "")) && IsHeapOf(input.heaps[0], "a", "b");
    assert "b" != "b.c" && input.statistics[0] == m && input.indexes[0] == x;
    assert OwnHeapRebuilt(input, "a", "b") && IndexRebuilt(input, Key("a", "b.c", "d"));
    assert !OwnHeapRebuilt(input, "a", "b.c") && !OwnIndexRebuilt(input, m);
    hide Key, IsHeapOf, IsIndexOf, RefreshesKey, OwnHeapRebuilt, OwnIndexRebuilt, IndexRebuilt;
    DroppedIndexIsCovered(input, ds, 0);
    DroppedStatisticIsRefreshed(cat, input, ds, 0);
  }

  /** A dotted schema does it without any dot in an index or statistic name: heap [a.b].[c] shares its key
      with table [a].[b.c]. A statistic of that table is dropped though nothing of the table is rebuilt. */
  lemma StatisticDroppedForAnotherHeap(cat: Catalogue, ds: seq<Decision>)
    requires IsPlan(Only([], [HeapMeasurement("a.b", "c", true)], [StatMeasurement("a", "b.c", "d", true)]), ds)
    ensures ds[1].reason == BackingRebuildCoversIt && !Refreshed(cat, ds, StatMeasurement("a", "b.c", "d", true))
  {
    var h, m := HeapMeasurement("a.b", "c", true), StatMeasurement("a", "b.c", "d", true);
    var input := Only([], [h], [m]);
    assert "a.b" + "." + "c" + "." + "" == "a" + "." + "b.c" + "." + "";
    assert RebuildsTable(input.heaps[0], Key("a", "b.c", ""));
    assert "a" != "a.b" && input.statistics[0] == m;
    DroppedStatisticIsRefreshed(cat, input, ds, 0);
  }

  /** And an index operation of it is dropped for the other table's heap. */
  lemma IndexDroppedForAnotherHeap(ds: seq<Decision>, verdict: IndexVerdict)
    requires verdict != LeaveIndex
    requires IsPlan(Only([IndexMeasurement("a", "b.c", "d", None, verdict)], [HeapMeasurement("a.b", "c", true)], []), ds)
    ensures ds[0].reason == HeapRebuildCoversIt && !Covered(ds, "a", "b.c")
  {
    var x, h := IndexMeasurement("a", "b.c", "d", None, verdict), HeapMeasurement("a.b", "c", true);
    var input := Only([x], [h], []);
    assert "a.b" + "." + "c" + "." + "" == "a" + "." + "b.c" + "." + "";
    assert RebuildsTable(input.heaps[0], Key("a", "b.c", ""));
    assert "a" != "a.b" && input.indexes[0] == x;
    DroppedIndexIsCovered(input, ds, 0);
  }

  /** No dot is needed where names differ in case only: an index operation of table [t] is dropped for the
      heap of table [T]. */
  lemma IndexDroppedForACaseTwin(ds: seq<Decision>, verdict: IndexVerdict)
    requires verdict != LeaveIndex
    requires IsPlan(Only([IndexMeasurement("dbo", "t", "ix", None, verdict)], [HeapMeasurement("dbo", "T", true)], []), ds)
    ensures ds[0].reason == HeapRebuildCoversIt && !Covered(ds, "dbo", "t")
    ensures ds[1].op == Some(RebuildHeap("dbo", "T"))
  {
    var x, h := IndexMeasurement("dbo", "t", "ix", None, verdict), HeapMeasurement("dbo", "T", true);
    var input := Only([x], [h], []);
    assert Lower("dbo" + "." + "T" + "." + "") == Lower("dbo" + "." + "t" + "." + "");
    assert RebuildsTable(input.heaps[0], Key("dbo", "t", ""));
    assert "t" != "T" && input.indexes[0] == x;
    DroppedIndexIsCovered(input, ds, 0);
  }

  /** Nor any other name: a statistic that no index backs is dropped for the heap of its own table, whose
      rebuild refreshes only what its indexes back. */
  lemma UnbackedStatisticIsDropped(cat: Catalogue, ds: seq<Decision>, name: string)
    requires Named("dbo", "T", name) !in cat
    requires IsPlan(Only([], [HeapMeasurement("dbo", "T", true)], [StatMeasurement("dbo", "T", name, true)]), ds)
    ensures ds[1].reason == BackingRebuildCoversIt && !Refreshed(cat, ds, StatMeasurement("dbo", "T", name, true))
  {
    var h, m := HeapMeasurement("dbo", "T", true), StatMeasurement("dbo", "T", name, true);
    var input := Only([], [h], [m]);
    assert RebuildsTable(input.heaps[0], Key("dbo", "T", ""));
    assert input.statistics[0] == m;
    DroppedStatisticIsRefreshed(cat, input, ds, 0);
  }
}
