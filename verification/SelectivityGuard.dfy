/** The whole-table guard: two probes of the rows an operation would leave alone, and the verdict. */
module SelectivityGuard {
  import opened Options
  import opened SqlPredicates
  import opened BatchStatements
  import opened Tables

  /** CASE WHEN (p) THEN 1 ELSE 0 END: UNKNOWN falls into the ELSE branch. */
  function CaseWhen(p: Pred, row: Row): int {
    if Eval(p, row) == Yes then 1 else 0
  }

  function SparedRows(db: Table, p: Pred): set<int> {
    set k | k in db && CaseWhen(p, db[k]) == 0
  }

  /** The COUNT over the TOP (limit) spared rows. */
  function Probe(db: Table, p: Pred, limit: nat): nat {
    MinInt(limit, |SparedRows(db, p)|)
  }

  datatype Severity = Pass | Warn | Fail

  function Selectivity(filterSpared: nat, opSpared: nat, limit: nat): Severity {
    if filterSpared == 0 && opSpared == 0 then Fail
    else if filterSpared == 0 then Warn
    else if filterSpared < limit then Warn
    else Pass
  }

  /** What the second probe is run on: a key_range operation is credited with its filter only. */
  function UntouchedWhere(o: BatchDML): Option<Pred>
    requires Validate(o) == None
  {
    if o.keyRange then UserWhere(o) else PredicateWhere(o)
  }

  /** The verdict with both probes always run; none when the operation was confirmed or has no
      filter to probe. */
  function BothProbes(o: BatchDML, db: Table, limit: nat): Option<Severity>
    requires Validate(o) == None
  {
    if o.confirmFullTable || UserWhere(o) == None then None
    else Some(Selectivity(Probe(db, UserWhere(o).value, limit), Probe(db, UntouchedWhere(o).value, limit), limit))
  }

  /** The check as it is run: the second probe is skipped when the first spared a row, and when the
      two statements are the same one. It gives the verdict of running both. */
  method CheckSelectivity(o: BatchDML, db: Table, limit: nat) returns (verdict: Option<Severity>)
    requires Validate(o) == None && limit > 0
    ensures verdict == BothProbes(o, db, limit)
  {
    verdict := None;
    if !o.confirmFullTable && UserWhere(o).Some? {
      var filterSpared := Probe(db, UserWhere(o).value, limit);
      var opSpared := filterSpared;
      if filterSpared == 0 {
        if !o.keyRange && SelfLimitClause(o).Some? {
          opSpared := Probe(db, UntouchedWhere(o).value, limit);
        }
      }
      verdict := Some(Selectivity(filterSpared, opSpared, limit));
    }
  }

  /** There is a verdict exactly for an operation with a filter that was not confirmed for the whole table,
      whether it is walked by key or not. */
  lemma GuardApplies(o: BatchDML, db: Table, limit: nat)
    requires Validate(o) == None
    ensures BothProbes(o, db, limit).Some? <==> !o.confirmFullTable && (o.whereRaw.Some? || o.wheres != [])
  {
    assert |Rendered(o.wheres)| == |o.wheres|;
    hide Probe;
  }

  /** The probe counts exactly the rows its predicate does not select, UNKNOWN ones among them. */
  lemma ProbeCountsSurvivors(db: Table, p: Pred, limit: nat)
    ensures Probe(db, p, limit) == MinInt(limit, |db.Keys - Matching(db, Some(p))|)
    ensures forall k <- db :: Eval(p, db[k]) == Unknown ==> k in SparedRows(db, p)
  {
    forall k
      ensures k in SparedRows(db, p) <==> k in db.Keys - Matching(db, Some(p))
    {
    }
    assert SparedRows(db, p) == db.Keys - Matching(db, Some(p));
  }

  function RefusedRows(db: Table, p: Pred): set<int> {
    set k | k in db && Eval(p, db[k]) == No
  }

  /** A plain NOT (p) counts the same rows if and only if p is UNKNOWN on none of them. */
  lemma PlainNotUndercounts(db: Table, p: Pred)
    ensures |RefusedRows(db, p)| == |SparedRows(db, p)| <==> forall k <- db :: Eval(p, db[k]) != Unknown
  {
    var refused, spared := RefusedRows(db, p), SparedRows(db, p);
    forall k | k in db
      ensures k in spared - refused <==> Eval(p, db[k]) == Unknown
    {
    }
    forall k <- refused
      ensures k in spared
    {
      assert CaseWhen(p, db[k]) == 0;
    }
    assert spared - refused <= db.Keys;
    assert spared == refused + (spared - refused);
    SomeElement(spared - refused);
  }

  /** The operation spares at least the rows its filter spares. */
  lemma OperationSparesMore(o: BatchDML, db: Table, limit: nat)
    requires Validate(o) == None && UserWhere(o).Some?
    ensures UntouchedWhere(o).Some?
    ensures Probe(db, UserWhere(o).value, limit) <= Probe(db, UntouchedWhere(o).value, limit)
  {
    var user, op := SparedRows(db, UserWhere(o).value), SparedRows(db, UntouchedWhere(o).value);
    forall k <- user
      ensures k in op
    {
      PredicateWhereMeaning(o, db[k]);
    }
    assert op == user + (op - user);
  }

  /** What the verdict says about the table. It passes exactly when the filter alone leaves `limit`
      rows, so a filter that spares no row is never passed, whatever rows already hold the target;
      it fails exactly when the operation's first full pass would act on every row. */
  lemma VerdictMeaning(o: BatchDML, db: Table, limit: nat)
    requires Validate(o) == None && limit > 0 && BothProbes(o, db, limit).Some?
    ensures BothProbes(o, db, limit) == Some(Pass) <==> limit <= |db.Keys - Matching(db, UserWhere(o))|
    ensures Matching(db, UserWhere(o)) == db.Keys ==> BothProbes(o, db, limit) != Some(Pass)
    ensures BothProbes(o, db, limit) == Some(Fail) <==>
              (if o.keyRange then Matching(db, UserWhere(o)) else Pending(db, o)) == db.Keys
  {
    hide Probe, Needs, Pending;
    var user, op := UserWhere(o).value, UntouchedWhere(o).value;
    ProbeCountsSurvivors(db, user, limit);
    ProbeCountsSurvivors(db, op, limit);
    OperationSparesMore(o, db, limit);
    NoneSpared(db, user);
    NoneSpared(db, op);
    UntouchedMeaning(o, db);
  }

  lemma UntouchedMeaning(o: BatchDML, db: Table)
    requires Validate(o) == None
    ensures Matching(db, UntouchedWhere(o)) == if o.keyRange then Matching(db, UserWhere(o)) else Pending(db, o)
  {
    if !o.keyRange {
      forall k | k in db
        ensures k in Matching(db, UntouchedWhere(o)) <==> k in Pending(db, o)
      {
        PredicateWhereMeaning(o, db[k]);
      }
    }
  }

  lemma NoneSpared(db: Table, p: Pred)
    ensures |db.Keys - Matching(db, Some(p))| == 0 <==> Matching(db, Some(p)) == db.Keys
  {
    if |db.Keys - Matching(db, Some(p))| == 0 {
      assert db.Keys - Matching(db, Some(p)) == {};
      assert forall k | k in db.Keys :: k in Matching(db, Some(p));
    }
  }
}
