/** The batched UPDATE/DELETE operation, what validation guarantees about it, and the WHERE
    clauses its statements carry. */
module BatchStatements {
  import opened Options
  import opened SqlPredicates
  import opened Text

  datatype Verb = Update | Delete | OtherVerb

  /** One column of the SET list. */
  datatype Assign = Assign(col: Column, target: Value)

  datatype CondOp = Relational(op: CmpOp) | TestNull | TestNotNull | Unsupported

  datatype Condition = Condition(column: Column, op: CondOp, value: Option<Value>)

  /** `assigns` is the literal SET map listed in some column order (the statements sort it; every
      result below holds for any order). `setRaw` is any row function, `whereRaw` any predicate. */
  datatype BatchDML = BatchDML(
    verb: Verb,
    schema: string,
    table: string,
    assigns: seq<Assign>,
    setRaw: Option<Row -> Row>,
    wheres: seq<Condition>,
    whereRaw: Option<Row -> Truth>,
    knownStrategy: bool,
    keyRange: bool,
    key: Option<Column>,
    initialRows: Option<int>,
    confirmFullTable: bool)

  // --- validation -------------------------------------------------------------------------

  datatype Invalid =
    | MissingTarget | SetExactlyOne | DeleteTakesNoSet | UnknownVerb | BlankColumn
    | BothFilters | BadCondition | UnconfirmedWholeTable | RawCannotSelfLimit
    | KeyRangeOnlyUpdates | KeyRangeNeedsLiteralSet | UnknownStrategy | NonPositiveInitialRows

  /** A column, a supported operator, and a value exactly when the operator takes one. */
  predicate ValidCondition(c: Condition) {
    && !Blank(c.column)
    && match c.op
       case Unsupported => false
       case Relational(_) => c.value != None
       case _ => c.value == None
  }

  /** The first objection validation raises, or none. */
  function Validate(o: BatchDML): Option<Invalid> {
    var hasSet := o.assigns != [];
    var hasRaw := o.setRaw.Some?;
    var hasWhere := o.wheres != [];
    var hasWhereRaw := o.whereRaw.Some?;
    if Blank(o.schema) || Blank(o.table) then Some(MissingTarget)
    else if o.verb == Update && hasSet == hasRaw then Some(SetExactlyOne)
    else if o.verb == Delete && (hasSet || hasRaw) then Some(DeleteTakesNoSet)
    else if o.verb == OtherVerb then Some(UnknownVerb)
    else if exists a <- o.assigns :: Blank(a.col) then Some(BlankColumn)
    else if hasWhere && hasWhereRaw then Some(BothFilters)
    else if exists c <- o.wheres :: !ValidCondition(c) then Some(BadCondition)
    else if !hasWhere && !hasWhereRaw && !o.confirmFullTable then Some(UnconfirmedWholeTable)
    else if o.verb == Update && hasRaw && !hasWhere && !hasWhereRaw && !o.keyRange then Some(RawCannotSelfLimit)
    else if o.keyRange && o.verb != Update then Some(KeyRangeOnlyUpdates)
    else if o.keyRange && !hasSet then Some(KeyRangeNeedsLiteralSet)
    else if !o.knownStrategy then Some(UnknownStrategy)
    else if o.initialRows.Some? && o.initialRows.value <= 0 then Some(NonPositiveInitialRows)
    else None
  }

  /** The SET map has one entry a column: it comes from a map. */
  predicate DistinctColumns(assigns: seq<Assign>) {
    forall i, j | 0 <= i < j < |assigns| :: assigns[i].col != assigns[j].col
  }

  predicate Usable(o: BatchDML) {
    Validate(o) == None && DistinctColumns(o.assigns)
  }

  // --- the clauses ------------------------------------------------------------------------

  function RenderCondition(c: Condition): Pred
    requires ValidCondition(c)
  {
    match c.op
    case TestNull => IsNull(c.column)
    case TestNotNull => IsNotNull(c.column)
    case Relational(op) => Cmp(c.column, op, c.value.value)
  }

  function Rendered(cs: seq<Condition>): (parts: seq<Pred>)
    requires forall c <- cs :: ValidCondition(c)
    ensures |parts| == |cs|
    ensures forall i | 0 <= i < |cs| :: parts[i] == RenderCondition(cs[i])
  {
    seq(|cs|, i requires 0 <= i < |cs| => RenderCondition(cs[i]))
  }

  /** The operator's own filter: the raw one, else the conditions joined by AND. */
  function UserWhere(o: BatchDML): Option<Pred>
    requires Validate(o) == None
  {
    if o.whereRaw.Some? then Some(Raw(o.whereRaw.value))
    else JoinAnd(Rendered(o.wheres))
  }

  /** One column's share of the self-limiting clause. Against NULL no comparison is ever TRUE, so that
      target is tested for by itself. */
  function LimitPart(a: Assign): Pred {
    if a.target == Null then IsNotNull(a.col)
    else Or(IsNull(a.col), Cmp(a.col, Ne, a.target))
  }

  function LimitParts(assigns: seq<Assign>): (parts: seq<Pred>)
    ensures |parts| == |assigns|
    ensures forall i | 0 <= i < |assigns| :: parts[i] == LimitPart(assigns[i])
  {
    seq(|assigns|, i requires 0 <= i < |assigns| => LimitPart(assigns[i]))
  }

  function SelfLimit(assigns: seq<Assign>): Pred
    requires assigns != []
  {
    JoinOr(LimitParts(assigns)).value
  }

  predicate Literal(o: BatchDML) {
    o.verb == Update && o.setRaw == None && o.assigns != []
  }

  function SelfLimitClause(o: BatchDML): Option<Pred> {
    if Literal(o) then Some(SelfLimit(o.assigns)) else None
  }

  /** The clause is built column by column. */
  method BuildSelfLimit(o: BatchDML) returns (clause: Option<Pred>)
    ensures clause == SelfLimitClause(o)
  {
    if o.verb != Update || o.setRaw.Some? || o.assigns == [] {
      return None;
    }
    var parts: seq<Pred> := [];
    for i := 0 to |o.assigns|
      invariant |parts| == i
      invariant forall k | 0 <= k < i :: parts[k] == LimitPart(o.assigns[k])
    {
      parts := parts + [LimitPart(o.assigns[i])];
    }
    assert parts == LimitParts(o.assigns);
    clause := JoinOr(parts);
  }

  /** The effective WHERE of a predicate-strategy batch. */
  function PredicateWhere(o: BatchDML): Option<Pred>
    requires Validate(o) == None
  {
    var self, user := SelfLimitClause(o), UserWhere(o);
    if self.Some? && user.Some? then Some(And(self.value, user.value))
    else if self.Some? then self
    else user
  }

  function Bound(key: Column, op: CmpOp, at: Option<int>): seq<Pred> {
    if at == None then [] else [Cmp(key, op, Val(at.value))]
  }

  function Part(p: Option<Pred>): seq<Pred> {
    if p == None then [] else [p.value]
  }

  /** The WHERE of a key_range statement: both bounds, the self-limit and the filter. */
  function KeyRangeWhere(o: BatchDML, key: Column, watermark: Option<int>, upper: Option<int>): Option<Pred>
    requires Validate(o) == None
  {
    JoinAnd(Bound(key, Gt, watermark) + Bound(key, Le, upper) + Part(SelfLimitClause(o)) + Part(UserWhere(o)))
  }

  method BuildKeyRangeWhere(o: BatchDML, key: Column, watermark: Option<int>, upper: Option<int>)
    returns (where: Option<Pred>)
    requires Validate(o) == None
    ensures where == KeyRangeWhere(o, key, watermark, upper)
  {
    hide UserWhere, SelfLimitClause, JoinAnd, Validate;
    var parts: seq<Pred> := [];
    if watermark.Some? {
      parts := parts + [Cmp(key, Gt, Val(watermark.value))];
    }
    assert parts == Bound(key, Gt, watermark);
    if upper.Some? {
      parts := parts + [Cmp(key, Le, Val(upper.value))];
    }
    assert parts == Bound(key, Gt, watermark) + Bound(key, Le, upper);
    hide Bound;
    var self := BuildSelfLimit(o);
    if self.Some? {
      parts := parts + [self.value];
    }
    assert parts == Bound(key, Gt, watermark) + Bound(key, Le, upper) + Part(self);
    if UserWhere(o).Some? {
      parts := parts + [UserWhere(o).value];
    }
    assert parts == Bound(key, Gt, watermark) + Bound(key, Le, upper) + Part(self) + Part(UserWhere(o));
    where := JoinAnd(parts);
  }

  // --- what the clauses mean ----------------------------------------------------------------

  /** Some SET column does not hold its target; NULL counts as a value here. */
  predicate Differs(assigns: seq<Assign>, row: Row) {
    exists i :: 0 <= i < |assigns| && Get(row, assigns[i].col) != assigns[i].target
  }

  /** The row after the SET list was applied to it. */
  function ApplySet(assigns: seq<Assign>, row: Row): Row {
    if assigns == [] then row
    else ApplySet(assigns[1..], row)[assigns[0].col := assigns[0].target]
  }

  /** What the UPDATE does to a row it acts on. */
  function Change(o: BatchDML, row: Row): Row {
    if o.setRaw.Some? then o.setRaw.value(row) else ApplySet(o.assigns, row)
  }

  /** The self-limiting clause is two-valued, and TRUE exactly where a SET column differs. */
  lemma {:induction false} SelfLimitMeaning(assigns: seq<Assign>, row: Row)
    requires assigns != []
    ensures Eval(SelfLimit(assigns), row) == if Differs(assigns, row) then Yes else No
  {
    var parts, rest := LimitParts(assigns), assigns[1..];
    assert parts[1..] == LimitParts(rest);
    assert Eval(parts[0], row) == if Get(row, assigns[0].col) != assigns[0].target then Yes else No;
    assert forall i | 0 < i < |assigns| :: assigns[i] == rest[i - 1];
    assert forall i | 0 <= i < |rest| :: rest[i] == assigns[i + 1];
    if rest == [] {
      assert JoinOr(parts) == Some(parts[0]);
    } else {
      SelfLimitMeaning(rest, row);
    }
  }

  lemma {:induction false} ApplySetAt(assigns: seq<Assign>, row: Row, c: Column)
    requires DistinctColumns(assigns)
    ensures forall i | 0 <= i < |assigns| :: assigns[i].col == c ==> Get(ApplySet(assigns, row), c) == assigns[i].target
    ensures (forall i | 0 <= i < |assigns| :: assigns[i].col != c) ==> Get(ApplySet(assigns, row), c) == Get(row, c)
  {
    if assigns != [] {
      var rest := assigns[1..];
      assert forall i | 0 < i < |assigns| :: assigns[i] == rest[i - 1];
      assert forall i | 0 <= i < |rest| :: rest[i] == assigns[i + 1];
      ApplySetAt(rest, row, c);
    }
  }

  /** An updated row leaves the match set, whatever its filter column became. */
  lemma {:induction false} UpdatedRowIsSettled(assigns: seq<Assign>, row: Row)
    requires assigns != [] && DistinctColumns(assigns)
    ensures Eval(SelfLimit(assigns), ApplySet(assigns, row)) == No
    ensures !Differs(assigns, ApplySet(assigns, row))
  {
    forall i | 0 <= i < |assigns|
      ensures Get(ApplySet(assigns, row), assigns[i].col) == assigns[i].target
    {
      ApplySetAt(assigns, row, assigns[i].col);
    }
    SelfLimitMeaning(assigns, ApplySet(assigns, row));
  }

  /** The order the columns are listed in changes no row's verdict. */
  lemma SelfLimitIgnoresOrder(a: seq<Assign>, b: seq<Assign>, row: Row)
    requires a != [] && b != [] && (forall x :: x in a <==> x in b)
    ensures Eval(SelfLimit(a), row) == Eval(SelfLimit(b), row)
  {
    SelfLimitMeaning(a, row);
    SelfLimitMeaning(b, row);
    if Differs(a, row) {
      var i :| 0 <= i < |a| && Get(row, a[i].col) != a[i].target;
      assert a[i] in b;
    }
    if Differs(b, row) {
      var i :| 0 <= i < |b| && Get(row, b[i].col) != b[i].target;
      assert b[i] in a;
    }
  }

  /** The rows an operation still has to act on. */
  predicate Needs(o: BatchDML, row: Row)
    requires Validate(o) == None
  {
    (Literal(o) ==> Differs(o.assigns, row)) && Selects(UserWhere(o), row)
  }

  /** What a comparison says of two numbers. */
  predicate Holds(x: int, op: CmpOp, y: int) {
    match op
    case Eq => x == y
    case Ne => x != y
    case Lt => x < y
    case Le => x <= y
    case Gt => x > y
    case Ge => x >= y
  }

  /** A condition on a row, as the manifest means it: a column that is NULL meets no comparison, nor does any
      column a comparison with NULL. */
  predicate Meets(c: Condition, row: Row) {
    match c.op
    case TestNull => Get(row, c.column) == Null
    case TestNotNull => Get(row, c.column) != Null
    case Relational(op) =>
      Get(row, c.column) != Null && c.value.Some? && c.value.value != Null && Holds(Get(row, c.column).v, op, c.value.value.v)
    case Unsupported => false
  }

  lemma ConditionMeaning(c: Condition, row: Row)
    requires ValidCondition(c)
    ensures Eval(RenderCondition(c), row) == Yes <==> Meets(c, row)
  {
  }

  /** A declarative filter selects exactly the rows that meet every condition. */
  lemma FilterMeaning(o: BatchDML, row: Row)
    requires Validate(o) == None && o.whereRaw == None
    ensures Selects(UserWhere(o), row) <==> forall c <- o.wheres :: Meets(c, row)
  {
    UserWhereMeaning(o, row);
    forall c <- o.wheres
      ensures Eval(RenderCondition(c), row) == Yes <==> Meets(c, row)
    {
      ConditionMeaning(c, row);
    }
  }

  /** A declarative filter selects the rows on which every condition is TRUE. */
  lemma UserWhereMeaning(o: BatchDML, row: Row)
    requires Validate(o) == None && o.whereRaw == None
    ensures Selects(UserWhere(o), row) <==> forall c <- o.wheres :: Eval(RenderCondition(c), row) == Yes
  {
    var parts := Rendered(o.wheres);
    JoinAndSelects(parts, row);
    if forall i | 0 <= i < |parts| :: Eval(parts[i], row) == Yes {
      forall c <- o.wheres
        ensures Eval(RenderCondition(c), row) == Yes
      {
        var i :| 0 <= i < |o.wheres| && o.wheres[i] == c;
        assert parts[i] == RenderCondition(c);
      }
    }
  }

  /** A predicate batch acts on exactly the rows that need it: the filter is TRUE there (never
      UNKNOWN) and, for a literal update, some SET column differs. */
  lemma PredicateWhereMeaning(o: BatchDML, row: Row)
    requires Validate(o) == None
    ensures Selects(PredicateWhere(o), row) <==> Needs(o, row)
  {
    if Literal(o) {
      SelfLimitMeaning(o.assigns, row);
    }
  }

  predicate InRange(k: int, watermark: Option<int>, upper: Option<int>) {
    (watermark.Some? ==> watermark.value < k) && (upper.Some? ==> k <= upper.value)
  }

  /** A key_range statement acts on exactly the rows in (watermark, upper] that need it. */
  lemma KeyRangeWhereMeaning(o: BatchDML, key: Column, watermark: Option<int>, upper: Option<int>, row: Row, k: int)
    requires Validate(o) == None && Get(row, key) == Val(k)
    ensures Selects(KeyRangeWhere(o, key, watermark, upper), row) <==> InRange(k, watermark, upper) && Needs(o, row)
  {
    var lo, hi, self, user :=
      Bound(key, Gt, watermark), Bound(key, Le, upper), Part(SelfLimitClause(o)), Part(UserWhere(o));
    JoinAndSelects(lo + hi + self + user, row);
    if Literal(o) {
      SelfLimitMeaning(o.assigns, row);
    }
    AllYesFour(lo, hi, self, user, row);
    AllYesBound(key, Gt, watermark, row);
    AllYesBound(key, Le, upper, row);
    AllYesPart(SelfLimitClause(o), row);
    AllYesPart(UserWhere(o), row);
    assert Selects(KeyRangeWhere(o, key, watermark, upper), row) <==> AllYes(lo + hi + self + user, row);
    hide JoinAnd, AllYes, UserWhere, Validate, Bound, Part, Differs, SelfLimit, KeyRangeWhere;
  }

  lemma AllYesFour(a: seq<Pred>, b: seq<Pred>, c: seq<Pred>, d: seq<Pred>, row: Row)
    ensures AllYes(a + b + c + d, row) <==> AllYes(a, row) && AllYes(b, row) && AllYes(c, row) && AllYes(d, row)
  {
    hide AllYes;
    AllYesConcat(a + b + c, d, row);
    AllYesConcat(a + b, c, row);
    AllYesConcat(a, b, row);
  }

  lemma AllYesPart(p: Option<Pred>, row: Row)
    ensures AllYes(Part(p), row) <==> Selects(p, row)
  {
    if p.Some? {
      assert Part(p)[0] == p.value;
    }
  }

  lemma AllYesBound(key: Column, op: CmpOp, at: Option<int>, row: Row)
    ensures AllYes(Bound(key, op, at), row) <==> (at.Some? ==> Compare(Get(row, key), op, Val(at.value)) == Yes)
  {
    if at.Some? {
      assert Bound(key, op, at)[0] == Cmp(key, op, Val(at.value));
    }
  }

  predicate AllYes(parts: seq<Pred>, row: Row) {
    forall i | 0 <= i < |parts| :: Eval(parts[i], row) == Yes
  }

  lemma AllYesConcat(a: seq<Pred>, b: seq<Pred>, row: Row)
    ensures AllYes(a + b, row) <==> AllYes(a, row) && AllYes(b, row)
  {
    assert forall i | 0 <= i < |a| :: a[i] == (a + b)[i];
    assert forall i | 0 <= i < |b| :: b[i] == (a + b)[|a| + i];
  }

  /** Validation accepts exactly these operations: an UPDATE with one of the two SETs or a DELETE with none, at most
      one kind of filter and one unless the whole table was confirmed, a raw SET only with a filter, a walk by
      key only for a literal UPDATE, and every name and number in order. */
  lemma AcceptedWhen(o: BatchDML)
    ensures Validate(o) == None <==>
              && !Blank(o.schema) && !Blank(o.table) && (forall a <- o.assigns :: !Blank(a.col))
              && (forall c <- o.wheres :: ValidCondition(c))
              && (|| (o.verb == Update && (o.assigns != [] <==> o.setRaw == None))
                  || (o.verb == Delete && o.assigns == [] && o.setRaw == None))
              && (o.wheres == [] || o.whereRaw == None)
              && (o.wheres != [] || o.whereRaw.Some? || (o.confirmFullTable && o.setRaw == None))
              && (o.keyRange ==> o.verb == Update && o.setRaw == None)
              && o.knownStrategy && (o.initialRows.Some? ==> 0 < o.initialRows.value)
  {
    hide Blank, ValidCondition;
  }

  /** What a validated operation guarantees: a key_range walk always carries the self-limit, and a
      statement goes out without a WHERE exactly for a DELETE whose missing filter was confirmed. */
  lemma ValidatedOperation(o: BatchDML)
    requires Validate(o) == None
    ensures o.keyRange ==> Literal(o)
    ensures PredicateWhere(o) == None <==> o.verb == Delete && o.wheres == [] && o.whereRaw == None
    ensures PredicateWhere(o) == None ==> o.confirmFullTable
    ensures o.setRaw.Some? ==> UserWhere(o).Some?
  {
  }

  /** Why the NULL form exists: with the generic form a NULL target keeps every row it has just
      written in the match set, so the loop would never end. */
  lemma GenericFormNeverSettlesNull(c: Column, row: Row)
    ensures Eval(Or(IsNull(c), Cmp(c, Ne, Null)), ApplySet([Assign(c, Null)], row)) == Yes
  {
    assert ApplySet([Assign(c, Null)], row) == row[c := Null];
  }
}
