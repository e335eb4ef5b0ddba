/** The predicates the batched-DML statements are built from, evaluated the way SQL evaluates
    them: in three-valued logic (boolean value expression, section 6.34 of ISO/IEC 9075-2:2003).
    Statements are abstract syntax here, never text. */
module SqlPredicates {
  import opened Options

  datatype Truth = Yes | No | Unknown

  function And3(a: Truth, b: Truth): Truth {
    if a == No || b == No then No else if a == Yes && b == Yes then Yes else Unknown
  }

  function Or3(a: Truth, b: Truth): Truth {
    if a == Yes || b == Yes then Yes else if a == No && b == No then No else Unknown
  }

  type Column = string

  /** A column value. The integers stand for whatever ordered domain the column has. */
  datatype Value = Null | Val(v: int)

  type Row = map<Column, Value>

  function Get(row: Row, c: Column): Value {
    if c in row then row[c] else Null
  }

  datatype CmpOp = Eq | Ne | Lt | Le | Gt | Ge

  /** A comparison with NULL on either side is UNKNOWN. */
  function Compare(a: Value, op: CmpOp, b: Value): Truth {
    match (a, b)
    case (Val(x), Val(y)) =>
      var holds := match op
        case Eq => x == y
        case Ne => x != y
        case Lt => x < y
        case Le => x <= y
        case Gt => x > y
        case Ge => x >= y;
      if holds then Yes else No
    case _ => Unknown
  }

  /** UNKNOWN comes of NULL and of nothing else. */
  lemma OnlyNullIsUnknown(a: Value, op: CmpOp, b: Value)
    ensures Compare(a, op, b) == Unknown <==> a == Null || b == Null
  {
  }

  datatype Pred =
    | IsNull(c: Column)
    | IsNotNull(c: Column)
    | Cmp(c: Column, op: CmpOp, v: Value)
    | And(l: Pred, r: Pred)
    | Or(l: Pred, r: Pred)
    | Raw(f: Row -> Truth)   // where_raw: any predicate whatever

  function Eval(p: Pred, row: Row): Truth {
    match p
    case IsNull(c) => if Get(row, c) == Null then Yes else No
    case IsNotNull(c) => if Get(row, c) == Null then No else Yes
    case Cmp(c, op, v) => Compare(Get(row, c), op, v)
    case And(l, r) => And3(Eval(l, row), Eval(r, row))
    case Or(l, r) => Or3(Eval(l, row), Eval(r, row))
    case Raw(f) => f(row)
  }

  /** Whether a statement with this WHERE acts on the row: only TRUE does, and an absent WHERE
      acts on every row. */
  predicate Selects(where: Option<Pred>, row: Row) {
    where == None || Eval(where.value, row) == Yes
  }

  /** Joining parts with AND; no part at all is no WHERE. */
  function JoinAnd(parts: seq<Pred>): (where: Option<Pred>)
    ensures where == None <==> parts == []
  {
    if parts == [] then None
    else match JoinAnd(parts[1..])
      case None => Some(parts[0])
      case Some(rest) => Some(And(parts[0], rest))
  }

  function JoinOr(parts: seq<Pred>): (where: Option<Pred>)
    ensures where == None <==> parts == []
  {
    if parts == [] then None
    else match JoinOr(parts[1..])
      case None => Some(parts[0])
      case Some(rest) => Some(Or(parts[0], rest))
  }

  /** An AND-join selects exactly the rows every part selects. */
  lemma {:induction false} JoinAndSelects(parts: seq<Pred>, row: Row)
    ensures Selects(JoinAnd(parts), row) <==> forall i | 0 <= i < |parts| :: Eval(parts[i], row) == Yes
  {
    if parts != [] {
      var rest := parts[1..];
      JoinAndSelects(rest, row);
      assert forall i | 0 < i < |parts| :: parts[i] == rest[i - 1];
      assert forall i | 0 <= i < |rest| :: rest[i] == parts[i + 1];
    }
  }
}
