/** Quoted identifiers and literals, the lexer that reads them back, and the resumable control statements
    built from them. */
module Quoting {
  import opened Options

  /** Every occurrence of the closing delimiter doubled. */
  function Doubled(s: string, close: char): string {
    if s == "" then ""
    else (if s[0] == close then [close, close] else [s[0]]) + Doubled(s[1..], close)
  }

  function QuoteIdent(s: string): string {
    "[" + Doubled(s, ']') + "]"
  }

  function Qualified(schema: string, table: string): string {
    QuoteIdent(schema) + "." + QuoteIdent(table)
  }

  function NLiteral(s: string): string {
    "N'" + Doubled(s, '\'') + "'"
  }

  function ObjectLiteral(schema: string, table: string): string {
    NLiteral(Qualified(schema, table))
  }

  // --- the lexer ------------------------------------------------------------------------------

  /** Reads up to the closing delimiter, a doubled one standing for itself: what was quoted, and the text
      after it. None when the delimiter never comes. */
  function ReadBody(t: string, close: char): Option<(string, string)> {
    if t == "" then None
    else if t[0] != close then Cons(t[0], ReadBody(t[1..], close))
    else if |t| > 1 && t[1] == close then Cons(close, ReadBody(t[2..], close))
    else Some(("", t[1..]))
  }

  function Cons(c: char, read: Option<(string, string)>): Option<(string, string)> {
    match read
    case None => None
    case Some((body, rest)) => Some(([c] + body, rest))
  }

  /** What follows `mark` when the text begins with it. */
  function After(mark: string, t: string): Option<string> {
    if |mark| <= |t| && t[..|mark|] == mark then Some(t[|mark|..]) else None
  }

  function ReadIdent(t: string): Option<(string, string)> {
    match After("[", t)
    case None => None
    case Some(body) => ReadBody(body, ']')
  }

  function ReadLiteral(t: string): Option<(string, string)> {
    match After("N'", t)
    case None => None
    case Some(body) => ReadBody(body, '\'')
  }

  /** A schema-qualified name and the text after it. */
  function ReadQualified(t: string): Option<(string, string, string)> {
    match ReadIdent(t)
    case None => None
    case Some((schema, more)) =>
      match After(".", more)
      case None => None
      case Some(second) =>
        match ReadIdent(second)
        case None => None
        case Some((table, rest)) => Some((schema, table, rest))
  }

  /** The text does not continue a delimiter that has just closed. */
  predicate Settled(rest: string, close: char) {
    rest == "" || rest[0] != close
  }

  lemma AfterPrefix(mark: string, t: string)
    ensures After(mark, mark + t) == Some(t)
  {
    assert (mark + t)[..|mark|] == mark && (mark + t)[|mark|..] == t;
  }

  /** The lexer on a doubled body: what was quoted, then whatever reading on from the delimiter gives. */
  lemma {:induction false} ReadDoubled(s: string, close: char, rest: string)
    ensures Settled(rest, close) ==> ReadBody(Doubled(s, close) + [close] + rest, close) == Some((s, rest))
    ensures !Settled(rest, close) ==>
              match ReadBody(Doubled(s, close) + [close] + rest, close)
              case None => true
              case Some((body, _)) => |body| > |s|
  {
    var t := Doubled(s, close) + [close] + rest;
    if s == "" {
      assert t == [close] + rest;
      assert t[1..] == rest;
    } else {
      ReadDoubled(s[1..], close, rest);
      var t' := Doubled(s[1..], close) + [close] + rest;
      if s[0] == close {
        assert t == [close, close] + t' && t[2..] == t';
      } else {
        assert t == [s[0]] + t' && t[1..] == t';
      }
      assert s == [s[0]] + s[1..];
    }
  }

  /** An identifier is read back whole, and the text after it untouched, exactly when that text does not
      begin with another closing bracket. */
  lemma IdentReadsBack(s: string, rest: string)
    ensures ReadIdent(QuoteIdent(s) + rest) == Some((s, rest)) <==> Settled(rest, ']')
  {
    var body := Doubled(s, ']') + [']'] + rest;
    assert QuoteIdent(s) + rest == "[" + body;
    AfterPrefix("[", body);
    ReadDoubled(s, ']', rest);
  }

  lemma LiteralReadsBack(s: string, rest: string)
    ensures ReadLiteral(NLiteral(s) + rest) == Some((s, rest)) <==> Settled(rest, '\'')
  {
    var body := Doubled(s, '\'') + ['\''] + rest;
    assert NLiteral(s) + rest == "N'" + body;
    AfterPrefix("N'", body);
    ReadDoubled(s, '\'', rest);
  }

  lemma QualifiedReadsBack(schema: string, table: string, rest: string)
    ensures Settled(rest, ']') ==> ReadQualified(Qualified(schema, table) + rest) == Some((schema, table, rest))
  {
    if Settled(rest, ']') {
      var second := QuoteIdent(table) + rest;
      assert Qualified(schema, table) + rest == QuoteIdent(schema) + ("." + second);
      IdentReadsBack(schema, "." + second);
      AfterPrefix(".", second);
      IdentReadsBack(table, rest);
    }
  }

  /** A name inside a literal is decoded in two passes: the literal's text is the qualified name, and that
      text is read back as schema and table. */
  lemma ObjectLiteralReadsBack(schema: string, table: string, rest: string)
    requires Settled(rest, '\'')
    ensures match ReadLiteral(ObjectLiteral(schema, table) + rest)
      case None => false
      case Some((name, after)) => after == rest && ReadQualified(name) == Some((schema, table, ""))
  {
    LiteralReadsBack(Qualified(schema, table), rest);
    QualifiedReadsBack(schema, table, "");
    assert Qualified(schema, table) + "" == Qualified(schema, table);
  }

  // --- control statements ---------------------------------------------------------------------

  /** Only the index operations can be paused and resumed. */
  datatype Operation =
    | RebuildIndex(schema: string, table: string, index: string, partition: Option<int>)
    | CreateIndex(schema: string, table: string, index: string)
    | Unsupported(command: string)

  datatype Target = Target(schema: string, table: string, index: string)

  function ResumableTarget(op: Operation): Option<Target> {
    match op
    case RebuildIndex(schema, table, index, _) => Some(Target(schema, table, index))
    case CreateIndex(schema, table, index) => Some(Target(schema, table, index))
    case Unsupported(_) => None
  }

  /** Rebuilds of an index and creations of one can be paused and resumed, each by its own schema, table and index,
      whatever the partition; nothing else can. */
  lemma ResumableOnes(op: Operation, schema: string, table: string, index: string)
    ensures ResumableTarget(op) == Some(Target(schema, table, index)) <==>
              op == CreateIndex(schema, table, index) || exists p :: op == RebuildIndex(schema, table, index, p)
  {
    if op.RebuildIndex? {
      assert op == RebuildIndex(op.schema, op.table, op.index, op.partition);
    }
  }

  function ControlText(target: Target, action: string): string {
    "ALTER INDEX " + QuoteIdent(target.index) + " ON " + Qualified(target.schema, target.table) + " " + action + ";"
  }

  function ResumableControlSQL(op: Operation, action: string): Option<string> {
    match ResumableTarget(op)
    case None => None
    case Some(target) => Some(ControlText(target, action))
  }

  /** The low-priority lock options an operation was started with. */
  datatype ResolvedOptions = ResolvedOptions(waitAtLowPriority: bool, maxDurationMinutes: int, abortAfterWait: string)

  function Digits(n: nat): string {
    if n < 10 then [(n + '0' as int) as char] else Digits(n / 10) + [(n % 10 + '0' as int) as char]
  }

  function Decimal(n: int): string {
    if n < 0 then "-" + Digits(-n) else Digits(n)
  }

  function ResumeAction(res: ResolvedOptions): string {
    if !res.waitAtLowPriority then "RESUME"
    else
      "RESUME" + (" WITH (WAIT_AT_LOW_PRIORITY (MAX_DURATION = "
                  + (Decimal(res.maxDurationMinutes) + " " + ("MINUTES, ABORT_AFTER_WAIT = " + (res.abortAfterWait + "))"))))
  }

  function ResumeSQL(op: Operation, res: ResolvedOptions): Option<string> {
    match ResumableTarget(op)
    case None => None
    case Some(target) => Some(ControlText(target, ResumeAction(res)))
  }

  /** Reads a control statement: its target and the action's text. */
  function ReadControl(t: string): Option<(Target, string)> {
    match After("ALTER INDEX ", t)
    case None => None
    case Some(t1) =>
      match ReadIdent(t1)
      case None => None
      case Some((index, t2)) =>
        match After(" ON ", t2)
        case None => None
        case Some(t3) =>
          match ReadQualified(t3)
          case None => None
          case Some((schema, table, t4)) =>
            match After(" ", t4)
            case None => None
            case Some(t5) =>
              if t5 != "" && t5[|t5| - 1] == ';' then Some((Target(schema, table, index), t5[..|t5| - 1])) else None
  }

  /** The pieces of a control statement, in the order a reader meets them. */
  lemma ControlParts(target: Target, action: string)
    ensures ControlText(target, action)
         == "ALTER INDEX " + (QuoteIdent(target.index)
                              + (" ON " + (Qualified(target.schema, target.table) + (" " + (action + ";")))))
  {
    hide QuoteIdent, Qualified;
  }

  /** A control statement names exactly the target it was written for, whatever characters its names
      hold, and carries its action unchanged. */
  lemma ControlReadsBack(target: Target, action: string)
    ensures ReadControl(ControlText(target, action)) == Some((target, action))
  {
    var t5 := action + ";";
    var t4 := " " + t5;
    var t3 := Qualified(target.schema, target.table) + t4;
    var t2 := " ON " + t3;
    var t1 := QuoteIdent(target.index) + t2;
    ControlParts(target, action);
    AfterPrefix("ALTER INDEX ", t1);
    IdentReadsBack(target.index, t2);
    AfterPrefix(" ON ", t3);
    QualifiedReadsBack(target.schema, target.table, t4);
    AfterPrefix(" ", t5);
    assert t5[..|t5| - 1] == action;
    hide After, ControlText, Qualified, QuoteIdent, ReadIdent, ReadQualified;
  }

  /** Two operations with the same control statement control the same index of the same table. */
  lemma ControlIsInjective(a: Operation, b: Operation, action: string, action': string)
    requires ResumableControlSQL(a, action).Some? && ResumableControlSQL(a, action) == ResumableControlSQL(b, action')
    ensures ResumableTarget(a) == ResumableTarget(b) && action == action'
  {
    ControlReadsBack(ResumableTarget(a).value, action);
    ControlReadsBack(ResumableTarget(b).value, action');
  }

  /** The same of RESUME statements, whatever lock options either carries; and a RESUME without the
      options is the plain control statement. */
  lemma ResumeIsInjective(a: Operation, b: Operation, resA: ResolvedOptions, resB: ResolvedOptions)
    requires ResumeSQL(a, resA).Some? && ResumeSQL(a, resA) == ResumeSQL(b, resB)
    ensures ResumableTarget(a) == ResumableTarget(b) && ResumeAction(resA) == ResumeAction(resB)
    ensures !resA.waitAtLowPriority ==> ResumeSQL(a, resA) == ResumableControlSQL(a, "RESUME")
    ensures resA.waitAtLowPriority == resB.waitAtLowPriority
    ensures resA.waitAtLowPriority ==> resA == resB
  {
    ControlReadsBack(ResumableTarget(a).value, ResumeAction(resA));
    ControlReadsBack(ResumableTarget(b).value, ResumeAction(resB));
    assert !resA.waitAtLowPriority ==> |ResumeAction(resA)| == 6;
    assert !resB.waitAtLowPriority ==> |ResumeAction(resB)| == 6;
    assert resA.waitAtLowPriority ==> |ResumeAction(resA)| > 6;
    assert resB.waitAtLowPriority ==> |ResumeAction(resB)| > 6;
    hide ResumeAction, ControlText, ReadControl;
    if resA.waitAtLowPriority {
      ResumeKeepsOptions(resA, resB);
    }
  }

  /** The number a run of digits stands for. */
  function Value(s: string): int {
    if s == "" then 0 else Value(s[..|s| - 1]) * 10 + (s[|s| - 1] as int - '0' as int)
  }

  lemma {:induction false} DigitsReadBack(n: nat)
    ensures Value(Digits(n)) == n && Digits(n) != ""
    ensures forall i | 0 <= i < |Digits(n)| :: '0' <= Digits(n)[i] <= '9'
  {
    if n >= 10 {
      DigitsReadBack(n / 10);
      assert Digits(n)[..|Digits(n)| - 1] == Digits(n / 10);
    }
  }

  /** A decimal has no space in it, and it is read back. */
  lemma DecimalReadsBack(n: int)
    ensures forall i | 0 <= i < |Decimal(n)| :: Decimal(n)[i] != ' '
    ensures Decimal(n) != "" && (n < 0 <==> Decimal(n)[0] == '-')
    ensures n == if n < 0 then -Value(Decimal(n)[1..]) else Value(Decimal(n))
  {
    DigitsReadBack(if n < 0 then -n else n);
    assert n < 0 ==> Decimal(n)[1..] == Digits(-n);
  }

  /** A number as it is written, up to the first space, and the text after that. */
  function ReadNumber(t: string): Option<(int, string)> {
    var n := BeforeSpace(t);
    if n == |t| || n == 0 then None
    else Some((if t[0] == '-' then -Value(t[1..n]) else Value(t[..n]), t[n + 1..]))
  }

  function BeforeSpace(t: string): (n: nat)
    ensures n <= |t| && (forall i | 0 <= i < n :: t[i] != ' ') && (n < |t| ==> t[n] == ' ')
  {
    if t == "" || t[0] == ' ' then 0 else 1 + BeforeSpace(t[1..])
  }

  /** Reads a RESUME's action: whether it waits at low priority, and then for how long and what after. */
  function ReadResume(t: string): Option<Option<(int, string)>> {
    match After("RESUME", t)
    case None => None
    case Some(t1) =>
      if t1 == "" then Some(None)
      else
        match After(" WITH (WAIT_AT_LOW_PRIORITY (MAX_DURATION = ", t1)
        case None => None
        case Some(t2) =>
          match ReadNumber(t2)
          case None => None
          case Some((minutes, t3)) =>
            match After("MINUTES, ABORT_AFTER_WAIT = ", t3)
            case None => None
            case Some(t4) =>
              if |t4| >= 2 && t4[|t4| - 2..] == "))" then Some(Some((minutes, t4[..|t4| - 2]))) else None
  }

  lemma NumberReadsBack(n: int, rest: string)
    ensures ReadNumber(Decimal(n) + " " + rest) == Some((n, rest))
  {
    DecimalReadsBack(n);
    hide Decimal, Value;
    var d := Decimal(n);
    var t := d + " " + rest;
    assert t[|d|] == ' ' && forall i | 0 <= i < |d| :: t[i] == d[i];
    assert BeforeSpace(t) == |d|;
    assert t[..|d|] == d && t[1..|d|] == d[1..] && t[|d| + 1..] == rest;
  }

  /** The action is a RESUME, and its lock options read back: the plain one where there are none. */
  lemma ResumeReadsBack(res: ResolvedOptions)
    ensures ReadResume(ResumeAction(res)) ==
            Some(if res.waitAtLowPriority then Some((res.maxDurationMinutes, res.abortAfterWait)) else None)
  {
    if res.waitAtLowPriority {
      var t4 := res.abortAfterWait + "))";
      var t3 := "MINUTES, ABORT_AFTER_WAIT = " + t4;
      var t2 := Decimal(res.maxDurationMinutes) + " " + t3;
      var t1 := " WITH (WAIT_AT_LOW_PRIORITY (MAX_DURATION = " + t2;
      assert ResumeAction(res) == "RESUME" + t1;
      hide Decimal, ReadNumber, After, ResumeAction;
      AfterPrefix("RESUME", t1);
      AfterPrefix(" WITH (WAIT_AT_LOW_PRIORITY (MAX_DURATION = ", t2);
      NumberReadsBack(res.maxDurationMinutes, t3);
      AfterPrefix("MINUTES, ABORT_AFTER_WAIT = ", t4);
      assert t4[|t4| - 2..] == "))" && t4[..|t4| - 2] == res.abortAfterWait;
      assert t1 != "";
    } else {
      AfterPrefix("RESUME", "");
      assert "RESUME" + "" == "RESUME";
    }
  }

  /** A RESUME keeps the lock options the operation was started with: they can be read off its text. */
  lemma ResumeKeepsOptions(resA: ResolvedOptions, resB: ResolvedOptions)
    requires resA.waitAtLowPriority && resB.waitAtLowPriority && ResumeAction(resA) == ResumeAction(resB)
    ensures resA == resB
  {
    ResumeReadsBack(resA);
    ResumeReadsBack(resB);
    hide ResumeAction, ReadResume;
  }
}
