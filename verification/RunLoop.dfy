/** How a monitored operation is run: the statement, the pause and resume cycle, the paced re-issue
    and the bounded retries, over everything the monitoring saw meanwhile. */
module RunLoop {
  import opened Options
  import opened Supervision

  /** What decides how an operation may be driven: its capabilities, whether its re-issue is paced
      (REORGANIZE only), and whether a RESUME can be written for it. */
  datatype Operation = Operation(caps: Capabilities, paced: bool, canResume: bool)

  /** The two statements ever issued: the operation's own, and the RESUME of its paused index. */
  datatype Statement = Original | Resume

  /** One statement under monitoring: the reaction and whether blindness caused it, the statement's
      own result when there was none, and how the wait for relief ended when there was one. */
  datatype Round = Round(action: Action, blind: bool, ok: bool, relief: ReliefOutcome)

  /** What the supervisor can answer for this operation. */
  predicate Possible(r: Round, op: Operation) {
    && (r.action == Pause || r.action == Stop ==> op.caps.resumable && !r.blind)
    && (r.action == Cancel ==> r.blind || !op.caps.resumable)
    && (r.action == Continue ==> !r.blind)
  }

  predicate AllPossible(rounds: seq<Round>, op: Operation) {
    forall i | 0 <= i < |rounds| :: Possible(rounds[i], op)
  }

  datatype Event =
    | Issued(statement: Statement)
    | Finished(ok: bool)
    | Reacted(action: Action, blind: bool)
    | Waited(relief: ReliefOutcome)

  /** How a run ends; Running means the rounds given ended first. */
  datatype Ending =
    | Succeeded | Failed | PressureCancelled | RetriesExhausted | BlindStop | Drained
    | LogTimeout | Interrupted | CannotResume | Running

  datatype Result = Result(trace: seq<Event>, ending: Ending, used: nat)

  function AfterWait(relief: ReliefOutcome): Ending {
    match relief
    case Relieved => Running
    case WentBlind => BlindStop
    case StopRequested => Drained
    case LogNeverDrained => LogTimeout
    case StillWaiting => Interrupted
  }

  /** What happened first, then the rest. */
  function Joined(trace: seq<Event>, used: nat, rest: Result): Result {
    Result(trace + rest.trace, rest.ending, used + rest.used)
  }

  /** A pause is followed by a RESUME, a paced cancel by the statement itself. */
  function AfterRelief(action: Action): Statement {
    if action == Pause then Resume else Original
  }

  /** The reaction is followed by a wait for relief: a pause, or the cancel of a paced operation that
      the run can still watch. */
  predicate Waits(op: Operation, r: Round) {
    r.action == Pause || (r.action == Cancel && !r.blind && op.paced)
  }

  /** The round ends in relief and the loop issues again. */
  predicate GoesOn(op: Operation, r: Round) {
    Waits(op, r) && r.relief == Relieved && (r.action == Pause ==> op.canResume)
  }

  function RoundTrace(op: Operation, statement: Statement, r: Round): seq<Event> {
    if r.action == Continue then [Issued(statement), Finished(r.ok)]
    else if Waits(op, r) then [Issued(statement), Reacted(r.action, r.blind), Waited(r.relief)]
    else [Issued(statement), Reacted(r.action, r.blind)]
  }

  /** How a round that does not go on ends its attempt. */
  function RoundEnding(op: Operation, r: Round): Ending {
    match r.action
    case Continue => if r.ok then Succeeded else Failed
    case Stop => Drained
    case Cancel =>
      if r.blind then BlindStop else if !op.paced then PressureCancelled else AfterWait(r.relief)
    case Pause => if r.relief == Relieved then CannotResume else AfterWait(r.relief)
  }

  /** One attempt: the pause and resume cycle, or the paced re-issue, until the statement settles. */
  function Attempt(op: Operation, statement: Statement, rounds: seq<Round>): (res: Result)
    ensures res.used <= |rounds|
    ensures res.ending != Running ==> 0 < res.used
    decreases |rounds|
  {
    if rounds == [] then Result([], Running, 0)
    else
      var trace := RoundTrace(op, statement, rounds[0]);
      if GoesOn(op, rounds[0]) then
        Joined(trace, 1, Attempt(op, AfterRelief(rounds[0].action), rounds[1..]))
      else Result(trace, RoundEnding(op, rounds[0]), 1)
  }

  /** The whole run, from the attempt numbered `attempt`. */
  function Run(op: Operation, maxRetries: nat, attempt: nat, rounds: seq<Round>): Result
    decreases |rounds|
  {
    var once := Attempt(op, Original, rounds);
    if once.ending != PressureCancelled then once
    else if attempt >= maxRetries then once.(ending := RetriesExhausted)
    else
      Joined(once.trace, once.used, Run(op, maxRetries, attempt + 1, rounds[once.used..]))
  }

  // --- the discipline -------------------------------------------------------------------------

  function Issues(trace: seq<Event>): nat {
    if trace == [] then 0
    else Issues(trace[..|trace| - 1]) + if trace[|trace| - 1].Issued? then 1 else 0
  }

  lemma {:induction false} IssuesAdd(a: seq<Event>, b: seq<Event>)
    ensures Issues(a + b) == Issues(a) + Issues(b)
  {
    if b == [] {
      assert a + b == a;
    } else {
      assert (a + b)[..|a + b| - 1] == a + b[..|b| - 1];
      IssuesAdd(a, b[..|b| - 1]);
    }
  }

  /** An event after which nothing may be issued: the statement settled, the run lost sight of the
      server, a stop was asked for, or the wait did not end in relief. */
  predicate Final(e: Event) {
    match e
    case Issued(_) => false
    case Finished(_) => true
    case Reacted(action, blind) => blind || action == Stop
    case Waited(relief) => relief != Relieved
  }

  predicate ReliefAfter(trace: seq<Event>, i: int, action: Action)
    requires i <= |trace|
  {
    i >= 2 && trace[i - 1] == Waited(Relieved) && trace[i - 2] == Reacted(action, false)
  }

  /** What licenses the statement issued at position i. */
  predicate Licensed(op: Operation, trace: seq<Event>, i: int)
    requires 0 <= i < |trace| && trace[i].Issued?
  {
    if i == 0 then trace[i].statement == Original
    else if trace[i].statement == Resume then ReliefAfter(trace, i, Pause) && op.caps.resumable && op.canResume
    else
      && !op.caps.resumable
      && if op.paced then ReliefAfter(trace, i, Cancel) else trace[i - 1] == Reacted(Cancel, false)
  }

  /** The discipline of a whole trace. */
  predicate Disciplined(op: Operation, trace: seq<Event>) {
    && (forall i | 0 <= i < |trace| && trace[i].Issued? :: Licensed(op, trace, i))
    && (forall i | 0 <= i < |trace| - 1 :: !Final(trace[i]))
  }

  /** Joining two disciplined pieces: the second begins as the first's last event licenses. */
  predicate Joins(op: Operation, first: seq<Event>, statement: Statement) {
    if statement == Resume then ReliefAfter(first, |first|, Pause) && op.caps.resumable && op.canResume
    else
      && !op.caps.resumable
      && if op.paced then ReliefAfter(first, |first|, Cancel)
         else first != [] && first[|first| - 1] == Reacted(Cancel, false)
  }

  /** A trace that would be disciplined after an event licensing its first statement. */
  predicate DisciplinedFrom(op: Operation, statement: Statement, trace: seq<Event>) {
    && (trace != [] ==> trace[0] == Issued(statement))
    && (forall i | 0 < i < |trace| && trace[i].Issued? :: Licensed(op, trace, i))
    && (forall i | 0 <= i < |trace| - 1 :: !Final(trace[i]))
  }

  lemma JoinKeepsDiscipline(op: Operation, statement: Statement, a: seq<Event>, next: Statement, b: seq<Event>)
    requires DisciplinedFrom(op, statement, a) && DisciplinedFrom(op, next, b)
    requires a != [] && !Final(a[|a| - 1]) && Joins(op, a, next)
    ensures DisciplinedFrom(op, statement, a + b)
  {
    var c := a + b;
    forall i | 0 < i < |c| && c[i].Issued?
      ensures Licensed(op, c, i)
    {
      if i < |a| {
        assert c[i] == a[i] && c[i - 1] == a[i - 1];
        assert i >= 2 ==> c[i - 2] == a[i - 2];
      } else if i == |a| {
        assert c[i] == b[0] && c[i - 1] == a[|a| - 1];
      } else {
        var k := i - |a|;
        assert c[i] == b[k] && c[i - 1] == b[k - 1];
        assert b[k].Issued? && Licensed(op, b, k);
        assert k >= 2 ==> c[i - 2] == b[k - 2];
      }
    }
  }

  /** What an attempt's trace ends with, by its ending. */
  predicate EndsAs(trace: seq<Event>, ending: Ending) {
    if ending == Running then trace == [] || trace[|trace| - 1] == Waited(Relieved)
    else if trace == [] then false
    else
      var last := trace[|trace| - 1];
      match ending
      case Succeeded => last == Finished(true)
      case Failed => last == Finished(false)
      case PressureCancelled => last == Reacted(Cancel, false)
      case RetriesExhausted => last == Reacted(Cancel, false)
      case BlindStop => last == Reacted(Cancel, true) || last == Waited(WentBlind)
      case Drained => last == Reacted(Stop, false) || last == Waited(StopRequested)
      case LogTimeout => last == Waited(LogNeverDrained)
      case Interrupted => last == Waited(StillWaiting)
      case CannotResume => last == Waited(Relieved)
      case Running => true
  }

  /** What one attempt's trace satisfies. */
  ghost predicate AttemptSound(op: Operation, statement: Statement, a: Result) {
    && DisciplinedFrom(op, statement, a.trace) && EndsAs(a.trace, a.ending) && a.ending != RetriesExhausted
    && (a.ending == PressureCancelled ==> !op.paced && !op.caps.resumable && Issues(a.trace) == 1)
    && (!op.paced && !op.caps.resumable ==> Issues(a.trace) <= 1)
  }

  lemma LastRoundSound(op: Operation, statement: Statement, rounds: seq<Round>)
    requires rounds == [] || (Possible(rounds[0], op) && !GoesOn(op, rounds[0]))
    ensures AttemptSound(op, statement, Attempt(op, statement, rounds))
  {
    if rounds != [] {
      CountShort(Attempt(op, statement, rounds).trace);
    }
  }

  lemma {:induction false} AttemptKeepsDiscipline(op: Operation, statement: Statement, rounds: seq<Round>)
    requires AllPossible(rounds, op)
    ensures AttemptSound(op, statement, Attempt(op, statement, rounds))
    decreases |rounds|
  {
    if rounds == [] || !GoesOn(op, rounds[0]) {
      LastRoundSound(op, statement, rounds);
    } else {
      var r := rounds[0];
      assert Possible(r, op);
      var next := AfterRelief(r.action);
      AttemptKeepsDiscipline(op, next, rounds[1..]);
      var head := RoundTrace(op, statement, r);
      var rest := Attempt(op, next, rounds[1..]);
      assert Attempt(op, statement, rounds) == Joined(head, 1, rest);
      assert rest.trace == [] ==> head + rest.trace == head;
      hide Attempt, Issues;
      JoinKeepsDiscipline(op, statement, head, next, rest.trace);
    }
  }

  /** A two-event trace issues at most what its events say. */
  lemma CountShort(trace: seq<Event>)
    ensures |trace| == 2 ==> Issues(trace) == (if trace[0].Issued? then 1 else 0) + (if trace[1].Issued? then 1 else 0)
  {
    if |trace| == 2 {
      assert trace[..1][..0] == [];
      assert Issues(trace[..1]) == if trace[0].Issued? then 1 else 0;
    }
  }

  /** A whole run's trace ends as its ending says; one with rounds left may stand after a cancel. */
  predicate RunEndsAs(trace: seq<Event>, ending: Ending) {
    || EndsAs(trace, ending)
    || (ending == Running && trace != [] && trace[|trace| - 1] == Reacted(Cancel, false))
  }

  ghost predicate RunSound(op: Operation, left: nat, r: Result) {
    && DisciplinedFrom(op, Original, r.trace) && RunEndsAs(r.trace, r.ending) && r.ending != PressureCancelled
    && (!op.paced && !op.caps.resumable ==> Issues(r.trace) <= left + 1)
    && (r.ending == RetriesExhausted ==> !op.paced && !op.caps.resumable && Issues(r.trace) == left + 1)
    && (!op.paced && !op.caps.resumable && Issues(r.trace) == left + 1 ==>
          r.trace[|r.trace| - 1] == Reacted(Cancel, false) ==> r.ending == RetriesExhausted)
  }

  lemma {:induction false} RunKeepsDiscipline(op: Operation, maxRetries: nat, attempt: nat, rounds: seq<Round>)
    requires AllPossible(rounds, op) && attempt <= maxRetries
    ensures RunSound(op, maxRetries - attempt, Run(op, maxRetries, attempt, rounds))
    decreases |rounds|
  {
    var once := Attempt(op, Original, rounds);
    AttemptKeepsDiscipline(op, Original, rounds);
    hide Attempt, Licensed;
    if once.ending != PressureCancelled || attempt >= maxRetries {
      assert Run(op, maxRetries, attempt, rounds)
          == if once.ending == PressureCancelled then once.(ending := RetriesExhausted) else once;
      hide DisciplinedFrom;
    } else {
      var more := Run(op, maxRetries, attempt + 1, rounds[once.used..]);
      RunKeepsDiscipline(op, maxRetries, attempt + 1, rounds[once.used..]);
      assert Run(op, maxRetries, attempt, rounds) == Joined(once.trace, once.used, more);
      hide Run;
      RetryKeepsDiscipline(op, maxRetries - attempt, once, more);
    }
  }

  lemma RetryKeepsDiscipline(op: Operation, left: nat, once: Result, more: Result)
    requires left > 0 && once.ending == PressureCancelled
    requires AttemptSound(op, Original, once) && RunSound(op, left - 1, more)
    ensures RunSound(op, left, Joined(once.trace, once.used, more))
  {
    hide Licensed;
    JoinKeepsDiscipline(op, Original, once.trace, Original, more.trace);
    IssuesAdd(once.trace, more.trace);
    hide DisciplinedFrom;
    if more.trace == [] {
      assert once.trace + more.trace == once.trace;
    } else {
      assert (once.trace + more.trace)[|once.trace + more.trace| - 1] == more.trace[|more.trace| - 1];
    }
  }

  /** Every statement of every run is licensed, and a settling event is the last of its run: nothing is
      issued after a blind cancel, a stop, a finished statement or a wait that did not end in relief. */
  lemma RunIsDisciplined(op: Operation, maxRetries: nat, rounds: seq<Round>)
    requires AllPossible(rounds, op)
    ensures Disciplined(op, Run(op, maxRetries, 0, rounds).trace)
  {
    RunKeepsDiscipline(op, maxRetries, 0, rounds);
  }

  /** A resumable operation issues its own statement once; everything after is a RESUME that follows a
      pause and a wait that ended in relief, and no retry is ever spent. */
  lemma ResumableIssuesOnce(op: Operation, maxRetries: nat, rounds: seq<Round>)
    requires AllPossible(rounds, op) && op.caps.resumable
    ensures var run := Run(op, maxRetries, 0, rounds);
      && run.ending != RetriesExhausted
      && (rounds != [] ==> run.trace != [] && run.trace[0] == Issued(Original))
      && forall i | 0 < i < |run.trace| && run.trace[i].Issued? ::
           run.trace[i].statement == Resume && ReliefAfter(run.trace, i, Pause)
  {
    RunKeepsDiscipline(op, maxRetries, 0, rounds);
    var run := Run(op, maxRetries, 0, rounds);
    forall i | 0 < i < |run.trace| && run.trace[i].Issued?
      ensures run.trace[i].statement == Resume && ReliefAfter(run.trace, i, Pause)
    {
      assert Licensed(op, run.trace, i);
    }
  }

  /** A non-resumable operation that is not paced is issued at most once more than the retries allow,
      and the run gives up exactly when that many issues were all cancelled under pressure. */
  lemma RetriesAreBounded(op: Operation, maxRetries: nat, rounds: seq<Round>)
    requires AllPossible(rounds, op) && !op.caps.resumable && !op.paced
    ensures var run := Run(op, maxRetries, 0, rounds);
      && Issues(run.trace) <= maxRetries + 1
      && (run.ending == RetriesExhausted <==>
            Issues(run.trace) == maxRetries + 1 && run.trace[|run.trace| - 1] == Reacted(Cancel, false))
      && forall i | 0 < i < |run.trace| && run.trace[i].Issued? ::
           run.trace[i].statement == Original && run.trace[i - 1] == Reacted(Cancel, false)
  {
    RunKeepsDiscipline(op, maxRetries, 0, rounds);
    var run := Run(op, maxRetries, 0, rounds);
    forall i | 0 < i < |run.trace| && run.trace[i].Issued?
      ensures run.trace[i].statement == Original && run.trace[i - 1] == Reacted(Cancel, false)
    {
      assert Licensed(op, run.trace, i);
    }
  }

  /** A REORGANIZE is re-issued only after a wait that ended in relief, and never spends a retry: the
      bound on retries plays no part in its run. */
  lemma PacedSpendsNoRetry(op: Operation, maxRetries: nat, rounds: seq<Round>)
    requires AllPossible(rounds, op) && !op.caps.resumable && op.paced
    ensures var run := Run(op, maxRetries, 0, rounds);
      && run == Run(op, 0, 0, rounds) && run.ending != RetriesExhausted
      && forall i | 0 < i < |run.trace| && run.trace[i].Issued? ::
           run.trace[i].statement == Original && ReliefAfter(run.trace, i, Cancel)
  {
    AttemptKeepsDiscipline(op, Original, rounds);
    RunKeepsDiscipline(op, maxRetries, 0, rounds);
    var run := Run(op, maxRetries, 0, rounds);
    forall i | 0 < i < |run.trace| && run.trace[i].Issued?
      ensures run.trace[i].statement == Original && ReliefAfter(run.trace, i, Cancel)
    {
      assert Licensed(op, run.trace, i);
    }
  }

  lemma RoundIssuesOnce(op: Operation, statement: Statement, r: Round)
    ensures Issues(RoundTrace(op, statement, r)) == 1
  {
    var trace := RoundTrace(op, statement, r);
    var head := [Issued(statement), Reacted(r.action, r.blind)];
    CountShort(trace);
    CountShort(head);
    if |trace| == 3 {
      assert trace[..2] == head;
    }
  }

  lemma {:induction false} AttemptSpends(op: Operation, statement: Statement, rounds: seq<Round>)
    ensures var a := Attempt(op, statement, rounds);
      && Issues(a.trace) == a.used
      && (a.ending == Running ==> a.used == |rounds|)
      && (a.ending == CannotResume ==> !op.canResume)
    decreases |rounds|
  {
    if rounds != [] {
      RoundIssuesOnce(op, statement, rounds[0]);
      if GoesOn(op, rounds[0]) {
        var next := AfterRelief(rounds[0].action);
        AttemptSpends(op, next, rounds[1..]);
        IssuesAdd(RoundTrace(op, statement, rounds[0]), Attempt(op, next, rounds[1..]).trace);
      }
    }
  }

  /** The run never stops early: each round issues one statement, and it goes on to the next round unless
      one of the settling endings was reached, a missing RESUME among them only if none can be written. */
  lemma {:induction false} RunStopsForAReason(op: Operation, maxRetries: nat, attempt: nat, rounds: seq<Round>)
    requires AllPossible(rounds, op) && attempt <= maxRetries
    ensures var run := Run(op, maxRetries, attempt, rounds);
      && Issues(run.trace) == run.used
      && (run.ending == Running ==> run.used == |rounds|)
      && (run.ending == CannotResume ==> !op.canResume)
      && RunEndsAs(run.trace, run.ending)
    decreases |rounds|
  {
    var once := Attempt(op, Original, rounds);
    AttemptSpends(op, Original, rounds);
    RunKeepsDiscipline(op, maxRetries, attempt, rounds);
    if once.ending == PressureCancelled && attempt < maxRetries {
      RunStopsForAReason(op, maxRetries, attempt + 1, rounds[once.used..]);
      IssuesAdd(once.trace, Run(op, maxRetries, attempt + 1, rounds[once.used..]).trace);
    }
  }

  predicate LostSight(e: Event) {
    e == Reacted(Cancel, true) || e == Waited(WentBlind)
  }

  lemma BlindTrace(trace: seq<Event>, ending: Ending)
    requires (forall i | 0 <= i < |trace| - 1 :: !Final(trace[i])) && RunEndsAs(trace, ending)
    ensures ending == BlindStop ==> trace != [] && LostSight(trace[|trace| - 1])
    ensures forall i | 0 <= i < |trace| && LostSight(trace[i]) :: i == |trace| - 1 && ending == BlindStop
  {
    forall i | 0 <= i < |trace| && LostSight(trace[i])
      ensures i == |trace| - 1
    {
      assert Final(trace[i]);
    }
  }

  /** A run that lost sight of the server ends there, as blind, and only such a run does. */
  lemma BlindnessEndsTheRun(op: Operation, maxRetries: nat, rounds: seq<Round>)
    requires AllPossible(rounds, op)
    ensures var run := Run(op, maxRetries, 0, rounds);
      && (run.ending == BlindStop <==> exists i :: 0 <= i < |run.trace| && LostSight(run.trace[i]))
      && forall i | 0 <= i < |run.trace| && LostSight(run.trace[i]) :: i == |run.trace| - 1
  {
    RunKeepsDiscipline(op, maxRetries, 0, rounds);
    var run := Run(op, maxRetries, 0, rounds);
    hide Run, Licensed, Issues, Final, LostSight, RunEndsAs;
    BlindTrace(run.trace, run.ending);
  }

  // --- the loops over what the monitoring saw ---------------------------------------------------

  /** What one statement's monitoring delivers: the samples while it runs, its result should nothing
      stop it, and the samples of the wait should one follow. */
  datatype Watched = Watched(seen: seq<Seen>, ok: bool, wait: seq<Seen>)

  datatype Limits = Limits(blockingTimeout: int, drainTimeout: int)

  predicate AllOrdered(ws: seq<Watched>) {
    forall i | 0 <= i < |ws| :: Ordered(ws[i].seen) && Ordered(ws[i].wait)
  }

  ghost function FirstDue(seen: seq<Seen>, caps: Capabilities, timeout: int, i: nat): (at: nat)
    requires i <= |seen|
    ensures at <= |seen| && (at < |seen| ==> Due(seen, at, caps, timeout))
    decreases |seen| - i
  {
    if i == |seen| || Due(seen, i, caps, timeout) then i else FirstDue(seen, caps, timeout, i + 1)
  }

  /** The first due sample is the one a scan finds. */
  lemma {:induction false} FirstDueIs(seen: seq<Seen>, caps: Capabilities, timeout: int, i: nat, at: nat)
    requires i <= at <= |seen| && (at < |seen| ==> Due(seen, at, caps, timeout))
    requires forall k | i <= k < at :: !Due(seen, k, caps, timeout)
    ensures FirstDue(seen, caps, timeout, i) == at
    decreases at - i
  {
    hide Due;
    if i < at {
      FirstDueIs(seen, caps, timeout, i + 1, at);
    }
  }

  ghost function WaitEnding(wait: seq<Seen>, drainTimeout: int, i: nat): ReliefOutcome
    requires i <= |wait|
    decreases |wait| - i
  {
    if i == |wait| then StillWaiting
    else if WaitVerdict(wait, i, drainTimeout) != StillWaiting then WaitVerdict(wait, i, drainTimeout)
    else WaitEnding(wait, drainTimeout, i + 1)
  }

  lemma {:induction false} WaitEndingIs(wait: seq<Seen>, drainTimeout: int, i: nat, at: nat)
    requires i <= at <= |wait| && (at < |wait| ==> WaitVerdict(wait, at, drainTimeout) != StillWaiting)
    requires forall k | i <= k < at :: WaitVerdict(wait, k, drainTimeout) == StillWaiting
    ensures WaitEnding(wait, drainTimeout, i)
         == if at == |wait| then StillWaiting else WaitVerdict(wait, at, drainTimeout)
    decreases at - i
  {
    hide WaitVerdict;
    if i < at {
      WaitEndingIs(wait, drainTimeout, i + 1, at);
    }
  }

  /** The round a monitored statement amounts to, by the history rules of supervision. */
  ghost function RoundOf(op: Operation, limits: Limits, w: Watched): Round {
    var at := FirstDue(w.seen, op.caps, limits.blockingTimeout, 0);
    var relief := WaitEnding(w.wait, limits.drainTimeout, 0);
    if at == |w.seen| then Round(Continue, false, w.ok, relief)
    else
      Round(DueAction(w.seen, at, op.caps), DuePressure(w.seen, at, op.caps, limits.blockingTimeout).blind.Some?,
            w.ok, relief)
  }

  ghost function RoundsOf(op: Operation, limits: Limits, ws: seq<Watched>): (rounds: seq<Round>)
    ensures |rounds| == |ws|
    ensures forall i | 0 <= i < |ws| :: rounds[i] == RoundOf(op, limits, ws[i])
  {
    seq(|ws|, i requires 0 <= i < |ws| => RoundOf(op, limits, ws[i]))
  }

  /** Supervision only ever produces possible rounds, so every theorem above holds of what is seen. */
  lemma SupervisedRoundsArePossible(op: Operation, limits: Limits, ws: seq<Watched>)
    ensures AllPossible(RoundsOf(op, limits, ws), op)
  {
    forall i | 0 <= i < |ws|
      ensures Possible(RoundsOf(op, limits, ws)[i], op)
    {
      var w := ws[i];
      var at := FirstDue(w.seen, op.caps, limits.blockingTimeout, 0);
    }
  }

  method RunStatement(op: Operation, limits: Limits, w: Watched) returns (action: Action, blind: bool)
    requires Ordered(w.seen)
    ensures action == RoundOf(op, limits, w).action && blind == RoundOf(op, limits, w).blind
    ensures RoundOf(op, limits, w).ok == w.ok
  {
    var pressure, at;
    action, pressure, at := Supervise(w.seen, op.caps, limits.blockingTimeout);
    FirstDueIs(w.seen, op.caps, limits.blockingTimeout, 0, at);
    blind := pressure.blind.Some?;
  }

  method AwaitRelief(op: Operation, limits: Limits, w: Watched) returns (relief: ReliefOutcome)
    requires Ordered(w.wait)
    ensures relief == RoundOf(op, limits, w).relief
  {
    var at;
    relief, at := WaitForRelief(w.wait, limits.drainTimeout);
    WaitEndingIs(w.wait, limits.drainTimeout, 0, at);
  }

  /** One turn of the loop after `trace`: it settles the attempt, or its events join the trace. */
  lemma OneTurn(op: Operation, statement: Statement, trace: seq<Event>, used: nat, rounds: seq<Round>, i: nat)
    requires i < |rounds|
    ensures var r, sofar := rounds[i], trace + RoundTrace(op, statement, rounds[i]);
      Joined(trace, used, Attempt(op, statement, rounds[i..]))
      == if GoesOn(op, r) then Joined(sofar, used + 1, Attempt(op, AfterRelief(r.action), rounds[i + 1..]))
         else Result(sofar, RoundEnding(op, r), used + 1)
  {
    assert rounds[i..][0] == rounds[i] && rounds[i..][1..] == rounds[i + 1..];
    JoinedTwice(trace, used, RoundTrace(op, statement, rounds[i]), Attempt(op, AfterRelief(rounds[i].action), rounds[i + 1..]));
  }

  lemma JoinedTwice(trace: seq<Event>, used: nat, more: seq<Event>, rest: Result)
    ensures Joined(trace, used, Joined(more, 1, rest)) == Joined(trace + more, used + 1, rest)
    ensures Joined([], 0, rest) == rest
  {
    assert trace + (more + rest.trace) == trace + more + rest.trace;
  }

  lemma NoRoundsLeft(op: Operation, statement: Statement, trace: seq<Event>, used: nat)
    ensures Joined(trace, used, Attempt(op, statement, [])) == Result(trace, Running, used)
  {
    assert trace + [] == trace;
  }

  /** One statement run, and the wait its reaction calls for: None when the loop issues again. */
  method RunRound(op: Operation, limits: Limits, statement: Statement, w: Watched)
    returns (trace: seq<Event>, ending: Option<Ending>, next: Statement)
    requires Ordered(w.seen) && Ordered(w.wait)
    ensures var r := RoundOf(op, limits, w);
      && trace == RoundTrace(op, statement, r)
      && ending == (if GoesOn(op, r) then None else Some(RoundEnding(op, r)))
      && (GoesOn(op, r) ==> next == AfterRelief(r.action))
  {
    hide RoundOf, Ordered;
    var action, blind := RunStatement(op, limits, w);
    next := AfterRelief(action);
    match action {
      case Continue =>
        return [Issued(statement), Finished(w.ok)], Some(if w.ok then Succeeded else Failed), next;
      case Stop =>
        return [Issued(statement), Reacted(action, blind)], Some(Drained), next;
      case Cancel =>
        if blind {
          return [Issued(statement), Reacted(action, blind)], Some(BlindStop), next;
        }
        if !op.paced {
          return [Issued(statement), Reacted(action, blind)], Some(PressureCancelled), next;
        }
      case Pause =>
    }
    var relief := AwaitRelief(op, limits, w);
    trace := [Issued(statement), Reacted(action, blind), Waited(relief)];
    if relief != Relieved {
      ending := Some(AfterWait(relief));
    } else if action == Pause && !op.canResume {
      ending := Some(CannotResume);
    } else {
      ending := None;
    }
  }

  /** The pause and resume loop over what the monitoring saw is the attempt over its rounds. */
  method RunOnce(op: Operation, limits: Limits, ws: seq<Watched>, from: nat) returns (res: Result)
    requires from <= |ws| && AllOrdered(ws)
    ensures res == Attempt(op, Original, RoundsOf(op, limits, ws)[from..])
  {
    ghost var rounds := RoundsOf(op, limits, ws);
    var statement, trace: seq<Event>, i := Original, [], from;
    JoinedTwice([], 0, [], Attempt(op, statement, rounds[i..]));
    hide RoundOf, RoundsOf, RoundTrace, RoundEnding, GoesOn, Attempt, Joined;
    while i < |ws|
      invariant from <= i <= |ws|
      invariant Attempt(op, Original, rounds[from..])
             == Joined(trace, i - from, Attempt(op, statement, rounds[i..]))
    {
      OneTurn(op, statement, trace, i - from, rounds, i);
      var more, ending, next := RunRound(op, limits, statement, ws[i]);
      statement, trace, i := next, trace + more, i + 1;
      if ending.Some? {
        return Result(trace, ending.value, i - from);
      }
    }
    assert rounds[i..] == [];
    NoRoundsLeft(op, statement, trace, i - from);
    return Result(trace, Running, i - from);
  }

  /** The whole run: attempts until one is not a pressure cancel or the retries are spent. Whatever was
      seen, its trace is disciplined. */
  method RunMonitored(op: Operation, limits: Limits, maxRetries: nat, ws: seq<Watched>) returns (res: Result)
    requires AllOrdered(ws)
    ensures res == Run(op, maxRetries, 0, RoundsOf(op, limits, ws)) && Disciplined(op, res.trace)
  {
    ghost var rounds := RoundsOf(op, limits, ws);
    hide RoundsOf, Attempt;
    var trace: seq<Event>, attempt: nat, from: nat := [], 0, 0;
    assert rounds[0..] == rounds;
    while true
      invariant from <= |ws| && attempt <= maxRetries
      invariant Run(op, maxRetries, 0, rounds) == Joined(trace, from, Run(op, maxRetries, attempt, rounds[from..]))
      decreases maxRetries - attempt
    {
      var once := RunOnce(op, limits, ws, from);
      assert rounds[from..][once.used..] == rounds[from + once.used..];
      if once.ending != PressureCancelled || attempt >= maxRetries {
        res := Joined(trace, from, if once.ending == PressureCancelled then once.(ending := RetriesExhausted) else once);
        break;
      }
      trace, from, attempt := trace + once.trace, from + once.used, attempt + 1;
    }
    SupervisedRoundsArePossible(op, limits, ws);
    RunIsDisciplined(op, maxRetries, rounds);
  }
}
