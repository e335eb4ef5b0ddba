/** The lifecycle of one manifest across crashes, graceful stops and recovery sweeps: a sidecar file
    holding a resume cursor and the fingerprint of the plan it counts, rewritten while operations
    run, read back by the next run. */
module CrashResume {
  import opened Options
  import opened Text

  /** What an operation acts on; the database is set only for a database-scoped one. */
  datatype Object = Object(schema: string, table: string, name: string, database: string)

  /** `details` is all the rest of it: its columns, filter, options. */
  datatype Operation = Operation(command: string, target: Object, details: nat)

  type Plan = seq<Operation>

  function Rendered(o: Object): string {
    if o.database != "" && o.schema == "" && o.table == "" then o.database
    else if o.schema == "" && o.table == "" then o.name
    else if o.name == "" then o.schema + "." + o.table
    else o.schema + "." + o.table + "." + o.name
  }

  /** What the plan fingerprint hashes of an operation: its command and its target as rendered. */
  datatype OpId = OpId(command: string, target: string)

  function Identity(op: Operation): OpId {
    OpId(op.command, Rendered(op.target))
  }

  function Identities(plan: Plan): (ids: seq<OpId>)
    ensures |ids| == |plan|
    ensures forall i | 0 <= i < |plan| :: ids[i] == Identity(plan[i])
  {
    seq(|plan|, i requires 0 <= i < |plan| => Identity(plan[i]))
  }

  /** The hash of a plan's identities, taken as injective; a sidecar may not have one yet. */
  datatype Fingerprint = Unrecorded | Of(ids: seq<OpId>)

  /** The operation a run left paused on the server, by position and by index. */
  datatype Paused = Paused(op: nat, schema: string, table: string, index: string)

  datatype Sidecar = Sidecar(cursor: nat, fingerprint: Fingerprint, paused: Option<Paused>)

  datatype Place = ToRun | Processing | Done | Failed

  /** One execution of an operation of a plan, and whether it completed: one that failed, was interrupted or
      stopped short did not. */
  datatype Record = Record(plan: Plan, op: nat, ok: bool)

  datatype Phase =
    | Idle
    | Claimed(found: Sidecar)
    | Running(run: Run)
    | Closing(closing: Closure, sidecarGone: bool)

  /** How a manifest leaves processing: the whole plan done, or refused, failed or stopped short, or
      done but for the quarantined operations. */
  datatype Closure = AsDone(plan: Plan) | AsFailed | AsPartial(plan: Plan, remainder: Plan)

  /** The state one run carries: where it resumed, the next operation, the in-memory cursor, and the
      operations quarantined by continue-on-failure. */
  datatype Run = Run(plan: Plan, goOn: bool, from: nat, next: nat, cursor: nat, failed: seq<nat>,
                     paused: Option<Paused>)

  /** `log` and `closed` belong to the current submission of the manifest. All but the phase survives
      a crash. */
  datatype State = State(place: Place, sidecar: Option<Sidecar>, log: seq<Record>, closed: Option<Closure>, phase: Phase)

  datatype OpEnd =
    | Drained                                   // a graceful stop requested before the operation
    | WindowShut                                // the execution window closed before it
    | Satisfied(written: bool)                  // skipped: its target state already holds
    | Succeeded(written: bool, unpaused: bool)
    | Broke                                     // failed
    | Interrupted(resumable: bool, noted: bool) // stopped, or left paused on the server
    | Incomplete                                // stopped short of its target, work preserved

  /** What the sweep learns of the session a sidecar records: the server would not say, it is still executing,
      or it is gone, some operation of the database's being paused or not. */
  datatype Sighting = Unreadable | Live | Gone(pausedOnServer: bool)

  /** The session a sidecar records, and what the server says of the session with its id. */
  datatype Signature = Signature(loginTime: string, marker: string)

  datatype Session = Session(present: bool, active: bool, loginTime: string, contextInfo: string)

  /** The recorded session is still executing: an id is reused, so its login must be the recorded one and its
      context begin with the recorded marker, if there is one; and it must have a request in flight. */
  predicate IsOrphan(found: Session, recorded: Signature) {
    && found.present && found.active && found.loginTime == recorded.loginTime
    && (recorded.marker == "" || Begins(Lower(found.contextInfo), Lower(recorded.marker)))
  }

  predicate Begins(s: string, mark: string) {
    |mark| <= |s| && s[..|mark|] == mark
  }

  /** What the sweep makes of the server's two answers, None standing for one it cannot get: the session, and
      the states of the database's resumable operations. */
  function Seen(recorded: Signature, session: Option<Session>, states: Option<seq<string>>): Sighting {
    if session == None || states == None then Unreadable
    else if IsOrphan(session.value, recorded) then Live
    else Gone("PAUSED" in states.value)
  }

  /** `written`, `noted`, `unpaused`, `removed` and `moved` say whether that file operation took
      effect: the engine reports a failure of one and goes on. */
  datatype Event =
    | Claim(written: bool)
    | Shut                                      // outside its window before any operation
    | Reject                                    // could not be loaded, checked or planned
    | Reconcile(plan: Plan, goOn: bool, written: bool)
    | Op(end: OpEnd)
    | Finish
    | RemoveSidecar(removed: bool)
    | Move(moved: bool)
    | Crash
    | Recover(seen: Sighting, moved: bool, removed: bool)
    | Resubmit

  // --- the engine's steps ---------------------------------------------------------------------

  /** The cursor this run starts from: dropped when it lies past the plan, or was recorded against
      another one. A sidecar without a fingerprint is believed. */
  function ResumeFrom(found: Sidecar, plan: Plan): nat {
    if found.cursor > |plan| || (found.fingerprint != Unrecorded && found.fingerprint != Of(Identities(plan))) then 0
    else found.cursor
  }

  /** Rewriting the sidecar in place: nothing to rewrite when there is none, and the write may fail. */
  function Rewrite(sidecar: Option<Sidecar>, next: Sidecar, written: bool): Option<Sidecar> {
    if sidecar.Some? && written then Some(next) else sidecar
  }

  function WithCursor(sidecar: Option<Sidecar>, cursor: nat, written: bool): Option<Sidecar> {
    if sidecar == None then None else Rewrite(sidecar, sidecar.value.(cursor := cursor), written)
  }

  /** Operation run.next completed: record it, and move the cursor on only from exactly there. */
  function Complete(s: State, written: bool): State
    requires s.phase.Running?
  {
    var run := s.phase.run;
    var at := run.next;
    var s' := s.(log := s.log + [Record(run.plan, at, true)]);
    if run.cursor != at then s'.(phase := Running(run.(next := at + 1)))
    else s'.(sidecar := WithCursor(s.sidecar, at + 1, written),
             phase := Running(run.(next := at + 1, cursor := at + 1)))
  }

  function Unpause(s: State, at: nat, unpaused: bool): State
    requires s.phase.Running?
  {
    if s.phase.run.paused == None || s.phase.run.paused.value.op != at then s
    else
      var s' := s.(phase := Running(s.phase.run.(paused := None)));
      if s.sidecar == None then s'
      else s'.(sidecar := Rewrite(s.sidecar, s.sidecar.value.(paused := None), unpaused))
  }

  /** The paused record identifies operation i, by its position and its target's names in any case. */
  predicate Owns(paused: Option<Paused>, i: nat, op: Operation) {
    && paused.Some? && paused.value.op == i
    && Lower(paused.value.schema) == Lower(op.target.schema)
    && Lower(paused.value.table) == Lower(op.target.table)
    && Lower(paused.value.index) == Lower(op.target.name)
  }

  function PausedAt(at: nat, op: Operation): Paused {
    Paused(at, op.target.schema, op.target.table, op.target.name)
  }

  function OpStep(s: State, end: OpEnd): State
    requires s.phase.Running? && s.phase.run.next < |s.phase.run.plan|
  {
    var run := s.phase.run;
    var at := run.next;
    match end
    case Drained => s.(phase := Idle)
    case WindowShut => s.(phase := Idle)
    case Satisfied(written) => if Owns(run.paused, at, run.plan[at]) then s else Complete(s, written)
    case Succeeded(written, unpaused) => Complete(Unpause(s, at, unpaused), written)
    case Interrupted(resumable, noted) =>
      var s' := s.(log := s.log + [Record(run.plan, at, false)], phase := Idle);
      if resumable && s.sidecar.Some?
      then s'.(sidecar := Rewrite(s.sidecar, s.sidecar.value.(paused := Some(PausedAt(at, run.plan[at]))), noted))
      else s'
    case Incomplete => s.(log := s.log + [Record(run.plan, at, false)], phase := Closing(AsFailed, false))
    case Broke =>
      var s' := s.(log := s.log + [Record(run.plan, at, false)]);
      if run.goOn then s'.(phase := Running(run.(next := at + 1, failed := run.failed + [at])))
      else s'.(phase := Closing(AsFailed, false))
  }

  /** The operations of the plan at the given positions, in the order given. */
  function Pick(plan: Plan, at: seq<nat>): Plan {
    if at == [] then []
    else Pick(plan, at[..|at| - 1]) + (if at[|at| - 1] < |plan| then [plan[at[|at| - 1]]] else [])
  }

  function ReconcileStep(s: State, plan: Plan, goOn: bool, written: bool): State
    requires s.phase.Claimed?
  {
    var from := ResumeFrom(s.phase.found, plan);
    var sidecar := if s.sidecar == None then None
                   else Rewrite(s.sidecar, s.sidecar.value.(cursor := from, fingerprint := Of(Identities(plan))), written);
    s.(sidecar := sidecar, phase := Running(Run(plan, goOn, from, from, from, [], s.phase.found.paused)))
  }

  /** The sweep looks at sidecars only. An orphan still executing, or that the server will not tell about, is
      left alone; otherwise its manifest goes back to the queue, with the sidecar when the next run needs it.
      A move that fails ends the sweep, unless the manifest is in the queue already. */
  function RecoverStep(s: State, seen: Sighting, moved: bool, removed: bool): State {
    if s.sidecar == None || !seen.Gone? || s.place == Done || s.place == Failed then s
    else if s.place == Processing && !moved then s
    else if seen.pausedOnServer || s.sidecar.value.cursor > 0 || !removed then s.(place := ToRun)
    else s.(place := ToRun, sidecar := None)
  }

  /** A closed manifest that nobody is working on, ready to be submitted again. */
  predicate Resubmits(s: State) {
    s.phase == Idle && (s.place == Done || s.place == Failed)
  }

  function Step(s: State, e: Event): State {
    match e
    case Crash => s.(phase := Idle)
    case Claim(written) =>
      if s.phase != Idle || s.place != ToRun then s
      else
        var found := if s.sidecar.Some? then s.sidecar.value else Sidecar(0, Unrecorded, None);
        s.(place := Processing, sidecar := if written then Some(found) else s.sidecar, phase := Claimed(found))
    case Shut => if s.phase.Claimed? then s.(phase := Idle) else s
    case Reject => if s.phase.Claimed? then s.(phase := Closing(AsFailed, false)) else s
    case Reconcile(plan, goOn, written) => if s.phase.Claimed? then ReconcileStep(s, plan, goOn, written) else s
    case Op(end) => if s.phase.Running? && s.phase.run.next < |s.phase.run.plan| then OpStep(s, end) else s
    case Finish =>
      if !s.phase.Running? || s.phase.run.next < |s.phase.run.plan| then s
      else if s.phase.run.failed == [] then s.(phase := Closing(AsDone(s.phase.run.plan), false))
      else s.(phase := Closing(AsPartial(s.phase.run.plan, Pick(s.phase.run.plan, s.phase.run.failed)), false))
    case RemoveSidecar(removed) =>
      if s.phase.Closing? && !s.phase.sidecarGone
      then s.(sidecar := if removed then None else s.sidecar, phase := s.phase.(sidecarGone := true))
      else s
    case Move(moved) =>
      if s.phase.Closing? && s.phase.sidecarGone
      then s.(place := if !moved then s.place else if s.phase.closing.AsDone? then Done else Failed,
              closed := Some(s.phase.closing), phase := Idle)
      else s
    case Recover(seen, moved, removed) =>
      if s.phase == Idle then RecoverStep(s, seen, moved, removed) else s
    case Resubmit =>
      if Resubmits(s)
      then s.(place := ToRun, log := [], closed := None) else s
  }

  function Exec(s: State, es: seq<Event>): State
    decreases |es|
  {
    if es == [] then s else Exec(Step(s, es[0]), es[1..])
  }

  // --- what holds -----------------------------------------------------------------------------

  /** The last execution of the operation at this position of a plan with these identities. */
  function LastRun(log: seq<Record>, ids: seq<OpId>, op: nat): Option<Record> {
    if log == [] then None
    else
      var last := log[|log| - 1];
      if Identities(last.plan) == ids && last.op == op then Some(last) else LastRun(log[..|log| - 1], ids, op)
  }

  /** How it ended. */
  function Latest(log: seq<Record>, ids: seq<OpId>, op: nat): Option<bool> {
    match LastRun(log, ids, op)
    case None => None
    case Some(last) => Some(last.ok)
  }

  /** The first n operations of a plan each ended their last execution completed. */
  predicate DoneUpTo(log: seq<Record>, ids: seq<OpId>, n: nat) {
    n <= |ids| && forall j | 0 <= j < n :: Latest(log, ids, j) == Some(true)
  }

  /** A sidecar that tells the truth: a cursor past zero names the plan it counts, and counts only
      completed operations of it. */
  predicate Truthful(log: seq<Record>, sidecar: Sidecar) {
    sidecar.cursor > 0 ==> sidecar.fingerprint.Of? && DoneUpTo(log, sidecar.fingerprint.ids, sidecar.cursor)
  }

  predicate Increasing(xs: seq<nat>) {
    forall i, j | 0 <= i < j < |xs| :: xs[i] < xs[j]
  }

  /** A run in flight: from the resume cursor to the next operation, each operation was executed and
      is quarantined exactly if it failed; the cursor stands at the first quarantined one. */
  predicate RunSound(log: seq<Record>, sidecar: Option<Sidecar>, run: Run) {
    && run.from <= run.cursor <= run.next <= |run.plan|
    && DoneUpTo(log, Identities(run.plan), run.cursor)
    && Increasing(run.failed)
    && (forall i <- run.failed :: run.from <= i < run.next && Latest(log, Identities(run.plan), i) == Some(false))
    && (forall j | run.from <= j < run.next && j !in run.failed :: Latest(log, Identities(run.plan), j) == Some(true))
    && run.cursor == (if run.failed == [] then run.next else run.failed[0])
    && (sidecar.Some? ==> sidecar.value.fingerprint == Of(Identities(run.plan)) && sidecar.value.cursor <= run.cursor)
  }

  predicate ClosureSound(log: seq<Record>, c: Closure) {
    c.AsDone? ==> DoneUpTo(log, Identities(c.plan), |c.plan|)
  }

  predicate Sound(s: State) {
    && (s.sidecar.Some? ==> Truthful(s.log, s.sidecar.value))
    && (s.place == Done ==> s.closed.Some? && s.closed.value.AsDone? && ClosureSound(s.log, s.closed.value))
    && match s.phase
       case Idle => true
       case Claimed(found) => s.place == Processing && Truthful(s.log, found) && (s.sidecar.Some? ==> s.sidecar.value == found)
       case Running(run) => s.place == Processing && RunSound(s.log, s.sidecar, run)
       case Closing(closing, _) => s.place == Processing && ClosureSound(s.log, closing)
  }

  /** What the protocol cannot do without: the write that binds the sidecar to a run's plan (unless
      there is none, or it already bears that plan), and that a closed manifest is not submitted again
      over a sidecar left behind with a cursor. Every other file operation may fail. */
  predicate Reliable(s: State, e: Event) {
    match e
    case Reconcile(plan, _, written) =>
      s.phase.Claimed? ==> written || s.sidecar == None || s.sidecar.value.fingerprint == Of(Identities(plan))
    case Resubmit => Resubmits(s) ==> s.sidecar == None || s.sidecar.value.cursor == 0
    case _ => true
  }

  predicate AllReliable(s: State, es: seq<Event>)
    decreases |es|
  {
    es == [] || (Reliable(s, es[0]) && AllReliable(Step(s, es[0]), es[1..]))
  }

  /** A manifest put in the queue for the first time. */
  const FRESH := State(ToRun, None, [], None, Idle)

  lemma LatestGrows(log: seq<Record>, r: Record)
    ensures forall ids, op: nat ::
      LastRun(log + [r], ids, op) == if Identities(r.plan) == ids && r.op == op then Some(r) else LastRun(log, ids, op)
    ensures forall ids, op: nat ::
      Latest(log + [r], ids, op) == if Identities(r.plan) == ids && r.op == op then Some(r.ok) else Latest(log, ids, op)
  {
    assert (log + [r])[..|log|] == log;
  }

  lemma CompleteKeepsSound(s: State, written: bool)
    requires Sound(s) && s.phase.Running? && s.phase.run.next < |s.phase.run.plan|
    ensures Sound(Complete(s, written))
  {
    var run := s.phase.run;
    LatestGrows(s.log, Record(run.plan, run.next, true));
    assert run.cursor == run.next ==> run.failed == [] by {
      if run.failed != [] {
        assert run.failed[0] in run.failed;
      }
    }
  }

  lemma BreakKeepsSound(s: State)
    requires Sound(s) && s.phase.Running? && s.phase.run.next < |s.phase.run.plan|
    ensures Sound(OpStep(s, Broke))
  {
    var run := s.phase.run;
    LatestGrows(s.log, Record(run.plan, run.next, false));
    assert forall i | 0 <= i < |run.failed| :: run.failed[i] in run.failed;
  }

  lemma StopKeepsSound(s: State, end: OpEnd)
    requires Sound(s) && s.phase.Running? && s.phase.run.next < |s.phase.run.plan|
    requires end.Interrupted? || end.Incomplete?
    ensures Sound(OpStep(s, end))
  {
    LatestGrows(s.log, Record(s.phase.run.plan, s.phase.run.next, false));
    hide LastRun, Latest, Identities;
  }

  lemma OpKeepsSound(s: State, end: OpEnd)
    requires Sound(s) && Reliable(s, Op(end)) && s.phase.Running? && s.phase.run.next < |s.phase.run.plan|
    ensures Sound(Step(s, Op(end)))
  {
    hide Latest, Pick;
    match end
    case Satisfied(written) => CompleteKeepsSound(s, written);
    case Succeeded(written, unpaused) => CompleteKeepsSound(Unpause(s, s.phase.run.next, unpaused), written);
    case Broke => BreakKeepsSound(s);
    case Interrupted(_, _) => StopKeepsSound(s, end);
    case Incomplete => StopKeepsSound(s, end);
    case _ =>
  }

  lemma StepKeepsSound(s: State, e: Event)
    requires Sound(s) && Reliable(s, e)
    ensures Sound(Step(s, e))
  {
    hide Latest, Pick;
    if e.Op? && s.phase.Running? && s.phase.run.next < |s.phase.run.plan| {
      OpKeepsSound(s, e.end);
      hide Step, Sound;
    }
  }

  lemma {:induction false} ExecKeepsSound(s: State, es: seq<Event>)
    requires Sound(s) && AllReliable(s, es)
    ensures Sound(Exec(s, es))
    decreases |es|
  {
    if es != [] {
      StepKeepsSound(s, es[0]);
      ExecKeepsSound(Step(s, es[0]), es[1..]);
    }
  }

  lemma {:induction false} ExecAppends(s: State, a: seq<Event>, b: seq<Event>)
    ensures Exec(s, a + b) == Exec(Exec(s, a), b)
    decreases |a|
  {
    if a == [] {
      assert a + b == b;
    } else {
      assert (a + b)[0] == a[0] && (a + b)[1..] == a[1..] + b;
      ExecAppends(Step(s, a[0]), a[1..], b);
    }
  }

  // --- executions -----------------------------------------------------------------------------

  /** One execution of an operation of a plan, and how it ended. */
  datatype Execution = Execution(plan: Plan, op: nat, end: OpEnd)

  /** The operation ended as it should: it succeeded, or its target state held already. */
  predicate Completed(end: OpEnd) {
    end.Succeeded? || end.Satisfied?
  }

  /** What an event that meets this phase executes: the running plan's next operation, unless the run stops
      before it. One that the run owns as paused is not passed over as satisfied. */
  function Executed(phase: Phase, e: Event): seq<Execution> {
    if !e.Op? || !phase.Running? || phase.run.next >= |phase.run.plan| || e.end.Drained? || e.end.WindowShut?
       || (e.end.Satisfied? && Owns(phase.run.paused, phase.run.next, phase.run.plan[phase.run.next]))
    then []
    else [Execution(phase.run.plan, phase.run.next, e.end)]
  }

  /** All that was executed since the manifest was last submitted. */
  function Executions(es: seq<Event>): seq<Execution> {
    if es == [] then []
    else
      var front, e := es[..|es| - 1], es[|es| - 1];
      var before := Exec(FRESH, front);
      if e.Resubmit? && Resubmits(before) then [] else Executions(front) + Executed(before.phase, e)
  }

  function Logged(xs: seq<Execution>): (log: seq<Record>)
    ensures |log| == |xs|
    ensures forall i | 0 <= i < |xs| :: log[i] == Record(xs[i].plan, xs[i].op, Completed(xs[i].end))
  {
    seq(|xs|, i requires 0 <= i < |xs| => Record(xs[i].plan, xs[i].op, Completed(xs[i].end)))
  }

  /** How the last execution of the operation at this position of a plan with these identities ended. */
  function LastEnd(xs: seq<Execution>, ids: seq<OpId>, op: nat): Option<OpEnd> {
    if xs == [] then None
    else
      var last := xs[|xs| - 1];
      if Identities(last.plan) == ids && last.op == op then Some(last.end) else LastEnd(xs[..|xs| - 1], ids, op)
  }

  /** It did end, completed. */
  predicate CompletedLast(xs: seq<Execution>, ids: seq<OpId>, op: nat) {
    LastEnd(xs, ids, op).Some? && Completed(LastEnd(xs, ids, op).value)
  }

  lemma ExecOneMore(es: seq<Event>)
    requires es != []
    ensures Exec(FRESH, es) == Step(Exec(FRESH, es[..|es| - 1]), es[|es| - 1])
  {
    ExecLast(FRESH, es);
  }

  lemma {:induction false} ExecLast(s: State, es: seq<Event>)
    requires es != []
    ensures Exec(s, es) == Step(Exec(s, es[..|es| - 1]), es[|es| - 1])
    decreases |es|
  {
    hide Step;
    var n := |es| - 1;
    if n == 0 {
      assert es[1..] == [] && es[..0] == [];
    } else {
      ExecLast(Step(s, es[0]), es[1..]);
      assert es[1..][..n - 1] == es[..n][1..];
    }
  }

  lemma StepLogsExecuted(s: State, e: Event)
    ensures Step(s, e).log ==
            if e.Resubmit? && Resubmits(s) then [] else s.log + Logged(Executed(s.phase, e))
  {
    hide Pick, Owns, Identities;
    assert Logged([]) == [];
    if e.Op? && s.phase.Running? && s.phase.run.next < |s.phase.run.plan| {
      var x := Execution(s.phase.run.plan, s.phase.run.next, e.end);
      assert Logged([x]) == [Record(x.plan, x.op, Completed(x.end))];
    }
  }

  lemma LoggedParts(xs: seq<Execution>, ys: seq<Execution>)
    ensures Logged(xs + ys) == Logged(xs) + Logged(ys)
  {
  }

  /** The log every result is about holds exactly what was executed, with how it ended. */
  lemma {:induction false} LogIsExecutions(es: seq<Event>)
    ensures Exec(FRESH, es).log == Logged(Executions(es))
  {
    if es != [] {
      var front, e := es[..|es| - 1], es[|es| - 1];
      LogIsExecutions(front);
      ExecOneMore(es);
      StepLogsExecuted(Exec(FRESH, front), e);
      LoggedParts(Executions(front), Executed(Exec(FRESH, front).phase, e));
      hide Exec, Step, Logged, Executed;
      assert e.Resubmit? && Resubmits(Exec(FRESH, front)) ==> Executions(es) == [];
    }
  }

  lemma {:induction false} LatestIsLastEnd(xs: seq<Execution>, ids: seq<OpId>, op: nat)
    ensures Latest(Logged(xs), ids, op) ==
            match LastEnd(xs, ids, op)
            case None => None
            case Some(end) => Some(Completed(end))
  {
    if xs != [] {
      var front, x := xs[..|xs| - 1], xs[|xs| - 1];
      LatestIsLastEnd(front, ids, op);
      assert Logged(xs)[..|xs| - 1] == Logged(front);
      hide Identities;
    }
  }

  /** What the log says of an operation is how it last ended. */
  lemma LatestTells(es: seq<Event>, ids: seq<OpId>, op: nat)
    ensures Latest(Exec(FRESH, es).log, ids, op) == Some(true) <==> CompletedLast(Executions(es), ids, op)
    ensures Latest(Exec(FRESH, es).log, ids, op) == Some(false) <==>
            LastEnd(Executions(es), ids, op).Some? && !CompletedLast(Executions(es), ids, op)
  {
    LogIsExecutions(es);
    LatestIsLastEnd(Executions(es), ids, op);
  }

  // --- what a run is told, and where it leaves the manifest -------------------------------------

  /** The plan the manifest's latest run was given, and whether it was told to continue on failure. */
  function Told(es: seq<Event>): Option<(Plan, bool)> {
    if es == [] then None
    else
      var front, e := es[..|es| - 1], es[|es| - 1];
      if e.Reconcile? && Exec(FRESH, front).phase.Claimed? then Some((e.plan, e.goOn)) else Told(front)
  }

  /** Everything the run has quarantined broke when it was last executed, in this run. */
  predicate QuarantinedBroke(phase: Phase, xs: seq<Execution>, told: Option<(Plan, bool)>) {
    phase.Running? ==>
      && told == Some((phase.run.plan, phase.run.goOn))
      && forall i <- phase.run.failed :: i < phase.run.next && LastEnd(xs, Identities(phase.run.plan), i) == Some(Broke)
  }

  lemma LastEndGrows(xs: seq<Execution>, x: Execution)
    ensures forall ids, op: nat ::
      LastEnd(xs + [x], ids, op) == if Identities(x.plan) == ids && x.op == op then Some(x.end) else LastEnd(xs, ids, op)
  {
    assert (xs + [x])[..|xs|] == xs;
  }

  lemma OpKeepsQuarantine(s: State, e: Event, xs: seq<Execution>, told: Option<(Plan, bool)>)
    requires QuarantinedBroke(s.phase, xs, told) && e.Op? && s.phase.Running? && s.phase.run.next < |s.phase.run.plan|
    ensures QuarantinedBroke(Step(s, e).phase, xs + Executed(s.phase, e), told)
  {
    hide LastEnd, Identities, Pick, Owns;
    LastEndGrows(xs, Execution(s.phase.run.plan, s.phase.run.next, e.end));
    assert xs + [] == xs;
  }

  lemma StepKeepsQuarantine(s: State, e: Event, xs: seq<Execution>, told: Option<(Plan, bool)>)
    requires QuarantinedBroke(s.phase, xs, told)
    ensures var xs' := if e.Resubmit? && Resubmits(s) then [] else xs + Executed(s.phase, e);
      var told' := if e.Reconcile? && s.phase.Claimed? then Some((e.plan, e.goOn)) else told;
      QuarantinedBroke(Step(s, e).phase, xs', told')
  {
    if e.Op? && s.phase.Running? && s.phase.run.next < |s.phase.run.plan| {
      OpKeepsQuarantine(s, e, xs, told);
    } else {
      assert Executed(s.phase, e) == [] && xs + [] == xs;
    }
    hide LastEnd, Identities, Pick, Executed, Owns;
  }

  lemma {:induction false} RunIsAsTold(es: seq<Event>)
    ensures QuarantinedBroke(Exec(FRESH, es).phase, Executions(es), Told(es))
  {
    if es != [] {
      var front, e := es[..|es| - 1], es[|es| - 1];
      RunIsAsTold(front);
      ExecOneMore(es);
      StepKeepsQuarantine(Exec(FRESH, front), e, Executions(front), Told(front));
      hide Exec, Step, Executed, QuarantinedBroke;
    }
  }

  lemma ThenOne(es: seq<Event>, e: Event)
    ensures Exec(FRESH, es + [e]) == Step(Exec(FRESH, es), e)
  {
    assert (es + [e])[..|es|] == es;
    ExecOneMore(es + [e]);
  }

  /** A failed operation is quarantined and passed, the cursor and the sidecar held, if and only if the run was
      told to continue on failure; otherwise the manifest is on its way to failed. */
  lemma BrokenIsQuarantined(es: seq<Event>)
    requires Exec(FRESH, es).phase.Running?
    requires var run := Exec(FRESH, es).phase.run; run.next < |run.plan|
    ensures Told(es).Some? && Told(es).value.0 == Exec(FRESH, es).phase.run.plan
    ensures var s, s' := Exec(FRESH, es), Exec(FRESH, es + [Op(Broke)]);
      var run := s.phase.run;
      && s'.sidecar == s.sidecar && s'.place == s.place
      && (Told(es).value.1 <==> s'.phase.Running?)
      && (Told(es).value.1 ==> s'.phase.run == run.(next := run.next + 1, failed := run.failed + [run.next]))
      && (!Told(es).value.1 ==> s'.phase == Closing(AsFailed, false))
  {
    RunIsAsTold(es);
    ThenOne(es, Op(Broke));
    hide Exec, LastEnd, Identities;
  }

  /** Every other end: the run carries on past a completed operation, its cursor moving on only if it stood
      there; it leaves the manifest in processing with its cursor when it was stopped, at the operation or
      before it; and one that stopped short goes to failed. */
  lemma EndsAreKept(s: State, end: OpEnd)
    requires s.phase.Running? && s.phase.run.next < |s.phase.run.plan| && !end.Broke?
    requires end.Satisfied? ==> !Owns(s.phase.run.paused, s.phase.run.next, s.phase.run.plan[s.phase.run.next])
    ensures var run, s' := s.phase.run, Step(s, Op(end));
      && s'.place == s.place && s'.sidecar.Some? == s.sidecar.Some?
      && (Completed(end) <==> s'.phase.Running?)
      && (Completed(end) ==>
            && s'.phase.run.plan == run.plan && s'.phase.run.next == run.next + 1 && s'.phase.run.failed == run.failed
            && s'.phase.run.goOn == run.goOn
            && s'.phase.run.cursor == (if run.cursor == run.next then run.next + 1 else run.cursor))
      && (end.Incomplete? <==> s'.phase == Closing(AsFailed, false))
      && (s'.phase == Idle <==> end.Drained? || end.WindowShut? || end.Interrupted?)
      && (!Completed(end) && s.sidecar.Some? ==>
            s'.sidecar.value.cursor == s.sidecar.value.cursor && s'.sidecar.value.fingerprint == s.sidecar.value.fingerprint)
      && (end.Drained? || end.WindowShut? ==> s'.sidecar == s.sidecar && s'.log == s.log)
  {
    hide Identities, Pick, Lower;
  }

  /** What the claim and the gates before a run's operations leave: the manifest in processing with its sidecar,
      a new one if there was none and the write took effect; left as it is when its window is shut; on its way to
      failed when it is refused. */
  lemma GatesLeave(s: State, written: bool)
    requires s.phase == Idle && s.place == ToRun
    ensures var claimed := Step(s, Claim(written));
      var found := if s.sidecar.Some? then s.sidecar.value else Sidecar(0, Unrecorded, None);
      && claimed.place == Processing && claimed.phase == Claimed(found) && claimed.log == s.log
      && (claimed.sidecar == None <==> s.sidecar == None && !written)
      && (claimed.sidecar.Some? ==> claimed.sidecar.value == found)
      && Step(claimed, Shut) == claimed.(phase := Idle)
      && Step(claimed, Crash) == claimed.(phase := Idle)
      && Step(claimed, Reject) == claimed.(phase := Closing(AsFailed, false))
  {
  }

  /** A record left for one operation is another's exactly at the same position and for the same schema, table and
      index, up to case. */
  lemma OwnsByName(left: nat, other: Operation, i: nat, op: Operation)
    ensures Owns(Some(PausedAt(left, other)), i, op) <==>
              && left == i
              && Lower(other.target.schema) == Lower(op.target.schema)
              && Lower(other.target.table) == Lower(op.target.table)
              && Lower(other.target.name) == Lower(op.target.name)
    ensures !Owns(None, i, op)
  {
  }

  /** Where a closing manifest ends: in done if and only if it closed as done, in failed if it was refused,
      failed, stopped short or left operations for recovery; in processing if the move failed. */
  lemma ClosingLeaves(s: State, removed: bool, moved: bool)
    requires s.phase.Closing? && !s.phase.sidecarGone && s.place == Processing
    ensures var s' := Step(Step(s, RemoveSidecar(removed)), Move(moved));
      && s'.phase == Idle && s'.closed == Some(s.phase.closing) && s'.log == s.log
      && s'.sidecar == (if removed then None else s.sidecar)
      && (s'.place == Done <==> moved && s.phase.closing.AsDone?)
      && (s'.place == Failed <==> moved && !s.phase.closing.AsDone?)
      && (s'.place == Processing <==> !moved)
  {
  }

  predicate PlaceTells(s: State) {
    && (s.place == Done ==> s.closed.Some? && s.closed.value.AsDone?)
    && (s.place == Failed ==> s.closed.Some? && !s.closed.value.AsDone?)
    && (s.phase != Idle ==> s.place == Processing)
    && (s.place == Done || s.place == Failed ==> s.phase == Idle)
  }

  lemma StepKeepsPlace(s: State, e: Event)
    requires PlaceTells(s)
    ensures PlaceTells(Step(s, e))
  {
    hide Pick, Identities, Lower;
  }

  /** Over every history, whatever fails: a manifest is in done only if its last run closed it as done, and in
      failed only if it closed it otherwise. */
  lemma {:induction false} PlaceIsTheVerdict(es: seq<Event>)
    ensures PlaceTells(Exec(FRESH, es))
  {
    if es != [] {
      PlaceIsTheVerdict(es[..|es| - 1]);
      ExecOneMore(es);
      StepKeepsPlace(Exec(FRESH, es[..|es| - 1]), es[|es| - 1]);
      hide Exec, Step;
    }
  }

  /** Where the sweep leaves a manifest that is in processing, or was requeued over its sidecar before: back in
      the queue exactly when its session is gone and it can be moved, and without its sidecar exactly when,
      moreover, nothing is paused, nothing completed is to be skipped, and the file can be removed. */
  lemma SweepLeaves(s: State, seen: Sighting, moved: bool, removed: bool)
    requires s.phase == Idle && s.sidecar.Some? && (s.place == Processing || s.place == ToRun)
    ensures var s' := Step(s, Event.Recover(seen, moved, removed));
      && (s'.place == ToRun <==> s.place == ToRun || (seen.Gone? && moved))
      && (s'.sidecar == None <==>
            s'.place == ToRun && seen.Gone? && !seen.pausedOnServer && s.sidecar.value.cursor == 0 && removed)
      && (s'.sidecar.Some? ==> s'.sidecar == s.sidecar)
      && s'.log == s.log && s'.phase == Idle
  {
  }

  // --- main results ---------------------------------------------------------------------------

  /** Over every history of runs, crashes, stops and sweeps: a persisted cursor c names a plan, and
      operations 0..c-1 of that plan all completed. */
  lemma CursorMeansDone(es: seq<Event>)
    requires AllReliable(FRESH, es)
    ensures var s := Exec(FRESH, es);
      s.sidecar.Some? && s.sidecar.value.cursor > 0 ==>
        && s.sidecar.value.fingerprint.Of?
        && DoneUpTo(s.log, s.sidecar.value.fingerprint.ids, s.sidecar.value.cursor)
        && forall j | 0 <= j < s.sidecar.value.cursor :: CompletedLast(Executions(es), s.sidecar.value.fingerprint.ids, j)
  {
    ExecKeepsSound(FRESH, es);
    var s := Exec(FRESH, es);
    hide Exec, Latest, AllReliable;
    forall ids, j: nat
      ensures Latest(s.log, ids, j) == Some(true) <==> CompletedLast(Executions(es), ids, j)
    {
      LatestTells(es, ids, j);
    }
    hide CompletedLast;
  }

  /** Whatever plan the next run comes up with, the operations it skips are operations whose last
      execution completed: one that failed last is never skipped. */
  lemma ResumeSkipsOnlyDone(es: seq<Event>, plan: Plan)
    requires AllReliable(FRESH, es) && Exec(FRESH, es).phase.Claimed?
    ensures var s := Exec(FRESH, es);
      var from := ResumeFrom(s.phase.found, plan);
      && from <= |plan|
      && (forall j | 0 <= j < from :: Latest(s.log, Identities(plan), j) == Some(true))
      && (forall j | 0 <= j < from :: CompletedLast(Executions(es), Identities(plan), j))
  {
    ExecKeepsSound(FRESH, es);
    var s := Exec(FRESH, es);
    hide Exec, Latest, AllReliable;
    forall j | 0 <= j < ResumeFrom(s.phase.found, plan)
      ensures CompletedLast(Executions(es), Identities(plan), j)
    {
      LatestTells(es, Identities(plan), j);
    }
    hide CompletedLast;
  }

  /** A manifest is in done only under a plan every operation of which completed. */
  lemma DoneMeansDone(es: seq<Event>)
    requires AllReliable(FRESH, es) && Exec(FRESH, es).place == Done
    ensures var s := Exec(FRESH, es);
      && s.closed.Some? && s.closed.value.AsDone?
      && (forall j | 0 <= j < |s.closed.value.plan| :: Latest(s.log, Identities(s.closed.value.plan), j) == Some(true))
      && AllCompleted(Executions(es), s.closed.value.plan)
  {
    ExecKeepsSound(FRESH, es);
    var plan := Exec(FRESH, es).closed.value.plan;
    hide Exec, Latest, AllReliable;
    forall j | 0 <= j < |plan|
      ensures CompletedLast(Executions(es), Identities(plan), j)
    {
      LatestTells(es, Identities(plan), j);
    }
    hide CompletedLast;
  }

  lemma {:induction false} PickAt(plan: Plan, at: seq<nat>)
    requires forall i | 0 <= i < |at| :: at[i] < |plan|
    ensures |Pick(plan, at)| == |at| && forall i | 0 <= i < |at| :: Pick(plan, at)[i] == plan[at[i]]
  {
    if at != [] {
      PickAt(plan, at[..|at| - 1]);
    }
  }

  lemma RunSplits(s: State)
    requires Sound(s) && s.phase.Running?
    requires s.phase.run.next == |s.phase.run.plan| && s.phase.run.failed != []
    ensures var run := s.phase.run;
      && Step(s, Finish).phase == Closing(AsPartial(run.plan, Pick(run.plan, run.failed)), false)
      && Increasing(run.failed)
      && (forall i | 0 <= i < |run.failed| :: run.from <= run.failed[i] < |run.plan|)
      && (forall j | run.from <= j < |run.plan| ::
            Latest(s.log, Identities(run.plan), j) == (if j in run.failed then Some(false) else Some(true)))
  {
    hide Latest, DoneUpTo, Truthful, Identities, Pick;
    assert forall i | 0 <= i < |s.phase.run.failed| :: s.phase.run.failed[i] in s.phase.run.failed;
  }

  /** When a continue-on-failure run reaches the end of its plan with operations quarantined, the
      operations from its resume cursor on split, in plan order, into completed ones and exactly those
      of the recovery manifest. */
  lemma PartialSplits(es: seq<Event>)
    requires AllReliable(FRESH, es)
    requires var s := Exec(FRESH, es); s.phase.Running? && s.phase.run.next == |s.phase.run.plan| && s.phase.run.failed != []
    ensures var s := Exec(FRESH, es);
      var run := s.phase.run;
      var closing := Step(s, Finish).phase.closing;
      && closing.AsPartial? && |closing.remainder| == |run.failed| && Increasing(run.failed)
      && (forall i | 0 <= i < |run.failed| ::
            run.from <= run.failed[i] < |run.plan| && closing.remainder[i] == run.plan[run.failed[i]])
      && (forall j | run.from <= j < |run.plan| ::
            Latest(s.log, Identities(run.plan), j) == (if j in run.failed then Some(false) else Some(true)))
      && (forall j | run.from <= j < |run.plan| ::
            if j in run.failed then LastEnd(Executions(es), Identities(run.plan), j) == Some(Broke)
            else CompletedLast(Executions(es), Identities(run.plan), j))
  {
    ExecKeepsSound(FRESH, es);
    RunIsAsTold(es);
    var s := Exec(FRESH, es);
    var run := s.phase.run;
    hide Exec, AllReliable, Latest, Step, Sound, Identities, Pick, Increasing, LastEnd;
    RunSplits(s);
    PickAt(run.plan, run.failed);
    forall j | run.from <= j < |run.plan| && j !in run.failed
      ensures CompletedLast(Executions(es), Identities(run.plan), j)
    {
      LatestTells(es, Identities(run.plan), j);
    }
    hide CompletedLast;
  }

  lemma FinishByLog(s: State)
    requires Sound(s) && s.phase.Running? && s.phase.run.next == |s.phase.run.plan|
    ensures var plan, phase := s.phase.run.plan, Step(s, Finish).phase;
      && phase.Closing? && !phase.closing.AsFailed? && phase.closing.plan == plan
      && (phase.closing.AsDone? <==> forall j | 0 <= j < |plan| :: Latest(s.log, Identities(plan), j) == Some(true))
  {
    hide Latest, Identities, Pick, Increasing, Truthful;
    var run := s.phase.run;
    if run.failed == [] {
      assert run.cursor == |run.plan|;
    } else {
      assert run.failed[0] in run.failed;
      assert Latest(s.log, Identities(run.plan), run.failed[0]) == Some(false);
    }
  }

  /** Every operation of the plan completed when it was last executed. */
  predicate AllCompleted(xs: seq<Execution>, plan: Plan) {
    forall j | 0 <= j < |plan| :: CompletedLast(xs, Identities(plan), j)
  }

  lemma AllCompletedByLog(xs: seq<Execution>, plan: Plan)
    ensures AllCompleted(xs, plan) <==> forall j | 0 <= j < |plan| :: Latest(Logged(xs), Identities(plan), j) == Some(true)
  {
    forall j | 0 <= j < |plan|
      ensures Latest(Logged(xs), Identities(plan), j) == Some(true) <==> CompletedLast(xs, Identities(plan), j)
    {
      LatestIsLastEnd(xs, Identities(plan), j);
      hide Latest, LastEnd, Logged, Identities;
    }
    hide Latest, CompletedLast, Logged, Identities;
  }

  /** A run that reaches the end of its plan closes the manifest as done if and only if every operation of the
      plan completed when it was last executed. */
  lemma FinishTells(es: seq<Event>)
    requires AllReliable(FRESH, es)
    requires var s := Exec(FRESH, es); s.phase.Running? && s.phase.run.next == |s.phase.run.plan|
    ensures var plan := Exec(FRESH, es).phase.run.plan;
      var phase := Exec(FRESH, es + [Finish]).phase;
      && phase.Closing? && !phase.closing.AsFailed? && phase.closing.plan == plan
      && (phase.closing.AsDone? <==> AllCompleted(Executions(es), plan))
  {
    ThenOne(es, Finish);
    ExecKeepsSound(FRESH, es);
    FinishByLog(Exec(FRESH, es));
    LogIsExecutions(es);
    AllCompletedByLog(Executions(es), Exec(FRESH, es).phase.run.plan);
    hide Step, Sound, Latest, Identities, AllCompleted, Logged;
  }

  /** However a continue-on-failure run is stopped, the cursor it leaves never lies past a quarantined
      operation: the next run of the same plan retries every one of them. */
  lemma StopRetriesQuarantined(es: seq<Event>, stop: Event)
    requires AllReliable(FRESH, es) && Exec(FRESH, es).phase.Running?
    requires stop.Crash? || (stop.Op? && (stop.end.Drained? || stop.end.WindowShut? || stop.end.Interrupted?))
    ensures var s, s' := Exec(FRESH, es), Step(Exec(FRESH, es), stop);
      var run := s.phase.run;
      s'.phase == Idle && s'.sidecar.Some? ==>
        && s'.sidecar.value.fingerprint == Of(Identities(run.plan))
        && forall i <- run.failed :: ResumeFrom(s'.sidecar.value, run.plan) <= i
  {
    ExecKeepsSound(FRESH, es);
    var run := Exec(FRESH, es).phase.run;
    forall i <- run.failed
      ensures run.cursor <= i
    {
      var k :| 0 <= k < |run.failed| && run.failed[k] == i;
      assert run.failed[0] <= run.failed[k];
    }
  }

  // --- progress -----------------------------------------------------------------------------------

  /** Every file operation of this step takes effect. */
  predicate Effective(e: Event) {
    match e
    case Claim(written) => written
    case Reconcile(_, _, written) => written
    case Op(Satisfied(written)) => written
    case Op(Succeeded(written, _)) => written
    case RemoveSidecar(removed) => removed
    case Move(moved) => moved
    case Recover(_, moved, _) => moved
    case _ => true
  }

  /** A run's sidecar keeps up with it. */
  predicate Exact(s: State) {
    && (s.place == Done || s.place == Failed ==> s.sidecar == None)
    && match s.phase
       case Idle => true
       case Claimed(found) => s.place == Processing && s.sidecar == Some(found)
       case Running(run) =>
         && s.place == Processing && s.sidecar.Some?
         && s.sidecar.value.cursor == run.cursor && s.sidecar.value.fingerprint == Of(Identities(run.plan))
       case Closing(_, gone) => s.place == Processing && (gone ==> s.sidecar == None)
  }

  lemma OpKeepsExact(s: State, end: OpEnd)
    requires Exact(s) && Effective(Op(end))
    ensures Exact(Step(s, Op(end))) && Reliable(s, Op(end))
  {
    hide Pick;
  }

  lemma StepKeepsExact(s: State, e: Event)
    requires Exact(s) && Effective(e)
    ensures Exact(Step(s, e)) && Reliable(s, e)
  {
    hide Pick;
    if e.Op? {
      OpKeepsExact(s, e.end);
      hide Step, Exact, Effective, Reliable;
    }
  }

  lemma {:induction false} ExecKeepsExact(s: State, es: seq<Event>)
    requires Exact(s) && forall e <- es :: Effective(e)
    ensures Exact(Exec(s, es)) && AllReliable(s, es)
    decreases |es|
  {
    if es != [] {
      assert es[0] in es;
      StepKeepsExact(s, es[0]);
      hide Exact, Effective, Step;
      assert forall e <- es[1..] :: e in es;
      ExecKeepsExact(Step(s, es[0]), es[1..]);
    }
  }

  /** With every file operation effective, however a run is cut short the next run of the same plan takes
      up exactly where it was: at the next operation, or at the first quarantined one. Nothing completed
      before that point is run again. */
  lemma ResumesExactly(es: seq<Event>, stop: Event, pausedOnServer: bool, removed: bool, goOn: bool)
    requires (forall e <- es :: Effective(e)) && Exec(FRESH, es).phase.Running?
    requires stop.Crash? || (stop.Op? && (stop.end.Drained? || stop.end.WindowShut? || stop.end.Interrupted?))
    requires Step(Exec(FRESH, es), stop).phase == Idle
    ensures var run := Exec(FRESH, es).phase.run;
      var again := Step(Step(Step(Step(Exec(FRESH, es), stop), Event.Recover(Gone(pausedOnServer), true, removed)),
                             Claim(true)), Reconcile(run.plan, goOn, true));
      && again.phase.Running?
      && again.phase.run.next == (if run.failed == [] then run.next else run.failed[0])
  {
    ExecKeepsExact(FRESH, es);
    ExecKeepsSound(FRESH, es);
    var s := Exec(FRESH, es);
    hide Exec, Latest, DoneUpTo, Pick, Truthful;
    var run := s.phase.run;
    var s1 := Step(s, stop);
    assert s1.sidecar.Some? && s1.sidecar.value.cursor == run.cursor && s1.sidecar.value.fingerprint == Of(Identities(run.plan));
    var s2 := Step(s1, Event.Recover(Gone(pausedOnServer), true, removed));
    assert s2.place == ToRun && s2.phase == Idle && (s2.sidecar == s1.sidecar || (s2.sidecar == None && run.cursor == 0));
    var s3 := Step(s2, Claim(true));
    assert ResumeFrom(s3.phase.found, run.plan) == run.cursor;
  }

  /** Interrupted with the paused record written, seen paused by the sweep, and run again: from the cursor,
      with the record. */
  function RunAgain(s: State, removed: bool, goOn: bool): State
    requires s.phase.Running?
  {
    Step(Step(Step(Step(s, Op(Interrupted(true, true))), Event.Recover(Gone(true), true, removed)), Claim(true)),
         Reconcile(s.phase.run.plan, goOn, true))
  }

  lemma InterruptedRestarts(s: State, removed: bool, goOn: bool)
    requires Exact(s) && s.phase.Running? && s.phase.run.cursor <= s.phase.run.next < |s.phase.run.plan|
    ensures var run := s.phase.run;
      RunAgain(s, removed, goOn).phase == Running(Run(run.plan, goOn, run.cursor, run.cursor, run.cursor, [],
                                                      Some(PausedAt(run.next, run.plan[run.next]))))
  {
    hide Pick;
    var run := s.phase.run;
    var left := Sidecar(run.cursor, Of(Identities(run.plan)), Some(PausedAt(run.next, run.plan[run.next])));
    var s1 := Step(s, Op(Interrupted(true, true)));
    assert s1 == s.(log := s.log + [Record(run.plan, run.next, false)], sidecar := Some(left), phase := Idle);
    var s2 := Step(s1, Event.Recover(Gone(true), true, removed));
    assert s2 == s1.(place := ToRun);
    var s3 := Step(s2, Claim(true));
    assert s3 == s1.(phase := Claimed(left));
  }

  /** Up to this position the run knows the operation there for paused. */
  predicate Awaits(s: State, plan: Plan, at: nat)
    requires at < |plan|
  {
    s.phase.Running? ==> s.phase.run.plan == plan && (s.phase.run.next <= at ==> s.phase.run.paused == Some(PausedAt(at, plan[at])))
  }

  /** What an operation leaves of the run that goes on. */
  lemma OpRuns(s: State, end: OpEnd)
    requires s.phase.Running? && s.phase.run.next < |s.phase.run.plan|
    ensures var run, s' := s.phase.run, OpStep(s, end);
      && !s'.phase.Claimed?
      && (s'.phase.Running? ==>
            var run' := s'.phase.run;
            && run'.plan == run.plan && run.next <= run'.next <= run.next + 1
            && (run'.paused != run.paused ==>
                  run.paused.Some? && run.paused.value.op == run.next && run'.next == run.next + 1))
  {
    hide Rewrite, WithCursor, PausedAt, Owns;
  }

  lemma {:induction false} OpsAwait(s: State, plan: Plan, at: nat, ends: seq<OpEnd>)
    requires at < |plan| && Awaits(s, plan, at) && !s.phase.Claimed?
    ensures Awaits(Exec(s, Ops(ends)), plan, at)
    decreases |ends|
  {
    if ends != [] {
      ExecOne(s, Op(ends[0]), Ops(ends[1..]));
      var s' := Step(s, Op(ends[0]));
      if s.phase.Running? && s.phase.run.next < |s.phase.run.plan| {
        OpRuns(s, ends[0]);
        hide OpStep;
        assert Awaits(s', plan, at);
      }
      hide Awaits, Step, Exec, OpStep;
      OpsAwait(s', plan, at, ends[1..]);
    }
  }

  /** An operation left paused on the server, whatever was quarantined before it: the next run starts at the
      cursor, and however its operations end, whenever it stands at the paused one it owns it and does not
      skip it as satisfied. */
  lemma PausedIsOwned(es: seq<Event>, removed: bool, goOn: bool, ends: seq<OpEnd>)
    requires (forall e <- es :: Effective(e)) && Exec(FRESH, es).phase.Running?
    requires var run := Exec(FRESH, es).phase.run; run.next < |run.plan|
    ensures var run := Exec(FRESH, es).phase.run;
      var again := RunAgain(Exec(FRESH, es), removed, goOn);
      var later := Exec(again, Ops(ends));
      && again.phase.Running? && again.phase.run.plan == run.plan && again.phase.run.next == run.cursor
      && (later.phase.Running? && later.phase.run.next == run.next ==>
            && later.phase.run.plan == run.plan && Owns(later.phase.run.paused, run.next, run.plan[run.next])
            && forall w :: Step(later, Op(Satisfied(w))) == later)
  {
    ExecKeepsExact(FRESH, es);
    ExecKeepsSound(FRESH, es);
    var s := Exec(FRESH, es);
    assert s.phase.run.cursor <= s.phase.run.next by {
      hide Exec, Latest, DoneUpTo, Truthful;
    }
    hide Exec, Latest, DoneUpTo, Pick, Truthful;
    InterruptedRestarts(s, removed, goOn);
    OpsAwait(RunAgain(s, removed, goOn), s.phase.run.plan, s.phase.run.next, ends);
    hide RunAgain, Exact, Sound, RunSound, ReconcileStep, RecoverStep, Ops;
  }

  /** Where nothing was quarantined before it, it is the very operation the next run starts at. */
  lemma PausedIsTakenUp(es: seq<Event>, removed: bool, goOn: bool)
    requires (forall e <- es :: Effective(e)) && Exec(FRESH, es).phase.Running?
    requires var run := Exec(FRESH, es).phase.run; run.next < |run.plan| && run.failed == []
    ensures var run := Exec(FRESH, es).phase.run;
      var again := RunAgain(Exec(FRESH, es), removed, goOn);
      && again.phase.Running? && again.phase.run.next == run.next
      && Owns(again.phase.run.paused, run.next, run.plan[run.next])
      && forall w :: Step(again, Op(Satisfied(w))) == again
  {
    ExecKeepsExact(FRESH, es);
    ExecKeepsSound(FRESH, es);
    var s := Exec(FRESH, es);
    assert s.phase.run.cursor == s.phase.run.next by {
      hide Exec, Latest, DoneUpTo, Truthful;
    }
    PausedIsOwned(es, removed, goOn, []);
    ExecNothing(RunAgain(s, removed, goOn));
    hide RunAgain, Exec, Exact, Sound, RunSound, Step;
  }

  // --- edited manifests ---------------------------------------------------------------------------

  /** Whatever runs in this history under the identities of `plan` has at position j what `plan` has. Edits
      of other positions do not matter. */
  predicate UneditedAt(es: seq<Event>, plan: Plan, j: nat)
    requires j < |plan|
  {
    forall e <- es :: e.Reconcile? ==> SameAt(e.plan, plan, j)
  }

  predicate SameAt(other: Plan, plan: Plan, j: nat)
    requires j < |plan|
  {
    Identities(other) == Identities(plan) ==> j < |other| && other[j] == plan[j]
  }

  /** The same of what a state remembers. */
  predicate Remembers(s: State, plan: Plan, j: nat)
    requires j < |plan|
  {
    && (forall r <- s.log :: SameAt(r.plan, plan, j))
    && (s.phase.Running? ==> SameAt(s.phase.run.plan, plan, j))
  }

  /** A step forgets the log, leaves it, or adds one execution of the running plan's next operation. */
  lemma StepLogs(s: State, e: Event)
    ensures var s' := Step(s, e);
      && (|| s'.log == s.log || s'.log == []
          || (s.phase.Running? && s'.log == s.log + [Record(s.phase.run.plan, s.phase.run.next, true)])
          || (s.phase.Running? && s'.log == s.log + [Record(s.phase.run.plan, s.phase.run.next, false)]))
      && (s'.phase.Running? ==>
            || (s.phase.Running? && s'.phase.run.plan == s.phase.run.plan)
            || (e.Reconcile? && s'.phase.run.plan == e.plan))
  {
    hide Pick, Identities, Rewrite, WithCursor, Owns, PausedAt, ResumeFrom;
  }

  lemma StepRemembers(s: State, e: Event, plan: Plan, j: nat)
    requires j < |plan| && Remembers(s, plan, j) && UneditedAt([e], plan, j)
    ensures Remembers(Step(s, e), plan, j)
  {
    assert e in [e];
    StepLogs(s, e);
    hide Step, SameAt;
  }

  lemma {:induction false} ExecRemembers(s: State, es: seq<Event>, plan: Plan, j: nat)
    requires j < |plan| && Remembers(s, plan, j) && UneditedAt(es, plan, j)
    ensures Remembers(Exec(s, es), plan, j)
    decreases |es|
  {
    if es != [] {
      assert es[0] in es && forall e <- es[1..] :: e in es;
      StepRemembers(s, es[0], plan, j);
      hide Remembers, Step, SameAt;
      ExecRemembers(Step(s, es[0]), es[1..], plan, j);
    }
  }

  lemma {:induction false} LastRunIsLogged(log: seq<Record>, ids: seq<OpId>, op: nat)
    ensures var last := LastRun(log, ids, op);
      last.Some? ==> last.value in log && Identities(last.value.plan) == ids && last.value.op == op
  {
    if log != [] {
      LastRunIsLogged(log[..|log| - 1], ids, op);
    }
  }

  /** Operation j of the plan, exactly as the plan now has it, is what last ran there, and it completed. */
  predicate DoneAsWritten(log: seq<Record>, plan: Plan, j: nat)
    requires j < |plan|
  {
    var last := LastRun(log, Identities(plan), j);
    last.Some? && last.value.ok && j < |last.value.plan| && last.value.plan[j] == plan[j]
  }

  /** Position by position: an operation a run skips did complete in its last execution, and it was done as
      the manifest now has it if and only if what ran then is what the plan has there now. */
  lemma SkippedAsWritten(es: seq<Event>, plan: Plan, j: nat)
    requires AllReliable(FRESH, es) && Exec(FRESH, es).phase.Claimed?
    requires j < ResumeFrom(Exec(FRESH, es).phase.found, plan)
    ensures j < |plan|
    ensures var log := Exec(FRESH, es).log;
      var last := LastRun(log, Identities(plan), j);
      && last.Some? && last.value in log && last.value.ok
      && Identities(last.value.plan) == Identities(plan) && j < |last.value.plan|
      && (DoneAsWritten(log, plan, j) <==> last.value.plan[j] == plan[j])
  {
    ResumeSkipsOnlyDone(es, plan);
    var log := Exec(FRESH, es).log;
    hide Exec, AllReliable;
    assert Latest(log, Identities(plan), j) == Some(true);
    LastRunIsLogged(log, Identities(plan), j);
  }

  /** So it was, when that position was not edited since the manifest was last submitted, whatever was edited
      elsewhere or before. */
  lemma UneditedSkipIsDone(before: seq<Event>, since: seq<Event>, plan: Plan, j: nat)
    requires AllReliable(FRESH, before + since) && Exec(FRESH, before + since).phase.Claimed?
    requires Exec(FRESH, before).phase == Idle && Exec(FRESH, before).log == []
    requires j < |plan| && UneditedAt(since, plan, j)
    requires j < ResumeFrom(Exec(FRESH, before + since).phase.found, plan)
    ensures DoneAsWritten(Exec(FRESH, before + since).log, plan, j)
  {
    SkippedAsWritten(before + since, plan, j);
    ExecAppends(FRESH, before, since);
    ExecRemembers(Exec(FRESH, before), since, plan, j);
    hide Exec, AllReliable, LastRun, ResumeFrom, UneditedAt, Identities;
  }

  /** A first operation that completes, and a crash right after it. */
  function OneThenCrash(plan: Plan, goOn: bool): seq<Event> {
    [Claim(true), Reconcile(plan, goOn, true), Op(Succeeded(true, true)), Crash]
  }

  lemma OneThenCrashRuns(plan: Plan, goOn: bool)
    requires plan != []
    ensures Exec(FRESH, OneThenCrash(plan, goOn))
         == State(Processing, Some(Sidecar(1, Of(Identities(plan)), None)), [Record(plan, 0, true)], None, Idle)
  {
    hide Exec, Identities;
    ExecFour(FRESH, OneThenCrash(plan, goOn));
    assert [] + [Record(plan, 0, true)] == [Record(plan, 0, true)];
  }

  /** The fingerprint sees the command and the rendered target only. A first operation that completes, a
      crash, and the manifest edited to another operation of the same identity: the next run skips it, and
      it was done as written if and only if the edit changed nothing. */
  lemma EditIsNotSeen(was: Operation, now: Operation, rest: Plan, goOn: bool)
    requires Identity(was) == Identity(now)
    ensures var es := OneThenCrash([was] + rest, goOn) + [Event.Recover(Gone(false), true, true), Claim(true)];
      var s, plan := Exec(FRESH, es), [now] + rest;
      && s.phase.Claimed? && ResumeFrom(s.phase.found, plan) == 1
      && (DoneAsWritten(s.log, plan, 0) <==> was == now)
  {
    var before, after := [was] + rest, [now] + rest;
    var run := OneThenCrash(before, goOn);
    var again := [Event.Recover(Gone(false), true, true), Claim(true)];
    assert Identities(before) == Identities(after);
    OneThenCrashRuns(before, goOn);
    ExecAppends(FRESH, run, again);
    var s4 := Exec(FRESH, run);
    ExecOne(s4, again[0], [again[1]]);
    ExecOne(Step(s4, again[0]), again[1], []);
    assert again == [again[0]] + [again[1]] && [again[1]] == [again[1]] + [];
    LatestGrows([], Record(before, 0, true));
    assert [] + [Record(before, 0, true)] == [Record(before, 0, true)];
    hide Exec, Latest, Identities, OneThenCrash;
  }

  // --- what the two assumptions are for ---------------------------------------------------------

  /** n operations in a row completed and every cursor write taking effect. */
  function Completions(n: nat, unpaused: bool): seq<Event> {
    if n == 0 then [] else Completions(n - 1, unpaused) + [Op(Succeeded(true, unpaused))]
  }

  /** Completed under one plan: what is known of another is as it was. */
  ghost predicate LogGrewUnder(log: seq<Record>, log': seq<Record>, plan: Plan) {
    forall ids, op: nat :: ids != Identities(plan) ==> LastRun(log', ids, op) == LastRun(log, ids, op)
  }

  lemma {:induction false} CompletionsRun(s: State, n: nat, unpaused: bool)
    requires s.phase.Running? && s.phase.run.next + n <= |s.phase.run.plan| && s.phase.run.cursor == s.phase.run.next
    requires s.sidecar.Some?
    ensures var s' := Exec(s, Completions(n, unpaused));
      && s'.phase.Running? && s'.phase.run.plan == s.phase.run.plan
      && s'.phase.run.next == s'.phase.run.cursor == s.phase.run.next + n
      && s'.sidecar.Some? && s'.sidecar.value.fingerprint == s.sidecar.value.fingerprint
      && s'.sidecar.value.cursor == (if n == 0 then s.sidecar.value.cursor else s.phase.run.next + n)
      && LogGrewUnder(s.log, s'.log, s.phase.run.plan)
  {
    if n > 0 {
      CompletionsRun(s, n - 1, unpaused);
      var before, last := Completions(n - 1, unpaused), Op(Succeeded(true, unpaused));
      ExecAppends(s, before, [last]);
      var t := Exec(s, before);
      ExecOne(t, last, []);
      assert [last] + [] == [last];
      LatestGrows(t.log, Record(t.phase.run.plan, t.phase.run.next, true));
      hide LastRun, Latest, Exec;
    }
  }

  /** A run whose sidecar already bears another plan, and whose write binding it to this one was lost: after
      n more completed operations the sidecar is truthful if and only if the first n operations of the plan
      it bears were done already. A sidecar bearing none is never truthful then. */
  lemma AfterALostBinding(s: State, plan: Plan, goOn: bool, n: nat, unpaused: bool)
    requires Sound(s) && s.phase.Claimed? && s.sidecar.Some? && 0 < n <= |plan|
    requires s.sidecar.value.fingerprint != Of(Identities(plan))
    ensures var s' := Exec(Step(s, Reconcile(plan, goOn, false)), Completions(n, unpaused));
      && s'.sidecar.Some? && s'.sidecar.value.cursor == n
      && (Truthful(s'.log, s'.sidecar.value) <==>
            s.sidecar.value.fingerprint.Of? && DoneUpTo(s.log, s.sidecar.value.fingerprint.ids, n))
  {
    var s1 := Step(s, Reconcile(plan, goOn, false));
    assert s1.phase.run.next == s1.phase.run.cursor == 0;
    CompletionsRun(s1, n, unpaused);
    hide Exec, LastRun, Completions;
    var s' := Exec(s1, Completions(n, unpaused));
    if s.sidecar.value.fingerprint.Of? {
      forall j | 0 <= j < n
        ensures Latest(s'.log, s.sidecar.value.fingerprint.ids, j) == Latest(s.log, s.sidecar.value.fingerprint.ids, j)
      {
      }
    }
  }

  /** In the first run of a submission nothing was done before: there the binding is all that counts. */
  lemma LostBindingIsFatal(found: Sidecar, plan: Plan, goOn: bool, bound: bool, n: nat, unpaused: bool)
    requires found.cursor == 0 && found.fingerprint != Of(Identities(plan)) && 0 < n <= |plan|
    ensures var s := State(Processing, Some(found), [], None, Claimed(found));
      var s' := Exec(Step(s, Reconcile(plan, goOn, bound)), Completions(n, unpaused));
      s'.sidecar.Some? && (Truthful(s'.log, s'.sidecar.value) <==> bound)
  {
    var s := State(Processing, Some(found), [], None, Claimed(found));
    if bound {
      var s1 := Step(s, Reconcile(plan, goOn, true));
      CompletionsRun(s1, n, unpaused);
      CompletionsAreReliable(s1, n, unpaused);
      StepKeepsSound(s, Reconcile(plan, goOn, true));
      ExecKeepsSound(s1, Completions(n, unpaused));
    } else {
      AfterALostBinding(s, plan, goOn, n, unpaused);
      if found.fingerprint.Of? {
        assert Latest(s.log, found.fingerprint.ids, 0) == None;
      }
    }
  }

  lemma {:induction false} AllReliableAppends(s: State, a: seq<Event>, b: seq<Event>)
    requires AllReliable(s, a) && AllReliable(Exec(s, a), b)
    ensures AllReliable(s, a + b)
    decreases |a|
  {
    if a == [] {
      assert a + b == b;
    } else {
      assert (a + b)[0] == a[0] && (a + b)[1..] == a[1..] + b;
      AllReliableAppends(Step(s, a[0]), a[1..], b);
    }
  }

  lemma {:induction false} CompletionsAreReliable(s: State, n: nat, unpaused: bool)
    ensures AllReliable(s, Completions(n, unpaused))
  {
    if n > 0 {
      CompletionsAreReliable(s, n - 1, unpaused);
      AllReliableAppends(s, Completions(n - 1, unpaused), [Op(Succeeded(true, unpaused))]);
    }
  }

  /** Submitting a closed manifest again leaves a truthful state if and only if no sidecar with a cursor
      was left behind. */
  lemma ResubmissionNeedsNoCursor(s: State)
    requires Sound(s) && Resubmits(s)
    ensures Sound(Step(s, Resubmit)) <==> s.sidecar == None || s.sidecar.value.cursor == 0
  {
    if s.sidecar.Some? && s.sidecar.value.cursor > 0 {
      assert Latest([], s.sidecar.value.fingerprint.ids, 0) == None;
    }
  }

  /** A sidecar whose removal failed outlives its manifest: the same manifest submitted again is
      reported done without any of its operations having run. */
  lemma StaleSidecarSkipsEverything(op: Operation)
    ensures var once := [Claim(true), Reconcile([op], false, true), Op(Succeeded(true, true)), Finish];
      var again := [RemoveSidecar(false), Move(true), Resubmit, Claim(true), Reconcile([op], false, true), Finish,
                    RemoveSidecar(true), Move(true)];
      var s := Exec(FRESH, once + again);
      s.place == Done && s.log == []
  {
    var once := [Claim(true), Reconcile([op], false, true), Op(Succeeded(true, true)), Finish];
    var again := [RemoveSidecar(false), Move(true), Resubmit, Claim(true), Reconcile([op], false, true), Finish,
                  RemoveSidecar(true), Move(true)];
    var first, second := again[..4], again[4..];
    assert again == first + second;
    var left := Sidecar(1, Of(Identities([op])), None);
    var s4 := State(Processing, Some(left), [Record([op], 0, true)], None, Closing(AsDone([op]), false));
    var s8 := State(Processing, Some(left), [], None, Claimed(left));
    ExecFour(FRESH, once);
    assert Exec(FRESH, once) == s4;
    ExecFour(s4, first);
    assert Exec(s4, first) == s8;
    ExecFour(s8, second);
    hide Exec;
    ExecAppends(FRESH, once, again);
    ExecAppends(s4, first, second);
  }

  lemma ExecFour(s: State, es: seq<Event>)
    requires |es| == 4
    ensures Exec(s, es) == Step(Step(Step(Step(s, es[0]), es[1]), es[2]), es[3])
  {
    var a := Step(s, es[0]);
    var b := Step(a, es[1]);
    var c := Step(b, es[2]);
    assert Exec(s, es) == Exec(a, es[1..]);
    assert Exec(a, es[1..]) == Exec(b, es[2..]) by { assert es[1..][1..] == es[2..]; }
    assert Exec(b, es[2..]) == Exec(c, es[3..]) by { assert es[2..][1..] == es[3..]; }
    assert Exec(c, es[3..]) == Exec(Step(c, es[3]), []) by { assert es[3..][1..] == []; }
  }

  // --- a live orphan ----------------------------------------------------------------------------

  /** While no sweep finds the orphaned session gone, no engine touches its manifest:
      nothing of it runs a second time. */
  lemma {:induction false} LiveOrphanIsLeftAlone(s: State, es: seq<Event>)
    requires s.phase == Idle && s.place == Processing
    requires forall e <- es :: e.Recover? ==> !e.seen.Gone?
    ensures Exec(s, es) == s
    decreases |es|
  {
    if es != [] {
      assert Step(s, es[0]) == s;
      LiveOrphanIsLeftAlone(s, es[1..]);
    }
  }

  // --- one run, as the engine carries it out ------------------------------------------------------

  datatype Gate = Open | Closed | Refused | Dies

  /** What a run meets: its sidecar write, the gates before its operations, how each operation ended
      (the process dies when these run out), and its final file operations. */
  datatype Conduct = Conduct(written: bool, gate: Gate, plan: Plan, goOn: bool, bound: bool,
                             ends: seq<OpEnd>, removed: bool, moved: bool)

  function Ops(ends: seq<OpEnd>): seq<Event> {
    if ends == [] then [] else [Op(ends[0])] + Ops(ends[1..])
  }

  function Farewell(c: Conduct): seq<Event> {
    [RemoveSidecar(c.removed), Move(c.moved), Crash]
  }

  function EventsOf(c: Conduct): seq<Event> {
    [Claim(c.written)] +
    match c.gate
    case Open => [Reconcile(c.plan, c.goOn, c.bound)] + Ops(c.ends) + [Finish] + Farewell(c)
    case Closed => [Shut]
    case Refused => [Reject] + Farewell(c)
    case Dies => [Crash]
  }

  lemma ExecOne(s: State, e: Event, es: seq<Event>)
    ensures Exec(s, [e] + es) == Exec(Step(s, e), es)
  {
    assert ([e] + es)[1..] == es;
  }

  lemma ExecNothing(s: State)
    ensures Exec(s, []) == s
  {
  }

  lemma OpStepPhases(s: State, end: OpEnd)
    requires s.phase.Running? && s.phase.run.next < |s.phase.run.plan|
    ensures OpStep(s, end).phase.Closing? ==> !OpStep(s, end).phase.sidecarGone
    ensures !OpStep(s, end).phase.Claimed?
  {
  }

  predicate Deaf(s: State) {
    s.phase.Running? ==> |s.phase.run.plan| <= s.phase.run.next
  }

  lemma {:induction false} DeafToOps(s: State, ends: seq<OpEnd>, rest: seq<Event>)
    requires Deaf(s)
    ensures Exec(s, Ops(ends) + rest) == Exec(s, rest)
  {
    if ends == [] {
      assert Ops(ends) + rest == rest;
    } else {
      assert Ops(ends) + rest == [Op(ends[0])] + (Ops(ends[1..]) + rest);
      ExecOne(s, Op(ends[0]), Ops(ends[1..]) + rest);
      DeafToOps(s, ends[1..], rest);
    }
  }

  /** The end of a run, from wherever its operations left it. */
  function End(s: State, c: Conduct): State {
    Step(Step(Step(Step(s, Finish), RemoveSidecar(c.removed)), Move(c.moved)), Crash)
  }

  lemma EndIsExec(s: State, c: Conduct)
    ensures Exec(s, [Finish] + Farewell(c)) == End(s, c)
    ensures Exec(s, Farewell(c)) == Step(Step(Step(s, RemoveSidecar(c.removed)), Move(c.moved)), Crash)
  {
    ExecFour(s, [Finish] + Farewell(c));
    var a := Step(s, RemoveSidecar(c.removed));
    var b := Step(a, Move(c.moved));
    assert Farewell(c) == [RemoveSidecar(c.removed)] + ([Move(c.moved)] + ([Crash] + []));
    ExecOne(s, RemoveSidecar(c.removed), [Move(c.moved)] + ([Crash] + []));
    ExecOne(a, Move(c.moved), [Crash] + []);
    ExecOne(b, Crash, []);
  }

  class Engine {
    var place: Place
    var sidecar: Option<Sidecar>
    var log: seq<Record>
    var closed: Option<Closure>

    constructor ()
      ensures Disk(Idle) == FRESH
    {
      place, sidecar, log, closed := ToRun, None, [], None;
    }

    /** The state with the given phase. */
    function Disk(phase: Phase): State
      reads this
    {
      State(place, sidecar, log, closed, phase)
    }

    /** Rewrites the sidecar's cursor after operation i, if the cursor stands exactly there. */
    method AdvanceCursor(cursor: nat, i: nat, written: bool) returns (next: nat)
      modifies this`sidecar
      ensures next == if cursor == i then i + 1 else cursor
      ensures sidecar == if cursor == i then WithCursor(old(sidecar), i + 1, written) else old(sidecar)
    {
      if cursor != i {
        return cursor;
      }
      if sidecar.Some? && written {
        sidecar := Some(sidecar.value.(cursor := i + 1));
      }
      return i + 1;
    }

    /** One operation: what it leaves on disk and whether the run carries on. */
    method RunStep(run: Run, end: OpEnd) returns (phase: Phase)
      requires run.next < |run.plan|
      modifies this
      ensures Disk(phase) == OpStep(old(Disk(Running(run))), end)
    {
      var i := run.next;
      match end {
        case Drained => phase := Idle;
        case WindowShut => phase := Idle;
        case Incomplete =>
          log := log + [Record(run.plan, i, false)];
          phase := Closing(AsFailed, false);
        case Satisfied(written) =>
          if Owns(run.paused, i, run.plan[i]) {
            return Running(run);
          }
          log := log + [Record(run.plan, i, true)];
          var cursor := AdvanceCursor(run.cursor, i, written);
          phase := Running(run.(next := i + 1, cursor := cursor));
        case Succeeded(written, unpaused) =>
          var paused := run.paused;
          if paused.Some? && paused.value.op == i {
            if sidecar.Some? && unpaused {
              sidecar := Some(sidecar.value.(paused := None));
            }
            paused := None;
          }
          log := log + [Record(run.plan, i, true)];
          var cursor := AdvanceCursor(run.cursor, i, written);
          phase := Running(run.(next := i + 1, cursor := cursor, paused := paused));
        case Interrupted(resumable, noted) =>
          if resumable && sidecar.Some? && noted {
            sidecar := Some(sidecar.value.(paused := Some(PausedAt(i, run.plan[i]))));
          }
          log := log + [Record(run.plan, i, false)];
          phase := Idle;
        case Broke =>
          log := log + [Record(run.plan, i, false)];
          phase := if run.goOn then Running(run.(next := i + 1, failed := run.failed + [i])) else Closing(AsFailed, false);
      }
    }

    /** Binds the sidecar to the plan and says where the run resumes. */
    method ReconcileResumePlan(found: Sidecar, plan: Plan, bound: bool) returns (from: nat)
      modifies this`sidecar
      ensures from == ResumeFrom(found, plan)
      ensures sidecar == if old(sidecar).Some? && bound
                         then Some(old(sidecar).value.(cursor := from, fingerprint := Of(Identities(plan)))) else old(sidecar)
    {
      from := found.cursor;
      if from > 0 {
        if from > |plan| || (found.fingerprint != Unrecorded && found.fingerprint != Of(Identities(plan))) {
          from := 0;
        }
      }
      if sidecar.Some? && bound {
        sidecar := Some(sidecar.value.(cursor := from, fingerprint := Of(Identities(plan))));
      }
    }

    method Finalize(closing: Closure, c: Conduct)
      modifies this
      ensures Disk(Idle) == Step(Step(Step(old(Disk(Closing(closing, false))), RemoveSidecar(c.removed)), Move(c.moved)), Crash)
    {
      if c.removed {
        sidecar := None;
      }
      if c.moved {
        place := if closing.AsDone? then Done else Failed;
      }
      closed := Some(closing);
    }

    /** The operations of the plan from the resume cursor on, and the end of the run. */
    method RunOperations(run: Run, c: Conduct)
      modifies this
      ensures Disk(Idle) == Exec(old(Disk(Running(run))), Ops(c.ends) + ([Finish] + Farewell(c)))
    {
      hide OpStep, Exec;
      ghost var rest := [Finish] + Farewell(c);
      ghost var target := Exec(Disk(Running(run)), Ops(c.ends) + rest);
      var phase, k := Running(run), 0;
      while k < |c.ends| && phase.Running? && phase.run.next < |phase.run.plan|
        invariant k <= |c.ends|
        invariant Exec(Disk(phase), Ops(c.ends[k..]) + rest) == target
        invariant phase.Closing? ==> !phase.sidecarGone
        invariant !phase.Claimed?
      {
        assert Ops(c.ends[k..]) + rest == [Op(c.ends[k])] + (Ops(c.ends[k + 1..]) + rest);
        ExecOne(Disk(phase), Op(c.ends[k]), Ops(c.ends[k + 1..]) + rest);
        OpStepPhases(Disk(phase), c.ends[k]);
        phase := RunStep(phase.run, c.ends[k]);
        k := k + 1;
      }
      if k == |c.ends| {
        assert Ops(c.ends[k..]) + rest == rest;
      } else {
        DeafToOps(Disk(phase), c.ends[k..], rest);
      }
      EndIsExec(Disk(phase), c);
      if phase.Running? && phase.run.next >= |phase.run.plan| {
        phase := Closing(if phase.run.failed == [] then AsDone(phase.run.plan)
                         else AsPartial(phase.run.plan, Pick(phase.run.plan, phase.run.failed)), false);
      }
      if phase.Closing? {
        Finalize(phase.closing, c);
      }
    }

    /** Claims the manifest and carries the run out. */
    method ProcessOne(c: Conduct)
      requires place == ToRun
      modifies this
      ensures Disk(Idle) == Exec(old(Disk(Idle)), EventsOf(c))
    {
      hide Exec, Ops, Farewell, OpStep;
      ghost var start := Disk(Idle);
      place := Processing;
      var found := if sidecar.Some? then sidecar.value else Sidecar(0, Unrecorded, None);
      if c.written {
        sidecar := Some(found);
      }
      ghost var claimed := Disk(Claimed(found));
      assert claimed == Step(start, Claim(c.written));
      ghost var later := EventsOf(c)[1..];
      assert EventsOf(c) == [Claim(c.written)] + later;
      ExecOne(start, Claim(c.written), later);
      match c.gate {
        case Closed =>
          assert later == [Shut] + [];
          ExecOne(claimed, Shut, []);
          ExecNothing(Disk(Idle));
        case Dies =>
          assert later == [Crash] + [];
          ExecOne(claimed, Crash, []);
          ExecNothing(Disk(Idle));
        case Refused =>
          assert later == [Reject] + Farewell(c);
          ExecOne(claimed, Reject, Farewell(c));
          EndIsExec(Disk(Closing(AsFailed, false)), c);
          Finalize(AsFailed, c);
        case Open =>
          assert later == [Reconcile(c.plan, c.goOn, c.bound)] + (Ops(c.ends) + ([Finish] + Farewell(c)));
          ExecOne(claimed, Reconcile(c.plan, c.goOn, c.bound), Ops(c.ends) + ([Finish] + Farewell(c)));
          var from := ReconcileResumePlan(found, c.plan, c.bound);
          RunOperations(Run(c.plan, c.goOn, from, from, from, [], found.paused), c);
      }
    }

    /** The sweep's facts: what the server's answers say of the recorded session. */
    method FactsWith(recorded: Signature, session: Option<Session>, states: Option<seq<string>>) returns (seen: Sighting)
      ensures seen == Seen(recorded, session, states)
      ensures seen.Unreadable? <==> session == None || states == None
      ensures seen.Live? <==>
                && session.Some? && states.Some?
                && session.value.present && session.value.active && session.value.loginTime == recorded.loginTime
                && (recorded.marker == "" || Lower(recorded.marker) <= Lower(session.value.contextInfo))
      ensures seen.Gone? ==> (seen.pausedOnServer <==> "PAUSED" in states.value)
    {
      if session == None || states == None {
        return Unreadable;
      }
      var paused := false;
      for i := 0 to |states.value|
        invariant paused <==> "PAUSED" in states.value[..i]
      {
        if states.value[i] == "PAUSED" {
          paused := true;
          break;
        }
      }
      return if IsOrphan(session.value, recorded) then Live else Gone(paused);
    }

    /** The sweep over this manifest. */
    method Recover(recorded: Signature, session: Option<Session>, states: Option<seq<string>>, moved: bool, removed: bool)
      modifies this
      ensures Disk(Idle) == Step(old(Disk(Idle)), Event.Recover(Seen(recorded, session, states), moved, removed))
    {
      var seen := FactsWith(recorded, session, states);
      if sidecar == None || !seen.Gone? {
        return;
      }
      var keep := seen.pausedOnServer || sidecar.value.cursor > 0;
      if moved && place == Processing {
        place := ToRun;
      } else if place != ToRun {
        return;
      }
      if !keep && removed {
        sidecar := None;
      }
    }
  }
}
