/** What stands paused on the server when an index operation is about to run: its own work, to be resumed;
    other work, to be refused or, with the manifest's consent, aborted; or nothing. Own work that the
    sidecar does not record is recognized by its statement text. */
module PausedRebuilds {
  import opened Options
  import opened Text
  import opened Quoting
  import opened StatementMatch
  import CrashResume

  // --- what stands on the table ---------------------------------------------------------------

  /** A row of the server's resumable operations. */
  datatype Resumable = Resumable(state: string, target: Target, text: string)

  datatype Standing = Clear | Own | Foreign(index: string)

  predicate OnTable(r: Resumable, t: Target) {
    && Lower(r.state) == Lower("PAUSED")
    && Lower(r.target.schema) == Lower(t.schema) && Lower(r.target.table) == Lower(t.table)
  }

  predicate IsOwn(r: Resumable, t: Target, sql: string) {
    OnTable(r, t) && Lower(r.target.index) == Lower(t.index) && SameStatement(r.text, sql)
  }

  /** The first paused operation on the table. */
  function FirstOn(rows: seq<Resumable>, t: Target): (i: Option<nat>)
    ensures i == None ==> forall r <- rows :: !OnTable(r, t)
    ensures i.Some? ==> i.value < |rows| && OnTable(rows[i.value], t)
                        && forall j | 0 <= j < i.value :: !OnTable(rows[j], t)
    decreases |rows|
  {
    if rows == [] then None
    else if OnTable(rows[0], t) then Some(0)
    else match FirstOn(rows[1..], t)
      case None => None
      case Some(i) => assert rows[1..][i] == rows[i + 1]; Some(i + 1)
  }

  /** Own work wins over any pause of a sibling; among other work the first row names the holder. */
  function StandingOf(rows: seq<Resumable>, t: Target, sql: string): Standing {
    if exists r <- rows :: IsOwn(r, t, sql) then Own
    else match FirstOn(rows, t)
      case None => Clear
      case Some(i) => Foreign(rows[i].target.index)
  }

  method ResumableStandingFor(rows: seq<Resumable>, t: Target, sql: string) returns (standing: Standing)
    ensures standing == StandingOf(rows, t, sql)
  {
    hide SameStatement, Lower;
    var foreign := None;
    for i := 0 to |rows|
      invariant forall j | 0 <= j < i :: !IsOwn(rows[j], t, sql)
      invariant foreign == None ==> forall j | 0 <= j < i :: !OnTable(rows[j], t)
      invariant foreign.Some? ==> FirstOn(rows, t).Some? && rows[FirstOn(rows, t).value].target.index == foreign.value
    {
      if !OnTable(rows[i], t) {
        continue;
      }
      if Lower(rows[i].target.index) == Lower(t.index) && SameStatement(rows[i].text, sql) {
        assert IsOwn(rows[i], t, sql);
        return Own;
      }
      if foreign == None {
        foreign := Some(rows[i].target.index);
        assert FirstOn(rows, t) == Some(i);
      }
    }
    return if foreign.Some? then Foreign(foreign.value) else Clear;
  }

  // --- what is sent before the operation ------------------------------------------------------

  /** What an operation meets: whether a probe is wired, whether the sidecar claims the pause at its
      position, the operation with its lock options and its statement, the probe's two reads (None when
      unreadable), the manifest's consent, and the aborter with whether its ABORT would succeed. */
  datatype Facts = Facts(wired: bool, claimed: bool, op: Operation, res: ResolvedOptions, sql: string,
                         pausedHere: Option<bool>, rows: Option<seq<Resumable>>, consent: bool, aborter: Option<bool>)

  /** Issue this statement; stop and leave the manifest for the next run; or fail the operation. */
  datatype Verdict = Issue(sql: string) | Unknown | Refused

  datatype Prep = Prep(sent: seq<string>, verdict: Verdict)

  function Clearing(f: Facts, t: Target, blocker: string): Prep
    requires ResumableTarget(f.op) == Some(t)
  {
    if Lower(blocker) != Lower(t.index) || !f.consent || f.aborter == None then Prep([], Refused)
    else Prep([ResumableControlSQL(f.op, "ABORT").value], if f.aborter.value then Issue(f.sql) else Refused)
  }

  function Prepared(f: Facts): Prep {
    var target := ResumableTarget(f.op);
    if f.claimed then
      Prep([], Issue(if f.wired && f.pausedHere == Some(true) && target.Some? then ResumeSQL(f.op, f.res).value else f.sql))
    else if !f.wired || target == None then Prep([], Issue(f.sql))
    else if f.rows == None then Prep([], Unknown)
    else
      match StandingOf(f.rows.value, target.value, f.sql)
      case Clear => Prep([], Issue(f.sql))
      case Own => Prep([], Issue(f.sql))
      case Foreign(blocker) => Clearing(f, target.value, blocker)
  }

  /** Whether a paused row is this operation's own work, or the sidecar says one is. */
  predicate KnownAsOwn(f: Facts) {
    f.claimed || (f.rows.Some? && ResumableTarget(f.op).Some?
                  && exists r <- f.rows.value :: IsOwn(r, ResumableTarget(f.op).value, f.sql))
  }

  /** The table's first paused row bears the operation's own index. */
  predicate FirstIsNamesake(f: Facts) {
    ResumableTarget(f.op).Some? && f.rows.Some? &&
    var t, rows := ResumableTarget(f.op).value, f.rows.value;
    FirstOn(rows, t).Some? && Lower(rows[FirstOn(rows, t).value].target.index) == Lower(t.index)
  }

  lemma SentIsAbort(f: Facts)
    ensures forall s <- Prepared(f).sent :: ResumableControlSQL(f.op, "ABORT") == Some(s)
    ensures |Prepared(f).sent| <= 1
  {
    hide StandingOf, Lower, ControlText;
  }

  lemma SentWhen(f: Facts)
    ensures Prepared(f).sent != [] <==> f.wired && f.consent && f.aborter.Some? && !KnownAsOwn(f) && FirstIsNamesake(f)
  {
    hide ControlText, Lower, SameStatement, OnTable;
  }

  /** An ABORT is sent if and only if the manifest consents, nothing paused is known as its own work, and
      the first pause on its table is of its own index. It is one statement and destroys no other index's
      work, whatever names there are: read back, it names exactly the operation's own target. */
  lemma AbortsOnlyItsNamesake(f: Facts)
    ensures Prepared(f).sent != [] <==> f.wired && f.consent && f.aborter.Some? && !KnownAsOwn(f) && FirstIsNamesake(f)
    ensures forall s <- Prepared(f).sent :: ReadControl(s) == Some((ResumableTarget(f.op).value, "ABORT"))
    ensures |Prepared(f).sent| <= 1
  {
    SentWhen(f);
    SentIsAbort(f);
    hide Prepared, KnownAsOwn, FirstIsNamesake, ControlText, ReadControl;
    forall s <- Prepared(f).sent
      ensures ReadControl(s) == Some((ResumableTarget(f.op).value, "ABORT"))
    {
      ControlReadsBack(ResumableTarget(f.op).value, "ABORT");
    }
  }

  /** What follows an ABORT: the planned statement is issued if and only if it succeeded, and the operation is
      refused otherwise. And a namesake's pause that may not be aborted is refused, nothing being sent. */
  lemma AbortDecides(f: Facts)
    ensures Prepared(f).sent != [] ==> f.aborter.Some? && Prepared(f).verdict == if f.aborter.value then Issue(f.sql) else Refused
    ensures f.wired && f.rows.Some? && !KnownAsOwn(f) && FirstIsNamesake(f) ==>
              if f.consent && f.aborter.Some? then Prepared(f).sent != [] else Prepared(f) == Prep([], Refused)
  {
    hide ControlText, Lower, SameStatement, OnTable;
  }

  /** Work known as its own is continued and never aborted; a sibling's pause that stands first is always
      refused, with consent or without, and nothing is sent. */
  lemma PausesAreRespected(f: Facts)
    requires f.wired && ResumableTarget(f.op).Some? && (f.claimed || f.rows.Some?)
    ensures KnownAsOwn(f) ==> Prepared(f).sent == [] && Prepared(f).verdict.Issue?
    ensures !KnownAsOwn(f) && (exists r <- f.rows.value :: OnTable(r, ResumableTarget(f.op).value)) && !FirstIsNamesake(f) ==>
              Prepared(f) == Prep([], Refused)
    ensures !KnownAsOwn(f) && (forall r <- f.rows.value :: !OnTable(r, ResumableTarget(f.op).value)) ==>
              Prepared(f) == Prep([], Issue(f.sql))
  {
    hide Lower, SameStatement;
  }

  /** The only statement issued in place of the planned one is a RESUME of exactly its own target, where the
      sidecar claims the pause and the server confirms it. */
  lemma OnlyClaimedWorkIsResumed(f: Facts)
    requires Prepared(f).verdict.Issue? && Prepared(f).verdict.sql != f.sql
    ensures f.claimed && f.wired && f.pausedHere == Some(true) && ResumableTarget(f.op).Some?
    ensures ReadControl(Prepared(f).verdict.sql) == Some((ResumableTarget(f.op).value, ResumeAction(f.res)))
  {
    hide ControlText, ReadControl, ResumeAction, StandingOf, Lower;
    assert f.claimed && f.wired && f.pausedHere == Some(true) && ResumableTarget(f.op).Some?;
    hide Prepared;
    ControlReadsBack(ResumableTarget(f.op).value, ResumeAction(f.res));
  }

  /** No statement is issued on an unreadable view, and none is sent: unless the sidecar claims the pause,
      and then the planned statement is, a fresh rebuild where one may stand paused. */
  lemma UnreadableIsNotClear(f: Facts)
    requires f.wired && ResumableTarget(f.op).Some? && f.rows == None && f.pausedHere == None
    ensures Prepared(f) == if f.claimed then Prep([], Issue(f.sql)) else Prep([], Unknown)
  {
  }

  /** Names are matched with case folded, so a case twin of the table or of the index could pass for ours.
      Where the rows that match that far bear statements for their own targets none does: own work is found
      if and only if the same statement stands paused on exactly this schema, table and index. */
  lemma OwnWorkIsOfThisIndex(rows: seq<Resumable>, t: Target, sql: string)
    requires forall r <- rows | SameNamesFolded(r.target, t) :: SameForm(sql, t, r.text, r.target)
    ensures StandingOf(rows, t, sql) == Own <==>
            exists r <- rows :: Lower(r.state) == Lower("PAUSED") && r.target == t && SameStatement(r.text, sql)
  {
    hide SameStatement, SameForm, Lower;
    forall r <- rows | IsOwn(r, t, sql)
      ensures r.target == t
    {
      MatchingFormIsOurs(sql, t, r.text, r.target);
    }
    forall r <- rows | Lower(r.state) == Lower("PAUSED") && r.target == t && SameStatement(r.text, sql)
      ensures IsOwn(r, t, sql)
    {
    }
  }

  // --- the sidecar's claim over several runs --------------------------------------------------

  datatype End = Succeeded | Stopped | Failed(pausedOrUnknown: bool)

  /** One run's attempt at the operation: what it meets, whether its options made it resumable, how it ended
      if it was issued, whether the sidecar write took effect, and whether the sidecar and its record then
      outlived until the next attempt: a closed manifest, a sweep or another operation's record ends them. */
  datatype Attempt = Attempt(facts: Facts, resumable: bool, end: End, written: bool, kept: bool)

  /** What the sidecar claims once an attempt has ended. An operation that could not be prepared on an
      unreadable view ends as a stopped one does, and a resumable one that is stopped is recorded as left
      paused. */
  function Recorded(f: Facts, a: Attempt): bool {
    match Prepared(f).verdict
    case Unknown => f.claimed || (a.resumable && a.written)
    case Refused => f.claimed
    case Issue(_) =>
      match a.end
      case Succeeded => f.claimed && !a.written
      case Stopped => f.claimed || (a.resumable && a.written)
      case Failed(left) => f.claimed || (a.resumable && a.written && f.wired && left)
  }

  function Claimed(attempts: seq<Attempt>): bool {
    if attempts == [] then false
    else
      var a := attempts[|attempts| - 1];
      a.kept && Recorded(a.facts.(claimed := Claimed(attempts[..|attempts| - 1])), a)
  }

  /** What the i-th attempt meets: its facts, with the claim the earlier ones left. */
  function Met(attempts: seq<Attempt>, i: nat): Facts
    requires i < |attempts|
  {
    attempts[i].facts.(claimed := Claimed(attempts[..i]))
  }

  predicate Ran(attempts: seq<Attempt>, i: nat)
    requires i < |attempts|
  {
    Prepared(Met(attempts, i)).verdict.Issue?
  }

  predicate Unreadable(f: Facts) {
    f.wired && ResumableTarget(f.op).Some? && f.rows == None
  }

  /** The statement was cut short: stopped, or failed with the server not denying a pause. */
  predicate CutShort(a: Attempt) {
    a.end == Stopped || (a.end == Failed(true) && a.facts.wired)
  }

  /** The i-th attempt records a pause: resumable, and cut short or not prepared at all. */
  predicate Sets(attempts: seq<Attempt>, i: nat)
    requires i < |attempts|
  {
    var a := attempts[i];
    a.kept && a.resumable && a.written && if Ran(attempts, i) then CutShort(a) else Prepared(Met(attempts, i)).verdict.Unknown?
  }

  /** The i-th attempt ends whatever record there is. */
  predicate Clears(attempts: seq<Attempt>, i: nat)
    requires i < |attempts|
  {
    !attempts[i].kept || (Ran(attempts, i) && attempts[i].end.Succeeded? && attempts[i].written)
  }

  /** The i-th attempt's record still stands after them all. */
  predicate Stands(attempts: seq<Attempt>, i: nat)
    requires i < |attempts|
  {
    Sets(attempts, i) && forall j | i < j < |attempts| :: !Clears(attempts, j)
  }

  /** And it is of a statement the attempt did issue. */
  predicate LeftPaused(attempts: seq<Attempt>, i: nat)
    requires i < |attempts|
  {
    Stands(attempts, i) && Ran(attempts, i)
  }

  lemma ClaimedWorkIsIssued(f: Facts)
    ensures f.claimed ==> Prepared(f).verdict.Issue?
  {
  }

  lemma OnlyUnreadableIsUnknown(f: Facts)
    ensures Prepared(f).verdict == Unknown <==> !f.claimed && Unreadable(f)
  {
    hide Lower, SameStatement, IsOwn;
  }

  lemma LastAttempt(attempts: seq<Attempt>)
    requires attempts != []
    ensures var n := |attempts| - 1;
      Claimed(attempts) <==> Sets(attempts, n) || (Claimed(attempts[..n]) && !Clears(attempts, n))
  {
    ClaimedWorkIsIssued(Met(attempts, |attempts| - 1));
    hide Prepared;
  }

  lemma EarlierAttempt(attempts: seq<Attempt>, i: nat)
    requires i < |attempts| - 1
    ensures var front := attempts[..|attempts| - 1];
      && Sets(front, i) == Sets(attempts, i) && Clears(front, i) == Clears(attempts, i)
      && Ran(front, i) == Ran(attempts, i)
  {
    assert attempts[..|attempts| - 1][..i] == attempts[..i];
    hide Prepared, Claimed;
  }

  /** For every history: the sidecar claims a pause if and only if some attempt recorded one and nothing has
      ended the record since. */
  lemma {:induction false} ClaimedWhen(attempts: seq<Attempt>)
    ensures Claimed(attempts) <==> exists i :: 0 <= i < |attempts| && Stands(attempts, i)
  {
    if attempts != [] {
      var n := |attempts| - 1;
      ClaimedWhen(attempts[..n]);
      LastAttempt(attempts);
      assert Stands(attempts, n) == Sets(attempts, n);
      hide Claimed, Sets, Clears, Stands;
      if i :| 0 <= i < n && Stands(attempts[..n], i) && !Clears(attempts, n) {
        StandsLonger(attempts, i);
      }
      if i :| 0 <= i < n && Stands(attempts, i) {
        StandsLonger(attempts, i);
      }
    }
  }

  lemma StandsLonger(attempts: seq<Attempt>, i: nat)
    requires i < |attempts| - 1
    ensures var n := |attempts| - 1; Stands(attempts, i) <==> Stands(attempts[..n], i) && !Clears(attempts, n)
  {
    hide Sets, Clears;
    forall j | i <= j < |attempts| - 1
      ensures Sets(attempts[..|attempts| - 1], j) == Sets(attempts, j)
      ensures Clears(attempts[..|attempts| - 1], j) == Clears(attempts, j)
    {
      EarlierAttempt(attempts, j);
    }
    hide Ran, Met;
    var front := attempts[..|attempts| - 1];
    if Stands(attempts, i) {
      forall j | i < j < |front|
        ensures !Clears(front, j)
      {
        assert !Clears(attempts, j);
      }
      assert !Clears(attempts, |front|);
    }
  }

  /** Where no resumable attempt met an unreadable view, it claims one if and only if a statement was issued
      and cut short, and the record of it still stands. */
  lemma ClaimsAreEarned(attempts: seq<Attempt>)
    requires forall a <- attempts :: a.resumable ==> !Unreadable(a.facts)
    ensures Claimed(attempts) <==> exists i :: 0 <= i < |attempts| && LeftPaused(attempts, i)
  {
    ClaimedWhen(attempts);
    forall i | 0 <= i < |attempts| && Stands(attempts, i)
      ensures LeftPaused(attempts, i)
    {
      OnlyUnreadableIsUnknown(Met(attempts, i));
      assert attempts[i] in attempts;
      hide Prepared, Claimed;
    }
    hide Stands, Claimed, Ran;
    assert forall i | 0 <= i < |attempts| :: LeftPaused(attempts, i) ==> Stands(attempts, i);
  }

  /** For every history in which no statement stands as cut short, whether one was ever issued or not: a
      pause is claimed if and only if a resumable attempt that met an unreadable view recorded it. */
  lemma ClaimedThoughNotLeft(attempts: seq<Attempt>)
    requires forall i | 0 <= i < |attempts| :: !LeftPaused(attempts, i)
    ensures Claimed(attempts) <==> exists i :: 0 <= i < |attempts| && Stands(attempts, i) && Unreadable(attempts[i].facts)
  {
    ClaimedWhen(attempts);
    forall i | 0 <= i < |attempts| && Stands(attempts, i)
      ensures Unreadable(attempts[i].facts)
    {
      assert !LeftPaused(attempts, i);
      OnlyUnreadableIsUnknown(Met(attempts, i));
      hide Prepared, Claimed;
    }
    hide Stands, Claimed, LeftPaused;
  }

  /** In particular, while the operation was never issued: its last attempt was that one. */
  lemma ClaimedThoughNeverRun(attempts: seq<Attempt>)
    requires attempts != [] && forall i | 0 <= i < |attempts| :: !Ran(attempts, i)
    ensures var a := attempts[|attempts| - 1];
      Claimed(attempts) <==> a.kept && a.resumable && a.written && Unreadable(a.facts)
  {
    var n := |attempts| - 1;
    assert !Ran(attempts, n);
    LastAttempt(attempts);
    OnlyUnreadableIsUnknown(Met(attempts, n));
    ClaimedWorkIsIssued(Met(attempts, n));
    hide Prepared, Claimed;
  }

  // --- whose work is resumed ------------------------------------------------------------------

  /** The planned statement is replaced by a RESUME if and only if the sidecar claims a pause and the server
      knows of one on the index, whosever it is. */
  lemma ResumedWhen(f: Facts)
    requires ResumableTarget(f.op).Some? && ResumeSQL(f.op, f.res) != Some(f.sql)
    ensures Prepared(f).verdict == Issue(ResumeSQL(f.op, f.res).value) <==> f.claimed && f.wired && f.pausedHere == Some(true)
  {
    hide ControlText, ResumeAction, StandingOf, Lower;
  }

  /** Another statement stands paused on the operation's own index, and the probe says so. */
  predicate OtherStands(f: Facts) {
    f.wired && f.pausedHere == Some(true) && !KnownAsOwn(f.(claimed := false)) && FirstIsNamesake(f)
  }

  lemma OtherWorkFound(f: Facts)
    requires OtherStands(f)
    ensures f.claimed ==> Prepared(f) == Prep([], Issue(ResumeSQL(f.op, f.res).value))
    ensures !f.claimed && !f.consent ==> Prepared(f) == Prep([], Refused)
    ensures !f.claimed && f.consent && f.aborter.Some? ==> Prepared(f).sent != []
  {
    SentWhen(f);
    hide Lower, SameStatement, ControlText, ResumeAction;
    assert f.(claimed := false) == f || f.claimed;
  }

  /** Exactly when other work is adopted, for every history: an attempt that finds another statement paused
      on its index resumes it, whatever the manifest consents to, if and only if some earlier attempt's
      record still stands. Without one it is refused, or aborted with consent. */
  lemma OtherWorkIsAdopted(attempts: seq<Attempt>, i: nat)
    requires i < |attempts| && OtherStands(attempts[i].facts)
    ensures var f := Met(attempts, i);
      if exists k :: 0 <= k < i && Stands(attempts[..i], k)
      then Prepared(f) == Prep([], Issue(ResumeSQL(f.op, f.res).value))
      else (!f.consent ==> Prepared(f) == Prep([], Refused)) && (f.consent && f.aborter.Some? ==> Prepared(f).sent != [])
  {
    ClaimedWhen(attempts[..i]);
    var f := Met(attempts, i);
    assert f.(claimed := false) == attempts[i].facts.(claimed := false);
    hide Prepared, Claimed, Stands, KnownAsOwn;
    assert FirstIsNamesake(f) == FirstIsNamesake(attempts[i].facts);
    OtherWorkFound(f);
  }

  /** A rebuild of [s].[t].[i] that finds the index held by another statement, without the manifest's consent. */
  function Finding(sql: string, other: string, res: ResolvedOptions): (f: Facts)
    requires !SameStatement(other, sql)
    ensures OtherStands(f) && !f.consent
  {
    var t := Target("s", "t", "i");
    var f := Facts(true, false, RebuildIndex("s", "t", "i", None), res, sql, Some(true),
                   Some([Resumable("PAUSED", t, other)]), false, None);
    assert f.rows.value[0] in f.rows.value && OnTable(f.rows.value[0], t);
    f
  }

  lemma FirstStands(a: Attempt)
    requires !a.facts.claimed && a.kept && a.resumable && a.written
    requires Unreadable(a.facts) || (Prepared(a.facts).verdict.Issue? && CutShort(a))
    ensures Stands([a], 0) && (!Unreadable(a.facts) ==> LeftPaused([a], 0))
  {
    OnlyUnreadableIsUnknown(a.facts);
    hide Prepared, Unreadable;
    assert [a][..0] == [] && a.facts.(claimed := false) == a.facts;
  }

  /** One input: the view could not be read once, and nothing was issued; the next run resumes the other
      statement's work. Had the first view been readable it would have refused. */
  lemma AdoptedAfterAnUnreadableView(sql: string, other: string, res: ResolvedOptions)
    requires !SameStatement(other, sql)
    ensures var found := Finding(sql, other, res);
      var first := Attempt(found.(rows := None, pausedHere := None), true, Stopped, true, true);
      var next := Attempt(found, true, Stopped, true, true);
      && Prepared(first.facts) == Prep([], Unknown)
      && Prepared(Met([first, next], 1)) == Prep([], Issue(ResumeSQL(found.op, res).value))
      && Prepared(found) == Prep([], Refused)
  {
    var found := Finding(sql, other, res);
    var first := Attempt(found.(rows := None, pausedHere := None), true, Stopped, true, true);
    var next := Attempt(found, true, Stopped, true, true);
    FirstStands(first);
    OtherWorkFound(found);
    hide Stands, KnownAsOwn, SameStatement;
    assert [first, next][..1] == [first];
    OtherWorkIsAdopted([first, next], 1);
  }

  /** The other: every view is readable and the claim was earned, but the pause it stands for was discarded on
      the server before the next run. */
  lemma AdoptedAfterADiscardedPause(sql: string, other: string, res: ResolvedOptions)
    requires !SameStatement(other, sql)
    ensures var found := Finding(sql, other, res);
      var first := Attempt(found.(rows := Some([]), pausedHere := Some(false)), true, Stopped, true, true);
      var next := Attempt(found, true, Stopped, true, true);
      && Prepared(first.facts) == Prep([], Issue(sql)) && LeftPaused([first], 0)
      && Prepared(Met([first, next], 1)) == Prep([], Issue(ResumeSQL(found.op, res).value))
      && Prepared(found) == Prep([], Refused)
  {
    var found := Finding(sql, other, res);
    var first := Attempt(found.(rows := Some([]), pausedHere := Some(false)), true, Stopped, true, true);
    var next := Attempt(found, true, Stopped, true, true);
    FirstStands(first);
    OtherWorkFound(found);
    hide Stands, KnownAsOwn, SameStatement;
    assert [first, next][..1] == [first];
    OtherWorkIsAdopted([first, next], 1);
  }

  /** The preparation as the engine carries it out; `sent` is what reached the server. */
  method Prepare(f: Facts) returns (sent: seq<string>, verdict: Verdict)
    ensures Prep(sent, verdict) == Prepared(f)
  {
    hide Lower, SameStatement, ControlText, ResumeAction;
    sent := [];
    var target := ResumableTarget(f.op);
    if f.claimed {
      verdict := Issue(f.sql);
      if f.wired && f.pausedHere == Some(true) && target.Some? {
        verdict := Issue(ResumeSQL(f.op, f.res).value);
      }
      return;
    }
    var standing := Clear;
    if f.wired && target.Some? {
      if f.rows == None {
        return [], Unknown;
      }
      standing := ResumableStandingFor(f.rows.value, target.value, f.sql);
    }
    verdict := Issue(f.sql);
    if standing.Foreign? {
      if Lower(standing.index) != Lower(target.value.index) || !f.consent || f.aborter == None {
        return [], Refused;
      }
      sent := [ResumableControlSQL(f.op, "ABORT").value];
      if !f.aborter.value {
        verdict := Refused;
      }
    }
  }

  // --- how an operation ends its step ---------------------------------------------------------

  /** The end of the operation's step, as the run carries it on: one that could not be prepared counts as
      stopped, one that was refused as failed, and one that failed while the server does not deny a pause as
      interrupted. `moved` says whether the cursor write of a completed one took effect. */
  function EndOf(f: Facts, a: Attempt, moved: bool): CrashResume.OpEnd {
    match Prepared(f).verdict
    case Unknown => CrashResume.Interrupted(a.resumable, a.written)
    case Refused => CrashResume.Broke
    case Issue(_) =>
      match a.end
      case Succeeded => CrashResume.OpEnd.Succeeded(moved, a.written)
      case Stopped => CrashResume.Interrupted(a.resumable, a.written)
      case Failed(left) =>
        if a.resumable && f.wired && left then CrashResume.Interrupted(a.resumable, a.written) else CrashResume.Broke
  }

  /** Which end it is: completed exactly if its statement was issued and succeeded; failed exactly if it was
      refused, or its statement failed and either it was not resumable or the server denies a pause. */
  lemma EndTells(f: Facts, a: Attempt, moved: bool)
    ensures EndOf(f, a, moved) == CrashResume.Broke <==>
              || Prepared(f).verdict.Refused?
              || (Prepared(f).verdict.Issue? && a.end.Failed? && (!a.resumable || !f.wired || a.end == Failed(false)))
    ensures CrashResume.Completed(EndOf(f, a, moved)) <==> Prepared(f).verdict.Issue? && a.end.Succeeded?
    ensures EndOf(f, a, moved).Interrupted? <==>
              || Prepared(f).verdict.Unknown?
              || (Prepared(f).verdict.Issue? && (a.end.Stopped? || (a.end == Failed(true) && a.resumable && f.wired)))
  {
    hide Prepared;
  }

  /** Where a refused or plainly failed operation leaves its manifest, after any history: quarantined and passed
      if the run was told to continue on failure, and on its way to failed otherwise, the sidecar as it was. */
  lemma RefusalLeaves(es: seq<CrashResume.Event>, f: Facts, a: Attempt, moved: bool)
    requires var s := CrashResume.Exec(CrashResume.FRESH, es);
      s.phase.Running? && s.phase.run.next < |s.phase.run.plan|
    requires Prepared(f).verdict.Refused? || (Prepared(f).verdict.Issue? && a.end == Failed(false))
    ensures var s := CrashResume.Exec(CrashResume.FRESH, es);
      var s' := CrashResume.Exec(CrashResume.FRESH, es + [CrashResume.Op(EndOf(f, a, moved))]);
      var told := CrashResume.Told(es);
      && told.Some? && s'.sidecar == s.sidecar
      && (told.value.1 ==> s'.phase.Running? && s'.phase.run.failed == s.phase.run.failed + [s.phase.run.next]
                            && s'.phase.run.cursor == s.phase.run.cursor)
      && (!told.value.1 ==> s'.phase == CrashResume.Closing(CrashResume.AsFailed, false))
  {
    EndTells(f, a, moved);
    CrashResume.BrokenIsQuarantined(es);
    hide Prepared, EndOf, CrashResume.Exec, CrashResume.Told;
  }

  /** The operation's step in the run: prepared, issued, and ended. */
  method Operate(f: Facts, a: Attempt, moved: bool) returns (sent: seq<string>, end: CrashResume.OpEnd)
    ensures sent == Prepared(f).sent && end == EndOf(f, a, moved)
  {
    hide Prepared;
    var verdict;
    sent, verdict := Prepare(f);
    var stopped := verdict.Unknown? || (verdict.Issue? && a.end.Stopped?);
    if verdict.Issue? && a.end.Succeeded? {
      return sent, CrashResume.OpEnd.Succeeded(moved, a.written);
    }
    if stopped || (verdict.Issue? && a.resumable && f.wired && a.end.pausedOrUnknown) {
      return sent, CrashResume.Interrupted(a.resumable, a.written);
    }
    return sent, CrashResume.Broke;
  }

  /** What the step of an ending leaves of the record at the run's position. */
  lemma EndRecords(s: CrashResume.State, end: CrashResume.OpEnd)
    requires s.phase.Running? && s.phase.run.next < |s.phase.run.plan|
    requires s.sidecar.Some? && s.sidecar.value.paused == s.phase.run.paused
    requires end.Succeeded? || end.Interrupted? || end.Broke?
    ensures var s', run := CrashResume.Step(s, CrashResume.Op(end)), s.phase.run;
      var owned := CrashResume.Owns(run.paused, run.next, run.plan[run.next]);
      s'.sidecar.Some? && (CrashResume.Owns(s'.sidecar.value.paused, run.next, run.plan[run.next]) <==>
        match end
        case Succeeded(_, unpaused) => owned && !unpaused
        case Interrupted(resumable, noted) => owned || (resumable && noted)
        case _ => owned)
  {
    hide CrashResume.Pick, CrashResume.ReconcileStep, CrashResume.RecoverStep, Lower;
  }

  /** What the sidecar claims here is what the run's own step leaves in it: for an operation at the run's
      position, with the run's record as in its sidecar. */
  lemma StepRecordsClaim(s: CrashResume.State, f: Facts, a: Attempt, moved: bool)
    requires s.phase.Running? && s.phase.run.next < |s.phase.run.plan|
    requires s.sidecar.Some? && s.sidecar.value.paused == s.phase.run.paused
    requires var run := s.phase.run; f.claimed == CrashResume.Owns(run.paused, run.next, run.plan[run.next])
    ensures var s', run := CrashResume.Step(s, CrashResume.Op(EndOf(f, a, moved))), s.phase.run;
      s'.sidecar.Some? && (CrashResume.Owns(s'.sidecar.value.paused, run.next, run.plan[run.next]) <==> Recorded(f, a))
  {
    ClaimedWorkIsIssued(f);
    EndRecords(s, EndOf(f, a, moved));
    hide Prepared, CrashResume.Step, CrashResume.Owns;
  }
}
