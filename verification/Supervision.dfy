/** The supervisor of one running statement and the wait for relief: incremental timers over a stream
    of monitoring samples, against what the whole history of samples says. */
module Supervision {
  import opened Options

  datatype Channel = BlockingPoll | LogPoll

  datatype Sample = Sample(blockingOthers: bool, blocking: bool, logOverCap: bool, blind: Option<Channel>)

  /** A sample as the supervisor meets it: when, and whether a graceful stop was requested then. */
  datatype Seen = Seen(at: int, sample: Sample, stop: bool)

  /** `maxBlock` is the safety cap, none when not positive. */
  datatype Capabilities = Capabilities(resumable: bool, ignoreBlocking: bool, maxBlock: int)

  datatype Pressure = Pressure(blockingOthers: bool, logOverCap: bool, blind: Option<Channel>, capped: bool)

  const NO_PRESSURE := Pressure(false, false, None, false)

  datatype Action = Continue | Pause | Cancel | Stop

  predicate AnyPressure(p: Pressure) {
    p.blockingOthers || p.logOverCap || p.blind.Some?
  }

  /** The least destructive reaction to a pressure. */
  function DecideReaction(p: Pressure, caps: Capabilities): Action {
    if !AnyPressure(p) then Continue
    else if p.blind.Some? then Cancel
    else if caps.resumable then Pause
    else Cancel
  }

  // --- the history ----------------------------------------------------------------------------

  predicate Ordered(seen: seq<Seen>) {
    forall i, j | 0 <= i < j < |seen| :: seen[i].at <= seen[j].at
  }

  datatype Flag = Others | Anyone | LogFull

  predicate Raised(s: Sample, f: Flag) {
    match f
    case Others => s.blockingOthers
    case Anyone => s.blocking
    case LogFull => s.logOverCap
  }

  /** The flag is up on every sample from j to i. */
  predicate UpSince(seen: seq<Seen>, j: int, i: int, f: Flag)
    requires i < |seen|
  {
    0 <= j <= i && forall k | j <= k <= i :: Raised(seen[k].sample, f)
  }

  /** At sample i the flag has been up without a break for at least `span`. */
  ghost predicate UpFor(seen: seq<Seen>, i: int, f: Flag, span: int)
    requires i < |seen|
  {
    exists j :: UpSince(seen, j, i, f) && seen[i].at - seen[j].at >= span
  }

  /** Blocking a session that may not stay blocked for the whole timeout, unless that is waived. */
  ghost predicate YieldDue(seen: seq<Seen>, i: int, caps: Capabilities, timeout: int)
    requires i < |seen|
  {
    !caps.ignoreBlocking && UpFor(seen, i, Others, timeout)
  }

  /** Blocking anyone at all for as long as the safety cap. */
  ghost predicate CapDue(seen: seq<Seen>, i: int, caps: Capabilities)
    requires i < |seen|
  {
    caps.maxBlock > 0 && UpFor(seen, i, Anyone, caps.maxBlock)
  }

  predicate StopDue(seen: seq<Seen>, i: int, caps: Capabilities)
    requires 0 <= i < |seen|
  {
    caps.resumable && seen[i].stop
  }

  /** Sample i calls for a reaction. */
  ghost predicate Due(seen: seq<Seen>, i: int, caps: Capabilities, timeout: int)
    requires 0 <= i < |seen|
  {
    || StopDue(seen, i, caps)
    || seen[i].sample.blind.Some?
    || seen[i].sample.logOverCap
    || YieldDue(seen, i, caps, timeout)
    || CapDue(seen, i, caps)
  }

  /** Which one: a requested stop first, then the loss of sight, then what the operation allows. */
  function DueAction(seen: seq<Seen>, i: int, caps: Capabilities): Action
    requires 0 <= i < |seen|
  {
    if StopDue(seen, i, caps) then Stop
    else if seen[i].sample.blind.Some? then Cancel
    else if caps.resumable then Pause
    else Cancel
  }

  /** And the pressure it is explained by; a requested stop is not one. */
  ghost function DuePressure(seen: seq<Seen>, i: int, caps: Capabilities, timeout: int): Pressure
    requires 0 <= i < |seen|
  {
    if StopDue(seen, i, caps) then NO_PRESSURE
    else Pressure(YieldDue(seen, i, caps, timeout) || CapDue(seen, i, caps),
                  seen[i].sample.logOverCap, seen[i].sample.blind, CapDue(seen, i, caps))
  }

  /** Two samples of a time apart, the flag up on every sample from the one to the other. */
  ghost predicate Lasted(seen: seq<Seen>, i: int, f: Flag, span: int)
    requires 0 <= i < |seen|
  {
    exists j :: 0 <= j <= i && seen[i].at - seen[j].at >= span && forall k | j <= k <= i :: Raised(seen[k].sample, f)
  }

  /** When a sample calls for a reaction, and when it tells a waiting run that the log will not drain. Blocking others
      counts only where that is not waived, the safety cap and the drain timeout only where they are positive,
      a stop only where the operation can pause. */
  lemma WhatIsDue(seen: seq<Seen>, i: int, caps: Capabilities, timeout: int, drainTimeout: int)
    requires 0 <= i < |seen|
    ensures Due(seen, i, caps, timeout) <==>
              || (seen[i].stop && caps.resumable)
              || seen[i].sample.blind.Some? || seen[i].sample.logOverCap
              || (!caps.ignoreBlocking && Lasted(seen, i, Others, timeout))
              || (0 < caps.maxBlock && Lasted(seen, i, Anyone, caps.maxBlock))
    ensures WaitVerdict(seen, i, drainTimeout) == LogNeverDrained <==>
              && 0 < drainTimeout && Lasted(seen, i, LogFull, drainTimeout)
              && seen[i].sample.blind == None && !seen[i].stop
    ensures WaitVerdict(seen, i, drainTimeout) == Relieved ==>
              !seen[i].sample.blockingOthers && !seen[i].sample.logOverCap && seen[i].sample.blind == None && !seen[i].stop
    ensures !seen[i].sample.blockingOthers && !seen[i].sample.logOverCap && seen[i].sample.blind == None && !seen[i].stop ==>
              WaitVerdict(seen, i, drainTimeout) == Relieved
  {
    LastedIsUp(seen, i, Others, timeout);
    LastedIsUp(seen, i, Anyone, caps.maxBlock);
    LastedIsUp(seen, i, LogFull, drainTimeout);
    UpNeedsItNow(seen, i, LogFull, drainTimeout);
    hide UpFor, Lasted;
  }

  lemma LastedIsUp(seen: seq<Seen>, i: int, f: Flag, span: int)
    requires 0 <= i < |seen|
    ensures Lasted(seen, i, f, span) <==> UpFor(seen, i, f, span)
  {
    if j :| 0 <= j <= i && seen[i].at - seen[j].at >= span && forall k | j <= k <= i :: Raised(seen[k].sample, f) {
      assert UpSince(seen, j, i, f);
    }
    if j :| UpSince(seen, j, i, f) && seen[i].at - seen[j].at >= span {
      assert forall k | j <= k <= i :: Raised(seen[k].sample, f);
    }
  }

  /** Where the unbroken run of the flag that holds at sample i began. */
  function RunStart(seen: seq<Seen>, i: int, f: Flag): (j: int)
    requires 0 <= i < |seen| && Raised(seen[i].sample, f)
    ensures UpSince(seen, j, i, f)
    ensures j > 0 ==> !Raised(seen[j - 1].sample, f)
  {
    if i == 0 || !Raised(seen[i - 1].sample, f) then i else RunStart(seen, i - 1, f)
  }

  /** A timer started at the run's first sample decides UpFor. */
  lemma TimerDecides(seen: seq<Seen>, i: int, f: Flag, span: int)
    requires 0 <= i < |seen| && Ordered(seen)
    ensures UpFor(seen, i, f, span) <==>
              Raised(seen[i].sample, f) && seen[i].at - seen[RunStart(seen, i, f)].at >= span
  {
    UpNeedsItNow(seen, i, f, span);
    hide UpSince, RunStart;
    if Raised(seen[i].sample, f) {
      if j :| UpSince(seen, j, i, f) && seen[i].at - seen[j].at >= span {
        RunIsLongest(seen, i, f, j);
      }
      var start := RunStart(seen, i, f);
      assert UpSince(seen, start, i, f);
    }
  }

  /** No stretch of the flag up to sample i began before its run did. */
  lemma RunIsLongest(seen: seq<Seen>, i: int, f: Flag, j: int)
    requires 0 <= i < |seen| && Ordered(seen) && UpSince(seen, j, i, f)
    ensures Raised(seen[i].sample, f) && 0 <= j && seen[RunStart(seen, i, f)].at <= seen[j].at
  {
    assert Raised(seen[i].sample, f);
    RunStartIsFirst(seen, i, f, j);
    hide RunStart;
  }

  lemma UpNeedsItNow(seen: seq<Seen>, i: int, f: Flag, span: int)
    requires 0 <= i < |seen|
    ensures UpFor(seen, i, f, span) ==> Raised(seen[i].sample, f)
  {
    if j :| UpSince(seen, j, i, f) && seen[i].at - seen[j].at >= span {
      assert Raised(seen[i].sample, f);
    }
  }

  lemma RunStartIsFirst(seen: seq<Seen>, i: int, f: Flag, j: int)
    requires 0 <= i < |seen| && UpSince(seen, j, i, f)
    ensures RunStart(seen, i, f) <= j
  {
  }

  /** The timer for a flag after sample i: the time its present run began. */
  function Timer(seen: seq<Seen>, n: int, f: Flag): Option<int>
    requires 0 <= n <= |seen|
  {
    if n == 0 || !Raised(seen[n - 1].sample, f) then None else Some(seen[RunStart(seen, n - 1, f)].at)
  }

  function Next(timer: Option<int>, up: bool, now: int): Option<int> {
    if !up then None else if timer == None then Some(now) else timer
  }

  /** The incremental timer, moved on by sample i, decides UpFor there. */
  lemma TimerNext(seen: seq<Seen>, i: int, f: Flag, span: int)
    requires 0 <= i < |seen| && Ordered(seen)
    ensures var timer := Next(Timer(seen, i, f), Raised(seen[i].sample, f), seen[i].at);
      && timer == Timer(seen, i + 1, f)
      && (UpFor(seen, i, f, span) <==> timer.Some? && seen[i].at - timer.value >= span)
  {
    TimerDecides(seen, i, f, span);
  }

  lemma TimersStart(seen: seq<Seen>)
    ensures forall f :: Timer(seen, 0, f) == None
  {
  }

  /** Watches a running statement: it reacts at exactly the first sample that calls for it, with the
      action and the pressure that sample calls for, and otherwise lets the statement finish. */
  method Supervise(seen: seq<Seen>, caps: Capabilities, timeout: int)
    returns (action: Action, pressure: Pressure, at: int)
    requires Ordered(seen)
    ensures 0 <= at <= |seen|
    ensures forall i | 0 <= i < at :: !Due(seen, i, caps, timeout)
    ensures at == |seen| ==> action == Continue && pressure == NO_PRESSURE
    ensures at < |seen| ==> Due(seen, at, caps, timeout) && action == DueAction(seen, at, caps)
    ensures at < |seen| ==> pressure == DuePressure(seen, at, caps, timeout)
  {
    hide UpFor, RunStart;
    TimersStart(seen);
    hide Timer;
    var blockingStart: Option<int>, blockedSince: Option<int> := None, None;
    at := 0;
    while at < |seen|
      invariant 0 <= at <= |seen|
      invariant blockingStart == Timer(seen, at, Others) && blockedSince == Timer(seen, at, Anyone)
      invariant forall i | 0 <= i < at :: !Due(seen, i, caps, timeout)
    {
      var now, s := seen[at].at, seen[at].sample;
      if caps.resumable && seen[at].stop {
        return Stop, NO_PRESSURE, at;
      }
      TimerNext(seen, at, Others, timeout);
      TimerNext(seen, at, Anyone, caps.maxBlock);
      if s.blockingOthers {
        if blockingStart == None {
          blockingStart := Some(now);
        }
      } else {
        blockingStart := None;
      }
      if s.blocking {
        if blockedSince == None {
          blockedSince := Some(now);
        }
      } else {
        blockedSince := None;
      }
      pressure := Pressure(
        !caps.ignoreBlocking && blockingStart.Some? && now - blockingStart.value >= timeout,
        s.logOverCap, s.blind, false);
      if caps.maxBlock > 0 && blockedSince.Some? && now - blockedSince.value >= caps.maxBlock {
        pressure := pressure.(blockingOthers := true, capped := true);
      }
      action := DecideReaction(pressure, caps);
      if action != Continue {
        return;
      }
      at := at + 1;
    }
    return Continue, NO_PRESSURE, at;
  }

  // --- waiting for relief ---------------------------------------------------------------------

  datatype ReliefOutcome = Relieved | WentBlind | StopRequested | LogNeverDrained | StillWaiting

  ghost predicate DrainOverdue(seen: seq<Seen>, i: int, drainTimeout: int)
    requires i < |seen|
  {
    drainTimeout > 0 && UpFor(seen, i, LogFull, drainTimeout)
  }

  /** What sample i says to a run that is waiting: nothing yet, or how the wait ends. */
  ghost function WaitVerdict(seen: seq<Seen>, i: int, drainTimeout: int): ReliefOutcome
    requires 0 <= i < |seen|
  {
    if seen[i].sample.blind.Some? then WentBlind
    else if seen[i].stop then StopRequested
    else if DrainOverdue(seen, i, drainTimeout) then LogNeverDrained
    else if !seen[i].sample.blockingOthers && !seen[i].sample.logOverCap then Relieved
    else StillWaiting
  }

  /** The wait ends at exactly the first sample with a verdict, and with that verdict. */
  method WaitForRelief(seen: seq<Seen>, drainTimeout: int) returns (outcome: ReliefOutcome, at: int)
    requires Ordered(seen)
    ensures 0 <= at <= |seen|
    ensures forall i | 0 <= i < at :: WaitVerdict(seen, i, drainTimeout) == StillWaiting
    ensures if at == |seen| then outcome == StillWaiting
            else outcome == WaitVerdict(seen, at, drainTimeout) && outcome != StillWaiting
  {
    hide UpFor, RunStart;
    TimersStart(seen);
    hide Timer;
    var overSince: Option<int> := None;
    at := 0;
    while at < |seen|
      invariant 0 <= at <= |seen|
      invariant overSince == Timer(seen, at, LogFull)
      invariant forall i | 0 <= i < at :: WaitVerdict(seen, i, drainTimeout) == StillWaiting
    {
      var now, s := seen[at].at, seen[at].sample;
      TimerNext(seen, at, LogFull, drainTimeout);
      if s.blind.Some? {
        return WentBlind, at;
      }
      if seen[at].stop {
        return StopRequested, at;
      }
      if s.logOverCap {
        if overSince == None {
          overSince := Some(now);
        }
        if drainTimeout > 0 && now - overSince.value >= drainTimeout {
          return LogNeverDrained, at;
        }
      } else {
        overSince := None;
      }
      if !s.blockingOthers && !s.logOverCap {
        return Relieved, at;
      }
      at := at + 1;
    }
    return StillWaiting, at;
  }

  /** A wait that ends relieved never saw the log stay over its cap for the drain timeout, never lost
      sight and was never asked to stop: all of it on the samples up to the relief. */
  lemma ReliefIsClean(seen: seq<Seen>, at: int, drainTimeout: int)
    requires 0 <= at < |seen| && drainTimeout > 0
    requires forall i | 0 <= i < at :: WaitVerdict(seen, i, drainTimeout) == StillWaiting
    requires WaitVerdict(seen, at, drainTimeout) == Relieved
    ensures forall i, j | i <= at && UpSince(seen, j, i, LogFull) :: seen[i].at - seen[j].at < drainTimeout
    ensures forall i | 0 <= i <= at :: seen[i].sample.blind == None && !seen[i].stop
  {
    forall i, j | i <= at && UpSince(seen, j, i, LogFull)
      ensures seen[i].at - seen[j].at < drainTimeout
    {
      assert WaitVerdict(seen, i, drainTimeout) != LogNeverDrained;
      assert !UpFor(seen, i, LogFull, drainTimeout);
    }
    forall i | 0 <= i <= at
      ensures seen[i].sample.blind == None && !seen[i].stop
    {
      assert WaitVerdict(seen, i, drainTimeout) != WentBlind;
    }
  }
}
