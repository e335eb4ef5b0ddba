/** The monitoring pump: two polled channels, one forwarded sample, and a watchdog that turns a
    channel's silence into an event. Its events are poll answers and watchdog ticks, each with the
    time the pump handles it. */
module MonitoringPump {
  import opened Options
  import opened Supervision

  /** A poll's answer; `ok` is false when the read failed. A poll that hangs has no event. */
  datatype PumpEvent =
    | BlockAnswer(at: int, ok: bool, any: bool, unignored: bool)
    | LogAnswer(at: int, ok: bool, over: bool)
    | WatchdogTick(at: int)

  /** Cadences and the global blindness bound, all positive once the configuration is loaded. */
  datatype Cadence = Cadence(blockEvery: int, logEvery: int, blindAfter: int)

  predicate Configured(c: Cadence) {
    0 < c.blockEvery && 0 < c.logEvery && 0 < c.blindAfter
  }

  /** How long a channel may stay silent: the global bound, unless its own cadence is slower. */
  function BlindThreshold(c: Cadence, ch: Channel): int {
    var every := if ch == BlockingPoll then c.blockEvery else c.logEvery;
    if 2 * every > c.blindAfter then 2 * every else c.blindAfter
  }

  /** The least bound that allows the channel the global time and two of its own polls. */
  lemma ThresholdIsTheLeast(c: Cadence, ch: Channel, n: int)
    ensures BlindThreshold(c, ch) <= n <==>
              c.blindAfter <= n && 2 * (if ch == BlockingPoll then c.blockEvery else c.logEvery) <= n
  {
  }

  function WatchEvery(c: Cadence): int {
    var faster := if c.logEvery < c.blockEvery then c.logEvery else c.blockEvery;
    if c.blindAfter < faster then c.blindAfter else faster
  }

  datatype Forwarded = Forwarded(at: int, sample: Sample)

  datatype Pump = Pump(blockOk: int, logOk: int, cur: Sample, sent: seq<Forwarded>)

  function Begin(start: int): Pump {
    Pump(start, start, Sample(false, false, false, None), [])
  }

  /** The first channel that has been silent for its threshold. */
  function BlindChannel(c: Cadence, p: Pump, now: int): Option<Channel> {
    if now - p.blockOk >= BlindThreshold(c, BlockingPoll) then Some(BlockingPoll)
    else if now - p.logOk >= BlindThreshold(c, LogPoll) then Some(LogPoll)
    else None
  }

  function Send(p: Pump, now: int): Pump {
    p.(sent := p.sent + [Forwarded(now, p.cur)])
  }

  function Handle(c: Cadence, p: Pump, e: PumpEvent): Pump {
    match e
    case BlockAnswer(at, ok, any, unignored) =>
      if !ok then p
      else
        var heard := p.(blockOk := at);
        Send(heard.(cur := heard.cur.(blocking := any, blockingOthers := unignored, blind := BlindChannel(c, heard, at))), at)
    case LogAnswer(at, ok, over) =>
      if !ok then p
      else
        var heard := p.(logOk := at);
        Send(heard.(cur := heard.cur.(logOverCap := over, blind := BlindChannel(c, heard, at))), at)
    case WatchdogTick(at) =>
      var blind := BlindChannel(c, p, at);
      if blind == p.cur.blind then p else Send(p.(cur := p.cur.(blind := blind)), at)
  }

  function Pumped(c: Cadence, start: int, es: seq<PumpEvent>): Pump {
    if es == [] then Begin(start) else Handle(c, Pumped(c, start, es[..|es| - 1]), es[|es| - 1])
  }

  // --- the history ----------------------------------------------------------------------------

  predicate Timed(start: int, es: seq<PumpEvent>) {
    && (forall i | 0 <= i < |es| :: start <= es[i].at)
    && (forall i, j | 0 <= i < j < |es| :: es[i].at <= es[j].at)
  }

  predicate Answers(e: PumpEvent, ch: Channel) {
    if ch == BlockingPoll then e.BlockAnswer? && e.ok else e.LogAnswer? && e.ok
  }

  /** When the channel last answered, counting the start of the pump as an answer. */
  function LastAnswer(start: int, es: seq<PumpEvent>, ch: Channel): int {
    if es == [] then start
    else if Answers(es[|es| - 1], ch) then es[|es| - 1].at
    else LastAnswer(start, es[..|es| - 1], ch)
  }

  /** What the channels last answered, or their reassuring initial values. */
  function LastRead(es: seq<PumpEvent>): (bool, bool, bool) {
    if es == [] then (false, false, false)
    else
      var before := LastRead(es[..|es| - 1]);
      match es[|es| - 1]
      case BlockAnswer(_, ok, any, unignored) => if ok then (unignored, any, before.2) else before
      case LogAnswer(_, ok, over) => if ok then (before.0, before.1, over) else before
      case WatchdogTick(_) => before
  }

  lemma {:induction false} PumpRemembers(c: Cadence, start: int, es: seq<PumpEvent>)
    ensures var p := Pumped(c, start, es);
      && p.blockOk == LastAnswer(start, es, BlockingPoll) && p.logOk == LastAnswer(start, es, LogPoll)
      && (p.cur.blockingOthers, p.cur.blocking, p.cur.logOverCap) == LastRead(es)
  {
    if es != [] {
      PumpRemembers(c, start, es[..|es| - 1]);
    }
  }

  /** The events up to which a forwarded sample was made. */
  ghost predicate MadeAfter(c: Cadence, start: int, es: seq<PumpEvent>, n: int, f: Forwarded) {
    && 0 < n <= |es| && f.at == es[n - 1].at
    && (f.sample.blockingOthers, f.sample.blocking, f.sample.logOverCap) == LastRead(es[..n])
    && (f.sample.blind == None ==> forall ch :: f.at - LastAnswer(start, es[..n], ch) < BlindThreshold(c, ch))
    && (f.sample.blind.Some? ==>
          f.at - LastAnswer(start, es[..n], f.sample.blind.value) >= BlindThreshold(c, f.sample.blind.value))
    && (f.sample.blind == Some(LogPoll) ==>
          f.at - LastAnswer(start, es[..n], BlockingPoll) < BlindThreshold(c, BlockingPoll))
  }

  /** Every sample the pump forwards carries each channel's last answer; one that names no blind
      channel rests on answers younger than each channel's threshold, and one that names a channel
      does so only after that channel was silent for its threshold. */
  lemma {:induction false} ForwardedSamples(c: Cadence, start: int, es: seq<PumpEvent>)
    ensures forall f <- Pumped(c, start, es).sent :: exists n :: MadeAfter(c, start, es, n, f)
  {
    if es != [] {
      var front, last := es[..|es| - 1], es[|es| - 1];
      ForwardedSamples(c, start, front);
      PumpRemembers(c, start, front);
      PumpRemembers(c, start, es);
      var p, p' := Pumped(c, start, front), Pumped(c, start, es);
      forall f <- p'.sent
        ensures exists n :: MadeAfter(c, start, es, n, f)
      {
        if f in p.sent {
          var n :| MadeAfter(c, start, front, n, f);
          assert front[..n] == es[..n];
          assert MadeAfter(c, start, es, n, f);
        } else {
          assert f == Forwarded(last.at, p'.cur);
          assert es[..|es|] == es;
          assert MadeAfter(c, start, es, |es|, f);
        }
      }
    }
  }

  // --- silence is bounded ---------------------------------------------------------------------

  predicate SentSorted(p: Pump, until: int) {
    && (forall i | 0 <= i < |p.sent| :: p.sent[i].at <= until)
    && (forall i, j | 0 <= i < j < |p.sent| :: p.sent[i].at <= p.sent[j].at)
  }

  predicate BlindWasSent(p: Pump) {
    p.cur.blind.Some? ==> p.sent != [] && p.sent[|p.sent| - 1].sample.blind == p.cur.blind
  }

  /** What the last forwarded sample, or the silence before any, said of blindness. */
  function LastBlind(sent: seq<Forwarded>): Option<Channel> {
    if sent == [] then None else sent[|sent| - 1].sample.blind
  }

  /** A tick of the watchdog is forwarded exactly when the channel it finds blind is not the one last reported, and
      by its own time; a poll that failed is never forwarded, one that succeeded always. */
  lemma ForwardsOnlyNews(c: Cadence, start: int, es: seq<PumpEvent>)
    requires es != []
    ensures var e, before, after := es[|es| - 1], Pumped(c, start, es[..|es| - 1]), Pumped(c, start, es);
      var blind := BlindChannel(c, before, e.at);
      && (e.WatchdogTick? ==>
            if blind == LastBlind(before.sent) then after.sent == before.sent
            else after.sent == before.sent + [Forwarded(e.at, before.cur.(blind := blind))])
      && (!e.WatchdogTick? ==>
            if e.ok then after.sent[..|before.sent|] == before.sent && |after.sent| == |before.sent| + 1
            else after.sent == before.sent)
  {
    BlindIsLastSent(c, start, es[..|es| - 1]);
    hide BlindThreshold;
  }

  lemma {:induction false} BlindIsLastSent(c: Cadence, start: int, es: seq<PumpEvent>)
    ensures Pumped(c, start, es).cur.blind == LastBlind(Pumped(c, start, es).sent)
  {
    if es != [] {
      BlindIsLastSent(c, start, es[..|es| - 1]);
      hide BlindThreshold, BlindChannel;
    }
  }

  lemma HandleSendsBlind(c: Cadence, p: Pump, e: PumpEvent, until: int)
    requires BlindWasSent(p) && SentSorted(p, until) && until <= e.at
    ensures BlindWasSent(Handle(c, p, e)) && SentSorted(Handle(c, p, e), e.at)
  {
  }

  lemma {:induction false} BlindnessIsSent(c: Cadence, start: int, es: seq<PumpEvent>, until: int)
    requires Timed(start, es) && (es == [] || es[|es| - 1].at <= until)
    ensures BlindWasSent(Pumped(c, start, es)) && SentSorted(Pumped(c, start, es), until)
  {
    if es != [] {
      var front := es[..|es| - 1];
      var until := if front == [] then start else front[|front| - 1].at;
      BlindnessIsSent(c, start, front, until);
      hide Handle, BlindWasSent;
      HandleSendsBlind(c, Pumped(c, start, front), es[|es| - 1], until);
    }
  }

  lemma {:induction false} SentOnlyGrows(c: Cadence, start: int, es: seq<PumpEvent>, n: int)
    requires 0 <= n <= |es|
    ensures Pumped(c, start, es[..n]).sent <= Pumped(c, start, es).sent
  {
    if n == |es| {
      assert es[..n] == es;
    } else {
      assert es[..|es| - 1][..n] == es[..n];
      SentOnlyGrows(c, start, es[..|es| - 1], n);
    }
  }

  lemma {:induction false} LastAnswerBound(start: int, es: seq<PumpEvent>, ch: Channel, last: int)
    requires start <= last && forall i | 0 <= i < |es| :: Answers(es[i], ch) ==> es[i].at <= last
    ensures LastAnswer(start, es, ch) <= last
  {
    if es != [] {
      LastAnswerBound(start, es[..|es| - 1], ch, last);
    }
  }

  lemma AnswerIsForwarded(c: Cadence, start: int, es: seq<PumpEvent>)
    requires es != [] && (Answers(es[|es| - 1], BlockingPoll) || Answers(es[|es| - 1], LogPoll))
    ensures var sent := Pumped(c, start, es).sent; sent != [] && MadeAfter(c, start, es, |es|, sent[|sent| - 1])
  {
    PumpRemembers(c, start, es[..|es| - 1]);
    PumpRemembers(c, start, es);
    var p, p' := Pumped(c, start, es[..|es| - 1]), Pumped(c, start, es);
    assert p' == Handle(c, p, es[|es| - 1]);
    assert es[..|es|] == es;
    assert p'.sent[|p'.sent| - 1] == Forwarded(es[|es| - 1].at, p'.cur);
    hide Pumped, LastRead, LastAnswer, BlindThreshold;
  }

  /** Every answer is forwarded, with what it said and what the other channel last said. */
  lemma EveryAnswerIsForwarded(c: Cadence, start: int, es: seq<PumpEvent>, i: nat)
    requires i < |es| && (Answers(es[i], BlockingPoll) || Answers(es[i], LogPoll))
    ensures exists k :: 0 <= k < |Pumped(c, start, es).sent| && MadeAfter(c, start, es, i + 1, Pumped(c, start, es).sent[k])
  {
    var upTo := es[..i + 1];
    AnswerIsForwarded(c, start, upTo);
    SentOnlyGrows(c, start, es, i + 1);
    var sent, all := Pumped(c, start, upTo).sent, Pumped(c, start, es).sent;
    hide Pumped, Answers;
    var k := |sent| - 1;
    assert all[k] == sent[k];
    assert upTo[..i + 1] == es[..i + 1];
    assert MadeAfter(c, start, es, i + 1, all[k]) by {
      hide LastRead, LastAnswer, BlindThreshold;
    }
  }

  ghost predicate TickIn(es: seq<PumpEvent>, from: int, span: int) {
    exists i :: 0 <= i < |es| && es[i].WatchdogTick? && from <= es[i].at <= from + span
  }

  /** The watchdog ticks at least once in every span of its period. */
  ghost predicate WatchdogRuns(c: Cadence, es: seq<PumpEvent>, from: int, until: int) {
    forall t | from <= t <= until - WatchEvery(c) :: TickIn(es, t, WatchEvery(c))
  }

  /** A tick that finds a channel silent for its threshold leaves a blind sample forwarded. */
  lemma TickReports(c: Cadence, start: int, before: seq<PumpEvent>, tick: PumpEvent, ch: Channel, last: int)
    requires tick.WatchdogTick? && start <= last && last + BlindThreshold(c, ch) <= tick.at
    requires Timed(start, before) && forall i | 0 <= i < |before| :: before[i].at <= tick.at
    requires forall i | 0 <= i < |before| && Answers(before[i], ch) :: before[i].at <= last
    ensures var sent := Handle(c, Pumped(c, start, before), tick).sent;
      sent != [] && sent[|sent| - 1].at <= tick.at && sent[|sent| - 1].sample.blind.Some?
  {
    LastAnswerBound(start, before, ch, last);
    PumpRemembers(c, start, before);
    BlindnessIsSent(c, start, before, tick.at);
    hide Pumped, LastAnswer;
  }

  ghost predicate ReportedBy(sent: seq<Forwarded>, bound: int) {
    exists n :: 0 <= n < |sent| && sent[n].at <= bound && sent[n].sample.blind.Some?
  }

  lemma ReportedAtTick(c: Cadence, start: int, es: seq<PumpEvent>, ch: Channel, last: int, i: int)
    requires Timed(start, es) && start <= last && 0 <= i < |es|
    requires forall k | 0 <= k < |es| && Answers(es[k], ch) :: es[k].at <= last
    requires es[i].WatchdogTick? && last + BlindThreshold(c, ch) <= es[i].at
    ensures ReportedBy(Pumped(c, start, es).sent, es[i].at)
  {
    hide BlindThreshold, Handle, Answers;
    var before, upTo := es[..i], es[..i + 1];
    assert upTo[..|upTo| - 1] == before && upTo[|upTo| - 1] == es[i];
    TickReports(c, start, before, es[i], ch, last);
    var sent, all := Pumped(c, start, upTo).sent, Pumped(c, start, es).sent;
    assert sent == Handle(c, Pumped(c, start, before), es[i]).sent;
    SentOnlyGrows(c, start, es, i + 1);
    hide Pumped;
    var n := |sent| - 1;
    assert all[n] == sent[n];
  }

  /** The channel's last answer came no later than `last`, and the watchdog kept ticking long enough. */
  ghost predicate SilentSince(c: Cadence, start: int, es: seq<PumpEvent>, ch: Channel, last: int) {
    && start <= last
    && (forall i | 0 <= i < |es| && Answers(es[i], ch) :: es[i].at <= last)
    && WatchdogRuns(c, es, start, last + BlindThreshold(c, ch) + WatchEvery(c))
  }

  /** A channel silent since `last` is reported blind no later than its threshold and one watchdog
      period after that. */
  lemma SilenceIsReported(c: Cadence, start: int, es: seq<PumpEvent>, ch: Channel, last: int)
    requires Configured(c) && Timed(start, es) && SilentSince(c, start, es, ch, last)
    ensures ReportedBy(Pumped(c, start, es).sent, last + BlindThreshold(c, ch) + WatchEvery(c))
  {
    WatchdogIsQuickEnough(c, ch);
    hide Answers, BlindThreshold, WatchEvery, Pumped;
    var due, bound := last + BlindThreshold(c, ch), last + BlindThreshold(c, ch) + WatchEvery(c);
    assert TickIn(es, due, WatchEvery(c));
    var i :| 0 <= i < |es| && es[i].WatchdogTick? && due <= es[i].at <= due + WatchEvery(c);
    ReportedAtTick(c, start, es, ch, last, i);
    var sent := Pumped(c, start, es).sent;
    var n :| 0 <= n < |sent| && sent[n].at <= es[i].at && sent[n].sample.blind.Some?;
    assert sent[n].at <= bound;
  }

  /** In the configuration's own terms: within the global time, or two polls of the channel if that is longer,
      and any one of the three periods. */
  lemma SilenceIsReportedInTime(c: Cadence, start: int, es: seq<PumpEvent>, ch: Channel, last: int, period: int)
    requires Configured(c) && Timed(start, es) && SilentSince(c, start, es, ch, last)
    requires period == c.blindAfter || period == c.blockEvery || period == c.logEvery
    ensures var polls := 2 * if ch == BlockingPoll then c.blockEvery else c.logEvery;
      ReportedBy(Pumped(c, start, es).sent, last + (if polls > c.blindAfter then polls else c.blindAfter) + period)
  {
    SilenceIsReported(c, start, es, ch, last);
    assert WatchEvery(c) <= period;
    hide Pumped, WatchEvery;
  }

  /** The samples as the supervisor meets them, with the stop requests of the moment. */
  function Meets(sent: seq<Forwarded>, stops: seq<bool>): (seen: seq<Seen>)
    requires |stops| == |sent|
    ensures |seen| == |sent|
    ensures forall i | 0 <= i < |sent| :: seen[i] == Seen(sent[i].at, sent[i].sample, stops[i])
  {
    seq(|sent|, i requires 0 <= i < |sent| => Seen(sent[i].at, sent[i].sample, stops[i]))
  }

  /** Some sample by the bound calls for a reaction. */
  ghost predicate DueBy(seen: seq<Seen>, caps: Capabilities, timeout: int, bound: int) {
    exists n :: 0 <= n < |seen| && Due(seen, n, caps, timeout) && seen[n].at <= bound
  }

  /** Pump and supervisor together: once a channel goes silent the running statement is reacted to no
      later than its threshold plus one watchdog period, whatever the operation waives and whether or
      not it could be paused. */
  lemma SilenceIsReactedTo(c: Cadence, start: int, es: seq<PumpEvent>, ch: Channel, last: int,
                           stops: seq<bool>, caps: Capabilities, timeout: int)
    requires Configured(c) && Timed(start, es) && SilentSince(c, start, es, ch, last)
    requires |stops| == |Pumped(c, start, es).sent|
    ensures var seen := Meets(Pumped(c, start, es).sent, stops);
      Ordered(seen) && DueBy(seen, caps, timeout, last + BlindThreshold(c, ch) + WatchEvery(c))
  {
    SilenceIsReported(c, start, es, ch, last);
    BlindnessIsSent(c, start, es, if es == [] then start else es[|es| - 1].at);
    var p := Pumped(c, start, es);
    var seen := Meets(p.sent, stops);
    var n :| 0 <= n < |p.sent| && p.sent[n].at <= last + BlindThreshold(c, ch) + WatchEvery(c)
             && p.sent[n].sample.blind.Some?;
    assert Due(seen, n, caps, timeout);
  }

  /** The pump's loop, event by event. */
  method RunPump(c: Cadence, start: int, es: seq<PumpEvent>) returns (sent: seq<Forwarded>)
    ensures sent == Pumped(c, start, es).sent
  {
    var p := Begin(start);
    for i := 0 to |es|
      invariant p == Pumped(c, start, es[..i])
    {
      assert es[..i + 1][..i] == es[..i];
      p := Handle(c, p, es[i]);
    }
    assert es[..|es|] == es;
    sent := p.sent;
  }

  /** The first sample that calls for a reaction comes no later than any that does. */
  lemma FirstDueByBound(seen: seq<Seen>, caps: Capabilities, timeout: int, bound: int, at: nat)
    requires Ordered(seen) && DueBy(seen, caps, timeout, bound)
    requires at <= |seen| && forall i | 0 <= i < at :: !Due(seen, i, caps, timeout)
    ensures at < |seen| && DueAction(seen, at, caps) != Continue && seen[at].at <= bound
  {
    hide Due;
    var n :| 0 <= n < |seen| && Due(seen, n, caps, timeout) && seen[n].at <= bound;
    assert at <= n;
  }

  lemma PumpIsOrdered(c: Cadence, start: int, es: seq<PumpEvent>, stops: seq<bool>)
    requires Timed(start, es) && |stops| == |Pumped(c, start, es).sent|
    ensures Ordered(Meets(Pumped(c, start, es).sent, stops))
  {
    BlindnessIsSent(c, start, es, if es == [] then start else es[|es| - 1].at);
  }

  /** The whole monitored statement: what the pump forwards, supervised. With a channel silent since
      `last`, the supervisor has reacted by the bound. */
  method Monitor(c: Cadence, start: int, es: seq<PumpEvent>, stops: seq<bool>, caps: Capabilities, timeout: int,
                 ghost ch: Channel, ghost last: int)
    returns (action: Action, pressure: Pressure, sent: seq<Forwarded>, at: int)
    requires Configured(c) && Timed(start, es)
    requires |stops| == |Pumped(c, start, es).sent|
    ensures sent == Pumped(c, start, es).sent && 0 <= at <= |sent|
    ensures SilentSince(c, start, es, ch, last) ==>
              at < |sent| && action != Continue && sent[at].at <= last + BlindThreshold(c, ch) + WatchEvery(c)
  {
    hide *;
    sent := RunPump(c, start, es);
    PumpIsOrdered(c, start, es, stops);
    action, pressure, at := Supervise(Meets(sent, stops), caps, timeout);
    if SilentSince(c, start, es, ch, last) {
      SilenceIsReactedTo(c, start, es, ch, last, stops, caps, timeout);
      FirstDueByBound(Meets(sent, stops), caps, timeout, last + BlindThreshold(c, ch) + WatchEvery(c), at);
    }
  }

  /** The watchdog is always at least as quick as either threshold. */
  lemma WatchdogIsQuickEnough(c: Cadence, ch: Channel)
    requires Configured(c)
    ensures 0 < WatchEvery(c) <= BlindThreshold(c, ch)
  {
  }
}
