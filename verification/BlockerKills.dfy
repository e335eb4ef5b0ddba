/** Killing the sessions that block a run: blocking debt per rule, a budget of kills per window, and at
    most one kill per blocking episode, over any sequence of blocking polls. */
module BlockerKills {
  import opened Options

  type Key = string

  /** How long debt survives without a new block, in seconds. */
  const WINDOW := 300

  /** How many kills one rule may spend inside the window. */
  const MAX_KILLS := 3

  datatype Bucket = Bucket(accrued: int, kills: nat, escalated: bool, lastActive: int)

  datatype Session = Session(spid: int, blockingSpid: int, identity: nat)

  /** A compiled rule: any test of a session, how long a match must have blocked, and the identity its
      debt is kept under. */
  datatype Rule = Rule(matches: Session -> bool, after: int, key: Key)

  /** One blocking poll: the rules in force, the snapshot, whether a KILL would land, and the clock's
      readings in the order the poll takes them. */
  datatype Poll = Poll(sessions: seq<Session>, ddlSpid: int, rules: seq<Rule>, killLands: bool,
                       pruned: int, now: int, touched: int, recorded: int)

  datatype Event =
    | Banked(key: Key, amount: int)
    | Killed(key: Key, spid: int, from: int, to: int, debt: int, after: int)
    | Warned(key: Key, from: int, to: int)

  /** The state between polls. */
  datatype State = State(current: int, lastPoll: Option<int>, killed: bool, buckets: map<Key, Bucket>)

  const FRESH := State(0, None, false, map[])

  // --- what one poll does ---------------------------------------------------------------------

  function Touch(bs: map<Key, Bucket>, key: Key, at: int): map<Key, Bucket> {
    bs[key := (if key in bs then bs[key] else Bucket(0, 0, false, at)).(lastActive := at)]
  }

  function Accrue(bs: map<Key, Bucket>, key: Key, d: int, at: int): map<Key, Bucket> {
    var b := Touch(bs, key, at)[key];
    bs[key := b.(accrued := if d > 0 then b.accrued + d else b.accrued)]
  }

  function RecordKill(bs: map<Key, Bucket>, key: Key, at: int): map<Key, Bucket> {
    var b := Touch(bs, key, at)[key];
    bs[key := b.(kills := b.kills + 1)]
  }

  function Escalate(bs: map<Key, Bucket>, key: Key, at: int): map<Key, Bucket> {
    bs[key := Touch(bs, key, at)[key].(escalated := true)]
  }

  /** Debt idle for longer than the window is forgotten. */
  function Prune(bs: map<Key, Bucket>, now: int): map<Key, Bucket> {
    map key | key in bs && now - bs[key].lastActive <= WINDOW :: bs[key]
  }

  /** The first session with this id. */
  function SessionOf(sessions: seq<Session>, spid: int): Option<Session> {
    if sessions == [] then None
    else if sessions[0].spid == spid then Some(sessions[0])
    else SessionOf(sessions[1..], spid)
  }

  /** The session that blocks ours directly. */
  function BlockerOf(sessions: seq<Session>, ddlSpid: int): (blocker: Option<Session>)
  {
    if ddlSpid == 0 then None
    else
      match SessionOf(sessions, ddlSpid)
      case None => None
      case Some(ours) => if ours.blockingSpid == 0 then None else SessionOf(sessions, ours.blockingSpid)
  }

  function FirstMatch(rules: seq<Rule>, s: Session): Option<Rule> {
    if rules == [] then None
    else if rules[0].matches(s) then Some(rules[0])
    else FirstMatch(rules[1..], s)
  }

  function SincePoll(lastPoll: Option<int>, now: int): int {
    if lastPoll == None then 0 else now - lastPoll.value
  }

  /** What the first matching rule decides, once the poll's time is banked under its key. */
  function Decide(s: State, p: Poll, blocker: Session, r: Rule): (State, seq<Event>) {
    var d := SincePoll(s.lastPoll, p.now);
    var bs := Accrue(s.buckets, r.key, d, p.touched);
    var seen := s.(lastPoll := Some(p.now), buckets := bs);
    var banked := [Banked(r.key, d)];
    if s.killed || bs[r.key].accrued < r.after then (seen, banked)
    else if bs[r.key].kills >= MAX_KILLS then
      (seen.(buckets := Escalate(bs, r.key, p.recorded)),
       if bs[r.key].escalated then banked else banked + [Warned(r.key, p.touched, p.recorded)])
    else if p.killLands then
      (seen.(killed := true, buckets := RecordKill(bs, r.key, p.recorded)),
       banked + [Killed(r.key, blocker.spid, p.touched, p.recorded, bs[r.key].accrued, r.after)])
    else (seen, banked)
  }

  /** The state once this poll has seen who blocks us, before any rule is consulted. */
  function Observe(s: State, p: Poll): State {
    var bs := Prune(s.buckets, p.pruned);
    match BlockerOf(p.sessions, p.ddlSpid)
    case None => State(0, None, false, bs)
    case Some(b) => if b.spid == s.current then s.(buckets := bs) else State(b.spid, None, false, bs)
  }

  function Consider(s: State, p: Poll): (State, seq<Event>) {
    var seen := Observe(s, p);
    match BlockerOf(p.sessions, p.ddlSpid)
    case None => (seen, [])
    case Some(b) =>
      match FirstMatch(p.rules, b)
      case None => (seen.(lastPoll := Some(p.now)), [])
      case Some(r) => Decide(seen, p, b, r)
  }

  /** All polls since the rules were armed. */
  function History(polls: seq<Poll>): (State, seq<Event>) {
    if polls == [] then (FRESH, [])
    else
      var (s, log) := History(polls[..|polls| - 1]);
      var (s', more) := Consider(s, polls[|polls| - 1]);
      (s', log + more)
  }

  /** Clock readings follow one another, within a poll and between polls, from the arming on. */
  predicate Clocked(start: int, polls: seq<Poll>) {
    && (forall i | 0 <= i < |polls| ::
          start <= polls[i].pruned <= polls[i].now <= polls[i].touched <= polls[i].recorded)
    && (forall i, j | 0 <= i < j < |polls| :: polls[i].recorded <= polls[j].pruned)
  }

  /** The last reading the clock gave. */
  function ClockOf(start: int, polls: seq<Poll>): int {
    if polls == [] then start else polls[|polls| - 1].recorded
  }

  lemma ClockedFront(start: int, polls: seq<Poll>)
    requires Clocked(start, polls) && polls != []
    ensures var front, p := polls[..|polls| - 1], polls[|polls| - 1];
      && Clocked(start, front)
      && start <= ClockOf(start, front) <= p.pruned <= p.now <= p.touched <= p.recorded
  {
    var front := polls[..|polls| - 1];
    forall i, j | 0 <= i < j < |front|
      ensures front[i].recorded <= front[j].pruned
    {
      assert polls[i].recorded <= polls[j].pruned;
    }
  }

  // --- the budget -----------------------------------------------------------------------------

  /** When a kill or a warning happened: between two readings of the clock. */
  datatype Span = Span(from: int, to: int)

  function Kills(log: seq<Event>, key: Key): seq<Span> {
    if log == [] then []
    else
      var before, e := Kills(log[..|log| - 1], key), log[|log| - 1];
      if e.Killed? && e.key == key then before + [Span(e.from, e.to)] else before
  }

  function Warnings(log: seq<Event>, key: Key): seq<Span> {
    if log == [] then []
    else
      var before, e := Warnings(log[..|log| - 1], key), log[|log| - 1];
      if e.Warned? && e.key == key then before + [Span(e.from, e.to)] else before
  }

  /** No window holds more than `cap` of them: one and the cap-th after it are more than a window apart. */
  predicate Spread(spans: seq<Span>, cap: nat) {
    forall i, j | 0 <= i && i + cap <= j < |spans| :: spans[j].from - spans[i].to > WINDOW
  }

  /** `recent` of the spans belong to the present bucket; the older ones were over a window before it. */
  predicate Budgeted(spans: seq<Span>, recent: nat, cap: nat, active: int) {
    && recent <= cap && recent <= |spans| && Spread(spans, cap)
    && (forall i | 0 <= i < |spans| :: spans[i].to <= active)
    && (forall i | 0 <= i < |spans| - recent :: spans[i].to + WINDOW < active)
  }

  /** One more, inside the budget. */
  lemma SpendOne(spans: seq<Span>, recent: nat, cap: nat, active: int, s: Span)
    requires Budgeted(spans, recent, cap, active) && recent < cap && active <= s.from <= s.to
    ensures Budgeted(spans + [s], recent + 1, cap, s.to)
  {
    var all := spans + [s];
    forall i, j | 0 <= i && i + cap <= j < |all|
      ensures all[j].from - all[i].to > WINDOW
    {
      if j == |spans| {
        assert i < |spans| - recent;
      }
    }
  }

  function WarnedOnce(b: Bucket): nat {
    if b.escalated then 1 else 0
  }

  /** The buckets account for every kill and warning still inside the window. */
  ghost predicate KeyAccounted(bs: map<Key, Bucket>, log: seq<Event>, clock: int, key: Key) {
    if key in bs then
      && bs[key].lastActive <= clock
      && Budgeted(Kills(log, key), bs[key].kills, MAX_KILLS, bs[key].lastActive)
      && Budgeted(Warnings(log, key), WarnedOnce(bs[key]), 1, bs[key].lastActive)
    else
      && Budgeted(Kills(log, key), 0, MAX_KILLS, clock)
      && Budgeted(Warnings(log, key), 0, 1, clock)
  }

  lemma PruneAccounted(bs: map<Key, Bucket>, log: seq<Event>, clock: int, now: int, key: Key)
    requires KeyAccounted(bs, log, clock, key) && clock <= now
    ensures KeyAccounted(Prune(bs, now), log, now, key)
  {
    hide Kills, Warnings, Spread;
  }

  lemma OneMoreEvent(log: seq<Event>, e: Event, key: Key)
    ensures Kills(log + [e], key)
         == if e.Killed? && e.key == key then Kills(log, key) + [Span(e.from, e.to)] else Kills(log, key)
    ensures Warnings(log + [e], key)
         == if e.Warned? && e.key == key then Warnings(log, key) + [Span(e.from, e.to)] else Warnings(log, key)
  {
    assert (log + [e])[..|log + [e]| - 1] == log;
  }

  lemma AccrueAccounted(bs: map<Key, Bucket>, log: seq<Event>, r: Key, d: int, clock: int, at: int, key: Key)
    requires KeyAccounted(bs, log, clock, key) && clock <= at
    ensures KeyAccounted(Accrue(bs, r, d, at), log + [Banked(r, d)], at, key)
  {
    OneMoreEvent(log, Banked(r, d), key);
    hide Kills, Warnings, Spread;
  }

  lemma KillAccounted(bs: map<Key, Bucket>, log: seq<Event>, e: Event, key: Key)
    requires e.Killed? && e.from <= e.to && KeyAccounted(bs, log, e.from, key)
    requires e.key in bs && bs[e.key].lastActive == e.from && bs[e.key].kills < MAX_KILLS
    ensures KeyAccounted(RecordKill(bs, e.key, e.to), log + [e], e.to, key)
  {
    OneMoreEvent(log, e, key);
    if key == e.key {
      SpendOne(Kills(log, key), bs[key].kills, MAX_KILLS, e.from, Span(e.from, e.to));
    }
    hide Kills, Warnings, Spread;
  }

  lemma WarnAccounted(bs: map<Key, Bucket>, log: seq<Event>, e: Event, key: Key)
    requires e.Warned? && e.from <= e.to && KeyAccounted(bs, log, e.from, key)
    requires e.key in bs && bs[e.key].lastActive == e.from && !bs[e.key].escalated
    ensures KeyAccounted(Escalate(bs, e.key, e.to), log + [e], e.to, key)
  {
    OneMoreEvent(log, e, key);
    if key == e.key {
      SpendOne(Warnings(log, key), 0, 1, e.from, Span(e.from, e.to));
    }
    hide Kills, Warnings, Spread;
  }

  lemma LaterAccounted(bs: map<Key, Bucket>, log: seq<Event>, clock: int, later: int, r: Key, key: Key)
    requires KeyAccounted(bs, log, clock, key) && clock <= later
    ensures KeyAccounted(bs, log, later, key)
    ensures r in bs && bs[r].escalated ==> KeyAccounted(Escalate(bs, r, later), log, later, key)
  {
    hide Kills, Warnings, Spread;
  }

  /** The buckets account for the events of a deciding poll too. */
  lemma DecideAccounted(s: State, p: Poll, blocker: Session, r: Rule, log: seq<Event>, key: Key)
    requires p.pruned <= p.now <= p.touched <= p.recorded
    requires KeyAccounted(s.buckets, log, p.pruned, key)
    ensures var (s', more) := Decide(s, p, blocker, r);
      KeyAccounted(s'.buckets, log + more, p.recorded, key)
  {
    var (s', more) := Decide(s, p, blocker, r);
    var d := SincePoll(s.lastPoll, p.now);
    var bs, banked := Accrue(s.buckets, r.key, d, p.touched), log + [Banked(r.key, d)];
    AccrueAccounted(s.buckets, log, r.key, d, p.pruned, p.touched, key);
    LaterAccounted(bs, banked, p.touched, p.recorded, r.key, key);
    assert bs[r.key].lastActive == p.touched;
    hide KeyAccounted;
    if |more| == 2 {
      assert log + more == banked + [more[1]];
      if more[1].Killed? {
        KillAccounted(bs, banked, more[1], key);
      } else {
        WarnAccounted(bs, banked, more[1], key);
      }
    }
  }

  lemma {:induction false} BudgetIsKept(start: int, polls: seq<Poll>, key: Key)
    requires Clocked(start, polls)
    ensures var (s, log) := History(polls); KeyAccounted(s.buckets, log, ClockOf(start, polls), key)
  {
    if polls != [] {
      ClockedFront(start, polls);
      var front, p := polls[..|polls| - 1], polls[|polls| - 1];
      BudgetIsKept(start, front, key);
      var (s, log) := History(front);
      PruneAccounted(s.buckets, log, ClockOf(start, front), p.pruned, key);
      var seen := Observe(s, p);
      match BlockerOf(p.sessions, p.ddlSpid) {
        case None =>
          assert log + [] == log;
        case Some(b) =>
          match FirstMatch(p.rules, b) {
            case None =>
              assert log + [] == log;
            case Some(r) =>
              DecideAccounted(seen, p, b, r, log, key);
          }
      }
    }
  }

  /** For any polls, the i-th and (i+3)-th kill under one rule are more than the window apart, and two
      warnings that a rule's budget is spent are too. */
  lemma KillRateIsBounded(start: int, polls: seq<Poll>, key: Key)
    requires Clocked(start, polls)
    ensures var log := History(polls).1;
      && Spread(Kills(log, key), MAX_KILLS)
      && Spread(Warnings(log, key), 1)
  {
    BudgetIsKept(start, polls, key);
  }

  // --- conservation ---------------------------------------------------------------------------

  /** Time banked under any key, and under one key. */
  function TotalBanked(log: seq<Event>): int {
    if log == [] then 0
    else TotalBanked(log[..|log| - 1]) + if log[|log| - 1].Banked? then log[|log| - 1].amount else 0
  }

  function BankedTo(log: seq<Event>, key: Key): int {
    if log == [] then 0
    else
      var e := log[|log| - 1];
      BankedTo(log[..|log| - 1], key) + if e.Banked? && e.key == key then e.amount else 0
  }

  lemma OneMoreBank(log: seq<Event>, e: Event, key: Key)
    ensures TotalBanked(log + [e]) == TotalBanked(log) + if e.Banked? then e.amount else 0
    ensures BankedTo(log + [e], key) == BankedTo(log, key) + if e.Banked? && e.key == key then e.amount else 0
  {
    assert (log + [e])[..|log + [e]| - 1] == log;
  }

  predicate NothingNegative(log: seq<Event>) {
    forall i | 0 <= i < |log| && log[i].Banked? :: log[i].amount >= 0
  }

  lemma {:induction false} BankedToIsPart(log: seq<Event>, key: Key)
    requires NothingNegative(log)
    ensures 0 <= BankedTo(log, key) <= TotalBanked(log)
  {
    if log != [] {
      BankedToIsPart(log[..|log| - 1], key);
    }
  }

  /** Every kill was of a debt that had reached its rule's delay, and that time had been banked. */
  ghost predicate KillsEarned(log: seq<Event>) {
    forall i | 0 <= i < |log| && log[i].Killed? ::
      log[i].after <= log[i].debt <= BankedTo(log[..i], log[i].key)
  }

  /** The time banked so far is covered by the time up to the poll mark, and every debt by what was
      banked under its key. */
  ghost predicate Conserved(s: State, log: seq<Event>, start: int, clock: int) {
    && NothingNegative(log) && KillsEarned(log)
    && TotalBanked(log) <= clock - start
    && (s.lastPoll.Some? ==> s.lastPoll.value <= clock && TotalBanked(log) <= s.lastPoll.value - start)
    && (forall key :: key in s.buckets ==> 0 <= s.buckets[key].accrued <= BankedTo(log, key))
  }

  lemma KillsStayEarned(log: seq<Event>, e: Event)
    requires KillsEarned(log) && (e.Killed? ==> e.after <= e.debt <= BankedTo(log, e.key))
    ensures KillsEarned(log + [e])
  {
    var more := log + [e];
    hide BankedTo;
    forall i | 0 <= i < |more| && more[i].Killed?
      ensures more[i].after <= more[i].debt <= BankedTo(more[..i], more[i].key)
    {
      assert more[..i] == log[..i];
      assert i == |log| ==> more[..i] == log;
    }
  }

  lemma BankingConserves(s: State, log: seq<Event>, start: int, clock: int, p: Poll, r: Key)
    requires Conserved(s, log, start, clock) && clock <= p.now && p.now <= p.touched
    ensures var d := SincePoll(s.lastPoll, p.now);
      Conserved(s.(lastPoll := Some(p.now), buckets := Accrue(s.buckets, r, d, p.touched)),
                log + [Banked(r, d)], start, p.now)
  {
    var d := SincePoll(s.lastPoll, p.now);
    var banked, bs := log + [Banked(r, d)], Accrue(s.buckets, r, d, p.touched);
    forall key
      ensures key in bs ==> 0 <= bs[key].accrued <= BankedTo(banked, key)
    {
      OneMoreBank(log, Banked(r, d), key);
      BankedToIsPart(log, key);
    }
    OneMoreBank(log, Banked(r, d), r);
    KillsStayEarned(log, Banked(r, d));
    hide BankedTo, TotalBanked, KillsEarned, Accrue;
  }

  lemma ActingConserves(s: State, log: seq<Event>, start: int, clock: int, e: Event, s': State)
    requires Conserved(s, log, start, clock) && !e.Banked? && e.key in s.buckets
    requires e.Killed? ==> e.after <= e.debt == s.buckets[e.key].accrued
    requires s'.lastPoll == s.lastPoll
    requires s'.buckets == if e.Killed? then RecordKill(s.buckets, e.key, e.to) else Escalate(s.buckets, e.key, e.to)
    ensures Conserved(s', log + [e], start, clock)
  {
    var more := log + [e];
    forall key
      ensures key in s'.buckets ==> 0 <= s'.buckets[key].accrued <= BankedTo(more, key)
    {
      OneMoreBank(log, e, key);
    }
    OneMoreBank(log, e, e.key);
    KillsStayEarned(log, e);
    hide BankedTo, TotalBanked, KillsEarned, RecordKill, Escalate;
  }

  lemma LaterConserved(s: State, log: seq<Event>, start: int, clock: int, later: int)
    requires Conserved(s, log, start, clock) && clock <= later
    ensures Conserved(s, log, start, later)
  {
  }

  lemma DecidingConserves(s: State, log: seq<Event>, start: int, clock: int, p: Poll, blocker: Session, r: Rule)
    requires Conserved(s, log, start, clock) && clock <= p.now <= p.touched <= p.recorded
    ensures var (s', more) := Decide(s, p, blocker, r); Conserved(s', log + more, start, p.recorded)
  {
    var (s', more) := Decide(s, p, blocker, r);
    var d := SincePoll(s.lastPoll, p.now);
    var bs, banked := Accrue(s.buckets, r.key, d, p.touched), log + [Banked(r.key, d)];
    var seen := s.(lastPoll := Some(p.now), buckets := bs);
    BankingConserves(s, log, start, clock, p, r.key);
    assert r.key in bs;
    LaterConserved(seen, banked, start, p.now, p.recorded);
    hide Conserved, Accrue, SincePoll, RecordKill, Escalate;
    if |more| == 2 {
      ActingConserves(seen, banked, start, p.recorded, more[1], s');
      assert log + more == banked + [more[1]];
    }
  }

  lemma {:induction false} DebtIsConserved(start: int, polls: seq<Poll>)
    requires Clocked(start, polls)
    ensures var (s, log) := History(polls); Conserved(s, log, start, ClockOf(start, polls))
  {
    if polls != [] {
      ClockedFront(start, polls);
      var front, p := polls[..|polls| - 1], polls[|polls| - 1];
      DebtIsConserved(start, front);
      var (s, log) := History(front);
      var seen := Observe(s, p);
      assert Conserved(seen, log, start, p.pruned);
      match BlockerOf(p.sessions, p.ddlSpid) {
        case None =>
          assert log + [] == log;
        case Some(b) =>
          match FirstMatch(p.rules, b) {
            case None =>
              assert log + [] == log;
            case Some(r) =>
              DecidingConserves(seen, log, start, p.pruned, p, b, r);
          }
      }
    }
  }

  /** Blocking debt is conserved: all the time ever banked, over all rules together, is at most the time
      since the rules were armed; and every kill's debt had been banked under its rule and had reached
      that rule's delay. */
  lemma BankedAtMostElapsed(start: int, polls: seq<Poll>)
    requires Clocked(start, polls)
    ensures var log := History(polls).1;
      && 0 <= TotalBanked(log) <= ClockOf(start, polls) - start
      && forall i | 0 <= i < |log| && log[i].Killed? ::
           log[i].after <= log[i].debt <= BankedTo(log[..i], log[i].key) <= TotalBanked(log)
  {
    DebtIsConserved(start, polls);
    var log := History(polls).1;
    BankedToIsPart(log, "");
    forall i | 0 <= i < |log| && log[i].Killed?
      ensures BankedTo(log[..i], log[i].key) <= TotalBanked(log)
    {
      BankedToIsPart(log[..i], log[i].key);
      TotalGrows(log, i);
    }
  }

  lemma {:induction false} TotalGrows(log: seq<Event>, i: nat)
    requires NothingNegative(log) && i <= |log|
    ensures TotalBanked(log[..i]) <= TotalBanked(log)
  {
    if i == |log| {
      assert log[..i] == log;
    } else {
      assert log[..|log| - 1][..i] == log[..i];
      TotalGrows(log[..|log| - 1], i);
    }
  }

  // --- who is killed ----------------------------------------------------------------------------

  lemma {:induction false} SessionOfHasId(sessions: seq<Session>, spid: int)
    ensures match SessionOf(sessions, spid)
      case None => forall i | 0 <= i < |sessions| :: sessions[i].spid != spid
      case Some(s) => exists i :: 0 <= i < |sessions| && s == sessions[i] && s.spid == spid
                        && forall j | 0 <= j < i :: sessions[j].spid != spid
  {
    if sessions != [] && sessions[0].spid != spid {
      SessionOfHasId(sessions[1..], spid);
      match SessionOf(sessions[1..], spid) {
        case None =>
        case Some(s) =>
          var i :| 0 <= i < |sessions[1..]| && s == sessions[1..][i] && s.spid == spid
                   && forall j | 0 <= j < i :: sessions[1..][j].spid != spid;
          assert s == sessions[i + 1];
          forall j | 0 <= j < i + 1
            ensures sessions[j].spid != spid
          {
            assert j > 0 ==> sessions[1..][j - 1] == sessions[j];
          }
      }
    }
  }

  /** Row i is the snapshot's first with this id. */
  predicate RowOf(sessions: seq<Session>, i: nat, spid: int) {
    i < |sessions| && sessions[i].spid == spid && forall j | 0 <= j < i :: sessions[j].spid != spid
  }

  /** Row b is the session that the row of our own session gives as its blocker. */
  ghost predicate BlocksUs(p: Poll, b: nat) {
    p.ddlSpid != 0 && exists a: nat :: RowOf(p.sessions, a, p.ddlSpid) && p.sessions[a].blockingSpid != 0
                                        && RowOf(p.sessions, b, p.sessions[a].blockingSpid)
  }

  /** Rule k decides on a session: it matches, and no earlier one does. */
  predicate Rules(rules: seq<Rule>, k: nat, s: Session) {
    k < |rules| && rules[k].matches(s) && forall j | 0 <= j < k :: !rules[j].matches(s)
  }

  lemma RowIsTheSession(sessions: seq<Session>, spid: int)
    ensures SessionOf(sessions, spid) == None ==> forall i: nat :: !RowOf(sessions, i, spid)
    ensures SessionOf(sessions, spid).Some? ==>
              exists i: nat :: RowOf(sessions, i, spid) && sessions[i] == SessionOf(sessions, spid).value
    ensures forall i: nat :: RowOf(sessions, i, spid) ==> SessionOf(sessions, spid) == Some(sessions[i])
  {
    SessionOfHasId(sessions, spid);
    hide SessionOf;
    if SessionOf(sessions, spid).Some? {
      var i: nat :| i < |sessions| && SessionOf(sessions, spid).value == sessions[i] && sessions[i].spid == spid
                    && forall j | 0 <= j < i :: sessions[j].spid != spid;
      assert RowOf(sessions, i, spid);
      forall i': nat | RowOf(sessions, i', spid)
        ensures i' == i
      {
        assert !(i' < i) && !(i < i');
      }
    }
  }

  /** The blocker is the session of that row, and there is one exactly when there is such a row. */
  lemma BlockerIsTheRow(p: Poll)
    ensures forall b: nat :: BlocksUs(p, b) ==> BlockerOf(p.sessions, p.ddlSpid) == Some(p.sessions[b])
    ensures BlockerOf(p.sessions, p.ddlSpid).Some? ==>
              exists b: nat :: BlocksUs(p, b) && p.sessions[b] == BlockerOf(p.sessions, p.ddlSpid).value
  {
    RowIsTheSession(p.sessions, p.ddlSpid);
    var ours := SessionOf(p.sessions, p.ddlSpid);
    if ours.Some? {
      RowIsTheSession(p.sessions, ours.value.blockingSpid);
    }
    hide SessionOf, RowOf;
    if BlockerOf(p.sessions, p.ddlSpid).Some? {
      var a: nat :| RowOf(p.sessions, a, p.ddlSpid) && p.sessions[a] == ours.value;
      var b: nat :| RowOf(p.sessions, b, ours.value.blockingSpid)
                    && p.sessions[b] == SessionOf(p.sessions, ours.value.blockingSpid).value;
      assert BlocksUs(p, b);
    }
  }

  /** The rule that decides is the first that matches, and there is one exactly when some rule matches. */
  lemma {:induction false} FirstMatchIsTheRule(rules: seq<Rule>, s: Session)
    ensures FirstMatch(rules, s) == None ==> forall k: nat :: !Rules(rules, k, s)
    ensures FirstMatch(rules, s).Some? ==> exists k: nat :: Rules(rules, k, s) && rules[k] == FirstMatch(rules, s).value
  {
    if rules != [] {
      if rules[0].matches(s) {
        assert Rules(rules, 0, s);
      } else {
        var rest := rules[1..];
        FirstMatchIsTheRule(rest, s);
        if FirstMatch(rest, s).Some? {
          var k: nat :| Rules(rest, k, s) && rest[k] == FirstMatch(rest, s).value;
          forall j | 0 <= j < k + 1
            ensures !rules[j].matches(s)
          {
            assert j > 0 ==> rules[j] == rest[j - 1];
          }
          assert Rules(rules, k + 1, s);
        } else {
          forall k: nat
            ensures !Rules(rules, k, s)
          {
            assert Rules(rules, k, s) ==> k > 0 && rules[k] == rest[k - 1] && !Rules(rest, k - 1, s);
            if Rules(rules, k, s) {
              forall j | 0 <= j < k - 1
                ensures !rest[j].matches(s)
              {
                assert rest[j] == rules[j + 1];
              }
            }
          }
        }
      }
    }
  }

  /** An event of a poll that sees this session blocking us and lets this rule decide on it. */
  predicate ByRule(p: Poll, e: Event, b: Session, r: Rule) {
    match e
    case Banked(key, _) => key == r.key
    case Killed(key, spid, from, to, debt, after) =>
      key == r.key && spid == b.spid && after == r.after && debt >= after && from == p.touched && to == p.recorded && p.killLands
    case Warned(key, _, _) => key == r.key
  }

  lemma DecideByRule(s: State, p: Poll, b: Session, r: Rule)
    ensures forall e <- Decide(s, p, b, r).1 :: ByRule(p, e, b, r)
  {
    hide Accrue, RecordKill, Escalate;
  }

  /** Whatever the state, every event of a poll is of the row that blocks our own session and of the first rule
      that matches it: that session is killed and no other, for that rule's key and delay. */
  lemma KillsOnlyTheBlocker(s: State, p: Poll, e: Event)
    requires e in Consider(s, p).1
    ensures exists b: nat, k: nat ::
              BlocksUs(p, b) && Rules(p.rules, k, p.sessions[b]) && ByRule(p, e, p.sessions[b], p.rules[k])
  {
    BlockerIsTheRow(p);
    var seen, blocker := Observe(s, p), BlockerOf(p.sessions, p.ddlSpid);
    hide Decide, Observe, BlockerOf;
    assert blocker.Some?;
    var b: nat :| BlocksUs(p, b) && p.sessions[b] == blocker.value;
    FirstMatchIsTheRule(p.rules, p.sessions[b]);
    var r := FirstMatch(p.rules, p.sessions[b]);
    hide FirstMatch, Rules;
    assert r.Some?;
    var k: nat :| Rules(p.rules, k, p.sessions[b]) && p.rules[k] == r.value;
    DecideByRule(seen, p, p.sessions[b], p.rules[k]);
  }

  /** The same of every event ever logged: it is of some poll's blocker, by the rule then in force. */
  lemma {:induction false} EveryKillIsOfABlocker(polls: seq<Poll>, e: Event)
    requires e in History(polls).1
    ensures exists i: nat, b: nat, k: nat ::
              i < |polls| && BlocksUs(polls[i], b) && Rules(polls[i].rules, k, polls[i].sessions[b])
              && ByRule(polls[i], e, polls[i].sessions[b], polls[i].rules[k])
  {
    var front, p := polls[..|polls| - 1], polls[|polls| - 1];
    hide Consider, BlocksUs, Rules, ByRule;
    if e in History(front).1 {
      EveryKillIsOfABlocker(front, e);
      var i: nat, b: nat, k: nat :|
        i < |front| && BlocksUs(front[i], b) && Rules(front[i].rules, k, front[i].sessions[b])
        && ByRule(front[i], e, front[i].sessions[b], front[i].rules[k]);
      assert polls[i] == front[i];
    } else {
      KillsOnlyTheBlocker(History(front).0, p, e);
      var b: nat, k: nat :| BlocksUs(p, b) && Rules(p.rules, k, p.sessions[b]) && ByRule(p, e, p.sessions[b], p.rules[k]);
      assert polls[|polls| - 1] == p;
    }
  }

  // --- one kill per episode -------------------------------------------------------------------

  /** The session that blocks us at a poll, 0 when none does. */
  function BlockerId(p: Poll): int {
    match BlockerOf(p.sessions, p.ddlSpid)
    case None => 0
    case Some(b) => b.spid
  }

  predicate AnyKill(events: seq<Event>) {
    exists i :: 0 <= i < |events| && events[i].Killed?
  }

  /** The state after the first n polls. */
  function StateAfter(polls: seq<Poll>, n: nat): State
    requires n <= |polls|
  {
    History(polls[..n]).0
  }

  /** Poll i killed its blocker. */
  ghost predicate KillsAt(polls: seq<Poll>, i: int)
    requires 0 <= i < |polls|
  {
    AnyKill(Consider(StateAfter(polls, i), polls[i]).1)
  }

  /** The blocker is never session 0, so an episode is never confused with no episode at all. */
  lemma BlockerIsReal(p: Poll)
    ensures BlockerOf(p.sessions, p.ddlSpid).Some? ==> BlockerId(p) != 0
  {
    match SessionOf(p.sessions, p.ddlSpid)
    case None =>
    case Some(ours) => SessionOfHasId(p.sessions, ours.blockingSpid);
  }

  /** A poll that kills leaves it on record, and while the same session blocks, the record stands and
      forbids another. */
  lemma EpisodeStep(s: State, p: Poll)
    ensures var (s', events) := Consider(s, p);
      && (AnyKill(events) ==> s'.killed && s'.current == BlockerId(p) && BlockerId(p) != 0)
      && (s.killed && s.current != 0 && s.current == BlockerId(p) ==>
            s'.killed && s'.current == s.current && !AnyKill(events))
  {
    BlockerIsReal(p);
    hide SessionOf, FirstMatch, Accrue, RecordKill, Escalate, Prune, SincePoll;
  }

  lemma HistoryStep(polls: seq<Poll>, j: nat)
    requires j < |polls|
    ensures StateAfter(polls, j + 1) == Consider(StateAfter(polls, j), polls[j]).0
  {
    assert polls[..j + 1][..j] == polls[..j] && polls[..j + 1][j] == polls[j];
    hide Consider;
  }

  lemma {:induction false} KilledIsRemembered(polls: seq<Poll>, i: nat, j: nat)
    requires i < j <= |polls| && KillsAt(polls, i)
    requires forall k | i <= k < j :: BlockerId(polls[k]) == BlockerId(polls[i])
    ensures var s := StateAfter(polls, j); s.killed && s.current == BlockerId(polls[i]) && s.current != 0
    decreases j - i
  {
    hide Consider, BlockerId, StateAfter, AnyKill;
    if j == i + 1 {
      HistoryStep(polls, i);
      EpisodeStep(StateAfter(polls, i), polls[i]);
    } else {
      hide KillsAt;
      HistoryStep(polls, j - 1);
      EpisodeStep(StateAfter(polls, j - 1), polls[j - 1]);
      KilledIsRemembered(polls, i, j - 1);
      assert BlockerId(polls[j - 1]) == BlockerId(polls[i]);
    }
  }

  /** While the same session goes on blocking, poll after poll, it is killed at most once, whatever
      happens to the rules meanwhile. */
  lemma OneKillPerEpisode(polls: seq<Poll>, i: nat, j: nat)
    requires i < j < |polls| && KillsAt(polls, i)
    requires forall k | i <= k <= j :: BlockerId(polls[k]) == BlockerId(polls[i])
    ensures !KillsAt(polls, j)
  {
    KilledIsRemembered(polls, i, j);
    assert BlockerId(polls[j]) == BlockerId(polls[i]);
    EpisodeStep(StateAfter(polls, j), polls[j]);
    hide Consider, BlockerId, StateAfter, AnyKill;
  }

  lemma NothingAtFirst(polls: seq<Poll>)
    ensures StateAfter(polls, 0) == FRESH
  {
    assert polls[..0] == [];
  }

  /** The record stands for a real kill, of the session that is still blocking. */
  lemma {:induction false} RecordedKillHappened(polls: seq<Poll>, j: nat) returns (i: nat)
    requires j <= |polls| && StateAfter(polls, j).killed
    ensures i < j && KillsAt(polls, i)
    ensures forall k | i <= k < j :: BlockerId(polls[k]) == StateAfter(polls, j).current
    decreases j
  {
    NothingAtFirst(polls);
    hide StateAfter;
    if j > 0 {
      HistoryStep(polls, j - 1);
      KilledIsNew(StateAfter(polls, j - 1), polls[j - 1]);
      hide Consider, BlockerId, AnyKill;
      if KillsAt(polls, j - 1) {
        return j - 1;
      }
      hide KillsAt;
      i := RecordedKillHappened(polls, j - 1);
    }
  }

  lemma KilledIsNew(s: State, p: Poll)
    ensures var (s', events) := Consider(s, p);
      s'.killed ==> s'.current == BlockerId(p) && (AnyKill(events) || (s.killed && s.current == s'.current))
  {
    hide SessionOf, FirstMatch, Accrue, RecordKill, Escalate, Prune, SincePoll;
    var (s', events) := Consider(s, p);
    if s'.killed && !(s.killed && s.current == s'.current) {
      assert events[|events| - 1].Killed?;
    }
  }

  // --- only observed blocking is banked ----------------------------------------------------------

  /** The time between polls that saw the same session blocking us, one straight after the other. */
  function Observed(polls: seq<Poll>): int {
    if |polls| < 2 then 0
    else
      var p, q := polls[|polls| - 2], polls[|polls| - 1];
      Observed(polls[..|polls| - 1]) + if BlockerId(p) == BlockerId(q) != 0 then q.now - p.now else 0
  }

  /** The poll mark is the last poll's, and stands only while that poll saw a blocker. */
  ghost predicate Marked(s: State, polls: seq<Poll>) {
    s.lastPoll.Some? ==> polls != [] && s.lastPoll.value == polls[|polls| - 1].now && s.current == BlockerId(polls[|polls| - 1])
  }

  lemma OneBank(s: State, p: Poll)
    ensures var (s', events) := Consider(s, p);
      && (s'.lastPoll.Some? ==> s'.lastPoll.value == p.now && s'.current == BlockerId(p))
      && (events == [] || events[0].Banked?)
      && (forall i | 0 < i < |events| :: !events[i].Banked?)
      && (events != [] ==> BlockerId(p) != 0)
      && (events != [] ==>
            events[0].amount == if s.current == BlockerId(p) && s.lastPoll.Some? then p.now - s.lastPoll.value else 0)
  {
    BlockerIsReal(p);
    hide SessionOf, FirstMatch, Accrue, RecordKill, Escalate, Prune;
  }

  lemma {:induction false} BankedEvents(log: seq<Event>, events: seq<Event>)
    requires forall i | 0 < i < |events| :: !events[i].Banked?
    ensures TotalBanked(log + events)
         == TotalBanked(log) + if events != [] && events[0].Banked? then events[0].amount else 0
    decreases |events|
  {
    if events == [] {
      assert log + events == log;
    } else {
      var front := events[..|events| - 1];
      BankedEvents(log, front);
      assert log + events == (log + front) + [events[|events| - 1]];
      OneMoreBank(log + front, events[|events| - 1], "");
      assert |events| == 1 ==> log + front == log;
    }
  }

  /** The debt is only ever time that was seen: all of it together is at most the time between successive
      polls that saw one and the same blocker. A gap in the blocking, or a change of blocker, is nobody's. */
  lemma {:induction false} OnlyObservedBlockingIsBanked(start: int, polls: seq<Poll>)
    requires Clocked(start, polls)
    ensures TotalBanked(History(polls).1) <= Observed(polls) && Marked(History(polls).0, polls)
  {
    if polls != [] {
      ClockedFront(start, polls);
      var front, p := polls[..|polls| - 1], polls[|polls| - 1];
      OnlyObservedBlockingIsBanked(start, front);
      var (s, log) := History(front);
      OneBank(s, p);
      BankedEvents(log, Consider(s, p).1);
      hide Consider, BlockerId, TotalBanked;
      if |polls| >= 2 {
        assert front[|front| - 1] == polls[|polls| - 2];
        assert polls[|polls| - 2].recorded <= p.pruned;
      }
    }
  }

  // --- a persistent blocker is killed -----------------------------------------------------------

  /** At this poll the session blocks us, its first matching rule is this one, and a KILL would land. */
  predicate Targeted(p: Poll, id: int, key: Key, after: int) {
    match BlockerOf(p.sessions, p.ddlSpid)
    case None => false
    case Some(b) =>
      match FirstMatch(p.rules, b)
      case None => false
      case Some(r) => b.spid == id && r.key == key && r.after == after && p.killLands
  }

  /** The rule spent its kills inside the window, and said so. */
  predicate BudgetSpent(s: State, key: Key) {
    key in s.buckets && s.buckets[key].kills >= MAX_KILLS && s.buckets[key].escalated
  }

  /** The time since `since` is banked under the key, and its bucket was touched at `active`. */
  predicate Owing(s: State, id: int, key: Key, since: int, now: int, active: int) {
    && s.current == id && s.lastPoll == Some(now)
    && key in s.buckets && s.buckets[key].lastActive >= active && s.buckets[key].accrued >= now - since
  }

  lemma TargetedFirst(s: State, p: Poll, id: int, key: Key, after: int)
    requires Targeted(p, id, key, after) && p.now <= p.touched <= p.recorded
    requires key in s.buckets ==> 0 <= s.buckets[key].accrued
    ensures Owing(Consider(s, p).0, id, key, p.now, p.now, p.touched)
    ensures after <= 0 ==> Consider(s, p).0.killed || BudgetSpent(Consider(s, p).0, key)
  {
    hide SessionOf, FirstMatch;
  }

  lemma TargetedAgain(s: State, p: Poll, id: int, key: Key, after: int, since: int, last: int, active: int)
    requires Targeted(p, id, key, after) && last <= p.now <= p.touched <= p.recorded
    requires Owing(s, id, key, since, last, active) && p.pruned - active <= WINDOW
    ensures Owing(Consider(s, p).0, id, key, since, p.now, p.touched)
    ensures after <= p.now - since ==> Consider(s, p).0.killed || BudgetSpent(Consider(s, p).0, key)
  {
    hide SessionOf, FirstMatch;
  }

  /** Poll i killed this session, and killed nothing else. */
  ghost predicate KillsSession(polls: seq<Poll>, i: int, id: int)
    requires 0 <= i < |polls|
  {
    var events := Consider(StateAfter(polls, i), polls[i]).1;
    AnyKill(events) && forall e <- events :: e.Killed? ==> e.spid == id
  }

  lemma KillIsOfBlocker(polls: seq<Poll>, i: nat)
    requires i < |polls| && KillsAt(polls, i)
    ensures KillsSession(polls, i, BlockerId(polls[i]))
  {
    var s, p := StateAfter(polls, i), polls[i];
    hide StateAfter;
    forall e <- Consider(s, p).1 | e.Killed?
      ensures e.spid == BlockerId(p)
    {
      KillsOnlyTheBlocker(s, p, e);
      BlockerIsTheRow(p);
      hide Consider, BlocksUs, Rules, BlockerOf;
    }
  }

  lemma {:induction false} DebtGrows(start: int, polls: seq<Poll>, i: nat, j: nat, id: int, key: Key, after: int)
    requires Clocked(start, polls) && i <= j < |polls|
    requires forall k | i <= k <= j :: Targeted(polls[k], id, key, after)
    requires forall k | i < k <= j :: polls[k].pruned - polls[k - 1].touched <= WINDOW
    ensures var s := StateAfter(polls, j + 1);
      && Owing(s, id, key, polls[i].now, polls[j].now, polls[j].touched)
      && (after <= polls[j].now - polls[i].now ==> s.killed || BudgetSpent(s, key))
    decreases j
  {
    HistoryStep(polls, j);
    assert Targeted(polls[j], id, key, after);
    if j == i {
      ClockedPrefix(start, polls, j);
      DebtIsConserved(start, polls[..j]);
      TargetedFirst(StateAfter(polls, j), polls[j], id, key, after);
    } else {
      DebtGrows(start, polls, i, j - 1, id, key, after);
      assert polls[j - 1].recorded <= polls[j].pruned;
      hide StateAfter, Targeted, Consider, BudgetSpent, Owing;
      TargetedAgain(StateAfter(polls, j), polls[j], id, key, after, polls[i].now, polls[j - 1].now, polls[j - 1].touched);
    }
  }

  lemma ClockedPrefix(start: int, polls: seq<Poll>, n: nat)
    requires Clocked(start, polls) && n <= |polls|
    ensures Clocked(start, polls[..n])
  {
    forall i, j | 0 <= i < j < n
      ensures polls[..n][i].recorded <= polls[..n][j].pruned
    {
      assert polls[i].recorded <= polls[j].pruned;
    }
  }

  /** A session seen blocking for the whole delay of the rule that matches it, polled at least once a
      window, has been killed by then in this very episode, unless the rule's budget of kills is spent. */
  lemma PersistentBlockerIsKilled(start: int, polls: seq<Poll>, i: nat, j: nat, id: int, key: Key, after: int)
    requires Clocked(start, polls) && i <= j < |polls| && after <= polls[j].now - polls[i].now
    requires forall k | i <= k <= j :: Targeted(polls[k], id, key, after)
    requires forall k | i < k <= j :: polls[k].pruned - polls[k - 1].touched <= WINDOW
    ensures || BudgetSpent(StateAfter(polls, j + 1), key)
            || exists k :: 0 <= k <= j && KillsAt(polls, k) && KillsSession(polls, k, id)
                           && forall l | k <= l <= j :: BlockerId(polls[l]) == id
  {
    DebtGrows(start, polls, i, j, id, key, after);
    hide Targeted, KillsAt, StateAfter, BlockerId, Clocked, BudgetSpent;
    if StateAfter(polls, j + 1).killed {
      var k := RecordedKillHappened(polls, j + 1);
      assert forall l | k <= l < j + 1 :: BlockerId(polls[l]) == id;
      KillIsOfBlocker(polls, k);
    }
  }

  // --- the objects ----------------------------------------------------------------------------

  /** The debt accumulator: one bucket per rule key. */
  class Recidivism {
    var buckets: map<Key, Bucket>

    constructor ()
      ensures buckets == map[]
    {
      buckets := map[];
    }

    method Mark(key: Key, at: int)
      modifies this
      ensures buckets == Touch(old(buckets), key, at)
    {
      var b := if key in buckets then buckets[key] else Bucket(0, 0, false, at);
      buckets := buckets[key := b.(lastActive := at)];
    }

    method Bank(key: Key, d: int, at: int)
      modifies this
      ensures buckets == Accrue(old(buckets), key, d, at)
    {
      Mark(key, at);
      if d > 0 {
        buckets := buckets[key := buckets[key].(accrued := buckets[key].accrued + d)];
      }
      assert buckets == Accrue(old(buckets), key, d, at);
    }

    function Debt(key: Key): (debt: int)
      reads this
      ensures key in buckets ==> debt == buckets[key].accrued
      ensures key !in buckets ==> debt == 0
    {
      if key in buckets then buckets[key].accrued else 0
    }

    function Spent(key: Key): (kills: nat)
      reads this
      ensures key in buckets ==> kills == buckets[key].kills
      ensures key !in buckets ==> kills == 0
    {
      if key in buckets then buckets[key].kills else 0
    }

    method Spend(key: Key, at: int)
      modifies this
      ensures buckets == RecordKill(old(buckets), key, at)
    {
      Mark(key, at);
      buckets := buckets[key := buckets[key].(kills := buckets[key].kills + 1)];
      assert buckets == RecordKill(old(buckets), key, at);
    }

    /** True the first time for a bucket. */
    method Escalated(key: Key, at: int) returns (first: bool)
      modifies this
      ensures buckets == Escalate(old(buckets), key, at)
      ensures first == !(key in old(buckets) && old(buckets)[key].escalated)
    {
      Mark(key, at);
      first := !buckets[key].escalated;
      buckets := buckets[key := buckets[key].(escalated := true)];
      assert buckets == Escalate(old(buckets), key, at);
    }

    /** Drops every idle bucket, one by one. */
    method Forget(now: int)
      modifies this
      ensures buckets == Prune(old(buckets), now)
    {
      var keys := buckets.Keys;
      while keys != {}
        invariant keys <= old(buckets).Keys && buckets.Keys <= old(buckets).Keys
        invariant forall key | key in old(buckets) ::
          (key in buckets <==> key in keys || now - old(buckets)[key].lastActive <= WINDOW)
          && (key in buckets ==> buckets[key] == old(buckets)[key])
        decreases |keys|
      {
        var key :| key in keys;
        keys := keys - {key};
        if now - buckets[key].lastActive > WINDOW {
          buckets := buckets - {key};
        }
      }
    }

    method Reset()
      modifies this
      ensures buckets == map[]
    {
      buckets := map[];
    }
  }

  /** The first session with an id, by the source's scan. */
  method FindSession(sessions: seq<Session>, spid: int) returns (found: Option<Session>)
    ensures found == SessionOf(sessions, spid)
  {
    assert sessions[0..] == sessions;
    for i := 0 to |sessions|
      invariant SessionOf(sessions, spid) == SessionOf(sessions[i..], spid)
    {
      assert sessions[i..][1..] == sessions[i + 1..];
      if sessions[i].spid == spid {
        return Some(sessions[i]);
      }
    }
    return None;
  }

  method BlockerSession(sessions: seq<Session>, ddlSpid: int) returns (blocker: Option<Session>)
    ensures blocker == BlockerOf(sessions, ddlSpid)
  {
    if ddlSpid == 0 {
      return None;
    }
    var ours := FindSession(sessions, ddlSpid);
    if ours == None || ours.value.blockingSpid == 0 {
      return None;
    }
    blocker := FindSession(sessions, ours.value.blockingSpid);
  }

  class BlockerKiller {
    var armed: bool
    var current: int
    var lastPoll: Option<int>
    var killed: bool
    const debts: Recidivism

    ghost function Seen(): State
      reads this, debts
    {
      State(current, lastPoll, killed, debts.buckets)
    }

    constructor ()
      ensures !armed && Seen() == FRESH && fresh(debts)
    {
      armed, current, lastPoll, killed := false, 0, None, false;
      debts := new Recidivism();
    }

    method ResetEpisode()
      modifies this
      ensures current == 0 && lastPoll == None && !killed && armed == old(armed)
    {
      current, lastPoll, killed := 0, None, false;
    }

    /** Rules are swapped between manifests: nothing is carried across. */
    method SetSource(rulesGiven: bool)
      modifies this, debts
      ensures armed == rulesGiven && Seen() == FRESH
    {
      armed := rulesGiven;
      debts.Reset();
      ResetEpisode();
    }

    /** One blocking poll: the state and the events are those of the specification, whose history the
        theorems above are about. */
    method ConsiderLocked(p: Poll) returns (events: seq<Event>)
      modifies this, debts
      ensures armed == old(armed)
      ensures !armed ==> Seen() == old(Seen()) && events == []
      ensures armed ==> (Seen(), events) == Consider(old(Seen()), p)
    {
      if !armed {
        return [];
      }
      debts.Forget(p.pruned);
      var blocker := BlockerSession(p.sessions, p.ddlSpid);
      if blocker == None {
        ResetEpisode();
        return [];
      }
      var b := blocker.value;
      if b.spid != current {
        current, lastPoll, killed := b.spid, None, false;
      }
      ghost var seen := Seen();
      assert seen == Observe(old(Seen()), p);
      assert p.rules[0..] == p.rules;
      for i := 0 to |p.rules|
        invariant armed && Seen() == seen
        invariant FirstMatch(p.rules, b) == FirstMatch(p.rules[i..], b)
      {
        var r := p.rules[i];
        assert p.rules[i..][1..] == p.rules[i + 1..];
        if r.matches(b) {
          assert FirstMatch(p.rules, b) == Some(r);
          events := Apply(p, b, r);
          return;
        }
      }
      assert FirstMatch(p.rules, b) == None;
      lastPoll := Some(p.now);
      return [];
    }

    /** The first matching rule decides. */
    method Apply(p: Poll, b: Session, r: Rule) returns (events: seq<Event>)
      modifies this, debts
      ensures armed == old(armed) && (Seen(), events) == Decide(old(Seen()), p, b, r)
    {
      var d := if lastPoll == None then 0 else p.now - lastPoll.value;
      debts.Bank(r.key, d, p.touched);
      lastPoll := Some(p.now);
      events := [Banked(r.key, d)];
      if killed || debts.Debt(r.key) < r.after {
        return;
      }
      if debts.Spent(r.key) >= MAX_KILLS {
        var first := debts.Escalated(r.key, p.recorded);
        if first {
          events := events + [Warned(r.key, p.touched, p.recorded)];
        }
        return;
      }
      if p.killLands {
        killed := true;
        events := events + [Killed(r.key, b.spid, p.touched, p.recorded, debts.Debt(r.key), r.after)];
        debts.Spend(r.key, p.recorded);
      }
    }
  }
}
