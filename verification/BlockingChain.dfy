/** How many sessions wait, directly or through others, behind one session of a blocking snapshot that
    may hold cycles, self-loops and repeated rows. */
module BlockingChain {
  import opened BlockerKills

  /** b waits directly behind a. */
  predicate WaitsFor(sessions: seq<Session>, a: int, b: int) {
    exists i :: 0 <= i < |sessions| && IsEdge(sessions[i], a, b)
  }

  predicate IsEdge(s: Session, a: int, b: int) {
    s.blockingSpid == a && a != 0 && s.spid == b
  }

  /** A chain of direct waits from `from` to `to`. */
  predicate Chain(sessions: seq<Session>, path: seq<int>, from: int, to: int) {
    && path != [] && path[0] == from && path[|path| - 1] == to
    && forall i | 0 <= i < |path| - 1 :: WaitsFor(sessions, path[i], path[i + 1])
  }

  ghost predicate Behind(sessions: seq<Session>, root: int, spid: int) {
    exists path :: Chain(sessions, path, root, spid)
  }

  function Spids(sessions: seq<Session>): set<int> {
    set i | 0 <= i < |sessions| :: sessions[i].spid
  }

  /** The sessions behind `root`, the root itself excluded, each counted once. */
  ghost function AllBehind(sessions: seq<Session>, root: int): set<int> {
    set x | x in Spids(sessions) && x != root && Behind(sessions, root, x)
  }

  lemma OneFurther(sessions: seq<Session>, root: int, a: int, b: int)
    requires Behind(sessions, root, a) && WaitsFor(sessions, a, b)
    ensures Behind(sessions, root, b)
  {
    var path :| Chain(sessions, path, root, a);
    var longer := path + [b];
    forall i | 0 <= i < |longer| - 1
      ensures WaitsFor(sessions, longer[i], longer[i + 1])
    {
      if i < |path| - 1 {
        assert WaitsFor(sessions, path[i], path[i + 1]);
      }
    }
    assert Chain(sessions, longer, root, b);
  }

  lemma RootIsBehindItself(sessions: seq<Session>, root: int)
    ensures Behind(sessions, root, root)
  {
    assert Chain(sessions, [root], root, root);
  }

  ghost predicate Closed(sessions: seq<Session>, found: set<int>) {
    forall a, b | a in found && WaitsFor(sessions, a, b) :: b in found
  }

  /** A closed set that holds the root holds everything behind it. */
  lemma {:induction false} ClosedHoldsChain(sessions: seq<Session>, found: set<int>, path: seq<int>, from: int, to: int)
    requires Closed(sessions, found) && from in found && Chain(sessions, path, from, to)
    ensures to in found
    decreases |path|
  {
    if |path| > 1 {
      assert WaitsFor(sessions, path[0], path[1]);
      forall i | 0 <= i < |path[1..]| - 1
        ensures WaitsFor(sessions, path[1..][i], path[1..][i + 1])
      {
        assert WaitsFor(sessions, path[i + 1], path[i + 1 + 1]);
      }
      ClosedHoldsChain(sessions, found, path[1..], path[1], to);
    }
  }

  /** A waiter is a session of the snapshot. */
  lemma WaiterIsListed(sessions: seq<Session>, a: int, b: int)
    requires WaitsFor(sessions, a, b)
    ensures b in Spids(sessions)
  {
    var i :| 0 <= i < |sessions| && IsEdge(sessions[i], a, b);
    assert sessions[i].spid in Spids(sessions);
  }

  /** What a search has when nothing is left to expand: exactly the sessions behind the root. */
  lemma SearchIsComplete(sessions: seq<Session>, root: int, found: set<int>)
    requires root in found && Closed(sessions, found) && found <= Spids(sessions) + {root}
    requires forall x <- found :: Behind(sessions, root, x)
    ensures found - {root} == AllBehind(sessions, root)
  {
    forall x | x in AllBehind(sessions, root)
      ensures x in found
    {
      var path :| Chain(sessions, path, root, x);
      ClosedHoldsChain(sessions, found, path, root, x);
    }
  }

  /** The waiters recorded under a blocker. */
  function Waiters(behind: map<int, seq<int>>, a: int): seq<int> {
    if a in behind then behind[a] else []
  }

  /** The index holds exactly the direct waits of the sessions read so far. */
  ghost predicate Indexed(behind: map<int, seq<int>>, sessions: seq<Session>) {
    forall a, b :: b in Waiters(behind, a) <==> WaitsFor(sessions, a, b)
  }

  lemma IndexOne(behind: map<int, seq<int>>, sessions: seq<Session>, s: Session)
    requires Indexed(behind, sessions)
    ensures Indexed(if s.blockingSpid == 0 then behind
                    else behind[s.blockingSpid := Waiters(behind, s.blockingSpid) + [s.spid]],
                    sessions + [s])
  {
    var more := sessions + [s];
    var behind' := if s.blockingSpid == 0 then behind
                   else behind[s.blockingSpid := Waiters(behind, s.blockingSpid) + [s.spid]];
    forall a, b
      ensures b in Waiters(behind', a) <==> WaitsFor(more, a, b)
    {
      if WaitsFor(sessions, a, b) {
        var i :| 0 <= i < |sessions| && IsEdge(sessions[i], a, b);
        assert IsEdge(more[i], a, b);
      }
      if WaitsFor(more, a, b) {
        var i :| 0 <= i < |more| && IsEdge(more[i], a, b);
        assert i < |sessions| ==> IsEdge(sessions[i], a, b);
        assert i == |sessions| ==> IsEdge(s, a, b);
      }
      if IsEdge(s, a, b) {
        assert more[|sessions|] == s;
        assert WaitsFor(more, a, b);
      }
    }
  }

  method IndexWaits(sessions: seq<Session>) returns (behind: map<int, seq<int>>)
    ensures Indexed(behind, sessions)
  {
    behind := map[];
    for i := 0 to |sessions|
      invariant Indexed(behind, sessions[..i])
    {
      var s := sessions[i];
      IndexOne(behind, sessions[..i], s);
      assert sessions[..i] + [s] == sessions[..i + 1];
      if s.blockingSpid != 0 {
        behind := behind[s.blockingSpid := Waiters(behind, s.blockingSpid) + [s.spid]];
      }
    }
    assert sessions[..|sessions|] == sessions;
  }

  /** What the search holds between two sessions: everything found is behind the root, and whatever
      waits behind something found was found too, unless that something still waits in the queue. */
  ghost predicate Searching(sessions: seq<Session>, root: int, visited: set<int>, queue: seq<int>) {
    && root in visited && visited <= Spids(sessions) + {root}
    && (forall x <- visited :: Behind(sessions, root, x))
    && (forall x <- queue :: x in visited)
    && (forall a, b | a in visited && a !in queue && WaitsFor(sessions, a, b) :: b in visited)
  }

  /** Marks the waiters of one session, the new ones counted and queued. */
  method Expand(sessions: seq<Session>, root: int, cur: int, waiters: seq<int>,
                visited: set<int>, queue: seq<int>)
    returns (seen: set<int>, next: seq<int>, found: nat)
    requires cur in visited && Behind(sessions, root, cur)
    requires forall b :: b in waiters <==> WaitsFor(sessions, cur, b)
    requires root in visited && visited <= Spids(sessions) + {root}
    requires forall x <- visited :: Behind(sessions, root, x)
    requires forall x <- queue :: x in visited
    requires forall a, b | a in visited && a != cur && a !in queue && WaitsFor(sessions, a, b) :: b in visited
    ensures Searching(sessions, root, seen, next)
    ensures visited <= seen && |seen| == |visited| + found
    ensures found == 0 ==> seen == visited && next == queue
  {
    hide Behind, WaitsFor, Spids;
    seen, next, found := visited, queue, 0;
    for i := 0 to |waiters|
      invariant visited <= seen <= Spids(sessions) + {root} && |seen| == |visited| + found
      invariant forall x <- seen :: Behind(sessions, root, x)
      invariant forall x <- next :: x in seen
      invariant forall x <- queue :: x in next
      invariant forall x <- seen :: x in visited || x in next
      invariant forall j | 0 <= j < i :: waiters[j] in seen
      invariant found == 0 ==> seen == visited && next == queue
    {
      var w := waiters[i];
      if w !in seen {
        assert WaitsFor(sessions, cur, w);
        OneFurther(sessions, root, cur, w);
        WaiterIsListed(sessions, cur, w);
        seen, next, found := seen + {w}, next + [w], found + 1;
      }
    }
    forall a, b | a in seen && a !in next && WaitsFor(sessions, a, b)
      ensures b in seen
    {
      if a == cur {
        assert b in waiters;
        var j :| 0 <= j < |waiters| && waiters[j] == b;
      }
    }
  }

  /** The fan-out behind a session: it ends on every snapshot and counts each session behind it once. */
  method BlockedBehind(sessions: seq<Session>, spid: int) returns (count: nat)
    ensures count == if spid == 0 then 0 else |AllBehind(sessions, spid)|
  {
    if spid == 0 {
      return 0;
    }
    var behind := IndexWaits(sessions);
    RootIsBehindItself(sessions, spid);
    var visited: set<int>, queue: seq<int> := {spid}, [spid];
    count := 0;
    while |queue| > 0
      invariant Searching(sessions, spid, visited, queue)
      invariant |visited| == count + 1
      decreases |Spids(sessions) + {spid} - visited|, |queue|
    {
      var cur := queue[0];
      var found;
      ghost var before := visited;
      ghost var universe := Spids(sessions) + {spid};
      assert Behind(sessions, spid, cur);
      visited, queue, found := Expand(sessions, spid, cur, Waiters(behind, cur), visited, queue[1..]);
      count := count + found;
      if found > 0 {
        assert universe - visited < universe - before by {
          assert visited != before;
          var x :| x in visited && x !in before;
          assert x in universe - before && x !in universe - visited;
        }
        SmallerSet(universe - visited, universe - before);
      }
    }
    SearchIsComplete(sessions, spid, visited);
    assert |visited - {spid}| == |visited| - 1;
  }

  lemma SmallerSet(a: set<int>, b: set<int>)
    requires a < b
    ensures |a| < |b|
  {
    assert b == a + (b - a);
    assert b - a != {};
  }

  /** Behind is closed under waiting, and nothing smaller that holds the root is: the count is the count
      of the least such set. */
  lemma BehindIsLeast(sessions: seq<Session>, root: int, found: set<int>)
    requires root in found && Closed(sessions, found)
    ensures AllBehind(sessions, root) <= found
    ensures Closed(sessions, AllBehind(sessions, root) + {root})
  {
    forall x | x in AllBehind(sessions, root)
      ensures x in found
    {
      var path :| Chain(sessions, path, root, x);
      ClosedHoldsChain(sessions, found, path, root, x);
    }
    forall a, b | a in AllBehind(sessions, root) + {root} && WaitsFor(sessions, a, b)
      ensures b in AllBehind(sessions, root) + {root}
    {
      RootIsBehindItself(sessions, root);
      OneFurther(sessions, root, a, b);
      WaiterIsListed(sessions, a, b);
    }
  }
}
