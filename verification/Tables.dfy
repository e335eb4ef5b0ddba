/** A table addressed by its unique integer clustered key, and what the server's statements do to
    it. */
module Tables {
  import opened Options
  import opened SqlPredicates
  import opened BatchStatements

  type Table = map<int, Row>

  /** Every row carries its own key in the key column. */
  predicate WellKeyed(db: Table, key: Column) {
    forall k <- db :: Get(db[k], key) == Val(k)
  }

  /** The keys of the rows a WHERE selects. */
  function Matching(db: Table, where: Option<Pred>): set<int> {
    set k | k in db && Selects(where, db[k])
  }

  /** The keys of the rows the operation still has to act on. */
  function Pending(db: Table, o: BatchDML): set<int>
    requires Validate(o) == None
  {
    set k | k in db && Needs(o, db[k])
  }

  function UpdateRows(db: Table, keys: set<int>, o: BatchDML): Table {
    map k | k in db :: if k in keys then Change(o, db[k]) else db[k]
  }

  function DeleteRows(db: Table, keys: set<int>): Table {
    map k | k in db && k !in keys :: db[k]
  }

  lemma SomeElement(s: set<int>)
    ensures s == {} || exists x :: x in s
  {
    if forall x :: x !in s {
      assert s == {};
    }
  }

  lemma {:induction false} HasMin(s: set<int>)
    requires s != {}
    ensures exists m :: m in s && forall x <- s :: m <= x
  {
    SomeElement(s);
    var x :| x in s;
    var below := set z | z in s && z < x;
    if below == {} {
      forall z <- s
        ensures x <= z
      {
        assert z !in below;
      }
    } else {
      assert x !in below;
      HasMin(below);
      var m :| m in below && forall z <- below :: m <= z;
      forall z <- s
        ensures m <= z
      {
        assert z < x ==> z in below;
      }
      assert m in s;
    }
  }

  function Min(s: set<int>): (m: int)
    requires s != {}
    ensures m in s && forall x <- s :: m <= x
  {
    HasMin(s);
    var m :| m in s && forall x <- s :: m <= x;
    m
  }

  /** MAX over the TOP (n) smallest: the n-th smallest, the largest when there are fewer, nothing
      for an empty set or TOP (0). */
  function NthSmallest(s: set<int>, n: int): (top: Option<int>)
    decreases s
  {
    if s == {} || n <= 0 then None
    else if n == 1 || s == {Min(s)} then Some(Min(s))
    else NthSmallest(s - {Min(s)}, n - 1)
  }

  function UpTo(s: set<int>, at: int): set<int> {
    set k | k in s && k <= at
  }

  function MinInt(a: int, b: int): int { if a < b then a else b }

  /** The n-th smallest bounds exactly the n smallest elements. */
  lemma {:induction false} NthSmallestBounds(s: set<int>, n: int)
    requires n > 0
    ensures NthSmallest(s, n) == None <==> s == {}
    ensures s != {} ==> NthSmallest(s, n).value in s
    ensures s != {} ==> |UpTo(s, NthSmallest(s, n).value)| == MinInt(n, |s|)
    decreases s
  {
    if s == {} {
    } else if n == 1 || s == {Min(s)} {
      assert UpTo(s, Min(s)) == {Min(s)};
      if s == {Min(s)} {
        assert |s| == 1;
      } else {
        assert |s| >= |{Min(s)}|;
      }
    } else {
      var m := Min(s);
      var rest := s - {m};
      assert s == rest + {m};
      NthSmallestBounds(rest, n - 1);
      var top := NthSmallest(rest, n - 1).value;
      assert UpTo(s, top) == UpTo(rest, top) + {m};
    }
  }
}
