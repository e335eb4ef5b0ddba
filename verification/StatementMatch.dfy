/** Whether two statements on an index are the same work: their texts compared up to layout, and what that
    says of the names in them. */
module StatementMatch {
  import opened Options
  import opened Text
  import opened Quoting

  // --- the comparison of statements -----------------------------------------------------------

  /** How far the text's first word goes. */
  function WordLength(s: string): (n: nat)
    ensures n <= |s| && (s != "" && !IsSpace(s[0]) ==> n > 0)
    ensures (forall i | 0 <= i < n :: !IsSpace(s[i])) && (n < |s| ==> IsSpace(s[n]))
  {
    if s == "" || IsSpace(s[0]) then 0 else 1 + WordLength(s[1..])
  }

  function Fields(s: string): seq<string>
    decreases |s|
  {
    if s == "" then []
    else if IsSpace(s[0]) then Fields(s[1..])
    else [s[..WordLength(s)]] + Fields(s[WordLength(s)..])
  }

  function Join(words: seq<string>): string {
    if words == [] then ""
    else if |words| == 1 then words[0]
    else words[0] + " " + Join(words[1..])
  }

  function CutSemicolon(s: string): string {
    if s != "" && s[|s| - 1] == ';' then s[..|s| - 1] else s
  }

  function Normalize(s: string): string {
    Join(Fields(CutSemicolon(Trim(s))))
  }

  predicate SameStatement(stored: string, generated: string) {
    Trim(stored) != "" && Normalize(stored) == Normalize(generated)
  }

  // --- the same, character by character -------------------------------------------------------

  datatype Place = AtStart | InWord | InGap

  /** What reading s from here on adds to the normal form. */
  function Squeezed(s: string, at: Place): string {
    if s == "" then ""
    else if IsSpace(s[0]) then Squeezed(s[1..], if at.AtStart? then AtStart else InGap)
    else (if at.InGap? then [' ', s[0]] else [s[0]]) + Squeezed(s[1..], InWord)
  }

  function PlaceAfter(s: string, at: Place): Place {
    if s == "" then at
    else PlaceAfter(s[1..], if !IsSpace(s[0]) then InWord else if at.AtStart? then AtStart else InGap)
  }

  lemma {:induction false} SqueezedParts(s: string, t: string, at: Place)
    ensures Squeezed(s + t, at) == Squeezed(s, at) + Squeezed(t, PlaceAfter(s, at))
  {
    if s == "" {
      assert s + t == t;
    } else {
      assert (s + t)[1..] == s[1..] + t;
      SqueezedParts(s[1..], t, if !IsSpace(s[0]) then InWord else if at.AtStart? then AtStart else InGap);
    }
  }

  lemma OneSqueezed(s: string, at: Place)
    requires s != "" && !IsSpace(s[0])
    ensures Squeezed(s, at) == (if at.InGap? then [' ', s[0]] else [s[0]]) + Squeezed(s[1..], InWord)
    ensures PlaceAfter(s, at) == PlaceAfter(s[1..], InWord)
  {
  }

  /** A text without blanks. */
  predicate Solid(w: string) {
    forall i | 0 <= i < |w| :: !IsSpace(w[i])
  }

  lemma SolidTail(w: string)
    requires Solid(w) && w != ""
    ensures Solid(w[1..]) && w == [w[0]] + w[1..] && !IsSpace(w[0])
  {
  }

  lemma {:induction false} PlainRest(w: string)
    requires Solid(w)
    ensures Squeezed(w, InWord) == w && PlaceAfter(w, InWord) == InWord
  {
    if w != "" {
      hide *;
      SolidTail(w);
      PlainRest(w[1..]);
      OneSqueezed(w, InWord);
    }
  }

  lemma PlainWord(w: string, at: Place)
    requires w != "" && Solid(w)
    ensures Squeezed(w, at) == (if at.InGap? then " " + w else w) && PlaceAfter(w, at) == InWord
  {
    hide *;
    SolidTail(w);
    PlainRest(w[1..]);
    OneSqueezed(w, at);
    var t := w[1..];
    if at.InGap? {
      assert [' ', w[0]] + t == " " + ([w[0]] + t);
    }
  }

  lemma JoinedOn(word: string, words: seq<string>)
    ensures Join([word] + words) == word + if words == [] then "" else " " + Join(words)
  {
    assert ([word] + words)[1..] == words;
  }

  lemma WordSplits(s: string, word: string, rest: string)
    requires s != "" && !IsSpace(s[0]) && word == s[..WordLength(s)] && rest == s[WordLength(s)..]
    ensures s == word + rest && word != "" && Fields(s) == [word] + Fields(rest)
    ensures Solid(word)
    ensures Squeezed(rest, InWord) == Squeezed(rest, InGap)
  {
  }

  /** One word off the front. */
  lemma WordSqueezed(s: string, word: string, rest: string)
    requires s != "" && !IsSpace(s[0]) && word == s[..WordLength(s)] && rest == s[WordLength(s)..]
    ensures Squeezed(s, AtStart) == word + Squeezed(rest, InGap)
    ensures Squeezed(s, InGap) == " " + word + Squeezed(rest, InGap)
  {
    WordSplits(s, word, rest);
    hide *;
    SqueezedParts(word, rest, AtStart);
    SqueezedParts(word, rest, InGap);
    PlainWord(word, AtStart);
    PlainWord(word, InGap);
  }

  /** The normal form is the words with one space between them. */
  lemma {:induction false} SqueezedIsJoined(s: string)
    ensures Squeezed(s, AtStart) == Join(Fields(s))
    ensures Squeezed(s, InGap) == if Fields(s) == [] then "" else " " + Join(Fields(s))
    decreases |s|
  {
    if s != "" {
      if IsSpace(s[0]) {
        SqueezedIsJoined(s[1..]);
      } else {
        var word, rest := s[..WordLength(s)], s[WordLength(s)..];
        WordSplits(s, word, rest);
        WordSqueezed(s, word, rest);
        SqueezedIsJoined(rest);
        hide *;
        JoinedOn(word, Fields(rest));
      }
    }
  }

  // --- texts that differ in case only ---------------------------------------------------------

  /** Two texts that differ at most in case, at the head of two that squeeze alike, do not differ. */
  lemma {:induction false} FoldedHeadsAgree(u: string, v: string, x: string, y: string, at: Place)
    requires Lower(u) == Lower(v) && Squeezed(u + x, at) == Squeezed(v + y, at)
    ensures u == v && Squeezed(x, PlaceAfter(u, at)) == Squeezed(y, PlaceAfter(u, at))
  {
    assert |u| == |Lower(u)| == |v|;
    if u == "" {
      assert u + x == x && v + y == y;
    } else {
      assert Lower(u)[0] == LowerChar(u[0]) && Lower(v)[0] == LowerChar(v[0]);
      assert (u + x)[1..] == u[1..] + x && (v + y)[1..] == v[1..] + y;
      FoldedTails(u, v);
      var next := if !IsSpace(u[0]) then InWord else if at.AtStart? then AtStart else InGap;
      if IsSpace(u[0]) {
        assert u[0] == v[0];
      } else {
        var n := if at.InGap? then 1 else 0;
        assert Squeezed(u + x, at)[n] == u[0] && Squeezed(v + y, at)[n] == v[0];
        assert Squeezed(u + x, at)[n + 1..] == Squeezed(u[1..] + x, InWord);
        assert Squeezed(v + y, at)[n + 1..] == Squeezed(v[1..] + y, InWord);
      }
      FoldedHeadsAgree(u[1..], v[1..], x, y, next);
      assert u == [u[0]] + u[1..] && v == [v[0]] + v[1..];
    }
  }

  lemma FoldedTails(u: string, v: string)
    requires Lower(u) == Lower(v) && u != "" && v != ""
    ensures Lower(u[1..]) == Lower(v[1..])
  {
    assert |u| == |Lower(u)| == |v|;
    assert forall i | 0 <= i < |u| - 1 :: Lower(u[1..])[i] == Lower(u)[i + 1] && Lower(v[1..])[i] == Lower(v)[i + 1];
  }

  lemma {:induction false} FoldedDoubled(a: string, b: string, close: char)
    requires Lower(a) == Lower(b) && LowerChar(close) == close && (forall c | LowerChar(c) == close :: c == close)
    ensures Lower(Doubled(a, close)) == Lower(Doubled(b, close))
  {
    assert |a| == |Lower(a)| == |b|;
    if a != "" {
      assert Lower(a)[0] == LowerChar(a[0]) && Lower(b)[0] == LowerChar(b[0]);
      FoldedTails(a, b);
      FoldedDoubled(a[1..], b[1..], close);
      var head, head' := if a[0] == close then [close, close] else [a[0]], if b[0] == close then [close, close] else [b[0]];
      LowerParts(head, Doubled(a[1..], close));
      LowerParts(head', Doubled(b[1..], close));
      assert Lower(head) == Lower(head');
    }
  }

  lemma LowerParts(s: string, t: string)
    ensures Lower(s + t) == Lower(s) + Lower(t)
  {
  }

  lemma FoldedIdent(a: string, b: string)
    requires Lower(a) == Lower(b)
    ensures Lower(QuoteIdent(a)) == Lower(QuoteIdent(b))
  {
    FoldedDoubled(a, b, ']');
    LowerParts("[", Doubled(a, ']'));
    LowerParts("[", Doubled(b, ']'));
    LowerParts("[" + Doubled(a, ']'), "]");
    LowerParts("[" + Doubled(b, ']'), "]");
  }

  /** An identifier is its quoted form. */
  lemma IdentIsItsQuote(a: string, b: string)
    requires QuoteIdent(a) == QuoteIdent(b)
    ensures a == b
  {
    IdentReadsBack(a, "");
    IdentReadsBack(b, "");
    assert QuoteIdent(a) + "" == QuoteIdent(a) && QuoteIdent(b) + "" == QuoteIdent(b);
  }

  /** Quoted names that differ at most in case, met at the same place of two texts that squeeze alike. */
  lemma IdentsAgree(a: string, b: string, x: string, y: string, at: Place)
    requires Lower(a) == Lower(b) && Squeezed(QuoteIdent(a) + x, at) == Squeezed(QuoteIdent(b) + y, at)
    ensures a == b && Squeezed(x, InWord) == Squeezed(y, InWord)
  {
    FoldedIdent(a, b);
    FoldedHeadsAgree(QuoteIdent(a), QuoteIdent(b), x, y, at);
    IdentIsItsQuote(a, b);
    EndsInWord(QuoteIdent(a), at);
  }

  lemma {:induction false} EndsInWord(s: string, at: Place)
    requires s != "" && !IsSpace(s[|s| - 1])
    ensures PlaceAfter(s, at) == InWord
  {
    if |s| > 1 {
      EndsInWord(s[1..], if !IsSpace(s[0]) then InWord else if at.AtStart? then AtStart else InGap);
    }
  }

  // --- keywords in any layout -----------------------------------------------------------------

  /** Reading on inside a word: as at the start, unless a blank comes first. */
  lemma WordGoesOn(s: string)
    ensures s != "" ==> Squeezed(s, InWord) == if IsSpace(s[0]) then Squeezed(s, InGap) else Squeezed(s, AtStart)
    ensures s != "" ==> PlaceAfter(s, InWord) == if IsSpace(s[0]) then PlaceAfter(s, InGap) else PlaceAfter(s, AtStart)
  {
  }

  lemma {:induction false} WordsEndSomewhere(s: string, at: Place)
    ensures Fields(s) != [] ==> PlaceAfter(s, at) != AtStart
    ensures !at.AtStart? ==> PlaceAfter(s, at) != AtStart
    decreases |s|
  {
    if s != "" {
      WordsEndSomewhere(s[1..], if !IsSpace(s[0]) then InWord else if at.AtStart? then AtStart else InGap);
    }
  }

  lemma JoinBegins(words: seq<string>)
    requires words != [] && words[0] != ""
    ensures Join(words) != "" && Join(words)[0] == words[0][0]
  {
  }

  lemma {:induction false} FieldsAreWords(s: string)
    ensures Fields(s) != [] ==> Fields(s)[0] != "" && !IsSpace(Fields(s)[0][0])
    decreases |s|
  {
    if s != "" && IsSpace(s[0]) {
      FieldsAreWords(s[1..]);
    }
  }

  /** What keywords add to the normal form: their words, after a gap if a blank stands before them. */
  lemma KeywordsSqueezed(k: string, at: Place)
    requires Fields(k) != [] && !at.InGap?
    ensures var j := Join(Fields(k));
      j != "" && !IsSpace(j[0]) && (Squeezed(k, at) == j || (at.InWord? && Squeezed(k, at) == " " + j))
    ensures PlaceAfter(k, at) != AtStart
  {
    SqueezedIsJoined(k);
    FieldsAreWords(k);
    JoinBegins(Fields(k));
    WordGoesOn(k);
    WordsEndSomewhere(k, at);
  }

  lemma NameSqueezed(z: string, at: Place)
    requires z != "" && z[0] == '['
    ensures Squeezed(z, at) != "" && Squeezed(z, at)[0] == if at.InGap? then ' ' else '['
  {
  }

  lemma SameFront(a: string, b: string, x: string, y: string)
    requires a + x == b + y && |a| == |b|
    ensures a == b && x == y
  {
    assert a == (a + x)[..|a|] && b == (b + y)[..|a|] && x == (a + x)[|a|..] && y == (b + y)[|a|..];
  }

  /** The same keywords, laid out in any way, before a bracket of two texts that squeeze alike. */
  lemma KeywordsAgree(k: string, k': string, z: string, z': string, at: Place)
    requires Fields(k) == Fields(k') != [] && !at.InGap?
    requires z != "" && z[0] == '[' && z' != "" && z'[0] == '['
    requires Squeezed(k + z, at) == Squeezed(k' + z', at)
    ensures PlaceAfter(k, at) == PlaceAfter(k', at)
    ensures Squeezed(z, PlaceAfter(k, at)) == Squeezed(z', PlaceAfter(k, at))
  {
    SqueezedParts(k, z, at);
    SqueezedParts(k', z', at);
    KeywordsSqueezed(k, at);
    KeywordsSqueezed(k', at);
    var a, a' := Squeezed(k, at), Squeezed(k', at);
    var x, x' := Squeezed(z, PlaceAfter(k, at)), Squeezed(z', PlaceAfter(k', at));
    NameSqueezed(z, PlaceAfter(k, at));
    NameSqueezed(z', PlaceAfter(k', at));
    assert (a + x)[0] == a[0] && (a' + x')[0] == a'[0];
    hide Squeezed, PlaceAfter, Fields, Join;
    assert |a| == |a'|;
    SameFront(a, a', x, x');
  }

  /** A statement the server did not tell is no match. */
  lemma {:induction false} UntoldIsNoMatch(stored: string, generated: string)
    ensures Blank(stored) ==> Trim(stored) == "" && !SameStatement(stored, generated)
  {
    if stored != "" && Blank(stored) {
      assert stored[0] in stored && forall c <- stored[1..] :: c in stored;
      UntoldIsNoMatch(stored[1..], generated);
    }
  }

  // --- statements that name an index ----------------------------------------------------------

  /** How a statement that names an index is laid out around the names: the keywords before the index, those
      before the schema, the dot, and all that follows the table. */
  datatype Layout = Layout(head: string, on: string, dot: string, rest: string)

  function Written(l: Layout, t: Target): string {
    l.head + (QuoteIdent(t.index) + (l.on + (QuoteIdent(t.schema) + (l.dot + (QuoteIdent(t.table) + l.rest)))))
  }

  /** The same keywords, whatever blanks stand between and around them. */
  predicate SameKeywords(l: Layout, l': Layout) {
    && Fields(l.head) == Fields(l'.head) != []
    && Fields(l.on) == Fields(l'.on) != []
    && Fields(l.dot) == Fields(l'.dot) != []
  }

  function TrimStart(s: string): string {
    if s != "" && IsSpace(s[0]) then TrimStart(s[1..]) else s
  }

  function TrimEnd(s: string): string {
    if s != "" && IsSpace(s[|s| - 1]) then TrimEnd(s[..|s| - 1]) else s
  }

  /** What is compared of the text after the names. */
  function Tail(rest: string): string {
    CutSemicolon(TrimEnd(rest))
  }

  lemma {:induction false} TrimBothEnds(s: string)
    ensures Trim(s) == TrimEnd(TrimStart(s))
    decreases |s|
  {
    if s != "" {
      if IsSpace(s[0]) {
        TrimBothEnds(s[1..]);
      } else if IsSpace(s[|s| - 1]) {
        TrimBothEnds(s[..|s| - 1]);
      }
    }
  }

  lemma {:induction false} TrimmedStart(p: string, t: string)
    requires p != "" && !IsSpace(p[|p| - 1])
    ensures TrimStart(p + t) == TrimStart(p) + t
    ensures TrimStart(p) != "" && TrimStart(p)[|TrimStart(p)| - 1] == p[|p| - 1]
    ensures Squeezed(TrimStart(p) + t, AtStart) == Squeezed(p + t, AtStart)
  {
    if IsSpace(p[0]) {
      assert (p + t)[1..] == p[1..] + t;
      TrimmedStart(p[1..], t);
    }
  }

  lemma {:induction false} TrimmedEnd(p: string, t: string)
    requires p != "" && !IsSpace(p[|p| - 1])
    ensures TrimEnd(p + t) == p + TrimEnd(t)
  {
    if t == "" {
      assert p + t == p;
    } else if IsSpace(t[|t| - 1]) {
      assert (p + t)[..|p + t| - 1] == p + t[..|t| - 1];
      TrimmedEnd(p, t[..|t| - 1]);
    }
  }

  /** The normal form of a text whose front ends in neither a blank nor a semicolon. */
  lemma NormalizedTail(p: string, rest: string)
    requires p != "" && !IsSpace(p[|p| - 1]) && p[|p| - 1] != ';'
    ensures Normalize(p + rest) == Squeezed(p + Tail(rest), AtStart)
    ensures Trim(p + rest) != ""
  {
    TrimBothEnds(p + rest);
    TrimmedStart(p, rest);
    var q := TrimStart(p);
    TrimmedEnd(q, rest);
    var t := TrimEnd(rest);
    assert CutSemicolon(q + t) == q + CutSemicolon(t) by {
      if t != "" {
        assert (q + t)[..|q + t| - 1] == q + t[..|t| - 1];
      } else {
        assert q + t == q;
      }
    }
    TrimmedStart(p, CutSemicolon(t));
    SqueezedIsJoined(q + CutSemicolon(t));
  }

  lemma WrittenParts(l: Layout, t: Target)
    ensures Written(l, t) == Written(l.(rest := ""), t) + l.rest
    ensures var p := Written(l.(rest := ""), t); p != "" && p[|p| - 1] == ']'
  {
    hide QuoteIdent;
    EndsInBracket(t.table);
  }

  lemma EndsInBracket(name: string)
    ensures var q := QuoteIdent(name); q != "" && q[0] == '[' && q[|q| - 1] == ']'
  {
  }

  lemma NormalizedWritten(l: Layout, t: Target)
    ensures Normalize(Written(l, t)) == Squeezed(Written(l.(rest := Tail(l.rest)), t), AtStart)
    ensures Trim(Written(l, t)) != ""
  {
    WrittenParts(l, t);
    WrittenParts(l.(rest := Tail(l.rest)), t);
    NormalizedTail(Written(l.(rest := ""), t), l.rest);
  }

  predicate SameNamesFolded(a: Target, b: Target) {
    Lower(a.schema) == Lower(b.schema) && Lower(a.table) == Lower(b.table) && Lower(a.index) == Lower(b.index)
  }

  lemma NamesAgree(l: Layout, l': Layout, a: Target, b: Target)
    requires SameKeywords(l, l') && SameNamesFolded(a, b)
    requires Squeezed(Written(l, a), AtStart) == Squeezed(Written(l', b), AtStart)
    ensures a == b && Squeezed(l.rest, InWord) == Squeezed(l'.rest, InWord)
  {
    hide Squeezed, PlaceAfter, Fields, Lower, QuoteIdent;
    var x3, y3 := QuoteIdent(a.table) + l.rest, QuoteIdent(b.table) + l'.rest;
    var x2, y2 := QuoteIdent(a.schema) + (l.dot + x3), QuoteIdent(b.schema) + (l'.dot + y3);
    var x1, y1 := QuoteIdent(a.index) + (l.on + x2), QuoteIdent(b.index) + (l'.on + y2);
    Bracketed(a);
    Bracketed(b);
    KeywordsAgree(l.head, l'.head, x1, y1, AtStart);
    IdentsAgree(a.index, b.index, l.on + x2, l'.on + y2, PlaceAfter(l.head, AtStart));
    KeywordsAgree(l.on, l'.on, x2, y2, InWord);
    IdentsAgree(a.schema, b.schema, l.dot + x3, l'.dot + y3, PlaceAfter(l.on, InWord));
    KeywordsAgree(l.dot, l'.dot, x3, y3, InWord);
    IdentsAgree(a.table, b.table, l.rest, l'.rest, PlaceAfter(l.dot, InWord));
  }

  lemma Bracketed(t: Target)
    ensures forall name, more: string | name in {t.schema, t.table, t.index} ::
              (QuoteIdent(name) + more) != "" && (QuoteIdent(name) + more)[0] == '['
  {
  }

  /** The comparison collapses blanks inside bracketed names too, and the names are compared with case
      folded, but not both at once: a statement for the index of a row whose names match up to case, and
      which the comparison takes for ours, names exactly our schema, table and index. */
  lemma MatchingStatementIsOurs(l: Layout, l': Layout, ours: Target, theirs: Target)
    requires SameKeywords(l, l') && SameNamesFolded(ours, theirs)
    requires SameStatement(Written(l', theirs), Written(l, ours))
    ensures theirs == ours && Squeezed(Tail(l'.rest), InWord) == Squeezed(Tail(l.rest), InWord)
  {
    NormalizedWritten(l, ours);
    NormalizedWritten(l', theirs);
    hide Squeezed, Fields, Tail, SameNamesFolded, Normalize, Written;
    NamesAgree(l.(rest := Tail(l.rest)), l'.(rest := Tail(l'.rest)), ours, theirs);
  }

  // --- statements as the engine writes them ---------------------------------------------------

  /** A CREATE goes out behind a guard that names the index too; the server may keep it without. */
  datatype Kind = Rebuild | Create(unique: bool, guarded: bool)

  function Guard(t: Target): string {
    "IF NOT EXISTS " + Sought(t)
  }

  function Sought(t: Target): string {
    "(SELECT 1 FROM sys.indexes WHERE name = "
    + (NLiteral(t.index) + (" AND object_id = OBJECT_ID(" + (ObjectLiteral(t.schema, t.table) + "))\n    ")))
  }

  function Opening(kind: Kind, t: Target): string {
    match kind
    case Rebuild => "ALTER INDEX "
    case Create(unique, guarded) => if guarded then Guard(t) + Verb(unique) else Verb(unique)
  }

  function Verb(unique: bool): string {
    if unique then "CREATE UNIQUE INDEX " else "CREATE INDEX "
  }

  function Naming(t: Target): string {
    QuoteIdent(t.index) + (" ON " + Qualified(t.schema, t.table))
  }

  function Front(kind: Kind, t: Target): string {
    Opening(kind, t) + Naming(t)
  }

  function Generated(kind: Kind, t: Target, rest: string): string {
    Front(kind, t) + rest
  }

  lemma FoldedParts(a: string, b: string, x: string, y: string)
    requires Lower(a) == Lower(b) && Lower(x) == Lower(y)
    ensures Lower(a + x) == Lower(b + y)
  {
    LowerParts(a, x);
    LowerParts(b, y);
  }

  lemma FoldedLiteral(a: string, b: string)
    requires Lower(a) == Lower(b)
    ensures Lower(NLiteral(a)) == Lower(NLiteral(b))
  {
    FoldedDoubled(a, b, '\'');
    hide Doubled, Lower;
    FoldedParts("N'", "N'", Doubled(a, '\''), Doubled(b, '\''));
    FoldedParts("N'" + Doubled(a, '\''), "N'" + Doubled(b, '\''), "'", "'");
  }

  lemma FoldedQualified(a: Target, b: Target)
    requires SameNamesFolded(a, b)
    ensures Lower(Qualified(a.schema, a.table)) == Lower(Qualified(b.schema, b.table))
  {
    FoldedIdent(a.schema, b.schema);
    FoldedIdent(a.table, b.table);
    hide QuoteIdent, Lower;
    FoldedParts(QuoteIdent(a.schema), QuoteIdent(b.schema), ".", ".");
    FoldedParts(QuoteIdent(a.schema) + ".", QuoteIdent(b.schema) + ".", QuoteIdent(a.table), QuoteIdent(b.table));
  }

  lemma FoldedGuard(a: Target, b: Target)
    requires SameNamesFolded(a, b)
    ensures Lower(Guard(a)) == Lower(Guard(b))
  {
    FoldedLiteral(a.index, b.index);
    FoldedQualified(a, b);
    FoldedLiteral(Qualified(a.schema, a.table), Qualified(b.schema, b.table));
    hide Qualified, NLiteral, Lower;
    var end, mid := "))\n    ", " AND object_id = OBJECT_ID(";
    var x, y := ObjectLiteral(a.schema, a.table) + end, ObjectLiteral(b.schema, b.table) + end;
    FoldedParts(ObjectLiteral(a.schema, a.table), ObjectLiteral(b.schema, b.table), end, end);
    FoldedParts(mid, mid, x, y);
    FoldedParts(NLiteral(a.index), NLiteral(b.index), mid + x, mid + y);
    var head, first := "(SELECT 1 FROM sys.indexes WHERE name = ", "IF NOT EXISTS ";
    FoldedParts(head, head, NLiteral(a.index) + (mid + x), NLiteral(b.index) + (mid + y));
    FoldedParts(first, first, Sought(a), Sought(b));
  }

  lemma FoldedOpening(kind: Kind, a: Target, b: Target)
    requires SameNamesFolded(a, b)
    ensures Lower(Opening(kind, a)) == Lower(Opening(kind, b))
  {
    if kind.Create? && kind.guarded {
      FoldedGuard(a, b);
      hide Guard, Verb, Lower;
      FoldedParts(Guard(a), Guard(b), Verb(kind.unique), Verb(kind.unique));
    }
  }

  lemma FoldedNaming(a: Target, b: Target)
    requires SameNamesFolded(a, b)
    ensures Lower(Naming(a)) == Lower(Naming(b))
  {
    FoldedIdent(a.index, b.index);
    FoldedQualified(a, b);
    hide QuoteIdent, Qualified, Lower;
    FoldedParts(" ON ", " ON ", Qualified(a.schema, a.table), Qualified(b.schema, b.table));
    FoldedParts(QuoteIdent(a.index), QuoteIdent(b.index),
                " ON " + Qualified(a.schema, a.table), " ON " + Qualified(b.schema, b.table));
  }

  lemma FoldedLength(a: string, b: string)
    requires Lower(a) == Lower(b)
    ensures |a| == |b|
  {
    assert |a| == |Lower(a)| == |Lower(b)| == |b|;
  }

  /** The front of a generated statement tells its target. */
  lemma FrontTells(kind: Kind, a: Target, b: Target)
    requires SameNamesFolded(a, b) && Front(kind, a) == Front(kind, b)
    ensures a == b
  {
    FoldedOpening(kind, a, b);
    FoldedLength(Opening(kind, a), Opening(kind, b));
    hide Opening, Qualified, Lower;
    SameFront(Opening(kind, a), Opening(kind, b), Naming(a), Naming(b));
    IdentReadsBack(a.index, " ON " + Qualified(a.schema, a.table));
    IdentReadsBack(b.index, " ON " + Qualified(b.schema, b.table));
    SameFront(" ON ", " ON ", Qualified(a.schema, a.table), Qualified(b.schema, b.table));
    QualifiedReadsBack(a.schema, a.table, "");
    QualifiedReadsBack(b.schema, b.table, "");
    assert Qualified(a.schema, a.table) + "" == Qualified(b.schema, b.table) + "";
  }

  lemma FrontEnds(kind: Kind, t: Target)
    ensures var p := Front(kind, t); p != "" && p[|p| - 1] == ']'
  {
    hide QuoteIdent, Opening;
    EndsInBracket(t.table);
  }

  lemma GeneratedNormal(kind: Kind, t: Target, rest: string)
    ensures Normalize(Generated(kind, t, rest)) == Squeezed(Front(kind, t) + Tail(rest), AtStart)
    ensures Trim(Generated(kind, t, rest)) != ""
    ensures PlaceAfter(Front(kind, t), AtStart) == InWord
  {
    FrontEnds(kind, t);
    NormalizedTail(Front(kind, t), rest);
    EndsInWord(Front(kind, t), AtStart);
  }

  /** Between two statements of one kind that the engine wrote itself, a CREATE with its guard or without,
      for names that match up to case: the comparison holds if and only if the names are the same and what
      follows them differs in layout only. */
  lemma GeneratedMatch(kind: Kind, ours: Target, theirs: Target, rest: string, rest': string)
    requires SameNamesFolded(ours, theirs)
    ensures SameStatement(Generated(kind, theirs, rest'), Generated(kind, ours, rest))
       <==> theirs == ours && Squeezed(Tail(rest'), InWord) == Squeezed(Tail(rest), InWord)
  {
    GeneratedNormal(kind, ours, rest);
    GeneratedNormal(kind, theirs, rest');
    var p, p' := Front(kind, ours), Front(kind, theirs);
    FoldedOpening(kind, ours, theirs);
    FoldedNaming(ours, theirs);
    FoldedParts(Opening(kind, ours), Opening(kind, theirs), Naming(ours), Naming(theirs));
    SqueezedParts(p, Tail(rest), AtStart);
    SqueezedParts(p', Tail(rest'), AtStart);
    hide Squeezed, PlaceAfter, Tail, Normalize, Trim, Opening, Naming, Generated, Lower, SameNamesFolded;
    if Squeezed(p + Tail(rest), AtStart) == Squeezed(p' + Tail(rest'), AtStart) {
      FoldedHeadsAgree(p, p', Tail(rest), Tail(rest'), AtStart);
      FrontTells(kind, ours, theirs);
    }
  }

  lemma GuardBegins(t: Target)
    ensures Guard(t) != "" && Guard(t)[0] == 'I'
  {
    hide Sought;
  }

  lemma CreateBegins(unique: bool, guarded: bool, t: Target)
    ensures var p := Front(Create(unique, guarded), t); p != "" && p[0] == if guarded then 'I' else 'C'
  {
    GuardBegins(t);
    hide Naming, Guard;
    assert (Verb(unique) + Naming(t))[0] == Verb(unique)[0] == 'C';
    assert (Guard(t) + Verb(unique) + Naming(t))[0] == Guard(t)[0];
  }

  /** So a paused CREATE is recognized only where the server keeps its statement together with the guard. */
  lemma GuardDecides(unique: bool, ours: Target, theirs: Target, rest: string, rest': string)
    ensures !SameStatement(Generated(Create(unique, false), theirs, rest'), Generated(Create(unique, true), ours, rest))
  {
    var k, k' := Create(unique, true), Create(unique, false);
    GeneratedNormal(k, ours, rest);
    GeneratedNormal(k', theirs, rest');
    CreateBegins(unique, true, ours);
    CreateBegins(unique, false, theirs);
    hide Front, Tail, Generated, Normalize, Trim;
    assert Squeezed(Front(k, ours) + Tail(rest), AtStart)[0] == 'I';
    assert Squeezed(Front(k', theirs) + Tail(rest'), AtStart)[0] == 'C';
  }

  lemma BlanksSqueezeAlike(more: string)
    ensures Squeezed(" ([A" + (" B]" + more), InWord) == Squeezed(" ([A" + ("  B]" + more), InWord)
  {
    var one, two := " B]" + more, "  B]" + more;
    assert two[1..] == one;
    assert Squeezed(one, InGap) == Squeezed(two, InWord);
    assert Squeezed(one, InWord) == Squeezed(one, InGap);
    EndsInWord(" ([A", InWord);
    hide Squeezed;
    SqueezedParts(" ([A", one, InWord);
    SqueezedParts(" ([A", two, InWord);
  }

  lemma TailOf(text: string)
    ensures Tail(text + ";") == text
  {
    var t := text + ";";
    assert t[..|t| - 1] == text;
  }

  /** What follows the names of a CREATE: its column and its WITH clause. */
  function OnColumn(column: string, options: string): string {
    " (" + QuoteIdent(column) + (")" + options)
  }

  lemma BlankColumns(options: string)
    ensures OnColumn("A B", options) == " ([A" + (" B]" + (")" + options))
    ensures OnColumn("A  B", options) == " ([A" + ("  B]" + (")" + options))
  {
    QuotedBlanks();
    hide QuoteIdent;
    assert " (" + "[A B]" == " ([A" + " B]" && " (" + "[A  B]" == " ([A" + "  B]";
  }

  lemma QuotedBlanks()
    ensures QuoteIdent("A B") == "[A B]" && QuoteIdent("A  B") == "[A  B]"
  {
    assert "A  B"[1..] == "  B" && "  B"[1..] == " B" && " B"[1..] == "B" && "B"[1..] == "" && "A B"[1..] == " B";
    assert Doubled("B", ']') == "B";
    assert Doubled(" B", ']') == " B";
    assert Doubled("  B", ']') == "  B";
  }

  /** What stands in brackets after the names is not looked at again: two CREATEs of one index, both guarded
      or both not, with any options, over columns whose names differ in blanks only count as the same work. */
  lemma ColumnsCountAsOne(unique: bool, guarded: bool, t: Target, options: string)
    ensures SameStatement(Generated(Create(unique, guarded), t, OnColumn("A  B", options) + ";"),
                          Generated(Create(unique, guarded), t, OnColumn("A B", options) + ";"))
    ensures QuoteIdent("A  B") != QuoteIdent("A B")
  {
    QuotedBlanks();
    hide Squeezed, Tail, Generated, SameStatement;
    TailOf(OnColumn("A  B", options));
    TailOf(OnColumn("A B", options));
    BlankColumns(options);
    BlanksSqueezeAlike(")" + options);
    GeneratedMatch(Create(unique, guarded), t, t, OnColumn("A B", options) + ";", OnColumn("A  B", options) + ";");
  }

  /** Two statements for their targets: with the same keywords in any layout, or of one kind and both as the
      engine writes them. */
  ghost predicate SameForm(sql: string, t: Target, sql': string, t': Target) {
    || (exists l, l' :: SameKeywords(l, l') && sql == Written(l, t) && sql' == Written(l', t'))
    || (exists k, rest, rest' :: sql == Generated(k, t, rest) && sql' == Generated(k, t', rest'))
  }

  lemma MatchingFormIsOurs(sql: string, t: Target, sql': string, t': Target)
    requires SameForm(sql, t, sql', t') && SameNamesFolded(t, t') && SameStatement(sql', sql)
    ensures t == t'
  {
    hide SameStatement, Written, Generated, SameKeywords, SameNamesFolded;
    if l, l' :| SameKeywords(l, l') && sql == Written(l, t) && sql' == Written(l', t') {
      MatchingStatementIsOurs(l, l', t, t');
    } else {
      var k, rest, rest' :| sql == Generated(k, t, rest) && sql' == Generated(k, t', rest');
      GeneratedMatch(k, t, t', rest, rest');
    }
  }
}
