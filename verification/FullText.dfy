/** The in-memory full-text index: its tokenizer and its ranking (full_text.py). */
module FullText {
  import opened Domain
  import opened Sorting

  /* ---- tokens ---- */

  /** str.isalnum of one character. */
  type Letter = char -> bool

  predicate AllLetters(s: string, isLetter: Letter) { forall i | 0 <= i < |s| :: isLetter(s[i]) }
  predicate NoLetters(s: string, isLetter: Letter) { forall i | 0 <= i < |s| :: !isLetter(s[i]) }

  /** The finished tokens and the one being read, after a text. */
  function Scan(s: string, isLetter: Letter): (seq<string>, string) {
    if s == "" then ([], "") else
      var (tokens, current) := Scan(s[..|s| - 1], isLetter);
      var last := s[|s| - 1];
      if isLetter(last) then (tokens, current + [last])
      else if current != "" then (tokens + [current], "") else (tokens, "")
  }

  function Tokens(s: string, isLetter: Letter): seq<string> {
    var (tokens, current) := Scan(s, isLetter);
    if current != "" then tokens + [current] else tokens
  }

  /** The loop of _tokens over an already case-folded text. */
  method Tokenize(text: string, isLetter: Letter) returns (result: seq<string>)
    ensures result == Tokens(text, isLetter)
  {
    result := [];
    var current := "";
    for k := 0 to |text|
      invariant Scan(text[..k], isLetter) == (result, current)
    {
      assert text[..k + 1][..k] == text[..k];
      if isLetter(text[k]) {
        current := current + [text[k]];
      } else if current != "" {
        result := result + [current];
        current := "";
      }
    }
    assert text[..|text|] == text;
    if current != "" { result := result + [current]; }
  }

  /** gaps[0] + tokens[0] + gaps[1] + ... + tokens[n-1] + gaps[n] */
  function Joined(tokens: seq<string>, gaps: seq<string>): string
    requires |gaps| == |tokens| + 1
  {
    if tokens == [] then gaps[0] else
      var n := |tokens|;
      Joined(tokens[..n - 1], gaps[..n]) + tokens[n - 1] + gaps[n]
  }

  /** Non-empty runs of letters kept apart by non-letters. */
  ghost predicate Apart(tokens: seq<string>, gaps: seq<string>, isLetter: Letter) {
    && |gaps| == |tokens| + 1
    && (forall t | t in tokens :: t != "" && AllLetters(t, isLetter))
    && (forall g | g in gaps :: NoLetters(g, isLetter))
    && forall k | 0 < k < |tokens| :: gaps[k] != ""
  }

  lemma {:induction false} ScanLetters(s: string, t: string, isLetter: Letter)
    requires AllLetters(t, isLetter)
    ensures Scan(s + t, isLetter) == (Scan(s, isLetter).0, Scan(s, isLetter).1 + t)
  {
    if t == "" {
      assert s + t == s && Scan(s, isLetter).1 + t == Scan(s, isLetter).1;
    } else {
      var init := t[..|t| - 1];
      ScanLetters(s, init, isLetter);
      assert (s + t)[..|s + t| - 1] == s + init;
      assert Scan(s, isLetter).1 + init + [t[|t| - 1]] == Scan(s, isLetter).1 + t;
    }
  }

  lemma {:induction false} ScanGap(s: string, g: string, isLetter: Letter)
    requires NoLetters(g, isLetter) && g != ""
    ensures var (tokens, current) := Scan(s, isLetter);
            Scan(s + g, isLetter) == (if current != "" then tokens + [current] else tokens, "")
  {
    var init := g[..|g| - 1];
    assert (s + g)[..|s + g| - 1] == s + init;
    if init == "" { assert s + init == s; } else { ScanGap(s, init, isLetter); }
  }

  /** Tokenizing undoes joining: whatever the separators, the tokens come back. */
  lemma {:induction false} TokensOfJoined(tokens: seq<string>, gaps: seq<string>, isLetter: Letter)
    requires Apart(tokens, gaps, isLetter)
    ensures Tokens(Joined(tokens, gaps), isLetter) == tokens
    ensures tokens == [] || gaps[|tokens|] != "" ==> Scan(Joined(tokens, gaps), isLetter) == (tokens, "")
  {
    var n := |tokens|;
    if n == 0 {
      assert gaps[0] in gaps;
      if gaps[0] != "" {
        ScanGap("", gaps[0], isLetter);
        assert "" + gaps[0] == gaps[0];
      }
    } else {
      var init, last, gap := tokens[..n - 1], tokens[n - 1], gaps[n];
      assert last in tokens && gap in gaps;
      ApartInit(tokens, gaps, isLetter);
      TokensOfJoined(init, gaps[..n], isLetter);
      AfterToken(Joined(init, gaps[..n]), init, last, gap, isLetter);
      assert init + [last] == tokens;
    }
  }

  lemma ApartInit(tokens: seq<string>, gaps: seq<string>, isLetter: Letter)
    requires tokens != [] && Apart(tokens, gaps, isLetter)
    ensures Apart(tokens[..|tokens| - 1], gaps[..|tokens|], isLetter)
    ensures |tokens| > 1 ==> gaps[|tokens| - 1] != ""
  {
    hide AllLetters, NoLetters;
    var n := |tokens|;
    var fewer, less := tokens[..n - 1], gaps[..n];
    assert forall t | t in fewer :: t in tokens;
    assert forall g | g in less :: g in gaps;
    assert forall k | 0 < k < n - 1 :: less[k] == gaps[k];
  }

  lemma AfterToken(before: string, init: seq<string>, last: string, gap: string, isLetter: Letter)
    requires Scan(before, isLetter) == (init, "") && last != "" && AllLetters(last, isLetter)
             && NoLetters(gap, isLetter)
    ensures Tokens(before + last + gap, isLetter) == init + [last]
    ensures gap != "" ==> Scan(before + last + gap, isLetter) == (init + [last], "")
  {
    ScanLetters(before, last, isLetter);
    assert "" + last == last;
    if gap == "" { assert before + last + gap == before + last; } else { ScanGap(before + last, gap, isLetter); }
  }

  /** Where a scan stands: the text is the finished tokens and gaps, then the token being read. */
  ghost predicate Halfway(s: string, tokens: seq<string>, gaps: seq<string>, current: string, isLetter: Letter) {
    && Apart(tokens, gaps, isLetter) && AllLetters(current, isLetter)
    && (tokens != [] ==> gaps[|tokens|] != "") && Joined(tokens, gaps) + current == s
  }

  lemma {:induction false} ScanSplits(s: string, isLetter: Letter) returns (gaps: seq<string>)
    ensures Halfway(s, Scan(s, isLetter).0, gaps, Scan(s, isLetter).1, isLetter)
  {
    if s == "" {
      gaps := [""];
    } else {
      var init, last := s[..|s| - 1], s[|s| - 1];
      var (tokens, current) := Scan(init, isLetter);
      gaps := ScanSplits(init, isLetter);
      gaps := NextSplit(init, tokens, gaps, current, last, isLetter);
      assert init + [last] == s;
    }
  }

  /** One more character of the text. */
  lemma NextSplit(s: string, tokens: seq<string>, before: seq<string>, current: string, c: char, isLetter: Letter)
    returns (gaps: seq<string>)
    requires Halfway(s, tokens, before, current, isLetter)
    ensures if isLetter(c) then Halfway(s + [c], tokens, gaps, current + [c], isLetter)
            else Halfway(s + [c], if current != "" then tokens + [current] else tokens, gaps, "", isLetter)
  {
    hide Joined;
    gaps := before;
    var n := |tokens|;
    if isLetter(c) {
      assert Joined(tokens, gaps) + (current + [c]) == s + [c];
    } else if current != "" {
      LongerSplit(tokens, before, current, [c], isLetter);
      gaps := before + [[c]];
      assert Joined(tokens + [current], gaps) + "" == s + [c];
    } else {
      WiderGap(tokens, before, c, isLetter);
      gaps := before[..n] + [before[n] + [c]];
      assert Joined(tokens, gaps) + "" == s + [c];
    }
  }

  lemma LongerSplit(tokens: seq<string>, gaps: seq<string>, t: string, gap: string, isLetter: Letter)
    requires Apart(tokens, gaps, isLetter) && (tokens != [] ==> gaps[|tokens|] != "")
    requires t != "" && AllLetters(t, isLetter) && NoLetters(gap, isLetter)
    ensures Apart(tokens + [t], gaps + [gap], isLetter)
    ensures Joined(tokens + [t], gaps + [gap]) == Joined(tokens, gaps) + t + gap
  {
    assert (tokens + [t])[..|tokens|] == tokens && (gaps + [gap])[..|gaps|] == gaps;
  }

  lemma WiderGap(tokens: seq<string>, gaps: seq<string>, c: char, isLetter: Letter)
    requires Apart(tokens, gaps, isLetter) && !isLetter(c)
    ensures var n := |tokens|;
            var wider := gaps[..n] + [gaps[n] + [c]];
            Apart(tokens, wider, isLetter) && Joined(tokens, wider) == Joined(tokens, gaps) + [c]
  {
    var n := |tokens|;
    var wider := gaps[..n] + [gaps[n] + [c]];
    assert wider[..n] == gaps[..n];
    assert gaps[n] in gaps;
    forall g | g in wider ensures NoLetters(g, isLetter) {
      if g in gaps[..n] { assert g in gaps; }
    }
    if n > 0 { assert Joined(tokens, wider) == Joined(tokens[..n - 1], gaps[..n]) + tokens[n - 1] + (gaps[n] + [c]); }
  }

  /** The tokens are exactly the maximal runs of letters: with the right gaps they make up the whole
      text, and by TokensOfJoined no other list does. */
  lemma TokensAreMaximalRuns(s: string, isLetter: Letter)
    ensures exists gaps :: Apart(Tokens(s, isLetter), gaps, isLetter) && Joined(Tokens(s, isLetter), gaps) == s
  {
    var gaps := ScanSplits(s, isLetter);
    var (tokens, current) := Scan(s, isLetter);
    if current != "" {
      LongerSplit(tokens, gaps, current, "", isLetter);
      var all := gaps + [""];
      assert Joined(Tokens(s, isLetter), all) == Joined(tokens, gaps) + current + "" == s;
    } else {
      assert Joined(tokens, gaps) + "" == Joined(tokens, gaps);
      assert Apart(Tokens(s, isLetter), gaps, isLetter) && Joined(Tokens(s, isLetter), gaps) == s;
    }
  }

  /* ---- ranking ---- */

  datatype Document = Document(id: Id, subject: SubjectRef, text: string, updatedAt: string)
  datatype Match = Match(document: Document, score: real, terms: seq<string>)

  function ById(): (Match, Match) -> bool { (a: Match, b: Match) => a.document.id <= b.document.id }
  function ByAge(): (Match, Match) -> bool { Reverse(ByString((m: Match) => m.document.updatedAt)) }
  function ByScore(): (Match, Match) -> bool { Reverse(ByNumber((m: Match) => m.score)) }

  /** Best score, then latest update, then smallest id. */
  function Ranking(): (Match, Match) -> bool { Lex(ByScore(), Lex(ByAge(), ById())) }

  lemma RankingTotal()
    ensures TotalPreorder(ByScore()) && TotalPreorder(ByAge()) && TotalPreorder(ById())
    ensures TotalPreorder(Lex(ByAge(), ById())) && TotalPreorder(Ranking())
  {
    ByStringTotal((m: Match) => m.document.updatedAt);
    LexTotal(ByAge(), ById());
    LexTotal(ByScore(), Lex(ByAge(), ById()));
  }

  ghost predicate DistinctIds(ms: seq<Match>) {
    forall a, b | a in ms && b in ms && a.document.id == b.document.id :: a == b
  }

  /** The three stable sorts are one sort by the whole ranking, whatever order the matches came in. */
  lemma ThreeSortsAreOne(ms: seq<Match>, others: seq<Match>)
    requires DistinctIds(ms) && multiset(ms) == multiset(others)
    ensures Sort(Sort(Sort(ms, ById()), ByAge()), ByScore()) == Sort(others, Ranking())
  {
    RankingTotal();
    var inner := Lex(ByAge(), ById());
    forall i, j | 0 <= i < |ms| && 0 <= j < |ms| && ms[i].document.id == ms[j].document.id ensures ms[i] == ms[j] {
      assert ms[i] in ms && ms[j] in ms;
    }
    assert forall a, b :: inner(a, b) && inner(b, a) ==> a.document.id == b.document.id;
    assert forall a, b :: Ranking()(a, b) && Ranking()(b, a) ==> a.document.id == b.document.id;
    hide ById, ByAge, ByScore, Sort, Lex;
    StablePasses(ms, ByAge(), ById());
    StablePasses(ms, ByScore(), inner);
    SortIgnoresOrder(ms, others, Ranking());
  }

  /** The cut keeps the best: nothing left out ranks before anything kept. */
  lemma CutIsTopK(ms: seq<Match>, n: nat)
    ensures IsTop(Take(Sort(ms, Ranking()), n), ms, Ranking(), n)
  {
    RankingTotal();
    CutIsTop(ms, Ranking(), n);
  }

  /* ---- the index ---- */

  datatype Key = Key(subject: SubjectRef, id: Id)

  function KeyOf(d: Document): Key { Key(d.subject, d.id) }

  function Upserted(t: map<Key, Document>, ds: seq<Document>): map<Key, Document> {
    if ds == [] then t else Upserted(t, ds[..|ds| - 1])[KeyOf(ds[|ds| - 1]) := ds[|ds| - 1]]
  }

  function LastUnder(ds: seq<Document>, k: Key): Option<Document> {
    if ds == [] then None
    else if KeyOf(ds[|ds| - 1]) == k then Some(ds[|ds| - 1])
    else LastUnder(ds[..|ds| - 1], k)
  }

  /** Under each key the document given last replaces the stored one; other keys keep theirs. */
  lemma {:induction false} LastUpsertWins(t: map<Key, Document>, ds: seq<Document>, k: Key)
    ensures match LastUnder(ds, k)
            case Some(d) => k in Upserted(t, ds) && Upserted(t, ds)[k] == d
            case None => (k in Upserted(t, ds) <==> k in t) && (k in t ==> Upserted(t, ds)[k] == t[k])
  {
    if ds != [] { LastUpsertWins(t, ds[..|ds| - 1], k); }
  }

  /** What a query finds in one document of its scope. */
  function MatchOf(d: Document, terms: seq<string>, isLetter: Letter): Match
    requires terms != []
  {
    var found := Filter(terms, (t: string) => t in Tokens(d.text, isLetter));
    Match(d, |found| as real / |terms| as real, found)
  }

  predicate IsMatch(d: Document, terms: seq<string>, isLetter: Letter) {
    Filter(terms, (t: string) => t in Tokens(d.text, isLetter)) != []
  }

  /** These matches are what the query finds in its scope among the documents under `keys`, each once. */
  ghost predicate Found(documents: map<Key, Document>, ms: seq<Match>, subject: SubjectRef, terms: seq<string>,
                        isLetter: Letter, keys: set<Key>)
    requires terms != []
  {
    && Distinct(ms)
    && forall m :: m in ms <==> Key(subject, m.document.id) in keys && Key(subject, m.document.id) in documents
                                && documents[Key(subject, m.document.id)] == m.document
                                && IsMatch(m.document, terms, isLetter) && m == MatchOf(m.document, terms, isLetter)
  }

  function Without(t: map<Key, Document>, subject: SubjectRef): map<Key, Document> {
    map k | k in t && k.subject != subject :: t[k]
  }

  /** After a deletion no query finds anything of the subject, and every other subject's queries find what they did. */
  lemma DeletionSilencesOneSubject(t: map<Key, Document>, subject: SubjectRef, other: SubjectRef, ms: seq<Match>,
                                   terms: seq<string>, isLetter: Letter)
    requires terms != []
    ensures Found(Without(t, subject), ms, subject, terms, isLetter, Without(t, subject).Keys) <==> ms == []
    ensures other != subject ==>
              (Found(Without(t, subject), ms, other, terms, isLetter, Without(t, subject).Keys) <==>
                  Found(t, ms, other, terms, isLetter, t.Keys))
  {
    hide MatchOf, IsMatch;
    if ms != [] { assert ms[0] in ms; }
  }

  class Index {
    var documents: map<Key, Document>

    constructor ()
      ensures documents == map[]
    {
      documents := map[];
    }

    ghost predicate Valid()
      reads this
    {
      forall k | k in documents :: documents[k].subject == k.subject && documents[k].id == k.id
    }

    method Upsert(ds: seq<Document>)
      requires Valid()
      modifies this
      ensures Valid() && documents == Upserted(old(documents), ds)
    {
      for n := 0 to |ds|
        invariant Valid() && documents == Upserted(old(documents), ds[..n])
      {
        assert ds[..n + 1][..n] == ds[..n];
        documents := documents[KeyOf(ds[n]) := ds[n]];
      }
      assert ds[..|ds|] == ds;
    }

    /** The scan of the documents, in whatever order the dict gives them. */
    method Collect(subject: SubjectRef, terms: seq<string>, isLetter: Letter) returns (matches: seq<Match>)
      requires Valid() && terms != []
      ensures Found(documents, matches, subject, terms, isLetter, documents.Keys)
    {
      matches := [];
      var left := documents.Keys;
      assert documents.Keys - left == {};
      while left != {}
        invariant left <= documents.Keys
        invariant Found(documents, matches, subject, terms, isLetter, documents.Keys - left)
      {
        hide Filter, Scan, Tokens, Unique;
        var key :| key in left;
        ghost var seen := documents.Keys - left;
        left := left - {key};
        assert documents.Keys - left == seen + {key};
        var d := documents[key];
        if key.subject == subject {
          var words := Tokenize(d.text, isLetter);
          var found := Filter(terms, (t: string) => t in words);
          assert found == Filter(terms, (t: string) => t in Tokens(d.text, isLetter));
          if found != [] {
            matches := matches + [Match(d, |found| as real / |terms| as real, found)];
          }
        }
      }
      assert documents.Keys - left == documents.Keys;
    }

    method Search(subject: SubjectRef, query: string, limit: int, isLetter: Letter)
      returns (hits: seq<Match>, ghost all: seq<Match>)
      requires Valid()
      ensures limit <= 0 || Tokens(query, isLetter) == [] ==> hits == []
      ensures limit > 0 && Tokens(query, isLetter) != [] ==>
                && Unique(Tokens(query, isLetter)) != []
                && Found(documents, all, subject, Unique(Tokens(query, isLetter)), isLetter, documents.Keys)
                && hits == Take(Sort(all, Ranking()), limit)
    {
      hide Filter, Scan, Tokens, Ranking, Sort, ById, ByAge, ByScore;
      hits, all := [], [];
      if limit <= 0 { return; }
      var tokens := Tokenize(query, isLetter);
      var terms := Unique(tokens);
      if tokens != [] { assert tokens[0] in terms; }
      if terms == [] { return; }
      var matches := Collect(subject, terms, isLetter);
      all := matches;
      matches := Sort(matches, ById());
      matches := Sort(matches, ByAge());
      matches := Sort(matches, ByScore());
      ThreeSortsAreOne(all, all);
      hits := Take(matches, limit);
    }

    method DeleteSubject(subject: SubjectRef)
      requires Valid()
      modifies this
      ensures Valid()
      ensures documents == Without(old(documents), subject)
    {
      documents := map k | k in documents && k.subject != subject :: documents[k];
    }
  }
}
