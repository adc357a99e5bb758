/**
 Hybrid ranking: a lexical, a semantic and a prior ranking of the same documents fused by reciprocal
 ranks. Scores are exact reals.
 */
module HybridRetrieval {
  import opened Common

  const RRF_K: int := 60
  const SEMANTIC_THRESHOLD: real := 0.55

  datatype Document = Document(key: string, tokens: set<string>, priorScore: real)

  /** No provider, a provider that failed, or a similarity for every document key. */
  datatype Semantics = NoProvider | ProviderFailed | Similarities(scores: map<string, real>)

  datatype RankedDocument = RankedDocument(
    document: Document, lexicalScore: real, semanticScore: Option<real>, fusionScore: real)

  datatype Method = NothingRanked | Lexical | Hybrid | LexicalFallback

  datatype Retrieval = Retrieval(candidates: seq<RankedDocument>, how: Method)

  // ---------------------------------------------------------------- keys in order

  /** Strings compare by their first difference, as sort keys do. */
  predicate KeyLess(a: string, b: string) {
    b != "" && (a == "" || a[0] < b[0] || (a[0] == b[0] && KeyLess(a[1..], b[1..])))
  }

  lemma {:induction false} KeyLessTotal(a: string, b: string)
    ensures a == b || KeyLess(a, b) || KeyLess(b, a)
    ensures !(KeyLess(a, b) && KeyLess(b, a)) && !KeyLess(a, a)
    decreases |a|
  {
    if a != "" {
      KeyLessTotal(a[1..], a[1..]);
      if b != "" {
        KeyLessTotal(a[1..], b[1..]);
        if a[1..] == b[1..] && a[0] == b[0] { assert a == [a[0]] + a[1..] && b == [b[0]] + b[1..]; }
      }
    }
  }

  lemma {:induction false} KeyLessTransitive(a: string, b: string, c: string)
    requires KeyLess(a, b) && KeyLess(b, c)
    ensures KeyLess(a, c)
    decreases |a|
  {
    if a != "" && a[0] == b[0] == c[0] { KeyLessTransitive(a[1..], b[1..], c[1..]); }
  }

  function ScoreOf(scores: map<string, real>, key: string): real {
    if key in scores then scores[key] else 0.0
  }

  /** Higher score first; equal scores by key. */
  predicate Before(scores: map<string, real>, a: string, b: string) {
    ScoreOf(scores, a) > ScoreOf(scores, b) || (ScoreOf(scores, a) == ScoreOf(scores, b) && KeyLess(a, b))
  }

  lemma BeforeTotal(scores: map<string, real>, a: string, b: string)
    ensures a == b || Before(scores, a, b) || Before(scores, b, a)
    ensures !(Before(scores, a, b) && Before(scores, b, a)) && !Before(scores, a, a)
  {
    KeyLessTotal(a, b);
    KeyLessTotal(a, a);
  }

  lemma BeforeTransitive(scores: map<string, real>, a: string, b: string, c: string)
    requires Before(scores, a, b) && Before(scores, b, c)
    ensures Before(scores, a, c)
  {
    if KeyLess(a, b) && KeyLess(b, c) { KeyLessTransitive(a, b, c); }
  }

  predicate Ordered(scores: map<string, real>, keys: seq<string>) {
    forall i, j :: 0 <= i < j < |keys| ==> keys[i] == keys[j] || Before(scores, keys[i], keys[j])
  }

  predicate Distinct(keys: seq<string>) {
    forall i, j :: 0 <= i < j < |keys| ==> keys[i] != keys[j]
  }

  function Insert(scores: map<string, real>, key: string, keys: seq<string>): (r: seq<string>)
    ensures multiset(r) == multiset(keys) + multiset{key}
  {
    if keys == [] || Before(scores, key, keys[0]) then [key] + keys
    else
      assert keys == [keys[0]] + keys[1..];
      [keys[0]] + Insert(scores, key, keys[1..])
  }

  /** sorted(): the keys by score, then by key. */
  function Sort(scores: map<string, real>, keys: seq<string>): (r: seq<string>)
    ensures multiset(r) == multiset(keys)
  {
    if keys == [] then []
    else
      assert keys == [keys[0]] + keys[1..];
      Insert(scores, keys[0], Sort(scores, keys[1..]))
  }

  lemma {:induction false} InsertKeepsOrder(scores: map<string, real>, key: string, keys: seq<string>)
    requires Ordered(scores, keys)
    ensures Ordered(scores, Insert(scores, key, keys))
    decreases |keys|
  {
    var r := Insert(scores, key, keys);
    if keys != [] {
      BeforeTotal(scores, key, keys[0]);
      if Before(scores, key, keys[0]) {
        forall j | 1 <= j < |keys|
          ensures Before(scores, key, keys[j])
        {
          if keys[0] != keys[j] { BeforeTransitive(scores, key, keys[0], keys[j]); }
        }
      } else {
        InsertKeepsOrder(scores, key, keys[1..]);
        var rest := Insert(scores, key, keys[1..]);
        forall j | 0 <= j < |rest|
          ensures keys[0] == rest[j] || Before(scores, keys[0], rest[j])
        {
          assert rest[j] in multiset(rest);
          if rest[j] != key {
            assert rest[j] in keys[1..];
          }
        }
      }
    }
  }

  lemma {:induction false} SortOrders(scores: map<string, real>, keys: seq<string>)
    ensures Ordered(scores, Sort(scores, keys))
    decreases |keys|
  {
    if keys != [] {
      SortOrders(scores, keys[1..]);
      InsertKeepsOrder(scores, keys[0], Sort(scores, keys[1..]));
    }
  }

  lemma HeadComesFirst(scores: map<string, real>, keys: seq<string>, key: string)
    requires Ordered(scores, keys) && key in multiset(keys)
    ensures keys != [] && (key == keys[0] || Before(scores, keys[0], key))
  {
  }

  /** There is one way to put the same keys in order. */
  lemma {:induction false} OneOrder(scores: map<string, real>, s: seq<string>, t: seq<string>)
    requires Ordered(scores, s) && Ordered(scores, t) && multiset(s) == multiset(t)
    ensures s == t
    decreases |s|
  {
    assert |multiset(s)| == |s| && |multiset(t)| == |t|;
    if s != [] {
      assert s[0] in multiset(t) && t[0] in multiset(s);
      HeadComesFirst(scores, s, t[0]);
      HeadComesFirst(scores, t, s[0]);
      BeforeTotal(scores, s[0], t[0]);
      assert s[0] == t[0];
      assert s == [s[0]] + s[1..] && t == [t[0]] + t[1..];
      assert multiset(s[1..]) == multiset(s) - multiset{s[0]};
      assert multiset(t[1..]) == multiset(t) - multiset{s[0]};
      OneOrder(scores, s[1..], t[1..]);
    }
  }

  // ---------------------------------------------------------------- the three rankings

  function Jaccard(left: set<string>, right: set<string>): real {
    var union := left + right;
    if union == {} then 0.0 else |left * right| as real / |union| as real
  }

  function Keys(documents: seq<Document>): (r: seq<string>)
    ensures |r| == |documents| && forall i :: 0 <= i < |r| ==> r[i] == documents[i].key
  {
    seq(|documents|, i requires 0 <= i < |documents| => documents[i].key)
  }

  /** A dictionary built from the documents in order: a repeated key keeps its last value. */
  function LexicalScores(queryTokens: set<string>, documents: seq<Document>): map<string, real> {
    if documents == [] then map[]
    else
      var last := documents[|documents| - 1];
      LexicalScores(queryTokens, documents[..|documents| - 1])[last.key := Jaccard(queryTokens, last.tokens)]
  }

  function PriorScores(documents: seq<Document>): map<string, real> {
    if documents == [] then map[]
    else
      var last := documents[|documents| - 1];
      PriorScores(documents[..|documents| - 1])[last.key := last.priorScore]
  }

  function AboveZero(scores: map<string, real>, keys: seq<string>): seq<string> {
    if keys == [] then []
    else (if ScoreOf(scores, keys[0]) > 0.0 then [keys[0]] else []) + AboveZero(scores, keys[1..])
  }

  function AboveThreshold(scores: map<string, real>, keys: seq<string>): seq<string> {
    if keys == [] then []
    else (if ScoreOf(scores, keys[0]) >= SEMANTIC_THRESHOLD then [keys[0]] else []) + AboveThreshold(scores, keys[1..])
  }

  /** sorted() by each document's own prior score, then by key: a repeated key keeps every score it has. */
  predicate PriorBefore(a: Document, b: Document) {
    a.priorScore > b.priorScore || (a.priorScore == b.priorScore && KeyLess(a.key, b.key))
  }

  function InsertByPrior(d: Document, documents: seq<Document>): seq<Document> {
    if documents == [] || PriorBefore(d, documents[0]) then [d] + documents
    else [documents[0]] + InsertByPrior(d, documents[1..])
  }

  function SortByPrior(documents: seq<Document>): seq<Document> {
    if documents == [] then [] else InsertByPrior(documents[0], SortByPrior(documents[1..]))
  }

  function PositivePrior(documents: seq<Document>): seq<string> {
    if documents == [] then []
    else (if documents[0].priorScore > 0.0 then [documents[0].key] else []) + PositivePrior(documents[1..])
  }

  function PriorRanking(documents: seq<Document>): seq<string> { PositivePrior(SortByPrior(documents)) }

  /** The rankings to fuse, best first. */
  function Rankings(queryTokens: set<string>, documents: seq<Document>, semantics: Semantics): seq<seq<string>> {
    var lexical := LexicalScores(queryTokens, documents);
    [AboveZero(lexical, Sort(lexical, Keys(documents))),
     if semantics.Similarities? then AboveThreshold(semantics.scores, Sort(semantics.scores, Keys(documents))) else [],
     PriorRanking(documents)]
  }

  // ---------------------------------------------------------------- reciprocal rank fusion

  function Reciprocal(position: nat): real {
    1.0 / (RRF_K + position) as real
  }

  /** What the first n places of one ranking give to a key; places count from 1. */
  function Given(ranking: seq<string>, n: nat, key: string): real
    requires n <= |ranking|
  {
    if n == 0 then 0.0
    else Given(ranking, n - 1, key) + (if ranking[n - 1] == key then Reciprocal(n) else 0.0)
  }

  function FusedScore(rankings: seq<seq<string>>, key: string): real {
    if rankings == [] then 0.0
    else
      var last := rankings[|rankings| - 1];
      FusedScore(rankings[..|rankings| - 1], key) + Given(last, |last|, key)
  }

  function AllKeys(rankings: seq<seq<string>>): set<string> {
    set r, k | r in rankings && k in r :: k
  }

  /** Add the reciprocal ranks of one ranking to what the dictionary holds; new keys go to the end of the order. */
  method FuseRanking(done: map<string, real>, known: seq<string>, ranking: seq<string>)
      returns (fused: map<string, real>, order: seq<string>)
    requires Distinct(known) && forall key :: key in known <==> key in done
    ensures fused.Keys == done.Keys + (set k | k in ranking)
    ensures forall key :: ScoreOf(fused, key) == ScoreOf(done, key) + Given(ranking, |ranking|, key)
    ensures Distinct(order) && forall key :: key in order <==> key in fused
  {
    fused, order := done, known;
    for i := 0 to |ranking|
      invariant fused.Keys == done.Keys + (set k | k in ranking[..i])
      invariant forall key :: ScoreOf(fused, key) == ScoreOf(done, key) + Given(ranking, i, key)
      invariant Distinct(order) && forall key :: key in order <==> key in fused
    {
      hide Reciprocal;
      if ranking[i] !in fused { order := order + [ranking[i]]; }
      fused := fused[ranking[i] := ScoreOf(fused, ranking[i]) + Reciprocal(i + 1)];
      assert ranking[..i + 1] == ranking[..i] + [ranking[i]];
    }
    assert ranking[..|ranking|] == ranking;
  }

  /** The fused dictionary, filled by the double loop, and its keys in the order they were first met. */
  method Fuse(rankings: seq<seq<string>>) returns (fused: map<string, real>, order: seq<string>)
    ensures fused.Keys == AllKeys(rankings)
    ensures forall key :: ScoreOf(fused, key) == FusedScore(rankings, key)
    ensures Distinct(order) && forall key :: key in order <==> key in fused
  {
    hide Given, Distinct;
    fused, order := map[], [];
    assert Distinct(order) by { NoKeysAreDistinct(); }
    for r := 0 to |rankings|
      invariant fused.Keys == AllKeys(rankings[..r])
      invariant forall key :: ScoreOf(fused, key) == FusedScore(rankings[..r], key)
      invariant Distinct(order) && forall key :: key in order <==> key in fused
    {
      var ranking := rankings[r];
      fused, order := FuseRanking(fused, order, ranking);
      assert rankings[..r + 1] == rankings[..r] + [ranking];
      assert rankings[..r + 1][..r] == rankings[..r];
      assert AllKeys(rankings[..r + 1]) == AllKeys(rankings[..r]) + (set k | k in ranking);
    }
    assert rankings[..|rankings|] == rankings;
  }

  lemma NoKeysAreDistinct()
    ensures Distinct([])
  {
  }

  /** The keys of the fused dictionary by fused score, each once: the only such list. */
  ghost predicate FullRanking(rankings: seq<seq<string>>, full: seq<string>) {
    && Distinct(full) && (forall key :: key in full <==> key in AllKeys(rankings))
    && (forall i, j :: 0 <= i < j < |full| ==> Outranks(rankings, full[i], full[j]))
  }

  ghost predicate Outranks(rankings: seq<seq<string>>, a: string, b: string) {
    FusedScore(rankings, a) > FusedScore(rankings, b)
    || (FusedScore(rankings, a) == FusedScore(rankings, b) && KeyLess(a, b))
  }

  predicate HasKey(documents: seq<Document>, key: string) {
    exists i :: 0 <= i < |documents| && documents[i].key == key
  }

  /** The dictionary by key keeps the last document of a key. */
  function DocumentOf(documents: seq<Document>, key: string): (d: Document)
    requires HasKey(documents, key)
    ensures d.key == key && d in documents
  {
    var last := documents[|documents| - 1];
    if last.key == key then last
    else
      var i :| 0 <= i < |documents| && documents[i].key == key;
      assert documents[..|documents| - 1][i].key == key;
      DocumentOf(documents[..|documents| - 1], key)
  }

  /** What the caller is shown for one key. */
  function Shown(queryTokens: set<string>, documents: seq<Document>, semantics: Semantics, rankings: seq<seq<string>>, key: string): RankedDocument
    requires HasKey(documents, key)
  {
    RankedDocument(
      DocumentOf(documents, key), ScoreOf(LexicalScores(queryTokens, documents), key),
      if semantics.Similarities? && key in semantics.scores then Some(semantics.scores[key]) else None,
      FusedScore(rankings, key))
  }

  lemma {:induction false} FilteredKeys(scores: map<string, real>, keys: seq<string>, key: string)
    ensures key in AboveZero(scores, keys) ==> key in keys
    ensures key in AboveThreshold(scores, keys) ==> key in keys
    decreases |keys|
  {
    if keys != [] { FilteredKeys(scores, keys[1..], key); }
  }

  lemma SortedKeys(scores: map<string, real>, keys: seq<string>, key: string)
    ensures key in Sort(scores, keys) <==> key in keys
  {
    assert key in multiset(keys) <==> key in multiset(Sort(scores, keys));
  }

  lemma {:induction false} InsertedMembers(d: Document, documents: seq<Document>, x: Document)
    ensures x in InsertByPrior(d, documents) <==> x == d || x in documents
    decreases |documents|
  {
    if documents != [] {
      InsertedMembers(d, documents[1..], x);
      assert documents == [documents[0]] + documents[1..];
    }
  }

  lemma {:induction false} SortedMembers(documents: seq<Document>, x: Document)
    ensures x in SortByPrior(documents) <==> x in documents
    decreases |documents|
  {
    if documents != [] {
      SortedMembers(documents[1..], x);
      InsertedMembers(documents[0], SortByPrior(documents[1..]), x);
      assert documents == [documents[0]] + documents[1..];
    }
  }

  lemma {:induction false} PositivePriorKeys(documents: seq<Document>, key: string)
    requires key in PositivePrior(documents)
    ensures exists d :: d in documents && d.key == key
    decreases |documents|
  {
    if documents[0].priorScore > 0.0 && documents[0].key == key {
      assert documents[0] in documents;
    } else {
      PositivePriorKeys(documents[1..], key);
      var d :| d in documents[1..] && d.key == key;
      assert d in documents;
    }
  }

  lemma PriorKeysAreKeys(documents: seq<Document>, key: string)
    requires key in PriorRanking(documents)
    ensures key in Keys(documents)
  {
    PositivePriorKeys(SortByPrior(documents), key);
    var d :| d in SortByPrior(documents) && d.key == key;
    SortedMembers(documents, d);
    var i :| 0 <= i < |documents| && documents[i] == d;
    assert Keys(documents)[i] == key;
  }

  /** Every ranked key is the key of a document. */
  lemma {:induction false} RankedKeysAreKnown(queryTokens: set<string>, documents: seq<Document>, semantics: Semantics, key: string)
    requires key in AllKeys(Rankings(queryTokens, documents, semantics))
    ensures HasKey(documents, key)
  {
    var lexical, keys := LexicalScores(queryTokens, documents), Keys(documents);
    FilteredKeys(lexical, Sort(lexical, keys), key);
    SortedKeys(lexical, keys, key);
    if key in PriorRanking(documents) { PriorKeysAreKeys(documents, key); }
    if semantics.Similarities? {
      FilteredKeys(semantics.scores, Sort(semantics.scores, keys), key);
      SortedKeys(semantics.scores, keys, key);
    }
    assert key in keys;
    var i :| 0 <= i < |keys| && keys[i] == key;
    assert documents[i].key == key;
  }

  /** The fused keys, best first. */
  method RankKeys(rankings: seq<seq<string>>) returns (full: seq<string>)
    ensures FullRanking(rankings, full)
  {
    var fused, order := Fuse(rankings);
    full := Sort(fused, order);
    SortedIsFull(rankings, fused, order);
  }

  ghost predicate AllKnown(documents: seq<Document>, keys: seq<string>) {
    forall i :: 0 <= i < |keys| ==> HasKey(documents, keys[i])
  }

  method ShowAll(queryTokens: set<string>, documents: seq<Document>, semantics: Semantics, rankings: seq<seq<string>>, keys: seq<string>)
      returns (candidates: seq<RankedDocument>)
    requires AllKnown(documents, keys)
    ensures |candidates| == |keys|
    ensures forall i :: 0 <= i < |keys| ==> candidates[i] == Shown(queryTokens, documents, semantics, rankings, keys[i])
  {
    candidates := [];
    for i := 0 to |keys|
      invariant |candidates| == i
      invariant forall k :: 0 <= k < i ==> candidates[k] == Shown(queryTokens, documents, semantics, rankings, keys[k])
    {
      candidates := candidates + [Shown(queryTokens, documents, semantics, rankings, keys[i])];
    }
  }

  /** What is returned of the full fused ranking: its first entries, up to the limit. */
  ghost function Returned(
      queryTokens: set<string>, documents: seq<Document>, semantics: Semantics, full: seq<string>, limit: nat): (r: seq<RankedDocument>)
    requires AllKnown(documents, full)
    ensures |r| == if limit < |full| then limit else |full|
  {
    seq(if limit < |full| then limit else |full|, i requires 0 <= i < |full| =>
      Shown(queryTokens, documents, semantics, Rankings(queryTokens, documents, semantics), full[i]))
  }

  /** These are the candidates returned for these documents under this limit. */
  ghost predicate IsResult(
      queryTokens: set<string>, documents: seq<Document>, semantics: Semantics, limit: nat, candidates: seq<RankedDocument>)
  {
    exists full ::
      && FullRanking(Rankings(queryTokens, documents, semantics), full) && AllKnown(documents, full)
      && candidates == Returned(queryTokens, documents, semantics, full, limit)
  }

  /** None stands for the ValueError of a limit below one. */
  method RankHybridDocuments(queryTokens: set<string>, documents: seq<Document>, semantics: Semantics, limit: int)
      returns (r: Option<Retrieval>, ghost full: seq<string>)
    ensures r.None? <==> limit < 1
    ensures r.Some? && documents == [] ==> r.value == Retrieval([], NothingRanked)
    ensures FullRanking(Rankings(queryTokens, documents, semantics), full) && AllKnown(documents, full)
    ensures r.Some? && documents != [] ==>
              && r.value.how == (if semantics.NoProvider? then Lexical else if semantics.ProviderFailed? then LexicalFallback else Hybrid)
              && r.value.candidates == Returned(queryTokens, documents, semantics, full, limit)
    ensures r.Some? ==> IsResult(queryTokens, documents, semantics, limit, r.value.candidates)
  {
    hide Rankings, FullRanking, Shown, DocumentOf;
    var rankings := Rankings(queryTokens, documents, semantics);
    var ranked := RankKeys(rankings);
    full := ranked;
    RankingIsKnown(queryTokens, documents, semantics, full);
    if limit < 1 {
      return None, full;
    }
    if documents == [] {
      NothingToReturn(queryTokens, documents, semantics, full, limit);
      return Some(Retrieval([], NothingRanked)), full;
    }
    if limit < |ranked| { ranked := ranked[..limit]; }
    var candidates := ShowAll(queryTokens, documents, semantics, rankings, ranked);
    assert candidates == Returned(queryTokens, documents, semantics, full, limit);
    r := Some(Retrieval(candidates, if semantics.NoProvider? then Lexical
                                    else if semantics.ProviderFailed? then LexicalFallback else Hybrid));
  }

  lemma RankingIsKnown(queryTokens: set<string>, documents: seq<Document>, semantics: Semantics, full: seq<string>)
    requires FullRanking(Rankings(queryTokens, documents, semantics), full)
    ensures AllKnown(documents, full)
  {
    hide Rankings;
    forall i | 0 <= i < |full|
      ensures HasKey(documents, full[i])
    {
      assert full[i] in full;
      RankedKeysAreKnown(queryTokens, documents, semantics, full[i]);
    }
  }

  lemma NothingToReturn(queryTokens: set<string>, documents: seq<Document>, semantics: Semantics, full: seq<string>, limit: nat)
    requires documents == [] && AllKnown(documents, full)
    ensures Returned(queryTokens, documents, semantics, full, limit) == []
  {
    assert full != [] ==> HasKey(documents, full[0]);
  }

  lemma {:induction false} DistinctCounts(keys: seq<string>, key: string)
    requires Distinct(keys)
    ensures multiset(keys)[key] == if key in keys then 1 else 0
    decreases |keys|
  {
    if keys != [] {
      DistinctCounts(keys[1..], key);
      assert keys == [keys[0]] + keys[1..];
    }
  }

  lemma {:induction false} CountsDistinct(keys: seq<string>)
    requires forall key :: multiset(keys)[key] <= 1
    ensures Distinct(keys)
    decreases |keys|
  {
    if keys != [] {
      assert keys == [keys[0]] + keys[1..];
      assert multiset(keys) == multiset{keys[0]} + multiset(keys[1..]);
      forall key ensures multiset(keys[1..])[key] <= 1 { assert multiset(keys)[key] <= 1; }
      CountsDistinct(keys[1..]);
      assert multiset(keys)[keys[0]] == 1 + multiset(keys[1..])[keys[0]];
      assert keys[0] !in multiset(keys[1..]);
    }
  }

  lemma {:induction false} SortKeepsDistinct(scores: map<string, real>, keys: seq<string>)
    requires Distinct(keys)
    ensures Distinct(Sort(scores, keys))
  {
    forall key ensures multiset(Sort(scores, keys))[key] <= 1 { DistinctCounts(keys, key); }
    CountsDistinct(Sort(scores, keys));
  }

  lemma {:induction false} SortedIsFull(rankings: seq<seq<string>>, fused: map<string, real>, order: seq<string>)
    requires fused.Keys == AllKeys(rankings) && forall key :: ScoreOf(fused, key) == FusedScore(rankings, key)
    requires Distinct(order) && forall key :: key in order <==> key in fused
    ensures FullRanking(rankings, Sort(fused, order))
  {
    SortOrders(fused, order);
    SortKeepsDistinct(fused, order);
    forall key ensures key in Sort(fused, order) <==> key in AllKeys(rankings) { SortedKeys(fused, order, key); }
    var full := Sort(fused, order);
    forall i, j | 0 <= i < j < |full|
      ensures Outranks(rankings, full[i], full[j])
    {
      assert Before(fused, full[i], full[j]);
    }
  }

  // ---------------------------------------------------------------- dominance

  /** a stands before b in this ranking. */
  predicate Precedes(ranking: seq<string>, a: string, b: string) {
    exists i, j :: 0 <= i < j < |ranking| && ranking[i] == a && ranking[j] == b
  }

  /** Wherever b is ranked, a is ranked better. */
  predicate Dominates(rankings: seq<seq<string>>, a: string, b: string) {
    forall r :: 0 <= r < |rankings| && b in rankings[r] ==> Precedes(rankings[r], a, b)
  }

  predicate AllDistinct(rankings: seq<seq<string>>) {
    forall r :: 0 <= r < |rankings| ==> Distinct(rankings[r])
  }

  lemma InverseFalls(x: real, y: real)
    requires 0.0 < x < y
    ensures 1.0 / x > 1.0 / y > 0.0
  {
  }

  lemma ReciprocalFalls(p: nat, q: nat)
    requires p < q
    ensures Reciprocal(p) > Reciprocal(q) > 0.0
  {
    InverseFalls((RRF_K + p) as real, (RRF_K + q) as real);
  }

  lemma {:induction false} GivenOnce(ranking: seq<string>, n: nat, key: string, place: nat)
    requires Distinct(ranking) && n <= |ranking| && place < |ranking| && ranking[place] == key
    ensures Given(ranking, n, key) == if place < n then Reciprocal(place + 1) else 0.0
    decreases n
  {
    if n > 0 { GivenOnce(ranking, n - 1, key, place); }
  }

  lemma {:induction false} GivenNothing(ranking: seq<string>, n: nat, key: string)
    requires n <= |ranking| && key !in ranking
    ensures Given(ranking, n, key) == 0.0
    decreases n
  {
    if n > 0 { GivenNothing(ranking, n - 1, key); }
  }

  lemma OneRankingPrefers(ranking: seq<string>, a: string, b: string)
    requires Distinct(ranking) && (b in ranking ==> Precedes(ranking, a, b))
    ensures Given(ranking, |ranking|, a) >= Given(ranking, |ranking|, b)
    ensures b in ranking ==> Given(ranking, |ranking|, a) > Given(ranking, |ranking|, b)
  {
    if b in ranking {
      var i, j :| 0 <= i < j < |ranking| && ranking[i] == a && ranking[j] == b;
      GivenOnce(ranking, |ranking|, a, i);
      GivenOnce(ranking, |ranking|, b, j);
      ReciprocalFalls(i + 1, j + 1);
    } else {
      GivenNothing(ranking, |ranking|, b);
      if a in ranking {
        var i :| 0 <= i < |ranking| && ranking[i] == a;
        GivenOnce(ranking, |ranking|, a, i);
        ReciprocalFalls(i + 1, i + 2);
      } else {
        GivenNothing(ranking, |ranking|, a);
      }
    }
  }

  lemma {:induction false} DominanceScores(rankings: seq<seq<string>>, a: string, b: string)
    requires AllDistinct(rankings) && Dominates(rankings, a, b)
    ensures FusedScore(rankings, a) >= FusedScore(rankings, b)
    ensures b in AllKeys(rankings) ==> FusedScore(rankings, a) > FusedScore(rankings, b) && a in AllKeys(rankings)
    decreases |rankings|
  {
    if rankings != [] {
      var last := |rankings| - 1;
      DominanceScores(rankings[..last], a, b);
      OneRankingPrefers(rankings[last], a, b);
      if b in AllKeys(rankings) {
        var r :| r in rankings && b in r;
        var k :| 0 <= k < |rankings| && rankings[k] == r;
        assert Precedes(rankings[k], a, b);
        assert a in rankings[k];
        assert k < last ==> rankings[..last][k] == r && b in AllKeys(rankings[..last]);
      }
    }
  }

  /**
   Fusion respects dominance: a key ranked better than b wherever b is ranked precedes b in the fused
   ranking, and so in every cut of it that contains b.
   */
  lemma FusionRespectsDominance(rankings: seq<seq<string>>, full: seq<string>, a: string, b: string)
    requires AllDistinct(rankings) && FullRanking(rankings, full) && Dominates(rankings, a, b) && b in full
    ensures Precedes(full, a, b)
  {
    DominanceScores(rankings, a, b);
    var i :| 0 <= i < |full| && full[i] == a;
    var j :| 0 <= j < |full| && full[j] == b;
    assert i != j;
  }

  /** Documents with distinct keys are ranked at most once each. */
  lemma {:induction false} RankingsAreDistinct(queryTokens: set<string>, documents: seq<Document>, semantics: Semantics)
    requires Distinct(Keys(documents))
    ensures AllDistinct(Rankings(queryTokens, documents, semantics))
  {
    hide Sort, LexicalScores, PriorScores, AboveZero, AboveThreshold, PriorRanking, Keys;
    var lexical, prior, keys := LexicalScores(queryTokens, documents), PriorScores(documents), Keys(documents);
    SortKeepsDistinct(lexical, keys);
    FilteringKeepsDistinct(lexical, Sort(lexical, keys));
    SortKeepsDistinct(prior, keys);
    FilteringKeepsDistinct(prior, Sort(prior, keys));
    PriorRankingByKey(documents);
    if semantics.Similarities? {
      SortKeepsDistinct(semantics.scores, keys);
      FilteringKeepsDistinct(semantics.scores, Sort(semantics.scores, keys));
    }
  }

  /**
   For documents with distinct keys: one that is ranked better than another wherever that one is ranked
   stands before it in the returned list, whatever the limit, whenever the worse one is returned at all.
   */
  lemma {:induction false} BetterEverywhereIsShownFirst(
      queryTokens: set<string>, documents: seq<Document>, semantics: Semantics, full: seq<string>, limit: nat, a: string, b: string)
    requires Distinct(Keys(documents)) && limit <= |full|
    ensures var rankings := Rankings(queryTokens, documents, semantics);
            FullRanking(rankings, full) && Dominates(rankings, a, b) && b in full[..limit] ==> Precedes(full[..limit], a, b)
  {
    var rankings := Rankings(queryTokens, documents, semantics);
    RankingsAreDistinct(queryTokens, documents, semantics);
    if FullRanking(rankings, full) && Dominates(rankings, a, b) && b in full[..limit] {
      var k :| 0 <= k < limit && full[k] == b;
      FusionRespectsDominance(rankings, full, a, b);
      var i, j :| 0 <= i < j < |full| && full[i] == a && full[j] == b;
      assert j == k;
      assert full[..limit][i] == a && full[..limit][j] == b;
    }
  }

  lemma {:induction false} FilteringKeepsDistinct(scores: map<string, real>, keys: seq<string>)
    requires Distinct(keys)
    ensures Distinct(AboveZero(scores, keys)) && Distinct(AboveThreshold(scores, keys))
    decreases |keys|
  {
    if keys != [] {
      FilteringKeepsDistinct(scores, keys[1..]);
      FilteredKeys(scores, keys[1..], keys[0]);
    }
  }

  // ---------------------------------------------------------------- the order of the input does not matter

  predicate SameDocuments(xs: seq<Document>, ys: seq<Document>) {
    (forall d :: d in xs ==> d in ys) && (forall d :: d in ys ==> d in xs)
  }

  lemma {:induction false} ScoresByKey(queryTokens: set<string>, documents: seq<Document>, d: Document)
    requires Distinct(Keys(documents)) && d in documents
    ensures var lexical, prior := LexicalScores(queryTokens, documents), PriorScores(documents);
            && d.key in lexical && lexical[d.key] == Jaccard(queryTokens, d.tokens)
            && d.key in prior && prior[d.key] == d.priorScore
    decreases |documents|
  {
    var n := |documents| - 1;
    if documents[n] != d {
      assert d in documents[..n];
      assert Keys(documents[..n]) == Keys(documents)[..n];
      ScoresByKey(queryTokens, documents[..n], d);
      var i :| 0 <= i < n && documents[i] == d;
      assert Keys(documents)[i] != Keys(documents)[n];
    }
  }

  lemma KeysJoin(a: seq<Document>, b: seq<Document>)
    ensures Keys(a + b) == Keys(a) + Keys(b)
  {
  }

  lemma InsertedFirst(scores: map<string, real>, d: Document, documents: seq<Document>)
    requires documents == [] || (PriorBefore(d, documents[0]) && Before(scores, d.key, documents[0].key))
    ensures Keys(InsertByPrior(d, documents)) == Insert(scores, d.key, Keys(documents))
  {
    KeysJoin([d], documents);
  }

  lemma InsertGoesOn(scores: map<string, real>, key: string, first: string, rest: seq<string>)
    requires !Before(scores, key, first)
    ensures Insert(scores, key, [first] + rest) == [first] + Insert(scores, key, rest)
  {
    hide Before;
    assert ([first] + rest)[1..] == rest;
  }

  lemma InsertedLater(scores: map<string, real>, d: Document, documents: seq<Document>)
    requires documents != [] && !PriorBefore(d, documents[0]) && !Before(scores, d.key, documents[0].key)
    requires Keys(InsertByPrior(d, documents[1..])) == Insert(scores, d.key, Keys(documents[1..]))
    ensures Keys(InsertByPrior(d, documents)) == Insert(scores, d.key, Keys(documents))
  {
    hide Before, PriorBefore, Insert;
    var first, rest := documents[0], documents[1..];
    assert documents == [first] + rest;
    KeysJoin([first], rest);
    KeysJoin([first], InsertByPrior(d, rest));
    assert Keys([first]) == [first.key];
    InsertGoesOn(scores, d.key, first.key, Keys(rest));
  }

  lemma {:induction false} InsertByPriorAgrees(scores: map<string, real>, d: Document, documents: seq<Document>)
    requires ScoreOf(scores, d.key) == d.priorScore
    requires forall i :: 0 <= i < |documents| ==> ScoreOf(scores, documents[i].key) == documents[i].priorScore
    ensures Keys(InsertByPrior(d, documents)) == Insert(scores, d.key, Keys(documents))
    decreases |documents|
  {
    hide Insert, InsertByPrior, KeyLess;
    if documents == [] || PriorBefore(d, documents[0]) {
      InsertedFirst(scores, d, documents);
    } else {
      InsertByPriorAgrees(scores, d, documents[1..]);
      InsertedLater(scores, d, documents);
    }
  }

  lemma {:induction false} SortByPriorAgrees(scores: map<string, real>, documents: seq<Document>)
    requires forall i :: 0 <= i < |documents| ==> ScoreOf(scores, documents[i].key) == documents[i].priorScore
    ensures Keys(SortByPrior(documents)) == Sort(scores, Keys(documents))
    decreases |documents|
  {
    if documents != [] {
      var sorted := SortByPrior(documents[1..]);
      assert Keys(documents)[1..] == Keys(documents[1..]);
      SortByPriorAgrees(scores, documents[1..]);
      forall i | 0 <= i < |sorted|
        ensures ScoreOf(scores, sorted[i].key) == sorted[i].priorScore
      {
        SortedMembers(documents[1..], sorted[i]);
      }
      InsertByPriorAgrees(scores, documents[0], sorted);
    }
  }

  lemma {:induction false} PositivePriorAgrees(scores: map<string, real>, documents: seq<Document>)
    requires forall i :: 0 <= i < |documents| ==> ScoreOf(scores, documents[i].key) == documents[i].priorScore
    ensures PositivePrior(documents) == AboveZero(scores, Keys(documents))
    decreases |documents|
  {
    if documents != [] {
      assert Keys(documents)[1..] == Keys(documents[1..]);
      PositivePriorAgrees(scores, documents[1..]);
    }
  }

  /** With distinct keys the prior ranking is the one a dictionary of prior scores gives. */
  lemma {:induction false} PriorRankingByKey(documents: seq<Document>)
    requires Distinct(Keys(documents))
    ensures PriorRanking(documents) == AboveZero(PriorScores(documents), Sort(PriorScores(documents), Keys(documents)))
  {
    var scores, sorted := PriorScores(documents), SortByPrior(documents);
    forall i | 0 <= i < |documents|
      ensures ScoreOf(scores, documents[i].key) == documents[i].priorScore
    {
      ScoresByKey({}, documents, documents[i]);
    }
    SortByPriorAgrees(scores, documents);
    forall i | 0 <= i < |sorted|
      ensures ScoreOf(scores, sorted[i].key) == sorted[i].priorScore
    {
      SortedMembers(documents, sorted[i]);
    }
    PositivePriorAgrees(scores, sorted);
  }

  lemma {:induction false} ScoredKeysAreKeys(queryTokens: set<string>, documents: seq<Document>, key: string)
    ensures key in LexicalScores(queryTokens, documents) <==> key in Keys(documents)
    ensures key in PriorScores(documents) <==> key in Keys(documents)
    decreases |documents|
  {
    if documents != [] {
      var n := |documents| - 1;
      ScoredKeysAreKeys(queryTokens, documents[..n], key);
      assert Keys(documents) == Keys(documents[..n]) + [documents[n].key];
    }
  }

  /** What the score dictionaries hold for one key does not depend on the order of the documents. */
  lemma {:induction false} SameScoreOfKey(queryTokens: set<string>, xs: seq<Document>, ys: seq<Document>, key: string)
    requires Distinct(Keys(xs)) && Distinct(Keys(ys)) && SameDocuments(xs, ys)
    ensures key in Keys(xs) <==> key in Keys(ys)
    ensures key in LexicalScores(queryTokens, xs) <==> key in LexicalScores(queryTokens, ys)
    ensures key in LexicalScores(queryTokens, xs) ==>
              LexicalScores(queryTokens, xs)[key] == LexicalScores(queryTokens, ys)[key]
    ensures key in PriorScores(xs) <==> key in PriorScores(ys)
    ensures key in PriorScores(xs) ==> PriorScores(xs)[key] == PriorScores(ys)[key]
  {
    if key in Keys(xs) { SameKeys(xs, ys, key); }
    if key in Keys(ys) { SameKeys(ys, xs, key); }
    ScoredKeysAreKeys(queryTokens, xs, key);
    ScoredKeysAreKeys(queryTokens, ys, key);
    if key in Keys(xs) {
      var i :| 0 <= i < |xs| && Keys(xs)[i] == key;
      ScoresByKey(queryTokens, xs, xs[i]);
      ScoresByKey(queryTokens, ys, xs[i]);
    }
  }

  lemma SameDocumentsSameScores(queryTokens: set<string>, xs: seq<Document>, ys: seq<Document>)
    requires Distinct(Keys(xs)) && Distinct(Keys(ys)) && SameDocuments(xs, ys)
    ensures LexicalScores(queryTokens, xs) == LexicalScores(queryTokens, ys) && PriorScores(xs) == PriorScores(ys)
  {
    var a, b := LexicalScores(queryTokens, xs), LexicalScores(queryTokens, ys);
    forall key
      ensures key in a <==> key in b
      ensures key in a ==> a[key] == b[key]
    {
      SameScoreOfKey(queryTokens, xs, ys, key);
    }
    assert a == b;
    var c, d := PriorScores(xs), PriorScores(ys);
    forall key
      ensures key in c <==> key in d
      ensures key in c ==> c[key] == d[key]
    {
      SameScoreOfKey(queryTokens, xs, ys, key);
    }
    assert c == d;
  }

  lemma SameDocumentsSameKeys(xs: seq<Document>, ys: seq<Document>)
    requires Distinct(Keys(xs)) && Distinct(Keys(ys)) && SameDocuments(xs, ys)
    ensures multiset(Keys(xs)) == multiset(Keys(ys))
  {
    forall key ensures multiset(Keys(xs))[key] == multiset(Keys(ys))[key] {
      SameScoreOfKey({}, xs, ys, key);
      DistinctCounts(Keys(xs), key);
      DistinctCounts(Keys(ys), key);
    }
  }

  lemma SameKeys(xs: seq<Document>, ys: seq<Document>, key: string)
    requires SameDocuments(xs, ys) && key in Keys(xs)
    ensures key in Keys(ys)
  {
    var i :| 0 <= i < |xs| && Keys(xs)[i] == key;
    assert xs[i] in ys;
    var j :| 0 <= j < |ys| && ys[j] == xs[i];
    assert Keys(ys)[j] == key;
  }

  lemma {:induction false} RankingsIgnoreInputOrder(queryTokens: set<string>, xs: seq<Document>, ys: seq<Document>, semantics: Semantics)
    requires Distinct(Keys(xs)) && Distinct(Keys(ys)) && SameDocuments(xs, ys)
    ensures Rankings(queryTokens, xs, semantics) == Rankings(queryTokens, ys, semantics)
  {
    SameDocumentsSameScores(queryTokens, xs, ys);
    SameDocumentsSameKeys(xs, ys);
    var lexical, prior := LexicalScores(queryTokens, xs), PriorScores(xs);
    SameSort(lexical, Keys(xs), Keys(ys));
    SameSort(prior, Keys(xs), Keys(ys));
    PriorRankingByKey(xs);
    PriorRankingByKey(ys);
    if semantics.Similarities? { SameSort(semantics.scores, Keys(xs), Keys(ys)); }
  }

  /** A key names the same document in both orders. */
  lemma SameDocumentOfKey(xs: seq<Document>, ys: seq<Document>, key: string)
    requires Distinct(Keys(xs)) && Distinct(Keys(ys)) && SameDocuments(xs, ys) && HasKey(xs, key) && HasKey(ys, key)
    ensures DocumentOf(xs, key) == DocumentOf(ys, key)
  {
    var x, y := DocumentOf(xs, key), DocumentOf(ys, key);
    assert x in ys;
    var i :| 0 <= i < |ys| && ys[i] == x;
    var j :| 0 <= j < |ys| && ys[j] == y;
    assert Keys(ys)[i] == Keys(ys)[j];
  }

  lemma {:induction false} SameShown(queryTokens: set<string>, xs: seq<Document>, ys: seq<Document>, semantics: Semantics, key: string)
    requires Distinct(Keys(xs)) && Distinct(Keys(ys)) && SameDocuments(xs, ys) && HasKey(xs, key) && HasKey(ys, key)
    ensures Shown(queryTokens, xs, semantics, Rankings(queryTokens, xs, semantics), key)
            == Shown(queryTokens, ys, semantics, Rankings(queryTokens, ys, semantics), key)
  {
    hide Rankings, DocumentOf;
    RankingsIgnoreInputOrder(queryTokens, xs, ys, semantics);
    SameDocumentsSameScores(queryTokens, xs, ys);
    SameDocumentOfKey(xs, ys, key);
  }

  /**
   With distinct keys the result, documents and scores included, does not depend on the order in which the
   documents are given.
   */
  lemma {:induction false} InputOrderDoesNotMatter(
      queryTokens: set<string>, xs: seq<Document>, ys: seq<Document>, semantics: Semantics, limit: nat,
      candidates: seq<RankedDocument>, candidates': seq<RankedDocument>)
    requires Distinct(Keys(xs)) && Distinct(Keys(ys)) && SameDocuments(xs, ys)
    ensures IsResult(queryTokens, xs, semantics, limit, candidates) && IsResult(queryTokens, ys, semantics, limit, candidates')
            ==> candidates == candidates'
  {
    hide IsResult, Rankings;
    if IsResult(queryTokens, xs, semantics, limit, candidates) && IsResult(queryTokens, ys, semantics, limit, candidates') {
      SameResult(queryTokens, xs, ys, semantics, limit, candidates, candidates');
    }
  }

  lemma {:induction false} SameResult(
      queryTokens: set<string>, xs: seq<Document>, ys: seq<Document>, semantics: Semantics, limit: nat,
      candidates: seq<RankedDocument>, candidates': seq<RankedDocument>)
    requires Distinct(Keys(xs)) && Distinct(Keys(ys)) && SameDocuments(xs, ys)
    requires IsResult(queryTokens, xs, semantics, limit, candidates) && IsResult(queryTokens, ys, semantics, limit, candidates')
    ensures candidates == candidates'
  {
    hide Rankings, FullRanking, Shown;
    RankingsIgnoreInputOrder(queryTokens, xs, ys, semantics);
    var rankings := Rankings(queryTokens, xs, semantics);
    var full :| FullRanking(rankings, full) && AllKnown(xs, full)
                && candidates == Returned(queryTokens, xs, semantics, full, limit);
    var full' :| FullRanking(rankings, full') && AllKnown(ys, full')
                 && candidates' == Returned(queryTokens, ys, semantics, full', limit);
    FullRankingIsUnique(rankings, full, full');
    forall i | 0 <= i < |candidates|
      ensures candidates[i] == candidates'[i]
    {
      SameShown(queryTokens, xs, ys, semantics, full[i]);
    }
  }

  /** A smaller limit returns a prefix of what a larger one returns, as long as it goes. */
  lemma SmallerLimitIsPrefix(
      queryTokens: set<string>, documents: seq<Document>, semantics: Semantics, limit: nat, larger: nat,
      candidates: seq<RankedDocument>, more: seq<RankedDocument>)
    requires limit <= larger
    requires IsResult(queryTokens, documents, semantics, limit, candidates)
    requires IsResult(queryTokens, documents, semantics, larger, more)
    ensures candidates <= more && |candidates| == if limit < |more| then limit else |more|
  {
    hide Rankings, FullRanking, Shown;
    var rankings := Rankings(queryTokens, documents, semantics);
    var full :| FullRanking(rankings, full) && AllKnown(documents, full)
                && candidates == Returned(queryTokens, documents, semantics, full, limit);
    var full' :| FullRanking(rankings, full') && AllKnown(documents, full')
                 && more == Returned(queryTokens, documents, semantics, full', larger);
    FullRankingIsUnique(rankings, full, full');
  }

  lemma {:induction false} SameSort(scores: map<string, real>, s: seq<string>, t: seq<string>)
    requires multiset(s) == multiset(t)
    ensures Sort(scores, s) == Sort(scores, t)
  {
    SortOrders(scores, s);
    SortOrders(scores, t);
    OneOrder(scores, Sort(scores, s), Sort(scores, t));
  }

  /** The rankings determine the fused ranking. */
  lemma {:induction false} FullRankingIsUnique(rankings: seq<seq<string>>, full: seq<string>, full': seq<string>)
    requires FullRanking(rankings, full) && FullRanking(rankings, full')
    ensures full == full'
  {
    var scores := map key | key in AllKeys(rankings) :: FusedScore(rankings, key);
    forall key ensures multiset(full)[key] == multiset(full')[key] {
      DistinctCounts(full, key);
      DistinctCounts(full', key);
    }
    assert multiset(full) == multiset(full');
    FullIsOrdered(rankings, full, scores);
    FullIsOrdered(rankings, full', scores);
    OneOrder(scores, full, full');
  }

  lemma FullIsOrdered(rankings: seq<seq<string>>, full: seq<string>, scores: map<string, real>)
    requires FullRanking(rankings, full) && scores == map key | key in AllKeys(rankings) :: FusedScore(rankings, key)
    ensures Ordered(scores, full)
  {
  }
}
