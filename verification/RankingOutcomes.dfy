/**
 What the three rankings and the fused score are, said of the documents alone: who is ranked at all, in
 which order, and what each place is worth.
 */
module RankingOutcomes {
  import opened Common
  import opened HybridRetrieval

  // ---------------------------------------------------------------- keys and documents

  /** a is a proper beginning of b, or smaller at the first difference. */
  ghost predicate Alphabetical(a: string, b: string) {
    exists k: nat :: k <= |a| && k < |b| && a[..k] == b[..k] && (k == |a| || a[k] < b[k])
  }

  lemma {:induction false} KeyLessMeans(a: string, b: string)
    ensures KeyLess(a, b) <==> Alphabetical(a, b)
    decreases |a|
  {
    if a == "" {
      if b != "" { assert a[..0] == b[..0]; }
    } else if b != "" {
      KeyLessMeans(a[1..], b[1..]);
      if a[0] < b[0] { assert a[..0] == b[..0]; }
      if a[0] == b[0] {
        if Alphabetical(a[1..], b[1..]) {
          var k: nat :| k <= |a[1..]| && k < |b[1..]| && a[1..][..k] == b[1..][..k] && (k == |a[1..]| || a[1..][k] < b[1..][k]);
          assert a[..k + 1] == [a[0]] + a[1..][..k] && b[..k + 1] == [b[0]] + b[1..][..k];
        }
      }
      if Alphabetical(a, b) && !(a[0] < b[0]) { FirstDifferenceIsLater(a, b); }
    }
  }

  lemma FirstDifferenceIsLater(a: string, b: string)
    requires a != "" && b != "" && !(a[0] < b[0]) && Alphabetical(a, b)
    ensures a[0] == b[0] && Alphabetical(a[1..], b[1..])
  {
    var k: nat :| k <= |a| && k < |b| && a[..k] == b[..k] && (k == |a| || a[k] < b[k]);
    assert a[..k][0] == b[..k][0];
    assert a[1..][..k - 1] == a[..k][1..] && b[1..][..k - 1] == b[..k][1..];
  }

  /** The last document of its key in the list. */
  ghost predicate LastOf(documents: seq<Document>, key: string, d: Document) {
    exists i :: 0 <= i < |documents| && documents[i] == d && d.key == key
      && forall j :: i < j < |documents| ==> documents[j].key != key
  }

  lemma LastOfGrows(documents: seq<Document>, key: string, d: Document)
    requires documents != [] && documents[|documents| - 1].key != key && LastOf(documents[..|documents| - 1], key, d)
    ensures LastOf(documents, key, d)
  {
    var n := |documents| - 1;
    var k :| 0 <= k < n && documents[..n][k] == d && d.key == key && forall j :: k < j < n ==> documents[..n][j].key != key;
    assert documents[k] == d && forall j :: k < j < n ==> documents[j].key == documents[..n][j].key;
  }

  lemma {:induction false} DocumentIsLast(documents: seq<Document>, key: string)
    requires HasKey(documents, key)
    ensures LastOf(documents, key, DocumentOf(documents, key))
    decreases |documents|
  {
    hide LastOf;
    var n := |documents| - 1;
    if documents[n].key == key {
      assert LastOf(documents, key, documents[n]) by { LastIsLast(documents); }
    } else {
      var i :| 0 <= i < |documents| && documents[i].key == key;
      assert documents[..n][i].key == key;
      DocumentIsLast(documents[..n], key);
      LastOfGrows(documents, key, DocumentOf(documents[..n], key));
    }
  }

  lemma LastIsLast(documents: seq<Document>)
    requires documents != []
    ensures LastOf(documents, documents[|documents| - 1].key, documents[|documents| - 1])
  {
  }

  lemma {:induction false} ScoreIsOfLast(queryTokens: set<string>, documents: seq<Document>, key: string)
    requires HasKey(documents, key)
    ensures var d, scores := DocumentOf(documents, key), LexicalScores(queryTokens, documents);
            key in scores && scores[key] == Jaccard(queryTokens, d.tokens)
    decreases |documents|
  {
    hide Jaccard;
    var n := |documents| - 1;
    if documents[n].key != key {
      var i :| 0 <= i < |documents| && documents[i].key == key;
      assert documents[..n][i].key == key;
      ScoreIsOfLast(queryTokens, documents[..n], key);
    }
  }

  lemma LastCounts(queryTokens: set<string>, documents: seq<Document>, key: string)
    requires HasKey(documents, key)
    ensures var d, scores := DocumentOf(documents, key), LexicalScores(queryTokens, documents);
            LastOf(documents, key, d) && key in scores && scores[key] == Jaccard(queryTokens, d.tokens)
  {
    hide Jaccard, DocumentOf, LexicalScores;
    DocumentIsLast(documents, key);
    ScoreIsOfLast(queryTokens, documents, key);
  }

  // ---------------------------------------------------------------- similarity of token sets

  lemma PartIsNoLarger(part: set<string>, whole: set<string>)
    requires part <= whole
    ensures |part| <= |whole| && (part != {} ==> |part| > 0)
  {
    assert whole == part + (whole - part);
    assert |whole| == |part| + |whole - part|;
  }

  lemma QuotientMeans(x: real, y: real)
    requires 0.0 <= x <= y && 0.0 < y
    ensures (x / y) * y == x && 0.0 <= x / y <= 1.0 && (x / y > 0.0 <==> x > 0.0)
  {
  }

  /** The score is the shared part of the two token sets, none when they share nothing. */
  lemma JaccardMeans(left: set<string>, right: set<string>)
    ensures Jaccard(left, right) * |left + right| as real == |left * right| as real
    ensures 0.0 <= Jaccard(left, right) <= 1.0 && (Jaccard(left, right) > 0.0 <==> left * right != {})
  {
    PartIsNoLarger(left * right, left + right);
    if left + right != {} {
      PartIsNoLarger(left + right, left + right);
      QuotientMeans(|left * right| as real, |left + right| as real);
    }
  }

  /** Compared without dividing: a shares more with the query than b does. */
  predicate Closer(queryTokens: set<string>, a: set<string>, b: set<string>) {
    |queryTokens * a| * |queryTokens + b| > |queryTokens * b| * |queryTokens + a|
  }

  lemma CrossMultiplied(p: real, x: real, m: real, q: real, y: real, n: real)
    requires m > 0.0 && n > 0.0 && p * m == x && q * n == y
    ensures p > q <==> x * n > y * m
  {
    assert x * n == p * (m * n) && y * m == q * (m * n);
    assert m * n > 0.0;
    if p > q { assert (p - q) * (m * n) > 0.0; }
    if p <= q { assert (q - p) * (m * n) >= 0.0; }
  }

  lemma JaccardCompares(queryTokens: set<string>, a: set<string>, b: set<string>)
    requires queryTokens * a != {} && queryTokens * b != {}
    ensures Jaccard(queryTokens, a) > Jaccard(queryTokens, b) <==> Closer(queryTokens, a, b)
  {
    hide Jaccard;
    JaccardMeans(queryTokens, a);
    JaccardMeans(queryTokens, b);
    PartIsNoLarger(queryTokens * a, queryTokens + a);
    PartIsNoLarger(queryTokens * b, queryTokens + b);
    var x, m, y, n := |queryTokens * a|, |queryTokens + a|, |queryTokens * b|, |queryTokens + b|;
    CrossMultiplied(Jaccard(queryTokens, a), x as real, m as real, Jaccard(queryTokens, b), y as real, n as real);
    assert x as real * n as real == (x * n) as real && y as real * m as real == (y * m) as real;
  }

  // ---------------------------------------------------------------- the three rankings

  lemma HeadCounts(head: string, kept: bool, rest: seq<string>, key: string)
    ensures multiset((if kept then [head] else []) + rest)[key] == (if kept && head == key then 1 else 0) + multiset(rest)[key]
  {
  }

  lemma {:induction false} PositiveCounts(scores: map<string, real>, keys: seq<string>, key: string)
    ensures multiset(AboveZero(scores, keys))[key] == if ScoreOf(scores, key) > 0.0 then multiset(keys)[key] else 0
    decreases |keys|
  {
    hide ScoreOf;
    if keys != [] {
      PositiveCounts(scores, keys[1..], key);
      assert keys == [keys[0]] + keys[1..];
      HeadCounts(keys[0], true, keys[1..], key);
      HeadCounts(keys[0], ScoreOf(scores, keys[0]) > 0.0, AboveZero(scores, keys[1..]), key);
    }
  }

  lemma {:induction false} SimilarCounts(scores: map<string, real>, keys: seq<string>, key: string)
    ensures multiset(AboveThreshold(scores, keys))[key] == if ScoreOf(scores, key) >= 0.55 then multiset(keys)[key] else 0
    decreases |keys|
  {
    hide ScoreOf;
    if keys != [] {
      SimilarCounts(scores, keys[1..], key);
      assert keys == [keys[0]] + keys[1..];
      HeadCounts(keys[0], true, keys[1..], key);
      HeadCounts(keys[0], ScoreOf(scores, keys[0]) >= SEMANTIC_THRESHOLD, AboveThreshold(scores, keys[1..]), key);
    }
  }

  lemma {:induction false} FilterKeepsOrder(scores: map<string, real>, keys: seq<string>)
    requires Ordered(scores, keys)
    ensures Ordered(scores, AboveZero(scores, keys)) && Ordered(scores, AboveThreshold(scores, keys))
    decreases |keys|
  {
    if keys != [] {
      FilterKeepsOrder(scores, keys[1..]);
      forall key | key in keys[1..]
        ensures keys[0] == key || Before(scores, keys[0], key)
      {
      }
      forall i | 0 <= i < |AboveZero(scores, keys[1..])|
        ensures AboveZero(scores, keys[1..])[i] in keys[1..]
      {
        FilteredKeys(scores, keys[1..], AboveZero(scores, keys[1..])[i]);
      }
      forall i | 0 <= i < |AboveThreshold(scores, keys[1..])|
        ensures AboveThreshold(scores, keys[1..])[i] in keys[1..]
      {
        FilteredKeys(scores, keys[1..], AboveThreshold(scores, keys[1..])[i]);
      }
    }
  }

  /** The last document of this key shares a token with the query. */
  ghost predicate Matches(queryTokens: set<string>, documents: seq<Document>, key: string) {
    HasKey(documents, key) && queryTokens * DocumentOf(documents, key).tokens != {}
  }

  /** Of two documents that match the query, a is ranked before b. */
  ghost predicate BetterMatch(queryTokens: set<string>, a: Document, b: Document) {
    Closer(queryTokens, a.tokens, b.tokens) || (!Closer(queryTokens, b.tokens, a.tokens) && Alphabetical(a.key, b.key))
  }

  lemma {:induction false} LexicalMember(queryTokens: set<string>, documents: seq<Document>,
      semantics: Semantics, key: string)
    ensures multiset(Rankings(queryTokens, documents, semantics)[0])[key]
            == if Matches(queryTokens, documents, key) then multiset(Keys(documents))[key] else 0
  {
    hide Jaccard, Sort, DocumentOf;
    var scores, keys := LexicalScores(queryTokens, documents), Keys(documents);
    PositiveCounts(scores, Sort(scores, keys), key);
    if HasKey(documents, key) {
      LastCounts(queryTokens, documents, key);
      JaccardMeans(queryTokens, DocumentOf(documents, key).tokens);
    } else {
      ScoredKeysAreKeys(queryTokens, documents, key);
    }
  }

  /**
   The lexical ranking has the key of every document whose key's last document shares a token with the query,
   as often as documents have it, and no other; the closer match comes first, equal ones by key.
   */
  lemma {:induction false} LexicalRankingMeans(queryTokens: set<string>, documents: seq<Document>, semantics: Semantics)
    ensures var r := Rankings(queryTokens, documents, semantics)[0];
            && (forall key :: multiset(r)[key] ==
                  if Matches(queryTokens, documents, key) then multiset(Keys(documents))[key] else 0)
            && (forall i :: 0 <= i < |r| ==> HasKey(documents, r[i]) && LastOf(documents, r[i], DocumentOf(documents, r[i])))
            && (forall i, j :: 0 <= i < j < |r| && r[i] != r[j] ==>
                  BetterMatch(queryTokens, DocumentOf(documents, r[i]), DocumentOf(documents, r[j])))
  {
    hide Jaccard, Sort, DocumentOf, LexicalScores, Keys, BetterMatch, AboveZero, AboveThreshold, PriorRanking;
    var r := Rankings(queryTokens, documents, semantics)[0];
    forall key
      ensures multiset(r)[key] ==
                if Matches(queryTokens, documents, key) then multiset(Keys(documents))[key] else 0
    {
      LexicalMember(queryTokens, documents, semantics, key);
    }
    forall i | 0 <= i < |r|
      ensures HasKey(documents, r[i]) && queryTokens * DocumentOf(documents, r[i]).tokens != {}
      ensures LastOf(documents, r[i], DocumentOf(documents, r[i]))
    {
      assert r[i] in multiset(r);
      LexicalMember(queryTokens, documents, semantics, r[i]);
      LastCounts(queryTokens, documents, r[i]);
    }
    forall i, j | 0 <= i < j < |r| && r[i] != r[j]
      ensures BetterMatch(queryTokens, DocumentOf(documents, r[i]), DocumentOf(documents, r[j]))
    {
      LexicalOrder(queryTokens, documents, semantics, i, j);
    }
  }

  lemma {:induction false} LexicalOrder(queryTokens: set<string>, documents: seq<Document>,
      semantics: Semantics, i: nat, j: nat)
    requires var r := Rankings(queryTokens, documents, semantics)[0];
             && i < j < |r| && r[i] != r[j] && HasKey(documents, r[i]) && HasKey(documents, r[j])
             && queryTokens * DocumentOf(documents, r[i]).tokens != {} && queryTokens * DocumentOf(documents, r[j]).tokens != {}
    ensures var r := Rankings(queryTokens, documents, semantics)[0];
            BetterMatch(queryTokens, DocumentOf(documents, r[i]), DocumentOf(documents, r[j]))
  {
    hide Jaccard, Sort, DocumentOf, LexicalScores, Keys, AboveZero, AboveThreshold, PriorRanking, Closer, Alphabetical, KeyLess;
    var r, scores := Rankings(queryTokens, documents, semantics)[0], LexicalScores(queryTokens, documents);
    SortOrders(scores, Keys(documents));
    FilterKeepsOrder(scores, Sort(scores, Keys(documents)));
    LastCounts(queryTokens, documents, r[i]);
    LastCounts(queryTokens, documents, r[j]);
    var a, b := DocumentOf(documents, r[i]), DocumentOf(documents, r[j]);
    JaccardCompares(queryTokens, a.tokens, b.tokens);
    JaccardCompares(queryTokens, b.tokens, a.tokens);
    KeyLessMeans(a.key, b.key);
  }

  /**
   The semantic ranking, when there are similarities, has every document's key whose similarity is at least
   0.55, the most similar first, equal ones by key; without similarities it is empty.
   */
  lemma {:induction false} SemanticRankingMeans(queryTokens: set<string>, documents: seq<Document>,
      semantics: Semantics)
    ensures var r := Rankings(queryTokens, documents, semantics)[1];
            if !semantics.Similarities? then r == []
            else
              var scores := semantics.scores;
              && (forall key :: multiset(r)[key] ==
                    if key in scores && scores[key] >= 0.55 then multiset(Keys(documents))[key] else 0)
              && (forall i :: 0 <= i < |r| ==> r[i] in scores)
              && (forall i, j :: 0 <= i < j < |r| && r[i] != r[j] ==>
                    scores[r[i]] > scores[r[j]] || (scores[r[i]] == scores[r[j]] && Alphabetical(r[i], r[j])))
  {
    hide Jaccard, Sort, LexicalScores, Keys, AboveZero, AboveThreshold, PriorRanking, KeyLess, Alphabetical;
    if semantics.Similarities? {
      var r, scores := Rankings(queryTokens, documents, semantics)[1], semantics.scores;
      SortOrders(scores, Keys(documents));
      FilterKeepsOrder(scores, Sort(scores, Keys(documents)));
      forall key
        ensures multiset(r)[key] == if key in scores && scores[key] >= 0.55 then multiset(Keys(documents))[key] else 0
      {
        SimilarCounts(scores, Sort(scores, Keys(documents)), key);
      }
      forall i | 0 <= i < |r| ensures r[i] in scores { assert r[i] in multiset(r); }
      forall i, j | 0 <= i < j < |r|
        ensures KeyLess(r[i], r[j]) <==> Alphabetical(r[i], r[j])
      {
        KeyLessMeans(r[i], r[j]);
      }
    }
  }

  ghost predicate HigherPrior(a: Document, b: Document) {
    a.priorScore > b.priorScore || (a.priorScore == b.priorScore && (a.key == b.key || Alphabetical(a.key, b.key)))
  }

  ghost predicate ByPrior(documents: seq<Document>) {
    forall i, j :: 0 <= i < j < |documents| ==> HigherPrior(documents[i], documents[j])
  }

  lemma PriorTotal(a: Document, b: Document)
    ensures PriorBefore(a, b) ==> HigherPrior(a, b)
    ensures !PriorBefore(a, b) ==> HigherPrior(b, a)
  {
    KeyLessMeans(a.key, b.key);
    KeyLessMeans(b.key, a.key);
    KeyLessTotal(a.key, b.key);
  }

  lemma HigherPriorTransitive(a: Document, b: Document, c: Document)
    requires HigherPrior(a, b) && HigherPrior(b, c)
    ensures HigherPrior(a, c)
  {
    KeyLessMeans(a.key, b.key);
    KeyLessMeans(b.key, c.key);
    KeyLessMeans(a.key, c.key);
    if KeyLess(a.key, b.key) && KeyLess(b.key, c.key) { KeyLessTransitive(a.key, b.key, c.key); }
  }

  lemma {:induction false} InsertedByPrior(d: Document, documents: seq<Document>)
    requires ByPrior(documents)
    ensures ByPrior(InsertByPrior(d, documents)) && multiset(InsertByPrior(d, documents)) == multiset(documents) + multiset{d}
    decreases |documents|
  {
    hide HigherPrior, PriorBefore;
    if documents != [] {
      PriorTotal(d, documents[0]);
      assert documents == [documents[0]] + documents[1..];
      if PriorBefore(d, documents[0]) {
        forall j | 1 <= j < |documents|
          ensures HigherPrior(d, documents[j])
        {
          HigherPriorTransitive(d, documents[0], documents[j]);
        }
      } else {
        InsertedByPrior(d, documents[1..]);
        var rest := InsertByPrior(d, documents[1..]);
        forall j | 0 <= j < |rest|
          ensures HigherPrior(documents[0], rest[j])
        {
          InsertedMembers(d, documents[1..], rest[j]);
          assert rest[j] in rest;
        }
      }
    }
  }

  lemma {:induction false} SortedByPrior(documents: seq<Document>)
    ensures ByPrior(SortByPrior(documents)) && multiset(SortByPrior(documents)) == multiset(documents)
    decreases |documents|
  {
    if documents != [] {
      SortedByPrior(documents[1..]);
      InsertedByPrior(documents[0], SortByPrior(documents[1..]));
      assert documents == [documents[0]] + documents[1..];
    }
  }

  function Positive(documents: seq<Document>): seq<Document> {
    if documents == [] then []
    else (if documents[0].priorScore > 0.0 then [documents[0]] else []) + Positive(documents[1..])
  }

  lemma {:induction false} PositiveKeys(documents: seq<Document>)
    ensures PositivePrior(documents) == Keys(Positive(documents))
    decreases |documents|
  {
    if documents != [] {
      PositiveKeys(documents[1..]);
      KeysJoin([documents[0]], Positive(documents[1..]));
    }
  }

  lemma {:induction false} PositiveCount(documents: seq<Document>, d: Document)
    ensures multiset(Positive(documents))[d] == if d.priorScore > 0.0 then multiset(documents)[d] else 0
    decreases |documents|
  {
    if documents != [] {
      PositiveCount(documents[1..], d);
      assert documents == [documents[0]] + documents[1..];
      assert multiset(documents) == multiset{documents[0]} + multiset(documents[1..]);
    }
  }

  lemma {:induction false} PositiveStayInOrder(documents: seq<Document>)
    requires ByPrior(documents)
    ensures ByPrior(Positive(documents))
    decreases |documents|
  {
    hide HigherPrior;
    if documents != [] {
      PositiveStayInOrder(documents[1..]);
      var rest := Positive(documents[1..]);
      forall j | 0 <= j < |rest|
        ensures HigherPrior(documents[0], rest[j])
      {
        PositiveCount(documents[1..], rest[j]);
        assert rest[j] in multiset(rest);
        assert rest[j] in multiset(documents[1..]);
        var k :| 0 <= k < |documents[1..]| && documents[1..][k] == rest[j];
        assert documents[k + 1] == rest[j];
      }
    }
  }

  /**
   The prior ranking is the keys of exactly the documents with a positive prior score, repeated ones
   included, the highest first, equal ones by key.
   */
  lemma {:induction false} PriorRankingMeans(queryTokens: set<string>, documents: seq<Document>, semantics: Semantics)
      returns (ranked: seq<Document>)
    ensures Rankings(queryTokens, documents, semantics)[2] == Keys(ranked) && ByPrior(ranked)
    ensures forall d :: multiset(ranked)[d] == if d.priorScore > 0.0 then multiset(documents)[d] else 0
  {
    hide ByPrior, Positive;
    SortedByPrior(documents);
    PositiveKeys(SortByPrior(documents));
    PositiveStayInOrder(SortByPrior(documents));
    ranked := Positive(SortByPrior(documents));
    forall d
      ensures multiset(ranked)[d] == if d.priorScore > 0.0 then multiset(documents)[d] else 0
    {
      PositiveCount(SortByPrior(documents), d);
    }
  }

  // ---------------------------------------------------------------- what a place is worth

  /** The share of a ranking in the score of a key: one part in sixty and the place, which counts from one. */
  predicate ShareOf(ranking: seq<string>, key: string, share: real) {
    if key !in ranking then share == 0.0
    else exists p :: 0 <= p < |ranking| && ranking[p] == key && share * (61 + p) as real == 1.0
  }

  lemma {:induction false} GivenIsShare(ranking: seq<string>, key: string)
    requires Distinct(ranking)
    ensures ShareOf(ranking, key, Given(ranking, |ranking|, key))
  {
    if key in ranking {
      var p :| 0 <= p < |ranking| && ranking[p] == key;
      GivenOnce(ranking, |ranking|, key, p);
    } else {
      GivenNothing(ranking, |ranking|, key);
    }
  }

  /** With distinct keys the fused score shown for a key is the sum of its shares in the three rankings. */
  lemma {:induction false} FusedScoreMeans(queryTokens: set<string>, documents: seq<Document>,
      semantics: Semantics, key: string)
      returns (lexical: real, semantic: real, prior: real)
    requires Distinct(Keys(documents))
    ensures var rankings := Rankings(queryTokens, documents, semantics);
            && ShareOf(rankings[0], key, lexical) && ShareOf(rankings[1], key, semantic) && ShareOf(rankings[2], key, prior)
            && FusedScore(rankings, key) == lexical + semantic + prior
  {
    var rankings := Rankings(queryTokens, documents, semantics);
    RankingsAreDistinct(queryTokens, documents, semantics);
    hide Rankings, Given, Distinct, ShareOf;
    var a, b, c := rankings[0], rankings[1], rankings[2];
    assert AllDistinct(rankings) && |rankings| == 3;
    GivenIsShare(a, key);
    GivenIsShare(b, key);
    GivenIsShare(c, key);
    lexical, semantic, prior := Given(a, |a|, key), Given(b, |b|, key), Given(c, |c|, key);
    assert rankings[..2][..1] == [a] && rankings[..2][1] == b && rankings[..1][..0] == [];
    assert FusedScore(rankings[..2], key) == FusedScore([a], key) + semantic;
    assert [a][..0] == [];
  }

  /**
   What is shown of a key: its last document, how much that shares with the query, its similarity, and the
   fused score.
   */
  lemma {:induction false} ShownMeans(queryTokens: set<string>, documents: seq<Document>, semantics: Semantics,
      rankings: seq<seq<string>>, key: string)
    requires HasKey(documents, key)
    ensures var shown := Shown(queryTokens, documents, semantics, rankings, key);
            var tokens := shown.document.tokens;
            && LastOf(documents, key, shown.document)
            && 0.0 <= shown.lexicalScore <= 1.0
            && shown.lexicalScore * |queryTokens + tokens| as real == |queryTokens * tokens| as real
            && (shown.semanticScore.Some? <==> semantics.Similarities? && key in semantics.scores)
            && (shown.semanticScore.Some? ==> shown.semanticScore.value == semantics.scores[key])
            && shown.fusionScore == FusedScore(rankings, key)
  {
    hide Jaccard, FusedScore, DocumentOf;
    LastCounts(queryTokens, documents, key);
    JaccardMeans(queryTokens, DocumentOf(documents, key).tokens);
  }
}
