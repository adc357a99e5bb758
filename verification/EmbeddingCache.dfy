/**
 The persistent embedding cache: read what is stored, ask the delegate for the rest once each, store it
 unless another worker got there first, and answer in the order asked.
 */
module EmbeddingCache {
  import opened Common

  type Vector = seq<real>

  /** Provider version and content hash: unique in the table. */
  datatype Key = Key(version: string, hash: string)

  datatype Usage = Usage(calls: nat, tokens: nat, hits: nat, misses: nat)

  datatype Reply = Raised | Batch(vectors: seq<Vector>, version: string, calls: nat, tokens: nat)

  datatype EmbedError = DelegateRaised | VersionChanged | WrongCount | EmptyVector

  datatype Answer = Embedded(vectors: seq<Vector>, usage: Usage) | Failed(error: EmbedError)

  // ---------------------------------------------------------------- what is asked for

  /** The texts whose hash is not stored, each once: what the delegate is asked for. */
  function Missing(rows: map<Key, Vector>, hash: string -> string, version: string, texts: seq<string>): (r: seq<string>)
    ensures forall t :: t in r <==> t in texts && Key(version, hash(t)) !in rows
    ensures forall i, j :: 0 <= i < j < |r| ==> r[i] != r[j]
    decreases |texts|
  {
    if texts == [] then []
    else
      var rest, last := Missing(rows, hash, version, texts[..|texts| - 1]), texts[|texts| - 1];
      assert texts == texts[..|texts| - 1] + [last];
      if last in rest || Key(version, hash(last)) in rows then rest else rest + [last]
  }

  /** How many of the texts, counted with repetition, are stored. */
  function Hits(rows: map<Key, Vector>, hash: string -> string, version: string, texts: seq<string>): nat {
    if texts == [] then 0
    else Hits(rows, hash, version, texts[..|texts| - 1])
         + (if Key(version, hash(texts[|texts| - 1])) in rows then 1 else 0)
  }

  /** How many of the texts are in this list, counted with repetition. */
  function Occurrences(texts: seq<string>, missing: seq<string>): nat {
    if texts == [] then 0
    else Occurrences(texts[..|texts| - 1], missing) + (if texts[|texts| - 1] in missing then 1 else 0)
  }

  lemma {:induction false} OccurrencesAgree(texts: seq<string>, missing: seq<string>, more: seq<string>)
    requires forall t :: t in texts ==> (t in missing <==> t in more)
    ensures Occurrences(texts, missing) == Occurrences(texts, more)
    decreases |texts|
  {
    if texts != [] { OccurrencesAgree(texts[..|texts| - 1], missing, more); }
  }

  /** Hits plus the occurrences of the texts asked for make up the whole input. */
  lemma {:induction false} HitsAndMissesCoverTheInput(rows: map<Key, Vector>, hash: string -> string, version: string, texts: seq<string>)
    ensures Hits(rows, hash, version, texts) + Occurrences(texts, Missing(rows, hash, version, texts)) == |texts|
    decreases |texts|
  {
    if texts != [] {
      var front := texts[..|texts| - 1];
      HitsAndMissesCoverTheInput(rows, hash, version, front);
      OccurrencesAgree(front, Missing(rows, hash, version, front), Missing(rows, hash, version, texts));
    }
  }

  /** Why a reply is refused, in the order of the checks. */
  function Objection(reply: Reply, version: string, asked: nat): Option<EmbedError> {
    if reply.Raised? then Some(DelegateRaised)
    else if reply.version != version then Some(VersionChanged)
    else if |reply.vectors| != asked then Some(WrongCount)
    else if [] in reply.vectors then Some(EmptyVector)
    else None
  }

  /** A reply that gives no vector for each of the asked texts under the version asked for. */
  predicate Unusable(reply: Reply, version: string, asked: nat) {
    reply.Batch? ==>
      || reply.version != version || |reply.vectors| != asked
      || exists i :: 0 <= i < |reply.vectors| && |reply.vectors[i]| == 0
  }

  // ---------------------------------------------------------------- the cache

  /** The vector of a text under a version: what a delegate that embeds text by text returns. */
  type Meaning = (string, string) -> Vector

  ghost predicate Faithful(delegate: seq<string> -> Reply, version: string, meaning: Meaning) {
    forall texts {:trigger delegate(texts)} ::
      delegate(texts).Batch? && delegate(texts).version == version && |delegate(texts).vectors| == |texts| ==>
        forall i :: 0 <= i < |texts| ==> delegate(texts).vectors[i] == meaning(version, texts[i])
  }

  ghost predicate CollisionFree(hash: string -> string) {
    forall a, b :: hash(a) == hash(b) ==> a == b
  }

  ghost predicate RowsMean(rows: map<Key, Vector>, hash: string -> string, meaning: Meaning) {
    forall version, text :: Key(version, hash(text)) in rows ==> rows[Key(version, hash(text))] == meaning(version, text)
  }

  class RetrievalEmbeddingCache {
    const hash: string -> string
    ghost const meaning: Meaning

    /** The table, shared with every other worker. */
    var rows: map<Key, Vector>
    /**
     The texts the delegate has answered for, in order; whether any insert has been lost to another worker;
     and whether any answer has been refused.
     */
    ghost var embedded: seq<(string, string)>
    ghost var raced: bool
    ghost var refused: bool

    ghost predicate Valid()
      reads this
    {
      Holding(map[])
    }

    /** The entries are fetched and not yet stored. */
    ghost predicate Holding(entries: map<Key, Vector>)
      reads this
    {
      && CollisionFree(hash) && RowsMean(rows, hash, meaning)
      && (!raced && !refused ==> AskedOnce() && forall i :: 0 <= i < |embedded| ==>
            Key(embedded[i].0, hash(embedded[i].1)) in rows || Key(embedded[i].0, hash(embedded[i].1)) in entries)
    }

    /** The delegate has answered for no text of a version twice. */
    ghost predicate AskedOnce()
      reads this
    {
      forall i, j :: 0 <= i < j < |embedded| ==> embedded[i] != embedded[j]
    }

    /** A cache in front of a table that earlier processes may have filled. */
    constructor (hash: string -> string, ghost meaning: Meaning, rows: map<Key, Vector>)
      requires CollisionFree(hash) && RowsMean(rows, hash, meaning)
      ensures Valid() && this.hash == hash && this.meaning == meaning && this.rows == rows
      ensures embedded == [] && !raced && !refused
    {
      this.hash, this.meaning, this.rows := hash, meaning, rows;
      embedded, raced, refused := [], false, false;
    }

    /** The vectors to store for the texts just embedded; an empty vector is refused before anything is stored. */
    method NewEntries(version: string, missing: seq<string>, vectors: seq<Vector>)
        returns (entries: map<Key, Vector>, ok: bool)
      requires |vectors| == |missing|
      requires CollisionFree(hash) && forall i, j :: 0 <= i < j < |missing| ==> missing[i] != missing[j]
      ensures ok <==> forall i :: 0 <= i < |vectors| ==> vectors[i] != []
      ensures ok ==> (forall i :: 0 <= i < |missing| ==>
                        Key(version, hash(missing[i])) in entries && entries[Key(version, hash(missing[i]))] == vectors[i])
      ensures ok ==> forall k :: k in entries ==> exists i :: 0 <= i < |missing| && k == Key(version, hash(missing[i]))
    {
      entries, ok := map[], true;
      for i := 0 to |missing|
        invariant forall k :: 0 <= k < i ==> vectors[k] != []
        invariant forall k :: 0 <= k < i ==>
                    Key(version, hash(missing[k])) in entries && entries[Key(version, hash(missing[k]))] == vectors[k]
        invariant forall key :: key in entries ==> exists k :: 0 <= k < i && key == Key(version, hash(missing[k]))
      {
        if vectors[i] == [] {
          return entries, false;
        }
        entries := entries[Key(version, hash(missing[i])) := vectors[i]];
      }
    }

    /** Look every text up in what was read and what was embedded. */
    method Collect(version: string, texts: seq<string>, cached: map<Key, Vector>) returns (vectors: seq<Vector>)
      requires forall i :: 0 <= i < |texts| ==> Key(version, hash(texts[i])) in cached
      ensures |vectors| == |texts|
      ensures forall i :: 0 <= i < |texts| ==> vectors[i] == cached[Key(version, hash(texts[i]))]
    {
      vectors := [];
      for i := 0 to |texts|
        invariant |vectors| == i && forall k :: 0 <= k < i ==> vectors[k] == cached[Key(version, hash(texts[k]))]
      {
        vectors := vectors + [cached[Key(version, hash(texts[i]))]];
      }
    }

    method CountHits(version: string, texts: seq<string>) returns (hits: nat)
      ensures hits == Hits(rows, hash, version, texts)
    {
      hits := 0;
      for i := 0 to |texts|
        invariant hits == Hits(rows, hash, version, texts[..i])
      {
        assert texts[..i + 1][..i] == texts[..i];
        if Key(version, hash(texts[i])) in rows { hits := hits + 1; }
      }
      assert texts[..|texts|] == texts;
    }

    /** The entries are exactly for these texts, none of which was stored. */
    ghost predicate EntriesFor(version: string, missing: seq<string>, entries: map<Key, Vector>)
      reads this
    {
      && (forall i, j :: 0 <= i < j < |missing| ==> missing[i] != missing[j])
      && (forall i :: 0 <= i < |missing| ==> Key(version, hash(missing[i])) !in rows)
      && (forall i :: 0 <= i < |missing| ==> Key(version, hash(missing[i])) in entries)
      && (forall k :: k in entries ==> exists i :: 0 <= i < |missing| && k == Key(version, hash(missing[i])))
    }

    /** Insert and commit; a key that a rival has stored meanwhile rolls the whole insert back. */
    method Insert(entries: map<Key, Vector>, rivals: map<Key, Vector>)
      requires Holding(entries) && RowsMean(entries, hash, meaning)
      requires RowsMean(rivals, hash, meaning) && rivals.Keys !! rows.Keys
      modifies this`rows, this`raced
      ensures Valid()
      ensures rows == if entries.Keys !! rivals.Keys then old(rows) + rivals + entries else old(rows) + rivals
      ensures raced == (old(raced) || !(entries.Keys !! rivals.Keys))
    {
      if entries.Keys !! rivals.Keys {
        rows := rows + rivals + entries;
      } else {
        rows := rows + rivals;
        raced := true;
      }
    }

    /**
     rivals are the rows other workers commit between the read and the insert. If one of them has a key of
     ours the whole insert is rolled back; the answer does not depend on it. The delegate is asked for
     exactly the texts that are not stored, and its reply is refused exactly when there is an objection.
     */
    method Embed(version: string, texts: seq<string>, delegate: seq<string> -> Reply, rivals: map<Key, Vector>)
        returns (answer: Answer)
      requires Valid() && Faithful(delegate, version, meaning)
      requires RowsMean(rivals, hash, meaning) && rivals.Keys !! rows.Keys
      modifies this
      ensures Valid()
      ensures answer.Embedded? ==>
                && |answer.vectors| == |texts|
                && forall i :: 0 <= i < |texts| ==> answer.vectors[i] == meaning(version, texts[i])
      ensures var missing := Missing(old(rows), hash, version, texts);
              var objection := if missing == [] then None else Objection(delegate(missing), version, |missing|);
              && (answer.Failed? <==> objection.Some?)
              && (answer.Failed? ==> answer.error == objection.value)
              && embedded == (if objection == Some(DelegateRaised) then old(embedded)
                              else old(embedded) + Labelled(version, missing))
              && refused == (old(refused) || (objection.Some? && objection.value != DelegateRaised))
              && (answer.Embedded? ==>
                    && answer.usage.hits == Hits(old(rows), hash, version, texts) && answer.usage.misses == |missing|
                    && answer.usage.calls == (if missing == [] then 0 else delegate(missing).calls)
                    && answer.usage.tokens == (if missing == [] then 0 else delegate(missing).tokens))
              && (missing == [] ==> answer.Embedded? && rows == old(rows))
      ensures var missing := Missing(old(rows), hash, version, texts);
              answer.Failed? <==> missing != [] && Unusable(delegate(missing), version, |missing|)
      ensures answer.Failed? ==> rows == old(rows) && raced == old(raced)
      ensures !raced && answer.Embedded? ==> forall i :: 0 <= i < |texts| ==> Key(version, hash(texts[i])) in rows
      ensures rivals == map[] ==> raced == old(raced)
      ensures forall k :: k in old(rows) ==> k in rows && rows[k] == old(rows)[k]
    {
      var missing := Missing(rows, hash, version, texts);
      if texts == [] || missing == [] {
        assert embedded == embedded + Labelled(version, []);
        var hits := CountHits(version, texts);
        forall i | 0 <= i < |texts|
          ensures Key(version, hash(texts[i])) in rows
        {
          assert texts[i] in texts && texts[i] !in missing;
        }
        var vectors := Collect(version, texts, rows);
        return Embedded(vectors, Usage(0, 0, hits, 0));
      }
      var hits := CountHits(version, texts);
      var fetched, entries, calls, tokens := Fetch(version, missing, delegate);
      if fetched.Some? { return Failed(fetched.value); }
      var vectors := Answered(version, texts, missing, entries);
      Insert(entries, rivals);
      return Embedded(vectors, Usage(calls, tokens, hits, |missing|));
    }

    /** Ask the delegate for the missing texts and check its reply before anything is stored. */
    method Fetch(version: string, missing: seq<string>, delegate: seq<string> -> Reply)
        returns (error: Option<EmbedError>, entries: map<Key, Vector>, calls: nat, tokens: nat)
      requires Valid() && Faithful(delegate, version, meaning)
      requires forall i, j :: 0 <= i < j < |missing| ==> missing[i] != missing[j]
      requires forall t :: t in missing ==> Key(version, hash(t)) !in rows
      modifies this`embedded, this`refused
      ensures error == Objection(delegate(missing), version, |missing|)
      ensures error.None? ==> EntriesFor(version, missing, entries) && RowsMean(entries, hash, meaning) && Holding(entries)
      ensures error.Some? ==> Valid()
      ensures error.None? ==> calls == delegate(missing).calls && tokens == delegate(missing).tokens
      ensures embedded == (if error == Some(DelegateRaised) then old(embedded)
                           else old(embedded) + Labelled(version, missing))
      ensures refused == (old(refused) || (error.Some? && error.value != DelegateRaised))
    {
      hide Missing, Hits;
      entries, calls, tokens := map[], 0, 0;
      var reply := delegate(missing);
      if reply.Raised? { return Some(DelegateRaised), entries, 0, 0; }
      ghost var before := embedded;
      embedded := embedded + Labelled(version, missing);
      error := Objection(reply, version, |missing|);
      if reply.version != version || |reply.vectors| != |missing| {
        refused := true;
        return;
      }
      var ok;
      entries, ok := NewEntries(version, missing, reply.vectors);
      if !ok {
        refused := true;
        return;
      }
      EntriesMean(version, missing, entries, delegate);
      assert !raced && !refused ==> forall i :: 0 <= i < |before| ==> before[i].0 != version || before[i].1 !in missing;
      return None, entries, reply.calls, reply.tokens;
    }

    /** The answer from the rows read and the entries fetched, which is settled before the insert is tried. */
    method Answered(version: string, texts: seq<string>, missing: seq<string>, entries: map<Key, Vector>)
        returns (vectors: seq<Vector>)
      requires Holding(entries) && EntriesFor(version, missing, entries) && RowsMean(entries, hash, meaning)
      requires missing == Missing(rows, hash, version, texts)
      ensures |vectors| == |texts| && forall i :: 0 <= i < |texts| ==> vectors[i] == meaning(version, texts[i])
      ensures forall i :: 0 <= i < |texts| ==> Key(version, hash(texts[i])) in rows + entries
    {
      var cached := rows + entries;
      forall i | 0 <= i < |texts|
        ensures Key(version, hash(texts[i])) in cached
      {
        assert texts[i] in texts;
        if Key(version, hash(texts[i])) !in rows { assert texts[i] in missing; }
      }
      vectors := Collect(version, texts, cached);
    }

    lemma EntriesMean(version: string, missing: seq<string>, entries: map<Key, Vector>, delegate: seq<string> -> Reply)
      requires CollisionFree(hash) && Faithful(delegate, version, meaning)
      requires delegate(missing).Batch? && delegate(missing).version == version && |delegate(missing).vectors| == |missing|
      requires forall i :: 0 <= i < |missing| ==>
                 Key(version, hash(missing[i])) in entries && entries[Key(version, hash(missing[i]))] == delegate(missing).vectors[i]
      requires forall k :: k in entries ==> exists i :: 0 <= i < |missing| && k == Key(version, hash(missing[i]))
      ensures RowsMean(entries, hash, meaning)
    {
    }
  }

  function Labelled(version: string, texts: seq<string>): (r: seq<(string, string)>)
    ensures |r| == |texts| && forall i :: 0 <= i < |r| ==> r[i] == (version, texts[i])
  {
    seq(|texts|, i requires 0 <= i < |texts| => (version, texts[i]))
  }

  // ---------------------------------------------------------------- a refused reply is paid for again

  function OneVector(version: string, text: string): Vector { if text == "b" then [] else [1.0] }

  /** A delegate that has no vector for one text. */
  function HalfEmpty(texts: seq<string>): Reply {
    Batch(seq(|texts|, i requires 0 <= i < |texts| => OneVector("v", texts[i])), "v", 1, 0)
  }

  function Itself(text: string): string { text }

  lemma HalfEmptyIsFaithful()
    ensures Faithful(HalfEmpty, "v", OneVector) && CollisionFree(Itself)
    ensures Objection(HalfEmpty(["a", "b"]), "v", 2) == Some(EmptyVector) && Objection(HalfEmpty(["a"]), "v", 1) == None
  {
    var vectors := HalfEmpty(["a", "b"]).vectors;
    assert vectors[1] == [] && [] in vectors;
    assert HalfEmpty(["a"]).vectors == [[1.0]];
  }

  lemma NothingStored()
    ensures Missing(map[], Itself, "v", ["a", "b"]) == ["a", "b"] && Missing(map[], Itself, "v", ["a"]) == ["a"]
  {
    assert ["a", "b"][..1] == ["a"] && ["a"][..0] == [];
    assert Missing(map[], Itself, "v", []) == [];
    assert Missing(map[], Itself, "v", ["a"]) == ["a"];
  }

  /**
   Nothing of a refused reply is stored, so a text it did hold a vector for is embedded again by the next
   request, with no race in sight.
   */
  method RefusedReplyIsAskedAgain() returns (cache: RetrievalEmbeddingCache)
    ensures fresh(cache) && !cache.raced && cache.refused && !cache.AskedOnce()
    ensures cache.embedded == [("v", "a"), ("v", "b"), ("v", "a")]
  {
    hide Missing, Hits, HalfEmpty, Objection, Faithful;
    HalfEmptyIsFaithful();
    NothingStored();
    cache := new RetrievalEmbeddingCache(Itself, OneVector, map[]);
    var first := cache.Embed("v", ["a", "b"], HalfEmpty, map[]);
    assert cache.embedded == [("v", "a"), ("v", "b")];
    var second := cache.Embed("v", ["a"], HalfEmpty, map[]);
    assert cache.embedded[0] == cache.embedded[2];
  }
}
