/**
 Compaction of observations under a token budget: keep a recent suffix, summarize what is older, and
 give up detail in a fixed order until the estimate fits. The estimator is any function that gives the
 empty list zero tokens.
 */
module ContextCompaction {
  import opened Common

  const PREVIEW_LIMIT: nat := 160

  /** A tool observation; output and error are rendered JSON. */
  datatype Observation = Observation(
    toolCallId: Option<nat>, traceId: Option<nat>, planStepId: Option<nat>,
    toolName: Option<string>, status: Option<string>, output: Option<string>, error: Option<string>)

  /** preview is absent when previews have been given up. */
  datatype SummaryItem = SummaryItem(
    toolCallId: Option<nat>, traceId: Option<nat>, planStepId: Option<nat>,
    toolName: Option<string>, status: Option<string>, preview: Option<Option<string>>)

  /** What the model sees: an observation as it is, or one summary of the older ones. */
  datatype Entry =
    | Raw(observation: Observation)
    | Summary(observationCount: nat, omittedDetailCount: nat, items: seq<SummaryItem>)

  type Estimator = seq<Entry> -> nat

  // ---------------------------------------------------------------- building one form

  function Preview(value: Option<string>): Option<string> {
    match value
    case None => None
    case Some(rendered) =>
      if |rendered| <= PREVIEW_LIMIT then Some(rendered) else Some(rendered[..PREVIEW_LIMIT] + ['\U{2026}'])
  }

  function Summarized(o: Observation, includePreview: bool): SummaryItem {
    SummaryItem(o.toolCallId, o.traceId, o.planStepId, o.toolName, o.status,
                if includePreview then Some(Preview(if o.output.Some? then o.output else o.error)) else None)
  }

  /** The last itemLimit observations in detail, the others only counted. */
  function Summarize(observations: seq<Observation>, includePreview: bool, itemLimit: nat): (s: Entry)
    requires itemLimit <= |observations|
    ensures s.Summary? && s.observationCount == |observations| == s.omittedDetailCount + |s.items| && |s.items| == itemLimit
    ensures forall i :: 0 <= i < |s.items| ==>
              s.items[i] == Summarized(observations[|observations| - itemLimit + i], includePreview)
  {
    var detailed := observations[|observations| - itemLimit..];
    Summary(|observations|, |observations| - |detailed|,
            seq(|detailed|, i requires 0 <= i < |detailed| => Summarized(detailed[i], includePreview)))
  }

  function RawEntries(observations: seq<Observation>): (r: seq<Entry>)
    ensures |r| == |observations| && forall i :: 0 <= i < |r| ==> r[i] == Raw(observations[i])
  {
    seq(|observations|, i requires 0 <= i < |observations| => Raw(observations[i]))
  }

  /** Summarize everything before start, keep the rest. */
  function Form(observations: seq<Observation>, start: nat, includePreview: bool, itemLimit: nat): seq<Entry>
    requires itemLimit <= start <= |observations|
  {
    (if start > 0 then [Summarize(observations[..start], includePreview, itemLimit)] else [])
    + RawEntries(observations[start..])
  }

  // ---------------------------------------------------------------- the order in which forms are tried

  /** First the kept suffix shrinks; then previews go; then summary items, one by one. */
  function FormCount(n: nat, start: nat): nat
    requires start <= n
  {
    (n - start + 1) + (n + 1)
  }

  function FormAt(observations: seq<Observation>, start: nat, k: nat): seq<Entry>
    requires start <= |observations| && k < FormCount(|observations|, start)
  {
    var n := |observations|;
    if k <= n - start then Form(observations, start + k, true, start + k)
    else Form(observations, n, false, n - (k - (n - start + 1)))
  }

  function Range(from: nat, to: nat): (r: seq<nat>)
    requires from <= to
    ensures |r| == to - from && forall i :: 0 <= i < |r| ==> r[i] == from + i
  {
    seq(to - from, i requires 0 <= i < to - from => from + i)
  }

  /** The observations at these indexes; the code indexes the list with them. */
  function Pick(observations: seq<Observation>, indexes: seq<nat>): (r: seq<Observation>)
    requires forall i :: 0 <= i < |indexes| ==> indexes[i] < |observations|
    ensures |r| == |indexes| && forall i :: 0 <= i < |r| ==> r[i] == observations[indexes[i]]
  {
    seq(|indexes|, i requires 0 <= i < |indexes| => observations[indexes[i]])
  }

  // ---------------------------------------------------------------- the search

  predicate Indexes(indexes: seq<nat>, n: nat) {
    forall i :: 0 <= i < |indexes| ==> indexes[i] < n
  }

  /** Append the summary of the removed ones, then the retained ones. */
  method BuildCompactedObservations(
      observations: seq<Observation>, retained: seq<nat>, removed: seq<nat>, includePreview: bool, itemLimit: nat)
      returns (compacted: seq<Entry>)
    requires Indexes(retained, |observations|) && Indexes(removed, |observations|) && itemLimit <= |removed|
    ensures forall start | 0 <= start <= |observations| && removed == Range(0, start) && retained == Range(start, |observations|) ::
              itemLimit <= start && compacted == Form(observations, start, includePreview, itemLimit)
  {
    hide Summarize, RawEntries;
    compacted := [];
    if removed != [] {
      compacted := compacted + [Summarize(Pick(observations, removed), includePreview, itemLimit)];
    }
    compacted := compacted + RawEntries(Pick(observations, retained));
    forall start | 0 <= start <= |observations| && removed == Range(0, start) && retained == Range(start, |observations|)
      ensures itemLimit <= start && compacted == Form(observations, start, includePreview, itemLimit)
    {
      assert Pick(observations, removed) == observations[..start];
      assert Pick(observations, retained) == observations[start..];
    }
  }

  /** Where the suffix that the trimming library keeps begins. */
  function TrimStart(n: nat, trimmedCount: nat): nat
    requires trimmedCount <= n
  {
    n - trimmedCount
  }

  predicate TooLong(observations: seq<Observation>, start: nat, k: nat, budget: nat, estimate: Estimator)
    requires start <= |observations| && k < FormCount(|observations|, start)
  {
    estimate(FormAt(observations, start, k)) > budget
  }

  lemma RangeMoves(start: nat, n: nat)
    requires start < n
    ensures Range(0, start) + [Range(start, n)[0]] == Range(0, start + 1) && Range(start, n)[1..] == Range(start + 1, n)
  {
  }

  /** The state of the search and the place of its next form in the order. */
  predicate Searching(n: nat, first: nat, start: nat, includePreview: bool, itemLimit: nat, tried: nat)
    requires first <= n
  {
    && first <= start <= n && itemLimit <= start && tried < FormCount(n, first)
    && (includePreview ==> itemLimit == start && tried == start - first)
    && (!includePreview ==> start == n && tried == (n - first + 1) + (n - itemLimit))
  }

  lemma NextForm(observations: seq<Observation>, first: nat, start: nat, includePreview: bool, itemLimit: nat,
      tried: nat)
    requires first <= |observations| && Searching(|observations|, first, start, includePreview, itemLimit, tried)
    ensures Form(observations, start, includePreview, itemLimit) == FormAt(observations, first, tried)
  {
  }

  /** The first form from k on whose estimate fits, and nothing at all when none does. */
  function FirstFit(observations: seq<Observation>, start: nat, k: nat, budget: nat,
      estimate: Estimator): (r: seq<Entry>)
    requires start <= |observations| && k <= FormCount(|observations|, start)
    decreases FormCount(|observations|, start) - k
  {
    if k == FormCount(|observations|, start) then []
    else if TooLong(observations, start, k, budget, estimate) then FirstFit(observations, start, k + 1, budget, estimate)
    else FormAt(observations, start, k)
  }

  /** The entries are a form of exactly this split of the observations, or none of them are told. */
  ghost predicate TellsSplit(entries: seq<Entry>, observations: seq<Observation>, removedCount: nat) {
    removedCount <= |observations| &&
    (entries == [] || exists includePreview, itemLimit: nat ::
       itemLimit <= removedCount && entries == Form(observations, removedCount, includePreview, itemLimit))
  }

  /**
   trimmedCount is how many of the latest observations the trimming library keeps. The result is the
   first form in the order above whose estimate fits, and nothing at all only if none does.
   */
  method CompactObservations(observations: seq<Observation>, budget: nat, trimmedCount: nat, estimate: Estimator)
      returns (compacted: seq<Entry>, retained: seq<nat>, removed: seq<nat>, ghost tried: nat)
    requires estimate([]) == 0 && trimmedCount <= |observations|
    ensures estimate(compacted) <= budget
    ensures |removed| >= TrimStart(|observations|, trimmedCount) && |removed| <= |observations|
    ensures removed == Range(0, |removed|) && retained == Range(|removed|, |observations|)
    ensures tried <= FormCount(|observations|, TrimStart(|observations|, trimmedCount))
    ensures forall k :: 0 <= k < tried ==> TooLong(observations, TrimStart(|observations|, trimmedCount), k, budget, estimate)
    ensures compacted == (if tried < FormCount(|observations|, TrimStart(|observations|, trimmedCount))
                          then FormAt(observations, TrimStart(|observations|, trimmedCount), tried) else [])
    ensures if retained != [] then tried == trimmedCount - |retained| else tried >= trimmedCount
  {
    var n := |observations|;
    ghost var first := TrimStart(n, trimmedCount);
    ghost var start: nat := first;
    retained, removed := Range(n - trimmedCount, n), Range(0, n - trimmedCount);
    var includePreview := true;
    var itemLimit: nat := |removed|;
    tried := 0;
    while true
      invariant Searching(n, first, start, includePreview, itemLimit, tried)
      invariant removed == Range(0, start) && retained == Range(start, n)
      invariant forall k :: 0 <= k < tried ==> TooLong(observations, first, k, budget, estimate)
      decreases |retained|, includePreview, itemLimit
    {
      compacted := BuildCompactedObservations(observations, retained, removed, includePreview, itemLimit);
      NextForm(observations, first, start, includePreview, itemLimit, tried);
      if estimate(compacted) <= budget {
        return;
      }
      assert TooLong(observations, first, tried, budget, estimate);
      tried := tried + 1;
      if retained != [] {
        RangeMoves(start, n);
        removed, retained, start := removed + [retained[0]], retained[1..], start + 1;
        itemLimit := |removed|;
      } else if includePreview {
        includePreview := false;
      } else if itemLimit != 0 {
        itemLimit := itemLimit - 1;
      } else {
        compacted := [];
        return;
      }
    }
  }

  /** The first form that fits, found after every earlier one was too long. */
  lemma {:induction false} FoundIsFirst(observations: seq<Observation>, start: nat, k: nat, tried: nat,
      budget: nat, estimate: Estimator)
    requires start <= |observations| && k <= tried <= FormCount(|observations|, start)
    requires forall j :: k <= j < tried ==> TooLong(observations, start, j, budget, estimate)
    requires tried < FormCount(|observations|, start) ==> !TooLong(observations, start, tried, budget, estimate)
    ensures FirstFit(observations, start, k, budget, estimate)
            == if tried < FormCount(|observations|, start) then FormAt(observations, start, tried) else []
    decreases tried - k
  {
    hide FormAt, TooLong;
    if k < tried { FoundIsFirst(observations, start, k + 1, tried, budget, estimate); }
  }

  lemma FormTellsSplit(observations: seq<Observation>, start: nat, tried: nat, removedCount: nat)
    requires start <= removedCount <= |observations| && tried < FormCount(|observations|, start)
    requires if removedCount < |observations| then tried == removedCount - start else tried >= |observations| - start
    ensures TellsSplit(FormAt(observations, start, tried), observations, removedCount)
  {
  }

  // ---------------------------------------------------------------- what any form tells

  function RawCount(entries: seq<Entry>): nat {
    if entries == [] then 0 else RawCount(entries[1..]) + (if entries[0].Raw? then 1 else 0)
  }

  function SummarizedCount(entries: seq<Entry>): nat {
    if entries == [] then 0
    else SummarizedCount(entries[1..]) + (if entries[0].Summary? then entries[0].observationCount else 0)
  }

  lemma {:induction false} RawEntriesCount(observations: seq<Observation>)
    ensures RawCount(RawEntries(observations)) == |observations| && SummarizedCount(RawEntries(observations)) == 0
  {
    if observations != [] {
      RawEntriesCount(observations[1..]);
      assert RawEntries(observations)[1..] == RawEntries(observations[1..]);
    }
  }

  /**
   Every form the search can return accounts for every observation: shown as it is, or counted in the
   summary, where details plus omissions add up to what was summarized.
   */
  lemma FormAccountsForAll(observations: seq<Observation>, start: nat, k: nat)
    requires start <= |observations| && k < FormCount(|observations|, start)
    ensures var entries := FormAt(observations, start, k);
            && RawCount(entries) + SummarizedCount(entries) == |observations|
            && (forall i :: 0 <= i < |entries| && entries[i].Summary? ==>
                  i == 0 && entries[i].observationCount == entries[i].omittedDetailCount + |entries[i].items|)
  {
    var entries := FormAt(observations, start, k);
    var n := |observations|;
    var kept := if k <= n - start then start + k else n;
    RawEntriesCount(observations[kept..]);
    if kept > 0 {
      assert entries[1..] == RawEntries(observations[kept..]);
      assert entries[0].Summary? && entries[0].observationCount == kept;
    } else {
      assert entries == RawEntries(observations[kept..]);
    }
  }

  /** The item identifies the observation; its preview is what came out of it, or its error, cut to 160 characters. */
  predicate Tells(item: SummaryItem, o: Observation, withPreview: bool) {
    && item.toolCallId == o.toolCallId && item.traceId == o.traceId && item.planStepId == o.planStepId
    && item.toolName == o.toolName && item.status == o.status
    && (item.preview.Some? <==> withPreview)
    && (withPreview ==>
          && (item.preview.value.None? <==> o.output.None? && o.error.None?)
          && (item.preview.value.Some? ==>
                var text, shown := if o.output.Some? then o.output.value else o.error.value, item.preview.value.value;
                if |text| <= 160 then shown == text
                else |shown| == 161 && shown[..160] == text[..160] && shown[160] == '\U{2026}'))
  }

  lemma SummarizedTells(o: Observation, withPreview: bool)
    ensures Tells(Summarized(o, withPreview), o, withPreview)
  {
  }

  lemma {:induction false} SummaryTells(older: seq<Observation>, withPreview: bool, limit: nat)
    requires limit <= |older|
    ensures var items := Summarize(older, withPreview, limit).items;
            forall i :: 0 <= i < limit ==> Tells(items[i], older[|older| - limit + i], withPreview)
  {
    hide Summarize, Tells, Summarized;
    forall i | 0 <= i < limit
      ensures Tells(Summarize(older, withPreview, limit).items[i], older[|older| - limit + i], withPreview)
    {
      SummarizedTells(older[|older| - limit + i], withPreview);
    }
  }

  /**
   The k-th form of the order. The suffix shown as it is shrinks by one from form to form until nothing is
   left of it; everything before it is in the summary, in detail and with previews while a suffix is still
   tried, then without previews, then with one item less each time, the oldest going first.
   */
  lemma {:induction false} FormAtMeans(observations: seq<Observation>, start: nat, k: nat)
    requires start <= |observations| && k < FormCount(|observations|, start)
    ensures FormCount(|observations|, start) == 2 * |observations| - start + 2
    ensures var entries, n := FormAt(observations, start, k), |observations|;
            var kept := if k < n - start then n - start - k else 0;
            var detailed := if k <= n - start then n - kept else 2 * n - start + 1 - k;
            && |entries| == kept + (if kept < n then 1 else 0)
            && var tail := entries[|entries| - kept..];
            && (forall i :: 0 <= i < |tail| ==> tail[i] == Raw(observations[n - kept + i]))
            && (kept < n ==>
                  && entries[0].Summary? && entries[0].observationCount == n - kept
                  && |entries[0].items| == detailed && entries[0].omittedDetailCount == n - kept - detailed
                  && forall i :: 0 <= i < detailed ==>
                       Tells(entries[0].items[i], observations[n - kept - detailed + i], k <= n - start))
  {
    hide Summarize, RawEntries, Tells, Summarized;
    var n := |observations|;
    var kept := if k < n - start then n - start - k else 0;
    var detailed := if k <= n - start then n - kept else 2 * n - start + 1 - k;
    var older := observations[..n - kept];
    assert FormAt(observations, start, k) == Form(observations, n - kept, k <= n - start, detailed);
    if kept < n {
      SummaryTells(older, k <= n - start, detailed);
      var items := Summarize(older, k <= n - start, detailed).items;
      forall i | 0 <= i < detailed
        ensures Tells(items[i], observations[n - kept - detailed + i], k <= n - start)
      {
        assert older[|older| - detailed + i] == observations[n - kept - detailed + i];
      }
    }
  }

  predicate SomeFormFits(observations: seq<Observation>, start: nat, budget: nat, estimate: Estimator)
    requires start <= |observations|
  {
    exists k :: 0 <= k < FormCount(|observations|, start) && !TooLong(observations, start, k, budget, estimate)
  }

  lemma {:induction false} FirstFitIsAForm(observations: seq<Observation>, start: nat, k: nat, budget: nat,
      estimate: Estimator)
      returns (found: nat)
    requires start <= |observations| && k <= FormCount(|observations|, start)
    ensures k <= found <= FormCount(|observations|, start)
    ensures forall j :: k <= j < found ==> TooLong(observations, start, j, budget, estimate)
    ensures var r := FirstFit(observations, start, k, budget, estimate);
            if found == FormCount(|observations|, start) then r == []
            else r == FormAt(observations, start, found) && !TooLong(observations, start, found, budget, estimate)
    decreases FormCount(|observations|, start) - k
  {
    hide FormAt, TooLong;
    found := k;
    if k < FormCount(|observations|, start) && TooLong(observations, start, k, budget, estimate) {
      found := FirstFitIsAForm(observations, start, k + 1, budget, estimate);
    }
  }

  /**
   What the search returns accounts for every observation exactly when some form fits: the empty list it
   falls back to tells the model of none of them.
   */
  lemma SearchAccountsForAllIff(observations: seq<Observation>, start: nat, budget: nat, estimate: Estimator)
    requires start <= |observations|
    ensures var r := FirstFit(observations, start, 0, budget, estimate);
            RawCount(r) + SummarizedCount(r) == |observations|
            <==> observations == [] || SomeFormFits(observations, start, budget, estimate)
  {
    var found := FirstFitIsAForm(observations, start, 0, budget, estimate);
    if found < FormCount(|observations|, start) { FormAccountsForAll(observations, start, found); }
  }

  // ---------------------------------------------------------------- the context of one request

  datatype Compaction = Compaction(
    triggered: bool, modelObservations: seq<Entry>, retained: seq<nat>, removed: seq<nat>)

  /** What the model is shown under this budget: everything as it is, or the first form that fits. */
  function Presented(observations: seq<Observation>, budget: nat, trimmedCount: nat, estimate: Estimator): seq<Entry>
    requires trimmedCount <= |observations|
  {
    if estimate(RawEntries(observations)) <= budget then RawEntries(observations)
    else FirstFit(observations, TrimStart(|observations|, trimmedCount), 0, budget, estimate)
  }

  /** compact_agent_context for a nonnegative budget: untouched when everything fits, searched otherwise. */
  method CompactAgentContext(observations: seq<Observation>, budget: nat, trimmedCount: nat, estimate: Estimator)
      returns (c: Compaction)
    requires estimate([]) == 0 && trimmedCount <= |observations|
    ensures estimate(c.modelObservations) <= budget
    ensures c.modelObservations == Presented(observations, budget, trimmedCount, estimate)
    ensures c.triggered <==> estimate(RawEntries(observations)) > budget
    ensures !c.triggered ==> c.removed == []
    ensures c.removed == Range(0, |c.removed|) && |c.removed| <= |observations|
    ensures c.retained == Range(|c.removed|, |observations|)
    ensures TellsSplit(c.modelObservations, observations, |c.removed|)
  {
    if estimate(RawEntries(observations)) <= budget || observations == [] {
      assert observations == [] ==> RawEntries(observations) == [];
      assert Range(0, 0) == [] && observations[0..] == observations;
      assert RawEntries(observations) == Form(observations, 0, true, 0);
      return Compaction(false, RawEntries(observations), Range(0, |observations|), []);
    }
    var compacted, retained, removed;
    ghost var tried;
    compacted, retained, removed, tried := CompactObservations(observations, budget, trimmedCount, estimate);
    FoundIsFirst(observations, TrimStart(|observations|, trimmedCount), 0, tried, budget, estimate);
    if tried < FormCount(|observations|, TrimStart(|observations|, trimmedCount)) {
      FormTellsSplit(observations, TrimStart(|observations|, trimmedCount), tried, |removed|);
    }
    c := Compaction(true, compacted, retained, removed);
  }
}
