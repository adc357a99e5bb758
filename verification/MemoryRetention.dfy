/**
 Task-local retention: one pass over the task's memories from the highest rank down decides what to
 retire, and the retention period decides what to purge.
 */
module MemoryRetention {
  import opened Common
  import opened MemoryRecords

  datatype Retirement = Expired | DuplicateEpisode(representative: nat) | EpisodeCapacity

  /** The accumulators of the pass: decisions, the first memory met with each content, and the kept episodes. */
  datatype Pass = Pass(retire: map<nat, Retirement>, representatives: map<string, nat>, episodes: seq<nat>)

  datatype Plan = Plan(retire: map<nat, Retirement>, purge: seq<nat>)

  datatype Limits = Limits(episodes: nat, retentionDays: nat, purge: bool)

  // ---------------------------------------------------------------- whom a pass concerns

  /** The memories the maintenance query selects. */
  predicate Mine(m: Memory, task: TaskRef) {
    m.contract == task.contract && m.task == Some(task.id) && (m.scope == TaskScope || m.scope == RunScope)
  }

  predicate IsExpired(m: Memory, now: Time) {
    m.status == Active && m.expiresAt.Some? && m.expiresAt.value <= now
  }

  /** An active runtime episode of the task that has not expired. */
  predicate IsEpisode(m: Memory, now: Time) {
    m.status == Active && !IsExpired(m, now) && m.kind == Episodic && m.source == RUNTIME_SOURCE && m.scope == TaskScope
  }

  /** Higher importance first; of equal importance the newer one. */
  predicate RanksAbove(memories: seq<Memory>, a: nat, b: nat)
    requires a < |memories| && b < |memories|
  {
    memories[a].importance > memories[b].importance || (memories[a].importance == memories[b].importance && a > b)
  }

  predicate AreIds(ids: seq<nat>, memories: seq<Memory>) {
    forall i :: 0 <= i < |ids| ==> ids[i] < |memories|
  }

  predicate Ranked(memories: seq<Memory>, ids: seq<nat>)
    requires AreIds(ids, memories)
  {
    forall i, j :: 0 <= i < j < |ids| ==> RanksAbove(memories, ids[i], ids[j])
  }

  predicate Selected(memories: seq<Memory>, task: TaskRef, id: nat) {
    id < |memories| && Mine(memories[id], task)
  }

  /** The ids below n that the query selects, in id order. */
  function Select(memories: seq<Memory>, task: TaskRef, n: nat): (r: seq<nat>)
    requires n <= |memories|
    ensures forall id: nat :: id in r <==> id < n && Selected(memories, task, id)
    ensures forall i, j :: 0 <= i < j < |r| ==> r[i] < r[j]
  {
    if n == 0 then []
    else
      var rest := Select(memories, task, n - 1);
      assert forall i :: 0 <= i < |rest| ==> rest[i] in rest;
      rest + (if Mine(memories[n - 1], task) then [n - 1] else [])
  }

  function InsertByRank(memories: seq<Memory>, id: nat, ids: seq<nat>): (r: seq<nat>)
    requires id < |memories| && AreIds(ids, memories)
    ensures AreIds(r, memories) && forall x: nat :: x in r <==> x in ids || x == id
    decreases |ids|
  {
    if ids == [] || RanksAbove(memories, id, ids[0]) then [id] + ids
    else [ids[0]] + InsertByRank(memories, id, ids[1..])
  }

  lemma {:induction false} InsertKeepsRanked(memories: seq<Memory>, id: nat, ids: seq<nat>)
    requires id < |memories| && AreIds(ids, memories) && Ranked(memories, ids) && id !in ids
    ensures Ranked(memories, InsertByRank(memories, id, ids))
    decreases |ids|
  {
    if ids != [] && !RanksAbove(memories, id, ids[0]) {
      InsertKeepsRanked(memories, id, ids[1..]);
      var rest := InsertByRank(memories, id, ids[1..]);
      forall j | 0 <= j < |rest|
        ensures RanksAbove(memories, ids[0], rest[j])
      {
        assert rest[j] in rest;
        if rest[j] != id {
          var k :| 0 <= k < |ids[1..]| && ids[1..][k] == rest[j];
          assert RanksAbove(memories, ids[0], ids[k + 1]);
        }
      }
    }
  }

  predicate NoRepeats(ids: seq<nat>) {
    forall i, j :: 0 <= i < j < |ids| ==> ids[i] != ids[j]
  }

  /** sorted() by (-importance, -id). */
  function ByRank(memories: seq<Memory>, ids: seq<nat>): (r: seq<nat>)
    requires AreIds(ids, memories) && NoRepeats(ids)
    ensures AreIds(r, memories) && Ranked(memories, r) && forall x: nat :: x in r <==> x in ids
    decreases |ids|
  {
    if ids == [] then []
    else
      InsertKeepsRanked(memories, ids[0], ByRank(memories, ids[1..]));
      InsertByRank(memories, ids[0], ByRank(memories, ids[1..]))
  }

  function TaskIds(s: Store, task: TaskRef): (r: seq<nat>)
    ensures AreIds(r, s.memories) && NoRepeats(r)
    ensures forall id: nat :: id in r <==> Selected(s.memories, task, id)
  {
    var r := Select(s.memories, task, |s.memories|);
    assert forall i :: 0 <= i < |r| ==> r[i] in r;
    r
  }

  function Order(s: Store, task: TaskRef): (r: seq<nat>)
    ensures AreIds(r, s.memories) && Ranked(s.memories, r)
    ensures forall id: nat :: id in r <==> Selected(s.memories, task, id)
  {
    ByRank(s.memories, TaskIds(s, task))
  }

  // ---------------------------------------------------------------- the pass

  /** One memory of the order, given what has been decided about those before it. */
  function Examine(memories: seq<Memory>, p: Pass, id: nat, now: Time): Pass
    requires id < |memories|
  {
    var m := memories[id];
    if IsExpired(m, now) then p.(retire := p.retire[id := Expired])
    else if IsEpisode(m, now) then
      if m.content in p.representatives then
        p.(retire := p.retire[id := DuplicateEpisode(p.representatives[m.content])])
      else p.(representatives := p.representatives[m.content := id], episodes := p.episodes + [id])
    else p
  }

  function Scan(memories: seq<Memory>, order: seq<nat>, now: Time): Pass
    requires AreIds(order, memories)
  {
    if order == [] then Pass(map[], map[], [])
    else Examine(memories, Scan(memories, order[..|order| - 1], now), order[|order| - 1], now)
  }

  function Overflow(episodes: seq<nat>, limit: nat): seq<nat> {
    if limit <= |episodes| then episodes[limit..] else []
  }

  function RetireList(p: Pass, limit: nat): map<nat, Retirement> {
    p.retire + (map id | id in Overflow(p.episodes, limit) :: EpisodeCapacity)
  }

  predicate Purgeable(s: Store, id: nat, limits: Limits, now: Time)
    requires id < |s.memories|
  {
    var m := s.memories[id];
    && limits.purge && m.status == Retired && m.retiredAt.Some? && m.retiredAt.value <= now - limits.retentionDays * DAY
    && (m.kind == Working || m.kind == Episodic) && id !in s.cleaned
  }

  function PurgeList(s: Store, ids: seq<nat>, limits: Limits, now: Time): (r: seq<nat>)
    requires AreIds(ids, s.memories)
    ensures forall id :: id in r <==> id in ids && Purgeable(s, id, limits, now)
  {
    if ids == [] then []
    else (if Purgeable(s, ids[0], limits, now) then [ids[0]] else []) + PurgeList(s, ids[1..], limits, now)
  }

  /** What a maintenance call reports, dry run or not. */
  function PlanOf(s: Store, task: TaskRef, limits: Limits, now: Time): Plan {
    Plan(RetireList(Scan(s.memories, Order(s, task), now), limits.episodes),
         PurgeList(s, TaskIds(s, task), limits, now))
  }

  function ReasonText(r: Retirement): string {
    match r
    case Expired => "expired"
    case DuplicateEpisode(_) => "duplicate_episode"
    case EpisodeCapacity => "episode_capacity"
  }

  function Purged(row: JournalRow, purge: seq<nat>): JournalRow {
    if row.memory.Some? && row.memory.value in purge then row.(content := MARKER, evaluatorOutput := None) else row
  }

  function Maintained(m: Memory, id: nat, plan: Plan, now: Time): Memory {
    if id in plan.retire then m.(status := Retired, retiredAt := Some(now), retirementReason := Some(ReasonText(plan.retire[id])))
    else if id in plan.purge then m.(content := MARKER)
    else m
  }

  function Apply(s: Store, plan: Plan, now: Time): (r: Store)
    requires |s.revisions| == |s.memories|
    ensures |r.memories| == |s.memories| == |r.revisions| && |r.journal| == |s.journal|
  {
    Store(seq(|s.memories|, m requires 0 <= m < |s.memories| => Maintained(s.memories[m], m, plan, now)),
          seq(|s.memories|, m requires 0 <= m < |s.memories| => if m in plan.purge then [] else s.revisions[m]),
          seq(|s.journal|, r requires 0 <= r < |s.journal| => Purged(s.journal[r], plan.purge)),
          s.cleaned + (set id | id in plan.purge))
  }

  function Maintain(s: Store, task: TaskRef, limits: Limits, now: Time): Store
    requires |s.revisions| == |s.memories|
  {
    Apply(s, PlanOf(s, task, limits, now), now)
  }

  // ---------------------------------------------------------------- what the pass decides

  /** The kept episodes: active runtime episodes of the order with pairwise different content, best first. */
  predicate EpisodesOk(memories: seq<Memory>, order: seq<nat>, now: Time, episodes: seq<nat>) {
    && AreIds(episodes, memories) && Ranked(memories, episodes)
    && (forall i :: 0 <= i < |episodes| ==> episodes[i] in order && IsEpisode(memories[episodes[i]], now))
    && (forall i, j :: 0 <= i < j < |episodes| ==> memories[episodes[i]].content != memories[episodes[j]].content)
  }

  predicate KeptWith(memories: seq<Memory>, episodes: seq<nat>, content: string, id: nat)
  {
    id in episodes && id < |memories| && memories[id].content == content
  }

  predicate RepresentativesOk(memories: seq<Memory>, p: Pass) {
    && (forall c :: c in p.representatives ==> KeptWith(memories, p.episodes, c, p.representatives[c]))
    && (forall id: nat :: id in p.episodes && id < |memories| ==> memories[id].content in p.representatives)
  }

  /** Why this memory is on the list so far. */
  predicate RetiredRightly(memories: seq<Memory>, now: Time, p: Pass, id: nat)
    requires id in p.retire
  {
    && id < |memories| && id !in p.episodes
    && (if IsExpired(memories[id], now) then p.retire[id] == Expired
        else IsEpisode(memories[id], now) && p.retire[id].DuplicateEpisode?
             && KeptWith(memories, p.episodes, memories[id].content, p.retire[id].representative)
             && RanksAbove(memories, p.retire[id].representative, id))
  }

  /** Expired memories are on the list, and every episode is kept or on it. */
  predicate Decided(memories: seq<Memory>, now: Time, p: Pass, id: nat) {
    id < |memories| ==>
      && (IsExpired(memories[id], now) ==> id in p.retire)
      && (IsEpisode(memories[id], now) ==> id in p.episodes || id in p.retire)
  }

  predicate PassOk(memories: seq<Memory>, order: seq<nat>, now: Time, p: Pass) {
    && EpisodesOk(memories, order, now, p.episodes)
    && RepresentativesOk(memories, p)
    && (forall id :: id in p.retire ==> id in order && RetiredRightly(memories, now, p, id))
    && (forall i :: 0 <= i < |order| ==> Decided(memories, now, p, order[i]))
  }

  lemma {:induction false} ScanOk(memories: seq<Memory>, order: seq<nat>, now: Time)
    requires AreIds(order, memories) && Ranked(memories, order)
    ensures PassOk(memories, order, now, Scan(memories, order, now))
    decreases |order|
  {
    if order != [] {
      ScanOk(memories, order[..|order| - 1], now);
      ScanStepOk(memories, order, now);
    }
  }

  lemma LastIsNew(memories: seq<Memory>, order: seq<nat>)
    requires order != [] && AreIds(order, memories) && Ranked(memories, order)
    ensures var rest, id := order[..|order| - 1], order[|order| - 1];
            id !in rest && forall x: nat :: x in rest ==> x < |memories| && RanksAbove(memories, x, id)
  {
  }

  predicate NewLowest(memories: seq<Memory>, rest: seq<nat>, id: nat) {
    id < |memories| && id !in rest && forall x: nat :: x in rest ==> x < |memories| && RanksAbove(memories, x, id)
  }

  lemma ExamineKeepsEpisodes(memories: seq<Memory>, rest: seq<nat>, p: Pass, id: nat, now: Time)
    requires PassOk(memories, rest, now, p) && NewLowest(memories, rest, id)
    ensures EpisodesOk(memories, rest + [id], now, Examine(memories, p, id, now).episodes)
  {
  }

  lemma ExamineKeepsRepresentatives(memories: seq<Memory>, rest: seq<nat>, p: Pass, id: nat, now: Time)
    requires PassOk(memories, rest, now, p) && NewLowest(memories, rest, id)
    ensures RepresentativesOk(memories, Examine(memories, p, id, now))
  {
  }

  lemma ExamineKeepsRetired(memories: seq<Memory>, rest: seq<nat>, p: Pass, id: nat, now: Time)
    requires PassOk(memories, rest, now, p) && NewLowest(memories, rest, id)
    ensures var p' := Examine(memories, p, id, now);
            forall x :: x in p'.retire ==> x in rest + [id] && RetiredRightly(memories, now, p', x)
  {
  }

  lemma {:induction false} ScanStepOk(memories: seq<Memory>, order: seq<nat>, now: Time)
    requires order != [] && AreIds(order, memories) && Ranked(memories, order)
    requires PassOk(memories, order[..|order| - 1], now, Scan(memories, order[..|order| - 1], now))
    ensures PassOk(memories, order, now, Scan(memories, order, now))
  {
    var last := |order| - 1;
    var rest, id := order[..last], order[last];
    var p, p' := Scan(memories, rest, now), Scan(memories, order, now);
    LastIsNew(memories, order);
    assert order == rest + [id] && p' == Examine(memories, p, id, now);
    ExamineKeepsEpisodes(memories, rest, p, id, now);
    ExamineKeepsRepresentatives(memories, rest, p, id, now);
    ExamineKeepsRetired(memories, rest, p, id, now);
    forall i | 0 <= i < |order|
      ensures Decided(memories, now, p', order[i])
    {
      if i < last { assert Decided(memories, now, p, rest[i]); }
    }
  }

  // ---------------------------------------------------------------- what one maintenance leaves behind

  predicate ActiveEpisode(s: Store, task: TaskRef, now: Time, id: nat) {
    Selected(s.memories, task, id) && IsEpisode(s.memories[id], now)
  }

  /** The episodes a maintenance keeps: the best ones, up to the limit. */
  function Kept(s: Store, task: TaskRef, limit: nat, now: Time): (r: seq<nat>)
    ensures |r| <= limit && AreIds(r, s.memories)
  {
    var episodes := Scan(s.memories, Order(s, task), now).episodes;
    ScanOk(s.memories, Order(s, task), now);
    if limit <= |episodes| then episodes[..limit] else episodes
  }

  lemma KeptOrOverflow(episodes: seq<nat>, limit: nat, id: nat)
    requires NoRepeats(episodes)
    ensures id in episodes <==> id in (if limit <= |episodes| then episodes[..limit] else episodes) || id in Overflow(episodes, limit)
    ensures !(id in (if limit <= |episodes| then episodes[..limit] else episodes) && id in Overflow(episodes, limit))
  {
  }

  lemma RankedNoRepeats(memories: seq<Memory>, ids: seq<nat>)
    requires AreIds(ids, memories) && Ranked(memories, ids)
    ensures NoRepeats(ids)
  {
  }

  /** Who is on the retire list, in terms of the store alone and the kept episodes. */
  lemma RetireListMeans(s: Store, task: TaskRef, limits: Limits, now: Time, id: nat)
    ensures var retire := PlanOf(s, task, limits, now).retire;
            && (id in retire ==> Selected(s.memories, task, id) && s.memories[id].status == Active
                                 && (IsExpired(s.memories[id], now) || IsEpisode(s.memories[id], now)))
            && (id < |s.memories| && IsExpired(s.memories[id], now) && Selected(s.memories, task, id) ==> id in retire)
            && (ActiveEpisode(s, task, now, id) ==> (id in retire <==> id !in Kept(s, task, limits.episodes, now)))
            && (id in Kept(s, task, limits.episodes, now) ==> ActiveEpisode(s, task, now, id))
  {
    var order := Order(s, task);
    var p := Scan(s.memories, order, now);
    ScanOk(s.memories, order, now);
    RankedNoRepeats(s.memories, p.episodes);
    KeptOrOverflow(p.episodes, limits.episodes, id);
    if id in order {
      var i :| 0 <= i < |order| && order[i] == id;
      assert Decided(s.memories, now, p, order[i]);
    }
    if id in p.episodes {
      var i :| 0 <= i < |p.episodes| && p.episodes[i] == id;
    }
    if id in p.retire { assert RetiredRightly(s.memories, now, p, id); }
  }

  lemma PurgeListMeans(s: Store, task: TaskRef, limits: Limits, now: Time, id: nat)
    ensures id in PlanOf(s, task, limits, now).purge <==> Selected(s.memories, task, id) && Purgeable(s, id, limits, now)
  {
  }

  /** Memories of other tasks, and facts that have not expired, are left as they are; so is everything not planned. */
  lemma MaintenanceLeavesAlone(s: Store, task: TaskRef, limits: Limits, now: Time, id: nat)
    requires |s.revisions| == |s.memories| && id < |s.memories|
    requires || !Mine(s.memories[id], task)
             || (s.memories[id].kind == Fact && !IsExpired(s.memories[id], now))
             || (id !in PlanOf(s, task, limits, now).retire && id !in PlanOf(s, task, limits, now).purge)
    ensures var after := Maintain(s, task, limits, now);
            after.memories[id] == s.memories[id] && after.revisions[id] == s.revisions[id]
  {
    RetireListMeans(s, task, limits, now, id);
    PurgeListMeans(s, task, limits, now, id);
  }

  lemma MaintainedEpisode(s: Store, task: TaskRef, limits: Limits, now: Time, id: nat)
    requires |s.revisions| == |s.memories|
    ensures var after := Maintain(s, task, limits, now);
            ActiveEpisode(after, task, now, id) <==> id in Kept(s, task, limits.episodes, now)
  {
    RetireListMeans(s, task, limits, now, id);
    PurgeListMeans(s, task, limits, now, id);
  }

  predicate RetiredForCapacity(plan: Plan, id: nat) {
    id in plan.retire && plan.retire[id] == EpisodeCapacity
  }

  predicate OutrankedByAll(memories: seq<Memory>, kept: seq<nat>, id: nat)
    requires AreIds(kept, memories)
  {
    id < |memories| && forall i :: 0 <= i < |kept| ==> RanksAbove(memories, kept[i], id)
  }

  lemma CapacityMeansOverflow(memories: seq<Memory>, now: Time, p: Pass, limit: nat, id: nat)
    requires forall x :: x in p.retire ==> RetiredRightly(memories, now, p, x)
    requires id in RetireList(p, limit) && RetireList(p, limit)[id] == EpisodeCapacity
    ensures id in Overflow(p.episodes, limit)
  {
  }

  lemma OverflowIsOutranked(memories: seq<Memory>, episodes: seq<nat>, limit: nat, id: nat)
    requires AreIds(episodes, memories) && Ranked(memories, episodes) && limit <= |episodes| && id in episodes[limit..]
    ensures OutrankedByAll(memories, episodes[..limit], id)
  {
  }

  /** Every kept episode ranks above every one retired for capacity. */
  lemma KeptOutranksCapacity(s: Store, task: TaskRef, limits: Limits, now: Time, id: nat)
    requires RetiredForCapacity(PlanOf(s, task, limits, now), id)
    ensures OutrankedByAll(s.memories, Kept(s, task, limits.episodes, now), id)
  {
    var p := Scan(s.memories, Order(s, task), now);
    ScanOk(s.memories, Order(s, task), now);
    CapacityMeansOverflow(s.memories, now, p, limits.episodes, id);
    OverflowIsOutranked(s.memories, p.episodes, limits.episodes, id);
  }

  lemma KeptAreDistinct(s: Store, task: TaskRef, limit: nat, now: Time, i: nat, j: nat)
    requires i < j < |Kept(s, task, limit, now)|
    ensures var kept := Kept(s, task, limit, now);
            s.memories[kept[i]].content != s.memories[kept[j]].content && RanksAbove(s.memories, kept[i], kept[j])
  {
    ScanOk(s.memories, Order(s, task), now);
  }

  /**
   After maintenance the active runtime episodes of the task are exactly the kept ones: at most the limit,
   with pairwise different content, each ranked above every episode retired for capacity.
   */
  lemma MaintenanceBoundsEpisodes(s: Store, task: TaskRef, limits: Limits, now: Time)
    requires |s.revisions| == |s.memories|
    ensures var after, kept := Maintain(s, task, limits, now), Kept(s, task, limits.episodes, now);
            && |kept| <= limits.episodes
            && (forall id: nat :: ActiveEpisode(after, task, now, id) <==> id in kept)
            && (forall i, j :: 0 <= i < j < |kept| ==> after.memories[kept[i]].content != after.memories[kept[j]].content)
    ensures forall id: nat :: RetiredForCapacity(PlanOf(s, task, limits, now), id) ==>
              OutrankedByAll(s.memories, Kept(s, task, limits.episodes, now), id)
  {
    var after, kept := Maintain(s, task, limits, now), Kept(s, task, limits.episodes, now);
    forall id: nat ensures ActiveEpisode(after, task, now, id) <==> id in kept {
      MaintainedEpisode(s, task, limits, now, id);
    }
    forall i, j | 0 <= i < j < |kept|
      ensures after.memories[kept[i]].content != after.memories[kept[j]].content
    {
      KeptAreDistinct(s, task, limits.episodes, now, i, j);
      KeptKeepsContent(s, task, limits, now, kept[i]);
      KeptKeepsContent(s, task, limits, now, kept[j]);
    }
    forall id: nat | RetiredForCapacity(PlanOf(s, task, limits, now), id)
      ensures OutrankedByAll(s.memories, kept, id)
    {
      KeptOutranksCapacity(s, task, limits, now, id);
    }
  }

  lemma KeptKeepsContent(s: Store, task: TaskRef, limits: Limits, now: Time, id: nat)
    requires |s.revisions| == |s.memories| && id in Kept(s, task, limits.episodes, now)
    ensures id < |s.memories| && Maintain(s, task, limits, now).memories[id] == s.memories[id]
  {
    RetireListMeans(s, task, limits, now, id);
    PurgeListMeans(s, task, limits, now, id);
  }

  // ---------------------------------------------------------------- a second pass finds nothing

  lemma {:induction false} DistinctFit(small: seq<nat>, big: seq<nat>)
    requires NoRepeats(small) && forall id: nat :: id in small ==> id in big
    ensures |small| <= |big|
    decreases |small|
  {
    if small != [] {
      var id := small[|small| - 1];
      assert id in small;
      var k :| 0 <= k < |big| && big[k] == id;
      var rest := big[..k] + big[k + 1..];
      forall x: nat | x in small[..|small| - 1]
        ensures x in rest
      {
        var i :| 0 <= i < |small| - 1 && small[i] == x;
        assert x != id && x in big;
      }
      DistinctFit(small[..|small| - 1], rest);
    }
  }

  /** Two active episodes of the maintained store with the same content are the same memory. */
  lemma MaintainedContentsDiffer(s: Store, task: TaskRef, limits: Limits, now: Time, a: nat, b: nat)
    requires |s.revisions| == |s.memories|
    requires var after := Maintain(s, task, limits, now);
             && ActiveEpisode(after, task, now, a) && ActiveEpisode(after, task, now, b)
             && after.memories[a].content == after.memories[b].content
    ensures a == b
  {
    MaintenanceBoundsEpisodes(s, task, limits, now);
    var kept := Kept(s, task, limits.episodes, now);
    var i :| 0 <= i < |kept| && kept[i] == a;
    var j :| 0 <= j < |kept| && kept[j] == b;
  }

  lemma NothingLeftToRetire(s: Store, task: TaskRef, limits: Limits, now: Time, id: nat)
    requires |s.revisions| == |s.memories|
    ensures id !in Scan(Maintain(s, task, limits, now).memories, Order(Maintain(s, task, limits, now), task), now).retire
  {
    var after := Maintain(s, task, limits, now);
    var order := Order(after, task);
    var p := Scan(after.memories, order, now);
    ScanOk(after.memories, order, now);
    if id in p.retire {
      assert RetiredRightly(after.memories, now, p, id);
      if IsExpired(after.memories[id], now) {
        RetireListMeans(s, task, limits, now, id);
        PurgeListMeans(s, task, limits, now, id);
      } else {
        var other := p.retire[id].representative;
        var i :| 0 <= i < |p.episodes| && p.episodes[i] == other;
        MaintainedContentsDiffer(s, task, limits, now, id, other);
      }
    }
  }

  lemma NothingLeftToPurge(s: Store, task: TaskRef, limits: Limits, now: Time, id: nat)
    requires |s.revisions| == |s.memories| && limits.retentionDays >= 1
    ensures id !in PlanOf(Maintain(s, task, limits, now), task, limits, now).purge
  {
  }

  lemma SomeMember(ids: seq<nat>)
    requires ids != []
    ensures exists id: nat :: id in ids
  {
    assert ids[0] in ids;
  }

  lemma StillKept(s: Store, task: TaskRef, limits: Limits, now: Time)
    requires |s.revisions| == |s.memories|
    ensures var after := Maintain(s, task, limits, now);
            |Scan(after.memories, Order(after, task), now).episodes| <= limits.episodes
  {
    var after := Maintain(s, task, limits, now);
    var p := Scan(after.memories, Order(after, task), now);
    ScanOk(after.memories, Order(after, task), now);
    RankedNoRepeats(after.memories, p.episodes);
    var kept := Kept(s, task, limits.episodes, now);
    forall id: nat | id in p.episodes
      ensures id in kept
    {
      var i :| 0 <= i < |p.episodes| && p.episodes[i] == id;
      assert ActiveEpisode(after, task, now, id);
      MaintainedEpisode(s, task, limits, now, id);
    }
    DistinctFit(p.episodes, kept);
  }

  /** Maintaining again at the same time, with the same limits, retires and purges nothing. */
  lemma SecondPassFindsNothing(s: Store, task: TaskRef, limits: Limits, now: Time)
    requires |s.revisions| == |s.memories| && limits.retentionDays >= 1
    ensures PlanOf(Maintain(s, task, limits, now), task, limits, now) == Plan(map[], [])
  {
    var after := Maintain(s, task, limits, now);
    var plan := PlanOf(after, task, limits, now);
    var p := Scan(after.memories, Order(after, task), now);
    StillKept(s, task, limits, now);
    assert Overflow(p.episodes, limits.episodes) == [];
    forall id: nat ensures id !in p.retire { NothingLeftToRetire(s, task, limits, now, id); }
    assert p.retire == map[];
    assert plan.retire == map[];
    forall id: nat ensures id !in plan.purge { NothingLeftToPurge(s, task, limits, now, id); }
    if plan.purge != [] { SomeMember(plan.purge); }
  }
}
