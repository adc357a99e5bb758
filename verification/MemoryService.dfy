/**
 The memory services: rows changed in place, each method tied to the store function it computes. What
 the store functions keep over whole histories is proved in MemoryHistories.
 */
module MemoryService {
  import opened Common
  import opened MemoryRecords
  import opened MemoryRetention
  import Outcomes = MemoryOutcomes

  class AgentMemories {
    var memories: seq<Memory>
    var revisions: seq<seq<Revision>>
    var journal: seq<JournalRow>
    var cleaned: set<nat>

    ghost function State(): Store
      reads this
    {
      Store(memories, revisions, journal, cleaned)
    }

    ghost predicate Valid()
      reads this
    {
      |revisions| == |memories|
    }

    constructor ()
      ensures Valid() && State() == EMPTY
    {
      memories, revisions, journal, cleaned := [], [], [], {};
    }

    // -------------------------------------------------------------- versions

    method AddMemory(m: Memory)
      requires Valid()
      modifies this
      ensures Valid() && State() == WithMemory(old(State()), m)
    {
      memories := memories + [m];
      revisions := revisions + [[]];
      RecordInitialMemoryVersion(|memories| - 1);
      assert revisions[|memories| - 1] == [RevisionOf(m, m.createdAt, None)];
      assert revisions == old(revisions) + [[RevisionOf(m, m.createdAt, None)]];
    }

    method RecordInitialMemoryVersion(id: nat)
      requires Valid() && id < |memories|
      modifies this`revisions
      ensures Valid()
      ensures revisions == old(revisions)[id := old(revisions)[id] + [RevisionOf(memories[id], memories[id].createdAt, None)]]
    {
      revisions := revisions[id := revisions[id] + [RevisionOf(memories[id], memories[id].createdAt, None)]];
    }

    method SupersedeMemory(id: nat, c: Candidate, now: Time)
      requires Valid() && id < |memories|
      modifies this`memories, this`revisions
      ensures Valid() && State() == Supersede(old(State()), id, c, now)
    {
      var chain := revisions[id];
      if chain == [] || chain[|chain| - 1].version != memories[id].version {
        RecordInitialMemoryVersion(id);
      }
      ghost var closed := CloseCurrent(memories[id], chain, now);
      var current := |revisions[id]| - 1;
      revisions := revisions[id := revisions[id][current := revisions[id][current].(validTo := Some(now))]];
      assert revisions[id] == closed;
      var m := memories[id].(version := memories[id].version + 1);
      m := m.(content := c.content, source := c.source, importance := c.importance);
      memories := memories[id := m];
      revisions := revisions[id := revisions[id] + [RevisionOf(m, now, None)]];
      assert revisions == old(revisions)[id := closed + [RevisionOf(m, now, None)]];
    }

    /** Startup: memories without revisions that were not purged get a first one. */
    method EnsureMemoryRevisionHistory()
      requires Valid()
      modifies this`revisions
      ensures Valid() && State() == Backfill(old(State()))
    {
      var id := 0;
      while id < |memories|
        invariant 0 <= id <= |memories| && Valid()
        invariant forall k :: 0 <= k < id ==> revisions[k] == Backfill(old(State())).revisions[k]
        invariant forall k :: id <= k < |memories| ==> revisions[k] == old(revisions)[k]
      {
        if revisions[id] == [] && id !in cleaned {
          var validTo := if memories[id].status == Retired then memories[id].retiredAt else None;
          revisions := revisions[id := [RevisionOf(memories[id], memories[id].createdAt, validTo)]];
        }
        id := id + 1;
      }
      assert revisions == Backfill(old(State())).revisions;
    }

    // -------------------------------------------------------------- evaluation

    method EvaluateAndStoreCandidate(text: Text, task: TaskRef, c: Candidate, e: Evidence, now: Time)
      returns (verdict: Verdict, action: StorageAction, memory: Option<nat>)
      requires Valid()
      modifies this
      ensures Valid() && State() == Evaluate(text, old(State()), task, c, e, now)
      ensures var effect := EvaluationEffect(text, old(State()), task, c, e, now);
              verdict == effect.verdict && action == effect.action && memory == effect.memory
      ensures action == Stored <==>
                && Outcomes.FreeName(old(State()), task, c) && Outcomes.Admissible(text, task, c, e)
                && Outcomes.Novel(text, old(State()), task, c)
      ensures action == NotStored || Outcomes.Admissible(text, task, c, e)
    {
      Outcomes.EvaluationStoresIff(text, State(), task, c, e, now);
      hide Outcomes.FreeName, Outcomes.Admissible, Outcomes.Novel;
      var existing := FindNamed(memories, task.contract, c.kind, c.key);
      verdict := RuleVerdict(text, Store(memories, revisions, journal, cleaned), task, c, e, existing.None?);
      if verdict == NeedsReview && e.semanticRequired && e.semantic.Some? {
        verdict := e.semantic.value;
      }
      action, memory := NotStored, None;
      if verdict == Accept && existing.Some? {
        if text.normalize(memories[existing.value].content) == text.normalize(c.content) {
          action, memory := AlreadyStored, existing;
        } else if CanAutoSupersede(memories[existing.value], c) {
          SupersedeMemory(existing.value, c, now);
          action, memory := Superseded, existing;
        } else {
          verdict := Reject;
        }
      } else if verdict == Accept {
        AddMemory(NewMemory(task, c, now));
        action, memory := Stored, Some(|memories| - 1);
      }
      var row := JournalRow(memory, c.kind, c.key, c.content, verdict, action, e.output);
      if existing.Some? && existing.value in cleaned {
        row := row.(content := MARKER, evaluatorOutput := None);
      }
      journal := journal + [row];
    }

    /** An explicit creation: its scope is resolved first, then the unique key rejects a second memory of the name. */
    method CreateMemory(m: Memory, owners: Owners) returns (ok: bool)
      requires Valid()
      modifies this
      ensures Valid() && State() == Create(old(State()), m, owners)
      ensures ok <==>
                && ResolveScope(m, owners).Some?
                && forall k :: 0 <= k < |old(memories)| ==> !IsNamed(old(memories)[k], m.contract, m.kind, m.key)
    {
      var scoped := ResolveScope(m, owners);
      if scoped.None? { return false; }
      var existing := FindNamed(memories, m.contract, m.kind, m.key);
      ok := existing.None?;
      if ok {
        AddMemory(scoped.value.(version := 1, status := Active, retiredAt := None, retirementReason := None));
      }
    }

    // -------------------------------------------------------------- retirement

    method RetireMemory(id: nat, reason: string, now: Time) returns (changed: bool)
      requires Valid() && id < |memories|
      modifies this`memories
      ensures Valid() && State() == Retire(old(State()), id, reason, now)
      ensures changed <==> old(memories[id]).status == Active
    {
      if memories[id].status == Retired { return false; }
      memories := memories[id := memories[id].(status := Retired, retiredAt := Some(now), retirementReason := Some(reason))];
      return true;
    }

    /** The working memories of a run or of a task, when it ends; the query reads before anything is retired. */
    method RetireWorkingMemories(run: Option<nat>, task: Option<nat>, reason: string, now: Time) returns (ids: seq<nat>)
      requires Valid()
      modifies this`memories
      ensures Valid() && State() == RetireWorking(old(State()), run, task, reason, now)
      ensures forall id: nat :: id in ids <==> id < |memories| && BelongsToEnded(old(memories)[id], run, task)
    {
      ids := [];
      var id := 0;
      while id < |memories|
        invariant 0 <= id <= |memories| == |old(memories)| && Valid()
        invariant forall k :: 0 <= k < id ==> memories[k] == RetireWorking(old(State()), run, task, reason, now).memories[k]
        invariant forall k :: id <= k < |memories| ==> memories[k] == old(memories)[k]
        invariant forall k: nat :: k in ids <==> k < id && BelongsToEnded(old(memories)[k], run, task)
      {
        if BelongsToEnded(memories[id], run, task) {
          var changed := RetireMemory(id, reason, now);
          if changed { ids := ids + [id]; }
        }
        id := id + 1;
      }
      assert memories == RetireWorking(old(State()), run, task, reason, now).memories;
    }

    // -------------------------------------------------------------- maintenance

    /** The pass over the ordered memories. */
    method ScanMemories(order: seq<nat>, now: Time) returns (retire: map<nat, MemoryRetention.Retirement>, episodes: seq<nat>)
      requires AreIds(order, memories)
      ensures retire == Scan(memories, order, now).retire && episodes == Scan(memories, order, now).episodes
    {
      var representatives: map<string, nat> := map[];
      retire, episodes := map[], [];
      var i := 0;
      while i < |order|
        invariant 0 <= i <= |order|
        invariant Pass(retire, representatives, episodes) == Scan(memories, order[..i], now)
      {
        var id := order[i];
        assert order[..i + 1][..i] == order[..i];
        if IsExpired(memories[id], now) {
          retire := retire[id := Expired];
        } else if IsEpisode(memories[id], now) {
          if memories[id].content in representatives {
            retire := retire[id := DuplicateEpisode(representatives[memories[id].content])];
          } else {
            representatives := representatives[memories[id].content := id];
            episodes := episodes + [id];
          }
        }
        i := i + 1;
      }
      assert order[..|order|] == order;
    }

    /** The episodes beyond the capacity. */
    method CutToCapacity(scanned: map<nat, MemoryRetention.Retirement>, episodes: seq<nat>, limit: nat)
      returns (retire: map<nat, MemoryRetention.Retirement>)
      ensures retire == scanned + (map id | id in Overflow(episodes, limit) :: EpisodeCapacity)
    {
      retire := scanned;
      var over := Overflow(episodes, limit);
      var i := 0;
      while i < |over|
        invariant 0 <= i <= |over|
        invariant retire == scanned + (map id | id in over[..i] :: EpisodeCapacity)
      {
        assert over[..i + 1] == over[..i] + [over[i]];
        retire := retire[over[i] := EpisodeCapacity];
        i := i + 1;
      }
      assert over[..|over|] == over;
    }

    method DecidePurges(ids: seq<nat>, limits: Limits, now: Time) returns (purge: seq<nat>)
      requires Valid() && AreIds(ids, memories)
      ensures purge == PurgeList(State(), ids, limits, now)
    {
      purge := [];
      var i := |ids|;
      while i > 0
        invariant 0 <= i <= |ids|
        invariant purge == PurgeList(State(), ids[i..], limits, now)
      {
        i := i - 1;
        assert ids[i..][1..] == ids[i + 1..];
        if Purgeable(Store(memories, revisions, journal, cleaned), ids[i], limits, now) { purge := [ids[i]] + purge; }
      }
    }

    method ApplyRetirements(ids: seq<nat>, plan: Plan, now: Time)
      requires Valid() && AreIds(ids, memories)
      modifies this`memories
      ensures Valid() && |memories| == |old(memories)|
      ensures forall k: nat :: k < |memories| ==>
                memories[k] == if k in ids && k in plan.retire then Maintained(old(memories)[k], k, plan, now) else old(memories)[k]
    {
      var i := 0;
      while i < |ids|
        invariant 0 <= i <= |ids| && Valid() && |memories| == |old(memories)|
        invariant forall k: nat :: k < |memories| ==>
          memories[k] == if k in ids[..i] && k in plan.retire then Maintained(old(memories)[k], k, plan, now) else old(memories)[k]
      {
        var id := ids[i];
        assert ids[..i + 1] == ids[..i] + [id];
        if id in plan.retire {
          var reason := ReasonText(plan.retire[id]);
          memories := memories[id := memories[id].(status := Retired, retiredAt := Some(now), retirementReason := Some(reason))];
        }
        i := i + 1;
      }
      assert ids[..|ids|] == ids;
    }

    /** Masks every journal row that names the memory. */
    method MaskJournal(id: nat)
      modifies this`journal
      ensures |journal| == |old(journal)|
      ensures forall r :: 0 <= r < |journal| ==> journal[r] == Purged(old(journal)[r], [id])
    {
      var r := 0;
      while r < |journal|
        invariant 0 <= r <= |journal| == |old(journal)|
        invariant forall k :: 0 <= k < r ==> journal[k] == Purged(old(journal)[k], [id])
        invariant forall k :: r <= k < |journal| ==> journal[k] == old(journal)[k]
      {
        if journal[r].memory == Some(id) {
          journal := journal[r := journal[r].(content := MARKER, evaluatorOutput := None)];
        }
        r := r + 1;
      }
    }

    /** One purge: the tombstone, the payload, the revisions and the linked journal rows. */
    method PurgeMemory(id: nat)
      requires Valid() && id < |memories|
      modifies this
      ensures Valid() && |memories| == |old(memories)| && |journal| == |old(journal)|
      ensures memories == old(memories)[id := old(memories)[id].(content := MARKER)]
      ensures revisions == old(revisions)[id := []]
      ensures forall r :: 0 <= r < |journal| ==> journal[r] == Purged(old(journal)[r], [id])
      ensures cleaned == old(cleaned) + {id}
    {
      cleaned := cleaned + {id};
      memories := memories[id := memories[id].(content := MARKER)];
      revisions := revisions[id := []];
      MaskJournal(id);
    }

    method ApplyPurges(purge: seq<nat>)
      requires Valid() && AreIds(purge, memories)
      modifies this
      ensures Valid() && |memories| == |old(memories)| && |journal| == |old(journal)|
      ensures forall k: nat :: k < |memories| ==>
                memories[k] == if k in purge then old(memories)[k].(content := MARKER) else old(memories)[k]
      ensures forall k: nat :: k < |memories| ==> revisions[k] == if k in purge then [] else old(revisions)[k]
      ensures forall r :: 0 <= r < |journal| ==> journal[r] == Purged(old(journal)[r], purge)
      ensures cleaned == old(cleaned) + set id | id in purge
    {
      var i := 0;
      while i < |purge|
        invariant 0 <= i <= |purge| && Valid() && |memories| == |old(memories)| && |journal| == |old(journal)|
        invariant forall k: nat :: k < |memories| ==>
          memories[k] == if k in purge[..i] then old(memories)[k].(content := MARKER) else old(memories)[k]
        invariant forall k: nat :: k < |memories| ==> revisions[k] == if k in purge[..i] then [] else old(revisions)[k]
        invariant forall r :: 0 <= r < |journal| ==> journal[r] == Purged(old(journal)[r], purge[..i])
        invariant cleaned == old(cleaned) + set id | id in purge[..i]
      {
        assert purge[..i + 1] == purge[..i] + [purge[i]];
        PurgeMemory(purge[i]);
        i := i + 1;
      }
      assert purge[..|purge|] == purge;
    }

    /**
     Retirement and purging under the task's limits. The report is the same with and without dryRun, and
     only without it does anything change.
     */
    method MaintainTaskMemories(task: TaskRef, dryRun: bool, purge: bool, episodeLimit: int, retentionDays: int, now: Time)
      returns (report: Option<Plan>)
      requires Valid()
      modifies this
      ensures Valid()
      ensures report.None? <==> episodeLimit < 1 || retentionDays < 1
      ensures report.Some? ==> report.value == PlanOf(old(State()), task, Limits(episodeLimit, retentionDays, purge), now)
      ensures State() == if dryRun || report.None? then old(State())
                         else Maintain(old(State()), task, Limits(episodeLimit, retentionDays, purge), now)
    {
      if episodeLimit < 1 || retentionDays < 1 { return None; }
      var limits := Limits(episodeLimit, retentionDays, purge);
      var s := Store(memories, revisions, journal, cleaned);
      var ids := TaskIds(s, task);
      var scanned, episodes := ScanMemories(Order(s, task), now);
      var retire := CutToCapacity(scanned, episodes, episodeLimit);
      var cleanup := DecidePurges(ids, limits, now);
      var plan := Plan(retire, cleanup);
      if dryRun { return Some(plan); }
      forall id: nat ensures id in plan.retire ==> id in ids && id !in plan.purge {
        RetireListMeans(s, task, limits, now, id);
        PurgeListMeans(s, task, limits, now, id);
      }
      ApplyRetirements(ids, plan, now);
      assert AreIds(cleanup, memories) by {
        forall i | 0 <= i < |cleanup| ensures cleanup[i] < |memories| {
          assert cleanup[i] in cleanup;
          PurgeListMeans(s, task, limits, now, cleanup[i]);
        }
      }
      ApplyPurges(cleanup);
      ghost var after := Maintain(s, task, limits, now);
      assert memories == after.memories && revisions == after.revisions && journal == after.journal;
      return Some(plan);
    }
  }
}
