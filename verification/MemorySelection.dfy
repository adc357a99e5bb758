/**
 Two ranked queues share one token budget: memories and knowledge take turns, each turn taking the next
 candidate that still fits. The estimator is a parameter; only maximality asks it to be monotone.
 */
module MemorySelection {
  import opened Common

  datatype Channel = MemoryChannel | KnowledgeChannel

  /** The candidate at this rank of this channel was selected. */
  datatype Selected = Selected(channel: Channel, rank: nat)

  /** One queue: how far it has been read and how many of it have been selected. */
  datatype Queue = Queue(position: nat, count: nat)

  datatype Allocation<P> = Allocation(memory: Queue, knowledge: Queue, picks: seq<Selected>, payloads: seq<P>)

  datatype Problem<P> = Problem(
    memories: seq<P>, knowledge: seq<P>, memoryLimit: nat, knowledgeLimit: nat, budget: nat)

  function Candidates<P>(p: Problem<P>, c: Channel): seq<P> {
    if c.MemoryChannel? then p.memories else p.knowledge
  }

  function Limit<P>(p: Problem<P>, c: Channel): nat {
    if c.MemoryChannel? then p.memoryLimit else p.knowledgeLimit
  }

  function QueueOf<P>(a: Allocation<P>, c: Channel): Queue {
    if c.MemoryChannel? then a.memory else a.knowledge
  }

  function WithQueue<P>(a: Allocation<P>, c: Channel, q: Queue): Allocation<P> {
    if c.MemoryChannel? then a.(memory := q) else a.(knowledge := q)
  }

  function Other(c: Channel): Channel {
    if c.MemoryChannel? then KnowledgeChannel else MemoryChannel
  }

  predicate Fits<P>(p: Problem<P>, estimate: seq<P> -> nat, chosen: seq<P>, payload: P) {
    estimate(chosen + [payload]) <= p.budget
  }

  /** The first rank from position on whose candidate fits, or the end of the queue. */
  function NextFit<P>(p: Problem<P>, estimate: seq<P> -> nat, c: Channel, position: nat, chosen: seq<P>): (r: nat)
    requires position <= |Candidates(p, c)|
    ensures position <= r <= |Candidates(p, c)|
    ensures r < |Candidates(p, c)| ==> Fits(p, estimate, chosen, Candidates(p, c)[r])
    ensures forall k :: position <= k < r ==> !Fits(p, estimate, chosen, Candidates(p, c)[k])
    decreases |Candidates(p, c)| - position
  {
    if position == |Candidates(p, c)| || Fits(p, estimate, chosen, Candidates(p, c)[position]) then position
    else NextFit(p, estimate, c, position + 1, chosen)
  }

  predicate QueuesOk<P>(p: Problem<P>, a: Allocation<P>) {
    && a.memory.position <= |p.memories| && a.knowledge.position <= |p.knowledge|
    && a.memory.count <= p.memoryLimit && a.knowledge.count <= p.knowledgeLimit
  }

  /** One channel's turn. */
  function Turn<P>(p: Problem<P>, estimate: seq<P> -> nat, a: Allocation<P>, c: Channel): (r: Allocation<P>)
    requires QueuesOk(p, a)
    ensures QueuesOk(p, r)
  {
    var q := QueueOf(a, c);
    if q.count == Limit(p, c) then a
    else
      var rank := NextFit(p, estimate, c, q.position, a.payloads);
      if rank == |Candidates(p, c)| then WithQueue(a, c, q.(position := rank))
      else
        WithQueue(a, c, Queue(rank + 1, q.count + 1))
          .(picks := a.picks + [Selected(c, rank)], payloads := a.payloads + [Candidates(p, c)[rank]])
  }

  function Unread<P>(p: Problem<P>, a: Allocation<P>): nat
    requires QueuesOk(p, a)
  {
    |p.memories| - a.memory.position + |p.knowledge| - a.knowledge.position
  }

  lemma TurnReads<P>(p: Problem<P>, estimate: seq<P> -> nat, a: Allocation<P>, c: Channel)
    requires QueuesOk(p, a)
    ensures Unread(p, Turn(p, estimate, a, c)) <= Unread(p, a)
    ensures Turn(p, estimate, a, c).picks != a.picks ==> Unread(p, Turn(p, estimate, a, c)) < Unread(p, a)
  {
  }

  function Round<P>(p: Problem<P>, estimate: seq<P> -> nat, a: Allocation<P>): (r: Allocation<P>)
    requires QueuesOk(p, a)
    ensures QueuesOk(p, r)
  {
    Turn(p, estimate, Turn(p, estimate, a, MemoryChannel), KnowledgeChannel)
  }

  /** Rounds until one selects nothing. */
  function Rounds<P>(p: Problem<P>, estimate: seq<P> -> nat, a: Allocation<P>): (r: Allocation<P>)
    requires QueuesOk(p, a)
    ensures QueuesOk(p, r)
    decreases Unread(p, a)
  {
    var mid := Turn(p, estimate, a, MemoryChannel);
    var next := Round(p, estimate, a);
    TurnReads(p, estimate, a, MemoryChannel);
    TurnReads(p, estimate, mid, KnowledgeChannel);
    if |next.picks| == |a.picks| then next
    else assert next.picks != a.picks; Rounds(p, estimate, next)
  }

  function Start<P>(): Allocation<P> { Allocation(Queue(0, 0), Queue(0, 0), [], []) }

  // ---------------------------------------------------------------- the loop

  /** The inner loop: read the queue of one channel until something fits or the queue closes. */
  method TakeTurn<P>(p: Problem<P>, estimate: seq<P> -> nat, a: Allocation<P>, c: Channel)
      returns (r: Allocation<P>, progressed: bool)
    requires QueuesOk(p, a)
    ensures r == Turn(p, estimate, a, c)
    ensures progressed <==> |r.picks| > |a.picks|
  {
    var candidates, limit := Candidates(p, c), Limit(p, c);
    var position: nat := QueueOf(a, c).position;
    var count := QueueOf(a, c).count;
    progressed := false;
    while position < |candidates| && count < limit
      invariant QueueOf(a, c).position <= position <= |candidates| && count == QueueOf(a, c).count
      invariant count < limit ==> NextFit(p, estimate, c, position, a.payloads)
                                  == NextFit(p, estimate, c, QueueOf(a, c).position, a.payloads)
      invariant count == limit ==> position == QueueOf(a, c).position
      decreases |candidates| - position
    {
      var payload := candidates[position];
      position := position + 1;
      if estimate(a.payloads + [payload]) > p.budget {
        continue;
      }
      r := WithQueue(a, c, Queue(position, count + 1))
             .(picks := a.picks + [Selected(c, position - 1)], payloads := a.payloads + [payload]);
      progressed := true;
      return;
    }
    r := WithQueue(a, c, Queue(position, count));
  }

  method SelectUnderBudget<P>(p: Problem<P>, estimate: seq<P> -> nat) returns (a: Allocation<P>)
    ensures a == Rounds(p, estimate, Start())
  {
    a := Start();
    while true
      invariant QueuesOk(p, a) && Rounds(p, estimate, a) == Rounds(p, estimate, Start())
      decreases Unread(p, a)
    {
      TurnReads(p, estimate, a, MemoryChannel);
      TurnReads(p, estimate, Turn(p, estimate, a, MemoryChannel), KnowledgeChannel);
      ghost var before := a;
      var first, second;
      a, first := TakeTurn(p, estimate, a, MemoryChannel);
      a, second := TakeTurn(p, estimate, a, KnowledgeChannel);
      if !first && !second {
        return;
      }
    }
  }

  // ---------------------------------------------------------------- what every selection satisfies

  function CountOf(picks: seq<Selected>, c: Channel): nat {
    if picks == [] then 0
    else CountOf(picks[..|picks| - 1], c) + (if picks[|picks| - 1].channel == c then 1 else 0)
  }

  predicate CountsOk<P>(a: Allocation<P>) {
    a.memory.count == CountOf(a.picks, MemoryChannel) && a.knowledge.count == CountOf(a.picks, KnowledgeChannel)
  }

  lemma {:induction false} OneMorePick(picks: seq<Selected>, pick: Selected, c: Channel)
    ensures CountOf(picks + [pick], c) == CountOf(picks, c) + (if pick.channel == c then 1 else 0)
  {
    assert (picks + [pick])[..|picks|] == picks;
  }

  lemma {:induction false} TurnKeepsCounts<P>(p: Problem<P>, estimate: seq<P> -> nat, a: Allocation<P>, c: Channel)
    requires QueuesOk(p, a) && CountsOk(a)
    ensures CountsOk(Turn(p, estimate, a, c))
  {
    hide CountOf, Fits;
    var r := Turn(p, estimate, a, c);
    if r.picks != a.picks {
      var pick := r.picks[|a.picks|];
      assert r.picks == a.picks + [pick];
      OneMorePick(a.picks, pick, MemoryChannel);
      OneMorePick(a.picks, pick, KnowledgeChannel);
    }
  }

  /** A pick names an existing candidate before the queue's position, and its payload was chosen. */
  ghost predicate PickOk<P>(p: Problem<P>, a: Allocation<P>, pick: Selected, payload: P) {
    && pick.rank < QueueOf(a, pick.channel).position && pick.rank < |Candidates(p, pick.channel)|
    && payload == Candidates(p, pick.channel)[pick.rank]
  }

  /** Within a channel, picks come in rank order. */
  predicate RankOrder(picks: seq<Selected>) {
    forall i, j :: 0 <= i < j < |picks| && picks[i].channel == picks[j].channel ==> picks[i].rank < picks[j].rank
  }

  ghost predicate PicksOk<P>(p: Problem<P>, a: Allocation<P>) {
    && |a.payloads| == |a.picks|
    && (forall i :: 0 <= i < |a.picks| ==> PickOk(p, a, a.picks[i], a.payloads[i]))
    && RankOrder(a.picks)
    && CountsOk(a)
  }

  predicate WithinBudget<P>(p: Problem<P>, estimate: seq<P> -> nat, a: Allocation<P>) {
    estimate(a.payloads) <= p.budget
  }

  /** The channel can select nothing more: its limit is reached or its queue is read to the end. */
  predicate Closed<P>(p: Problem<P>, a: Allocation<P>, c: Channel) {
    QueueOf(a, c).count == Limit(p, c) || QueueOf(a, c).position == |Candidates(p, c)|
  }

  predicate SameChannel(picks: seq<Selected>, i: nat) {
    0 < i < |picks| && picks[i - 1].channel == picks[i].channel
  }

  /** Two picks in a row from one channel only once the other is closed; then it stays closed. */
  predicate Alternates<P>(p: Problem<P>, a: Allocation<P>) {
    && (forall i, j :: 0 < i < j < |a.picks| && SameChannel(a.picks, i) ==> a.picks[j].channel == a.picks[i].channel)
    && (forall i :: 0 < i < |a.picks| && SameChannel(a.picks, i) ==> Closed(p, a, Other(a.picks[i].channel)))
  }

  ghost predicate SelectionOk<P>(p: Problem<P>, estimate: seq<P> -> nat, a: Allocation<P>) {
    QueuesOk(p, a) && PicksOk(p, a) && WithinBudget(p, estimate, a) && Alternates(p, a)
  }

  lemma {:induction false} TurnKeepsRankOrder<P>(p: Problem<P>, estimate: seq<P> -> nat, a: Allocation<P>, c: Channel)
    requires QueuesOk(p, a) && PicksOk(p, a)
    ensures RankOrder(Turn(p, estimate, a, c).picks)
  {
    hide CountsOk;
    var r := Turn(p, estimate, a, c);
    forall i, j | 0 <= i < j < |r.picks| && r.picks[i].channel == r.picks[j].channel
      ensures r.picks[i].rank < r.picks[j].rank
    {
      assert PickOk(p, a, a.picks[i], a.payloads[i]);
    }
  }

  lemma {:induction false} TurnKeepsPicksOk<P>(p: Problem<P>, estimate: seq<P> -> nat, a: Allocation<P>, c: Channel)
    requires QueuesOk(p, a) && PicksOk(p, a) && WithinBudget(p, estimate, a)
    ensures PicksOk(p, Turn(p, estimate, a, c)) && WithinBudget(p, estimate, Turn(p, estimate, a, c))
  {
    hide CountsOk, RankOrder;
    var r := Turn(p, estimate, a, c);
    TurnKeepsCounts(p, estimate, a, c);
    TurnKeepsRankOrder(p, estimate, a, c);
    forall i | 0 <= i < |r.picks|
      ensures PickOk(p, r, r.picks[i], r.payloads[i])
    {
      if i < |a.picks| { assert PickOk(p, a, a.picks[i], a.payloads[i]); }
    }
  }

  /** Whose turn it is: the last pick was the other channel's, or the other channel is closed. */
  predicate MayTake<P>(p: Problem<P>, a: Allocation<P>, c: Channel) {
    a.picks != [] && a.picks[|a.picks| - 1].channel == c ==> Closed(p, a, Other(c))
  }

  lemma {:induction false} ClosedTakesNothing<P>(p: Problem<P>, estimate: seq<P> -> nat, a: Allocation<P>,
      c: Channel, d: Channel)
    requires QueuesOk(p, a)
    ensures Closed(p, a, d) ==> Closed(p, Turn(p, estimate, a, c), d)
    ensures Closed(p, a, c) ==> Turn(p, estimate, a, c).picks == a.picks
    ensures Turn(p, estimate, a, c).picks == a.picks ==> Closed(p, Turn(p, estimate, a, c), c)
    ensures var r := Turn(p, estimate, a, c);
            r.picks == a.picks || (|r.picks| == |a.picks| + 1 && r.picks[..|a.picks|] == a.picks
                                   && r.picks[|a.picks|].channel == c)
  {
  }

  lemma {:induction false} RepeatedChannel<P>(p: Problem<P>, estimate: seq<P> -> nat, a: Allocation<P>,
      c: Channel, i: nat)
    requires QueuesOk(p, a) && Alternates(p, a) && MayTake(p, a, c) && SameChannel(Turn(p, estimate, a, c).picks, i)
    ensures var r := Turn(p, estimate, a, c);
            && Closed(p, r, Other(r.picks[i].channel))
            && (i < |a.picks| ==>
                  && SameChannel(a.picks, i) && r.picks[i] == a.picks[i]
                  && (r.picks != a.picks ==> r.picks[i].channel == c))
  {
    hide Turn, Closed;
    var r := Turn(p, estimate, a, c);
    ClosedTakesNothing(p, estimate, a, c, c);
    ClosedTakesNothing(p, estimate, a, c, Other(c));
    if i < |a.picks| {
      assert r.picks[i] == a.picks[i] && r.picks[i - 1] == a.picks[i - 1];
      assert SameChannel(a.picks, i);
    }
  }

  lemma {:induction false} TurnKeepsAlternation<P>(p: Problem<P>, estimate: seq<P> -> nat, a: Allocation<P>, c: Channel)
    requires QueuesOk(p, a) && Alternates(p, a) && MayTake(p, a, c)
    ensures var r := Turn(p, estimate, a, c); Alternates(p, r) && MayTake(p, r, Other(c))
  {
    hide Turn, Closed;
    var r := Turn(p, estimate, a, c);
    ClosedTakesNothing(p, estimate, a, c, c);
    ClosedTakesNothing(p, estimate, a, c, Other(c));
    forall i: nat, j | i < j < |r.picks| && SameChannel(r.picks, i)
      ensures Closed(p, r, Other(r.picks[i].channel)) && r.picks[j].channel == r.picks[i].channel
    {
      RepeatedChannel(p, estimate, a, c, i);
      if j < |a.picks| { assert r.picks[j] == a.picks[j]; }
    }
    forall i: nat | SameChannel(r.picks, i)
      ensures Closed(p, r, Other(r.picks[i].channel))
    {
      RepeatedChannel(p, estimate, a, c, i);
    }
  }

  lemma {:induction false} RoundsKeepSelectionOk<P>(p: Problem<P>, estimate: seq<P> -> nat, a: Allocation<P>)
    requires SelectionOk(p, estimate, a) && MayTake(p, a, MemoryChannel)
    ensures SelectionOk(p, estimate, Rounds(p, estimate, a))
    decreases Unread(p, a)
  {
    var mid := Turn(p, estimate, a, MemoryChannel);
    var next := Turn(p, estimate, mid, KnowledgeChannel);
    TurnReads(p, estimate, a, MemoryChannel);
    TurnReads(p, estimate, mid, KnowledgeChannel);
    TurnKeepsPicksOk(p, estimate, a, MemoryChannel);
    TurnKeepsPicksOk(p, estimate, mid, KnowledgeChannel);
    TurnKeepsAlternation(p, estimate, a, MemoryChannel);
    TurnKeepsAlternation(p, estimate, mid, KnowledgeChannel);
    if |next.picks| != |a.picks| {
      assert next.picks != a.picks;
      RoundsKeepSelectionOk(p, estimate, next);
    }
  }

  /**
   The selection stays within the token budget and both limits, keeps each channel's rank order, and takes
   the channels strictly in turn until one of them closes, after which only the other one is taken.
   */
  lemma SelectionIsOrderly<P>(p: Problem<P>, estimate: seq<P> -> nat)
    requires estimate([]) == 0
    ensures var a := Rounds(p, estimate, Start());
            && SelectionOk(p, estimate, a)
            && CountOf(a.picks, MemoryChannel) <= p.memoryLimit && CountOf(a.picks, KnowledgeChannel) <= p.knowledgeLimit
  {
    RoundsKeepSelectionOk(p, estimate, Start());
  }

  // ---------------------------------------------------------------- maximality

  /** Leaving out what was added between does not cost tokens. */
  ghost predicate Monotone<P(!new)>(estimate: seq<P> -> nat) {
    forall s: seq<P>, t: seq<P>, x: P :: estimate(s + [x]) <= estimate(s + t + [x])
  }

  predicate Picked(picks: seq<Selected>, c: Channel, rank: nat) {
    Selected(c, rank) in picks
  }

  /** Every candidate read and not selected would exceed the budget on top of the selection. */
  predicate SkippedDoNotFit<P>(p: Problem<P>, estimate: seq<P> -> nat, a: Allocation<P>, c: Channel)
    requires QueuesOk(p, a)
  {
    forall k :: 0 <= k < QueueOf(a, c).position && !Picked(a.picks, c, k) ==>
      !Fits(p, estimate, a.payloads, Candidates(p, c)[k])
  }

  lemma {:induction false} TurnKeepsSkipped<P(!new)>(p: Problem<P>, estimate: seq<P> -> nat, a: Allocation<P>,
      c: Channel, d: Channel)
    requires QueuesOk(p, a) && Monotone(estimate) && SkippedDoNotFit(p, estimate, a, d)
    ensures SkippedDoNotFit(p, estimate, Turn(p, estimate, a, c), d)
  {
  }

  lemma {:induction false} RoundsKeepSkipped<P(!new)>(p: Problem<P>, estimate: seq<P> -> nat, a: Allocation<P>,
      d: Channel)
    requires QueuesOk(p, a) && Monotone(estimate) && SkippedDoNotFit(p, estimate, a, d)
    ensures SkippedDoNotFit(p, estimate, Rounds(p, estimate, a), d)
    ensures Closed(p, Rounds(p, estimate, a), d)
    decreases Unread(p, a)
  {
    var mid := Turn(p, estimate, a, MemoryChannel);
    var next := Turn(p, estimate, mid, KnowledgeChannel);
    TurnReads(p, estimate, a, MemoryChannel);
    TurnReads(p, estimate, mid, KnowledgeChannel);
    TurnKeepsSkipped(p, estimate, a, MemoryChannel, d);
    TurnKeepsSkipped(p, estimate, mid, KnowledgeChannel, d);
    if |next.picks| != |a.picks| {
      assert next.picks != a.picks;
      RoundsKeepSkipped(p, estimate, next, d);
    }
  }

  /**
   With a monotone estimator the selection is maximal: a channel whose limit is not reached has been read
   to the end, and none of its unselected candidates fits on top of what was selected.
   */
  lemma SelectionIsMaximal<P(!new)>(p: Problem<P>, estimate: seq<P> -> nat, c: Channel, rank: nat)
    requires Monotone(estimate) && rank < |Candidates(p, c)|
    ensures var a := Rounds(p, estimate, Start());
            var candidates, limit := if c.MemoryChannel? then p.memories else p.knowledge,
                                     if c.MemoryChannel? then p.memoryLimit else p.knowledgeLimit;
            CountOf(a.picks, c) < limit && Selected(c, rank) !in a.picks ==>
              estimate(a.payloads + [candidates[rank]]) > p.budget
  {
    RoundsKeepSkipped(p, estimate, Start(), c);
    RoundsKeepCounts(p, estimate, Start());
  }

  lemma {:induction false} RoundsKeepCounts<P>(p: Problem<P>, estimate: seq<P> -> nat, a: Allocation<P>)
    requires QueuesOk(p, a) && CountsOk(a)
    ensures CountsOk(Rounds(p, estimate, a))
    decreases Unread(p, a)
  {
    var mid := Turn(p, estimate, a, MemoryChannel);
    var next := Turn(p, estimate, mid, KnowledgeChannel);
    TurnReads(p, estimate, a, MemoryChannel);
    TurnReads(p, estimate, mid, KnowledgeChannel);
    TurnKeepsCounts(p, estimate, a, MemoryChannel);
    TurnKeepsCounts(p, estimate, mid, KnowledgeChannel);
    if |next.picks| != |a.picks| {
      assert next.picks != a.picks;
      RoundsKeepCounts(p, estimate, next);
    }
  }

  // ---------------------------------------------------------------- every pick is the next one that fits

  /** The channel has been read at most to this rank by the picks made so far. */
  predicate ReadTo(picks: seq<Selected>, c: Channel, rank: nat) {
    forall i :: 0 <= i < |picks| && picks[i].channel == c ==> picks[i].rank < rank
  }

  /**
   The i-th pick is the first candidate of its channel after that channel's earlier picks that fits on top of
   what was chosen before.
   */
  ghost predicate NextThatFits<P>(p: Problem<P>, estimate: seq<P> -> nat, a: Allocation<P>, i: nat)
    requires i < |a.picks| && |a.payloads| == |a.picks|
  {
    var pick := a.picks[i];
    var candidates := if pick.channel.MemoryChannel? then p.memories else p.knowledge;
    && pick.rank < |candidates| && a.payloads[i] == candidates[pick.rank]
    && ReadTo(a.picks[..i], pick.channel, pick.rank)
    && estimate(a.payloads[..i] + [candidates[pick.rank]]) <= p.budget
    && forall k :: 0 <= k < pick.rank && ReadTo(a.picks[..i], pick.channel, k) ==>
         estimate(a.payloads[..i] + [candidates[k]]) > p.budget
  }

  ghost predicate AllNext<P>(p: Problem<P>, estimate: seq<P> -> nat, a: Allocation<P>) {
    |a.payloads| == |a.picks| && forall i :: 0 <= i < |a.picks| ==> NextThatFits(p, estimate, a, i)
  }

  /** An open queue has been read exactly to its last pick. */
  predicate ReadExactly<P>(p: Problem<P>, a: Allocation<P>, c: Channel) {
    && ReadTo(a.picks, c, QueueOf(a, c).position)
    && (forall k :: 0 <= k < QueueOf(a, c).position && QueueOf(a, c).position < |Candidates(p, c)| ==> !ReadTo(a.picks, c, k))
  }

  lemma {:induction false} TurnReadsExactly<P>(p: Problem<P>, estimate: seq<P> -> nat, a: Allocation<P>,
      c: Channel, d: Channel)
    requires QueuesOk(p, a) && ReadExactly(p, a, d)
    ensures ReadExactly(p, Turn(p, estimate, a, c), d)
  {
    var r := Turn(p, estimate, a, c);
    if r.picks != a.picks {
      var pick := r.picks[|a.picks|];
      forall i | 0 <= i < |r.picks| && r.picks[i].channel == d
        ensures r.picks[i].rank < QueueOf(r, d).position
      {
      }
      forall k: nat | k < QueueOf(r, d).position && QueueOf(r, d).position < |Candidates(p, d)|
        ensures !ReadTo(r.picks, d, k)
      {
        if c == d { assert r.picks[|a.picks|].rank >= k; }
        else {
          assert !ReadTo(a.picks, d, k);
          var i :| 0 <= i < |a.picks| && a.picks[i].channel == d && a.picks[i].rank >= k;
          assert r.picks[i] == a.picks[i];
        }
      }
    }
  }

  lemma {:induction false} TurnPicksNext<P>(p: Problem<P>, estimate: seq<P> -> nat, a: Allocation<P>, c: Channel)
    requires QueuesOk(p, a) && AllNext(p, estimate, a) && ReadExactly(p, a, c)
    ensures AllNext(p, estimate, Turn(p, estimate, a, c))
  {
    var r := Turn(p, estimate, a, c);
    forall i | 0 <= i < |r.picks|
      ensures NextThatFits(p, estimate, r, i)
    {
      if i < |a.picks| {
        assert NextThatFits(p, estimate, a, i);
        assert r.picks[..i] == a.picks[..i] && r.payloads[..i] == a.payloads[..i];
      } else {
        assert r.picks[..i] == a.picks && r.payloads[..i] == a.payloads;
      }
    }
  }

  lemma {:induction false} RoundsPickNext<P>(p: Problem<P>, estimate: seq<P> -> nat, a: Allocation<P>)
    requires QueuesOk(p, a) && AllNext(p, estimate, a)
    requires ReadExactly(p, a, MemoryChannel) && ReadExactly(p, a, KnowledgeChannel)
    ensures AllNext(p, estimate, Rounds(p, estimate, a))
    decreases Unread(p, a)
  {
    hide AllNext, ReadExactly;
    var mid := Turn(p, estimate, a, MemoryChannel);
    var next := Turn(p, estimate, mid, KnowledgeChannel);
    TurnReads(p, estimate, a, MemoryChannel);
    TurnReads(p, estimate, mid, KnowledgeChannel);
    TurnPicksNext(p, estimate, a, MemoryChannel);
    TurnReadsExactly(p, estimate, a, MemoryChannel, MemoryChannel);
    TurnReadsExactly(p, estimate, a, MemoryChannel, KnowledgeChannel);
    TurnPicksNext(p, estimate, mid, KnowledgeChannel);
    TurnReadsExactly(p, estimate, mid, KnowledgeChannel, MemoryChannel);
    TurnReadsExactly(p, estimate, mid, KnowledgeChannel, KnowledgeChannel);
    if |next.picks| != |a.picks| {
      assert next.picks != a.picks;
      RoundsPickNext(p, estimate, next);
    }
  }

  /**
   The allocator is greedy within each channel, for any estimator: every pick is the first candidate after
   the channel's earlier picks that fits on top of everything chosen before it.
   */
  lemma {:induction false} EveryPickIsTheNextThatFits<P>(p: Problem<P>, estimate: seq<P> -> nat, i: nat)
    requires i < |Rounds(p, estimate, Start()).picks|
    ensures var a := Rounds(p, estimate, Start()); |a.payloads| == |a.picks| && NextThatFits(p, estimate, a, i)
  {
    RoundsPickNext(p, estimate, Start());
  }

  /** Memories go first: when the first pick is knowledge, no memory could be picked at all. */
  lemma {:induction false} MemoriesGoFirst<P>(p: Problem<P>, estimate: seq<P> -> nat, k: nat)
    requires var a := Rounds(p, estimate, Start()); a.picks == [] || a.picks[0].channel == KnowledgeChannel
    requires k < |p.memories|
    ensures p.memoryLimit == 0 || estimate([p.memories[k]]) > p.budget
  {
    var first := Turn(p, estimate, Start(), MemoryChannel);
    assert [] + [p.memories[k]] == [p.memories[k]];
    if first.picks != [] {
      assert first.picks[0].channel == MemoryChannel;
      RoundsStartWith(p, estimate, Start(), first);
    }
  }

  lemma {:induction false} RoundsOnlyAdd<P>(p: Problem<P>, estimate: seq<P> -> nat, a: Allocation<P>)
    requires QueuesOk(p, a)
    ensures a.picks <= Rounds(p, estimate, a).picks
    decreases Unread(p, a)
  {
    var mid := Turn(p, estimate, a, MemoryChannel);
    var next := Turn(p, estimate, mid, KnowledgeChannel);
    TurnReads(p, estimate, a, MemoryChannel);
    TurnReads(p, estimate, mid, KnowledgeChannel);
    if |next.picks| != |a.picks| {
      assert next.picks != a.picks;
      RoundsOnlyAdd(p, estimate, next);
    }
  }

  lemma {:induction false} RoundsStartWith<P>(p: Problem<P>, estimate: seq<P> -> nat, a: Allocation<P>,
      mid: Allocation<P>)
    requires QueuesOk(p, a) && mid == Turn(p, estimate, a, MemoryChannel)
    ensures mid.picks <= Rounds(p, estimate, a).picks
  {
    var next := Turn(p, estimate, mid, KnowledgeChannel);
    if |next.picks| != |a.picks| { RoundsOnlyAdd(p, estimate, next); }
  }
}
