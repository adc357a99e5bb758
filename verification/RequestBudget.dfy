/**
 The token budget of one model request: protected sections first, then memory, then whatever is left for
 observations after compaction. Section estimates are arbitrary.
 */
module RequestBudget {
  import opened Common
  import opened ContextCompaction

  datatype ContextTokenBudget = ContextTokenBudget(
    inputTokenBudget: int, promptTokens: nat, memoryTokens: nat, toolTokens: nat, observationTokens: nat)
  {
    function EstimatedInputTokens(): nat { promptTokens + memoryTokens + toolTokens + observationTokens }

    function RemainingInputTokens(): nat {
      if EstimatedInputTokens() <= inputTokenBudget then inputTokenBudget - EstimatedInputTokens() else 0
    }

    predicate WithinBudget() { EstimatedInputTokens() <= inputTokenBudget }
  }

  datatype BuildError = InvalidConfiguration | ProtectedSectionsTooLarge | ContextTooLarge

  datatype Built = Request(observations: seq<Entry>, budget: ContextTokenBudget) | Refused(error: BuildError)

  /** How the code can be configured; everything else is refused by the engine's constructor. */
  predicate ValidConfiguration(contextTokens: int, reservedTokens: int, memoryTokenBudget: int) {
    1 <= contextTokens && 1 <= reservedTokens < contextTokens && 0 <= memoryTokenBudget
  }

  /** The share of the free input tokens that memory may use. */
  function MemoryAllocation(memoryTokenBudget: nat, available: int): nat {
    var third := if available < 0 then 0 else available / 3;
    if memoryTokenBudget < third then memoryTokenBudget else third
  }

  /** Memory gets all it asks for up to a third of what is left, and nothing when nothing is left. */
  lemma AllocationIsLargestShare(memoryTokenBudget: nat, available: int)
    ensures var a, free := MemoryAllocation(memoryTokenBudget, available), if available < 0 then 0 else available;
            && a <= memoryTokenBudget && 3 * a <= free
            && forall more: nat :: more <= memoryTokenBudget && 3 * more <= free ==> more <= a
  {
  }

  /** The protected sections and the memory section, without observations. */
  function FixedTokens(promptTokens: nat, toolTokens: nat, memorySection: nat -> nat, allocation: nat): nat {
    promptTokens + toolTokens + memorySection(allocation)
  }

  /**
   One request: memorySection(b) is the estimate of the memory context assembled under budget b, and
   trimmed(b) how many of the latest observations the trimming library keeps under budget b.
   */
  method BuildRequest(
      contextTokens: int, reservedTokens: int, memoryTokenBudget: int, promptTokens: nat, toolTokens: nat,
      memorySection: nat -> nat, observations: seq<Observation>, trimmed: nat -> nat, estimate: Estimator)
      returns (built: Built)
    requires estimate([]) == 0 && forall b :: trimmed(b) <= |observations|
    ensures (built == Refused(InvalidConfiguration)) <==>
              !ValidConfiguration(contextTokens, reservedTokens, memoryTokenBudget)
    ensures ValidConfiguration(contextTokens, reservedTokens, memoryTokenBudget) ==>
              var input := contextTokens - reservedTokens;
              var base := FixedTokens(promptTokens, toolTokens, memorySection, 0);
              var fixed := FixedTokens(promptTokens, toolTokens, memorySection, MemoryAllocation(memoryTokenBudget, input - base));
              && (built == Refused(ProtectedSectionsTooLarge) <==> base > input)
              && (built == Refused(ContextTooLarge) <==> base <= input && fixed > input)
              && (built.Request? ==>
                    && promptTokens + toolTokens + built.budget.memoryTokens + estimate(built.observations) <= input
                    && built.budget.memoryTokens == memorySection(MemoryAllocation(memoryTokenBudget, input - base))
                    && built.budget.observationTokens == estimate(built.observations)
                    && built.budget.EstimatedInputTokens() <= contextTokens - reservedTokens
                    && built.observations == Presented(observations, input - fixed, trimmed(input - fixed), estimate))
  {
    hide Presented, TellsSplit, RawEntries;
    if !ValidConfiguration(contextTokens, reservedTokens, memoryTokenBudget) {
      return Refused(InvalidConfiguration);
    }
    var input := contextTokens - reservedTokens;
    var baseBudget := ContextTokenBudget(input, promptTokens, memorySection(0), toolTokens, estimate([]));
    if !baseBudget.WithinBudget() {
      return Refused(ProtectedSectionsTooLarge);
    }
    var available := input - baseBudget.EstimatedInputTokens();
    var allocation := MemoryAllocation(memoryTokenBudget, available);
    var fixedBudget := ContextTokenBudget(input, promptTokens, memorySection(allocation), toolTokens, estimate([]));
    var observationBudget := fixedBudget.RemainingInputTokens();
    var compaction := CompactAgentContext(observations, observationBudget, trimmed(observationBudget), estimate);
    var budget := ContextTokenBudget(
      input, promptTokens, memorySection(allocation), toolTokens, estimate(compaction.modelObservations));
    if !budget.WithinBudget() {
      return Refused(ContextTooLarge);
    }
    return Request(compaction.modelObservations, budget);
  }
}
