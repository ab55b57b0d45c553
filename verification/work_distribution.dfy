/**
 The catalogue of work distribution modes of the many-processor benchmark
 harness: the closed set of modes and the four static lists that select
 subsets of it.

 Each mode is described by two facts about a worker pair: whether each worker
 is given back its own payload (the "Self" modes, which exchange nothing), and
 whether both workers of a pair run on one and the same processor. The lists
 are literal sequences, as in the harness; the lemmas below prove that each one
 is exactly the order-preserving filter of `All()` by those facts.
 */
module WorkDistribution {
  import opened Sequences

  /** How work is distributed among processors during a benchmark run. */
  datatype WorkDistribution =
    | PinnedMemoryRegionPairs
    | PinnedSameMemoryRegion
    | PinnedSameProcessor
    | PinnedSelf
    | UnpinnedMemoryRegionPairs
    | ConstrainedSameMemoryRegion
    | UnpinnedSelf
    | UnpinnedPerMemoryRegionSelf

  /** Each member of a worker pair operates independently on its own payload,
      instead of the pair exchanging payloads before processing. */
  predicate GivesWorkersOwnPayload(d: WorkDistribution) {
    match d
    case PinnedSelf => true
    case UnpinnedSelf => true
    case UnpinnedPerMemoryRegionSelf => true
    case _ => false
  }

  /** Both workers of every pair are spawned on one and the same processor. */
  predicate PutsPairOnOneProcessor(d: WorkDistribution) {
    d.PinnedSameProcessor?
  }

  /** The payloads are exchanged between the two workers of a pair. */
  predicate ExchangesPayloads(d: WorkDistribution) {
    !GivesWorkersOwnPayload(d)
  }

  /** Every worker may be placed on a processor of its own, explicitly or by
      floating under the operating system's scheduler. */
  predicate AllowsUniqueProcessors(d: WorkDistribution) {
    !PutsPairOnOneProcessor(d)
  }

  /** Both selection criteria at once. */
  predicate AllowsUniqueProcessorsAndExchanges(d: WorkDistribution) {
    AllowsUniqueProcessors(d) && ExchangesPayloads(d)
  }

  /** All the work distribution modes, each exactly once. */
  function All(): (r: seq<WorkDistribution>)
    ensures |r| == 8 && NoDuplicates(r)
  {
    [ PinnedMemoryRegionPairs,
      PinnedSameMemoryRegion,
      PinnedSameProcessor,
      PinnedSelf,
      UnpinnedMemoryRegionPairs,
      ConstrainedSameMemoryRegion,
      UnpinnedSelf,
      UnpinnedPerMemoryRegionSelf ]
  }

  /** The modes that exchange payloads between the workers of a pair. */
  function AllWithoutSelf(): (r: seq<WorkDistribution>)
    ensures forall i :: 0 <= i < |r| ==> ExchangesPayloads(r[i])
  {
    [ PinnedMemoryRegionPairs,
      PinnedSameMemoryRegion,
      PinnedSameProcessor,
      UnpinnedMemoryRegionPairs,
      ConstrainedSameMemoryRegion ]
  }

  /** The modes that allow every worker to be placed on a different processor. */
  function AllWithUniqueProcessors(): (r: seq<WorkDistribution>)
    ensures forall i :: 0 <= i < |r| ==> AllowsUniqueProcessors(r[i])
  {
    [ PinnedMemoryRegionPairs,
      PinnedSameMemoryRegion,
      PinnedSelf,
      UnpinnedMemoryRegionPairs,
      ConstrainedSameMemoryRegion,
      UnpinnedSelf,
      UnpinnedPerMemoryRegionSelf ]
  }

  /** The modes that allow unique processors and exchange payloads. */
  function AllWithUniqueProcessorsWithoutSelf(): (r: seq<WorkDistribution>)
    ensures forall i :: 0 <= i < |r| ==> ExchangesPayloads(r[i]) && AllowsUniqueProcessors(r[i])
  {
    [ PinnedMemoryRegionPairs,
      PinnedSameMemoryRegion,
      UnpinnedMemoryRegionPairs,
      ConstrainedSameMemoryRegion ]
  }

  /** The one-element or empty contribution of `d` to a filter by `p`. */
  function Pick(d: WorkDistribution, p: WorkDistribution -> bool): seq<WorkDistribution> {
    if p(d) then [d] else []
  }

  /** Filtering `All()` decides each mode in turn, in declaration order. */
  lemma FilterAll(p: WorkDistribution -> bool)
    ensures Filter(All(), p) ==
      Pick(PinnedMemoryRegionPairs, p) + (
      Pick(PinnedSameMemoryRegion, p) + (
      Pick(PinnedSameProcessor, p) + (
      Pick(PinnedSelf, p) + (
      Pick(UnpinnedMemoryRegionPairs, p) + (
      Pick(ConstrainedSameMemoryRegion, p) + (
      Pick(UnpinnedSelf, p) +
      Pick(UnpinnedPerMemoryRegionSelf, p)))))))
  {
    var s7: seq<WorkDistribution> := [UnpinnedPerMemoryRegionSelf];
    var s6 := [UnpinnedSelf] + s7;
    var s5 := [ConstrainedSameMemoryRegion] + s6;
    var s4 := [UnpinnedMemoryRegionPairs] + s5;
    var s3 := [PinnedSelf] + s4;
    var s2 := [PinnedSameProcessor] + s3;
    var s1 := [PinnedSameMemoryRegion] + s2;
    var s0 := [PinnedMemoryRegionPairs] + s1;
    assert All() == s0;
    assert Filter(s7, p) == Pick(UnpinnedPerMemoryRegionSelf, p) by {
      assert s7 == [UnpinnedPerMemoryRegionSelf] + [];
      FilterCons(UnpinnedPerMemoryRegionSelf, [], p);
    }
    assert Filter(s6, p) == Pick(UnpinnedSelf, p) + Filter(s7, p) by {
      FilterCons(UnpinnedSelf, s7, p);
    }
    assert Filter(s5, p) == Pick(ConstrainedSameMemoryRegion, p) + Filter(s6, p) by {
      FilterCons(ConstrainedSameMemoryRegion, s6, p);
    }
    assert Filter(s4, p) == Pick(UnpinnedMemoryRegionPairs, p) + Filter(s5, p) by {
      FilterCons(UnpinnedMemoryRegionPairs, s5, p);
    }
    assert Filter(s3, p) == Pick(PinnedSelf, p) + Filter(s4, p) by {
      FilterCons(PinnedSelf, s4, p);
    }
    assert Filter(s2, p) == Pick(PinnedSameProcessor, p) + Filter(s3, p) by {
      FilterCons(PinnedSameProcessor, s3, p);
    }
    assert Filter(s1, p) == Pick(PinnedSameMemoryRegion, p) + Filter(s2, p) by {
      FilterCons(PinnedSameMemoryRegion, s2, p);
    }
    assert Filter(s0, p) == Pick(PinnedMemoryRegionPairs, p) + Filter(s1, p) by {
      FilterCons(PinnedMemoryRegionPairs, s1, p);
    }
  }

  /** `All()` lists each of the eight modes exactly once. */
  lemma AllListsEachModeOnce()
    ensures |All()| == 8
    ensures forall d: WorkDistribution :: d in All()
    ensures NoDuplicates(All())
  {
    forall d: WorkDistribution
      ensures d in All()
    {
      match d
      case PinnedMemoryRegionPairs => assert All()[0] == d;
      case PinnedSameMemoryRegion => assert All()[1] == d;
      case PinnedSameProcessor => assert All()[2] == d;
      case PinnedSelf => assert All()[3] == d;
      case UnpinnedMemoryRegionPairs => assert All()[4] == d;
      case ConstrainedSameMemoryRegion => assert All()[5] == d;
      case UnpinnedSelf => assert All()[6] == d;
      case UnpinnedPerMemoryRegionSelf => assert All()[7] == d;
    }
  }

  /** `AllWithoutSelf()` is `All()` without exactly the own-payload modes, in order. */
  lemma AllWithoutSelfIsFilter()
    ensures AllWithoutSelf() == Filter(All(), ExchangesPayloads)
    ensures forall d :: d in AllWithoutSelf() <==> !GivesWorkersOwnPayload(d)
  {
    FilterAll(ExchangesPayloads);
    AllListsEachModeOnce();
  }

  /** `AllWithUniqueProcessors()` is `All()` without exactly `PinnedSameProcessor`, in order. */
  lemma AllWithUniqueProcessorsIsFilter()
    ensures AllWithUniqueProcessors() == Filter(All(), AllowsUniqueProcessors)
    ensures forall d :: d in AllWithUniqueProcessors() <==> d != PinnedSameProcessor
  {
    FilterAll(AllowsUniqueProcessors);
    AllListsEachModeOnce();
  }

  /** The combined list is `All()` filtered by both criteria, in order. */
  lemma AllWithUniqueProcessorsWithoutSelfIsFilter()
    ensures AllWithUniqueProcessorsWithoutSelf() == Filter(All(), AllowsUniqueProcessorsAndExchanges)
    ensures forall d :: d in AllWithUniqueProcessorsWithoutSelf() <==>
      !GivesWorkersOwnPayload(d) && !PutsPairOnOneProcessor(d)
  {
    FilterAll(AllowsUniqueProcessorsAndExchanges);
    AllListsEachModeOnce();
  }

  /** The combined list is the order-preserving intersection of the two
      single-criterion lists, whichever of them is taken first. */
  lemma CombinedIsIntersection()
    ensures AllWithUniqueProcessorsWithoutSelf() ==
      Filter(AllWithoutSelf(), d => d in AllWithUniqueProcessors())
    ensures AllWithUniqueProcessorsWithoutSelf() ==
      Filter(AllWithUniqueProcessors(), d => d in AllWithoutSelf())
  {
    AllWithoutSelfIsFilter();
    AllWithUniqueProcessorsIsFilter();
    AllWithUniqueProcessorsWithoutSelfIsFilter();
    FilterIntersection(All(), ExchangesPayloads, AllowsUniqueProcessors,
                       AllowsUniqueProcessorsAndExchanges);
    FilterIntersection(All(), AllowsUniqueProcessors, ExchangesPayloads,
                       AllowsUniqueProcessorsAndExchanges);
  }

  /** Every list is an order-preserving, duplicate-free selection from `All()`,
      and the combined list is one from each single-criterion list. */
  lemma ListsAreDuplicateFreeSubsequences()
    ensures IsSubsequence(AllWithoutSelf(), All()) && NoDuplicates(AllWithoutSelf())
    ensures IsSubsequence(AllWithUniqueProcessors(), All()) && NoDuplicates(AllWithUniqueProcessors())
    ensures IsSubsequence(AllWithUniqueProcessorsWithoutSelf(), All())
    ensures NoDuplicates(AllWithUniqueProcessorsWithoutSelf())
    ensures IsSubsequence(AllWithUniqueProcessorsWithoutSelf(), AllWithoutSelf())
    ensures IsSubsequence(AllWithUniqueProcessorsWithoutSelf(), AllWithUniqueProcessors())
  {
    AllListsEachModeOnce();
    AllWithoutSelfIsFilter();
    AllWithUniqueProcessorsIsFilter();
    AllWithUniqueProcessorsWithoutSelfIsFilter();
    CombinedIsIntersection();
    FilterSelects(All(), ExchangesPayloads);
    FilterSelects(All(), AllowsUniqueProcessors);
    FilterSelects(All(), AllowsUniqueProcessorsAndExchanges);
    FilterSelects(AllWithoutSelf(), d => d in AllWithUniqueProcessors());
    FilterSelects(AllWithUniqueProcessors(), d => d in AllWithoutSelf());
    SubsequenceNoDuplicates(AllWithoutSelf(), All());
    SubsequenceNoDuplicates(AllWithUniqueProcessors(), All());
    SubsequenceNoDuplicates(AllWithUniqueProcessorsWithoutSelf(), All());
  }
}
