/**
 * The bookkeeping of the noncommutative Buchberger algorithm: the counter
 * of unfruitful rounds and the smallest number of nontips seen so far, the
 * expansion level of the reduced vectors, and the predicates that decide
 * whether the rank is correct, whether more generators are needed and
 * whether the kernel's own Buchberger run should start. The vector
 * arithmetic these sit on is not part of the model; where a predicate asks
 * it something (the dimension of the deepest heady vector), the answer is a
 * parameter.
 */
module Buchberger {

  /** `targetRank` when the expected rank is not known. */
  const RANK_UNKNOWN: int := -1
  /** `expDim` before any reduced vector has been recorded. */
  const NOTHING_TO_EXPAND: int := -1
  /** `expDim` of a system that needs no Buchberger run at all. */
  const NO_BUCHBERGER_REQUIRED: int := -2

  /** A reduced vector; only its expansion level matters here. */
  class ReducedVector {
    /** Every expansion of this vector of dimension at most `expDim` has been performed. */
    var expDim: int

    constructor (e: int)
      ensures expDim == e
    {
      expDim := e;
    }
  }

  /** The part of the group record the predicates read. */
  datatype GroupData = GroupData(nontips: int, maxlength: int)

  /** Progress of a system of generators: the value the update works on. */
  datatype Status = Status(prevPnon: int, unfruitful: int)

  /** `ngs_t`: a noncommutative Groebner system in progress. */
  class Ngs {
    var pnontips: int
    var prevPnon: int
    var unfruitful: int
    var targetRank: int
    var r: int
    var expDim: int
    var unreducedHeapEmpty: bool
    /** The list starting at `firstReduced`, in list order. */
    var reduced: seq<ReducedVector>

    /** Each reduced vector occurs once in the list. */
    predicate Valid()
      reads this
    {
      forall i, j :: 0 <= i < j < |reduced| ==> reduced[i] != reduced[j]
    }

    function CurrentStatus(): Status
      reads this
    {
      Status(prevPnon, unfruitful)
    }

    /** `ngs->expDim` is at most the level of every reduced vector. */
    predicate LevelIsLowerBound()
      reads this, reduced
    {
      forall i :: 0 <= i < |reduced| ==> reduced[i].expDim >= expDim
    }

    /** `initializeCommonBuchStatus`. */
    method InitializeStatus()
      modifies this`prevPnon, this`unfruitful
      ensures CurrentStatus() == Status(pnontips, 0)
    {
      prevPnon := pnontips;
      unfruitful := 0;
    }

    /** `updateCommonBuchStatus`: one more round, fruitful if the nontips dropped. */
    method UpdateStatus()
      modifies this`prevPnon, this`unfruitful
      ensures CurrentStatus() == Step(old(CurrentStatus()), pnontips)
      ensures pnontips < old(prevPnon) ==> prevPnon == pnontips && unfruitful == 0
      ensures pnontips >= old(prevPnon) ==> prevPnon == old(prevPnon) && unfruitful == old(unfruitful) + 1
    {
      if pnontips < prevPnon {
        prevPnon := pnontips;
        unfruitful := 0;
      } else {
        unfruitful := unfruitful + 1;
      }
    }

    /**
     * The end of `nFgsExpandThisLevel` and `nRgsExpandThisLevel`: every
     * reduced vector at the level just expanded moves up one level, then the
     * system's level moves up too.
     */
    method RaiseExpansionLevel()
      requires Valid()
      modifies this`expDim, reduced
      ensures expDim == old(expDim) + 1
      ensures reduced == old(reduced)
      ensures forall i :: 0 <= i < |reduced| ==>
        reduced[i].expDim == if old(reduced[i].expDim) == old(expDim) then old(expDim) + 1 else old(reduced[i].expDim)
      ensures old(LevelIsLowerBound()) ==> LevelIsLowerBound()
    {
      var dim := expDim;
      var i := 0;
      while i < |reduced|
        invariant 0 <= i <= |reduced|
        invariant expDim == dim && reduced == old(reduced)
        invariant forall j :: 0 <= j < i ==>
          reduced[j].expDim == if old(reduced[j].expDim) == dim then dim + 1 else old(reduced[j].expDim)
        invariant forall j :: i <= j < |reduced| ==> reduced[j].expDim == old(reduced[j].expDim)
      {
        var rv := reduced[i];
        if rv.expDim == dim {
          rv.expDim := rv.expDim + 1;
        }
        i := i + 1;
      }
      expDim := expDim + 1;
    }
  }

  /** `nFgs_t`: the Groebner system of a kernel, with the relation to its parent. */
  class FullGs {
    var ngs: Ngs
    var nRgsUnfinished: bool
    var maxUnfruitful: int

    constructor (n: Ngs, unfinished: bool, maxU: int)
      ensures ngs == n && nRgsUnfinished == unfinished && maxUnfruitful == maxU
    {
      ngs := n;
      nRgsUnfinished := unfinished;
      maxUnfruitful := maxU;
    }
  }

  /** `nRgs_t`: a Groebner system together with the system of its kernel. */
  class RelGs {
    var ngs: Ngs
    var ker: FullGs
    var overshoot: int
    var prevKerPnon: int

    constructor (n: Ngs, k: FullGs, o: int)
      ensures ngs == n && ker == k && overshoot == o
    {
      ngs := n;
      ker := k;
      overshoot := o;
      prevKerPnon := 0;
    }

    /** Has the visible kernel shrunk since its size was last recorded? */
    predicate KernelShrank()
      reads this, ker, ker.ngs
    {
      ker.ngs.pnontips < prevKerPnon
    }

    /** `recordCurrentSizeOfVisibleKernel`. */
    method RecordVisibleKernel()
      modifies this`prevKerPnon
      ensures prevKerPnon == ker.ngs.pnontips
      ensures !KernelShrank()
    {
      prevKerPnon := ker.ngs.pnontips;
    }
  }

  /** One update of the status, given the number of nontips after the round. */
  function Step(s: Status, pnontips: int): Status
  {
    if pnontips < s.prevPnon then Status(pnontips, 0) else s.(unfruitful := s.unfruitful + 1)
  }

  /** The status after one update per entry of `history`, oldest first. */
  function Run(s: Status, history: seq<int>): Status
  {
    if history == [] then s else Step(Run(s, history[..|history| - 1]), history[|history| - 1])
  }

  /**
   * After initialisation with `start` nontips and one update per round:
   * `prevPnon` is the smallest count seen; `unfruitful` counts the rounds
   * since the last round that lowered it, none of which went below it; and
   * the round just before those is the one that set it.
   */
  lemma {:induction false} RunTracksMinimum(start: int, history: seq<int>)
    ensures var s := Run(Status(start, 0), history);
      && 0 <= s.unfruitful <= |history|
      && s.prevPnon <= start
      && (forall i :: 0 <= i < |history| ==> s.prevPnon <= history[i])
      && (forall j :: |history| - s.unfruitful <= j < |history| ==> history[j] >= s.prevPnon)
      && (s.unfruitful < |history| ==> history[|history| - 1 - s.unfruitful] == s.prevPnon)
      && (s.unfruitful == |history| ==> s.prevPnon == start)
  {
    if history != [] {
      var init := history[..|history| - 1];
      RunTracksMinimum(start, init);
      var s0 := Run(Status(start, 0), init);
      assert forall i :: 0 <= i < |init| ==> init[i] == history[i];
    }
  }

  /** `easyCorrectRank`: the rank is known and accounts for all nontips. */
  function EasyCorrectRank(ngs: Ngs, group: GroupData): (ok: bool)
    reads ngs
    ensures ok ==> ngs.targetRank != RANK_UNKNOWN
    ensures ok ==> ngs.targetRank == ngs.r * group.nontips - ngs.pnontips
  {
    ngs.targetRank != RANK_UNKNOWN && ngs.targetRank + ngs.pnontips == ngs.r * group.nontips
  }

  /**
   * `allExpansionsDone`: -1 for a system that needs no Buchberger run, 1
   * when nothing is left to expand, else 0 exactly while the expansion level
   * has not passed the longest nontip.
   */
  function AllExpansionsDone(ngs: Ngs, group: GroupData): (d: int)
    reads ngs
    ensures -1 <= d <= 1
    ensures d == -1 <==> ngs.expDim == NO_BUCHBERGER_REQUIRED
    ensures d == 0 ==> ngs.expDim != NOTHING_TO_EXPAND && ngs.expDim <= group.maxlength
    ensures ngs.expDim >= 0 ==> (d == 0 <==> ngs.expDim <= group.maxlength)
  {
    if ngs.expDim == NO_BUCHBERGER_REQUIRED then -1
    else if ngs.expDim == NOTHING_TO_EXPAND then 1
    else if ngs.expDim <= group.maxlength then 0
    else 1
  }

  /**
   * The expansion loops stop: after raising the level from `before`,
   * expansions remain exactly while `before` was below the longest nontip,
   * and all are done exactly when `before` was the longest nontip itself.
   */
  lemma ExpansionLevelsRunOut(before: int, group: GroupData, ngs: Ngs)
    requires 0 <= before <= group.maxlength
    requires ngs.expDim == before + 1
    ensures AllExpansionsDone(ngs, group) == 0 <==> before < group.maxlength
    ensures AllExpansionsDone(ngs, group) == 1 <==> before == group.maxlength
  {
  }

  /**
   * `hardCorrectRank`: true whenever the easy test succeeds; otherwise
   * false while the parent system is unfinished or unreduced vectors wait,
   * and else the answer of `allExpansionsDone`.
   */
  function HardCorrectRank(fgs: FullGs, group: GroupData): (h: int)
    reads fgs, fgs.ngs
    ensures -1 <= h <= 1
    ensures EasyCorrectRank(fgs.ngs, group) ==> h == 1
    ensures h == -1 ==> fgs.ngs.expDim == NO_BUCHBERGER_REQUIRED
    ensures !EasyCorrectRank(fgs.ngs, group) && (fgs.nRgsUnfinished || !fgs.ngs.unreducedHeapEmpty) ==> h == 0
    ensures h == 1 ==> EasyCorrectRank(fgs.ngs, group) || (!fgs.nRgsUnfinished && fgs.ngs.unreducedHeapEmpty)
    ensures !EasyCorrectRank(fgs.ngs, group) && !fgs.nRgsUnfinished && fgs.ngs.unreducedHeapEmpty ==>
      h == AllExpansionsDone(fgs.ngs, group)
  {
    if EasyCorrectRank(fgs.ngs, group) then 1
    else if fgs.nRgsUnfinished then 0
    else if !fgs.ngs.unreducedHeapEmpty then 0
    else AllExpansionsDone(fgs.ngs, group)
  }

  /**
   * `appropriateToPerformHeadyBuchberger`: only with the easy rank test
   * passed; then when the kernel's parent is finished or the unfruitful
   * count has just reached the overshoot, or, beyond the overshoot, when the
   * visible kernel has shrunk.
   */
  function AppropriateToPerformHeadyBuchberger(rgs: RelGs, group: GroupData): (go: bool)
    reads rgs, rgs.ngs, rgs.ker, rgs.ker.ngs
    ensures go ==> EasyCorrectRank(rgs.ngs, group)
    ensures go && rgs.ker.nRgsUnfinished && rgs.ngs.unfruitful != rgs.overshoot ==>
      rgs.ngs.unfruitful > rgs.overshoot && rgs.KernelShrank()
    ensures EasyCorrectRank(rgs.ngs, group) && !rgs.ker.nRgsUnfinished ==> go
    ensures EasyCorrectRank(rgs.ngs, group) && rgs.ngs.unfruitful == rgs.overshoot ==> go
    ensures EasyCorrectRank(rgs.ngs, group) && rgs.ker.nRgsUnfinished && rgs.ngs.unfruitful < rgs.overshoot ==> !go
    ensures EasyCorrectRank(rgs.ngs, group) && rgs.ker.nRgsUnfinished && rgs.ngs.unfruitful > rgs.overshoot ==>
      (go <==> rgs.KernelShrank())
  {
    if !EasyCorrectRank(rgs.ngs, group) then false
    else if !rgs.ker.nRgsUnfinished || rgs.ngs.unfruitful == rgs.overshoot then true
    else if rgs.ngs.unfruitful < rgs.overshoot then false
    else rgs.KernelShrank()
  }

  /**
   * Right after the kernel's size has been recorded, only the first two
   * reasons can start the kernel's run.
   */
  lemma AppropriateAfterRecording(rgs: RelGs, group: GroupData)
    requires !rgs.KernelShrank()
    ensures AppropriateToPerformHeadyBuchberger(rgs, group) <==>
      EasyCorrectRank(rgs.ngs, group) && (!rgs.ker.nRgsUnfinished || rgs.ngs.unfruitful == rgs.overshoot)
  {
  }

  /**
   * Once the parent system is finished and no unreduced vector waits, the
   * hard rank test passes exactly when the easy one does or the expansion
   * level has passed the longest nontip; with `ExpansionLevelsRunOut`, the
   * expansion loop therefore ends with the hard test passed.
   */
  lemma HardRankOnceExpanded(fgs: FullGs, group: GroupData)
    requires !fgs.nRgsUnfinished && fgs.ngs.unreducedHeapEmpty
    requires fgs.ngs.expDim >= 0
    ensures HardCorrectRank(fgs, group) == 1 <==>
      EasyCorrectRank(fgs.ngs, group) || fgs.ngs.expDim > group.maxlength
    ensures HardCorrectRank(fgs, group) != -1
  {
  }

  /**
   * `checkRanksCorrect`: 1 when the rank of the kernel is the expected one
   * or nothing was expected, 0 otherwise.
   */
  function CheckRanksCorrect(rgs: RelGs): (ok: int)
    reads rgs, rgs.ngs, rgs.ker, rgs.ker.ngs
    ensures ok == 0 || ok == 1
    ensures ok == 0 <==> rgs.ngs.targetRank != RANK_UNKNOWN && rgs.ker.ngs.pnontips != rgs.ngs.targetRank
  {
    if rgs.ngs.targetRank == RANK_UNKNOWN then 1
    else if rgs.ker.ngs.pnontips != rgs.ngs.targetRank then 0
    else 1
  }

  /**
   * `shouldFetchMoreGenerators`: only while the parent system is
   * unfinished, the unfruitful count has reached its maximum and the rank is
   * not yet easily correct; then exactly when the deepest heady vector lies
   * at or below the expansion level.
   */
  function ShouldFetchMoreGenerators(fgs: FullGs, group: GroupData, deepestHeady: int): (fetch: bool)
    reads fgs, fgs.ngs
    ensures fetch ==> fgs.nRgsUnfinished && fgs.ngs.unfruitful >= fgs.maxUnfruitful
    ensures fetch ==> !EasyCorrectRank(fgs.ngs, group)
    ensures fgs.nRgsUnfinished && fgs.ngs.unfruitful >= fgs.maxUnfruitful && !EasyCorrectRank(fgs.ngs, group) ==>
      (fetch <==> deepestHeady <= fgs.ngs.expDim)
  {
    if !fgs.nRgsUnfinished then false
    else if fgs.ngs.unfruitful < fgs.maxUnfruitful then false
    else if EasyCorrectRank(fgs.ngs, group) then false
    else deepestHeady <= fgs.ngs.expDim
  }

  /**
   * A system whose rank is easily correct never asks for more generators,
   * and its hard test agrees.
   */
  lemma EasyRankStopsFetching(fgs: FullGs, group: GroupData, deepestHeady: int)
    requires EasyCorrectRank(fgs.ngs, group)
    ensures !ShouldFetchMoreGenerators(fgs, group, deepestHeady)
    ensures HardCorrectRank(fgs, group) == 1
  {
  }
}
