/**
 * The saga map: one node per level 1..TOTAL_LEVELS, each locked, unlocked
 * or completed according to the unlocked list, and a click handler that
 * opens the location check for an unlocked level only.
 */
module SagaMapView {
  import opened Common
  import MapProgress

  /** Number of levels on the map. */
  const TOTAL_LEVELS: nat := 5

  /** `Array.from({ length: TOTAL_LEVELS }, (_, i) => i + 1)`. */
  function MapLevels(): (levels: seq<int>)
    ensures |levels| == TOTAL_LEVELS
    ensures forall i, j :: 0 <= i < j < |levels| ==> levels[i] < levels[j]
  {
    seq(TOTAL_LEVELS, i => i + 1)
  }

  /** The map shows exactly the levels 1..TOTAL_LEVELS, in ascending order, each once. */
  lemma MapLevelsExact()
    ensures |MapLevels()| == TOTAL_LEVELS
    ensures forall l :: l in MapLevels() <==> 1 <= l <= TOTAL_LEVELS
    ensures forall i, j :: 0 <= i < j < |MapLevels()| ==> MapLevels()[i] < MapLevels()[j]
  {
    forall l | 1 <= l <= TOTAL_LEVELS ensures l in MapLevels() {
      assert MapLevels()[l - 1] == l;
    }
  }

  /**
   * `isUnlocked`: the level is in the unlocked list. When levels 1..n are
   * unlocked, that is every level from 1 to n.
   */
  predicate IsUnlocked(unlocked: seq<int>, level: int)
    ensures unlocked == MapProgress.LevelsUpTo(|unlocked|) ==>
      (IsUnlocked(unlocked, level) <==> 1 <= level <= |unlocked|)
  {
    LevelsUpToMembers(|unlocked|);
    level in unlocked
  }

  /**
   * `isCompleted`: the level after it is unlocked. When levels 1..n are
   * unlocked, the completed ones are those below n.
   */
  predicate IsCompleted(unlocked: seq<int>, level: int)
    ensures unlocked == MapProgress.LevelsUpTo(|unlocked|) && level >= 1 ==>
      (IsCompleted(unlocked, level) <==> level < |unlocked|)
  {
    LevelsUpToMembers(|unlocked|);
    level + 1 in unlocked
  }

  /** The members of 1..n. */
  lemma LevelsUpToMembers(n: nat)
    ensures forall l :: l in MapProgress.LevelsUpTo(n) <==> 1 <= l <= n
  {
    forall l | 1 <= l <= n ensures l in MapProgress.LevelsUpTo(n) {
      assert MapProgress.LevelsUpTo(n)[l - 1] == l;
    }
  }

  /** The corner badge of a level node. */
  datatype Badge = LockBadge | StarBadge | NoBadge

  /** A locked node shows the lock; an unlocked, completed one the star; otherwise nothing. */
  function NodeBadge(unlocked: seq<int>, level: int): (b: Badge)
    ensures b == LockBadge <==> level !in unlocked
    ensures b == StarBadge <==> level in unlocked && level + 1 in unlocked
    ensures b == NoBadge <==> level in unlocked && level + 1 !in unlocked
  {
    if !IsUnlocked(unlocked, level) then LockBadge
    else if IsCompleted(unlocked, level) then StarBadge
    else NoBadge
  }

  /**
   * Completing an unlocked level puts the star on it, unlocks the next
   * node, and leaves every other node's lock as it was.
   */
  lemma CompletingShowsStar(prev: seq<int>, level: int, other: int)
    requires level in prev
    ensures NodeBadge(MapProgress.UnlockAfter(prev, level), level) == StarBadge
    ensures NodeBadge(MapProgress.UnlockAfter(prev, level), level + 1) != LockBadge
    ensures other != level + 1 ==>
      (NodeBadge(MapProgress.UnlockAfter(prev, level), other) == LockBadge <==> NodeBadge(prev, other) == LockBadge)
  {
  }

  /** The map's own state: which level is selected and whether the location modal is open. */
  class SagaMap {
    const unlockedLevels: seq<int>
    var selectedLevel: Option<int>
    var modalOpen: bool

    constructor (unlocked: seq<int>)
      ensures unlockedLevels == unlocked
      ensures selectedLevel == None && !modalOpen
    {
      unlockedLevels := unlocked;
      selectedLevel := None;
      modalOpen := false;
    }

    /** `handleNodeClick`: a locked level is ignored; an unlocked one is selected and the modal opened. */
    method HandleNodeClick(level: int)
      modifies this
      ensures level !in unlockedLevels ==>
        selectedLevel == old(selectedLevel) && modalOpen == old(modalOpen)
      ensures level in unlockedLevels ==> selectedLevel == Some(level) && modalOpen
    {
      if !IsUnlocked(unlockedLevels, level) {
        return;
      }
      selectedLevel := Some(level);
      modalOpen := true;
    }

    /** The modal's `onClose`: the selection is cleared and the modal closed. */
    method CloseModal()
      modifies this
      ensures selectedLevel == None && !modalOpen
    {
      modalOpen := false;
      selectedLevel := None;
    }
  }

  /** Clicking the locked level 2 while only level 1 is unlocked opens nothing. */
  method LockedClickScenario() returns (selected: Option<int>, open: bool)
    ensures selected == None && !open
  {
    var saga := new SagaMap([1]);
    saga.HandleNodeClick(2);
    selected, open := saga.selectedLevel, saga.modalOpen;
  }
}
