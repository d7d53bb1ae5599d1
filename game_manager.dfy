/**
 * The game manager: its own lists of duck and enemy controllers taken from the activity
 * manager, index queries over them, per-index and bulk activity switches, and the list of
 * ducks collected at the exit.
 */
module Managers {
  import opened Base
  import opened Registry
  import opened Activity

  /** Whether the entry counts as an active object: not destroyed and switched on. */
  predicate IsActiveEntry(o: GameObject)
    reads o
  {
    !o.destroyed && o.active
  }

  /** The number of entries that are live and active (FindAll(...).Count). */
  function ActiveCount(l: seq<GameObject>): (n: nat)
    reads set o: GameObject | o in l
    ensures n <= |l|
    ensures n == |l| <==> forall i :: 0 <= i < |l| ==> IsActiveEntry(l[i])
    ensures n == 0 <==> forall i :: 0 <= i < |l| ==> !IsActiveEntry(l[i])
  {
    if |l| == 0 then 0
    else
      var rest := ActiveCount(l[..|l| - 1]);
      assert forall i :: 0 <= i < |l| - 1 ==> l[..|l| - 1][i] == l[i];
      rest + if IsActiveEntry(l[|l| - 1]) then 1 else 0
  }

  /**
   * DeleteContainedObjectFromList as written: it removes only when the element is NOT in the
   * list, so the removal never finds anything. Returns the result and the list afterwards.
   */
  function DeleteContainedObjectFromListAsWritten<T(==)>(toDelete: Option<T>, fromList: Option<seq<T>>): (r: (bool, Option<seq<T>>))
    ensures r.1 == fromList
    ensures r.0 <==> toDelete.Some? && fromList.Some? && toDelete.value !in fromList.value
  {
    if toDelete.None? || fromList.None? then (false, fromList)
    else if !ContainsComponent(toDelete.value, fromList.value) then (true, Some(RemoveFirst(fromList.value, toDelete.value)))
    else (false, fromList)
  }

  /** A collected duck that is in the list stays in it, and the call reports failure. */
  lemma AsWrittenKeepsCollectedDuck(d: GameObject)
    ensures DeleteContainedObjectFromListAsWritten(Some(d), Some([d])) == (false, Some([d]))
    ensures d in Or(DeleteContainedObjectFromListAsWritten(Some(d), Some([d])).1)
  {
    assert d in [d];
  }

  /**
   * DeleteContainedObjectFromList as intended: removes the first occurrence of a contained
   * element and reports whether it did.
   */
  function DeleteContainedObjectFromList<T(==)>(toDelete: Option<T>, fromList: Option<seq<T>>): (r: (bool, Option<seq<T>>))
    ensures r.0 <==> toDelete.Some? && fromList.Some? && toDelete.value in fromList.value
    ensures r.0 ==> r.1 == Some(RemoveFirst(fromList.value, toDelete.value))
    ensures r.0 ==> multiset(r.1.value) == multiset(fromList.value) - multiset{toDelete.value}
    ensures !r.0 ==> r.1 == fromList
  {
    if toDelete.None? || fromList.None? then (false, fromList)
    else if ContainsComponent(toDelete.value, fromList.value) then (true, Some(RemoveFirst(fromList.value, toDelete.value)))
    else (false, fromList)
  }

  class GameManager {
    const am: ActivityManager
    var ducks: Option<seq<GameObject>>
    var enemies: Option<seq<GameObject>>
    var collected: Option<seq<GameObject>>

    /** Awake of the first instance: a fresh activity manager, no lists yet. */
    constructor (activity: ActivityManager)
      ensures am == activity && ducks.None? && enemies.None? && collected.None?
    {
      am := activity;
      ducks := None;
      enemies := None;
      collected := None;
    }

    function ListOf(k: Kind): Option<seq<GameObject>>
      reads this
    {
      if k == DuckList then ducks else enemies
    }

    /**
     * The indices whose entry satisfies the condition, in increasing order; None stands for the
     * exception a null list raises.
     */
    method GetIndicesByCondition(k: Kind, condition: GameObject -> bool) returns (indices: Option<seq<int>>)
      ensures indices.None? <==> ListOf(k).None?
      ensures indices.Some? ==>
        var l := ListOf(k).value;
        && (forall j :: 0 <= j < |indices.value| ==> 0 <= indices.value[j] < |l| && condition(l[indices.value[j]]))
        && (forall j, m :: 0 <= j < m < |indices.value| ==> indices.value[j] < indices.value[m])
        && (forall i :: 0 <= i < |l| && condition(l[i]) ==> i in indices.value)
    {
      if ListOf(k).None? {
        return None;
      }
      var l := ListOf(k).value;
      var found: seq<int> := [];
      var i := 0;
      while i < |l|
        invariant 0 <= i <= |l|
        invariant forall j :: 0 <= j < |found| ==> 0 <= found[j] < i && condition(l[found[j]])
        invariant forall j, m :: 0 <= j < m < |found| ==> found[j] < found[m]
        invariant forall n :: 0 <= n < i && condition(l[n]) ==> n in found
      {
        if condition(l[i]) {
          found := found + [i];
        }
        i := i + 1;
      }
      indices := Some(found);
    }

    /**
     * Switches the entry at `index` through the activity manager, for indices in range only.
     * A null list raises before anything changes.
     */
    method SetSpecificActive(index: int, k: Kind, active: bool)
      modifies if ListOf(k).Some? && 0 <= index < |ListOf(k).value| then {ListOf(k).value[index]} else {}
      ensures ListOf(k).Some? && 0 <= index < |ListOf(k).value| ==>
        var o := ListOf(k).value[index];
        var reg := am.ListOf(k);
        var hit := reg.Some? && |reg.value| > 0 && !o.destroyed && o in reg.value;
        o.active == (if hit then active else old(o.active)) && o.position == old(o.position)
    {
      if ListOf(k).None? {
        return;
      }
      var l := ListOf(k).value;
      if index >= 0 && index < |l| {
        am.ChangeComponentActivity(Some(l[index]), k, active);
      }
    }

    /** SetDucksActivity / SetEnemiesActivity: every entry the activity manager holds is switched. */
    method SetActivity(k: Kind, isActive: bool)
      modifies set o: GameObject | o in Or(ListOf(k))
      ensures forall o :: o in Or(ListOf(k)) ==>
        var reg := am.ListOf(k);
        var hit := reg.Some? && |reg.value| > 0 && |Or(ListOf(k))| > 0 && !o.destroyed && o in reg.value;
        && o.active == (if hit then isActive else old(o.active))
        && o.position == old(o.position) && o.destroyed == old(o.destroyed)
    {
      am.ChangeComponentsActivity(ListOf(k), k, isActive);
    }

    /** EnableAllObjects: both lists switched to the same state. */
    method EnableAllObjects(isActive: bool)
      modifies set o: GameObject | o in Or(ducks) + Or(enemies)
      ensures forall o :: o in Or(ducks) + Or(enemies) ==>
        var rd := am.ListOf(DuckList);
        var re := am.ListOf(EnemyList);
        var hitDuck := rd.Some? && |rd.value| > 0 && o in Or(ducks) && !o.destroyed && o in rd.value;
        var hitEnemy := re.Some? && |re.value| > 0 && o in Or(enemies) && !o.destroyed && o in re.value;
        o.active == (if hitDuck || hitEnemy then isActive else old(o.active))
    {
      SetActivity(DuckList, isActive);
      ghost var between := map o | o in Or(ducks) + Or(enemies) :: o.active;
      SetActivity(EnemyList, isActive);
      forall o | o in Or(ducks) + Or(enemies)
        ensures o in Or(ducks) ==> between[o] == (if o in Or(am.ListOf(DuckList)) && !o.destroyed then isActive else old(o.active))
        ensures o !in Or(ducks) ==> between[o] == old(o.active)
        ensures o in Or(enemies) ==> o.active == (if o in Or(am.ListOf(EnemyList)) && !o.destroyed then isActive else between[o])
        ensures o !in Or(enemies) ==> o.active == between[o]
      {
      }
    }

    /** GetActiveDucksCount / GetActiveEnemiesCount; None stands for the exception a null list raises. */
    function GetActiveCount(k: Kind): (n: Option<nat>)
      reads this, set o: GameObject | o in Or(ListOf(k))
      ensures n.None? <==> ListOf(k).None?
      ensures n.Some? ==> n.value <= |ListOf(k).value|
      ensures n.Some? ==> (n.value == 0 <==> forall i :: 0 <= i < |ListOf(k).value| ==> !IsActiveEntry(ListOf(k).value[i]))
    {
      if ListOf(k).None? then None else Some(ActiveCount(ListOf(k).value))
    }

    /** The number of collected ducks, zero before the first. */
    function GetCollectedCount(): (n: nat)
      reads this
      ensures collected.None? ==> n == 0
      ensures collected.Some? ==> n == |collected.value|
    {
      if collected.Some? then |collected.value| else 0
    }

    /**
     * A duck reached the exit, as written: the removal from the duck list goes through the
     * inverted test, so the duck list keeps the duck. It is switched off, moved to (-99, -99)
     * and joins the collected list once. Objects without a duck are ignored.
     */
    method HandleCollectedDuck(obj: GameObject)
      modifies this`ducks, this`collected, obj`active, obj`position
      ensures obj.duck == null ==>
        ducks == old(ducks) && collected == old(collected) && obj.active == old(obj.active) && obj.position == old(obj.position)
      ensures obj.duck != null ==>
        && ducks == old(ducks)
        && !obj.active && obj.position == Vec2(-99.0, -99.0)
        && collected == Registry.AddObject(Some(obj), old(collected)).1
        && obj in Or(collected)
        && GetCollectedCount() == old(GetCollectedCount()) + (if obj in Or(old(collected)) then 0 else 1)
      ensures old(NoDups(Or(collected))) ==> NoDups(Or(collected))
    {
      if obj.duck != null {
        if NoDups(Or(collected)) {
          AddObjectKeepsNoDups(Some(obj), collected);
        }
        var deleted := DeleteContainedObjectFromListAsWritten(Some(obj), ducks);
        ducks := deleted.1;
        DeactivateAndHide(obj);
        var added := Registry.AddObject(Some(obj), collected);
        collected := added.1;
      }
    }

    /**
     * HandleCollectedDuck with the removal as intended: the duck leaves the duck list (every
     * occurrence, on a duplicate-free list), and the rest is as in HandleCollectedDuck.
     */
    method HandleCollectedDuckCorrected(obj: GameObject)
      modifies this`ducks, this`collected, obj`active, obj`position
      ensures obj.duck == null ==>
        ducks == old(ducks) && collected == old(collected) && obj.active == old(obj.active) && obj.position == old(obj.position)
      ensures obj.duck != null ==>
        && ducks == DeleteContainedObjectFromList(Some(obj), old(ducks)).1
        && !obj.active && obj.position == Vec2(-99.0, -99.0)
        && collected == Registry.AddObject(Some(obj), old(collected)).1
        && obj in Or(collected)
        && GetCollectedCount() == old(GetCollectedCount()) + (if obj in Or(old(collected)) then 0 else 1)
        && (old(NoDups(Or(ducks))) ==> obj !in Or(ducks))
      ensures old(NoDups(Or(collected))) ==> NoDups(Or(collected))
    {
      if obj.duck != null {
        if ducks.Some? && NoDups(ducks.value) {
          RemoveFirstLeavesNone(ducks.value, obj);
        }
        if NoDups(Or(collected)) {
          AddObjectKeepsNoDups(Some(obj), collected);
        }
        var deleted := DeleteContainedObjectFromList(Some(obj), ducks);
        ducks := deleted.1;
        DeactivateAndHide(obj);
        var added := Registry.AddObject(Some(obj), collected);
        collected := added.1;
      }
    }

    /** Switches the object off and parks it at (-99, -99). */
    method DeactivateAndHide(obj: GameObject)
      modifies obj`active, obj`position
      ensures !obj.active && obj.position == Vec2(-99.0, -99.0)
    {
      obj.active := false;
      obj.position := Vec2(-99.0, -99.0);
    }

    /**
     * Registers every duck and enemy found in the scene with the activity manager and takes
     * the manager's duck and enemy controllers as this manager's lists.
     */
    method InitLists(duckObjects: seq<Option<GameObject>>, enemyObjects: seq<Option<GameObject>>)
      modifies this`ducks, this`enemies, am`ducks, am`enemies
      ensures ducks == Some(WithDuck(Or(am.ducks))) && enemies == Some(WithEnemy(Or(am.enemies)))
      ensures forall i :: 0 <= i < |duckObjects| && duckObjects[i].Some? && duckObjects[i].value.duck != null ==>
        duckObjects[i].value in Or(ducks)
      ensures forall i :: 0 <= i < |enemyObjects| && enemyObjects[i].Some? && enemyObjects[i].value.enemy != null ==>
        enemyObjects[i].value in Or(enemies)
      ensures old(am.Valid()) ==> am.Valid()
    {
      var _ := am.AddObjects(duckObjects, DuckList);
      var _ := am.AddObjects(enemyObjects, EnemyList);
      ducks := Some(WithDuck(Or(am.ducks)));
      enemies := Some(WithEnemy(Or(am.enemies)));
    }

    /** Disposes the activity manager and drops the collected list. */
    method OnDestroy()
      modifies this`collected, am`ducks, am`enemies
      ensures collected.None? && GetCollectedCount() == 0
      ensures am.ducks.None? && am.enemies.None?
    {
      am.OnDispose();
      collected := None;
    }
  }
}
