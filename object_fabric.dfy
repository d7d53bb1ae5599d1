/**
 * The object fabric: spawns a pool of collectables at the first spots, or of enemies at
 * randomly shuffled distinct spots, switches the pool on and off, and destroys it.
 * The random draws of the shuffle are an argument.
 */
module Fabric {
  import opened Base
  import opened DuckChain
  import opened Enemy
  import opened Registry

  /** A spawn point. Its parent transform is not modelled. */
  datatype Spot = Spot(position: Vec2)

  /** What an instance of the prefab carries. */
  datatype Prefab = DuckPrefab | EnemyPrefab(moveForce: real, alertSeconds: real) | PlainPrefab

  function Swap<T>(s: seq<T>, i: nat, j: nat): (r: seq<T>)
    requires i < |s| && j < |s|
    ensures |r| == |s| && r[i] == s[j] && r[j] == s[i]
    ensures forall m :: 0 <= m < |s| && m != i && m != j ==> r[m] == s[m]
  {
    s[i := s[j]][j := s[i]]
  }

  /** Whether `ks` is a valid sequence of draws: the draw for position n lies in [0, n]. */
  predicate ValidDraws(ks: seq<int>)
  {
    forall j :: 0 <= j < |ks| ==> 0 <= ks[j] <= j
  }

  /**
   * The shuffle of the first `n` positions: for n = |s|-1 down to 1, swap position n with the
   * drawn position ks[n].
   */
  function Shuffled<T>(s: seq<T>, ks: seq<int>, n: nat): (r: seq<T>)
    requires n <= |s| && n <= |ks| && ValidDraws(ks)
    ensures |r| == |s|
    decreases n
  {
    if n <= 1 then s else Shuffled(Swap(s, ks[n - 1], n - 1), ks, n - 1)
  }

  /** Whatever the draws, the shuffle is a permutation of its input. */
  lemma {:induction false} ShuffledIsPermutation<T>(s: seq<T>, ks: seq<int>, n: nat)
    requires n <= |s| && n <= |ks| && ValidDraws(ks)
    ensures multiset(Shuffled(s, ks, n)) == multiset(s)
    decreases n
  {
    if n > 1 {
      var t := Swap(s, ks[n - 1], n - 1);
      SwapIsPermutation(s, ks[n - 1], n - 1);
      ShuffledIsPermutation(t, ks, n - 1);
    }
  }

  lemma SwapIsPermutation<T>(s: seq<T>, i: nat, j: nat)
    requires i < |s| && j < |s|
    ensures multiset(Swap(s, i, j)) == multiset(s)
  {
    var t := s[i := s[j]];
    assert multiset(t) == multiset(s) - multiset{s[i]} + multiset{s[j]};
    assert multiset(t[j := s[i]]) == multiset(t) - multiset{t[j]} + multiset{s[i]};
  }

  /** The shuffle keeps a duplicate-free sequence duplicate-free. */
  lemma {:induction false} ShuffledKeepsNoDups<T>(s: seq<T>, ks: seq<int>, n: nat)
    requires n <= |s| && n <= |ks| && ValidDraws(ks) && NoDups(s)
    ensures NoDups(Shuffled(s, ks, n))
    decreases n
  {
    if n > 1 {
      var i, j := ks[n - 1], n - 1;
      var t := Swap(s, i, j);
      forall a, b | 0 <= a < b < |t|
        ensures t[a] != t[b]
      {
        var a' := if a == i then j else if a == j then i else a;
        var b' := if b == i then j else if b == j then i else b;
        assert t[a] == s[a'] && t[b] == s[b'];
        assert a' != b';
        if a' > b' {
          assert s[b'] != s[a'];
        }
      }
      ShuffledKeepsNoDups(t, ks, n - 1);
    }
  }

  /** The indices 0 .. n-1 in order. */
  function Range(n: nat): (r: seq<int>)
    ensures |r| == n && forall i :: 0 <= i < n ==> r[i] == i
  {
    if n == 0 then [] else Range(n - 1) + [n - 1]
  }

  /** A shuffle of 0 .. n-1 lists every index once, so its entries are distinct and in range. */
  lemma ShuffledRange(ks: seq<int>, n: nat)
    requires n <= |ks| && ValidDraws(ks)
    ensures NoDups(Shuffled(Range(n), ks, n))
    ensures forall i :: 0 <= i < n ==> 0 <= Shuffled(Range(n), ks, n)[i] < n
  {
    var r := Range(n);
    ShuffledKeepsNoDups(r, ks, n);
    ShuffledIsPermutation(r, ks, n);
    var sh := Shuffled(r, ks, n);
    forall i | 0 <= i < n
      ensures 0 <= sh[i] < n
    {
      assert sh[i] in multiset(sh);
      assert sh[i] in multiset(r);
    }
  }

  /** ShuffleList: the in-place shuffle, driven by the draws `ks` (ks[0] is never used). */
  method ShuffleList<T>(a: array<T>, ks: seq<int>)
    requires |ks| == a.Length && ValidDraws(ks)
    modifies a
    ensures a[..] == Shuffled(old(a[..]), ks, a.Length)
    ensures multiset(a[..]) == multiset(old(a[..]))
    ensures a.Length <= 1 ==> a[..] == old(a[..])
  {
    var n := a.Length;
    while n > 1
      invariant 0 <= n <= a.Length
      invariant Shuffled(a[..], ks, n) == Shuffled(old(a[..]), ks, a.Length)
    {
      n := n - 1;
      var k := ks[n];
      var value := a[k];
      a[k] := a[n];
      a[n] := value;
    }
    ShuffledIsPermutation(old(a[..]), ks, a.Length);
  }

  class ObjectFabric {
    var amount: int
    const prefab: Option<Prefab>
    const player: PlayerAttachment?
    var pool: Option<seq<GameObject>>

    constructor (pl: PlayerAttachment?, p: Option<Prefab>, n: int)
      ensures player == pl && prefab == p && amount == n && pool.None?
    {
      player := pl;
      prefab := p;
      amount := n;
      pool := None;
    }

    /** The early return both creators share: a prefab, spots and nothing to spawn. */
    predicate NothingToSpawn(spots: Option<seq<Spot>>)
      reads this
    {
      prefab.Some? && spots.Some? && amount <= 0
    }

    /** Instantiates the prefab at `pos`, with its duck wired to the player, and sets its activity. */
    method Instantiate(pos: Vec2, setActive: bool) returns (obj: GameObject)
      requires prefab.Some?
      ensures fresh(obj) && obj.position == pos && obj.active == setActive && !obj.destroyed
      ensures prefab.value == DuckPrefab ==> obj.duck != null && obj.duck.plAttach == player && obj.duck.Free()
      ensures prefab.value.EnemyPrefab? ==> obj.enemy != null && obj.enemy.isPatrolling == false
    {
      match prefab.value {
        case DuckPrefab =>
          var d := new DuckController(null, pos, true);
          d.InitPlayer(player);
          obj := new GameObject(pos, true, d, null);
        case EnemyPrefab(force, alertSeconds) =>
          var e := new EnemyController(force, alertSeconds);
          obj := new GameObject(pos, true, null, e);
        case PlainPrefab =>
          obj := new GameObject(pos, true, null, null);
      }
      obj.SetActive(setActive);
    }

    /**
     * Spawns `amount` collectables, the i-th at spots[i], after destroying any earlier pool.
     * Spawning needs a prefab and at least `amount` spots.
     */
    method CreateCollectables(spots: Option<seq<Spot>>, setActive: bool)
      requires amount > 0 ==> prefab.Some? && spots.Some? && amount <= |spots.value|
      modifies this`pool, set o: GameObject | o in Or(pool)
      ensures NothingToSpawn(spots) ==> pool == old(pool)
      ensures !NothingToSpawn(spots) ==>
        && pool.Some? && |pool.value| == (if amount > 0 then amount else 0)
        && (forall o :: o in Or(old(pool)) ==> o.destroyed)
        && (forall i :: 0 <= i < |pool.value| ==>
              var o := pool.value[i];
              fresh(o) && !o.destroyed && o.active == setActive && o.position == spots.value[i].position
              && (prefab.value == DuckPrefab ==> o.duck != null && o.duck.plAttach == player && o.duck.Free()))
        && NoDups(pool.value)
    {
      if NothingToSpawn(spots) {
        return;
      }
      DeleteObjectsPool();
      pool := Some([]);
      var i := 0;
      while i < amount
        invariant 0 <= i <= (if amount > 0 then amount else 0)
        invariant pool.Some? && |pool.value| == i
        invariant forall o :: o in Or(old(pool)) ==> o.destroyed
        invariant forall j :: 0 <= j < i ==>
          var o := pool.value[j];
          fresh(o) && !o.destroyed && o.active == setActive && o.position == spots.value[j].position
          && (prefab.value == DuckPrefab ==> o.duck != null && o.duck.plAttach == player && o.duck.Free())
        invariant NoDups(pool.value)
      {
        var obj := Instantiate(spots.value[i].position, setActive);
        pool := Some(pool.value + [obj]);
        i := i + 1;
      }
    }

    /**
     * Spawns `amount` enemies at distinct spots chosen by shuffling the spot indices with the
     * draws `ks`, after destroying any earlier pool. Returns the spot indices used, in order.
     */
    method CreateEnemies(spots: Option<seq<Spot>>, setActive: bool, ks: seq<int>) returns (chosen: seq<int>)
      requires spots.Some? && |ks| == |spots.value| && ValidDraws(ks)
      requires amount > 0 ==> prefab.Some? && amount <= |spots.value|
      modifies this`pool, set o: GameObject | o in Or(pool)
      ensures NothingToSpawn(spots) ==> pool == old(pool) && chosen == []
      ensures !NothingToSpawn(spots) ==>
        var n := |spots.value|;
        && (forall o :: o in Or(old(pool)) ==> o.destroyed)
        && |chosen| == (if amount > 0 then amount else 0)
        && chosen == Shuffled(Range(n), ks, n)[..|chosen|]
        && NoDups(chosen)
        && pool.Some? && |pool.value| == |chosen|
        && (forall i :: 0 <= i < |chosen| ==>
              0 <= chosen[i] < n && fresh(pool.value[i]) && !pool.value[i].destroyed
              && pool.value[i].active == setActive && pool.value[i].position == spots.value[chosen[i]].position)
        && NoDups(pool.value)
    {
      chosen := [];
      if NothingToSpawn(spots) {
        return;
      }
      DeleteObjectsPool();
      pool := Some([]);
      var s := spots.value;
      var indexes := ShuffledIndexes(|s|, ks);
      ghost var perm := indexes[..];
      ShuffledRange(ks, |s|);
      var i := 0;
      while i < amount
        invariant 0 <= i <= (if amount > 0 then amount else 0)
        invariant indexes[..] == perm
        invariant pool.Some? && |pool.value| == i && chosen == perm[..i]
        invariant forall o :: o in Or(old(pool)) ==> o.destroyed
        invariant forall j :: 0 <= j < i ==>
          fresh(pool.value[j]) && !pool.value[j].destroyed
          && pool.value[j].active == setActive && pool.value[j].position == s[perm[j]].position
        invariant NoDups(pool.value)
      {
        var obj := Instantiate(s[indexes[i]].position, setActive);
        pool := Some(pool.value + [obj]);
        chosen := chosen + [indexes[i]];
        i := i + 1;
      }
      forall a, b | 0 <= a < b < |chosen|
        ensures chosen[a] != chosen[b]
      {
        assert chosen[a] == perm[a] && chosen[b] == perm[b];
      }
    }

    /** The spot indices 0 .. n-1, shuffled in place with the draws `ks`. */
    method ShuffledIndexes(n: nat, ks: seq<int>) returns (indexes: array<int>)
      requires |ks| == n && ValidDraws(ks)
      ensures fresh(indexes) && indexes[..] == Shuffled(Range(n), ks, n)
    {
      indexes := new int[n];
      var k := 0;
      while k < n
        invariant 0 <= k <= n
        invariant forall j :: 0 <= j < k ==> indexes[j] == j
      {
        indexes[k] := k;
        k := k + 1;
      }
      assert indexes[..] == Range(n);
      ShuffleList(indexes, ks);
    }

    /** Switches every live pooled object; nothing without a pool. */
    method SetActiveObjectsPool(isActive: bool)
      modifies set o: GameObject | o in Or(pool)
      ensures forall o :: o in Or(pool) ==>
        o.active == (if o.destroyed then old(o.active) else isActive)
        && o.destroyed == old(o.destroyed) && o.position == old(o.position)
    {
      if pool.None? {
        return;
      }
      var l := pool.value;
      var i := 0;
      while i < |l|
        invariant 0 <= i <= |l|
        invariant forall o :: o in l ==> o.destroyed == old(o.destroyed) && o.position == old(o.position)
        invariant forall o :: o in l ==> o.active == if o in l[..i] && !o.destroyed then isActive else old(o.active)
      {
        assert l[..i + 1] == l[..i] + [l[i]];
        if !l[i].destroyed {
          l[i].SetActive(isActive);
        }
        i := i + 1;
      }
      assert l[..i] == l;
    }

    /** Destroys every pooled object and drops the pool. */
    method DeleteObjectsPool()
      modifies this`pool, set o: GameObject | o in Or(pool)
      ensures pool.None?
      ensures forall o :: o in Or(old(pool)) ==> o.destroyed && o.active == old(o.active) && o.position == old(o.position)
    {
      if pool.None? {
        return;
      }
      var l := pool.value;
      var i := 0;
      while i < |l|
        invariant 0 <= i <= |l|
        invariant forall o :: o in l ==> o.active == old(o.active) && o.position == old(o.position)
        invariant forall j :: 0 <= j < i ==> l[j].destroyed
      {
        l[i].destroyed := true;
        i := i + 1;
      }
      pool := None;
    }
  }
}
