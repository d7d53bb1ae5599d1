/**
 * Game objects and the list operations the managers share. A component in a manager's list is
 * identified with the game object that carries it.
 */
module Registry {
  import opened Base
  import opened DuckChain
  import opened Enemy

  /** A scene object: its active flag, its position, whether it was destroyed, and its controllers. */
  class GameObject {
    var active: bool
    var position: Vec2
    var destroyed: bool
    const duck: DuckController?
    const enemy: EnemyController?

    constructor (pos: Vec2, isActive: bool, d: DuckController?, e: EnemyController?)
      ensures position == pos && active == isActive && !destroyed && duck == d && enemy == e
    {
      position := pos;
      active := isActive;
      destroyed := false;
      duck := d;
      enemy := e;
    }

    method SetActive(isActive: bool)
      modifies this`active
      ensures active == isActive
    {
      active := isActive;
    }
  }

  /** The contents of a list reference, empty when the reference is null. */
  function Or<T>(l: Option<seq<T>>): seq<T>
  {
    if l.Some? then l.value else []
  }

  predicate NoDups<T(==)>(l: seq<T>)
  {
    forall i, j :: 0 <= i < j < |l| ==> l[i] != l[j]
  }

  /** Whether `a` is `b` with some entries dropped and the rest kept in order. */
  predicate SubseqOf<T(==)>(a: seq<T>, b: seq<T>)
    decreases |b|
  {
    if |a| == 0 then true
    else if |b| == 0 then false
    else if a[|a| - 1] == b[|b| - 1] then SubseqOf(a[..|a| - 1], b[..|b| - 1])
    else SubseqOf(a, b[..|b| - 1])
  }

  /** Whether some entry of the list is the component. */
  function ContainsComponent<T(==)>(c: T, l: seq<T>): (r: bool)
    ensures r <==> exists i :: 0 <= i < |l| && l[i] == c
  {
    if |l| == 0 then false else l[|l| - 1] == c || ContainsComponent(c, l[..|l| - 1])
  }

  /**
   * Adding a component: a null component is refused and leaves the list reference as it was;
   * otherwise a null list becomes an empty one and the component is appended when absent.
   * Returns whether it was appended, and the new list.
   */
  function AddObject<T(==)>(c: Option<T>, l: Option<seq<T>>): (r: (bool, Option<seq<T>>))
    ensures r.0 <==> c.Some? && c.value !in Or(l)
    ensures r.0 ==> r.1 == Some(Or(l) + [c.value])
    ensures !r.0 ==> (c.None? ==> r.1 == l) && (c.Some? ==> r.1 == Some(Or(l)))
  {
    if c.None? then (false, l)
    else
      var list := Or(l);
      if !ContainsComponent(c.value, list) then (true, Some(list + [c.value])) else (false, Some(list))
  }

  /** Adding keeps a duplicate-free list duplicate-free, and the result is true exactly when the list grew. */
  lemma AddObjectKeepsNoDups<T>(c: Option<T>, l: Option<seq<T>>)
    requires NoDups(Or(l))
    ensures NoDups(Or(AddObject(c, l).1))
    ensures AddObject(c, l).0 <==> |Or(AddObject(c, l).1)| == |Or(l)| + 1
    ensures c.Some? ==> c.value in Or(AddObject(c, l).1)
  {
    var r := AddObject(c, l);
    if r.0 {
      var s := Or(l) + [c.value];
      forall i, j | 0 <= i < j < |s|
        ensures s[i] != s[j]
      {
        if j == |s| - 1 {
          assert s[i] in Or(l);
        }
      }
    }
  }

  /** RemoveAll(x => x == c): every occurrence of `c` goes, everything else stays in order. */
  function RemoveAll<T(==)>(l: seq<T>, c: T): (r: seq<T>)
    ensures multiset(r) == multiset(l)[c := 0]
    ensures forall i :: 0 <= i < |r| ==> r[i] in l && r[i] != c
    ensures forall i :: 0 <= i < |l| && l[i] != c ==> l[i] in r
    ensures |r| <= |l|
  {
    if |l| == 0 then []
    else
      var rest := RemoveAll(l[..|l| - 1], c);
      assert l == l[..|l| - 1] + [l[|l| - 1]];
      if l[|l| - 1] == c then rest else rest + [l[|l| - 1]]
  }

  /** RemoveAll(x => cs contains x): exactly the members of `cs` go. */
  function RemoveAllOf<T(==)>(l: seq<T>, cs: seq<T>): (r: seq<T>)
    ensures forall i :: 0 <= i < |r| ==> r[i] in l && r[i] !in cs
    ensures forall i :: 0 <= i < |l| && l[i] !in cs ==> l[i] in r
    ensures |r| <= |l|
  {
    if |l| == 0 then []
    else
      var rest := RemoveAllOf(l[..|l| - 1], cs);
      assert l == l[..|l| - 1] + [l[|l| - 1]];
      if ContainsComponent(l[|l| - 1], cs) then rest else rest + [l[|l| - 1]]
  }

  /** List.Remove: the first occurrence goes when there is one; otherwise nothing changes. */
  function RemoveFirst<T(==)>(l: seq<T>, c: T): (r: seq<T>)
    ensures c in l ==> multiset(r) == multiset(l) - multiset{c} && |r| == |l| - 1
    ensures c !in l ==> r == l
  {
    if |l| == 0 then []
    else
      assert l == [l[0]] + l[1..];
      if l[0] == c then l[1..] else [l[0]] + RemoveFirst(l[1..], c)
  }

  /** On a duplicate-free list, List.Remove leaves no occurrence of the element behind. */
  lemma {:induction false} RemoveFirstLeavesNone<T>(l: seq<T>, c: T)
    requires NoDups(l)
    ensures c !in RemoveFirst(l, c)
  {
    if |l| > 0 {
      if l[0] == c {
        forall j | 0 <= j < |l| - 1
          ensures l[1..][j] != c
        {
          assert l[j + 1] != l[0];
        }
      } else {
        assert NoDups(l[1..]) by {
          forall i, j | 0 <= i < j < |l| - 1
            ensures l[1..][i] != l[1..][j]
          {
            assert l[i + 1] != l[j + 1];
          }
        }
        RemoveFirstLeavesNone(l[1..], c);
      }
    }
  }

  /** Removing keeps a duplicate-free list duplicate-free. */
  lemma {:induction false} RemoveAllKeepsNoDups<T>(l: seq<T>, c: T)
    requires NoDups(l)
    ensures NoDups(RemoveAll(l, c))
  {
    if |l| > 0 {
      var init := l[..|l| - 1];
      assert NoDups(init) by {
        forall i, j | 0 <= i < j < |init|
          ensures init[i] != init[j]
        {
          assert init[i] == l[i] && init[j] == l[j];
        }
      }
      RemoveAllKeepsNoDups(init, c);
      var rest := RemoveAll(init, c);
      if l[|l| - 1] != c {
        var s := rest + [l[|l| - 1]];
        forall i, j | 0 <= i < j < |s|
          ensures s[i] != s[j]
        {
          if j == |s| - 1 {
            assert s[i] in init;
            var k :| 0 <= k < |init| && init[k] == s[i];
            assert l[k] == s[i];
          }
        }
      }
    }
  }

  /** Removing a set of components keeps a duplicate-free list duplicate-free. */
  lemma {:induction false} RemoveAllOfKeepsNoDups<T>(l: seq<T>, cs: seq<T>)
    requires NoDups(l)
    ensures NoDups(RemoveAllOf(l, cs))
  {
    if |l| > 0 {
      var init := l[..|l| - 1];
      assert NoDups(init) by {
        forall i, j | 0 <= i < j < |init|
          ensures init[i] != init[j]
        {
          assert init[i] == l[i] && init[j] == l[j];
        }
      }
      RemoveAllOfKeepsNoDups(init, cs);
      var rest := RemoveAllOf(init, cs);
      if !ContainsComponent(l[|l| - 1], cs) {
        var s := rest + [l[|l| - 1]];
        forall i, j | 0 <= i < j < |s|
          ensures s[i] != s[j]
        {
          if j == |s| - 1 {
            assert s[i] in init;
            var k :| 0 <= k < |init| && init[k] == s[i];
            assert l[k] == s[i];
          }
        }
      }
    }
  }
}
