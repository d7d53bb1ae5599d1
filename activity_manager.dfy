/**
 * The activity manager: registries of duck and enemy components (duplicate-free lists that may
 * be null), and the periodic culling pass that switches off objects far from the camera and
 * back on when they come into view, but only objects that are ready to be toggled.
 */
module Activity {
  import opened Base
  import opened DuckChain
  import opened Enemy
  import opened Registry

  /** Unity's Rect: the minimum corner and the size. */
  datatype Rect = Rect(x: real, y: real, width: real, height: real)

  /** The parts of the orthographic camera the manager reads. */
  datatype CameraView = CameraView(position: Vec2, orthographicSize: real, aspect: real)

  /** Which of the two registries a list operation works on. */
  datatype Kind = DuckList | EnemyList

  function Other(k: Kind): Kind
  {
    if k == DuckList then EnemyList else DuckList
  }

  /**
   * Rect.Contains(Vector2): closed at x and y, open at x + width and y + height. A rectangle
   * with a negative size contains nothing; the size is not normalised.
   */
  predicate RectContains(r: Rect, p: Vec2)
  {
    && r.x <= p.x < r.x + r.width
    && r.y <= p.y < r.y + r.height
  }

  /** The rectangle the camera sees: twice the orthographic size high, aspect times that wide, centred on the camera. */
  function StandardViewRect(cam: CameraView): (r: Rect)
    ensures r.height == cam.orthographicSize * 2.0 && r.width == r.height * cam.aspect
    ensures r.x + r.width / 2.0 == cam.position.x && r.y + r.height / 2.0 == cam.position.y
  {
    var height := cam.orthographicSize * 2.0;
    var width := height * cam.aspect;
    Rect(cam.position.x - width / 2.0, cam.position.y - height / 2.0, width, height)
  }

  /** The culling rectangle: the camera's rectangle scaled by 1 + offset about the same centre. */
  function ExtendedViewRect(cam: CameraView, viewportOffset: real): (r: Rect)
    ensures r.width == StandardViewRect(cam).width * (1.0 + viewportOffset)
    ensures r.height == StandardViewRect(cam).height * (1.0 + viewportOffset)
    ensures r.x + r.width / 2.0 == cam.position.x && r.y + r.height / 2.0 == cam.position.y
  {
    var height := cam.orthographicSize * 2.0;
    var width := height * cam.aspect;
    var extendedWidth := width * (1.0 + viewportOffset);
    var extendedHeight := height * (1.0 + viewportOffset);
    Rect(cam.position.x - extendedWidth / 2.0, cam.position.y - extendedHeight / 2.0, extendedWidth, extendedHeight)
  }

  /** With a non-negative offset the culling rectangle covers everything the camera sees. */
  lemma ExtendedCoversStandard(cam: CameraView, viewportOffset: real, p: Vec2)
    requires cam.orthographicSize >= 0.0 && cam.aspect >= 0.0 && viewportOffset >= 0.0
    requires RectContains(StandardViewRect(cam), p)
    ensures RectContains(ExtendedViewRect(cam, viewportOffset), p)
  {
    var s := StandardViewRect(cam);
    var e := ExtendedViewRect(cam, viewportOffset);
    assert s.width >= 0.0 by {
      assert s.height >= 0.0;
      MulNonNegative(s.height, cam.aspect);
    }
    MulNonNegative(s.width, viewportOffset);
    MulNonNegative(s.height, viewportOffset);
    assert e.width == s.width + s.width * viewportOffset;
    assert e.height == s.height + s.height * viewportOffset;
  }

  lemma MulNonNegative(a: real, b: real)
    requires a >= 0.0 && b >= 0.0
    ensures a * b >= 0.0
  {
  }

  /**
   * Whether an object at squared distance `sq` is beyond `limit`, decided without the square
   * root: a negative limit is exceeded by every distance.
   */
  predicate TooFar(sq: real, limit: real)
  {
    limit < 0.0 || sq > limit * limit
  }

  /** TooFar on the squared distance agrees with comparing the distance itself. */
  lemma TooFarMatchesDistance(d: real, limit: real)
    requires d >= 0.0
    ensures TooFar(d * d, limit) <==> d > limit
  {
    if limit >= 0.0 {
      if d > limit {
        assert d * d - limit * limit == (d - limit) * (d + limit);
        MulPositive(d - limit, d + limit);
      } else {
        assert limit * limit - d * d == (limit - d) * (limit + d);
        MulNonNegative(limit - d, limit + d);
      }
    }
  }

  lemma MulPositive(a: real, b: real)
    requires a > 0.0 && b > 0.0
    ensures a * b > 0.0
  {
  }

  /**
   * Whether the culling pass may toggle the object: a duck that is not following and is
   * airborne, or an enemy that is patrolling.
   */
  predicate IsObjectReadyToBeDeactivated(obj: GameObject)
    reads obj.duck, obj.enemy
  {
    || (obj.duck != null && !obj.duck.isFollowing && obj.duck.isAirborne)
    || (obj.enemy != null && obj.enemy.isPatrolling)
  }

  /** A duck in the player's line is never toggled by the culling pass. */
  lemma LinedDuckNotReady(p: PlayerAttachment, obj: GameObject)
    requires p.Valid() && obj.duck != null && obj.duck in p.Chain && obj.enemy == null
    ensures !IsObjectReadyToBeDeactivated(obj)
  {
    var i :| 0 <= i < |p.Chain| && p.Chain[i] == obj.duck;
    assert p.Linked(i);
  }

  class ActivityManager {
    var ducks: Option<seq<GameObject>>
    var enemies: Option<seq<GameObject>>
    var camera: Option<CameraView>
    var cullingDistance: real
    var viewportOffset: real
    var distanceOffset: real
    var cameraViewRect: Rect
    var extendedViewRect: Rect
    /** The active state each object had when the culling pass first saw it. */
    var originalActiveStates: map<GameObject, bool>

    /** Neither registry holds a component twice. */
    predicate Valid()
      reads this
    {
      NoDups(Or(ducks)) && NoDups(Or(enemies))
    }

    /** The runner-only constructor: no culling distance, a 0.3 viewport offset and a 20 distance offset. */
    constructor Default()
      ensures ducks.None? && enemies.None? && camera.None? && originalActiveStates == map[]
      ensures cullingDistance == 0.0 && viewportOffset == 0.3 && distanceOffset == 20.0
      ensures Valid()
    {
      ducks := None;
      enemies := None;
      camera := None;
      cullingDistance := 0.0;
      viewportOffset := 0.3;
      distanceOffset := 20.0;
      cameraViewRect := Rect(0.0, 0.0, 0.0, 0.0);
      extendedViewRect := Rect(0.0, 0.0, 0.0, 0.0);
      originalActiveStates := map[];
    }

    /** The constructor with explicit culling settings. */
    constructor (culling: real, viewport: real, distance: real)
      ensures ducks.None? && enemies.None? && camera.None? && originalActiveStates == map[]
      ensures cullingDistance == culling && viewportOffset == viewport && distanceOffset == distance
      ensures Valid()
    {
      ducks := None;
      enemies := None;
      camera := None;
      cullingDistance := culling;
      viewportOffset := viewport;
      distanceOffset := distance;
      cameraViewRect := Rect(0.0, 0.0, 0.0, 0.0);
      extendedViewRect := Rect(0.0, 0.0, 0.0, 0.0);
      originalActiveStates := map[];
    }

    method SetTargetCamera(cam: Option<CameraView>)
      modifies this`camera
      ensures camera == cam
    {
      camera := cam;
    }

    function ListOf(k: Kind): Option<seq<GameObject>>
      reads this
    {
      if k == DuckList then ducks else enemies
    }

    /** Assigns through the `ref` list parameter of the list operations. */
    method SetList(k: Kind, l: Option<seq<GameObject>>)
      modifies this`ducks, this`enemies
      ensures ListOf(k) == l && ListOf(Other(k)) == old(ListOf(Other(k)))
    {
      if k == DuckList {
        ducks := l;
      } else {
        enemies := l;
      }
    }

    /** Recomputes both rectangles from the camera; nothing happens without a camera. */
    method UpdateCameraRects()
      modifies this`cameraViewRect, this`extendedViewRect
      ensures camera.None? ==> cameraViewRect == old(cameraViewRect) && extendedViewRect == old(extendedViewRect)
      ensures camera.Some? ==>
        cameraViewRect == StandardViewRect(camera.value)
        && extendedViewRect == ExtendedViewRect(camera.value, viewportOffset)
    {
      if camera.None? {
        return;
      }
      var cam := camera.value;
      var height := cam.orthographicSize * 2.0;
      var width := height * cam.aspect;
      cameraViewRect := Rect(cam.position.x - width / 2.0, cam.position.y - height / 2.0, width, height);
      var extendedWidth := width * (1.0 + viewportOffset);
      var extendedHeight := height * (1.0 + viewportOffset);
      extendedViewRect := Rect(cam.position.x - extendedWidth / 2.0, cam.position.y - extendedHeight / 2.0, extendedWidth, extendedHeight);
    }

    /**
     * Whether an object at `pos` counts as visible from a camera at `camPos`: not beyond the
     * culling distance plus its offset (when culling is on), and inside the culling rectangle.
     */
    function IsObject2DVisible(camPos: Vec2, pos: Vec2): (visible: bool)
      reads this
      ensures visible <==>
        RectContains(extendedViewRect, pos)
        && (cullingDistance <= 0.0 || !TooFar(SqDist(camPos, pos), cullingDistance + distanceOffset))
    {
      if cullingDistance > 0.0 && TooFar(SqDist(camPos, pos), cullingDistance + distanceOffset) then false
      else RectContains(extendedViewRect, pos)
    }

    /**
     * The active state the culling pass leaves on `obj` when it finds it at `active`: the
     * visibility, when that differs and the object is ready; `active` otherwise. A destroyed
     * object is skipped.
     */
    function NextActive(obj: GameObject, active: bool): bool
      requires camera.Some?
      reads this, obj, obj.duck, obj.enemy
    {
      var visible := IsObject2DVisible(camera.value.position, obj.position);
      if !obj.destroyed && active != visible && IsObjectReadyToBeDeactivated(obj) then visible else active
    }

    /** A second culling pass over the same object changes nothing. */
    lemma NextActiveIdempotent(obj: GameObject, active: bool)
      requires camera.Some?
      ensures NextActive(obj, NextActive(obj, active)) == NextActive(obj, active)
      ensures obj.destroyed || !IsObjectReadyToBeDeactivated(obj) ==> NextActive(obj, active) == active
      ensures !obj.destroyed && IsObjectReadyToBeDeactivated(obj) ==>
        NextActive(obj, active) == IsObject2DVisible(camera.value.position, obj.position)
    {
    }

    /**
     * One culling pass over one registry. Each live object is recorded with its current state
     * the first time it is seen, and is toggled to its visibility when that differs and it is
     * ready; a recorded state is never overwritten.
     */
    method CheckListVisibility(list: Option<seq<GameObject>>)
      requires camera.Some?
      modifies this`originalActiveStates, set o: GameObject | o in Or(list)
      ensures forall o :: o in Or(list) ==> o.active == NextActive(o, old(o.active))
      ensures forall o :: o in Or(list) ==> o.position == old(o.position) && o.destroyed == old(o.destroyed)
      ensures forall o :: o in old(originalActiveStates) ==>
        o in originalActiveStates && originalActiveStates[o] == old(originalActiveStates[o])
      ensures forall o :: o in Or(list) && !o.destroyed && o !in old(originalActiveStates) ==>
        o in originalActiveStates && originalActiveStates[o] == old(o.active)
      ensures forall o :: o in originalActiveStates ==> o in old(originalActiveStates) || (o in Or(list) && !o.destroyed)
    {
      if list.None? {
        return;
      }
      var l := list.value;
      var i := 0;
      while i < |l|
        invariant 0 <= i <= |l|
        invariant forall o :: o in l ==> o.position == old(o.position) && o.destroyed == old(o.destroyed)
        invariant forall o :: o in l ==> o.active == if o in l[..i] then NextActive(o, old(o.active)) else old(o.active)
        invariant forall o :: o in old(originalActiveStates) ==>
          o in originalActiveStates && originalActiveStates[o] == old(originalActiveStates[o])
        invariant forall o :: o in l[..i] && !o.destroyed && o !in old(originalActiveStates) ==>
          o in originalActiveStates && originalActiveStates[o] == old(o.active)
        invariant forall o :: o in originalActiveStates ==> o in old(originalActiveStates) || (o in l[..i] && !o.destroyed)
      {
        var obj := l[i];
        assert l[..i + 1] == l[..i] + [obj];
        if !obj.destroyed {
          if obj !in originalActiveStates {
            originalActiveStates := originalActiveStates[obj := obj.active];
          }
          var shouldBeActive := IsObject2DVisible(camera.value.position, obj.position);
          if obj.active != shouldBeActive {
            if IsObjectReadyToBeDeactivated(obj) {
              obj.SetActive(shouldBeActive);
            }
          }
        }
        i := i + 1;
      }
      assert l[..|l|] == l;
    }

    /** The pass over the duck registry and then the enemy registry. */
    method CheckAndUpdateVisibility()
      requires camera.Some?
      modifies this`originalActiveStates, set o: GameObject | o in Or(ducks) + Or(enemies)
      ensures forall o :: o in Or(ducks) + Or(enemies) ==> o.active == NextActive(o, old(o.active))
      ensures forall o :: o in old(originalActiveStates) ==>
        o in originalActiveStates && originalActiveStates[o] == old(originalActiveStates[o])
      ensures forall o :: o in Or(ducks) + Or(enemies) && !o.destroyed && o !in old(originalActiveStates) ==>
        o in originalActiveStates && originalActiveStates[o] == old(o.active)
      ensures forall o :: o in originalActiveStates ==>
        o in old(originalActiveStates) || (o in Or(ducks) + Or(enemies) && !o.destroyed)
    {
      CheckListVisibility(ducks);
      CheckListVisibility(enemies);
      forall o | o in Or(ducks) + Or(enemies)
        ensures o.active == NextActive(o, old(o.active))
      {
        NextActiveIdempotent(o, old(o.active));
      }
    }

    /** One tick of the culling coroutine after its wait: nothing without a camera. */
    method VisibilityTick()
      modifies this`cameraViewRect, this`extendedViewRect, this`originalActiveStates
      modifies set o: GameObject | o in Or(ducks) + Or(enemies)
      ensures camera.None? ==>
        cameraViewRect == old(cameraViewRect) && extendedViewRect == old(extendedViewRect)
        && originalActiveStates == old(originalActiveStates)
        && forall o :: o in Or(ducks) + Or(enemies) ==> o.active == old(o.active)
      ensures camera.Some? ==>
        && extendedViewRect == ExtendedViewRect(camera.value, viewportOffset)
        && (forall o :: o in Or(ducks) + Or(enemies) ==> o.active == NextActive(o, old(o.active)))
        && (forall o :: o in old(originalActiveStates) ==>
              o in originalActiveStates && originalActiveStates[o] == old(originalActiveStates[o]))
    {
      if camera.Some? {
        UpdateCameraRects();
        CheckAndUpdateVisibility();
      }
    }

    /** AddObject on one registry: the registry becomes what the shared AddObject rule gives. */
    method AddObject(c: Option<GameObject>, k: Kind) returns (added: bool)
      modifies this`ducks, this`enemies
      ensures added == Registry.AddObject(c, old(ListOf(k))).0
      ensures ListOf(k) == Registry.AddObject(c, old(ListOf(k))).1
      ensures ListOf(Other(k)) == old(ListOf(Other(k)))
      ensures added <==> c.Some? && c.value !in Or(old(ListOf(k)))
      ensures old(Valid()) ==> Valid()
    {
      if Valid() {
        AddObjectKeepsNoDups(c, ListOf(k));
      }
      var r := Registry.AddObject(c, ListOf(k));
      added := r.0;
      SetList(k, r.1);
    }

    /** AddDucks / AddEnemies: every component of the array is offered in turn; returns the registry. */
    method AddObjects(components: seq<Option<GameObject>>, k: Kind) returns (list: Option<seq<GameObject>>)
      modifies this`ducks, this`enemies
      ensures list == ListOf(k)
      ensures ListOf(Other(k)) == old(ListOf(Other(k)))
      ensures Or(old(ListOf(k))) <= Or(ListOf(k))
      ensures forall i :: 0 <= i < |components| && components[i].Some? ==> components[i].value in Or(ListOf(k))
      ensures forall o :: o in Or(ListOf(k)) ==> o in Or(old(ListOf(k))) || Some(o) in components
      ensures ListOf(k).None? <==> old(ListOf(k)).None? && forall i :: 0 <= i < |components| ==> components[i].None?
      ensures old(Valid()) ==> Valid()
    {
      var i := 0;
      while i < |components|
        invariant 0 <= i <= |components|
        invariant ListOf(Other(k)) == old(ListOf(Other(k)))
        invariant Or(old(ListOf(k))) <= Or(ListOf(k))
        invariant forall j :: 0 <= j < i && components[j].Some? ==> components[j].value in Or(ListOf(k))
        invariant forall o :: o in Or(ListOf(k)) ==> o in Or(old(ListOf(k))) || Some(o) in components[..i]
        invariant ListOf(k).None? <==> old(ListOf(k)).None? && forall j :: 0 <= j < i ==> components[j].None?
        invariant old(Valid()) ==> Valid()
      {
        var _ := AddObject(components[i], k);
        assert components[..i + 1] == components[..i] + [components[i]];
        i := i + 1;
      }
      assert components[..i] == components;
      list := ListOf(k);
    }

    /** Removes every occurrence of the component, when the registry is non-empty and the component non-null. */
    method DeleteComponentFromList(c: Option<GameObject>, k: Kind)
      modifies this`ducks, this`enemies
      ensures var l := old(ListOf(k));
        ListOf(k) == if l.Some? && |l.value| > 0 && c.Some? then Some(RemoveAll(l.value, c.value)) else l
      ensures ListOf(Other(k)) == old(ListOf(Other(k)))
      ensures c.Some? ==> c.value !in Or(ListOf(k))
      ensures old(Valid()) ==> Valid()
    {
      var l := ListOf(k);
      if l.Some? && |l.value| > 0 && c.Some? {
        if Valid() {
          RemoveAllKeepsNoDups(l.value, c.value);
        }
        SetList(k, Some(RemoveAll(l.value, c.value)));
      }
    }

    /** Removes exactly the given components; nothing happens when either list is null or empty. */
    method DeleteComponentsFromList(cs: Option<seq<GameObject>>, k: Kind)
      modifies this`ducks, this`enemies
      ensures var l := old(ListOf(k));
        ListOf(k) == if l.Some? && |l.value| > 0 && cs.Some? && |cs.value| > 0 then Some(RemoveAllOf(l.value, cs.value)) else l
      ensures ListOf(Other(k)) == old(ListOf(Other(k)))
      ensures forall o :: o in Or(cs) ==> o !in Or(ListOf(k))
      ensures old(Valid()) ==> Valid()
    {
      var l := ListOf(k);
      if l.None? || |l.value| == 0 || cs.None? || |cs.value| == 0 {
        return;
      }
      if Valid() {
        RemoveAllOfKeepsNoDups(l.value, cs.value);
      }
      SetList(k, Some(RemoveAllOf(l.value, cs.value)));
    }

    /** Sets the activity of the component's object when the registry holds it; otherwise nothing changes. */
    method ChangeComponentActivity(c: Option<GameObject>, k: Kind, isActive: bool)
      modifies if c.Some? then {c.value} else {}
      ensures c.Some? ==>
        var l := ListOf(k);
        var hit := l.Some? && |l.value| > 0 && !c.value.destroyed && c.value in l.value;
        && c.value.active == (if hit then isActive else old(c.value.active))
        && c.value.position == old(c.value.position) && c.value.destroyed == old(c.value.destroyed)
    {
      var l := ListOf(k);
      if l.Some? && |l.value| > 0 && c.Some? && !c.value.destroyed {
        if ContainsComponent(c.value, l.value) {
          c.value.SetActive(isActive);
        }
      }
    }

    /** Sets the activity of every given component the registry holds; nothing when either list is null or empty. */
    method ChangeComponentsActivity(cs: Option<seq<GameObject>>, k: Kind, isActive: bool)
      modifies set o: GameObject | o in Or(cs)
      ensures forall o :: o in Or(cs) ==>
        var l := ListOf(k);
        var hit := l.Some? && |l.value| > 0 && |Or(cs)| > 0 && !o.destroyed && o in l.value;
        && o.active == (if hit then isActive else old(o.active))
        && o.position == old(o.position) && o.destroyed == old(o.destroyed)
    {
      var l := ListOf(k);
      if l.None? || |l.value| == 0 || cs.None? || |cs.value| == 0 {
        return;
      }
      var comps := cs.value;
      var i := 0;
      while i < |comps|
        invariant 0 <= i <= |comps|
        invariant forall o :: o in comps ==> o.position == old(o.position) && o.destroyed == old(o.destroyed)
        invariant forall o :: o in comps ==>
          o.active == if o in comps[..i] && !o.destroyed && o in l.value then isActive else old(o.active)
      {
        assert comps[..i + 1] == comps[..i] + [comps[i]];
        var target := comps[i];
        if !target.destroyed && ContainsComponent(target, l.value) {
          target.SetActive(isActive);
        }
        i := i + 1;
      }
      assert comps[..i] == comps;
    }

    /** Empties a registry that exists; a null registry stays null. */
    method CleanList(k: Kind)
      modifies this`ducks, this`enemies
      ensures ListOf(k) == if old(ListOf(k)).Some? then Some([]) else None
      ensures ListOf(Other(k)) == old(ListOf(Other(k)))
      ensures Valid() == old(NoDups(Or(ListOf(Other(k)))))
    {
      if ListOf(k).Some? {
        SetList(k, Some([]));
      }
    }

    method CleanAllLists()
      modifies this`ducks, this`enemies
      ensures ducks == (if old(ducks).Some? then Some([]) else None)
      ensures enemies == (if old(enemies).Some? then Some([]) else None)
      ensures Valid()
    {
      CleanList(DuckList);
      CleanList(EnemyList);
    }

    /** Both registries are emptied and dropped; the getters then return empty lists. */
    method OnDispose()
      modifies this`ducks, this`enemies
      ensures ducks.None? && enemies.None?
      ensures Or(ducks) == [] && Or(enemies) == [] && WithDuck(Or(ducks)) == [] && WithEnemy(Or(enemies)) == []
      ensures Valid()
    {
      CleanAllLists();
      ducks := None;
      enemies := None;
    }
  }

  /** GetDucks<DuckController>: the registered objects that carry a duck controller, in order. */
  function WithDuck(l: seq<GameObject>): (r: seq<GameObject>)
    ensures forall i :: 0 <= i < |r| ==> r[i].duck != null && r[i] in l
    ensures forall i :: 0 <= i < |l| && l[i].duck != null ==> l[i] in r
    ensures |r| <= |l|
    ensures forall x :: x in l ==> multiset(r)[x] == if x.duck != null then multiset(l)[x] else 0
    ensures SubseqOf(r, l)
  {
    if |l| == 0 then []
    else
      var rest := WithDuck(l[..|l| - 1]);
      assert l == l[..|l| - 1] + [l[|l| - 1]];
      if l[|l| - 1].duck != null then rest + [l[|l| - 1]] else rest
  }

  /** GetEnemies<EnemyController>: the registered objects that carry an enemy controller, in order. */
  function WithEnemy(l: seq<GameObject>): (r: seq<GameObject>)
    ensures forall i :: 0 <= i < |r| ==> r[i].enemy != null && r[i] in l
    ensures forall i :: 0 <= i < |l| && l[i].enemy != null ==> l[i] in r
    ensures |r| <= |l|
    ensures forall x :: x in l ==> multiset(r)[x] == if x.enemy != null then multiset(l)[x] else 0
    ensures SubseqOf(r, l)
  {
    if |l| == 0 then []
    else
      var rest := WithEnemy(l[..|l| - 1]);
      assert l == l[..|l| - 1] + [l[|l| - 1]];
      if l[|l| - 1].enemy != null then rest + [l[|l| - 1]] else rest
  }
}
