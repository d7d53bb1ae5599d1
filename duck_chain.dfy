/**
 * The duck chain: a singly linked line of ducks behind the player.
 *
 * `PlayerAttachment` keeps the head (`followChild`), a `hasFollower` flag and the tail
 * (`lastFollowChild`, with its cached controller `lastDC`). Every `DuckController` keeps a
 * link to what it follows and to the duck that follows it. The ghost sequence `Chain` lists
 * the ducks from head to tail; `Valid()` ties it to the real links.
 */
module DuckChain {
  import opened Base

  /** What a duck's follow-parent transform points at: nothing, the player, or another duck. */
  datatype Leader = NoLeader | PlayerLead | DuckLead(duck: DuckController)

  /** The branches of the duck's behaviour loop. */
  datatype Behaviour = Floating | JumpThenWander | Following

  /** The duck whose controller `d` follows, if it follows a duck. */
  function ParentDuck(d: DuckController?): DuckController?
    reads d
  {
    if d != null && d.followParent.DuckLead? then d.followParent.duck else null
  }

  /** The cached tail controller of a player, if there is a player. */
  function LastDC(p: PlayerAttachment?): DuckController?
    reads p
  {
    if p != null then p.lastDC else null
  }

  /** The tail transform of a player, if there is a player. */
  function LastFollowChild(p: PlayerAttachment?): DuckController?
    reads p
  {
    if p != null then p.lastFollowChild else null
  }

  class DuckController {
    var isFollowing: bool
    var hasFollower: bool
    var isAirborne: bool
    var followParent: Leader
    var followChild: DuckController?
    /** transform.position */
    var position: Vec2
    /** anchor of the wandering walk */
    var startPosition: Vec2
    var plAttach: PlayerAttachment?
    /** whether the duck has a Rigidbody2D */
    var hasRigidbody: bool
    var catchRadius: real

    /** Not in any line: follows nobody and is followed by nobody. */
    ghost predicate Free()
      reads this
    {
      !isFollowing && !hasFollower && followChild == null && followParent == NoLeader
    }

    /** What a detached duck looks like: free and grounded, so it goes back to wandering. */
    ghost predicate Released()
      reads this
    {
      Free() && !isAirborne
    }

    /** Awake: a new duck is free and airborne (it floats until caught). */
    constructor (pl: PlayerAttachment?, pos: Vec2, rigidbody: bool)
      ensures Free() && isAirborne
      ensures plAttach == pl && position == pos && hasRigidbody == rigidbody && catchRadius == 0.75
    {
      isFollowing := false;
      hasFollower := false;
      isAirborne := true;
      followParent := NoLeader;
      followChild := null;
      position := pos;
      startPosition := pos;
      plAttach := pl;
      hasRigidbody := rigidbody;
      catchRadius := 0.75;
    }

    method InitPlayer(pl: PlayerAttachment?)
      modifies this`plAttach
      ensures plAttach == pl
    {
      plAttach := pl;
    }

    /** Clears the follower half of the links and the following flag; the parent link stays. */
    method CleanDuckFollower()
      modifies this`isFollowing, this`hasFollower, this`followChild
      ensures !isFollowing && !hasFollower && followChild == null
    {
      isFollowing := false;
      hasFollower := false;
      followChild := null;
    }

    method UpdateParentChildRelation(following: bool, parent: Leader, follower: bool, child: DuckController?)
      modifies this`isFollowing, this`hasFollower, this`followChild, this`followParent
      ensures isFollowing == following && followParent == parent
      ensures hasFollower == follower && followChild == child
    {
      isFollowing := following;
      hasFollower := follower;
      followChild := child;
      followParent := parent;
    }

    /** Drops the parent link and lands the duck, anchoring its wandering at the current position. */
    method CleanDuckParent()
      modifies this`isAirborne, this`startPosition, this`followParent
      ensures followParent == NoLeader && !isAirborne && startPosition == position
    {
      CancelIsAirbornAndSavePosition();
      followParent := NoLeader;
    }

    /** The child half of CleanDuckFollower, as PlayerAttachment uses it. */
    method CleanDuckChild()
      modifies this`hasFollower, this`followChild
      ensures !hasFollower && followChild == null
    {
      hasFollower := false;
      followChild := null;
    }

    method CancelIsAirbornAndSavePosition()
      modifies this`isAirborne, this`startPosition
      ensures !isAirborne && startPosition == position
    {
      isAirborne := false;
      startPosition := position;
    }

    /** OnEnable: not in a line; airborne exactly when the duck has a rigidbody. */
    method SetUpBehaviour()
      modifies this`isFollowing, this`hasFollower, this`isAirborne
      ensures !isFollowing && !hasFollower && isAirborne == hasRigidbody
    {
      isFollowing := false;
      hasFollower := false;
      if hasRigidbody {
        isAirborne := true;
      } else {
        isAirborne := false;
      }
    }

    /**
     * The branch the behaviour loop takes on one pass: floating while airborne, jumping and
     * then wandering on the ground, following once in line. The guards cover every state.
     */
    function SelectBehaviour(): (b: Behaviour)
      reads this
      ensures b == Floating <==> isAirborne && !isFollowing
      ensures b == JumpThenWander <==> !isAirborne && !isFollowing
      ensures b == Following <==> isFollowing
    {
      if isAirborne && !isFollowing then Floating
      else if !isFollowing && !isAirborne then JumpThenWander
      else Following
    }

    /** Links this duck behind `toFollow` and records it at the player as head (`firstInLine`) or tail. */
    method AddDuck(playerA: PlayerAttachment, toFollow: Leader, following: bool, airborne: bool, firstInLine: bool)
      modifies this`followParent, this`isFollowing, this`isAirborne, this`hasFollower
      modifies playerA`followChild, playerA`hasFollower, playerA`lastFollowChild, playerA`lastDC
      ensures followParent == toFollow && isFollowing == following && isAirborne == airborne && !hasFollower
      ensures playerA.lastFollowChild == this && playerA.lastDC == this
      ensures firstInLine ==> playerA.followChild == this && playerA.hasFollower
      ensures !firstInLine ==> playerA.followChild == old(playerA.followChild) && playerA.hasFollower == old(playerA.hasFollower)
    {
      followParent := toFollow;
      isFollowing := following;
      isAirborne := airborne;
      hasFollower := false;
      if firstInLine {
        playerA.CreateFollowChild(this);
      } else {
        playerA.UpdateLastInLine(this);
      }
    }

    /**
     * Joins the player's line. With no follower the duck becomes head and tail; the other
     * branch (a player that already has a follower) hangs the duck behind the head without
     * touching the head's child link.
     */
    method FollowPlayer(playerTarget: PlayerAttachment?)
      modifies this`followParent, this`isFollowing, this`isAirborne, this`hasFollower, plAttach, playerTarget
      ensures var p := if plAttach != null then plAttach else playerTarget;
        && (p == null ==> unchanged(this))
        && (p != null && (old(p.followChild) == null || !old(p.hasFollower)) ==>
              && followParent == PlayerLead && isFollowing && !isAirborne && !hasFollower
              && p.followChild == this && p.hasFollower && p.lastFollowChild == this && p.lastDC == this)
        && (p != null && old(p.followChild) != null && old(p.hasFollower) ==>
              && followParent == DuckLead(old(p.followChild)) && isFollowing && !isAirborne && !hasFollower
              && p.followChild == old(p.followChild) && p.hasFollower
              && p.lastFollowChild == this && p.lastDC == this)
      ensures var p := if plAttach != null then plAttach else playerTarget;
        old(p != null && p.Valid() && !p.hasFollower && Free()) ==> p.Valid() && p.Chain == [this]
    {
      if playerTarget == null && plAttach == null {
        return;
      }
      var p := if plAttach != null then plAttach else playerTarget;
      p.UpdateLink();
      var noFollower := !p.hasFollower;
      if noFollower {
        AddDuck(p, PlayerLead, true, false, noFollower);
        p.Chain := [this];
      } else {
        AddDuck(p, DuckLead(p.followChild), true, false, noFollower);
      }
    }

    /** Joins behind `lastDuckTarget` when that duck has no follower yet; otherwise nothing changes. */
    method FollowDuck(lastDuckTarget: DuckController?)
      modifies this`isAirborne, this`followParent, this`isFollowing, this`hasFollower
      modifies lastDuckTarget, plAttach
      ensures plAttach == old(plAttach)
      ensures var lead := lastDuckTarget;
        (lead == null || old(lead.hasFollower)) ==>
          unchanged(this) && (lead != null ==> unchanged(lead)) && (plAttach != null ==> unchanged(plAttach))
      ensures var lead := lastDuckTarget;
        lead != null && !old(lead.hasFollower) ==>
          && lead.followChild == this && (lead != this ==> lead.hasFollower)
          && followParent == DuckLead(lead) && isFollowing && !hasFollower && !isAirborne
          && (plAttach != null ==>
                && plAttach.lastFollowChild == this && plAttach.lastDC == this
                && plAttach.followChild == old(plAttach.followChild)
                && plAttach.hasFollower == old(plAttach.hasFollower))
      ensures old(plAttach != null && plAttach.Valid() && lastDuckTarget == plAttach.lastFollowChild
                  && lastDuckTarget != null && Free()) ==>
        plAttach.Valid() && plAttach.Chain == old(plAttach.Chain) + [this]
    {
      if lastDuckTarget == null {
        return;
      }
      var lead := lastDuckTarget;
      ghost var appendsToTail := plAttach != null && plAttach.Valid() && lead == plAttach.lastFollowChild && Free();
      ghost var line := if appendsToTail then plAttach.Chain else [];
      ghost var n := |line|;
      if appendsToTail {
        assert plAttach.Linked(n - 1);
        forall i | 0 <= i < n
          ensures line[i] != this
        {
          assert plAttach.Linked(i);
        }
      }
      if !lead.hasFollower {
        lead.hasFollower := true;
        lead.followChild := this;
        isAirborne := false;
        followParent := DuckLead(lead);
        isFollowing := true;
        hasFollower := false;
        if plAttach != null {
          plAttach.UpdateLastInLine(this);
          if appendsToTail {
            plAttach.Chain := line + [this];
            forall i | 0 <= i < n
              ensures plAttach.Linked(i)
            {
              assert old(plAttach.Linked(i));
            }
            assert plAttach.Linked(n);
          }
        }
      }
    }

    /**
     * One physics step of the catch area. `overlapsPlayer` is the overlap test against the
     * player layer; `distanceToTail` is the distance from the catch point to the current tail.
     * A duck that already follows never joins a second time.
     */
    method CatchAreaCheck(overlapsPlayer: bool, distanceToTail: real)
      modifies this`isAirborne, this`followParent, this`isFollowing, this`hasFollower
      modifies plAttach, LastFollowChild(plAttach)
      ensures plAttach == old(plAttach)
      ensures old(isFollowing) || plAttach == null ==>
        unchanged(this) && (plAttach != null ==> unchanged(plAttach))
      ensures old(plAttach != null && plAttach.Valid() && Free()) ==>
        var joins := overlapsPlayer || old(plAttach.hasFollower && distanceToTail <= catchRadius);
        && plAttach.Valid()
        && plAttach.Chain == (if joins then old(plAttach.Chain) + [this] else old(plAttach.Chain))
        && (joins ==> isFollowing && !isAirborne)
        && (!joins ==> unchanged(this))
    {
      if isFollowing || plAttach == null {
        return;
      }
      if overlapsPlayer {
        if !plAttach.hasFollower {
          FollowPlayer(plAttach);
        } else if plAttach.hasFollower && plAttach.lastFollowChild != null {
          FollowDuck(plAttach.lastFollowChild);
        }
      } else if plAttach.hasFollower && plAttach.lastFollowChild != null {
        if distanceToTail <= catchRadius {
          FollowDuck(plAttach.lastFollowChild);
        }
      }
    }

    /** Asks the player to drop its last duck: the tail leaves, whichever duck calls this. */
    method Detach()
      modifies plAttach, LastDC(plAttach), ParentDuck(LastDC(plAttach))
      ensures var p := old(plAttach);
        old(p != null && p.Valid()) ==>
          && p.Valid()
          && (old(p.Chain) == [] ==> p.Chain == [])
          && (old(p.Chain) != [] ==> p.Chain == old(p.Chain[..|p.Chain| - 1]))
    {
      if plAttach != null {
        var _ := plAttach.DetachLastInLine();
      }
    }
  }

  class PlayerAttachment {
    var followChild: DuckController?
    var hasFollower: bool
    var lastFollowChild: DuckController?
    var lastDC: DuckController?
    /** The ducks in line, head first. */
    ghost var Chain: seq<DuckController>

    /**
     * The line invariant: the player's head, tail and flag describe `Chain`, no duck appears
     * twice, and each duck's parent and child links match its neighbours.
     */
    ghost predicate Valid()
      reads this, Chain
    {
      && (hasFollower <==> |Chain| > 0)
      && followChild == (if |Chain| == 0 then null else Chain[0])
      && lastFollowChild == lastDC
      && lastDC == (if |Chain| == 0 then null else Chain[|Chain| - 1])
      && (forall i, j :: 0 <= i < j < |Chain| ==> Chain[i] != Chain[j])
      && (forall i :: 0 <= i < |Chain| ==> Linked(i))
    }

    /** The duck at position `i` follows its predecessor (the player for the head) and leads its successor. */
    ghost predicate Linked(i: int)
      requires 0 <= i < |Chain|
      reads this, Chain
    {
      var d := Chain[i];
      && d.isFollowing && !d.isAirborne
      && d.followParent == (if i == 0 then PlayerLead else DuckLead(Chain[i - 1]))
      && d.hasFollower == (i < |Chain| - 1)
      && d.followChild == (if i < |Chain| - 1 then Chain[i + 1] else null)
    }

    /** Awake: no follower, no tail. */
    constructor ()
      ensures Valid() && Chain == []
    {
      followChild := null;
      hasFollower := false;
      lastFollowChild := null;
      lastDC := null;
      Chain := [];
    }

    /** Drops the flag and the tail when there is no head; otherwise nothing changes. */
    method UpdateLink()
      modifies this`hasFollower, this`lastFollowChild, this`lastDC
      ensures old(followChild) == null ==> !hasFollower && lastFollowChild == null && lastDC == null
      ensures old(followChild) != null ==> unchanged(this)
      ensures old(Valid()) ==> Valid()
    {
      if followChild == null {
        hasFollower := false;
        UpdateLastInLine(null);
      }
    }

    /** The first duck in line is both head and tail. */
    method CreateFollowChild(followingChild: DuckController?)
      modifies this`followChild, this`hasFollower, this`lastFollowChild, this`lastDC
      ensures followChild == followingChild && hasFollower
      ensures lastFollowChild == followingChild && lastDC == followingChild
    {
      followChild := followingChild;
      hasFollower := true;
      UpdateLastInLine(followingChild);
    }

    /** Records the tail and caches its controller. */
    method UpdateLastInLine(lastInLine: DuckController?)
      modifies this`lastFollowChild, this`lastDC
      ensures lastFollowChild == lastInLine && lastDC == lastInLine
    {
      lastFollowChild := lastInLine;
      lastDC := lastInLine;
    }

    method PlayerAttachmentsUpdate(follower: bool, child: DuckController?, lastInLine: DuckController?)
      modifies this`hasFollower, this`followChild, this`lastFollowChild, this`lastDC
      ensures hasFollower == follower && followChild == child
      ensures lastFollowChild == lastInLine && lastDC == lastInLine
    {
      hasFollower := follower;
      followChild := child;
      UpdateLastInLine(lastInLine);
    }

    /**
     * Removes the tail. Its parent duck, if any, becomes the new tail; a tail that follows the
     * player empties the line; a tail with no parent also empties the line but is not returned.
     */
    method DetachLastInLine() returns (r: DuckController?)
      modifies this, lastDC, ParentDuck(lastDC)
      ensures old(lastDC) == null ==> r == null && unchanged(this)
      ensures old(lastDC) != null ==>
        var t := old(lastDC);
        && !t.hasFollower && t.followChild == null && t.followParent == NoLeader
        && !t.isAirborne && t.position == old(t.position) && t.startPosition == t.position
        && (old(t.followParent) != DuckLead(t) ==> !t.isFollowing)
      ensures old(lastDC) != null && old(lastDC.followParent) == NoLeader ==>
        r == null && followChild == null && !hasFollower && lastFollowChild == null && lastDC == null
      ensures old(lastDC) != null && old(lastDC.followParent) == PlayerLead ==>
        r == old(lastDC) && followChild == null && !hasFollower && lastFollowChild == null && lastDC == null
      ensures old(lastDC) != null && old(lastDC.followParent).DuckLead? && old(lastDC.followParent.duck) != old(lastDC) ==>
        var t, pd := old(lastDC), old(lastDC.followParent.duck);
        && r == t
        && pd.isFollowing && pd.followParent == old(pd.followParent) && pd.isAirborne == old(pd.isAirborne)
        && !pd.hasFollower && pd.followChild == null
        && lastFollowChild == pd && lastDC == pd
        && followChild == old(followChild) && hasFollower == old(hasFollower)
      ensures old(Valid()) ==>
        && Valid()
        && (old(Chain) == [] ==> r == null && Chain == [])
        && (old(Chain) != [] ==>
              r == old(Chain[|Chain| - 1]) && r.Released() && Chain == old(Chain[..|Chain| - 1]))
    {
      if lastDC != null {
        ghost var n := |Chain|;
        ghost var wasValid := Valid();
        ghost var line := Chain;
        if wasValid {
          assert Linked(n - 1);
          assert n >= 2 ==> Linked(n - 2);
        }
        var targetDC := lastDC;
        targetDC.CleanDuckFollower();
        if targetDC.followParent == NoLeader {
          targetDC.CleanDuckParent();
          lastFollowChild := null;
          lastDC := null;
          hasFollower := false;
          followChild := null;
          Chain := [];
          return null;
        }
        if targetDC.followParent.DuckLead? {
          var parentDuck := targetDC.followParent.duck;
          parentDuck.UpdateParentChildRelation(true, parentDuck.followParent, false, null);
          UpdateLastInLine(parentDuck);
          targetDC.CleanDuckParent();
          targetDC.CleanDuckChild();
          if wasValid {
            Chain := line[..n - 1];
            assert forall i, j :: 0 <= i < j < n - 1 ==> line[i] != line[j];
            forall i | 0 <= i < n - 2
              ensures Linked(i)
            {
              assert old(Linked(i));
            }
            assert Linked(n - 2);
          }
        } else {
          targetDC.CleanDuckParent();
          targetDC.CleanDuckChild();
          UpdateLastInLine(null);
          PlayerAttachmentsUpdate(false, null, null);
          Chain := [];
        }
        return targetDC;
      }
      return null;
    }

    /** Drains the line one tail at a time; every duck that was in line ends released. */
    method DetachWholeLink()
      requires Valid()
      modifies this, Chain
      ensures Valid() && Chain == []
      ensures !hasFollower && followChild == null && lastFollowChild == null
      ensures forall d :: d in old(Chain) ==> d.Released()
    {
      ghost var all := Chain;
      UpdateLink();
      if lastFollowChild != null || followChild != null {
        while followChild != null
          invariant Valid()
          invariant |Chain| <= |all| && Chain == all[..|Chain|]
          invariant forall k :: |Chain| <= k < |all| ==> all[k].Released()
          decreases |Chain|
        {
          ghost var n := |Chain|;
          assert Linked(n - 1);
          assert all[n - 1] == lastDC;
          assert n >= 2 ==> all[n - 2] == ParentDuck(lastDC);
          if lastFollowChild == followChild {
            var _ := DetachLastInLine();
            followChild := null;
            lastFollowChild := null;
            UpdateLink();
            break;
          }
          var tmp := DetachLastInLine();
          if tmp == null {
            break;
          }
        }
      }
      forall d | d in all
        ensures d.Released()
      {
        var k :| 0 <= k < |all| && all[k] == d;
      }
    }

    /** Enemy contact: a player with a follower loses its last duck. */
    method OnEnemyCollision(isEnemy: bool)
      modifies this, lastDC, ParentDuck(lastDC)
      ensures !isEnemy || !old(hasFollower) ==> unchanged(this)
      ensures old(Valid()) ==>
        && Valid()
        && (isEnemy && old(Chain) != [] ==> Chain == old(Chain[..|Chain| - 1]))
        && (!isEnemy || old(Chain) == [] ==> Chain == old(Chain))
    {
      if isEnemy && hasFollower {
        var _ := DetachLastInLine();
      }
    }

    /** Walks from the tail up the parent links to the player; the count is the length of the line. */
    method TrackChain() returns (count: int)
      requires Valid()
      ensures count == |Chain|
    {
      ghost var n := |Chain|;
      if n > 0 {
        assert Linked(n - 1);
      }
      count := 0;
      if lastFollowChild != null {
        if lastDC != null && lastDC.followParent != NoLeader {
          count := count + 1;
          var nextInLine := lastDC.followParent;
          while nextInLine != NoLeader
            invariant 1 <= count <= n
            invariant nextInLine == (if count == n then PlayerLead else DuckLead(Chain[n - 1 - count]))
            decreases n - count
          {
            if nextInLine.DuckLead? {
              assert Linked(n - 1 - count);
              count := count + 1;
              nextInLine := nextInLine.duck.followParent;
            } else {
              break;
            }
          }
        }
      }
    }
  }
  /** Three ducks catch up with a fresh player one after another, by overlap or by distance to the tail. */
  method BuildLineOfThree() returns (p: PlayerAttachment, a: DuckController, b: DuckController, c: DuckController)
    ensures fresh(p) && fresh(a) && fresh(b) && fresh(c)
    ensures p.Valid() && p.Chain == [a, b, c]
  {
    p := new PlayerAttachment();
    a := new DuckController(p, Vec2(1.0, 0.0), true);
    b := new DuckController(p, Vec2(2.0, 0.0), true);
    c := new DuckController(p, Vec2(3.0, 0.0), true);
    a.CatchAreaCheck(true, 0.0);
    b.CatchAreaCheck(false, 0.5);
    c.CatchAreaCheck(true, 2.0);
  }

  /**
   * After three ducks joined, the line has length three; three enemy hits then take the ducks
   * off in the reverse of the order they joined, and the line is empty.
   */
  method JoinThenLeaveScenario() returns (joined: seq<DuckController>, lengthAfterJoins: int,
                                          firstOut: DuckController?, secondOut: DuckController?, thirdOut: DuckController?,
                                          lengthAfterHits: int)
    ensures |joined| == 3 && lengthAfterJoins == 3 && lengthAfterHits == 0
    ensures firstOut == joined[2] && secondOut == joined[1] && thirdOut == joined[0]
    ensures joined[0] != joined[1] && joined[1] != joined[2] && joined[0] != joined[2]
    ensures forall d :: d in joined ==> d.Released()
  {
    var p, a, b, c := BuildLineOfThree();
    joined := [a, b, c];
    lengthAfterJoins := p.TrackChain();
    assert p.Linked(2);
    firstOut := p.DetachLastInLine();
    assert p.Linked(1);
    secondOut := p.DetachLastInLine();
    assert p.Linked(0);
    thirdOut := p.DetachLastInLine();
    lengthAfterHits := p.TrackChain();
  }
}
