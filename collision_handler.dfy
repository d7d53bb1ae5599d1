/**
 * The collision dispatcher: a collision with an object on a layer of the player mask calls the
 * player callback, one on a layer of the duck mask the duck callback, and the player wins.
 */
module Collision {

  /** Which callback a collision invoked. */
  datatype Fired = FiredPlayer | FiredDuck | NoneFired

  /** The single-bit mask of a layer (1 << layer); Unity layers are 0 .. 31. */
  function LayerBit(layer: nat): bv32
    requires layer < 32
  {
    1 << layer
  }

  /** Whether `mask` includes `layer`. */
  predicate InMask(mask: bv32, layer: nat)
    requires layer < 32
  {
    mask & LayerBit(layer) != 0
  }

  /**
   * HandleCollisionByLayer for an object on `layer` that carries a player controller and/or a
   * duck controller. A callback that is not set (null) is not invoked, but the handler still
   * returns when the component was found.
   */
  function HandleCollisionByLayer(layer: nat, playerLayer: bv32, duckLayer: bv32, hasPlayer: bool, hasDuck: bool,
                                  onPlayerSet: bool, onDuckSet: bool): (r: Fired)
    requires layer < 32
    ensures r == FiredPlayer <==> InMask(playerLayer, layer) && hasPlayer && onPlayerSet
    ensures r == FiredDuck <==>
      !(InMask(playerLayer, layer) && hasPlayer) && InMask(duckLayer, layer) && hasDuck && onDuckSet
    ensures !InMask(playerLayer, layer) && !InMask(duckLayer, layer) ==> r == NoneFired
  {
    if InMask(playerLayer, layer) && hasPlayer then
      (if onPlayerSet then FiredPlayer else NoneFired)
    else if InMask(duckLayer, layer) && hasDuck then
      (if onDuckSet then FiredDuck else NoneFired)
    else NoneFired
  }

  /** A mask made of one layer includes exactly that layer. */
  lemma SingleLayerMask(l: nat, layer: nat)
    requires l < 32 && layer < 32
    ensures InMask(LayerBit(l), layer) <==> l == layer
  {
    if l != layer {
      assert LayerBit(l) & LayerBit(layer) == 0 by {
        ShiftedBitsDisjoint(l, layer);
      }
    }
  }

  lemma ShiftedBitsDisjoint(l: nat, m: nat)
    requires l < 32 && m < 32 && l != m
    ensures (1 as bv32 << l) & (1 as bv32 << m) == 0
  {
  }

  /**
   * With one layer in the player mask and a different one in the duck mask, an object on the
   * player layer that carries both controllers reaches only the player callback, and one on the
   * duck layer only the duck callback.
   */
  lemma DisjointMasksDispatch(pl: nat, dl: nat)
    requires pl < 32 && dl < 32 && pl != dl
    ensures HandleCollisionByLayer(pl, LayerBit(pl), LayerBit(dl), true, true, true, true) == FiredPlayer
    ensures HandleCollisionByLayer(dl, LayerBit(pl), LayerBit(dl), true, true, true, true) == FiredDuck
  {
    SingleLayerMask(pl, pl);
    SingleLayerMask(dl, dl);
    SingleLayerMask(pl, dl);
    SingleLayerMask(dl, pl);
  }
}
