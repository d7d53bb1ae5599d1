/**
 * The sound-effect manager's volume and pitch bookkeeping. Spawning and playing audio sources
 * is outside the model; a played clip is reported as the index chosen and the volume used.
 */
module Sound {
  import opened Base

  /** One effect that would be played: which clip of the array, at which volume. */
  datatype Playback = Playback(clipIndex: int, volume: real)

  /** The volume an effect plays at: the stored volume once overridden, the caller's otherwise. */
  function ChosenVolume(overrided: bool, stored: real, passed: real): (v: real)
    ensures overrided ==> v == stored
    ensures !overrided ==> v == passed
  {
    if !overrided then passed else stored
  }

  class SoundFXManager {
    var volume: real
    var overrided: bool
    /** Pitch of the effect prefab's audio source. */
    var pitch: real

    /** Awake of the first instance: full volume, not overridden, the prefab's default pitch. */
    constructor ()
      ensures volume == 1.0 && !overrided && pitch == 1.0
    {
      volume := 1.0;
      overrided := false;
      pitch := 1.0;
    }

    /** Stores the volume; it counts as an override unless it is exactly full volume. */
    method ChangeVolume(v: real)
      modifies this`volume, this`overrided
      ensures volume == v && GetVolume() == v
      ensures !overrided <==> v == 1.0
    {
      if v == 1.0 {
        overrided := false;
      } else {
        overrided := true;
      }
      volume := v;
    }

    /** Same effect as ChangeVolume. */
    method SetVolume(v: real)
      modifies this`volume, this`overrided
      ensures volume == v && (!overrided <==> v == 1.0)
    {
      ChangeVolume(v);
    }

    function GetVolume(): real
      reads this
    {
      volume
    }

    method SetSoundFxPitch(p: real)
      modifies this`pitch
      ensures pitch == p
    {
      pitch := p;
    }

    function GetSoundFxPitch(): real
      reads this
    {
      pitch
    }

    method ResetSoundFxPitch()
      modifies this`pitch
      ensures pitch == 1.0
    {
      pitch := 1.0;
    }

    /**
     * Plays a random clip of an array that has `clipCount` entries (None: no array).
     * `rnd` is the random draw, which the engine takes from [0, clipCount).
     */
    method PlayRandomSoundFXClip(clipCount: Option<int>, v: real, rnd: int) returns (played: Option<Playback>)
      requires clipCount.Some? && clipCount.value > 0 ==> 0 <= rnd < clipCount.value
      modifies this`volume
      ensures clipCount.None? || clipCount.value <= 0 ==> played.None? && volume == old(volume)
      ensures clipCount.Some? && clipCount.value > 0 ==>
        && played.Some? && 0 <= played.value.clipIndex < clipCount.value
        && played.value.volume == ChosenVolume(overrided, old(volume), v)
        && volume == played.value.volume
    {
      if clipCount.None? || clipCount.value <= 0 {
        return None;
      }
      var chosen: real;
      if !overrided {
        chosen := v;
        volume := v;
      } else {
        chosen := volume;
      }
      played := Some(Playback(rnd, chosen));
    }
  }
}
