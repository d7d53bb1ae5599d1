/**
 * The exit: when the player or a duck touches it, the whole line is drained tail first, every
 * drained duck is reported and scored, and a queue of pick-up sounds is played.
 */
module Exit {
  import opened Base
  import opened DuckChain
  import opened Sound

  /** Most ducks one drain can take off the line. */
  const MaxAttempts := 100
  /** Most pick-up sounds one playback plays. */
  const MaxQueuedSounds := 5

  /** The ducks of a player's line, none without a player. */
  ghost function ChainOf(p: PlayerAttachment?): seq<DuckController>
    reads p
  {
    if p != null then p.Chain else []
  }

  /** The first `k` ducks taken off `line` tail first: the last `k` ducks in reverse order. */
  function TailFirst(line: seq<DuckController>, k: nat): (r: seq<DuckController>)
    requires k <= |line|
    ensures |r| == k
    ensures forall i :: 0 <= i < k ==> r[i] == line[|line| - 1 - i]
  {
    if k == 0 then [] else TailFirst(line, k - 1) + [line[|line| - k]]
  }

  /**
   * Where the playback coroutine is suspended: not running, in its first 0.1 s wait, in the
   * report's one-frame wait, or in the 0.1 s wait after playing one sound.
   */
  datatype SoundPhase = SoundIdle | AwaitDelay | AwaitReport | AwaitRepeat

  class ExitController {
    /** Whether the player controller reference is set. */
    var hasPlayer: bool
    var pl: PlayerAttachment?
    var score: int
    var queue: nat
    /** The playback coroutine (`_soundRepeatPlay`); SoundIdle when it is null. */
    var sound: SoundPhase
    /** Whether the player's audio component was found; Awake is the only place that sets it. */
    const hasPlayerAudio: bool

    /**
     * The playback runs only with the audio present, and while it waits after a sound the
     * queue still holds that sound.
     */
    predicate SoundInv()
      reads this
    {
      && (sound != SoundIdle ==> hasPlayerAudio)
      && (sound == AwaitRepeat ==> queue > 0)
    }

    /** Awake: score zero, nothing queued, no playback. */
    constructor (player: bool, attachment: PlayerAttachment?, audio: bool)
      ensures hasPlayer == player && pl == attachment && hasPlayerAudio == audio
      ensures score == 0 && queue == 0 && sound == SoundIdle
      ensures SoundInv()
    {
      hasPlayer := player;
      pl := attachment;
      score := 0;
      queue := 0;
      sound := SoundIdle;
      hasPlayerAudio := audio;
    }

    /**
     * Drains up to MaxAttempts ducks tail first and returns them in the order they reached the
     * exit. Nothing happens without both player references or without a follower.
     */
    method DetachLastOne() returns (reached: seq<DuckController>)
      requires pl != null ==> pl.Valid()
      modifies this`score, this`queue, this`sound, pl, ChainOf(pl)
      ensures pl != null ==> pl.Valid()
      ensures !hasPlayer || pl == null || !old(pl.hasFollower) ==>
        reached == [] && score == old(score) && queue == old(queue) && sound == old(sound)
        && (pl != null ==> pl.Chain == old(pl.Chain))
      ensures hasPlayer && pl != null && old(pl.hasFollower) ==>
        var n := |old(pl.Chain)|;
        var k := Min(n, MaxAttempts);
        && reached == TailFirst(old(pl.Chain), k)
        && pl.Chain == old(pl.Chain)[..n - k]
        && score == old(score) + k && queue == old(queue) + k
        && (forall d :: d in reached ==> d.Released())
        && sound == (if old(sound) == SoundIdle && hasPlayerAudio then AwaitDelay else old(sound))
      ensures score >= old(score)
      ensures old(SoundInv()) ==> SoundInv()
    {
      if !hasPlayer || pl == null || !pl.hasFollower {
        return [];
      }
      ghost var all := pl.Chain;
      var count := 0;
      var atmps := 0;
      reached := [];
      if pl.lastFollowChild != null {
        while atmps < MaxAttempts
          invariant pl.Valid()
          invariant 0 <= count == atmps <= MaxAttempts && count <= |all|
          invariant pl.Chain == all[..|all| - count]
          invariant reached == TailFirst(all, count)
          invariant queue == old(queue) + count
          invariant score == old(score) && sound == old(sound)
          invariant forall d :: d in reached ==> d.Released()
          invariant atmps < MaxAttempts && count < |all| ==> pl.followChild != null
          decreases MaxAttempts - atmps
        {
          if pl.followChild == null {
            break;
          }
          ghost var m := |pl.Chain|;
          assert pl.Linked(m - 1);
          assert pl.lastDC == all[m - 1];
          assert m >= 2 ==> ParentDuck(pl.lastDC) == all[m - 2];
          var obj := pl.DetachLastInLine();
          if obj != null {
            reached := reached + [obj];
            count := count + 1;
            queue := queue + 1;
          }
          atmps := atmps + 1;
        }
      }
      if sound == SoundIdle && hasPlayerAudio {
        sound := AwaitDelay;
      }
      score := score + count;
    }

    /** The exit reacts to the player and to ducks and to nothing else. */
    method OnTriggerEnter(isPlayer: bool, isDuck: bool) returns (reached: seq<DuckController>)
      requires pl != null ==> pl.Valid()
      modifies this`score, this`queue, this`sound, pl, ChainOf(pl)
      ensures pl != null ==> pl.Valid()
      ensures !isPlayer && !isDuck ==>
        reached == [] && score == old(score) && queue == old(queue) && sound == old(sound)
        && (pl != null ==> pl.Chain == old(pl.Chain))
      ensures (isPlayer || isDuck) && hasPlayer && pl != null && old(pl.hasFollower) ==>
        score == old(score) + Min(|old(pl.Chain)|, MaxAttempts) && pl.Chain == old(pl.Chain)[..|old(pl.Chain)| - Min(|old(pl.Chain)|, MaxAttempts)]
      ensures old(SoundInv()) ==> SoundInv()
    {
      reached := [];
      if isPlayer || isDuck {
        reached := DetachLastOne();
      }
    }

    /**
     * The playback coroutine resumes after its first 0.1 s wait: the report coroutine runs up
     * to its yield, firing the collected-ducks event with the queued amount when it is positive.
     * Ducks that reach the exit later join the queue but are never reported by this run.
     */
    method ResumeAfterDelay() returns (collected: Option<int>)
      modifies this`sound
      ensures old(sound) != AwaitDelay ==> collected.None? && sound == old(sound)
      ensures old(sound) == AwaitDelay ==> collected == UpdatePoints(queue) && sound == AwaitReport
      ensures old(SoundInv()) ==> SoundInv()
    {
      collected := None;
      if sound == AwaitDelay {
        collected := UpdatePoints(queue);
        sound := AwaitReport;
      }
    }

    /**
     * The playback resumes after the report: the queue is clamped to MaxQueuedSounds, the pitch
     * is set to the clamped queue, and the loop test runs. Returns whether a sound was played.
     */
    method ResumeAfterReport(fx: SoundFXManager) returns (played: bool)
      modifies this`queue, this`sound, fx`pitch
      ensures old(sound) != AwaitReport ==> !played && queue == old(queue) && sound == old(sound) && fx.pitch == old(fx.pitch)
      ensures old(sound) == AwaitReport && old(SoundInv()) ==>
        && (old(queue) > 0 ==>
              played && sound == AwaitRepeat && queue == Min(old(queue), MaxQueuedSounds)
              && fx.pitch == Min(old(queue), MaxQueuedSounds) as real)
        && (old(queue) == 0 ==> !played && sound == SoundIdle && queue == 0 && fx.pitch == 1.0)
      ensures old(SoundInv()) ==> SoundInv()
    {
      played := false;
      if sound == AwaitReport {
        queue := if queue > MaxQueuedSounds then MaxQueuedSounds else queue;
        fx.SetSoundFxPitch(1.0 * queue as real);
        played := LoopTest(fx);
      }
    }

    /**
     * The playback resumes after the wait that follows a sound: that sound leaves the queue and
     * the loop test runs. The queue is not clamped again, so ducks that reached the exit during
     * the waits are all played. Returns whether another sound was played.
     */
    method ResumeAfterRepeat(fx: SoundFXManager) returns (played: bool)
      modifies this`queue, this`sound, fx`pitch
      ensures old(sound) != AwaitRepeat ==> !played && queue == old(queue) && sound == old(sound) && fx.pitch == old(fx.pitch)
      ensures old(sound) == AwaitRepeat && old(SoundInv()) ==>
        && (old(queue) > 1 ==> played && sound == AwaitRepeat && queue == old(queue) - 1 && fx.pitch == old(fx.pitch))
        && (old(queue) == 1 ==> !played && sound == SoundIdle && queue == 0 && fx.pitch == 1.0)
      ensures old(SoundInv()) ==> SoundInv()
    {
      played := false;
      if sound == AwaitRepeat {
        queue := if queue > 0 then queue - 1 else 0;
        played := LoopTest(fx);
      }
    }

    /**
     * The test of the playback loop: with a queue left, one pick-up sound is played and the
     * coroutine waits 0.1 s; with none, the pitch is restored, the queue emptied and the handle
     * cleared. Without the audio the loop body does nothing, so the loop would never end; the
     * coroutine starts only with the audio, so that case is left where it is.
     */
    method LoopTest(fx: SoundFXManager) returns (played: bool)
      modifies this`queue, this`sound, fx`pitch
      ensures old(queue) > 0 && hasPlayerAudio ==>
        played && sound == AwaitRepeat && queue == old(queue) && fx.pitch == old(fx.pitch)
      ensures old(queue) > 0 && !hasPlayerAudio ==> !played && unchanged(this) && fx.pitch == old(fx.pitch)
      ensures old(queue) == 0 ==> !played && sound == SoundIdle && queue == 0 && fx.pitch == 1.0
      ensures hasPlayerAudio ==> SoundInv()
    {
      played := false;
      if queue > 0 {
        if hasPlayerAudio {
          played := true;
          sound := AwaitRepeat;
        }
      } else {
        fx.SetSoundFxPitch(1.0);
        queue := 0;
        sound := SoundIdle;
      }
    }

    /** The collected-ducks event carries the queued amount, and fires only when it is positive. */
    function UpdatePoints(queueAmount: int): (event: Option<int>)
      ensures event.Some? <==> queueAmount > 0
      ensures event.Some? ==> event.value == queueAmount
    {
      if queueAmount > 0 then Some(queueAmount) else None
    }
  }

  /**
   * Resumes the playback after each 0.1 s wait until it ends: every queued duck but the one
   * already sounding is played, whatever the clamp left, and the queue ends empty.
   */
  method PlayRemaining(e: ExitController, fx: SoundFXManager) returns (plays: nat)
    requires e.sound == AwaitRepeat && e.SoundInv()
    modifies e`queue, e`sound, fx`pitch
    ensures plays == old(e.queue) - 1
    ensures e.sound == SoundIdle && e.queue == 0 && fx.pitch == 1.0
  {
    plays := 0;
    while e.sound == AwaitRepeat
      invariant e.SoundInv()
      invariant e.sound == AwaitRepeat || e.sound == SoundIdle
      invariant e.sound == AwaitRepeat ==> plays + e.queue == old(e.queue)
      invariant e.sound == SoundIdle ==> plays == old(e.queue) - 1 && e.queue == 0 && fx.pitch == 1.0
      decreases e.queue, e.sound == AwaitRepeat
    {
      var played := e.ResumeAfterRepeat(fx);
      if played {
        plays := plays + 1;
      }
    }
  }

  /** Three ducks of a fresh line reach the exit; the playback reports them and plays the first sound. */
  method ThreeReachExit() returns (e: ExitController, fx: SoundFXManager, report: Option<int>)
    ensures fresh(e) && fresh(fx) && e.pl != null && fresh(e.pl)
    ensures e.hasPlayer && e.pl.Valid() && e.pl.Chain == []
    ensures report == Some(3) && e.score == 3 && e.queue == 3 && e.sound == AwaitRepeat && e.SoundInv()
  {
    var p, a, b, c := BuildLineOfThree();
    e := new ExitController(true, p, true);
    fx := new SoundFXManager();
    var _ := e.DetachLastOne();
    report := e.ResumeAfterDelay();
    var _ := e.ResumeAfterReport(fx);
  }

  /**
   * Three ducks reach the exit and are reported; a fourth reaches it while the first pick-up
   * sound plays. The score counts all four and four sounds are played, but the only report is
   * the one for three.
   */
  method LateDuckPlayedButNotReported() returns (report: Option<int>, score: int, plays: nat)
    ensures report == Some(3) && score == 4 && plays == 4
  {
    var e, fx;
    e, fx, report := ThreeReachExit();
    var d := new DuckController(e.pl, Vec2(4.0, 0.0), true);
    d.CatchAreaCheck(true, 0.0);
    var _ := e.DetachLastOne();
    var more := PlayRemaining(e, fx);
    plays := 1 + more;
    score := e.score;
  }
}
