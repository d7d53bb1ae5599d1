/**
 * The gameplay manager: the goal and the number of ducks in the level, the win test, and the
 * pop-up text that reports collected ducks. Its coroutines are explicit steps: each method is
 * what runs between two yields.
 */
module Gameplay {
  import opened Base
  import opened Exit

  /** The pop-up texts the manager writes. */
  datatype Message = Saved(score: int) | DucksLeft(left: int) | Won(finalScore: int)

  /** Where the text-update coroutine is suspended, if it is running. */
  datatype UiStep = UiIdle | UiAfterSaved | UiAfterLeft

  /** The finish test of the win loop: every duck saved, or the goal reached. */
  function LevelFinished(score: int, amount: int, goal: int): (finished: bool)
    ensures score >= goal ==> finished
    ensures finished ==> score >= amount || score >= goal
    ensures finished && score < goal ==> score == amount
  {
    score == amount || score >= goal
  }

  /**
   * Once the win loop has set the goal to one less than the number of ducks, the level ends
   * exactly when all but one duck have been saved (for a non-negative score).
   */
  lemma WinAfterSetup(score: int, amount: int)
    requires amount >= 1
    ensures LevelFinished(score, amount, amount - 1) <==> score >= amount - 1
  {
  }

  class GameplayManager {
    var exit: ExitController?
    var goal: int
    var amount: nat
    var levelFinished: bool
    /** Whether the `_event` coroutine handle is set. */
    var eventPending: bool
    /** Where the text-update coroutine waits. */
    var ui: UiStep
    var showMessage: bool
    var duration: real
    /** The text last written to the pop-up. */
    var lastShown: Option<Message>

    /** The goal is never negative. */
    predicate GoalValid()
      reads this`goal
    {
      goal >= 0
    }

    /** The `_event` handle is set exactly while the text-update coroutine is running. */
    predicate EventTracksCoroutine()
      reads this`eventPending, this`ui
    {
      eventPending <==> ui != UiIdle
    }

    /** The field initialisers. */
    constructor ()
      ensures exit == null && goal == 0 && amount == 0 && !levelFinished
      ensures !eventPending && ui == UiIdle && !showMessage && duration == 1.0 && lastShown.None?
      ensures GoalValid() && EventTracksCoroutine()
    {
      exit := null;
      goal := 0;
      amount := 0;
      levelFinished := false;
      eventPending := false;
      ui := UiIdle;
      showMessage := false;
      duration := 1.0;
      lastShown := None;
    }

    /** Takes the duck count from the game manager when there is one and its list is not null. */
    method UpdateAmount(ducks: Option<nat>)
      modifies this`amount
      ensures amount == if ducks.Some? then ducks.value else old(amount)
    {
      if ducks.None? {
        return;
      }
      amount := ducks.value;
    }

    /** Sets the goal; a negative goal is ignored. */
    method SetGoal(newGoalScore: int)
      modifies this`goal
      ensures goal == if newGoalScore < 0 then old(goal) else newGoalScore
      ensures old(GoalValid()) ==> GoalValid()
    {
      if newGoalScore < 0 {
        return;
      }
      goal := newGoalScore;
    }

    /** Writes a pop-up text and the time it stays up. */
    method ShowPopUpText(message: Message, d: real)
      modifies this`showMessage, this`lastShown, this`duration
      ensures showMessage && lastShown == Some(message) && duration == d
    {
      showMessage := true;
      lastShown := Some(message);
      duration := d;
    }

    /**
     * Initialize: the exit, the duck count, the goal equal to it, and the message loop started
     * with the pop-up shown for three seconds.
     */
    method Initialize(e: ExitController?, ducks: Option<nat>)
      modifies this`exit, this`amount, this`goal, this`showMessage, this`duration
      ensures exit == e
      ensures amount == if ducks.Some? then ducks.value else old(amount)
      ensures goal == amount && GoalValid()
      ensures showMessage && duration == 3.0
    {
      exit := e;
      UpdateAmount(ducks);
      SetGoal(amount);
      duration := 3.0;
      showMessage := true;
    }

    /** The message loop hides the pop-up once its time is up. */
    method HideMessage()
      modifies this`showMessage
      ensures !showMessage
    {
      showMessage := false;
    }

    /**
     * The text-update coroutine up to its first wait: with no message showing it shows the
     * score and waits; with a message showing it ends at once and clears the handle.
     */
    method StartUpdateText()
      requires exit != null
      modifies this`showMessage, this`lastShown, this`duration, this`ui, this`eventPending
      ensures !old(showMessage) ==>
        ui == UiAfterSaved && eventPending == old(eventPending)
        && showMessage && lastShown == Some(Saved(exit.score)) && duration == 2.0
      ensures old(showMessage) ==>
        ui == UiIdle && !eventPending && showMessage && lastShown == old(lastShown) && duration == old(duration)
    {
      if !showMessage {
        ShowPopUpText(Saved(exit.score), 2.0);
        ui := UiAfterSaved;
        return;
      }
      ui := UiIdle;
      eventPending := false;
    }

    /**
     * The text-update coroutine after a wait: after the score it shows the ducks still to save
     * when there are any; otherwise, and after that message, it ends and clears the handle.
     * Nothing runs when the coroutine is not suspended.
     */
    method ResumeUpdateText()
      requires ui != UiIdle ==> exit != null
      modifies this`showMessage, this`lastShown, this`duration, this`ui, this`eventPending
      ensures old(ui) == UiIdle ==>
        ui == UiIdle && eventPending == old(eventPending) && showMessage == old(showMessage) && lastShown == old(lastShown)
        && duration == old(duration)
      ensures old(ui) == UiAfterSaved && goal - exit.score > 0 ==>
        ui == UiAfterLeft && eventPending == old(eventPending)
        && showMessage && lastShown == Some(DucksLeft(goal - exit.score)) && duration == 2.0
      ensures old(ui) == UiAfterSaved && goal - exit.score <= 0 ==>
        ui == UiIdle && !eventPending && lastShown == old(lastShown) && showMessage == old(showMessage)
      ensures old(ui) == UiAfterLeft ==>
        ui == UiIdle && !eventPending && lastShown == old(lastShown) && showMessage == old(showMessage)
      ensures lastShown != old(lastShown) ==> exists n :: n > 0 && lastShown == Some(DucksLeft(n))
      ensures old(EventTracksCoroutine()) ==> EventTracksCoroutine()
    {
      if ui == UiIdle {
        return;
      }
      if ui == UiAfterSaved && goal - exit.score > 0 {
        ShowPopUpText(DucksLeft(goal - exit.score), 2.0);
        ui := UiAfterLeft;
        return;
      }
      ui := UiIdle;
      eventPending := false;
    }

    /**
     * HandleCollected as written: with an exit, the coroutine starts only when no handle is
     * set, and the handle is assigned after the coroutine's first run. A coroutine still running
     * has a handle; for one that already finished and cleared `_event`, `finishedHandle` says
     * whether the engine still returns a non-null handle, which `??=` then stores.
     */
    method HandleCollected(finishedHandle: bool)
      modifies this`showMessage, this`lastShown, this`duration, this`ui, this`eventPending
      ensures exit == null || old(eventPending) ==>
        eventPending == old(eventPending) && ui == old(ui) && showMessage == old(showMessage)
        && lastShown == old(lastShown) && duration == old(duration)
      ensures exit != null && !old(eventPending) ==>
        && (old(showMessage) ==> ui == UiIdle && lastShown == old(lastShown) && eventPending == finishedHandle)
        && (!old(showMessage) ==> ui == UiAfterSaved && lastShown == Some(Saved(exit.score)) && eventPending)
      ensures old(EventTracksCoroutine()) && (!old(showMessage) || !finishedHandle) ==> EventTracksCoroutine()
    {
      if exit != null {
        if !eventPending {
          StartUpdateText();
          eventPending := ui != UiIdle || finishedHandle;
        }
      }
    }

    /**
     * HandleCollected as intended: the handle is set before the coroutine's first run, so a
     * run that finishes at once leaves it clear.
     */
    method HandleCollectedCorrected()
      modifies this`showMessage, this`lastShown, this`duration, this`ui, this`eventPending
      ensures exit == null || old(eventPending) ==>
        eventPending == old(eventPending) && ui == old(ui) && showMessage == old(showMessage)
        && lastShown == old(lastShown) && duration == old(duration)
      ensures exit != null && !old(eventPending) ==>
        (old(showMessage) ==> ui == UiIdle && !eventPending && lastShown == old(lastShown))
        && (!old(showMessage) ==> ui == UiAfterSaved && eventPending && lastShown == Some(Saved(exit.score)))
      ensures old(EventTracksCoroutine()) ==> EventTracksCoroutine()
    {
      if exit != null {
        if !eventPending {
          eventPending := true;
          StartUpdateText();
        }
      }
    }

    /**
     * The win loop's first step, once the game manager exists: the duck count is refreshed and
     * the goal becomes one less, which is ignored for an empty level.
     */
    method WinSetup(ducks: Option<nat>)
      modifies this`amount, this`goal
      ensures amount == if ducks.Some? then ducks.value else old(amount)
      ensures goal == if amount >= 1 then amount - 1 else old(goal)
      ensures old(GoalValid()) ==> GoalValid()
    {
      UpdateAmount(ducks);
      SetGoal(amount - 1);
    }

    /**
     * One turn of the win loop, which runs only while the level is not finished: with an exit
     * the finish test is re-evaluated, and a finished level shows the final score.
     */
    method WinTick() returns (finished: bool)
      requires !levelFinished
      modifies this`levelFinished, this`showMessage, this`lastShown, this`duration
      ensures exit != null ==> levelFinished == LevelFinished(exit.score, amount, goal)
      ensures exit == null ==> !levelFinished
      ensures finished == levelFinished
      ensures finished ==> exit != null && showMessage && lastShown == Some(Won(exit.score)) && duration == 3.0
      ensures !finished ==> showMessage == old(showMessage) && lastShown == old(lastShown) && duration == old(duration)
    {
      if exit != null {
        levelFinished := exit.score == amount || exit.score >= goal;
      }
      if levelFinished {
        ShowPopUpText(Won(exit.score), 3.0);
        return true;
      }
      return false;
    }
  }

  /**
   * As written, when the engine returns a handle for a coroutine that already finished, a duck
   * collected while a message is up leaves the handle set with no coroutine running; once the
   * message is gone, the next collected duck shows nothing.
   */
  method UpdateStuckAfterCollectDuringMessage() returns (handleSet: bool, running: bool, shown: Option<Message>)
    ensures handleSet && !running && shown.None?
  {
    var e := new ExitController(true, null, false);
    var g := new GameplayManager();
    g.Initialize(e, Some(3));
    g.HandleCollected(true);
    g.ResumeUpdateText();
    g.HideMessage();
    g.HandleCollected(true);
    handleSet := g.eventPending;
    running := g.ui != UiIdle;
    shown := g.lastShown;
  }

  /**
   * As written, when the engine returns no handle for a coroutine that already finished, the
   * same sequence reports the next duck: the lock-up needs a non-null handle.
   */
  method UpdateShownWhenFinishedHandleIsNull() returns (handleSet: bool, running: bool, shown: Option<Message>)
    ensures handleSet && running && shown == Some(Saved(0))
  {
    var e := new ExitController(true, null, false);
    var g := new GameplayManager();
    g.Initialize(e, Some(3));
    g.HandleCollected(false);
    g.ResumeUpdateText();
    g.HideMessage();
    g.HandleCollected(false);
    handleSet := g.eventPending;
    running := g.ui != UiIdle;
    shown := g.lastShown;
  }

  /** With the handle set before the first run, the same sequence reports the next duck. */
  method UpdateShownWhenCorrected() returns (handleSet: bool, running: bool, shown: Option<Message>)
    ensures handleSet && running && shown == Some(Saved(0))
  {
    var e := new ExitController(true, null, false);
    var g := new GameplayManager();
    g.Initialize(e, Some(3));
    g.HandleCollectedCorrected();
    g.ResumeUpdateText();
    g.HideMessage();
    g.HandleCollectedCorrected();
    handleSet := g.eventPending;
    running := g.ui != UiIdle;
    shown := g.lastShown;
  }
}
