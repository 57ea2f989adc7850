/**
 * The round and level engine of codename_clefairy/GameScene.swift.
 *
 * The scene is a state machine over the fields the Swift class keeps. Its
 * timers and animation completions become event methods: the ghost field
 * `stage` names the continuation that is pending, and each event method
 * requires the stage in which SpriteKit would run it. Synchronous calls
 * stay calls (`verifyResults` calls `startNextBossPhase`, which may call
 * `levelUp`). Rendering, sound and haptics are not modelled.
 */
module Game {
  import opened Catalog
  import opened Ledger
  import opened Levels

  /** The continuation a timer or an animation will run next. */
  datatype Stage =
    | RoundPending  // `startNewRound` is due: first round, after a level-up, after a lost life
    | PhaseDue      // `startNextBossPhase` is due: the boss entrance plays, or a phase was just cleared
    | Presenting    // countdown and sequence display; `setupInputButtons` is due
    | Input         // the input window is open and the selection timer runs
    | Judging       // the taps are complete; `verifyResults` is due
    | LifeLost      // the loss banner plays; its completion is due
    | Over          // the game-over board is shown

  class GameScene {
    /** `GameManager.shared`: the selected emoji pack, the coin balance and the high score. */
    const manager: GameManager
    /**
     * `masterEmojiPool`: the symbols of the selected pack. Nothing in the scene
     * changes the selection, so the scene reads it once.
     */
    const masterEmojiPool: seq<string>

    var lives: int
    var level: int
    var currentScore: int
    var comboCount: int
    /** Time of the latest accepted tap, in milliseconds. */
    var lastTapTime: int
    var isBossLevel: bool
    var bossRound: int
    var activeEmojiPool: seq<string>
    var currentSequence: seq<string>
    var userSequence: seq<string>
    var isAcceptingInput: bool
    var remainingTime: int
    /** Whether `selectionTimer` is scheduled and not invalidated. */
    var timerRunning: bool
    /** How many heart containers `heartNodes` holds; `setupBaseUI` appends three each time it runs. */
    var heartNodes: nat

    ghost var stage: Stage
    /** The text of the latest loss banner. */
    ghost var lossReason: string

    /** What holds between events. */
    ghost predicate Valid()
      reads this
    {
      |masterEmojiPool| >= 20 && heartNodes >= 3 &&
      0 <= lives <= 3 && level >= 1 && 0 <= bossRound <= 3 && comboCount >= 0 &&
      (stage != LifeLost && stage != Over ==> lives >= 1) &&
      (stage == Over ==> lives == 0) &&
      (isAcceptingInput <==> stage == Input) &&
      (timerRunning <==> stage == Input) &&
      |userSequence| <= |currentSequence| &&
      (stage == Presenting ==> userSequence == []) &&
      (stage == Input ==> |userSequence| < |currentSequence|) &&
      (stage == Judging ==> |userSequence| == |currentSequence|) &&
      (forall x :: x in userSequence ==> x in activeEmojiPool) &&
      (forall x :: x in currentSequence ==> x in activeEmojiPool) &&
      (stage != RoundPending ==> isBossLevel == (level % 5 == 0)) &&
      (stage == PhaseDue ==> isBossLevel) &&
      ((stage == Presenting || stage == Input || stage == Judging) ==>
         |currentSequence| == SequenceCount(isBossLevel, level)) &&
      (isBossLevel && (stage == Presenting || stage == Input || stage == Judging) ==> bossRound < 3)
    }

    /** The state `startNewRound` leaves: a boss entrance on multiples of 5, otherwise a drawn round. */
    ghost predicate FreshRound(shuffled: seq<string>, pick: nat -> nat)
      reads this
    {
      level >= 1 && userSequence == [] && !isAcceptingInput && !timerRunning &&
      (level % 5 == 0 ==>
         isBossLevel && bossRound == 0 && stage == PhaseDue && currentSequence == []) &&
      (level % 5 != 0 ==>
         !isBossLevel && stage == Presenting &&
         activeEmojiPool == RoundPool(shuffled, PoolSize(level)) &&
         |activeEmojiPool| == PoolSize(level) &&
         currentSequence == Draw(activeEmojiPool, SequenceCount(false, level), pick) &&
         |currentSequence| == SequenceCount(false, level))
    }

    /** The state a boss phase starts in: 12 symbols of the shuffle and 4 draws from them. */
    ghost predicate FreshBossPhase(shuffled: seq<string>, pick: nat -> nat)
      reads this
    {
      userSequence == [] && !isAcceptingInput && !timerRunning && stage == Presenting &&
      activeEmojiPool == RoundPool(shuffled, BossPoolSize) && |activeEmojiPool| == BossPoolSize &&
      currentSequence == Draw(activeEmojiPool, 4, pick) && |currentSequence| == 4
    }

    /** A scene as `GameScene` starts it: three lives, level 1, the first round due. */
    constructor (manager: GameManager)
      ensures this.manager == manager && masterEmojiPool == Emojis(manager.SelectedPack())
      ensures Valid() && stage == RoundPending
      ensures lives == 3 && level == 1 && currentScore == 0 && comboCount == 0 && lastTapTime == 0
      ensures !isBossLevel && bossRound == 0 && !isAcceptingInput && remainingTime == 0
      ensures activeEmojiPool == [] && currentSequence == [] && userSequence == []
      ensures heartNodes == 3
    {
      this.manager := manager;
      masterEmojiPool := Emojis(manager.SelectedPack());
      PacksAreLargeEnough(manager.SelectedPack());
      lives, level, currentScore, comboCount, lastTapTime := 3, 1, 0, 0, 0;
      isBossLevel, bossRound := false, 0;
      activeEmojiPool, currentSequence, userSequence := [], [], [];
      isAcceptingInput, remainingTime, timerRunning := false, 0, false;
      stage, lossReason := RoundPending, "";
      heartNodes := 3;
    }

    /** Deals a round: the first `size` symbols of the shuffle as the pool, then `count` draws from it. */
    method Deal(shuffled: seq<string>, pick: nat -> nat, size: nat, count: nat)
      requires multiset(shuffled) == multiset(masterEmojiPool)
      requires 1 <= size <= |masterEmojiPool|
      modifies this`activeEmojiPool, this`currentSequence
      ensures activeEmojiPool == RoundPool(shuffled, size) && |activeEmojiPool| == size
      ensures currentSequence == Draw(activeEmojiPool, count, pick) && |currentSequence| == count
      ensures forall x :: x in currentSequence ==> x in activeEmojiPool
    {
      RoundFromShuffle(masterEmojiPool, shuffled, size, count, pick);
      activeEmojiPool := RoundPool(shuffled, size);
      currentSequence := DrawSequence(activeEmojiPool, count, pick);
    }

    /**
     * `startNewRound`, with the state part of `startBossRound`. `shuffled` is
     * the pack's shuffle and `pick` the draws.
     */
    method StartNewRound(shuffled: seq<string>, pick: nat -> nat)
      requires Valid() && stage == RoundPending
      requires multiset(shuffled) == multiset(masterEmojiPool)
      modifies this`timerRunning, this`userSequence, this`currentSequence, this`isAcceptingInput
      modifies this`isBossLevel, this`bossRound, this`activeEmojiPool, this`stage
      ensures Valid() && FreshRound(shuffled, pick)
      ensures level % 5 != 0 ==> bossRound == old(bossRound)
      ensures level % 5 == 0 ==> activeEmojiPool == old(activeEmojiPool)
    {
      timerRunning := false;
      userSequence := [];
      currentSequence := [];
      isAcceptingInput := false;
      if level % 5 == 0 {
        StartBossRound();
      } else {
        DealLevelRound(shuffled, pick);
      }
    }

    /** The state part of `startBossRound`: the boss starts at phase 0, once its entrance has played. */
    method StartBossRound()
      requires Valid() && stage == RoundPending && level % 5 == 0
      requires userSequence == [] && currentSequence == [] && !isAcceptingInput && !timerRunning
      modifies this`isBossLevel, this`bossRound, this`stage
      ensures Valid() && isBossLevel && bossRound == 0 && stage == PhaseDue
    {
      isBossLevel := true;
      bossRound := 0;
      stage := PhaseDue;
    }

    /** The rest of `startNewRound` on an ordinary level: the level's pool and sequence, then the countdown. */
    method DealLevelRound(shuffled: seq<string>, pick: nat -> nat)
      requires Valid() && stage == RoundPending && level % 5 != 0
      requires userSequence == [] && !isAcceptingInput && !timerRunning
      requires multiset(shuffled) == multiset(masterEmojiPool)
      modifies this`isBossLevel, this`activeEmojiPool, this`currentSequence, this`stage
      ensures Valid() && !isBossLevel && stage == Presenting
      ensures activeEmojiPool == RoundPool(shuffled, PoolSize(level)) && |activeEmojiPool| == PoolSize(level)
      ensures currentSequence == Draw(activeEmojiPool, SequenceCount(false, level), pick)
      ensures |currentSequence| == SequenceCount(false, level)
    {
      isBossLevel := false;
      Deal(shuffled, pick, PoolSize(level), SequenceCount(false, level));
      stage := Presenting;
    }

    /** `startNextBossPhase`: after the third cleared phase, the level goes up; otherwise a new phase is drawn. */
    method StartNextBossPhase(shuffled: seq<string>, pick: nat -> nat)
      requires Valid() && stage == PhaseDue
      requires multiset(shuffled) == multiset(masterEmojiPool)
      modifies this`userSequence, this`currentSequence, this`activeEmojiPool, this`stage, this`level
      ensures Valid() && isBossLevel
      ensures old(bossRound) >= 3 ==>
                level == old(level) + 1 && stage == RoundPending &&
                activeEmojiPool == old(activeEmojiPool) && currentSequence == old(currentSequence) &&
                userSequence == old(userSequence)
      ensures old(bossRound) < 3 ==> level == old(level) && FreshBossPhase(shuffled, pick)
    {
      if bossRound >= 3 {
        LevelUp();
        return;
      }
      userSequence := [];
      currentSequence := [];
      Deal(shuffled, pick, BossPoolSize, 4);
      stage := Presenting;
    }

    /** `setupInputButtons`: opens the input window with 10 seconds on boss levels and 7 per level otherwise. */
    method OpenInput()
      requires Valid() && stage == Presenting
      modifies this`isAcceptingInput, this`remainingTime, this`timerRunning, this`stage
      ensures Valid() && stage == Input && isAcceptingInput && timerRunning
      ensures remainingTime == if isBossLevel then 10 else 7 * level
      ensures remainingTime >= 7
    {
      isAcceptingInput := true;
      remainingTime := if isBossLevel then 10 else 7 * level;
      timerRunning := true;
      stage := Input;
    }

    /** One firing of the repeating selection timer: a second less, and `timeUp` when none is left. */
    method Tick()
      requires Valid() && stage == Input
      modifies this`remainingTime, this`timerRunning, this`isAcceptingInput, this`lives, this`stage, this`lossReason
      ensures Valid()
      ensures remainingTime == old(remainingTime) - 1
      ensures remainingTime > 0 ==>
                stage == Input && isAcceptingInput && timerRunning && lives == old(lives) && lossReason == old(lossReason)
      ensures remainingTime <= 0 ==>
                !timerRunning && !isAcceptingInput && lives == old(lives) - 1 &&
                stage == LifeLost && lossReason == "TOO SLOW!"
    {
      remainingTime := remainingTime - 1;
      if remainingTime <= 0 {
        TimeUp();
      }
    }

    /** `timeUp`: stops the timer, closes the input and loses a life. */
    method TimeUp()
      requires Valid() && stage == Input
      modifies this`timerRunning, this`isAcceptingInput, this`lives, this`stage, this`lossReason
      ensures Valid()
      ensures !timerRunning && !isAcceptingInput
      ensures lives == old(lives) - 1 && stage == LifeLost && lossReason == "TOO SLOW!"
    {
      timerRunning := false;
      isAcceptingInput := false;
      LoseLife("TOO SLOW!");
    }

    /**
     * A tap on the symbol `sym` at `nowMs` milliseconds: the input guard of
     * `touchesBegan`, which ignores the tap unless input is open and the
     * symbol is in the active pool, then `handleInput`.
     */
    method Tap(sym: string, nowMs: int)
      requires Valid()
      modifies this`userSequence, this`comboCount, this`lastTapTime, this`isAcceptingInput, this`timerRunning, this`stage
      ensures Valid()
      ensures !old(isAcceptingInput) || sym !in activeEmojiPool ==>
                userSequence == old(userSequence) && comboCount == old(comboCount) &&
                lastTapTime == old(lastTapTime) && isAcceptingInput == old(isAcceptingInput) &&
                timerRunning == old(timerRunning) && stage == old(stage)
      ensures old(isAcceptingInput) && sym in activeEmojiPool ==>
                userSequence == old(userSequence) + [sym] &&
                comboCount == NextCombo(old(comboCount), old(lastTapTime), nowMs) &&
                lastTapTime == nowMs &&
                (isAcceptingInput <==> |userSequence| < |currentSequence|) &&
                timerRunning == isAcceptingInput &&
                stage == (if isAcceptingInput then Input else Judging)
    {
      if !isAcceptingInput {
        return;
      }
      if sym in activeEmojiPool {
        HandleInput(sym, nowMs);
      }
    }

    /** `handleInput`: records the tap, updates the combo, and closes the input when the sequence is complete. */
    method HandleInput(sym: string, nowMs: int)
      requires Valid() && stage == Input && sym in activeEmojiPool
      modifies this`userSequence, this`comboCount, this`lastTapTime, this`isAcceptingInput, this`timerRunning, this`stage
      ensures Valid()
      ensures userSequence == old(userSequence) + [sym]
      ensures comboCount == NextCombo(old(comboCount), old(lastTapTime), nowMs) && lastTapTime == nowMs
      ensures |userSequence| < |currentSequence| ==> isAcceptingInput && timerRunning && stage == Input
      ensures |userSequence| == |currentSequence| ==> !isAcceptingInput && !timerRunning && stage == Judging
    {
      userSequence := userSequence + [sym];
      comboCount := NextCombo(comboCount, lastTapTime, nowMs);
      lastTapTime := nowMs;
      if |userSequence| == |currentSequence| {
        isAcceptingInput := false;
        timerRunning := false;
        stage := Judging;
      }
    }

    /**
     * `verifyResults`: a round whose taps match the sequence position by
     * position earns `level*10 + comboCount*5` points and as many coins,
     * then goes to the next boss phase or the next level; any mismatch
     * loses a life.
     */
    method Verify(shuffled: seq<string>, pick: nat -> nat) returns (allCorrect: bool)
      requires Valid() && stage == Judging
      requires multiset(shuffled) == multiset(masterEmojiPool)
      modifies this`currentScore, this`bossRound, this`level, this`lives, this`lossReason,
               this`userSequence, this`currentSequence, this`activeEmojiPool, this`stage, manager`totalCoins
      ensures Valid()
      ensures allCorrect <==> old(userSequence) == old(currentSequence)
      ensures allCorrect ==>
                currentScore == old(currentScore) + RoundScore(old(level), old(comboCount)) &&
                manager.totalCoins == old(manager.totalCoins) + RoundScore(old(level), old(comboCount)) &&
                lives == old(lives) && lossReason == old(lossReason)
      ensures allCorrect && !old(isBossLevel) ==>
                level == old(level) + 1 && stage == RoundPending && bossRound == old(bossRound) &&
                userSequence == old(userSequence) && currentSequence == old(currentSequence) &&
                activeEmojiPool == old(activeEmojiPool)
      ensures allCorrect && old(isBossLevel) ==>
                bossRound == old(bossRound) + 1 &&
                (bossRound >= 3 ==>
                   level == old(level) + 1 && stage == RoundPending &&
                   userSequence == old(userSequence) && currentSequence == old(currentSequence) &&
                   activeEmojiPool == old(activeEmojiPool)) &&
                (bossRound < 3 ==> level == old(level) && FreshBossPhase(shuffled, pick))
      ensures !allCorrect ==>
                currentScore == old(currentScore) && manager.totalCoins == old(manager.totalCoins) &&
                lives == old(lives) - 1 && level == old(level) && bossRound == old(bossRound) &&
                stage == LifeLost && lossReason == "WHOOPS!" &&
                userSequence == old(userSequence) && currentSequence == old(currentSequence) &&
                activeEmojiPool == old(activeEmojiPool)
    {
      allCorrect := AllPositionsMatch(userSequence, currentSequence);
      SamePositionsIsEquality(userSequence, currentSequence);
      if allCorrect {
        RoundWon(shuffled, pick);
      } else {
        LoseLife("WHOOPS!");
      }
    }

    /** The winning branch of `verifyResults`: score and coins, then the next boss phase or the next level. */
    method RoundWon(shuffled: seq<string>, pick: nat -> nat)
      requires Valid() && stage == Judging
      requires multiset(shuffled) == multiset(masterEmojiPool)
      modifies this`currentScore, this`bossRound, this`level,
               this`userSequence, this`currentSequence, this`activeEmojiPool, this`stage, manager`totalCoins
      ensures Valid()
      ensures currentScore == old(currentScore) + RoundScore(old(level), comboCount)
      ensures manager.totalCoins == old(manager.totalCoins) + RoundScore(old(level), comboCount)
      ensures !isBossLevel ==>
                level == old(level) + 1 && stage == RoundPending && bossRound == old(bossRound) &&
                userSequence == old(userSequence) && currentSequence == old(currentSequence) &&
                activeEmojiPool == old(activeEmojiPool)
      ensures isBossLevel ==>
                bossRound == old(bossRound) + 1 &&
                (bossRound >= 3 ==>
                   level == old(level) + 1 && stage == RoundPending &&
                   userSequence == old(userSequence) && currentSequence == old(currentSequence) &&
                   activeEmojiPool == old(activeEmojiPool)) &&
                (bossRound < 3 ==> level == old(level) && FreshBossPhase(shuffled, pick))
    {
      var roundScore := RoundScore(level, comboCount);
      currentScore := currentScore + roundScore;
      manager.totalCoins := manager.totalCoins + roundScore;
      if isBossLevel {
        bossRound := bossRound + 1;
        stage := PhaseDue;
        StartNextBossPhase(shuffled, pick);
      } else {
        LevelUp();
      }
    }

    /** `levelUp`: one level more; the next round starts when the celebration ends. */
    method LevelUp()
      requires Valid() && (stage == Judging || stage == PhaseDue)
      modifies this`level, this`stage
      ensures Valid() && level == old(level) + 1 && stage == RoundPending
    {
      level := level + 1;
      stage := RoundPending;
    }

    /** `loseLife(reason:)`: one life less; the banner shows `reason`. */
    method LoseLife(reason: string)
      modifies this`lives, this`stage, this`lossReason
      ensures lives == old(lives) - 1 && stage == LifeLost && lossReason == reason
      ensures 1 <= old(lives) <= 3 ==> CountAlive(Levels.Hearts(lives)) == lives && !Levels.Hearts(lives)[lives]
      ensures heartNodes == 3 && 1 <= old(lives) <= 3 ==> CountAlive(ShownHearts(heartNodes, lives)) == lives
      ensures heartNodes >= 6 && old(lives) <= 3 ==> CountAlive(ShownHearts(heartNodes, lives)) == 0
    {
      lives := lives - 1;
      if 0 <= lives <= 3 {
        HeartsShowLives(lives);
      }
      FirstGameShowsHearts(lives);
      if heartNodes >= 6 && lives <= 3 {
        RestartedHeartsGoDark(heartNodes, lives);
      }
      stage := LifeLost;
      lossReason := reason;
    }

    /** The completion of the loss banner: the game ends without lives, otherwise a new round starts at the same level. */
    method AfterLoseLife(shuffled: seq<string>, pick: nat -> nat)
      requires Valid() && stage == LifeLost
      requires multiset(shuffled) == multiset(masterEmojiPool)
      modifies this`timerRunning, this`userSequence, this`currentSequence, this`isAcceptingInput,
               this`isBossLevel, this`bossRound, this`activeEmojiPool, this`stage,
               manager`highScore
      ensures Valid()
      ensures lives == old(lives) && level == old(level) && currentScore == old(currentScore)
      ensures old(lives) <= 0 ==>
                stage == Over && !isAcceptingInput &&
                manager.highScore == (if old(currentScore) > old(manager.highScore) then old(currentScore) else old(manager.highScore)) &&
                userSequence == old(userSequence) && currentSequence == old(currentSequence) &&
                activeEmojiPool == old(activeEmojiPool) && isBossLevel == old(isBossLevel) &&
                bossRound == old(bossRound) && timerRunning == old(timerRunning)
      ensures old(lives) > 0 ==> FreshRound(shuffled, pick) && manager.highScore == old(manager.highScore)
      ensures old(lives) > 0 && level % 5 != 0 ==> bossRound == old(bossRound)
      ensures old(lives) > 0 && level % 5 == 0 ==> activeEmojiPool == old(activeEmojiPool)
    {
      if lives <= 0 {
        GameOver();
      } else {
        stage := RoundPending;
        StartNewRound(shuffled, pick);
      }
    }

    /** `gameOver`: the high score becomes the larger of itself and the score; input stays closed. */
    method GameOver()
      requires Valid() && stage == LifeLost && lives <= 0
      modifies manager`highScore, this`isAcceptingInput, this`stage
      ensures Valid() && stage == Over && !isAcceptingInput
      ensures manager.highScore >= old(manager.highScore) && manager.highScore >= currentScore
      ensures manager.highScore == old(manager.highScore) || manager.highScore == currentScore
    {
      if currentScore > manager.highScore {
        manager.highScore := currentScore;
      }
      isAcceptingInput := false;
      stage := Over;
    }

    /** `restartGame`, from the game-over board: three lives, level 1, no score, no combo, and a new round. */
    method Restart(shuffled: seq<string>, pick: nat -> nat)
      requires Valid() && stage == Over
      requires multiset(shuffled) == multiset(masterEmojiPool)
      modifies this`lives, this`level, this`currentScore, this`comboCount,
               this`timerRunning, this`userSequence, this`currentSequence, this`isAcceptingInput,
               this`isBossLevel, this`bossRound, this`activeEmojiPool, this`stage, this`heartNodes
      ensures Valid() && FreshRound(shuffled, pick) && stage == Presenting
      ensures lives == 3 && level == 1 && currentScore == 0 && comboCount == 0
      ensures lastTapTime == old(lastTapTime) && bossRound == old(bossRound)
      ensures heartNodes == old(heartNodes) + 3
    {
      lives, level, currentScore, comboCount := 3, 1, 0, 0;
      heartNodes := heartNodes + 3;
      stage := RoundPending;
      StartNewRound(shuffled, pick);
    }
  }
}
