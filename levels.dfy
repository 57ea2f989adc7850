/**
 * The difficulty table and the round rules of codename_clefairy/GameScene.swift,
 * on values: which level asks for how large an emoji pool and how long a
 * sequence, how a round's pool and sequence are drawn, how taps are judged,
 * scored and chained into combos, and which hearts are shown alive.
 *
 * Randomness is an input here. A shuffle of the emoji pack is passed in as a
 * sequence with the same multiset of symbols; the k-th `randomElement()` draw
 * from a pool is `pool[pick(k) % |pool|]` for a caller-chosen `pick`; the
 * random movement and effect hints of levels above 15 are chosen by two
 * natural numbers.
 */
module Levels {
  import opened Catalog

  // ---------------------------------------------------------------- difficulty

  /** Swift's `MovementType`; `Still` is the Swift case `.none`. */
  datatype MovementType = Still | Slow | Moderate | Fast | Wander

  /** Swift's `SpecialEffect`; `Plain` is the Swift case `.none`. */
  datatype SpecialEffect = Plain | Ghost | Spin | Pulse

  datatype LevelConfig = LevelConfig(poolSize: int, sequenceLength: int, movement: MovementType, effect: SpecialEffect)

  /** Swift's `a / 2` on `Int`, which truncates toward zero. */
  function SwiftHalf(a: int): (q: int)
    ensures a >= 0 ==> 0 <= a - 2 * q <= 1
    ensures a < 0 ==> -1 <= a - 2 * q <= 0
  {
    if a >= 0 then a / 2 else -((-a) / 2)
  }

  /**
   * `getLevelConfig(for:)`. Levels 16 and up draw their movement from
   * [moderate, fast, wander] and their effect from [ghost, spin, pulse];
   * the picks choose the element.
   */
  function GetLevelConfig(level: int, effectPick: nat, movePick: nat): (c: LevelConfig)
    ensures c.poolSize in {8, 10, 15, 20}
    ensures level >= 1 ==> 1 <= c.sequenceLength <= level
    ensures level >= 16 ==> c.movement in {Moderate, Fast, Wander} && c.effect in {Ghost, Spin, Pulse}
    ensures 1 <= level <= 8 ==> c.effect == Plain
  {
    if 1 <= level <= 2 then LevelConfig(8, level, Still, Plain)
    else if 3 <= level <= 4 then LevelConfig(10, level, Still, Plain)
    else if level == 5 then LevelConfig(10, 3, Still, Plain)
    else if 6 <= level <= 8 then LevelConfig(15, 5, Slow, Plain)
    else if level == 9 then LevelConfig(15, 6, Moderate, Ghost)
    else if level == 10 then LevelConfig(15, 6, Fast, Spin)
    else if 11 <= level <= 15 then LevelConfig(20, 7, Wander, Pulse)
    else
      var baseSeq := 7 + SwiftHalf(level - 11);
      var effect := [Ghost, Spin, Pulse][effectPick % 3];
      var movement := [Moderate, Fast, Wander][movePick % 3];
      LevelConfig(if level % 2 == 0 then 15 else 20, baseSeq, movement, effect)
  }

  /** The pool size of a level; the random hints do not change it (see `ConfigIgnoresPicks`). */
  function PoolSize(level: int): (n: nat)
    ensures n in {8, 10, 15, 20}
  {
    GetLevelConfig(level, 0, 0).poolSize
  }

  /** `sequenceCount`: 4 symbols on boss levels, otherwise the level's sequence length. */
  function SequenceCount(isBossLevel: bool, level: int): (n: int)
    ensures isBossLevel ==> n == 4
    ensures level >= 1 ==> n >= 1
  {
    if isBossLevel then 4 else GetLevelConfig(level, 0, 0).sequenceLength
  }

  /** The random movement and effect hints never change the pool size or the sequence length. */
  lemma ConfigIgnoresPicks(level: int, e: nat, m: nat)
    ensures GetLevelConfig(level, e, m).poolSize == PoolSize(level)
    ensures GetLevelConfig(level, e, m).sequenceLength == SequenceCount(false, level)
  {
  }

  /** The first four levels use a pool of 8 (levels 1-2) or 10 (levels 3-4) and a sequence as long as the level. */
  lemma EarlyLevels(level: int, e: nat, m: nat)
    requires 1 <= level <= 4
    ensures var c := GetLevelConfig(level, e, m);
            c.sequenceLength == level && c.poolSize == (if level <= 2 then 8 else 10) &&
            c.movement == Still && c.effect == Plain
  {
  }

  /** Levels 5 to 15 follow the fixed rows of the table. */
  lemma MiddleLevels(level: int, e: nat, m: nat)
    requires 5 <= level <= 15
    ensures var c := GetLevelConfig(level, e, m);
            (level == 5 ==> c == LevelConfig(10, 3, Still, Plain)) &&
            (6 <= level <= 8 ==> c == LevelConfig(15, 5, Slow, Plain)) &&
            (level == 9 ==> c == LevelConfig(15, 6, Moderate, Ghost)) &&
            (level == 10 ==> c == LevelConfig(15, 6, Fast, Spin)) &&
            (11 <= level ==> c == LevelConfig(20, 7, Wander, Pulse))
  {
  }

  /** From level 16 on, the sequence grows by one every two levels and even levels use the smaller pool. */
  lemma HighLevels(level: int, e: nat, m: nat)
    requires level >= 16
    ensures var c := GetLevelConfig(level, e, m);
            c.sequenceLength == 7 + (level - 11) / 2 &&
            c.poolSize == (if level % 2 == 0 then 15 else 20)
  {
  }

  /** From level 5 on the sequence never gets shorter; level 5 itself is a boss level and plays 4. */
  lemma {:induction false} SequenceLengthNeverShrinks(a: int, b: int)
    requires 5 <= a <= b
    ensures SequenceCount(false, a) <= SequenceCount(false, b)
  {
    if b >= 16 && a >= 16 {
      assert SwiftHalf(a - 11) == (a - 11) / 2 && SwiftHalf(b - 11) == (b - 11) / 2;
    }
  }

  /** Every level's pool fits in every emoji pack, so a round's pool has exactly the configured size. */
  lemma PoolFitsEveryPack(level: int, p: EmojiPack)
    ensures PoolSize(level) <= |Emojis(p)|
    ensures BossPoolSize <= |Emojis(p)|
  {
    PacksAreLargeEnough(p);
  }

  // ---------------------------------------------------------------- round generation

  /** Boss phases use the first 12 symbols of a shuffle and a sequence of 4. */
  const BossPoolSize: nat := 12

  function Min(a: int, b: int): int {
    if a <= b then a else b
  }

  /** `Array(shuffled.prefix(size))`: the first `size` symbols of the shuffle, or all of them. */
  function RoundPool(shuffled: seq<string>, size: nat): (pool: seq<string>)
    ensures |pool| == Min(size, |shuffled|)
    ensures pool <= shuffled
  {
    shuffled[..Min(size, |shuffled|)]
  }

  /**
   * The round's sequence: `count` draws with replacement from `pool`, the
   * k-th being `pool[pick(k) % |pool|]`. An empty pool has no element to
   * draw, and nothing is appended.
   */
  function Draw(pool: seq<string>, count: nat, pick: nat -> nat): (s: seq<string>)
    ensures |pool| > 0 ==> |s| == count
    ensures |pool| == 0 ==> s == []
    ensures forall x :: x in s ==> x in pool
  {
    if count == 0 || |pool| == 0 then []
    else Draw(pool, count - 1, pick) + [pool[pick(count - 1) % |pool|]]
  }

  /** The append loop of `startNewRound` and `startNextBossPhase`. */
  method DrawSequence(pool: seq<string>, count: nat, pick: nat -> nat) returns (s: seq<string>)
    ensures s == Draw(pool, count, pick)
  {
    s := [];
    var k := 0;
    while k < count
      invariant 0 <= k <= count
      invariant s == Draw(pool, k, pick)
    {
      if |pool| > 0 {
        s := s + [pool[pick(k) % |pool|]];
      }
      k := k + 1;
    }
  }

  lemma {:induction false} PrefixMultiset<T>(s: seq<T>, n: nat)
    requires n <= |s|
    ensures multiset(s[..n]) <= multiset(s)
  {
    assert s == s[..n] + s[n..];
    assert multiset(s) == multiset(s[..n]) + multiset(s[n..]);
  }

  /** A sequence without repeats has every multiplicity at most one, and back. */
  lemma {:induction false} NoDuplicatesMultiset<T>(s: seq<T>)
    ensures NoDuplicates(s) <==> forall x :: multiset(s)[x] <= 1
  {
    if |s| > 0 {
      var t := s[1..];
      NoDuplicatesMultiset(t);
      assert s == [s[0]] + t;
      assert multiset(s) == multiset{s[0]} + multiset(t);
      if NoDuplicates(s) {
        assert NoDuplicates(t) by {
          forall i, j | 0 <= i < j < |t| ensures t[i] != t[j] {
            assert t[i] == s[i + 1] && t[j] == s[j + 1];
          }
        }
        assert s[0] !in t by {
          forall i | 0 <= i < |t| ensures t[i] != s[0] {
            assert t[i] == s[i + 1];
          }
        }
      }
      if forall x :: multiset(s)[x] <= 1 {
        assert forall x :: multiset(t)[x] <= 1 by {
          forall x ensures multiset(t)[x] <= 1 {
            assert multiset(s)[x] == multiset{s[0]}[x] + multiset(t)[x];
          }
        }
        assert multiset(t)[s[0]] == 0 by {
          assert multiset(s)[s[0]] == 1 + multiset(t)[s[0]];
        }
        forall i, j | 0 <= i < j < |s| ensures s[i] != s[j] {
          if i == 0 {
            assert s[j] == t[j - 1];
            assert s[j] in t;
          } else {
            assert s[i] == t[i - 1] && s[j] == t[j - 1];
          }
        }
      }
    }
  }

  /**
   * A round drawn from a shuffle of the pack: its pool holds the configured
   * number of symbols (or the whole pack), every one from the pack and none
   * twice when the pack has no repeats, and its sequence has the requested
   * length with every symbol taken from the pool.
   */
  lemma RoundFromShuffle(master: seq<string>, shuffled: seq<string>, size: nat, count: nat, pick: nat -> nat)
    requires multiset(shuffled) == multiset(master)
    ensures var pool := RoundPool(shuffled, size);
            |pool| == Min(size, |master|) &&
            multiset(pool) <= multiset(master) &&
            (forall x :: x in pool ==> x in master) &&
            (NoDuplicates(master) ==> NoDuplicates(pool))
    ensures var pool := RoundPool(shuffled, size);
            var s := Draw(pool, count, pick);
            (size > 0 && |master| > 0 ==> |s| == count) &&
            (forall x :: x in s ==> x in pool && x in master)
  {
    var pool := RoundPool(shuffled, size);
    assert |shuffled| == |multiset(shuffled)| == |master|;
    PrefixMultiset(shuffled, |pool|);
    assert pool == shuffled[..|pool|];
    forall x | x in pool ensures x in master {
      assert x in multiset(pool);
    }
    if NoDuplicates(master) {
      NoDuplicatesMultiset(master);
      NoDuplicatesMultiset(pool);
      forall x ensures multiset(pool)[x] <= 1 {
        assert multiset(pool)[x] <= multiset(master)[x];
      }
    }
  }

  // ---------------------------------------------------------------- judging and scoring

  /** Every position of `target` holds the same symbol in `user`. */
  predicate SamePositions(user: seq<string>, target: seq<string>) {
    |user| >= |target| && forall i :: 0 <= i < |target| ==> user[i] == target[i]
  }

  /** The `allCorrect` loop of `verifyResults`, stopping at the first mismatch. */
  method AllPositionsMatch(user: seq<string>, target: seq<string>) returns (allCorrect: bool)
    requires |user| >= |target|
    ensures allCorrect <==> user[..|target|] == target
  {
    allCorrect := true;
    var i := 0;
    while i < |target|
      invariant 0 <= i <= |target|
      invariant allCorrect && user[..i] == target[..i]
    {
      if user[i] != target[i] {
        assert user[..|target|][i] != target[i];
        allCorrect := false;
        break;
      }
      assert user[..i + 1] == user[..i] + [user[i]];
      assert target[..i + 1] == target[..i] + [target[i]];
      i := i + 1;
    }
    if allCorrect {
      assert target[..i] == target;
    }
  }

  /** Once the taps are complete, a round is won exactly when the taps are the sequence itself. */
  lemma SamePositionsIsEquality(user: seq<string>, target: seq<string>)
    requires |user| == |target|
    ensures SamePositions(user, target) <==> user == target
    ensures SamePositions(user, target) <==> user[..|target|] == target
  {
    assert user[..|target|] == user;
  }

  /** Tapping exactly the right symbols, but not in the shown order, loses the round. */
  lemma WrongOrderLoses(user: seq<string>, target: seq<string>)
    requires multiset(user) == multiset(target) && user != target
    ensures !SamePositions(user, target)
  {
    assert |user| == |multiset(user)| == |multiset(target)| == |target|;
    SamePositionsIsEquality(user, target);
  }

  /** The points (and coins) a won round or boss phase is worth. */
  function RoundScore(level: int, comboCount: int): (points: int)
    ensures points % 5 == 0
    ensures level >= 1 && comboCount >= 0 ==> points >= 10 && points >= 10 * level
  {
    level * 10 + comboCount * 5
  }

  /** Two taps closer than this many milliseconds continue a combo. */
  const ComboWindowMs := 500

  /** The combo counter after one accepted tap at `now`, the previous tap having been at `last`. */
  function NextCombo(comboCount: int, last: int, now: int): (c: int)
    ensures c == 0 || c == comboCount + 1
    ensures comboCount >= 0 ==> (c > comboCount <==> now - last < ComboWindowMs)
  {
    if now - last < ComboWindowMs then comboCount + 1 else 0
  }

  /** The time of the latest tap, `last` when there was none since. */
  function LatestTap(last: int, times: seq<int>): int {
    if |times| == 0 then last else times[|times| - 1]
  }

  /** The combo counter after taps at `times`, starting from `comboCount` with the previous tap at `last`. */
  function ComboAfter(comboCount: int, last: int, times: seq<int>): int
    decreases |times|
  {
    if |times| == 0 then comboCount
    else
      var earlier := times[..|times| - 1];
      NextCombo(ComboAfter(comboCount, last, earlier), LatestTap(last, earlier), times[|times| - 1])
  }

  /** How many of the latest taps each came within the combo window of the tap before. */
  function FastRun(last: int, times: seq<int>): (n: nat)
    ensures n <= |times|
    decreases |times|
  {
    if |times| == 0 then 0
    else
      var earlier := times[..|times| - 1];
      if times[|times| - 1] - LatestTap(last, earlier) < ComboWindowMs then FastRun(last, earlier) + 1 else 0
  }

  /**
   * The combo counter counts the run of quick taps that ends at the latest
   * tap, or adds the number of taps to the starting count if every tap was
   * quick.
   */
  lemma {:induction false} ComboCountsFastRun(comboCount: int, last: int, times: seq<int>)
    ensures ComboAfter(comboCount, last, times) ==
            if FastRun(last, times) == |times| then comboCount + |times| else FastRun(last, times)
    decreases |times|
  {
    if |times| > 0 {
      ComboCountsFastRun(comboCount, last, times[..|times| - 1]);
    }
  }

  // ---------------------------------------------------------------- hearts

  /**
   * The alive rule of `updateLivesUI` on the three hearts `setupBaseUI` creates, left to right:
   * heart `i` is drawn alive exactly when `i < lives`. These are the hearts on screen in the first game.
   */
  function Hearts(lives: int): (h: seq<bool>)
    ensures |h| == 3
  {
    [0 < lives, 1 < lives, 2 < lives]
  }

  function CountAlive(h: seq<bool>): nat {
    if |h| == 0 then 0 else (if h[0] then 1 else 0) + CountAlive(h[1..])
  }

  /** With 0 to 3 lives, exactly `lives` hearts are alive, and they are the leftmost ones. */
  lemma HeartsShowLives(lives: int)
    requires 0 <= lives <= 3
    ensures CountAlive(Hearts(lives)) == lives
    ensures forall i :: 0 <= i < 3 ==> (Hearts(lives)[i] <==> i < lives)
  {
    var h := Hearts(lives);
    assert CountAlive(h[2..]) == (if h[2] then 1 else 0) by {
      assert h[2..][1..] == [];
    }
    assert h[1..][1..] == h[2..];
    assert CountAlive(h[1..]) == (if h[1] then 1 else 0) + CountAlive(h[2..]);
  }

  /**
   * The hearts on screen as the scene draws them. `heartNodes` holds `nodes` heart containers, and
   * `updateLivesUI` draws container `index` alive exactly when `index < lives`. `restartGame` removes the scene's
   * children and `setupBaseUI` appends three new containers, but `heartNodes` is never emptied, so
   * the three on screen are its last three, whose indices are `nodes - 3` to `nodes - 1`.
   */
  function ShownHearts(nodes: nat, lives: int): (h: seq<bool>)
    ensures |h| == 3
  {
    [nodes - 3 < lives, nodes - 2 < lives, nodes - 1 < lives]
  }

  /** In the first game, with three containers, the hearts on screen are exactly `Hearts`. */
  lemma FirstGameShowsHearts(lives: int)
    ensures ShownHearts(3, lives) == Hearts(lives)
  {
  }

  /** After a restart, with six containers or more, no heart on the screen is alive while the scene has at most 3 lives. */
  lemma RestartedHeartsGoDark(nodes: nat, lives: int)
    requires nodes >= 6 && lives <= 3
    ensures CountAlive(ShownHearts(nodes, lives)) == 0
    ensures forall i :: 0 <= i < 3 ==> !ShownHearts(nodes, lives)[i]
  {
    var h := ShownHearts(nodes, lives);
    assert !h[0] && !h[1] && !h[2];
    assert CountAlive(h[2..]) == 0 by {
      assert h[2..][1..] == [];
    }
    assert h[1..][1..] == h[2..];
    assert CountAlive(h[1..]) == CountAlive(h[2..]);
  }

  /**
   * Concretely: after one game over and TRY AGAIN, the first lost life leaves 2 lives. All three hearts
   * on screen then go dark, where the first game's rule shows two alive.
   */
  lemma RestartHeartsCounterexample()
    ensures ShownHearts(6, 2) == [false, false, false]
    ensures CountAlive(ShownHearts(6, 2)) == 0 && CountAlive(Hearts(2)) == 2
  {
    RestartedHeartsGoDark(6, 2);
    HeartsShowLives(2);
  }
}
