/** The XP / level / character-stage calculator and the per-user progress
    ledger: awarding XP, the daily streak, and the achievement catalog with
    its evaluator (packages/backend/convex/gamification.ts). */
module Gamification {
  import opened Wrappers

  type UserId = nat
  type AchievementId = nat

  /** Milliseconds in a calendar day; a timestamp's day is `t / MsPerDay`. */
  const MsPerDay: int := 86400000

  // ---------------------------------------------------------------------
  // XP calculator
  // ---------------------------------------------------------------------

  /** Base XP per priority name; an unknown name falls back to 10. */
  function BaseXP(priority: string): int {
    if priority == "low" then 10
    else if priority == "medium" then 25
    else if priority == "high" then 50
    else if priority == "urgent" then 75
    else 10
  }

  /** `round(base * difficulty * 0.5 + 5 * subtasks)`, rounding halves up as
      Math.round does: twice the result is the exact doubled value, or one
      more when that value is odd. */
  function CalculateXP(priority: string, difficultyLevel: int, subtaskCount: int): (xp: int)
    ensures var doubled := BaseXP(priority) * difficultyLevel + 10 * subtaskCount;
            doubled <= 2 * xp <= doubled + 1
  {
    (BaseXP(priority) * difficultyLevel + 10 * subtaskCount + 1) / 2
  }

  /** The worked examples of the XP formula. */
  lemma CalculateXPExamples()
    ensures CalculateXP("medium", 4, 0) == 50
    ensures CalculateXP("high", 3, 0) == 75
    ensures CalculateXP("urgent", 5, 2) == 198
    ensures CalculateXP("critical", 2, 0) == 10
  {
  }

  /** Every further subtask adds exactly 5 XP. */
  lemma SubtaskBonus(priority: string, difficultyLevel: int, subtaskCount: int)
    ensures CalculateXP(priority, difficultyLevel, subtaskCount + 1)
         == CalculateXP(priority, difficultyLevel, subtaskCount) + 5
  {
  }

  /** So XP never falls when subtasks are added. */
  lemma {:induction false} CalculateXPMonotoneInSubtasks(priority: string, difficultyLevel: int, s: nat, s': nat)
    requires s <= s'
    ensures CalculateXP(priority, difficultyLevel, s) <= CalculateXP(priority, difficultyLevel, s')
    decreases s' - s
  {
    if s < s' {
      SubtaskBonus(priority, difficultyLevel, s' - 1);
      CalculateXPMonotoneInSubtasks(priority, difficultyLevel, s, s' - 1);
    }
  }

  // ---------------------------------------------------------------------
  // Level
  // ---------------------------------------------------------------------

  /** Integer square root: the largest `r` with `r * r <= n`. */
  function ISqrt(n: nat): (r: nat)
    ensures r * r <= n < (r + 1) * (r + 1)
    decreases n
  {
    if n < 4 then (if n == 0 then 0 else 1)
    else
      var s := ISqrt(n / 4);
      SqrtStep(n, s);
      if (2 * s + 1) * (2 * s + 1) <= n then 2 * s + 1 else 2 * s
  }

  /** Doubling the root of `n / 4` comes within one of the root of `n`. */
  lemma SqrtStep(n: nat, s: nat)
    requires s * s <= n / 4 < (s + 1) * (s + 1)
    ensures (2 * s) * (2 * s) <= n < (2 * s + 2) * (2 * s + 2)
  {
    assert 4 * (n / 4) <= n < 4 * (n / 4) + 4;
    assert (2 * s) * (2 * s) == 4 * (s * s);
    assert (2 * s + 2) * (2 * s + 2) == 4 * ((s + 1) * (s + 1));
  }

  /** `floor(sqrt(totalXp / 100)) + 1`, with a negative total treated as 0
      (level 1); see CalculateLevelAsWritten for the unclamped original.
      Level L covers exactly the totals in [100(L-1)^2, 100 L^2). */
  function CalculateLevel(totalXp: int): (level: int)
    ensures level >= 1
    ensures totalXp >= 0 ==> 100 * ((level - 1) * (level - 1)) <= totalXp < 100 * (level * level)
    ensures totalXp < 100 ==> level == 1
  {
    if totalXp < 0 then 1
    else
      var k := ISqrt(totalXp / 100);
      assert 100 * (k * k) <= 100 * (totalXp / 100) <= totalXp;
      assert totalXp < 100 * (totalXp / 100 + 1) <= 100 * ((k + 1) * (k + 1));
      k + 1
  }

  /** The level formula exactly as the source evaluates it: `Math.sqrt` of a
      negative number is NaN, so a negative total has no level (None). */
  function CalculateLevelAsWritten(totalXp: int): (level: Option<int>)
    ensures level.None? <==> totalXp < 0
    ensures level.Some? ==> level.value == CalculateLevel(totalXp)
  {
    if totalXp < 0 then None else Some(ISqrt(totalXp / 100) + 1)
  }

  /** The level thresholds determine the level: L is the level of x
      exactly when 100(L-1)^2 <= x < 100 L^2. */
  lemma {:induction false} LevelCharacterized(totalXp: int, level: int)
    requires totalXp >= 0 && level >= 1
    ensures CalculateLevel(totalXp) == level
        <==> 100 * ((level - 1) * (level - 1)) <= totalXp < 100 * (level * level)
  {
    var l := CalculateLevel(totalXp);
    if 100 * ((level - 1) * (level - 1)) <= totalXp < 100 * (level * level) && l != level {
      if l < level {
        SquareMonotone(l, level - 1);
      } else {
        SquareMonotone(level, l - 1);
      }
    }
  }

  lemma SquareMonotone(a: nat, b: nat)
    requires a <= b
    ensures a * a <= b * b
  {
    assert a * a <= a * b <= b * b;
  }

  lemma LevelExamples()
    ensures CalculateLevel(0) == 1
    ensures CalculateLevel(99) == 1
    ensures CalculateLevel(100) == 2
    ensures CalculateLevel(399) == 2
    ensures CalculateLevel(400) == 3
  {
    LevelCharacterized(99, 1);
    LevelCharacterized(100, 2);
    LevelCharacterized(399, 2);
    LevelCharacterized(400, 3);
  }

  /** More XP never means a lower level. */
  lemma LevelMonotone(x: int, y: int)
    requires x <= y
    ensures CalculateLevel(x) <= CalculateLevel(y)
  {
    var lx, ly := CalculateLevel(x), CalculateLevel(y);
    if x >= 0 && lx > ly {
      SquareMonotone(ly, lx - 1);
    }
  }

  // ---------------------------------------------------------------------
  // Character stage
  // ---------------------------------------------------------------------

  /** XP required for stages 1..5 (Seed, Sprout, Sapling, Tree, Ancient Tree). */
  const StageThresholds: seq<int> := [0, 100, 500, 2000, 10000]

  /** The source's descending scan of the stage table from index `i` down. */
  function StageFrom(totalXp: int, i: int): (stage: int)
    requires -1 <= i < |StageThresholds|
    ensures 1 <= stage <= i + 1 || (i == -1 && stage == 1)
    ensures stage == 1 || StageThresholds[stage - 1] <= totalXp
    ensures forall j | stage <= j <= i :: totalXp < StageThresholds[j]
    decreases i + 1
  {
    if i < 0 then 1
    else if totalXp >= StageThresholds[i] then i + 1
    else StageFrom(totalXp, i - 1)
  }

  /** The highest stage whose threshold is at most `totalXp` (stage 1 for
      anything below 100, negative totals included). */
  function CalculateCharacterStage(totalXp: int): (stage: int)
    ensures 1 <= stage <= 5
    ensures stage == 1 || StageThresholds[stage - 1] <= totalXp
    ensures stage == 5 || totalXp < StageThresholds[stage]
  {
    StageFrom(totalXp, |StageThresholds| - 1)
  }

  /** The stage is a step function of the total. */
  lemma StageSteps(totalXp: int)
    ensures totalXp < 100 ==> CalculateCharacterStage(totalXp) == 1
    ensures 100 <= totalXp < 500 ==> CalculateCharacterStage(totalXp) == 2
    ensures 500 <= totalXp < 2000 ==> CalculateCharacterStage(totalXp) == 3
    ensures 2000 <= totalXp < 10000 ==> CalculateCharacterStage(totalXp) == 4
    ensures 10000 <= totalXp ==> CalculateCharacterStage(totalXp) == 5
  {
  }

  lemma StageMonotone(x: int, y: int)
    requires x <= y
    ensures CalculateCharacterStage(x) <= CalculateCharacterStage(y)
  {
    StageSteps(x);
    StageSteps(y);
  }

  // ---------------------------------------------------------------------
  // Progress records and the streak rule
  // ---------------------------------------------------------------------

  /** The `userProgress` record (its cosmetic character fields left out). */
  datatype Progress = Progress(
    userId: UserId,
    totalXp: int,
    currentLevel: int,
    currentStreak: int,
    longestStreak: int,
    lastTaskCompletedDate: Option<int>,
    characterStage: int,
    unlockedAchievements: seq<AchievementId>,
    tasksCompleted: int,
    perfectDays: int,
    createdAt: int,
    updatedAt: int)

  predicate NoDuplicates<T(==)>(s: seq<T>) {
    forall i, j | 0 <= i < j < |s| :: s[i] != s[j]
  }

  /** What every record keeps: level and stage match the total, the longest
      streak bounds the current one, and no achievement is unlocked twice. */
  predicate ProgressValid(p: Progress) {
    && p.currentLevel == CalculateLevel(p.totalXp)
    && p.characterStage == CalculateCharacterStage(p.totalXp)
    && p.currentStreak <= p.longestStreak
    && NoDuplicates(p.unlockedAchievements)
  }

  /** The record created with a new user. */
  function InitialProgress(userId: UserId, now: int): (p: Progress)
    ensures ProgressValid(p)
    ensures p.totalXp == 0 && p.currentLevel == 1 && p.characterStage == 1
    ensures p.unlockedAchievements == [] && p.tasksCompleted == 0
  {
    Progress(userId, 0, 1, 0, 0, None, 1, [], 0, 0, now, now)
  }

  function DayOf(t: int): int {
    t / MsPerDay
  }

  /** The streak after a completion at time `now`: unchanged when the last
      completion was the same day, one longer when it was the day before,
      and 1 otherwise (a falsy, i.e. absent or zero, timestamp counts as
      no prior completion). */
  function NextStreak(lastCompleted: Option<int>, now: int, streak: int): (next: int)
    ensures lastCompleted.Some? && lastCompleted.value != 0 && DayOf(lastCompleted.value) == DayOf(now)
            ==> next == streak
    ensures lastCompleted.Some? && lastCompleted.value != 0 && DayOf(lastCompleted.value) == DayOf(now) - 1
            ==> next == streak + 1
    ensures !(lastCompleted.Some? && lastCompleted.value != 0 && DayOf(now) - 1 <= DayOf(lastCompleted.value) <= DayOf(now))
            ==> next == 1
  {
    var lastDay := if lastCompleted.Some? && lastCompleted.value != 0 then Some(DayOf(lastCompleted.value)) else None;
    var today := DayOf(now);
    if lastDay == Some(today) then streak
    else if lastDay == Some(today - 1) then streak + 1
    else 1
  }

  /** The record after awarding `xpAmount` at time `now`, before the
      achievement check: every call, deductions and bonuses included, runs
      the streak rule, counts one completed task and stamps the date. */
  function AwardedProgress(p: Progress, xpAmount: int, now: int): (q: Progress)
  {
    var total := p.totalXp + xpAmount;
    var streak := NextStreak(p.lastTaskCompletedDate, now, p.currentStreak);
    p.(totalXp := total,
       currentLevel := CalculateLevel(total),
       currentStreak := streak,
       longestStreak := if p.longestStreak >= streak then p.longestStreak else streak,
       characterStage := CalculateCharacterStage(total),
       tasksCompleted := p.tasksCompleted + 1,
       lastTaskCompletedDate := Some(now),
       updatedAt := now)
  }

  /** Awarding keeps the record consistent: the new total is the old one
      plus the amount, level and stage are recomputed from it, the longest
      streak never decreases, and the completion counter rises by one. */
  lemma AwardKeepsProgressValid(p: Progress, xpAmount: int, now: int)
    requires ProgressValid(p)
    ensures var q := AwardedProgress(p, xpAmount, now);
      && ProgressValid(q)
      && q.totalXp == p.totalXp + xpAmount
      && q.currentLevel == CalculateLevel(p.totalXp + xpAmount)
      && q.characterStage == CalculateCharacterStage(p.totalXp + xpAmount)
      && q.longestStreak >= p.longestStreak
      && q.longestStreak >= q.currentStreak
      && q.tasksCompleted == p.tasksCompleted + 1
      && q.unlockedAchievements == p.unlockedAchievements
      && q.perfectDays == p.perfectDays
  {
  }

  lemma AwardedProgressValid(p: Progress, xpAmount: int, now: int)
    requires ProgressValid(p)
    ensures ProgressValid(AwardedProgress(p, xpAmount, now))
    ensures AwardedProgress(p, xpAmount, now).userId == p.userId
  {
  }

  /** Two awards on the same day move the streak only once. */
  lemma {:induction false} SameDayStreak(p: Progress, x1: int, x2: int, now1: int, now2: int)
    requires now1 != 0 && DayOf(now1) == DayOf(now2)
    ensures AwardedProgress(AwardedProgress(p, x1, now1), x2, now2).currentStreak
         == AwardedProgress(p, x1, now1).currentStreak
  {
  }

  /** An award the next day extends the streak by one. */
  lemma {:induction false} NextDayStreak(p: Progress, x1: int, x2: int, now1: int, now2: int)
    requires now1 != 0 && DayOf(now2) == DayOf(now1) + 1
    ensures AwardedProgress(AwardedProgress(p, x1, now1), x2, now2).currentStreak
         == AwardedProgress(p, x1, now1).currentStreak + 1
  {
  }

  /** What awardXP returns. */
  datatype AwardResult = AwardResult(
    xpAwarded: int,
    newTotalXp: int,
    newLevel: int,
    levelUp: bool,
    newCharacterStage: int,
    stageUp: bool,
    newStreak: int)

  /** The summary of an award from the record before it to the one after it. */
  function AwardSummary(before: Progress, after: Progress, xpAmount: int): AwardResult {
    AwardResult(xpAmount, after.totalXp, after.currentLevel, after.currentLevel > before.currentLevel,
                after.characterStage, after.characterStage > before.characterStage, after.currentStreak)
  }

  /** The reported flags: `levelUp` exactly when the level rose, `stageUp`
      exactly when the stage rose, and a deduction never raises either. */
  lemma {:induction false} AwardSummaryFlags(p: Progress, xpAmount: int, now: int)
    requires ProgressValid(p)
    ensures var r := AwardSummary(p, AwardedProgress(p, xpAmount, now), xpAmount);
      && r.xpAwarded == xpAmount
      && r.newTotalXp == p.totalXp + xpAmount
      && (r.levelUp <==> CalculateLevel(p.totalXp + xpAmount) > CalculateLevel(p.totalXp))
      && (r.stageUp <==> CalculateCharacterStage(p.totalXp + xpAmount) > CalculateCharacterStage(p.totalXp))
      && (xpAmount <= 0 ==> !r.levelUp && !r.stageUp)
  {
    if xpAmount <= 0 {
      LevelMonotone(p.totalXp + xpAmount, p.totalXp);
      StageMonotone(p.totalXp + xpAmount, p.totalXp);
    }
  }

  // ---------------------------------------------------------------------
  // Achievements
  // ---------------------------------------------------------------------

  datatype RequirementType = TasksCompleted | TotalXp | StreakDays | PerfectDays

  datatype Achievement = Achievement(
    id: AchievementId,
    name: string,
    description: string,
    icon: string,
    requirementType: RequirementType,
    requirementValue: int,
    xpReward: int,
    createdAt: int)

  /** The `>=` test of one requirement against the record's statistics. */
  predicate Qualifies(a: Achievement, p: Progress) {
    match a.requirementType
    case TasksCompleted => p.tasksCompleted >= a.requirementValue
    case TotalXp => p.totalXp >= a.requirementValue
    case StreakDays => p.longestStreak >= a.requirementValue
    case PerfectDays => p.perfectDays >= a.requirementValue
  }

  predicate DistinctIds(catalog: seq<Achievement>) {
    forall i, j | 0 <= i < j < |catalog| :: catalog[i].id != catalog[j].id
  }

  /** The ids, in catalog order, of the achievements not yet unlocked whose
      requirement `p` meets. */
  function NewlyUnlocked(catalog: seq<Achievement>, p: Progress): seq<AchievementId>
  {
    if catalog == [] then []
    else
      var a := catalog[|catalog| - 1];
      NewlyUnlocked(catalog[..|catalog| - 1], p)
        + (if a.id !in p.unlockedAchievements && Qualifies(a, p) then [a.id] else [])
  }

  /** One more catalog entry extends the evaluation by that entry alone. */
  lemma NewlyUnlockedStep(catalog: seq<Achievement>, i: nat, p: Progress)
    requires i < |catalog|
    ensures catalog[i].id !in p.unlockedAchievements && Qualifies(catalog[i], p) ==>
      NewlyUnlocked(catalog[..i + 1], p) == NewlyUnlocked(catalog[..i], p) + [catalog[i].id]
    ensures !(catalog[i].id !in p.unlockedAchievements && Qualifies(catalog[i], p)) ==>
      NewlyUnlocked(catalog[..i + 1], p) == NewlyUnlocked(catalog[..i], p)
  {
    assert catalog[..i + 1][..i] == catalog[..i];
  }

  /** Every id the evaluator appends is new and meets its threshold. */
  lemma {:induction false} NewlyUnlockedSound(catalog: seq<Achievement>, p: Progress, id: AchievementId)
    requires id in NewlyUnlocked(catalog, p)
    ensures id !in p.unlockedAchievements
    ensures exists a :: a in catalog && a.id == id && Qualifies(a, p)
  {
    var init, a := catalog[..|catalog| - 1], catalog[|catalog| - 1];
    if id in NewlyUnlocked(init, p) {
      NewlyUnlockedSound(init, p, id);
      var b :| b in init && b.id == id && Qualifies(b, p);
      assert b in catalog;
    } else {
      assert a in catalog;
    }
  }

  /** And every achievement that is not yet unlocked and qualifies is appended. */
  lemma {:induction false} NewlyUnlockedComplete(catalog: seq<Achievement>, p: Progress, k: nat)
    requires k < |catalog|
    requires catalog[k].id !in p.unlockedAchievements && Qualifies(catalog[k], p)
    ensures catalog[k].id in NewlyUnlocked(catalog, p)
  {
    var init := catalog[..|catalog| - 1];
    if k < |catalog| - 1 {
      assert init[k] == catalog[k];
      NewlyUnlockedComplete(init, p, k);
    }
  }

  /** With distinct catalog ids the appended ids are distinct. */
  lemma {:induction false} NewlyUnlockedNoDuplicates(catalog: seq<Achievement>, p: Progress)
    requires DistinctIds(catalog)
    ensures NoDuplicates(NewlyUnlocked(catalog, p))
    ensures forall id | id in NewlyUnlocked(catalog, p) :: exists k :: 0 <= k < |catalog| && catalog[k].id == id
  {
    if catalog != [] {
      var init, a := catalog[..|catalog| - 1], catalog[|catalog| - 1];
      assert DistinctIds(init);
      NewlyUnlockedNoDuplicates(init, p);
      var r := NewlyUnlocked(init, p);
      forall id | id in r ensures id != a.id {
        var k :| 0 <= k < |init| && init[k].id == id;
        assert catalog[k].id == id;
      }
      var full := NewlyUnlocked(catalog, p);
      forall i, j | 0 <= i < j < |full| ensures full[i] != full[j] {
        if j == |r| {
          assert full[j] == a.id && full[i] == r[i];
          assert r[i] in r;
        } else {
          assert full[i] == r[i] && full[j] == r[j];
        }
      }
      forall id | id in NewlyUnlocked(catalog, p)
        ensures exists k :: 0 <= k < |catalog| && catalog[k].id == id
      {
        if id in r {
          var k :| 0 <= k < |init| && init[k].id == id;
          assert catalog[k].id == id;
        } else {
          assert catalog[|catalog| - 1].id == id;
        }
      }
    }
  }

  /** The record after the evaluator: newly qualifying ids appended in one
      update (stamping `updatedAt`), or the record untouched when none qualify. */
  function AfterAchievements(catalog: seq<Achievement>, p: Progress, now: int): Progress {
    var added := NewlyUnlocked(catalog, p);
    if |added| > 0 then p.(unlockedAchievements := p.unlockedAchievements + added, updatedAt := now)
    else p
  }

  /** The evaluator only ever appends: the old list is a prefix of the new
      one, no id appears twice, nothing else changes but the timestamp, and
      every appended id belongs to an achievement that qualifies. */
  lemma {:induction false} AfterAchievementsAppendOnly(catalog: seq<Achievement>, p: Progress, now: int)
    requires DistinctIds(catalog) && ProgressValid(p)
    ensures var q := AfterAchievements(catalog, p, now);
      && ProgressValid(q)
      && p.unlockedAchievements <= q.unlockedAchievements
      && q.(unlockedAchievements := p.unlockedAchievements, updatedAt := p.updatedAt) == p
      && (forall i | |p.unlockedAchievements| <= i < |q.unlockedAchievements| ::
            exists a :: a in catalog && a.id == q.unlockedAchievements[i] && Qualifies(a, p))
  {
    var added := NewlyUnlocked(catalog, p);
    var q := AfterAchievements(catalog, p, now);
    NewlyUnlockedNoDuplicates(catalog, p);
    if |added| > 0 {
      var u := p.unlockedAchievements;
      forall i, j | 0 <= i < j < |u + added| ensures (u + added)[i] != (u + added)[j] {
        if j >= |u| && i < |u| {
          NewlyUnlockedSound(catalog, p, added[j - |u|]);
        }
      }
      forall i | |u| <= i < |q.unlockedAchievements|
        ensures exists a :: a in catalog && a.id == q.unlockedAchievements[i] && Qualifies(a, p)
      {
        NewlyUnlockedSound(catalog, p, added[i - |u|]);
      }
    }
  }

  lemma AfterAchievementsValid(catalog: seq<Achievement>, p: Progress, now: int)
    requires DistinctIds(catalog) && ProgressValid(p)
    ensures ProgressValid(AfterAchievements(catalog, p, now))
    ensures AfterAchievements(catalog, p, now).userId == p.userId
  {
    AfterAchievementsAppendOnly(catalog, p, now);
  }

  /** The six achievements the catalog is seeded with, ids 0 to 5. */
  function DefaultCatalog(now: int): (c: seq<Achievement>)
    ensures |c| == 6 && DistinctIds(c)
  {
    [ Achievement(0, "First Steps", "Complete your first task", "🌱", TasksCompleted, 1, 50, now),
      Achievement(1, "Getting Started", "Complete 10 tasks", "🚀", TasksCompleted, 10, 100, now),
      Achievement(2, "Task Master", "Complete 100 tasks", "🏆", TasksCompleted, 100, 500, now),
      Achievement(3, "Streak Starter", "Maintain a 3-day streak", "🔥", StreakDays, 3, 75, now),
      Achievement(4, "Consistency King", "Maintain a 7-day streak", "👑", StreakDays, 7, 200, now),
      Achievement(5, "XP Hunter", "Earn 1000 XP", "⚡", TotalXp, 1000, 100, now) ]
  }

  /** The catalog after seeding: the default catalog if it was empty, else as it was. */
  function Seeded(catalog: seq<Achievement>, now: int): seq<Achievement> {
    if |catalog| > 0 then catalog else DefaultCatalog(now)
  }

  /** Seeding is idempotent: a second run changes nothing. */
  lemma SeedIdempotent(catalog: seq<Achievement>, now1: int, now2: int)
    ensures |Seeded(catalog, now1)| > 0
    ensures Seeded(Seeded(catalog, now1), now2) == Seeded(catalog, now1)
  {
  }

  /** A new user's first award (below 1000 XP) against the seeded catalog
      unlocks exactly "First Steps". */
  lemma {:induction false} FirstAwardUnlocksFirstSteps(userId: UserId, created: int, xpAmount: int, now: int, seededAt: int)
    requires 0 <= xpAmount < 1000
    ensures NewlyUnlocked(DefaultCatalog(seededAt), AwardedProgress(InitialProgress(userId, created), xpAmount, now)) == [0]
  {
    var c := DefaultCatalog(seededAt);
    var q := AwardedProgress(InitialProgress(userId, created), xpAmount, now);
    assert q.tasksCompleted == 1 && q.longestStreak == 1 && q.unlockedAchievements == [];
    assert c[..1] == [c[0]];
    assert NewlyUnlocked(c[..0], q) == [];
    assert NewlyUnlocked(c[..1], q) == [0];
    assert c[..2][..1] == c[..1];
    assert NewlyUnlocked(c[..2], q) == [0];
    assert c[..3][..2] == c[..2];
    assert NewlyUnlocked(c[..3], q) == [0];
    assert c[..4][..3] == c[..3];
    assert NewlyUnlocked(c[..4], q) == [0];
    assert c[..5][..4] == c[..4];
    assert NewlyUnlocked(c[..5], q) == [0];
    assert c[..6] == c && c[..5] == c[..|c| - 1];
  }

  // ---------------------------------------------------------------------
  // The ledger
  // ---------------------------------------------------------------------

  /** The progress table after the achievement check for `userId`. */
  function CheckedTable(progress: map<UserId, Progress>, catalog: seq<Achievement>, userId: UserId,
                        now: int): map<UserId, Progress>
  {
    if userId in progress then progress[userId := AfterAchievements(catalog, progress[userId], now)]
    else progress
  }

  /** The progress table after awarding `xpAmount` to `userId` (who must
      have a record): the award itself, then the achievement check. */
  function AwardedTable(progress: map<UserId, Progress>, catalog: seq<Achievement>, userId: UserId,
                        xpAmount: int, now: int): map<UserId, Progress>
    requires userId in progress
  {
    CheckedTable(progress[userId := AwardedProgress(progress[userId], xpAmount, now)], catalog, userId, now)
  }

  predicate TableValid(progress: map<UserId, Progress>) {
    forall u | u in progress :: progress[u].userId == u && ProgressValid(progress[u])
  }

  lemma UpdateKeepsTableValid(progress: map<UserId, Progress>, userId: UserId, p: Progress)
    requires TableValid(progress) && p.userId == userId && ProgressValid(p)
    ensures TableValid(progress[userId := p])
  {
  }

  /** The evaluation loop of checkAchievements: one pass over the catalog
      collecting, in order, the ids not yet unlocked whose requirement the
      record meets. */
  method EvaluateCatalog(catalog: seq<Achievement>, p: Progress) returns (added: seq<AchievementId>)
    ensures added == NewlyUnlocked(catalog, p)
  {
    added := [];
    var i := 0;
    while i < |catalog|
      invariant 0 <= i <= |catalog|
      invariant added == NewlyUnlocked(catalog[..i], p)
    {
      var a := catalog[i];
      NewlyUnlockedStep(catalog, i, p);
      if a.id !in p.unlockedAchievements && Qualifies(a, p) {
        added := added + [a.id];
      }
      i := i + 1;
    }
    assert catalog[..i] == catalog;
  }

  /** The achievement check keeps the table valid, and when `added` is the
      evaluation of the catalog for the user's record, it changes that record
      exactly when something was added. */
  lemma CheckedTableStep(progress: map<UserId, Progress>, catalog: seq<Achievement>, userId: UserId,
                         now: int, added: seq<AchievementId>)
    requires TableValid(progress) && DistinctIds(catalog) && userId in progress
    requires added == NewlyUnlocked(catalog, progress[userId])
    ensures TableValid(CheckedTable(progress, catalog, userId, now))
    ensures |added| == 0 ==> CheckedTable(progress, catalog, userId, now) == progress
    ensures |added| > 0 ==>
      CheckedTable(progress, catalog, userId, now)
        == progress[userId := progress[userId].(unlockedAchievements := progress[userId].unlockedAchievements + added,
                                                updatedAt := now)]
  {
    var p := progress[userId];
    AfterAchievementsValid(catalog, p, now);
    UpdateKeepsTableValid(progress, userId, AfterAchievements(catalog, p, now));
    if |added| == 0 {
      assert progress[userId := p] == progress;
    }
  }

  /** The `userProgress` and `achievements` tables. */
  class Ledger {
    var progress: map<UserId, Progress>
    var achievements: seq<Achievement>

    ghost predicate Valid()
      reads this
    {
      && TableValid(progress)
      && DistinctIds(achievements)
    }

    constructor ()
      ensures Valid() && progress == map[] && achievements == []
    {
      progress := map[];
      achievements := [];
    }

    /** The record inserted when a user signs up. */
    method InitializeProgress(userId: UserId, now: int)
      requires Valid() && userId !in progress
      modifies this
      ensures Valid()
      ensures progress == old(progress)[userId := InitialProgress(userId, now)]
      ensures achievements == old(achievements)
    {
      progress := progress[userId := InitialProgress(userId, now)];
    }

    /** awardXP: rejected when the user has no record; otherwise the record
        becomes AwardedProgress of the old one, the achievements are
        checked, and the summary compares the records before and after. */
    method AwardXP(userId: UserId, xpAmount: int, now: int) returns (r: Result<AwardResult>)
      requires Valid()
      modifies this
      ensures Valid()
      ensures achievements == old(achievements)
      ensures userId !in old(progress) ==> r == Failure("User progress not found") && progress == old(progress)
      ensures userId in old(progress) ==>
        && r == Success(AwardSummary(old(progress)[userId], AwardedProgress(old(progress)[userId], xpAmount, now), xpAmount))
        && progress == AwardedTable(old(progress), achievements, userId, xpAmount, now)
    {
      if userId !in progress {
        return Failure("User progress not found");
      }
      var p := progress[userId];
      var q := AwardedProgress(p, xpAmount, now);
      AwardedProgressValid(p, xpAmount, now);
      UpdateKeepsTableValid(progress, userId, q);
      progress := progress[userId := q];
      CheckAchievements(userId, now);
      r := Success(AwardSummary(p, q, xpAmount));
    }

    /** checkAchievements: one pass over the catalog collecting the ids that
        are not yet unlocked and qualify, then a single append. */
    method CheckAchievements(userId: UserId, now: int)
      requires Valid()
      modifies this
      ensures Valid()
      ensures achievements == old(achievements)
      ensures progress == CheckedTable(old(progress), achievements, userId, now)
    {
      if userId !in progress {
        return;
      }
      var table := progress;
      var p := table[userId];
      var newAchievements := EvaluateCatalog(achievements, p);
      CheckedTableStep(table, achievements, userId, now, newAchievements);
      if |newAchievements| > 0 {
        progress := table[userId := p.(unlockedAchievements := p.unlockedAchievements + newAchievements,
                                       updatedAt := now)];
      }
    }

    /** seedAchievements: inserts the default catalog, one achievement at a
        time, unless the catalog already has entries. */
    method SeedAchievements(now: int)
      requires Valid()
      modifies this
      ensures Valid()
      ensures progress == old(progress)
      ensures achievements == Seeded(old(achievements), now)
    {
      if |achievements| > 0 {
        return;
      }
      var catalog := DefaultCatalog(now);
      var i := 0;
      while i < |catalog|
        invariant 0 <= i <= |catalog|
        invariant achievements == catalog[..i]
        invariant DistinctIds(achievements) && progress == old(progress)
      {
        achievements := achievements + [catalog[i]];
        assert catalog[..i + 1] == catalog[..i] + [catalog[i]];
        i := i + 1;
      }
    }
  }
}
