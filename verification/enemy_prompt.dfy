/** The request the enemy endpoint accepts and the prompt it builds from it.
    Only the values the prompt embeds are modelled, not its prose. */
module EnemyPrompt {

  /** The request body: a player level (any integer; nothing bounds it) and
      the environment the enemy lives in. */
  datatype EnemyRequest = EnemyRequest(playerLevel: int, environment: string)

  /** An "Integer between lo and hi" instruction of the prompt. */
  datatype Range = Range(lo: int, hi: int) {
    predicate Ordered() { lo <= hi }
    predicate Inverted() { lo > hi }
  }

  /** The three stat ranges the prompt asks the model to respect. */
  datatype StatRanges = StatRanges(health: Range, attackPower: Range, xpReward: Range) {
    predicate AllOrdered() { health.Ordered() && attackPower.Ordered() && xpReward.Ordered() }
    predicate AllInverted() { health.Inverted() && attackPower.Inverted() && xpReward.Inverted() }
  }

  /** The prompt, by the values interpolated into it. */
  datatype Prompt = Prompt(playerLevel: int, environment: string, stats: StatRanges)

  /** Health 15L..25L, attack power 2L..5L and XP reward 10L..20L for level L.
      The level is not checked, so a negative level yields inverted ranges. */
  function EnemyStatRanges(level: int): (r: StatRanges)
    ensures r.AllOrdered() <==> level >= 0
    ensures r.AllInverted() <==> level < 0
    ensures level > 0 ==> 0 < r.health.lo < r.health.hi
    ensures level > 0 ==> 0 < r.attackPower.lo < r.attackPower.hi
    ensures level > 0 ==> 0 < r.xpReward.lo < r.xpReward.hi
    ensures level == 0 ==> r == StatRanges(Range(0, 0), Range(0, 0), Range(0, 0))
  {
    StatRanges(
      Range(level * 15, level * 25),
      Range(level * 2, level * 5),
      Range(level * 10, level * 20))
  }

  /** The per-level bounds: a level-1 player gets (15, 25), (2, 5), (10, 20),
      and every bound grows by that much with each further level. */
  lemma StatRangesPerLevel(level: int)
    ensures EnemyStatRanges(1) == StatRanges(Range(15, 25), Range(2, 5), Range(10, 20))
    ensures EnemyStatRanges(level + 1).health == Range(EnemyStatRanges(level).health.lo + 15, EnemyStatRanges(level).health.hi + 25)
    ensures EnemyStatRanges(level + 1).attackPower == Range(EnemyStatRanges(level).attackPower.lo + 2, EnemyStatRanges(level).attackPower.hi + 5)
    ensures EnemyStatRanges(level + 1).xpReward == Range(EnemyStatRanges(level).xpReward.lo + 10, EnemyStatRanges(level).xpReward.hi + 20)
  {
  }

  /** The prompt embeds the request's level and environment and the ranges
      derived from that level. */
  function BuildPrompt(req: EnemyRequest): (p: Prompt)
    ensures p.playerLevel == req.playerLevel && p.environment == req.environment
    ensures p.stats == EnemyStatRanges(req.playerLevel)
    ensures p.stats.AllOrdered() <==> req.playerLevel >= 0
  {
    Prompt(req.playerLevel, req.environment, EnemyStatRanges(req.playerLevel))
  }
}
