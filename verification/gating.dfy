/**
 * The gating rules the views compute from the profile record and the
 * catalog (ui.js): which belts show as unlocked and which row offers the
 * promotion test, what content each belt lists, which avatars can be
 * chosen, where a "new" badge appears, and which colour theme applies.
 */
module Gating {
  import opened Base
  import opened Catalog
  import opened Profiles

  /** A belt row is shown unlocked when the profile's level has reached it. */
  predicate BeltUnlocked(p: ProfileRec, belt: Belt) {
    p.unlockedBeltLevel >= belt.level
  }

  /** The content listed under a belt: the catalog items that require exactly that level. */
  function ItemsInBelt(items: seq<TrainingItem>, belt: Belt): (r: seq<TrainingItem>)
    ensures forall x :: x in r <==> x in items && x.requiredBelt == belt.level
  {
    Filter(items, (x: TrainingItem) => x.requiredBelt == belt.level)
  }

  /** Each catalog item is listed under the belts of its level and under no other. */
  lemma ItemListedOnce(items: seq<TrainingItem>, x: TrainingItem, b1: Belt, b2: Belt)
    requires x in ItemsInBelt(items, b1) && x in ItemsInBelt(items, b2)
    ensures b1.level == b2.level == x.requiredBelt
  {
  }

  /**
   * The belt the promotion test targets, `getBeltByLevel(unlockedBeltLevel + 1)`;
   * at the top level this falls back to the first belt.
   */
  function PromotionTarget(belts: seq<Belt>, p: ProfileRec): Belt
    requires |belts| > 0
  {
    GetBeltByLevel(belts, p.unlockedBeltLevel + 1)
  }

  /** The promotion area is shown on the row of the target's level once the XP suffices. */
  predicate PromotionOffered(belts: seq<Belt>, p: ProfileRec, row: Belt)
    requires |belts| > 0
  {
    var next := PromotionTarget(belts, p);
    next.level == row.level && p.xp >= next.minXp
  }

  predicate HasLevel(belts: seq<Belt>, level: int) {
    exists j :: 0 <= j < |belts| && belts[j].level == level
  }

  /**
   * Below the top belt the test is offered exactly on the rows of the next
   * level, once the XP reaches that belt's threshold.
   */
  lemma PromotionOfferedBelowTop(belts: seq<Belt>, p: ProfileRec, row: Belt)
    requires |belts| > 0 && HasLevel(belts, p.unlockedBeltLevel + 1)
    ensures PromotionOffered(belts, p, row) <==>
              row.level == p.unlockedBeltLevel + 1 && p.xp >= PromotionTarget(belts, p).minXp
  {
  }

  /**
   * At the top belt the fallback makes the test appear on the rows of the
   * first belt's level, once the XP reaches the first belt's threshold.
   */
  lemma PromotionOfferedAtTop(belts: seq<Belt>, p: ProfileRec, row: Belt)
    requires |belts| > 0 && !HasLevel(belts, p.unlockedBeltLevel + 1)
    ensures PromotionOffered(belts, p, row) <==> row.level == belts[0].level && p.xp >= belts[0].minXp
  {
  }

  /**
   * The belt the progress bar measures against, `getBeltByLevel(current.level + 1)`.
   * It always exists, so the bar's "mastery reached" branch is never taken.
   */
  function ProgressTarget(belts: seq<Belt>, p: ProfileRec): (r: Belt)
    requires |belts| > 0
    ensures r in belts
  {
    GetBeltByLevel(belts, GetBeltByLevel(belts, p.unlockedBeltLevel).level + 1)
  }

  /** The level avatars are checked against: 0 when there is no profile. */
  function CurrentLevel(p: Option<ProfileRec>): int {
    if p.Some? then p.value.unlockedBeltLevel else 0
  }

  /** An avatar is unlocked, and only then clickable, once the level reaches its requirement. */
  predicate AvatarUnlocked(p: Option<ProfileRec>, avatar: Avatar) {
    CurrentLevel(p) >= avatar.requiredBelt
  }

  /** Without a profile exactly the avatars that require level 0 or less are unlocked. */
  lemma AvatarsWithoutProfile(avatar: Avatar)
    ensures AvatarUnlocked(None, avatar) <==> avatar.requiredBelt <= 0
  {
  }

  /** `userProfile?.newContent?.skill ?? false` and the same for the belts flag. */
  function HasNewSkill(p: Option<ProfileRec>): bool {
    p.Some? && p.value.newContent.skill
  }

  function HasNewBelts(p: Option<ProfileRec>): bool {
    p.Some? && p.value.newContent.belts
  }

  /** A navigation entry carries the "new" badge. */
  predicate NavBadge(p: Option<ProfileRec>, navId: string) {
    (navId == SkillSection && HasNewSkill(p)) || (navId == BeltsSection && HasNewBelts(p))
  }

  /**
   * After a visit to a section its entry loses the badge; every other entry
   * keeps the badge it had.
   */
  lemma NavBadgeAfterVisit(p: ProfileRec, sectionId: string, navId: string)
    ensures NavBadge(Some(Visited(p, sectionId)), navId) <==> NavBadge(Some(p), navId) && navId != sectionId
  {
  }

  /** After a promotion both the skill and the belts entries carry the badge, and no other entry does. */
  lemma NavBadgeAfterPromotion(p: ProfileRec, level: int, navId: string)
    ensures NavBadge(Some(Promoted(p, level)), navId) <==> navId == SkillSection || navId == BeltsSection
  {
  }

  /** Without a profile no entry carries the badge. */
  lemma NavBadgeWithoutProfile(navId: string)
    ensures !NavBadge(None, navId)
  {
  }

  /**
   * After a promotion to `level`, exactly the belts up to that level show as
   * unlocked and exactly the avatars requiring at most that level can be chosen.
   */
  lemma UnlockedAfterPromotion(p: ProfileRec, level: int, belt: Belt, avatar: Avatar)
    ensures BeltUnlocked(Promoted(p, level), belt) <==> belt.level <= level
    ensures AvatarUnlocked(Some(Promoted(p, level)), avatar) <==> avatar.requiredBelt <= level
  {
  }

  /** `COLOR_THEMES[themeKey] || COLOR_THEMES['default']` */
  function ThemeFor(themes: map<string, Theme>, key: string): (t: Theme)
    requires DefaultTheme in themes
    ensures key in themes ==> t == themes[key]
    ensures key !in themes ==> t == themes[DefaultTheme]
  {
    if key in themes then themes[key] else themes[DefaultTheme]
  }
}
