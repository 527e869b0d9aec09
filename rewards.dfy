/**
 * The derivations of the rewards page (client/src/pages/rewards-page.tsx): level points,
 * bonus percentages, the level title, the earned/unearned split of the achievement catalog,
 * the earned-achievement cards and the connected-wallet caption.
 */
module Rewards {
  import opened Wrappers
  import opened Schema
  import opened Text
  import opened Storage
  import opened Polygon

  /** Points at which the user's level ends. */
  function NextLevelPoints(level: int): (r: int)
    ensures r % 100 == 0
    ensures level >= 1 ==> r >= 100
  {
    level * 100
  }

  /** Points at which the user's level starts; every level spans exactly 100 points. */
  function CurrentLevelPoints(level: int): (r: int)
    ensures NextLevelPoints(level) - r == 100
  {
    (level - 1) * 100
  }

  /** Two percent per streak day, capped at 20 percent. */
  function StreakBonus(streakDays: int): (r: int)
    ensures r <= 20 && r <= 2 * streakDays
    ensures r == 2 * streakDays <==> streakDays <= 10
    ensures r == 20 <==> streakDays >= 10
    ensures streakDays >= 0 ==> r >= 0
  {
    if streakDays * 2 < 20 then streakDays * 2 else 20
  }

  /** Five percent per level above the first. */
  function LevelBonus(level: int): (r: int)
    ensures r % 5 == 0
    ensures r == 0 <==> level == 1
    ensures level >= 1 ==> r >= 0
  {
    (level - 1) * 5
  }

  /** Each level adds exactly five percent: with no bonus at level 1, this fixes every level's bonus. */
  lemma LevelBonusStep(level: int)
    ensures LevelBonus(level + 1) == LevelBonus(level) + 5
  {
  }

  /** The total bonus on the page: the two bonuses added, which a level-1 user holds at most 20 percent of. */
  function TotalBonus(u: User): (r: int)
    ensures u.level >= 1 && u.streakDays >= 0 ==> r >= 0
    ensures u.level == 1 ==> r == StreakBonus(u.streakDays) && r <= 20
  {
    StreakBonus(u.streakDays) + LevelBonus(u.level)
  }

  /** `level < 5 ? "Beginner" : level < 10 ? "Intermediate" : level < 15 ? "Advanced" : "Master"` */
  function LevelTitle(level: int): (r: string)
    ensures r == "Beginner" <==> level < 5
    ensures r == "Intermediate" <==> 5 <= level < 10
    ensures r == "Advanced" <==> 10 <= level < 15
    ensures r == "Master" <==> level >= 15
  {
    if level < 5 then "Beginner"
    else if level < 10 then "Intermediate"
    else if level < 15 then "Advanced"
    else "Master"
  }

  /**
   * Nothing in the store changes a user's level, so every stored user is a "Beginner" with no
   * level bonus, and the total bonus is the streak bonus alone (between 0 and 20 percent).
   */
  lemma StoredUserBonus(u: User)
    requires WellFormedUser(u)
    ensures LevelBonus(u.level) == 0
    ensures TotalBonus(u) == StreakBonus(u.streakDays) && 0 <= TotalBonus(u) <= 20
    ensures LevelTitle(u.level) == "Beginner"
  {
    assert u.level == 1;
  }

  /** `new Set(earned.map(ua => ua.achievementId))` */
  function EarnedIds(earned: seq<UserAchievementWithDetails>): (r: set<int>)
    ensures forall id :: id in r <==> exists i :: 0 <= i < |earned| && earned[i].record.achievementId == id
  {
    set i | 0 <= i < |earned| :: earned[i].record.achievementId
  }

  /** `catalog.filter(a => !ids.has(a.id))`, in catalog order. */
  function UnearnedFrom(catalog: seq<Achievement>, ids: set<int>): (r: seq<Achievement>)
    ensures forall a :: a in r <==> a in catalog && a.id !in ids
    ensures |r| <= |catalog|
    ensures |catalog| == 1 ==> r == if catalog[0].id in ids then [] else catalog
  {
    if catalog == [] then []
    else
      var rest := UnearnedFrom(catalog[..|catalog| - 1], ids);
      var last := catalog[|catalog| - 1];
      assert catalog == catalog[..|catalog| - 1] + [last];
      if last.id in ids then rest else rest + [last]
  }

  /** One step of the filter: an entry added at the end is kept exactly when it is not held. */
  lemma UnearnedFromSnoc(catalog: seq<Achievement>, a: Achievement, ids: set<int>)
    ensures UnearnedFrom(catalog + [a], ids) == UnearnedFrom(catalog, ids) + (if a.id in ids then [] else [a])
  {
    var whole := catalog + [a];
    assert whole[..|whole| - 1] == catalog;
  }

  /** Filtering keeps catalog order: the unearned entries of two parts, one after the other. */
  lemma {:induction false} UnearnedFromAppend(front: seq<Achievement>, back: seq<Achievement>, ids: set<int>)
    ensures UnearnedFrom(front + back, ids) == UnearnedFrom(front, ids) + UnearnedFrom(back, ids)
    decreases |back|
  {
    if back == [] {
      assert front + back == front;
    } else {
      var init := back[..|back| - 1];
      var last := back[|back| - 1];
      assert back == init + [last];
      assert front + back == (front + init) + [last];
      UnearnedFromAppend(front, init, ids);
      UnearnedFromSnoc(front + init, last, ids);
      UnearnedFromSnoc(init, last, ids);
    }
  }

  /** The catalog entries the user already holds: the complement of `UnearnedFrom`. */
  function EarnedFrom(catalog: seq<Achievement>, ids: set<int>): (r: seq<Achievement>)
    ensures forall a :: a in r <==> a in catalog && a.id in ids
  {
    if catalog == [] then []
    else
      var rest := EarnedFrom(catalog[..|catalog| - 1], ids);
      var last := catalog[|catalog| - 1];
      assert catalog == catalog[..|catalog| - 1] + [last];
      if last.id in ids then rest + [last] else rest
  }

  /** Earned and unearned entries split the catalog: every entry lands in exactly one of them. */
  lemma {:induction false} PartitionSizes(catalog: seq<Achievement>, ids: set<int>)
    ensures |UnearnedFrom(catalog, ids)| + |EarnedFrom(catalog, ids)| == |catalog|
    ensures multiset(UnearnedFrom(catalog, ids)) + multiset(EarnedFrom(catalog, ids)) == multiset(catalog)
  {
    if catalog != [] {
      var init := catalog[..|catalog| - 1];
      PartitionSizes(init, ids);
      assert catalog == init + [catalog[|catalog| - 1]];
    }
  }

  /** `allAchievements?.filter(a => !earnedIds.has(a.id)) || []`, with `userAchievements || []` earned. */
  function Unearned(allAchievements: Option<seq<Achievement>>, userAchievements: Option<seq<UserAchievementWithDetails>>): (r: seq<Achievement>)
    ensures allAchievements.None? ==> r == []
    ensures allAchievements.Some? ==> forall a :: a in r <==>
      a in allAchievements.value && a.id !in EarnedIds(userAchievements.GetOr([]))
  {
    match allAchievements
    case None => []
    case Some(catalog) => UnearnedFrom(catalog, EarnedIds(userAchievements.GetOr([])))
  }

  /** The colour scheme of the card at `index`: primary, secondary, accent, then round again. */
  function CardColour(index: nat): (r: string)
    ensures r == "primary" <==> index % 3 == 0
    ensures r == "secondary" <==> index % 3 == 1
    ensures r == "accent" <==> index % 3 == 2
  {
    ["primary", "secondary", "accent"][index % 3]
  }

  /** Neighbouring cards never share a colour. */
  lemma NeighbourColoursDiffer(index: nat)
    ensures CardColour(index) != CardColour(index + 1)
  {
    assert (index + 1) % 3 != index % 3;
  }

  /** The props of an earned-achievement card. */
  datatype Card = Card(name: string, description: string, icon: string, bonusPoints: int, colorScheme: string)

  /** `x || fallback` on an optional string. */
  function OrElse(x: Option<string>, fallback: string): (r: string)
    ensures x.Some? && x.value != "" ==> r == x.value
    ensures x.None? || x.value == "" ==> r == fallback
    ensures r == fallback <==> x.None? || x.value == "" || x.value == fallback
  {
    if x.Some? && x.value != "" then x.value else fallback
  }

  /**
   * The card of one earned record: a present achievement's own name and icon (the placeholders
   * only where those are empty), its description and bonus points; the placeholders otherwise.
   */
  function EarnedCard(ua: UserAchievementWithDetails, index: nat): (r: Card)
    ensures r.colorScheme == CardColour(index)
    ensures ua.achievement.None? ==> r == Card("Achievement", "", "fa-trophy", 0, CardColour(index))
    ensures ua.achievement.Some? ==>
      var a := ua.achievement.value;
      && r.name == (if a.name != "" then a.name else "Achievement")
      && r.description == a.description
      && r.icon == (if a.icon != "" then a.icon else "fa-trophy")
      && r.bonusPoints == a.bonusPoints
  {
    var a := ua.achievement;
    Card(OrElse(if a.Some? then Some(a.value.name) else None, "Achievement"),
         OrElse(if a.Some? then Some(a.value.description) else None, ""),
         OrElse(if a.Some? then Some(a.value.icon) else None, "fa-trophy"),
         if a.Some? then a.value.bonusPoints else 0,
         CardColour(index))
  }

  /** One card per earned record, in order, coloured by position; a record whose achievement is gone gets the placeholders. */
  function EarnedCards(earned: seq<UserAchievementWithDetails>): (r: seq<Card>)
    ensures |r| == |earned|
    ensures forall i :: 0 <= i < |r| ==> r[i] == EarnedCard(earned[i], i)
    ensures forall i :: 0 <= i < |r| ==> r[i].colorScheme == CardColour(i)
    ensures forall i :: 0 <= i < |r| && earned[i].achievement.None? ==>
      r[i] == Card("Achievement", "", "fa-trophy", 0, CardColour(i))
    ensures forall i :: 0 <= i < |r| && earned[i].achievement.Some? ==>
      && r[i].name == (if earned[i].achievement.value.name != "" then earned[i].achievement.value.name else "Achievement")
      && r[i].description == earned[i].achievement.value.description
      && r[i].bonusPoints == earned[i].achievement.value.bonusPoints
  {
    seq(|earned|, i requires 0 <= i < |earned| => EarnedCard(earned[i], i))
  }

  /** The caption's `substring(0, 6) + "..." + substring(length - 4)`, applied to any non-empty address. */
  function WalletCaption(walletAddress: string): (r: string)
    ensures |walletAddress| >= 10 ==>
      r == walletAddress[..6] + "..." + walletAddress[|walletAddress| - 4..]
  {
    Substring(walletAddress, 0, 6) + "..." + SubstringFrom(walletAddress, |walletAddress| - 4)
  }

  /**
   * The page shortens the address itself rather than calling the wallet library's formatter:
   * the two agree on addresses of 10 or more characters, and on shorter non-empty ones the
   * caption is longer than the address the formatter would show unchanged.
   */
  lemma {:induction false} WalletCaptionAgainstFormatter(walletAddress: string)
    requires walletAddress != ""
    ensures |walletAddress| >= 10 ==> WalletCaption(walletAddress) == FormatWalletAddress(walletAddress)
    ensures |walletAddress| < 10 ==>
      WalletCaption(walletAddress) != FormatWalletAddress(walletAddress) &&
      |WalletCaption(walletAddress)| > |walletAddress|
  {
    var n := |walletAddress|;
    if n < 10 {
      var head := Substring(walletAddress, 0, 6);
      var tail := SubstringFrom(walletAddress, n - 4);
      assert |head| == if n < 6 then n else 6;
      assert |tail| == if n < 4 then n else 4;
      assert |WalletCaption(walletAddress)| == |head| + 3 + |tail|;
    }
  }
}
