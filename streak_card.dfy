/**
 * The dashboard's streak card (client/src/components/dashboard/streak-card.tsx): the next
 * milestone, the progress bar towards it, and the caption chosen under the bar.
 */
module StreakCard {
  import opened Wrappers
  import opened Text
  import opened Schema
  import opened Storage

  /** One more than the best streak, or a first goal of a week when there is none. */
  function NextMilestone(bestStreak: int): (r: int)
    ensures r >= 1 && r > bestStreak
    ensures bestStreak > 0 ==> r == bestStreak + 1
    ensures bestStreak <= 0 ==> r == 7
  {
    if bestStreak > 0 then bestStreak + 1 else 7
  }

  /** `Math.min((streakDays / nextMilestone) * 100, 100)`: the bar's width in percent. */
  function BarWidth(streakDays: int, bestStreak: int): (r: real)
    ensures r <= 100.0
    ensures r == 100.0 <==> streakDays >= NextMilestone(bestStreak)
    ensures streakDays >= 0 ==> r >= 0.0
  {
    var m := NextMilestone(bestStreak) as real;
    var percentage := (streakDays as real / m) * 100.0;
    RatioAtLeastOne(streakDays as real, m);
    if percentage < 100.0 then percentage else 100.0
  }

  lemma RatioAtLeastOne(s: real, m: real)
    requires m > 0.0
    ensures (s / m) * 100.0 >= 100.0 <==> s >= m
    ensures s >= 0.0 ==> s / m >= 0.0
  {
    var q := s / m;
    assert q * m == s;
    assert (q - 1.0) * m == s - m;
  }

  /** The four captions the card can choose between. */
  datatype StreakMessage =
    | MoreDays(remaining: nat, milestone: nat)
    | ReachedBest
    | NewBest
    | StartToday

  /** The caption's nested conditional, in its order. */
  function Message(streakDays: int, bestStreak: int): (r: StreakMessage)
    ensures r.MoreDays? <==> streakDays < NextMilestone(bestStreak)
    ensures r.MoreDays? ==>
      r.remaining == NextMilestone(bestStreak) - streakDays && r.remaining >= 1 &&
      r.milestone == NextMilestone(bestStreak)
    ensures r == ReachedBest ==> streakDays == bestStreak && streakDays > 0
    ensures r == NewBest ==> streakDays > bestStreak
  {
    var milestone := NextMilestone(bestStreak);
    if streakDays < milestone then MoreDays(milestone - streakDays, milestone)
    else if streakDays == bestStreak && streakDays > 0 then ReachedBest
    else if streakDays > bestStreak then NewBest
    else StartToday
  }

  /** The last five characters of `rest` stay the last five once something is put before it. */
  lemma LastFiveKept(head: string, rest: string)
    requires |rest| >= 5
    ensures (head + rest)[|head + rest| - 5..] == rest[|rest| - 5..]
  {
    assert (head + rest)[|head|..] == rest;
  }

  /** A string with `tail` of length five appended ends in `tail`. */
  lemma EndsInFive(head: string, tail: string)
    requires |tail| == 5
    ensures (head + tail)[|head + tail| - 5..] == tail
  {
    assert (head + tail)[|head|..] == tail;
  }

  /** The caption as displayed. */
  function MessageText(m: StreakMessage): (r: string)
    ensures m.MoreDays? ==> ParseInt(r) == Some(m.remaining as int) && |r| >= 5 && r[|r| - 5..] == " days"
    ensures !m.MoreDays? ==> |r| > 0 && r[|r| - 1] == '!'
  {
    match m
    case MoreDays(remaining, milestone) =>
      var rest := " more days to reach " + DecimalString(milestone) + " days";
      ParseIntOfDecimalThen(remaining, rest);
      EndsInFive(" more days to reach " + DecimalString(milestone), " days");
      LastFiveKept(DecimalString(remaining), rest);
      DecimalString(remaining) + rest
    case ReachedBest => "You've reached your best streak!"
    case NewBest => "New personal best streak!"
    case StartToday => "Start your streak today!"
  }

  /**
   * "You've reached your best streak!" is never shown: once the streak is at the milestone
   * it is above the best streak. "Start your streak today!" is never shown either.
   */
  lemma OnlyCountdownOrNewBest(streakDays: int, bestStreak: int)
    ensures Message(streakDays, bestStreak) != ReachedBest
    ensures Message(streakDays, bestStreak) != StartToday
    ensures !Message(streakDays, bestStreak).MoreDays? ==> Message(streakDays, bestStreak) == NewBest
  {
  }

  /**
   * For a user as the store keeps them (0 <= streakDays <= bestStreak) the card always counts
   * down, its bar is never full, and the count is at least one day.
   */
  lemma StoredUserSeesCountdown(u: User)
    requires WellFormedUser(u)
    ensures Message(u.streakDays, u.bestStreak).MoreDays?
    ensures Message(u.streakDays, u.bestStreak).remaining >= 1
    ensures 0.0 <= BarWidth(u.streakDays, u.bestStreak) < 100.0
  {
  }
}
