/**
 * The activity card (client/src/components/activities/activity-card.tsx): what pressing
 * "Start" does, what the timer's completion does, and when the duration badge and the
 * timer are part of the card.
 */
module ActivityCard {
  import opened Schema
  import opened Storage

  /** The effect of a button: go to a page, open the timer, or post a completion of this activity id. */
  datatype CardAction = NavigateTo(path: string) | OpenTimer | RequestCompletion(activityId: int)

  /** `handleStartActivity` */
  function StartActivity(a: Activity): (r: CardAction)
    ensures a.activityType == "journal" <==> r == NavigateTo("/journal")
    ensures r == OpenTimer <==> a.activityType != "journal" && a.duration > 0
    ensures r.RequestCompletion? <==> a.activityType != "journal" && a.duration <= 0
    ensures r.RequestCompletion? ==> r.activityId == a.id
  {
    if a.activityType == "journal" then NavigateTo("/journal")
    else if a.duration > 0 then OpenTimer
    else RequestCompletion(a.id)
  }

  /**
   * `handleTimerComplete`: the timer's end always posts this activity's completion, which is
   * what the start button does for a non-journal activity without a duration.
   */
  function TimerComplete(a: Activity): (r: CardAction)
    ensures r.RequestCompletion? && r.activityId == a.id
    ensures a.activityType != "journal" ==> r == StartActivity(a.(duration := 0))
  {
    RequestCompletion(a.id)
  }

  /** Both the "N min" badge and the timer dialog are rendered only for a positive duration. */
  predicate HasTimer(a: Activity) {
    a.duration > 0
  }

  /** A journal activity never posts a completion from the card: the journal page does that after a save. */
  lemma JournalNeverCompletesFromCard(a: Activity)
    requires a.activityType == "journal"
    ensures !StartActivity(a).RequestCompletion?
  {
  }

  /** The start button opens a timer exactly for the non-journal activities the card renders a timer for. */
  lemma TimerOpensOnlyWhenRendered(a: Activity)
    ensures StartActivity(a) == OpenTimer ==> HasTimer(a)
    ensures HasTimer(a) && a.activityType != "journal" ==> StartActivity(a) == OpenTimer
  {
  }

  /**
   * On the seeded catalog no card completes immediately: the third activity opens the
   * journal and every other one has a positive duration and opens the timer.
   */
  lemma SeededDispatch(now: Instant, i: nat)
    requires i < |DefaultActivities|
    ensures StartActivity(NewActivity(i + 1, now, DefaultActivities[i])) ==
      if i == 2 then NavigateTo("/journal") else OpenTimer
  {
  }
}
