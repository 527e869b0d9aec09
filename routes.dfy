/**
 * The request handlers as transactions over the store. A request's session is
 * either anonymous or carries the logged-in user's id; every guarded route
 * answers 401 to an anonymous session without touching the store.
 */
module Routes {
  import opened Wrappers
  import opened Schema
  import opened Collections
  import opened Storage

  datatype Session = Anonymous | Authenticated(userId: int)

  /** An error body: a message, or the schema validator's list of issues. */
  datatype ErrorBody = Message(text: string) | ValidationIssues

  datatype Response<T> = Ok(status: int, body: T) | Failed(status: int, error: ErrorBody)

  const Unauthorized := Message("Unauthorized")

  // ---------------------------------------------------------------------------
  // POST /api/user-activities: the achievement rules

  /**
   * The handler's `if / else if` chain over the three condition strings an activity of type
   * `activityType` can satisfy, with their thresholds: every branch unlocks, so the chain is
   * their disjunction.
   */
  predicate Qualifies(condition: Option<string>, activityType: string, count: int)
    ensures Qualifies(condition, activityType, count) ==> condition.Some? && count >= 5
    ensures condition == Some(activityType + "_5_days") ==> (Qualifies(condition, activityType, count) <==> count >= 5)
    ensures condition == Some(activityType + "_10_sessions") ==> (Qualifies(condition, activityType, count) <==> count >= 10)
    ensures condition == Some(activityType + "_15_sessions") ==> (Qualifies(condition, activityType, count) <==> count >= 15)
  {
    var n := |activityType|;
    assert |activityType + "_5_days"| != |activityType + "_10_sessions"| == |activityType + "_15_sessions"|;
    assert (activityType + "_10_sessions")[n + 2] != (activityType + "_15_sessions")[n + 2];
    || (condition == Some(activityType + "_5_days") && count >= 5)
    || (condition == Some(activityType + "_10_sessions") && count >= 10)
    || (condition == Some(activityType + "_15_sessions") && count >= 15)
  }

  /** The user already holds achievement `achievementId` according to `held`. */
  predicate Held(held: seq<UserAchievement>, achievementId: int) {
    exists ua :: ua in held && ua.achievementId == achievementId
  }

  /** The achievement ids a completion unlocks, in catalog order. */
  function Unlocks(catalog: seq<Achievement>, held: seq<UserAchievement>, activityType: string, count: int): (r: seq<int>)
    ensures |r| <= |catalog|
    decreases |catalog|
  {
    if catalog == [] then []
    else
      var a := catalog[|catalog| - 1];
      var front := Unlocks(catalog[..|catalog| - 1], held, activityType, count);
      if !Held(held, a.id) && Qualifies(a.condition, activityType, count) then front + [a.id] else front
  }

  /** Only achievements the user does not hold, from the catalog, whose condition is met, are unlocked. */
  lemma {:induction false} UnlocksSound(catalog: seq<Achievement>, held: seq<UserAchievement>, activityType: string, count: int, id: int)
    requires id in Unlocks(catalog, held, activityType, count)
    ensures !Held(held, id)
    ensures exists a :: a in catalog && a.id == id && Qualifies(a.condition, activityType, count)
    decreases |catalog|
  {
    var front := catalog[..|catalog| - 1];
    var a := catalog[|catalog| - 1];
    if id in Unlocks(front, held, activityType, count) {
      UnlocksSound(front, held, activityType, count, id);
      var b :| b in front && b.id == id && Qualifies(b.condition, activityType, count);
      assert b in catalog;
    } else {
      assert a in catalog;
    }
  }

  /** Every catalog entry that is not held and whose condition is met is unlocked. */
  lemma {:induction false} UnlocksComplete(catalog: seq<Achievement>, held: seq<UserAchievement>, activityType: string, count: int, a: Achievement)
    requires a in catalog && !Held(held, a.id) && Qualifies(a.condition, activityType, count)
    ensures a.id in Unlocks(catalog, held, activityType, count)
    decreases |catalog|
  {
    var last := catalog[|catalog| - 1];
    if a != last {
      assert catalog == catalog[..|catalog| - 1] + [last];
      UnlocksComplete(catalog[..|catalog| - 1], held, activityType, count, a);
    }
  }

  predicate Distinct(ids: seq<int>) {
    forall i, j :: 0 <= i < j < |ids| ==> ids[i] != ids[j]
  }

  /** A catalog with distinct ids yields distinct unlocks: one request unlocks an achievement at most once. */
  lemma {:induction false} UnlocksDistinct(catalog: seq<Achievement>, held: seq<UserAchievement>, activityType: string, count: int)
    requires forall i, j :: 0 <= i < j < |catalog| ==> catalog[i].id != catalog[j].id
    ensures Distinct(Unlocks(catalog, held, activityType, count))
    decreases |catalog|
  {
    if catalog != [] {
      var front := catalog[..|catalog| - 1];
      var a := catalog[|catalog| - 1];
      UnlocksDistinct(front, held, activityType, count);
      var r := Unlocks(front, held, activityType, count);
      forall id | id in r ensures id != a.id {
        UnlocksSound(front, held, activityType, count, id);
        var b :| b in front && b.id == id && Qualifies(b.condition, activityType, count);
        var k :| 0 <= k < |front| && front[k] == b;
        assert catalog[k] == b;
      }
      var full := Unlocks(catalog, held, activityType, count);
      if full != r {
        assert full == r + [a.id];
        forall i, j | 0 <= i < j < |full| ensures full[i] != full[j] {
          assert full[i] == r[i] && r[i] in r;
          if j < |r| {
            assert full[j] == r[j];
          } else {
            assert full[j] == a.id;
          }
        }
      }
    }
  }

  /** A catalog whose entries carry no condition unlocks nothing, whatever the history. */
  lemma {:induction false} NoConditionNoUnlocks(catalog: seq<Achievement>, held: seq<UserAchievement>, activityType: string, count: int)
    requires forall i :: 0 <= i < |catalog| ==> !ConformsToTable(catalog[i])
    ensures Unlocks(catalog, held, activityType, count) == []
    decreases |catalog|
  {
    if catalog != [] {
      var front := catalog[..|catalog| - 1];
      assert forall i :: 0 <= i < |front| ==> front[i] == catalog[i];
      NoConditionNoUnlocks(front, held, activityType, count);
      assert !ConformsToTable(catalog[|catalog| - 1]);
    }
  }

  /**
   * The catalog the store is seeded with has no conditions, so a completion checked
   * against it, as the handler does when no achievement was created since, unlocks nothing.
   */
  lemma SeededCatalogUnlocksNothing(catalog: seq<Achievement>, now: Instant, held: seq<UserAchievement>, activityType: string, count: int)
    requires |catalog| == |DefaultAchievements|
    requires forall i :: 0 <= i < |catalog| ==> catalog[i] == SeededAchievement(i + 1, now, DefaultAchievements[i])
    ensures Unlocks(catalog, held, activityType, count) == []
  {
    NoConditionNoUnlocks(catalog, held, activityType, count);
  }

  /** The unlock records a run of `createUserAchievement` calls appends, ids counting up from `first`. */
  function UnlockRecords(first: int, now: Instant, userId: int, ids: seq<int>): (r: seq<UserAchievement>)
    ensures |r| == |ids|
    ensures forall i :: 0 <= i < |r| ==> r[i] == UserAchievement(first + i, now, userId, ids[i])
    decreases |ids|
  {
    if ids == [] then []
    else UnlockRecords(first, now, userId, ids[..|ids| - 1]) + [UserAchievement(first + |ids| - 1, now, userId, ids[|ids| - 1])]
  }

  /** Appending unlocks of distinct achievements the user does not hold keeps every (user, achievement) pair unique. */
  lemma AppendedUnlocksStayUnique(list: seq<UserAchievement>, first: int, now: Instant, userId: int, ids: seq<int>)
    requires NoDuplicateUnlocks(list)
    requires Distinct(ids)
    requires forall x, id :: x in list && id in ids && x.userId == userId ==> x.achievementId != id
    ensures NoDuplicateUnlocks(list + UnlockRecords(first, now, userId, ids))
  {
    var added := UnlockRecords(first, now, userId, ids);
    var all := list + added;
    forall i, j | 0 <= i < j < |all| ensures all[i].userId != all[j].userId || all[i].achievementId != all[j].achievementId {
      if j < |list| {
        assert all[i] == list[i] && all[j] == list[j];
      } else {
        assert all[j] == added[j - |list|] && all[j].achievementId == ids[j - |list|] && all[j].userId == userId;
        if i < |list| {
          assert all[i] == list[i] && list[i] in list && ids[j - |list|] in ids;
        } else {
          assert all[i] == added[i - |list|] && all[i].achievementId == ids[i - |list|];
        }
      }
    }
  }

  /** Storing a completion of `record.activityId` by `record.userId` adds one to that pair's count. */
  lemma CountIncludesNewCompletion(before: seq<UserActivity>, record: UserActivity)
    ensures |FilterBy(FilterBy(before + [record], CompletionOwner, record.userId), CompletionActivity, record.activityId)|
         == |FilterBy(FilterBy(before, CompletionOwner, record.userId), CompletionActivity, record.activityId)| + 1
  {
    var uid, aid := record.userId, record.activityId;
    FilterByAppend(before, [record], CompletionOwner, uid);
    assert FilterBy([record], CompletionOwner, uid) == [record];
    FilterByAppend(FilterBy(before, CompletionOwner, uid), [record], CompletionActivity, aid);
    assert FilterBy([record], CompletionActivity, aid) == [record];
  }

  lemma UnlocksStep(catalog: seq<Achievement>, i: int, held: seq<UserAchievement>, activityType: string, count: int)
    requires 0 <= i < |catalog|
    ensures Unlocks(catalog[..i + 1], held, activityType, count)
         == Unlocks(catalog[..i], held, activityType, count)
            + (if !Held(held, catalog[i].id) && Qualifies(catalog[i].condition, activityType, count) then [catalog[i].id] else [])
  {
    assert catalog[..i + 1][..i] == catalog[..i];
  }

  lemma UnlockRecordsStep(first: int, now: Instant, userId: int, ids: seq<int>, id: int)
    ensures UnlockRecords(first, now, userId, ids + [id])
         == UnlockRecords(first, now, userId, ids) + [UserAchievement(first + |ids|, now, userId, id)]
  {
    assert (ids + [id])[..|ids|] == ids;
  }

  /** One `createUserAchievement` call of the catalog loop, stated against the records appended so far. */
  method RecordUnlock(store: MemStorage, ghost start: seq<UserAchievement>, ghost first: int, userId: int,
                      ghost unlocked: seq<int>, achievementId: int, now: Instant)
    requires store.Valid()
    requires store.nextUserAchievementId == first + |unlocked|
    requires store.UserAchievementList() == start + UnlockRecords(first, now, userId, unlocked)
    modifies store`userAchievements, store`nextUserAchievementId
    ensures store.Valid()
    ensures store.nextUserAchievementId == first + |unlocked| + 1
    ensures store.UserAchievementList() == start + UnlockRecords(first, now, userId, unlocked + [achievementId])
  {
    var _ := store.CreateUserAchievement(InsertUserAchievement(userId, achievementId), now);
    UnlockRecordsStep(first, now, userId, unlocked, achievementId);
  }

  /** The catalog loop of the completion handler: unlock each qualifying achievement not already held. */
  method UnlockQualifying(store: MemStorage, userId: int, catalog: seq<Achievement>, held: seq<UserAchievement>,
                          activityType: string, count: int, now: Instant) returns (unlocked: seq<int>)
    requires store.Valid()
    modifies store`userAchievements, store`nextUserAchievementId
    ensures store.Valid()
    ensures unlocked == Unlocks(catalog, held, activityType, count)
    ensures store.UserAchievementList()
         == old(store.UserAchievementList()) + UnlockRecords(old(store.nextUserAchievementId), now, userId, unlocked)
  {
    ghost var start, first := store.UserAchievementList(), store.nextUserAchievementId;
    unlocked := [];
    for i := 0 to |catalog|
      invariant store.Valid()
      invariant unlocked == Unlocks(catalog[..i], held, activityType, count)
      invariant store.nextUserAchievementId == first + |unlocked|
      invariant store.UserAchievementList() == start + UnlockRecords(first, now, userId, unlocked)
    {
      var achievement := catalog[i];
      UnlocksStep(catalog, i, held, activityType, count);
      if Held(held, achievement.id) {
        continue;
      }
      if Qualifies(achievement.condition, activityType, count) {
        RecordUnlock(store, start, first, userId, unlocked, achievement.id, now);
        unlocked := unlocked + [achievement.id];
      }
    }
    assert catalog[..|catalog|] == catalog;
  }

  /**
   * The achievement part of the completion handler: read the user's completions,
   * the catalog and the user's unlocks, count the completions of this activity,
   * and run the catalog loop.
   */
  method EvaluateAchievements(store: MemStorage, userId: int, activity: Activity, now: Instant)
    requires store.Valid()
    modifies store`userAchievements, store`nextUserAchievementId
    ensures store.Valid()
    ensures store.UserAchievementList()
         == old(store.UserAchievementList())
            + UnlockRecords(old(store.nextUserAchievementId), now, userId,
                            Unlocks(old(store.GetAchievements()), old(store.UserAchievementsByUserId(userId)),
                                    activity.activityType, old(store.CompletionCount(userId, activity.id))))
    ensures old(NoDuplicateUnlocks(store.UserAchievementList())) ==> NoDuplicateUnlocks(store.UserAchievementList())
  {
    var userActivities := store.UserActivitiesByUserId(userId);
    var achievements := store.GetAchievements();
    var userAchievements := store.UserAchievementsByUserId(userId);
    var count := |FilterBy(userActivities, CompletionActivity, activity.id)|;
    FilterByPermutation(userActivities, FilterBy(store.UserActivityList(), CompletionOwner, userId), CompletionActivity, activity.id);
    ghost var unlocksBefore := store.UserAchievementList();
    var unlocked := UnlockQualifying(store, userId, achievements, userAchievements, activity.activityType, count, now);
    UnlocksDistinct(achievements, userAchievements, activity.activityType, count);
    if NoDuplicateUnlocks(unlocksBefore) {
      forall x, id | x in unlocksBefore && id in unlocked && x.userId == userId ensures x.achievementId != id {
        UnlocksSound(achievements, userAchievements, activity.activityType, count, id);
        assert x in userAchievements;
      }
      AppendedUnlocksStayUnique(unlocksBefore, old(store.nextUserAchievementId), now, userId, unlocked);
    }
  }

  /**
   * The part of the completion handler that runs when the activity exists: set
   * the user's points to the activity's points, then evaluate achievements.
   */
  method AwardCompletion(store: MemStorage, uid: int, activity: Activity, now: Instant) returns (ok: bool)
    requires store.Valid()
    modifies store`users, store`userAchievements, store`nextUserAchievementId
    ensures store.Valid()
    ensures ok <==> uid in old(store.users)
    ensures !ok ==> store.users == old(store.users) && store.userAchievements == old(store.userAchievements)
    ensures ok ==> store.users == old(store.users)[uid := old(store.users)[uid].(points := activity.points)]
    ensures ok ==>
      store.UserAchievementList()
      == old(store.UserAchievementList())
         + UnlockRecords(old(store.nextUserAchievementId), now, uid,
                         Unlocks(old(store.GetAchievements()), old(store.UserAchievementsByUserId(uid)),
                                 activity.activityType, old(store.CompletionCount(uid, activity.id))))
    ensures old(NoDuplicateUnlocks(store.UserAchievementList())) ==> NoDuplicateUnlocks(store.UserAchievementList())
  {
    var updated := store.UpdateUserPoints(uid, activity.points);
    if updated.Failure? {
      return false;
    }
    EvaluateAchievements(store, uid, activity, now);
    return true;
  }

  /** The insertion the completion handler starts with: one more completion of `aid` by `uid`. */
  method StoreCompletion(store: MemStorage, uid: int, aid: int, now: Instant) returns (userActivity: UserActivity)
    requires store.Valid()
    modifies store`userActivities, store`nextUserActivityId
    ensures store.Valid()
    ensures userActivity == UserActivity(old(store.nextUserActivityId), now, uid, aid)
    ensures store.UserActivityList() == old(store.UserActivityList()) + [userActivity]
    ensures store.CompletionCount(uid, aid) == old(store.CompletionCount(uid, aid)) + 1
  {
    ghost var completionsBefore := store.UserActivityList();
    userActivity := store.CreateUserActivity(InsertUserActivity(uid, aid), now);
    CountIncludesNewCompletion(completionsBefore, userActivity);
  }

  /** The award step when the activity id names a catalog entry. */
  method AwardKnown(store: MemStorage, uid: int, aid: int, now: Instant) returns (ok: bool)
    requires store.Valid() && aid in store.activities
    modifies store`users, store`userAchievements, store`nextUserAchievementId
    ensures store.Valid()
    ensures ok <==> uid in old(store.users)
    ensures !ok ==> store.users == old(store.users) && store.userAchievements == old(store.userAchievements)
    ensures ok ==> store.users == old(store.users)[uid := old(store.users)[uid].(points := old(store.activities)[aid].points)]
    ensures ok ==>
      store.UserAchievementList()
      == old(store.UserAchievementList())
         + UnlockRecords(old(store.nextUserAchievementId), now, uid,
                         Unlocks(old(store.GetAchievements()), old(store.UserAchievementsByUserId(uid)),
                                 old(store.activities)[aid].activityType, old(store.CompletionCount(uid, aid))))
    ensures old(NoDuplicateUnlocks(store.UserAchievementList())) ==> NoDuplicateUnlocks(store.UserAchievementList())
  {
    var activity := store.GetActivity(aid);
    ok := AwardCompletion(store, uid, activity.value, now);
  }

  /**
   * What the completion handler answers and changes once the session's user `uid` and the
   * activity id `aid` are known: an unknown activity answers 201 and awards nothing, an
   * unknown user answers 500 and awards nothing, and otherwise the answer is 201, the user's
   * points become the activity's points and the qualifying unlocks are appended.
   */
  twostate predicate CompletionRecorded(store: MemStorage, uid: int, aid: int, now: Instant, new resp: Response<UserActivity>)
    requires old(store.Valid()) && store.Valid()
    reads store
  {
    var completion := UserActivity(old(store.nextUserActivityId), now, uid, aid);
    && (aid !in old(store.activities) ==>
          && resp == Ok(201, completion)
          && store.users == old(store.users) && store.userAchievements == old(store.userAchievements))
    && (aid in old(store.activities) && uid !in old(store.users) ==>
          && resp == Failed(500, Message("Failed to complete activity"))
          && store.users == old(store.users) && store.userAchievements == old(store.userAchievements))
    && (aid in old(store.activities) && uid in old(store.users) ==>
          && resp == Ok(201, completion)
          && store.users == old(store.users)[uid := old(store.users)[uid].(points := old(store.activities)[aid].points)]
          && store.UserAchievementList()
             == old(store.UserAchievementList())
                + UnlockRecords(old(store.nextUserAchievementId), now, uid,
                                Unlocks(old(store.GetAchievements()), old(store.UserAchievementsByUserId(uid)),
                                        old(store.activities)[aid].activityType, old(store.CompletionCount(uid, aid)) + 1)))
  }

  /**
   * The body of the completion handler once the session and the activity id are
   * known: store the completion (even of an unknown activity); if the activity
   * exists, award it against the completion history read after the insertion.
   */
  method RecordCompletion(store: MemStorage, uid: int, aid: int, now: Instant) returns (resp: Response<UserActivity>)
    requires store.Valid()
    modifies store`userActivities, store`nextUserActivityId, store`users, store`userAchievements, store`nextUserAchievementId
    ensures store.Valid()
    ensures store.UserActivityList() == old(store.UserActivityList()) + [UserActivity(old(store.nextUserActivityId), now, uid, aid)]
    ensures aid !in old(store.activities) ==>
      && resp == Ok(201, UserActivity(old(store.nextUserActivityId), now, uid, aid))
      && store.users == old(store.users) && store.userAchievements == old(store.userAchievements)
    ensures aid in old(store.activities) && uid !in old(store.users) ==>
      && resp == Failed(500, Message("Failed to complete activity"))
      && store.users == old(store.users) && store.userAchievements == old(store.userAchievements)
    ensures aid in old(store.activities) && uid in old(store.users) ==>
      && resp == Ok(201, UserActivity(old(store.nextUserActivityId), now, uid, aid))
      && store.users == old(store.users)[uid := old(store.users)[uid].(points := old(store.activities)[aid].points)]
    ensures aid in old(store.activities) && uid in old(store.users) ==>
      store.UserAchievementList()
      == old(store.UserAchievementList())
         + UnlockRecords(old(store.nextUserAchievementId), now, uid,
                         Unlocks(old(store.GetAchievements()), old(store.UserAchievementsByUserId(uid)),
                                 old(store.activities)[aid].activityType, old(store.CompletionCount(uid, aid)) + 1))
    ensures CompletionRecorded(store, uid, aid, now, resp)
    ensures old(NoDuplicateUnlocks(store.UserAchievementList())) ==> NoDuplicateUnlocks(store.UserAchievementList())
  {
    var userActivity := StoreCompletion(store, uid, aid, now);
    if aid !in store.activities {
      return Ok(201, userActivity);
    }
    var ok := AwardKnown(store, uid, aid, now);
    if !ok {
      return Failed(500, Message("Failed to complete activity"));
    }
    return Ok(201, userActivity);
  }

  /** POST /api/user-activities, with the request body's activity id (None when it is missing or not a number). */
  method CompleteActivity(store: MemStorage, session: Session, activityId: Option<int>, now: Instant)
    returns (resp: Response<UserActivity>)
    requires store.Valid()
    modifies store`userActivities, store`nextUserActivityId, store`users, store`userAchievements, store`nextUserAchievementId
    ensures store.Valid()
    ensures session.Anonymous? ==> resp == Failed(401, Unauthorized) && unchanged(store)
    ensures session.Authenticated? && activityId.None? ==> resp == Failed(400, ValidationIssues) && unchanged(store)
    ensures session.Authenticated? && activityId.Some? ==>
      store.UserActivityList()
      == old(store.UserActivityList()) + [UserActivity(old(store.nextUserActivityId), now, session.userId, activityId.value)]
    ensures session.Authenticated? && activityId.Some? ==>
      CompletionRecorded(store, session.userId, activityId.value, now, resp)
    ensures old(NoDuplicateUnlocks(store.UserAchievementList())) ==> NoDuplicateUnlocks(store.UserAchievementList())
  {
    if session.Anonymous? {
      return Failed(401, Unauthorized);
    }
    if activityId.None? {
      return Failed(400, ValidationIssues);
    }
    resp := RecordCompletion(store, session.userId, activityId.value, now);
  }

  // ---------------------------------------------------------------------------
  // POST /api/update-points

  /** The success body: the updated user and the amount converted. */
  datatype PointsConversion = PointsConversion(success: bool, user: User, pointsConverted: int)

  /**
   * POST /api/update-points with the body's `pointsSpent` (None when it is not a
   * number). The balance stored is `-pointsSpent`: the store overwrites points.
   */
  method UpdatePoints(store: MemStorage, session: Session, pointsSpent: Option<int>) returns (resp: Response<PointsConversion>)
    requires store.Valid()
    modifies store`users
    ensures store.Valid()
    ensures resp.Failed? ==> store.users == old(store.users)
    ensures session.Anonymous? ==> resp == Failed(401, Unauthorized)
    ensures session.Authenticated? && (pointsSpent.None? || pointsSpent.value <= 0) ==>
      resp == Failed(400, Message("Invalid points amount"))
    ensures session.Authenticated? && pointsSpent.Some? && pointsSpent.value > 0 ==>
      var uid, amount := session.userId, pointsSpent.value;
      && (uid !in old(store.users) ==> resp == Failed(500, Message("Failed to update points")))
      && (uid in old(store.users) && old(store.users)[uid].points < amount ==>
            resp == Failed(400, Message("Not enough points available")))
      && (uid in old(store.users) && old(store.users)[uid].points >= amount ==>
            var updated := old(store.users)[uid].(points := -amount);
            resp == Ok(200, PointsConversion(true, updated, amount)) && store.users == old(store.users)[uid := updated])
  {
    if session.Anonymous? {
      return Failed(401, Unauthorized);
    }
    if pointsSpent.None? || pointsSpent.value <= 0 {
      return Failed(400, Message("Invalid points amount"));
    }
    var amount := pointsSpent.value;
    var user := store.GetUser(session.userId);
    if user.None? {
      return Failed(500, Message("Failed to update points"));
    }
    if user.value.points < amount {
      return Failed(400, Message("Not enough points available"));
    }
    var updated := store.UpdateUserPoints(session.userId, -amount);
    if updated.Failure? {
      return Failed(500, Message("Failed to update points"));
    }
    return Ok(200, PointsConversion(true, updated.value, amount));
  }

  // ---------------------------------------------------------------------------
  // POST /api/chat

  /** What the chatbot relay did: it could not be reached or read, or it replied with these optional fields. */
  datatype RelayOutcome = Unreachable | Replied(response: Option<string>, message: Option<string>)

  const DefaultReply := "I'm here to help with your mental health journey."
  const FallbackReply := "I'm having trouble connecting right now. Could you try sending your message again?"

  /** A JavaScript-truthy optional string: present and non-empty. */
  predicate Truthy(s: Option<string>) {
    s.Some? && s.value != ""
  }

  /** The assistant's reply: `response || message || DefaultReply`, or the fallback when the relay failed. */
  function ReplyContent(relay: RelayOutcome): (r: string)
    ensures r != ""
    ensures relay.Unreachable? ==> r == FallbackReply
    ensures relay.Replied? && Truthy(relay.response) ==> r == relay.response.value
    ensures relay.Replied? && !Truthy(relay.response) && Truthy(relay.message) ==> r == relay.message.value
    ensures relay.Replied? && !Truthy(relay.response) && !Truthy(relay.message) ==> r == DefaultReply
  {
    match relay
    case Unreachable => FallbackReply
    case Replied(response, message) =>
      if Truthy(response) then response.value
      else if Truthy(message) then message.value
      else DefaultReply
  }

  /**
   * POST /api/chat with the body's `message`: store the user's message, then exactly
   * one assistant message. The user's message is stamped `now`; the reply is stamped
   * `replyAt`, when the relay has answered. The chat history the relay receives is left out.
   */
  method Chat(store: MemStorage, session: Session, message: Option<string>, relay: RelayOutcome, now: Instant, replyAt: Instant)
    returns (resp: Response<ChatMessage>)
    requires store.Valid()
    requires now.millis <= replyAt.millis
    modifies store`chatMessages, store`nextChatMessageId
    ensures store.Valid()
    ensures session.Anonymous? ==> resp == Failed(401, Unauthorized) && unchanged(store)
    ensures session.Authenticated? && !Truthy(message) ==> resp == Failed(400, Message("Message is required")) && unchanged(store)
    ensures session.Authenticated? && Truthy(message) ==>
      var first := old(store.nextChatMessageId);
      var reply := ChatMessage(first + 1, replyAt, session.userId, RoleAssistant, ReplyContent(relay));
      && store.ChatMessageList()
         == old(store.ChatMessageList()) + [ChatMessage(first, now, session.userId, RoleUser, message.value), reply]
      && resp == Ok(200, reply)
  {
    if session.Anonymous? {
      return Failed(401, Unauthorized);
    }
    if !Truthy(message) {
      return Failed(400, Message("Message is required"));
    }
    var uid := session.userId;
    ghost var before := store.ChatMessageList();
    var userMessage := store.CreateChatMessage(InsertChatMessage(uid, RoleUser, message.value), now);
    var content := FallbackReply;
    if relay.Replied? {
      content := if Truthy(relay.response) then relay.response.value
                 else if Truthy(relay.message) then relay.message.value
                 else DefaultReply;
    }
    var saved := store.CreateChatMessage(InsertChatMessage(uid, RoleAssistant, content), replyAt);
    assert before + [userMessage] + [saved] == before + [userMessage, saved];
    return Ok(200, saved);
  }

  // ---------------------------------------------------------------------------
  // POST /api/moods and the guarded read routes

  /** The request body of POST /api/moods: `mood` must be a string; `note` is optional. */
  datatype MoodBody = MoodBody(mood: Option<string>, note: Option<string>)

  /** POST /api/moods: the owner is the session's user whatever the body says. */
  method PostMood(store: MemStorage, session: Session, body: MoodBody, now: Instant) returns (resp: Response<Mood>)
    requires store.Valid()
    modifies store`moods, store`nextMoodId
    ensures store.Valid()
    ensures session.Anonymous? ==> resp == Failed(401, Unauthorized) && unchanged(store)
    ensures session.Authenticated? && body.mood.None? ==> resp == Failed(400, ValidationIssues) && unchanged(store)
    ensures session.Authenticated? && body.mood.Some? ==>
      var m := Mood(old(store.nextMoodId), now, session.userId, body.mood.value, body.note);
      resp == Ok(201, m) && store.MoodList() == old(store.MoodList()) + [m]
  {
    if session.Anonymous? {
      return Failed(401, Unauthorized);
    }
    if body.mood.None? {
      return Failed(400, ValidationIssues);
    }
    var mood := store.CreateMood(InsertMood(session.userId, body.mood.value, body.note), now);
    return Ok(201, mood);
  }

  /** GET /api/moods: the session user's moods, newest first. */
  function ListMoods(store: MemStorage, session: Session): (r: Response<seq<Mood>>)
    reads store`moods, store`nextMoodId
    requires store.MoodsValid()
    ensures session.Anonymous? <==> r == Failed(401, Unauthorized)
    ensures r.Ok? ==> r.status == 200 && Ordered(r.body, MoodTime, true)
    ensures r.Ok? ==> forall m :: m in r.body <==> m in store.MoodList() && m.userId == session.userId
    ensures r.Ok? ==> multiset(r.body) == multiset(FilterBy(store.MoodList(), MoodOwner, session.userId))
  {
    if session.Anonymous? then Failed(401, Unauthorized) else Ok(200, store.MoodsByUserId(session.userId))
  }

  /** GET /api/moods/weekly: the session user's moods since `oneWeekAgo`, oldest first. */
  function ListWeeklyMoods(store: MemStorage, session: Session, oneWeekAgo: int): (r: Response<seq<Mood>>)
    reads store`moods, store`nextMoodId
    requires store.MoodsValid()
    ensures session.Anonymous? <==> r == Failed(401, Unauthorized)
    ensures r.Ok? ==> r.status == 200 && Ordered(r.body, MoodTime, false)
    ensures r.Ok? ==> forall m :: m in r.body <==>
      m in store.MoodList() && m.userId == session.userId && m.timestamp.millis >= oneWeekAgo
    ensures r.Ok? ==>
      multiset(r.body) == multiset(FilterFrom(FilterBy(store.MoodList(), MoodOwner, session.userId), MoodTime, oneWeekAgo))
  {
    if session.Anonymous? then Failed(401, Unauthorized) else Ok(200, store.WeeklyMoods(session.userId, oneWeekAgo))
  }

  /** GET /api/user-activities: the session user's completions, newest first. */
  function ListUserActivities(store: MemStorage, session: Session): (r: Response<seq<UserActivity>>)
    reads store`userActivities, store`nextUserActivityId
    requires store.UserActivitiesValid()
    ensures session.Anonymous? <==> r == Failed(401, Unauthorized)
    ensures r.Ok? ==> r.status == 200 && Ordered(r.body, CompletionTime, true)
    ensures r.Ok? ==> forall ua :: ua in r.body <==> ua in store.UserActivityList() && ua.userId == session.userId
    ensures r.Ok? ==> multiset(r.body) == multiset(FilterBy(store.UserActivityList(), CompletionOwner, session.userId))
  {
    if session.Anonymous? then Failed(401, Unauthorized) else Ok(200, store.UserActivitiesByUserId(session.userId))
  }

  /** GET /api/chat/history: the session user's messages, oldest first. */
  function ChatHistory(store: MemStorage, session: Session): (r: Response<seq<ChatMessage>>)
    reads store`chatMessages, store`nextChatMessageId
    requires store.ChatMessagesValid()
    ensures session.Anonymous? <==> r == Failed(401, Unauthorized)
    ensures r.Ok? ==> r.status == 200 && Ordered(r.body, ChatTime, false)
    ensures r.Ok? ==> forall c :: c in r.body <==> c in store.ChatMessageList() && c.userId == session.userId
    ensures r.Ok? ==> multiset(r.body) == multiset(FilterBy(store.ChatMessageList(), ChatOwner, session.userId))
  {
    if session.Anonymous? then Failed(401, Unauthorized) else Ok(200, store.ChatMessagesByUserId(session.userId))
  }

  /** Each unlock record joined with its catalog entry (`{ ...ua, achievement }`). */
  function WithDetails(store: MemStorage, records: seq<UserAchievement>): (r: seq<UserAchievementWithDetails>)
    reads store`achievements, store`nextAchievementId
    requires store.AchievementsValid()
    ensures |r| == |records|
    ensures forall i :: 0 <= i < |r| ==> r[i].record == records[i]
    ensures forall i :: 0 <= i < |r| ==> r[i].achievement == store.GetAchievement(records[i].achievementId)
    ensures forall i :: 0 <= i < |r| && r[i].achievement.Some? ==>
      r[i].achievement.value.id == records[i].achievementId && r[i].achievement.value in store.GetAchievements()
    ensures forall i :: 0 <= i < |r| && r[i].achievement.None? ==>
      forall a :: a in store.GetAchievements() ==> a.id != records[i].achievementId
    decreases |records|
  {
    if records == [] then []
    else [UserAchievementWithDetails(records[0], store.GetAchievement(records[0].achievementId))] + WithDetails(store, records[1..])
  }

  /** GET /api/user-achievements: the session user's unlocks, newest first, with their achievements. */
  function ListUserAchievements(store: MemStorage, session: Session): (r: Response<seq<UserAchievementWithDetails>>)
    reads store`userAchievements, store`nextUserAchievementId, store`achievements, store`nextAchievementId
    requires store.UserAchievementsValid() && store.AchievementsValid()
    ensures session.Anonymous? <==> r == Failed(401, Unauthorized)
    ensures r.Ok? ==> r.status == 200 && |r.body| == |store.UserAchievementsByUserId(session.userId)|
    ensures r.Ok? ==> forall d :: d in r.body ==> d.record in store.UserAchievementList() && d.record.userId == session.userId
    ensures r.Ok? ==> forall i :: 0 <= i < |r.body| ==>
      && r.body[i].record == store.UserAchievementsByUserId(session.userId)[i]
      && r.body[i].achievement == store.GetAchievement(r.body[i].record.achievementId)
  {
    if session.Anonymous? then Failed(401, Unauthorized)
    else
      var records := store.UserAchievementsByUserId(session.userId);
      var r := WithDetails(store, records);
      assert forall d :: d in r ==> d.record in records;
      Ok(200, r)
  }
}
