/**
 * The in-memory entity store: seven keyed collections, each with its own id
 * counter starting at 1, seeded with six activities and five achievements.
 */
module Storage {
  import opened Wrappers
  import opened Schema
  import opened Collections

  datatype StoreError = UserNotFound

  // Keys the list queries select and order by.
  function MoodOwner(m: Mood): int { m.userId }
  function MoodTime(m: Mood): int { m.timestamp.millis }
  function CompletionOwner(ua: UserActivity): int { ua.userId }
  function CompletionActivity(ua: UserActivity): int { ua.activityId }
  function CompletionTime(ua: UserActivity): int { ua.completedAt.millis }
  function UnlockOwner(ua: UserAchievement): int { ua.userId }
  function UnlockTime(ua: UserAchievement): int { ua.unlockedAt.millis }
  function ChatOwner(c: ChatMessage): int { c.userId }
  function ChatTime(c: ChatMessage): int { c.timestamp.millis }

  /** The keys of `m` are exactly 1 .. next - 1. */
  ghost predicate Dense<T>(m: map<int, T>, next: int) {
    next >= 1 && forall k :: k in m <==> 1 <= k < next
  }

  /**
   * `Array.from(m.values())` for a map whose keys 1 .. next - 1 were inserted in
   * increasing order: the values in key order.
   */
  function InOrder<T>(m: map<int, T>, next: int): (r: seq<T>)
    requires forall k :: 1 <= k < next ==> k in m
    ensures |r| == if next <= 1 then 0 else next - 1
    ensures forall i :: 0 <= i < |r| ==> r[i] == m[i + 1]
    decreases next
  {
    if next <= 1 then [] else InOrder(m, next - 1) + [m[next - 1]]
  }

  lemma InOrderAppend<T>(m: map<int, T>, next: int, x: T)
    requires next >= 1 && forall k :: 1 <= k < next ==> k in m
    ensures InOrder(m[next := x], next + 1) == InOrder(m, next) + [x]
  {
    var a, b := InOrder(m[next := x], next + 1), InOrder(m, next) + [x];
    assert |a| == |b|;
    forall i | 0 <= i < |a| ensures a[i] == b[i] {
      if i < next - 1 {
        assert a[i] == m[i + 1];
      }
    }
  }

  /** No two users share a username (the column is declared unique). */
  ghost predicate UniqueUsernames(m: map<int, User>) {
    forall j, k :: j in m && k in m && j != k ==> m[j].username != m[k].username
  }

  /** Adding a user under a fresh id keeps usernames unique exactly when the new username is not taken. */
  lemma UniqueUsernamesAfterInsert(m: map<int, User>, id: int, u: User)
    requires id !in m
    ensures UniqueUsernames(m[id := u]) <==> UniqueUsernames(m) && forall k :: k in m ==> m[k].username != u.username
  {
    var m' := m[id := u];
    if UniqueUsernames(m') {
      forall k | k in m ensures m[k].username != u.username {
        assert m'[k] == m[k] && m'[id] == u;
      }
      forall j, k | j in m && k in m && j != k ensures m[j].username != m[k].username {
        assert m'[j] == m[j] && m'[k] == m[k];
      }
    }
    if UniqueUsernames(m) && forall k :: k in m ==> m[k].username != u.username {
      forall j, k | j in m' && k in m' && j != k ensures m'[j].username != m'[k].username {
        if j != id && k != id {
          assert m'[j] == m[j] && m'[k] == m[k];
        }
      }
    }
  }

  /** What the store keeps true of every user: the level never moves and the best streak bounds the streak. */
  predicate WellFormedUser(u: User) {
    u.level == DefaultLevel && 0 <= u.streakDays <= u.bestStreak
  }

  function Max(a: int, b: int): (r: int)
    ensures r >= a && r >= b
    ensures r == a || r == b
  {
    if a >= b then a else b
  }

  /**
   * The streak after a login on calendar day `today`: one more when the previous
   * login was yesterday, unchanged when it was today, 1 otherwise (also with no
   * previous login).
   */
  function NextStreak(streak: int, lastLogin: Option<Instant>, today: int): (r: int)
    ensures lastLogin.None? ==> r == 1
    ensures lastLogin.Some? && lastLogin.value.day == today - 1 ==> r == streak + 1
    ensures lastLogin.Some? && lastLogin.value.day == today ==> r == streak
    ensures !(lastLogin.Some? && today - 1 <= lastLogin.value.day <= today) ==> r == 1
    ensures streak >= 0 ==> 0 <= r <= streak + 1
  {
    if lastLogin.Some? && lastLogin.value.day == today - 1 then streak + 1
    else if !(lastLogin.Some? && lastLogin.value.day == today) then 1
    else streak
  }

  /** The user record after a login at `now` (`updateUserStreak`). */
  function TouchLogin(u: User, now: Instant): (r: User)
    ensures r == u.(streakDays := r.streakDays, bestStreak := r.bestStreak, lastLogin := Some(now))
    ensures r.streakDays == NextStreak(u.streakDays, u.lastLogin, now.day)
    ensures r.bestStreak == Max(u.bestStreak, r.streakDays)
    ensures r.bestStreak >= u.bestStreak && r.bestStreak >= r.streakDays
  {
    var s := NextStreak(u.streakDays, u.lastLogin, now.day);
    u.(streakDays := s, bestStreak := Max(u.bestStreak, s), lastLogin := Some(now))
  }

  /** The user record after logging in at each of `logins` in turn. */
  function AfterLogins(u: User, logins: seq<Instant>): User
    decreases |logins|
  {
    if logins == [] then u else AfterLogins(TouchLogin(u, logins[0]), logins[1..])
  }

  /** The streak reached after each of `logins` in turn, starting from `u`. */
  function StreaksReached(u: User, logins: seq<Instant>): (r: seq<int>)
    ensures |r| == |logins|
    decreases |logins|
  {
    if logins == [] then []
    else
      var v := TouchLogin(u, logins[0]);
      [v.streakDays] + StreaksReached(v, logins[1..])
  }

  /**
   * After any series of logins the best streak is the largest of the old best streak and
   * every streak reached along the way.
   */
  lemma {:induction false} AfterLoginsBestIsMax(u: User, logins: seq<Instant>)
    ensures AfterLogins(u, logins).bestStreak >= u.bestStreak
    ensures forall i :: 0 <= i < |logins| ==> AfterLogins(u, logins).bestStreak >= StreaksReached(u, logins)[i]
    ensures AfterLogins(u, logins).bestStreak == u.bestStreak
      || exists i :: 0 <= i < |logins| && AfterLogins(u, logins).bestStreak == StreaksReached(u, logins)[i]
    decreases |logins|
  {
    if logins != [] {
      var v := TouchLogin(u, logins[0]);
      var rest := logins[1..];
      AfterLoginsBestIsMax(v, rest);
      var best := AfterLogins(v, rest).bestStreak;
      assert AfterLogins(u, logins).bestStreak == best;
      var reached := StreaksReached(u, logins);
      assert reached == [v.streakDays] + StreaksReached(v, rest);
      forall i | 0 <= i < |logins|
        ensures best >= reached[i]
      {
        if i > 0 {
          assert reached[i] == StreaksReached(v, rest)[i - 1];
        }
      }
      if best != u.bestStreak {
        if best == v.bestStreak {
          assert v.bestStreak == Max(u.bestStreak, v.streakDays);
          assert AfterLogins(u, logins).bestStreak == StreaksReached(u, logins)[0];
          assert exists i :: 0 <= i < |logins| && AfterLogins(u, logins).bestStreak == StreaksReached(u, logins)[i];
        } else {
          var j :| 0 <= j < |rest| && best == StreaksReached(v, rest)[j];
          assert StreaksReached(v, rest)[j] == reached[j + 1];
          assert AfterLogins(u, logins).bestStreak == StreaksReached(u, logins)[j + 1];
          assert exists i :: 0 <= i < |logins| && AfterLogins(u, logins).bestStreak == StreaksReached(u, logins)[i];
        }
      }
    }
  }

  /** The logins fall on consecutive calendar days starting at `first`. */
  predicate ConsecutiveDays(first: int, logins: seq<Instant>) {
    forall i :: 0 <= i < |logins| ==> logins[i].day == first + i
  }

  /** A login keeps a user well formed, never lowers the best streak and leaves it at least the streak. */
  lemma TouchLoginWellFormed(u: User, now: Instant)
    requires WellFormedUser(u)
    ensures WellFormedUser(TouchLogin(u, now))
    ensures TouchLogin(u, now).bestStreak >= u.bestStreak
    ensures TouchLogin(u, now).lastLogin == Some(now)
  {
  }

  /** Logging in on each day after the last login, one day at a time, adds one to the streak per day. */
  lemma {:induction false} ConsecutiveLoginsExtendStreak(u: User, logins: seq<Instant>)
    requires u.lastLogin.Some? && ConsecutiveDays(u.lastLogin.value.day + 1, logins)
    ensures AfterLogins(u, logins).streakDays == u.streakDays + |logins|
    decreases |logins|
  {
    if logins != [] {
      var v := TouchLogin(u, logins[0]);
      assert v.streakDays == u.streakDays + 1;
      assert ConsecutiveDays(v.lastLogin.value.day + 1, logins[1..]) by {
        forall i | 0 <= i < |logins[1..]| ensures logins[1..][i].day == v.lastLogin.value.day + 1 + i {
          assert logins[1..][i] == logins[i + 1];
        }
      }
      ConsecutiveLoginsExtendStreak(v, logins[1..]);
    }
  }

  /** Over any series of logins the best streak never decreases and stays at least the streak. */
  lemma {:induction false} AfterLoginsBestStreak(u: User, logins: seq<Instant>)
    requires WellFormedUser(u)
    ensures WellFormedUser(AfterLogins(u, logins))
    ensures AfterLogins(u, logins).bestStreak >= u.bestStreak
    decreases |logins|
  {
    if logins != [] {
      TouchLoginWellFormed(u, logins[0]);
      AfterLoginsBestStreak(TouchLogin(u, logins[0]), logins[1..]);
    }
  }

  /** No user holds the same achievement twice. */
  ghost predicate NoDuplicateUnlocks(list: seq<UserAchievement>) {
    forall i, j :: 0 <= i < j < |list| ==>
      list[i].userId != list[j].userId || list[i].achievementId != list[j].achievementId
  }

  /** `{ id, createdAt, ...data }` for an activity. */
  function NewActivity(id: int, createdAt: Instant, d: InsertActivity): Activity {
    Activity(id, createdAt, d.name, d.description, d.activityType, d.points, d.icon, d.colorScheme, d.duration)
  }

  /** `{ id, createdAt, ...data }` for an inserted achievement (it has a condition, no colour scheme). */
  function NewAchievement(id: int, createdAt: Instant, d: InsertAchievement): Achievement {
    Achievement(id, createdAt, d.name, d.description, d.icon, d.bonusPoints, None, Some(d.condition))
  }

  /** A seeded achievement: it has a colour scheme and no condition. */
  datatype AchievementSeed = AchievementSeed(name: string, description: string, icon: string, bonusPoints: int, colorScheme: string)

  function SeededAchievement(id: int, createdAt: Instant, d: AchievementSeed): Achievement {
    Achievement(id, createdAt, d.name, d.description, d.icon, d.bonusPoints, Some(d.colorScheme), None)
  }

  const DefaultActivities: seq<InsertActivity> := [
    InsertActivity("Breathing Exercise", "5-minute guided breathing to reduce anxiety", "breathing", 15, "fa-wind", "secondary", 5),
    InsertActivity("Quick Meditation", "10-minute guided meditation for focus", "meditation", 25, "fa-spa", "primary", 10),
    InsertActivity("Gratitude Journal", "Write 3 things you're grateful for today", "journal", 20, "fa-pen-to-square", "accent", 5),
    InsertActivity("Morning Affirmations", "Start your day with positive self-talk", "affirmation", 10, "fa-sun", "warning", 3),
    InsertActivity("Progressive Muscle Relaxation", "Release tension from head to toe", "relaxation", 30, "fa-dumbbell", "success", 15),
    InsertActivity("Mindful Walking", "10-minute walking meditation outdoors", "walking", 25, "fa-walking", "info", 10)
  ]

  const DefaultAchievements: seq<AchievementSeed> := [
    AchievementSeed("First Steps", "Complete your first activity", "fa-baby", 50, "primary"),
    AchievementSeed("Weekly Warrior", "Complete 7 activities in one week", "fa-calendar-week", 100, "success"),
    AchievementSeed("Consistency Champion", "Maintain a 14-day streak", "fa-trophy", 200, "warning"),
    AchievementSeed("Breathing Expert", "Complete 10 breathing exercises", "fa-wind", 150, "info"),
    AchievementSeed("Mindfulness Master", "Complete 5 meditation sessions", "fa-spa", 175, "secondary")
  ]

  class MemStorage {
    var users: map<int, User>
    var moods: map<int, Mood>
    var activities: map<int, Activity>
    var userActivities: map<int, UserActivity>
    var achievements: map<int, Achievement>
    var userAchievements: map<int, UserAchievement>
    var chatMessages: map<int, ChatMessage>

    // The id the next record of each collection receives.
    var nextUserId: int
    var nextMoodId: int
    var nextActivityId: int
    var nextUserActivityId: int
    var nextAchievementId: int
    var nextUserAchievementId: int
    var nextChatMessageId: int

    /** Each collection holds ids 1 .. counter - 1, each record under its own id; users are well formed. */
    ghost predicate Valid()
      reads this
    {
      UsersValid() && MoodsValid() && ActivitiesValid() && UserActivitiesValid()
      && AchievementsValid() && UserAchievementsValid() && ChatMessagesValid()
    }

    ghost predicate UsersValid() reads this`users, this`nextUserId {
      Dense(users, nextUserId) && forall k :: k in users ==> users[k].id == k && WellFormedUser(users[k])
    }
    ghost predicate MoodsValid() reads this`moods, this`nextMoodId {
      Dense(moods, nextMoodId) && forall k :: k in moods ==> moods[k].id == k
    }
    ghost predicate ActivitiesValid() reads this`activities, this`nextActivityId {
      Dense(activities, nextActivityId) && forall k :: k in activities ==> activities[k].id == k
    }
    ghost predicate UserActivitiesValid() reads this`userActivities, this`nextUserActivityId {
      Dense(userActivities, nextUserActivityId) && forall k :: k in userActivities ==> userActivities[k].id == k
    }
    ghost predicate AchievementsValid() reads this`achievements, this`nextAchievementId {
      Dense(achievements, nextAchievementId) && forall k :: k in achievements ==> achievements[k].id == k
    }
    ghost predicate UserAchievementsValid() reads this`userAchievements, this`nextUserAchievementId {
      Dense(userAchievements, nextUserAchievementId) && forall k :: k in userAchievements ==> userAchievements[k].id == k
    }
    ghost predicate ChatMessagesValid() reads this`chatMessages, this`nextChatMessageId {
      Dense(chatMessages, nextChatMessageId) && forall k :: k in chatMessages ==> chatMessages[k].id == k
    }

    // Each collection in insertion order, which is id order.
    function UserList(): seq<User> reads this`users, this`nextUserId requires UsersValid() { InOrder(users, nextUserId) }
    function MoodList(): seq<Mood> reads this`moods, this`nextMoodId requires MoodsValid() { InOrder(moods, nextMoodId) }
    function UserActivityList(): seq<UserActivity> reads this`userActivities, this`nextUserActivityId requires UserActivitiesValid() { InOrder(userActivities, nextUserActivityId) }
    function UserAchievementList(): seq<UserAchievement> reads this`userAchievements, this`nextUserAchievementId requires UserAchievementsValid() { InOrder(userAchievements, nextUserAchievementId) }
    function ChatMessageList(): seq<ChatMessage> reads this`chatMessages, this`nextChatMessageId requires ChatMessagesValid() { InOrder(chatMessages, nextChatMessageId) }

    /** `getActivities()`: the catalog in insertion order; the i-th entry has id i + 1. */
    function GetActivities(): (r: seq<Activity>)
      reads this`activities, this`nextActivityId
      requires ActivitiesValid()
      ensures |r| == nextActivityId - 1
      ensures forall i :: 0 <= i < |r| ==> r[i].id == i + 1
    {
      InOrder(activities, nextActivityId)
    }

    /** `getAchievements()`: the catalog in insertion order; the i-th entry has id i + 1. */
    function GetAchievements(): (r: seq<Achievement>)
      reads this`achievements, this`nextAchievementId
      requires AchievementsValid()
      ensures |r| == nextAchievementId - 1
      ensures forall i :: 0 <= i < |r| ==> r[i].id == i + 1
    {
      InOrder(achievements, nextAchievementId)
    }

    constructor (now: Instant)
      ensures Valid()
      ensures |GetActivities()| == |DefaultActivities|
      ensures forall i :: 0 <= i < |DefaultActivities| ==> GetActivities()[i] == NewActivity(i + 1, now, DefaultActivities[i])
      ensures |GetAchievements()| == |DefaultAchievements|
      ensures forall i :: 0 <= i < |DefaultAchievements| ==> GetAchievements()[i] == SeededAchievement(i + 1, now, DefaultAchievements[i])
      ensures users == map[] && moods == map[] && userActivities == map[] && userAchievements == map[] && chatMessages == map[]
      ensures nextUserId == nextMoodId == nextUserActivityId == nextUserAchievementId == nextChatMessageId == 1
    {
      users, moods, activities, userActivities := map[], map[], map[], map[];
      achievements, userAchievements, chatMessages := map[], map[], map[];
      nextUserId, nextMoodId, nextActivityId, nextUserActivityId := 1, 1, 1, 1;
      nextAchievementId, nextUserAchievementId, nextChatMessageId := 1, 1, 1;
      new;
      SeedActivities(now, DefaultActivities);
      SeedAchievements(now, DefaultAchievements);
    }

    /** The first seeding loop of the constructor: the six default activities, in order. */
    method SeedActivities(now: Instant, defaults: seq<InsertActivity>)
      requires Valid() && activities == map[] && nextActivityId == 1
      modifies this`activities, this`nextActivityId
      ensures Valid()
      ensures |GetActivities()| == |defaults|
      ensures forall i :: 0 <= i < |defaults| ==> GetActivities()[i] == NewActivity(i + 1, now, defaults[i])
    {
      for i := 0 to |defaults|
        invariant Valid()
        invariant nextActivityId == i + 1
        invariant forall j :: 0 <= j < i ==> GetActivities()[j] == NewActivity(j + 1, now, defaults[j])
      {
        var activity := NewActivity(nextActivityId, now, defaults[i]);
        InOrderAppend(activities, nextActivityId, activity);
        activities := activities[activity.id := activity];
        nextActivityId := nextActivityId + 1;
      }
    }

    /** The second seeding loop of the constructor: the five default achievements, in order. */
    method SeedAchievements(now: Instant, defaults: seq<AchievementSeed>)
      requires Valid() && achievements == map[] && nextAchievementId == 1
      modifies this`achievements, this`nextAchievementId
      ensures Valid()
      ensures |GetAchievements()| == |defaults|
      ensures forall i :: 0 <= i < |defaults| ==> GetAchievements()[i] == SeededAchievement(i + 1, now, defaults[i])
    {
      for i := 0 to |defaults|
        invariant Valid()
        invariant nextAchievementId == i + 1
        invariant forall j :: 0 <= j < i ==> GetAchievements()[j] == SeededAchievement(j + 1, now, defaults[j])
      {
        var achievement := SeededAchievement(nextAchievementId, now, defaults[i]);
        InOrderAppend(achievements, nextAchievementId, achievement);
        achievements := achievements[achievement.id := achievement];
        nextAchievementId := nextAchievementId + 1;
      }
    }

    /** `getUser(id)` */
    function GetUser(id: int): (r: Option<User>)
      reads this`users, this`nextUserId
      requires UsersValid()
      ensures r.Some? ==> r.value.id == id && r.value in UserList()
      ensures r.None? ==> forall u :: u in UserList() ==> u.id != id
    {
      if id in users then
        assert UserList()[id - 1] == users[id];
        Some(users[id])
      else None
    }

    /** `getUserByUsername(username)`: the first user, in insertion order, with that username. */
    method GetUserByUsername(username: string) returns (r: Option<User>)
      requires Valid()
      ensures r.Some? ==> r.value in UserList() && r.value.username == username
      ensures r.Some? ==> forall i :: 0 <= i < r.value.id - 1 ==> UserList()[i].username != username
      ensures r.None? ==> forall u :: u in UserList() ==> u.username != username
    {
      var list := UserList();
      var i := 0;
      while i < |list|
        invariant 0 <= i <= |list|
        invariant forall j :: 0 <= j < i ==> list[j].username != username
      {
        if list[i].username == username {
          assert list[i].id == i + 1;
          return Some(list[i]);
        }
        i := i + 1;
      }
      return None;
    }

    /** `createUser(data)`: the defaults of the users table plus the supplied fields. */
    method CreateUser(ins: InsertUser, now: Instant) returns (u: User)
      requires Valid()
      modifies this`users, this`nextUserId
      ensures Valid()
      ensures u == User(old(nextUserId), now, ins.username, ins.password, ins.name,
                        DefaultLevel, DefaultPoints, DefaultStreakDays, DefaultBestStreak, None)
      ensures users == old(users)[u.id := u] && nextUserId == old(nextUserId) + 1
      ensures UserList() == old(UserList()) + [u]
    {
      u := User(nextUserId, now, ins.username, ins.password, ins.name,
                DefaultLevel, DefaultPoints, DefaultStreakDays, DefaultBestStreak, None);
      InOrderAppend(users, nextUserId, u);
      users := users[u.id := u];
      nextUserId := nextUserId + 1;
    }

    /** `updateUserPoints(id, points)`: the balance becomes `points` (it is overwritten, not added to). */
    method UpdateUserPoints(id: int, points: int) returns (r: Result<User, StoreError>)
      requires Valid()
      modifies this`users
      ensures Valid()
      ensures r.Success? <==> id in old(users)
      ensures r.Success? ==> r.value == old(users)[id].(points := points) && users == old(users)[id := r.value]
      ensures r.Failure? ==> users == old(users)
    {
      if id !in users {
        return Failure(UserNotFound);
      }
      var user := users[id].(points := points);
      users := users[id := user];
      return Success(user);
    }

    /** `updateUserStreak(id)` for a login at `now`. */
    method UpdateUserStreak(id: int, now: Instant) returns (r: Result<User, StoreError>)
      requires Valid()
      modifies this`users
      ensures Valid()
      ensures r.Success? <==> id in old(users)
      ensures r.Success? ==> r.value == TouchLogin(old(users)[id], now) && users == old(users)[id := r.value]
      ensures r.Failure? ==> users == old(users)
    {
      if id !in users {
        return Failure(UserNotFound);
      }
      var user := users[id];
      var newStreak := NextStreak(user.streakDays, user.lastLogin, now.day);
      user := user.(streakDays := newStreak, bestStreak := Max(user.bestStreak, newStreak), lastLogin := Some(now));
      users := users[id := user];
      return Success(user);
    }

    /** `updateUserLastLogin(id)`: only the last-login time changes. */
    method UpdateUserLastLogin(id: int, now: Instant) returns (r: Result<User, StoreError>)
      requires Valid()
      modifies this`users
      ensures Valid()
      ensures r.Success? <==> id in old(users)
      ensures r.Success? ==> r.value == old(users)[id].(lastLogin := Some(now)) && users == old(users)[id := r.value]
      ensures r.Failure? ==> users == old(users)
    {
      if id !in users {
        return Failure(UserNotFound);
      }
      var user := users[id].(lastLogin := Some(now));
      users := users[id := user];
      return Success(user);
    }

    method CreateMood(ins: InsertMood, now: Instant) returns (m: Mood)
      requires Valid()
      modifies this`moods, this`nextMoodId
      ensures Valid()
      ensures m == Mood(old(nextMoodId), now, ins.userId, ins.mood, ins.note)
      ensures moods == old(moods)[m.id := m] && nextMoodId == old(nextMoodId) + 1
      ensures MoodList() == old(MoodList()) + [m]
    {
      m := Mood(nextMoodId, now, ins.userId, ins.mood, ins.note);
      InOrderAppend(moods, nextMoodId, m);
      moods := moods[m.id := m];
      nextMoodId := nextMoodId + 1;
    }

    /** `getMoodsByUserId(owner)`: exactly that user's moods, newest first. */
    function MoodsByUserId(owner: int): (r: seq<Mood>)
      reads this`moods, this`nextMoodId
      requires MoodsValid()
      ensures forall m :: m in r <==> m in MoodList() && m.userId == owner
      ensures multiset(r) == multiset(FilterBy(MoodList(), MoodOwner, owner))
      ensures Ordered(r, MoodTime, true)
    {
      SortBy(FilterBy(MoodList(), MoodOwner, owner), MoodTime, true)
    }

    /** `getWeeklyMoods(owner)`: that user's moods at or after `oneWeekAgo`, oldest first. */
    function WeeklyMoods(owner: int, oneWeekAgo: int): (r: seq<Mood>)
      reads this`moods, this`nextMoodId
      requires MoodsValid()
      ensures forall m :: m in r <==> m in MoodList() && m.userId == owner && m.timestamp.millis >= oneWeekAgo
      ensures multiset(r) == multiset(FilterFrom(FilterBy(MoodList(), MoodOwner, owner), MoodTime, oneWeekAgo))
      ensures Ordered(r, MoodTime, false)
    {
      SortBy(FilterFrom(FilterBy(MoodList(), MoodOwner, owner), MoodTime, oneWeekAgo), MoodTime, false)
    }

    /** `getActivity(id)` */
    function GetActivity(id: int): (r: Option<Activity>)
      reads this`activities, this`nextActivityId
      requires ActivitiesValid()
      ensures r.Some? ==> r.value.id == id && r.value in GetActivities()
      ensures r.None? ==> forall a :: a in GetActivities() ==> a.id != id
    {
      if id in activities then
        assert GetActivities()[id - 1] == activities[id];
        Some(activities[id])
      else None
    }

    method CreateActivity(ins: InsertActivity, now: Instant) returns (a: Activity)
      requires Valid()
      modifies this`activities, this`nextActivityId
      ensures Valid()
      ensures a == NewActivity(old(nextActivityId), now, ins)
      ensures activities == old(activities)[a.id := a] && nextActivityId == old(nextActivityId) + 1
      ensures GetActivities() == old(GetActivities()) + [a]
    {
      a := NewActivity(nextActivityId, now, ins);
      InOrderAppend(activities, nextActivityId, a);
      activities := activities[a.id := a];
      nextActivityId := nextActivityId + 1;
    }

    method CreateUserActivity(ins: InsertUserActivity, now: Instant) returns (ua: UserActivity)
      requires Valid()
      modifies this`userActivities, this`nextUserActivityId
      ensures Valid()
      ensures ua == UserActivity(old(nextUserActivityId), now, ins.userId, ins.activityId)
      ensures userActivities == old(userActivities)[ua.id := ua] && nextUserActivityId == old(nextUserActivityId) + 1
      ensures UserActivityList() == old(UserActivityList()) + [ua]
    {
      ua := UserActivity(nextUserActivityId, now, ins.userId, ins.activityId);
      InOrderAppend(userActivities, nextUserActivityId, ua);
      userActivities := userActivities[ua.id := ua];
      nextUserActivityId := nextUserActivityId + 1;
    }

    /** `getUserActivitiesByUserId(owner)`: exactly that user's completions, newest first. */
    function UserActivitiesByUserId(owner: int): (r: seq<UserActivity>)
      reads this`userActivities, this`nextUserActivityId
      requires UserActivitiesValid()
      ensures forall ua :: ua in r <==> ua in UserActivityList() && ua.userId == owner
      ensures multiset(r) == multiset(FilterBy(UserActivityList(), CompletionOwner, owner))
      ensures Ordered(r, CompletionTime, true)
    {
      SortBy(FilterBy(UserActivityList(), CompletionOwner, owner), CompletionTime, true)
    }

    /** How many completions of activity `activityId` user `owner` has recorded. */
    ghost function CompletionCount(owner: int, activityId: int): nat
      reads this`userActivities, this`nextUserActivityId
      requires UserActivitiesValid()
    {
      |FilterBy(FilterBy(UserActivityList(), CompletionOwner, owner), CompletionActivity, activityId)|
    }

    /** `getAchievement(id)` */
    function GetAchievement(id: int): (r: Option<Achievement>)
      reads this`achievements, this`nextAchievementId
      requires AchievementsValid()
      ensures r.Some? ==> r.value.id == id && r.value in GetAchievements()
      ensures r.None? ==> forall a :: a in GetAchievements() ==> a.id != id
    {
      if id in achievements then
        assert GetAchievements()[id - 1] == achievements[id];
        Some(achievements[id])
      else None
    }

    method CreateAchievement(ins: InsertAchievement, now: Instant) returns (a: Achievement)
      requires Valid()
      modifies this`achievements, this`nextAchievementId
      ensures Valid()
      ensures a == NewAchievement(old(nextAchievementId), now, ins)
      ensures achievements == old(achievements)[a.id := a] && nextAchievementId == old(nextAchievementId) + 1
      ensures GetAchievements() == old(GetAchievements()) + [a]
    {
      a := NewAchievement(nextAchievementId, now, ins);
      InOrderAppend(achievements, nextAchievementId, a);
      achievements := achievements[a.id := a];
      nextAchievementId := nextAchievementId + 1;
    }

    method CreateUserAchievement(ins: InsertUserAchievement, now: Instant) returns (ua: UserAchievement)
      requires Valid()
      modifies this`userAchievements, this`nextUserAchievementId
      ensures Valid()
      ensures ua == UserAchievement(old(nextUserAchievementId), now, ins.userId, ins.achievementId)
      ensures userAchievements == old(userAchievements)[ua.id := ua]
      ensures nextUserAchievementId == old(nextUserAchievementId) + 1
      ensures UserAchievementList() == old(UserAchievementList()) + [ua]
    {
      ua := UserAchievement(nextUserAchievementId, now, ins.userId, ins.achievementId);
      InOrderAppend(userAchievements, nextUserAchievementId, ua);
      userAchievements := userAchievements[ua.id := ua];
      nextUserAchievementId := nextUserAchievementId + 1;
    }

    /** `getUserAchievementsByUserId(owner)`: exactly that user's unlocks, newest first. */
    function UserAchievementsByUserId(owner: int): (r: seq<UserAchievement>)
      reads this`userAchievements, this`nextUserAchievementId
      requires UserAchievementsValid()
      ensures forall ua :: ua in r <==> ua in UserAchievementList() && ua.userId == owner
      ensures multiset(r) == multiset(FilterBy(UserAchievementList(), UnlockOwner, owner))
      ensures Ordered(r, UnlockTime, true)
    {
      SortBy(FilterBy(UserAchievementList(), UnlockOwner, owner), UnlockTime, true)
    }

    method CreateChatMessage(ins: InsertChatMessage, now: Instant) returns (c: ChatMessage)
      requires Valid()
      modifies this`chatMessages, this`nextChatMessageId
      ensures Valid()
      ensures c == ChatMessage(old(nextChatMessageId), now, ins.userId, ins.role, ins.content)
      ensures chatMessages == old(chatMessages)[c.id := c] && nextChatMessageId == old(nextChatMessageId) + 1
      ensures ChatMessageList() == old(ChatMessageList()) + [c]
    {
      c := ChatMessage(nextChatMessageId, now, ins.userId, ins.role, ins.content);
      InOrderAppend(chatMessages, nextChatMessageId, c);
      chatMessages := chatMessages[c.id := c];
      nextChatMessageId := nextChatMessageId + 1;
    }

    /** `getChatMessagesByUserId(owner)`: exactly that user's messages, oldest first. */
    function ChatMessagesByUserId(owner: int): (r: seq<ChatMessage>)
      reads this`chatMessages, this`nextChatMessageId
      requires ChatMessagesValid()
      ensures forall c :: c in r <==> c in ChatMessageList() && c.userId == owner
      ensures multiset(r) == multiset(FilterBy(ChatMessageList(), ChatOwner, owner))
      ensures Ordered(r, ChatTime, false)
    {
      SortBy(FilterBy(ChatMessageList(), ChatOwner, owner), ChatTime, false)
    }
  }
}
