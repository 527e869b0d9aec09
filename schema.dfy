/**
 * Record shapes of the seven tables, the shapes clients may submit for insertion,
 * and the login predicate.
 *
 * Where the table declarations and the in-memory store disagree, the store's shape
 * is used: the user's last-login field is `lastLogin` (declared `lastLoginDate`) and
 * it may be absent; an unlock record's time is `unlockedAt` (declared `earnedAt`);
 * users, activities and achievements also carry the `createdAt` the store adds; an
 * achievement's `condition` may be absent and it may carry a `colorScheme`, as the
 * seeded ones do.
 */
module Schema {
  import opened Wrappers

  /** A clock reading: `millis` is `getTime()`, `day` numbers the local calendar day (`toDateString()`). */
  datatype Instant = Instant(millis: int, day: int)

  /** Column defaults of the users table. */
  const DefaultLevel := 1
  const DefaultPoints := 0
  const DefaultStreakDays := 0
  const DefaultBestStreak := 0

  datatype User = User(
    id: int, createdAt: Instant,
    username: string, password: string, name: string,
    level: int, points: int, streakDays: int, bestStreak: int,
    lastLogin: Option<Instant>)

  /** What registration may supply: id, level, points, streakDays, bestStreak and lastLogin are omitted. */
  datatype InsertUser = InsertUser(username: string, password: string, name: string)

  datatype Mood = Mood(id: int, timestamp: Instant, userId: int, mood: string, note: Option<string>)

  /** id and timestamp are omitted. */
  datatype InsertMood = InsertMood(userId: int, mood: string, note: Option<string>)

  datatype Activity = Activity(
    id: int, createdAt: Instant,
    name: string, description: string, activityType: string,
    points: int, icon: string, colorScheme: string, duration: int)

  /** id is omitted. */
  datatype InsertActivity = InsertActivity(
    name: string, description: string, activityType: string,
    points: int, icon: string, colorScheme: string, duration: int)

  datatype UserActivity = UserActivity(id: int, completedAt: Instant, userId: int, activityId: int)

  /** id and completedAt are omitted. */
  datatype InsertUserActivity = InsertUserActivity(userId: int, activityId: int)

  datatype Achievement = Achievement(
    id: int, createdAt: Instant,
    name: string, description: string, icon: string, bonusPoints: int,
    colorScheme: Option<string>, condition: Option<string>)

  /** id is omitted; the table declares `condition` not-null, so an inserted achievement has one. */
  datatype InsertAchievement = InsertAchievement(
    name: string, description: string, icon: string, bonusPoints: int, condition: string)

  datatype UserAchievement = UserAchievement(id: int, unlockedAt: Instant, userId: int, achievementId: int)

  /** id and unlockedAt are omitted. */
  datatype InsertUserAchievement = InsertUserAchievement(userId: int, achievementId: int)

  const RoleUser := "user"
  const RoleAssistant := "assistant"

  datatype ChatMessage = ChatMessage(id: int, timestamp: Instant, userId: int, role: string, content: string)

  /** id and timestamp are omitted. */
  datatype InsertChatMessage = InsertChatMessage(userId: int, role: string, content: string)

  /** An unlock record joined with its catalog entry, which may be missing. */
  datatype UserAchievementWithDetails = UserAchievementWithDetails(record: UserAchievement, achievement: Option<Achievement>)

  datatype LoginData = LoginData(username: string, password: string)

  /** `loginSchema`: username of at least 3 characters, password of at least 6. */
  predicate ValidLogin(d: LoginData) {
    |d.username| >= 3 && |d.password| >= 6
  }

  /** What the achievements table demands of a row: a (non-null) condition. */
  predicate ConformsToTable(a: Achievement) {
    a.condition.Some?
  }
}
