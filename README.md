# MindWell in Dafny

MindWell is a mental-health companion web application. A user records moods, completes
wellness activities for points, unlocks achievements, talks to a chatbot, writes journal
entries and converts points into tokens through a mock Polygon wallet. This project models
its core and proves properties of the model:

- the in-memory store (`Storage.MemStorage`): seven id-keyed collections, their counters and the
  seeded catalogs;
- the request handlers over that store (`Routes`), above all the completion handler that
  records a completion, sets the user's points and unlocks achievements;
- the record shapes and validators of the shared schema (`Schema`, `AuthPage`);
- the client-side derivations: rewards (`Rewards`), the level and streak cards (`StreakCard`),
  the weekly mood chart (`MoodChart`), the progress charts (`Progress`), the activity card
  and its timer (`ActivityCard`, `ActivityTimer`), the mock wallet and the conversion panel
  (`Polygon`, `TokenConversionPanel`), the journal page (`Journal`) and the voice dialog
  (`VoiceModal`).

Objects whose fields the program updates in place are classes:
- the store;
- the wallet's module state;
- the conversion panel;
- the timer dialog;
- the voice dialog.

Pure derivations are functions, with lemmas about them. Clocks are parameters:
- an `Instant` carries `getTime()` milliseconds and a local calendar day number;
- "today", "a week ago" and the trend's thirty days are given as such numbers.

The chatbot relay is a parameter: `RelayOutcome` is either unreachable or a reply with
optional fields. Speech-recognition events and interval ticks are method calls.

Where the table declarations in `shared/schema.ts` and the store disagree, the model uses the store's shape:
- the last-login field is `lastLogin`, which may be absent (the table declares `lastLoginDate`);
- the unlock time is `unlockedAt` (the table declares `earnedAt`);
- records carry `createdAt`;
- seeded achievements have a colour scheme and no condition, although the table declares `condition` not-null.

The activity type is the column `type`. The model calls it `activityType`.

## Model

| member | source | states |
|---|---|---|
| Collections.FilterBy | server/storage.ts:257-261 | the filtered list holds exactly the input's elements whose key equals the value |
| Collections.FilterFrom | server/storage.ts:263-270 | the filtered list holds exactly the input's elements whose key is at least the bound |
| Collections.FilterByAppend | server/routes.ts:98-99 | filtering a concatenation is the concatenation of the filtered parts |
| Collections.FilterByMultiplicity | server/routes.ts:98-99 | an element passing the filter occurs in the filtered list as often as in the input; any other element never occurs |
| Collections.FilterByPermutation | server/routes.ts:98-99 | filtering two permutations of each other gives lists of the same elements and length; so the sorted history counts like the insertion-ordered one |
| Collections.Insert | server/storage.ts:260 | inserting into an ordered list keeps it ordered and adds exactly that element |
| Collections.SortBy | server/storage.ts:258-260 | the result is ordered newest first, or oldest first, by the key, and is a permutation of the input |
| Storage.InOrder | server/storage.ts:258 | listing a map whose keys 1 .. n-1 were inserted in order gives n-1 values, the i-th being the one under key i+1 |
| Storage.InOrderAppend | server/storage.ts:290-297 | storing a record under the next id appends it at the end of the listing |
| Storage.UniqueUsernamesAfterInsert | shared/schema.ts:7 | adding a user under a fresh id keeps usernames unique if and only if they were unique and the new name was not taken |
| Storage.TouchLoginWellFormed | server/storage.ts:214-236 | a login keeps 0 <= streak <= best streak and level 1, never lowers the best streak, and records the login time |
| Storage.NextStreak | server/storage.ts:218-229 | one more when the last login was yesterday, unchanged when it was today, 1 otherwise, including after no login; never more than one above a non-negative old streak, and never negative (0 stays 0 on a same-day login) |
| Storage.TouchLogin | server/storage.ts:214-236 | only the streak, the best streak and the login time change: the streak becomes `NextStreak` of the old one, the best streak the maximum of the old best and the new streak, the last login now |
| Storage.ConsecutiveLoginsExtendStreak | server/storage.ts:224-229 | logging in on each of k consecutive days after the last login adds exactly k to the streak |
| Storage.AfterLoginsBestIsMax | server/storage.ts:231-232 | after any series of logins the best streak is the largest of the old best streak and every streak reached along the way |
| Storage.AfterLoginsBestStreak | server/storage.ts:231-232 | over any series of logins the user stays well formed and the best streak never decreases |
| Storage.MemStorage.constructor | server/storage.ts:52-58 | the store starts with every collection empty except the six default activities and five default achievements, at ids 1.., in order, every counter past them |
| Storage.MemStorage.SeedActivities | server/storage.ts:118-125 | the seeding loop stores each default activity under ids 1, 2, ... in list order |
| Storage.MemStorage.SeedAchievements | server/storage.ts:167-174 | the seeding loop stores each default achievement, without a condition, under ids 1, 2, ... in list order |
| Storage.MemStorage.GetActivities | server/storage.ts:272-274 | the catalog has one entry per assigned id, the i-th with id i+1 |
| Storage.MemStorage.GetAchievements | server/storage.ts:306-308 | the catalog has one entry per assigned id, the i-th with id i+1 |
| Storage.MemStorage.GetUser | server/storage.ts:177-179 | a found user has the id asked for and is stored; none is returned only when no stored user has that id |
| Storage.MemStorage.GetUserByUsername | server/storage.ts:181-188 | the loop returns the first stored user, in insertion order, with that username, or none when no user has it |
| Storage.MemStorage.CreateUser | server/storage.ts:190-203 | the new user gets the next id, the column defaults (level 1, 0 points, streaks 0, no last login) and the submitted fields, and is appended to the users |
| Storage.MemStorage.UpdateUserPoints | server/storage.ts:205-212 | an unknown id fails with nothing changed; otherwise the balance is overwritten with the given value, nothing else changes |
| Storage.MemStorage.UpdateUserStreak | server/storage.ts:214-236 | an unknown id fails with nothing changed; otherwise the streak follows the yesterday/today/else rule, the best streak is the maximum, the last login is now |
| Storage.MemStorage.UpdateUserLastLogin | server/storage.ts:238-245 | an unknown id fails with nothing changed; otherwise only the last-login time changes |
| Storage.MemStorage.CreateMood | server/storage.ts:247-255 | the mood gets the next id and the current time and is appended |
| Storage.MemStorage.MoodsByUserId | server/storage.ts:257-261 | exactly the owner's moods, as a permutation of them, newest first |
| Storage.MemStorage.WeeklyMoods | server/storage.ts:263-270 | exactly the owner's moods from the cutoff on, as a permutation of them, oldest first |
| Storage.MemStorage.GetActivity | server/storage.ts:276-278 | a found activity has that id and is in the catalog; none only when no catalog entry has it |
| Storage.MemStorage.CreateActivity | server/storage.ts:280-288 | the activity gets the next id and is appended to the catalog |
| Storage.MemStorage.CreateUserActivity | server/storage.ts:290-298 | the completion gets the next id and the current time and is appended |
| Storage.MemStorage.UserActivitiesByUserId | server/storage.ts:300-304 | exactly the owner's completions, as a permutation of them, newest first |
| Storage.MemStorage.GetAchievement | server/storage.ts:310-312 | a found achievement has that id and is in the catalog; none only when no catalog entry has it |
| Storage.MemStorage.CreateAchievement | server/storage.ts:314-322 | the achievement gets the next id, keeps its condition, and is appended to the catalog |
| Storage.MemStorage.CreateUserAchievement | server/storage.ts:324-332 | the unlock gets the next id and the current time and is appended |
| Storage.MemStorage.UserAchievementsByUserId | server/storage.ts:334-338 | exactly the owner's unlocks, as a permutation of them, newest first |
| Storage.MemStorage.CreateChatMessage | server/storage.ts:340-348 | the message gets the next id and the current time and is appended |
| Storage.MemStorage.ChatMessagesByUserId | server/storage.ts:350-354 | exactly the owner's messages, as a permutation of them, oldest first |
| Routes.UnlocksSound | server/routes.ts:91-116 | every unlocked id names a catalog entry whose condition is met and which the user did not hold |
| Routes.Qualifies | server/routes.ts:98-116 | only a present condition with at least 5 completions can qualify; on each of the three condition strings the test is exactly its threshold: 5, 10 or 15 completions |
| Routes.Unlocks | server/routes.ts:91-116 | at most one unlock per catalog entry; which entries are unlocked is stated by `UnlocksSound` and `UnlocksComplete` |
| Routes.UnlocksComplete | server/routes.ts:91-116 | every catalog entry that is not held and whose condition is met is unlocked |
| Routes.UnlocksDistinct | server/routes.ts:91-95 | with distinct catalog ids, one request unlocks each achievement at most once |
| Routes.NoConditionNoUnlocks | server/routes.ts:98-116 | a catalog none of whose entries has a condition unlocks nothing |
| Routes.SeededCatalogUnlocksNothing | server/storage.ts:129-174 | against the seeded catalog, whose entries have no condition, no completion ever unlocks an achievement |
| Routes.UnlockRecords | server/storage.ts:324-332 | a run of unlock insertions appends one record per id, with consecutive record ids |
| Routes.AppendedUnlocksStayUnique | server/routes.ts:91-95 | appending distinct, not-held unlocks keeps every (user, achievement) pair unique |
| Routes.CountIncludesNewCompletion | server/routes.ts:76-85 | the count read after storing a completion is one more than before it |
| Routes.RecordUnlock | server/routes.ts:100-103 | one unlock insertion extends the appended records by that achievement |
| Routes.UnlockQualifying | server/routes.ts:91-117 | the catalog loop unlocks exactly the ids `Unlocks` computes and appends their records in catalog order |
| Routes.EvaluateAchievements | server/routes.ts:85-118 | the unlocks appended are those of the catalog against the user's unlocks and completion count, and no pair is duplicated |
| Routes.AwardCompletion | server/routes.ts:79-118 | for a known user the points become the activity's points and the qualifying unlocks are appended; an unknown user changes nothing |
| Routes.StoreCompletion | server/routes.ts:76 | the completion is appended and the (user, activity) count grows by one |
| Routes.AwardKnown | server/routes.ts:79-82 | for an activity in the catalog, the award uses that entry's points and type |
| Routes.RecordCompletion | server/routes.ts:70-127 | the completion is always stored; an unknown activity answers 201 with nothing else changed; an unknown user answers 500; otherwise 201 with points set and unlocks counted after the insertion |
| Routes.CompleteActivity | server/routes.ts:67-128 | anonymous: 401, store untouched; missing activity id: 400, store untouched; otherwise the completion is stored and the answer, points and unlocks are those `CompletionRecorded` states: 201 and nothing awarded for an unknown activity, 500 and nothing awarded for an unknown user, else 201, the activity's points and the qualifying unlocks; unlock pairs stay unique |
| Routes.UpdatePoints | server/routes.ts:249-276 | 401 anonymous; 400 for a non-number or non-positive amount; 400 when the balance is below it; otherwise the balance is overwritten with minus the amount; any failure leaves the users unchanged |
| Routes.ReplyContent | server/routes.ts:209-226 | the reply is the relay's non-empty `response`, else its non-empty `message`, else the default text; the fallback text when the relay failed; never empty |
| Routes.Chat | server/routes.ts:175-235 | 401 anonymous; 400 for a missing or empty message, store untouched; otherwise the user's message, stamped when the request is handled, and exactly one assistant reply, stamped no earlier once the relay has answered, are appended, and the reply is answered |
| Routes.PostMood | server/routes.ts:16-33 | 401 anonymous; 400 without a mood string; otherwise a mood owned by the session's user is appended and answered with 201 |
| Routes.ListMoods | server/routes.ts:35-44 | 401 exactly for an anonymous session; otherwise exactly the user's moods, each as often as stored, newest first |
| Routes.ListWeeklyMoods | server/routes.ts:46-55 | 401 exactly for an anonymous session; otherwise exactly the user's moods since the cutoff, each as often as stored, oldest first |
| Routes.ListUserActivities | server/routes.ts:130-139 | 401 exactly for an anonymous session; otherwise exactly the user's completions, each as often as stored, newest first |
| Routes.ChatHistory | server/routes.ts:237-246 | 401 exactly for an anonymous session; otherwise exactly the user's messages, each as often as stored, oldest first |
| Routes.WithDetails | server/routes.ts:157-166 | each record is kept in order and joined with the catalog lookup of its id: the entry with that id, or nothing when no entry has it |
| Routes.ListUserAchievements | server/routes.ts:151-172 | 401 exactly for an anonymous session; otherwise the user's unlocks, newest first, the i-th entry holding the i-th unlock and the catalog entry of its achievement |
| AuthPage.LoginFormErrors | client/src/pages/auth-page.tsx:31-34 | no issue exactly when the login is valid; each length message appears exactly when its rule fails |
| AuthPage.RegisterFormErrors | client/src/pages/auth-page.tsx:36-44 | no issue exactly when every length rule holds and the passwords match; the mismatch message appears exactly when they differ, also alongside length issues |
| AuthPage.RegisterPayload | client/src/pages/auth-page.tsx:75-79 | the payload carries the form's username, password and name, without the confirmation |
| AuthPage.RegisteredCredentialsPassLogin | client/src/pages/auth-page.tsx:31-44 | credentials accepted by the registration form are also accepted by the login form |
| AuthPage.MismatchAloneRefuses | client/src/pages/auth-page.tsx:41-44 | when every length rule holds, a mismatched confirmation yields exactly the mismatch message |
| AuthPage.View | client/src/pages/auth-page.tsx:82-85 | a signed-in user is redirected to the dashboard; the forms show exactly when nobody is signed in |
| Rewards.CurrentLevelPoints | client/src/pages/rewards-page.tsx:65-66 | every level spans exactly 100 points |
| Rewards.NextLevelPoints | client/src/pages/rewards-page.tsx:65 | a multiple of 100, at least 100 from level 1 on |
| Rewards.StreakBonus | client/src/pages/rewards-page.tsx:146 | twice the streak up to 10 days, exactly 20 from 10 days on, so never above 20 or twice the streak; never negative |
| Rewards.LevelBonus | client/src/pages/rewards-page.tsx:150 | no bonus exactly at level 1; a multiple of 5, non-negative from level 1 |
| Rewards.LevelBonusStep | client/src/pages/rewards-page.tsx:150 | each level adds exactly 5 to the bonus, which with level 1 at 0 fixes every level's bonus |
| Rewards.LevelTitle | client/src/pages/rewards-page.tsx:137-139 | each of the four titles is shown exactly on its level band |
| Rewards.TotalBonus | client/src/pages/rewards-page.tsx:154 | non-negative for a level from 1 and a non-negative streak; at level 1 just the streak bonus, at most 20 |
| Rewards.StoredUserBonus | client/src/pages/rewards-page.tsx:154 | a user kept by the store is a Beginner with no level bonus, so the total bonus is the streak bonus, between 0 and 20 |
| Rewards.EarnedIds | client/src/pages/rewards-page.tsx:79 | the set holds exactly the achievement ids of the earned records |
| Rewards.UnearnedFrom | client/src/pages/rewards-page.tsx:80 | exactly the catalog entries whose id is not earned, never more than the catalog; catalog order is stated by `UnearnedFromAppend` |
| Rewards.UnearnedFromAppend | client/src/pages/rewards-page.tsx:80 | the filter keeps catalog order: filtering two parts one after the other gives the filter of the whole |
| Rewards.EarnedFrom | client/src/pages/rewards-page.tsx:78-80 | exactly the catalog entries whose id is earned |
| Rewards.PartitionSizes | client/src/pages/rewards-page.tsx:78-80 | earned and unearned entries split the catalog: their multisets add up to it |
| Rewards.Unearned | client/src/pages/rewards-page.tsx:80 | nothing before the catalog loads; then exactly the catalog entries the user has not earned |
| Rewards.CardColour | client/src/pages/rewards-page.tsx:201 | primary, secondary and accent exactly at positions 0, 1 and 2 mod 3 |
| Rewards.NeighbourColoursDiffer | client/src/pages/rewards-page.tsx:83 | neighbouring cards never share a colour |
| Rewards.OrElse | client/src/pages/rewards-page.tsx:197-199 | a present non-empty value is returned as itself; a missing or empty one gives the fallback |
| Rewards.EarnedCard | client/src/pages/rewards-page.tsx:194-203 | a present achievement's name and icon (placeholders only where empty), its description and bonus points, coloured by position; the placeholder card when the achievement is gone |
| Rewards.EarnedCards | client/src/pages/rewards-page.tsx:194-203 | one card per earned record, in order, the i-th being `EarnedCard` of the i-th record: its achievement's name, description and bonus points, or the placeholder card when the achievement is gone |
| Rewards.WalletCaptionAgainstFormatter | client/src/pages/rewards-page.tsx:172 | the page's own shortening agrees with the wallet formatter from 10 characters on and is longer than the address below that |
| Rewards.WalletCaption | client/src/pages/rewards-page.tsx:172 | from 10 characters on: the first six characters, "...", then the last four |
| Polygon.MockWallet.constructor | client/src/lib/polygon.ts:7-10 | not connected, no address, balance 0 |
| Polygon.MockWallet.InitializePolygon | client/src/lib/polygon.ts:13-31 | succeeds and connects exactly for a key of 10 or more characters; otherwise the flag is left alone |
| Polygon.MockWallet.ConvertPointsToTokens | client/src/lib/polygon.ts:34-76 | not connected or under 100 points: the matching error and the balance unchanged; otherwise the balance grows by points / 100; the balance changes exactly on success |
| Polygon.MockWallet.GetTokenBalance | client/src/lib/polygon.ts:79-88 | answers the balance and leaves the queried address as the connected one |
| Polygon.MockWallet.CheckPolygonConnection | client/src/lib/polygon.ts:91-93 | answers the connection flag |
| Polygon.FormatWalletAddress | client/src/lib/polygon.ts:96-99 | an address under 10 characters is shown unchanged; a longer one as its first 6, "...", its last 4, 13 characters in all |
| TokenConversionPanel.ParsePointsInput | client/src/components/rewards/token-conversion.tsx:135 | the parsed integer, or 0 when the text does not read as one |
| TokenConversionPanel.InputRoundTrip | client/src/components/rewards/token-conversion.tsx:134-135 | typing the decimal form of a number reads back as that number |
| TokenConversionPanel.NonNumericInputIsZero | client/src/components/rewards/token-conversion.tsx:135 | text without digits, the empty field included, reads as 0 |
| TokenConversionPanel.TokenConversion.constructor | client/src/components/rewards/token-conversion.tsx:20-23 | not loading, no balance, amount 0, balance loading, nothing converted or shown |
| TokenConversionPanel.TokenConversion.SetPointsInput | client/src/components/rewards/token-conversion.tsx:135 | the amount becomes the parsed field |
| TokenConversionPanel.TokenConversion.LoadTokenBalance | client/src/components/rewards/token-conversion.tsx:33-48 | the panel shows the wallet's balance, the wallet remembers the panel's address, loading ends |
| TokenConversionPanel.TokenConversion.HandleConvert | client/src/components/rewards/token-conversion.tsx:50-99 | a non-positive or too large amount: an error toast and the wallet untouched; a wallet error: that toast, the wallet, the balance and its loading flag unchanged; success: the parent told the amount, the balance reloaded, the field reset, a success toast |
| Journal.IndexOf | client/src/pages/journal-page.tsx:76 | -1 exactly for a missing prompt; otherwise the first position of it |
| Journal.PromptsDistinct | client/src/pages/journal-page.tsx:16-23 | no prompt is listed twice |
| Journal.NextPrompt | client/src/pages/journal-page.tsx:75-79 | the next prompt is always a listed one; an unlisted current prompt is followed by the first |
| Journal.Rotate | client/src/pages/journal-page.tsx:75-79 | no presses keep the prompt; one or more presses show a listed prompt |
| Journal.RotateSteps | client/src/pages/journal-page.tsx:75-79 | k presses from position i show the prompt k steps round the list |
| Journal.FullCircle | client/src/pages/journal-page.tsx:75-79 | as many presses as there are prompts bring back the starting prompt |
| Journal.PromptSuccessor | client/src/pages/journal-page.tsx:75-79 | on the page's list the prompt after position i is the one at (i + 1) mod 6 |
| Journal.UnlistedPromptRestarts | client/src/pages/journal-page.tsx:76-77 | a prompt not in the list, such as the empty string, is followed by the first |
| Journal.PromptsFullCircle | client/src/pages/journal-page.tsx:29 | six presses from any prompt, the initial one included, come back to it |
| Journal.SaveJournal | client/src/pages/journal-page.tsx:81-92 | an entry is refused exactly when it is all white space; otherwise it is sent as "Journal entry: " plus the entry |
| Journal.SavedEntryPassesChatGuard | client/src/pages/journal-page.tsx:34-36 | a sent entry is never empty, so the chat route never refuses it as missing |
| Journal.OnSaveSuccess | client/src/pages/journal-page.tsx:39-50 | after a save the entry is cleared and the page completes a seeded activity of type "journal"; that it is the only one is `JournalActivityIsSeeded` |
| Journal.JournalActivityIsSeeded | client/src/pages/journal-page.tsx:43 | activity 3 of the seeded catalog is its only journaling activity |
| ActivityCard.StartActivity | client/src/components/activities/activity-card.tsx:111-122 | journal activities go to the journal page; others open the timer exactly for a positive duration, else post a completion of their own id |
| ActivityCard.TimerComplete | client/src/components/activities/activity-card.tsx:125-127 | the timer's end always posts this activity's completion, the one the start button posts for a zero duration |
| ActivityCard.JournalNeverCompletesFromCard | client/src/components/activities/activity-card.tsx:112-114 | a journal activity never posts a completion from the card |
| ActivityCard.TimerOpensOnlyWhenRendered | client/src/components/activities/activity-card.tsx:163 | the start button opens the timer exactly for the non-journal activities the card renders a timer for |
| ActivityCard.SeededDispatch | client/src/components/activities/activity-card.tsx:111-122 | on the seeded catalog the third activity opens the journal and every other opens the timer |
| ActivityTimer.FormatTime | client/src/components/activities/activity-timer.tsx:29-33 | minutes, a colon, then the two-digit seconds field; that the rendering reads back as the count is `FormatTimeReadsBack` |
| ActivityTimer.SecondsFieldReadsBack | client/src/components/activities/activity-timer.tsx:31-32 | the seconds field is two digits that read back as the seconds |
| ActivityTimer.FormatTimeReadsBack | client/src/components/activities/activity-timer.tsx:29-33 | the rendering reads back: minutes * 60 + seconds after the colon gives the count |
| ActivityTimer.Timer.constructor | client/src/components/activities/activity-timer.tsx:18-22 | the countdown starts full, not paused, completed or started |
| ActivityTimer.Timer.Open | client/src/components/activities/activity-timer.tsx:65-72 | reopening resets the countdown to full and clears pause, completion and start |
| ActivityTimer.Timer.Close | client/src/components/activities/activity-card.tsx:167 | the dialog is closed; the countdown state is kept until it reopens |
| ActivityTimer.Timer.Start | client/src/components/activities/activity-timer.tsx:113 | the countdown is started |
| ActivityTimer.Timer.TogglePause | client/src/components/activities/activity-timer.tsx:134 | the pause flag flips |
| ActivityTimer.Timer.HandleComplete | client/src/components/activities/activity-timer.tsx:36-43 | completed, and the completion callback called once more |
| ActivityTimer.Timer.CompleteOffered | client/src/components/activities/activity-timer.tsx:131-150 | the Complete button is shown only while the countdown is started and not completed, and never for a breathing activity |
| ActivityTimer.Timer.PressComplete | client/src/components/activities/activity-timer.tsx:141-150 | pressing the shown Complete button completes the activity and calls the callback once more; the activity is not a breathing one |
| ActivityTimer.Timer.Dispatch | client/src/components/activities/activity-timer.tsx:36-150 | any dialog event: the callback is called at most once per event, only by a tick from 1 second or less or by the shown Complete button; a breathing activity completes only when its countdown runs out; once completed nothing but reopening changes it; a button not shown changes nothing |
| ActivityTimer.Timer.Tick | client/src/components/activities/activity-timer.tsx:46-62 | nothing unless open, unpaused and not completed; from 1 second or less: 0, completed, callback once; otherwise one second less |
| ActivityTimer.Timer.RunToEnd | client/src/components/activities/activity-timer.tsx:49-58 | a running countdown completes after exactly as many ticks as seconds left, calling the callback once |
| VoiceModal.JoinedEmpty | client/src/components/chat/voice-modal.tsx:46-53 | a concatenation is empty exactly when every text taken is empty |
| VoiceModal.AssembledEmpty | client/src/components/chat/voice-modal.tsx:42-56 | the transcript is empty exactly when every pending result's text is empty |
| VoiceModal.Assembled | client/src/components/chat/voice-modal.tsx:42-56 | the final texts of the pending results, or their interim texts; the final texts whenever those are not empty |
| VoiceModal.FinalTextWins | client/src/components/chat/voice-modal.tsx:55 | once a pending final result has text, interim results no longer show |
| VoiceModal.VoiceDialog.constructor | client/src/components/chat/voice-modal.tsx:14-15 | closed, empty transcript, not recording, no toasts |
| VoiceModal.VoiceDialog.Open | client/src/components/chat/voice-modal.tsx:28-81 | without speech recognition a toast is shown and closing requested, exactly then |
| VoiceModal.VoiceDialog.Close | client/src/components/chat/voice-modal.tsx:18-26 | closing clears the transcript and stops recording |
| VoiceModal.VoiceDialog.OnStart | client/src/components/chat/voice-modal.tsx:38-40 | recording |
| VoiceModal.VoiceDialog.OnEnd | client/src/components/chat/voice-modal.tsx:68-70 | not recording |
| VoiceModal.VoiceDialog.OnError | client/src/components/chat/voice-modal.tsx:58-66 | an error toast naming the error, and recording stops |
| VoiceModal.VoiceDialog.OnResult | client/src/components/chat/voice-modal.tsx:42-56 | the transcript becomes the final texts of the pending results, or their interim texts when those are empty |
| VoiceModal.VoiceDialog.SendEnabledIffSpoken | client/src/components/chat/voice-modal.tsx:170 | send is enabled exactly when the transcript is not all white space |
| VoiceModal.VoiceDialog.Submit | client/src/components/chat/voice-modal.tsx:106-111 | hands over the current transcript |
| Progress.MoodScore | client/src/pages/progress-page.tsx:13-19 | a score from 1 to 5; 3 for unknown moods; 5 exactly for happy, 1 exactly for anxious |
| Progress.ScoreTotal | client/src/pages/progress-page.tsx:73 | the sum lies between the number of moods and five times it |
| Progress.TrendPoint | client/src/pages/progress-page.tsx:57-79 | no score exactly on a day without moods; otherwise the day's total score divided by its number of moods, between 1 and 5 |
| Progress.Mean | client/src/pages/progress-page.tsx:73 | the quotient, taken `count` times, makes up the total; between 1 and 5 when the total lies between the count and five times it |
| Progress.MoodTrend | client/src/pages/progress-page.tsx:51-80 | nothing before the moods load; then 31 points, oldest first, the i-th being `TrendPoint` of the day 30 - i days ago: empty exactly on the days without moods, each score between 1 and 5 |
| Progress.Dedup | client/src/pages/progress-page.tsx:99 | the distinct keys, none twice |
| Progress.TalliedKeys | client/src/pages/progress-page.tsx:93-97 | one bar per distinct key, no key twice, each counting how often its key occurs |
| Progress.TalliedTotal | client/src/pages/progress-page.tsx:93-97 | the counts add up to the number of keys |
| Progress.Tally | client/src/pages/progress-page.tsx:94-97 | the loop sets exactly the keys seen, in first-seen order, each to its number of occurrences |
| Progress.Bars | client/src/pages/progress-page.tsx:99-102 | the table's entries read off in key order are the tally's bars |
| Progress.MoodDisplay | client/src/pages/progress-page.tsx:22-28 | unknown moods are shown as they are; the label is empty only for the empty mood |
| Progress.MoodNames | client/src/pages/progress-page.tsx:110 | the moods' names, in order |
| Progress.MoodDistribution | client/src/pages/progress-page.tsx:106-118 | one bar per tallied mood, in tally order, with its label and its count; that the counts add up is `MoodDistributionTotal` |
| Progress.MoodDistributionTotal | client/src/pages/progress-page.tsx:106-118 | the distribution counts every mood once |
| Progress.PrepareMoodDistribution | client/src/pages/progress-page.tsx:106-118 | nothing before the moods load; then the distribution, which counts every mood once |
| Progress.TypeTableDomain | client/src/pages/progress-page.tsx:87-90 | the type table knows exactly the catalog's ids |
| Progress.TypeTableLastWins | client/src/pages/progress-page.tsx:87-90 | an id maps to the type of the last entry listed with it |
| Progress.TypeTable | client/src/pages/progress-page.tsx:87-90 | every catalog id is a key; the last entry's id maps to its type |
| Progress.TypeKey | client/src/pages/progress-page.tsx:95 | the known non-empty type, else "unknown"; never empty |
| Progress.ActivityKeys | client/src/pages/progress-page.tsx:94-95 | one type key per completion, in order |
| Progress.ActivityData | client/src/pages/progress-page.tsx:83-103 | one bar per tallied type key, in tally order, capitalised, with its count; that the counts add up is `ActivityDataTotal` |
| Progress.ActivityDataTotal | client/src/pages/progress-page.tsx:83-103 | every completion is counted once, under its type or under "unknown" |
| Progress.PrepareActivityData | client/src/pages/progress-page.tsx:83-103 | nothing until both lists load; then the activity bars, which count every completion once |
| StreakCard.NextMilestone | client/src/components/dashboard/streak-card.tsx:11 | one more than a positive best streak, else 7; always above the best streak |
| StreakCard.BarWidth | client/src/components/dashboard/streak-card.tsx:12-13 | at most 100, exactly 100 when the streak reaches the milestone, never negative for a non-negative streak |
| StreakCard.Message | client/src/components/dashboard/streak-card.tsx:36-42 | the countdown exactly below the milestone, with the days remaining; the other captions only on their conditions |
| StreakCard.MessageText | client/src/components/dashboard/streak-card.tsx:36-42 | the countdown caption starts with the remaining days, which read back as that number, and ends in " days"; the other captions end in "!" |
| StreakCard.OnlyCountdownOrNewBest | client/src/components/dashboard/streak-card.tsx:36-42 | "You've reached your best streak!" and "Start your streak today!" are never chosen |
| StreakCard.StoredUserSeesCountdown | client/src/components/dashboard/streak-card.tsx:11-37 | for a user as the store keeps them the card always counts down and the bar is never full |
| MoodChart.Weekday | client/src/components/dashboard/mood-chart.tsx:37 | a weekday from 0 to 6 |
| MoodChart.MoodValue | client/src/components/dashboard/mood-chart.tsx:10-16 | a height from 30 to 90; 50 for unknown moods |
| MoodChart.MoodColor | client/src/components/dashboard/mood-chart.tsx:19-25 | bg-primary-300 for unknown moods |
| MoodChart.SlotFor | client/src/components/dashboard/mood-chart.tsx:39-64 | the slot has a mood exactly when some mood falls on its weekday; an empty slot is 0 and grey |
| MoodChart.DayMoods | client/src/components/dashboard/mood-chart.tsx:40-42 | exactly the moods whose timestamp falls on the given weekday |
| MoodChart.SlotShowsLatest | client/src/components/dashboard/mood-chart.tsx:54-57 | a filled slot shows the value and colour of a mood of its weekday that no other mood of that weekday postdates |
| MoodChart.GroupedByDay | client/src/components/dashboard/mood-chart.tsx:33-66 | nothing before the moods load; then 7 slots labelled Sun..Sat in that order, slot i filled exactly when a mood falls on the weekday 6 - i days before today |
| MoodChart.LabelsMatchOnlyOnSaturday | client/src/components/dashboard/mood-chart.tsx:33-37 | a slot's label names the weekday whose moods it shows exactly when today is a Saturday |
| MoodChart.ThursdayMoodUnderSaturday | client/src/components/dashboard/mood-chart.tsx:33-37 | on Thursday 1 January 1970 that day's mood is shown in the column labelled "Sat" |
| MoodChart.GroupedByDayLabelled | client/src/components/dashboard/mood-chart.tsx:33-37 | the same slots, each labelled with the weekday whose moods it shows, the last with today's |
| MoodChart.SameSlotsDifferentLabels | client/src/components/dashboard/mood-chart.tsx:33-66 | both versions show the same data in the same columns; only the labels differ |
| Text.TrimStart | client/src/components/chat/voice-modal.tsx:170 | a suffix of the input starting with a non-space, after only white space |
| Text.TrimEnd | client/src/components/chat/voice-modal.tsx:170 | a prefix of the input ending with a non-space, before only white space |
| Text.Trim | client/src/components/chat/voice-modal.tsx:170 | never longer than the input; empty or starting and ending with a non-space |
| Text.TrimEmptyIffAllSpace | client/src/pages/journal-page.tsx:82 | a string trims to nothing exactly when it is all white space |
| Text.DecimalString | client/src/components/activities/activity-timer.tsx:32 | at least one digit, no leading zero except for 0 itself |
| Text.ParseIntOfDecimal | client/src/components/rewards/token-conversion.tsx:135 | parsing the decimal form of a number gives that number |
| Text.ParseIntOfDigits | client/src/components/rewards/token-conversion.tsx:135 | parsing a string of digits gives its value |
| Text.ParseInt | client/src/components/rewards/token-conversion.tsx:135 | a number only when what follows the leading white space and at most one sign reads as a magnitude; a negative number only after a minus sign |
| Text.ParseIntOfDecimalThen | client/src/components/rewards/token-conversion.tsx:135 | a number's decimal form followed by nothing, or by a character that is neither a digit nor 'x' or 'X', reads back as that number ('x' would make "0x…" read as hexadecimal) |
| Text.Substring | client/src/lib/polygon.ts:98 | the characters between the two ends, taken in either order, once clamped to the string; never longer than it |
| Text.SubstringSwap | client/src/lib/polygon.ts:98 | swapping the ends gives the same substring |
| Text.Capitalize | client/src/pages/progress-page.tsx:100 | the same length, the first character uppercased and the rest unchanged |

## Left out

- Floating point: token balances, averages and bar widths are exact `real`s, not 64-bit floats.
- Integer width: points and counts are unbounded integers; numbers too large for a double, from `parseInt` or elsewhere, are not modelled.
- String lengths are counted in characters, not UTF-16 code units.
- `Text.Capitalize`: only ASCII letters are uppercased.
- Calendar arithmetic, time zones and daylight saving are not modelled. Today's day number, the weekly cutoff and the trend's days are parameters.
- The server stamps each record it creates with its own `new Date()`. The model gives `Routes.Chat`'s reply its own instant, no earlier than the user's message; the other handlers pass one `Instant` to every record a request creates (a completion and the unlocks it triggers), so those records share a timestamp, and since `Collections.SortBy` does not state the order of equal keys, their relative order in a sorted listing is not stated either.
- `Collections.SortBy`: the model sorts stably, but its contract does not state the order of equal keys.
- Aliasing is not modelled. The store hands out the same user object it keeps, and the model returns values.
- Asynchrony is not modelled: interleaved requests, promise ordering, timers, React's batching of state updates, and effects re-running.
- The activity timer's progress percentage, its toasts and its auto-close timeout are not modelled.
- `ActivityTimer.Timer.Tick`: the timer runs whenever the dialog is open, unpaused and not completed, even before Start is pressed. The model keeps that.
- The mock transaction hash is not modelled. It is random.
- The wallet's `catch` branches are not modelled; no operation of the mock can throw.
- The balance-load error toast is not modelled.
- `server/auth.ts` is not part of this model: registration, login, logout, password hashing and the session store.
- Sessions: a session is anonymous or carries a user id.
- `Routes.UpdatePoints`: `pointsSpent` is modelled as an integer. The handler accepts any positive number, fractions included; fractional amounts are not modelled.
- `Routes.UpdatePoints` reads the balance from the store, where the handler reads the session's copy of the user. The two differ only for a session whose user is missing from the store: the model answers 500 at once, while the handler may first answer 400 for a short balance.
- The chat history sent to the chatbot relay is not modelled. The relay is an oracle outcome.
- The relay's reply is not type-checked in the model: non-string `response` or `message` fields are not modelled.
- `Routes.Chat`: only string messages are modelled. JavaScript truthiness of non-string bodies is left out.
- Zod issue lists are not modelled; they become `ValidationIssues`.
- Zod type errors are left out: wrong field types are modelled only as a missing field.
- The catch-all 500 answers of the read routes are not modelled; the in-memory store cannot fail there.
- The public GET routes for activities and achievements are not modelled beyond the store getters they return.
- `Progress` bars: the order of JavaScript's `Object.entries` for integer-like keys is not modelled; the model lists keys in first-insertion order.
- `Progress` tables and the `MoodChart.MoodValue` / `MoodChart.MoodColor` lookups: inherited prototype keys such as "constructor" are not modelled; the model gives such a mood the unknown-mood value and colour, where the page would read the inherited member.
- The trend's date labels (`MMM dd`) are not modelled.
- The level progress percentage on the rewards page is not modelled.
- The `formattedAchievements` list is not modelled. Nothing on the page renders it.
- `MoodChart.GroupedByDay`: a mood from exactly seven days ago passes the weekly cutoff, yet falls in today's weekday slot. The model keeps that, because the cutoff is a parameter.
- The Web Speech API object is not modelled. Its events are method calls.
- In the voice dialog, the setup `catch` path and the stopping of the recogniser are not modelled.
- `TokenConversionPanel.TokenConversion.ConvertEnabled` and `VoiceModal.VoiceDialog.SendEnabled` are predicates. Their meaning is stated by the handler's contract and by `SendEnabledIffSpoken`.

## Findings

| source | as written | input that shows it | evidently intended | confidence | as-written member | corrected member |
|---|---|---|---|---|---|---|
| client/src/components/dashboard/mood-chart.tsx:33-37 | slot `index` is labelled `weekDays[index]`, while its data are the moods of the day `6 - index` days before today | today is Thursday 1 January 1970 (day 0) with one mood that day: it is drawn in the column labelled "Sat" | label each slot with `weekDays[dayNumber]`, the weekday whose moods it shows | medium, not executed | MoodChart.GroupedByDay, MoodChart.ThursdayMoodUnderSaturday | MoodChart.GroupedByDayLabelled |
