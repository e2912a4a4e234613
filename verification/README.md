# Wing Chun training companion: game logic in Dafny

This project models the game logic of a single-page Wing Chun training
application. One user profile lives in memory. User actions change it:
saving the profile form, importing a profile file, finishing or cancelling a
timed exercise, regenerating stamina, the daily challenge, saving a custom
plan, entering a belt promotion code, visiting a section, choosing a theme.
After each change the profile is written to local storage. The model also
covers the gating rules the views compute from the profile: unlocked belts,
the belt row that offers the promotion test, avatars that can be chosen,
"new" badges and the colour theme.

Modules, one per concern:

- `Base` (`base.dfy`): `Option` and `Result`.
- `Text` (`text.dfy`): `trim`, ASCII `toUpperCase`, decimal rendering of integers.
- `Rounding` (`rounding.dfy`): `Math.round` of an integer quotient; elapsed seconds and prorated XP.
- `StudentId` (`student_id.dfy`): the `WC-<base 36 time>` student identifier.
- `Catalog` (`catalog.dfy`): training items, belts, avatars, themes, and lookups over them.
- `Ledger` (`ledger.dfy`): the XP-per-day history and the per-exercise statistics with their aggregates.
- `Stamina` (`stamina.dfy`): stamina regeneration.
- `Daily` (`daily.dfy`): the daily challenge rollover and the streak rule.
- `Promotion` (`promotion.dfy`): the promotion code format and its comparison.
- `Plans` (`plans.dfy`): custom-plan validation and plan-card totals.
- `Profiles` (`profile.dfy`): the profile record, integrity repair, form and import rules, and the `Profile` class updated in place.
- `Gating` (`gating.dfy`): the view-side gating predicates.
- `AppState` (`app.dfy`): the `App` class. It holds the profile, storage, running timers, the active section, the selected avatar and the onboarding walkthrough.

The profile is a class whose methods update its fields in place. Each method
states the complete new record through `Snapshot()`. The record-level
transitions are pure functions: `GainXp`, `WithDuration`, `Repair`,
`Rollover`, `Regenerate`. Lemmas state their properties. Storage is the
field `App.stored`. A save writes the document `Embed(user.Snapshot())`, and
a load repairs what storage holds.

Behaviour of the code that the model keeps:

- A promotion sets the level to whatever level the accepted code was issued for. It can therefore lower the level or re-grant the current one; nothing forces it forward.
- The streak is never increased. No code shown marks a daily challenge completed. The streak only resets to 0 when yesterday's challenge was left undone (`RolloverNeverRaisesStreak`).
- A stored maximum stamina of 0 is replaced by 100, because repair tests it for truth. A stored stamina of 0 is kept, because repair tests it against `undefined`.
- `getBeltByLevel` falls back to the first belt, so it never returns nothing. As a result the progress bar's "mastery reached" branch is never taken. At the top belt the promotion test is offered on the rows of the first belt's level (`PromotionOfferedAtTop`).

## Model

| member | source | states |
|---|---|---|
| Text.Trim | app.js:161 | the trimmed name neither starts nor ends with white space |
| Text.TrimNoop | app.js:161 | a string that neither starts nor ends with white space is its own trimmed form |
| Text.TrimExact | app.js:161 | white space, then a part without white space at either end, then white space, trims to exactly that part |
| Text.TrimIdempotent | app.js:161 | trimming a trimmed string changes nothing |
| Text.TrimPadded | app.js:776 | white space added before and after a string does not change its trimmed form |
| Text.ToUpper | app.js:776 | upper-casing keeps the length and maps each ASCII lower-case letter to its capital, other characters unchanged |
| Text.ToUpperIdempotent | app.js:776 | upper-casing twice is upper-casing once, so upper-casing the generated code again changes nothing |
| Text.DecimalRoundTrip | app.js:787 | the decimal rendering of the belt level in the hashed message reads back as the level |
| Text.DecimalInjective | app.js:787 | distinct levels render as distinct decimal strings |
| Rounding.RoundIsNearest | app.js:843 | `Math.round(num/den)` is the integer r with r - 1/2 <= num/den < r + 1/2 (halves round up) |
| Rounding.RoundUnique | app.js:843 | no other integer lies in that half-open window |
| Rounding.ElapsedSecondsForm | app.js:843 | the elapsed seconds of a millisecond span equal (ms + 500) div 1000 |
| Rounding.ProratedXpForm | app.js:846 | the cancellation reward `Math.round(xp * (s/d) * 0.5)` equals (xp*s + d) div 2d |
| Rounding.ProratedAtMostHalf | app.js:845-847 | a session cancelled within its length earns between 0 and half the full reward, rounded up |
| Rounding.ProratedHalfwayExample | app.js:846 | a 10-XP, 60-second exercise cancelled at 30 seconds earns 3 XP |
| StudentId.Base36 | app.js:152 | base-36 digits are 0-9A-Z with no leading zero |
| StudentId.Base36RoundTrip | app.js:152 | reading the base-36 rendering back gives the number |
| StudentId.StudentIdFor | app.js:181 | an identifier is `WC-` followed by at least one character |
| StudentId.StudentIdRoundTrip | app.js:181 | the identifier of a creation time encodes that time exactly |
| StudentId.StudentIdInjective | app.js:181 | profiles created at different instants get different identifiers |
| Catalog.FindBelt | app.js:870 | the index found holds a belt of the level; none is found exactly when no belt has it |
| Catalog.GetBeltByLevel | app.js:869-871 | the result is a catalog belt, of the requested level when one exists, otherwise the first belt |
| Catalog.FindItem | app.js:757 | the item found is in the catalog with that id; none is found exactly when no item has it |
| Catalog.Filter | ui.js:344 | an item is kept exactly when it is in the list and satisfies the test |
| Ledger.FindDate | app.js:670 | the index found holds today's entry; none exactly when no entry has the date |
| Ledger.LedgerAddKeepsUniqueDates | app.js:669-675 | after a gain the history still has at most one entry per date |
| Ledger.LedgerAdd | app.js:669-675 | `updateHistory`'s ledger step: today's entry grows by the gain, or a new entry is appended; its properties are the lemmas below |
| Ledger.LedgerAddShape | app.js:669-675 | a gain grows today's entry in place, or appends one new entry for today |
| Ledger.LedgerAddTotals | app.js:669-675 | a gain raises the XP recorded for today, and the total over all days, by exactly the gain; other days are unchanged |
| Ledger.SameDayGainsMerge | app.js:669-675 | after two gains on the same day the history keeps one entry per date, holds an entry for today, and the second gain adds no entry |
| Ledger.Touch | app.js:678-680 | after the key is created if missing, it is present, and an existing key leaves the statistics unchanged |
| Ledger.BumpCount | app.js:677-682 | one more completion of an exercise, creating its statistics at zero first; stated by `BumpCountSpec` and `BumpCountTotal` |
| Ledger.BumpCountSpec | app.js:677-682 | a completion raises that exercise's count by one, creates its key if missing, and changes no other count and no duration |
| Ledger.BumpCountTotal | app.js:681 | counting a completion leaves the total training time unchanged |
| Ledger.AddDuration | app.js:848-852 | a session's seconds added to an exercise, creating its statistics at zero first; stated by `AddDurationSpec` and `AddDurationTotal` |
| Ledger.AddDurationSpec | app.js:849-852 | a session adds its seconds to that exercise's time only, creating its key if missing, and changes no count |
| Ledger.TouchTotal | app.js:848-850 | creating the missing statistics of an exercise adds no training time |
| Ledger.AddDurationTotal | app.js:852 | the total training time on the statistics tab grows by exactly the session's seconds |
| Ledger.TotalSeconds | app.js:571 | the sum of every exercise's training seconds; how it moves is stated by `AddDurationTotal` and `BumpCountTotal` |
| Ledger.TotalMinutes | app.js:572 | the total training time shown, `Math.round(totalSeconds / 60)` |
| Ledger.Favourite | app.js:574-577 | the favourite exercise's id, none without statistics; stated by `FavouriteIsLastMaximum` and `FavouriteIsKey` |
| Ledger.FavouriteIndex | app.js:574-578 | the favourite's index is within the statistics |
| Ledger.FavouriteIsLastMaximum | app.js:574-578 | the favourite has the highest count, and on a tie it is the last exercise with that count |
| Ledger.FavouriteIsKey | app.js:574-578 | there is a favourite exactly when there are statistics, and it is one of their keys |
| Stamina.Regenerate | app.js:685-704 | regeneration never changes the maximum stamina |
| Stamina.RegenerateTooEarly | app.js:695-703 | below five whole minutes neither the stamina nor the timestamp moves |
| Stamina.RegenerateCredits | app.js:695-699 | after five minutes or more, stamina becomes `min(maxStamina, stamina + whole five-minute intervals)`, the maximum is kept, and the timestamp becomes now |
| Stamina.MinutesSince | app.js:690 | whole minutes elapsed, rounded down (`Math.floor`), as the credit is computed from |
| Stamina.RegenerateKeepsBounds | app.js:697 | stamina within [0, maxStamina] stays within it |
| Stamina.RegenerateIdempotent | app.js:685-704 | a second update at the same instant changes nothing |
| Stamina.RegenerateDropsLeftoverMinutes | app.js:696-698 | minutes left over at a credit are lost: 7 then 3 minutes credit 1 point, while 10 minutes at once credit 2 |
| Stamina.RegenerateTwelveMinutes | app.js:695-698 | twelve minutes credit two points and reset the timestamp |
| Daily.ChallengePool | app.js:736 | an item is in the pool exactly when its belt is at most the current level and it is worth some XP |
| Daily.PickIndex | app.js:737 | `floor(random * n)` is a valid index |
| Daily.PickChallenge | app.js:737 | a challenge is drawn exactly when the pool is non-empty, and it comes from the pool |
| Daily.Rollover | app.js:726-744 | the daily record and streak after `checkDailyChallenge`; stated by the three lemmas that follow |
| Daily.RolloverSpec | app.js:726-744 | a stale record becomes an uncompleted record dated today with an eligible challenge (empty only when none is eligible); the streak becomes 0 exactly when the old record was yesterday's and not completed |
| Daily.RolloverOncePerDay | app.js:726 | a second check on the same day changes neither the record nor the streak |
| Daily.RolloverNeverRaisesStreak | app.js:731-733 | a rollover never increases the streak |
| Promotion.GenerateCode | app.js:792 | the code has eight characters |
| Promotion.GenerateCodeShape | app.js:792 | the code consists of 0-9A-F: the first four digest bytes, two upper-case digits each, high nibble first |
| Promotion.GenerateCodeRoundTrip | app.js:792 | decoding the code gives back the first four digest bytes |
| Promotion.GenerateCodeAgreement | app.js:792 | two digests give the same code exactly when their first four bytes agree |
| Promotion.Message | app.js:787 | the hashed message: upper-cased student id, level and secret joined by `-` |
| Promotion.ExpectedCode | app.js:774 | the code expected for a student id and level: `GenerateCode` of the digest of the message |
| Promotion.CodeAccepted | app.js:776 | the comparison of the typed code with the expected one; stated by `CodeAcceptedIff` |
| Promotion.MessageDistinguishesLevels | app.js:787 | different target levels give different hashed messages |
| Promotion.CodeAcceptedIff | app.js:776 | a supplied code is accepted exactly when, trimmed and upper-cased, it equals the generated code |
| Promotion.CodeAcceptedPadded | app.js:776 | the generated code typed in any letter case with surrounding blanks is accepted |
| Plans.ChosenExercises | app.js:754-759 | one plan exercise per ticked box, in order, with the typed duration or, when it is 0 or not a number, the catalog duration |
| Plans.ValidateCustomPlan | app.js:749-763 | a blank name is refused first, then an empty selection; an accepted plan has the trimmed name, id `plan_<now>` and the chosen exercises |
| Plans.CustomTotals | app.js:477-486 | the duration and stamina totals of a custom plan's card, summed over its known exercises |
| Plans.CustomTotalsAppend | app.js:477-486 | the card totals of two exercise lists add up |
| Plans.CustomTotalsSkipsUnknown | app.js:480-481 | an exercise missing from the catalog contributes nothing to the totals |
| Plans.RecommendedTotals | app.js:504-505 | a recommended plan's card shows the totals the plan carries |
| Plans.PlanCard | app.js:509-511 | Start is enabled exactly when stamina covers the plan's cost, and the minutes shown are the total seconds / 60 rounded to nearest |
| Profiles.Repair | app.js:143-158 | every absent or falsy field gets its default, stamina only when absent and the maximum also when 0; present values are kept |
| Profiles.Embed | app.js:137-141 | the stored document holds the profile's numeric XP |
| Profiles.RepairEstablishes | app.js:152-157 | a repaired record has a student id, a theme and a non-zero maximum stamina |
| Profiles.RepairEmbedIdentity | app.js:111-118 | a repaired record, written and read back, is repaired into itself at any time |
| Profiles.RepairIdempotent | app.js:143-158 | repair is idempotent |
| Profiles.ValidateForm | app.js:161-167 | the form is accepted exactly when the trimmed name is non-empty, the height is in 100-250 and the weight in 30-250; otherwise the first failing check is reported |
| Profiles.NewProfile | app.js:171-187 | the created record holds the form's name, height and weight and the chosen avatar; XP, level and streak 0; empty achievements, ledger, statistics, plans and daily record; both new-content flags down; the default theme; stamina and maximum 100; creation time and stamina timestamp `now` and the student id built from it; it is marked new and already in repaired form |
| Profiles.ImportAccepted | app.js:239 | an imported document is taken when its XP is a number and its name is truthy |
| Profiles.GainXp | app.js:659-683 | the record after `addXp`: nothing for a gain of 0 or less, otherwise XP, ledger and completion count; stated by `GainXpSpec` |
| Profiles.WithDuration | app.js:848-852 | the record after a session's seconds are recorded; stated by `SessionEndSpec` |
| Profiles.Visited | app.js:292-302 | the record after a section visit: that section's new-content flag is down; its effect on the badges is `NavBadgeAfterVisit` |
| Profiles.Promoted | app.js:777-778 | the record after a promotion: the level set and both flags up; its effect is `UnlockedAfterPromotion` and `NavBadgeAfterPromotion` |
| Profiles.GainXpSpec | app.js:659-683 | a positive gain raises the XP and today's and the total ledger XP by the gain, counts one more completion of the exercise and changes nothing else; another gain changes nothing |
| Profiles.SessionEndSpec | app.js:826-852 | ending a session raises XP and ledger by the award when positive, counts the exercise once exactly then, and adds the session's seconds to its time and to the total |
| Profiles.Profile.constructor | app.js:116 | the parsed object holds exactly the record |
| Profiles.Profile.AddXp | app.js:659-666 | the new record is `GainXp` of the old one |
| Profiles.Profile.UpdateHistory | app.js:668-683 | the gain is merged into today's entry and the exercise's count is bumped when the id is non-empty |
| Profiles.Profile.UpdateStamina | app.js:685-698 | stamina and timestamp become `Regenerate` of the old ones; the result tells whether five minutes had passed; nothing else changes |
| Profiles.Profile.Spend | app.js:808 | stamina drops by the cost and nothing else changes |
| Profiles.Profile.CheckDailyChallenge | app.js:721-745 | the daily record and streak become `Rollover` of the old ones; a new record is stored exactly when the old one is not dated today |
| Profiles.Profile.RecordDuration | app.js:849-852 | the new record is `WithDuration` of the old one |
| Profiles.Profile.Promote | app.js:777-778 | the level becomes the target and both new-content flags are raised |
| Profiles.Profile.ClearNewContent | app.js:292-302 | visiting the skill or belts section clears its flag; the result tells whether a flag was cleared |
| Profiles.Profile.Edit | app.js:188-194 | name, height, weight and avatar are replaced and nothing else |
| Profiles.Profile.AddPlan | app.js:763 | the plan is appended to the custom plans |
| Profiles.Profile.SetTheme | app.js:796 | the theme key is stored |
| Profiles.Profile.ClearIsNew | app.js:132 | the new-user mark is cleared |
| Gating.BeltUnlocked | ui.js:334 | a belt row shows unlocked when the level has reached it; its meaning after a promotion is `UnlockedAfterPromotion` |
| Gating.UnlockedAfterPromotion | app.js:777-778 | after a promotion to a level, exactly the belts up to that level show unlocked and exactly the avatars requiring at most that level can be chosen |
| Gating.ItemsInBelt | ui.js:344 | a belt lists exactly the catalog items requiring its level |
| Gating.ItemListedOnce | ui.js:344 | an item is listed only under belts of its own level |
| Gating.PromotionOfferedBelowTop | ui.js:355-356 | below the top belt the test is offered exactly on rows of the next level, once the XP reaches that belt's threshold |
| Gating.PromotionOfferedAtTop | ui.js:355-356 | at the top belt the test is offered on rows of the first belt's level once the XP reaches the first belt's threshold |
| Gating.PromotionOffered | ui.js:355-356 | the test is offered on the rows of the target belt's level once the XP reaches its threshold; stated case by case by the two lemmas above |
| Gating.ProgressTarget | ui.js:120-121 | the belt the progress bar measures against always exists in the catalog |
| Gating.AvatarUnlocked | ui.js:242-245 | an avatar can be chosen once the level, 0 without a profile, reaches its requirement |
| Gating.AvatarsWithoutProfile | ui.js:242-245 | without a profile exactly the avatars requiring level 0 or less are unlocked |
| Gating.NavBadge | ui.js:210-220 | a navigation entry carries the badge while its new-content flag is set |
| Gating.NavBadgeAfterVisit | app.js:292-302 | after a visit to a section its entry loses the badge and every other entry keeps the badge it had |
| Gating.NavBadgeAfterPromotion | app.js:778 | after a promotion exactly the skill and belts entries carry the badge |
| Gating.NavBadgeWithoutProfile | ui.js:210-220 | without a profile no entry carries the badge |
| Gating.ThemeFor | ui.js:518 | a known theme key gives its theme, an unknown one the default theme |
| AppState.App.constructor | app.js:14-24 | start-up state: no profile, no timers, audio not ready, profile section active, first avatar selected, walkthrough closed at step 0 |
| AppState.App.Save | app.js:137-141 | with a profile, storage then holds exactly its document; without one, storage is unchanged |
| AppState.App.LoadProfile | app.js:111-135 | no document gives no profile; an unreadable one is removed; a readable one becomes the repaired profile, and if marked new the walkthrough opens, the mark is cleared and it is saved |
| AppState.App.StartAudio | app.js:50-64 | audio is ready afterwards |
| AppState.App.SelectAvatar | app.js:306-307 | the selected avatar is remembered |
| AppState.App.AddXp | app.js:659-666 | without a profile or for a gain of 0 or less nothing changes; otherwise the record becomes `GainXp` of the old one and is saved |
| AppState.App.UpdateStamina | app.js:685-704 | the profile's stamina becomes `Regenerate` of the old one; it is saved exactly when five minutes had passed |
| AppState.App.CheckDailyChallenge | app.js:721-747 | the daily record and streak become `Rollover` of the old ones; saved exactly when the old record was not today's |
| AppState.App.StartTimer | app.js:802-832 | refused when stamina is below the cost; ignored when the item's timer runs or audio is off; otherwise the cost is spent, the profile saved and a timer at 0 seconds filed under the item's id |
| AppState.SessionEnd | app.js:845-852 | the record after a timer session ends: the prorated award only when cancelled, then the seconds; stated by `SessionEndSpec` |
| AppState.App.StopTimer | app.js:835-858 | without a running timer nothing changes; otherwise the record becomes `SessionEnd` of the old one (the prorated award only when cancelled, then the seconds), is saved, and the timer removed, leaving every other timer valid |
| AppState.App.EndSession | app.js:845-852 | the profile side of a stop: the record becomes `SessionEnd` of the old one and storage holds exactly its document |
| AppState.RemovingTimerKeepsValid | app.js:854 | removing a timer keeps every remaining timer filed under its own id and short of its length |
| AppState.App.Tick | app.js:818-830 | a tick counts one second; at the timer's length the full item XP is awarded once, the session's seconds recorded, the profile saved and the timer removed, so later ticks of it change nothing |
| AppState.App.HandlePromotion | app.js:770-784 | promoted exactly when there is a belt and the supplied code is accepted against the code for the student id and level; then the level and flags change and the profile is saved; otherwise nothing changes |
| AppState.App.NavClick | app.js:282-304 | the section becomes active; the matching new-content flag is cleared and the profile saved exactly when a flag was cleared |
| AppState.App.SaveProfileForm | app.js:160-203 | a rejected form changes nothing; an accepted one creates the profile (then reloaded, with the walkthrough opened) or edits it, and it is saved |
| AppState.App.CreateProfile | app.js:171-203 | the new profile is saved, reloaded unchanged except for the cleared new-user mark, and the walkthrough opens |
| AppState.App.EditProfile | app.js:188-203 | the edited profile is saved; a profile still marked new is reloaded from storage and opens the walkthrough |
| AppState.App.ReloadIfNew | app.js:200-202 | a profile still marked new is replaced by its stored document repaired; otherwise nothing changes |
| AppState.App.ImportFile | app.js:231-255 | no file and an unreadable file are told apart; a document with numeric XP and a non-empty name replaces the profile after repair, is saved and reloaded; anything else changes nothing |
| AppState.App.Adopt | app.js:239-243 | the repaired document becomes the profile with its new-user mark cleared, storage holds it, and the walkthrough opens exactly when the document was marked new |
| AppState.App.SaveCustomPlan | app.js:749-764 | an accepted plan is appended to the profile's plans and saved; a refused one changes nothing |
| AppState.App.SelectTheme | app.js:795-798 | the theme key is stored and the profile saved |
| AppState.App.StartOnboarding | app.js:889-893 | the walkthrough opens at its first step |
| AppState.App.OnboardingNext | app.js:912-919 | the step advances, or on the last of the three steps the walkthrough closes |
| AppState.App.OnboardingPrev | app.js:921-926 | the step goes back by one, never before the first |

## Left out

- All DOM rendering, notifications, Chart.js charts, gsap animations and Tone.js sounds. The audio synthesizer is reduced to the flag `audioReady`.
- Local storage and `JSON.stringify`/`JSON.parse` are reduced to the field `App.stored`. A document that does not parse, or parses to something without properties, is `Corrupt`.
- A stored document whose `xp` is missing or not a number is treated like an unreadable one and removed; the application would load it and carry an undefined XP. The profile record has an integer XP, so such a profile cannot be represented.
- Profile fields holding a value of the wrong JSON type are read as absent.
- The clock, `Math.random()` and dates are parameters. `now` is in milliseconds; `today` and `yesterday` are the date strings the application computes. Date arithmetic and ISO formatting are not modelled, and timestamps are stored as numbers, not ISO strings.
- The SHA-256 computation is a parameter `sha256`. Only the formatting of its digest into the code is modelled. `MessageDistinguishesLevels` shows that distinct levels are hashed as distinct messages; collision freedom of the hash is not modelled.
- `Text.ToUpper` upper-cases ASCII letters only. Characters whose upper case is longer or non-ASCII are not modelled.
- The training statistics are an ordered list with unique ids, in the key insertion order of a JavaScript object. The reordering JavaScript applies to integer-like keys is not modelled.
- `setInterval` scheduling is not modelled. The one-second tick is the method `App.Tick`, and the minute-by-minute stamina update is `App.UpdateStamina`, both called by the environment.
- `App.HandlePromotion` is atomic. In the application, `await generateCode` lets other events run between reading the student id and writing the level.
- `fullUIUpdate` is not chained after saves and loads. Its two state changes are the separate methods `App.UpdateStamina` and `App.CheckDailyChallenge`.
- Where the application dereferences the profile without checking it, the model requires a profile, because the application throws there:
  - `startTimer` reads the stamina first;
  - `stopTimer` once a running timer is found;
  - a tick that completes its timer;
  - `handleThemeSelect`;
  - `handlePromotion` when the catalog has a belt, since it reads the student id;
  - `handleSaveCustomPlan` for a plan that passes both checks.
  Without a running timer, a tick that does not complete and a refused plan need no profile.
- Catalog durations are taken to be positive: `App.StartTimer`, `App.StopTimer`, `App.EndSession` and `SessionEnd` require a positive duration. The application accepts 0. A first tick then completes the timer with the full XP, and a cancel divides by zero.
- `App.SaveCustomPlan` requires every ticked exercise without a typed duration to be in the catalog; the application throws otherwise.
- `checkAchievements` is a placeholder that changes nothing; `startTrainingPlan` and `stopTrainingPlan` are empty. None of them is modelled.
- The body mass index string, the exported file (`handleExportProfile`), copying the student id to the clipboard, and the description and video fields of catalog items are not modelled.
- Fractional arithmetic is replaced by exact integer arithmetic: the prorated XP, the elapsed seconds and the minutes use `Math.round` of a quotient of integers. Floating-point error is not modelled. Progress percentages are not modelled.
- The catalog (training items, belts, avatars, themes) and the promotion secret are parameters, not the shipped content.
- Text.Trim: its own contract states only that the result has no white space at either end. The exact result is stated by `TrimExact`, for a string written as white space, then a part without white space at either end, then white space. That every string can be written so is not itself proved.
- Stamina.Regenerate: its own contract states only that the maximum is kept; the full behaviour is stated by `RegenerateTooEarly` and `RegenerateCredits`.
- Promotion.GenerateCode: its own contract states only the length; the digits are stated by `GenerateCodeShape` and `GenerateCodeRoundTrip`.
- AppState.App.StopTimer: removes the timer before, not after, the profile is updated and saved. Nothing in between reads the timers, so the final state is the same.
