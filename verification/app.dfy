/**
 * The application object: the profile it holds, what local storage holds,
 * the running exercise timers, the active section, the selected avatar and
 * the onboarding walkthrough (app.js:14-24). Each handler changes that state
 * in place the way `App` does and states the complete new state.
 */
module AppState {
  import opened Base
  import opened Catalog
  import opened Ledger
  import opened Rounding
  import Stamina
  import Daily
  import opened Plans
  import opened Promotion
  import opened Profiles

  /** What local storage holds under the profile key. */
  datatype Stored = Absent | Corrupt | Doc(raw: RawProfile)

  /**
   * A running timer: the exercise, its length in seconds, the start time in
   * milliseconds and the seconds the one-second tick has counted so far.
   */
  datatype Timer = Timer(item: TrainingItem, duration: int, startTime: int, secondsElapsed: int)

  /** The state of the application besides the profile and the storage. */
  datatype Session = Session(
    timers: map<string, Timer>, audioReady: bool, activeSection: string, selectedAvatar: string,
    onboardingOpen: bool, onboardingStep: int)

  /** How `startTimer` ends: started, refused for lack of stamina, or silently ignored. */
  datatype StartOutcome = Started | NotEnoughStamina | Ignored

  /** The file input of an import: nothing chosen, text that is not JSON, or a parsed document. */
  datatype ImportInput = NoFile | Unreadable | Parsed(raw: RawProfile)

  datatype ImportOutcome = NothingChosen | ReadError | Rejected | Imported

  /** The walkthrough has three steps (app.js:27-31). */
  const OnboardingSteps: int := 3
  const ProfileSection: string := "seccao-perfil"

  /**
   * Every timer is filed under its own exercise id, has a positive length and
   * has not yet reached it.
   */
  predicate TimersOk(timers: map<string, Timer>) {
    forall id :: id in timers ==>
      && timers[id].item.id == id
      && 0 <= timers[id].secondsElapsed < timers[id].duration
  }

  /** Removing a finished or cancelled timer keeps the timers valid. */
  lemma RemovingTimerKeepsValid(timers: map<string, Timer>, id: string)
    requires TimersOk(timers)
    ensures TimersOk(timers - {id})
  {
  }

  /**
   * The profile after a timer session of `secs` seconds on `item` ends:
   * the cancellation award when cancelled, then the seconds.
   */
  function SessionEnd(p: ProfileRec, item: TrainingItem, userCancelled: bool, duration: int, secs: int, today: Date): ProfileRec
    requires duration > 0
  {
    var award := if userCancelled then ProratedXp(item.xp, secs, duration) else 0;
    WithDuration(GainXp(p, award, item.id, today), item.id, secs)
  }

  class App {
    var user: Profile?
    var stored: Stored
    var timers: map<string, Timer>
    var audioReady: bool
    var activeSection: string
    var selectedAvatar: string
    var onboardingOpen: bool
    var onboardingStep: int

    function SessionOf(): Session
      reads this
    {
      Session(timers, audioReady, activeSection, selectedAvatar, onboardingOpen, onboardingStep)
    }

    /** The walkthrough step is a valid index and the timers are valid. */
    ghost predicate Valid()
      reads this
    {
      0 <= onboardingStep < OnboardingSteps && TimersOk(timers)
    }

    /** Storage holds exactly the current profile. */
    ghost predicate Persisted()
      reads this, user
    {
      user != null && stored == Doc(Embed(user.Snapshot()))
    }

    /** The initial state of `App`, over what storage holds at start-up. */
    constructor (initial: Stored, firstAvatar: string)
      ensures Valid() && user == null && stored == initial
      ensures SessionOf() == Session(map[], false, ProfileSection, firstAvatar, false, 0)
    {
      user := null;
      stored := initial;
      timers := map[];
      audioReady := false;
      activeSection := ProfileSection;
      selectedAvatar := firstAvatar;
      onboardingOpen := false;
      onboardingStep := 0;
    }

    /** `saveProfile`: write the profile to storage; nothing to write without one. */
    method Save()
      modifies this`stored
      ensures user != null ==> Persisted()
      ensures user == null ==> stored == old(stored)
    {
      if user != null {
        stored := Doc(Embed(user.Snapshot()));
      }
    }

    /**
     * `loadProfile`: no document leaves no profile; an unreadable one is
     * removed; a readable one is repaired into the profile, and a new user's
     * first load opens the walkthrough, clears `isNew` and saves.
     */
    method LoadProfile(now: int)
      requires Valid()
      modifies this
      ensures Valid()
      ensures old(stored).Absent? ==> user == null && stored == Absent && SessionOf() == old(SessionOf())
      ensures old(stored).Corrupt? || (old(stored).Doc? && old(stored).raw.xp.None?) ==>
                user == null && stored == Absent && SessionOf() == old(SessionOf())
      ensures old(stored).Doc? && old(stored).raw.xp.Some? ==>
                && user != null && fresh(user)
                && user.Snapshot() == Repair(old(stored).raw, now).(isNew := false)
                && (old(stored).raw.isNew ==>
                      Persisted() && SessionOf() == old(SessionOf()).(onboardingOpen := true, onboardingStep := 0))
                && (!old(stored).raw.isNew ==> stored == old(stored) && SessionOf() == old(SessionOf()))
    {
      match stored {
        case Absent =>
          user := null;
        case Corrupt =>
          stored := Absent;
          user := null;
        case Doc(raw) =>
          if raw.xp.None? {
            stored := Absent;
            user := null;
          } else {
            user := new Profile(Repair(raw, now));
            if raw.isNew {
              StartOnboarding();
              user.ClearIsNew();
              Save();
            }
          }
      }
    }

    /** `startAudio`: the synthesizer exists once the user has touched the page. */
    method StartAudio()
      modifies this`audioReady
      ensures audioReady
    {
      audioReady := true;
    }

    /** `handleAvatarSelect`: remember the avatar for the next form save. */
    method SelectAvatar(id: string)
      modifies this`selectedAvatar
      ensures selectedAvatar == id
    {
      selectedAvatar := id;
    }

    /** `addXp`: without a profile or for a gain of 0 or less nothing happens; otherwise gain and save. */
    method AddXp(amount: int, trainingId: string, today: Date)
      modifies this`stored, user
      ensures user == old(user) && SessionOf() == old(SessionOf())
      ensures user != null ==> user.Snapshot() == GainXp(old(user.Snapshot()), amount, trainingId, today)
      ensures user != null && amount > 0 ==> Persisted()
      ensures user == null || amount <= 0 ==> stored == old(stored)
    {
      if user == null || amount <= 0 {
        return;
      }
      user.AddXp(amount, trainingId, today);
      Save();
    }

    /** `updateStamina`: regenerate, saving only when stamina was credited. */
    method UpdateStamina(now: int)
      modifies this`stored, user
      ensures user == old(user) && SessionOf() == old(SessionOf())
      ensures user != null ==>
                && user.StaminaOf() == Stamina.Regenerate(old(user.StaminaOf()), now)
                && user.Snapshot() == old(user.Snapshot()).(stamina := user.stamina,
                                                            lastStaminaUpdate := user.lastStaminaUpdate)
                && (if Stamina.MinutesSince(old(user.lastStaminaUpdate), now) >= Stamina.RegenIntervalMins
                    then Persisted() else stored == old(stored))
      ensures user == null ==> stored == old(stored)
    {
      if user == null {
        return;
      }
      var credited := user.UpdateStamina(now);
      if credited {
        Save();
      }
    }

    /** `checkDailyChallenge`: roll the day's challenge once per date and save when rolled. */
    method CheckDailyChallenge(today: Date, yesterday: Date, items: seq<TrainingItem>, rand: real)
      requires 0.0 <= rand < 1.0
      modifies this`stored, user
      ensures user == old(user) && SessionOf() == old(SessionOf())
      ensures user != null ==>
                && Daily.DailyState(user.daily, user.streak)
                   == Daily.Rollover(Daily.DailyState(old(user.daily), old(user.streak)), today, yesterday,
                                     items, old(user.unlockedBeltLevel), rand)
                && user.Snapshot() == old(user.Snapshot()).(daily := user.daily, streak := user.streak)
                && (if old(user.daily).date != Some(today) then Persisted() else stored == old(stored))
      ensures user == null ==> stored == old(stored)
    {
      if user == null {
        return;
      }
      var rolled := user.CheckDailyChallenge(today, yesterday, items, rand);
      if rolled {
        Save();
      }
    }

    /**
     * `startTimer(item, duration)`: refused when stamina is below the item's
     * cost; ignored when the item's timer already runs or audio has not
     * started; otherwise the cost is spent, the profile saved and the timer
     * filed under the item's id.
     */
    method StartTimer(item: TrainingItem, duration: int, now: int) returns (outcome: StartOutcome)
      requires user != null && Valid() && duration > 0
      modifies this`stored, this`timers, user
      ensures Valid() && user == old(user)
      ensures outcome == NotEnoughStamina <==> old(user.stamina) < item.staminaCost
      ensures outcome == Started <==>
                old(user.stamina) >= item.staminaCost && item.id !in old(timers) && audioReady
      ensures outcome == Started ==>
                && user.Snapshot() == old(user.Snapshot()).(stamina := old(user.stamina) - item.staminaCost)
                && Persisted()
                && SessionOf() == old(SessionOf()).(timers := old(timers)[item.id := Timer(item, duration, now, 0)])
      ensures outcome != Started ==>
                user.Snapshot() == old(user.Snapshot()) && stored == old(stored) && SessionOf() == old(SessionOf())
    {
      if user.stamina < item.staminaCost {
        return NotEnoughStamina;
      }
      if item.id in timers || !audioReady {
        return Ignored;
      }
      user.Spend(item.staminaCost);
      Save();
      timers := timers[item.id := Timer(item, duration, now, 0)];
      outcome := Started;
    }

    /**
     * `stopTimer(item, userCancelled, duration)`: nothing without a running
     * timer; otherwise a cancelled session earns half the XP prorated by the
     * elapsed seconds, the seconds are added to the exercise's total, the
     * profile is saved and the timer removed.
     */
    method StopTimer(item: TrainingItem, userCancelled: bool, duration: int, today: Date, now: int)
      requires Valid() && (item.id in timers ==> user != null && duration > 0)
      modifies this`stored, this`timers, user
      ensures Valid() && user == old(user)
      ensures item.id !in old(timers) ==>
                && (user != null ==> user.Snapshot() == old(user.Snapshot()))
                && stored == old(stored) && SessionOf() == old(SessionOf())
      ensures item.id in old(timers) ==>
                var secs := ElapsedSeconds(now - old(timers)[item.id].startTime);
                && user.Snapshot() == SessionEnd(old(user.Snapshot()), item, userCancelled, duration, secs, today)
                && Persisted()
                && SessionOf() == old(SessionOf()).(timers := old(timers) - {item.id})
    {
      if item.id !in timers {
        return;
      }
      var timer := timers[item.id];
      var secs := ElapsedSeconds(now - timer.startTime);
      RemovingTimerKeepsValid(timers, item.id);
      timers := timers - {item.id};
      assert Valid();
      EndSession(item, userCancelled, duration, secs, today);
    }

    /**
     * The profile side of `stopTimer`: the cancellation award when cancelled,
     * then the session's seconds, then a save.
     */
    method EndSession(item: TrainingItem, userCancelled: bool, duration: int, secs: int, today: Date)
      requires user != null && duration > 0
      modifies this`stored, user
      ensures user.Snapshot() == SessionEnd(old(user.Snapshot()), item, userCancelled, duration, secs, today)
      ensures Persisted() && SessionOf() == old(SessionOf())
    {
      if userCancelled {
        AddXp(ProratedXp(item.xp, secs, duration), item.id, today);
      }
      user.RecordDuration(item.id, secs);
      Save();
    }

    /**
     * One tick of the timer filed under `id`: count a second; on reaching
     * the length, award the item's full XP, then stop the timer without the
     * cancellation award. `completed` tells whether the timer finished.
     */
    method Tick(id: string, today: Date, now: int) returns (completed: bool)
      requires Valid() && (id in timers && timers[id].secondsElapsed + 1 == timers[id].duration ==> user != null)
      modifies this`stored, this`timers, user
      ensures Valid() && user == old(user)
      ensures id !in old(timers) ==>
                && !completed && (user != null ==> user.Snapshot() == old(user.Snapshot()))
                && stored == old(stored) && SessionOf() == old(SessionOf())
      ensures id in old(timers) ==>
                var t := old(timers)[id];
                && (completed <==> t.secondsElapsed + 1 == t.duration)
                && (!completed ==>
                      && (user != null ==> user.Snapshot() == old(user.Snapshot())) && stored == old(stored)
                      && SessionOf() == old(SessionOf()).(
                           timers := old(timers)[id := t.(secondsElapsed := t.secondsElapsed + 1)]))
                && (completed ==>
                      && user.Snapshot() == WithDuration(GainXp(old(user.Snapshot()), t.item.xp, id, today),
                                                         id, ElapsedSeconds(now - t.startTime))
                      && Persisted()
                      && SessionOf() == old(SessionOf()).(timers := old(timers) - {id}))
    {
      if id !in timers {
        return false;
      }
      var t := timers[id];
      var elapsed := t.secondsElapsed + 1;
      completed := elapsed >= t.duration;
      if !completed {
        timers := timers[id := t.(secondsElapsed := elapsed)];
        return;
      }
      AddXp(t.item.xp, t.item.id, today);
      ghost var gained := user.Snapshot();
      var secs := ElapsedSeconds(now - t.startTime);
      assert SessionEnd(gained, t.item, false, t.duration, secs, today) == WithDuration(gained, id, secs);
      StopTimer(t.item, false, t.duration, today, now);
    }

    /**
     * `handlePromotion(beltLevel, code)`: with a non-empty belt list (the
     * profile is read only then), a code
     * equal to the expected one (after trimming and upper-casing) moves the
     * profile to the level, raises both new-content flags and saves; any
     * other code changes nothing.
     */
    method HandlePromotion(level: int, code: string, secret: string, sha256: string -> Digest,
                           belts: seq<Belt>) returns (promoted: bool)
      requires |belts| == 0 || user != null
      modifies this`stored, user
      ensures user == old(user) && SessionOf() == old(SessionOf())
      ensures promoted <==>
                |belts| > 0 && CodeAccepted(code, ExpectedCode(old(user.studentId), level, secret, sha256))
      ensures promoted ==>
                && user.Snapshot() == Promoted(old(user.Snapshot()), level)
                && Persisted()
      ensures !promoted ==> stored == old(stored) && (user != null ==> user.Snapshot() == old(user.Snapshot()))
    {
      if |belts| == 0 {
        return false;
      }
      var expected := ExpectedCode(user.studentId, level, secret, sha256);
      promoted := CodeAccepted(code, expected);
      if promoted {
        user.Promote(level);
        Save();
      }
    }

    /**
     * `handleNavClick`: the section becomes active; visiting the skill or the
     * belts section clears its new-content flag, saving when one was cleared.
     */
    method NavClick(sectionId: string)
      modifies this`stored, this`activeSection, user
      ensures user == old(user) && SessionOf() == old(SessionOf()).(activeSection := sectionId)
      ensures user != null ==>
                var nc := old(user.newContent);
                var cleared := (sectionId == SkillSection && nc.skill) || (sectionId == BeltsSection && nc.belts);
                && user.Snapshot() == Visited(old(user.Snapshot()), sectionId)
                && (if cleared then Persisted() else stored == old(stored))
      ensures user == null ==> stored == old(stored)
    {
      activeSection := sectionId;
      if user != null {
        var changed := user.ClearNewContent(sectionId);
        if changed {
          Save();
        }
      }
    }

    /**
     * `handleSaveProfile`: a rejected form changes nothing; an accepted one
     * creates the profile (no profile yet) or edits it, saves, and for a new
     * user reloads from storage, which opens the walkthrough.
     */
    method SaveProfileForm(rawName: string, height: Option<real>, weight: Option<real>, now: int)
      returns (r: Result<FormData, FormError>)
      requires Valid()
      modifies this, user
      ensures Valid()
      ensures r == ValidateForm(rawName, height, weight)
      ensures r.Err? ==>
                user == old(user) && stored == old(stored) && SessionOf() == old(SessionOf())
                && (user != null ==> user.Snapshot() == old(user.Snapshot()))
      ensures r.Ok? && old(user) == null ==>
                && user != null && fresh(user) && Persisted()
                && user.Snapshot() == NewProfile(r.value, old(selectedAvatar), now).(isNew := false)
                && SessionOf() == old(SessionOf()).(onboardingOpen := true, onboardingStep := 0)
      ensures r.Ok? && old(user) != null ==>
                var edited := old(user.Snapshot()).(name := Some(r.value.name), height := Some(r.value.height),
                                                    weight := Some(r.value.weight),
                                                    avatar := Some(old(selectedAvatar)));
                && user != null && Persisted()
                && (!edited.isNew ==> user == old(user) && user.Snapshot() == edited
                                      && SessionOf() == old(SessionOf()))
                && (edited.isNew ==> fresh(user) && user.Snapshot() == Repair(Embed(edited), now).(isNew := false)
                                     && SessionOf() == old(SessionOf()).(onboardingOpen := true, onboardingStep := 0))
    {
      r := ValidateForm(rawName, height, weight);
      if r.Err? {
        return;
      }
      if user == null {
        CreateProfile(r.value, now);
      } else {
        EditProfile(r.value, now);
      }
    }

    /** The creation branch of `handleSaveProfile`: a fresh profile, saved and reloaded. */
    method CreateProfile(form: FormData, now: int)
      requires Valid() && user == null
      modifies this
      ensures Valid()
      ensures user != null && fresh(user) && Persisted()
      ensures user.Snapshot() == NewProfile(form, selectedAvatar, now).(isNew := false)
      ensures SessionOf() == old(SessionOf()).(onboardingOpen := true, onboardingStep := 0)
    {
      var p := NewProfile(form, selectedAvatar, now);
      user := new Profile(p);
      Save();
      ReloadIfNew(now);
      RepairEmbedIdentity(p, now);
    }

    /** The edit branch of `handleSaveProfile`: form fields and avatar replaced, saved, reloaded if new. */
    method EditProfile(form: FormData, now: int)
      requires Valid() && user != null
      modifies this, user
      ensures Valid() && user != null && Persisted()
      ensures var edited := old(user.Snapshot()).(name := Some(form.name), height := Some(form.height),
                                                  weight := Some(form.weight), avatar := Some(selectedAvatar));
              && (!edited.isNew ==> user == old(user) && user.Snapshot() == edited
                                    && SessionOf() == old(SessionOf()))
              && (edited.isNew ==> fresh(user) && user.Snapshot() == Repair(Embed(edited), now).(isNew := false)
                                   && SessionOf() == old(SessionOf()).(onboardingOpen := true, onboardingStep := 0))
    {
      user.Edit(form, selectedAvatar);
      Save();
      ReloadIfNew(now);
    }

    /**
     * The end of `handleSaveProfile`: right after a save, a profile still
     * marked new is reloaded from storage; otherwise nothing happens.
     */
    method ReloadIfNew(now: int)
      requires Valid() && Persisted()
      modifies this
      ensures Valid() && Persisted()
      ensures !old(user.isNew) ==>
                user == old(user) && stored == old(stored) && SessionOf() == old(SessionOf())
      ensures old(user.isNew) ==>
                && fresh(user)
                && user.Snapshot() == Repair(Embed(old(user.Snapshot())), now).(isNew := false)
                && SessionOf() == old(SessionOf()).(onboardingOpen := true, onboardingStep := 0)
    {
      if user.isNew {
        LoadProfile(now);
      }
    }

    /**
     * `handleImportFile`: a document with a numeric `xp` and a non-empty name
     * replaces the profile after repair; it is saved and reloaded, which opens
     * the walkthrough when the document was marked new.
     */
    method ImportFile(input: ImportInput, now: int) returns (outcome: ImportOutcome)
      requires Valid()
      modifies this, user
      ensures Valid()
      ensures outcome == NothingChosen <==> input.NoFile?
      ensures outcome == ReadError <==> input.Unreadable?
      ensures outcome == Imported <==> input.Parsed? && ImportAccepted(input.raw)
      ensures outcome != Imported ==>
                user == old(user) && stored == old(stored) && SessionOf() == old(SessionOf())
                && (user != null ==> user.Snapshot() == old(user.Snapshot()))
      ensures outcome == Imported ==>
                && user != null && fresh(user) && Persisted()
                && user.Snapshot() == Repair(input.raw, now).(isNew := false)
                && (input.raw.isNew ==> SessionOf() == old(SessionOf()).(onboardingOpen := true, onboardingStep := 0))
                && (!input.raw.isNew ==> SessionOf() == old(SessionOf()))
    {
      match input {
        case NoFile =>
          return NothingChosen;
        case Unreadable =>
          return ReadError;
        case Parsed(raw) =>
          if !ImportAccepted(raw) {
            return Rejected;
          }
          Adopt(raw, now);
          outcome := Imported;
      }
    }

    /** The accepted document becomes the stored profile and is loaded back. */
    method Adopt(raw: RawProfile, now: int)
      requires Valid() && ImportAccepted(raw)
      modifies this, user
      ensures Valid()
      ensures user != null && fresh(user) && Persisted()
      ensures user.Snapshot() == Repair(raw, now).(isNew := false)
      ensures raw.isNew ==> SessionOf() == old(SessionOf()).(onboardingOpen := true, onboardingStep := 0)
      ensures !raw.isNew ==> SessionOf() == old(SessionOf())
    {
      user := new Profile(Repair(raw, now));
      Save();
      RepairIdempotent(raw, now, now);
      LoadProfile(now);
    }

    /** `handleSaveCustomPlan`: an accepted plan is appended to the profile's plans and saved. */
    method SaveCustomPlan(rawName: string, selections: seq<Selection>, items: seq<TrainingItem>, now: int)
      returns (r: Result<CustomPlan, PlanError>)
      requires DefaultsAvailable(selections, items)
      requires ValidateCustomPlan(rawName, selections, items, now).Ok? ==> user != null
      modifies this`stored, user
      ensures user == old(user) && SessionOf() == old(SessionOf())
      ensures r == ValidateCustomPlan(rawName, selections, items, now)
      ensures r.Ok? ==> user.Snapshot() == old(user.Snapshot()).(customPlans := old(user.customPlans) + [r.value])
                        && Persisted()
      ensures r.Err? ==> (user != null ==> user.Snapshot() == old(user.Snapshot())) && stored == old(stored)
    {
      r := ValidateCustomPlan(rawName, selections, items, now);
      if r.Ok? {
        user.AddPlan(r.value);
        Save();
      }
    }

    /** `handleThemeSelect`: store the theme key and save. */
    method SelectTheme(key: string)
      requires user != null
      modifies this`stored, user
      ensures user == old(user) && SessionOf() == old(SessionOf())
      ensures user.Snapshot() == old(user.Snapshot()).(theme := key) && Persisted()
    {
      user.SetTheme(key);
      Save();
    }

    /** `startOnboarding`: open the walkthrough at its first step. */
    method StartOnboarding()
      modifies this`onboardingOpen, this`onboardingStep
      ensures onboardingOpen && onboardingStep == 0
    {
      onboardingStep := 0;
      onboardingOpen := true;
    }

    /** `handleOnboardingNext`: advance, or close the walkthrough on its last step. */
    method OnboardingNext()
      requires Valid()
      modifies this`onboardingOpen, this`onboardingStep
      ensures Valid()
      ensures old(onboardingStep) < OnboardingSteps - 1 ==>
                onboardingStep == old(onboardingStep) + 1 && onboardingOpen == old(onboardingOpen)
      ensures old(onboardingStep) == OnboardingSteps - 1 ==>
                onboardingStep == old(onboardingStep) && !onboardingOpen
    {
      if onboardingStep < OnboardingSteps - 1 {
        onboardingStep := onboardingStep + 1;
      } else {
        onboardingOpen := false;
      }
    }

    /** `handleOnboardingPrev`: go back one step, never before the first. */
    method OnboardingPrev()
      requires Valid()
      modifies this`onboardingStep
      ensures Valid()
      ensures onboardingStep == if old(onboardingStep) > 0 then old(onboardingStep) - 1 else 0
    {
      if onboardingStep > 0 {
        onboardingStep := onboardingStep - 1;
      }
    }
  }
}
