/**
 * The single user profile: its stored shape, integrity repair of an older or
 * partial record (app.js:143-158), the acceptance rules of the profile form
 * (app.js:160-194) and of an imported file (app.js:239-247), and the profile
 * object whose fields the game logic updates in place.
 */
module Profiles {
  import opened Base
  import opened Text
  import opened Catalog
  import opened Ledger
  import opened Stamina
  import opened Daily
  import opened Plans
  import opened StudentId

  datatype NewContent = NewContent(skill: bool, belts: bool)

  /**
   * A complete profile record, as `saveProfile` writes it. Name, height,
   * weight and avatar are absent from a record that never had them; the body
   * mass index string is not modelled.
   */
  datatype ProfileRec = ProfileRec(
    name: Option<string>, height: Option<real>, weight: Option<real>, avatar: Option<string>,
    xp: int, unlockedBeltLevel: int, achievements: seq<string>, streak: int,
    daily: DailyRecord, history: seq<HistoryEntry>, trainingStats: Stats,
    customPlans: seq<CustomPlan>, createdAt: Option<int>, studentId: string, isNew: bool,
    newContent: NewContent, theme: string, stamina: int, maxStamina: int, lastStaminaUpdate: int)

  /**
   * A parsed profile document, possibly from an older version: every field may
   * be absent (`None` also stands for a value of the wrong JSON type).
   */
  datatype RawProfile = RawProfile(
    name: Option<string>, height: Option<real>, weight: Option<real>, avatar: Option<string>,
    xp: Option<int>, unlockedBeltLevel: Option<int>, achievements: Option<seq<string>>,
    streak: Option<int>, daily: Option<DailyRecord>, history: Option<seq<HistoryEntry>>,
    trainingStats: Option<Stats>, customPlans: Option<seq<CustomPlan>>, createdAt: Option<int>,
    studentId: Option<string>, isNew: bool, newContent: Option<NewContent>, theme: Option<string>,
    stamina: Option<int>, maxStamina: Option<int>, lastStaminaUpdate: Option<int>)

  const DefaultTheme: string := "default"
  const DefaultStamina: int := 100
  const DefaultMaxStamina: int := 100

  /** A string field that JavaScript reads as true: present and non-empty. */
  predicate TruthyString(s: Option<string>) { s.Some? && s.value != "" }

  /** A number field that JavaScript reads as true: present and non-zero. */
  predicate TruthyInt(n: Option<int>) { n.Some? && n.value != 0 }

  /** `if (!p.f) p.f = d` on a number field: an absent or zero number takes the default. */
  function IntOr(n: Option<int>, d: int): int {
    if TruthyInt(n) then n.value else d
  }

  /** `if (!p.f) p.f = d` on a string field: an absent or empty string takes the default. */
  function StringOr(s: Option<string>, d: string): string {
    if TruthyString(s) then s.value else d
  }

  /**
   * `ensureProfileIntegrity`: every missing or falsy optional field receives
   * its default; only an absent stamina becomes 100 (a stamina of 0 is kept),
   * while a maximum of 0 becomes 100. `now` is the repair time used for a
   * missing stamina timestamp.
   */
  function Repair(raw: RawProfile, now: int): (r: ProfileRec)
    requires raw.xp.Some?
    ensures r.xp == raw.xp.value && r.name == raw.name && r.isNew == raw.isNew
    ensures r.unlockedBeltLevel == (if TruthyInt(raw.unlockedBeltLevel) then raw.unlockedBeltLevel.value else 0)
    ensures r.streak == (if TruthyInt(raw.streak) then raw.streak.value else 0)
    ensures r.achievements == (if raw.achievements.Some? then raw.achievements.value else [])
    ensures r.history == (if raw.history.Some? then raw.history.value else [])
    ensures r.trainingStats == (if raw.trainingStats.Some? then raw.trainingStats.value else [])
    ensures r.customPlans == (if raw.customPlans.Some? then raw.customPlans.value else [])
    ensures r.daily == (if raw.daily.Some? then raw.daily.value else EmptyDaily)
    ensures r.newContent == (if raw.newContent.Some? then raw.newContent.value else NewContent(false, false))
    ensures r.studentId == (if TruthyString(raw.studentId) then raw.studentId.value else StudentIdFor(raw.createdAt))
    ensures r.theme == (if TruthyString(raw.theme) then raw.theme.value else DefaultTheme)
    ensures r.stamina == (if raw.stamina.Some? then raw.stamina.value else DefaultStamina)
    ensures r.maxStamina == (if TruthyInt(raw.maxStamina) then raw.maxStamina.value else DefaultMaxStamina)
    ensures r.lastStaminaUpdate == (if raw.lastStaminaUpdate.Some? then raw.lastStaminaUpdate.value else now)
  {
    ProfileRec(
      raw.name, raw.height, raw.weight, raw.avatar, raw.xp.value,
      IntOr(raw.unlockedBeltLevel, 0),
      raw.achievements.GetOr([]),
      IntOr(raw.streak, 0),
      raw.daily.GetOr(EmptyDaily),
      raw.history.GetOr([]),
      raw.trainingStats.GetOr([]),
      raw.customPlans.GetOr([]),
      raw.createdAt,
      StringOr(raw.studentId, StudentIdFor(raw.createdAt)),
      raw.isNew,
      raw.newContent.GetOr(NewContent(false, false)),
      StringOr(raw.theme, DefaultTheme),
      raw.stamina.GetOr(DefaultStamina),
      IntOr(raw.maxStamina, DefaultMaxStamina),
      raw.lastStaminaUpdate.GetOr(now))
  }

  /** The document `JSON.stringify` writes for a complete record: every field present. */
  function Embed(p: ProfileRec): (raw: RawProfile)
    ensures raw.xp == Some(p.xp)
  {
    RawProfile(
      p.name, p.height, p.weight, p.avatar, Some(p.xp), Some(p.unlockedBeltLevel), Some(p.achievements),
      Some(p.streak), Some(p.daily), Some(p.history), Some(p.trainingStats), Some(p.customPlans),
      p.createdAt, Some(p.studentId), p.isNew, Some(p.newContent), Some(p.theme), Some(p.stamina),
      Some(p.maxStamina), Some(p.lastStaminaUpdate))
  }

  /** The shape repair establishes: the fields it tests for truth are truthy. */
  predicate Repaired(p: ProfileRec) {
    p.studentId != "" && p.theme != "" && p.maxStamina != 0
  }

  lemma RepairEstablishes(raw: RawProfile, now: int)
    requires raw.xp.Some?
    ensures Repaired(Repair(raw, now))
  {
  }

  /**
   * A repaired record goes through storage and repair unchanged, whatever the
   * time of the second repair.
   */
  lemma RepairEmbedIdentity(p: ProfileRec, now: int)
    requires Repaired(p)
    ensures Repair(Embed(p), now) == p
  {
  }

  /** Integrity repair is idempotent. */
  lemma RepairIdempotent(raw: RawProfile, now: int, later: int)
    requires raw.xp.Some?
    ensures Repair(Embed(Repair(raw, now)), later) == Repair(raw, now)
  {
    RepairEstablishes(raw, now);
    RepairEmbedIdentity(Repair(raw, now), later);
  }

  /** `typeof newProfile.xp === 'number' && newProfile.name` */
  predicate ImportAccepted(raw: RawProfile) {
    raw.xp.Some? && TruthyString(raw.name)
  }

  // ----- the profile form -----

  datatype FormError = MissingName | BadHeight | BadWeight

  datatype FormData = FormData(name: string, height: real, weight: real)

  /** A height the form accepts: parsed and within 100-250 cm. */
  predicate HeightOk(h: Option<real>) { h.Some? && 100.0 <= h.value <= 250.0 }

  /** A weight the form accepts: parsed and within 30-250 kg. */
  predicate WeightOk(w: Option<real>) { w.Some? && 30.0 <= w.value <= 250.0 }

  /**
   * The checks of `handleSaveProfile`, in order: the trimmed name, then the
   * height, then the weight (`parseFloat` results; NaN is absent).
   */
  function ValidateForm(rawName: string, height: Option<real>, weight: Option<real>): (r: Result<FormData, FormError>)
    ensures r.Ok? <==> Trim(rawName) != "" && HeightOk(height) && WeightOk(weight)
    ensures r.Ok? ==> r.value == FormData(Trim(rawName), height.value, weight.value)
    ensures r == Err(MissingName) <==> Trim(rawName) == ""
    ensures r == Err(BadHeight) <==> Trim(rawName) != "" && !HeightOk(height)
    ensures r == Err(BadWeight) <==> Trim(rawName) != "" && HeightOk(height) && !WeightOk(weight)
  {
    var name := Trim(rawName);
    if name == "" then Err(MissingName)
    // `!altura || altura < 100 || altura > 250`; a zero height is also below 100
    else if height.None? || height.value == 0.0 || height.value < 100.0 || height.value > 250.0 then Err(BadHeight)
    else if weight.None? || weight.value == 0.0 || weight.value < 30.0 || weight.value > 250.0 then Err(BadWeight)
    else Ok(FormData(name, height.value, weight.value))
  }

  /**
   * The record `handleSaveProfile` creates when there is no profile yet: the
   * form's values and the chosen avatar, no progress, empty ledgers, plans and
   * daily record, full stamina, the default theme, and an id and timestamps
   * from the creation time. It is already in repaired form and marked new.
   */
  function NewProfile(form: FormData, avatar: string, now: int): (p: ProfileRec)
    ensures Repaired(p) && p.isNew
    ensures p.name == Some(form.name) && p.height == Some(form.height) && p.weight == Some(form.weight)
    ensures p.avatar == Some(avatar)
    ensures p.xp == 0 && p.unlockedBeltLevel == 0 && p.streak == 0
    ensures p.achievements == [] && p.history == [] && p.trainingStats == [] && p.customPlans == []
    ensures p.daily == EmptyDaily
    ensures !p.newContent.skill && !p.newContent.belts
    ensures p.theme == DefaultTheme
    ensures p.stamina == p.maxStamina == 100
    ensures p.createdAt == Some(now) && p.lastStaminaUpdate == now
    ensures p.studentId == StudentIdFor(Some(now))
  {
    ProfileRec(
      Some(form.name), Some(form.height), Some(form.weight), Some(avatar),
      0, 0, [], 0, EmptyDaily, [], [], [], Some(now), StudentIdFor(Some(now)), true,
      NewContent(false, false), DefaultTheme, DefaultStamina, DefaultMaxStamina, now)
  }

  /**
   * The record after `addXp(amount, trainingId)`: no change for a gain of 0 or
   * less; otherwise the XP, today's ledger entry and the exercise's completion
   * count go up.
   */
  function GainXp(p: ProfileRec, amount: int, trainingId: string, today: Date): ProfileRec
  {
    if amount <= 0 then p
    else p.(xp := p.xp + amount,
            history := LedgerAdd(p.history, today, amount),
            trainingStats := if trainingId != "" then BumpCount(p.trainingStats, trainingId) else p.trainingStats)
  }

  /**
   * A positive gain raises the XP and today's recorded XP by exactly the gain,
   * keeps at most one ledger entry per date, counts one more completion of the
   * exercise, and touches nothing else; any other gain changes nothing.
   */
  lemma GainXpSpec(p: ProfileRec, amount: int, id: string, today: Date, d: Date, other: string)
    requires UniqueDates(p.history) && id != ""
    ensures var r := GainXp(p, amount, id, today);
            (amount <= 0 ==> r == p)
            && (amount > 0 ==>
                  r.xp == p.xp + amount
                  && XpOn(r.history, d) == XpOn(p.history, d) + (if d == today then amount else 0)
                  && LedgerTotal(r.history) == LedgerTotal(p.history) + amount
                  && UniqueDates(r.history)
                  && CountOf(r.trainingStats, id) == CountOf(p.trainingStats, id) + 1
                  && (other != id ==> CountOf(r.trainingStats, other) == CountOf(p.trainingStats, other))
                  && DurationOf(r.trainingStats, other) == DurationOf(p.trainingStats, other)
                  && r == p.(xp := r.xp, history := r.history, trainingStats := r.trainingStats))
  {
    if amount > 0 {
      LedgerAddTotals(p.history, today, amount, d);
      LedgerAddKeepsUniqueDates(p.history, today, amount);
      BumpCountSpec(p.trainingStats, id, other);
    }
  }

  /** The record after a session's seconds are added to the exercise's statistics. */
  function WithDuration(p: ProfileRec, id: string, secs: int): ProfileRec
  {
    p.(trainingStats := AddDuration(p.trainingStats, id, secs))
  }

  /**
   * What ending one timed session does to the record: the XP and the XP
   * ledger grow by the award when it is positive, the exercise is counted
   * once more exactly then, and its time and the total training time grow by
   * the session's seconds. Stamina, level and everything else are untouched.
   */
  lemma SessionEndSpec(p: ProfileRec, award: int, id: string, today: Date, secs: int)
    requires UniqueDates(p.history) && id != ""
    ensures var r := WithDuration(GainXp(p, award, id, today), id, secs);
            var gained := if award > 0 then award else 0;
            && r.xp == p.xp + gained
            && LedgerTotal(r.history) == LedgerTotal(p.history) + gained
            && XpOn(r.history, today) == XpOn(p.history, today) + gained
            && CountOf(r.trainingStats, id) == CountOf(p.trainingStats, id) + (if award > 0 then 1 else 0)
            && DurationOf(r.trainingStats, id) == DurationOf(p.trainingStats, id) + secs
            && TotalSeconds(r.trainingStats) == TotalSeconds(p.trainingStats) + secs
            && r == p.(xp := r.xp, history := r.history, trainingStats := r.trainingStats)
  {
    var g := GainXp(p, award, id, today);
    GainXpSpec(p, award, id, today, today, id);
    AddDurationSpec(g.trainingStats, id, secs, id);
    AddDurationTotal(g.trainingStats, id, secs);
    if award > 0 {
      BumpCountTotal(p.trainingStats, id);
    }
  }

  const SkillSection: string := "seccao-skill"
  const BeltsSection: string := "seccao-cinturoes"

  /** The record after a visit to `sectionId`: the skill or belts new-content flag is cleared. */
  function Visited(p: ProfileRec, sectionId: string): ProfileRec
  {
    p.(newContent := NewContent(p.newContent.skill && sectionId != SkillSection,
                                p.newContent.belts && sectionId != BeltsSection))
  }

  /** The record after a promotion to `level`: the level is set and both new-content flags rise. */
  function Promoted(p: ProfileRec, level: int): ProfileRec
  {
    p.(unlockedBeltLevel := level, newContent := NewContent(true, true))
  }

  /**
   * The profile object. Each method changes its fields in place the way the
   * application does, and states the complete new record.
   */
  class Profile {
    var name: Option<string>
    var height: Option<real>
    var weight: Option<real>
    var avatar: Option<string>
    var xp: int
    var unlockedBeltLevel: int
    var achievements: seq<string>
    var streak: int
    var daily: DailyRecord
    var history: seq<HistoryEntry>
    var trainingStats: Stats
    var customPlans: seq<CustomPlan>
    var createdAt: Option<int>
    var studentId: string
    var isNew: bool
    var newContent: NewContent
    var theme: string
    var stamina: int
    var maxStamina: int
    var lastStaminaUpdate: int

    /** The record `JSON.stringify` would write for this object. */
    function Snapshot(): ProfileRec
      reads this
    {
      ProfileRec(name, height, weight, avatar, xp, unlockedBeltLevel, achievements, streak, daily,
                 history, trainingStats, customPlans, createdAt, studentId, isNew, newContent, theme,
                 stamina, maxStamina, lastStaminaUpdate)
    }

    /** The object `JSON.parse` builds from a record. */
    constructor (p: ProfileRec)
      ensures Snapshot() == p
    {
      name, height, weight, avatar := p.name, p.height, p.weight, p.avatar;
      xp, unlockedBeltLevel, achievements, streak := p.xp, p.unlockedBeltLevel, p.achievements, p.streak;
      daily, history, trainingStats, customPlans := p.daily, p.history, p.trainingStats, p.customPlans;
      createdAt, studentId, isNew, newContent := p.createdAt, p.studentId, p.isNew, p.newContent;
      theme, stamina, maxStamina, lastStaminaUpdate := p.theme, p.stamina, p.maxStamina, p.lastStaminaUpdate;
    }

    /**
     * `xp += amount` followed by `updateHistory`: today's ledger entry grows by
     * the gain (or is created), and the exercise's completion count rises by
     * one (its statistics are created if missing). A gain of 0 or less changes
     * nothing.
     */
    method AddXp(amount: int, trainingId: string, today: Date)
      modifies this`xp, this`history, this`trainingStats
      ensures Snapshot() == GainXp(old(Snapshot()), amount, trainingId, today)
    {
      if amount <= 0 {
        return;
      }
      xp := xp + amount;
      UpdateHistory(amount, trainingId, today);
    }

    /** `updateHistory`: merge the gain into today's entry, then count the completion. */
    method UpdateHistory(xpGained: int, trainingId: string, today: Date)
      modifies this`history, this`trainingStats
      ensures Snapshot() == old(Snapshot()).(
                history := LedgerAdd(old(history), today, xpGained),
                trainingStats := if trainingId != "" then BumpCount(old(trainingStats), trainingId)
                                 else old(trainingStats))
    {
      match FindDate(history, today) {
        case Some(k) =>
          history := history[k := HistoryEntry(today, history[k].xpGained + xpGained)];
        case None =>
          history := history + [HistoryEntry(today, xpGained)];
      }
      if trainingId != "" {
        trainingStats := BumpCount(trainingStats, trainingId);
      }
    }

    function StaminaOf(): StaminaState
      reads this
    {
      StaminaState(stamina, maxStamina, lastStaminaUpdate)
    }

    /**
     * `updateStamina` at time `now`; `credited` tells whether five whole minutes
     * had passed, in which case the profile is saved.
     */
    method UpdateStamina(now: int) returns (credited: bool)
      modifies this`stamina, this`lastStaminaUpdate
      ensures credited <==> MinutesSince(old(lastStaminaUpdate), now) >= RegenIntervalMins
      ensures StaminaOf() == Regenerate(old(StaminaOf()), now)
      ensures Snapshot() == old(Snapshot()).(stamina := stamina, lastStaminaUpdate := lastStaminaUpdate)
    {
      var diffMins := MinutesSince(lastStaminaUpdate, now);
      credited := diffMins >= RegenIntervalMins;
      if credited {
        var staminaToRegen := (diffMins / RegenIntervalMins) * RegenRate;
        stamina := Min(maxStamina, stamina + staminaToRegen);
        lastStaminaUpdate := now;
      }
    }

    /** `stamina -= cost` when a timed exercise starts. */
    method Spend(cost: int)
      modifies this`stamina
      ensures Snapshot() == old(Snapshot()).(stamina := old(stamina) - cost)
    {
      stamina := stamina - cost;
    }

    /**
     * `checkDailyChallenge`; `rand` stands for `Math.random()`. `rolled` tells
     * whether a new record was stored (and the profile saved).
     */
    method CheckDailyChallenge(today: Date, yesterday: Date, items: seq<TrainingItem>, rand: real)
      returns (rolled: bool)
      requires 0.0 <= rand < 1.0
      modifies this`daily, this`streak
      ensures rolled <==> old(daily).date != Some(today)
      ensures DailyState(daily, streak)
              == Rollover(DailyState(old(daily), old(streak)), today, yesterday, items,
                          old(unlockedBeltLevel), rand)
      ensures Snapshot() == old(Snapshot()).(daily := daily, streak := streak)
    {
      rolled := daily.date != Some(today);
      if rolled {
        if daily.date == Some(yesterday) && !daily.completed {
          streak := 0;
        }
        var available := ChallengePool(items, unlockedBeltLevel);
        var challenge := PickChallenge(available, rand);
        daily := DailyRecord(Some(today), challenge, false);
      }
    }

    /** `stats[id].totalDuration += secs`, creating the statistics if missing. */
    method RecordDuration(id: string, secs: int)
      modifies this`trainingStats
      ensures Snapshot() == WithDuration(old(Snapshot()), id, secs)
    {
      trainingStats := AddDuration(trainingStats, id, secs);
    }

    /** A successful promotion: the level becomes the target, both new-content flags rise. */
    method Promote(level: int)
      modifies this`unlockedBeltLevel, this`newContent
      ensures Snapshot() == Promoted(old(Snapshot()), level)
    {
      unlockedBeltLevel := level;
      newContent := NewContent(true, true);
    }

    /**
     * The flag clearing of `handleNavClick`: visiting the skill or the belts
     * section clears its flag; `changed` tells whether a flag was cleared.
     */
    method ClearNewContent(sectionId: string) returns (changed: bool)
      modifies this`newContent
      ensures changed <==> (sectionId == SkillSection && old(newContent.skill))
                           || (sectionId == BeltsSection && old(newContent.belts))
      ensures Snapshot() == Visited(old(Snapshot()), sectionId)
    {
      changed := false;
      if sectionId == SkillSection && newContent.skill {
        newContent := newContent.(skill := false);
        changed := true;
      }
      if sectionId == BeltsSection && newContent.belts {
        newContent := newContent.(belts := false);
        changed := true;
      }
    }

    /** The edit branch of `handleSaveProfile`. */
    method Edit(form: FormData, selectedAvatar: string)
      modifies this`name, this`height, this`weight, this`avatar
      ensures Snapshot() == old(Snapshot()).(name := Some(form.name), height := Some(form.height),
                                             weight := Some(form.weight), avatar := Some(selectedAvatar))
    {
      name, height, weight, avatar := Some(form.name), Some(form.height), Some(form.weight), Some(selectedAvatar);
    }

    /** `customPlans.push(plan)` */
    method AddPlan(plan: CustomPlan)
      modifies this`customPlans
      ensures Snapshot() == old(Snapshot()).(customPlans := old(customPlans) + [plan])
    {
      customPlans := customPlans + [plan];
    }

    /** `handleThemeSelect`: store the chosen theme key. */
    method SetTheme(key: string)
      modifies this`theme
      ensures Snapshot() == old(Snapshot()).(theme := key)
    {
      theme := key;
    }

    /** `userProfile.isNew = false` once onboarding has started. */
    method ClearIsNew()
      modifies this`isNew
      ensures Snapshot() == old(Snapshot()).(isNew := false)
    {
      isNew := false;
    }
  }
}
