/**
 * Stamina regeneration (app.js:685-704): one point per full five minutes since
 * the last credited update, clamped to the maximum.
 */
module Stamina {

  const RegenRate: int := 1
  const RegenIntervalMins: int := 5
  const MsPerMinute: int := 60000

  /** The stamina part of a profile; `lastUpdate` is a millisecond timestamp. */
  datatype StaminaState = StaminaState(stamina: int, maxStamina: int, lastUpdate: int)

  /** `Math.floor((now - lastUpdate) / 60000)`: whole minutes, rounding down. */
  function MinutesSince(lastUpdate: int, now: int): int
  {
    (now - lastUpdate) / MsPerMinute
  }

  function Min(a: int, b: int): int { if a <= b then a else b }

  /**
   * The state after `updateStamina` at time `now`: below five whole minutes,
   * nothing changes; otherwise stamina gains one point per five minutes,
   * clamped to the maximum, and the timestamp becomes `now`.
   */
  function Regenerate(s: StaminaState, now: int): (r: StaminaState)
    ensures r.maxStamina == s.maxStamina
  {
    var mins := MinutesSince(s.lastUpdate, now);
    if mins >= RegenIntervalMins then
      s.(stamina := Min(s.maxStamina, s.stamina + (mins / RegenIntervalMins) * RegenRate),
         lastUpdate := now)
    else s
  }

  /** Less than five whole minutes: neither stamina nor the timestamp moves. */
  lemma RegenerateTooEarly(s: StaminaState, now: int)
    requires now - s.lastUpdate < RegenIntervalMins * MsPerMinute
    ensures Regenerate(s, now) == s
  {
  }

  /**
   * At least five whole minutes: stamina gains one point per whole five-minute
   * interval elapsed, capped at the maximum, and the timestamp is reset.
   */
  lemma RegenerateCredits(s: StaminaState, now: int)
    requires now - s.lastUpdate >= RegenIntervalMins * MsPerMinute
    ensures var r := Regenerate(s, now);
            var credit := (now - s.lastUpdate) / (RegenIntervalMins * MsPerMinute);
            && r.lastUpdate == now
            && r.maxStamina == s.maxStamina
            && (s.stamina + credit <= s.maxStamina ==> r.stamina == s.stamina + credit)
            && (s.stamina + credit > s.maxStamina ==> r.stamina == s.maxStamina)
  {
    var d := now - s.lastUpdate;
    var m := d / MsPerMinute;
    assert m >= RegenIntervalMins;
    var q := m / RegenIntervalMins;
    // floor(floor(d / 60000) / 5) == floor(d / 300000)
    assert q * 300000 <= d < q * 300000 + 300000 by {
      assert m * 60000 <= d < m * 60000 + 60000;
      assert q * 5 <= m < q * 5 + 5;
    }
  }

  /** Stamina within [0, maxStamina] stays within it. */
  lemma RegenerateKeepsBounds(s: StaminaState, now: int)
    requires 0 <= s.stamina <= s.maxStamina
    ensures var r := Regenerate(s, now);
            s.stamina <= r.stamina <= r.maxStamina
  {
  }

  /** A second update at the same instant changes nothing. */
  lemma RegenerateIdempotent(s: StaminaState, now: int)
    ensures Regenerate(Regenerate(s, now), now) == Regenerate(s, now)
  {
  }

  /**
   * Minutes left over when the timestamp is reset are lost: updates after 7
   * and then 3 more minutes credit 1 point, a single update after 10 credits 2.
   */
  lemma RegenerateDropsLeftoverMinutes()
    ensures var s := StaminaState(50, 100, 0);
            Regenerate(Regenerate(s, 7 * MsPerMinute), 10 * MsPerMinute).stamina == 51
            && Regenerate(s, 10 * MsPerMinute).stamina == 52
  {
  }

  /** The worked example: 12 minutes add 2 points and reset the timestamp. */
  lemma RegenerateTwelveMinutes(s: StaminaState)
    requires s.stamina + 2 <= s.maxStamina
    ensures Regenerate(s, s.lastUpdate + 12 * MsPerMinute)
            == s.(stamina := s.stamina + 2, lastUpdate := s.lastUpdate + 12 * MsPerMinute)
  {
  }
}
