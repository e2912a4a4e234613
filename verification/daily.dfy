/**
 * The daily challenge rotation (app.js:721-747): at most one new challenge per
 * calendar day, drawn from the exercises the current belt allows, and the
 * streak rule applied when the previous day's challenge was left undone.
 */
module Daily {
  import opened Base
  import opened Catalog
  import opened Ledger

  /**
   * The `daily` record. A repaired profile may hold the empty record `{}`, whose
   * date and challenge are absent and whose `completed` is falsy.
   */
  datatype DailyRecord = DailyRecord(date: Option<Date>, challenge: Option<TrainingItem>, completed: bool)

  const EmptyDaily: DailyRecord := DailyRecord(None, None, false)

  /** Items offered as a challenge: allowed at the current belt and worth some XP. */
  predicate Eligible(item: TrainingItem, level: int) {
    item.requiredBelt <= level && item.xp > 0
  }

  function ChallengePool(items: seq<TrainingItem>, level: int): (r: seq<TrainingItem>)
    ensures forall x :: x in r <==> x in items && Eligible(x, level)
  {
    Filter(items, x => Eligible(x, level))
  }

  /** `Math.floor(rand * n)` for `rand = Math.random()` in [0, 1). */
  function PickIndex(rand: real, n: nat): (k: nat)
    requires 0.0 <= rand < 1.0 && n > 0
    ensures k < n
  {
    var x := rand * n as real;
    assert x < n as real;
    x.Floor
  }

  /** The random element of a pool, or none for an empty pool. */
  function PickChallenge(pool: seq<TrainingItem>, rand: real): (r: Option<TrainingItem>)
    requires 0.0 <= rand < 1.0
    ensures r.Some? <==> |pool| > 0
    ensures r.Some? ==> r.value in pool
  {
    if |pool| > 0 then Some(pool[PickIndex(rand, |pool|)]) else None
  }

  /** The streak after a rollover: reset only when yesterday's challenge was left undone. */
  function StreakAfter(d: DailyRecord, streak: int, yesterday: Date): int
  {
    if d.date == Some(yesterday) && !d.completed then 0 else streak
  }

  /** The daily state that `checkDailyChallenge` leaves behind. */
  datatype DailyState = DailyState(daily: DailyRecord, streak: int)

  /**
   * `checkDailyChallenge` on the daily record and streak: nothing happens while
   * the record is dated today; otherwise the streak rule is applied and a
   * fresh, uncompleted challenge dated today replaces the record.
   */
  function Rollover(s: DailyState, today: Date, yesterday: Date, items: seq<TrainingItem>,
                    level: int, rand: real): DailyState
    requires 0.0 <= rand < 1.0
  {
    if s.daily.date == Some(today) then s
    else DailyState(DailyRecord(Some(today), PickChallenge(ChallengePool(items, level), rand), false),
                    StreakAfter(s.daily, s.streak, yesterday))
  }

  /**
   * A stale record is replaced by an uncompleted record dated today whose
   * challenge is an eligible item, and is empty only when none is eligible;
   * the streak becomes 0 exactly when the old record is yesterday's and
   * was not completed.
   */
  lemma RolloverSpec(s: DailyState, today: Date, yesterday: Date, items: seq<TrainingItem>,
                     level: int, rand: real)
    requires 0.0 <= rand < 1.0
    requires s.daily.date != Some(today)
    ensures var r := Rollover(s, today, yesterday, items, level, rand);
            r.daily.date == Some(today) && !r.daily.completed
            && (r.daily.challenge.Some? ==>
                  r.daily.challenge.value in items && Eligible(r.daily.challenge.value, level))
            && (r.daily.challenge.None? <==> forall x :: x in items ==> !Eligible(x, level))
            && (r.streak == 0 || r.streak == s.streak)
            && (s.daily.date == Some(yesterday) && !s.daily.completed ==> r.streak == 0)
            && (s.daily.date != Some(yesterday) || s.daily.completed ==> r.streak == s.streak)
  {
    var pool := ChallengePool(items, level);
    if |pool| > 0 {
      assert pool[0] in pool;
    }
    if !forall x :: x in items ==> !Eligible(x, level) {
      var x :| x in items && Eligible(x, level);
      assert x in pool;
    }
  }

  /** A second check on the same day keeps the record and the streak as they are. */
  lemma RolloverOncePerDay(s: DailyState, today: Date, yesterday: Date, items: seq<TrainingItem>,
                           level: int, rand: real, rand': real)
    requires 0.0 <= rand < 1.0 && 0.0 <= rand' < 1.0
    ensures var r := Rollover(s, today, yesterday, items, level, rand);
            Rollover(r, today, yesterday, items, level, rand') == r
  {
  }

  /** The streak is never increased by a rollover. */
  lemma RolloverNeverRaisesStreak(s: DailyState, today: Date, yesterday: Date,
                                  items: seq<TrainingItem>, level: int, rand: real)
    requires 0.0 <= rand < 1.0 && s.streak >= 0
    ensures 0 <= Rollover(s, today, yesterday, items, level, rand).streak <= s.streak
  {
  }
}
