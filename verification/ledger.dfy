/**
 * The two progress ledgers of a profile: the XP history (one entry per
 * calendar day, app.js:668-675) and the per-exercise training statistics
 * (app.js:677-682, 849-852), with the aggregates shown on the statistics tab
 * (app.js:571-577).
 */
module Ledger {
  import opened Base
  import opened Rounding

  /** A calendar day as the `YYYY-MM-DD` string the application stores. */
  type Date = string

  datatype HistoryEntry = HistoryEntry(date: Date, xpGained: int)

  /** At most one history entry per date. */
  predicate UniqueDates(h: seq<HistoryEntry>) {
    forall i, j :: 0 <= i < j < |h| ==> h[i].date != h[j].date
  }

  /** `history.find(h => h.date === d)`, as the index of the first match. */
  function FindDate(h: seq<HistoryEntry>, d: Date): (r: Option<nat>)
    ensures r.Some? ==> r.value < |h| && h[r.value].date == d
                        && forall j :: 0 <= j < r.value ==> h[j].date != d
    ensures r.None? <==> forall j :: 0 <= j < |h| ==> h[j].date != d
  {
    if h == [] then None
    else if h[0].date == d then Some(0)
    else match FindDate(h[1..], d)
         case None => None
         case Some(k) => Some(k + 1)
  }

  /**
   * `updateHistory`'s ledger step: the first entry dated `today` grows by
   * `amount`; without one, a new `{today, amount}` entry is appended.
   */
  function LedgerAdd(h: seq<HistoryEntry>, today: Date, amount: int): seq<HistoryEntry>
  {
    match FindDate(h, today)
    case Some(k) => h[k := HistoryEntry(today, h[k].xpGained + amount)]
    case None => h + [HistoryEntry(today, amount)]
  }

  /** The XP recorded for one date: the sum of its entries. */
  function XpOn(h: seq<HistoryEntry>, d: Date): int
  {
    if h == [] then 0
    else XpOn(h[..|h| - 1], d) + (if h[|h| - 1].date == d then h[|h| - 1].xpGained else 0)
  }

  /** The XP recorded over all dates. */
  function LedgerTotal(h: seq<HistoryEntry>): int
  {
    if h == [] then 0 else LedgerTotal(h[..|h| - 1]) + h[|h| - 1].xpGained
  }

  /** The ledger keeps at most one entry per date. */
  lemma LedgerAddKeepsUniqueDates(h: seq<HistoryEntry>, today: Date, amount: int)
    requires UniqueDates(h)
    ensures UniqueDates(LedgerAdd(h, today, amount))
  {
  }

  /** A gain is merged into today's entry or creates exactly one new entry. */
  lemma LedgerAddShape(h: seq<HistoryEntry>, today: Date, amount: int)
    ensures var r := LedgerAdd(h, today, amount);
            (FindDate(h, today).Some? ==> |r| == |h|)
            && (FindDate(h, today).None? ==> |r| == |h| + 1 && r[|h|] == HistoryEntry(today, amount))
            && (forall j :: 0 <= j < |h| && h[j].date != today ==> r[j] == h[j])
  {
  }

  /** Replacing one entry changes the per-date sums only by the difference. */
  lemma {:induction false} XpOnUpdate(h: seq<HistoryEntry>, k: nat, e: HistoryEntry, d: Date)
    requires k < |h| && e.date == h[k].date
    ensures XpOn(h[k := e], d) == XpOn(h, d) + (if d == e.date then e.xpGained - h[k].xpGained else 0)
  {
    var n := |h| - 1;
    if k < n {
      assert h[k := e][..n] == h[..n][k := e];
      XpOnUpdate(h[..n], k, e, d);
    } else {
      assert h[k := e][..n] == h[..n];
    }
  }

  lemma {:induction false} LedgerTotalUpdate(h: seq<HistoryEntry>, k: nat, e: HistoryEntry)
    requires k < |h|
    ensures LedgerTotal(h[k := e]) == LedgerTotal(h) + e.xpGained - h[k].xpGained
  {
    var n := |h| - 1;
    if k < n {
      assert h[k := e][..n] == h[..n][k := e];
      LedgerTotalUpdate(h[..n], k, e);
    } else {
      assert h[k := e][..n] == h[..n];
    }
  }

  /**
   * Adding a gain raises today's recorded XP and the ledger total by exactly
   * the gain and leaves every other date's XP unchanged.
   */
  lemma LedgerAddTotals(h: seq<HistoryEntry>, today: Date, amount: int, d: Date)
    ensures XpOn(LedgerAdd(h, today, amount), d) == XpOn(h, d) + (if d == today then amount else 0)
    ensures LedgerTotal(LedgerAdd(h, today, amount)) == LedgerTotal(h) + amount
  {
    var r := LedgerAdd(h, today, amount);
    match FindDate(h, today)
    case Some(k) =>
      XpOnUpdate(h, k, HistoryEntry(today, h[k].xpGained + amount), d);
      LedgerTotalUpdate(h, k, HistoryEntry(today, h[k].xpGained + amount));
    case None =>
      assert r[..|r| - 1] == h;
  }

  /** Two gains on the same day leave a single entry for that day. */
  lemma SameDayGainsMerge(h: seq<HistoryEntry>, today: Date, a: int, b: int)
    requires UniqueDates(h)
    ensures var r := LedgerAdd(LedgerAdd(h, today, a), today, b);
            UniqueDates(r) && FindDate(r, today).Some?
            && |r| == |LedgerAdd(h, today, a)|
  {
    var r1 := LedgerAdd(h, today, a);
    assert FindDate(r1, today).Some? by {
      match FindDate(h, today)
      case Some(k) => assert r1[k].date == today;
      case None => assert r1[|h|].date == today;
    }
    var k := FindDate(r1, today).value;
    var r := LedgerAdd(r1, today, b);
    assert r[k].date == today;
    LedgerAddKeepsUniqueDates(h, today, a);
    LedgerAddKeepsUniqueDates(r1, today, b);
  }

  // ----- training statistics -----

  /** One key of the `trainingStats` object: `{count, totalDuration}` for an exercise. */
  datatype StatEntry = StatEntry(id: string, count: int, totalDuration: int)

  /** Object keys are unique. */
  predicate UniqueIds(s: seq<StatEntry>) {
    forall i, j :: 0 <= i < j < |s| ==> s[i].id != s[j].id
  }

  /** `trainingStats` as its keys in insertion order (the order `Object.keys` reports). */
  type Stats = s: seq<StatEntry> | UniqueIds(s) witness []

  function FindStat(s: Stats, id: string): (r: Option<nat>)
    ensures r.Some? ==> r.value < |s| && s[r.value].id == id
    ensures r.None? <==> forall j :: 0 <= j < |s| ==> s[j].id != id
  {
    if s == [] then None
    else if s[0].id == id then Some(0)
    else match FindStat(s[1..], id)
         case None => None
         case Some(k) => Some(k + 1)
  }

  predicate HasKey(s: Stats, id: string) {
    exists j :: 0 <= j < |s| && s[j].id == id
  }

  /** `trainingStats[id].count`, reading an absent key as 0. */
  function CountOf(s: Stats, id: string): int {
    match FindStat(s, id)
    case Some(k) => s[k].count
    case None => 0
  }

  /** `trainingStats[id].totalDuration`, reading an absent key as 0. */
  function DurationOf(s: Stats, id: string): int {
    match FindStat(s, id)
    case Some(k) => s[k].totalDuration
    case None => 0
  }

  /** `if (!stats[id]) stats[id] = {count: 0, totalDuration: 0}` */
  function Touch(s: Stats, id: string): (r: Stats)
    ensures FindStat(r, id).Some?
    ensures FindStat(s, id).Some? ==> r == s
    ensures FindStat(s, id).None? ==> r == s + [StatEntry(id, 0, 0)]
  {
    if FindStat(s, id).Some? then s
    else
      var r := s + [StatEntry(id, 0, 0)];
      assert r[|s|].id == id;
      r
  }

  /** `stats[id].count++` after creating the key if needed. */
  function BumpCount(s: Stats, id: string): Stats
  {
    var t := Touch(s, id);
    var k := FindStat(t, id).value;
    t[k := t[k].(count := t[k].count + 1)]
  }

  /** `stats[id].totalDuration += secs` after creating the key if needed. */
  function AddDuration(s: Stats, id: string, secs: int): Stats
  {
    var t := Touch(s, id);
    var k := FindStat(t, id).value;
    t[k := t[k].(totalDuration := t[k].totalDuration + secs)]
  }

  lemma {:induction false} FindStatUnique(s: Stats, id: string, k: nat)
    requires k < |s| && s[k].id == id
    ensures FindStat(s, id) == Some(k)
  {
    match FindStat(s, id)
    case None =>
    case Some(j) =>
  }

  /**
   * A completion raises that exercise's count by one, adds the key if it was
   * missing, and leaves every duration and every other count unchanged.
   */
  lemma BumpCountSpec(s: Stats, id: string, other: string)
    ensures CountOf(BumpCount(s, id), id) == CountOf(s, id) + 1
    ensures other != id ==> CountOf(BumpCount(s, id), other) == CountOf(s, other)
    ensures DurationOf(BumpCount(s, id), other) == DurationOf(s, other)
    ensures HasKey(BumpCount(s, id), other) <==> HasKey(s, other) || other == id
  {
    var t := Touch(s, id);
    var k := FindStat(t, id).value;
    var r := BumpCount(s, id);
    FindStatUnique(r, id, k);
    match FindStat(s, other)
    case Some(j) =>
      FindStatUnique(t, other, j);
      FindStatUnique(r, other, j);
    case None =>
      if other != id {
        assert forall j :: 0 <= j < |r| ==> r[j].id != other;
      } else {
        FindStatUnique(t, id, |s|);
      }
  }

  /**
   * Recording a session adds its seconds to that exercise's total only, and
   * adds the key if it was missing; no count changes.
   */
  lemma AddDurationSpec(s: Stats, id: string, secs: int, other: string)
    ensures DurationOf(AddDuration(s, id, secs), id) == DurationOf(s, id) + secs
    ensures other != id ==> DurationOf(AddDuration(s, id, secs), other) == DurationOf(s, other)
    ensures CountOf(AddDuration(s, id, secs), other) == CountOf(s, other)
    ensures HasKey(AddDuration(s, id, secs), other) <==> HasKey(s, other) || other == id
  {
    var t := Touch(s, id);
    var k := FindStat(t, id).value;
    var r := AddDuration(s, id, secs);
    FindStatUnique(r, id, k);
    match FindStat(s, other)
    case Some(j) =>
      FindStatUnique(t, other, j);
      FindStatUnique(r, other, j);
    case None =>
      if other != id {
        assert forall j :: 0 <= j < |r| ==> r[j].id != other;
      } else {
        FindStatUnique(t, id, |s|);
      }
  }

  // ----- statistics tab -----

  /** `Object.values(stats).reduce((acc, v) => acc + v.totalDuration, 0)` */
  function TotalSeconds(s: seq<StatEntry>): int
  {
    if s == [] then 0 else TotalSeconds(s[..|s| - 1]) + s[|s| - 1].totalDuration
  }

  lemma {:induction false} TotalSecondsUpdate(s: seq<StatEntry>, k: nat, e: StatEntry)
    requires k < |s|
    ensures TotalSeconds(s[k := e]) == TotalSeconds(s) + e.totalDuration - s[k].totalDuration
  {
    var n := |s| - 1;
    if k < n {
      assert s[k := e][..n] == s[..n][k := e];
      TotalSecondsUpdate(s[..n], k, e);
    } else {
      assert s[k := e][..n] == s[..n];
    }
  }

  /** Creating an empty entry adds no training time. */
  lemma TouchTotal(s: Stats, id: string)
    ensures TotalSeconds(Touch(s, id)) == TotalSeconds(s)
  {
    if FindStat(s, id).None? {
      var t := Touch(s, id);
      assert t[..|t| - 1] == s;
    }
  }

  /** The total training time grows by exactly the seconds of a recorded session. */
  lemma AddDurationTotal(s: Stats, id: string, secs: int)
    ensures TotalSeconds(AddDuration(s, id, secs)) == TotalSeconds(s) + secs
  {
    var t := Touch(s, id);
    var k := FindStat(t, id).value;
    var e := t[k].(totalDuration := t[k].totalDuration + secs);
    assert AddDuration(s, id, secs) == t[k := e];
    TouchTotal(s, id);
    TotalSecondsUpdate(t, k, e);
  }

  /** Counting a completion leaves the total training time unchanged. */
  lemma BumpCountTotal(s: Stats, id: string)
    ensures TotalSeconds(BumpCount(s, id)) == TotalSeconds(s)
  {
    var t := Touch(s, id);
    var k := FindStat(t, id).value;
    var e := t[k].(count := t[k].count + 1);
    assert BumpCount(s, id) == t[k := e];
    TouchTotal(s, id);
    TotalSecondsUpdate(t, k, e);
  }

  /** The displayed total: `Math.round(totalSeconds / 60)` minutes. */
  function TotalMinutes(s: seq<StatEntry>): int
  {
    Round(TotalSeconds(s), 60)
  }

  /**
   * `keys.reduce((a, b) => count[a] > count[b] ? a : b)`: a left fold over the
   * keys in order, as the index of the chosen key.
   */
  function FavouriteIndex(s: seq<StatEntry>): (r: nat)
    requires |s| > 0
    ensures r < |s|
  {
    if |s| == 1 then 0
    else
      var a := FavouriteIndex(s[..|s| - 1]);
      if s[a].count > s[|s| - 1].count then a else |s| - 1
  }

  /** The favourite exercise, or none when no exercise has statistics. */
  function Favourite(s: seq<StatEntry>): Option<string>
  {
    if s == [] then None else Some(s[FavouriteIndex(s)].id)
  }

  /**
   * The favourite has the highest count, and it is the LAST key with that
   * count: a tie goes to the key inserted later.
   */
  lemma {:induction false} FavouriteIsLastMaximum(s: seq<StatEntry>)
    requires |s| > 0
    ensures var f := FavouriteIndex(s);
            (forall j :: 0 <= j < |s| ==> s[j].count <= s[f].count)
            && (forall j :: f < j < |s| ==> s[j].count < s[f].count)
  {
    if |s| > 1 {
      var p := s[..|s| - 1];
      FavouriteIsLastMaximum(p);
      var a := FavouriteIndex(p);
      assert forall j :: 0 <= j < |p| ==> s[j] == p[j];
    }
  }

  /** No statistics means no favourite; otherwise the favourite is one of the keys. */
  lemma FavouriteIsKey(s: seq<StatEntry>)
    ensures Favourite(s).None? <==> s == []
    ensures Favourite(s).Some? ==> exists j :: 0 <= j < |s| && s[j].id == Favourite(s).value
  {
    if s != [] {
      var f := FavouriteIndex(s);
      assert s[f].id == Favourite(s).value;
    }
  }
}
