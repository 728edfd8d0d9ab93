/**
 * The daily habit ledger of HabitCheckbox.jsx: a fixed catalog of ten
 * habits, a per-user, per-day record list stored under
 * `habits_<userName>_<today>`, the toggle, the derived completion
 * percentage, the save step that runs after every change, and the handler
 * of the window's `habitsReset` event.
 *
 * React's state and effects become a `Ledger` object whose methods replace
 * `habits` and then run the save step explicitly; the window's listener
 * list for `habitsReset` becomes a `ResetChannel` whose `Publish` calls each
 * registered ledger's `HandleReset` in registration order.
 */
module HabitCheckbox {
  import opened Wrappers
  import opened Storage

  // ---------------------------------------------------------------------
  // The catalog
  // ---------------------------------------------------------------------

  datatype HabitDefinition = HabitDefinition(id: string, caption: string, category: string)

  /** The entries of `defaultHabits`, in the order the source lists them. */
  function CatalogEntry(i: nat): HabitDefinition
    requires i < 10
  {
    match i
    case 0 => HabitDefinition("exercise", "🏃‍♀️ Exercise (30 min)", "Health")
    case 1 => HabitDefinition("water", "💧 Drink 8 glasses of water", "Health")
    case 2 => HabitDefinition("reading", "📚 Read for 20 minutes", "Learning")
    case 3 => HabitDefinition("meditation", "🧘‍♀️ Meditate (10 min)", "Wellness")
    case 4 => HabitDefinition("sleep", "😴 Sleep 7-8 hours", "Health")
    case 5 => HabitDefinition("gratitude", "🙏 Practice gratitude", "Wellness")
    case 6 => HabitDefinition("healthy-meal", "🥗 Eat healthy meals", "Health")
    case 7 => HabitDefinition("social", "👥 Connect with loved ones", "Social")
    case 8 => HabitDefinition("learn", "💡 Learn something new", "Learning")
    case _ => HabitDefinition("organize", "📝 Organize workspace", "Productivity")
  }

  /** `defaultHabits`: the ten entries above. */
  const Catalog: seq<HabitDefinition> := [
    CatalogEntry(0), CatalogEntry(1), CatalogEntry(2), CatalogEntry(3), CatalogEntry(4),
    CatalogEntry(5), CatalogEntry(6), CatalogEntry(7), CatalogEntry(8), CatalogEntry(9)
  ]

  /** No two records share an id. */
  predicate DistinctIds(hs: seq<Habit>) {
    forall i, j :: 0 <= i < j < |hs| ==> hs[i].id != hs[j].id
  }

  /** A day nobody has touched yet: the catalog, in order, with nothing completed. */
  predicate IsFreshDay(hs: seq<Habit>) {
    && |hs| == |Catalog|
    && forall i :: 0 <= i < |hs| ==>
         hs[i] == Habit(Catalog[i].id, Catalog[i].caption, Catalog[i].category, false)
  }

  /** `defaultHabits.map(h => ({ ...h, completed: false }))`. */
  function DefaultHabits(): (r: seq<Habit>)
    ensures IsFreshDay(r)
  {
    seq(|Catalog|, i requires 0 <= i < |Catalog| =>
      Habit(Catalog[i].id, Catalog[i].caption, Catalog[i].category, false))
  }

  // ---------------------------------------------------------------------
  // Derived progress
  // ---------------------------------------------------------------------

  /** `habits.filter(h => h.completed).length`. */
  function CompletedCount(hs: seq<Habit>): (n: nat)
    ensures n <= |hs|
    ensures n == 0 <==> forall i :: 0 <= i < |hs| ==> !hs[i].completed
    ensures n == |hs| <==> forall i :: 0 <= i < |hs| ==> hs[i].completed
  {
    if hs == [] then 0
    else (if hs[0].completed then 1 else 0) + CompletedCount(hs[1..])
  }

  /**
   * `Math.round(num / den)` on exact rationals: the integer nearest to
   * num/den, with a half rounded up.
   */
  function RoundHalfUp(num: int, den: int): (r: int)
    requires den > 0
    ensures -den < 2 * (den * r - num) <= den
  {
    var q := (2 * num + den) / (2 * den);
    var m := (2 * num + den) % (2 * den);
    assert 2 * num + den == (2 * den) * q + m;
    assert (2 * den) * q == 2 * (den * q);
    q
  }

  /** The bound of RoundHalfUp determines its result: there is only one such integer. */
  lemma RoundHalfUpUnique(num: int, den: int, r: int)
    requires den > 0
    requires -den < 2 * (den * r - num) <= den
    ensures RoundHalfUp(num, den) == r
  {
    var s := RoundHalfUp(num, den);
    if s > r {
      assert den * s - den * r == den * (s - r);
      MultiplyAtLeastOne(den, s - r);
    } else if s < r {
      assert den * r - den * s == den * (r - s);
      MultiplyAtLeastOne(den, r - s);
    }
  }

  lemma MultiplyAtLeastOne(den: int, k: int)
    requires den > 0 && k >= 1
    ensures den * k >= den
  {
    assert den * k == den + den * (k - 1);
  }

  /**
   * `completionPercentage`: Math.round(completed / total * 100). An empty
   * list gives 0/0, which is NaN in JavaScript; None stands for it.
   */
  function Percentage(hs: seq<Habit>): (p: Option<int>)
    ensures p.Some? <==> |hs| > 0
  {
    if |hs| == 0 then None
    else Some(RoundHalfUp(100 * CompletedCount(hs), |hs|))
  }

  /** The percentage of a non-empty list lies in 0..100, is 0 when nothing is done and 100 when everything is. */
  lemma PercentageBounds(hs: seq<Habit>)
    requires |hs| > 0
    ensures 0 <= Percentage(hs).value <= 100
    ensures CompletedCount(hs) == 0 ==> Percentage(hs).value == 0
    ensures CompletedCount(hs) == |hs| ==> Percentage(hs).value == 100
  {
    var t, c := |hs|, CompletedCount(hs);
    PercentOfRange(c, t);
    if c == 0 {
      RoundHalfUpUnique(0, t, 0);
    }
    if c == t {
      RoundHalfUpUnique(100 * t, t, 100);
    }
  }

  /** Rounding a fraction c/t of 0..1, scaled to percent, stays in 0..100. */
  lemma PercentOfRange(c: int, t: int)
    requires 0 <= c <= t && t > 0
    ensures 0 <= RoundHalfUp(100 * c, t) <= 100
  {
    ScaleBounds(t, RoundHalfUp(100 * c, t));
  }

  lemma ScaleBounds(t: int, p: int)
    requires t > 0
    ensures p < 0 ==> t * p <= -t
    ensures p > 100 ==> t * p >= 101 * t
  {
    if p < 0 {
      assert t * p == -(t * (-p));
      MultiplyAtLeastOne(t, -p);
    }
    if p > 100 {
      assert t * p == t * (p - 100) + 100 * t;
      MultiplyAtLeastOne(t, p - 100);
    }
  }

  /** On a ten-record list, such as the catalog's, each completed habit is worth exactly ten percent. */
  lemma PercentageOfTen(hs: seq<Habit>)
    requires |hs| == 10
    ensures Percentage(hs) == Some(10 * CompletedCount(hs))
  {
    RoundHalfUpUnique(100 * CompletedCount(hs), 10, 10 * CompletedCount(hs));
  }

  // ---------------------------------------------------------------------
  // Toggle
  // ---------------------------------------------------------------------

  /** `prev.map(h => h.id === habitId ? { ...h, completed: !h.completed } : h)`. */
  function Toggled(hs: seq<Habit>, habitId: string): (r: seq<Habit>)
    ensures |r| == |hs|
  {
    seq(|hs|, i requires 0 <= i < |hs| =>
      if hs[i].id == habitId then hs[i].(completed := !hs[i].completed) else hs[i])
  }

  /** Toggle flips `completed` exactly on the records with the given id; everything else keeps its place and value. */
  lemma ToggleFlipsOnlyMatching(hs: seq<Habit>, habitId: string)
    ensures |Toggled(hs, habitId)| == |hs|
    ensures forall i :: 0 <= i < |hs| ==>
      var r := Toggled(hs, habitId)[i];
      && r.id == hs[i].id && r.caption == hs[i].caption && r.category == hs[i].category
      && (r.completed != hs[i].completed <==> hs[i].id == habitId)
  {
  }

  /** Toggling the same id twice restores the list. */
  lemma ToggleTwice(hs: seq<Habit>, habitId: string)
    ensures Toggled(Toggled(hs, habitId), habitId) == hs
  {
  }

  /** Toggling an id no record carries changes nothing. */
  lemma ToggleUnknownId(hs: seq<Habit>, habitId: string)
    requires forall i :: 0 <= i < |hs| ==> hs[i].id != habitId
    ensures Toggled(hs, habitId) == hs
  {
  }

  /** The number of records with the given id whose `completed` equals `done`. */
  function Matching(hs: seq<Habit>, habitId: string, done: bool): (n: nat)
    ensures n <= |hs|
  {
    if hs == [] then 0
    else (if hs[0].id == habitId && hs[0].completed == done then 1 else 0) + Matching(hs[1..], habitId, done)
  }

  /** Toggling moves every matching open record to done and every matching done record back. */
  lemma {:induction false} ToggleCompletedCount(hs: seq<Habit>, habitId: string)
    ensures CompletedCount(Toggled(hs, habitId)) + Matching(hs, habitId, true)
         == CompletedCount(hs) + Matching(hs, habitId, false)
  {
    if hs != [] {
      assert Toggled(hs, habitId)[1..] == Toggled(hs[1..], habitId);
      ToggleCompletedCount(hs[1..], habitId);
    }
  }

  /** With distinct ids, the record at k is the only one with its id. */
  lemma {:induction false} MatchingUnique(hs: seq<Habit>, k: nat)
    requires DistinctIds(hs) && k < |hs|
    ensures Matching(hs, hs[k].id, hs[k].completed) == 1
    ensures Matching(hs, hs[k].id, !hs[k].completed) == 0
  {
    if k == 0 {
      MatchingAbsent(hs[1..], hs[0].id);
    } else {
      MatchingUnique(hs[1..], k - 1);
    }
  }

  lemma {:induction false} MatchingAbsent(hs: seq<Habit>, habitId: string)
    requires forall i :: 0 <= i < |hs| ==> hs[i].id != habitId
    ensures Matching(hs, habitId, true) == 0 && Matching(hs, habitId, false) == 0
  {
    if hs != [] {
      MatchingAbsent(hs[1..], habitId);
    }
  }

  /** Checking off one open habit of a ten-record list with distinct ids raises the percentage by exactly ten. */
  lemma CheckingOffAddsTen(hs: seq<Habit>, k: nat)
    requires |hs| == 10 && DistinctIds(hs) && k < 10 && !hs[k].completed
    ensures Percentage(Toggled(hs, hs[k].id)) == Some(Percentage(hs).value + 10)
  {
    ToggleCompletedCount(hs, hs[k].id);
    MatchingUnique(hs, k);
    PercentageOfTen(hs);
    PercentageOfTen(Toggled(hs, hs[k].id));
  }

  // ---------------------------------------------------------------------
  // The catalog's facts
  // ---------------------------------------------------------------------

  /** A fresh day has the ten catalog ids, all distinct, nothing completed, and 0 percent. */
  lemma FreshDayFacts(hs: seq<Habit>)
    requires IsFreshDay(hs)
    ensures |hs| == 10 && DistinctIds(hs)
    ensures forall i :: 0 <= i < |hs| ==> !hs[i].completed
    ensures CompletedCount(hs) == 0 && Percentage(hs) == Some(0)
  {
    FreshDayIds(hs);
    FreshDayOpen(hs);
    NothingDoneIsZero(hs);
  }

  lemma FreshDayIds(hs: seq<Habit>)
    requires IsFreshDay(hs)
    ensures |hs| == 10 && DistinctIds(hs)
  {
    CatalogIdsDistinct();
    assert forall i :: 0 <= i < |hs| ==> hs[i].id == Catalog[i].id;
  }

  lemma FreshDayOpen(hs: seq<Habit>)
    requires IsFreshDay(hs)
    ensures |hs| == 10 && forall i :: 0 <= i < |hs| ==> !hs[i].completed
  {
  }

  lemma NothingDoneIsZero(hs: seq<Habit>)
    requires |hs| == 10 && forall i :: 0 <= i < |hs| ==> !hs[i].completed
    ensures CompletedCount(hs) == 0 && Percentage(hs) == Some(0)
  {
    PercentageOfTen(hs);
  }

  /** The catalog's ids are pairwise different. */
  lemma CatalogIdsDistinct()
    ensures forall i, j :: 0 <= i < j < |Catalog| ==> Catalog[i].id != Catalog[j].id
  {
  }

  /** `getCategoryColor`: the five named categories have their own colour, everything else grey. */
  function CategoryColor(category: string): (c: string)
    ensures c == "#4CAF50" <==> category == "Health"
    ensures c == "#9C27B0" <==> category == "Wellness"
    ensures c == "#2196F3" <==> category == "Learning"
    ensures c == "#FF9800" <==> category == "Social"
    ensures c == "#F44336" <==> category == "Productivity"
    ensures c == "#757575" <==> category !in {"Health", "Wellness", "Learning", "Social", "Productivity"}
  {
    match category
    case "Health" => "#4CAF50"
    case "Wellness" => "#9C27B0"
    case "Learning" => "#2196F3"
    case "Social" => "#FF9800"
    case "Productivity" => "#F44336"
    case _ => "#757575"
  }

  /** Every catalog habit is drawn in a specific colour, never the fallback grey. */
  lemma CatalogCategoriesColoured()
    ensures forall i :: 0 <= i < |Catalog| ==> CategoryColor(Catalog[i].category) != "#757575"
  {
  }

  // ---------------------------------------------------------------------
  // Load, save and the reset signal, on values
  // ---------------------------------------------------------------------

  const ResetTopic := "habitsReset"

  /** The ledger's storage key: `habits_${userName}_${today}`. */
  function LedgerKey(userName: string, today: string): string {
    "habits_" + userName + "_" + today
  }

  /**
   * The initial state of `habits` (HabitCheckbox.jsx:34-46): a saved habit
   * document is returned as it is; a missing key, an empty string, or text
   * that does not parse as a habit list falls back to the catalog defaults.
   */
  function LoadHabits(st: map<string, Value>, userName: string, today: string): (r: seq<Habit>)
    ensures var key := LedgerKey(userName, today);
      if key in st && st[key].HabitsJson? then r == st[key].habits else IsFreshDay(r)
  {
    var key := LedgerKey(userName, today);
    if key in st && st[key].HabitsJson? then st[key].habits else DefaultHabits()
  }

  /** What the save step writes under the ledger key is what the next load for the same user and day returns. */
  lemma LoadAfterSave(st: map<string, Value>, userName: string, today: string, hs: seq<Habit>)
    ensures LoadHabits(st[LedgerKey(userName, today) := HabitsJson(hs)], userName, today) == hs
    ensures IsSaved(st[LedgerKey(userName, today) := HabitsJson(hs)], LedgerKey(userName, today))
  {
  }

  /** The calls of `onProgressUpdate` one save step makes: one with the percentage, or none without an observer. */
  function ReportOf(hasObserver: bool, hs: seq<Habit>): (r: seq<Option<int>>)
    ensures |r| == (if hasObserver then 1 else 0)
    ensures hasObserver ==> r[0] == Percentage(hs)
  {
    if hasObserver then [Percentage(hs)] else []
  }

  /**
   * The storage after the save effects that follow a `habitsReset`
   * broadcast started on `st`: for each listener key, in order, the
   * defaults are written when nothing was saved under it at dispatch time.
   */
  function ResetWrites(st: map<string, Value>, keys: seq<string>): map<string, Value> {
    if keys == [] then st
    else
      var prev := ResetWrites(st, keys[..|keys| - 1]);
      var key := keys[|keys| - 1];
      if IsSaved(st, key) then prev else prev[key := HabitsJson(DefaultHabits())]
  }

  /** The writes those save effects make, in the same order. */
  function ResetTrace(st: map<string, Value>, keys: seq<string>): seq<Effect> {
    if keys == [] then []
    else
      var key := keys[|keys| - 1];
      ResetTrace(st, keys[..|keys| - 1]) + (if IsSaved(st, key) then [] else [SetItem(key, HabitsJson(DefaultHabits()))])
  }

  /** Two users' keys for the same day coincide only when the users do. */
  lemma LedgerKeyInjective(u1: string, u2: string, today: string)
    ensures LedgerKey(u1, today) == LedgerKey(u2, today) <==> u1 == u2
  {
    if LedgerKey(u1, today) == LedgerKey(u2, today) {
      var key := LedgerKey(u1, today);
      assert |u1| == |u2|;
      assert u1 == key[7..7 + |u1|];
      assert u2 == LedgerKey(u2, today)[7..7 + |u2|];
    }
  }

  /** After the handlers for `keys` ran, a key is saved exactly when it was saved before or is one of theirs. */
  lemma {:induction false} SavedAfterResets(st: map<string, Value>, keys: seq<string>, key: string)
    ensures IsSaved(ResetWrites(st, keys), key) <==> IsSaved(st, key) || key in keys
  {
    if keys != [] {
      var init := keys[..|keys| - 1];
      SavedAfterResets(st, init, key);
      assert keys == init + [keys[|keys| - 1]];
    }
  }

  /** Reset handlers never overwrite or remove a saved key. */
  lemma {:induction false} ResetWritesKeepSaved(st: map<string, Value>, keys: seq<string>, key: string)
    requires IsSaved(st, key)
    ensures IsSaved(ResetWrites(st, keys), key)
    ensures ResetWrites(st, keys)[key] == st[key]
  {
    if keys != [] {
      ResetWritesKeepSaved(st, keys[..|keys| - 1], key);
    }
  }

  /** Reset handlers touch no key but their own. */
  lemma {:induction false} ResetWritesOnlyTheirKeys(st: map<string, Value>, keys: seq<string>, key: string)
    requires key !in keys
    ensures (key in ResetWrites(st, keys) <==> key in st)
    ensures key in st ==> ResetWrites(st, keys)[key] == st[key]
  {
    if keys != [] {
      ResetWritesOnlyTheirKeys(st, keys[..|keys| - 1], key);
    }
  }

  /** Every write after a broadcast puts the defaults under a listener key that was not saved at dispatch time. */
  lemma {:induction false} ResetTraceWritesUnsaved(st: map<string, Value>, keys: seq<string>, k: nat)
    requires k < |ResetTrace(st, keys)|
    ensures var e := ResetTrace(st, keys)[k];
      e.SetItem? && e.key in keys && !IsSaved(st, e.key) && e.value == HabitsJson(DefaultHabits())
  {
    var init := keys[..|keys| - 1];
    if k < |ResetTrace(st, init)| {
      ResetTraceWritesUnsaved(st, init, k);
      assert ResetTrace(st, init)[k].key in keys by {
        assert forall x :: x in init ==> x in keys;
      }
    }
  }

  /** One more key of a broadcast: its save effect, if any, on top of the earlier ones. */
  lemma ResetPrefixStep(st: map<string, Value>, keys: seq<string>, i: nat)
    requires i < |keys|
    ensures ResetWrites(st, keys[..i + 1]) ==
      if IsSaved(st, keys[i]) then ResetWrites(st, keys[..i]) else ResetWrites(st, keys[..i])[keys[i] := HabitsJson(DefaultHabits())]
    ensures ResetTrace(st, keys[..i + 1]) ==
      ResetTrace(st, keys[..i]) + if IsSaved(st, keys[i]) then [] else [SetItem(keys[i], HabitsJson(DefaultHabits()))]
  {
    assert keys[..i + 1][..i] == keys[..i];
  }

  // ---------------------------------------------------------------------
  // The component
  // ---------------------------------------------------------------------

  /** The keys of a list of ledgers on the given day. */
  function Keys(ls: seq<Ledger>, today: string): (ks: seq<string>)
    ensures |ks| == |ls|
  {
    if ls == [] then [] else Keys(ls[..|ls| - 1], today) + [LedgerKey(ls[|ls| - 1].userName, today)]
  }

  lemma {:induction false} KeyAt(ls: seq<Ledger>, today: string, i: nat)
    requires i < |ls|
    ensures Keys(ls, today)[i] == LedgerKey(ls[i].userName, today)
  {
    if i < |ls| - 1 {
      KeyAt(ls[..|ls| - 1], today, i);
    }
  }

  /**
   * Whether a ledger's reset handler replaces its records: nothing is saved
   * under its key in the storage the handler reads. Every handler of one
   * broadcast reads the storage as it was at dispatch time, because the
   * save effects run only after the last handler has returned.
   */
  predicate ResetsAt(st: map<string, Value>, l: Ledger, today: string) {
    !IsSaved(st, LedgerKey(l.userName, today))
  }

  /** A ledger whose handler has run but whose save effect has not: records as `resets` says, reports as before. */
  predicate Pending(l: Ledger, resets: bool, habits0: seq<Habit>, reports0: seq<Option<int>>)
    reads l
  {
    && l.habits == (if resets then DefaultHabits() else habits0)
    && l.reports == reports0
  }

  /**
   * What the reset broadcast did to a ledger that held `habits0` and
   * `reports0`: a fresh day and one more report, or nothing.
   */
  predicate Outcome(l: Ledger, resets: bool, habits0: seq<Habit>, reports0: seq<Option<int>>)
    reads l
  {
    if resets then
      && l.habits == DefaultHabits()
      && l.reports == reports0 + ReportOf(l.hasObserver, DefaultHabits())
    else
      && l.habits == habits0
      && l.reports == reports0
  }

  /** The `habits` of each ledger in `ls`. */
  function HabitsOf(ls: seq<Ledger>): (r: seq<seq<Habit>>)
    reads ls
    ensures |r| == |ls| && forall i :: 0 <= i < |ls| ==> r[i] == ls[i].habits
  {
    seq(|ls|, i reads ls requires 0 <= i < |ls| => ls[i].habits)
  }

  /** The reports each ledger in `ls` has made so far. */
  function ReportsOf(ls: seq<Ledger>): (r: seq<seq<Option<int>>>)
    reads ls
    ensures |r| == |ls| && forall i :: 0 <= i < |ls| ==> r[i] == ls[i].reports
  {
    seq(|ls|, i reads ls requires 0 <= i < |ls| => ls[i].reports)
  }

  /**
   * What the reset broadcast did to the ledgers `ls`, whose records and
   * reports were `habits0` and `reports0`, dispatched on storage `st`: each
   * ledger with nothing saved under its key in `st` holds a fresh day and
   * has reported it once more; every other ledger is as it was.
   */
  predicate ResetApplied(ls: seq<Ledger>, habits0: seq<seq<Habit>>, reports0: seq<seq<Option<int>>>,
                         st: map<string, Value>, today: string)
    reads ls
  {
    && |habits0| == |ls| && |reports0| == |ls|
    && forall j :: 0 <= j < |ls| ==> HandledAt(ls, habits0, reports0, st, today, j)
  }

  /** The j-th ledger of `ls` went through the broadcast as `ResetApplied` describes. */
  predicate HandledAt(ls: seq<Ledger>, habits0: seq<seq<Habit>>, reports0: seq<seq<Option<int>>>,
                      st: map<string, Value>, today: string, j: nat)
    reads ls
  {
    && j < |ls| && j < |habits0| && j < |reports0|
    && Outcome(ls[j], ResetsAt(st, ls[j], today), habits0[j], reports0[j])
  }

  /**
   * Two listeners of the same user whose key was not saved at dispatch time
   * both reset and both report: neither handler sees the other's save,
   * which runs later.
   */
  lemma SameUserListenersBothReset(ls: seq<Ledger>, habits0: seq<seq<Habit>>, reports0: seq<seq<Option<int>>>,
                                   st: map<string, Value>, today: string, j: nat, k: nat)
    requires ResetApplied(ls, habits0, reports0, st, today)
    requires j < k < |ls| && ls[j].userName == ls[k].userName && !IsSaved(st, LedgerKey(ls[j].userName, today))
    ensures ls[j].habits == DefaultHabits() && ls[k].habits == DefaultHabits()
    ensures ls[j].reports == reports0[j] + ReportOf(ls[j].hasObserver, DefaultHabits())
    ensures ls[k].reports == reports0[k] + ReportOf(ls[k].hasObserver, DefaultHabits())
  {
    assert HandledAt(ls, habits0, reports0, st, today, j);
    assert HandledAt(ls, habits0, reports0, st, today, k);
  }

  /** A mounted HabitCheckbox: its `habits` state and the values it reported through `onProgressUpdate`. */
  class Ledger {
    const browser: Browser
    const userName: string
    const hasObserver: bool
    var habits: seq<Habit>
    var reports: seq<Option<int>>

    /** Mount: load, register for `habitsReset` (first effect), then save (second effect). */
    constructor (browser: Browser, channel: ResetChannel, userName: string, today: string, hasObserver: bool)
      requires channel.Valid() && channel.browser == browser
      modifies browser, channel
      ensures this.browser == browser && this.userName == userName && this.hasObserver == hasObserver
      ensures habits == LoadHabits(old(browser.storage), userName, today)
      ensures browser.storage == old(browser.storage)[LedgerKey(userName, today) := HabitsJson(habits)]
      ensures browser.trace == old(browser.trace) + [SetItem(LedgerKey(userName, today), HabitsJson(habits))]
      ensures reports == ReportOf(hasObserver, habits)
      ensures channel.Valid() && channel.listeners == old(channel.listeners) + [this]
    {
      this.browser := browser;
      this.userName := userName;
      this.hasObserver := hasObserver;
      habits := LoadHabits(browser.storage, userName, today);
      reports := [];
      new;
      channel.Subscribe(this);
      Save(today);
    }

    /** `completionPercentage` of the current records. */
    function Progress(): (p: Option<int>)
      reads this
      ensures |habits| > 0 ==> p.Some? && 0 <= p.value <= 100
    {
      if |habits| > 0 then
        PercentageBounds(habits);
        Percentage(habits)
      else
        None
    }

    /** The save effect: persist the records under today's key and report the percentage. */
    method Save(today: string)
      modifies browser, this`reports
      ensures browser.storage == old(browser.storage)[LedgerKey(userName, today) := HabitsJson(habits)]
      ensures browser.trace == old(browser.trace) + [SetItem(LedgerKey(userName, today), HabitsJson(habits))]
      ensures reports == old(reports) + ReportOf(hasObserver, habits)
      ensures LoadHabits(browser.storage, userName, today) == habits
    {
      browser.SetItem(LedgerKey(userName, today), HabitsJson(habits));
      if hasObserver {
        reports := reports + [Percentage(habits)];
      }
    }

    /** `handleToggle(habitId)` followed by the save effect. */
    method Toggle(habitId: string, today: string)
      modifies browser, this
      ensures habits == Toggled(old(habits), habitId)
      ensures browser.storage == old(browser.storage)[LedgerKey(userName, today) := HabitsJson(habits)]
      ensures browser.trace == old(browser.trace) + [SetItem(LedgerKey(userName, today), HabitsJson(habits))]
      ensures reports == old(reports) + ReportOf(hasObserver, habits)
      ensures LoadHabits(browser.storage, userName, today) == habits
    {
      habits := Toggled(habits, habitId);
      Save(today);
    }

    /**
     * `handleReset`: when nothing is saved under today's key, replace the
     * records by a fresh day. The handler writes nothing itself; `resets`
     * says whether it changed the state, which makes the save effect run
     * once every handler of the broadcast has returned.
     */
    method HandleReset(today: string) returns (resets: bool)
      modifies this`habits
      ensures resets == ResetsAt(browser.storage, this, today)
      ensures habits == if resets then DefaultHabits() else old(habits)
    {
      var saved := browser.GetItem(LedgerKey(userName, today));
      resets := saved.None? || saved.value == EmptyText;
      if resets {
        habits := DefaultHabits();
      }
    }
  }

  /** The window's listener list for the `habitsReset` event. */
  class ResetChannel {
    const browser: Browser
    var listeners: seq<Ledger>

    /** Every listener shares this window's storage, and none is registered twice. */
    ghost predicate Valid()
      reads this
    {
      && (forall i :: 0 <= i < |listeners| ==> listeners[i].browser == browser)
      && (forall i, j :: 0 <= i < j < |listeners| ==> listeners[i] != listeners[j])
    }

    constructor (browser: Browser)
      ensures this.browser == browser && listeners == [] && Valid()
    {
      this.browser := browser;
      listeners := [];
    }

    /** `addEventListener`: a listener already registered is not added again. */
    method Subscribe(l: Ledger)
      requires Valid() && l.browser == browser
      modifies this
      ensures Valid()
      ensures listeners == if l in old(listeners) then old(listeners) else old(listeners) + [l]
    {
      if l !in listeners {
        listeners := listeners + [l];
      }
    }

    /** `removeEventListener` on unmount: drops the listener, keeps the others in order. */
    method Unsubscribe(l: Ledger)
      requires Valid()
      modifies this
      ensures Valid() && l !in listeners
      ensures l !in old(listeners) ==> listeners == old(listeners)
      ensures l in old(listeners) ==> exists k :: 0 <= k < |old(listeners)| && old(listeners)[k] == l &&
                                       listeners == old(listeners)[..k] + old(listeners)[k + 1..]
    {
      var k := 0;
      while k < |listeners| && listeners[k] != l
        invariant 0 <= k <= |listeners|
        invariant forall i :: 0 <= i < k ==> listeners[i] != l
      {
        k := k + 1;
      }
      if k < |listeners| {
        ghost var before := listeners;
        listeners := listeners[..k] + listeners[k + 1..];
        assert forall i :: 0 <= i < |listeners| ==> listeners[i] == (if i < k then before[i] else before[i + 1]);
      }
    }

    /**
     * The handlers of the first i listeners have run on storage `st0`, which
     * no handler writes; the others have not run.
     */
    ghost predicate HandledUpTo(i: nat, st0: map<string, Value>, today: string, habits0: seq<seq<Habit>>,
                                reports0: seq<seq<Option<int>>>)
      reads this, browser, listeners
    {
      && i <= |listeners| && |habits0| == |listeners| && |reports0| == |listeners|
      && browser.storage == st0
      && (forall j :: 0 <= j < |listeners| ==> ListenerHandled(i, j, st0, today, habits0, reports0))
    }

    /** Listener j's handler has run on `st0` when j < i, and has not run otherwise. */
    ghost predicate ListenerHandled(i: nat, j: nat, st0: map<string, Value>, today: string,
                                    habits0: seq<seq<Habit>>, reports0: seq<seq<Option<int>>>)
      reads this, listeners
    {
      && j < |listeners| && j < |habits0| && j < |reports0|
      && Pending(listeners[j], j < i && ResetsAt(st0, listeners[j], today), habits0[j], reports0[j])
    }

    /** Run the handler of listener i. */
    method HandleAt(i: nat, today: string, ghost habits0: seq<seq<Habit>>, ghost reports0: seq<seq<Option<int>>>)
      returns (resets: bool)
      requires Valid() && i < |listeners| && HandledUpTo(i, browser.storage, today, habits0, reports0)
      modifies listeners[i]
      ensures HandledUpTo(i + 1, browser.storage, today, habits0, reports0)
      ensures resets == ResetsAt(browser.storage, listeners[i], today)
    {
      var l := listeners[i];
      assert ListenerHandled(i, i, browser.storage, today, habits0, reports0);
      assert l.browser == browser;
      resets := l.HandleReset(today);
      ghost var next := i + 1;
      forall j | 0 <= j < |listeners|
        ensures ListenerHandled(next, j, browser.storage, today, habits0, reports0)
      {
        assert old(ListenerHandled(i, j, browser.storage, today, habits0, reports0));
        if j != i {
          assert listeners[j] != l;
        }
      }
    }

    /** Run the handlers of listeners i, i + 1, ... in order; `pending` says which of them changed their records. */
    method HandleFrom(i: nat, today: string, ghost habits0: seq<seq<Habit>>, ghost reports0: seq<seq<Option<int>>>)
      returns (pending: seq<bool>)
      requires Valid() && i <= |listeners| && HandledUpTo(i, browser.storage, today, habits0, reports0)
      modifies listeners
      ensures HandledUpTo(|listeners|, browser.storage, today, habits0, reports0)
      ensures |pending| == |listeners| - i
      ensures forall k :: 0 <= k < |pending| ==> pending[k] == ResetsAt(browser.storage, listeners[i + k], today)
      decreases |listeners| - i
    {
      if i == |listeners| {
        pending := [];
      } else {
        var resets := HandleAt(i, today, habits0, reports0);
        var rest := HandleFrom(i + 1, today, habits0, reports0);
        pending := [resets] + rest;
      }
    }

    /**
     * The save effects of the first i listeners have run after the handlers:
     * storage and trace hold their writes over `st0` and `t0`.
     */
    ghost predicate SavedUpTo(i: nat, st0: map<string, Value>, t0: seq<Effect>, today: string,
                              habits0: seq<seq<Habit>>, reports0: seq<seq<Option<int>>>, pending: seq<bool>)
      reads this, browser, listeners
    {
      && i <= |listeners| && |habits0| == |listeners| && |reports0| == |listeners| && |pending| == |listeners|
      && browser.storage == ResetWrites(st0, Keys(listeners, today)[..i])
      && browser.trace == t0 + ResetTrace(st0, Keys(listeners, today)[..i])
      && (forall j :: 0 <= j < |listeners| ==> ListenerSaved(i, j, st0, today, habits0, reports0, pending))
    }

    /**
     * Listener j's flag says whether its handler reset it; its save effect
     * has run when j < i, and is still pending otherwise.
     */
    ghost predicate ListenerSaved(i: nat, j: nat, st0: map<string, Value>, today: string,
                                  habits0: seq<seq<Habit>>, reports0: seq<seq<Option<int>>>, pending: seq<bool>)
      reads this, listeners
    {
      && j < |listeners| && j < |habits0| && j < |reports0| && j < |pending|
      && pending[j] == ResetsAt(st0, listeners[j], today)
      && if j < i then Outcome(listeners[j], pending[j], habits0[j], reports0[j])
         else Pending(listeners[j], pending[j], habits0[j], reports0[j])
    }

    /** The save effect of listener i, which runs when its handler changed its records. */
    method SaveAt(i: nat, today: string, ghost st0: map<string, Value>, ghost t0: seq<Effect>,
                  ghost habits0: seq<seq<Habit>>, ghost reports0: seq<seq<Option<int>>>, pending: seq<bool>)
      requires Valid() && i < |listeners| && SavedUpTo(i, st0, t0, today, habits0, reports0, pending)
      modifies browser, listeners[i]
      ensures SavedUpTo(i + 1, st0, t0, today, habits0, reports0, pending)
    {
      ResetPrefixStep(st0, Keys(listeners, today), i);
      KeyAt(listeners, today, i);
      assert ListenerSaved(i, i, st0, today, habits0, reports0, pending);
      if pending[i] {
        SaveChanged(i, today, st0, t0, habits0, reports0, pending);
      } else {
        SkipUnchanged(i, today, st0, t0, habits0, reports0, pending);
      }
    }

    /** Listener i changed its records: its save effect writes them and reports. */
    method SaveChanged(i: nat, today: string, ghost st0: map<string, Value>, ghost t0: seq<Effect>,
                       ghost habits0: seq<seq<Habit>>, ghost reports0: seq<seq<Option<int>>>, pending: seq<bool>)
      requires Valid() && i < |listeners| && SavedUpTo(i, st0, t0, today, habits0, reports0, pending) && pending[i]
      requires Keys(listeners, today)[i] == LedgerKey(listeners[i].userName, today)
      requires ResetWrites(st0, Keys(listeners, today)[..i + 1]) ==
                 ResetWrites(st0, Keys(listeners, today)[..i])[Keys(listeners, today)[i] := HabitsJson(DefaultHabits())]
      requires ResetTrace(st0, Keys(listeners, today)[..i + 1]) ==
                 ResetTrace(st0, Keys(listeners, today)[..i]) + [SetItem(Keys(listeners, today)[i], HabitsJson(DefaultHabits()))]
      modifies browser, listeners[i]
      ensures SavedUpTo(i + 1, st0, t0, today, habits0, reports0, pending)
    {
      var l := listeners[i];
      ghost var keys := Keys(listeners, today);
      assert ListenerSaved(i, i, st0, today, habits0, reports0, pending);
      assert l.browser == browser && l.habits == DefaultHabits();
      l.Save(today);
      assert browser.trace == t0 + (ResetTrace(st0, keys[..i]) + [SetItem(keys[i], HabitsJson(DefaultHabits()))]);
      ghost var next := i + 1;
      forall j | 0 <= j < |listeners|
        ensures ListenerSaved(next, j, st0, today, habits0, reports0, pending)
      {
        assert old(ListenerSaved(i, j, st0, today, habits0, reports0, pending));
        if j == i {
          assert old(l.habits) == DefaultHabits() && old(l.reports) == reports0[i];
          assert Outcome(l, true, habits0[i], reports0[i]);
        } else {
          assert listeners[j] != l;
        }
      }
    }

    /** Listener i kept its records: no save effect runs for it. */
    lemma SkipUnchanged(i: nat, today: string, st0: map<string, Value>, t0: seq<Effect>,
                        habits0: seq<seq<Habit>>, reports0: seq<seq<Option<int>>>, pending: seq<bool>)
      requires i < |listeners| && SavedUpTo(i, st0, t0, today, habits0, reports0, pending) && !pending[i]
      requires Keys(listeners, today)[i] == LedgerKey(listeners[i].userName, today)
      requires ResetWrites(st0, Keys(listeners, today)[..i + 1]) == ResetWrites(st0, Keys(listeners, today)[..i])
      requires ResetTrace(st0, Keys(listeners, today)[..i + 1]) == ResetTrace(st0, Keys(listeners, today)[..i]) + []
      ensures SavedUpTo(i + 1, st0, t0, today, habits0, reports0, pending)
    {
      var next := i + 1;
      forall j | 0 <= j < |listeners|
        ensures ListenerSaved(next, j, st0, today, habits0, reports0, pending)
      {
        assert ListenerSaved(i, j, st0, today, habits0, reports0, pending);
        if j == i {
          assert Pending(listeners[i], false, habits0[i], reports0[i]);
          assert Outcome(listeners[i], false, habits0[i], reports0[i]);
        }
      }
    }

    /** Run the save effects of listeners i, i + 1, ... in order. */
    method SaveFrom(i: nat, today: string, ghost st0: map<string, Value>, ghost t0: seq<Effect>,
                    ghost habits0: seq<seq<Habit>>, ghost reports0: seq<seq<Option<int>>>, pending: seq<bool>)
      requires Valid() && i <= |listeners| && SavedUpTo(i, st0, t0, today, habits0, reports0, pending)
      modifies browser, listeners
      ensures SavedUpTo(|listeners|, st0, t0, today, habits0, reports0, pending)
      decreases |listeners| - i
    {
      if i < |listeners| {
        SaveAt(i, today, st0, t0, habits0, reports0, pending);
        SaveFrom(i + 1, today, st0, t0, habits0, reports0, pending);
      }
    }

    /**
     * `window.dispatchEvent(new Event('habitsReset'))`: record the event, run
     * every registered handler in registration order on the storage as it
     * is, then run the save effects of the ledgers whose records changed.
     */
    method Publish(today: string)
      requires Valid()
      modifies browser, listeners
      ensures browser.storage == ResetWrites(old(browser.storage), Keys(listeners, today))
      ensures browser.trace == old(browser.trace) + [Dispatched(ResetTopic)] + ResetTrace(old(browser.storage), Keys(listeners, today))
      ensures ResetApplied(listeners, old(HabitsOf(listeners)), old(ReportsOf(listeners)), old(browser.storage), today)
    {
      ghost var habits0, reports0 := HabitsOf(listeners), ReportsOf(listeners);
      browser.Dispatch(ResetTopic);
      ghost var st0, t0 := browser.storage, browser.trace;
      NoneHandled(st0, today, habits0, reports0);
      var pending := HandleFrom(0, today, habits0, reports0);
      NoneSaved(st0, t0, today, habits0, reports0, pending);
      SaveFrom(0, today, st0, t0, habits0, reports0, pending);
      AllSaved(st0, t0, today, habits0, reports0, pending);
    }

    /** Before any handler has run. */
    lemma NoneHandled(st0: map<string, Value>, today: string, habits0: seq<seq<Habit>>, reports0: seq<seq<Option<int>>>)
      requires browser.storage == st0 && habits0 == HabitsOf(listeners) && reports0 == ReportsOf(listeners)
      ensures HandledUpTo(0, st0, today, habits0, reports0)
    {
    }

    /** Once every handler has run, and before any save effect. */
    lemma NoneSaved(st0: map<string, Value>, t0: seq<Effect>, today: string, habits0: seq<seq<Habit>>,
                    reports0: seq<seq<Option<int>>>, pending: seq<bool>)
      requires browser.trace == t0 && HandledUpTo(|listeners|, st0, today, habits0, reports0)
      requires |pending| == |listeners|
      requires forall k :: 0 <= k < |pending| ==> pending[k] == ResetsAt(st0, listeners[0 + k], today)
      ensures SavedUpTo(0, st0, t0, today, habits0, reports0, pending)
    {
      assert Keys(listeners, today)[..0] == [];
      forall j | 0 <= j < |listeners|
        ensures pending[j] == ResetsAt(st0, listeners[j], today)
      {
        assert listeners[0 + j] == listeners[j];
      }
      forall j | 0 <= j < |listeners|
        ensures ListenerSaved(0, j, st0, today, habits0, reports0, pending)
      {
        assert ListenerHandled(|listeners|, j, st0, today, habits0, reports0);
      }
    }

    /** Once every save effect has run, the broadcast's outcome is `ResetApplied`. */
    lemma AllSaved(st0: map<string, Value>, t0: seq<Effect>, today: string, habits0: seq<seq<Habit>>,
                   reports0: seq<seq<Option<int>>>, pending: seq<bool>)
      requires SavedUpTo(|listeners|, st0, t0, today, habits0, reports0, pending)
      ensures browser.storage == ResetWrites(st0, Keys(listeners, today))
      ensures browser.trace == t0 + ResetTrace(st0, Keys(listeners, today))
      ensures ResetApplied(listeners, habits0, reports0, st0, today)
    {
      assert Keys(listeners, today)[..|listeners|] == Keys(listeners, today);
      forall j | 0 <= j < |listeners|
        ensures HandledAt(listeners, habits0, reports0, st0, today, j)
      {
        assert ListenerSaved(|listeners|, j, st0, today, habits0, reports0, pending);
      }
    }
  }
}
