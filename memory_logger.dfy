/**
 * The memory journal of MemoryLogger.jsx: a newest-first list of entries
 * kept under the single storage key `memories`, the text field's contents,
 * add (guarded by a trim check), delete by id, and the Enter key rule.
 *
 * After a successful add the component removes `habits_${today}` and
 * broadcasts `habitsReset`. The ledger's key is `habits_${userName}_${today}`,
 * so the removal never touches it; the lemma AddNeverResetsSavedLedger and
 * the method AddingMemoryKeepsTodaysHabits show what that means for a
 * ledger that has already saved today.
 */
module MemoryLogger {
  import opened Wrappers
  import opened Storage
  import opened HabitCheckbox

  const MemoriesKey := "memories"

  /** The key an add removes: `habits_${today}`, without a user name. */
  function JournalResetKey(today: string): string {
    "habits_" + today
  }

  /** The journal's removal can never hit a ledger's key for the same day. */
  lemma JournalResetKeyMissesLedgerKey(userName: string, today: string)
    ensures JournalResetKey(today) != LedgerKey(userName, today)
  {
    assert |LedgerKey(userName, today)| == |JournalResetKey(today)| + |userName| + 1;
  }

  /** The journal's own key is no ledger key. */
  lemma MemoriesKeyIsNoLedgerKey(userName: string, today: string)
    ensures MemoriesKey != LedgerKey(userName, today)
  {
    assert LedgerKey(userName, today)[0] == 'h';
  }

  // ---------------------------------------------------------------------
  // String.prototype.trim
  // ---------------------------------------------------------------------

  /** ECMAScript WhiteSpace and LineTerminator code points: what `trim` strips. */
  predicate IsJsWhiteSpace(c: char) {
    || c == '\t' || c == '\n' || c == '\U{000B}' || c == '\U{000C}' || c == '\r' || c == ' '
    || c == '\U{00A0}' || c == '\U{1680}' || ('\U{2000}' <= c <= '\U{200A}')
    || c == '\U{2028}' || c == '\U{2029}' || c == '\U{202F}' || c == '\U{205F}'
    || c == '\U{3000}' || c == '\U{FEFF}'
  }

  /** Drop leading white space: the result is the suffix left after removing only white space, and it starts with a visible character or is empty. */
  function TrimStart(s: string): (r: string)
    ensures |r| <= |s| && r == s[|s| - |r|..]
    ensures r == [] || !IsJsWhiteSpace(r[0])
    ensures forall i :: 0 <= i < |s| - |r| ==> IsJsWhiteSpace(s[i])
  {
    if |s| > 0 && IsJsWhiteSpace(s[0]) then TrimStart(s[1..]) else s
  }

  /** Drop trailing white space: the result is the prefix left after removing only white space, and it ends with a visible character or is empty. */
  function TrimEnd(s: string): (r: string)
    ensures |r| <= |s| && r == s[..|r|]
    ensures r == [] || !IsJsWhiteSpace(r[|r| - 1])
    ensures forall i :: |r| <= i < |s| ==> IsJsWhiteSpace(s[i])
  {
    if |s| > 0 && IsJsWhiteSpace(s[|s| - 1]) then TrimEnd(s[..|s| - 1]) else s
  }

  /** `s.trim()`. */
  function Trim(s: string): string {
    TrimEnd(TrimStart(s))
  }

  /** Trimming leaves nothing exactly when every character is white space. */
  lemma TrimEmptyIffBlank(s: string)
    ensures Trim(s) == [] <==> forall i :: 0 <= i < |s| ==> IsJsWhiteSpace(s[i])
  {
    TrimStartEmptyIffBlank(s);
    var t := TrimStart(s);
    if t != [] {
      TrimEndKeepsVisibleStart(t);
    }
  }

  lemma {:induction false} TrimStartEmptyIffBlank(s: string)
    ensures TrimStart(s) == [] <==> forall i :: 0 <= i < |s| ==> IsJsWhiteSpace(s[i])
  {
    if |s| > 0 && IsJsWhiteSpace(s[0]) {
      TrimStartEmptyIffBlank(s[1..]);
      assert forall i :: 1 <= i < |s| ==> s[i] == s[1..][i - 1];
    }
  }

  lemma {:induction false} TrimEndKeepsVisibleStart(s: string)
    requires s != [] && !IsJsWhiteSpace(s[0])
    ensures TrimEnd(s) != []
  {
    if IsJsWhiteSpace(s[|s| - 1]) {
      TrimEndKeepsVisibleStart(s[..|s| - 1]);
    }
  }

  /**
   * `newMemory.trim()` is truthy: the add guard and the add button's enable
   * condition. It holds exactly when some character is not white space.
   */
  function CanAdd(input: string): (ok: bool)
    ensures ok <==> exists i :: 0 <= i < |input| && !IsJsWhiteSpace(input[i])
  {
    TrimEmptyIffBlank(input);
    Trim(input) != []
  }

  /** `e.key === 'Enter' && !e.shiftKey`. */
  predicate SubmitsOnKey(key: string, shiftKey: bool) {
    key == "Enter" && !shiftKey
  }

  // ---------------------------------------------------------------------
  // The entry list
  // ---------------------------------------------------------------------

  datatype LoadError = ParseError

  /**
   * The initial `memories` state: a missing key or an empty string gives the
   * empty list; text that is not a memory list makes `JSON.parse` throw,
   * which the component does not catch.
   */
  function LoadMemories(st: map<string, Value>): (r: Result<seq<Memory>, LoadError>)
    ensures !IsSaved(st, MemoriesKey) ==> r == Ok([])
    ensures IsSaved(st, MemoriesKey) && st[MemoriesKey].MemoriesJson? ==> r == Ok(st[MemoriesKey].memories)
    ensures r.Err? <==> IsSaved(st, MemoriesKey) && !st[MemoriesKey].MemoriesJson?
  {
    if !IsSaved(st, MemoriesKey) then Ok([])
    else if st[MemoriesKey].MemoriesJson? then Ok(st[MemoriesKey].memories)
    else Err(ParseError)
  }

  /** `memories.filter((m) => m.id !== id)`. */
  function WithoutId(ms: seq<Memory>, id: int): (r: seq<Memory>)
    ensures |r| <= |ms|
  {
    if ms == [] then []
    else if ms[0].id != id then [ms[0]] + WithoutId(ms[1..], id)
    else WithoutId(ms[1..], id)
  }

  /** Delete keeps exactly the entries whose id differs. */
  lemma {:induction false} WithoutIdMembers(ms: seq<Memory>, id: int)
    ensures forall m :: m in WithoutId(ms, id) <==> m in ms && m.id != id
  {
    if ms != [] {
      WithoutIdMembers(ms[1..], id);
      assert ms == [ms[0]] + ms[1..];
    }
  }

  /** Delete works piecewise, so the kept entries stay in their order. */
  lemma {:induction false} WithoutIdAppend(a: seq<Memory>, b: seq<Memory>, id: int)
    ensures WithoutId(a + b, id) == WithoutId(a, id) + WithoutId(b, id)
  {
    if a != [] {
      assert (a + b)[0] == a[0];
      assert (a + b)[1..] == a[1..] + b;
      WithoutIdAppend(a[1..], b, id);
    } else {
      assert a + b == b;
    }
  }

  /** Deleting an id no entry carries leaves the list as it was. */
  lemma {:induction false} WithoutAbsentId(ms: seq<Memory>, id: int)
    requires forall i :: 0 <= i < |ms| ==> ms[i].id != id
    ensures WithoutId(ms, id) == ms
  {
    if ms != [] {
      WithoutAbsentId(ms[1..], id);
    }
  }

  /** Ids strictly decrease from the head: newest first. */
  predicate NewestFirst(ms: seq<Memory>) {
    forall i, j :: 0 <= i < j < |ms| ==> ms[i].id > ms[j].id
  }

  /** Prepending an entry stamped later than every entry keeps the list newest first. */
  lemma PrependKeepsNewestFirst(m: Memory, ms: seq<Memory>)
    requires NewestFirst(ms)
    requires forall i :: 0 <= i < |ms| ==> ms[i].id < m.id
    ensures NewestFirst([m] + ms)
  {
    forall i, j | 0 <= i < j < |[m] + ms|
      ensures ([m] + ms)[i].id > ([m] + ms)[j].id
    {
      if i > 0 {
        assert ([m] + ms)[i] == ms[i - 1];
      }
    }
  }

  /** Deleting keeps a newest-first list newest first. */
  lemma {:induction false} WithoutIdKeepsNewestFirst(ms: seq<Memory>, id: int)
    requires NewestFirst(ms)
    ensures NewestFirst(WithoutId(ms, id))
  {
    if ms != [] {
      var rest := WithoutId(ms[1..], id);
      assert NewestFirst(ms[1..]);
      WithoutIdKeepsNewestFirst(ms[1..], id);
      if ms[0].id != id {
        WithoutIdMembers(ms[1..], id);
        forall i | 0 <= i < |rest|
          ensures rest[i].id < ms[0].id
        {
          assert rest[i] in ms[1..];
        }
        PrependKeepsNewestFirst(ms[0], rest);
      }
    }
  }

  // ---------------------------------------------------------------------
  // Storage after an add
  // ---------------------------------------------------------------------

  /** The storage after an add's own writes: the new list saved, then `habits_${today}` removed. */
  function Written(st: map<string, Value>, ms: seq<Memory>, today: string): (w: map<string, Value>)
    ensures LoadMemories(w) == Ok(ms)
    ensures JournalResetKey(today) !in w
  {
    assert JournalResetKey(today)[0] == 'h';
    st[MemoriesKey := MemoriesJson(ms)] - {JournalResetKey(today)}
  }

  /**
   * A ledger that has already saved today is never reset by an add: its key
   * survives the add's writes and every reset handler that runs before it.
   */
  lemma AddNeverResetsSavedLedger(st: map<string, Value>, ms: seq<Memory>, today: string, l: Ledger)
    requires IsSaved(st, LedgerKey(l.userName, today))
    ensures !ResetsAt(Written(st, ms, today), l, today)
    ensures Written(st, ms, today)[LedgerKey(l.userName, today)] == st[LedgerKey(l.userName, today)]
  {
    JournalResetKeyMissesLedgerKey(l.userName, today);
    MemoriesKeyIsNoLedgerKey(l.userName, today);
  }

  /** Reset handlers leave the journal's list where the add saved it. */
  lemma ResetKeepsMemories(w: map<string, Value>, ls: seq<Ledger>, today: string)
    ensures LoadMemories(ResetWrites(w, Keys(ls, today))) == LoadMemories(w)
  {
    forall i | 0 <= i < |ls|
      ensures Keys(ls, today)[i] != MemoriesKey
    {
      KeyAt(ls, today, i);
      MemoriesKeyIsNoLedgerKey(ls[i].userName, today);
    }
    ResetWritesOnlyTheirKeys(w, Keys(ls, today), MemoriesKey);
  }

  // ---------------------------------------------------------------------
  // The component
  // ---------------------------------------------------------------------

  /** A mounted MemoryLogger: its `memories` and `newMemory` state. */
  class Journal {
    const browser: Browser
    const channel: ResetChannel
    var memories: seq<Memory>
    var input: string

    /** Mount: read `memories`; the source throws (and never mounts) when that text does not parse. */
    constructor (browser: Browser, channel: ResetChannel)
      requires LoadMemories(browser.storage).Ok?
      ensures this.browser == browser && this.channel == channel
      ensures memories == LoadMemories(browser.storage).value && input == ""
    {
      this.browser := browser;
      this.channel := channel;
      memories := LoadMemories(browser.storage).value;
      input := "";
    }

    /** The text field's `onChange`. */
    method SetInput(text: string)
      modifies this`input
      ensures input == text
    {
      input := text;
    }

    /** The add button is enabled exactly when an add would store something. */
    function AddEnabled(): (enabled: bool)
      reads this
      ensures enabled <==> exists i :: 0 <= i < |input| && !IsJsWhiteSpace(input[i])
    {
      CanAdd(input)
    }

    /**
     * What a successful `handleAddMemory` did, for the ledgers `ls`
     * registered for `habitsReset`: the new entry (raw, untrimmed text)
     * heads the list, the list is saved, the input is cleared,
     * `habits_${today}` is removed, `habitsReset` is dispatched after those
     * writes, and each ledger ran its reset handler, in order, on the storage
     * the add left.
     */
    twostate predicate Added(ls: seq<Ledger>, clock: int, date: string, time: string, today: string)
      reads this, browser, ls
    {
      var written := Written(old(browser.storage), memories, today);
      && memories == [Memory(clock, old(input), date, time)] + old(memories)
      && input == ""
      && browser.storage == ResetWrites(written, Keys(ls, today))
      && browser.trace == old(browser.trace) +
           [SetItem(MemoriesKey, MemoriesJson(memories)), RemoveItem(JournalResetKey(today))] + [Dispatched(ResetTopic)] +
           ResetTrace(written, Keys(ls, today))
      && ResetApplied(ls, old(HabitsOf(ls)), old(ReportsOf(ls)), written, today)
    }

    /**
     * The storage half of `handleAddMemory`: save `updated`, remove
     * `habits_${today}`, then dispatch `habitsReset` to the ledgers.
     */
    method Persist(updated: seq<Memory>, today: string)
      requires channel.Valid() && channel.browser == browser
      modifies browser, channel.listeners
      ensures var written := Written(old(browser.storage), updated, today);
        && browser.storage == ResetWrites(written, Keys(channel.listeners, today))
        && ResetApplied(channel.listeners, old(HabitsOf(channel.listeners)), old(ReportsOf(channel.listeners)), written, today)
      ensures LoadMemories(browser.storage) == Ok(updated)
      ensures browser.trace == old(browser.trace) +
        [SetItem(MemoriesKey, MemoriesJson(updated)), RemoveItem(JournalResetKey(today))] + [Dispatched(ResetTopic)] +
        ResetTrace(Written(old(browser.storage), updated, today), Keys(channel.listeners, today))
    {
      ghost var written := Written(browser.storage, updated, today);
      ghost var writes := [SetItem(MemoriesKey, MemoriesJson(updated)), RemoveItem(JournalResetKey(today))];
      browser.SetItem(MemoriesKey, MemoriesJson(updated));
      browser.RemoveItem(JournalResetKey(today));
      assert browser.storage == written;
      assert browser.trace == old(browser.trace) + writes;
      assert HabitsOf(channel.listeners) == old(HabitsOf(channel.listeners));
      assert ReportsOf(channel.listeners) == old(ReportsOf(channel.listeners));
      channel.Publish(today);
      ResetKeepsMemories(written, channel.listeners, today);
    }

    /**
     * `handleAddMemory`, with `Date.now()`, the locale date and time, and
     * `toDateString()` passed in. A blank input changes nothing at all.
     */
    method Add(clock: int, date: string, time: string, today: string)
      requires channel.Valid() && channel.browser == browser
      modifies this, browser, channel.listeners
      ensures !CanAdd(old(input)) ==> unchanged(this, browser) && unchanged(channel.listeners)
      ensures CanAdd(old(input)) ==> Added(channel.listeners, clock, date, time, today)
      ensures CanAdd(old(input)) ==> LoadMemories(browser.storage) == Ok(memories)
      ensures CanAdd(old(input)) ==> |memories| == |old(memories)| + 1 && memories[1..] == old(memories)
    {
      if CanAdd(input) {
        ghost var habits0, reports0 := HabitsOf(channel.listeners), ReportsOf(channel.listeners);
        memories := [Memory(clock, input, date, time)] + memories;
        input := "";
        assert HabitsOf(channel.listeners) == habits0 && ReportsOf(channel.listeners) == reports0;
        Persist(memories, today);
      }
    }

    /** `handleDeleteMemory(id)`: drop every entry with that id and save the rest. */
    method Delete(id: int)
      modifies this`memories, browser
      ensures memories == WithoutId(old(memories), id)
      ensures browser.storage == old(browser.storage)[MemoriesKey := MemoriesJson(memories)]
      ensures browser.trace == old(browser.trace) + [SetItem(MemoriesKey, MemoriesJson(memories))]
      ensures LoadMemories(browser.storage) == Ok(memories)
    {
      memories := WithoutId(memories, id);
      browser.SetItem(MemoriesKey, MemoriesJson(memories));
    }

    /** `handleKeyPress`: Enter without Shift prevents the default and adds; any other key does nothing. */
    method HandleKeyPress(key: string, shiftKey: bool, clock: int, date: string, time: string, today: string)
      returns (prevented: bool)
      requires channel.Valid() && channel.browser == browser
      modifies this, browser, channel.listeners
      ensures prevented == SubmitsOnKey(key, shiftKey)
      ensures prevented && CanAdd(old(input)) ==> Added(channel.listeners, clock, date, time, today)
      ensures !(prevented && CanAdd(old(input))) ==> unchanged(this, browser) && unchanged(channel.listeners)
    {
      prevented := SubmitsOnKey(key, shiftKey);
      if prevented {
        Add(clock, date, time, today);
      }
    }
  }

  /** A ledger mounted alone on an empty browser, with habit k checked off. */
  method CheckedOffOnEmptyBrowser(userName: string, today: string, k: nat)
    returns (browser: Browser, channel: ResetChannel, ledger: Ledger)
    requires k < |Catalog|
    ensures channel.Valid() && channel.browser == browser && channel.listeners == [ledger]
    ensures ledger.browser == browser && ledger.userName == userName
    ensures |ledger.habits| == |Catalog| && ledger.habits[k].completed && !DefaultHabits()[k].completed
    ensures IsSaved(browser.storage, LedgerKey(userName, today))
    ensures LoadMemories(browser.storage) == Ok([])
    ensures fresh(browser) && fresh(channel) && fresh(ledger)
  {
    browser := new Browser(map[]);
    channel := new ResetChannel(browser);
    ledger := new Ledger(browser, channel, userName, today, true);
    ledger.Toggle(Catalog[k].id, today);
    MemoriesKeyIsNoLedgerKey(userName, today);
  }

  /**
   * A ledger mounted on an empty browser, with habit k checked off, is not
   * reset when a memory is added the same day: the journal removes
   * `habits_${today}`, while the ledger's record lives under
   * `habits_${userName}_${today}` and stays saved.
   */
  method AddingMemoryKeepsTodaysHabits(userName: string, today: string, k: nat, text: string,
                                       clock: int, date: string, time: string)
    returns (before: seq<Habit>, after: seq<Habit>)
    requires k < |Catalog| && CanAdd(text)
    ensures |before| == |Catalog| && before[k].completed && !DefaultHabits()[k].completed
    ensures after == before
  {
    var browser, channel, ledger := CheckedOffOnEmptyBrowser(userName, today, k);
    before := ledger.habits;
    var journal := new Journal(browser, channel);
    journal.SetInput(text);
    AddBesideSavedLedger(journal, ledger, clock, date, time, today);
    after := ledger.habits;
  }

  /** An add, with one ledger registered whose record for today is already saved, leaves that ledger alone. */
  method AddBesideSavedLedger(journal: Journal, ledger: Ledger, clock: int, date: string, time: string, today: string)
    requires journal.channel.Valid() && journal.channel.browser == journal.browser
    requires journal.channel.listeners == [ledger] && CanAdd(journal.input)
    requires IsSaved(journal.browser.storage, LedgerKey(ledger.userName, today))
    modifies journal, journal.browser, ledger
    ensures ledger.habits == old(ledger.habits)
  {
    ghost var st, ms := journal.browser.storage, [Memory(clock, journal.input, date, time)] + journal.memories;
    ghost var habits0, reports0 := HabitsOf([ledger]), ReportsOf([ledger]);
    AddNeverResetsSavedLedger(st, ms, today, ledger);
    journal.Add(clock, date, time, today);
    assert HandledAt([ledger], habits0, reports0, Written(st, ms, today), today, 0);
  }
}
