/**
 * The browser's `localStorage` as the two components use it: a string-keyed
 * map whose values are JSON documents, together with a trace of every write,
 * removal and window event in the order they happened.
 *
 * JSON text is abstracted: `JSON.stringify` followed by `JSON.parse` is the
 * identity on the documents below, and every other stored text is either the
 * empty string (which JavaScript treats as "nothing saved") or text that
 * fails to parse.
 */
module Storage {
  import opened Wrappers

  /** A habit record of one day (HabitCheckbox.jsx:21-32, 41); `caption` is the source's `label` field (a Dafny keyword). */
  datatype Habit = Habit(id: string, caption: string, category: string, completed: bool)

  /** A journal entry (MemoryLogger.jsx:36-41); `id` is the `Date.now()` value at creation. */
  datatype Memory = Memory(id: int, text: string, date: string, timestamp: string)

  /** What a storage key may hold. */
  datatype Value =
    | HabitsJson(habits: seq<Habit>)
    | MemoriesJson(memories: seq<Memory>)
    | EmptyText
    | Malformed

  /** One observable effect on the browser, in program order. */
  datatype Effect =
    | SetItem(key: string, value: Value)
    | RemoveItem(key: string)
    | Dispatched(topic: string)

  /** A key counts as saved when `getItem` returns a truthy string: present and not "". */
  predicate IsSaved(st: map<string, Value>, key: string) {
    key in st && st[key] != EmptyText
  }

  class Browser {
    var storage: map<string, Value>
    var trace: seq<Effect>

    constructor (initial: map<string, Value>)
      ensures storage == initial && trace == []
    {
      storage := initial;
      trace := [];
    }

    /** `localStorage.getItem(key)`: the stored value, or None (JavaScript null) when the key is absent. */
    function GetItem(key: string): (r: Option<Value>)
      reads this
      ensures r.Some? <==> key in storage
      ensures r.Some? ==> r.value == storage[key]
    {
      if key in storage then Some(storage[key]) else None
    }

    /** `localStorage.setItem(key, JSON.stringify(v))`. */
    method SetItem(key: string, v: Value)
      modifies this
      ensures storage == old(storage)[key := v]
      ensures trace == old(trace) + [Effect.SetItem(key, v)]
    {
      storage := storage[key := v];
      trace := trace + [Effect.SetItem(key, v)];
    }

    /** `localStorage.removeItem(key)`: a no-op on the map when the key is absent. */
    method RemoveItem(key: string)
      modifies this
      ensures storage == old(storage) - {key}
      ensures trace == old(trace) + [Effect.RemoveItem(key)]
    {
      storage := storage - {key};
      trace := trace + [Effect.RemoveItem(key)];
    }

    /** `window.dispatchEvent(new Event(topic))`, recorded in the trace; the handlers are called by the publisher. */
    method Dispatch(topic: string)
      modifies this
      ensures storage == old(storage)
      ensures trace == old(trace) + [Dispatched(topic)]
    {
      trace := trace + [Dispatched(topic)];
    }
  }
}
