/** The persisted release counter of `useReleaseHistory`: a count kept in
    memory, loaded once from browser storage and written back after every
    increment. Storage is a key-value map; what `JSON.parse` makes of the
    stored text is given by `StoredValue`, and whether a read or a write
    throws is a parameter of the operation. */
module ReleaseHistory {
  import opened Wrappers

  /** The one storage key the hook reads and writes. */
  const StorageKey: string := "letgo_release_history"

  /** The `count` property of a parsed entry: an integer, or something
      falsy (absent, `null`, `false`, `""`, `NaN`) that `|| 0` replaces. */
  datatype CountField = Falsy | Number(n: int)

  /** The text stored under a key, classified by what the load effect does
      with it. */
  datatype StoredValue =
    | EmptyText                                                // "", which `if (stored)` skips
    | Malformed                                                // text `JSON.parse` rejects
    | JsonNull                                                 // "null": reading `.count` throws
    | Record(count: CountField, lastRelease: Option<string>)   // any other JSON value

  /** `data.count || 0` */
  function CountOrZero(c: CountField): (n: int)
    ensures n == 0 <==> (c.Falsy? || c.n == 0)
    ensures c.Number? ==> n == c.n
  {
    match c
    case Falsy => 0
    case Number(k) => k
  }

  /** The value the load effect passes to `setReleaseCount`, or None when it
      does not call it: the entry is missing, empty, malformed, or `null`
      (the error is caught and only logged). */
  function Restore(stored: Option<StoredValue>): (r: Option<int>)
    ensures r.Some? <==> stored.Some? && stored.value.Record?
    ensures r.Some? ==> r.value == CountOrZero(stored.value.count)
  {
    match stored
    case None => None
    case Some(v) =>
      match v
      case Record(c, _) => Some(CountOrZero(c))
      case _ => None
  }

  /** The count held after the load effect ran on `stored`, starting from
      `current`; a failing `getItem` reads as no entry at all. */
  function AfterLoad(current: int, readSucceeds: bool, stored: Option<StoredValue>): (n: int)
    ensures !readSucceeds ==> n == current
    ensures readSucceeds && Restore(stored).Some? ==> n == Restore(stored).value
    ensures readSucceeds && Restore(stored).None? ==> n == current
  {
    if !readSucceeds then current
    else match Restore(stored)
      case Some(k) => k
      case None => current
  }

  /** What `recordRelease` asks storage to hold: `{count, lastRelease}`. */
  function Written(count: int, at: string): StoredValue
  {
    Record(Number(count), Some(at))
  }

  /** Looking up a key of a storage map, as `getItem` does. */
  function Lookup(entries: map<string, StoredValue>, key: string): Option<StoredValue>
  {
    if key in entries then Some(entries[key]) else None
  }

  /** One call of `recordRelease`: the time stamp it writes and whether
      `setItem` succeeds. */
  datatype WriteAttempt = WriteAttempt(succeeds: bool, at: string)

  /** The in-memory count together with the whole storage map. */
  datatype HistoryState = HistoryState(count: int, entries: map<string, StoredValue>)

  /** `recordRelease`: the count advances by one whether or not the write
      succeeds; a successful write replaces the entry under `StorageKey`
      and nothing else. */
  function RecordStep(h: HistoryState, a: WriteAttempt): (r: HistoryState)
    ensures r.count == h.count + 1
    ensures a.succeeds ==> r.entries == h.entries[StorageKey := Written(r.count, a.at)]
    ensures !a.succeeds ==> r.entries == h.entries
  {
    var next := h.count + 1;
    HistoryState(next, if a.succeeds then h.entries[StorageKey := Written(next, a.at)] else h.entries)
  }

  /** Round trip: loading the entry a successful `recordRelease` wrote gives
      back the in-memory count, whatever it is (zero and negative counts
      included). */
  lemma RecordThenLoad(h: HistoryState, at: string, other: int)
    ensures var r := RecordStep(h, WriteAttempt(true, at));
            AfterLoad(other, true, Lookup(r.entries, StorageKey)) == r.count
  {
  }

  /** `recordRelease` called once for each attempt of `attempts`, in order. */
  function RecordAll(h: HistoryState, attempts: seq<WriteAttempt>): HistoryState
  {
    if attempts == [] then h
    else RecordStep(RecordAll(h, attempts[..|attempts| - 1]), attempts[|attempts| - 1])
  }

  /** The index of the last attempt whose write succeeded, or -1. */
  function LastSuccess(attempts: seq<WriteAttempt>): (k: int)
    ensures -1 <= k < |attempts|
    ensures k >= 0 ==> attempts[k].succeeds
    ensures forall j :: k < j < |attempts| ==> !attempts[j].succeeds
  {
    if attempts == [] then -1
    else if attempts[|attempts| - 1].succeeds then |attempts| - 1
    else LastSuccess(attempts[..|attempts| - 1])
  }

  /** N calls of `recordRelease` leave the count at initial + N; no other
      key changes; the stored entry is the one the last successful write
      left (with the count as it was then), or the old entry when every
      write failed. */
  lemma {:induction false} RecordAllEffect(h: HistoryState, attempts: seq<WriteAttempt>)
    ensures RecordAll(h, attempts).count == h.count + |attempts|
    ensures forall k :: k != StorageKey ==> Lookup(RecordAll(h, attempts).entries, k) == Lookup(h.entries, k)
    ensures var j := LastSuccess(attempts);
            Lookup(RecordAll(h, attempts).entries, StorageKey)
              == if j < 0 then Lookup(h.entries, StorageKey) else Some(Written(h.count + j + 1, attempts[j].at))
  {
    if attempts != [] {
      var init := attempts[..|attempts| - 1];
      RecordAllEffect(h, init);
      assert LastSuccess(attempts) == if attempts[|attempts| - 1].succeeds then |attempts| - 1 else LastSuccess(init);
    }
  }

  /** When the last write succeeded, what storage holds under the key
      reloads as exactly the in-memory count. */
  lemma {:induction false} PersistedMatchesMemory(h: HistoryState, attempts: seq<WriteAttempt>, other: int)
    requires attempts != [] && attempts[|attempts| - 1].succeeds
    ensures var r := RecordAll(h, attempts);
            AfterLoad(other, true, Lookup(r.entries, StorageKey)) == r.count
  {
    RecordAllEffect(h, attempts);
  }

  /** Browser storage: the key-value map shared by the whole page. */
  class Storage {
    var entries: map<string, StoredValue>

    constructor (initial: map<string, StoredValue>)
      ensures entries == initial
    {
      entries := initial;
    }
  }

  /** The hook's state cell `releaseCount`. */
  class History {
    var count: int

    /** `useState(0)`: the count is 0 before anything is loaded. */
    constructor ()
      ensures count == 0
    {
      count := 0;
    }

    /** The mount effect: read the entry under `StorageKey` and, when it
        parses to a value, take `data.count || 0`; every failure is
        swallowed and leaves the count as it was. Storage is only read. */
    method Load(store: Storage, readSucceeds: bool)
      modifies this
      ensures count == AfterLoad(old(count), readSucceeds, Lookup(store.entries, StorageKey))
    {
      if readSucceeds {
        var stored := Lookup(store.entries, StorageKey);
        match Restore(stored)
        case Some(k) => count := k;
        case None =>
      }
    }

    /** `recordRelease`: advance the count by one and try to persist
        `{count, lastRelease: at}`; a failed write is swallowed. */
    method RecordRelease(store: Storage, writeSucceeds: bool, at: string)
      modifies this, store
      ensures HistoryState(count, store.entries)
              == RecordStep(HistoryState(old(count), old(store.entries)), WriteAttempt(writeSucceeds, at))
    {
      var newCount := count + 1;
      if writeSucceeds {
        store.entries := store.entries[StorageKey := Written(newCount, at)];
      }
      count := newCount;
    }
  }
}
