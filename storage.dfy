/**
 * The persistence layer (api.ts): three module-level flags decide whether a
 * call goes to the backend or to the browser's local store, and every
 * backend failure falls back to the local store. Each stored collection is
 * a `Table` holding the array kept under its local-storage key; the
 * network's answers are parameters.
 */
module Storage {
  import opened Text
  import opened Types
  import opened KeyedList

  /** The two modes the settings screen offers. */
  datatype StorageMode = Backend | Local

  /** What the health request did: answered OK, answered not OK, or threw
    * (network error, timeout). */
  datatype Health = HealthOk | HealthNotOk | HealthThrown

  /** What a list request did; `ReadOk(None)` is an OK answer whose body has
    * no rows field. */
  datatype ReadAnswer<T> = ReadOk(rows: Option<seq<T>>) | ReadNotOk | ReadThrown

  /** What a write or delete request did. */
  datatype WriteAnswer = WriteOk | WriteNotOk | WriteThrown

  /** `preference || 'backend'`: the stored text, unchecked, or `backend`
    * when nothing (or the empty string) is stored. */
  function PreferenceOf(stored: Option<string>): (p: string)
    ensures stored.None? ==> p == "backend"
    ensures stored.Some? && stored.value != "" ==> p == stored.value
    ensures p != ""
  {
    match stored
    case None => "backend"
    case Some(s) => if s == "" then "backend" else s
  }

  function ModeName(m: StorageMode): string {
    match m
    case Backend => "backend"
    case Local => "local"
  }

  /** Writes and deletes go to the backend. */
  predicate WritesRemote(available: bool, force: bool) {
    available && !force
  }

  /** Reads come from the local store without asking the backend. */
  predicate ReadsLocal(available: bool, force: bool) {
    !available || force
  }

  /** The availability the health check leaves behind: the cached value once
    * a check has completed, otherwise whether the health request answered
    * OK. */
  function CheckedAvailability(available: bool, complete: bool, health: Health): (a: bool)
    ensures complete ==> a == available
    ensures !complete ==> (a <==> health == HealthOk)
  {
    if complete then available else health == HealthOk
  }

  // ---------------------------------------------------------------------
  // Properties
  // ---------------------------------------------------------------------

  /** Reads stay local exactly when writes do not go remote: the two routing
    * tests are complements. */
  lemma RoutingComplement(available: bool, force: bool)
    ensures ReadsLocal(available, force) <==> !WritesRemote(available, force)
    ensures force ==> ReadsLocal(available, force) && !WritesRemote(available, force)
  {
  }

  /** A mode written by `setStorageModePreference` reads back as that mode,
    * and forces the local store exactly when it is `local`. */
  lemma PreferenceRoundTrip(m: StorageMode)
    ensures PreferenceOf(Some(ModeName(m))) == ModeName(m)
    ensures (PreferenceOf(Some(ModeName(m))) == "local") <==> m == Local
  {
  }

  /** The local upsert of the document table is keyed by number: saving a
    * document whose number is stored overwrites the first record with that
    * number, in place, and leaves every other record as it was. */
  lemma DocumentsKeyedByNumber(rows: seq<DocumentData>, d: DocumentData)
    requires HasKey(rows, d.documentNumber, NumberOf)
    ensures |UpsertFirst(rows, d, NumberOf)| == |rows|
    ensures UpsertFirst(rows, d, NumberOf)[FirstIndex(rows, d.documentNumber, NumberOf).value] == d
    ensures forall j :: 0 <= j < |rows| && j != FirstIndex(rows, d.documentNumber, NumberOf).value ==>
      UpsertFirst(rows, d, NumberOf)[j] == rows[j]
    ensures d in UpsertFirst(rows, d, NumberOf)
  {
    UpsertFirstSpec(rows, d, NumberOf);
  }

  // ---------------------------------------------------------------------
  // State
  // ---------------------------------------------------------------------

  /** One collection in the local store, with the key its upsert and
    * delete compare (`id`, or `documentNumber` for documents). */
  class Table<T> {
    var rows: seq<T>
    const keyOf: T -> string

    constructor(keyOf: T -> string, rows: seq<T>)
      ensures this.keyOf == keyOf && this.rows == rows
    {
      this.keyOf := keyOf;
      this.rows := rows;
    }

    /** The local save: the first record with the same key is overwritten,
      * or the record is pushed. */
    method Upsert(x: T)
      modifies this
      ensures rows == UpsertFirst(old(rows), x, keyOf)
      ensures HasKey(rows, keyOf(x), keyOf) && x in rows
    {
      UpsertThenFind(rows, x, keyOf);
      rows := UpsertFirst(rows, x, keyOf);
    }

    /** The local delete: every record with the key is filtered out. */
    method Remove(k: string)
      modifies this
      ensures rows == RemoveKey(old(rows), k, keyOf)
      ensures !HasKey(rows, k, keyOf)
    {
      RemovedKeyAbsent(rows, k, keyOf);
      rows := RemoveKey(rows, k, keyOf);
    }
  }

  /** The module-level flags and the stored mode preference. */
  class Api {
    var backendAvailable: bool
    var backendCheckComplete: bool
    var forceLocalStorage: bool
    var preference: Option<string>

    /** Module load: the backend is presumed available and unchecked, and the
      * stored preference decides whether the local store is forced. */
    constructor(stored: Option<string>)
      ensures backendAvailable && !backendCheckComplete
      ensures forceLocalStorage == (PreferenceOf(stored) == "local")
      ensures preference == stored
    {
      backendAvailable := true;
      backendCheckComplete := false;
      preference := stored;
      forceLocalStorage := PreferenceOf(stored) == "local";
    }

    /** `getStorageModePreference` */
    method GetStorageModePreference() returns (p: string)
      ensures p == PreferenceOf(preference)
    {
      p := PreferenceOf(preference);
    }

    /** `setStorageModePreference`: stores the mode, forces the local store
      * exactly for `local`, and lets the next read check the backend again. */
    method SetStorageModePreference(m: StorageMode)
      modifies this
      ensures preference == Some(ModeName(m))
      ensures forceLocalStorage == (m == Local)
      ensures !backendCheckComplete
      ensures backendAvailable == old(backendAvailable)
    {
      preference := Some(ModeName(m));
      forceLocalStorage := m == Local;
      backendCheckComplete := false;
    }

    /** `checkBackendAvailability`: once a check has completed it answers
      * from the cache and changes nothing; otherwise it records the health
      * request's outcome and marks the check complete. */
    method CheckBackendAvailability(health: Health) returns (available: bool)
      modifies this
      ensures available == backendAvailable
      ensures backendAvailable == CheckedAvailability(old(backendAvailable), old(backendCheckComplete), health)
      ensures backendCheckComplete
      ensures forceLocalStorage == old(forceLocalStorage) && preference == old(preference)
      ensures old(backendCheckComplete) ==> unchanged(this)
    {
      if backendCheckComplete {
        return backendAvailable;
      }
      backendAvailable := health == HealthOk;
      backendCheckComplete := true;
      available := backendAvailable;
    }

    /** `getBackendStatus` */
    method GetBackendStatus(health: Health) returns (available: bool)
      modifies this
      ensures available == backendAvailable
      ensures backendAvailable == CheckedAvailability(old(backendAvailable), old(backendCheckComplete), health)
      ensures backendCheckComplete
      ensures forceLocalStorage == old(forceLocalStorage) && preference == old(preference)
    {
      available := CheckBackendAvailability(health);
    }

    /** A `fetchX`: after the health check, the local rows when the local
      * store is in use or the backend fails, the backend's rows (none when
      * the answer has no rows field) otherwise. Any backend failure marks
      * it unavailable. */
    method Fetch<T>(table: Table<T>, health: Health, answer: ReadAnswer<T>) returns (rows: seq<T>)
      modifies this
      ensures var a := CheckedAvailability(old(backendAvailable), old(backendCheckComplete), health);
        && (ReadsLocal(a, old(forceLocalStorage)) ==> rows == table.rows && backendAvailable == a)
        && (!ReadsLocal(a, old(forceLocalStorage)) && answer.ReadOk? ==>
              rows == (if answer.rows.Some? then answer.rows.value else []) && backendAvailable)
        && (!ReadsLocal(a, old(forceLocalStorage)) && !answer.ReadOk? ==>
              rows == table.rows && !backendAvailable)
      ensures backendAvailable ==> old(backendAvailable) || !old(backendCheckComplete)
      ensures backendCheckComplete
      ensures forceLocalStorage == old(forceLocalStorage) && preference == old(preference)
    {
      var _ := CheckBackendAvailability(health);
      if !backendAvailable || forceLocalStorage {
        return table.rows;
      }
      match answer
      case ReadOk(r) =>
        rows := if r.Some? then r.value else [];
      case ReadNotOk =>
        backendAvailable := false;
        rows := table.rows;
      case ReadThrown =>
        backendAvailable := false;
        rows := table.rows;
    }

    /** A `saveX`: to the backend when it is in use, where a not-OK answer
      * marks it unavailable and falls back to the local upsert; to the
      * local upsert directly otherwise. Only a thrown request reports
      * failure, and it changes nothing. */
    method Save<T>(table: Table<T>, x: T, answer: WriteAnswer) returns (ok: bool)
      modifies this, table
      ensures var remote := WritesRemote(old(backendAvailable), old(forceLocalStorage));
        && (ok <==> !(remote && answer == WriteThrown))
        && (remote && answer == WriteOk ==> table.rows == old(table.rows) && backendAvailable)
        && (remote && answer == WriteNotOk ==> table.rows == UpsertFirst(old(table.rows), x, table.keyOf) && !backendAvailable)
        && (remote && answer == WriteThrown ==> table.rows == old(table.rows) && backendAvailable)
        && (!remote ==> table.rows == UpsertFirst(old(table.rows), x, table.keyOf) && backendAvailable == old(backendAvailable))
      ensures ok && !(WritesRemote(old(backendAvailable), old(forceLocalStorage)) && answer == WriteOk) ==> x in table.rows
      ensures backendAvailable ==> old(backendAvailable)
      ensures backendCheckComplete == old(backendCheckComplete)
      ensures forceLocalStorage == old(forceLocalStorage) && preference == old(preference)
    {
      if backendAvailable && !forceLocalStorage {
        match answer
        case WriteOk =>
          return true;
        case WriteNotOk =>
          backendAvailable := false;
          table.Upsert(x);
          return true;
        case WriteThrown =>
          return false;
      }
      table.Upsert(x);
      ok := true;
    }

    /** A `deleteX`: the same routing as a save, with the local delete
      * filtering out every record with the key. */
    method Delete<T>(table: Table<T>, k: string, answer: WriteAnswer) returns (ok: bool)
      modifies this, table
      ensures var remote := WritesRemote(old(backendAvailable), old(forceLocalStorage));
        && (ok <==> !(remote && answer == WriteThrown))
        && (remote && answer == WriteOk ==> table.rows == old(table.rows) && backendAvailable)
        && (remote && answer == WriteNotOk ==> table.rows == RemoveKey(old(table.rows), k, table.keyOf) && !backendAvailable)
        && (remote && answer == WriteThrown ==> table.rows == old(table.rows) && backendAvailable)
        && (!remote ==> table.rows == RemoveKey(old(table.rows), k, table.keyOf) && backendAvailable == old(backendAvailable))
      ensures ok && !(WritesRemote(old(backendAvailable), old(forceLocalStorage)) && answer == WriteOk) ==> !HasKey(table.rows, k, table.keyOf)
      ensures backendAvailable ==> old(backendAvailable)
      ensures backendCheckComplete == old(backendCheckComplete)
      ensures forceLocalStorage == old(forceLocalStorage) && preference == old(preference)
    {
      if backendAvailable && !forceLocalStorage {
        match answer
        case WriteOk =>
          return true;
        case WriteNotOk =>
          backendAvailable := false;
          table.Remove(k);
          return true;
        case WriteThrown =>
          return false;
      }
      table.Remove(k);
      ok := true;
    }
  }
}
