/**
 * The session controller (`SessionProvider`): the signed-in user's record in
 * memory, an `isReady` flag that holds the app back until the stored record
 * has been looked at, and the one durable storage key the record is kept
 * under.
 *
 * Each storage call (`getItem`, `setItem`, `removeItem`) is one atomic step
 * whose success or failure is a parameter of the method that makes it; a
 * failure is only logged by the app, so it changes nothing here.  JSON text
 * is written and read with the codec of module `Json`.
 */
module Session {
  import opened JsValues
  import opened Json

  const STORAGE_KEY := "tenantapp_session"

  /** The keys of a saved record, in the order `saveSession` writes them. */
  const SESSION_KEYS := [
    "name", "email", "mobile", "clientId", "userId", "officeId",
    "officeNumber", "buildingName", "loginKey", "clientTypeId", "userTypeId", "status"]

  /** The backend field each record key is taken from, position by position. */
  const BACKEND_KEYS := [
    "FirstName", "EMail", "MobileNumber", "ClientId", "ClientId", "unit",
    "OfficeNumber", "buildingName", "loginKey", "ClientTypeid", "UserTypeId", "status"]

  /** The three ids (`clientId`, `userId`, `officeId`) go through `Number(...)`; the rest are copied. */
  predicate IsNumericField(i: nat) {
    3 <= i <= 5
  }

  /** Record field number `i`, read from the payload `data`. */
  function Field(data: JsVal, i: nat): JsVal
    requires i < |BACKEND_KEYS|
  {
    var v := Get(data, BACKEND_KEYS[i]);
    if IsNumericField(i) then ToNumber(v) else v
  }

  /** The record `saveSession` builds from the backend's login payload `data`. */
  function FormatSession(data: JsVal): (r: JsVal)
    ensures r.Obj? && |r.props| == |SESSION_KEYS|
  {
    Obj(seq(|SESSION_KEYS|, i requires 0 <= i < |SESSION_KEYS| => Prop(SESSION_KEYS[i], Field(data, i))))
  }

  /** `JSON.stringify(record)` for a record that is an object. */
  function RecordText(record: JsVal): (t: string)
    requires record.Obj?
    ensures t != ""
  {
    Serialize(JObj(StringifyProps(record.props)))
  }

  /** What `AsyncStorage.getItem(STORAGE_KEY)` yields: the stored text, or `null` (`None`). */
  function Stored(storage: map<string, string>): Option<string> {
    if STORAGE_KEY in storage then Some(storage[STORAGE_KEY]) else None
  }

  /**
   * The session after `loadSession`, starting from `prior`: a non-empty
   * stored text that parses replaces it; a missing or empty value, a failed
   * read or a text that does not parse leaves it as it was.
   */
  function LoadedSession(prior: JsVal, stored: Option<string>, readOk: bool): JsVal {
    if !readOk || stored.None? || stored.value == "" then prior
    else
      match Parse(stored.value)
      case None => prior
      case Some(j) => ToJs(j)
  }

  /** Storage after `clearSession`'s `removeItem`, which succeeded or not. */
  function StorageAfterClear(storage: map<string, string>, removeOk: bool): map<string, string> {
    if removeOk then storage - {STORAGE_KEY} else storage
  }

  /** Storage after `saveSession(data)`: a clear for a falsy `data`, otherwise a write of the new record. */
  function StorageAfterSave(storage: map<string, string>, data: JsVal, storageOk: bool): map<string, string> {
    if !Truthy(data) then StorageAfterClear(storage, storageOk)
    else if storageOk then storage[STORAGE_KEY := RecordText(FormatSession(data))]
    else storage
  }

  class SessionStore {
    /** The record in memory; `Null` while there is none. */
    var session: JsVal
    var isReady: bool
    /** The device's key-value store, as far as this app sees it. */
    var storage: map<string, string>

    /** The provider as it mounts over a device whose store holds `saved`. */
    constructor(saved: map<string, string>)
      ensures session == Null && !isReady && storage == saved
    {
      session := Null;
      isReady := false;
      storage := saved;
    }

    /** `loadSession`: read the key, parse what is there, and become ready whatever happened. */
    method LoadSession(readOk: bool)
      modifies this
      ensures isReady
      ensures storage == old(storage)
      ensures session == LoadedSession(old(session), Stored(storage), readOk)
    {
      if readOk {
        var stored := if STORAGE_KEY in storage then Some(storage[STORAGE_KEY]) else None;
        if stored.Some? && stored.value != "" {
          var parsed := Parse(stored.value);
          if parsed.Some? {
            session := ToJs(parsed.value);
          }
        }
      }
      isReady := true;
    }

    /** `clearSession`: forget the record first, then remove the key. */
    method ClearSession(removeOk: bool)
      modifies this
      ensures session == Null
      ensures isReady == old(isReady)
      ensures storage == StorageAfterClear(old(storage), removeOk)
    {
      session := Null;
      if removeOk {
        storage := storage - {STORAGE_KEY};
      }
    }

    /**
     * `saveSession(data)`: a falsy `data` clears; anything else becomes the
     * formatted record in memory and then in storage.  `storageOk` is the
     * outcome of the one storage call made.
     */
    method SaveSession(data: JsVal, storageOk: bool)
      modifies this
      ensures session == (if Truthy(data) then FormatSession(data) else Null)
      ensures isReady == old(isReady)
      ensures storage == StorageAfterSave(old(storage), data, storageOk)
    {
      if !Truthy(data) {
        ClearSession(storageOk);
        return;
      }
      var formatted := FormatSession(data);
      session := formatted;
      if storageOk {
        storage := storage[STORAGE_KEY := RecordText(formatted)];
      }
    }
  }

  // ---------------------------------------------------------------------
  // Properties
  // ---------------------------------------------------------------------

  /**
   * The saved record holds exactly the twelve keys, each taken from its
   * backend field; `clientId` and `userId` are both `Number(ClientId)` and so
   * always equal, and both are a number or NaN.
   */
  lemma FormatSessionRecord(data: JsVal)
    ensures var r := FormatSession(data);
      Keys(r.props) == SESSION_KEYS && UniqueKeys(r.props) && Truthy(r) &&
      forall i :: 0 <= i < |SESSION_KEYS| ==> Get(r, SESSION_KEYS[i]) == Field(data, i)
  {
    var r := FormatSession(data);
    assert Keys(r.props) == SESSION_KEYS;
    RecordUnique(data);
    forall i | 0 <= i < |SESSION_KEYS|
      ensures Get(r, SESSION_KEYS[i]) == Field(data, i)
    {
      GetUnique(r.props, i);
    }
  }

  /** The field map written out: each key's source, with `clientId == userId`, both a number or NaN. */
  lemma FormatSessionFields(data: JsVal)
    ensures var r := FormatSession(data);
      Get(r, "name") == Get(data, "FirstName") &&
      Get(r, "email") == Get(data, "EMail") &&
      Get(r, "mobile") == Get(data, "MobileNumber") &&
      Get(r, "clientId") == ToNumber(Get(data, "ClientId")) &&
      Get(r, "userId") == Get(r, "clientId") &&
      Get(r, "officeId") == ToNumber(Get(data, "unit")) &&
      Get(r, "officeNumber") == Get(data, "OfficeNumber") &&
      Get(r, "buildingName") == Get(data, "buildingName") &&
      Get(r, "loginKey") == Get(data, "loginKey") &&
      Get(r, "clientTypeId") == Get(data, "ClientTypeid") &&
      Get(r, "userTypeId") == Get(data, "UserTypeId") &&
      Get(r, "status") == Get(data, "status") &&
      (Get(r, "clientId").Num? || Get(r, "clientId").NaN?)
  {
    RecordField(data, 0);
    RecordField(data, 1);
    RecordField(data, 2);
    RecordField(data, 3);
    RecordField(data, 4);
    RecordField(data, 5);
    RecordField(data, 6);
    RecordField(data, 7);
    RecordField(data, 8);
    RecordField(data, 9);
    RecordField(data, 10);
    RecordField(data, 11);
  }

  /** The record's keys are distinct, so reading a key finds its one property. */
  lemma RecordUnique(data: JsVal)
    ensures UniqueKeys(FormatSession(data).props)
  {
    var r := FormatSession(data);
    SessionKeysDistinct();
    forall i, j | 0 <= i < j < |r.props|
      ensures r.props[i].key != r.props[j].key
    {
      assert r.props[i].key == SESSION_KEYS[i] && r.props[j].key == SESSION_KEYS[j];
    }
  }

  /** No two record keys are the same. */
  lemma SessionKeysDistinct()
    ensures forall i, j :: 0 <= i < j < |SESSION_KEYS| ==> SESSION_KEYS[i] != SESSION_KEYS[j]
  {
    forall i, j | 0 <= i < j < |SESSION_KEYS|
      ensures SESSION_KEYS[i] != SESSION_KEYS[j]
    {
      var a, b := SESSION_KEYS[i], SESSION_KEYS[j];
      assert |a| != |b| || a[0] != b[0];
    }
  }

  /** One field of the record, read by its key. */
  lemma RecordField(data: JsVal, i: nat)
    requires i < |SESSION_KEYS|
    ensures Get(FormatSession(data), SESSION_KEYS[i]) == Field(data, i)
  {
    FormatSessionRecord(data);
  }

  /** The record's `status` is the payload's `status`. */
  lemma StatusKept(data: JsVal)
    ensures Get(FormatSession(data), "status") == Get(data, "status")
  {
    assert SESSION_KEYS[11] == "status" && BACKEND_KEYS[11] == "status";
    assert Field(data, 11) == Get(data, "status");
    RecordField(data, 11);
  }

  /** The record's `clientId` is `Number(ClientId)`. */
  lemma ClientIdKept(data: JsVal)
    ensures Get(FormatSession(data), "clientId") == ToNumber(Get(data, "ClientId"))
  {
    assert SESSION_KEYS[3] == "clientId" && BACKEND_KEYS[3] == "ClientId";
    assert Field(data, 3) == ToNumber(Get(data, "ClientId"));
    RecordField(data, 3);
  }

  /** Keys the backend sends but the record does not keep are gone: `Status` and `SubmissionStatus` read as `undefined`. */
  lemma RecordOmitsBackendStatus(data: JsVal)
    ensures Get(FormatSession(data), "Status") == Undefined
    ensures Get(FormatSession(data), "SubmissionStatus") == Undefined
  {
    NotARecordKey(data, "Status");
    NotARecordKey(data, "SubmissionStatus");
    LookupLast(FormatSession(data).props, "Status");
    LookupLast(FormatSession(data).props, "SubmissionStatus");
  }

  /** Neither backend status key is a record key: each differs from all twelve in length or first letter. */
  lemma NotARecordKey(data: JsVal, k: string)
    requires k == "Status" || k == "SubmissionStatus"
    ensures !HasKey(FormatSession(data).props, k)
  {
    var r := FormatSession(data);
    forall i | 0 <= i < |r.props|
      ensures r.props[i].key != k
    {
      var key := SESSION_KEYS[i];
      assert r.props[i].key == key;
      assert |key| != |k| || key[0] != k[0];
    }
  }

  /** A non-numeric `ClientId` is not rejected: the record keeps NaN ids, and a save still stores it. */
  lemma NonNumericClientIdSaved(data: JsVal, storage: map<string, string>)
    requires data.Obj? && Get(data, "ClientId") == Str("abc")
    ensures Get(FormatSession(data), "clientId") == NaN
    ensures Get(FormatSession(data), "userId") == NaN
    ensures Stored(StorageAfterSave(storage, data, true)) == Some(RecordText(FormatSession(data)))
  {
    WordIsNaN();
    FormatSessionFields(data);
    SavedText(storage, data);
  }

  /** A truthy payload saved successfully is what the key then holds. */
  lemma SavedText(storage: map<string, string>, data: JsVal)
    requires Truthy(data)
    ensures Stored(StorageAfterSave(storage, data, true)) == Some(RecordText(FormatSession(data)))
  {
  }

  /** Clearing removes the key (when the removal succeeds) and touches nothing else; a second clear changes nothing more. */
  lemma ClearOnlyTheKey(storage: map<string, string>, removeOk: bool, again: bool)
    ensures removeOk ==> Stored(StorageAfterClear(storage, removeOk)) == None
    ensures StorageAfterClear(storage, removeOk) - {STORAGE_KEY} == storage - {STORAGE_KEY}
    ensures removeOk ==>
      StorageAfterClear(StorageAfterClear(storage, removeOk), again) == StorageAfterClear(storage, removeOk)
  {
    if removeOk {
      var once := storage - {STORAGE_KEY};
      assert once - {STORAGE_KEY} == once;
    }
  }

  /** `saveSession` of a falsy value is a clear, and no save touches any key but `STORAGE_KEY`. */
  lemma SaveOnlyTheKey(storage: map<string, string>, data: JsVal, storageOk: bool)
    ensures !Truthy(data) ==> StorageAfterSave(storage, data, storageOk) == StorageAfterClear(storage, storageOk)
    ensures !Truthy(data) && storageOk ==> Stored(StorageAfterSave(storage, data, storageOk)) == None
    ensures StorageAfterSave(storage, data, storageOk) - {STORAGE_KEY} == storage - {STORAGE_KEY}
    ensures !storageOk && Truthy(data) ==> StorageAfterSave(storage, data, storageOk) == storage
  {
    ClearOnlyTheKey(storage, storageOk, false);
    if Truthy(data) && storageOk {
      var saved := storage[STORAGE_KEY := RecordText(FormatSession(data))];
      assert saved - {STORAGE_KEY} == storage - {STORAGE_KEY};
    }
  }

  /**
   * A successful save followed by a fresh load gives back the record as
   * `JSON.parse(JSON.stringify(record))` shapes it: every field reads as its
   * own round trip (an `undefined` field stays absent, NaN comes back as
   * `null`), and the loaded session is an object, so it is truthy.
   */
  lemma SaveThenLoad(data: JsVal, storage: map<string, string>, prior: JsVal, k: string)
    requires Truthy(data)
    ensures var loaded := LoadedSession(prior, Stored(StorageAfterSave(storage, data, true)), true);
      loaded == Reloaded(FormatSession(data)) && loaded.Obj? &&
      Get(loaded, k) == Reloaded(Get(FormatSession(data), k))
  {
    var r := FormatSession(data);
    var j := JObj(StringifyProps(r.props));
    var text := RecordText(r);
    assert text == Serialize(j) && text != "";
    SavedText(storage, data);
    SerializeRoundTrip(j);
    assert LoadedSession(prior, Some(text), true) == ToJs(j);
    assert Reloaded(r) == ToJs(j);
    RecordUnique(data);
    ReloadedLookup(r.props, k);
  }

  /** A reloaded session routes the same way: `status` survives unless it was NaN, and it comes back a number iff it was one. */
  lemma ReloadedStatus(data: JsVal, storage: map<string, string>, prior: JsVal)
    requires Truthy(data)
    requires !Get(data, "status").Obj? && !Get(data, "status").Arr? && Get(data, "status") != NaN
    ensures Get(LoadedSession(prior, Stored(StorageAfterSave(storage, data, true)), true), "status") == Get(data, "status")
  {
    SaveThenLoad(data, storage, prior, "status");
    StatusKept(data);
    ReloadedPrimitive(Get(data, "status"));
  }

  /** A NaN id does not survive a reload: `JSON.stringify` writes it as `null`, which is falsy. */
  lemma NaNClientIdReloadsAsNull(data: JsVal, storage: map<string, string>, prior: JsVal)
    requires Truthy(data) && ToNumber(Get(data, "ClientId")) == NaN
    ensures Get(LoadedSession(prior, Stored(StorageAfterSave(storage, data, true)), true), "clientId") == Null
  {
    SaveThenLoad(data, storage, prior, "clientId");
    ClientIdKept(data);
  }

  /**
   * Every way a load can fail leaves the session as it was: no key, an empty
   * value, a failed read, or text that does not parse (a SyntaxError, or
   * valid JSON outside the subset the codec reads).
   */
  lemma LoadFailuresKeepSession(prior: JsVal, storage: map<string, string>, readOk: bool)
    requires !readOk || Stored(storage) == None || Stored(storage) == Some("") ||
      Parse(Stored(storage).value) == None
    ensures LoadedSession(prior, Stored(storage), readOk) == prior
  {
  }

  /** Text `JSON.parse` rejects, such as a number with a leading `0` or a string holding a raw line break, is not loaded. */
  lemma SyntaxErrorsKeepSession(prior: JsVal)
    ensures LoadedSession(prior, Some("012"), true) == prior
    ensures LoadedSession(prior, Some("\"\n\""), true) == prior
  {
    StrictSyntax();
  }
}
