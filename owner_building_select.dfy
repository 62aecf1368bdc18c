/**
 * The owner's building list: fetching the buildings an owner manages, the
 * list's display and key fallbacks, and logging out from it.
 */
module OwnerBuildingSelect {
  import opened JsValues
  import opened ApiConfig
  import opened Session
  import opened Ui

  const SESSION_INVALID := Alert("Error", "Session invalid. Please login again.")
  const LOAD_FAILED := Alert("Error", "Failed to load buildings.")
  const UNEXPECTED := Alert("Error", "An unexpected error occurred.")

  /** The alert a fetch ends with for a present login key, or `None` when the buildings were loaded. */
  function FetchAlert(outcome: Outcome): Option<Alert> {
    match outcome
    case Threw(_) => Some(UNEXPECTED)
    case Replied(ok, _, data) => if ok && Truthy(data) then None else Some(LOAD_FAILED)
  }

  /** A building's title: `Name`, or `BuildingName` when `Name` is falsy (reading either of a null item throws). */
  function DisplayName(item: JsVal): JsVal
    requires !IsNullish(item)
  {
    Or(Get(item, "Name"), Get(item, "BuildingName"))
  }

  /** A building's address line, `"No address"` when it has none. */
  function Address(item: JsVal): (a: JsVal)
    requires !IsNullish(item)
    ensures Truthy(a)
  {
    Or(Get(item, "Address"), Str("No address"))
  }

  /** The list key: `String(Id)`, or `String(BuildingId)` when `Id` is falsy. */
  function ListKey(item: JsVal): string
    requires !IsNullish(item)
  {
    ToStr(Or(Get(item, "Id"), Get(item, "BuildingId")))
  }

  class OwnerBuildingSelectScreen {
    /** The session controller this screen reads and logs out through. */
    const store: SessionStore
    /** Whatever an ok reply's truthy `data` was; the list expects an array. */
    var buildings: JsVal
    var loading: bool

    constructor(store: SessionStore)
      ensures this.store == store && buildings == Arr([]) && loading
    {
      this.store := store;
      buildings := Arr([]);
      loading := true;
    }

    /**
     * `fetchBuildings`, with `outcome` what `getOwnerBuildings` gave.
     * Returns the alert shown, if any, and the request made, if any.
     */
    method FetchBuildings(outcome: Outcome) returns (alert: Option<Alert>, sent: Option<Request>)
      modifies this
      ensures !loading
      ensures !Truthy(Get(store.session, "loginKey")) ==>
        alert == Some(SESSION_INVALID) && sent == None && buildings == old(buildings)
      ensures Truthy(Get(store.session, "loginKey")) ==>
        sent == Some(GetOwnerBuildings(Get(store.session, "loginKey"))) && alert == FetchAlert(outcome)
      ensures Truthy(Get(store.session, "loginKey")) && FetchAlert(outcome).None? ==> buildings == outcome.data
      ensures FetchAlert(outcome).Some? ==> buildings == old(buildings)
    {
      var loginKey := Get(store.session, "loginKey");
      if !Truthy(loginKey) {
        alert := Some(SESSION_INVALID);
        sent := None;
        loading := false;
        return;
      }
      sent := Some(GetOwnerBuildings(loginKey));
      match outcome {
        case Threw(_) =>
          alert := Some(UNEXPECTED);
        case Replied(ok, _, data) =>
          if ok && Truthy(data) {
            buildings := data;
            alert := None;
          } else {
            alert := Some(LOAD_FAILED);
          }
      }
      loading := false;
    }

    /** `handleLogout`: `saveSession(null)`, which clears the session. */
    method HandleLogout(storageOk: bool)
      modifies store
      ensures store.session == Null
      ensures store.storage == StorageAfterClear(old(store.storage), storageOk)
      ensures store.isReady == old(store.isReady)
    {
      store.SaveSession(Null, storageOk);
    }
  }

  // ---------------------------------------------------------------------
  // Properties
  // ---------------------------------------------------------------------

  /** Title, address and key fall back field by field; the address line is never empty. */
  lemma ItemFallbacks(item: JsVal)
    requires !IsNullish(item)
    ensures Truthy(Get(item, "Name")) ==> DisplayName(item) == Get(item, "Name")
    ensures !Truthy(Get(item, "Name")) ==> DisplayName(item) == Get(item, "BuildingName")
    ensures Truthy(Get(item, "Address")) ==> Address(item) == Get(item, "Address")
    ensures !Truthy(Get(item, "Address")) ==> Address(item) == Str("No address")
    ensures Truthy(Get(item, "Id")) ==> ListKey(item) == ToStr(Get(item, "Id"))
    ensures !Truthy(Get(item, "Id")) ==> ListKey(item) == ToStr(Get(item, "BuildingId"))
  {
  }

  /** Two items with neither `Id` nor `BuildingId` get the same key, `"undefined"`. */
  lemma KeylessItemsCollide()
    ensures ListKey(Obj([])) == "undefined"
    ensures ListKey(Obj([Prop("Name", Str("A"))])) == ListKey(Obj([Prop("Name", Str("B"))]))
  {
    assert Get(Obj([Prop("Name", Str("A"))]), "Id") == Undefined;
    assert Get(Obj([Prop("Name", Str("A"))]), "BuildingId") == Undefined;
    assert Get(Obj([Prop("Name", Str("B"))]), "Id") == Undefined;
    assert Get(Obj([Prop("Name", Str("B"))]), "BuildingId") == Undefined;
  }

  /** An ok reply with falsy data, a non-ok reply and a thrown request each end in their own alert. */
  lemma FetchAlerts(status: int, data: JsVal, message: string)
    ensures !Truthy(data) ==> FetchAlert(Replied(true, status, data)) == Some(LOAD_FAILED)
    ensures FetchAlert(Replied(false, status, data)) == Some(LOAD_FAILED)
    ensures FetchAlert(Threw(message)) == Some(UNEXPECTED)
    ensures Truthy(data) ==> FetchAlert(Replied(true, status, data)) == None
  {
  }
}
