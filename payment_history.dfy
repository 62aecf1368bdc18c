/**
 * The payment history screen: one load that fetches the client's profile
 * and then the last year's payments, and the greeting values derived from
 * the profile.
 *
 * The load runs while the screen is mounted; the `mounted` flag that
 * silences updates after unmounting is not modelled, so every update here
 * is one the mounted screen makes.
 */
module PaymentHistory {
  import opened JsValues
  import opened ApiConfig

  const PAYMENT_ERROR := "Failed to load payment history."
  const DASH := "—"

  /** The load effect's guard: ready, with a truthy `loginKey` and `clientId`. */
  predicate LoadsPayments(isReady: bool, session: JsVal) {
    isReady && Truthy(Get(session, "loginKey")) && Truthy(Get(session, "clientId"))
  }

  /** The body arguments `loadData` hands to `getPaymentHistory`. */
  function PaymentArgs(loginKey: JsVal, fromDate: string, toDate: string, clientId: JsVal): JsVal {
    Obj([
      Prop("key", loginKey),
      Prop("fromDate", Str(fromDate)),
      Prop("toDate", Str(toDate)),
      Prop("byOffice", Bool(false)),
      Prop("officeIds", Str("")),
      Prop("clientIds", clientId)
    ])
  }

  /** The payments an outcome yields: an ok reply whose data is an array. */
  function PaymentsOf(outcome: Outcome): Option<seq<JsVal>> {
    if outcome.Replied? && outcome.ok && outcome.data.Arr? then Some(outcome.data.items) else None
  }

  /** `profile || {}`. */
  function ProfileOrEmpty(profile: JsVal): JsVal {
    Or(profile, Obj([]))
  }

  function CustomerName(profile: JsVal): (n: JsVal)
    ensures Truthy(n)
  {
    Or(Get(ProfileOrEmpty(profile), "FirstName"), Str(DASH))
  }

  function BuildingName(profile: JsVal): (n: JsVal)
    ensures Truthy(n)
  {
    Or(Get(ProfileOrEmpty(profile), "BuildingName"), Str(DASH))
  }

  function UnitName(profile: JsVal): JsVal {
    Or(Get(ProfileOrEmpty(profile), "UnitName"), Str(""))
  }

  /** `buildingName && unitName ? `${buildingName} - ${unitName}` : buildingName`. */
  function BuildingLabel(profile: JsVal): JsVal {
    var building := BuildingName(profile);
    var unit := UnitName(profile);
    if Truthy(building) && Truthy(unit) then Str(ToStr(building) + " - " + ToStr(unit)) else building
  }

  class PaymentHistoryScreen {
    var loading: bool
    var profile: JsVal
    var payments: seq<JsVal>
    var error: Option<string>

    constructor()
      ensures loading && profile == Null && payments == [] && error == None
    {
      loading := true;
      profile := Null;
      payments := [];
      error := None;
    }

    /**
     * The load effect: `profileOutcome` is what `getApprovedClient` gave and
     * `paymentOutcome` what `getPaymentHistory` gave.  A thrown profile
     * request skips the payment request.  Returns the requests made, in order.
     */
    method LoadData(isReady: bool, session: JsVal, fromDate: string, toDate: string,
                    profileOutcome: Outcome, paymentOutcome: Outcome) returns (sent: seq<Request>)
      modifies this
      ensures !LoadsPayments(isReady, session) ==>
        sent == [] && loading == old(loading) && profile == old(profile) &&
        payments == old(payments) && error == old(error)
      ensures LoadsPayments(isReady, session) ==> !loading
      ensures LoadsPayments(isReady, session) && profileOutcome.Threw? ==>
        sent == [GetApprovedClient(Get(session, "clientId"))] &&
        profile == old(profile) && payments == old(payments) && error == Some(PAYMENT_ERROR)
      ensures LoadsPayments(isReady, session) && profileOutcome.Replied? ==>
        sent == [GetApprovedClient(Get(session, "clientId")),
                 GetPaymentHistory(PaymentArgs(Get(session, "loginKey"), fromDate, toDate, Get(session, "clientId")))] &&
        profile == (if profileOutcome.ok then profileOutcome.data else old(profile)) &&
        (PaymentsOf(paymentOutcome).Some? ==> payments == PaymentsOf(paymentOutcome).value && error == None) &&
        (PaymentsOf(paymentOutcome).None? ==> payments == old(payments) && error == Some(PAYMENT_ERROR))
    {
      var loginKey := Get(session, "loginKey");
      var clientId := Get(session, "clientId");
      if !isReady || !Truthy(loginKey) || !Truthy(clientId) {
        return [];
      }
      loading := true;
      error := None;
      sent := [GetApprovedClient(clientId)];
      if profileOutcome.Threw? {
        error := Some(PAYMENT_ERROR);
        loading := false;
        return;
      }
      if profileOutcome.ok {
        profile := profileOutcome.data;
      }
      sent := sent + [GetPaymentHistory(PaymentArgs(loginKey, fromDate, toDate, clientId))];
      var received := PaymentsOf(paymentOutcome);
      if received.None? {
        error := Some(PAYMENT_ERROR);
      } else {
        payments := received.value;
      }
      loading := false;
    }
  }

  // ---------------------------------------------------------------------
  // Properties
  // ---------------------------------------------------------------------

  /** Without a profile the greeting shows `"—"` for both name and building, and the label is the building alone. */
  lemma NoProfileDefaults(profile: JsVal)
    requires !Truthy(profile)
    ensures CustomerName(profile) == Str(DASH)
    ensures BuildingName(profile) == Str(DASH)
    ensures UnitName(profile) == Str("")
    ensures BuildingLabel(profile) == Str(DASH)
  {
  }

  /**
   * For a present profile each greeting value is the profile's own field when
   * that is truthy, and the fallback (`"—"`, or `""` for the unit) otherwise.
   */
  lemma ProfileFieldsShown(props: seq<Prop>)
    ensures Truthy(Lookup(props, "FirstName")) ==> CustomerName(Obj(props)) == Lookup(props, "FirstName")
    ensures !Truthy(Lookup(props, "FirstName")) ==> CustomerName(Obj(props)) == Str(DASH)
    ensures Truthy(Lookup(props, "BuildingName")) ==> BuildingName(Obj(props)) == Lookup(props, "BuildingName")
    ensures !Truthy(Lookup(props, "BuildingName")) ==> BuildingName(Obj(props)) == Str(DASH)
    ensures Truthy(Lookup(props, "UnitName")) ==> UnitName(Obj(props)) == Lookup(props, "UnitName")
    ensures !Truthy(Lookup(props, "UnitName")) ==> UnitName(Obj(props)) == Str("")
  {
  }

  /** The label joins building and unit with `" - "` exactly when the unit is non-empty, and is otherwise the building. */
  lemma LabelJoinsUnit(profile: JsVal)
    ensures Truthy(UnitName(profile)) ==>
      BuildingLabel(profile) == Str(ToStr(BuildingName(profile)) + " - " + ToStr(UnitName(profile)))
    ensures !Truthy(UnitName(profile)) ==> BuildingLabel(profile) == BuildingName(profile)
    ensures Truthy(BuildingLabel(profile))
  {
    if Truthy(UnitName(profile)) {
      var s := ToStr(BuildingName(profile)) + " - " + ToStr(UnitName(profile));
      assert s[|ToStr(BuildingName(profile))|] == ' ';
    }
  }

  /** A non-ok reply, a reply that is not an array and a thrown request all leave the payments alone. */
  lemma BadPaymentReplies(status: int, data: JsVal, message: string)
    ensures PaymentsOf(Replied(false, status, data)) == None
    ensures !data.Arr? ==> PaymentsOf(Replied(true, status, data)) == None
    ensures PaymentsOf(Threw(message)) == None
    ensures data.Arr? ==> PaymentsOf(Replied(true, status, data)) == Some(data.items)
  {
  }
}
