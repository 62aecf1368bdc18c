/**
 * The service-ticket screen (`TicketScreen`): a dashboard tab and an "add"
 * tab holding the ticket form, the form's prefill from the client profile,
 * the meter list, and the submit handler with its validation chain.
 *
 * Form fields hold whatever was put in them (typed text, or a profile field
 * of any type), so they are JavaScript values.  Alerts are returned as
 * values; the 700 ms form placeholder timer is a separate step,
 * `FormTimerFired`.
 */
module RaiseTicket {
  import opened JsValues
  import opened ApiConfig
  import opened Ui

  const DASHBOARD_TAB := "dashboard"
  const ADD_TAB := "add"

  const SESSION_EXPIRED := Alert("Error", "Session expired. Please login again.")
  const MISSING_FIELDS := Alert("Validation", "Please fill all required fields")
  const MISSING_ISSUE := Alert("Validation", "Please select issue type")
  const TICKET_RAISED := Alert("Success", "Ticket raised successfully")

  /** The ticket form's fields, as one value. */
  datatype Form = Form(
    name: JsVal, phone: JsVal, building: JsVal, unitNo: JsVal,
    issueType: JsVal, meterName: JsVal, description: JsVal)

  /**
   * The checks `handleSaveTicket` makes before sending, in order: a missing
   * login key, then any of name / phone / unit / meter empty, then a missing
   * issue type.  `None` when the ticket may be sent.
   */
  function ValidationError(loginKey: JsVal, form: Form): Option<Alert> {
    if !Truthy(loginKey) then Some(SESSION_EXPIRED)
    else if !Truthy(form.name) || !Truthy(form.phone) || !Truthy(form.unitNo) || !Truthy(form.meterName) then
      Some(MISSING_FIELDS)
    else if !Truthy(form.issueType) then Some(MISSING_ISSUE)
    else None
  }

  const PAYLOAD_KEYS := ["Key", "Name", "Phone", "BuildingName", "UnitNo", "IssueType", "MeterName", "Description"]

  /** The ticket sent to the service desk: the form's fields as they are, under the backend's names. */
  function TicketPayload(loginKey: JsVal, form: Form): (p: JsVal)
    ensures p.Obj? && Keys(p.props) == PAYLOAD_KEYS
  {
    Obj([
      Prop("Key", loginKey),
      Prop("Name", form.name),
      Prop("Phone", form.phone),
      Prop("BuildingName", form.building),
      Prop("UnitNo", form.unitNo),
      Prop("IssueType", form.issueType),
      Prop("MeterName", form.meterName),
      Prop("Description", form.description)
    ])
  }

  predicate Succeeded(outcome: Outcome) {
    outcome.Replied? && outcome.ok
  }

  /**
   * The message of the error alert after a failed submission: a non-ok reply
   * throws `new Error(data?.message || "Failed to raise ticket")`, a failed
   * request throws its own error, and the alert shows the error's message
   * or, when that is empty, `"Something went wrong"`.
   */
  function FailureMessage(outcome: Outcome): (m: string)
    ensures m != ""
  {
    var message := match outcome
      case Replied(_, _, data) => ToStr(Or(Get(data, "message"), Str("Failed to raise ticket")))
      case Threw(msg) => msg;
    if message != "" then message else "Something went wrong"
  }

  /** The alert a submission that passed validation ends with. */
  function SubmitAlert(outcome: Outcome): Alert {
    if Succeeded(outcome) then TICKET_RAISED else Alert("Error", FailureMessage(outcome))
  }

  /** What the screen shows below its greeting card. */
  datatype View = DashboardSkeleton | Dashboard | FormSkeleton | TicketForm

  /** The render choice: a loading dashboard tab shows its skeleton, then the dashboard tab, then the form's placeholder, then the form. */
  function RenderChoice(loading: bool, activeTab: string, formLoading: bool): (v: View)
    ensures v == Dashboard || v == DashboardSkeleton <==> activeTab == DASHBOARD_TAB
  {
    if loading && activeTab == DASHBOARD_TAB then DashboardSkeleton
    else if activeTab == DASHBOARD_TAB then Dashboard
    else if formLoading then FormSkeleton
    else TicketForm
  }

  class TicketScreen {
    var activeTab: string
    var formLoading: bool
    var profileData: JsVal
    var name: JsVal
    var phone: JsVal
    var building: JsVal
    var unitNo: JsVal
    var issueType: JsVal
    var meters: seq<JsVal>
    var meterName: JsVal
    var description: JsVal

    constructor()
      ensures activeTab == DASHBOARD_TAB && !formLoading && profileData == Null && meters == []
      ensures CurrentForm() == Form(Str(""), Str(""), Str(""), Str(""), Str(""), Str(""), Str(""))
    {
      activeTab := DASHBOARD_TAB;
      formLoading := false;
      profileData := Null;
      name, phone, building, unitNo := Str(""), Str(""), Str(""), Str("");
      issueType, meterName, description := Str(""), Str(""), Str("");
      meters := [];
    }

    function CurrentForm(): Form
      reads this
    {
      Form(name, phone, building, unitNo, issueType, meterName, description)
    }

    /**
     * `fetchProfileData`: with a truthy `clientId`, request the approved
     * client and, on an ok reply with truthy data, keep it and prefill name,
     * phone, building and unit from it (each falling back to `""`).
     */
    method FetchProfileData(session: JsVal, outcome: Outcome) returns (sent: Option<Request>)
      modifies this
      ensures sent.Some? <==> Truthy(Get(session, "clientId"))
      ensures sent.Some? ==> sent.value == GetApprovedClient(Get(session, "clientId"))
      ensures sent.Some? && Succeeded(outcome) && Truthy(outcome.data) ==>
        profileData == outcome.data &&
        name == Or(Get(outcome.data, "FirstName"), Str("")) &&
        phone == Or(Get(outcome.data, "MobileNumber"), Str("")) &&
        building == Or(Get(outcome.data, "BuildingName"), Str("")) &&
        unitNo == Or(Get(outcome.data, "UnitName"), Str(""))
      ensures !(sent.Some? && Succeeded(outcome) && Truthy(outcome.data)) ==>
        profileData == old(profileData) && CurrentForm() == old(CurrentForm())
      ensures issueType == old(issueType) && meterName == old(meterName) && description == old(description)
      ensures activeTab == old(activeTab) && formLoading == old(formLoading) && meters == old(meters)
    {
      var clientId := Get(session, "clientId");
      if !Truthy(clientId) {
        return None;
      }
      sent := Some(GetApprovedClient(clientId));
      if outcome.Replied? && outcome.ok && Truthy(outcome.data) {
        var data := outcome.data;
        profileData := data;
        name := Or(Get(data, "FirstName"), Str(""));
        phone := Or(Get(data, "MobileNumber"), Str(""));
        building := Or(Get(data, "BuildingName"), Str(""));
        unitNo := Or(Get(data, "UnitName"), Str(""));
      }
    }

    /** `fetchMeters`: with a truthy `loginKey`, request the meters and keep an ok array reply. */
    method FetchMeters(session: JsVal, outcome: Outcome) returns (sent: Option<Request>)
      modifies this
      ensures sent.Some? <==> Truthy(Get(session, "loginKey"))
      ensures sent.Some? ==> sent.value == GetClientMeters(Get(session, "loginKey"))
      ensures sent.Some? && Succeeded(outcome) && outcome.data.Arr? ==> meters == outcome.data.items
      ensures !(sent.Some? && Succeeded(outcome) && outcome.data.Arr?) ==> meters == old(meters)
      ensures CurrentForm() == old(CurrentForm()) && profileData == old(profileData)
      ensures activeTab == old(activeTab) && formLoading == old(formLoading)
    {
      var loginKey := Get(session, "loginKey");
      if !Truthy(loginKey) {
        return None;
      }
      sent := Some(GetClientMeters(loginKey));
      if outcome.Replied? && outcome.ok && outcome.data.Arr? {
        meters := outcome.data.items;
      }
    }

    /** `handleAddTicketPress`: open the form tab behind its placeholder. */
    method HandleAddTicketPress()
      modifies this
      ensures activeTab == ADD_TAB && formLoading
      ensures CurrentForm() == old(CurrentForm()) && meters == old(meters) && profileData == old(profileData)
    {
      activeTab := ADD_TAB;
      formLoading := true;
    }

    /** The placeholder timer set by `handleAddTicketPress` fires. */
    method FormTimerFired()
      modifies this
      ensures !formLoading
      ensures activeTab == old(activeTab) && CurrentForm() == old(CurrentForm())
      ensures meters == old(meters) && profileData == old(profileData)
    {
      formLoading := false;
    }

    /** `handleBackToDashboard`. */
    method HandleBackToDashboard()
      modifies this
      ensures activeTab == DASHBOARD_TAB
      ensures formLoading == old(formLoading) && CurrentForm() == old(CurrentForm())
      ensures meters == old(meters) && profileData == old(profileData)
    {
      activeTab := DASHBOARD_TAB;
    }

    /**
     * `handleSaveTicket`: validate, send the payload, and on success clear
     * only issue type, meter and description and go back to the dashboard.
     * `outcome` is what `raiseServiceTicket` gave.  Returns the alert shown
     * and the request sent, if any.
     */
    method HandleSaveTicket(session: JsVal, outcome: Outcome) returns (alert: Alert, sent: Option<Request>)
      modifies this
      ensures ValidationError(Get(session, "loginKey"), old(CurrentForm())).Some? ==>
        alert == ValidationError(Get(session, "loginKey"), old(CurrentForm())).value && sent == None &&
        CurrentForm() == old(CurrentForm()) && activeTab == old(activeTab) && formLoading == old(formLoading)
      ensures ValidationError(Get(session, "loginKey"), old(CurrentForm())).None? ==>
        sent == Some(RaiseServiceTicket(TicketPayload(Get(session, "loginKey"), old(CurrentForm())))) &&
        alert == SubmitAlert(outcome) && !formLoading
      ensures ValidationError(Get(session, "loginKey"), old(CurrentForm())).None? && Succeeded(outcome) ==>
        CurrentForm() == old(CurrentForm()).(issueType := Str(""), meterName := Str(""), description := Str("")) &&
        activeTab == DASHBOARD_TAB
      ensures ValidationError(Get(session, "loginKey"), old(CurrentForm())).None? && !Succeeded(outcome) ==>
        CurrentForm() == old(CurrentForm()) && activeTab == old(activeTab)
      ensures meters == old(meters) && profileData == old(profileData)
    {
      var loginKey := Get(session, "loginKey");
      if !Truthy(loginKey) {
        return SESSION_EXPIRED, None;
      }
      if !Truthy(name) || !Truthy(phone) || !Truthy(unitNo) || !Truthy(meterName) {
        return MISSING_FIELDS, None;
      }
      if !Truthy(issueType) {
        return MISSING_ISSUE, None;
      }
      formLoading := true;
      var payload := TicketPayload(loginKey, CurrentForm());
      sent := Some(RaiseServiceTicket(payload));
      if outcome.Replied? && outcome.ok {
        alert := TICKET_RAISED;
        issueType := Str("");
        meterName := Str("");
        description := Str("");
        HandleBackToDashboard();
      } else {
        alert := Alert("Error", FailureMessage(outcome));
      }
      formLoading := false;
    }
  }

  // ---------------------------------------------------------------------
  // Properties
  // ---------------------------------------------------------------------

  /**
   * The validation chain: a missing login key wins over everything; any
   * empty required field (name, phone, unit, meter) comes next; an empty
   * issue type is reported only once those pass; the ticket is sent exactly
   * when key, name, phone, unit, meter and issue type are all truthy.
   */
  lemma ValidationOrder(loginKey: JsVal, form: Form)
    ensures !Truthy(loginKey) ==> ValidationError(loginKey, form) == Some(SESSION_EXPIRED)
    ensures (Truthy(loginKey) &&
             (!Truthy(form.name) || !Truthy(form.phone) || !Truthy(form.unitNo) || !Truthy(form.meterName))) ==>
      ValidationError(loginKey, form) == Some(MISSING_FIELDS)
    ensures (Truthy(loginKey) && Truthy(form.name) && Truthy(form.phone) && Truthy(form.unitNo) &&
             Truthy(form.meterName) && !Truthy(form.issueType)) ==>
      ValidationError(loginKey, form) == Some(MISSING_ISSUE)
    ensures ValidationError(loginKey, form) == Some(MISSING_ISSUE) ==>
      Truthy(form.name) && Truthy(form.phone) && Truthy(form.unitNo) && Truthy(form.meterName)
    ensures ValidationError(loginKey, form).None? <==>
      Truthy(loginKey) && Truthy(form.name) && Truthy(form.phone) && Truthy(form.unitNo) &&
      Truthy(form.meterName) && Truthy(form.issueType)
  {
  }

  /** Building and description are never required: changing them changes no validation outcome. */
  lemma BuildingNotRequired(loginKey: JsVal, form: Form, building: JsVal, description: JsVal)
    ensures ValidationError(loginKey, form.(building := building, description := description)) ==
      ValidationError(loginKey, form)
  {
  }

  /** The payload copies every field verbatim, with the login key under `Key`. */
  lemma PayloadFields(loginKey: JsVal, form: Form)
    ensures var p := TicketPayload(loginKey, form);
      Get(p, "Key") == loginKey && Get(p, "Name") == form.name && Get(p, "Phone") == form.phone &&
      Get(p, "BuildingName") == form.building && Get(p, "UnitNo") == form.unitNo &&
      Get(p, "IssueType") == form.issueType && Get(p, "MeterName") == form.meterName &&
      Get(p, "Description") == form.description
  {
    var p := TicketPayload(loginKey, form);
    assert UniqueKeys(p.props) by {
      forall i, j | 0 <= i < j < |p.props|
        ensures p.props[i].key != p.props[j].key
      {
        assert p.props[i].key == PAYLOAD_KEYS[i] && p.props[j].key == PAYLOAD_KEYS[j];
      }
    }
    GetUnique(p.props, 0);
    GetUnique(p.props, 1);
    GetUnique(p.props, 2);
    GetUnique(p.props, 3);
    GetUnique(p.props, 4);
    GetUnique(p.props, 5);
    GetUnique(p.props, 6);
    GetUnique(p.props, 7);
  }

  /**
   * The failure alert's message: the reply's `message` when it is truthy,
   * otherwise `"Failed to raise ticket"`; an empty-array `message`, truthy
   * but empty as a string, ends as `"Something went wrong"`.
   */
  lemma FailureMessages(status: int, data: JsVal, text: string)
    requires text != ""
    ensures Truthy(Get(data, "message")) && ToStr(Get(data, "message")) != "" ==>
      FailureMessage(Replied(false, status, data)) == ToStr(Get(data, "message"))
    ensures Truthy(Get(data, "message")) && ToStr(Get(data, "message")) == "" ==>
      FailureMessage(Replied(false, status, data)) == "Something went wrong"
    ensures !Truthy(Get(data, "message")) ==> FailureMessage(Replied(false, status, data)) == "Failed to raise ticket"
    ensures FailureMessage(Replied(false, status, Obj([Prop("message", Str(text))]))) == text
    ensures FailureMessage(Replied(false, status, Null)) == "Failed to raise ticket"
    ensures FailureMessage(Replied(false, status, Obj([Prop("message", Arr([]))]))) == "Something went wrong"
    ensures FailureMessage(Threw("")) == "Something went wrong"
    ensures FailureMessage(Threw(text)) == text
  {
    assert Get(Obj([Prop("message", Arr([]))]), "message") == Arr([]);
  }

  /** The page's own `loading` flag matters only on the dashboard tab; the form tab shows the form once its placeholder is done. */
  lemma RenderChoices(loading: bool, activeTab: string, formLoading: bool)
    ensures activeTab != DASHBOARD_TAB ==> RenderChoice(loading, activeTab, formLoading) == RenderChoice(false, activeTab, formLoading)
    ensures activeTab != DASHBOARD_TAB ==> (RenderChoice(loading, activeTab, formLoading) == TicketForm <==> !formLoading)
    ensures RenderChoice(loading, activeTab, formLoading) == DashboardSkeleton <==> loading && activeTab == DASHBOARD_TAB
  {
  }
}
