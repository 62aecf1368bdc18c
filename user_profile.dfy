/**
 * The profile loader (`UserProvider`): once the session controller is ready
 * and the session carries a client id, it asks the backend for the approved
 * client's profile and keeps what comes back.
 */
module UserProfile {
  import opened JsValues
  import opened ApiConfig
  import opened Session

  /** `loadProfile`'s guard: it runs only when ready and `session?.clientId` is truthy. */
  predicate LoadsProfile(isReady: bool, session: JsVal) {
    isReady && Truthy(Get(session, "clientId"))
  }

  /** The profile after one completed load: an ok reply's data, otherwise the profile as it was. */
  function ProfileAfter(prior: JsVal, outcome: Outcome): (p: JsVal)
    ensures p != prior ==> outcome.Replied? && outcome.ok && p == outcome.data
  {
    match outcome
    case Replied(ok, _, data) => if ok then data else prior
    case Threw(_) => prior
  }

  class UserProvider {
    var profile: JsVal
    var loading: bool

    constructor()
      ensures profile == Null && loading
    {
      profile := Null;
      loading := true;
    }

    /**
     * `loadProfile`, with `outcome` what `getApprovedClient` gave.  Returns
     * the request it made, if any.
     */
    method LoadProfile(isReady: bool, session: JsVal, outcome: Outcome) returns (sent: Option<Request>)
      modifies this
      ensures sent.Some? <==> LoadsProfile(isReady, session)
      ensures sent.Some? ==> sent.value == GetApprovedClient(Get(session, "clientId"))
      ensures !LoadsProfile(isReady, session) ==> profile == old(profile) && loading == old(loading)
      ensures LoadsProfile(isReady, session) ==> profile == ProfileAfter(old(profile), outcome) && !loading
    {
      var clientId := Get(session, "clientId");
      if !isReady || !Truthy(clientId) {
        return None;
      }
      loading := true;
      sent := Some(GetApprovedClient(clientId));
      match outcome {
        case Replied(ok, _, data) =>
          if ok {
            profile := data;
          }
        case Threw(_) =>
      }
      loading := false;
    }
  }

  // ---------------------------------------------------------------------
  // Properties
  // ---------------------------------------------------------------------

  /** A non-ok reply and a thrown error both leave the profile as it was; an ok reply replaces it. */
  lemma ProfileOutcomes(prior: JsVal, status: int, data: JsVal, message: string)
    ensures ProfileAfter(prior, Replied(false, status, data)) == prior
    ensures ProfileAfter(prior, Threw(message)) == prior
    ensures ProfileAfter(prior, Replied(true, status, data)) == data
  {
  }

  /** For a freshly saved session with a nonzero numeric `ClientId`, the profile request asks for that id. */
  lemma SavedSessionLoadsProfile(data: JsVal, n: int)
    requires Truthy(data) && ToNumber(Get(data, "ClientId")) == Num(n) && n != 0
    ensures LoadsProfile(true, FormatSession(data))
    ensures GetApprovedClient(Get(FormatSession(data), "clientId")).query == [("userId", IntToString(n))]
  {
    ClientIdKept(data);
    var ps := [Prop("userId", Num(n))];
    assert ps[1..] == [];
    assert KeptParams(ps) == [("userId", ToStr(Num(n)))] + KeptParams(ps[1..]);
  }

  /**
   * A `ClientId` that is not a number is saved as NaN and reloaded as `null`,
   * so after a restart the profile is never requested.
   */
  lemma NaNClientIdNeverLoadsProfile(data: JsVal, storage: map<string, string>, prior: JsVal)
    requires Truthy(data) && ToNumber(Get(data, "ClientId")) == NaN
    ensures !LoadsProfile(true, FormatSession(data))
    ensures !LoadsProfile(true, LoadedSession(prior, Stored(StorageAfterSave(storage, data, true)), true))
  {
    ClientIdKept(data);
    NaNClientIdReloadsAsNull(data, storage, prior);
  }
}
