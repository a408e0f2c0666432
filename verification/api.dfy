/**
 * The client of the single backend endpoint: the request envelope, the
 * normalisation of the response, the race against a timer, and `post`, whose
 * only effect on the store is the sign-out after a successful logout.
 *
 * The network is an input: a run of race events says whether the request
 * settled (and how) before the timer fired.
 */
module Api {

  import opened Wrappers
  import opened Js
  import opened Domain
  import opened State

  const LogoutAction: string := "auth.logout"

  /** The error value a timed-out request rejects with: an `Error` whose message is `REQUEST_TIMEOUT`. */
  const TimeoutError: Value := Obj(map["message" := Str("REQUEST_TIMEOUT")])

  /** The error thrown when neither the status nor the body carries one. */
  const InternalError: Value := Obj(map["code" := Str("INTERNAL_ERROR"), "message" := Str("Erro inesperado")])

  /** `buildRequestBody(action, payload, includeAuth)` given the auth record in the store at call time. */
  function BuildRequestBody(action: string, payload: Value, includeAuth: bool, auth: Auth): (r: Value)
    ensures r.Obj? && Get(r, "action") == Str(action) && Get(r, "payload") == payload
    ensures "auth" in r.fields <==> includeAuth
    ensures r.fields.Keys == if includeAuth then {"action", "payload", "auth"} else {"action", "payload"}
    ensures includeAuth ==>
      Get(Get(r, "auth"), "user_id") == UserIdOf(auth)
      && Get(Get(r, "auth"), "session_token") == (if HasToken(auth) then Str(auth.sessionToken.value) else Null)
  {
    var body := map["action" := Str(action), "payload" := payload];
    if includeAuth then
      Obj(body["auth" := Obj(map[
        "user_id" := Or(if auth.user.Some? then OptStr(auth.user.value.id) else Undefined, Null),
        "session_token" := Or(OptStr(auth.sessionToken), Null)])])
    else Obj(body)
  }

  /** `auth?.user?.id || null`. */
  function UserIdOf(auth: Auth): (r: Value)
    ensures r == Null || (r.Str? && r.s != "")
    ensures r != Null <==> auth.user.Some? && auth.user.value.id.Some? && auth.user.value.id.value != ""
  {
    if auth.user.Some? && auth.user.value.id.Some? && auth.user.value.id.value != "" then Str(auth.user.value.id.value)
    else Null
  }

  /** An HTTP response: its status and its body, `None` when the body is not JSON. */
  datatype Response = Response(status: int, json: Option<Value>)

  /** The normalised result of a successful call. */
  datatype Envelope = Envelope(status: int, data: Value, error: Value, meta: Value)

  /** `response.ok`. */
  predicate StatusOk(status: int) {
    200 <= status <= 299
  }

  /** `data?.key || null`. */
  function FieldOrNull(data: Value, key: string): (r: Value)
    ensures r == Null || (Truthy(r) && r == Get(data, key))
    ensures Truthy(Get(data, key)) ==> r == Get(data, key)
  {
    Or(Get(data, key), Null)
  }

  /** `parseResponse`: success only when both the status and the body say ok. */
  function ParseResponse(resp: Response): (r: Result<Envelope, Value>)
    ensures r.Success? <==> StatusOk(resp.status) && resp.json.Some? && Truthy(Get(resp.json.value, "ok"))
    ensures r.Success? ==>
      r.value.status == resp.status
      && r.value.data == FieldOrNull(resp.json.value, "data")
      && r.value.error == FieldOrNull(resp.json.value, "error")
      && r.value.meta == FieldOrNull(resp.json.value, "meta")
    ensures r.Failure? ==>
      var body := resp.json.GetOr(EmptyObj);
      r.error == if Truthy(Get(body, "error")) then Get(body, "error") else InternalError
    ensures r.Failure? ==> Truthy(r.error)
  {
    var data := resp.json.GetOr(EmptyObj);
    var ok := StatusOk(resp.status) && Truthy(Get(data, "ok"));
    var env := Envelope(resp.status, FieldOrNull(data, "data"), FieldOrNull(data, "error"), FieldOrNull(data, "meta"));
    if !ok then Failure(if Truthy(env.error) then env.error else InternalError)
    else Success(env)
  }

  /** A body that is not JSON always fails with the internal error, whatever the status. */
  lemma UnparseableBodyIsInternalError(status: int)
    ensures ParseResponse(Response(status, None)) == Failure(InternalError)
  {
  }

  /** How a promise settles. */
  datatype Settlement<T> = Resolved(value: T) | Rejected(error: Value)

  /** What happens first, second, ...: the inner promise settles, or the timer fires. */
  datatype RaceEvent<T> = InnerSettles(settlement: Settlement<T>) | TimerFires

  /** The settlement withTimeout ends with: that of whichever event came first, or the timeout when none did. */
  function RaceWinner<T>(events: seq<RaceEvent<T>>): Settlement<T> {
    if events == [] then Rejected(TimeoutError)
    else match events[0]
      case InnerSettles(s) => s
      case TimerFires => Rejected(TimeoutError)
  }

  /**
   * `withTimeout(promise, ms)`: the events are handled in order; the first
   * to settle the outer promise wins and later ones are ignored, and a timer
   * still armed when the events run out fires last.
   */
  method WithTimeout<T>(events: seq<RaceEvent<T>>) returns (outcome: Settlement<T>, settles: nat)
    ensures outcome == RaceWinner(events)
    ensures settles == 1
  {
    var settled: Option<Settlement<T>> := None;
    var armed := true;
    settles := 0;
    var i := 0;
    while i < |events|
      invariant 0 <= i <= |events|
      invariant settled.None? <==> i == 0
      invariant settles == if settled.Some? then 1 else 0
      invariant settled.Some? ==> settled.value == RaceWinner(events)
      invariant armed <==> settled.None?
    {
      match events[i] {
        case InnerSettles(s) =>
          armed := false;
          if settled.None? {
            settled := Some(s);
            settles := settles + 1;
          }
        case TimerFires =>
          if armed {
            armed := false;
            if settled.None? {
              settled := Some(Rejected(TimeoutError));
              settles := settles + 1;
            }
          }
      }
      i := i + 1;
    }
    if settled.None? {
      settled := Some(Rejected(TimeoutError));
      settles := settles + 1;
    }
    outcome := settled.value;
  }

  /** The result of `api.post` from the race and the response. */
  function PostResult(race: Settlement<Response>): (r: Result<Envelope, Value>)
    ensures race.Rejected? ==> r == Failure(race.error)
    ensures race.Resolved? ==> r == ParseResponse(race.value)
  {
    match race
    case Rejected(e) => Failure(e)
    case Resolved(resp) => ParseResponse(resp)
  }

  /** The commit a successful logout makes. */
  const SignOutPartial: Partial := NoChange.(auth := Some(SignedOut), currentView := Some("login"))

  /**
   * `api.post(action, payload = {}, {auth = true})`: the request body reads
   * the auth record at call time; only a successful `auth.logout` changes
   * the store, signing out and routing to the login view.
   */
  method Post(store: Store, action: string, events: seq<RaceEvent<Response>>,
              payload: Value := EmptyObj, includeAuth: bool := true)
    returns (result: Result<Envelope, Value>, sent: Value)
    requires store.Valid()
    modifies store`state, store`storage, store`rootAttrs, store`trace
    ensures store.Valid() && store.listeners == old(store.listeners)
    ensures sent == BuildRequestBody(action, payload, includeAuth, old(store.state.auth))
    ensures result == PostResult(RaceWinner(events))
    ensures if result.Success? && action == LogoutAction then
        store.state == old(store.state).(auth := SignedOut, currentView := "login")
        && store.Performed(old(store.storage), old(store.rootAttrs), old(store.trace),
                           [RemoveItem(SessionKey)] + Notifications(store.listeners))
      else
        store.state == old(store.state)
        && store.Performed(old(store.storage), old(store.rootAttrs), old(store.trace), [])
    ensures action != LogoutAction ==> store.storage == old(store.storage) && store.rootAttrs == old(store.rootAttrs)
  {
    sent := BuildRequestBody(action, payload, includeAuth, store.state.auth);
    var race, _ := WithTimeout(events);
    match race {
      case Rejected(e) =>
        result := Failure(e);
        return;
      case Resolved(resp) =>
        result := ParseResponse(resp);
    }
    if result.Failure? {
      return;
    }
    if action == LogoutAction {
      store.SetState(Patch(SignOutPartial));
      assert CommitEffects(SignOutPartial, store.state) == [RemoveItem(SessionKey)];
    }
  }
}
