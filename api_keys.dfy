/** The API-key routes: saving a key (one per service, overwritten in place),
    deleting it, and testing a key against its service, which records the outcome on
    the stored key. All keys belong to the single demo user the routes create on
    demand. */
module ApiKeys {
  import opened Wrappers
  import opened Text
  import opened AiService

  /** A stored key. Timestamps are integer milliseconds. */
  datatype ApiKey = ApiKey(
    id: int,
    service: string,
    keyValue: string,
    status: string,
    lastTested: Option<int>,
    responseTime: Option<int>,
    errorMessage: Option<string>,
    createdAt: int,
    updatedAt: int)

  /** The services a key may be saved for. */
  const ValidServices: seq<string> := ["cerebras", "openai", "anthropic", "vercel", "netlify", "supabase", "stripe"]

  /** The services a connection test knows how to reach. */
  const TestedServices: seq<string> := ["cerebras", "openai", "anthropic", "vercel", "netlify"]

  /** At most one stored key per service. */
  ghost predicate OnePerService(keys: map<int, ApiKey>)
  {
    forall i, j :: i in keys && j in keys && keys[i].service == keys[j].service ==> i == j
  }

  /** Whether some stored key belongs to `service`. */
  ghost predicate HasKeyFor(keys: map<int, ApiKey>, service: string)
  {
    exists i :: i in keys && keys[i].service == service
  }

  /** The key table and the demo user, in place of the database session. */
  class KeyStore {
    var keys: map<int, ApiKey>
    var nextId: int
    var hasUser: bool

    ghost predicate Valid()
      reads this
    {
      && nextId >= 1
      && (keys != map[] ==> hasUser)
      && (forall i :: i in keys ==> 0 < i < nextId && keys[i].id == i)
      && OnePerService(keys)
    }

    constructor ()
      ensures keys == map[] && nextId == 1 && !hasUser && Valid()
    {
      keys := map[];
      nextId := 1;
      hasUser := false;
    }
  }

  /** The table after saving `keyValue` for `service` at `now`, and the id of the key
      saved: an existing key of that service is overwritten with its test results
      cleared, otherwise a new disconnected key takes the next id. */
  ghost function Upsert(keys: map<int, ApiKey>, nextId: int, service: string, keyValue: string, now: int): (r: (map<int, ApiKey>, int))
    ensures r.1 in r.0 && r.0[r.1].service == service && r.0[r.1].keyValue == keyValue
    ensures r.0[r.1].status == "disconnected" && r.0[r.1].updatedAt == now
    ensures r.0[r.1].lastTested == None && r.0[r.1].responseTime == None && r.0[r.1].errorMessage == None
    ensures HasKeyFor(keys, service) ==> r.1 in keys && keys[r.1].service == service && r.0.Keys == keys.Keys
    ensures HasKeyFor(keys, service) ==> r.0[r.1].id == keys[r.1].id && r.0[r.1].createdAt == keys[r.1].createdAt
    ensures !HasKeyFor(keys, service) ==> r.1 == nextId && r.0.Keys == keys.Keys + {nextId}
    ensures !HasKeyFor(keys, service) ==> r.0[r.1].id == nextId && r.0[r.1].createdAt == now
    ensures forall i :: i in keys && i != r.1 ==> i in r.0 && r.0[i] == keys[i]
  {
    if HasKeyFor(keys, service) then
      var i :| i in keys && keys[i].service == service;
      (keys[i := keys[i].(keyValue := keyValue, status := "disconnected", lastTested := None,
                          responseTime := None, errorMessage := None, updatedAt := now)], i)
    else
      (keys[nextId := ApiKey(nextId, service, keyValue, "disconnected", None, None, None, now, now)], nextId)
  }

  /** Saving keeps one key per service, as long as a new id is fresh. */
  lemma UpsertOnePerService(keys: map<int, ApiKey>, nextId: int, service: string, keyValue: string, now: int)
    requires OnePerService(keys) && nextId !in keys
    ensures OnePerService(Upsert(keys, nextId, service, keyValue, now).0)
  {
    var r := Upsert(keys, nextId, service, keyValue, now);
    forall i, j | i in r.0 && j in r.0 && r.0[i].service == r.0[j].service
      ensures i == j
    {
      if i == r.1 || j == r.1 {
        assert i != r.1 ==> HasKeyFor(keys, service);
        assert j != r.1 ==> HasKeyFor(keys, service);
      }
    }
  }

  /** Saving the same service twice leaves one key for it: the second save overwrites
      the key the first one made. */
  lemma SaveTwiceOverwrites(keys: map<int, ApiKey>, nextId: int, service: string, first: string, second: string, now: int, later: int)
    requires OnePerService(keys) && nextId !in keys
    ensures var (once, id) := Upsert(keys, nextId, service, first, now);
            var (twice, id') := Upsert(once, nextId + 1, service, second, later);
            id' == id && twice.Keys == once.Keys && twice[id].keyValue == second
  {
    var (once, id) := Upsert(keys, nextId, service, first, now);
    UpsertOnePerService(keys, nextId, service, first, now);
    assert HasKeyFor(once, service) by { assert once[id].service == service; }
  }

  /** A save request: the two keys the body must carry. */
  datatype SaveRequest = SaveRequest(service: Field<string>, keyValue: Field<string>)

  /** `save_api_key`: 400 on a missing field or an unknown service, with nothing
      changed; otherwise the demo user exists and the table becomes `Upsert` of the
      old one, with 201. */
  method SaveApiKey(store: KeyStore, req: SaveRequest, now: int) returns (code: int, id: Option<int>)
    requires store.Valid()
    modifies store
    ensures store.Valid()
    ensures code == 400 || code == 201
    ensures code == 400 <==>
      req.service.Absent? || req.keyValue.Absent? || req.service.value !in ValidServices
    ensures code == 400 ==>
      id.None? && store.keys == old(store.keys) && store.nextId == old(store.nextId) && store.hasUser == old(store.hasUser)
    ensures code == 201 ==>
      store.hasUser && id.Some? &&
      (store.keys, id.value) == Upsert(old(store.keys), old(store.nextId), req.service.value, req.keyValue.value, now)
  {
    if req.service.Absent? || req.keyValue.Absent? {
      return 400, None;
    }
    var service, keyValue := req.service.value, req.keyValue.value;
    if service !in ValidServices {
      return 400, None;
    }
    if !store.hasUser {
      store.hasUser := true;
    }
    ghost var expected := Upsert(store.keys, store.nextId, service, keyValue, now);
    UpsertOnePerService(store.keys, store.nextId, service, keyValue, now);
    if exists i :: i in store.keys && store.keys[i].service == service {
      var i :| i in store.keys && store.keys[i].service == service;
      var key := store.keys[i];
      store.keys := store.keys[i := key.(keyValue := keyValue, status := "disconnected", lastTested := None,
                                         responseTime := None, errorMessage := None, updatedAt := now)];
      id := Some(i);
    } else {
      var i := store.nextId;
      store.keys := store.keys[i := ApiKey(i, service, keyValue, "disconnected", None, None, None, now, now)];
      store.nextId := i + 1;
      id := Some(i);
    }
    assert (store.keys, id.value) == expected;
    code := 201;
  }

  /** `delete_api_key`: 404 for an unknown id, else the key is removed. */
  method DeleteApiKey(store: KeyStore, id: int) returns (code: int)
    requires store.Valid()
    modifies store`keys
    ensures store.Valid()
    ensures code == 404 <==> id !in old(store.keys)
    ensures code == 404 || code == 200
    ensures code == 404 ==> store.keys == old(store.keys)
    ensures code == 200 ==> store.keys == old(store.keys) - {id}
  {
    if id !in store.keys {
      return 404;
    }
    store.keys := store.keys - {id};
    code := 200;
  }

  /** What a connection test reports. */
  datatype TestResult = TestResult(success: bool, message: Option<string>, error: Option<string>)

  /** `test_cerebras_connection`: a format check on the key only. */
  function TestCerebras(key: string): (r: TestResult)
    ensures r.success <==> StartsWith(key, "csk-")
    ensures r.success ==> r.error == None && r.message == Some("Cerebras API connection successful")
    ensures !r.success ==> r.error == Some("Invalid Cerebras API key format")
  {
    if StartsWith(key, "csk-") then TestResult(true, Some("Cerebras API connection successful"), None)
    else TestResult(false, None, Some("Invalid Cerebras API key format"))
  }

  /** The probe of a service reached over HTTP (OpenAI, Anthropic, Vercel, Netlify),
      given the display `name` and what the request came back with. */
  function TestHttpService(name: string, outcome: HttpOutcome): (r: TestResult)
    ensures r.success <==> outcome.Answered? && outcome.status == 200
    ensures r.success ==> r.error == None && r.message == Some(name + " API connection successful")
    ensures outcome.Answered? && outcome.status != 200 ==>
      r.error == Some(name + " API error: " + IntToString(outcome.status))
    ensures outcome.Raised? ==> r.error == Some(name + " API test failed: " + outcome.message)
  {
    match outcome
    case Answered(status, _) =>
      if status == 200 then TestResult(true, Some(name + " API connection successful"), None)
      else TestResult(false, None, Some(name + " API error: " + IntToString(status)))
    case Raised(message) => TestResult(false, None, Some(name + " API test failed: " + message))
  }

  /** `test_service_connection`: dispatch on the service name; `outcome` is what the
      HTTP probe, when there is one, comes back with. */
  function TestServiceConnection(service: string, key: string, outcome: HttpOutcome): (r: TestResult)
    ensures service == "cerebras" ==> r == TestCerebras(key)
    ensures service == "openai" ==> r == TestHttpService("OpenAI", outcome)
    ensures service == "anthropic" ==> r == TestHttpService("Anthropic", outcome)
    ensures service == "vercel" ==> r == TestHttpService("Vercel", outcome)
    ensures service == "netlify" ==> r == TestHttpService("Netlify", outcome)
    ensures service in TestedServices && service != "cerebras" ==>
      (r.success <==> outcome.Answered? && outcome.status == 200)
    ensures service !in TestedServices ==> r == TestResult(false, None, Some("Unknown service: " + service))
    ensures r.success ==> service in TestedServices && r.error == None
    ensures !r.success ==> r.error.Some?
  {
    if service == "cerebras" then TestCerebras(key)
    else if service == "openai" then TestHttpService("OpenAI", outcome)
    else if service == "anthropic" then TestHttpService("Anthropic", outcome)
    else if service == "vercel" then TestHttpService("Vercel", outcome)
    else if service == "netlify" then TestHttpService("Netlify", outcome)
    else TestResult(false, None, Some("Unknown service: " + service))
  }

  /** Two of the services a key can be saved for can never pass a test. */
  lemma SavedButUntestable(key: string, outcome: HttpOutcome)
    ensures "supabase" in ValidServices && !TestServiceConnection("supabase", key, outcome).success
    ensures "stripe" in ValidServices && !TestServiceConnection("stripe", key, outcome).success
  {
  }

  /** The stored key of `service` after a test with `result`, taken at `now` and
      lasting `responseTime` ms; the other keys are untouched. */
  ghost function Tested(keys: map<int, ApiKey>, service: string, result: TestResult, now: int, responseTime: int): (r: map<int, ApiKey>)
    ensures r.Keys == keys.Keys
    ensures forall i :: i in keys && keys[i].service != service ==> r[i] == keys[i]
    ensures forall i :: i in keys && keys[i].service == service ==>
      r[i] == keys[i].(status := if result.success then "connected" else "error", lastTested := Some(now),
                       responseTime := Some(responseTime), errorMessage := result.error)
  {
    map i | i in keys :: if keys[i].service == service then
      keys[i].(status := if result.success then "connected" else "error", lastTested := Some(now),
               responseTime := Some(responseTime), errorMessage := result.error)
    else keys[i]
  }

  /** A test changes no key's service or value, so one key per service still holds. */
  lemma TestedOnePerService(keys: map<int, ApiKey>, service: string, result: TestResult, now: int, responseTime: int)
    requires OnePerService(keys)
    ensures OnePerService(Tested(keys, service, result, now, responseTime))
  {
    var r := Tested(keys, service, result, now, responseTime);
    forall i, j | i in r && j in r && r[i].service == r[j].service
      ensures i == j
    {
      assert r[i].service == keys[i].service && r[j].service == keys[j].service;
    }
  }

  /** A stored key of a service no test reaches ends up in `error`, whatever the key. */
  lemma UnknownServiceMarksError(keys: map<int, ApiKey>, i: int, key: string, outcome: HttpOutcome, now: int, responseTime: int)
    requires i in keys && keys[i].service !in TestedServices
    ensures var r := Tested(keys, keys[i].service, TestServiceConnection(keys[i].service, key, outcome), now, responseTime);
            r[i].status == "error" && r[i].errorMessage == Some("Unknown service: " + keys[i].service)
  {
  }

  /** `test_api_key`: 400 on a missing field; otherwise the test runs on the key value
      sent (not on the stored one) and, when the demo user has a key for the service,
      that key records the result. `responseTime` is the measured duration. */
  method TestApiKey(store: KeyStore, req: SaveRequest, outcome: HttpOutcome, now: int, responseTime: nat)
    returns (code: int, result: Option<TestResult>)
    requires store.Valid()
    modifies store`keys
    ensures store.Valid()
    ensures code == 400 || code == 200
    ensures code == 400 <==> req.service.Absent? || req.keyValue.Absent?
    ensures code == 400 ==> result.None? && store.keys == old(store.keys)
    ensures code == 200 ==>
      result == Some(TestServiceConnection(req.service.value, req.keyValue.value, outcome)) &&
      store.keys == Tested(old(store.keys), req.service.value, result.value, now, responseTime)
  {
    if req.service.Absent? || req.keyValue.Absent? {
      return 400, None;
    }
    var service := req.service.value;
    var r := TestServiceConnection(service, req.keyValue.value, outcome);
    result := Some(r);
    TestedOnePerService(store.keys, service, r, now, responseTime);
    var keys := store.keys;
    ghost var expected := Tested(keys, service, r, now, responseTime);
    if store.hasUser && exists i :: i in keys && keys[i].service == service {
      var i :| i in keys && keys[i].service == service;
      store.keys := keys[i := keys[i].(status := if r.success then "connected" else "error", lastTested := Some(now),
                                       responseTime := Some(responseTime), errorMessage := r.error)];
      assert forall j :: j in keys && j != i ==> keys[j].service != service;
    } else {
      assert forall j :: j in keys ==> keys[j].service != service;
    }
    assert store.keys == expected;
    code := 200;
  }
}
