/** The `/api/cost-configuration` route: reading (GET) and storing (POST) a user's hourly-rate
    configuration in the `users.cost_configuration` column. */
module CostConfigurationRoute {
  import opened Wrappers
  import opened Json
  import opened Store
  import opened Http

  const DeveloperRateKey: string := "developerRate"
  const DesignerRateKey: string := "designerRate"
  const ProjectManagerRateKey: string := "projectManagerRate"
  const QaTesterRateKey: string := "qaTesterRate"

  const NotAuthenticated: string := "Not authenticated"
  const InvalidConfiguration: string := "Invalid cost configuration data"
  const ConfigurationUpdated: string := "Cost configuration updated successfully"

  /** `DEFAULT_COST_CONFIG`. */
  const DefaultCostConfig: Json := JObject(map[
    DeveloperRateKey := JNumber(8000.0),
    DesignerRateKey := JNumber(7000.0),
    ProjectManagerRateKey := JNumber(9000.0),
    QaTesterRateKey := JNumber(6000.0)])

  /** The four `typeof costConfig.<rate> === "number"` checks. */
  predicate ValidConfiguration(body: Json) {
    && IsNumberMember(body, DeveloperRateKey)
    && IsNumberMember(body, DesignerRateKey)
    && IsNumberMember(body, ProjectManagerRateKey)
    && IsNumberMember(body, QaTesterRateKey)
  }

  /** Only an object can pass, and the default does. */
  lemma ValidConfigurationShape(body: Json)
    ensures ValidConfiguration(body) ==> body.JObject? && Truthy(body)
    ensures ValidConfiguration(DefaultCostConfig)
  {
  }

  /** GET for `user`, over the `users` table (id to `cost_configuration`, `JNull` when unset);
      `fault` is a storage failure of the read. */
  function Get(user: Option<string>, users: map<string, Json>, fault: Option<DbError>): (r: Response<Json>)
    ensures user.None? ==> r == Error(401, NotAuthenticated)
    // A failed read, including a missing users row, is a 500 carrying the read's message.
    ensures user.Some? && fault.Some? ==> r == Error(500, fault.value.message)
    ensures user.Some? && fault.None? && user.value !in users ==> r.Error? && r.status == 500
    // A stored configuration is returned as stored; an unset (falsy) one reads as the default.
    ensures user.Some? && fault.None? && user.value in users ==>
      r == Ok(if Truthy(users[user.value]) then users[user.value] else DefaultCostConfig)
  {
    if user.None? then Error(401, NotAuthenticated)
    else
      var row := if user.value in users then Some(users[user.value]) else None;
      match ReadSingle(row, fault)
      case Threw => Unhandled
      case Failed(e) => Error(500, e.message)
      case Found(data) => if data.Some? && Truthy(data.value) then Ok(data.value) else Ok(DefaultCostConfig)
  }

  /** The `users` table as POST changes it. */
  class CostConfigurationApi {
    var users: map<string, Json>

    constructor(users: map<string, Json>)
      ensures this.users == users
    {
      this.users := users;
    }

    /** POST with the parsed JSON `body`; `writeFault` is a storage failure of the update.
        `body.<rate>` on a `null` body throws, which nothing in the route catches. */
    method Post(user: Option<string>, body: Json, writeFault: Option<DbError>) returns (r: Response<string>)
      modifies this
      ensures user.None? ==> r == Error(401, NotAuthenticated)
      ensures user.Some? && body.JNull? ==> r.Unhandled?
      ensures user.Some? && !body.JNull? && !ValidConfiguration(body) ==> r == Error(400, InvalidConfiguration)
      ensures user.Some? && ValidConfiguration(body) && writeFault.Some? ==> r == Error(500, writeFault.value.message)
      ensures !(user.Some? && ValidConfiguration(body) && writeFault.None?) ==> users == old(users)
      // The body is stored verbatim, extra members and negative rates included; updating a
      // missing users row matches nothing and still succeeds.
      ensures user.Some? && ValidConfiguration(body) && writeFault.None? ==>
        r == Ok(ConfigurationUpdated)
        && users == (if user.value in old(users) then old(users)[user.value := body] else old(users))
    {
      if user.None? {
        return Error(401, NotAuthenticated);
      }
      if body.JNull? {
        return Unhandled;
      }
      if !IsNumberMember(body, DeveloperRateKey) || !IsNumberMember(body, DesignerRateKey)
         || !IsNumberMember(body, ProjectManagerRateKey) || !IsNumberMember(body, QaTesterRateKey) {
        return Error(400, InvalidConfiguration);
      }
      if writeFault.Some? {
        return Error(500, writeFault.value.message);
      }
      if user.value in users {
        users := users[user.value := body];
      }
      r := Ok(ConfigurationUpdated);
    }
  }

  /** What a successful POST stored, the next GET returns. */
  lemma PostThenGet(userId: string, users: map<string, Json>, body: Json)
    requires userId in users && ValidConfiguration(body)
    ensures Get(Some(userId), users[userId := body], None) == Ok(body)
  {
    ValidConfigurationShape(body);
  }

  /** A negative rate next to an unknown member is accepted, so the route checks only types. */
  lemma NegativeRatesAccepted()
    ensures ValidConfiguration(JObject(map[
      DeveloperRateKey := JNumber(-1.0), DesignerRateKey := JNumber(0.0),
      ProjectManagerRateKey := JNumber(0.5), QaTesterRateKey := JNumber(6000.0),
      "note" := JString("kept")]))
  {
  }
}
