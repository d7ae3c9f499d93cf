/** The API Gateway client the plugin holds: an object whose requests change
    the service's state in place. Each request method does to the fields
    exactly what the matching function of `Steps` does to a `World`. */
module Gateway {
  import opened Common
  import opened Remote
  import opened Steps

  class ApiGateway {
    /** Page size, rejections and generated secrets. */
    const svc: Service

    var keys: seq<ApiKey>
    var plans: seq<UsagePlan>
    var links: seq<Link>
    /** The next id the service hands out. */
    var nextId: nat
    /** Every request received, in order. */
    var calls: seq<Call>

    ghost predicate Valid()
      reads this`keys, this`plans, this`links, this`nextId
    {
      svc.pageSize > 0 && Wf(World(keys, plans, links, nextId, []))
    }

    /** The service's state and request log, as a value. */
    function Now(): World
      reads this
    {
      World(keys, plans, links, nextId, calls)
    }

    constructor (svc: Service, w: World)
      requires svc.pageSize > 0 && Wf(w)
      ensures Valid() && this.svc == svc && Now() == w
    {
      this.svc := svc;
      keys, plans, links, nextId, calls := w.keys, w.plans, w.links, w.nextId, w.calls;
    }

    method GetApiKeys(position: Option<nat>) returns (r: Result<Page<ApiKey>>)
      requires Valid()
      modifies this`calls
      ensures Step(Now(), r) == PageStep(svc, old(Now()), ApiKeys, old(keys), position)
    {
      calls := calls + [Call.GetApiKeys(position)];
      r := Answer(svc, Call.GetApiKeys(position), PageOf(keys, svc.pageSize, position));
    }

    method GetUsagePlans(position: Option<nat>) returns (r: Result<Page<UsagePlan>>)
      requires Valid()
      modifies this`calls
      ensures Step(Now(), r) == PageStep(svc, old(Now()), UsagePlans, old(plans), position)
    {
      calls := calls + [Call.GetUsagePlans(position)];
      r := Answer(svc, Call.GetUsagePlans(position), PageOf(plans, svc.pageSize, position));
    }

    method GetUsagePlanKeys(usagePlanId: nat, position: Option<nat>) returns (r: Result<Page<PlanKeyItem>>)
      requires Valid()
      modifies this`calls
      ensures Step(Now(), r) == PageStep(svc, old(Now()), PlanKeys(usagePlanId), KeysOfPlan(old(links), usagePlanId), position)
    {
      calls := calls + [Call.GetUsagePlanKeys(usagePlanId, position)];
      r := Answer(svc, Call.GetUsagePlanKeys(usagePlanId, position),
                  PageOf(KeysOfPlan(links, usagePlanId), svc.pageSize, position));
    }

    method CreateApiKey(name: string, enabled: bool, value: Option<string>) returns (r: Result<ApiKey>)
      requires Valid()
      modifies this`keys, this`nextId, this`calls
      ensures Valid()
      ensures Step(Now(), r) == CreateApiKeyStep(svc, old(Now()), name, enabled, value)
    {
      CreateApiKeyGrows(svc, Now(), name, enabled, value);
      var c := Call.CreateApiKey(name, enabled, value);
      calls := calls + [c];
      if svc.fails(c).Some? {
        return Err(svc.fails(c).value);
      }
      var k := ApiKey(nextId, name, if value.Some? then value.value else svc.secrets(nextId), enabled);
      keys := keys + [k];
      nextId := nextId + 1;
      r := Ok(k);
    }

    method CreateUsagePlan(plan: PlanSettings) returns (r: Result<UsagePlan>)
      requires Valid()
      modifies this`plans, this`nextId, this`calls
      ensures Valid()
      ensures Step(Now(), r) == CreateUsagePlanStep(svc, old(Now()), plan)
    {
      CreateUsagePlanGrows(svc, Now(), plan);
      var c := Call.CreateUsagePlan(plan);
      calls := calls + [c];
      if svc.fails(c).Some? {
        return Err(svc.fails(c).value);
      }
      if plan.name.None? {
        return Err(BadRequestException);
      }
      var p := UsagePlan(nextId, plan.name.value, plan.quota, plan.throttle, []);
      plans := plans + [p];
      nextId := nextId + 1;
      r := Ok(p);
    }

    method CreateUsagePlanKey(keyId: nat, keyType: string, usagePlanId: nat) returns (r: Outcome)
      requires Valid()
      modifies this`links, this`calls
      ensures Valid()
      ensures Step(Now(), r) == CreateUsagePlanKeyStep(svc, old(Now()), keyId, keyType, usagePlanId)
    {
      CreateUsagePlanKeyGrows(svc, Now(), keyId, keyType, usagePlanId);
      var c := Call.CreateUsagePlanKey(keyId, keyType, usagePlanId);
      calls := calls + [c];
      if svc.fails(c).Some? {
        return Fail(svc.fails(c).value);
      } else if keyType != "API_KEY" {
        return Fail(BadRequestException);
      } else if PlanWithId(plans, usagePlanId).None? || KeyWithId(keys, keyId).None? {
        return Fail(NotFoundException);
      } else if Link(usagePlanId, keyId) in links {
        return Fail(ConflictException);
      }
      links := links + [Link(usagePlanId, keyId)];
      r := Pass;
    }

    method UpdateUsagePlan(usagePlanId: nat, patchOperations: seq<PatchOperation>) returns (r: Outcome)
      requires Valid()
      modifies this`plans, this`calls
      ensures Valid()
      ensures Step(Now(), r) == UpdateUsagePlanStep(svc, old(Now()), usagePlanId, patchOperations)
    {
      UpdateUsagePlanGrows(svc, Now(), usagePlanId, patchOperations);
      var c := Call.UpdateUsagePlan(usagePlanId, patchOperations);
      calls := calls + [c];
      if svc.fails(c).Some? {
        return Fail(svc.fails(c).value);
      }
      if !IsStagePatch(patchOperations) {
        return Fail(BadRequestException);
      }
      var found := PlanWithId(plans, usagePlanId);
      if found.None? {
        return Fail(NotFoundException);
      }
      var i := found.value;
      var s := ParseApiStage(patchOperations[0].value).value;
      if s in plans[i].apiStages {
        return Fail(ConflictException);
      }
      plans := plans[i := plans[i].(apiStages := plans[i].apiStages + [s])];
      r := Pass;
    }

    method DeleteUsagePlan(usagePlanId: nat) returns (r: Outcome)
      requires Valid()
      modifies this`plans, this`links, this`calls
      ensures Valid()
      ensures Step(Now(), r) == DeleteUsagePlanStep(svc, old(Now()), usagePlanId)
    {
      DeleteUsagePlanShrinks(svc, Now(), usagePlanId);
      var c := Call.DeleteUsagePlan(usagePlanId);
      calls := calls + [c];
      if svc.fails(c).Some? {
        return Fail(svc.fails(c).value);
      }
      var found := PlanWithId(plans, usagePlanId);
      if found.None? {
        return Fail(NotFoundException);
      }
      var i := found.value;
      plans := plans[..i] + plans[i + 1..];
      links := LinksWithoutPlan(links, usagePlanId);
      r := Pass;
    }

    method DeleteApiKey(apiKey: nat) returns (r: Outcome)
      requires Valid()
      modifies this`keys, this`links, this`calls
      ensures Valid()
      ensures Step(Now(), r) == DeleteApiKeyStep(svc, old(Now()), apiKey)
    {
      DeleteApiKeyShrinks(svc, Now(), apiKey);
      var c := Call.DeleteApiKey(apiKey);
      calls := calls + [c];
      if svc.fails(c).Some? {
        return Fail(svc.fails(c).value);
      }
      var found := KeyWithId(keys, apiKey);
      if found.None? {
        return Fail(NotFoundException);
      }
      var i := found.value;
      keys := keys[..i] + keys[i + 1..];
      links := LinksWithoutKey(links, apiKey);
      r := Pass;
    }
  }
}
