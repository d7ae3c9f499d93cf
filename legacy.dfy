/** The earlier, stand-alone add path of index.js (index.js:12-330): the same
    requests as src/helper.js, with a flat key list, a plan per key named
    after it, no plan templates, no listing of created keys, and lookups
    whose NotFoundException handler names an undeclared variable. */
module Legacy {
  import opened Common
  import opened Remote
  import opened Steps
  import opened Gateway
  import opened Options
  import opened Endpoint
  import opened Lookup
  import opened Provision

  /** What the legacy add path reads from the deployment. */
  datatype LegacyEnv = LegacyEnv(apiKeys: KeyConfig, serviceName: string, stage: string, region: string,
                                 stacks: map<string, seq<StackOutput>>,
                                 decrypt: (string, string) -> Result<string>)

  /** `custom.apiKeys || []` iterated as is: a list is iterable, a per-stage
      object is not. */
  function LegacyKeys(config: KeyConfig): (keys: Option<seq<KeySpec>>)
    ensures keys.None? <==> config.KeysPerStage?
    ensures config.KeyList? ==> keys == Some(config.keys)
    ensures config.NoKeys? ==> keys == Some([])
  {
    match config
    case NoKeys => Some([])
    case KeyList(ks) => Some(ks)
    case KeysPerStage(_) => None
  }

  /** Every key gets its own plan, named after it. */
  function LegacyPlanName(name: string): (planName: string)
    ensures |planName| == |name| + 11 && planName[..|name|] == name
    ensures planName[|name|..] == "-usage-plan"
  {
    name + "-usage-plan"
  }

  function LegacyDeployment(env: LegacyEnv): Deployment
  {
    Deployment(env.stacks, env.serviceName + "-" + env.stage, env.stage)
  }

  /** The NotFoundException handler as written: it returns a variable that is
      not declared in scope, which raises a ReferenceError instead of
      answering "not found". Every other answer passes through. */
  function LegacyCatch<T>(found: Result<Option<T>>, identifier: string): (r: Result<Option<T>>)
    ensures r.Ok? <==> found.Ok?
    ensures found.Ok? || found.error != NotFoundException ==> r == found
    ensures found == Err(NotFoundException) ==> r == Err(ReferenceError(identifier))
  {
    if found == Err(NotFoundException) then Err(ReferenceError(identifier)) else found
  }

  /** getApiKey of index.js. */
  function LegacyGetApiKeyStep(svc: Service, w: World, name: string): Step<Result<Option<ApiKey>>>
    requires svc.pageSize > 0
  {
    var listed := ListStep(svc, w, ApiKeys, w.keys);
    Step(listed.world, LegacyCatch(KeyLookup(listed.answer, name), "apiKey"))
  }

  /** getUsagePlan of index.js. */
  function LegacyGetUsagePlanStep(svc: Service, w: World, name: string): Step<Result<Option<UsagePlan>>>
    requires svc.pageSize > 0
  {
    var listed := ListStep(svc, w, UsagePlans, w.plans);
    Step(listed.world, LegacyCatch(PlanLookup(listed.answer, name), "usagePlan"))
  }

  /** The legacy lookups read only, and whenever they answer they answer
      what the current lookups answer. */
  lemma LegacyLookupsAgree(svc: Service, w: World, keyName: string, planName: string)
    requires svc.pageSize > 0
    ensures var k := LegacyGetApiKeyStep(svc, w, keyName);
            && ReadsOnly(w, k.world) && k.world == GetApiKeyStep(svc, w, keyName).world
            && (k.answer.Ok? ==> k.answer == GetApiKeyStep(svc, w, keyName).answer)
    ensures var p := LegacyGetUsagePlanStep(svc, w, planName);
            && ReadsOnly(w, p.world) && p.world == GetUsagePlanStep(svc, w, planName).world
            && (p.answer.Ok? ==> p.answer == GetUsagePlanStep(svc, w, planName).answer)
  {
    GetApiKeyFacts(svc, w, keyName);
    GetUsagePlanFacts(svc, w, planName);
  }

  /** With nothing rejected the legacy lookups are the current ones. */
  lemma LegacyLookupsHealthy(svc: Service, w: World, keyName: string, planName: string)
    requires svc.pageSize > 0 && Healthy(svc)
    ensures LegacyGetApiKeyStep(svc, w, keyName) == GetApiKeyStep(svc, w, keyName)
    ensures LegacyGetUsagePlanStep(svc, w, planName) == GetUsagePlanStep(svc, w, planName)
  {
    ListFacts(svc, w, ApiKeys, w.keys);
    ListFacts(svc, w, UsagePlans, w.plans);
  }

  /** When listing keys answers NotFoundException, the current lookup reports
      "no such key", so the key gets created; the legacy lookup raises a
      ReferenceError, so that key fails. The same holds for plans. */
  lemma LegacyNotFoundFails(svc: Service, w: World, keyName: string, planName: string)
    requires svc.pageSize > 0
    requires svc.fails(Call.GetApiKeys(None)) == Some(NotFoundException)
    requires svc.fails(Call.GetUsagePlans(None)) == Some(NotFoundException)
    ensures LegacyGetApiKeyStep(svc, w, keyName).answer == Err(ReferenceError("apiKey"))
    ensures GetApiKeyStep(svc, w, keyName).answer == Ok(None)
    ensures LegacyGetUsagePlanStep(svc, w, planName).answer == Err(ReferenceError("usagePlan"))
    ensures GetUsagePlanStep(svc, w, planName).answer == Ok(None)
  {
    assert Drain(svc, w.keys, ApiKeys, None) == Err(NotFoundException);
    assert Drain(svc, w.plans, UsagePlans, None) == Err(NotFoundException);
  }

  /** One iteration of the legacy loop: a value that cannot be decrypted
      rejects the run; any other error only fails this key. */
  function LegacyAddOne(svc: Service, w: World, env: LegacyEnv, spec: KeySpec): Step<Result<Outcome>>
    requires svc.pageSize > 0
  {
    match ResolveValue(spec.value, env.region, env.decrypt)
    case Err(e) => Step(w, Err(e))
    case Ok(keyValue) =>
      var key := LegacyGetApiKeyStep(svc, w, spec.name);
      if key.answer.Err? then Step(key.world, Ok(Fail(key.answer.error)))
      else
        var plan := LegacyGetUsagePlanStep(svc, key.world, LegacyPlanName(spec.name));
        if plan.answer.Err? then Step(plan.world, Ok(Fail(plan.answer.error)))
        else
          var p := ProvisionStep(svc, plan.world, LegacyDeployment(env), spec.name, keyValue, key.answer.value,
                                 plan.answer.value, LegacyPlanName(spec.name), None);
          Step(p.world, Ok(p.answer.outcome))
  }

  /** The legacy loop: Pass when it runs to the end. */
  function LegacyAddRun(svc: Service, w: World, env: LegacyEnv, specs: seq<KeySpec>): Step<Outcome>
    requires svc.pageSize > 0
    decreases |specs|
  {
    if specs == [] then Step(w, Pass)
    else
      var one := LegacyAddOne(svc, w, env, specs[0]);
      if one.answer.Err? then Step(one.world, Fail(one.answer.error))
      else LegacyAddRun(svc, one.world, env, specs[1..])
  }

  /** addApiKey of index.js. */
  function LegacyAddApiKeyStep(svc: Service, w: World, env: LegacyEnv): Step<Outcome>
    requires svc.pageSize > 0
  {
    match LegacyKeys(env.apiKeys)
    case None => Step(w, Fail(TypeError("apiKeys is not iterable")))
    case Some(specs) => LegacyAddRun(svc, w, env, specs)
  }

  /** One legacy iteration only adds to the service. */
  lemma LegacyAddOneGrows(svc: Service, w: World, env: LegacyEnv, spec: KeySpec)
    requires svc.pageSize > 0 && Wf(w)
    ensures var s := LegacyAddOne(svc, w, env, spec);
            && Wf(s.world) && Extends(w, s.world)
            && (s.answer.Err? <==> ResolveValue(spec.value, env.region, env.decrypt).Err?)
  {
    if ResolveValue(spec.value, env.region, env.decrypt).Ok? {
      var key := LegacyGetApiKeyStep(svc, w, spec.name);
      LegacyLookupsAgree(svc, w, spec.name, LegacyPlanName(spec.name));
      if key.answer.Ok? {
        var plan := LegacyGetUsagePlanStep(svc, key.world, LegacyPlanName(spec.name));
        LegacyLookupsAgree(svc, key.world, spec.name, LegacyPlanName(spec.name));
        ReadsOnlyTransitive(w, key.world, plan.world);
        if plan.answer.Ok? {
          var value := ResolveValue(spec.value, env.region, env.decrypt).value;
          ProvisionGrows(svc, plan.world, LegacyDeployment(env), spec.name, value, key.answer.value,
                         plan.answer.value, LegacyPlanName(spec.name), None);
          ExtendsTransitive(w, plan.world, ProvisionStep(svc, plan.world, LegacyDeployment(env), spec.name, value,
                                                         key.answer.value, plan.answer.value, LegacyPlanName(spec.name), None).world);
        }
      }
    }
  }

  /** With nothing rejected and the stack naming a REST API, one legacy
      iteration links the key to the plan named after it, which carries
      the deployed stage. */
  lemma LegacyAddOneReaches(svc: Service, w: World, env: LegacyEnv, spec: KeySpec)
    requires svc.pageSize > 0 && Wf(w) && Healthy(svc)
    requires DeployedStage(LegacyDeployment(env)).Some? && ResolveValue(spec.value, env.region, env.decrypt).Ok?
    ensures var s := LegacyAddOne(svc, w, env, spec);
            && s.answer == Ok(Pass)
            && Reconciled(s.world, spec.name, LegacyPlanName(spec.name), DeployedStage(LegacyDeployment(env)).value)
  {
    var key := GetApiKeyStep(svc, w, spec.name);
    LegacyLookupsHealthy(svc, w, spec.name, LegacyPlanName(spec.name));
    GetApiKeyFacts(svc, w, spec.name);
    var plan := GetUsagePlanStep(svc, key.world, LegacyPlanName(spec.name));
    LegacyLookupsHealthy(svc, key.world, spec.name, LegacyPlanName(spec.name));
    GetUsagePlanFacts(svc, key.world, LegacyPlanName(spec.name));
    assert Wf(plan.world) && plan.world.keys == w.keys && plan.world.plans == w.plans;
    ProvisionReaches(svc, plan.world, LegacyDeployment(env), spec.name,
                     ResolveValue(spec.value, env.region, env.decrypt).value, LegacyPlanName(spec.name), None);
  }

  /** The legacy run only adds to the service. */
  lemma {:induction false} LegacyAddRunGrows(svc: Service, w: World, env: LegacyEnv, specs: seq<KeySpec>)
    requires svc.pageSize > 0 && Wf(w)
    ensures var s := LegacyAddRun(svc, w, env, specs);
            Wf(s.world) && Extends(w, s.world)
    decreases |specs|
  {
    if specs != [] {
      var one := LegacyAddOne(svc, w, env, specs[0]);
      LegacyAddOneGrows(svc, w, env, specs[0]);
      if one.answer.Ok? {
        LegacyAddRunGrows(svc, one.world, env, specs[1..]);
        ExtendsTransitive(w, one.world, LegacyAddRun(svc, one.world, env, specs[1..]).world);
      }
    }
  }

  /** A key whose lookups or requests fail does not end the legacy run;
      only a value that cannot be decrypted fails the whole run. */
  lemma {:induction false} LegacyAddRunFailsOnlyUndecryptable(svc: Service, w: World, env: LegacyEnv,
                                                              specs: seq<KeySpec>)
    requires svc.pageSize > 0 && Wf(w)
    ensures LegacyAddRun(svc, w, env, specs).answer.Pass? <==>
              forall i :: 0 <= i < |specs| ==> ResolveValue(specs[i].value, env.region, env.decrypt).Ok?
    decreases |specs|
  {
    if specs != [] {
      var one := LegacyAddOne(svc, w, env, specs[0]);
      LegacyAddOneGrows(svc, w, env, specs[0]);
      if one.answer.Ok? {
        LegacyAddRunFailsOnlyUndecryptable(svc, one.world, env, specs[1..]);
        forall i | 0 < i < |specs| ensures specs[i] == specs[1..][i - 1] {
        }
      }
    }
  }

  /** With nothing rejected, every value decryptable and the stack naming a
      REST API, the legacy run links every key to the plan named after it,
      which carries the deployed stage. */
  lemma {:induction false} LegacyAddRunReaches(svc: Service, w: World, env: LegacyEnv, specs: seq<KeySpec>)
    requires svc.pageSize > 0 && Wf(w) && Healthy(svc) && DeployedStage(LegacyDeployment(env)).Some?
    requires forall i :: 0 <= i < |specs| ==> ResolveValue(specs[i].value, env.region, env.decrypt).Ok?
    ensures var s := LegacyAddRun(svc, w, env, specs);
            && s.answer.Pass?
            && forall i :: 0 <= i < |specs| ==>
                 Reconciled(s.world, specs[i].name, LegacyPlanName(specs[i].name), DeployedStage(LegacyDeployment(env)).value)
    decreases |specs|
  {
    if specs != [] {
      var api := DeployedStage(LegacyDeployment(env)).value;
      var one := LegacyAddOne(svc, w, env, specs[0]);
      LegacyAddOneGrows(svc, w, env, specs[0]);
      LegacyAddOneReaches(svc, w, env, specs[0]);
      forall i | 0 <= i < |specs[1..]| ensures ResolveValue(specs[1..][i].value, env.region, env.decrypt).Ok? {
        assert specs[1..][i] == specs[i + 1];
      }
      var rest := LegacyAddRun(svc, one.world, env, specs[1..]);
      LegacyAddRunReaches(svc, one.world, env, specs[1..]);
      LegacyAddRunGrows(svc, one.world, env, specs[1..]);
      forall i | 0 <= i < |specs| ensures Reconciled(rest.world, specs[i].name, LegacyPlanName(specs[i].name), api) {
        if i == 0 {
          ReconciledPersists(one.world, rest.world, specs[0].name, LegacyPlanName(specs[0].name), api);
        } else {
          assert specs[1..][i - 1] == specs[i];
        }
      }
    }
  }

  method LegacyGetApiKey(ag: ApiGateway, name: string) returns (r: Result<Option<ApiKey>>)
    requires ag.Valid()
    modifies ag`calls
    ensures Step(ag.Now(), r) == LegacyGetApiKeyStep(ag.svc, old(ag.Now()), name)
  {
    var listed := ListApiKeys(ag);
    r := LegacyCatch(KeyLookup(listed, name), "apiKey");
  }

  method LegacyGetUsagePlan(ag: ApiGateway, name: string) returns (r: Result<Option<UsagePlan>>)
    requires ag.Valid()
    modifies ag`calls
    ensures Step(ag.Now(), r) == LegacyGetUsagePlanStep(ag.svc, old(ag.Now()), name)
  {
    var listed := ListUsagePlans(ag);
    r := LegacyCatch(PlanLookup(listed, name), "usagePlan");
  }

  method LegacyAddOneKey(ag: ApiGateway, env: LegacyEnv, spec: KeySpec) returns (r: Result<Outcome>)
    requires ag.Valid()
    modifies ag`keys, ag`plans, ag`nextId, ag`links, ag`calls
    ensures ag.Valid()
    ensures Step(ag.Now(), r) == LegacyAddOne(ag.svc, old(ag.Now()), env, spec)
  {
    var keyValue := ResolveValue(spec.value, env.region, env.decrypt);
    if keyValue.Err? {
      return Err(keyValue.error);
    }
    var key := LegacyGetApiKey(ag, spec.name);
    if key.Err? {
      return Ok(Fail(key.error));
    }
    var plan := LegacyGetUsagePlan(ag, LegacyPlanName(spec.name));
    if plan.Err? {
      return Ok(Fail(plan.error));
    }
    var p := ProvisionKey(ag, LegacyDeployment(env), spec.name, keyValue.value, key.value, plan.value,
                          LegacyPlanName(spec.name), None);
    r := Ok(p.outcome);
  }

  method LegacyAddApiKey(ag: ApiGateway, env: LegacyEnv) returns (r: Outcome)
    requires ag.Valid()
    modifies ag`keys, ag`plans, ag`nextId, ag`links, ag`calls
    ensures ag.Valid()
    ensures Step(ag.Now(), r) == LegacyAddApiKeyStep(ag.svc, old(ag.Now()), env)
  {
    var selected := LegacyKeys(env.apiKeys);
    if selected.None? {
      return Fail(TypeError("apiKeys is not iterable"));
    }
    var specs := selected.value;
    ghost var total := LegacyAddRun(ag.svc, ag.Now(), env, specs);
    assert specs[0..] == specs;
    for i := 0 to |specs|
      invariant ag.Valid()
      invariant LegacyAddRun(ag.svc, ag.Now(), env, specs[i..]) == total
    {
      assert specs[i..][0] == specs[i] && specs[i..][1..] == specs[i + 1..];
      var one := LegacyAddOneKey(ag, env, specs[i]);
      if one.Err? {
        return Fail(one.error);
      }
    }
    assert specs[|specs|..] == [];
    r := Pass;
  }
}
