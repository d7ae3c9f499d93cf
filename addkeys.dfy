/** addApiKey (src/helper.js:278-381): for every key declared for the stage,
    decrypt its value if needed, look up the key and its plan, provision
    what is missing, and finally list the keys created unless concealed. */
module AddKeys {
  import opened Common
  import opened Remote
  import opened Steps
  import opened Gateway
  import opened Options
  import opened Endpoint
  import opened Lookup
  import opened Provision

  /** What the add path reads from the deployment: the `custom.apiKeys`
      section, the provider section, the service name, stage and region,
      the `--conceal` option, the outputs of the deployed stacks, and the
      KMS decryption of a ciphertext with the key in a region. */
  datatype Env = Env(apiKeys: KeyConfig, provider: Provider, serviceName: string, stage: string, region: string,
                     conceal: bool, stacks: map<string, seq<StackOutput>>,
                     decrypt: (string, string) -> Result<string>)

  /** One line of the closing listing: a created key's name and value. */
  datatype Report = Report(key: string, value: string)

  function DeploymentOf(env: Env): Deployment
  {
    Deployment(env.stacks, StackNameFor(env.provider, env.serviceName, env.stage), env.stage)
  }

  function DefaultPlan(env: Env): PlanSettings
  {
    ResolveDefaultUsagePlan(Some(env.provider))
  }

  /** The plan a declared key belongs to. */
  function PlanOf(env: Env, spec: KeySpec): string
  {
    PlanNameFor(spec, DefaultPlan(env))
  }

  /** The value a declared key is created with, decrypted when encrypted. */
  function ValueOf(env: Env, spec: KeySpec): Result<string>
  {
    ResolveValue(spec.value, env.region, env.decrypt)
  }

  /** Every declared key's value can be decrypted. */
  predicate Decryptable(env: Env, specs: seq<KeySpec>)
  {
    forall i :: 0 <= i < |specs| ==> ValueOf(env, specs[i]).Ok?
  }

  /** Every declared key is linked to its plan and the plan carries `api`. */
  predicate AllReconciled(w: World, env: Env, specs: seq<KeySpec>, api: ApiStage)
  {
    forall i :: 0 <= i < |specs| ==> Reconciled(w, specs[i].name, PlanOf(env, specs[i]), api)
  }

  /** The listing of `keys`, in order. */
  function ReportsOf(keys: seq<ApiKey>): seq<Report>
  {
    seq(|keys|, i requires 0 <= i < |keys| => Report(keys[i].name, keys[i].value))
  }

  /** What one key adds to the listing. */
  function Reported(env: Env, name: string, p: Provisioned): seq<Report>
  {
    if !env.conceal && p.created.Some? then [Report(name, p.created.value.value)] else []
  }

  /** One iteration of the loop. A value that cannot be decrypted aborts the
      whole run (Err); a failed lookup or request only fails this key, whose
      outcome says so. */
  function AddOne(svc: Service, w: World, env: Env, spec: KeySpec): Step<Result<Provisioned>>
    requires svc.pageSize > 0
  {
    match ValueOf(env, spec)
    case Err(e) => Step(w, Err(e))
    case Ok(keyValue) =>
      var key := GetApiKeyStep(svc, w, spec.name);
      if key.answer.Err? then Step(key.world, Ok(Provisioned(None, Fail(key.answer.error))))
      else
        var plan := GetUsagePlanStep(svc, key.world, PlanOf(env, spec));
        if plan.answer.Err? then Step(plan.world, Ok(Provisioned(None, Fail(plan.answer.error))))
        else
          var p := ProvisionStep(svc, plan.world, DeploymentOf(env), spec.name, keyValue, key.answer.value,
                                 plan.answer.value, PlanOf(env, spec), Some(TemplateFor(spec, DefaultPlan(env))));
          Step(p.world, Ok(p.answer))
  }

  /** The listing `reports` put in front of what `s` lists. */
  function After(reports: seq<Report>, s: Step<Result<seq<Report>>>): Step<Result<seq<Report>>>
  {
    Step(s.world, match s.answer
                  case Ok(rs) => Ok(reports + rs)
                  case Err(e) => Err(e))
  }

  /** The loop over `specs`, collecting the listing. */
  function AddRun(svc: Service, w: World, env: Env, specs: seq<KeySpec>): Step<Result<seq<Report>>>
    requires svc.pageSize > 0
    decreases |specs|
  {
    if specs == [] then Step(w, Ok([]))
    else
      var one := AddOne(svc, w, env, specs[0]);
      if one.answer.Err? then Step(one.world, Err(one.answer.error))
      else
        After(Reported(env, specs[0].name, one.answer.value), AddRun(svc, one.world, env, specs[1..]))
  }

  /** addApiKey: a configuration keyed by stage without an entry for the
      current stage is not iterable, which rejects the run. */
  function AddApiKeyStep(svc: Service, w: World, env: Env): Step<Result<seq<Report>>>
    requires svc.pageSize > 0
  {
    match SelectKeys(env.apiKeys, env.stage)
    case None => Step(w, Err(TypeError("apiKeys is not iterable")))
    case Some(specs) => AddRun(svc, w, env, specs)
  }

  lemma ReportsOfAppend(a: seq<ApiKey>, b: seq<ApiKey>)
    ensures ReportsOf(a + b) == ReportsOf(a) + ReportsOf(b)
  {
    assert |ReportsOf(a + b)| == |ReportsOf(a) + ReportsOf(b)|;
    forall i | 0 <= i < |a + b| ensures ReportsOf(a + b)[i] == (ReportsOf(a) + ReportsOf(b))[i] {
      if i < |a| {
        assert (a + b)[i] == a[i];
      } else {
        assert (a + b)[i] == b[i - |a|];
      }
    }
  }

  /** One key only adds to the service: at most the key it reports as
      created, named as declared. A value that cannot be decrypted stops
      before any request. */
  lemma AddOneGrows(svc: Service, w: World, env: Env, spec: KeySpec)
    requires svc.pageSize > 0 && Wf(w)
    ensures var s := AddOne(svc, w, env, spec);
            && Wf(s.world) && Extends(w, s.world)
            && (s.answer.Err? <==> ValueOf(env, spec).Err?)
            && (s.answer.Err? ==> s.world == w)
            && (s.answer.Ok? ==>
                  && s.world.keys == w.keys + (if s.answer.value.created.Some? then [s.answer.value.created.value] else [])
                  && (s.answer.value.created.Some? ==> s.answer.value.created.value.name == spec.name)
                  && (s.answer.value.created.Some? && ValueOf(env, spec).value != "" ==>
                        s.answer.value.created.value.value == ValueOf(env, spec).value))
  {
    if ValueOf(env, spec).Ok? {
      var key := GetApiKeyStep(svc, w, spec.name);
      GetApiKeyFacts(svc, w, spec.name);
      if key.answer.Ok? {
        var plan := GetUsagePlanStep(svc, key.world, PlanOf(env, spec));
        GetUsagePlanFacts(svc, key.world, PlanOf(env, spec));
        ReadsOnlyTransitive(w, key.world, plan.world);
        if plan.answer.Ok? {
          var p := ProvisionStep(svc, plan.world, DeploymentOf(env), spec.name, ValueOf(env, spec).value, key.answer.value,
                                 plan.answer.value, PlanOf(env, spec), Some(TemplateFor(spec, DefaultPlan(env))));
          ProvisionGrows(svc, plan.world, DeploymentOf(env), spec.name, ValueOf(env, spec).value, key.answer.value,
                         plan.answer.value, PlanOf(env, spec), Some(TemplateFor(spec, DefaultPlan(env))));
          ExtendsTransitive(w, plan.world, p.world);
        }
      }
    }
  }

  /** With nothing rejected and the stack naming a REST API, one key ends up
      linked to its plan, which carries the deployed stage. */
  lemma AddOneReaches(svc: Service, w: World, env: Env, spec: KeySpec)
    requires svc.pageSize > 0 && Wf(w) && Healthy(svc)
    requires DeployedStage(DeploymentOf(env)).Some? && ValueOf(env, spec).Ok?
    ensures var s := AddOne(svc, w, env, spec);
            && s.answer.Ok? && s.answer.value.outcome.Pass?
            && Reconciled(s.world, spec.name, PlanOf(env, spec), DeployedStage(DeploymentOf(env)).value)
  {
    var key := GetApiKeyStep(svc, w, spec.name);
    GetApiKeyFacts(svc, w, spec.name);
    var plan := GetUsagePlanStep(svc, key.world, PlanOf(env, spec));
    GetUsagePlanFacts(svc, key.world, PlanOf(env, spec));
    assert Wf(plan.world) && plan.world.keys == w.keys && plan.world.plans == w.plans;
    ProvisionReaches(svc, plan.world, DeploymentOf(env), spec.name, ValueOf(env, spec).value,
                     PlanOf(env, spec), Some(TemplateFor(spec, DefaultPlan(env))));
  }

  /** With nothing rejected, a key already linked to its plan, which carries
      the deployed stage, costs only reads and is not created again. */
  lemma AddOneIdle(svc: Service, w: World, env: Env, spec: KeySpec)
    requires svc.pageSize > 0 && Wf(w) && Healthy(svc)
    requires DeployedStage(DeploymentOf(env)).Some? && ValueOf(env, spec).Ok?
    requires Reconciled(w, spec.name, PlanOf(env, spec), DeployedStage(DeploymentOf(env)).value)
    ensures var s := AddOne(svc, w, env, spec);
            ReadsOnly(w, s.world) && s.answer.Ok? && s.answer.value.created.None?
  {
    var key := GetApiKeyStep(svc, w, spec.name);
    GetApiKeyFacts(svc, w, spec.name);
    var plan := GetUsagePlanStep(svc, key.world, PlanOf(env, spec));
    GetUsagePlanFacts(svc, key.world, PlanOf(env, spec));
    ReadsOnlyTransitive(w, key.world, plan.world);
    assert Wf(plan.world) && plan.world.keys == w.keys && plan.world.plans == w.plans;
    ProvisionIdle(svc, plan.world, DeploymentOf(env), spec.name, ValueOf(env, spec).value,
                  PlanOf(env, spec), Some(TemplateFor(spec, DefaultPlan(env))));
    ReadsOnlyTransitive(w, plan.world, AddOne(svc, w, env, spec).world);
  }

  /** The run only adds to the service. */
  lemma {:induction false} AddRunGrows(svc: Service, w: World, env: Env, specs: seq<KeySpec>)
    requires svc.pageSize > 0 && Wf(w)
    ensures var s := AddRun(svc, w, env, specs);
            Wf(s.world) && Extends(w, s.world)
    decreases |specs|
  {
    if specs != [] {
      var one := AddOne(svc, w, env, specs[0]);
      AddOneGrows(svc, w, env, specs[0]);
      if one.answer.Ok? {
        var rest := AddRun(svc, one.world, env, specs[1..]);
        AddRunGrows(svc, one.world, env, specs[1..]);
        ExtendsTransitive(w, one.world, rest.world);
      }
    }
  }

  /** A key whose lookups or requests fail does not end the run, which goes
      on to the next key; only a value that cannot be decrypted rejects the
      whole run. */
  lemma {:induction false} AddRunRejectsOnlyUndecryptable(svc: Service, w: World, env: Env, specs: seq<KeySpec>)
    requires svc.pageSize > 0 && Wf(w)
    ensures AddRun(svc, w, env, specs).answer.Ok? <==> Decryptable(env, specs)
    decreases |specs|
  {
    if specs != [] {
      var one := AddOne(svc, w, env, specs[0]);
      AddOneGrows(svc, w, env, specs[0]);
      if one.answer.Ok? {
        AddRunRejectsOnlyUndecryptable(svc, one.world, env, specs[1..]);
        assert Decryptable(env, specs) <==> Decryptable(env, specs[1..]) by {
          if Decryptable(env, specs[1..]) {
            forall i | 0 <= i < |specs| ensures ValueOf(env, specs[i]).Ok? {
              if i > 0 {
                assert specs[i] == specs[1..][i - 1];
              }
            }
          }
          if Decryptable(env, specs) {
            forall i | 0 <= i < |specs| - 1 ensures ValueOf(env, specs[1..][i]).Ok? {
              assert specs[1..][i] == specs[i + 1];
            }
          }
        }
      }
    }
  }

  /** The closing listing names exactly the keys the run created, in order,
      with their values, unless concealed: it is what the listing of all
      keys gained. */
  lemma {:induction false} AddRunReports(svc: Service, w: World, env: Env, specs: seq<KeySpec>)
    requires svc.pageSize > 0 && Wf(w)
    ensures var s := AddRun(svc, w, env, specs);
            && (s.answer.Ok? && env.conceal ==> s.answer.value == [])
            && (s.answer.Ok? && !env.conceal ==> ReportsOf(s.world.keys) == ReportsOf(w.keys) + s.answer.value)
    decreases |specs|
  {
    if specs != [] {
      var one := AddOne(svc, w, env, specs[0]);
      AddOneGrows(svc, w, env, specs[0]);
      if one.answer.Ok? {
        var rest := AddRun(svc, one.world, env, specs[1..]);
        AddRunReports(svc, one.world, env, specs[1..]);
        var reported := Reported(env, specs[0].name, one.answer.value);
        assert AddRun(svc, w, env, specs) == After(reported, rest);
        if !env.conceal && rest.answer.Ok? {
          var created := if one.answer.value.created.Some? then [one.answer.value.created.value] else [];
          ReportsOfAppend(w.keys, created);
          assert ReportsOf(created) == reported;
        }
      }
    }
  }

  /** With nothing rejected, every value decryptable and the stack naming a
      REST API, every declared key ends up linked to its plan, which carries
      the deployed stage. */
  lemma {:induction false} AddRunReaches(svc: Service, w: World, env: Env, specs: seq<KeySpec>)
    requires svc.pageSize > 0 && Wf(w) && Healthy(svc)
    requires DeployedStage(DeploymentOf(env)).Some? && Decryptable(env, specs)
    ensures var s := AddRun(svc, w, env, specs);
            s.answer.Ok? && AllReconciled(s.world, env, specs, DeployedStage(DeploymentOf(env)).value)
    decreases |specs|
  {
    if specs != [] {
      var api := DeployedStage(DeploymentOf(env)).value;
      var one := AddOne(svc, w, env, specs[0]);
      assert ValueOf(env, specs[0]).Ok?;
      AddOneGrows(svc, w, env, specs[0]);
      AddOneReaches(svc, w, env, specs[0]);
      assert Decryptable(env, specs[1..]) by {
        forall i | 0 <= i < |specs[1..]| ensures ValueOf(env, specs[1..][i]).Ok? {
          assert specs[1..][i] == specs[i + 1];
        }
      }
      var rest := AddRun(svc, one.world, env, specs[1..]);
      AddRunReaches(svc, one.world, env, specs[1..]);
      AddRunGrows(svc, one.world, env, specs[1..]);
      forall i | 0 <= i < |specs| ensures Reconciled(rest.world, specs[i].name, PlanOf(env, specs[i]), api) {
        if i == 0 {
          ReconciledPersists(one.world, rest.world, specs[0].name, PlanOf(env, specs[0]), api);
        } else {
          assert specs[1..][i - 1] == specs[i];
        }
      }
    }
  }

  /** With nothing rejected, a run over keys that are all in place already
      only reads and lists nothing. */
  lemma {:induction false} AddRunIdle(svc: Service, w: World, env: Env, specs: seq<KeySpec>)
    requires svc.pageSize > 0 && Wf(w) && Healthy(svc)
    requires DeployedStage(DeploymentOf(env)).Some? && Decryptable(env, specs)
    requires AllReconciled(w, env, specs, DeployedStage(DeploymentOf(env)).value)
    ensures var s := AddRun(svc, w, env, specs);
            ReadsOnly(w, s.world) && s.answer == Ok([])
    decreases |specs|
  {
    if specs != [] {
      var api := DeployedStage(DeploymentOf(env)).value;
      var one := AddOne(svc, w, env, specs[0]);
      assert ValueOf(env, specs[0]).Ok? && Reconciled(w, specs[0].name, PlanOf(env, specs[0]), api);
      AddOneIdle(svc, w, env, specs[0]);
      assert Wf(one.world);
      assert Decryptable(env, specs[1..]) by {
        forall i | 0 <= i < |specs[1..]| ensures ValueOf(env, specs[1..][i]).Ok? {
          assert specs[1..][i] == specs[i + 1];
        }
      }
      assert AllReconciled(one.world, env, specs[1..], api) by {
        forall i | 0 <= i < |specs[1..]| ensures Reconciled(one.world, specs[1..][i].name, PlanOf(env, specs[1..][i]), api) {
          assert specs[1..][i] == specs[i + 1];
          assert Reconciled(w, specs[i + 1].name, PlanOf(env, specs[i + 1]), api);
        }
      }
      var rest := AddRun(svc, one.world, env, specs[1..]);
      AddRunIdle(svc, one.world, env, specs[1..]);
      ReadsOnlyTransitive(w, one.world, rest.world);
      var none: seq<Report> := [];
      assert Reported(env, specs[0].name, one.answer.value) == none;
      assert rest.answer == Ok(none) && none + none == none;
    }
  }

  /** Deploying twice with nothing rejected: the second run only reads and
      lists nothing, because the first left every key in place. */
  lemma DeployTwice(svc: Service, w: World, env: Env)
    requires svc.pageSize > 0 && Wf(w) && Healthy(svc)
    requires DeployedStage(DeploymentOf(env)).Some?
    requires SelectKeys(env.apiKeys, env.stage).Some? && Decryptable(env, SelectKeys(env.apiKeys, env.stage).value)
    ensures var first := AddApiKeyStep(svc, w, env);
            var second := AddApiKeyStep(svc, first.world, env);
            first.answer.Ok? && second.answer == Ok([]) && ReadsOnly(first.world, second.world)
  {
    var specs := SelectKeys(env.apiKeys, env.stage).value;
    var first := AddRun(svc, w, env, specs);
    AddRunReaches(svc, w, env, specs);
    AddRunGrows(svc, w, env, specs);
    AddRunIdle(svc, first.world, env, specs);
  }

  method AddOneKey(ag: ApiGateway, env: Env, spec: KeySpec) returns (r: Result<Provisioned>)
    requires ag.Valid()
    modifies ag`keys, ag`plans, ag`nextId, ag`links, ag`calls
    ensures ag.Valid()
    ensures Step(ag.Now(), r) == AddOne(ag.svc, old(ag.Now()), env, spec)
  {
    var keyValue := ValueOf(env, spec);
    if keyValue.Err? {
      return Err(keyValue.error);
    }
    var key := GetApiKey(ag, spec.name);
    if key.Err? {
      return Ok(Provisioned(None, Fail(key.error)));
    }
    var plan := GetUsagePlan(ag, PlanOf(env, spec));
    if plan.Err? {
      return Ok(Provisioned(None, Fail(plan.error)));
    }
    var p := ProvisionKey(ag, DeploymentOf(env), spec.name, keyValue.value, key.value, plan.value, PlanOf(env, spec),
                          Some(TemplateFor(spec, DefaultPlan(env))));
    r := Ok(p);
  }

  /** One turn of the loop, with `reports` listed before it. */
  lemma AfterTurn(svc: Service, w: World, env: Env, specs: seq<KeySpec>, reports: seq<Report>)
    requires svc.pageSize > 0 && specs != []
    ensures var one := AddOne(svc, w, env, specs[0]);
            After(reports, AddRun(svc, w, env, specs))
            == if one.answer.Err? then Step(one.world, Err(one.answer.error))
               else After(reports + Reported(env, specs[0].name, one.answer.value), AddRun(svc, one.world, env, specs[1..]))
  {
    var one := AddOne(svc, w, env, specs[0]);
    if one.answer.Ok? {
      var rest := AddRun(svc, one.world, env, specs[1..]);
      if rest.answer.Ok? {
        var rs := rest.answer.value;
        assert reports + (Reported(env, specs[0].name, one.answer.value) + rs)
            == reports + Reported(env, specs[0].name, one.answer.value) + rs;
      }
    }
  }

  method AddApiKey(ag: ApiGateway, env: Env) returns (r: Result<seq<Report>>)
    requires ag.Valid()
    modifies ag`keys, ag`plans, ag`nextId, ag`links, ag`calls
    ensures ag.Valid()
    ensures Step(ag.Now(), r) == AddApiKeyStep(ag.svc, old(ag.Now()), env)
  {
    var selected := SelectKeys(env.apiKeys, env.stage);
    if selected.None? {
      return Err(TypeError("apiKeys is not iterable"));
    }
    var specs := selected.value;
    ghost var total := AddRun(ag.svc, ag.Now(), env, specs);
    var reports: seq<Report> := [];
    var i := 0;
    assert specs[i..] == specs;
    assert After(reports, total) == total by {
      if total.answer.Ok? {
        assert reports + total.answer.value == total.answer.value;
      }
    }
    while i < |specs|
      invariant 0 <= i <= |specs| && ag.Valid()
      invariant After(reports, AddRun(ag.svc, ag.Now(), env, specs[i..])) == total
      decreases |specs| - i
    {
      assert specs[i..][0] == specs[i] && specs[i..][1..] == specs[i + 1..];
      AfterTurn(ag.svc, ag.Now(), env, specs[i..], reports);
      var one := AddOneKey(ag, env, specs[i]);
      if one.Err? {
        return Err(one.error);
      }
      reports := reports + Reported(env, specs[i].name, one.value);
      i := i + 1;
    }
    assert specs[i..] == [] && reports + [] == reports;
    r := Ok(reports);
  }
}
