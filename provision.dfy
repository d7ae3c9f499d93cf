/** The body of the add path for one key once the key and its plan have been
    looked up (src/helper.js:341-375, index.js:300-325): create what is
    missing, link the key to the plan, attach the deployed stage. */
module Provision {
  import opened Common
  import opened Remote
  import opened Steps
  import opened Gateway
  import opened Options
  import opened Endpoint
  import opened Lookup
  import Requests

  /** Where the service was deployed: the stacks' outputs, the name of the
      service's stack and the stage. */
  datatype Deployment = Deployment(stacks: map<string, seq<StackOutput>>, stackName: string, stage: string)

  /** The REST API stage the deployment yields, when its outputs name one. */
  function DeployedStage(dep: Deployment): (api: Option<ApiStage>)
    ensures api.Some? <==> DeployedApi(dep.stacks, dep.stackName).Some?
    ensures api.Some? ==> api.value == ApiStage(DeployedApi(dep.stacks, dep.stackName).value, dep.stage)
  {
    match DeployedApi(dep.stacks, dep.stackName)
    case Some(id) => Some(ApiStage(id, dep.stage))
    case None => None
  }

  /** The key created on the way (if any), and whether the key, its plan,
      their link and the stage association all succeeded. */
  datatype Provisioned = Provisioned(created: Option<ApiKey>, outcome: Outcome)

  /** Links key `keyId` to plan `planId` unless `linked` says the two are
      linked already, then attaches the deployed stage unless `apiStages`
      (what is known of the plan) lists it. */
  function AttachStep(svc: Service, w: World, dep: Deployment, keyId: nat, planId: nat,
                      apiStages: seq<ApiStage>, linked: bool): Step<Outcome>
  {
    var l := if linked then Step(w, Pass) else Requests.LinkStep(svc, w, keyId, planId);
    if l.answer.Fail? then l
    else Requests.AssociateStep(svc, l.world, dep.stacks, dep.stackName, planId, apiStages, dep.stage)
  }

  /** Creates plan `planName` from `template`, links key `keyId` to it and
      attaches the deployed stage to it. */
  function NewPlanStep(svc: Service, w: World, dep: Deployment, keyId: nat, planName: string,
                       template: Option<PlanSettings>): Step<Outcome>
  {
    var made := Requests.CreatePlanStep(svc, w, planName, template);
    if made.answer.Err? then Step(made.world, Fail(made.answer.error))
    else AttachStep(svc, made.world, dep, keyId, made.answer.value, [], false)
  }

  /** Links key `keyId` to the existing `plan` unless the plan lists it
      already, then attaches the deployed stage unless the plan, as it was
      found, carries it. */
  function ExistingPlanStep(svc: Service, w: World, dep: Deployment, keyId: nat, plan: UsagePlan): Step<Outcome>
    requires svc.pageSize > 0
  {
    var has := PlanHasKeyStep(svc, w, plan.id, keyId);
    if has.answer.Err? then Step(has.world, Fail(has.answer.error))
    else AttachStep(svc, has.world, dep, keyId, plan.id, plan.apiStages, has.answer.value)
  }

  /** Uses the key found, or creates key `keyName` with `keyValue`; then uses
      the plan found or creates one, links the two and attaches the stage.
      The key is reported as created even when a later step fails. */
  function ProvisionStep(svc: Service, w: World, dep: Deployment, keyName: string, keyValue: string,
                         existingKey: Option<ApiKey>, existingPlan: Option<UsagePlan>, planName: string,
                         template: Option<PlanSettings>): Step<Provisioned>
    requires svc.pageSize > 0
  {
    var made := if existingKey.Some? then Step(w, Ok(existingKey.value)) else Requests.CreateKeyStep(svc, w, keyName, keyValue);
    if made.answer.Err? then Step(made.world, Provisioned(None, Fail(made.answer.error)))
    else
      var created := if existingKey.Some? then None else Some(made.answer.value);
      var rest := if existingPlan.Some? then ExistingPlanStep(svc, made.world, dep, made.answer.value.id, existingPlan.value)
                  else NewPlanStep(svc, made.world, dep, made.answer.value.id, planName, template);
      Step(rest.world, Provisioned(created, rest.answer))
  }

  /** Plan `planName` (the first of that name) is linked to key `keyId` and
      carries stage `api`. */
  predicate PlanServes(w: World, planName: string, keyId: nat, api: ApiStage)
  {
    match PlanIndex(w.plans, planName)
    case Some(p) => Link(w.plans[p].id, keyId) in w.links && api in w.plans[p].apiStages
    case None => false
  }

  /** Linking and attaching only add to the service; a link and a stage
      already in place cost no request. */
  lemma AttachGrows(svc: Service, w: World, dep: Deployment, keyId: nat, planId: nat,
                    apiStages: seq<ApiStage>, linked: bool)
    requires Wf(w)
    ensures var s := AttachStep(svc, w, dep, keyId, planId, apiStages, linked);
            && Wf(s.world) && Extends(w, s.world) && s.world.keys == w.keys
            && (linked && DeployedStage(dep).Some? && DeployedStage(dep).value in apiStages ==> s == Step(w, Pass))
  {
    var l := if linked then Step(w, Pass) else Requests.LinkStep(svc, w, keyId, planId);
    if !linked {
      Requests.LinkFacts(svc, w, keyId, planId);
    }
    if l.answer.Pass? {
      var s := Requests.AssociateStep(svc, l.world, dep.stacks, dep.stackName, planId, apiStages, dep.stage);
      Requests.AssociateFacts(svc, l.world, dep.stacks, dep.stackName, planId, apiStages, dep.stage);
      ExtendsTransitive(w, l.world, s.world);
    }
  }

  /** Linking and attaching create no key and no plan and keep every plan
      in place; a key known to be linked costs no link request. */
  lemma AttachSends(svc: Service, w: World, dep: Deployment, keyId: nat, planId: nat,
                    apiStages: seq<ApiStage>, linked: bool, k: Creation)
    requires Wf(w) && (k == LinkCreation ==> linked)
    ensures var s := AttachStep(svc, w, dep, keyId, planId, apiStages, linked);
            && w.calls <= s.world.calls && |s.world.plans| == |w.plans|
            && SendsNo(s.world.calls[|w.calls|..], k)
            && (linked ==> s.world.links == w.links)
  {
    var l := if linked then Step(w, Pass) else Requests.LinkStep(svc, w, keyId, planId);
    if !linked {
      CreateUsagePlanKeyGrows(svc, w, keyId, "API_KEY", planId);
      assert l.world.calls[|w.calls|..] == [Call.CreateUsagePlanKey(keyId, "API_KEY", planId)];
    } else {
      assert l.world.calls[|w.calls|..] == [];
    }
    if l.answer.Pass? {
      var s := Requests.AssociateStep(svc, l.world, dep.stacks, dep.stackName, planId, apiStages, dep.stage);
      Requests.AssociateSends(svc, l.world, dep.stacks, dep.stackName, planId, apiStages, dep.stage, k);
      SendsNoChain(w.calls, l.world.calls, s.world.calls, k);
    }
  }

  /** Attaching a new stageless plan to a key it does not list yet, with
      nothing rejected, costs exactly the link request and the stage patch
      and succeeds. */
  lemma AttachFresh(svc: Service, w: World, dep: Deployment, keyId: nat, planId: nat)
    requires Wf(w) && Healthy(svc) && DeployedStage(dep).Some?
    requires PlanWithId(w.plans, planId).Some? && w.plans[PlanWithId(w.plans, planId).value].apiStages == []
    requires KeyWithId(w.keys, keyId).Some? && Link(planId, keyId) !in w.links
    ensures var s := AttachStep(svc, w, dep, keyId, planId, [], false);
            && s.answer.Pass? && |s.world.plans| == |w.plans|
            && (forall j :: 0 <= j < |w.plans| ==> s.world.plans[j].id == w.plans[j].id)
            && s.world.calls == w.calls + [Call.CreateUsagePlanKey(keyId, "API_KEY", planId),
                                           Call.UpdateUsagePlan(planId, Requests.StagePatch(Named(DeployedStage(dep).value.apiId), dep.stage))]
  {
    var l := Requests.LinkStep(svc, w, keyId, planId);
    Requests.LinkFacts(svc, w, keyId, planId);
    assert l.answer.Pass? && l.world.plans == w.plans;
    Requests.AssociateFirst(svc, l.world, dep.stacks, dep.stackName, planId, dep.stage);
  }

  /** With nothing rejected, attaching to the first plan named `planName`,
      knowing its stages and whether it lists the key, leaves that plan
      linked to the key and carrying the deployed stage. */
  lemma AttachReaches(svc: Service, w: World, dep: Deployment, keyId: nat, planName: string, idx: nat, linked: bool)
    requires Wf(w) && Healthy(svc) && DeployedStage(dep).Some? && KeyWithId(w.keys, keyId).Some?
    requires PlanIndex(w.plans, planName) == Some(idx) && linked == (Link(w.plans[idx].id, keyId) in w.links)
    ensures var s := AttachStep(svc, w, dep, keyId, w.plans[idx].id, w.plans[idx].apiStages, linked);
            s.answer.Pass? && PlanServes(s.world, planName, keyId, DeployedStage(dep).value)
  {
    var id := w.plans[idx].id;
    var api := DeployedStage(dep).value;
    var from := if linked then w else Requests.LinkStep(svc, w, keyId, id).world;
    if !linked {
      PlanAtItsId(w.plans, idx);
      Requests.LinkFacts(svc, w, keyId, id);
    }
    assert from.plans == w.plans && Wf(from) && Link(id, keyId) in from.links;
    var s := Requests.AssociateStep(svc, from, dep.stacks, dep.stackName, id, w.plans[idx].apiStages, dep.stage);
    assert s == AttachStep(svc, w, dep, keyId, id, w.plans[idx].apiStages, linked);
    Requests.AssociateReaches(svc, from, dep.stacks, dep.stackName, idx, dep.stage);
    PlanIndexKept(w.plans, s.world.plans, planName);
    assert s.world.plans[idx].id == id && api in s.world.plans[idx].apiStages;
  }

  /** Creating the plan, linking and attaching only add to the service;
      with nothing rejected, a plan not there before ends up linked to the
      key and carrying the deployed stage. */
  lemma NewPlanFacts(svc: Service, w: World, dep: Deployment, keyId: nat, planName: string,
                     template: Option<PlanSettings>)
    requires Wf(w)
    ensures var s := NewPlanStep(svc, w, dep, keyId, planName, template);
            && Wf(s.world) && Extends(w, s.world) && s.world.keys == w.keys
            && (Healthy(svc) && FindPlan(w.plans, planName).None? && KeyWithId(w.keys, keyId).Some?
                && DeployedStage(dep).Some? ==>
                  s.answer.Pass? && PlanServes(s.world, planName, keyId, DeployedStage(dep).value))
  {
    var made := Requests.CreatePlanStep(svc, w, planName, template);
    Requests.CreatePlanFacts(svc, w, planName, template);
    if made.answer.Ok? {
      var id := made.answer.value;
      AttachGrows(svc, made.world, dep, keyId, id, [], false);
      ExtendsTransitive(w, made.world, AttachStep(svc, made.world, dep, keyId, id, [], false).world);
      if Healthy(svc) && FindPlan(w.plans, planName).None? && KeyWithId(w.keys, keyId).Some? && DeployedStage(dep).Some? {
        var idx := |w.plans|;
        PlanIndexAppend(w.plans, made.world.plans[idx], planName);
        AttachReaches(svc, made.world, dep, keyId, planName, idx, false);
      }
    }
  }

  /** Checking, linking and attaching only add to the service; with nothing
      rejected, the plan found ends up linked to the key and carrying the
      deployed stage; a plan already linked to the key and carrying the
      stage costs only reads. */
  lemma ExistingPlanFacts(svc: Service, w: World, dep: Deployment, keyId: nat, planName: string, plan: UsagePlan)
    requires svc.pageSize > 0 && Wf(w)
    ensures var s := ExistingPlanStep(svc, w, dep, keyId, plan);
            && Wf(s.world) && Extends(w, s.world) && s.world.keys == w.keys
            && (Healthy(svc) && FindPlan(w.plans, planName) == Some(plan) && KeyWithId(w.keys, keyId).Some?
                && DeployedStage(dep).Some? ==>
                  s.answer.Pass? && PlanServes(s.world, planName, keyId, DeployedStage(dep).value))
            && (Link(plan.id, keyId) in w.links && DeployedStage(dep).Some? && DeployedStage(dep).value in plan.apiStages ==>
                  ReadsOnly(w, s.world))
  {
    var has := PlanHasKeyStep(svc, w, plan.id, keyId);
    PlanHasKeyFacts(svc, w, plan.id, keyId);
    if has.answer.Ok? {
      AttachGrows(svc, has.world, dep, keyId, plan.id, plan.apiStages, has.answer.value);
      ExtendsTransitive(w, has.world, ExistingPlanStep(svc, w, dep, keyId, plan).world);
      if Healthy(svc) && FindPlan(w.plans, planName) == Some(plan) && KeyWithId(w.keys, keyId).Some? && DeployedStage(dep).Some? {
        AttachReaches(svc, has.world, dep, keyId, planName, PlanIndex(w.plans, planName).value, has.answer.value);
      }
    }
  }

  /** A plan created for a key, with nothing rejected, costs exactly three
      requests: the plan, its link to the key and the stage patch. */
  lemma NewPlanRequests(svc: Service, w: World, dep: Deployment, keyId: nat, planName: string,
                        template: Option<PlanSettings>)
    requires Wf(w) && Healthy(svc) && KeyWithId(w.keys, keyId).Some? && DeployedStage(dep).Some?
    ensures var s := NewPlanStep(svc, w, dep, keyId, planName, template);
            && s.answer.Pass? && |s.world.plans| == |w.plans| + 1
            && var id := s.world.plans[|w.plans|].id;
               s.world.calls == w.calls + [Call.CreateUsagePlan(PlanRequest(planName, template)),
                                          Call.CreateUsagePlanKey(keyId, "API_KEY", id),
                                          Call.UpdateUsagePlan(id, Requests.StagePatch(Named(DeployedStage(dep).value.apiId), dep.stage))]
  {
    var made := Requests.CreatePlanStep(svc, w, planName, template);
    CreateUsagePlanGrows(svc, w, PlanRequest(planName, template));
    var id := made.answer.value;
    PlanAtItsId(made.world.plans, |w.plans|);
    AttachFresh(svc, made.world, dep, keyId, id);
  }

  /** Creating a plan and attaching it creates no key. */
  lemma NewPlanSends(svc: Service, w: World, dep: Deployment, keyId: nat, planName: string,
                     template: Option<PlanSettings>)
    requires Wf(w)
    ensures var s := NewPlanStep(svc, w, dep, keyId, planName, template);
            && w.calls <= s.world.calls && SendsNo(s.world.calls[|w.calls|..], KeyCreation)
  {
    var made := Requests.CreatePlanStep(svc, w, planName, template);
    CreateUsagePlanGrows(svc, w, PlanRequest(planName, template));
    assert made.world.calls[|w.calls|..] == [Call.CreateUsagePlan(PlanRequest(planName, template))];
    if made.answer.Ok? {
      var s := AttachStep(svc, made.world, dep, keyId, made.answer.value, [], false);
      AttachSends(svc, made.world, dep, keyId, made.answer.value, [], false, KeyCreation);
      SendsNoChain(w.calls, made.world.calls, s.world.calls, KeyCreation);
    }
  }

  /** A plan found is checked and never created again, and neither is the key;
      a key the plan already lists costs no link request. */
  lemma ExistingPlanReuses(svc: Service, w: World, dep: Deployment, keyId: nat, plan: UsagePlan, k: Creation)
    requires svc.pageSize > 0 && Wf(w) && (k == LinkCreation ==> Link(plan.id, keyId) in w.links)
    ensures var s := ExistingPlanStep(svc, w, dep, keyId, plan);
            && w.calls <= s.world.calls && |s.world.plans| == |w.plans|
            && SendsNo(s.world.calls[|w.calls|..], k)
            && (Link(plan.id, keyId) in w.links ==> s.world.links == w.links)
  {
    var has := PlanHasKeyStep(svc, w, plan.id, keyId);
    PlanHasKeyFacts(svc, w, plan.id, keyId);
    assert SendsNo(has.world.calls[|w.calls|..], k);
    if has.answer.Ok? {
      var s := AttachStep(svc, has.world, dep, keyId, plan.id, plan.apiStages, has.answer.value);
      AttachSends(svc, has.world, dep, keyId, plan.id, plan.apiStages, has.answer.value, k);
      SendsNoChain(w.calls, has.world.calls, s.world.calls, k);
    }
  }

  /** Provisioning only adds to the service; the only key it adds is the one
      it reports as created, which exists only when none was found; with
      nothing rejected a missing key is always created. */
  lemma ProvisionGrows(svc: Service, w: World, dep: Deployment, keyName: string, keyValue: string,
                       existingKey: Option<ApiKey>, existingPlan: Option<UsagePlan>, planName: string,
                       template: Option<PlanSettings>)
    requires svc.pageSize > 0 && Wf(w)
    ensures var s := ProvisionStep(svc, w, dep, keyName, keyValue, existingKey, existingPlan, planName, template);
            && Wf(s.world) && Extends(w, s.world)
            && s.world.keys == w.keys + (if s.answer.created.Some? then [s.answer.created.value] else [])
            && (s.answer.created.Some? ==>
                  && existingKey.None? && s.answer.created.value.name == keyName && s.answer.created.value.enabled
                  && (keyValue != "" ==> s.answer.created.value.value == keyValue))
            && (existingKey.None? && Healthy(svc) ==> s.answer.created.Some?)
  {
    var made := if existingKey.Some? then Step(w, Ok(existingKey.value)) else Requests.CreateKeyStep(svc, w, keyName, keyValue);
    if existingKey.None? {
      Requests.CreateKeyFacts(svc, w, keyName, keyValue);
    }
    if made.answer.Err? {
      assert ProvisionStep(svc, w, dep, keyName, keyValue, existingKey, existingPlan, planName, template).world == made.world;
    } else {
      var keyId := made.answer.value.id;
      if existingPlan.Some? {
        ExistingPlanFacts(svc, made.world, dep, keyId, planName, existingPlan.value);
        ExtendsTransitive(w, made.world, ExistingPlanStep(svc, made.world, dep, keyId, existingPlan.value).world);
      } else {
        NewPlanFacts(svc, made.world, dep, keyId, planName, template);
        ExtendsTransitive(w, made.world, NewPlanStep(svc, made.world, dep, keyId, planName, template).world);
      }
    }
  }

  /** Whether the thing of kind `k` was already in place: the key or plan
      found, or the link between the two. */
  predicate Found(w: World, k: Creation, existingKey: Option<ApiKey>, existingPlan: Option<UsagePlan>)
  {
    match k
    case KeyCreation => existingKey.Some?
    case PlanCreation => existingPlan.Some?
    case LinkCreation =>
      existingKey.Some? && existingPlan.Some? && Link(existingPlan.value.id, existingKey.value.id) in w.links
  }

  /** What was found is used, not created again: a key found costs no key
      creation, a plan found no plan creation, and a found key the found plan
      already lists no link request. */
  lemma ProvisionReuses(svc: Service, w: World, dep: Deployment, keyName: string, keyValue: string,
                        existingKey: Option<ApiKey>, existingPlan: Option<UsagePlan>, planName: string,
                        template: Option<PlanSettings>, k: Creation)
    requires svc.pageSize > 0 && Wf(w)
    ensures var s := ProvisionStep(svc, w, dep, keyName, keyValue, existingKey, existingPlan, planName, template);
            && w.calls <= s.world.calls
            && (existingPlan.Some? ==> |s.world.plans| == |w.plans|)
            && (Found(w, k, existingKey, existingPlan) ==> SendsNo(s.world.calls[|w.calls|..], k))
            && (existingKey.Some? && existingPlan.Some? && Link(existingPlan.value.id, existingKey.value.id) in w.links ==>
                  s.world.links == w.links)
  {
    var made := if existingKey.Some? then Step(w, Ok(existingKey.value)) else Requests.CreateKeyStep(svc, w, keyName, keyValue);
    if existingKey.None? {
      CreateApiKeyGrows(svc, w, keyName, true, Requests.ValueParam(keyValue));
      assert made.world.calls[|w.calls|..] == [Call.CreateApiKey(keyName, true, Requests.ValueParam(keyValue))];
    } else {
      assert made.world.calls[|w.calls|..] == [];
    }
    if made.answer.Err? {
      assert ProvisionStep(svc, w, dep, keyName, keyValue, existingKey, existingPlan, planName, template).world == made.world;
    } else {
      var keyId := made.answer.value.id;
      if existingPlan.Some? {
        var s := ExistingPlanStep(svc, made.world, dep, keyId, existingPlan.value);
        if k == LinkCreation && !(existingKey.Some? && Link(existingPlan.value.id, keyId) in w.links) {
          ExistingPlanReuses(svc, made.world, dep, keyId, existingPlan.value, PlanCreation);
        } else {
          ExistingPlanReuses(svc, made.world, dep, keyId, existingPlan.value, k);
          if k != KeyCreation || existingKey.Some? {
            SendsNoChain(w.calls, made.world.calls, s.world.calls, k);
          }
        }
      } else {
        var s := NewPlanStep(svc, made.world, dep, keyId, planName, template);
        NewPlanSends(svc, made.world, dep, keyId, planName, template);
        if existingKey.Some? {
          SendsNoChain(w.calls, made.world.calls, s.world.calls, KeyCreation);
        }
      }
    }
  }

  /** A key and a plan both missing, with nothing rejected, cost exactly four
      requests: the key, the plan, their link and the stage patch. */
  lemma ProvisionFresh(svc: Service, w: World, dep: Deployment, keyName: string, keyValue: string,
                       planName: string, template: Option<PlanSettings>)
    requires svc.pageSize > 0 && Wf(w) && Healthy(svc) && DeployedStage(dep).Some?
    ensures var s := ProvisionStep(svc, w, dep, keyName, keyValue, None, None, planName, template);
            && s.answer.outcome.Pass? && s.answer.created.Some? && |s.world.plans| == |w.plans| + 1
            && var id := s.world.plans[|w.plans|].id;
               s.world.calls == w.calls + [Call.CreateApiKey(keyName, true, Requests.ValueParam(keyValue)),
                                          Call.CreateUsagePlan(PlanRequest(planName, template)),
                                          Call.CreateUsagePlanKey(s.answer.created.value.id, "API_KEY", id),
                                          Call.UpdateUsagePlan(id, Requests.StagePatch(Named(DeployedStage(dep).value.apiId), dep.stage))]
  {
    var made := Requests.CreateKeyStep(svc, w, keyName, keyValue);
    CreateApiKeyGrows(svc, w, keyName, true, Requests.ValueParam(keyValue));
    KeyAtItsId(made.world.keys, |w.keys|);
    NewPlanRequests(svc, made.world, dep, made.answer.value.id, planName, template);
  }

  /** The add path's goal for one key: with nothing rejected and the stack
      naming a REST API, the first key and the first plan with the declared
      names end up linked, and the plan carries the deployed stage. */
  lemma ProvisionReaches(svc: Service, w: World, dep: Deployment, keyName: string, keyValue: string,
                         planName: string, template: Option<PlanSettings>)
    requires svc.pageSize > 0 && Wf(w) && Healthy(svc) && DeployedStage(dep).Some?
    ensures var s := ProvisionStep(svc, w, dep, keyName, keyValue, FindKey(w.keys, keyName), FindPlan(w.plans, planName),
                                   planName, template);
            s.answer.outcome.Pass? && Reconciled(s.world, keyName, planName, DeployedStage(dep).value)
  {
    var existingKey := FindKey(w.keys, keyName);
    var made := if existingKey.Some? then Step(w, Ok(existingKey.value)) else Requests.CreateKeyStep(svc, w, keyName, keyValue);
    if existingKey.None? {
      Requests.CreateKeyFacts(svc, w, keyName, keyValue);
      KeyIndexAppend(w.keys, made.answer.value, keyName);
    }
    var k := KeyIndex(made.world.keys, keyName).value;
    assert made.world.keys[k] == made.answer.value;
    KeyAtItsId(made.world.keys, k);
    var keyId := made.answer.value.id;
    assert made.world.plans == w.plans;
    var rest := if FindPlan(w.plans, planName).Some? then ExistingPlanStep(svc, made.world, dep, keyId, FindPlan(w.plans, planName).value)
                else NewPlanStep(svc, made.world, dep, keyId, planName, template);
    if FindPlan(w.plans, planName).Some? {
      ExistingPlanFacts(svc, made.world, dep, keyId, planName, FindPlan(w.plans, planName).value);
    } else {
      NewPlanFacts(svc, made.world, dep, keyId, planName, template);
    }
    assert rest.world.keys == made.world.keys;
  }

  /** Running the add path for a key whose goal already holds creates
      nothing and changes nothing: it only reads. */
  lemma ProvisionIdle(svc: Service, w: World, dep: Deployment, keyName: string, keyValue: string,
                      planName: string, template: Option<PlanSettings>)
    requires svc.pageSize > 0 && Wf(w) && DeployedStage(dep).Some?
    requires Reconciled(w, keyName, planName, DeployedStage(dep).value)
    ensures var s := ProvisionStep(svc, w, dep, keyName, keyValue, FindKey(w.keys, keyName), FindPlan(w.plans, planName),
                                   planName, template);
            ReadsOnly(w, s.world) && s.answer.created.None?
  {
    var key := FindKey(w.keys, keyName).value;
    var plan := FindPlan(w.plans, planName).value;
    ExistingPlanFacts(svc, w, dep, key.id, planName, plan);
  }

  method Attach(ag: ApiGateway, dep: Deployment, keyId: nat, planId: nat, apiStages: seq<ApiStage>, linked: bool)
    returns (r: Outcome)
    requires ag.Valid()
    modifies ag`plans, ag`links, ag`calls
    ensures ag.Valid()
    ensures Step(ag.Now(), r) == AttachStep(ag.svc, old(ag.Now()), dep, keyId, planId, apiStages, linked)
  {
    if !linked {
      r := Requests.CreateUsagePlanKey(ag, keyId, planId);
      if r.Fail? {
        return;
      }
    }
    r := Requests.AssociateRestApiWithUsagePlan(ag, dep.stacks, dep.stackName, planId, apiStages, dep.stage);
  }

  method ProvisionKey(ag: ApiGateway, dep: Deployment, keyName: string, keyValue: string,
                      existingKey: Option<ApiKey>, existingPlan: Option<UsagePlan>, planName: string,
                      template: Option<PlanSettings>)
    returns (r: Provisioned)
    requires ag.Valid()
    modifies ag`keys, ag`plans, ag`nextId, ag`links, ag`calls
    ensures ag.Valid()
    ensures Step(ag.Now(), r) == ProvisionStep(ag.svc, old(ag.Now()), dep, keyName, keyValue, existingKey, existingPlan,
                                               planName, template)
  {
    var key: ApiKey;
    var created: Option<ApiKey> := None;
    if existingKey.Some? {
      key := existingKey.value;
    } else {
      var made := Requests.CreateKey(ag, keyName, keyValue);
      if made.Err? {
        return Provisioned(None, Fail(made.error));
      }
      key := made.value;
      created := Some(key);
    }
    var outcome: Outcome;
    if existingPlan.Some? {
      var plan := existingPlan.value;
      var has := PlanHasKey(ag, plan.id, key.id);
      if has.Err? {
        outcome := Fail(has.error);
      } else {
        outcome := Attach(ag, dep, key.id, plan.id, plan.apiStages, has.value);
      }
    } else {
      var made := Requests.CreateUsagePlan(ag, planName, template);
      if made.Err? {
        outcome := Fail(made.error);
      } else {
        outcome := Attach(ag, dep, key.id, made.value, [], false);
      }
    }
    r := Provisioned(created, outcome);
  }
}
