/** The single-request helpers of src/helper.js: creating a key, a plan and
    a plan-key link, and attaching the deployed REST API stage to a plan. */
module Requests {
  import opened Common
  import opened Remote
  import opened Steps
  import opened Gateway
  import opened Options
  import opened Endpoint

  /** The `value` field of a createApiKey request: sent only when non-empty. */
  function ValueParam(keyValue: string): (v: Option<string>)
    ensures v.Some? <==> keyValue != ""
    ensures v.Some? ==> v.value == keyValue
  {
    if keyValue != "" then Some(keyValue) else None
  }

  /** createKey: an enabled key called `name`, with `keyValue` as its secret
      when one is given, else one the service generates. */
  function CreateKeyStep(svc: Service, w: World, name: string, keyValue: string): Step<Result<ApiKey>>
  {
    CreateApiKeyStep(svc, w, name, true, ValueParam(keyValue))
  }

  /** createUsagePlan: a plan built from `template` (if any) under the name
      `name`; the answer is its id. */
  function CreatePlanStep(svc: Service, w: World, name: string, template: Option<PlanSettings>): Step<Result<nat>>
  {
    var s := CreateUsagePlanStep(svc, w, PlanRequest(name, template));
    Step(s.world, match s.answer
                  case Ok(p) => Ok(p.id)
                  case Err(e) => Err(e))
  }

  /** createUsagePlanKey: key `keyId` linked to plan `usagePlanId` as an API key. */
  function LinkStep(svc: Service, w: World, keyId: nat, usagePlanId: nat): Step<Outcome>
  {
    CreateUsagePlanKeyStep(svc, w, keyId, "API_KEY", usagePlanId)
  }

  /** The key created is enabled, carries the name and, when one is given,
      the value asked for; it is appended after every existing key; the
      request fails only when the service rejects it. */
  lemma CreateKeyFacts(svc: Service, w: World, name: string, keyValue: string)
    requires Wf(w)
    ensures var s := CreateKeyStep(svc, w, name, keyValue);
            && Wf(s.world) && Extends(w, s.world)
            && s.world.plans == w.plans && s.world.links == w.links
            && s.world.keys == w.keys + (if s.answer.Ok? then [s.answer.value] else [])
            && (s.answer.Ok? ==> s.answer.value.name == name && s.answer.value.enabled)
            && (s.answer.Ok? && keyValue != "" ==> s.answer.value.value == keyValue)
            && (Healthy(svc) ==> s.answer.Ok?)
  {
    CreateApiKeyGrows(svc, w, name, true, ValueParam(keyValue));
  }

  /** The plan created carries the name, the template's quota and throttle,
      no stages and no keys, under an id above every existing plan's. */
  lemma CreatePlanFacts(svc: Service, w: World, name: string, template: Option<PlanSettings>)
    requires Wf(w)
    ensures var s := CreatePlanStep(svc, w, name, template);
            && Wf(s.world) && Extends(w, s.world)
            && s.world.keys == w.keys && s.world.links == w.links
            && (s.answer.Err? ==> s.world.plans == w.plans)
            && (s.answer.Ok? ==>
                  var request := PlanRequest(name, template);
                  && s.world.plans == w.plans + [UsagePlan(s.answer.value, name, request.quota, request.throttle, [])]
                  && (forall i :: 0 <= i < |w.plans| ==> w.plans[i].id < s.answer.value)
                  && (forall l :: l in s.world.links ==> l.usagePlanId != s.answer.value))
            && (Healthy(svc) ==> s.answer.Ok?)
  {
    CreateUsagePlanGrows(svc, w, PlanRequest(name, template));
  }

  /** Linking succeeds exactly when the service accepts the request, both
      ends exist and they are not linked yet; it then adds that one link. */
  lemma LinkFacts(svc: Service, w: World, keyId: nat, usagePlanId: nat)
    requires Wf(w)
    ensures var s := LinkStep(svc, w, keyId, usagePlanId);
            && Wf(s.world) && Extends(w, s.world)
            && s.world.keys == w.keys && s.world.plans == w.plans && s.world.nextId == w.nextId
            && s.world.links == w.links + (if s.answer.Pass? then [Link(usagePlanId, keyId)] else [])
            && (s.answer.Pass? <==>
                  && svc.fails(Call.CreateUsagePlanKey(keyId, "API_KEY", usagePlanId)).None?
                  && PlanWithId(w.plans, usagePlanId).Some? && KeyWithId(w.keys, keyId).Some?
                  && Link(usagePlanId, keyId) !in w.links)
  {
    CreateUsagePlanKeyGrows(svc, w, keyId, "API_KEY", usagePlanId);
  }

  method CreateKey(ag: ApiGateway, name: string, keyValue: string) returns (r: Result<ApiKey>)
    requires ag.Valid()
    modifies ag`keys, ag`nextId, ag`calls
    ensures ag.Valid()
    ensures Step(ag.Now(), r) == CreateKeyStep(ag.svc, old(ag.Now()), name, keyValue)
  {
    r := ag.CreateApiKey(name, true, ValueParam(keyValue));
  }

  method CreateUsagePlan(ag: ApiGateway, name: string, template: Option<PlanSettings>) returns (r: Result<nat>)
    requires ag.Valid()
    modifies ag`plans, ag`nextId, ag`calls
    ensures ag.Valid()
    ensures Step(ag.Now(), r) == CreatePlanStep(ag.svc, old(ag.Now()), name, template)
  {
    var created := ag.CreateUsagePlan(PlanRequest(name, template));
    if created.Err? {
      return Err(created.error);
    }
    r := Ok(created.value.id);
  }

  method CreateUsagePlanKey(ag: ApiGateway, keyId: nat, usagePlanId: nat) returns (r: Outcome)
    requires ag.Valid()
    modifies ag`links, ag`calls
    ensures ag.Valid()
    ensures Step(ag.Now(), r) == LinkStep(ag.svc, old(ag.Now()), keyId, usagePlanId)
  {
    r := ag.CreateUsagePlanKey(keyId, "API_KEY", usagePlanId);
  }

  /** The API id `outputs` yield, walking them in order as the `forEach` does. */
  method ScanOutputs(outputs: seq<StackOutput>) returns (apiName: ApiName)
    ensures apiName == ApiNameOf(outputs)
    ensures apiName.NoEndpoint? <==> forall i :: 0 <= i < |outputs| ==> outputs[i].outputKey != "ServiceEndpoint"
  {
    apiName := NoEndpoint;
    for i := 0 to |outputs|
      invariant apiName == ApiNameOf(outputs[..i])
      invariant apiName.NoEndpoint? <==> forall j :: 0 <= j < i ==> outputs[j].outputKey != "ServiceEndpoint"
    {
      assert outputs[..i + 1][..i] == outputs[..i];
      if outputs[i].outputKey == "ServiceEndpoint" {
        apiName := ApiIdOf(outputs[i].outputValue);
        assert apiName != NoEndpoint by { NoEndpointOnlyWhenAbsent(outputs[i].outputValue); }
      }
    }
    assert outputs[..|outputs|] == outputs;
  }

  /** Reading an endpoint never yields "no endpoint". */
  lemma NoEndpointOnlyWhenAbsent(endpoint: string)
    ensures ApiIdOf(endpoint) != NoEndpoint
  {
  }

  /** The patch that attaches `apiName:stage` to a plan. */
  function StagePatch(apiName: ApiName, stage: string): (ops: seq<PatchOperation>)
    ensures |ops| == 1 && ops[0].op == "add" && ops[0].path == "/apiStages"
    ensures apiName.Named? && ':' !in apiName.id ==> ParseApiStage(ops[0].value) == Some(ApiStage(apiName.id, stage))
  {
    var ops := [PatchOperation("add", "/apiStages", Render(apiName) + ":" + stage)];
    if apiName.Named? && ':' !in apiName.id then
      ApiStageRoundTrip(ApiStage(apiName.id, stage));
      ops
    else ops
  }

  /** associateRestApiWithUsagePlan: reads the REST API id from the outputs of
      stack `stackName` and attaches its `stage` to plan `usagePlanId`, unless
      `apiStages` (what the caller knows of the plan) already lists it. */
  function AssociateStep(svc: Service, w: World, stacks: map<string, seq<StackOutput>>, stackName: string,
                         usagePlanId: nat, apiStages: seq<ApiStage>, stage: string): Step<Outcome>
  {
    if stackName !in stacks then Step(w, Fail(ServiceError("ValidationError")))
    else
      var apiName := ApiNameOf(stacks[stackName]);
      if apiName.Named? && ApiStage(apiName.id, stage) in apiStages then Step(w, Pass)
      else UpdateUsagePlanStep(svc, w, usagePlanId, StagePatch(apiName, stage))
  }

  /** Attaching the deployed stage to a stageless plan, with nothing
      rejected, costs exactly one patch and succeeds. */
  lemma AssociateFirst(svc: Service, w: World, stacks: map<string, seq<StackOutput>>, stackName: string,
                       usagePlanId: nat, stage: string)
    requires Wf(w) && Healthy(svc) && DeployedApi(stacks, stackName).Some?
    requires PlanWithId(w.plans, usagePlanId).Some? && w.plans[PlanWithId(w.plans, usagePlanId).value].apiStages == []
    ensures var s := AssociateStep(svc, w, stacks, stackName, usagePlanId, [], stage);
            && s.answer.Pass? && |s.world.plans| == |w.plans|
            && (forall j :: 0 <= j < |w.plans| ==> s.world.plans[j].id == w.plans[j].id)
            && s.world.calls == w.calls + [Call.UpdateUsagePlan(usagePlanId, StagePatch(Named(DeployedApi(stacks, stackName).value), stage))]
  {
    AssociateFacts(svc, w, stacks, stackName, usagePlanId, [], stage);
  }

  /** The association creates no key, no plan and no link, and keeps every
      plan in place. */
  lemma AssociateSends(svc: Service, w: World, stacks: map<string, seq<StackOutput>>, stackName: string,
                       usagePlanId: nat, apiStages: seq<ApiStage>, stage: string, k: Creation)
    requires Wf(w)
    ensures var s := AssociateStep(svc, w, stacks, stackName, usagePlanId, apiStages, stage);
            && w.calls <= s.world.calls && |s.world.plans| == |w.plans| && s.world.links == w.links
            && SendsNo(s.world.calls[|w.calls|..], k)
  {
    if stackName in stacks {
      var apiName := ApiNameOf(stacks[stackName]);
      if !(apiName.Named? && ApiStage(apiName.id, stage) in apiStages) {
        var s := UpdateUsagePlanStep(svc, w, usagePlanId, StagePatch(apiName, stage));
        UpdateUsagePlanGrows(svc, w, usagePlanId, StagePatch(apiName, stage));
        assert s.world.calls[|w.calls|..] == [Call.UpdateUsagePlan(usagePlanId, StagePatch(apiName, stage))];
      } else {
        assert w.calls[|w.calls|..] == [];
      }
    } else {
      assert w.calls[|w.calls|..] == [];
    }
  }

  /** The association only ever attaches a stage; a stage the caller already
      knows of costs no request, any other costs exactly one `add
      /apiStages` patch; on success the deployed stage is appended to that
      plan and every other plan is left as it was; with nothing rejected and
      an accurate picture of the plan it succeeds. */
  lemma AssociateFacts(svc: Service, w: World, stacks: map<string, seq<StackOutput>>, stackName: string,
                       usagePlanId: nat, apiStages: seq<ApiStage>, stage: string)
    requires Wf(w)
    ensures var s := AssociateStep(svc, w, stacks, stackName, usagePlanId, apiStages, stage);
            && Wf(s.world) && Extends(w, s.world)
            && s.world.keys == w.keys && s.world.links == w.links && s.world.nextId == w.nextId
            && |s.world.plans| == |w.plans|
            && (stackName !in stacks ==> s == Step(w, Fail(ServiceError("ValidationError"))))
            && (DeployedApi(stacks, stackName).Some? && ApiStage(DeployedApi(stacks, stackName).value, stage) in apiStages ==>
                  s == Step(w, Pass))
            && (s.answer.Pass? && DeployedApi(stacks, stackName).Some? && PlanWithId(w.plans, usagePlanId).Some?
                && (forall a :: a in apiStages ==> a in w.plans[PlanWithId(w.plans, usagePlanId).value].apiStages) ==>
                  ApiStage(DeployedApi(stacks, stackName).value, stage) in s.world.plans[PlanWithId(w.plans, usagePlanId).value].apiStages)
            && (Healthy(svc) && DeployedApi(stacks, stackName).Some? && PlanWithId(w.plans, usagePlanId).Some?
                && apiStages == w.plans[PlanWithId(w.plans, usagePlanId).value].apiStages ==>
                  s.answer.Pass?)
            && (stackName in stacks && ApiNameOf(stacks[stackName]).Named?
                && ApiStage(ApiNameOf(stacks[stackName]).id, stage) in apiStages ==>
                  s == Step(w, Pass))
            && (stackName in stacks && !(ApiNameOf(stacks[stackName]).Named?
                                         && ApiStage(ApiNameOf(stacks[stackName]).id, stage) in apiStages) ==>
                  s.world.calls == w.calls + [Call.UpdateUsagePlan(usagePlanId, StagePatch(ApiNameOf(stacks[stackName]), stage))])
            && (s.answer.Pass? && DeployedApi(stacks, stackName).Some?
                && ApiStage(DeployedApi(stacks, stackName).value, stage) !in apiStages ==>
                  && PlanWithId(w.plans, usagePlanId).Some?
                  && var i := PlanWithId(w.plans, usagePlanId).value;
                     s.world.plans == w.plans[i := w.plans[i].(apiStages := w.plans[i].apiStages + [ApiStage(DeployedApi(stacks, stackName).value, stage)])])
  {
    if stackName in stacks {
      var apiName := ApiNameOf(stacks[stackName]);
      UpdateUsagePlanGrows(svc, w, usagePlanId, StagePatch(apiName, stage));
    }
  }

  /** With nothing rejected, attaching the deployed stage to a plan whose
      stages the caller knows leaves every plan in place and that plan
      carrying the stage. */
  lemma AssociateReaches(svc: Service, w: World, stacks: map<string, seq<StackOutput>>, stackName: string,
                         idx: nat, stage: string)
    requires Wf(w) && Healthy(svc) && DeployedApi(stacks, stackName).Some? && idx < |w.plans|
    ensures var s := AssociateStep(svc, w, stacks, stackName, w.plans[idx].id, w.plans[idx].apiStages, stage);
            && s.answer.Pass? && s.world.links == w.links && Wf(s.world)
            && |s.world.plans| == |w.plans| && (forall j :: 0 <= j < |w.plans| ==> PlanGrown(w.plans[j], s.world.plans[j]))
            && ApiStage(DeployedApi(stacks, stackName).value, stage) in s.world.plans[idx].apiStages
  {
    PlanAtItsId(w.plans, idx);
    AssociateFacts(svc, w, stacks, stackName, w.plans[idx].id, w.plans[idx].apiStages, stage);
  }

  method AssociateRestApiWithUsagePlan(ag: ApiGateway, stacks: map<string, seq<StackOutput>>, stackName: string,
                                       usagePlanId: nat, apiStages: seq<ApiStage>, stage: string)
    returns (r: Outcome)
    requires ag.Valid()
    modifies ag`plans, ag`calls
    ensures ag.Valid()
    ensures Step(ag.Now(), r) == AssociateStep(ag.svc, old(ag.Now()), stacks, stackName, usagePlanId, apiStages, stage)
  {
    if stackName !in stacks {
      return Fail(ServiceError("ValidationError"));
    }
    var apiName := ScanOutputs(stacks[stackName]);
    if apiName.Named? && ApiStage(apiName.id, stage) in apiStages {
      return Pass;
    }
    r := ag.UpdateUsagePlan(usagePlanId, StagePatch(apiName, stage));
  }
}
