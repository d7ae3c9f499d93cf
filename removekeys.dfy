/** removeApiKey (src/helper.js:388-441): for every key declared for the
    stage, delete its plan unless the plan still serves a stage, then
    delete the key; a protected key ends the run. Nothing is caught: the
    first error rejects the run. */
module RemoveKeys {
  import opened Common
  import opened Remote
  import opened Steps
  import opened Gateway
  import opened Options
  import opened Lookup

  /** What the remove path reads from the deployment. */
  datatype RemovalEnv = RemovalEnv(apiKeys: KeyConfig, provider: Provider, stage: string)

  /** The error getApiKey raises when it is called without a CLI object and
      has an error other than NotFoundException to log. */
  const MissingCli: Error := TypeError("Cannot read properties of undefined (reading 'consoleLog')")

  /** Removal only takes away: it creates nothing, and every key, plan and
      link left was there before; requests are only appended. */
  predicate Shrinks(s: World, t: World)
  {
    && t.nextId == s.nextId
    && (forall k :: k in t.keys ==> k in s.keys)
    && (forall p :: p in t.plans ==> p in s.plans)
    && (forall l :: l in t.links ==> l in s.links)
    && s.calls <= t.calls
  }

  lemma ShrinksTransitive(s: World, t: World, u: World)
    requires Shrinks(s, t) && Shrinks(t, u)
    ensures Shrinks(s, u)
  {
  }

  /** The tail of one iteration: look the key up and delete it (if any). */
  function DropKey(svc: Service, w: World, name: string): Step<Outcome>
    requires svc.pageSize > 0
  {
    var key := GetApiKeyStep(svc, w, name);
    if key.answer.Err? then Step(key.world, Fail(MissingCli))
    else if key.answer.value.None? then Step(key.world, Pass)
    else DeleteApiKeyStep(svc, key.world, key.answer.value.value.id)
  }

  /** One iteration for an unprotected key: look the plan up; leave the key
      alone when its plan serves a stage; else delete the plan (if any), look
      the key up and delete it (if any). */
  function RemoveOne(svc: Service, w: World, name: string, planName: string): Step<Outcome>
    requires svc.pageSize > 0
  {
    var plan := GetUsagePlanStep(svc, w, planName);
    if plan.answer.Err? then Step(plan.world, Fail(plan.answer.error))
    else if plan.answer.value.Some? && |plan.answer.value.value.apiStages| > 0 then Step(plan.world, Pass)
    else
      var del := if plan.answer.value.Some? then DeleteUsagePlanStep(svc, plan.world, plan.answer.value.value.id)
                 else Step(plan.world, Pass);
      if del.answer.Fail? then del
      else DropKey(svc, del.world, name)
  }

  /** The loop over `specs`: a protected key returns from the whole run. */
  function RemoveRun(svc: Service, w: World, defaultPlan: PlanSettings, specs: seq<KeySpec>): Step<Outcome>
    requires svc.pageSize > 0
    decreases |specs|
  {
    if specs == [] then Step(w, Pass)
    else if IsProtected(specs[0].deleteAtRemoval) then Step(w, Pass)
    else
      var one := RemoveOne(svc, w, specs[0].name, PlanNameFor(specs[0], defaultPlan));
      if one.answer.Fail? then one
      else RemoveRun(svc, one.world, defaultPlan, specs[1..])
  }

  /** removeApiKey: a configuration keyed by stage without an entry for the
      current stage is not iterable, which rejects the run. */
  function RemoveApiKeyStep(svc: Service, w: World, env: RemovalEnv): Step<Outcome>
    requires svc.pageSize > 0
  {
    match SelectKeys(env.apiKeys, env.stage)
    case None => Step(w, Fail(TypeError("apiKeys is not iterable")))
    case Some(specs) => RemoveRun(svc, w, ResolveDefaultUsagePlan(Some(env.provider)), specs)
  }

  /** Ids are unique: only the plan itself has its id, so deleting a plan
      with no stages spares every plan that has some. */
  lemma OnlyStagelessShares(plans: seq<UsagePlan>, i: nat)
    requires PlanIdsIncrease(plans) && i < |plans| && |plans[i].apiStages| == 0
    ensures forall p :: p in plans && |p.apiStages| > 0 ==> p.id != plans[i].id
  {
    PlanAtItsId(plans, i);
    forall p | p in plans && |p.apiStages| > 0 ensures p.id != plans[i].id {
      var j :| 0 <= j < |plans| && plans[j] == p;
      PlanAtItsId(plans, j);
    }
  }

  /** Dropping a key only takes away, and leaves the plans alone. */
  lemma DropKeyShrinks(svc: Service, w: World, name: string)
    requires svc.pageSize > 0 && Wf(w)
    ensures var s := DropKey(svc, w, name);
            Wf(s.world) && Shrinks(w, s.world) && s.world.plans == w.plans
  {
    var key := GetApiKeyStep(svc, w, name);
    GetApiKeyFacts(svc, w, name);
    if key.answer.Ok? && key.answer.value.Some? {
      DeleteApiKeyShrinks(svc, key.world, key.answer.value.value.id);
    }
  }

  /** One key only takes away, and never a plan that serves a stage. */
  lemma RemoveOneShrinks(svc: Service, w: World, name: string, planName: string)
    requires svc.pageSize > 0 && Wf(w)
    ensures var s := RemoveOne(svc, w, name, planName);
            && Wf(s.world) && Shrinks(w, s.world)
            && (forall p :: p in w.plans && |p.apiStages| > 0 ==> p in s.world.plans)
  {
    var plan := GetUsagePlanStep(svc, w, planName);
    GetUsagePlanFacts(svc, w, planName);
    if plan.answer.Ok? && !(plan.answer.value.Some? && |plan.answer.value.value.apiStages| > 0) {
      var del := if plan.answer.value.Some? then DeleteUsagePlanStep(svc, plan.world, plan.answer.value.value.id)
                 else Step(plan.world, Pass);
      if plan.answer.value.Some? {
        DeleteUsagePlanShrinks(svc, plan.world, plan.answer.value.value.id);
        OnlyStagelessShares(w.plans, PlanIndex(w.plans, planName).value);
      }
      assert Wf(del.world) && Shrinks(w, del.world);
      assert forall p :: p in w.plans && |p.apiStages| > 0 ==> p in del.world.plans;
      if del.answer.Pass? {
        DropKeyShrinks(svc, del.world, name);
        ShrinksTransitive(w, del.world, DropKey(svc, del.world, name).world);
      }
    }
  }

  /** With nothing rejected, one key's removal does exactly this: when the
      first plan named `planName` serves a stage, nothing changes; else that
      plan (if any) and the first key named `name` (if any) are deleted, with
      their links, and nothing else. */
  lemma RemoveOneEffect(svc: Service, w: World, name: string, planName: string)
    requires svc.pageSize > 0 && Wf(w) && Healthy(svc)
    ensures var s := RemoveOne(svc, w, name, planName);
            var plan := FindPlan(w.plans, planName);
            var key := FindKey(w.keys, name);
            && s.answer.Pass?
            && (plan.Some? && |plan.value.apiStages| > 0 ==> ReadsOnly(w, s.world))
            && (!(plan.Some? && |plan.value.apiStages| > 0) ==>
                  && (forall p :: p in s.world.plans <==> p in w.plans && (plan.Some? ==> p.id != plan.value.id))
                  && (forall k :: k in s.world.keys <==> k in w.keys && (key.Some? ==> k.id != key.value.id))
                  && (forall l :: l in s.world.links <==>
                        l in w.links && (plan.Some? ==> l.usagePlanId != plan.value.id)
                        && (key.Some? ==> l.keyId != key.value.id)))
  {
    var plan := GetUsagePlanStep(svc, w, planName);
    GetUsagePlanFacts(svc, w, planName);
    var found := FindPlan(w.plans, planName);
    if !(found.Some? && |found.value.apiStages| > 0) {
      var del := if found.Some? then DeleteUsagePlanStep(svc, plan.world, found.value.id) else Step(plan.world, Pass);
      if found.Some? {
        DeleteUsagePlanShrinks(svc, plan.world, found.value.id);
        PlanAtItsId(w.plans, PlanIndex(w.plans, planName).value);
      }
      assert del.world.keys == w.keys && Wf(del.world);
      var key := GetApiKeyStep(svc, del.world, name);
      GetApiKeyFacts(svc, del.world, name);
      if key.answer.value.Some? {
        DeleteApiKeyShrinks(svc, key.world, key.answer.value.value.id);
        KeyAtItsId(w.keys, KeyIndex(w.keys, name).value);
      }
    }
  }

  /** The run only takes away, and never a plan that serves a stage. */
  lemma {:induction false} RemoveRunShrinks(svc: Service, w: World, defaultPlan: PlanSettings, specs: seq<KeySpec>)
    requires svc.pageSize > 0 && Wf(w)
    ensures var s := RemoveRun(svc, w, defaultPlan, specs);
            && Wf(s.world) && Shrinks(w, s.world)
            && (forall p :: p in w.plans && |p.apiStages| > 0 ==> p in s.world.plans)
    decreases |specs|
  {
    if specs != [] && !IsProtected(specs[0].deleteAtRemoval) {
      var one := RemoveOne(svc, w, specs[0].name, PlanNameFor(specs[0], defaultPlan));
      RemoveOneShrinks(svc, w, specs[0].name, PlanNameFor(specs[0], defaultPlan));
      if one.answer.Pass? {
        RemoveRunShrinks(svc, one.world, defaultPlan, specs[1..]);
        ShrinksTransitive(w, one.world, RemoveRun(svc, one.world, defaultPlan, specs[1..]).world);
      }
    }
  }

  /** The run stops at the first protected key: it does what it does on the
      keys before it, and nothing for it or any key after it. */
  lemma {:induction false} RemoveRunStops(svc: Service, w: World, defaultPlan: PlanSettings, specs: seq<KeySpec>)
    requires svc.pageSize > 0
    ensures FirstProtected(specs).Some? ==>
              RemoveRun(svc, w, defaultPlan, specs) == RemoveRun(svc, w, defaultPlan, specs[..FirstProtected(specs).value])
    ensures FirstProtected(specs) == Some(0) ==> RemoveRun(svc, w, defaultPlan, specs) == Step(w, Pass)
    decreases |specs|
  {
    if specs != [] && !IsProtected(specs[0].deleteAtRemoval) {
      var n := FirstProtected(specs);
      if n.Some? {
        var one := RemoveOne(svc, w, specs[0].name, PlanNameFor(specs[0], defaultPlan));
        assert FirstProtected(specs[1..]) == Some(n.value - 1);
        assert specs[..n.value][1..] == specs[1..][..n.value - 1];
        RemoveRunStops(svc, one.world, defaultPlan, specs[1..]);
      }
    }
  }

  /** With nothing rejected the run succeeds. */
  lemma {:induction false} RemoveRunSucceeds(svc: Service, w: World, defaultPlan: PlanSettings, specs: seq<KeySpec>)
    requires svc.pageSize > 0 && Wf(w) && Healthy(svc)
    ensures RemoveRun(svc, w, defaultPlan, specs).answer.Pass?
    decreases |specs|
  {
    if specs != [] && !IsProtected(specs[0].deleteAtRemoval) {
      var one := RemoveOne(svc, w, specs[0].name, PlanNameFor(specs[0], defaultPlan));
      RemoveOneEffect(svc, w, specs[0].name, PlanNameFor(specs[0], defaultPlan));
      RemoveOneShrinks(svc, w, specs[0].name, PlanNameFor(specs[0], defaultPlan));
      RemoveRunSucceeds(svc, one.world, defaultPlan, specs[1..]);
    }
  }

  method RemoveOneKey(ag: ApiGateway, name: string, planName: string) returns (r: Outcome)
    requires ag.Valid()
    modifies ag`keys, ag`plans, ag`links, ag`calls
    ensures ag.Valid()
    ensures Step(ag.Now(), r) == RemoveOne(ag.svc, old(ag.Now()), name, planName)
  {
    var plan := GetUsagePlan(ag, planName);
    if plan.Err? {
      return Fail(plan.error);
    }
    if plan.value.Some? {
      if |plan.value.value.apiStages| > 0 {
        return Pass;
      }
      r := ag.DeleteUsagePlan(plan.value.value.id);
      if r.Fail? {
        return;
      }
    }
    var key := GetApiKey(ag, name);
    if key.Err? {
      return Fail(MissingCli);
    }
    if key.value.None? {
      return Pass;
    }
    r := ag.DeleteApiKey(key.value.value.id);
  }

  method RemoveApiKey(ag: ApiGateway, env: RemovalEnv) returns (r: Outcome)
    requires ag.Valid()
    modifies ag`keys, ag`plans, ag`links, ag`calls
    ensures ag.Valid()
    ensures Step(ag.Now(), r) == RemoveApiKeyStep(ag.svc, old(ag.Now()), env)
  {
    var selected := SelectKeys(env.apiKeys, env.stage);
    if selected.None? {
      return Fail(TypeError("apiKeys is not iterable"));
    }
    var specs := selected.value;
    var defaultPlan := ResolveDefaultUsagePlan(Some(env.provider));
    ghost var total := RemoveRun(ag.svc, ag.Now(), defaultPlan, specs);
    assert specs[0..] == specs;
    for i := 0 to |specs|
      invariant ag.Valid()
      invariant RemoveRun(ag.svc, ag.Now(), defaultPlan, specs[i..]) == total
    {
      assert specs[i..][0] == specs[i] && specs[i..][1..] == specs[i + 1..];
      if IsProtected(specs[i].deleteAtRemoval) {
        return Pass;
      }
      r := RemoveOneKey(ag, specs[i].name, PlanNameFor(specs[i], defaultPlan));
      if r.Fail? {
        return;
      }
    }
    assert specs[|specs|..] == [];
    r := Pass;
  }
}
