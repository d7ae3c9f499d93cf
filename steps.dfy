/** What each request does to the API Gateway service, as functions from the
    service's state before the request to its state after it and its answer.
    Every request is appended to the log; a request the service rejects
    changes nothing else. */
module Steps {
  import opened Common
  import opened Remote

  /** How the service behaves beyond what it holds: the size of a page, the
      error (if any) it answers each request with, and the secret it
      generates for a key created without a value. */
  datatype Service = Service(pageSize: nat, fails: Call -> Option<Error>, secrets: nat -> string)

  /** The service rejects no request. */
  ghost predicate Healthy(svc: Service)
  {
    forall c :: svc.fails(c).None?
  }

  /** The state after a request, and the answer to it. */
  datatype Step<T> = Step(world: World, answer: T)

  /** `w` once request `c` has been received. */
  function Sent(w: World, c: Call): World
  {
    w.(calls := w.calls + [c])
  }

  /** The answer to request `c` when the service would otherwise return `v`. */
  function Answer<T>(svc: Service, c: Call, v: T): Result<T>
  {
    if svc.fails(c).Some? then Err(svc.fails(c).value) else Ok(v)
  }

  /** One page of listing `l`, whose items are `all`. */
  function PageStep<T>(svc: Service, w: World, l: Listing, all: seq<T>, position: Option<nat>): Step<Result<Page<T>>>
    requires svc.pageSize > 0
  {
    Step(Sent(w, RequestFor(l, position)), Answer(svc, RequestFor(l, position), PageOf(all, svc.pageSize, position)))
  }

  /** What draining listing `l` over `all` from `position` onwards yields:
      every page's items in order, or the first rejection. */
  function Drain<T>(svc: Service, all: seq<T>, l: Listing, position: Option<nat>): Result<seq<T>>
    requires svc.pageSize > 0
    decreases |all| - Offset(position)
  {
    var c := RequestFor(l, position);
    if svc.fails(c).Some? then Err(svc.fails(c).value)
    else
      var page := PageOf(all, svc.pageSize, position);
      match page.position
      case None => Ok(page.items)
      case Some(next) => Prepend(page.items, Drain(svc, all, l, Some(next)))
  }

  /** The requests draining listing `l` sends from `position` onwards. */
  function DrainCalls<T>(svc: Service, all: seq<T>, l: Listing, position: Option<nat>): seq<Call>
    requires svc.pageSize > 0
    decreases |all| - Offset(position)
  {
    var c := RequestFor(l, position);
    if svc.fails(c).Some? then [c]
    else
      match PageOf(all, svc.pageSize, position).position
      case None => [c]
      case Some(next) => [c] + DrainCalls(svc, all, l, Some(next))
  }

  /** A whole listing: the pages requested one after the other. */
  function ListStep<T>(svc: Service, w: World, l: Listing, all: seq<T>): Step<Result<seq<T>>>
    requires svc.pageSize > 0
  {
    Step(w.(calls := w.calls + DrainCalls(svc, all, l, None)), Drain(svc, all, l, None))
  }

  /** One accepted page: its items come first, then the rest of the listing. */
  lemma DrainStep<T>(svc: Service, all: seq<T>, l: Listing, position: Option<nat>)
    requires svc.pageSize > 0
    requires svc.fails(RequestFor(l, position)).None?
    ensures var page := PageOf(all, svc.pageSize, position);
            && Drain(svc, all, l, position)
               == (if page.position.Some? then Prepend(page.items, Drain(svc, all, l, page.position)) else Ok(page.items))
            && DrainCalls(svc, all, l, position)
               == [RequestFor(l, position)] + (if page.position.Some? then DrainCalls(svc, all, l, page.position) else [])
  {
  }

  /** A listing that completes returns every item from its start, in order. */
  lemma {:induction false} DrainComplete<T>(svc: Service, all: seq<T>, l: Listing, position: Option<nat>)
    requires svc.pageSize > 0
    requires Offset(position) <= |all|
    requires Drain(svc, all, l, position).Ok?
    ensures Drain(svc, all, l, position) == Ok(all[Offset(position)..])
    decreases |all| - Offset(position)
  {
    var page := PageOf(all, svc.pageSize, position);
    PageCovers(all, svc.pageSize, position);
    if page.position.Some? {
      DrainComplete(svc, all, l, page.position);
    }
  }

  /** When the service rejects nothing, every listing completes. */
  lemma {:induction false} DrainHealthy<T>(svc: Service, all: seq<T>, l: Listing, position: Option<nat>)
    requires svc.pageSize > 0 && Healthy(svc)
    requires Offset(position) <= |all|
    ensures Drain(svc, all, l, position).Ok?
    decreases |all| - Offset(position)
  {
    var page := PageOf(all, svc.pageSize, position);
    assert svc.fails(RequestFor(l, position)).None?;
    if page.position.Some? {
      DrainHealthy(svc, all, l, page.position);
    }
  }

  /** Listing only ever reads. */
  lemma {:induction false} DrainCallsRead<T>(svc: Service, all: seq<T>, l: Listing, position: Option<nat>)
    requires svc.pageSize > 0
    ensures AllReads(DrainCalls(svc, all, l, position))
    decreases |all| - Offset(position)
  {
    var page := PageOf(all, svc.pageSize, position);
    if svc.fails(RequestFor(l, position)).None? && page.position.Some? {
      DrainCallsRead(svc, all, l, page.position);
    }
  }

  /** A listing changes nothing but the log, and answers every item in order
      whenever it completes, which it always does when nothing is rejected. */
  lemma ListFacts<T>(svc: Service, w: World, l: Listing, all: seq<T>)
    requires svc.pageSize > 0
    ensures ReadsOnly(w, ListStep(svc, w, l, all).world)
    ensures ListStep(svc, w, l, all).answer.Ok? ==> ListStep(svc, w, l, all).answer == Ok(all)
    ensures Healthy(svc) ==> ListStep(svc, w, l, all).answer == Ok(all)
  {
    var s := ListStep(svc, w, l, all);
    DrainCallsRead(svc, all, l, None);
    assert s.world.calls[|w.calls|..] == DrainCalls(svc, all, l, None);
    if Healthy(svc) {
      DrainHealthy(svc, all, l, None);
    }
    if s.answer.Ok? {
      DrainComplete(svc, all, l, None);
      assert all[0..] == all;
    }
  }

  /** createApiKey: a new enabled-or-not key with the given value, or with one
      the service generates. */
  function CreateApiKeyStep(svc: Service, w: World, name: string, enabled: bool, value: Option<string>)
    : Step<Result<ApiKey>>
  {
    var c := Call.CreateApiKey(name, enabled, value);
    if svc.fails(c).Some? then Step(Sent(w, c), Err(svc.fails(c).value))
    else
      var k := ApiKey(w.nextId, name, if value.Some? then value.value else svc.secrets(w.nextId), enabled);
      Step(Sent(w, c).(keys := w.keys + [k], nextId := w.nextId + 1), Ok(k))
  }

  /** createUsagePlan: a new plan with no stages; a plan needs a name. */
  function CreateUsagePlanStep(svc: Service, w: World, plan: PlanSettings): Step<Result<UsagePlan>>
  {
    var c := Call.CreateUsagePlan(plan);
    if svc.fails(c).Some? then Step(Sent(w, c), Err(svc.fails(c).value))
    else if plan.name.None? then Step(Sent(w, c), Err(BadRequestException))
    else
      var p := UsagePlan(w.nextId, plan.name.value, plan.quota, plan.throttle, []);
      Step(Sent(w, c).(plans := w.plans + [p], nextId := w.nextId + 1), Ok(p))
  }

  /** createUsagePlanKey: links an existing key to an existing plan, at most once. */
  function CreateUsagePlanKeyStep(svc: Service, w: World, keyId: nat, keyType: string, usagePlanId: nat): Step<Outcome>
  {
    var c := Call.CreateUsagePlanKey(keyId, keyType, usagePlanId);
    if svc.fails(c).Some? then Step(Sent(w, c), Fail(svc.fails(c).value))
    else if keyType != "API_KEY" then Step(Sent(w, c), Fail(BadRequestException))
    else if PlanWithId(w.plans, usagePlanId).None? || KeyWithId(w.keys, keyId).None? then
      Step(Sent(w, c), Fail(NotFoundException))
    else if Link(usagePlanId, keyId) in w.links then Step(Sent(w, c), Fail(ConflictException))
    else Step(Sent(w, c).(links := w.links + [Link(usagePlanId, keyId)]), Pass)
  }

  /** Whether `ops` is a single `add /apiStages` operation with a readable value. */
  predicate IsStagePatch(ops: seq<PatchOperation>)
  {
    |ops| == 1 && ops[0].op == "add" && ops[0].path == "/apiStages" && ParseApiStage(ops[0].value).Some?
  }

  /** updateUsagePlan, for the one patch the plugin sends: attaches a stage to
      a plan, at most once. */
  function UpdateUsagePlanStep(svc: Service, w: World, usagePlanId: nat, ops: seq<PatchOperation>): Step<Outcome>
  {
    var c := Call.UpdateUsagePlan(usagePlanId, ops);
    if svc.fails(c).Some? then Step(Sent(w, c), Fail(svc.fails(c).value))
    else if !IsStagePatch(ops) then Step(Sent(w, c), Fail(BadRequestException))
    else if PlanWithId(w.plans, usagePlanId).None? then Step(Sent(w, c), Fail(NotFoundException))
    else
      var i := PlanWithId(w.plans, usagePlanId).value;
      var s := ParseApiStage(ops[0].value).value;
      if s in w.plans[i].apiStages then Step(Sent(w, c), Fail(ConflictException))
      else Step(Sent(w, c).(plans := w.plans[i := w.plans[i].(apiStages := w.plans[i].apiStages + [s])]), Pass)
  }

  /** deleteUsagePlan: removes a plan and its key links. */
  function DeleteUsagePlanStep(svc: Service, w: World, usagePlanId: nat): Step<Outcome>
  {
    var c := Call.DeleteUsagePlan(usagePlanId);
    if svc.fails(c).Some? then Step(Sent(w, c), Fail(svc.fails(c).value))
    else if PlanWithId(w.plans, usagePlanId).None? then Step(Sent(w, c), Fail(NotFoundException))
    else
      var i := PlanWithId(w.plans, usagePlanId).value;
      Step(Sent(w, c).(plans := w.plans[..i] + w.plans[i + 1..], links := LinksWithoutPlan(w.links, usagePlanId)), Pass)
  }

  /** deleteApiKey: removes a key and its plan links. */
  function DeleteApiKeyStep(svc: Service, w: World, apiKey: nat): Step<Outcome>
  {
    var c := Call.DeleteApiKey(apiKey);
    if svc.fails(c).Some? then Step(Sent(w, c), Fail(svc.fails(c).value))
    else if KeyWithId(w.keys, apiKey).None? then Step(Sent(w, c), Fail(NotFoundException))
    else
      var i := KeyWithId(w.keys, apiKey).value;
      Step(Sent(w, c).(keys := w.keys[..i] + w.keys[i + 1..], links := LinksWithoutKey(w.links, apiKey)), Pass)
  }

  /** Creating a key appends exactly the key answered, with a fresh id, the
      requested name, flag and value; only a rejection prevents it. */
  lemma CreateApiKeyGrows(svc: Service, w: World, name: string, enabled: bool, value: Option<string>)
    requires Wf(w)
    ensures var s := CreateApiKeyStep(svc, w, name, enabled, value);
            && Wf(s.world) && Extends(w, s.world)
            && s.world.calls == w.calls + [Call.CreateApiKey(name, enabled, value)]
            && s.world.plans == w.plans && s.world.links == w.links
            && s.world.keys == w.keys + (if s.answer.Ok? then [s.answer.value] else [])
            && (s.answer.Ok? <==> svc.fails(Call.CreateApiKey(name, enabled, value)).None?)
            && (s.answer.Ok? ==>
                  && s.answer.value.name == name && s.answer.value.enabled == enabled
                  && (value.Some? ==> s.answer.value.value == value.value)
                  && (forall i :: 0 <= i < |w.keys| ==> w.keys[i].id < s.answer.value.id)
                  && (forall l :: l in w.links ==> l.keyId != s.answer.value.id))
  {
  }

  /** Creating a plan appends exactly the plan answered, with a fresh id, no
      stages and no keys; a nameless request is refused. */
  lemma CreateUsagePlanGrows(svc: Service, w: World, plan: PlanSettings)
    requires Wf(w)
    ensures var s := CreateUsagePlanStep(svc, w, plan);
            && Wf(s.world) && Extends(w, s.world)
            && s.world.calls == w.calls + [Call.CreateUsagePlan(plan)]
            && s.world.keys == w.keys && s.world.links == w.links
            && s.world.plans == w.plans + (if s.answer.Ok? then [s.answer.value] else [])
            && (s.answer.Ok? <==> svc.fails(Call.CreateUsagePlan(plan)).None? && plan.name.Some?)
            && (s.answer.Ok? ==>
                  && Some(s.answer.value.name) == plan.name && s.answer.value.apiStages == []
                  && s.answer.value.quota == plan.quota && s.answer.value.throttle == plan.throttle
                  && (forall i :: 0 <= i < |w.plans| ==> w.plans[i].id < s.answer.value.id)
                  && (forall l :: l in w.links ==> l.usagePlanId != s.answer.value.id))
  {
  }

  /** Linking adds exactly the one link asked for, and does so exactly when
      the request is accepted, both ends exist and the link is new. */
  lemma CreateUsagePlanKeyGrows(svc: Service, w: World, keyId: nat, keyType: string, usagePlanId: nat)
    requires Wf(w)
    ensures var s := CreateUsagePlanKeyStep(svc, w, keyId, keyType, usagePlanId);
            && Wf(s.world) && Extends(w, s.world)
            && s.world.calls == w.calls + [Call.CreateUsagePlanKey(keyId, keyType, usagePlanId)]
            && s.world.keys == w.keys && s.world.plans == w.plans && s.world.nextId == w.nextId
            && s.world.links == w.links + (if s.answer.Pass? then [Link(usagePlanId, keyId)] else [])
            && (s.answer.Pass? <==>
                  && svc.fails(Call.CreateUsagePlanKey(keyId, keyType, usagePlanId)).None? && keyType == "API_KEY"
                  && PlanWithId(w.plans, usagePlanId).Some? && KeyWithId(w.keys, keyId).Some?
                  && Link(usagePlanId, keyId) !in w.links)
  {
    var s := CreateUsagePlanKeyStep(svc, w, keyId, keyType, usagePlanId);
    if s.answer.Pass? {
      var p := PlanWithId(w.plans, usagePlanId).value;
      var k := KeyWithId(w.keys, keyId).value;
      assert w.plans[p].id < w.nextId && w.keys[k].id < w.nextId;
    }
  }

  /** Attaching a stage keeps every plan where it is, with its id, name and
      stages; an accepted patch leaves its stage on the plan. */
  lemma UpdateUsagePlanGrows(svc: Service, w: World, usagePlanId: nat, ops: seq<PatchOperation>)
    requires Wf(w)
    ensures var s := UpdateUsagePlanStep(svc, w, usagePlanId, ops);
            && Wf(s.world) && Extends(w, s.world)
            && s.world.calls == w.calls + [Call.UpdateUsagePlan(usagePlanId, ops)]
            && s.world.keys == w.keys && s.world.links == w.links && s.world.nextId == w.nextId
            && |s.world.plans| == |w.plans|
            && (s.answer.Fail? ==> s.world.plans == w.plans)
            && (s.answer.Pass? ==>
                  && IsStagePatch(ops) && PlanWithId(w.plans, usagePlanId).Some?
                  && ParseApiStage(ops[0].value).value in s.world.plans[PlanWithId(w.plans, usagePlanId).value].apiStages
                  && var i := PlanWithId(w.plans, usagePlanId).value;
                     s.world.plans == w.plans[i := w.plans[i].(apiStages := w.plans[i].apiStages + [ParseApiStage(ops[0].value).value])])
            && (svc.fails(Call.UpdateUsagePlan(usagePlanId, ops)).None? && IsStagePatch(ops)
                && PlanWithId(w.plans, usagePlanId).Some? ==>
                  (s.answer.Pass? <==> ParseApiStage(ops[0].value).value !in w.plans[PlanWithId(w.plans, usagePlanId).value].apiStages))
  {
    var c := Call.UpdateUsagePlan(usagePlanId, ops);
    if svc.fails(c).None? && IsStagePatch(ops) && PlanWithId(w.plans, usagePlanId).Some? {
      var i := PlanWithId(w.plans, usagePlanId).value;
      var st := ParseApiStage(ops[0].value).value;
      if st !in w.plans[i].apiStages {
        StageAdded(w, i, st);
      }
    }
  }

  /** Appending a stage to one plan keeps every plan's id, name and stages. */
  lemma StageAdded(w: World, i: nat, st: ApiStage)
    requires Wf(w) && i < |w.plans|
    ensures var plans := w.plans[i := w.plans[i].(apiStages := w.plans[i].apiStages + [st])];
            && PlanIdsIncrease(plans)
            && (forall j :: 0 <= j < |plans| ==> plans[j].id < w.nextId)
            && (forall j :: 0 <= j < |w.plans| ==> PlanGrown(w.plans[j], plans[j]))
            && st in plans[i].apiStages
  {
    var plans := w.plans[i := w.plans[i].(apiStages := w.plans[i].apiStages + [st])];
    forall j | 0 <= j < |plans| ensures plans[j].id == w.plans[j].id {
    }
  }

  /** Removing the plan at `i` keeps ids increasing and removes exactly the
      plan with that id. */
  lemma PlansWithout(plans: seq<UsagePlan>, i: nat)
    requires PlanIdsIncrease(plans) && i < |plans|
    ensures PlanIdsIncrease(plans[..i] + plans[i + 1..])
    ensures forall p :: p in plans[..i] + plans[i + 1..] <==> p in plans && p.id != plans[i].id
  {
    var r := plans[..i] + plans[i + 1..];
    forall j | 0 < j < |r| ensures r[j - 1].id < r[j].id {
      if j < i {
        assert r[j - 1] == plans[j - 1] && r[j] == plans[j];
      } else if j == i {
        assert r[j - 1] == plans[j - 1] && r[j] == plans[j + 1];
        PlanIdsOrdered(plans, j - 1, j + 1);
      } else {
        assert r[j - 1] == plans[j] && r[j] == plans[j + 1];
      }
    }
    assert plans == plans[..i] + [plans[i]] + plans[i + 1..];
    forall p | p in r ensures p.id != plans[i].id {
      var j :| 0 <= j < |r| && r[j] == p;
      if j < i {
        assert p == plans[j];
        PlanIdsOrdered(plans, j, i);
      } else {
        assert p == plans[j + 1];
        PlanIdsOrdered(plans, i, j + 1);
      }
    }
  }

  /** Removing the key at `i` keeps ids increasing and removes exactly the
      key with that id. */
  lemma KeysWithout(keys: seq<ApiKey>, i: nat)
    requires KeyIdsIncrease(keys) && i < |keys|
    ensures KeyIdsIncrease(keys[..i] + keys[i + 1..])
    ensures forall k :: k in keys[..i] + keys[i + 1..] <==> k in keys && k.id != keys[i].id
  {
    var r := keys[..i] + keys[i + 1..];
    forall j | 0 < j < |r| ensures r[j - 1].id < r[j].id {
      if j < i {
        assert r[j - 1] == keys[j - 1] && r[j] == keys[j];
      } else if j == i {
        assert r[j - 1] == keys[j - 1] && r[j] == keys[j + 1];
        KeyIdsOrdered(keys, j - 1, j + 1);
      } else {
        assert r[j - 1] == keys[j] && r[j] == keys[j + 1];
      }
    }
    assert keys == keys[..i] + [keys[i]] + keys[i + 1..];
    forall k | k in r ensures k.id != keys[i].id {
      var j :| 0 <= j < |r| && r[j] == k;
      if j < i {
        assert k == keys[j];
        KeyIdsOrdered(keys, j, i);
      } else {
        assert k == keys[j + 1];
        KeyIdsOrdered(keys, i, j + 1);
      }
    }
  }

  /** Deleting a plan removes exactly the plan with that id and its links,
      when it exists and the request is accepted; nothing else changes. */
  lemma DeleteUsagePlanShrinks(svc: Service, w: World, usagePlanId: nat)
    requires Wf(w)
    ensures var s := DeleteUsagePlanStep(svc, w, usagePlanId);
            && Wf(s.world)
            && s.world.calls == w.calls + [Call.DeleteUsagePlan(usagePlanId)]
            && s.world.keys == w.keys && s.world.nextId == w.nextId
            && (s.answer.Pass? <==> svc.fails(Call.DeleteUsagePlan(usagePlanId)).None? && PlanWithId(w.plans, usagePlanId).Some?)
            && (s.answer.Fail? ==> s.world.plans == w.plans && s.world.links == w.links)
            && (s.answer.Pass? ==>
                  && |s.world.plans| == |w.plans| - 1
                  && (forall p :: p in s.world.plans <==> p in w.plans && p.id != usagePlanId)
                  && (forall l :: l in s.world.links <==> l in w.links && l.usagePlanId != usagePlanId))
  {
    var s := DeleteUsagePlanStep(svc, w, usagePlanId);
    if s.answer.Pass? {
      PlansWithout(w.plans, PlanWithId(w.plans, usagePlanId).value);
    }
  }

  /** Deleting a key removes exactly the key with that id and its links,
      when it exists and the request is accepted; nothing else changes. */
  lemma DeleteApiKeyShrinks(svc: Service, w: World, apiKey: nat)
    requires Wf(w)
    ensures var s := DeleteApiKeyStep(svc, w, apiKey);
            && Wf(s.world)
            && s.world.calls == w.calls + [Call.DeleteApiKey(apiKey)]
            && s.world.plans == w.plans && s.world.nextId == w.nextId
            && (s.answer.Pass? <==> svc.fails(Call.DeleteApiKey(apiKey)).None? && KeyWithId(w.keys, apiKey).Some?)
            && (s.answer.Fail? ==> s.world.keys == w.keys && s.world.links == w.links)
            && (s.answer.Pass? ==>
                  && |s.world.keys| == |w.keys| - 1
                  && (forall k :: k in s.world.keys <==> k in w.keys && k.id != apiKey)
                  && (forall l :: l in s.world.links <==> l in w.links && l.keyId != apiKey))
  {
    var s := DeleteApiKeyStep(svc, w, apiKey);
    if s.answer.Pass? {
      KeysWithout(w.keys, KeyWithId(w.keys, apiKey).value);
    }
  }
}
