/** The paginated listers and the find-by-name lookups of src/helper.js:
    each lister keeps requesting pages, passing back the returned position,
    until a page comes without one; a lookup then picks the first item with
    exactly the wanted name. */
module Lookup {
  import opened Common
  import opened Remote
  import opened Steps
  import opened Gateway

  /** Every API key, page by page. */
  method ListApiKeys(ag: ApiGateway) returns (r: Result<seq<ApiKey>>)
    requires ag.Valid()
    modifies ag`calls
    ensures Step(ag.Now(), r) == ListStep(ag.svc, old(ag.Now()), ApiKeys, old(ag.keys))
  {
    var position: Option<nat> := None;
    var keys: seq<ApiKey> := [];
    ghost var all := ag.keys;
    PrependNothing(Drain(ag.svc, all, ApiKeys, None));
    ghost var total := Drain(ag.svc, all, ApiKeys, None);
    ghost var totalCalls := DrainCalls(ag.svc, all, ApiKeys, None);
    ghost var sent: seq<Call> := [];
    while true
      invariant position.Some? ==> 0 < position.value < |all|
      invariant total == Prepend(keys, Drain(ag.svc, all, ApiKeys, position))
      invariant ag.calls == old(ag.calls) + sent
      invariant totalCalls == sent + DrainCalls(ag.svc, all, ApiKeys, position)
      decreases |all| - Offset(position)
    {
      var resp := ag.GetApiKeys(position);
      if resp.Err? {
        Rejected(ag.svc, all, ApiKeys, position, keys, sent);
        assert ag.calls == old(ag.calls) + totalCalls;
        return Err(resp.error);
      }
      Advance(ag.svc, all, ApiKeys, position, keys);
      AdvanceCalls(ag.svc, all, ApiKeys, position, sent);
      sent := sent + [RequestFor(ApiKeys, position)];
      keys := keys + resp.value.items;
      if resp.value.position.Some? {
        position := resp.value.position;
      } else {
        assert ag.calls == old(ag.calls) + totalCalls;
        return Ok(keys);
      }
    }
  }

  /** Every usage plan, page by page. */
  method ListUsagePlans(ag: ApiGateway) returns (r: Result<seq<UsagePlan>>)
    requires ag.Valid()
    modifies ag`calls
    ensures Step(ag.Now(), r) == ListStep(ag.svc, old(ag.Now()), UsagePlans, old(ag.plans))
  {
    var position: Option<nat> := None;
    var plans: seq<UsagePlan> := [];
    ghost var all := ag.plans;
    PrependNothing(Drain(ag.svc, all, UsagePlans, None));
    ghost var total := Drain(ag.svc, all, UsagePlans, None);
    ghost var totalCalls := DrainCalls(ag.svc, all, UsagePlans, None);
    ghost var sent: seq<Call> := [];
    while true
      invariant position.Some? ==> 0 < position.value < |all|
      invariant total == Prepend(plans, Drain(ag.svc, all, UsagePlans, position))
      invariant ag.calls == old(ag.calls) + sent
      invariant totalCalls == sent + DrainCalls(ag.svc, all, UsagePlans, position)
      decreases |all| - Offset(position)
    {
      var resp := ag.GetUsagePlans(position);
      if resp.Err? {
        Rejected(ag.svc, all, UsagePlans, position, plans, sent);
        assert ag.calls == old(ag.calls) + totalCalls;
        return Err(resp.error);
      }
      Advance(ag.svc, all, UsagePlans, position, plans);
      AdvanceCalls(ag.svc, all, UsagePlans, position, sent);
      sent := sent + [RequestFor(UsagePlans, position)];
      plans := plans + resp.value.items;
      if resp.value.position.Some? {
        position := resp.value.position;
      } else {
        assert ag.calls == old(ag.calls) + totalCalls;
        return Ok(plans);
      }
    }
  }

  /** Every key linked to plan `usagePlanId`, page by page; every failure,
      NotFoundException included, is passed on. */
  method GetUsagePlanKeys(ag: ApiGateway, usagePlanId: nat) returns (r: Result<seq<PlanKeyItem>>)
    requires ag.Valid()
    modifies ag`calls
    ensures Step(ag.Now(), r) == ListStep(ag.svc, old(ag.Now()), PlanKeys(usagePlanId), KeysOfPlan(old(ag.links), usagePlanId))
  {
    var position: Option<nat> := None;
    var planKeys: seq<PlanKeyItem> := [];
    ghost var all := KeysOfPlan(ag.links, usagePlanId);
    PrependNothing(Drain(ag.svc, all, PlanKeys(usagePlanId), None));
    ghost var total := Drain(ag.svc, all, PlanKeys(usagePlanId), None);
    ghost var totalCalls := DrainCalls(ag.svc, all, PlanKeys(usagePlanId), None);
    ghost var sent: seq<Call> := [];
    while true
      invariant position.Some? ==> 0 < position.value < |all|
      invariant total == Prepend(planKeys, Drain(ag.svc, all, PlanKeys(usagePlanId), position))
      invariant ag.calls == old(ag.calls) + sent
      invariant totalCalls == sent + DrainCalls(ag.svc, all, PlanKeys(usagePlanId), position)
      decreases |all| - Offset(position)
    {
      var resp := ag.GetUsagePlanKeys(usagePlanId, position);
      if resp.Err? {
        Rejected(ag.svc, all, PlanKeys(usagePlanId), position, planKeys, sent);
        assert ag.calls == old(ag.calls) + totalCalls;
        return Err(resp.error);
      }
      Advance(ag.svc, all, PlanKeys(usagePlanId), position, planKeys);
      AdvanceCalls(ag.svc, all, PlanKeys(usagePlanId), position, sent);
      sent := sent + [RequestFor(PlanKeys(usagePlanId), position)];
      planKeys := planKeys + resp.value.items;
      if resp.value.position.Some? {
        position := resp.value.position;
      } else {
        assert ag.calls == old(ag.calls) + totalCalls;
        return Ok(planKeys);
      }
    }
  }

  /** A rejected page ends the listing with that rejection, after one more request. */
  lemma Rejected<T>(svc: Service, all: seq<T>, l: Listing, position: Option<nat>, acc: seq<T>, sent: seq<Call>)
    requires svc.pageSize > 0 && svc.fails(RequestFor(l, position)).Some?
    ensures Prepend(acc, Drain(svc, all, l, position)) == Err(svc.fails(RequestFor(l, position)).value)
    ensures sent + DrainCalls(svc, all, l, position) == sent + [RequestFor(l, position)]
  {
  }

  /** An accepted page adds its items to those gathered; the listing goes on
      from the page's position, if any. */
  lemma Advance<T>(svc: Service, all: seq<T>, l: Listing, position: Option<nat>, acc: seq<T>)
    requires svc.pageSize > 0 && svc.fails(RequestFor(l, position)).None?
    ensures var page := PageOf(all, svc.pageSize, position);
            Prepend(acc, Drain(svc, all, l, position))
            == (if page.position.Some? then Prepend(acc + page.items, Drain(svc, all, l, page.position))
                else Ok(acc + page.items))
  {
    var page := PageOf(all, svc.pageSize, position);
    DrainStep(svc, all, l, position);
    if page.position.Some? {
      var rest := Drain(svc, all, l, page.position);
      if rest.Ok? {
        assert acc + (page.items + rest.value) == (acc + page.items) + rest.value;
      }
    }
  }

  /** An accepted page adds its request to those sent; the requests of the
      rest of the listing follow. */
  lemma AdvanceCalls<T>(svc: Service, all: seq<T>, l: Listing, position: Option<nat>, sent: seq<Call>)
    requires svc.pageSize > 0 && svc.fails(RequestFor(l, position)).None?
    ensures var page := PageOf(all, svc.pageSize, position);
            sent + DrainCalls(svc, all, l, position)
            == (sent + [RequestFor(l, position)])
               + (if page.position.Some? then DrainCalls(svc, all, l, page.position) else [])
  {
    var page := PageOf(all, svc.pageSize, position);
    var tail := if page.position.Some? then DrainCalls(svc, all, l, page.position) else [];
    assert DrainCalls(svc, all, l, position) == [RequestFor(l, position)] + tail;
    assert sent + ([RequestFor(l, position)] + tail) == (sent + [RequestFor(l, position)]) + tail;
  }

  lemma PrependNothing<T>(rest: Result<seq<T>>)
    ensures Prepend([], rest) == rest
  {
    if rest.Ok? {
      assert [] + rest.value == rest.value;
    }
  }

  /** The `catch` of getApiKey and getUsagePlan: NotFoundException means
      "absent", every other failure is re-thrown. */
  function CatchNotFound<T>(found: Result<Option<T>>): (r: Result<Option<T>>)
    ensures r.Err? ==> found == r && r.error != NotFoundException
    ensures found.Ok? ==> r == found
    ensures found == Err(NotFoundException) ==> r == Ok(None)
  {
    if found == Err(NotFoundException) then Ok(None) else found
  }

  /** The key `name` as listed: the first key with exactly that name. */
  function KeyLookup(listed: Result<seq<ApiKey>>, name: string): Result<Option<ApiKey>>
  {
    match listed
    case Ok(keys) => Ok(FindKey(keys, name))
    case Err(e) => Err(e)
  }

  /** The plan `name` as listed: the first plan with exactly that name. */
  function PlanLookup(listed: Result<seq<UsagePlan>>, name: string): Result<Option<UsagePlan>>
  {
    match listed
    case Ok(plans) => Ok(FindPlan(plans, name))
    case Err(e) => Err(e)
  }

  /** getApiKey: list every key, then pick the first called `name`. */
  function GetApiKeyStep(svc: Service, w: World, name: string): Step<Result<Option<ApiKey>>>
    requires svc.pageSize > 0
  {
    var listed := ListStep(svc, w, ApiKeys, w.keys);
    Step(listed.world, CatchNotFound(KeyLookup(listed.answer, name)))
  }

  /** getUsagePlan: list every plan, then pick the first called `name`. */
  function GetUsagePlanStep(svc: Service, w: World, name: string): Step<Result<Option<UsagePlan>>>
    requires svc.pageSize > 0
  {
    var listed := ListStep(svc, w, UsagePlans, w.plans);
    Step(listed.world, CatchNotFound(PlanLookup(listed.answer, name)))
  }

  /** The check the add path makes on an existing plan: list its keys, then
      look for `keyId` among them. */
  function PlanHasKeyStep(svc: Service, w: World, usagePlanId: nat, keyId: nat): Step<Result<bool>>
    requires svc.pageSize > 0
  {
    var listed := ListStep(svc, w, PlanKeys(usagePlanId), KeysOfPlan(w.links, usagePlanId));
    Step(listed.world, match listed.answer
                       case Ok(items) => Ok(HasKeyId(items, keyId))
                       case Err(e) => Err(e))
  }

  /** A key lookup only reads; a key it finds is the first key with that name;
      when nothing is rejected it finds exactly that key, or None. */
  lemma GetApiKeyFacts(svc: Service, w: World, name: string)
    requires svc.pageSize > 0
    ensures var s := GetApiKeyStep(svc, w, name);
            && ReadsOnly(w, s.world)
            && (s.answer.Ok? && s.answer.value.Some? ==> s.answer.value == FindKey(w.keys, name))
            && (Healthy(svc) ==> s.answer == Ok(FindKey(w.keys, name)))
  {
    ListFacts(svc, w, ApiKeys, w.keys);
  }

  /** A plan lookup only reads; a plan it finds is the first plan with that
      name; when nothing is rejected it finds exactly that plan, or None. */
  lemma GetUsagePlanFacts(svc: Service, w: World, name: string)
    requires svc.pageSize > 0
    ensures var s := GetUsagePlanStep(svc, w, name);
            && ReadsOnly(w, s.world)
            && (s.answer.Ok? && s.answer.value.Some? ==> s.answer.value == FindPlan(w.plans, name))
            && (Healthy(svc) ==> s.answer == Ok(FindPlan(w.plans, name)))
  {
    ListFacts(svc, w, UsagePlans, w.plans);
  }

  /** The check only reads, and tells exactly whether the plan and the key
      are linked; it can fail only by a rejection. */
  lemma PlanHasKeyFacts(svc: Service, w: World, usagePlanId: nat, keyId: nat)
    requires svc.pageSize > 0
    ensures var s := PlanHasKeyStep(svc, w, usagePlanId, keyId);
            && ReadsOnly(w, s.world)
            && (s.answer.Ok? ==> s.answer.value == (Link(usagePlanId, keyId) in w.links))
            && (Healthy(svc) ==> s.answer.Ok?)
  {
    ListFacts(svc, w, PlanKeys(usagePlanId), KeysOfPlan(w.links, usagePlanId));
    KeysOfPlanMembership(w.links, usagePlanId, keyId);
  }

  method GetApiKey(ag: ApiGateway, name: string) returns (r: Result<Option<ApiKey>>)
    requires ag.Valid()
    modifies ag`calls
    ensures Step(ag.Now(), r) == GetApiKeyStep(ag.svc, old(ag.Now()), name)
  {
    var listed := ListApiKeys(ag);
    r := CatchNotFound(KeyLookup(listed, name));
  }

  method GetUsagePlan(ag: ApiGateway, name: string) returns (r: Result<Option<UsagePlan>>)
    requires ag.Valid()
    modifies ag`calls
    ensures Step(ag.Now(), r) == GetUsagePlanStep(ag.svc, old(ag.Now()), name)
  {
    var listed := ListUsagePlans(ag);
    r := CatchNotFound(PlanLookup(listed, name));
  }

  method PlanHasKey(ag: ApiGateway, usagePlanId: nat, keyId: nat) returns (r: Result<bool>)
    requires ag.Valid()
    modifies ag`calls
    ensures Step(ag.Now(), r) == PlanHasKeyStep(ag.svc, old(ag.Now()), usagePlanId, keyId)
  {
    var existingKeys := GetUsagePlanKeys(ag, usagePlanId);
    if existingKeys.Err? {
      return Err(existingKeys.error);
    }
    r := Ok(HasKeyId(existingKeys.value, keyId));
  }
}
