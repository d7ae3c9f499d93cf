/** The remote API Gateway management service, as far as the plugin uses it:
    API keys, usage plans, the links between them (usage-plan keys) and the
    REST API stages attached to each plan; the queries the plugin and the
    service make over them; and the whole state of the service as a value,
    `World`, together with the log of the requests it received. */
module Remote {
  import opened Common

  datatype ApiKey = ApiKey(id: nat, name: string, value: string, enabled: bool)

  datatype Quota = Quota(limit: int, offset: int, period: string)
  datatype Throttle = Throttle(burstLimit: int, rateLimit: int)

  /** The body of a createUsagePlan request; also the shape of a usage-plan
      template in the configuration. */
  datatype PlanSettings = PlanSettings(name: Option<string>, quota: Option<Quota>, throttle: Option<Throttle>)

  const EmptySettings := PlanSettings(None, None, None)

  datatype ApiStage = ApiStage(apiId: string, stage: string)

  datatype UsagePlan = UsagePlan(
    id: nat, name: string, quota: Option<Quota>, throttle: Option<Throttle>, apiStages: seq<ApiStage>)

  /** A key linked to a plan (what createUsagePlanKey records). */
  datatype Link = Link(usagePlanId: nat, keyId: nat)

  /** One item of a getUsagePlanKeys page. */
  datatype PlanKeyItem = PlanKeyItem(id: nat, keyType: string)

  /** One page of a listing; `position` is the continuation token, here the
      offset of the next page, absent on the last page. */
  datatype Page<T> = Page(items: seq<T>, position: Option<nat>)

  datatype PatchOperation = PatchOperation(op: string, path: string, value: string)

  /** The requests the plugin sends, with their parameters. */
  datatype Call =
    | GetApiKeys(position: Option<nat>)
    | GetUsagePlans(position: Option<nat>)
    | GetUsagePlanKeys(usagePlanId: nat, position: Option<nat>)
    | CreateApiKey(name: string, enabled: bool, value: Option<string>)
    | CreateUsagePlan(plan: PlanSettings)
    | CreateUsagePlanKey(keyId: nat, keyType: string, usagePlanId: nat)
    | UpdateUsagePlan(usagePlanId: nat, patchOperations: seq<PatchOperation>)
    | DeleteUsagePlan(usagePlanId: nat)
    | DeleteApiKey(apiKey: nat)
  {
    predicate IsRead()
    {
      GetApiKeys? || GetUsagePlans? || GetUsagePlanKeys?
    }
  }

  /** The three paginated listings. */
  datatype Listing = ApiKeys | UsagePlans | PlanKeys(usagePlanId: nat)

  function RequestFor(l: Listing, position: Option<nat>): (c: Call)
    ensures c.IsRead()
  {
    match l
    case ApiKeys => Call.GetApiKeys(position)
    case UsagePlans => Call.GetUsagePlans(position)
    case PlanKeys(id) => Call.GetUsagePlanKeys(id, position)
  }

  predicate AllReads(cs: seq<Call>)
  {
    forall i :: 0 <= i < |cs| ==> cs[i].IsRead()
  }

  /** The three things the add path may create. */
  datatype Creation = KeyCreation | PlanCreation | LinkCreation

  predicate Creates(c: Call, k: Creation)
  {
    match k
    case KeyCreation => c.CreateApiKey?
    case PlanCreation => c.CreateUsagePlan?
    case LinkCreation => c.CreateUsagePlanKey?
  }

  /** No request in `cs` creates a thing of kind `k`. */
  predicate SendsNo(cs: seq<Call>, k: Creation)
  {
    forall i :: 0 <= i < |cs| ==> !Creates(cs[i], k)
  }

  /** Requests sent in two stretches create no `k` when neither stretch does. */
  lemma SendsNoChain(a: seq<Call>, b: seq<Call>, c: seq<Call>, k: Creation)
    requires a <= b <= c && SendsNo(b[|a|..], k) && SendsNo(c[|b|..], k)
    ensures SendsNo(c[|a|..], k)
  {
    forall i | 0 <= i < |c| - |a| ensures !Creates(c[|a|..][i], k) {
      if |a| + i < |b| {
        assert c[|a|..][i] == b[|a|..][i];
      } else {
        assert c[|a|..][i] == c[|b|..][|a| + i - |b|];
      }
    }
  }

  function Offset(position: Option<nat>): nat
  {
    if position.Some? then position.value else 0
  }

  /** The page the service returns for a request at `position`, `size` items at a time. */
  function PageOf<T>(all: seq<T>, size: nat, position: Option<nat>): (p: Page<T>)
    requires size > 0
    ensures p.position.Some? ==> Offset(position) < p.position.value < |all|
    ensures |p.items| <= size
  {
    var start := Offset(position);
    if start >= |all| then Page([], None)
    else if start + size < |all| then Page(all[start..start + size], Some(start + size))
    else Page(all[start..], None)
  }

  /** Pages are consecutive: a page's items followed by everything from the
      next position are everything from this one. */
  lemma PageCovers<T>(all: seq<T>, size: nat, position: Option<nat>)
    requires size > 0 && Offset(position) <= |all|
    ensures var p := PageOf(all, size, position);
            all[Offset(position)..] == p.items + (if p.position.Some? then all[p.position.value..] else [])
  {
    var start := Offset(position);
    if start < |all| && start + size < |all| {
      assert all[start..] == all[start..start + size] + all[start + size..];
    }
  }

  /** Prepends the items already fetched to the outcome of the rest of a listing. */
  function Prepend<T>(items: seq<T>, rest: Result<seq<T>>): Result<seq<T>>
  {
    match rest
    case Ok(more) => Ok(items + more)
    case Err(e) => Err(e)
  }

  /** The index of the first key called `name`. */
  function KeyIndex(keys: seq<ApiKey>, name: string): (r: Option<nat>)
    ensures r.Some? ==> r.value < |keys| && keys[r.value].name == name
    ensures r.Some? ==> forall j :: 0 <= j < r.value ==> keys[j].name != name
    ensures r.None? ==> forall j :: 0 <= j < |keys| ==> keys[j].name != name
    decreases |keys|
  {
    if keys == [] then None
    else if keys[0].name == name then Some(0)
    else match KeyIndex(keys[1..], name)
      case None => None
      case Some(i) => Some(i + 1)
  }

  /** The index of the first plan called `name`. */
  function PlanIndex(plans: seq<UsagePlan>, name: string): (r: Option<nat>)
    ensures r.Some? ==> r.value < |plans| && plans[r.value].name == name
    ensures r.Some? ==> forall j :: 0 <= j < r.value ==> plans[j].name != name
    ensures r.None? ==> forall j :: 0 <= j < |plans| ==> plans[j].name != name
    decreases |plans|
  {
    if plans == [] then None
    else if plans[0].name == name then Some(0)
    else match PlanIndex(plans[1..], name)
      case None => None
      case Some(i) => Some(i + 1)
  }

  /** `keys.find(k => k.name === name)` */
  function FindKey(keys: seq<ApiKey>, name: string): (r: Option<ApiKey>)
  {
    match KeyIndex(keys, name)
    case Some(i) => Some(keys[i])
    case None => None
  }

  /** `plans.find(p => p.name === name)` */
  function FindPlan(plans: seq<UsagePlan>, name: string): (r: Option<UsagePlan>)
  {
    match PlanIndex(plans, name)
    case Some(i) => Some(plans[i])
    case None => None
  }

  /** The keys linked to plan `planId`, in link order, as getUsagePlanKeys lists them. */
  function KeysOfPlan(links: seq<Link>, planId: nat): (r: seq<PlanKeyItem>)
    ensures forall it :: it in r ==> it.keyType == "API_KEY" && Link(planId, it.id) in links
    ensures forall l :: l in links && l.usagePlanId == planId ==> PlanKeyItem(l.keyId, "API_KEY") in r
  {
    if links == [] then []
    else
      var rest := KeysOfPlan(links[1..], planId);
      assert forall l :: l in links[1..] ==> l in links;
      if links[0].usagePlanId == planId then [PlanKeyItem(links[0].keyId, "API_KEY")] + rest else rest
  }

  /** `existingKeys.some(key => key.id === apiKeyId)` */
  predicate HasKeyId(items: seq<PlanKeyItem>, keyId: nat)
  {
    exists i :: 0 <= i < |items| && items[i].id == keyId
  }

  /** A key is among the listed keys of a plan exactly when the two are linked. */
  lemma KeysOfPlanMembership(links: seq<Link>, planId: nat, keyId: nat)
    ensures HasKeyId(KeysOfPlan(links, planId), keyId) <==> Link(planId, keyId) in links
  {
    var items := KeysOfPlan(links, planId);
    if Link(planId, keyId) in links {
      var i :| 0 <= i < |items| && items[i] == PlanKeyItem(keyId, "API_KEY");
    }
    if HasKeyId(items, keyId) {
      var i :| 0 <= i < |items| && items[i].id == keyId;
      assert items[i] in items;
    }
  }

  /** The links that survive deleting plan `planId`. */
  function LinksWithoutPlan(links: seq<Link>, planId: nat): (r: seq<Link>)
    ensures forall l :: l in r <==> l in links && l.usagePlanId != planId
  {
    if links == [] then []
    else
      var rest := LinksWithoutPlan(links[1..], planId);
      assert forall l :: l in links <==> l == links[0] || l in links[1..];
      if links[0].usagePlanId == planId then rest else [links[0]] + rest
  }

  /** The links that survive deleting key `keyId`. */
  function LinksWithoutKey(links: seq<Link>, keyId: nat): (r: seq<Link>)
    ensures forall l :: l in r <==> l in links && l.keyId != keyId
  {
    if links == [] then []
    else
      var rest := LinksWithoutKey(links[1..], keyId);
      assert forall l :: l in links <==> l == links[0] || l in links[1..];
      if links[0].keyId == keyId then rest else [links[0]] + rest
  }

  /** Reads the value of an `add /apiStages` patch, `apiId:stage`, splitting at the first colon. */
  function ParseApiStage(value: string): (r: Option<ApiStage>)
    ensures r.Some? ==> value == r.value.apiId + ":" + r.value.stage && ':' !in r.value.apiId
    ensures r.None? <==> ':' !in value
  {
    match IndexOf(value, ':')
    case None => None
    case Some(i) =>
      assert value == value[..i] + ":" + value[i + 1..];
      Some(ApiStage(value[..i], value[i + 1..]))
  }

  /** Writing a stage as a patch value and reading it back gives the same stage. */
  lemma ApiStageRoundTrip(s: ApiStage)
    requires ':' !in s.apiId
    ensures ParseApiStage(s.apiId + ":" + s.stage) == Some(s)
  {
    var v := s.apiId + ":" + s.stage;
    assert v[|s.apiId|] == ':' && v[..|s.apiId|] == s.apiId;
    var r := ParseApiStage(v);
    assert r.Some?;
    assert v[|s.apiId| + 1..] == s.stage;
  }

  /** The index of the plan whose id is `id`. */
  function PlanWithId(plans: seq<UsagePlan>, id: nat): (r: Option<nat>)
    ensures r.Some? ==> r.value < |plans| && plans[r.value].id == id
    ensures r.None? ==> forall j :: 0 <= j < |plans| ==> plans[j].id != id
    decreases |plans|
  {
    if plans == [] then None
    else if plans[0].id == id then Some(0)
    else match PlanWithId(plans[1..], id)
      case None => None
      case Some(i) => Some(i + 1)
  }

  /** The index of the key whose id is `id`. */
  function KeyWithId(keys: seq<ApiKey>, id: nat): (r: Option<nat>)
    ensures r.Some? ==> r.value < |keys| && keys[r.value].id == id
    ensures r.None? ==> forall j :: 0 <= j < |keys| ==> keys[j].id != id
    decreases |keys|
  {
    if keys == [] then None
    else if keys[0].id == id then Some(0)
    else match KeyWithId(keys[1..], id)
      case None => None
      case Some(i) => Some(i + 1)
  }

  /** Attaching stages keeps every plan where it was, under the same id. */
  lemma {:induction false} PlanWithIdKept(before: seq<UsagePlan>, after: seq<UsagePlan>, id: nat)
    requires |before| == |after| && forall j :: 0 <= j < |before| ==> PlanGrown(before[j], after[j])
    ensures PlanWithId(after, id) == PlanWithId(before, id)
    decreases |before|
  {
    if before != [] {
      assert PlanGrown(before[0], after[0]);
      PlanWithIdKept(before[1..], after[1..], id);
    }
  }

  /** Appending a key called `name` makes it the first such key unless one exists. */
  lemma KeyIndexAppend(keys: seq<ApiKey>, k: ApiKey, name: string)
    ensures KeyIndex(keys, name).Some? ==> KeyIndex(keys + [k], name) == KeyIndex(keys, name)
    ensures KeyIndex(keys, name).None? && k.name == name ==> KeyIndex(keys + [k], name) == Some(|keys|)
  {
    forall j | 0 <= j < |keys| ensures (keys + [k])[j] == keys[j] {
    }
    assert (keys + [k])[|keys|] == k;
  }

  /** Appending a plan called `name` makes it the first such plan unless one exists. */
  lemma PlanIndexAppend(plans: seq<UsagePlan>, p: UsagePlan, name: string)
    ensures PlanIndex(plans, name).Some? ==> PlanIndex(plans + [p], name) == PlanIndex(plans, name)
    ensures PlanIndex(plans, name).None? && p.name == name ==> PlanIndex(plans + [p], name) == Some(|plans|)
  {
    forall j | 0 <= j < |plans| ensures (plans + [p])[j] == plans[j] {
    }
    assert (plans + [p])[|plans|] == p;
  }

  /** Attaching stages leaves which plan is found first by name unchanged. */
  lemma PlanIndexKept(before: seq<UsagePlan>, after: seq<UsagePlan>, name: string)
    requires |before| == |after| && forall j :: 0 <= j < |before| ==> PlanGrown(before[j], after[j])
    ensures PlanIndex(after, name) == PlanIndex(before, name)
  {
    var r := PlanIndex(after, name);
    var q := PlanIndex(before, name);
    if r.Some? {
      assert PlanGrown(before[r.value], after[r.value]);
      forall j | 0 <= j < r.value ensures before[j].name != name {
        assert PlanGrown(before[j], after[j]);
      }
    }
    if q.Some? {
      assert PlanGrown(before[q.value], after[q.value]);
      forall j | 0 <= j < q.value ensures after[j].name != name {
        assert PlanGrown(before[j], after[j]);
      }
    }
  }

  /** Each key's id is larger than the one before it (the service hands out ids in order). */
  predicate KeyIdsIncrease(keys: seq<ApiKey>)
  {
    forall i :: 0 < i < |keys| ==> keys[i - 1].id < keys[i].id
  }

  /** Each plan's id is larger than the one before it. */
  predicate PlanIdsIncrease(plans: seq<UsagePlan>)
  {
    forall i :: 0 < i < |plans| ==> plans[i - 1].id < plans[i].id
  }

  /** Ids that increase step by step increase overall. */
  lemma {:induction false} KeyIdsOrdered(keys: seq<ApiKey>, a: nat, b: nat)
    requires KeyIdsIncrease(keys) && a < b < |keys|
    ensures keys[a].id < keys[b].id
    decreases b - a
  {
    if a + 1 < b {
      KeyIdsOrdered(keys, a, b - 1);
    }
  }

  /** Ids that increase step by step increase overall. */
  lemma {:induction false} PlanIdsOrdered(plans: seq<UsagePlan>, a: nat, b: nat)
    requires PlanIdsIncrease(plans) && a < b < |plans|
    ensures plans[a].id < plans[b].id
    decreases b - a
  {
    if a + 1 < b {
      PlanIdsOrdered(plans, a, b - 1);
    }
  }

  /** With strictly increasing ids, the plan at index `i` is the one found by its id. */
  lemma PlanAtItsId(plans: seq<UsagePlan>, i: nat)
    requires i < |plans|
    requires PlanIdsIncrease(plans)
    ensures PlanWithId(plans, plans[i].id) == Some(i)
  {
    var r := PlanWithId(plans, plans[i].id).value;
    if r < i {
      PlanIdsOrdered(plans, r, i);
    } else if i < r {
      PlanIdsOrdered(plans, i, r);
    }
  }

  /** With strictly increasing ids, the key at index `i` is the one found by its id. */
  lemma KeyAtItsId(keys: seq<ApiKey>, i: nat)
    requires i < |keys|
    requires KeyIdsIncrease(keys)
    ensures KeyWithId(keys, keys[i].id) == Some(i)
  {
    var r := KeyWithId(keys, keys[i].id).value;
    if r < i {
      KeyIdsOrdered(keys, r, i);
    } else if i < r {
      KeyIdsOrdered(keys, i, r);
    }
  }


  /** Everything the service holds, with the log of the requests it received. */
  datatype World = World(keys: seq<ApiKey>, plans: seq<UsagePlan>, links: seq<Link>, nextId: nat, calls: seq<Call>)

  /** The service's own bookkeeping: ids are handed out in increasing order
      and every id in use was handed out before `nextId`. */
  predicate Wf(w: World)
  {
    && (forall i :: 0 <= i < |w.keys| ==> w.keys[i].id < w.nextId)
    && KeyIdsIncrease(w.keys)
    && (forall i :: 0 <= i < |w.plans| ==> w.plans[i].id < w.nextId)
    && PlanIdsIncrease(w.plans)
    && (forall l :: l in w.links ==> l.usagePlanId < w.nextId && l.keyId < w.nextId)
  }

  /** `q` is `p` with possibly more stages attached. */
  predicate PlanGrown(p: UsagePlan, q: UsagePlan)
  {
    q.id == p.id && q.name == p.name && forall s :: s in p.apiStages ==> s in q.apiStages
  }

  /** `t` is reachable from `s` by creating keys, plans and links, attaching
      stages and sending requests: nothing is removed, renamed or reordered. */
  predicate Extends(s: World, t: World)
  {
    && s.keys <= t.keys
    && |s.plans| <= |t.plans|
    && (forall i :: 0 <= i < |s.plans| ==> PlanGrown(s.plans[i], t.plans[i]))
    && (forall l :: l in s.links ==> l in t.links)
    && s.calls <= t.calls
  }

  /** `t` differs from `s` only by requests that read. */
  predicate ReadsOnly(s: World, t: World)
  {
    && t.keys == s.keys && t.plans == s.plans && t.links == s.links && t.nextId == s.nextId
    && s.calls <= t.calls && AllReads(t.calls[|s.calls|..])
  }

  /** The goal of the add path for one declared key: the first key with
      that name exists, the first plan with the plan name exists, the two
      are linked, and the plan carries the REST API stage. */
  predicate Reconciled(w: World, keyName: string, planName: string, api: ApiStage)
  {
    match (KeyIndex(w.keys, keyName), PlanIndex(w.plans, planName))
    case (Some(k), Some(p)) => Link(w.plans[p].id, w.keys[k].id) in w.links && api in w.plans[p].apiStages
    case _ => false
  }

  /** Growth composes. */
  lemma ExtendsTransitive(s: World, t: World, u: World)
    requires Extends(s, t) && Extends(t, u)
    ensures Extends(s, u)
  {
    forall i | 0 <= i < |s.plans| ensures PlanGrown(s.plans[i], u.plans[i]) {
      assert PlanGrown(s.plans[i], t.plans[i]) && PlanGrown(t.plans[i], u.plans[i]);
    }
  }

  /** Reading composes. */
  lemma ReadsOnlyTransitive(s: World, t: World, u: World)
    requires ReadsOnly(s, t) && ReadsOnly(t, u)
    ensures ReadsOnly(s, u)
  {
    var a: seq<Call>, b: seq<Call> := t.calls[|s.calls|..], u.calls[|t.calls|..];
    assert u.calls[|s.calls|..] == a + b;
    forall i | 0 <= i < |a + b| ensures (a + b)[i].IsRead() {
      if i < |a| {
        assert (a + b)[i] == a[i];
      } else {
        assert (a + b)[i] == b[i - |a|];
      }
    }
  }

  /** Once reached, the goal survives every later growth of the service's state. */
  lemma ReconciledPersists(s: World, t: World, keyName: string, planName: string, api: ApiStage)
    requires Reconciled(s, keyName, planName, api)
    requires Extends(s, t)
    ensures Reconciled(t, keyName, planName, api)
  {
    var k := KeyIndex(s.keys, keyName).value;
    var p := PlanIndex(s.plans, planName).value;
    assert t.keys[k] == s.keys[k];
    forall j | 0 <= j < k ensures t.keys[j].name != keyName {
      assert t.keys[j] == s.keys[j];
    }
    assert KeyIndex(t.keys, keyName) == Some(k);
    assert PlanGrown(s.plans[p], t.plans[p]);
    forall j | 0 <= j < p ensures t.plans[j].name != planName {
      assert PlanGrown(s.plans[j], t.plans[j]);
    }
    assert PlanIndex(t.plans, planName) == Some(p);
  }
}
