# serverless-add-api-key, modelled in Dafny

This project models the core of the serverless-add-api-key plugin, found in `src/helper.js` and the older `index.js`. After a deployment, the plugin reconciles the API keys declared for the stage with Amazon API Gateway. For each declared key it:

- decrypts the key's value when it is a KMS ciphertext;
- looks the key and its usage plan up by name, walking every page of the listings;
- creates the key and the plan when they are missing;
- links the key to the plan unless it is already linked;
- adds the deployed REST API's `apiId:stage` to the plan's API stages unless it is already there;
- finally lists the keys it created, unless `conceal` is set.

On removal, it deletes each declared key and its plan. A plan that still serves a stage is kept, and so is its key. A protected key ends the run.

How the model is built:

- **The remote service** is a value `World`. It holds:
  - the keys, plans and key–plan links;
  - the next id to assign;
  - the log of calls sent.
- **Each API Gateway request** is a pure step function from one world to the next (module `Steps`).
- **A `Service`** fixes two things:
  - the page size;
  - an arbitrary oracle saying which call fails with which error.
- **The class `Gateway.ApiGateway`** holds the same state as fields. Its methods update those fields in place.
- **The plugin's operations** are methods over that object, in modules `Lookup`, `Requests`, `Provision`, `AddKeys`, `RemoveKeys` and `Legacy`.
  - Each method's `ensures` ties its result and the object's new state to a step function of the old state.
  - Lemmas about those step functions state what the plugin promises.
- **`Wf` (well-formed world):** ids are below the next id, and key and plan ids strictly increase.
- **`Extends`:** nothing is removed and plans only gain stages.
- **`ReadsOnly`:** contents are unchanged and only listing calls are logged.
- **`Shrinks`:** nothing is added.
- **`Reconciled`:** the named key exists, the named plan exists and is linked to it, and the plan serves the deployed stage.

Two places where the code goes further than a plain reading of its intent, modelled as the code does it:

- `deleteAtRemoval` is compared with JavaScript's loose `==`. Besides `false` and `"false"`, the values `""`, `"0"` and `0` also protect a key.
- The remove path calls `getApiKey` without a CLI object (src/helper.js:432). Any lookup failure other than `NotFoundException` therefore surfaces as a `TypeError` from the handler, not as the service error. This is `RemoveKeys.MissingCli`.

## Model

| member | source | states |
|---|---|---|
| Endpoint.HostPart | src/helper.js:192 | the host part is everything before the first dot of the output value: it has no dot, is a prefix of the value, and is either the whole value or followed by a dot |
| Endpoint.EndpointYieldsApiId | src/helper.js:190-194 | an endpoint `scheme//id.rest` yields exactly `id` as the API id |
| Endpoint.DeployedApi | src/helper.js:187-195 | a found API id comes from an existing stack whose ServiceEndpoint output names it, and it contains no `:` |
| Requests.ScanOutputs | src/helper.js:188-195 | the loop over the outputs keeps the last ServiceEndpoint; it finds none exactly when no output has that key |
| Requests.NoEndpointOnlyWhenAbsent | src/helper.js:190-194 | a ServiceEndpoint output always sets the API name (possibly `undefined`), never leaves it `null` |
| Options.ResolveDefaultUsagePlan | src/helper.js:268-272 | the default plan is the empty template or one of the two provider settings |
| Options.DefaultPlanPrecedence | src/helper.js:268-272 | for every provider: `provider.apiGateway.usagePlan` wins over `provider.usagePlan`, which wins over `{}`; no provider gives `{}` |
| Options.PlanNameFor | src/helper.js:312-318 | the plan name is never empty; it is the key's own plan name, the default plan's name, or `<key>-usage-plan` |
| Options.PlanNamePrecedence | src/helper.js:312-318 | each of the three name sources is chosen exactly when the earlier ones are absent or empty |
| Options.TemplateFor | src/helper.js:320 | the template is the key's own plan when it sets a quota or throttle, else the default plan |
| Options.PlanRequest | src/helper.js:139-146 | the create request carries the given name and the template's quota and throttle, or none without a template |
| Options.CreatedPlanForKey | src/helper.js:312-320 | the plan requested for a key is named by PlanNameFor and limited by TemplateFor |
| Options.SelectKeys | src/helper.js:284-285 | a list is used as is, a missing `apiKeys` gives the empty list, a per-stage map gives exactly the list under the stage, and a map without the stage gives nothing iterable |
| Options.StackNameFor | src/helper.js:287 | the stack name is never empty; it is the provider's non-empty `stackName`, otherwise exactly `<service>-<stage>` |
| Options.ResolveValue | src/helper.js:322-331 | a literal value is used as given and an absent one gives no value; an encrypted one is decrypted in its own KMS region, or in the command-line region when that is empty; only decryption can fail |
| Options.ProtectionFlags | src/helper.js:414 | `false` and `"false"` protect a key; unset, `true` and `"true"` do not |
| Options.FirstProtected | src/helper.js:404-418 | the index of the first protected key, with no protected key before it; none when no key is protected |
| Remote.RequestFor | src/helper.js:19-23 | every listing request is a read |
| Remote.PageOf | src/helper.js:25-27 | a page holds at most the page size, and its continuation position moves strictly forward within the listing |
| Remote.PageCovers | src/helper.js:18-30 | a page followed by the rest of the listing from its position is the listing from the requested position |
| Remote.KeyIndex | src/helper.js:31 | `find` by name: the first key with the name, or none when no key has it |
| Remote.PlanIndex | src/helper.js:66 | `find` by name: the first plan with the name, or none when no plan has it |
| Remote.KeysOfPlan | src/helper.js:90-92 | a plan's key listing holds exactly the API_KEY items of that plan's links |
| Remote.KeysOfPlanMembership | src/helper.js:366 | `existingKeys.some(key => key.id === apiKeyId)` holds exactly when the key is linked to the plan |
| Remote.LinksWithoutPlan | src/helper.js:247 | deleting a plan keeps exactly the links of other plans |
| Remote.LinksWithoutKey | src/helper.js:261 | deleting a key keeps exactly the links of other keys |
| Remote.ParseApiStage | src/helper.js:206 | an `apiId:stage` value splits at its first colon; it has no parse exactly when it has no colon |
| Remote.ApiStageRoundTrip | src/helper.js:196-206 | parsing the written `apiId:stage` value gives back the stage compared against at line 196 |
| Remote.ReconciledPersists | src/helper.js:333-375 | a reconciled key stays reconciled while the world only grows |
| Steps.DrainComplete | src/helper.js:14-31 | a listing walk that succeeds returns every item from its starting position |
| Steps.DrainHealthy | src/helper.js:14-31 | when no call fails, the listing walk succeeds |
| Steps.DrainCallsRead | src/helper.js:14-31 | a listing walk sends only read requests |
| Steps.ListFacts | src/helper.js:14-31 | listing changes nothing; when it succeeds it yields the whole collection, and it always does when no call fails |
| Steps.CreateApiKeyGrows | src/helper.js:122 | creating a key appends exactly one key with the requested name and enabled flag, the value if one is sent, and a fresh id in no link; it succeeds exactly when the call does not fail |
| Steps.CreateUsagePlanGrows | src/helper.js:146 | creating a plan appends one plan with the requested name, quota and throttle, no stages and a fresh id; it fails without a name or when the call fails |
| Steps.CreateUsagePlanKeyGrows | src/helper.js:169 | a link is added exactly when the key and plan exist, the type is API_KEY, they are not linked yet, and the call does not fail |
| Steps.UpdateUsagePlanGrows | src/helper.js:210 | an accepted stage patch appends its stage to exactly the plan with that id and leaves every other plan, key and link as it was; adding a stage already there is rejected |
| Steps.DeleteUsagePlanShrinks | src/helper.js:247 | deleting an existing plan removes it and its links only; otherwise nothing changes |
| Steps.DeleteApiKeyShrinks | src/helper.js:261 | deleting an existing key removes it and its links only; otherwise nothing changes |
| Gateway.ApiGateway.constructor | src/helper.js:289-293 | the client starts on the given service and world |
| Gateway.ApiGateway.GetApiKeys | src/helper.js:20-22 | one page of keys, as PageStep gives it; only the call log changes |
| Gateway.ApiGateway.GetUsagePlans | src/helper.js:55-57 | one page of plans, as PageStep gives it; only the call log changes |
| Gateway.ApiGateway.GetUsagePlanKeys | src/helper.js:90-92 | one page of a plan's keys, as PageStep gives it; only the call log changes |
| Gateway.ApiGateway.CreateApiKey | src/helper.js:122 | the new state and result are those of CreateApiKeyStep, and the invariant is kept |
| Gateway.ApiGateway.CreateUsagePlan | src/helper.js:146 | the new state and result are those of CreateUsagePlanStep, and the invariant is kept |
| Gateway.ApiGateway.CreateUsagePlanKey | src/helper.js:169 | the new state and result are those of CreateUsagePlanKeyStep, and the invariant is kept |
| Gateway.ApiGateway.UpdateUsagePlan | src/helper.js:210 | the new state and result are those of UpdateUsagePlanStep, and the invariant is kept |
| Gateway.ApiGateway.DeleteUsagePlan | src/helper.js:245-252 | the new state and result are those of DeleteUsagePlanStep, and the invariant is kept |
| Gateway.ApiGateway.DeleteApiKey | src/helper.js:259-266 | the new state and result are those of DeleteApiKeyStep, and the invariant is kept |
| Lookup.ListApiKeys | src/helper.js:13-31 | the pagination loop returns what ListStep gives: all keys, or the first failure; only reads are logged |
| Lookup.ListUsagePlans | src/helper.js:48-66 | the pagination loop returns what ListStep gives: all plans, or the first failure; only reads are logged |
| Lookup.GetUsagePlanKeys | src/helper.js:83-106 | the pagination loop returns what ListStep gives for the plan's keys |
| Lookup.CatchNotFound | src/helper.js:32-38 | NotFoundException becomes "not found"; any other error is passed on unchanged; a found value is kept |
| Lookup.GetApiKeyFacts | src/helper.js:13-39 | the key lookup changes nothing; a key it returns is the first with the name; when no call fails it returns exactly that |
| Lookup.GetUsagePlanFacts | src/helper.js:48-74 | the plan lookup changes nothing; a plan it returns is the first with the name; when no call fails it returns exactly that |
| Lookup.PlanHasKeyFacts | src/helper.js:364-366 | the check changes nothing, answers whether the link exists, and succeeds when no call fails |
| Lookup.GetApiKey | src/helper.js:13-39 | the result and new state are those of GetApiKeyStep |
| Lookup.GetUsagePlan | src/helper.js:48-74 | the result and new state are those of GetUsagePlanStep |
| Lookup.PlanHasKey | src/helper.js:364-366 | the result and new state are those of PlanHasKeyStep |
| Requests.ValueParam | src/helper.js:119-120 | a value is sent exactly when it is non-empty, and it is sent unchanged |
| Requests.CreateKeyFacts | src/helper.js:116-129 | createKey adds exactly the created key, enabled, named and valued as asked; it succeeds when no call fails |
| Requests.CreatePlanFacts | src/helper.js:139-152 | createUsagePlan adds exactly one stage-less plan with the name and template limits and a fresh id; it succeeds when no call fails |
| Requests.LinkFacts | src/helper.js:161-174 | createUsagePlanKey adds the API_KEY link exactly when both exist, they are unlinked and the call does not fail |
| Requests.CreateKey | src/helper.js:116-129 | the result and new state are those of CreateKeyStep |
| Requests.CreateUsagePlan | src/helper.js:139-152 | the result and new state are those of CreatePlanStep |
| Requests.CreateUsagePlanKey | src/helper.js:161-174 | the result and new state are those of LinkStep |
| Requests.StagePatch | src/helper.js:200-209 | one `add` on `/apiStages` whose value parses back to the API id and stage |
| Requests.AssociateFacts | src/helper.js:185-216 | associating only adds a stage: a missing stack fails without a call; an already-listed stage is a no-op; otherwise exactly one `add /apiStages` patch is sent, and success appends the deployed stage to that plan only; it succeeds when no call fails |
| Requests.AssociateFirst | src/helper.js:196-210 | a stageless plan, with no failures, gets exactly one patch naming the deployed API and stage, and succeeds |
| Requests.AssociateSends | src/helper.js:185-216 | associating creates no key, plan or link and keeps every plan in place |
| Requests.AssociateReaches | src/helper.js:185-216 | with no failures, associating an existing plan succeeds and leaves the deployed stage on it |
| Requests.AssociateRestApiWithUsagePlan | src/helper.js:185-216 | the result and new state are those of AssociateStep |
| Provision.DeployedStage | src/helper.js:187-195 | the deployed stage exists exactly when the stack's endpoint names an API, and it pairs that API with the stage |
| Provision.AttachGrows | src/helper.js:359-375 | linking and associating only grow the world and leave the keys alone; already linked and staged means no change at all |
| Provision.AttachReaches | src/helper.js:359-375 | with no failures, the plan ends up linked to the key and serving the deployed stage |
| Provision.NewPlanFacts | src/helper.js:359-363 | a missing plan is created, linked and associated; with no failures it serves the key and the stage |
| Provision.ExistingPlanFacts | src/helper.js:364-375 | an existing plan is linked unless already linked and then associated; when both were already done only reads occur |
| Provision.AttachSends | src/helper.js:359-375 | linking and associating create no key and no plan and keep every plan; a key known to be linked gets no link request and the links stay as they were |
| Provision.AttachFresh | src/helper.js:359-374 | a new stageless plan not yet linked to the key, with no failures, costs exactly the link request and the stage patch, and succeeds |
| Provision.NewPlanRequests | src/helper.js:359-374 | creating a plan for a key, with no failures, sends exactly three requests: create the plan from the template, link the key, attach the deployed stage |
| Provision.NewPlanSends | src/helper.js:359-363 | creating and attaching a plan never creates a key |
| Provision.ExistingPlanReuses | src/helper.js:364-375 | a found plan is never created again and no key is created; a key the plan already lists gets no link request and the links stay as they were |
| Provision.ProvisionGrows | src/helper.js:341-375 | the world only grows; the only key added is the one created, only when none existed, named and valued as asked; it is always created when no call fails |
| Provision.ProvisionReaches | src/helper.js:341-375 | after the lookups and with no failures, the key is reconciled with its plan and the deployed stage |
| Provision.ProvisionIdle | src/helper.js:341-375 | a key already reconciled causes reads only and no creation |
| Provision.ProvisionReuses | src/helper.js:341-375 | what was found is used: a found key is not created again, a found plan is not created again and the plan count stays, and a found key the found plan already lists gets no link request |
| Provision.ProvisionFresh | src/helper.js:341-375 | with neither key nor plan found and no failures, exactly four requests go out, in order: create the key, create the plan, link them, attach the stage |
| Provision.Attach | src/helper.js:359-375 | the result and new state are those of AttachStep |
| Provision.ProvisionKey | src/helper.js:341-375 | the result and new state are those of ProvisionStep |
| AddKeys.AddOneGrows | src/helper.js:308-378 | one key's turn only grows the world; it aborts exactly when decryption fails, and then changes nothing; only the created key is added, and it carries the configured value, decrypted when encrypted |
| AddKeys.AddOneReaches | src/helper.js:308-378 | with no failures and a deployed API, the key ends reconciled with its plan |
| AddKeys.AddOneIdle | src/helper.js:308-378 | for a key already reconciled, the turn reads only and creates nothing |
| AddKeys.AddRunGrows | src/helper.js:308-379 | the whole loop only grows the world and keeps it well formed |
| AddKeys.AddRunRejectsOnlyUndecryptable | src/helper.js:308-378 | a key whose lookups or requests fail does not stop the loop; the run is rejected exactly when some key's value cannot be decrypted |
| AddKeys.AddRunReports | src/helper.js:341-352 | with `conceal` nothing is reported; otherwise the reports are exactly the keys created by the run, in order, with their values |
| AddKeys.AddRunReaches | src/helper.js:308-379 | with no failures, every declared key ends reconciled |
| AddKeys.AddRunIdle | src/helper.js:308-379 | when every key is already reconciled, the run reads only and reports nothing |
| AddKeys.DeployTwice | src/helper.js:278-381 | deploying twice with no failures: the second run changes nothing and reports nothing |
| AddKeys.AddOneKey | src/helper.js:308-378 | the result and new state are those of AddOne |
| AddKeys.AddApiKey | src/helper.js:278-381 | the loop's result and new state are those of AddApiKeyStep |
| RemoveKeys.DropKeyShrinks | src/helper.js:432-440 | deleting the key by name only removes things and leaves the plans alone |
| RemoveKeys.RemoveOneShrinks | src/helper.js:420-440 | one key's removal only removes things and never removes a plan that serves a stage |
| RemoveKeys.RemoveOneEffect | src/helper.js:420-440 | with no failures: a plan serving a stage means reads only; otherwise exactly the named plan, the named key and their links are gone |
| RemoveKeys.RemoveRunShrinks | src/helper.js:404-441 | the whole loop only removes things and keeps every plan that serves a stage |
| RemoveKeys.RemoveRunStops | src/helper.js:414-418 | a protected key ends the run: the run equals the run over the keys before it, and a protected first key changes nothing |
| RemoveKeys.RemoveRunSucceeds | src/helper.js:404-441 | with no failures the removal run succeeds |
| RemoveKeys.RemoveOneKey | src/helper.js:420-440 | the result and new state are those of RemoveOne |
| RemoveKeys.RemoveApiKey | src/helper.js:388-441 | the loop's result and new state are those of RemoveApiKeyStep |
| Legacy.LegacyKeys | index.js:276-279 | a flat list is used as is, an absent `apiKeys` gives the empty list, and a per-stage map is not iterable |
| Legacy.LegacyPlanName | index.js:294 | the plan name is the key name followed by `-usage-plan` |
| Legacy.LegacyCatch | index.js:35-40 | NotFoundException becomes a ReferenceError for the undeclared identifier; anything else is unchanged |
| Legacy.LegacyLookupsAgree | index.js:12-82 | the older lookups send the same calls as the current ones and agree whenever they succeed |
| Legacy.LegacyLookupsHealthy | index.js:12-82 | with no failures the older lookups equal the current ones |
| Legacy.LegacyNotFoundFails | index.js:35-37 | a NotFoundException listing gives a ReferenceError in the older lookups where the current ones give "not found" |
| Legacy.LegacyAddOneGrows | index.js:279-328 | one key's turn only grows the world and aborts exactly when decryption fails |
| Legacy.LegacyAddOneReaches | index.js:279-328 | with no failures the key ends reconciled with `<key>-usage-plan` |
| Legacy.LegacyAddRunGrows | index.js:279-329 | the whole loop only grows the world |
| Legacy.LegacyAddRunFailsOnlyUndecryptable | index.js:279-329 | a key whose lookups or requests fail does not stop the loop; the run fails exactly when some key's value cannot be decrypted |
| Legacy.LegacyAddRunReaches | index.js:279-329 | with no failures every key ends reconciled with `<key>-usage-plan` |
| Legacy.LegacyGetApiKey | index.js:12-42 | the result and new state are those of LegacyGetApiKeyStep |
| Legacy.LegacyGetUsagePlan | index.js:52-82 | the result and new state are those of LegacyGetUsagePlanStep |
| Legacy.LegacyAddOneKey | index.js:279-328 | the result and new state are those of LegacyAddOne |
| Legacy.LegacyAddApiKey | index.js:271-330 | the loop's result and new state are those of LegacyAddApiKeyStep |

## Left out

- The AWS SDK, credentials, regions and `httpOptions` are not modelled. The service is the abstract `World` with a failure oracle, and the service's own validation beyond ids, names and duplicate links is left out.
- KMS decryption (`decryptApiKeyValue`, src/helper.js:225-238) is a function parameter `decrypt`. Its failure aborts the run as the code does.
- The log messages and their colouring are not modelled. Neither is the order of interleaved asynchronous calls, since every call is awaited in turn.
- `describeStacks` is a map from stack names to outputs. A missing stack fails as a ValidationError. Other CloudFormation failures are not modelled.
- The service does not check that a REST API id exists when a stage is added.
- An encrypted value with an empty ciphertext is not representable. Non-string key names and values are not either.
- Options.IsProtected: loose equality is modelled for booleans, `"false"`, `""`, `"0"` and the number 0. Other strings that JavaScript converts to 0 (such as `" "` or `"0.0"`) are left out.
- A missing `custom` section, which makes the source throw before the loop, is not modelled.
- The index.js versions of getUsagePlanKeys, createKey, createUsagePlan, createUsagePlanKey and associateRestApiWithUsagePlan (index.js:92-243) send the same requests as src/helper.js.
  - The older add path reuses the helper model with no plan template. Its stack name is always `<service>-<stage>`.
  - The older add path cannot print results, so `createKey` returning only the id makes no difference.
- Options.PlanRequest: the request keeps only the template's quota and throttle. `Object.assign` at src/helper.js:139-146 copies every field of the template (description, `apiStages`, tags and so on). A template that carries `apiStages` would therefore create a plan that already has stages, and the model cannot represent that.
- The failure oracle `fails` is a fixed function of the request. A transient failure, such as throttling, of a request every key sends alike (the first page of `getApiKeys` or `getUsagePlans`) therefore fails every key's lookup. A one-off failure confined to one key's turn (src/helper.js:333-378) is not captured.
- Remote.PageOf always moves the position forward. A service that keeps returning the same position would make the `while (true)` listers of src/helper.js:13-106 loop forever; that case is excluded.
- The plugin class that wires these functions to the deployment hooks (the `AddApiKey` class of index.js and the plugin entry) is not part of this model.

## Findings

| source | as written | input that shows it | evidently intended | confidence | as-written member | corrected member |
|---|---|---|---|---|---|---|
| index.js:35-37, index.js:75-77 | the `NotFoundException` handlers return the undeclared `apiKey` and `usagePlan`, which throws a ReferenceError that aborts the key's turn | the first `getApiKeys` and `getUsagePlans` calls fail with NotFoundException | treat NotFoundException as "not found" and go on to create the key and plan, as src/helper.js:33-35 does | not executed | Legacy.LegacyNotFoundFails | Lookup.CatchNotFound |
