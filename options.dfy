/** The plugin's configuration and the options it derives from it for each
    declared key: which key list applies, the usage-plan name, the template a
    new plan is created from, the key's value and whether the key is
    protected from removal. */
module Options {
  import opened Common
  import opened Remote

  /** The base64 ciphertext of an encrypted key value; the `encrypted` field
      must be non-empty for the plugin to treat the value as encrypted. */
  type Ciphertext = s: string | s != [] witness "A"

  /** The configured `value` of a key: a literal secret, or a descriptor
      `{encrypted, kmsKeyRegion}` to be decrypted with the key-management
      service ("" stands for an absent `kmsKeyRegion`). */
  datatype KeyValue = Literal(text: string) | Encrypted(ciphertext: Ciphertext, kmsKeyRegion: string)

  /** The configured `deleteAtRemoval`, in the shapes a configuration file yields. */
  datatype DeleteFlag = Unset | BoolFlag(b: bool) | StringFlag(s: string) | NumberFlag(n: int)

  /** One entry of `custom.apiKeys`. */
  datatype KeySpec = KeySpec(name: string, value: Option<KeyValue>, usagePlan: Option<PlanSettings>, deleteAtRemoval: DeleteFlag)

  /** `custom.apiKeys`: absent, a list for every stage, or a list per stage name. */
  datatype KeyConfig = NoKeys | KeyList(keys: seq<KeySpec>) | KeysPerStage(byStage: map<string, seq<KeySpec>>)

  datatype ApiGatewaySection = ApiGatewaySection(usagePlan: Option<PlanSettings>)

  /** The parts of the `provider` section the plugin reads. */
  datatype Provider = Provider(apiGateway: Option<ApiGatewaySection>, usagePlan: Option<PlanSettings>, stackName: Option<string>)

  /** The provider-level default usage plan: `provider.apiGateway.usagePlan`,
      else `provider.usagePlan`, else an empty template. */
  function ResolveDefaultUsagePlan(provider: Option<Provider>): (d: PlanSettings)
    ensures d == EmptySettings
            || (provider.Some? && Some(d) == provider.value.usagePlan)
            || (provider.Some? && provider.value.apiGateway.Some? && Some(d) == provider.value.apiGateway.value.usagePlan)
  {
    if provider.None? then EmptySettings
    else if provider.value.apiGateway.Some? && provider.value.apiGateway.value.usagePlan.Some? then
      provider.value.apiGateway.value.usagePlan.value
    else if provider.value.usagePlan.Some? then provider.value.usagePlan.value
    else EmptySettings
  }

  /** The nested setting wins over the flat one, which wins over nothing. */
  lemma DefaultPlanPrecedence(provider: Option<Provider>)
    ensures provider.None? ==> ResolveDefaultUsagePlan(provider) == EmptySettings
    ensures provider.Some? && provider.value.apiGateway.Some? && provider.value.apiGateway.value.usagePlan.Some? ==>
              ResolveDefaultUsagePlan(provider) == provider.value.apiGateway.value.usagePlan.value
    ensures provider.Some? && (provider.value.apiGateway.None? || provider.value.apiGateway.value.usagePlan.None?) ==>
              ResolveDefaultUsagePlan(provider) == (if provider.value.usagePlan.Some? then provider.value.usagePlan.value else EmptySettings)
  {
  }

  /** The usage-plan name of a key: its own plan's name, else the default
      plan's name, else `<key name>-usage-plan`. */
  function PlanNameFor(spec: KeySpec, defaultPlan: PlanSettings): (name: string)
    ensures |name| > 0
    ensures (spec.usagePlan.Some? && spec.usagePlan.value.name == Some(name))
            || defaultPlan.name == Some(name)
            || name == spec.name + "-usage-plan"
  {
    if spec.usagePlan.Some? && HasText(spec.usagePlan.value.name) then spec.usagePlan.value.name.value
    else if HasText(defaultPlan.name) then defaultPlan.name.value
    else spec.name + "-usage-plan"
  }

  /** The three-level precedence of plan names. */
  lemma PlanNamePrecedence(spec: KeySpec, defaultPlan: PlanSettings)
    ensures spec.usagePlan.Some? && HasText(spec.usagePlan.value.name) ==>
              PlanNameFor(spec, defaultPlan) == spec.usagePlan.value.name.value
    ensures !(spec.usagePlan.Some? && HasText(spec.usagePlan.value.name)) && HasText(defaultPlan.name) ==>
              PlanNameFor(spec, defaultPlan) == defaultPlan.name.value
    ensures !(spec.usagePlan.Some? && HasText(spec.usagePlan.value.name)) && !HasText(defaultPlan.name) ==>
              PlanNameFor(spec, defaultPlan) == spec.name + "-usage-plan"
  {
  }

  /** The template a new plan is created from: the key's own plan settings
      when they carry a quota or a throttle, else the default plan. */
  function TemplateFor(spec: KeySpec, defaultPlan: PlanSettings): (t: PlanSettings)
    ensures t == defaultPlan || (spec.usagePlan == Some(t) && (t.quota.Some? || t.throttle.Some?))
    ensures spec.usagePlan.Some? && (spec.usagePlan.value.quota.Some? || spec.usagePlan.value.throttle.Some?) ==>
              t == spec.usagePlan.value
  {
    if spec.usagePlan.Some? && (spec.usagePlan.value.quota.Some? || spec.usagePlan.value.throttle.Some?) then
      spec.usagePlan.value
    else defaultPlan
  }

  /** The createUsagePlan request body: the template's fields with `name`
      overriding, or only the name when there is no template. */
  function PlanRequest(name: string, template: Option<PlanSettings>): (p: PlanSettings)
    ensures p.name == Some(name)
    ensures template.Some? ==> p.quota == template.value.quota && p.throttle == template.value.throttle
    ensures template.None? ==> p.quota.None? && p.throttle.None?
  {
    if template.Some? then template.value.(name := Some(name)) else PlanSettings(Some(name), None, None)
  }

  /** What a key's new plan is created with: the resolved name, and the
      limits of the key's own plan if it sets any, else the default's. */
  lemma CreatedPlanForKey(spec: KeySpec, defaultPlan: PlanSettings)
    ensures var p := PlanRequest(PlanNameFor(spec, defaultPlan), Some(TemplateFor(spec, defaultPlan)));
            && p.name == Some(PlanNameFor(spec, defaultPlan))
            && (spec.usagePlan.Some? && (spec.usagePlan.value.quota.Some? || spec.usagePlan.value.throttle.Some?) ==>
                  p.quota == spec.usagePlan.value.quota && p.throttle == spec.usagePlan.value.throttle)
            && (!(spec.usagePlan.Some? && (spec.usagePlan.value.quota.Some? || spec.usagePlan.value.throttle.Some?)) ==>
                  p.quota == defaultPlan.quota && p.throttle == defaultPlan.throttle)
  {
  }

  /** The key list that applies to `stage`; None when the configuration is
      keyed by stage and has no entry for it (iterating over it then fails). */
  function SelectKeys(config: KeyConfig, stage: string): (keys: Option<seq<KeySpec>>)
    ensures keys.None? <==> config.KeysPerStage? && stage !in config.byStage
    ensures config.KeyList? ==> keys == Some(config.keys)
    ensures config.NoKeys? ==> keys == Some([])
    ensures config.KeysPerStage? && stage in config.byStage ==> keys == Some(config.byStage[stage])
  {
    match config
    case NoKeys => Some([])
    case KeyList(ks) => Some(ks)
    case KeysPerStage(m) => if stage in m then Some(m[stage]) else None
  }

  /** `provider.stackName`, else `<service>-<stage>`. */
  function StackNameFor(provider: Provider, serviceName: string, stage: string): (name: string)
    ensures |name| > 0
    ensures HasText(provider.stackName) ==> name == provider.stackName.value
    ensures !HasText(provider.stackName) ==> |name| == |serviceName| + 1 + |stage| && name[..|serviceName|] == serviceName && name[|serviceName|..] == "-" + stage
  {
    if HasText(provider.stackName) then provider.stackName.value else serviceName + "-" + stage
  }

  /** `deleteAtRemoval == 'false' || deleteAtRemoval == false` under
      JavaScript's loose equality. */
  predicate IsProtected(flag: DeleteFlag)
  {
    match flag
    case Unset => false
    case BoolFlag(b) => !b
    case StringFlag(s) => s == "false" || s == "" || s == "0"
    case NumberFlag(n) => n == 0
  }

  /** Only an explicit false-like setting protects a key; the default deletes. */
  lemma ProtectionFlags()
    ensures IsProtected(BoolFlag(false)) && IsProtected(StringFlag("false"))
    ensures !IsProtected(Unset) && !IsProtected(BoolFlag(true)) && !IsProtected(StringFlag("true"))
  {
  }

  /** The index of the first protected key, where the remove path stops. */
  function FirstProtected(specs: seq<KeySpec>): (r: Option<nat>)
    ensures r.Some? ==> r.value < |specs| && IsProtected(specs[r.value].deleteAtRemoval)
    ensures r.Some? ==> forall j :: 0 <= j < r.value ==> !IsProtected(specs[j].deleteAtRemoval)
    ensures r.None? ==> forall j :: 0 <= j < |specs| ==> !IsProtected(specs[j].deleteAtRemoval)
    decreases |specs|
  {
    if specs == [] then None
    else if IsProtected(specs[0].deleteAtRemoval) then Some(0)
    else match FirstProtected(specs[1..])
      case None => None
      case Some(i) => Some(i + 1)
  }

  /** The value sent when creating the key ("" when none is sent): the
      literal, or the plaintext of an encrypted value decrypted with the key
      in `kmsKeyRegion`, else in the deployment region. */
  function ResolveValue(value: Option<KeyValue>, region: string, decrypt: (string, string) -> Result<string>)
    : (r: Result<string>)
    ensures r.Err? ==> value.Some? && value.value.Encrypted?
    ensures value.Some? && value.value.Literal? ==> r == Ok(value.value.text)
    ensures value.Some? && value.value.Encrypted? ==>
              r == decrypt(value.value.ciphertext, if value.value.kmsKeyRegion != "" then value.value.kmsKeyRegion else region)
    ensures value.None? ==> r == Ok("")
  {
    match value
    case None => Ok("")
    case Some(Literal(text)) => Ok(text)
    case Some(Encrypted(ciphertext, kmsKeyRegion)) =>
      decrypt(ciphertext, if kmsKeyRegion != "" then kmsKeyRegion else region)
  }
}
