/** Recovering the REST API id from the deployed stack's outputs: the
    `ServiceEndpoint` output holds a URL `https://<apiId>.execute-api.<region>.amazonaws.com/<stage>`. */
module Endpoint {
  import opened Common

  datatype StackOutput = StackOutput(outputKey: string, outputValue: string)

  /** The API id as the plugin ends up holding it: `null` when no output is
      called ServiceEndpoint, `undefined` when the host part has no `//`,
      else the text found. */
  datatype ApiName = NoEndpoint | NoSeparator | Named(id: string)

  /** How the API id is written into the `apiId:stage` patch value. */
  function Render(n: ApiName): string
  {
    match n
    case NoEndpoint => "null"
    case NoSeparator => "undefined"
    case Named(id) => id
  }

  /** `value.split('.')[0]`: everything before the first dot. */
  function HostPart(value: string): (h: string)
    ensures '.' !in h
    ensures h <= value
    ensures h == value || (|h| < |value| && value[|h|] == '.')
  {
    match IndexOf(value, '.')
    case None => value
    case Some(i) => value[..i]
  }

  /** The index of the first `//` in `s`. */
  function IndexOfSlashes(s: string): (r: Option<nat>)
    ensures r.Some? ==> r.value + 1 < |s| && s[r.value] == '/' && s[r.value + 1] == '/'
    ensures r.Some? ==> forall j :: 0 <= j < r.value ==> !(s[j] == '/' && s[j + 1] == '/')
    ensures r.None? ==> forall j :: 0 <= j < |s| - 1 ==> !(s[j] == '/' && s[j + 1] == '/')
    decreases |s|
  {
    if |s| < 2 then None
    else if s[0] == '/' && s[1] == '/' then Some(0)
    else match IndexOfSlashes(s[1..])
      case None => None
      case Some(i) => Some(i + 1)
  }

  /** `[, apiName] = host.split('//')`: the second field of the split, from
      after the first `//` up to the next one; `undefined` when there is no `//`. */
  function SecondField(host: string): ApiName
  {
    match IndexOfSlashes(host)
    case None => NoSeparator
    case Some(i) =>
      var rest := host[i + 2..];
      match IndexOfSlashes(rest)
      case None => Named(rest)
      case Some(j) => Named(rest[..j])
  }

  /** The API id read from one ServiceEndpoint value. */
  function ApiIdOf(endpoint: string): ApiName
  {
    SecondField(HostPart(endpoint))
  }

  /** The API id after walking all outputs in order: every ServiceEndpoint
      output overwrites what an earlier one gave. */
  function ApiNameOf(outputs: seq<StackOutput>): ApiName
  {
    if outputs == [] then NoEndpoint
    else
      var last := outputs[|outputs| - 1];
      if last.outputKey == "ServiceEndpoint" then ApiIdOf(last.outputValue)
      else ApiNameOf(outputs[..|outputs| - 1])
  }

  /** An endpoint URL of the usual shape yields exactly the API id between `//` and the first dot. */
  lemma EndpointYieldsApiId(scheme: string, id: string, rest: string)
    requires '.' !in scheme && '/' !in scheme
    requires '.' !in id && '/' !in id
    ensures ApiIdOf(scheme + "//" + id + "." + rest) == Named(id)
  {
    var host := scheme + "//" + id;
    var url := host + "." + rest;
    assert url == scheme + "//" + id + "." + rest;
    assert url[|host|] == '.' && url[..|host|] == host;
    assert '.' !in host by {
      forall k | 0 <= k < |host| ensures host[k] != '.' {
        if k < |scheme| { assert host[k] == scheme[k]; }
        else if k >= |scheme| + 2 { assert host[k] == id[k - |scheme| - 2]; }
      }
    }
    assert HostPart(url) == host;
    var i := |scheme|;
    assert host[i] == '/' && host[i + 1] == '/';
    forall j | 0 <= j < i ensures !(host[j] == '/' && host[j + 1] == '/') {
      assert host[j] == scheme[j];
    }
    match IndexOfSlashes(host) {
      case None =>
      case Some(k) =>
        assert k == i;
    }
    assert host[i + 2..] == id;
    forall j | 0 <= j < |id| - 1 ensures !(id[j] == '/' && id[j + 1] == '/') {
      assert id[j] in id;
    }
  }

  /** The id of the REST API behind `stackName`, when its outputs yield a
      usable one (a stage patch cannot carry an id with a colon). */
  function DeployedApi(stacks: map<string, seq<StackOutput>>, stackName: string): (id: Option<string>)
    ensures id.Some? ==> stackName in stacks && ApiNameOf(stacks[stackName]) == Named(id.value) && ':' !in id.value
  {
    if stackName in stacks && ApiNameOf(stacks[stackName]).Named? && ':' !in ApiNameOf(stacks[stackName]).id then
      Some(ApiNameOf(stacks[stackName]).id)
    else None
  }
}
