/** The argument schema of the `removeFunctionCompute` tool
    (src/mcp-server.ts): a required function name matching
    `^[_a-zA-Z][-_a-zA-Z0-9]*$`, and an optional region from a fixed list
    that defaults to `cn-hangzhou`. Arguments that fail the schema never
    reach the removal code; the issues found are reported field by field,
    in the order the fields are declared. */
module ToolSchema {
  import opened Wrappers
  import opened JsString
  import opened Fc

  /** The regions a caller may name. */
  const Regions: seq<string> := ["cn-hangzhou", "cn-beijing", "cn-shanghai", "cn-shenzhen"]

  predicate IsLetter(c: char) {
    'a' <= c <= 'z' || 'A' <= c <= 'Z'
  }

  predicate IsDigit(c: char) {
    '0' <= c <= '9'
  }

  /** `[_a-zA-Z]`: what a function name may start with. */
  predicate IsNameStart(c: char) {
    c == '_' || IsLetter(c)
  }

  /** `[-_a-zA-Z0-9]`: what the rest of a function name may hold. */
  predicate IsNameChar(c: char) {
    c == '-' || c == '_' || IsLetter(c) || IsDigit(c)
  }

  /** The whole string matches `^[_a-zA-Z][-_a-zA-Z0-9]*$`. */
  predicate MatchesFunctionNamePattern(s: string) {
    |s| >= 1 && IsNameStart(s[0]) && forall i :: 1 <= i < |s| ==> IsNameChar(s[i])
  }

  /** What is wrong with one argument. */
  datatype Issue =
    | FunctionNameRequired
    | FunctionNameMismatch
    | RegionNotListed

  /** Arguments that passed the schema, with the region default applied. */
  datatype RemoveRequest = RemoveRequest(functionName: string, region: string)

  /** The schema check of `removeFunctionCompute`'s arguments: the name is
      required and must match the pattern; an absent region becomes
      `cn-hangzhou`, a present one must be one of `Regions` (so `""` is
      refused). */
  function ValidateRemoveArgs(functionName: Option<string>, region: Option<string>): (r: Result<RemoveRequest, seq<Issue>>)
    ensures r.Success? <==>
      && functionName.Some? && MatchesFunctionNamePattern(functionName.value)
      && (region.None? || region.value in Regions)
    ensures r.Success? ==> r.value.functionName == functionName.value
    ensures r.Success? ==> r.value.region == region.GetOr(DefaultRegion) && r.value.region in Regions
    ensures r.Failure? ==>
      && (FunctionNameRequired in r.error <==> functionName.None?)
      && (FunctionNameMismatch in r.error <==> functionName.Some? && !MatchesFunctionNamePattern(functionName.value))
      && (RegionNotListed in r.error <==> region.Some? && region.value !in Regions)
  {
    var nameIssues :=
      if functionName.None? then [FunctionNameRequired]
      else if !MatchesFunctionNamePattern(functionName.value) then [FunctionNameMismatch]
      else [];
    var regionIssues := if region.Some? && region.value !in Regions then [RegionNotListed] else [];
    if nameIssues + regionIssues == [] then
      Success(RemoveRequest(functionName.value, region.GetOr(DefaultRegion)))
    else
      Failure(nameIssues + regionIssues)
  }

  /** Every name a deployment gives its function is accepted by the removal
      tool: prefixing a name made of pattern characters (a generated
      identifier, say) yields a name matching the pattern. */
  lemma PrefixedNameMatchesPattern(name: string)
    requires forall i :: 0 <= i < |name| ==> IsNameChar(name[i])
    ensures MatchesFunctionNamePattern(PrefixFunctionName(name))
  {
    var r := PrefixFunctionName(name);
    assert forall i :: 0 <= i < |NamePrefix| ==> IsNameChar(NamePrefix[i]);
    if StartsWith(name, NamePrefix) {
      assert r == name;
      assert r[0] == NamePrefix[0];
    } else {
      assert r == NamePrefix + name;
      forall i | 1 <= i < |r|
        ensures IsNameChar(r[i])
      {
        if i >= |NamePrefix| {
          assert r[i] == name[i - |NamePrefix|];
        }
      }
    }
  }

  /** The name of a deployment that was given no name is accepted by the
      removal tool whenever the generated identifier is made of pattern
      characters. */
  lemma GeneratedNameRemovable(uuid: string)
    requires forall i :: 0 <= i < |uuid| ==> IsNameChar(uuid[i])
    ensures MatchesFunctionNamePattern(ResolveFunctionName(None, uuid))
  {
    assert ResolveFunctionName(None, uuid) == NamePrefix + uuid;
    assert forall i :: 0 <= i < |NamePrefix| ==> IsNameChar(NamePrefix[i]);
  }

  /** Arguments that pass the schema reach the removal code with a listed,
      hence non-empty, region: both resources of the filled template get
      exactly that region (the removal code's own `cn-hangzhou` fallback is
      never taken) and both name the requested function. */
  lemma ValidatedRemovalTargets(t: Resources, functionName: Option<string>, region: Option<string>)
    requires ValidateRemoveArgs(functionName, region).Success?
    requires |t.domain.routes| > 0
    ensures var req := ValidateRemoveArgs(functionName, region).value;
      var filled := FillRemoveTemplate(t, Some(req.region), req.functionName);
      && filled.Some?
      && filled.value.server.region == req.region
      && filled.value.domain.region == req.region
      && filled.value.server.functionName == req.functionName
      && filled.value.domain.routes[0].functionName == req.functionName
      && (region.None? ==> filled.value.server.region == DefaultRegion)
  {
    var req := ValidateRemoveArgs(functionName, region).value;
    assert req.region in Regions;
    assert req.region != "";
  }
}
