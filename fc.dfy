/** The request-shaping rules of the Function Compute tools (src/fc.ts):
    splitting a command line, choosing credentials from the environment,
    naming the function, bounding its description, merging environment
    variables, filling the deployment template for a deploy or a removal,
    and turning the code generator's reply into deployment parameters.
    File writes, child processes, the deployment component, the metrics
    request and the code generator itself are outside this module; where
    their results matter they are parameters. */
module Fc {
  import opened Wrappers
  import opened JsString

  // ---------------------------------------------------------------------
  // Command lines

  /** `command.split(' ')`: every single space separates two parts, so
      neighbouring spaces give empty parts and the input always has one. */
  function ParseCommand(command: string): (parts: seq<string>)
    ensures |parts| >= 1
    ensures forall i :: 0 <= i < |parts| ==> ' ' !in parts[i]
    ensures Join(parts, " ") == command
    decreases |command|
  {
    var i := IndexOf(command, ' ');
    if i < 0 then [command]
    else
      var rest := ParseCommand(command[i + 1..]);
      assert ([command[..i]] + rest)[1..] == rest;
      assert command == command[..i] + " " + command[i + 1..];
      [command[..i]] + rest
  }

  /** The first space of `a + " " + b` is the one after `a` when `a` has none. */
  lemma FirstSpaceAfter(a: string, b: string)
    requires ' ' !in a
    ensures IndexOf(a + " " + b, ' ') == |a|
    ensures (a + " " + b)[..|a|] == a && (a + " " + b)[|a| + 1..] == b
  {
    var s := a + " " + b;
    assert s[|a|] == ' ';
  }

  /** Joining space-free words with single spaces and splitting the line
      again gives back the words: the two directions of the round trip with
      the log line `shell.join(' ')` of `runCommand`. */
  lemma {:induction false} ParseJoinedCommand(parts: seq<string>)
    requires |parts| >= 1
    requires forall i :: 0 <= i < |parts| ==> ' ' !in parts[i]
    ensures ParseCommand(Join(parts, " ")) == parts
    decreases |parts|
  {
    if |parts| > 1 {
      var tail := Join(parts[1..], " ");
      var line := parts[0] + " " + tail;
      assert Join(parts, " ") == line;
      FirstSpaceAfter(parts[0], tail);
      assert ParseCommand(line) == [parts[0]] + ParseCommand(tail);
      ParseJoinedCommand(parts[1..]);
      assert parts == [parts[0]] + parts[1..];
    } else {
      assert IndexOf(parts[0], ' ') == -1;
      assert parts == [parts[0]];
    }
  }

  const PipMirrorCommand := "pip3 config set https://global.index-url mirrors.aliyun.com/pypi/simple/"
  const NpmMirrorCommand := "npm config set registry https://registry.npmmirror.com"

  /** A command run before the deployment: a text that `runCommand` receives
      after `parseCommand`, or an argument vector passed as given. */
  datatype CommandLine = Parsed(text: string) | Argv(args: seq<string>)

  /** The argument vector `runCommand` spawns for a command line. */
  function ArgumentsOf(line: CommandLine): (args: seq<string>)
    ensures line.Parsed? ==> Join(args, " ") == line.text && |args| >= 1
    ensures line.Argv? ==> args == line.args
  {
    match line
    case Parsed(text) => ParseCommand(text)
    case Argv(args) => args
  }

  /** The commands run before the deployment: when an install command is
      given and not empty, the two mirror settings and then that command;
      otherwise none. */
  function InstallCommands(installDependenciesCommand: Option<seq<string>>): (r: seq<CommandLine>)
    ensures installDependenciesCommand.None? || |installDependenciesCommand.value| == 0 <==> r == []
    ensures installDependenciesCommand.Some? && |installDependenciesCommand.value| > 0 ==>
      && |r| == 3
      && r[0] == Parsed(PipMirrorCommand) && r[1] == Parsed(NpmMirrorCommand)
      && ArgumentsOf(r[2]) == installDependenciesCommand.value
  {
    if installDependenciesCommand.Some? && |installDependenciesCommand.value| > 0 then
      [Parsed(PipMirrorCommand), Parsed(NpmMirrorCommand), Argv(installDependenciesCommand.value)]
    else []
  }

  // ---------------------------------------------------------------------
  // Credentials

  /** The process environment: a variable that is not set is not a key. */
  type Env = map<string, string>

  const ALIBABA_CLOUD_ACCESS_KEY_ID := "ALIBABA_CLOUD_ACCESS_KEY_ID"
  const ALIBABA_CLOUD_ACCESS_KEY_SECRET := "ALIBABA_CLOUD_ACCESS_KEY_SECRET"
  const ALIBABA_CLOUD_SECURITY_TOKEN := "ALIBABA_CLOUD_SECURITY_TOKEN"
  const FC_ACCOUNT_ID := "FC_ACCOUNT_ID"
  const ALIYUN_ACCESS_KEY_ID := "ALIYUN_ACCESS_KEY_ID"
  const ALIYUN_ACCESS_KEY_SECRET := "ALIYUN_ACCESS_KEY_SECRET"
  const ALIYUN_ACCOUNT_ID := "ALIYUN_ACCOUNT_ID"

  const CredentialsMissing :=
    "ALIYUN_ACCOUNT_ID, ALIYUN_ACCESS_KEY_ID, ALIYUN_ACCESS_KEY_SECRET or function role is not set"

  /** `process.env[name]`. */
  function Lookup(env: Env, name: string): Option<string> {
    if name in env then Some(env[name]) else None
  }

  /** The variable is set to a non-empty value (it is truthy). */
  predicate IsSet(env: Env, name: string) {
    name in env && env[name] != ""
  }

  datatype Credentials = Credentials(
    accountID: string,
    accessKeyID: string,
    accessKeySecret: string,
    securityToken: Option<string>)

  /** The credentials handed to the deployment component. The ALIYUN_
      variables win over the other family; the secret always comes from the
      family of the key id; a security token is only taken together with an
      ALIBABA_CLOUD_ key id; an unset or empty choice is an error. */
  function SelectCredentials(env: Env): (r: Result<Credentials, string>)
    ensures r.Success? <==>
      (IsSet(env, ALIYUN_ACCOUNT_ID) || IsSet(env, FC_ACCOUNT_ID))
      && (if IsSet(env, ALIYUN_ACCESS_KEY_ID) then IsSet(env, ALIYUN_ACCESS_KEY_SECRET)
          else IsSet(env, ALIBABA_CLOUD_ACCESS_KEY_ID) && IsSet(env, ALIBABA_CLOUD_ACCESS_KEY_SECRET))
    ensures r.Failure? ==> r.error == CredentialsMissing
    ensures r.Success? ==>
      && r.value.accountID == (if IsSet(env, ALIYUN_ACCOUNT_ID) then env[ALIYUN_ACCOUNT_ID] else env[FC_ACCOUNT_ID])
      && (IsSet(env, ALIYUN_ACCESS_KEY_ID) ==>
            && r.value.accessKeyID == env[ALIYUN_ACCESS_KEY_ID]
            && r.value.accessKeySecret == env[ALIYUN_ACCESS_KEY_SECRET]
            && r.value.securityToken == None)
      && (!IsSet(env, ALIYUN_ACCESS_KEY_ID) ==>
            && r.value.accessKeyID == env[ALIBABA_CLOUD_ACCESS_KEY_ID]
            && r.value.accessKeySecret == env[ALIBABA_CLOUD_ACCESS_KEY_SECRET]
            && r.value.securityToken == Lookup(env, ALIBABA_CLOUD_SECURITY_TOKEN))
  {
    var accountID := Or(Lookup(env, ALIYUN_ACCOUNT_ID), Lookup(env, FC_ACCOUNT_ID));
    var accessKeyID := Or(Lookup(env, ALIYUN_ACCESS_KEY_ID), Lookup(env, ALIBABA_CLOUD_ACCESS_KEY_ID));
    var accessKeySecret :=
      if Truthy(Lookup(env, ALIYUN_ACCESS_KEY_ID)) then Lookup(env, ALIYUN_ACCESS_KEY_SECRET)
      else Lookup(env, ALIBABA_CLOUD_ACCESS_KEY_SECRET);
    var securityToken :=
      if Truthy(Lookup(env, ALIYUN_ACCESS_KEY_ID)) then None
      else Lookup(env, ALIBABA_CLOUD_SECURITY_TOKEN);
    if !Truthy(accessKeyID) || !Truthy(accessKeySecret) || !Truthy(accountID) then
      Failure(CredentialsMissing)
    else
      Success(Credentials(accountID.value, accessKeyID.value, accessKeySecret.value, securityToken))
  }

  // ---------------------------------------------------------------------
  // Function names

  const NamePrefix := "mcp-deploy-fc-"

  /** The deployed function's name: the prefix is added unless already there. */
  function PrefixFunctionName(name: string): (r: string)
    ensures StartsWith(r, NamePrefix)
    ensures StartsWith(name, NamePrefix) ==> r == name
    ensures !StartsWith(name, NamePrefix) ==> r[|NamePrefix|..] == name
    ensures |name| <= |r| <= |NamePrefix| + |name|
  {
    if StartsWith(name, NamePrefix) then name else NamePrefix + name
  }

  /** Naming twice is naming once. */
  lemma PrefixFunctionNameIdempotent(name: string)
    ensures PrefixFunctionName(PrefixFunctionName(name)) == PrefixFunctionName(name)
  {
  }

  /** The name a deployment gets: the caller's name when one is passed (an
      empty one included), `mcp-deploy-fc-<uuid>` otherwise; then prefixed. */
  function ResolveFunctionName(functionName: Option<string>, uuid: string): (r: string)
    ensures StartsWith(r, NamePrefix)
    ensures functionName.None? ==> r == NamePrefix + uuid
    ensures functionName.Some? ==> r == PrefixFunctionName(functionName.value)
  {
    var given := functionName.GetOr(NamePrefix + uuid);
    assert functionName.None? ==> (NamePrefix + uuid)[..|NamePrefix|] == NamePrefix;
    PrefixFunctionName(given)
  }

  // ---------------------------------------------------------------------
  // Description, region and port

  const DefaultDescription := "MCP Server for Function Compute"
  const MaxDescription := 256

  /** The description written into the template: over 256 characters it is
      cut to its first 250 and marked with `...`; missing or empty it is the
      default text; otherwise it is kept. */
  function ShapeDescription(description: Option<string>): (r: string)
    ensures 0 < |r| <= MaxDescription
    ensures !Truthy(description) ==> r == DefaultDescription
    ensures description.Some? && 0 < |description.value| <= MaxDescription ==> r == description.value
    ensures description.Some? && |description.value| > MaxDescription ==>
      r == description.value[..250] + "..."
  {
    var shaped :=
      if description.Some? && |description.value| > 0 && |description.value| > MaxDescription
      then Some(description.value[..250] + "...")
      else description;
    if Truthy(shaped) then shaped.value else DefaultDescription
  }

  const DefaultRegion := "cn-hangzhou"

  /** The region: the destructuring default replaces `undefined`, and the
      later `region || 'cn-hangzhou'` replaces the empty string as well. */
  function EffectiveRegion(region: Option<string>): (r: string)
    ensures r != ""
    ensures Truthy(region) ==> r == region.value
    ensures !Truthy(region) ==> r == DefaultRegion
  {
    var destructured := region.GetOr(DefaultRegion);
    if destructured != "" then destructured else DefaultRegion
  }

  const DefaultPort := 9000

  /** `port || 9000`: zero is falsy, like a missing port. */
  function EffectivePort(port: Option<int>): (r: int)
    ensures r != 0
    ensures port.Some? && port.value != 0 ==> r == port.value
    ensures port.None? || port.value == 0 ==> r == DefaultPort
  {
    if port.Some? && port.value != 0 then port.value else DefaultPort
  }

  /** `{...template, ...(user || {})}`: the user's variables override the
      template's, and nothing else appears. */
  function MergeEnvironment(template: map<string, string>, user: Option<map<string, string>>): (r: map<string, string>)
    ensures user.Some? ==> forall k :: k in user.value ==> k in r && r[k] == user.value[k]
    ensures forall k :: k in template && (user.None? || k !in user.value) ==> k in r && r[k] == template[k]
    ensures forall k :: k in r ==> k in template || (user.Some? && k in user.value)
  {
    template + user.GetOr(map[])
  }

  // ---------------------------------------------------------------------
  // The deployment template (the parts of `resources` the code writes)

  datatype RuntimeConfig = RuntimeConfig(command: seq<string>, port: int)

  datatype ServerProps = ServerProps(
    region: string,
    functionName: string,
    description: string,
    environmentVariables: map<string, string>,
    timeout: int,
    customRuntimeConfig: RuntimeConfig)

  datatype Route = Route(functionName: string)

  datatype DomainProps = DomainProps(region: string, routes: seq<Route>)

  /** `syaml.resources`: the function server and its custom domain. */
  datatype Resources = Resources(server: ServerProps, domain: DomainProps)

  datatype CodeFile = CodeFile(filename: string, content: string)

  /** The `code` argument: a list of files, or the empty object `{}` that
      the generate path substitutes for a missing list (not iterable). */
  datatype CodeArg = Files(files: seq<CodeFile>) | NotIterable

  /** The parameters of `deployCodeToFc`; `None` is `undefined`. */
  datatype DeployParams = DeployParams(
    functionName: Option<string>,
    region: Option<string>,
    code: CodeArg,
    port: Option<int>,
    description: Option<string>,
    environmentVariables: Option<map<string, string>>,
    timeout: int,
    installDependenciesCommand: Option<seq<string>>,
    startCommand: seq<string>)

  /** The template after the successive field assignments of a deploy. The
      assignment to the first route fails (a TypeError, caught by the tool)
      when the template has no route. */
  function FillDeployTemplate(t: Resources, p: DeployParams, functionName: string): (r: Option<Resources>)
    ensures r.Some? <==> |t.domain.routes| > 0
    ensures r.Some? ==>
      var s := r.value;
      && s.server.region == s.domain.region == EffectiveRegion(p.region)
      && s.server.functionName == functionName
      && |s.domain.routes| == |t.domain.routes|
      && s.domain.routes[0].functionName == s.server.functionName
      && s.domain.routes[1..] == t.domain.routes[1..]
      && s.server.description == ShapeDescription(p.description)
      && s.server.environmentVariables == MergeEnvironment(t.server.environmentVariables, p.environmentVariables)
      && s.server.timeout == p.timeout
      && s.server.customRuntimeConfig == RuntimeConfig(p.startCommand, EffectivePort(p.port))
  {
    if |t.domain.routes| == 0 then None
    else
      var region := EffectiveRegion(p.region);
      var s := t.(server := t.server.(region := region));
      var s := s.(domain := s.domain.(region := region));
      var s := s.(server := s.server.(functionName := functionName));
      var s := s.(server := s.server.(description := ShapeDescription(p.description)));
      var s := s.(server := s.server.(environmentVariables :=
        MergeEnvironment(s.server.environmentVariables, p.environmentVariables)));
      var s := s.(server := s.server.(timeout := p.timeout));
      var s := s.(server := s.server.(customRuntimeConfig := s.server.customRuntimeConfig.(command := p.startCommand)));
      var s := s.(server := s.server.(customRuntimeConfig := s.server.customRuntimeConfig.(port := EffectivePort(p.port))));
      var s := s.(domain := s.domain.(routes := s.domain.routes[0 := s.domain.routes[0].(functionName := functionName)]));
      Some(s)
  }

  /** The template after the field assignments of a removal: only the
      regions and the two function names change, and the name is used as
      given (no prefix is added). */
  function FillRemoveTemplate(t: Resources, region: Option<string>, functionName: string): (r: Option<Resources>)
    ensures r.Some? <==> |t.domain.routes| > 0
    ensures r.Some? ==>
      var s := r.value;
      && s.server.region == s.domain.region == EffectiveRegion(region)
      && s.server.functionName == functionName
      && |s.domain.routes| == |t.domain.routes|
      && s.domain.routes[0].functionName == functionName
      && s.domain.routes[1..] == t.domain.routes[1..]
      && s.server.description == t.server.description
      && s.server.environmentVariables == t.server.environmentVariables
      && s.server.timeout == t.server.timeout
      && s.server.customRuntimeConfig == t.server.customRuntimeConfig
  {
    if |t.domain.routes| == 0 then None
    else
      var region := EffectiveRegion(region);
      var s := t.(server := t.server.(region := region));
      var s := s.(domain := s.domain.(region := region));
      var s := s.(server := s.server.(functionName := functionName));
      var s := s.(domain := s.domain.(routes := s.domain.routes[0 := s.domain.routes[0].(functionName := functionName)]));
      Some(s)
  }

  /** What a deploy does before calling the deployment component. */
  datatype Plan = Plan(functionName: string, commands: seq<CommandLine>, resources: Resources)

  /** Why a deploy fails before reaching the deployment component. */
  datatype DeployFailure = CodeNotIterable | MissingRoute

  /** `deployCodeToFc` up to the deployment call: name the function, reject
      a `code` value that cannot be iterated, plan the install commands and
      fill the template. `uuid` stands for `uuidv4()`. */
  function PlanDeployment(p: DeployParams, t: Resources, uuid: string): (r: Result<Plan, DeployFailure>)
    ensures r == Failure(CodeNotIterable) <==> p.code.NotIterable?
    ensures r == Failure(MissingRoute) <==> p.code.Files? && |t.domain.routes| == 0
    ensures r.Success? ==>
      && r.value.functionName == ResolveFunctionName(p.functionName, uuid)
      && StartsWith(r.value.functionName, NamePrefix)
      && r.value.commands == InstallCommands(p.installDependenciesCommand)
      && Some(r.value.resources) == FillDeployTemplate(t, p, r.value.functionName)
  {
    var functionName := ResolveFunctionName(p.functionName, uuid);
    if p.code.NotIterable? then Failure(CodeNotIterable)
    else
      var filled := FillDeployTemplate(t, p, functionName);
      if filled.None? then Failure(MissingRoute)
      else Success(Plan(functionName, InstallCommands(p.installDependenciesCommand), filled.value))
  }

  // ---------------------------------------------------------------------
  // The code generator's reply

  /** The text from the first `{` through the last `}` of the reply, as
      `substring(indexOf('{'), lastIndexOf('}') + 1)` cuts it. */
  function ExtractJson(content: string): (r: string)
    ensures |r| <= |content|
    ensures '{' !in content && '}' !in content ==> r == ""
  {
    Substring(content, IndexOf(content, '{'), LastIndexOf(content, '}') + 1)
  }

  /** When a `}` follows the first `{`, the cut starts at that `{`, ends at
      the last `}`, and drops only text before the first `{` and after the
      last `}` (the prose or code fences around the JSON object). */
  lemma ExtractJsonSpan(content: string, i: nat, j: nat)
    requires i < j < |content|
    requires content[i] == '{' && '{' !in content[..i]
    requires content[j] == '}' && '}' !in content[j + 1..]
    ensures ExtractJson(content) == content[i..j + 1]
    ensures ExtractJson(content)[0] == '{' && ExtractJson(content)[j - i] == '}'
  {
    assert content[..i + 1][i] == '{';
    assert content[j..][0] == '}';
  }

  /** The timeout, in seconds, a generated deployment gets when the reply
      gives none. */
  const DefaultTimeout := 5

  /** The fields of the parsed reply that the deploy uses; `None` is a
      missing field. The reply's `region` and `functionName` are ignored. */
  datatype GeneratedReply = GeneratedReply(
    code: Option<seq<CodeFile>>,
    port: Option<int>,
    description: Option<string>,
    environmentVariables: Option<map<string, string>>,
    timeout: Option<int>,
    startCommand: Option<seq<string>>,
    installDependenciesCommand: Option<seq<string>>)

  /** The deploy parameters built from the reply: every falsy field gets its
      default (port 9000, timeout 5, empty description, empty variables and
      command lists), a missing code list becomes `{}`, and no region is
      passed. */
  function DeployParamsFromReply(json: GeneratedReply, functionName: Option<string>): (p: DeployParams)
    ensures p.functionName == functionName && p.region.None?
    ensures p.code.NotIterable? <==> json.code.None?
    ensures json.code.Some? ==> p.code == Files(json.code.value)
    ensures p.port == Some(EffectivePort(json.port))
    ensures p.timeout != 0
    ensures json.timeout.Some? && json.timeout.value != 0 ==> p.timeout == json.timeout.value
    ensures json.timeout.None? || json.timeout.value == 0 ==> p.timeout == DefaultTimeout
    ensures Truthy(json.description) ==> p.description == json.description
    ensures !Truthy(json.description) ==> p.description == Some("")
    ensures p.environmentVariables == Some(json.environmentVariables.GetOr(map[]))
    ensures p.startCommand == json.startCommand.GetOr([])
    ensures p.installDependenciesCommand == Some(json.installDependenciesCommand.GetOr([]))
  {
    DeployParams(
      functionName := functionName,
      region := None,
      code := if json.code.Some? then Files(json.code.value) else NotIterable,
      port := Some(EffectivePort(json.port)),
      description := Some(if Truthy(json.description) then json.description.value else ""),
      environmentVariables := Some(json.environmentVariables.GetOr(map[])),
      timeout := if json.timeout.Some? && json.timeout.value != 0 then json.timeout.value else DefaultTimeout,
      startCommand := json.startCommand.GetOr([]),
      installDependenciesCommand := Some(json.installDependenciesCommand.GetOr([])))
  }

  /** Why generate-and-deploy fails before the deployment component. */
  datatype GenerateFailure = ReplyNotJson | DeployFailed(reason: DeployFailure)

  /** `generateCodeAndDeployToFc` after the reply has been streamed in:
      `parse` stands for `JSON.parse` (`None` when it throws). */
  function PlanGeneratedDeployment(
    content: string, functionName: Option<string>,
    parse: string -> Option<GeneratedReply>, t: Resources, uuid: string): (r: Result<Plan, GenerateFailure>)
    ensures r == Failure(ReplyNotJson) <==> parse(ExtractJson(content)).None?
  {
    var json := parse(ExtractJson(content));
    if json.None? then Failure(ReplyNotJson)
    else
      var planned := PlanDeployment(DeployParamsFromReply(json.value, functionName), t, uuid);
      if planned.Failure? then Failure(DeployFailed(planned.error)) else Success(planned.value)
  }

  /** A generated deployment always goes to cn-hangzhou, listens on the
      reply's port or 9000, gets the default description when the reply has
      none, runs no install step when the reply asks for none, and routes
      the domain to the function it names. */
  lemma GeneratedDeploymentDefaults(
    content: string, functionName: Option<string>,
    parse: string -> Option<GeneratedReply>, t: Resources, uuid: string)
    requires parse(ExtractJson(content)).Some?
    requires parse(ExtractJson(content)).value.code.Some?
    requires |t.domain.routes| > 0
    ensures var r := PlanGeneratedDeployment(content, functionName, parse, t, uuid);
      var json := parse(ExtractJson(content)).value;
      && r.Success?
      && r.value.resources.server.region == DefaultRegion
      && r.value.resources.domain.region == DefaultRegion
      && r.value.resources.server.customRuntimeConfig.port == EffectivePort(json.port)
      && (!Truthy(json.description) ==> r.value.resources.server.description == DefaultDescription)
      && (json.installDependenciesCommand.None? ==> r.value.commands == [])
      && r.value.resources.domain.routes[0].functionName == r.value.functionName
      && StartsWith(r.value.functionName, NamePrefix)
  {
    var json := parse(ExtractJson(content)).value;
    var p := DeployParamsFromReply(json, functionName);
    var name := ResolveFunctionName(functionName, uuid);
    assert p.region.None?;
    assert EffectivePort(p.port) == EffectivePort(json.port);
    assert !Truthy(json.description) ==> ShapeDescription(p.description) == DefaultDescription;
    assert FillDeployTemplate(t, p, name).Some?;
  }
}
