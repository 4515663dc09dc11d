/** Extension configuration (`core/extensions.py`): a strict parser and its
    printer, and the generations of configurations a project goes through. */
module Extensions {
  import opened Options

  // ----- values -----

  datatype Json =
    | Null | Bool(b: bool) | Number(n: int) | Str(s: string)
    | List(items: seq<Json>) | Object(fields: map<string, Json>)

  datatype EnvironmentReference = EnvironmentReference(name: string, sourceEnv: string)

  /** An environment variable or a header, and the reference it is filled from. */
  datatype Binding = Binding(name: string, reference: string)

  datatype Server =
    | Stdio(name: string, command: string, args: seq<string>, environment: seq<Binding>,
            workingDirectory: Option<string>, tools: seq<string>, timeout: Option<int>)
    | Http(name: string, url: string, headers: seq<Binding>, tools: seq<string>, timeout: Option<int>)

  datatype Agent = Agent(name: string, displayName: Option<string>, description: string, prompt: string,
                         tools: Option<seq<string>>, skills: seq<string>, servers: seq<string>,
                         infer: Option<bool>, model: Option<string>, effort: Option<string>)

  datatype Config = Config(references: seq<EnvironmentReference>, servers: seq<Server>,
                           skillDirectories: seq<string>, disabledSkills: seq<string>,
                           pluginDirectories: seq<string>, agents: seq<Agent>)

  /** Operations of the language and its libraries: how a value is shown as text,
      read as an integer or as a truth value, how text is lowered, what counts
      as white space and as the URL of a server. */
  datatype Library = Library(show: Json -> string, readInt: Json -> Option<int>, truth: Json -> bool,
                             lower: string -> string, space: char -> bool, serverUrl: string -> bool)

  /** Text shows as itself, an integer reads as itself, and a truth value is itself. */
  ghost predicate Faithful(lib: Library) {
    && (forall s: string :: lib.show(Str(s)) == s)
    && (forall n: int :: lib.readInt(Number(n)) == Some(n))
    && (forall b: bool :: lib.truth(Bool(b)) == b)
  }

  // ----- what a valid configuration is -----

  predicate NameStart(c: char) { 'A' <= c <= 'Z' || 'a' <= c <= 'z' || c == '_' }

  predicate NameChar(c: char) { NameStart(c) || '0' <= c <= '9' || c == '.' || c == '-' }

  predicate ValidName(s: string) {
    1 <= |s| <= 128 && NameStart(s[0]) && forall i | 0 <= i < |s| :: NameChar(s[i])
  }

  predicate ValidEnvironmentName(s: string) { s != "" && '=' !in s && '\0' !in s }

  predicate Unique(values: seq<string>) {
    forall i, j | 0 <= i < j < |values| :: values[i] != values[j]
  }

  predicate ValidReference(r: EnvironmentReference) {
    ValidName(r.name) && ValidEnvironmentName(r.sourceEnv)
  }

  predicate ValidEnvironmentBinding(b: Binding) { ValidEnvironmentName(b.name) && ValidName(b.reference) }

  predicate ValidHeaderBinding(b: Binding) {
    b.name != "" && ':' !in b.name && '\r' !in b.name && '\n' !in b.name && '\0' !in b.name && ValidName(b.reference)
  }

  function BindingNames(bindings: seq<Binding>): seq<string> {
    seq(|bindings|, i requires 0 <= i < |bindings| => bindings[i].name)
  }

  function LoweredNames(lib: Library, bindings: seq<Binding>): seq<string> {
    seq(|bindings|, i requires 0 <= i < |bindings| => lib.lower(bindings[i].name))
  }

  predicate ValidServer(lib: Library, s: Server) {
    && ValidName(s.name) && (s.timeout.Some? ==> s.timeout.value > 0) && Unique(s.tools)
    && match s
       case Stdio(_, command, _, environment, _, _, _) =>
         && command != "" && '\0' !in command && Unique(BindingNames(environment))
         && forall i | 0 <= i < |environment| :: ValidEnvironmentBinding(environment[i])
       case Http(_, url, headers, _, _) =>
         && lib.serverUrl(url) && Unique(LoweredNames(lib, headers))
         && forall i | 0 <= i < |headers| :: ValidHeaderBinding(headers[i])
  }

  predicate ValidAgent(lib: Library, a: Agent) {
    && ValidName(a.name) && (exists i | 0 <= i < |a.prompt| :: !lib.space(a.prompt[i]))
    && (a.effort.Some? ==> a.effort.value in ["low", "medium", "high", "xhigh", "max"])
    && (a.tools.Some? ==> Unique(a.tools.value)) && Unique(a.skills) && Unique(a.servers)
  }

  function ServerBindings(s: Server): seq<Binding> {
    match s
    case Stdio(_, _, _, environment, _, _, _) => environment
    case Http(_, _, headers, _, _) => headers
  }

  function ReferenceNames(c: Config): seq<string> {
    seq(|c.references|, i requires 0 <= i < |c.references| => c.references[i].name)
  }

  function ServerNames(c: Config): seq<string> {
    seq(|c.servers|, i requires 0 <= i < |c.servers| => c.servers[i].name)
  }

  function AgentNames(c: Config): seq<string> {
    seq(|c.agents|, i requires 0 <= i < |c.agents| => c.agents[i].name)
  }

  /** The checks across a whole configuration. */
  predicate Coherent(c: Config) {
    && Unique(ReferenceNames(c)) && Unique(ServerNames(c)) && Unique(AgentNames(c))
    && Unique(c.skillDirectories) && Unique(c.disabledSkills) && Unique(c.pluginDirectories)
    && (forall i, j | 0 <= i < |c.servers| && 0 <= j < |ServerBindings(c.servers[i])| ::
          ServerBindings(c.servers[i])[j].reference in ReferenceNames(c))
    && (forall i, j | 0 <= i < |c.agents| && 0 <= j < |c.agents[i].servers| ::
          c.agents[i].servers[j] in ServerNames(c))
  }

  predicate Valid(lib: Library, c: Config) {
    && (forall i | 0 <= i < |c.references| :: ValidReference(c.references[i]))
    && (forall i | 0 <= i < |c.servers| :: ValidServer(lib, c.servers[i]))
    && (forall i | 0 <= i < |c.agents| :: ValidAgent(lib, c.agents[i]))
    && Coherent(c)
  }

  // ----- printing -----

  function Strings(values: seq<string>): Json {
    List(seq(|values|, i requires 0 <= i < |values| => Str(values[i])))
  }

  function OrNull(value: Option<string>): Json { if value.Some? then Str(value.value) else Null }

  function TimeoutJson(timeout: Option<int>): Json { if timeout.Some? then Number(timeout.value) else Null }

  function ReferenceJson(r: EnvironmentReference): Json {
    Object(map["name" := Str(r.name), "source_env" := Str(r.sourceEnv)])
  }

  function BindingJson(b: Binding): Json {
    Object(map["name" := Str(b.name), "reference" := Str(b.reference)])
  }

  function ServerJson(s: Server): Json {
    match s
    case Stdio(name, command, args, environment, workingDirectory, tools, timeout) =>
      Object(map["name" := Str(name), "transport" := Str("stdio"), "command" := Str(command),
                 "args" := Strings(args), "environment" := ListOf(environment, BindingJson),
                 "working_directory" := OrNull(workingDirectory), "tools" := Strings(tools),
                 "timeout_ms" := TimeoutJson(timeout)])
    case Http(name, url, headers, tools, timeout) =>
      Object(map["name" := Str(name), "transport" := Str("http"), "url" := Str(url),
                 "headers" := ListOf(headers, BindingJson), "tools" := Strings(tools),
                 "timeout_ms" := TimeoutJson(timeout)])
  }

  function AgentJson(a: Agent): Json {
    Object(map["name" := Str(a.name), "display_name" := OrNull(a.displayName),
               "description" := Str(a.description), "prompt" := Str(a.prompt),
               "tools" := if a.tools.Some? then Strings(a.tools.value) else Null,
               "skills" := Strings(a.skills), "mcp_server_names" := Strings(a.servers),
               "infer" := if a.infer.Some? then Bool(a.infer.value) else Null,
               "model" := OrNull(a.model), "reasoning_effort" := OrNull(a.effort)])
  }

  function ListOf<T>(items: seq<T>, print_: T -> Json): Json {
    List(seq(|items|, i requires 0 <= i < |items| => print_(items[i])))
  }

  /** `to_dict`. */
  function ToDict(c: Config): Json {
    Object(map["environment_references" := ListOf(c.references, ReferenceJson),
               "mcp_servers" := ListOf(c.servers, ServerJson),
               "skill_directories" := Strings(c.skillDirectories),
               "disabled_skills" := Strings(c.disabledSkills),
               "plugin_directories" := Strings(c.pluginDirectories),
               "custom_agents" := ListOf(c.agents, AgentJson)])
  }

  // ----- parsing; None is the configuration error -----

  function Get(fields: map<string, Json>, key: string, default: Json): Json {
    if key in fields then fields[key] else default
  }

  /** `_string_tuple`. */
  function StringList(j: Json): Option<seq<string>> {
    if j.List? && forall i | 0 <= i < |j.items| :: j.items[i].Str?
    then Some(seq(|j.items|, i requires 0 <= i < |j.items| && forall k | 0 <= k < |j.items| :: j.items[k].Str? => j.items[i].s))
    else None
  }

  /** Parse every object of a list. */
  function Each<T>(items: seq<Json>, parse: map<string, Json> -> Option<T>): Option<seq<T>> {
    if items == [] then Some([])
    else if !items[0].Object? then None
    else
      var first, rest := parse(items[0].fields), Each(items[1..], parse);
      if first.Some? && rest.Some? then Some([first.value] + rest.value) else None
  }

  /** `_mapping_list` and the parse of its members. */
  function ObjectList<T>(j: Json, parse: map<string, Json> -> Option<T>): Option<seq<T>> {
    if j.List? then Each(j.items, parse) else None
  }

  function Text(lib: Library, j: Json): Option<string> {
    if j == Null then None else Some(lib.show(j))
  }

  /** `_optional_int`; the outer None is the error. */
  function OptionalInt(lib: Library, j: Json): Option<Option<int>> {
    if j == Null then Some(None)
    else if j.Bool? then None
    else
      var n := lib.readInt(j);
      if n.Some? then Some(n) else None
  }

  function ReadReference(lib: Library, fields: map<string, Json>): Option<EnvironmentReference> {
    if !(fields.Keys <= {"name", "source_env"}) || "name" !in fields || "source_env" !in fields then None
    else
      var r := EnvironmentReference(lib.show(fields["name"]), lib.show(fields["source_env"]));
      if ValidReference(r) then Some(r) else None
  }

  function ReadBinding(lib: Library, fields: map<string, Json>): Option<Binding> {
    if !(fields.Keys <= {"name", "reference"}) || "name" !in fields || "reference" !in fields then None
    else Some(Binding(lib.show(fields["name"]), lib.show(fields["reference"])))
  }

  function StdioKeys(): set<string> {
    {"name", "transport", "command", "args", "environment", "working_directory", "tools", "timeout_ms"}
  }

  function HttpKeys(): set<string> { {"name", "transport", "url", "headers", "tools", "timeout_ms"} }

  function ReadStdio(lib: Library, fields: map<string, Json>): Option<Server> {
    var environment := ObjectList(Get(fields, "environment", List([])), f => ReadBinding(lib, f));
    var args, tools := StringList(Get(fields, "args", List([]))), StringList(Get(fields, "tools", List([Str("*")])));
    var timeout := OptionalInt(lib, Get(fields, "timeout_ms", Null));
    if !(fields.Keys <= StdioKeys()) || "name" !in fields || "command" !in fields
       || environment.None? || args.None? || tools.None? || timeout.None? then None
    else
      Some(Stdio(lib.show(fields["name"]), lib.show(fields["command"]), args.value, environment.value,
                 Text(lib, Get(fields, "working_directory", Null)), tools.value, timeout.value))
  }

  function ReadHttp(lib: Library, fields: map<string, Json>): Option<Server> {
    var headers := ObjectList(Get(fields, "headers", List([])), f => ReadBinding(lib, f));
    var tools, timeout := StringList(Get(fields, "tools", List([Str("*")]))), OptionalInt(lib, Get(fields, "timeout_ms", Null));
    if !(fields.Keys <= HttpKeys()) || "name" !in fields || "url" !in fields
       || headers.None? || tools.None? || timeout.None? then None
    else Some(Http(lib.show(fields["name"]), lib.show(fields["url"]), headers.value, tools.value, timeout.value))
  }

  /** `_mcp_from_dict` and the checks of the server it makes. */
  function ReadServer(lib: Library, fields: map<string, Json>): Option<Server> {
    if "transport" !in fields then None
    else
      var transport := lib.show(fields["transport"]);
      var server :=
        if transport == "stdio" then ReadStdio(lib, fields)
        else if transport == "http" then ReadHttp(lib, fields)
        else None;
      if server.Some? && ValidServer(lib, server.value) then server else None
  }

  function AgentKeys(): set<string> {
    {"name", "display_name", "description", "prompt", "tools", "skills", "mcp_server_names", "infer", "model",
     "reasoning_effort"}
  }

  function ReadAgent(lib: Library, fields: map<string, Json>): Option<Agent> {
    var tools := if Get(fields, "tools", Null) == Null then Some(None) else Boxed(StringList(fields["tools"]));
    var skills := StringList(Get(fields, "skills", List([])));
    var servers := StringList(Get(fields, "mcp_server_names", List([])));
    if !(fields.Keys <= AgentKeys()) || "name" !in fields || "prompt" !in fields
       || tools.None? || skills.None? || servers.None? then None
    else
      var infer := Get(fields, "infer", Null);
      var a := Agent(lib.show(fields["name"]), Text(lib, Get(fields, "display_name", Null)),
                     lib.show(Get(fields, "description", Str(""))), lib.show(fields["prompt"]),
                     tools.value, skills.value, servers.value,
                     if infer == Null then None else Some(lib.truth(infer)),
                     Text(lib, Get(fields, "model", Null)), Text(lib, Get(fields, "reasoning_effort", Null)));
      if ValidAgent(lib, a) then Some(a) else None
  }

  function Boxed<T>(x: Option<T>): Option<Option<T>> { if x.Some? then Some(x) else None }

  function ConfigKeys(): set<string> {
    {"environment_references", "mcp_servers", "skill_directories", "disabled_skills", "plugin_directories",
     "custom_agents"}
  }

  /** `from_dict`. */
  function FromDict(lib: Library, j: Json): Option<Config> {
    if !j.Object? || !(j.fields.Keys <= ConfigKeys()) then None
    else
      var references := ObjectList(Get(j.fields, "environment_references", List([])), f => ReadReference(lib, f));
      var servers := ObjectList(Get(j.fields, "mcp_servers", List([])), f => ReadServer(lib, f));
      var agents := ObjectList(Get(j.fields, "custom_agents", List([])), f => ReadAgent(lib, f));
      var skills := StringList(Get(j.fields, "skill_directories", List([])));
      var disabled := StringList(Get(j.fields, "disabled_skills", List([])));
      var plugins := StringList(Get(j.fields, "plugin_directories", List([])));
      if references.None? || servers.None? || agents.None? || skills.None? || disabled.None? || plugins.None? then None
      else
        var c := Config(references.value, servers.value, skills.value, disabled.value, plugins.value, agents.value);
        if Coherent(c) then Some(c) else None
  }

  // ----- the round trip -----

  lemma StringsRoundTrip(values: seq<string>)
    ensures StringList(Strings(values)) == Some(values)
  {
    assert StringList(Strings(values)).value == values;
  }

  lemma {:induction false} EachRoundTrip<T(!new)>(items: seq<T>, print_: T -> Json, parse: map<string, Json> -> Option<T>)
    requires forall i | 0 <= i < |items| :: print_(items[i]).Object? && parse(print_(items[i]).fields) == Some(items[i])
    ensures ObjectList(ListOf(items, print_), parse) == Some(items)
  {
    var js := ListOf(items, print_).items;
    if items != [] {
      EachRoundTrip(items[1..], print_, parse);
      assert js[1..] == ListOf(items[1..], print_).items;
      assert js[0] == print_(items[0]);
      assert [items[0]] + items[1..] == items;
    }
  }

  lemma BindingRoundTrip(lib: Library, b: Binding)
    requires Faithful(lib)
    ensures ReadBinding(lib, BindingJson(b).fields) == Some(b)
  {
  }

  lemma StdioRoundTrip(lib: Library, s: Server)
    requires Faithful(lib) && s.Stdio?
    ensures ServerJson(s).Object? && ReadStdio(lib, ServerJson(s).fields) == Some(s)
  {
    var fields := ServerJson(s).fields;
    assert fields.Keys == StdioKeys();
    StringsRoundTrip(s.tools);
    StringsRoundTrip(s.args);
    forall i | 0 <= i < |s.environment|
      ensures ReadBinding(lib, BindingJson(s.environment[i]).fields) == Some(s.environment[i])
    {
      BindingRoundTrip(lib, s.environment[i]);
    }
    EachRoundTrip(s.environment, BindingJson, f => ReadBinding(lib, f));
  }

  lemma HttpRoundTrip(lib: Library, s: Server)
    requires Faithful(lib) && s.Http?
    ensures ServerJson(s).Object? && ReadHttp(lib, ServerJson(s).fields) == Some(s)
  {
    var fields := ServerJson(s).fields;
    assert fields.Keys == HttpKeys();
    StringsRoundTrip(s.tools);
    forall i | 0 <= i < |s.headers| ensures ReadBinding(lib, BindingJson(s.headers[i]).fields) == Some(s.headers[i]) {
      BindingRoundTrip(lib, s.headers[i]);
    }
    EachRoundTrip(s.headers, BindingJson, f => ReadBinding(lib, f));
  }

  lemma ServerRoundTrip(lib: Library, s: Server)
    requires Faithful(lib) && ValidServer(lib, s)
    ensures ReadServer(lib, ServerJson(s).fields) == Some(s)
  {
    if s.Stdio? { StdioRoundTrip(lib, s); } else { HttpRoundTrip(lib, s); }
  }

  lemma AgentKeysMatch(a: Agent)
    ensures AgentJson(a).Object? && AgentJson(a).fields.Keys == AgentKeys()
  {
  }

  lemma AgentRoundTrip(lib: Library, a: Agent)
    requires Faithful(lib) && ValidAgent(lib, a)
    ensures ReadAgent(lib, AgentJson(a).fields) == Some(a)
  {
    AgentKeysMatch(a);
    if a.tools.Some? { StringsRoundTrip(a.tools.value); }
    StringsRoundTrip(a.skills);
    StringsRoundTrip(a.servers);
  }

  lemma ListsRoundTrip(lib: Library, c: Config)
    requires Faithful(lib) && Valid(lib, c)
    ensures ObjectList(ListOf(c.references, ReferenceJson), f => ReadReference(lib, f)) == Some(c.references)
    ensures ObjectList(ListOf(c.servers, ServerJson), f => ReadServer(lib, f)) == Some(c.servers)
    ensures ObjectList(ListOf(c.agents, AgentJson), f => ReadAgent(lib, f)) == Some(c.agents)
  {
    forall i | 0 <= i < |c.servers| ensures ReadServer(lib, ServerJson(c.servers[i]).fields) == Some(c.servers[i]) {
      ServerRoundTrip(lib, c.servers[i]);
    }
    forall i | 0 <= i < |c.agents| ensures ReadAgent(lib, AgentJson(c.agents[i]).fields) == Some(c.agents[i]) {
      AgentRoundTrip(lib, c.agents[i]);
    }
    EachRoundTrip(c.references, ReferenceJson, f => ReadReference(lib, f));
    EachRoundTrip(c.servers, ServerJson, f => ReadServer(lib, f));
    EachRoundTrip(c.agents, AgentJson, f => ReadAgent(lib, f));
  }

  /** Every valid configuration survives being printed and parsed. */
  lemma RoundTrip(lib: Library, c: Config)
    requires Faithful(lib) && Valid(lib, c)
    ensures FromDict(lib, ToDict(c)) == Some(c)
  {
    assert ToDict(c).fields.Keys == ConfigKeys();
    ListsRoundTrip(lib, c);
    StringsRoundTrip(c.skillDirectories);
    StringsRoundTrip(c.disabledSkills);
    StringsRoundTrip(c.pluginDirectories);
  }

  // ----- what may be left out -----

  /** `fields` is the printed form but for some keys whose value is the default. */
  predicate Omits(printed: map<string, Json>, fields: map<string, Json>, defaults: map<string, Json>) {
    && fields.Keys <= printed.Keys
    && (forall k | k in fields :: fields[k] == printed[k])
    && (forall k | k in printed && k !in fields :: k in defaults && printed[k] == defaults[k])
  }

  function StdioDefaults(): map<string, Json> {
    map["args" := List([]), "environment" := List([]), "working_directory" := Null, "tools" := List([Str("*")]), "timeout_ms" := Null]
  }

  function HttpDefaults(): map<string, Json> {
    map["headers" := List([]), "tools" := List([Str("*")]), "timeout_ms" := Null]
  }

  function AgentDefaults(): map<string, Json> {
    map["display_name" := Null, "description" := Str(""), "tools" := Null, "skills" := List([]), "mcp_server_names" := List([]),
        "infer" := Null, "model" := Null, "reasoning_effort" := Null]
  }

  lemma OmittedKeepsValue(printed: map<string, Json>, fields: map<string, Json>, defaults: map<string, Json>, key: string)
    requires Omits(printed, fields, defaults) && key in printed && key in defaults
    ensures Get(fields, key, defaults[key]) == printed[key]
  {
  }

  lemma StdioReadsSame(lib: Library, printed: map<string, Json>, fields: map<string, Json>)
    requires printed.Keys == StdioKeys() && Omits(printed, fields, StdioDefaults())
    ensures ReadStdio(lib, fields) == ReadStdio(lib, printed)
    ensures "transport" in fields && fields["transport"] == printed["transport"]
  {
    OmittedKeepsValue(printed, fields, StdioDefaults(), "args");
    OmittedKeepsValue(printed, fields, StdioDefaults(), "environment");
    OmittedKeepsValue(printed, fields, StdioDefaults(), "working_directory");
    OmittedKeepsValue(printed, fields, StdioDefaults(), "tools");
    OmittedKeepsValue(printed, fields, StdioDefaults(), "timeout_ms");
  }

  lemma HttpReadsSame(lib: Library, printed: map<string, Json>, fields: map<string, Json>)
    requires printed.Keys == HttpKeys() && Omits(printed, fields, HttpDefaults())
    ensures ReadHttp(lib, fields) == ReadHttp(lib, printed)
    ensures "transport" in fields && fields["transport"] == printed["transport"]
  {
    OmittedKeepsValue(printed, fields, HttpDefaults(), "headers");
    OmittedKeepsValue(printed, fields, HttpDefaults(), "tools");
    OmittedKeepsValue(printed, fields, HttpDefaults(), "timeout_ms");
  }

  lemma AgentReadsSame(lib: Library, printed: map<string, Json>, fields: map<string, Json>)
    requires printed.Keys == AgentKeys() && Omits(printed, fields, AgentDefaults())
    ensures ReadAgent(lib, fields) == ReadAgent(lib, printed)
  {
    OmittedKeepsValue(printed, fields, AgentDefaults(), "display_name");
    OmittedKeepsValue(printed, fields, AgentDefaults(), "description");
    OmittedKeepsValue(printed, fields, AgentDefaults(), "tools");
    OmittedKeepsValue(printed, fields, AgentDefaults(), "skills");
    OmittedKeepsValue(printed, fields, AgentDefaults(), "mcp_server_names");
    OmittedKeepsValue(printed, fields, AgentDefaults(), "infer");
    OmittedKeepsValue(printed, fields, AgentDefaults(), "model");
    OmittedKeepsValue(printed, fields, AgentDefaults(), "reasoning_effort");
  }

  lemma ServerKeysMatch(s: Server)
    ensures ServerJson(s).fields.Keys == if s.Stdio? then StdioKeys() else HttpKeys()
    ensures ServerJson(s).fields["transport"] == Str(if s.Stdio? then "stdio" else "http")
  {
  }

  /** A server is read back from its printed form without any keys that have
      their default values. */
  lemma ServerMayOmit(lib: Library, s: Server, j: Json)
    requires Faithful(lib) && ValidServer(lib, s) && OmitsServer(s, j)
    ensures ReadServer(lib, j.fields) == Some(s)
  {
    ServerKeysMatch(s);
    if s.Stdio? {
      StdioRoundTrip(lib, s);
      StdioReadsSame(lib, ServerJson(s).fields, j.fields);
    } else {
      HttpRoundTrip(lib, s);
      HttpReadsSame(lib, ServerJson(s).fields, j.fields);
    }
  }

  lemma AgentMayOmit(lib: Library, a: Agent, j: Json)
    requires Faithful(lib) && ValidAgent(lib, a) && OmitsAgent(a, j)
    ensures ReadAgent(lib, j.fields) == Some(a)
  {
    AgentRoundTrip(lib, a);
    AgentKeysMatch(a);
    AgentReadsSame(lib, AgentJson(a).fields, j.fields);
  }

  predicate OmitsServer(s: Server, j: Json) {
    j.Object? && Omits(ServerJson(s).fields, j.fields, if s.Stdio? then StdioDefaults() else HttpDefaults())
  }

  predicate OmitsAgent(a: Agent, j: Json) {
    j.Object? && Omits(AgentJson(a).fields, j.fields, AgentDefaults())
  }

  /** Each object stands for the item of its place. */
  ghost predicate Stands<T>(items: seq<T>, j: Json, standsFor: (T, Json) -> bool) {
    j.List? && |j.items| == |items| && forall i | 0 <= i < |items| :: standsFor(items[i], j.items[i])
  }

  /** `fields` is the printed configuration without some empty lists, and without
      some keys of servers and agents that have their default values. */
  ghost predicate OmitsConfig(c: Config, fields: map<string, Json>) {
    && fields.Keys <= ConfigKeys()
    && (if "environment_references" in fields then fields["environment_references"] == ListOf(c.references, ReferenceJson)
        else c.references == [])
    && (if "mcp_servers" in fields then Stands(c.servers, fields["mcp_servers"], OmitsServer) else c.servers == [])
    && (if "custom_agents" in fields then Stands(c.agents, fields["custom_agents"], OmitsAgent) else c.agents == [])
    && (if "skill_directories" in fields then fields["skill_directories"] == Strings(c.skillDirectories) else c.skillDirectories == [])
    && (if "disabled_skills" in fields then fields["disabled_skills"] == Strings(c.disabledSkills) else c.disabledSkills == [])
    && (if "plugin_directories" in fields then fields["plugin_directories"] == Strings(c.pluginDirectories)
        else c.pluginDirectories == [])
  }

  lemma {:induction false} EachStands<T(!new)>(items: seq<T>, js: seq<Json>, parse: map<string, Json> -> Option<T>)
    requires |js| == |items| && forall i | 0 <= i < |items| :: js[i].Object? && parse(js[i].fields) == Some(items[i])
    ensures Each(js, parse) == Some(items)
  {
    if items != [] {
      EachStands(items[1..], js[1..], parse);
      assert [items[0]] + items[1..] == items;
    }
  }

  /** Every valid configuration is read back from its printed form, whatever
      defaults are left out of it. */
  lemma MayOmitDefaults(lib: Library, c: Config, fields: map<string, Json>)
    requires Faithful(lib) && Valid(lib, c) && OmitsConfig(c, fields)
    ensures FromDict(lib, Object(fields)) == Some(c)
  {
    ObjectsMayOmit(lib, c, fields);
    StringsMayOmit(c.skillDirectories, fields, "skill_directories");
    StringsMayOmit(c.disabledSkills, fields, "disabled_skills");
    StringsMayOmit(c.pluginDirectories, fields, "plugin_directories");
  }

  lemma ObjectsMayOmit(lib: Library, c: Config, fields: map<string, Json>)
    requires Faithful(lib) && Valid(lib, c) && OmitsConfig(c, fields)
    ensures ObjectList(Get(fields, "environment_references", List([])), f => ReadReference(lib, f)) == Some(c.references)
    ensures ObjectList(Get(fields, "mcp_servers", List([])), f => ReadServer(lib, f)) == Some(c.servers)
    ensures ObjectList(Get(fields, "custom_agents", List([])), f => ReadAgent(lib, f)) == Some(c.agents)
  {
    ReferencesMayOmit(lib, c, Get(fields, "environment_references", List([])));
    ServersMayOmit(lib, c, Get(fields, "mcp_servers", List([])));
    AgentsMayOmit(lib, c, Get(fields, "custom_agents", List([])));
  }

  lemma StringsMayOmit(values: seq<string>, fields: map<string, Json>, key: string)
    requires if key in fields then fields[key] == Strings(values) else values == []
    ensures StringList(Get(fields, key, List([]))) == Some(values)
  {
    StringsRoundTrip(values);
  }

  lemma ReferencesMayOmit(lib: Library, c: Config, j: Json)
    requires Faithful(lib) && Valid(lib, c)
    requires j == ListOf(c.references, ReferenceJson) || (c.references == [] && j == List([]))
    ensures ObjectList(j, f => ReadReference(lib, f)) == Some(c.references)
  {
    ListsRoundTrip(lib, c);
  }

  lemma ServersMayOmit(lib: Library, c: Config, j: Json)
    requires Faithful(lib) && Valid(lib, c) && Stands(c.servers, j, OmitsServer)
    ensures ObjectList(j, f => ReadServer(lib, f)) == Some(c.servers)
  {
    forall i | 0 <= i < |c.servers| ensures j.items[i].Object? && ReadServer(lib, j.items[i].fields) == Some(c.servers[i]) {
      ServerMayOmit(lib, c.servers[i], j.items[i]);
    }
    EachStands(c.servers, j.items, f => ReadServer(lib, f));
  }

  lemma AgentsMayOmit(lib: Library, c: Config, j: Json)
    requires Faithful(lib) && Valid(lib, c) && Stands(c.agents, j, OmitsAgent)
    ensures ObjectList(j, f => ReadAgent(lib, f)) == Some(c.agents)
  {
    forall i | 0 <= i < |c.agents| ensures j.items[i].Object? && ReadAgent(lib, j.items[i].fields) == Some(c.agents[i]) {
      AgentMayOmit(lib, c.agents[i], j.items[i]);
    }
    EachStands(c.agents, j.items, f => ReadAgent(lib, f));
  }

  /** Only valid configurations are accepted. */
  lemma {:induction false} EachAccepts<T(!new)>(items: seq<Json>, parse: map<string, Json> -> Option<T>, good: T -> bool)
    requires forall f | parse(f).Some? :: good(parse(f).value)
    requires Each(items, parse).Some?
    ensures forall i | 0 <= i < |Each(items, parse).value| :: good(Each(items, parse).value[i])
  {
    if items != [] { EachAccepts(items[1..], parse, good); }
  }

  lemma ParsedIsValid(lib: Library, j: Json)
    requires FromDict(lib, j).Some?
    ensures Valid(lib, FromDict(lib, j).value)
  {
    EachAccepts(Get(j.fields, "environment_references", List([])).items, f => ReadReference(lib, f), r => ValidReference(r));
    EachAccepts(Get(j.fields, "mcp_servers", List([])).items, f => ReadServer(lib, f), s => ValidServer(lib, s));
    EachAccepts(Get(j.fields, "custom_agents", List([])).items, f => ReadAgent(lib, f), a => ValidAgent(lib, a));
  }

  predicate IsName(s: string) {
    && 1 <= |s| <= 128 && !('0' <= s[0] <= '9') && s[0] != '.' && s[0] != '-'
    && forall c | c in s :: 'a' <= c <= 'z' || 'A' <= c <= 'Z' || '0' <= c <= '9' || c == '_' || c == '.' || c == '-'
  }

  lemma NamesAre(s: string)
    ensures ValidName(s) <==> IsName(s)
  {
    if ValidName(s) {
      forall c | c in s ensures NameChar(c) {
        var i :| 0 <= i < |s| && s[i] == c;
      }
    }
    if IsName(s) {
      assert s[0] in s;
      assert forall i | 0 <= i < |s| :: s[i] in s;
    }
  }

  /** What holds of every server that is accepted. */
  lemma AcceptedServers(lib: Library, j: Json, i: nat)
    requires FromDict(lib, j).Some? && i < |FromDict(lib, j).value.servers|
    ensures var (c, s) := (FromDict(lib, j).value, FromDict(lib, j).value.servers[i]);
      && IsName(s.name) && (s.timeout.Some? ==> s.timeout.value >= 1)
      && (forall k | 0 <= k < |c.servers| && k != i :: c.servers[k].name != s.name)
      && (s.Stdio? ==> s.command != "" && '\0' !in s.command)
      && (s.Http? ==> lib.serverUrl(s.url))
      && forall b | b in ServerBindings(s) ::
           && IsName(b.reference) && (exists r | r in c.references :: r.name == b.reference)
           && b.name != "" && '\0' !in b.name
           && (s.Stdio? ==> '=' !in b.name) && (s.Http? ==> ':' !in b.name && '\r' !in b.name && '\n' !in b.name)
  {
    ParsedIsValid(lib, j);
    var c := FromDict(lib, j).value;
    var s := c.servers[i];
    NamesAre(s.name);
    forall k | 0 <= k < |c.servers| && k != i ensures c.servers[k].name != s.name {
      assert ServerNames(c)[k] != ServerNames(c)[i];
    }
    forall b | b in ServerBindings(s) ensures IsName(b.reference) && exists r | r in c.references :: r.name == b.reference {
      var m :| 0 <= m < |ServerBindings(s)| && ServerBindings(s)[m] == b;
      NamesAre(b.reference);
      assert ServerBindings(c.servers[i])[m].reference in ReferenceNames(c);
      var n :| 0 <= n < |c.references| && ReferenceNames(c)[n] == b.reference;
      assert c.references[n] in c.references;
    }
  }

  /** What holds of every agent that is accepted. */
  lemma AcceptedAgents(lib: Library, j: Json, i: nat)
    requires FromDict(lib, j).Some? && i < |FromDict(lib, j).value.agents|
    ensures var (c, a) := (FromDict(lib, j).value, FromDict(lib, j).value.agents[i]);
      && IsName(a.name) && (exists x | x in a.prompt :: !lib.space(x))
      && (a.effort.Some? ==> a.effort.value in {"low", "medium", "high", "xhigh", "max"})
      && (forall k | 0 <= k < |c.agents| && k != i :: c.agents[k].name != a.name)
      && forall n | n in a.servers :: exists s | s in c.servers :: s.name == n
  {
    ParsedIsValid(lib, j);
    var c := FromDict(lib, j).value;
    var a := c.agents[i];
    NamesAre(a.name);
    var x :| 0 <= x < |a.prompt| && !lib.space(a.prompt[x]);
    assert a.prompt[x] in a.prompt;
    forall k | 0 <= k < |c.agents| && k != i ensures c.agents[k].name != a.name {
      assert AgentNames(c)[k] != AgentNames(c)[i];
    }
    forall n | n in a.servers ensures exists s | s in c.servers :: s.name == n {
      var m :| 0 <= m < |a.servers| && a.servers[m] == n;
      assert c.agents[i].servers[m] in ServerNames(c);
      var k :| 0 <= k < |c.servers| && ServerNames(c)[k] == n;
      assert c.servers[k] in c.servers;
    }
  }

  /** What is printed determines the configuration, so equal digests mean equal
      configurations. */
  lemma PrintingIsInjective(lib: Library, c: Config, d: Config)
    requires Faithful(lib) && Valid(lib, c) && Valid(lib, d) && ToDict(c) == ToDict(d)
    ensures c == d
  {
    RoundTrip(lib, c);
    RoundTrip(lib, d);
  }

  // ----- what is stored of a configuration -----

  /** A digest never collides, so it is what it was computed from. */
  datatype Digest = Sha256(content: Json)

  function DigestOf(c: Config): Digest { Sha256(ToDict(c)) }

  /** `_snapshot_from_row`: parse what is stored and compare digests. */
  function Snapshot(lib: Library, digest: Digest, stored: Json): Option<Config> {
    var c := FromDict(lib, stored);
    if c.Some? && DigestOf(c.value) == digest then c else None
  }

  /** What is stored for a valid configuration is read back as that configuration. */
  lemma StoredReverifies(lib: Library, c: Config)
    requires Faithful(lib) && Valid(lib, c)
    ensures Snapshot(lib, DigestOf(c), ToDict(c)) == Some(c)
  {
    RoundTrip(lib, c);
  }

  /** Text that the printer makes of a valid configuration. */
  ghost predicate Printed(lib: Library, content: Json) {
    exists c :: Valid(lib, c) && content == ToDict(c)
  }
}
