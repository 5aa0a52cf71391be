/** The sections and fields of the program's settings, with their defaults (src/settings.rs). */
module SettingsSchema {
  import opened Wrappers
  import opened Settings

  /** None of the names that have another meaning at the top level. */
  ghost predicate Lacks(fields: Fields) {
    fields.Field? ==>
      && fields.name != "setup_completed" && fields.name != "extensions" && fields.name != "channel"
      && Lacks(fields.rest)
  }

  lemma {:induction false} LackedNames(fields: Fields)
    requires Lacks(fields)
    ensures "setup_completed" !in Entries(fields)
    ensures "extensions" !in Entries(fields) && "channel" !in Entries(fields)
  {
    if fields.Field? {
      LackedNames(fields.rest);
    }
  }

  const U16 := IntType(0, 0xFFFF)
  const U32 := IntType(0, 0xFFFF_FFFF)
  const U64 := IntType(0, U64_MAX)
  const I64 := IntType(-I64_MAX - 1, I64_MAX)

  function Unset(ty: Type): Schema {
    Leaf(OptionalType(ty), Null, Null)
  }

  function With(ty: Type, default: Json): Schema {
    Leaf(ty, default, default)
  }

  function Flag(b: bool): Schema {
    With(BoolType, Bool(b))
  }

  function Count(ty: Type, n: int): Schema {
    With(ty, Num(n))
  }

  function Word(t: string): Schema {
    With(TextType, Str(t))
  }

  function Words(): Schema {
    With(TextListType, Arr([]))
  }

  datatype Fields = End | Field(name: string, schema: Schema, rest: Fields)

  function Entries(fields: Fields): map<string, Schema> {
    if fields.End? then map[] else Entries(fields.rest)[fields.name := fields.schema]
  }

  function Section(fields: Fields): Schema {
    Node(Entries(fields), {})
  }

  ghost predicate FieldsOk(fields: Fields) {
    fields.Field? ==> Plain(fields.name) && WellFormed(fields.schema) && FieldsOk(fields.rest)
  }

  lemma {:induction false} SectionIsWellFormed(fields: Fields)
    requires FieldsOk(fields)
    ensures WellFormed(Section(fields))
  {
    if fields.Field? {
      SectionIsWellFormed(fields.rest);
    }
  }

  function Source(): Schema {
    With(ChoiceType({"keychain", "env", "none"}), Str("none"))
  }

  lemma SourceOk()
    ensures WellFormed(Source())
  {
  }

  lemma KindsOk()
    ensures forall b :: WellFormed(Flag(b))
    ensures forall n :: 0 <= n <= 0xFFFF_FFFF ==> WellFormed(Count(U32, n)) && WellFormed(Count(U64, n))
    ensures forall t :: WellFormed(Word(t))
    ensures WellFormed(Words())
    ensures WellFormed(Leaf(BoolType, Bool(false), Bool(true)))
    ensures WellFormed(Unset(TextType)) && WellFormed(Unset(U16)) && WellFormed(Unset(U64)) && WellFormed(Unset(I64))
  {
  }

  function EmbeddingsFields(): Fields {
    Field("enabled", Flag(false),
    Field("provider", Word("openai"),
    Field("model", Word("text-embedding-3-small"), End)))
  }

  lemma EmbeddingsFieldsOk()
    ensures FieldsOk(EmbeddingsFields())
  {
    hide WellFormed, Flag, Count, Word, Words, Unset;
    KindsOk();
  }

  function TunnelFields(): Fields {
    Field("public_url", Unset(TextType), End)
  }

  lemma TunnelFieldsOk()
    ensures FieldsOk(TunnelFields())
  {
    hide WellFormed, Flag, Count, Word, Words, Unset;
    KindsOk();
  }

  function ChannelsFields3(): Fields {
    Field("wasm_channels", Words(),
    Field("wasm_channels_enabled", Leaf(BoolType, Bool(false), Bool(true)),
    Field("wasm_channels_dir", Unset(TextType), End)))
  }

  lemma ChannelsFields3Ok()
    ensures FieldsOk(ChannelsFields3())
  {
    hide WellFormed, Flag, Count, Word, Words, Unset;
    KindsOk();
  }

  function ChannelsFields2(): Fields {
    Field("telegram_owner_id", Unset(I64),
    Field("discord_owner_id", Unset(TextType),
    Field("discord_dm_policy", Unset(TextType), ChannelsFields3())))
  }

  lemma ChannelsFields2Ok()
    ensures FieldsOk(ChannelsFields2())
  {
    hide WellFormed, Flag, Count, Word, Words, Unset, ChannelsFields3;
    KindsOk();
    ChannelsFields3Ok();
  }

  /** This section derives its Default, so WASM channels start out off; but an absent key reads as on. */
  function ChannelsFields(): Fields {
    Field("http_enabled", Flag(false),
    Field("http_port", Unset(U16),
    Field("http_host", Unset(TextType), ChannelsFields2())))
  }

  lemma ChannelsFieldsOk()
    ensures FieldsOk(ChannelsFields())
  {
    hide WellFormed, Flag, Count, Word, Words, Unset, ChannelsFields2;
    KindsOk();
    ChannelsFields2Ok();
  }

  function HeartbeatFields(): Fields {
    Field("enabled", Flag(false),
    Field("interval_secs", Count(U64, 1800),
    Field("notify_channel", Unset(TextType),
    Field("notify_user", Unset(TextType), End))))
  }

  lemma HeartbeatFieldsOk()
    ensures FieldsOk(HeartbeatFields())
  {
    hide WellFormed, Flag, Count, Word, Words, Unset;
    KindsOk();
  }

  function AgentFields3(): Fields {
    Field("max_repair_attempts", Count(U32, 3),
    Field("session_idle_timeout_secs", Count(U64, 7 * 24 * 3600), End))
  }

  lemma AgentFields3Ok()
    ensures FieldsOk(AgentFields3())
  {
    hide WellFormed, Flag, Count, Word, Words, Unset;
    KindsOk();
  }

  function AgentFields2(): Fields {
    Field("stuck_threshold_secs", Count(U64, 300),
    Field("use_planning", Flag(true),
    Field("repair_check_interval_secs", Count(U64, 60), AgentFields3())))
  }

  lemma AgentFields2Ok()
    ensures FieldsOk(AgentFields2())
  {
    hide WellFormed, Flag, Count, Word, Words, Unset, AgentFields3;
    KindsOk();
    AgentFields3Ok();
  }

  function AgentFields(): Fields {
    Field("name", Word("rustytalon"),
    Field("max_parallel_jobs", Count(U32, 5),
    Field("job_timeout_secs", Count(U64, 3600), AgentFields2())))
  }

  lemma AgentFieldsOk()
    ensures FieldsOk(AgentFields())
  {
    hide WellFormed, Flag, Count, Word, Words, Unset, AgentFields2;
    KindsOk();
    AgentFields2Ok();
  }

  function WasmFields2(): Fields {
    Field("default_fuel_limit", Count(U64, 10_000_000),
    Field("cache_compiled", Flag(true),
    Field("cache_dir", Unset(TextType), End)))
  }

  lemma WasmFields2Ok()
    ensures FieldsOk(WasmFields2())
  {
    hide WellFormed, Flag, Count, Word, Words, Unset;
    KindsOk();
  }

  function WasmFields(): Fields {
    Field("enabled", Flag(true),
    Field("tools_dir", Unset(TextType),
    Field("default_memory_limit", Count(U64, 10 * 1024 * 1024),
    Field("default_timeout_secs", Count(U64, 60), WasmFields2()))))
  }

  lemma WasmFieldsOk()
    ensures FieldsOk(WasmFields())
  {
    hide WellFormed, Flag, Count, Word, Words, Unset, WasmFields2;
    KindsOk();
    WasmFields2Ok();
  }

  function SandboxFields2(): Fields {
    Field("cpu_shares", Count(U32, 1024),
    Field("image", Word("rustytalon-worker:latest"),
    Field("auto_pull_image", Flag(true),
    Field("extra_allowed_domains", Words(), End))))
  }

  lemma SandboxFields2Ok()
    ensures FieldsOk(SandboxFields2())
  {
    hide WellFormed, Flag, Count, Word, Words, Unset;
    KindsOk();
  }

  function SandboxFields(): Fields {
    Field("enabled", Flag(true),
    Field("policy", Word("readonly"),
    Field("timeout_secs", Count(U64, 120),
    Field("memory_limit_mb", Count(U64, 2048), SandboxFields2()))))
  }

  lemma SandboxFieldsOk()
    ensures FieldsOk(SandboxFields())
  {
    hide WellFormed, Flag, Count, Word, Words, Unset, SandboxFields2;
    KindsOk();
    SandboxFields2Ok();
  }

  function SafetyFields(): Fields {
    Field("max_output_length", Count(U64, 100_000),
    Field("injection_check_enabled", Flag(true), End))
  }

  lemma SafetyFieldsOk()
    ensures FieldsOk(SafetyFields())
  {
    hide WellFormed, Flag, Count, Word, Words, Unset;
    KindsOk();
  }

  function BuilderFields(): Fields {
    Field("enabled", Flag(true),
    Field("build_dir", Unset(TextType),
    Field("max_iterations", Count(U32, 20),
    Field("timeout_secs", Count(U64, 600),
    Field("auto_register", Flag(true), End)))))
  }

  lemma BuilderFieldsOk()
    ensures FieldsOk(BuilderFields())
  {
    hide WellFormed, Flag, Count, Word, Words, Unset;
    KindsOk();
  }

  function RootFields5(): Fields {
    Field("sandbox", Section(SandboxFields()),
    Field("safety", Section(SafetyFields()),
    Field("builder", Section(BuilderFields()), End)))
  }

  lemma RootFields5Ok()
    ensures FieldsOk(RootFields5())
  {
    hide WellFormed, Flag, Count, Word, Words, Unset, Section, SandboxFields, SafetyFields, BuilderFields;
    KindsOk();
    SandboxFieldsOk();
    SectionIsWellFormed(SandboxFields());
    SafetyFieldsOk();
    SectionIsWellFormed(SafetyFields());
    BuilderFieldsOk();
    SectionIsWellFormed(BuilderFields());
  }

  lemma RootFields5Names()
    ensures Lacks(RootFields5())
  {
    hide Section;
  }

  function RootFields4(): Fields {
    Field("heartbeat", Section(HeartbeatFields()),
    Field("agent", Section(AgentFields()),
    Field("wasm", Section(WasmFields()), RootFields5())))
  }

  lemma RootFields4Ok()
    ensures FieldsOk(RootFields4())
  {
    hide WellFormed, Flag, Count, Word, Words, Unset, RootFields5, Section, HeartbeatFields, AgentFields, WasmFields;
    KindsOk();
    RootFields5Ok();
    HeartbeatFieldsOk();
    SectionIsWellFormed(HeartbeatFields());
    AgentFieldsOk();
    SectionIsWellFormed(AgentFields());
    WasmFieldsOk();
    SectionIsWellFormed(WasmFields());
  }

  lemma RootFields4Names()
    ensures Lacks(RootFields4())
  {
    hide Section, RootFields5;
    RootFields5Names();
  }

  function RootFields3(): Fields {
    Field("embeddings", Section(EmbeddingsFields()),
    Field("tunnel", Section(TunnelFields()),
    Field("channels", Section(ChannelsFields()), RootFields4())))
  }

  lemma RootFields3Ok()
    ensures FieldsOk(RootFields3())
  {
    hide WellFormed, Flag, Count, Word, Words, Unset, RootFields4, Section;
    hide EmbeddingsFields, TunnelFields, ChannelsFields;
    KindsOk();
    RootFields4Ok();
    EmbeddingsFieldsOk();
    SectionIsWellFormed(EmbeddingsFields());
    TunnelFieldsOk();
    SectionIsWellFormed(TunnelFields());
    ChannelsFieldsOk();
    SectionIsWellFormed(ChannelsFields());
  }

  lemma RootFields3Names()
    ensures Lacks(RootFields3())
  {
    hide Section, RootFields4;
    RootFields4Names();
  }

  function RootFields2(): Fields {
    Field("libsql_path", Unset(TextType),
    Field("libsql_url", Unset(TextType),
    Field("secrets_master_key_source", Source(),
    Field("selected_model", Unset(TextType), RootFields3()))))
  }

  lemma RootFields2Ok()
    ensures FieldsOk(RootFields2())
  {
    hide WellFormed, Flag, Count, Word, Words, Unset, Source, RootFields3;
    KindsOk();
    RootFields3Ok();
    SourceOk();
  }

  lemma RootFields2Names()
    ensures Lacks(RootFields2())
  {
    hide Section, RootFields3;
    RootFields3Names();
  }

  function RootFields1(): Fields {
    Field("database_url", Unset(TextType),
    Field("database_pool_size", Unset(U64), RootFields2()))
  }

  lemma RootFields1Ok()
    ensures FieldsOk(RootFields1())
  {
    hide WellFormed, Flag, Count, Word, Words, Unset, RootFields2;
    KindsOk();
    RootFields2Ok();
  }

  lemma RootFields1Names()
    ensures Lacks(RootFields1())
  {
    hide Section, RootFields2;
    RootFields2Names();
  }

  function RootFields(): Fields {
    Field("onboard_completed", Flag(false),
    Field("database_backend", Unset(TextType), RootFields1()))
  }

  lemma RootFieldsOk()
    ensures FieldsOk(RootFields())
  {
    hide WellFormed, Flag, Count, Word, Words, Unset, RootFields1;
    KindsOk();
    RootFields1Ok();
  }

  lemma RootFieldsNames()
    ensures Lacks(RootFields())
  {
    hide Section, RootFields1;
    RootFields1Names();
  }

  function Root(): Schema {
    Node(Entries(RootFields()), {"setup_completed"})
  }

  /** The theorems about settings hold of the program's own settings. */
  lemma RootIsWellFormed()
    ensures WellFormed(Root()) && OwnNames(Root())
  {
    hide FieldsOk, RootFields, Entries, Lacks;
    RootFieldsOk();
    RootFieldsNames();
    SectionIsWellFormed(RootFields());
    LackedNames(RootFields());
  }

  /** A database URL that reads as a number does not survive, whatever the other settings are. */
  lemma NumericTextIsLost(
      codec: Codec, v: Json, m: map<string, Json>, items: seq<(string, Json)>, n: int)
    requires Lawful(codec, Root()) && Conforms(Root(), v) && FlatOf(v, m) && Lists(items, m)
    requires -I64_MAX - 1 <= n <= U64_MAX
    requires At(v, ["database_url"]) == Some(Str(Decimal(n)))
    ensures Overlay(codec, Root(), Initial(Root()), items) != v
  {
    hide Overlay, Lists, FlatOf, Conforms, WellFormed, OwnNames, Decimal, Root, Initial, SchemaAt, At;
    RootIsWellFormed();
    RoundTripIff(codec, Root(), v, m, items);
    assert codec.parse(Decimal(n)) == Some(Num(n));
    hide Lawful;
    DatabaseUrlField();
    assert IsLeaf(Root(), ["database_url"]);
    assert !LeafStays(codec, Unset(TextType), At(v, ["database_url"]));
  }

  lemma DatabaseUrlField()
    ensures SchemaAt(Root(), ["database_url"]) == Some(Unset(TextType))
  {
    hide RootFields2;
    assert ["database_url"][1..] == [];
    assert Entries(RootFields1())["database_url"] == Unset(TextType);
    assert Entries(RootFields())["database_url"] == Unset(TextType);
  }

  /** Resetting a database URL that is set makes it the text "null", whatever the other settings are. */
  lemma ResetLeavesNullText(codec: Codec, v: Json, t: string)
    requires Conforms(Root(), v) && At(v, ["database_url"]) == Some(Str(t))
    ensures Reset(codec, Root(), v, ["database_url"]) == Ok(Replace(v, ["database_url"], Str("null")))
    ensures At(Replace(v, ["database_url"], Str("null")), ["database_url"]) == Some(Str("null"))
  {
    hide Conforms, WellFormed, OwnNames, Root, Initial, SchemaAt, At, Set, Replace;
    var url := ["database_url"];
    RootIsWellFormed();
    DatabaseUrlField();
    SchemaAtWellFormed(Root(), url);
    SetIsLocal(codec, Root(), v, url, "null");
    UnsetTextTakesText(codec, t, "null");
    AtOfReplaced(Root(), v, url, url, Str("null"));
    assert url[|url|..] == [];
    AtRoot(Str("null"));
  }

  lemma AtRoot(v: Json)
    ensures At(v, []) == Some(v)
  {
  }

  /** An optional text that is set takes any text as it is. */
  lemma UnsetTextTakesText(codec: Codec, t: string, text: string)
    ensures Initial(Unset(TextType)) == Null
    ensures Entered(codec, Unset(TextType), Str(t), text) == Ok(Str(text))
  {
    assert Fits(TextType, Str(text));
    assert FromValue(Unset(TextType), Str(text)) == Some(Str(text));
  }

  /** The default agent section, and a name for the agent, each under its own key. */
  function SectionAndName(): map<string, Json> {
    map["agent" := Initial(Section(AgentFields())), "agent.name" := Str("mybot")]
  }

  /** On the program's own settings, a section and a field of it make the order of the map matter. */
  lemma SectionOrderMatters(codec: Codec) returns (items: seq<(string, Json)>, others: seq<(string, Json)>)
    requires Lawful(codec, Root())
    ensures Lists(items, SectionAndName()) && Lists(others, SectionAndName())
    ensures Overlay(codec, Root(), Initial(Root()), items) != Overlay(codec, Root(), Initial(Root()), others)
  {
    hide Conforms, WellFormed, OwnNames, Root, Initial, Harmless, Overlay, Lists, Lawful, AgentFields;
    RootIsWellFormed();
    InitialConforms(Root());
    AgentNameDisagrees(codec);
    items, others := DisagreementShows(codec, Root(), Initial(Root()), SectionAndName(), "agent", "agent.name");
  }

  lemma AgentNameDisagrees(codec: Codec)
    requires Lawful(codec, Root())
    ensures !Harmless(codec, Root(), "agent", SectionAndName()["agent"], "agent.name", SectionAndName()["agent.name"])
  {
    hide Conforms, WellFormed, OwnNames, Root, Initial, Lawful, AgentFields, FromValue, At, SchemaAt, Split, Foreign;
    hide Entered, Entries;
    var agent := Section(AgentFields());
    AgentPaths();
    AgentSchema();
    RootIsWellFormed();
    LawfulAt(codec, Root(), ["agent"]);
    SchemaAtWellFormed(Root(), ["agent"]);
    InitialConforms(agent);
    ConformingIsFixed(agent, Initial(agent));
    TreeTextReadsBack(codec, agent);
    assert ["agent", "name"][1..] == ["name"];
    WordTakesText(codec, "rustytalon", "mybot");
    assert SectionTree(codec, agent, Text(codec, Initial(agent))) == Some(Initial(agent));
    assert PutTree(codec, Root(), "agent", Initial(agent)) == Some(Initial(agent));
    assert ["agent", "name"][|["agent"]|..] == ["name"] && ["agent"] <= ["agent", "name"];
    assert Leaves(codec, Root(), "agent", Initial(agent), ["agent", "name"]) == Some(Str("rustytalon"));
  }

  lemma TreeTextReadsBack(codec: Codec, schema: Schema)
    requires Lawful(codec, schema) && WellFormed(schema) && schema.Node?
    ensures codec.parse(Text(codec, Initial(schema))) == Some(Initial(schema))
  {
    InitialConforms(schema);
    ParseOfText(codec, schema, Initial(schema));
  }

  lemma WordTakesText(codec: Codec, t: string, text: string)
    ensures Entered(codec, Word(t), Str(t), text) == Ok(Str(text))
  {
  }

  lemma AgentPaths()
    ensures Split("agent") == ["agent"] && Split("agent.name") == ["agent", "name"]
    ensures !Foreign("agent") && !Foreign("agent.name")
  {
    hide Split;
    SplitOfName("agent");
    SplitOfName("name");
    SplitOfDotted("agent", "name");
    assert "agent" + "." + "name" == "agent.name";
  }

  lemma AgentSchema()
    ensures SchemaAt(Root(), ["agent"]) == Some(Section(AgentFields()))
    ensures SchemaAt(Root(), ["agent", "name"]) == Some(Word("rustytalon"))
    ensures At(Initial(Section(AgentFields())), ["name"]) == Some(Str("rustytalon"))
  {
    AgentField();
    AgentNameField();
    hide Root, Entries;
    assert ["agent"][1..] == [] && ["agent", "name"][1..] == ["name"] && ["name"][1..] == [];
  }

  lemma AgentField()
    ensures Root().Node? && "agent" in Root().fields && Root().fields["agent"] == Section(AgentFields())
  {
    hide AgentFields, RootFields5, EmbeddingsFields, TunnelFields, ChannelsFields, WasmFields, HeartbeatFields;
    assert "agent" in Entries(RootFields4()) && Entries(RootFields4())["agent"] == Section(AgentFields());
    assert Entries(RootFields3())["agent"] == Section(AgentFields());
    assert Entries(RootFields2())["agent"] == Section(AgentFields());
    assert Entries(RootFields1())["agent"] == Section(AgentFields());
    assert Entries(RootFields())["agent"] == Section(AgentFields());
  }

  lemma AgentNameField()
    ensures "name" in Entries(AgentFields()) && Entries(AgentFields())["name"] == Word("rustytalon")
  {
    hide AgentFields2;
  }
}
