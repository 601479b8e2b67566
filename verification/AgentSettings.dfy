/** What becomes of an agent's settings between creating the agent and loading it. */
module AgentSettings {
  import opened Wrappers
  import opened Tables
  import opened Mutations
  import opened Runtime

  datatype Key = SystemPrompt | WelcomeMessage | Model | Temperature | MaxTokens | Language {
    function Name(): string {
      match this
      case SystemPrompt => "systemPrompt"
      case WelcomeMessage => "welcomeMessage"
      case Model => "model"
      case Temperature => "temperature"
      case MaxTokens => "maxTokens"
      case Language => "language"
    }

    /** What the loader takes for a setting that is missing or falsy. */
    function LoadDefault(): Json {
      match this
      case SystemPrompt => DEFAULT_INSTRUCTIONS
      case WelcomeMessage => DEFAULT_WELCOME
      case Model => Text("gpt-realtime")
      case Temperature => Number(0.7)
      case MaxTokens => Number(1024.0)
      case Language => Text("en")
    }
  }

  /** Stands for the prompt that creation stores, which is not the one the loader falls back on. */
  const CREATED_INSTRUCTIONS: Json := Text("instructions of a new agent")

  /** Whether creation stores a setting as given: texts if truthy, numbers if not null. The language
      is not looked at. */
  predicate Kept(config: Dict, key: Key) {
    key == Language ||
    (key.Name() in config &&
      if key == Temperature || key == MaxTokens then config[key.Name()] != Null else Truthy(config[key.Name()]))
  }

  function CreateDefault(key: Key): Json {
    if key == SystemPrompt then CREATED_INSTRUCTIONS else key.LoadDefault()
  }

  function Completed(config: Dict, key: Key): Dict {
    if Kept(config, key) then config else config[key.Name() := CreateDefault(key)]
  }

  /** The configuration that creation stores. */
  function Filled(config: Dict): Dict {
    var texts := Completed(Completed(Completed(config, SystemPrompt), WelcomeMessage), Model);
    Completed(Completed(texts, Temperature), MaxTokens)
  }

  method FillDefaults(config: Dict) returns (filled: Dict)
    ensures filled == Filled(config)
  {
    filled := config;
    if !Kept(filled, SystemPrompt) {
      filled := filled[SystemPrompt.Name() := CREATED_INSTRUCTIONS];
    }
    if !Kept(filled, WelcomeMessage) {
      filled := filled[WelcomeMessage.Name() := DEFAULT_WELCOME];
    }
    if !Kept(filled, Model) {
      filled := filled[Model.Name() := Text("gpt-realtime")];
    }
    if !Kept(filled, Temperature) {
      filled := filled[Temperature.Name() := Number(0.7)];
    }
    if !Kept(filled, MaxTokens) {
      filled := filled[MaxTokens.Name() := Number(1024.0)];
    }
  }

  lemma NamesDistinct(key: Key, other: Key)
    requires key != other
    ensures key.Name() != other.Name()
  {
    assert |key.Name()| != |other.Name()|;
  }

  /** Both have the same value, or none, under a name. */
  predicate SameAt(config: Dict, config': Dict, name: string) {
    (name in config <==> name in config') && (name in config ==> config[name] == config'[name])
  }

  lemma CompletedElsewhere(config: Dict, key: Key, other: Key)
    requires key != other
    ensures SameAt(Completed(config, key), config, other.Name())
  {
    NamesDistinct(key, other);
  }

  /** What creation stores for each setting: the given value if it is kept, and else the default. */
  lemma FilledMeans(config: Dict, key: Key)
    ensures Kept(config, key) ==> SameAt(Filled(config), config, key.Name())
    ensures !Kept(config, key) ==> key.Name() in Filled(config) && Filled(config)[key.Name()] == CreateDefault(key)
  {
    var one := Completed(config, SystemPrompt);
    var two := Completed(one, WelcomeMessage);
    var three := Completed(two, Model);
    var four := Completed(three, Temperature);
    if key != SystemPrompt { CompletedElsewhere(config, SystemPrompt, key); }
    if key != WelcomeMessage { CompletedElsewhere(one, WelcomeMessage, key); }
    if key != Model { CompletedElsewhere(two, Model, key); }
    if key != Temperature { CompletedElsewhere(three, Temperature, key); }
    if key != MaxTokens { CompletedElsewhere(four, MaxTokens, key); }
  }

  /** Creation name by name: three texts are replaced if they are missing or falsy, two numbers if they are
      missing or null, and nothing else is touched. */
  lemma FilledByName(config: Dict, name: string)
    ensures name in {"systemPrompt", "welcomeMessage", "model", "temperature", "maxTokens"} ==> name in Filled(config)
    ensures name in {"systemPrompt", "welcomeMessage", "model"} ==>
      Filled(config)[name] ==
        if name in config && Truthy(config[name]) then config[name]
        else if name == "systemPrompt" then CREATED_INSTRUCTIONS
        else if name == "welcomeMessage" then DEFAULT_WELCOME
        else Text("gpt-realtime")
    ensures name in {"temperature", "maxTokens"} ==>
      Filled(config)[name] ==
        if name in config && config[name] != Null then config[name]
        else if name == "temperature" then Number(0.7)
        else Number(1024.0)
    ensures name !in {"systemPrompt", "welcomeMessage", "model", "temperature", "maxTokens"} ==>
      SameAt(Filled(config), config, name)
  {
    FilledMeans(config, SystemPrompt);
    FilledMeans(config, WelcomeMessage);
    FilledMeans(config, Model);
    FilledMeans(config, Temperature);
    FilledMeans(config, MaxTokens);
  }

  /** What is loaded where nothing is stored. */
  lemma DefaultsLoaded(e: Id, source: Id, target: Id, parsers: Parsers)
    ensures SettingsFrom(map[], parsers) ==
      Some(Settings(DEFAULT_INSTRUCTIONS, DEFAULT_WELCOME, Text("gpt-realtime"), 0.7, 1024, Text("en")))
    ensures EdgeFrom(e, EdgeView(source, target, map[]), parsers) ==
      Some(RuntimeEdge(e, source, target, Text("always"), Text(""), 0, Text("")))
  {
  }

  /** The loaded value of a setting, as JSON. */
  function SettingAt(settings: Settings, key: Key): Json {
    match key
    case SystemPrompt => settings.instructions
    case WelcomeMessage => settings.welcomeMessage
    case Model => settings.model
    case Temperature => Number(settings.temperature)
    case MaxTokens => Number(settings.maxTokens as real)
    case Language => settings.language
  }

  /** The values that come through creation and loading as they are. */
  predicate Survives(value: Json, key: Key) {
    match key
    case Temperature => value.Number? && value.n != 0.0
    case MaxTokens => value.Number? && value.n != 0.0 && Truncated(value.n) as real == value.n
    case _ => Truthy(value)
  }

  /** What loading casts a setting to, before any comparison. */
  lemma LoadedSetting(config: Dict, key: Key, parsers: Parsers)
    requires SettingsFrom(config, parsers).Some?
    ensures var value := Setting(config, key.Name(), key.LoadDefault());
      var loaded := SettingAt(SettingsFrom(config, parsers).value, key);
      match key
      case Temperature => Some(loaded.n) == CastReal(value, parsers)
      case MaxTokens => loaded.n.Floor as real == loaded.n && Some(loaded.n.Floor) == CastInt(value, parsers)
      case _ => loaded == value
  {
  }

  /** What becomes of settings that are not numbers: true counts as one, text as the parser reads it, and
      lists and objects cannot be loaded. */
  lemma CastsMean(v: Json, parsers: Parsers)
    ensures v == Bool(true) ==> CastReal(v, parsers) == Some(1.0) && CastInt(v, parsers) == Some(1)
    ensures v.Text? ==> CastReal(v, parsers) == parsers.toReal(v.s) && CastInt(v, parsers) == parsers.toInt(v.s)
    ensures v.List? || v.Object? || v.Null? ==> CastReal(v, parsers).None? && CastInt(v, parsers).None?
    ensures v.Number? ==> CastReal(v, parsers) == Some(v.n) && CastInt(v, parsers).Some?
    ensures v.Number? && v.n >= 0.0 ==> CastInt(v, parsers) == Some(v.n.Floor)
    ensures v.Number? && v.n <= 0.0 ==> CastInt(v, parsers) == Some(-(-v.n).Floor)
  {
  }

  /** A setting given at creation is the one loaded iff it is a truthy text, a nonzero temperature, or
      a nonzero whole number of tokens. */
  lemma GivenIsLoadedIff(config: Dict, key: Key, parsers: Parsers)
    requires key.Name() in config && SettingsFrom(Filled(config), parsers).Some?
    ensures SettingAt(SettingsFrom(Filled(config), parsers).value, key) == config[key.Name()]
            <==> Survives(config[key.Name()], key)
  {
    FilledMeans(config, key);
    LoadedSetting(Filled(config), key, parsers);
    assert Truthy(CreateDefault(key)) && Truthy(key.LoadDefault());
  }

  /** Whether a setting, if it is given and truthy, can be cast to what it has to be. */
  predicate CastsIfGiven(config: Dict, key: Key, parsers: Parsers) {
    key.Name() in config && Truthy(config[key.Name()]) ==>
      match key
      case Temperature => CastReal(config[key.Name()], parsers).Some?
      case MaxTokens => CastInt(config[key.Name()], parsers).Some?
      case _ => true
  }

  /** Exactly which agents can be loaded. */
  lemma LoadsIff(config: Dict, parsers: Parsers)
    ensures SettingsFrom(Filled(config), parsers).Some? <==>
      CastsIfGiven(config, Temperature, parsers) && CastsIfGiven(config, MaxTokens, parsers)
  {
    FilledMeans(config, Temperature);
    FilledMeans(config, MaxTokens);
  }

  /** A temperature of zero is stored as given, and loaded as 0.7. */
  lemma ZeroTemperatureIsLost(config: Dict, parsers: Parsers)
    requires Temperature.Name() in config && config[Temperature.Name()] == Number(0.0)
    requires SettingsFrom(Filled(config), parsers).Some?
    ensures SameAt(Filled(config), config, Temperature.Name())
    ensures SettingsFrom(Filled(config), parsers).value.temperature == 0.7
  {
    FilledMeans(config, Temperature);
    LoadedSetting(Filled(config), Temperature, parsers);
  }

  /** Half a token is stored as given, and loaded as none; in general the fraction is lost. */
  lemma FractionIsLost(config: Dict, n: real, parsers: Parsers)
    requires MaxTokens.Name() in config && config[MaxTokens.Name()] == Number(n) && n != 0.0
    requires SettingsFrom(Filled(config), parsers).Some?
    ensures SameAt(Filled(config), config, MaxTokens.Name())
    ensures SettingsFrom(Filled(config), parsers).value.maxTokens == Truncated(n)
    ensures n == 0.5 ==> SettingsFrom(Filled(config), parsers).value.maxTokens == 0
  {
    FilledMeans(config, MaxTokens);
    LoadedSetting(Filled(config), MaxTokens, parsers);
  }

  /** The same for an edge, whose defaults are themselves falsy but for the type of handoff: a text is
      kept iff it is truthy or the default, the timeout iff it is a whole number. */
  lemma EdgeKeepsIff(e: Id, edge: EdgeView, parsers: Parsers)
    requires EdgeFrom(e, edge, parsers).Some?
    ensures var loaded, data := EdgeFrom(e, edge, parsers).value, edge.data;
      && ("handoffType" in data ==> (loaded.handoffType == data["handoffType"] <==> Truthy(data["handoffType"])))
      && ("condition" in data ==>
            (loaded.condition == data["condition"] <==> Truthy(data["condition"]) || data["condition"] == Text("")))
      && ("notes" in data ==> (loaded.notes == data["notes"] <==> Truthy(data["notes"]) || data["notes"] == Text("")))
      && ("timeoutSeconds" in data ==>
            (Number(loaded.timeoutSeconds as real) == data["timeoutSeconds"] <==>
               data["timeoutSeconds"].Number? &&
               Truncated(data["timeoutSeconds"].n) as real == data["timeoutSeconds"].n))
  {
    assert Truthy(Setting(edge.data, "handoffType", Text("always")));
  }

  /** What an agent just created looks like to the loader. */
  lemma CreatedIsSeen(
    db: Db, ids: NewNode, t: Id, name: string, w: Id, isInitial: Option<bool>, kind: NodeKind, stored: Dict)
    requires WellFormed(db) && Enabled(db, CreateAgent(ids, t, name, w, isInitial, kind, stored))
    ensures var view := Seen(WithAgent(db, ids, t, name, w, isInitial, kind, stored), w, t).agents;
      && ids.id in view && view[ids.id].name == name && view[ids.id].isInitial == (isInitial == Some(true))
      && view[ids.id].config == stored && view[ids.id].position == Some(ids.position)
  {
    var db' := WithAgent(db, ids, t, name, w, isInitial, kind, stored);
    CreateAgentKeeps(db, ids, t, name, w, isInitial, kind, stored);
    AgentConfigIsLinked(db', ids.id);
    AgentPositionIsLinked(db', ids.id);
    assert ids.id in AgentsVisible(db', w, t);
  }

  /** End to end: an agent created and then loaded is listed, and each setting it was given is the
      one it is loaded with exactly if it survives. */
  lemma CreatedThenLoaded(
    db: Db, ids: NewNode, t: Id, name: string, w: Id, isInitial: Option<bool>, kind: NodeKind, config: Dict,
    loaded: RuntimeWorkflow, parsers: Parsers)
    requires WellFormed(db) && Enabled(db, CreateAgent(ids, t, name, w, isInitial, kind, Filled(config)))
    requires Shows(loaded, Seen(WithAgent(db, ids, t, name, w, isInitial, kind, Filled(config)), w, t))
    requires Configured(loaded, Seen(WithAgent(db, ids, t, name, w, isInitial, kind, Filled(config)), w, t), parsers)
    ensures exists i :: 0 <= i < |loaded.agents| && loaded.agents[i].id == ids.id
    ensures forall i, key: Key | 0 <= i < |loaded.agents| && loaded.agents[i].id == ids.id && key.Name() in config ::
      SettingAt(loaded.agents[i].settings, key) == config[key.Name()] <==> Survives(config[key.Name()], key)
  {
    var view := Seen(WithAgent(db, ids, t, name, w, isInitial, kind, Filled(config)), w, t);
    CreatedIsSeen(db, ids, t, name, w, isInitial, kind, Filled(config));
    ShownSettings(loaded, view, ids.id, Filled(config), parsers);
    forall key: Key | key.Name() in config
      ensures SettingAt(SettingsFrom(Filled(config), parsers).value, key) == config[key.Name()]
              <==> Survives(config[key.Name()], key)
    {
      GivenIsLoadedIff(config, key, parsers);
    }
  }

  lemma ShownSettings(loaded: RuntimeWorkflow, view: WorkflowView, a: Id, stored: Dict, parsers: Parsers)
    requires Shows(loaded, view) && Configured(loaded, view, parsers)
    requires a in view.agents && view.agents[a].config == stored
    ensures exists i :: 0 <= i < |loaded.agents| && loaded.agents[i].id == a
    ensures forall i :: 0 <= i < |loaded.agents| && loaded.agents[i].id == a ==>
      Some(loaded.agents[i].settings) == SettingsFrom(stored, parsers)
    ensures SettingsFrom(stored, parsers).Some?
  {
    var i :| 0 <= i < |loaded.agents| && loaded.agents[i].id == a;
  }

  lemma OldAgentsSeen(
    db: Db, ids: NewNode, t: Id, name: string, w: Id, isInitial: Option<bool>, kind: NodeKind, stored: Dict)
    requires WellFormed(db) && Enabled(db, CreateAgent(ids, t, name, w, isInitial, kind, stored))
    ensures var db' := WithAgent(db, ids, t, name, w, isInitial, kind, stored);
      AgentsVisible(db', w, t) == AgentsVisible(db, w, t) + {ids.id} &&
      forall a :: a in AgentsVisible(db, w, t) ==> AgentConfig(db', a) == AgentConfig(db, a)
  {
    var db' := WithAgent(db, ids, t, name, w, isInitial, kind, stored);
    CreateAgentKeeps(db, ids, t, name, w, isInitial, kind, stored);
    forall a | a in AgentsVisible(db, w, t) ensures AgentConfig(db', a) == AgentConfig(db, a) {
      AgentConfigIsLinked(db, a);
      AgentConfigIsLinked(db', a);
      assert AgentOk(db, a);
    }
  }

  /** The new agent is all that a new agent changes of what is loaded. */
  lemma OneMoreSeen(
    db: Db, ids: NewNode, t: Id, name: string, w: Id, isInitial: Option<bool>, kind: NodeKind, stored: Dict)
    requires WellFormed(db) && Enabled(db, CreateAgent(ids, t, name, w, isInitial, kind, stored))
    ensures var db' := WithAgent(db, ids, t, name, w, isInitial, kind, stored);
      var before, after := AgentsSeen(db, w, t), AgentsSeen(db', w, t);
      && EdgesSeen(db', w, t) == EdgesSeen(db, w, t) && after.Keys == before.Keys + {ids.id}
      && after[ids.id].config == stored && forall a :: a in before ==> after[a].config == before[a].config
  {
    var db' := WithAgent(db, ids, t, name, w, isInitial, kind, stored);
    OldAgentsSeen(db, ids, t, name, w, isInitial, kind, stored);
    CreatedIsSeen(db, ids, t, name, w, isInitial, kind, stored);
    forall a | a in AgentsSeen(db, w, t) ensures AgentsSeen(db', w, t)[a].config == AgentsSeen(db, w, t)[a].config {
      assert a in AgentsVisible(db, w, t);
    }
  }

  /** One agent decides for all: with a new agent a workflow can be loaded exactly if it could be before
      and the agent's own settings can be cast. */
  lemma LoadsWithAgentIff(
    db: Db, ids: NewNode, t: Id, name: string, w: Id, isInitial: Option<bool>, kind: NodeKind, config: Dict,
    parsers: Parsers)
    requires WellFormed(db) && Enabled(db, CreateAgent(ids, t, name, w, isInitial, kind, Filled(config)))
    ensures Castable(Seen(WithAgent(db, ids, t, name, w, isInitial, kind, Filled(config)), w, t), parsers) <==>
      && Castable(Seen(db, w, t), parsers)
      && CastsIfGiven(config, Temperature, parsers) && CastsIfGiven(config, MaxTokens, parsers)
  {
    var db' := WithAgent(db, ids, t, name, w, isInitial, kind, Filled(config));
    OneMoreSeen(db, ids, t, name, w, isInitial, kind, Filled(config));
    LoadsIff(config, parsers);
    CastableWithOne(AgentsSeen(db, w, t), AgentsSeen(db', w, t), ids.id, parsers);
  }

  lemma CastableWithOne(before: map<Id, AgentView>, after: map<Id, AgentView>, id: Id, parsers: Parsers)
    requires after.Keys == before.Keys + {id}
    requires forall a :: a in before ==> after[a].config == before[a].config
    ensures CastableAgents(after, parsers) <==>
      CastableAgents(before, parsers) && SettingsFrom(after[id].config, parsers).Some?
  {
    assert forall a :: a in after <==> a in before || a == id;
  }
}
