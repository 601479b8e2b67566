/** How the arguments of a tool call reach the HTTP request, and what the model is told to supply. */
module HttpTool {
  import opened Wrappers
  import opened Tables
  import Runtime
  import opened PathTemplates
  import opened RequestContents

  /** The parameter lists of a tool's configuration; anything but a list declares nothing. */
  datatype ParamLists = ParamLists(path: seq<Json>, query: seq<Json>, body: seq<Json>)

  function ListAt(config: Dict, key: string): seq<Json> {
    if key in config && config[key].List? then config[key].items else []
  }

  function ListsOf(config: Dict): ParamLists {
    ParamLists(ListAt(config, "pathParams"), ListAt(config, "queryParams"), ListAt(config, "bodyParams"))
  }

  method ParamNames(lists: seq<seq<Json>>) returns (names: set<string>)
    ensures forall n :: n in names <==> exists i :: 0 <= i < |lists| && n in NamesIn(lists[i])
  {
    names := {};
    for i := 0 to |lists|
      invariant forall n :: n in names <==> exists k :: 0 <= k < i && n in NamesIn(lists[k])
    {
      ghost var before := names;
      var entries := lists[i];
      for j := 0 to |entries|
        invariant names == before + NamesIn(entries[..j])
      {
        assert entries[..j + 1] == entries[..j] + [entries[j]];
        var name := NameOf(entries[j]);
        if name.Some? {
          names := names + {name.value};
        }
      }
      assert entries[..|entries|] == entries;
    }
  }

  /** An entry's own value, if it is worth sending. */
  function DefaultOf(entry: Json): Option<Json> {
    if entry.Object? && "value" in entry.fields && Runtime.Truthy(entry.fields["value"])
    then Some(entry.fields["value"])
    else None
  }

  /** For each declared name its argument, or else the last default worth sending. */
  function Collected(entries: seq<Json>, arguments: Dict): Dict {
    if entries == [] then map[]
    else
      var before := Collected(entries[..|entries| - 1], arguments);
      var last := entries[|entries| - 1];
      match NameOf(last)
      case None => before
      case Some(name) =>
        if name in arguments then before[name := arguments[name]]
        else if DefaultOf(last).Some? then before[name := DefaultOf(last).value]
        else before
  }

  method Collect(entries: seq<Json>, arguments: Dict) returns (collected: Dict)
    ensures collected == Collected(entries, arguments)
  {
    collected := map[];
    for i := 0 to |entries|
      invariant collected == Collected(entries[..i], arguments)
    {
      assert entries[..i + 1][..i] == entries[..i];
      var name := NameOf(entries[i]);
      if name.Some? {
        if name.value in arguments {
          collected := collected[name.value := arguments[name.value]];
        } else if DefaultOf(entries[i]).Some? {
          collected := collected[name.value := DefaultOf(entries[i]).value];
        }
      }
    }
    assert entries[..|entries|] == entries;
  }

  /** What is collected: every declared argument with its value, and else only declared defaults. */
  lemma {:induction false} CollectedMeans(entries: seq<Json>, arguments: Dict, name: string)
    ensures name in arguments ==>
      (name in Collected(entries, arguments) <==> name in NamesIn(entries)) &&
      (name in Collected(entries, arguments) ==> Collected(entries, arguments)[name] == arguments[name])
    ensures name !in arguments ==>
      (name in Collected(entries, arguments) <==>
         exists e :: e in entries && NameOf(e) == Some(name) && DefaultOf(e).Some?) &&
      (name in Collected(entries, arguments) ==>
         exists e :: e in entries && NameOf(e) == Some(name) &&
           DefaultOf(e) == Some(Collected(entries, arguments)[name]))
  {
    if entries != [] {
      var n := |entries| - 1;
      CollectedMeans(entries[..n], arguments, name);
      assert entries == entries[..n] + [entries[n]];
    }
  }

  function Upper(s: string): string {
    seq(|s|, i requires 0 <= i < |s| => if 'a' <= s[i] <= 'z' then (s[i] as int - 32) as char else s[i])
  }

  predicate SendsNoBody(httpMethod: string) {
    Upper(httpMethod) in {"GET", "DELETE"}
  }

  datatype Request = Request(query: Dict, body: Option<Dict>)

  function AllNames(lists: ParamLists): set<string> {
    NamesIn(lists.path) + NamesIn(lists.query) + NamesIn(lists.body)
  }

  /** The arguments no list declares. */
  function Leftover(lists: ParamLists, arguments: Dict): Dict {
    map k | k in arguments && k !in AllNames(lists) :: arguments[k]
  }

  function RequestFor(httpMethod: string, lists: ParamLists, arguments: Dict, staticBody: Option<Dict>): Request {
    var leftover := Leftover(lists, arguments);
    if SendsNoBody(httpMethod) then Request(Collected(lists.query, arguments) + leftover, None)
    else Request(Collected(lists.query, arguments),
                 Some(staticBody.GetOr(map[]) + (Collected(lists.body, arguments) + leftover)))
  }

  /** The configured body, if it is the text of an object; blank text does not parse either. */
  function StaticBody(config: Dict, parse: string -> Option<Json>): Option<Dict> {
    var body := if "body" in config && config["body"].Text? then parse(config["body"].s) else None;
    if body.Some? && body.value.Object? then Some(body.value.fields) else None
  }

  /** The query and body of a call. */
  method BuildRequest(httpMethod: string, config: Dict, arguments: Dict, parse: string -> Option<Json>)
    returns (r: Request)
    ensures r == RequestFor(httpMethod, ListsOf(config), arguments, StaticBody(config, parse))
    ensures r.body.None? <==> Bodiless(httpMethod)
    ensures forall name, v :: Sends(r, httpMethod, config, arguments, parse, name, v)
  {
    BodilessIs(httpMethod);
    forall name, v
      ensures Sends(RequestFor(httpMethod, ListsOf(config), arguments, StaticBody(config, parse)), httpMethod, config,
                    arguments, parse, name, v)
    {
      RequestSends(httpMethod, config, arguments, parse, name, v);
    }
    var lists := ListsOf(config);
    var consumed := ParamNames([lists.path, lists.query, lists.body]);
    assert consumed == AllNames(lists) by {
      var all := [lists.path, lists.query, lists.body];
      assert all[0] == lists.path && all[1] == lists.query && all[2] == lists.body;
    }
    var leftover := map k | k in arguments && k !in consumed :: arguments[k];
    assert leftover == Leftover(lists, arguments);
    var query := Collect(lists.query, arguments);
    if SendsNoBody(httpMethod) {
      return Request(query + leftover, None);
    }
    var body := Collect(lists.body, arguments);
    body := body + leftover;
    var staticBody := StaticBody(config, parse);
    if staticBody.Some? {
      body := staticBody.value + body;
    } else {
      assert map[] + body == body;
    }
    r := Request(query, Some(body));
  }

  predicate Carries(part: Dict, name: string, value: Json) {
    name in part && part[name] == value
  }

  lemma DeclaresIs(entry: Json, name: string)
    ensures NameOf(entry) == Some(name) <==> Declares(entry, name)
  {
  }

  lemma DeclaredIs(entries: seq<Json>, name: string)
    ensures name in NamesIn(entries) <==> Declared(entries, name)
  {
    if Declared(entries, name) {
      var i :| 0 <= i < |entries| && Declares(entries[i], name);
      assert entries[i] in entries && NameOf(entries[i]) == Some(name);
    }
  }

  lemma DefaultMore(entries: seq<Json>, entry: Json, name: string, v: Json)
    ensures IsDefault(entries + [entry], name, v) <==>
      if OffersValue(entry, name) then entry.fields["value"] == v else IsDefault(entries, name, v)
  {
    var more := entries + [entry];
    if OffersValue(entry, name) {
      assert more[|entries|] == entry;
    } else if i :| 0 <= i < |entries| && OffersValue(entries[i], name) && entries[i].fields["value"] == v &&
                   forall j :: i < j < |entries| ==> !OffersValue(entries[j], name) {
      assert more[i] == entries[i];
    }
    if !OffersValue(entry, name) && IsDefault(more, name, v) {
      var i :| 0 <= i < |more| && OffersValue(more[i], name) && more[i].fields["value"] == v &&
               forall j :: i < j < |more| ==> !OffersValue(more[j], name);
      assert i < |entries| && entries[i] == more[i];
      forall j | i < j < |entries| ensures !OffersValue(entries[j], name) {
        assert entries[j] == more[j];
      }
    }
  }

  /** What is collected under a name: the argument if the name is declared, and without an argument the
      last default. */
  lemma {:induction false} CollectedIs(entries: seq<Json>, arguments: Dict, name: string, v: Json)
    ensures Carries(Collected(entries, arguments), name, v) <==>
      if name in arguments then Declared(entries, name) && v == arguments[name] else IsDefault(entries, name, v)
  {
    if name in arguments {
      CollectedMeans(entries, arguments, name);
      DeclaredIs(entries, name);
    } else if entries != [] {
      var n := |entries| - 1;
      CollectedIs(entries[..n], arguments, name, v);
      DefaultMore(entries[..n], entries[n], name, v);
      assert entries == entries[..n] + [entries[n]];
      CollectedLast(entries, arguments, name, v);
    }
  }

  lemma CollectedLast(entries: seq<Json>, arguments: Dict, name: string, v: Json)
    requires entries != [] && name !in arguments
    ensures var n := |entries| - 1;
      Carries(Collected(entries, arguments), name, v) <==>
      if OffersValue(entries[n], name) then entries[n].fields["value"] == v
      else Carries(Collected(entries[..n], arguments), name, v)
  {
    DeclaresIs(entries[|entries| - 1], name);
  }

  lemma BodilessIs(httpMethod: string)
    ensures SendsNoBody(httpMethod) <==> Bodiless(httpMethod)
  {
    var m, u := httpMethod, Upper(httpMethod);
    if |m| == 3 {
      assert u == "GET" <==> u[0] == 'G' && u[1] == 'E' && u[2] == 'T';
    } else if |m| == 6 {
      assert u == "DELETE" <==>
        u[0] == 'D' && u[1] == 'E' && u[2] == 'L' && u[3] == 'E' && u[4] == 'T' && u[5] == 'E';
    }
  }

  /** What a request carries under one name: arguments and defaults where they belong, and in the body
      also the configured fields that nothing overwrites. */
  ghost predicate Sends(r: Request, httpMethod: string, config: Dict, arguments: Dict,
                        parse: string -> Option<Json>, name: string, v: Json) {
    && (Carries(r.query, name, v) <==> InQuery(httpMethod, config, arguments, name, v))
    && (r.body.Some? ==>
          (Carries(r.body.value, name, v) <==>
             InBody(config, arguments, name, v) ||
             (InStaticBody(config, parse, name, v) && forall u :: !InBody(config, arguments, name, u))))
  }

  /** The arguments left over, by the lists of the configuration. */
  lemma LeftoverIs(lists: ParamLists, arguments: Dict, name: string, v: Json)
    ensures Carries(Leftover(lists, arguments), name, v) <==>
      name in arguments && v == arguments[name] &&
      !Declared(lists.path, name) && !Declared(lists.query, name) && !Declared(lists.body, name)
  {
    DeclaredIs(lists.path, name);
    DeclaredIs(lists.query, name);
    DeclaredIs(lists.body, name);
  }

  lemma SumCarries(first: Dict, rest: Dict, name: string, v: Json)
    ensures Carries(first + rest, name, v) <==> Carries(rest, name, v) || (Carries(first, name, v) && name !in rest)
  {
  }

  lemma Absent(part: Dict, name: string)
    ensures name !in part <==> forall u :: !Carries(part, name, u)
  {
    if name in part {
      assert Carries(part, name, part[name]);
    }
  }

  /** One list's share of a request, with the arguments left over if they go there too. */
  lemma ShareIs(lists: ParamLists, entries: seq<Json>, arguments: Dict, left: bool, name: string, v: Json)
    ensures Carries(Collected(entries, arguments) + (if left then Leftover(lists, arguments) else map[]), name, v) <==>
      if name in arguments then
        v == arguments[name] &&
        (Declared(entries, name) ||
         (left && !Declared(lists.path, name) && !Declared(lists.query, name) && !Declared(lists.body, name)))
      else IsDefault(entries, name, v)
  {
    var rest: Dict := if left then Leftover(lists, arguments) else map[];
    CollectedIs(entries, arguments, name, v);
    LeftoverIs(lists, arguments, name, v);
    SumCarries(Collected(entries, arguments), rest, name, v);
    if name in rest {
      LeftoverIs(lists, arguments, name, rest[name]);
    }
  }

  lemma QueryIs(httpMethod: string, config: Dict, arguments: Dict, staticBody: Option<Dict>, name: string, v: Json)
    ensures Carries(RequestFor(httpMethod, ListsOf(config), arguments, staticBody).query, name, v) <==>
            InQuery(httpMethod, config, arguments, name, v)
  {
    var lists := ListsOf(config);
    BodilessIs(httpMethod);
    ShareIs(lists, lists.query, arguments, Bodiless(httpMethod), name, v);
    assert Collected(lists.query, arguments) + map[] == Collected(lists.query, arguments);
  }

  lemma RequestSends(
    httpMethod: string, config: Dict, arguments: Dict, parse: string -> Option<Json>, name: string, v: Json)
    ensures Sends(RequestFor(httpMethod, ListsOf(config), arguments, StaticBody(config, parse)), httpMethod, config,
                  arguments, parse, name, v)
  {
    var lists := ListsOf(config);
    var own := Collected(lists.body, arguments) + Leftover(lists, arguments);
    QueryIs(httpMethod, config, arguments, StaticBody(config, parse), name, v);
    SumCarries(StaticBody(config, parse).GetOr(map[]), own, name, v);
    forall u ensures Carries(own, name, u) <==> InBody(config, arguments, name, u) {
      ShareIs(lists, lists.body, arguments, true, name, u);
    }
    Absent(own, name);
  }

  /** Whether an argument's value arrives in the query or the body. */
  predicate Arrives(r: Request, name: string, value: Json) {
    Carries(r.query, name, value) || (r.body.Some? && Carries(r.body.value, name, value))
  }

  /** Some list declares the name, but none that is sent as query or body. */
  predicate KeptOut(httpMethod: string, lists: ParamLists, name: string) {
    name in AllNames(lists) && name !in NamesIn(lists.query) &&
    (SendsNoBody(httpMethod) || name !in NamesIn(lists.body))
  }

  /** Argument conservation. An argument misses the query and the body exactly when it is declared
      and only for the path, or only for the path or body of a call that sends no body; whatever is
      declared for the query or left over is always in the part it belongs to. */
  lemma ArgumentConservation(
    httpMethod: string, lists: ParamLists, arguments: Dict, staticBody: Option<Dict>, name: string)
    requires name in arguments
    ensures var r := RequestFor(httpMethod, lists, arguments, staticBody); var value := arguments[name];
      && (name in NamesIn(lists.query) ==> Carries(r.query, name, value))
      && (name in NamesIn(lists.body) && !SendsNoBody(httpMethod) ==> Carries(r.body.value, name, value))
      && (name !in AllNames(lists) ==> Carries(if SendsNoBody(httpMethod) then r.query else r.body.value, name, value))
      && (KeptOut(httpMethod, lists, name) ==>
            name !in r.query &&
            (r.body.Some? ==> (name in r.body.value <==> staticBody.Some? && name in staticBody.value)))
  {
    CollectedMeans(lists.query, arguments, name);
    CollectedMeans(lists.body, arguments, name);
  }

  /** Of the arguments not declared for the path, those that arrive in neither query nor body are exactly
      those declared solely for the body of a call that sends none. */
  lemma DroppedIff(httpMethod: string, lists: ParamLists, arguments: Dict, staticBody: Option<Dict>, name: string)
    requires name in arguments && name !in NamesIn(lists.path)
    ensures !Arrives(RequestFor(httpMethod, lists, arguments, staticBody), name, arguments[name]) <==>
            SendsNoBody(httpMethod) && name in NamesIn(lists.body) && name !in NamesIn(lists.query)
  {
    ArgumentConservation(httpMethod, lists, arguments, staticBody, name);
  }

  /** Nothing is made up: what is sent is an argument under its own name, a declared default, or
      part of the static body. */
  lemma NothingMadeUp(httpMethod: string, lists: ParamLists, arguments: Dict, staticBody: Option<Dict>, name: string)
    ensures var r := RequestFor(httpMethod, lists, arguments, staticBody);
      && (name in r.query && !(name in arguments && r.query[name] == arguments[name]) ==>
            name !in arguments &&
            exists e :: e in lists.query && NameOf(e) == Some(name) && DefaultOf(e) == Some(r.query[name]))
      && (r.body.Some? && name in r.body.value && !(name in arguments && r.body.value[name] == arguments[name]) ==>
            (staticBody.Some? && Carries(staticBody.value, name, r.body.value[name])) ||
            exists e :: e in lists.body && NameOf(e) == Some(name) && DefaultOf(e) == Some(r.body.value[name]))
  {
    CollectedMeans(lists.query, arguments, name);
    CollectedMeans(lists.body, arguments, name);
  }

  /** Leftover arguments never overwrite what was collected. */
  lemma LeftoverDisjoint(lists: ParamLists, arguments: Dict)
    ensures Leftover(lists, arguments).Keys !! Collected(lists.query, arguments).Keys
    ensures Leftover(lists, arguments).Keys !! Collected(lists.body, arguments).Keys
  {
    forall name | name in Leftover(lists, arguments)
      ensures name !in Collected(lists.query, arguments) && name !in Collected(lists.body, arguments)
    {
      CollectedMeans(lists.query, arguments, name);
      CollectedMeans(lists.body, arguments, name);
    }
  }

  // The schema that tells the model which arguments to supply.

  datatype Property = Property(kind: string, description: Json)

  function KindOf(entry: Json): string
    requires entry.Object?
  {
    if "type" in entry.fields && entry.fields["type"].Text? &&
       entry.fields["type"].s in {"string", "number", "integer", "boolean"}
    then entry.fields["type"].s
    else "string"
  }

  predicate IsRequired(entry: Json)
    requires entry.Object?
  {
    "required" in entry.fields && Runtime.Truthy(entry.fields["required"])
  }

  /** The first entry that declares a name. */
  function Declaring(entries: seq<Json>, name: string): (r: Option<Json>)
    ensures r.Some? <==> name in NamesIn(entries)
    ensures r.Some? ==> r.value in entries && NameOf(r.value) == Some(name)
  {
    if entries == [] then None
    else if NameOf(entries[0]) == Some(name) then Some(entries[0])
    else
      assert entries == [entries[0]] + entries[1..];
      Declaring(entries[1..], name)
  }

  function FlatParams(config: Dict): Dict {
    if "parameters" in config && config["parameters"].Object? then config["parameters"].fields else map[]
  }

  function DeclaredIn(lists: ParamLists): seq<Json> {
    lists.path + lists.query + lists.body
  }

  function PropertyFrom(entry: Json): Property
    requires entry.Object?
  {
    Property(KindOf(entry), Runtime.Setting(entry.fields, "description", Text("")))
  }

  /** The property a name gets: from its first declaration, or else from the flat form. */
  function PropertyOf(entries: seq<Json>, flat: Dict, name: string, show: Json -> string): Property
    requires name in NamesIn(entries) || name in flat
  {
    match Declaring(entries, name)
    case Some(e) => PropertyFrom(e)
    case None => Property("string", Text(show(flat[name])))
  }

  predicate MustSupply(entries: seq<Json>, flat: Dict, name: string) {
    match Declaring(entries, name)
    case Some(e) => IsRequired(e)
    case None => name in flat
  }

  lemma {:induction false} DeclaringMore(entries: seq<Json>, entry: Json, name: string)
    ensures Declaring(entries + [entry], name) ==
      if Declaring(entries, name).Some? then Declaring(entries, name)
      else if NameOf(entry) == Some(name) then Some(entry)
      else None
  {
    if entries != [] {
      assert (entries + [entry])[1..] == entries[1..] + [entry];
      DeclaringMore(entries[1..], entry, name);
    }
  }

  ghost predicate NoRepeats(names: seq<string>) {
    forall i, j :: 0 <= i < j < |names| ==> names[i] != names[j]
  }

  /** Each declared name once, by its first declaration. */
  ghost predicate HasProperties(entries: seq<Json>, properties: map<string, Property>, show: Json -> string) {
    && properties.Keys == NamesIn(entries)
    && forall n :: n in properties ==> properties[n] == PropertyOf(entries, map[], n, show)
  }

  ghost predicate HasRequired(entries: seq<Json>, required: seq<string>) {
    && NoRepeats(required)
    && forall n :: n in required <==> n in NamesIn(entries) && MustSupply(entries, map[], n)
  }

  /** The schema describes the entries. */
  ghost predicate Describes(
    entries: seq<Json>, properties: map<string, Property>, required: seq<string>, show: Json -> string)
  {
    HasProperties(entries, properties, show) && HasRequired(entries, required)
  }

  lemma NamesInMore(entries: seq<Json>, entry: Json)
    ensures NamesIn(entries + [entry]) ==
            NamesIn(entries) + if NameOf(entry).Some? then {NameOf(entry).value} else {}
  {
  }

  lemma DescribesOld(
    entries: seq<Json>, entry: Json, properties: map<string, Property>, required: seq<string>, show: Json -> string)
    requires Describes(entries, properties, required, show)
    requires NameOf(entry).None? || NameOf(entry).value in properties
    ensures Describes(entries + [entry], properties, required, show)
  {
    NamesInMore(entries, entry);
    forall n | n in properties ensures Declaring(entries + [entry], n) == Declaring(entries, n) {
      DeclaringMore(entries, entry, n);
    }
  }

  lemma PropertiesNew(entries: seq<Json>, entry: Json, properties: map<string, Property>, show: Json -> string)
    requires HasProperties(entries, properties, show)
    requires NameOf(entry).Some? && NameOf(entry).value !in NamesIn(entries)
    ensures HasProperties(entries + [entry], properties[NameOf(entry).value := PropertyFrom(entry)], show)
  {
    NamesInMore(entries, entry);
    forall n | n in NamesIn(entries + [entry])
      ensures PropertyOf(entries + [entry], map[], n, show) ==
              if n == NameOf(entry).value then PropertyFrom(entry) else PropertyOf(entries, map[], n, show)
    {
      DeclaringMore(entries, entry, n);
    }
  }

  lemma RequiredNew(entries: seq<Json>, entry: Json, required: seq<string>)
    requires HasRequired(entries, required)
    requires NameOf(entry).Some? && NameOf(entry).value !in NamesIn(entries)
    ensures HasRequired(entries + [entry], if IsRequired(entry) then required + [NameOf(entry).value] else required)
  {
    NamesInMore(entries, entry);
    DeclaringMore(entries, entry, NameOf(entry).value);
    forall n | n in NamesIn(entries) ensures Declaring(entries + [entry], n) == Declaring(entries, n) {
      DeclaringMore(entries, entry, n);
    }
  }

  /** The declared part of the schema. */
  method DeclaredProperties(entries: seq<Json>, show: Json -> string)
    returns (properties: map<string, Property>, required: seq<string>)
    ensures Describes(entries, properties, required, show)
  {
    properties, required := map[], [];
    for i := 0 to |entries|
      invariant Describes(entries[..i], properties, required, show)
    {
      var entry := entries[i];
      assert entries[..i + 1] == entries[..i] + [entry];
      var name := NameOf(entry);
      if name.None? || name.value in properties {
        DescribesOld(entries[..i], entry, properties, required, show);
      } else {
        PropertiesNew(entries[..i], entry, properties, show);
        RequiredNew(entries[..i], entry, required);
        properties := properties[name.value := PropertyFrom(entry)];
        if IsRequired(entry) {
          required := required + [name.value];
        }
      }
    }
    assert entries[..|entries|] == entries;
  }

  /** The schema with the flat parameters in `done` added. */
  ghost predicate DescribesFlat(
    entries: seq<Json>, flat: Dict, done: set<string>, properties: map<string, Property>, required: seq<string>,
    show: Json -> string)
  {
    && done <= flat.Keys && properties.Keys == NamesIn(entries) + done
    && (forall n :: n in properties ==> properties[n] == PropertyOf(entries, flat, n, show))
    && NoRepeats(required) && (forall n :: n in required <==> n in properties && MustSupply(entries, flat, n))
  }

  lemma FlatStep(entries: seq<Json>, flat: Dict, done: set<string>, properties: map<string, Property>,
                 required: seq<string>, show: Json -> string, name: string)
    requires DescribesFlat(entries, flat, done, properties, required, show) && name in flat && name !in done
    ensures if name in properties then DescribesFlat(entries, flat, done + {name}, properties, required, show)
      else DescribesFlat(entries, flat, done + {name},
                         properties[name := Property("string", Text(show(flat[name])))], required + [name], show)
  {
  }

  /** The schema's property under a name is as the entry has it. */
  ghost predicate DescribedBy(entry: Json, name: string, properties: map<string, Property>, required: seq<string>) {
    && name in properties && HasKind(entry, properties[name].kind)
    && HasDescription(entry, properties[name].description)
    && entry.Object?
    && (name in required <==> "required" in entry.fields && Runtime.Truthy(entry.fields["required"]))
  }

  lemma {:induction false} DeclaringIsFirst(entries: seq<Json>, i: nat, name: string)
    requires FirstDeclares(entries, i, name)
    ensures Declaring(entries, name) == Some(entries[i])
  {
    DeclaresIs(entries[0], name);
    if i > 0 {
      assert !Declares(entries[0], name);
      forall j | 0 <= j < i - 1 ensures !Declares(entries[1..][j], name) {
        assert entries[1..][j] == entries[j + 1];
      }
      DeclaringIsFirst(entries[1..], i - 1, name);
    }
  }

  lemma EntryDescribes(
    entries: seq<Json>, flat: Dict, properties: map<string, Property>, required: seq<string>, show: Json -> string,
    i: nat, name: string)
    requires FirstDeclares(entries, i, name) && name in NamesIn(entries) && name in properties
    requires properties[name] == PropertyOf(entries, flat, name, show)
    requires name in required <==> MustSupply(entries, flat, name)
    ensures DescribedBy(entries[i], name, properties, required)
  {
    DeclaringIsFirst(entries, i, name);
  }

  /** The whole schema: declared parameters first, then the flat ones not declared. */
  method BuildParametersSchema(config: Dict, show: Json -> string)
    returns (properties: map<string, Property>, required: seq<string>)
    ensures properties.Keys == AllNames(ListsOf(config)) + FlatParams(config).Keys
    ensures forall n :: n in properties ==>
      properties[n] == PropertyOf(DeclaredIn(ListsOf(config)), FlatParams(config), n, show)
    ensures NoRepeats(required)
    ensures forall n :: n in required <==>
      n in properties && MustSupply(DeclaredIn(ListsOf(config)), FlatParams(config), n)
    ensures var entries := Params(config, "pathParams") + Params(config, "queryParams") + Params(config, "bodyParams");
      var flat := if "parameters" in config && config["parameters"].Object? then config["parameters"].fields else map[];
      && (forall n :: n in properties <==> Declared(entries, n) || n in flat)
      && (forall n, i: nat :: FirstDeclares(entries, i, n) ==> DescribedBy(entries[i], n, properties, required))
      && (forall n :: n in flat && !Declared(entries, n) ==>
            n in required && n in properties && properties[n] == Property("string", Text(show(flat[n]))))
  {
    var lists := ListsOf(config);
    var entries := DeclaredIn(lists);
    properties, required := DeclaredProperties(entries, show);
    var flat := FlatParams(config);
    var todo := flat.Keys;
    while todo != {}
      invariant todo <= flat.Keys
      invariant DescribesFlat(entries, flat, flat.Keys - todo, properties, required, show)
      decreases todo
    {
      var name :| name in todo;
      FlatStep(entries, flat, flat.Keys - todo, properties, required, show, name);
      if name !in properties {
        properties := properties[name := Property("string", Text(show(flat[name])))];
        required := required + [name];
      }
      assert (flat.Keys - todo) + {name} == flat.Keys - (todo - {name});
      todo := todo - {name};
    }
    assert flat.Keys - todo == flat.Keys;
    assert NamesIn(entries) == AllNames(lists);
    forall n, i: nat | FirstDeclares(entries, i, n) ensures DescribedBy(entries[i], n, properties, required) {
      DeclaredIs(entries, n);
      EntryDescribes(entries, flat, properties, required, show, i, n);
    }
    forall n ensures n in NamesIn(entries) <==> Declared(entries, n) {
      DeclaredIs(entries, n);
    }
  }
}
