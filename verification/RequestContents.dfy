/** The vocabulary of a tool's configuration, in its own keys: what its parameter lists declare, and where
    the values of a request come from. */
module RequestContents {
  import opened Wrappers
  import opened Tables
  import Runtime

  /** A list of the configuration; anything but a list declares nothing. */
  function Params(config: Dict, key: string): seq<Json> {
    if key in config && config[key].List? then config[key].items else []
  }

  predicate Declares(entry: Json, name: string) {
    entry.Object? && "name" in entry.fields && entry.fields["name"] == Text(name) && name != ""
  }

  predicate Declared(entries: seq<Json>, name: string) {
    exists i :: 0 <= i < |entries| && Declares(entries[i], name)
  }

  predicate OffersValue(entry: Json, name: string) {
    Declares(entry, name) && "value" in entry.fields && Runtime.Truthy(entry.fields["value"])
  }

  /** The value comes from the last entry that declares the name with a truthy value of its own. */
  predicate IsDefault(entries: seq<Json>, name: string, v: Json) {
    exists i :: 0 <= i < |entries| && OffersValue(entries[i], name) && entries[i].fields["value"] == v &&
      forall j :: i < j < |entries| ==> !OffersValue(entries[j], name)
  }

  /** In a path: the argument, or else the entry's own value, or else nothing. */
  predicate Supplies(entry: Json, name: string, arguments: Dict, v: Json) {
    && Declares(entry, name)
    && (name in arguments ==> v == arguments[name])
    && (name !in arguments && "value" in entry.fields ==> v == entry.fields["value"])
    && (name !in arguments && "value" !in entry.fields ==> v == Text(""))
  }

  /** GET and DELETE, in whatever case. */
  predicate Bodiless(httpMethod: string) {
    var m := httpMethod;
    || (|m| == 3 && m[0] in "gG" && m[1] in "eE" && m[2] in "tT")
    || (|m| == 6 && m[0] in "dD" && m[1] in "eE" && m[2] in "lL" && m[3] in "eE" && m[4] in "tT" && m[5] in "eE")
  }

  /** A field of the configured body, if that is the text of an object. */
  predicate InStaticBody(config: Dict, parse: string -> Option<Json>, name: string, v: Json) {
    "body" in config && config["body"].Text? && parse(config["body"].s).Some? &&
    parse(config["body"].s).value.Object? &&
    name in parse(config["body"].s).value.fields && parse(config["body"].s).value.fields[name] == v
  }

  /** What the query holds: declared names with their arguments or defaults, and, if there is no body, the
      arguments that no list declares. */
  predicate InQuery(httpMethod: string, config: Dict, arguments: Dict, name: string, v: Json) {
    var path, query, body := Params(config, "pathParams"), Params(config, "queryParams"), Params(config, "bodyParams");
    if name in arguments then
      v == arguments[name] &&
      (Declared(query, name) ||
       (Bodiless(httpMethod) && !Declared(path, name) && !Declared(query, name) && !Declared(body, name)))
    else IsDefault(query, name, v)
  }

  /** The arguments and defaults that the body holds. */
  predicate InBody(config: Dict, arguments: Dict, name: string, v: Json) {
    var path, query, body := Params(config, "pathParams"), Params(config, "queryParams"), Params(config, "bodyParams");
    if name in arguments then
      v == arguments[name] &&
      (Declared(body, name) || (!Declared(path, name) && !Declared(query, name) && !Declared(body, name)))
    else IsDefault(body, name, v)
  }

  /** The entry decides what the schema says of the name. */
  predicate FirstDeclares(entries: seq<Json>, i: nat, name: string) {
    i < |entries| && Declares(entries[i], name) && forall j :: 0 <= j < i ==> !Declares(entries[j], name)
  }

  predicate HasKind(entry: Json, kind: string) {
    entry.Object? &&
    if "type" in entry.fields &&
       entry.fields["type"] in {Text("string"), Text("number"), Text("integer"), Text("boolean")}
    then entry.fields["type"] == Text(kind)
    else kind == "string"
  }

  predicate HasDescription(entry: Json, description: Json) {
    entry.Object? &&
    if "description" in entry.fields && Runtime.Truthy(entry.fields["description"])
    then description == entry.fields["description"]
    else description == Text("")
  }
}
