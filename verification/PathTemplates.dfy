/** Filling in the placeholders of a tool's URL path. */
module PathTemplates {
  import opened Wrappers
  import opened Tables
  import Runtime
  import opened RequestContents

  /** The name a parameter entry declares: entries that are not objects, or have no name, declare none. */
  function NameOf(entry: Json): Option<string> {
    if entry.Object? && "name" in entry.fields && entry.fields["name"].Text? && entry.fields["name"].s != ""
    then Some(entry.fields["name"].s)
    else None
  }

  /** The names a list declares. */
  function NamesIn(entries: seq<Json>): set<string> {
    set e | e in entries && NameOf(e).Some? :: NameOf(e).value
  }

  /** The value a declared parameter takes: the argument, or else the entry's own value. */
  function ValueOf(name: string, entry: Json, arguments: Dict): Json
    requires entry.Object?
  {
    if name in arguments then arguments[name]
    else if "value" in entry.fields then entry.fields["value"]
    else Text("")
  }

  predicate StartsWith(s: string, prefix: string) {
    |prefix| <= |s| && s[..|prefix|] == prefix
  }

  /** Every occurrence of `pattern`, from the left, replaced by `value`. */
  function Replace(s: string, pattern: string, value: string): string
    requires pattern != ""
    decreases |s|
  {
    if s == "" then ""
    else if StartsWith(s, pattern) then value + Replace(s[|pattern|..], pattern, value)
    else [s[0]] + Replace(s[1..], pattern, value)
  }

  function Placeholder(name: string): (r: string)
    ensures r != ""
  {
    "{" + name + "}"
  }

  /** The effect of one parameter entry on the path. */
  function Substituted1(path: string, entry: Json, arguments: Dict, show: Json -> string): string {
    match NameOf(entry)
    case None => path
    case Some(name) => Replace(path, Placeholder(name), show(ValueOf(name, entry, arguments)))
  }

  function Substituted(path: string, entries: seq<Json>, arguments: Dict, show: Json -> string): string {
    if entries == [] then path
    else
      var n := |entries| - 1;
      Substituted1(Substituted(path, entries[..n], arguments, show), entries[n], arguments, show)
  }

  datatype PathError = NameIsNotText

  /** A name that is there but cannot be part of a placeholder. */
  predicate BadName(entry: Json) {
    entry.Object? && "name" in entry.fields && Runtime.Truthy(entry.fields["name"]) && !entry.fields["name"].Text?
  }

  /** One replacement after the other, in the order of the entries. */
  method SubstitutePath(path: string, entries: seq<Json>, arguments: Dict, show: Json -> string)
    returns (r: Result<string, PathError>)
    ensures r.Failure? <==> exists i :: 0 <= i < |entries| && BadName(entries[i])
    ensures r.Failure? <==>
      exists i :: 0 <= i < |entries| && entries[i].Object? && "name" in entries[i].fields &&
        !entries[i].fields["name"].Text? && Runtime.Truthy(entries[i].fields["name"])
    ensures r.Success? ==> r.value == Substituted(path, entries, arguments, show)
  {
    var result := path;
    for i := 0 to |entries|
      invariant forall j :: 0 <= j < i ==> !BadName(entries[j])
      invariant result == Substituted(path, entries[..i], arguments, show)
    {
      assert entries[..i + 1][..i] == entries[..i];
      if BadName(entries[i]) {
        return Failure(NameIsNotText);
      }
      var name := NameOf(entries[i]);
      if name.Some? {
        result := Replace(result, Placeholder(name.value), show(ValueOf(name.value, entries[i], arguments)));
      }
    }
    assert entries[..|entries|] == entries;
    r := Success(result);
  }

  // Templates: text and placeholders.

  datatype Segment = Literal(text: string) | Hole(name: string)

  function Show(segment: Segment): string {
    match segment
    case Literal(text) => text
    case Hole(name) => Placeholder(name)
  }

  function Render(template: seq<Segment>): string {
    if template == [] then "" else Show(template[0]) + Render(template[1..])
  }

  predicate Plain(s: string) {
    '{' !in s && '}' !in s
  }

  predicate SegmentOk(segment: Segment) {
    match segment
    case Literal(text) => '{' !in text
    case Hole(name) => Plain(name)
  }

  predicate TemplateOk(template: seq<Segment>) {
    forall i :: 0 <= i < |template| ==> SegmentOk(template[i])
  }

  /** All placeholders filled at once. */
  function Fill1(segment: Segment, values: map<string, string>): Segment {
    if segment.Hole? && segment.name in values then Literal(values[segment.name]) else segment
  }

  function Fill(template: seq<Segment>, values: map<string, string>): (r: seq<Segment>)
    ensures |r| == |template| && forall i :: 0 <= i < |template| ==> r[i] == Fill1(template[i], values)
  {
    seq(|template|, i requires 0 <= i < |template| => Fill1(template[i], values))
  }

  /** Replacing leaves text without an opening brace alone. */
  lemma {:induction false} ReplaceSkips(text: string, rest: string, name: string, value: string)
    requires '{' !in text
    ensures Replace(text + rest, Placeholder(name), value) == text + Replace(rest, Placeholder(name), value)
    decreases |text|
  {
    if text == "" {
      assert text + rest == rest;
    } else {
      var s := text + rest;
      assert s[0] == text[0] != '{' && Placeholder(name)[0] == '{';
      assert !StartsWith(s, Placeholder(name));
      assert s[1..] == text[1..] + rest;
      ReplaceSkips(text[1..], rest, name, value);
    }
  }

  /** A placeholder starts with another one only if both name the same parameter. */
  lemma PlaceholderPrefix(m: string, n: string, rest: string)
    requires Plain(m) && Plain(n)
    ensures StartsWith(Placeholder(m) + rest, Placeholder(n)) <==> m == n
  {
    var s, p := Placeholder(m) + rest, Placeholder(n);
    assert s[|m| + 1] == '}' && p[|n| + 1] == '}';
    assert |n| < |m| ==> s[|n| + 1] == m[|n|];
    assert |m| < |n| ==> p[|m| + 1] == n[|m|];
    if StartsWith(s, p) {
      assert forall i :: 0 <= i < |p| ==> s[i] == p[i];
      assert |m| == |n|;
      assert forall i :: 0 <= i < |n| ==> n[i] == p[i + 1] == s[i + 1] == m[i];
    }
  }

  lemma ReplaceAtHole(m: string, n: string, rest: string, value: string)
    requires Plain(m) && Plain(n)
    ensures Replace(Placeholder(m) + rest, Placeholder(n), value) ==
            (if m == n then value else Placeholder(m)) + Replace(rest, Placeholder(n), value)
  {
    var s := Placeholder(m) + rest;
    PlaceholderPrefix(m, n, rest);
    if m == n {
      assert s[|Placeholder(n)|..] == rest;
    } else {
      var tail := m + "}";
      assert s[1..] == tail + rest;
      ReplaceSkips(tail, rest, n, value);
      assert [s[0]] + (tail + Replace(rest, Placeholder(n), value)) ==
        Placeholder(m) + Replace(rest, Placeholder(n), value);
    }
  }

  /** Replacing one placeholder in the text is filling that hole in the template. */
  lemma {:induction false} ReplaceIsFill(template: seq<Segment>, name: string, value: string)
    requires TemplateOk(template) && Plain(name)
    ensures Replace(Render(template), Placeholder(name), value) == Render(Fill(template, map[name := value]))
  {
    if template != [] {
      var rest := Render(template[1..]);
      ReplaceIsFill(template[1..], name, value);
      assert Fill(template, map[name := value])[1..] == Fill(template[1..], map[name := value]);
      match template[0]
      case Literal(text) => ReplaceSkips(text, rest, name, value);
      case Hole(m) => ReplaceAtHole(m, name, rest, value);
    }
  }

  /** The value of each declared name; the first entry that declares it decides. */
  function Values(entries: seq<Json>, arguments: Dict, show: Json -> string): map<string, string> {
    if entries == [] then map[]
    else
      var n := |entries| - 1;
      var before := Values(entries[..n], arguments, show);
      match NameOf(entries[n])
      case None => before
      case Some(name) => if name in before then before else before[name := show(ValueOf(name, entries[n], arguments))]
  }

  lemma FillTwice(template: seq<Segment>, values: map<string, string>, name: string, value: string)
    ensures Fill(Fill(template, values), map[name := value]) ==
            Fill(template, if name in values then values else values[name := value])
  {
  }

  /** Declared names and their values are harmless: no braces in names, no opening brace in values. */
  ghost predicate EntriesOk(entries: seq<Json>, arguments: Dict, show: Json -> string) {
    forall i :: 0 <= i < |entries| && NameOf(entries[i]).Some? ==>
      Plain(NameOf(entries[i]).value) && '{' !in show(ValueOf(NameOf(entries[i]).value, entries[i], arguments))
  }

  lemma {:induction false} ValuesOk(entries: seq<Json>, arguments: Dict, show: Json -> string)
    requires EntriesOk(entries, arguments, show)
    ensures forall name :: name in Values(entries, arguments, show) ==> '{' !in Values(entries, arguments, show)[name]
  {
    if entries != [] {
      ValuesOk(entries[..|entries| - 1], arguments, show);
    }
  }

  /** Sequential replacement is simultaneous substitution. */
  lemma {:induction false} SequentialIsSimultaneous(
    template: seq<Segment>, entries: seq<Json>, arguments: Dict, show: Json -> string)
    requires TemplateOk(template) && EntriesOk(entries, arguments, show)
    ensures Substituted(Render(template), entries, arguments, show) ==
            Render(Fill(template, Values(entries, arguments, show)))
  {
    if entries == [] {
      assert Fill(template, map[]) == template;
    } else {
      var n := |entries| - 1;
      var values := Values(entries[..n], arguments, show);
      SequentialIsSimultaneous(template, entries[..n], arguments, show);
      var name := NameOf(entries[n]);
      if name.Some? {
        var value := show(ValueOf(name.value, entries[n], arguments));
        ValuesOk(entries[..n], arguments, show);
        ReplaceIsFill(Fill(template, values), name.value, value);
        FillTwice(template, values, name.value, value);
      }
    }
  }

  // The same in the terms of the configuration.

  /** The names and values that the entries put into the path are harmless. */
  ghost predicate HarmlessEntries(entries: seq<Json>, arguments: Dict, show: Json -> string) {
    forall e, name, v :: e in entries && Supplies(e, name, arguments, v) ==> Plain(name) && '{' !in show(v)
  }

  /** Each hole is filled with what the first entry that declares its name supplies, and nothing else changes. */
  ghost predicate FilledFrom(
    template: seq<Segment>, filled: seq<Segment>, entries: seq<Json>, arguments: Dict, show: Json -> string)
  {
    && |filled| == |template|
    && forall k :: 0 <= k < |template| ==>
         if template[k].Hole? && Declared(entries, template[k].name) then
           exists i: nat, v :: FirstDeclares(entries, i, template[k].name) &&
             Supplies(entries[i], template[k].name, arguments, v) && filled[k] == Literal(show(v))
         else filled[k] == template[k]
  }

  lemma SuppliesIs(entry: Json, arguments: Dict, name: string)
    ensures NameOf(entry) == Some(name) <==> Declares(entry, name)
    ensures Declares(entry, name) ==> Supplies(entry, name, arguments, ValueOf(name, entry, arguments))
  {
  }

  lemma FirstDeclared(entries: seq<Json>, name: string) returns (i: nat)
    requires Declared(entries, name)
    ensures FirstDeclares(entries, i, name)
  {
    i := 0;
    while !Declares(entries[i], name)
      invariant i < |entries| && forall j :: 0 <= j < i ==> !Declares(entries[j], name)
      decreases |entries| - i
    {
      i := i + 1;
    }
  }

  /** The first entry that declares a name decides. */
  lemma {:induction false} ValuesFirst(
    entries: seq<Json>, arguments: Dict, show: Json -> string, i: nat, name: string)
    requires FirstDeclares(entries, i, name)
    ensures name in Values(entries, arguments, show)
    ensures Values(entries, arguments, show)[name] == show(ValueOf(name, entries[i], arguments))
  {
    var n := |entries| - 1;
    SuppliesIs(entries[n], arguments, name);
    if i < n {
      ValuesFirst(entries[..n], arguments, show, i, name);
    } else {
      ValuesDeclared(entries[..n], arguments, show, name);
    }
  }

  lemma {:induction false} ValuesDeclared(entries: seq<Json>, arguments: Dict, show: Json -> string, name: string)
    ensures name in Values(entries, arguments, show) <==> Declared(entries, name)
  {
    if entries != [] {
      var n := |entries| - 1;
      ValuesDeclared(entries[..n], arguments, show, name);
      SuppliesIs(entries[n], arguments, name);
      if i :| 0 <= i < |entries| && Declares(entries[i], name) {
        assert i < n ==> Declares(entries[..n][i], name);
      }
      if i :| 0 <= i < n && Declares(entries[..n][i], name) {
        assert Declares(entries[i], name);
      }
    }
  }

  /** The path of a call: plain text stays, and each hole holds the argument of its name, or else the value
      of the first entry that declares it, or else nothing. */
  lemma PathFilled(template: seq<Segment>, entries: seq<Json>, arguments: Dict, show: Json -> string)
    returns (filled: seq<Segment>)
    requires TemplateOk(template) && HarmlessEntries(entries, arguments, show)
    ensures FilledFrom(template, filled, entries, arguments, show)
    ensures Substituted(Render(template), entries, arguments, show) == Render(filled)
  {
    forall i | 0 <= i < |entries| && NameOf(entries[i]).Some?
      ensures Plain(NameOf(entries[i]).value)
      ensures '{' !in show(ValueOf(NameOf(entries[i]).value, entries[i], arguments))
    {
      SuppliesIs(entries[i], arguments, NameOf(entries[i]).value);
      assert entries[i] in entries;
    }
    SequentialIsSimultaneous(template, entries, arguments, show);
    filled := Fill(template, Values(entries, arguments, show));
    forall k | 0 <= k < |template|
      ensures if template[k].Hole? && Declared(entries, template[k].name) then
          exists i: nat, v :: FirstDeclares(entries, i, template[k].name) &&
            Supplies(entries[i], template[k].name, arguments, v) && filled[k] == Literal(show(v))
        else filled[k] == template[k]
    {
      if template[k].Hole? {
        var name := template[k].name;
        ValuesDeclared(entries, arguments, show, name);
        if Declared(entries, name) {
          var i := FirstDeclared(entries, name);
          ValuesFirst(entries, arguments, show, i, name);
          SuppliesIs(entries[i], arguments, name);
        }
      }
    }
  }

  ghost predicate DistinctNames(entries: seq<Json>) {
    forall i, j :: 0 <= i < j < |entries| && NameOf(entries[i]).Some? ==> NameOf(entries[i]) != NameOf(entries[j])
  }

  lemma {:induction false} ValuesMean(entries: seq<Json>, arguments: Dict, show: Json -> string, name: string)
    requires DistinctNames(entries)
    ensures name in Values(entries, arguments, show) <==> exists e :: e in entries && NameOf(e) == Some(name)
    ensures forall e :: e in entries && NameOf(e) == Some(name) ==>
      name in Values(entries, arguments, show) &&
      Values(entries, arguments, show)[name] == show(ValueOf(name, e, arguments))
  {
    if entries != [] {
      var n := |entries| - 1;
      ValuesMean(entries[..n], arguments, show, name);
      assert entries == entries[..n] + [entries[n]];
    }
  }

  /** The order of parameters with distinct names does not matter. */
  lemma OrderDoesNotMatter(
    template: seq<Segment>, entries: seq<Json>, shuffled: seq<Json>, arguments: Dict, show: Json -> string)
    requires TemplateOk(template) && EntriesOk(entries, arguments, show)
    requires multiset(entries) == multiset(shuffled) && DistinctNames(entries) && DistinctNames(shuffled)
    ensures Substituted(Render(template), shuffled, arguments, show) ==
            Substituted(Render(template), entries, arguments, show)
  {
    SameMembers(entries, shuffled);
    forall i | 0 <= i < |shuffled| ensures shuffled[i] in entries {
    }
    assert EntriesOk(shuffled, arguments, show);
    var values, values' := Values(entries, arguments, show), Values(shuffled, arguments, show);
    forall name ensures name in values <==> name in values'
                ensures name in values ==> values[name] == values'[name] {
      ValuesMean(entries, arguments, show, name);
      ValuesMean(shuffled, arguments, show, name);
    }
    assert values == values';
    SequentialIsSimultaneous(template, entries, arguments, show);
    SequentialIsSimultaneous(template, shuffled, arguments, show);
  }

  lemma SameMembers(a: seq<Json>, b: seq<Json>)
    requires multiset(a) == multiset(b)
    ensures forall e :: e in a <==> e in b
  {
    forall e ensures e in a <==> e in b {
      assert e in a <==> e in multiset(a);
      assert e in b <==> e in multiset(b);
    }
  }

  // Exactly when one replacement fills exactly the holes, for any text and any value.

  function Occurrences(s: string, pattern: string): nat {
    if s == "" then 0 else (if StartsWith(s, pattern) then 1 else 0) + Occurrences(s[1..], pattern)
  }

  function Holes(template: seq<Segment>, name: string): nat {
    if template == [] then 0 else (if template[0] == Hole(name) then 1 else 0) + Holes(template[1..], name)
  }

  predicate PlainHoles(template: seq<Segment>) {
    forall i :: 0 <= i < |template| && template[i].Hole? ==> Plain(template[i].name)
  }

  lemma {:induction false} OccurrencesSkip(text: string, rest: string, name: string)
    requires '{' !in text
    ensures Occurrences(text + rest, Placeholder(name)) == Occurrences(rest, Placeholder(name))
    decreases |text|
  {
    if text == "" {
      assert text + rest == rest;
    } else {
      var s := text + rest;
      assert s[0] == text[0] != '{' && Placeholder(name)[0] == '{';
      assert !StartsWith(s, Placeholder(name));
      assert s[1..] == text[1..] + rest;
      OccurrencesSkip(text[1..], rest, name);
    }
  }

  lemma OccurrencesAtHole(m: string, n: string, rest: string)
    requires Plain(m) && Plain(n)
    ensures Occurrences(Placeholder(m) + rest, Placeholder(n)) ==
            (if m == n then 1 else 0) + Occurrences(rest, Placeholder(n))
  {
    PlaceholderPrefix(m, n, rest);
    assert (Placeholder(m) + rest)[1..] == (m + "}") + rest;
    OccurrencesSkip(m + "}", rest, n);
  }

  lemma OneMore(k: nat, d: int)
    ensures (1 + k) * d == d + k * d
  {
  }

  lemma {:induction false} ReplaceLength(s: string, name: string, value: string)
    requires Plain(name)
    ensures |Replace(s, Placeholder(name), value)| ==
            |s| + Occurrences(s, Placeholder(name)) * (|value| - |Placeholder(name)|)
    decreases |s|
  {
    var p := Placeholder(name);
    if s == "" {
    } else if StartsWith(s, p) {
      var rest := s[|p|..];
      assert s == p + rest;
      OccurrencesAtHole(name, name, rest);
      ReplaceLength(rest, name, value);
      OneMore(Occurrences(rest, p), |value| - |p|);
    } else {
      ReplaceLength(s[1..], name, value);
    }
  }

  lemma {:induction false} FillLength(template: seq<Segment>, name: string, value: string)
    ensures |Render(Fill(template, map[name := value]))| ==
            |Render(template)| + Holes(template, name) * (|value| - |Placeholder(name)|)
  {
    if template != [] {
      FillLength(template[1..], name, value);
      assert Fill(template, map[name := value])[1..] == Fill(template[1..], map[name := value]);
      OneMore(Holes(template[1..], name), |value| - |Placeholder(name)|);
    }
  }

  /** The template without the first character of the literal it starts with. */
  function Peeled(template: seq<Segment>): seq<Segment>
    requires template != [] && template[0].Literal? && template[0].text != ""
  {
    [Literal(template[0].text[1..])] + template[1..]
  }

  lemma HeadFirst(text: string, rest: string)
    requires text != ""
    ensures text + rest == [text[0]] + (text[1..] + rest)
  {
  }

  lemma RenderPeeled(template: seq<Segment>)
    requires template != [] && template[0].Literal? && template[0].text != ""
    ensures Render(template) == [template[0].text[0]] + Render(Peeled(template))
  {
    assert Peeled(template)[0] == Literal(template[0].text[1..]) && Peeled(template)[1..] == template[1..];
    HeadFirst(template[0].text, Render(template[1..]));
  }

  lemma PeeledRenders(template: seq<Segment>, name: string, value: string)
    requires template != [] && template[0].Literal? && template[0].text != "" && PlainHoles(template)
    ensures PlainHoles(Peeled(template)) && Holes(Peeled(template), name) == Holes(template, name)
    ensures Render(template) == [template[0].text[0]] + Render(Peeled(template))
    ensures Render(Fill(template, map[name := value])) ==
            [template[0].text[0]] + Render(Fill(Peeled(template), map[name := value]))
  {
    assert Peeled(template)[1..] == template[1..];
    RenderPeeled(template);
    RenderPeeled(Fill(template, map[name := value]));
    assert Fill(Peeled(template), map[name := value]) == Peeled(Fill(template, map[name := value]));
  }

  lemma NothingFirst(s: string)
    ensures "" + s == s
  {
  }

  lemma EmptyFirst(template: seq<Segment>, name: string, value: string)
    requires template != [] && template[0] == Literal("")
    ensures Render(template) == Render(template[1..])
    ensures Render(Fill(template, map[name := value])) == Render(Fill(template[1..], map[name := value]))
  {
    var fill := Fill(template, map[name := value]);
    assert fill[1..] == Fill(template[1..], map[name := value]);
    NothingFirst(Render(fill[1..]));
    NothingFirst(Render(template[1..]));
  }

  /** Every hole is an occurrence of its placeholder. */
  lemma {:induction false} HolesOccur(template: seq<Segment>, name: string)
    requires PlainHoles(template) && Plain(name)
    ensures Holes(template, name) <= Occurrences(Render(template), Placeholder(name))
    decreases |template| + |Render(template)|
  {
    if template != [] {
      match template[0]
      case Hole(m) =>
        OccurrencesAtHole(m, name, Render(template[1..]));
        HolesOccur(template[1..], name);
      case Literal(text) =>
        if text == "" {
          EmptyFirst(template, name, "");
          HolesOccur(template[1..], name);
        } else {
          PeeledRenders(template, name, "");
          HolesOccur(Peeled(template), name);
        }
    }
  }

  lemma StartsWithCons(c: char, s: string, prefix: string)
    requires prefix != ""
    ensures StartsWith([c] + s, prefix) <==> c == prefix[0] && StartsWith(s, prefix[1..])
  {
    if |prefix| <= |s| + 1 {
      assert ([c] + s)[..|prefix|] == [c] + s[..|prefix| - 1];
      assert prefix == [prefix[0]] + prefix[1..];
    }
  }

  lemma PeeledPrefix(template: seq<Segment>, prefix: string, name: string, value: string)
    requires template != [] && template[0].Literal? && template[0].text != "" && PlainHoles(template) && prefix != ""
    requires StartsWith(Render(template), prefix)
    ensures PlainHoles(Peeled(template)) && |Render(Peeled(template))| < |Render(template)|
    ensures StartsWith(Render(Peeled(template)), prefix[1..])
    ensures StartsWith(Render(Fill(Peeled(template), map[name := value])), prefix[1..]) ==>
      StartsWith(Render(Fill(template, map[name := value])), prefix)
  {
    PeeledRenders(template, name, value);
    StartsWithCons(template[0].text[0], Render(Peeled(template)), prefix);
    StartsWithCons(template[0].text[0], Render(Fill(Peeled(template), map[name := value])), prefix);
  }

  lemma HoleFirst(template: seq<Segment>)
    requires template != [] && template[0].Hole?
    ensures Render(template) != "" && Render(template)[0] == '{'
  {
  }

  /** Filling leaves the text before the first opening brace alone. */
  lemma {:induction false} FillKeepsPrefix(template: seq<Segment>, prefix: string, name: string, value: string)
    requires PlainHoles(template) && '{' !in prefix && StartsWith(Render(template), prefix)
    ensures StartsWith(Render(Fill(template, map[name := value])), prefix)
    decreases |template| + |Render(template)|
  {
    if template != [] && template[0].Hole? {
      HoleFirst(template);
    }
    if prefix == "" || template == [] || template[0].Hole? {
    } else if template[0].text == "" {
      EmptyFirst(template, name, value);
      FillKeepsPrefix(template[1..], prefix, name, value);
    } else {
      PeeledPrefix(template, prefix, name, value);
      FillKeepsPrefix(Peeled(template), prefix[1..], name, value);
    }
  }

  /** An occurrence that is not a hole is replaced but not filled. */
  lemma StrayReplaced(template: seq<Segment>, name: string, value: string)
    requires PlainHoles(template) && Plain(name) && value != Placeholder(name)
    requires template != [] && template[0].Literal? && template[0].text != ""
    requires StartsWith(Render(template), Placeholder(name))
    ensures Occurrences(Render(template), Placeholder(name)) > Holes(template, name)
    ensures Replace(Render(template), Placeholder(name), value) != Render(Fill(template, map[name := value]))
  {
    var s, p, fill := Render(template), Placeholder(name), Render(Fill(template, map[name := value]));
    PeeledRenders(template, name, value);
    HolesOccur(Peeled(template), name);
    if |value| == |p| {
      var peeled, rest := Peeled(template), name + "}";
      assert p == "{" + rest && p[1..] == rest;
      StartsWithCons(template[0].text[0], Render(peeled), p);
      FillKeepsPrefix(peeled, rest, name, value);
      StartsWithCons('{', Render(Fill(peeled, map[name := value])), p);
      assert Replace(s, p, value)[..|p|] == value;
    } else {
      ReplaceLength(s, name, value);
      FillLength(template, name, value);
      Multiples(Occurrences(s, p), Holes(template, name), |value| - |p|);
    }
  }

  lemma Multiples(a: nat, b: nat, d: int)
    requires a > b && d != 0
    ensures a * d != b * d
  {
    assert (a - b) * d != 0;
  }

  /** Replacing a placeholder in the rendered text fills exactly the holes of that name if and only
      if the text has no other occurrence of it, or the value is the placeholder itself. */
  lemma {:induction false} ReplaceIsFillIff(template: seq<Segment>, name: string, value: string)
    requires PlainHoles(template) && Plain(name)
    ensures Replace(Render(template), Placeholder(name), value) == Render(Fill(template, map[name := value]))
            <==> value == Placeholder(name) ||
                 Occurrences(Render(template), Placeholder(name)) == Holes(template, name)
    decreases |template| + |Render(template)|
  {
    if value == Placeholder(name) {
      ReplaceBySelf(Render(template), value);
      FillBySelf(template, name);
    } else if template != [] {
      match template[0]
      case Hole(m) =>
        var rest := Render(template[1..]);
        assert Fill(template, map[name := value])[1..] == Fill(template[1..], map[name := value]);
        ReplaceAtHole(m, name, rest, value);
        OccurrencesAtHole(m, name, rest);
        ReplaceIsFillIff(template[1..], name, value);
        SamePrefix(if m == name then value else Placeholder(m), Replace(rest, Placeholder(name), value),
                   Render(Fill(template[1..], map[name := value])));
      case Literal(text) =>
        if text == "" {
          EmptyFirst(template, name, value);
          ReplaceIsFillIff(template[1..], name, value);
        } else if StartsWith(Render(template), Placeholder(name)) {
          StrayReplaced(template, name, value);
        } else {
          PeeledRenders(template, name, value);
          ReplaceIsFillIff(Peeled(template), name, value);
          SamePrefix([text[0]], Replace(Render(Peeled(template)), Placeholder(name), value),
                     Render(Fill(Peeled(template), map[name := value])));
        }
    }
  }

  lemma SamePrefix(prefix: string, a: string, b: string)
    ensures prefix + a == prefix + b <==> a == b
  {
    assert (prefix + a)[|prefix|..] == a && (prefix + b)[|prefix|..] == b;
  }

  lemma {:induction false} ReplaceBySelf(s: string, pattern: string)
    requires pattern != ""
    ensures Replace(s, pattern, pattern) == s
    decreases |s|
  {
    if s != "" {
      if StartsWith(s, pattern) {
        ReplaceBySelf(s[|pattern|..], pattern);
      } else {
        ReplaceBySelf(s[1..], pattern);
      }
    }
  }

  lemma {:induction false} FillBySelf(template: seq<Segment>, name: string)
    ensures Render(Fill(template, map[name := Placeholder(name)])) == Render(template)
  {
    if template != [] {
      FillBySelf(template[1..], name);
      assert Fill(template, map[name := Placeholder(name)])[1..] == Fill(template[1..], map[name := Placeholder(name)]);
    }
  }

  // Exactly which parameter lists are safe, whatever the arguments.

  lemma {:induction false} SubstitutedInTwo(
    path: string, first: seq<Json>, rest: seq<Json>, arguments: Dict, show: Json -> string)
    ensures Substituted(path, first + rest, arguments, show) ==
            Substituted(Substituted(path, first, arguments, show), rest, arguments, show)
  {
    if rest == [] {
      assert first + rest == first;
    } else {
      var n := |rest| - 1;
      SubstitutedInTwo(path, first, rest[..n], arguments, show);
      assert (first + rest)[..|first| + n] == first + rest[..n];
    }
  }

  /** Some declared name with a hole in the template is followed by another declared name. */
  ghost predicate Exposed(template: seq<Segment>, entries: seq<Json>) {
    exists i, j :: 0 <= i < j < |entries| && NameOf(entries[i]).Some? && NameOf(entries[j]).Some? &&
      Hole(NameOf(entries[i]).value) in template
  }

  ghost predicate PlainNames(entries: seq<Json>) {
    forall i :: 0 <= i < |entries| && NameOf(entries[i]).Some? ==> Plain(NameOf(entries[i]).value)
  }

  ghost predicate Simultaneous(template: seq<Segment>, entries: seq<Json>, arguments: Dict, show: Json -> string) {
    Substituted(Render(template), entries, arguments, show) ==
    Render(Fill(template, Values(entries, arguments, show)))
  }

  lemma FillUnused(template: seq<Segment>, values: map<string, string>)
    requires forall name :: name in values ==> Hole(name) !in template
    ensures Fill(template, values) == template
  {
  }

  lemma NamesInBoth(first: seq<Json>, rest: seq<Json>)
    ensures NamesIn(first + rest) == NamesIn(first) + NamesIn(rest)
  {
    assert forall e :: e in first + rest <==> e in first || e in rest;
  }

  lemma {:induction false} ValuesAreDeclared(entries: seq<Json>, arguments: Dict, show: Json -> string)
    ensures Values(entries, arguments, show).Keys == NamesIn(entries)
  {
    if entries != [] {
      var n := |entries| - 1;
      ValuesAreDeclared(entries[..n], arguments, show);
      NamesInBoth(entries[..n], [entries[n]]);
      assert entries == entries[..n] + [entries[n]];
    }
  }

  /** Without an exposed name every list of arguments is substituted simultaneously. */
  lemma {:induction false} UnexposedIsSimultaneous(
    template: seq<Segment>, entries: seq<Json>, arguments: Dict, show: Json -> string)
    requires TemplateOk(template) && PlainNames(entries) && !Exposed(template, entries)
    ensures Simultaneous(template, entries, arguments, show)
  {
    if entries == [] {
      assert Fill(template, map[]) == template;
    } else {
      var n := |entries| - 1;
      var values := Values(entries[..n], arguments, show);
      UnexposedIsSimultaneous(template, entries[..n], arguments, show);
      var name := NameOf(entries[n]);
      if name.Some? {
        ValuesAreDeclared(entries[..n], arguments, show);
        forall other | other in values ensures Hole(other) !in template {
          var e :| e in entries[..n] && NameOf(e) == Some(other);
          var i :| 0 <= i < n && entries[i] == e;
        }
        var value := show(ValueOf(name.value, entries[n], arguments));
        FillUnused(template, values);
        ReplaceIsFill(template, name.value, value);
        FillTwice(template, values, name.value, value);
      }
    }
  }

  /** The template with the holes of one name given another name. */
  function Renamed(template: seq<Segment>, a: string, b: string): (r: seq<Segment>)
    ensures |r| == |template|
    ensures forall i :: 0 <= i < |template| ==> r[i] == if template[i] == Hole(a) then Hole(b) else template[i]
  {
    seq(|template|, i requires 0 <= i < |template| => if template[i] == Hole(a) then Hole(b) else template[i])
  }

  lemma {:induction false} FillByPlaceholder(template: seq<Segment>, a: string, b: string)
    ensures Render(Fill(template, map[a := Placeholder(b)])) == Render(Renamed(template, a, b))
  {
    if template != [] {
      FillByPlaceholder(template[1..], a, b);
      assert Fill(template, map[a := Placeholder(b)])[1..] == Fill(template[1..], map[a := Placeholder(b)]);
      assert Renamed(template, a, b)[1..] == Renamed(template[1..], a, b);
    }
  }

  /** Arguments that expose `a`: it takes the placeholder of `b` as its value, all others are empty. */
  function Exposing(entries: seq<Json>, a: string, b: string): Dict {
    map name | name in NamesIn(entries) :: Text(if name == a then Placeholder(b) else "")
  }

  lemma {:induction false} ValuesGiven(entries: seq<Json>, arguments: Dict, show: Json -> string)
    requires NamesIn(entries) <= arguments.Keys
    ensures forall name :: name in Values(entries, arguments, show) ==>
      name in arguments && Values(entries, arguments, show)[name] == show(arguments[name])
  {
    if entries != [] {
      var n := |entries| - 1;
      NamesInBoth(entries[..n], [entries[n]]);
      assert entries == entries[..n] + [entries[n]];
      ValuesGiven(entries[..n], arguments, show);
      ValuesAreDeclared(entries, arguments, show);
    }
  }

  /** Segment by segment not longer, and somewhere shorter. */
  lemma {:induction false} ShorterRender(short: seq<Segment>, long: seq<Segment>)
    requires |short| == |long|
    requires forall i :: 0 <= i < |short| ==> |Show(short[i])| <= |Show(long[i])|
    ensures |Render(short)| <= |Render(long)|
    ensures (exists i :: 0 <= i < |short| && |Show(short[i])| < |Show(long[i])|) ==> |Render(short)| < |Render(long)|
  {
    if short != [] {
      ShorterRender(short[1..], long[1..]);
      if i :| 0 <= i < |short| && |Show(short[i])| < |Show(long[i])| {
        assert i > 0 ==> short[1..][i - 1] == short[i] && long[1..][i - 1] == long[i];
      }
    }
  }

  lemma ExposedShorter(template: seq<Segment>, before: map<string, string>, after: map<string, string>,
                       values: map<string, string>, a: string, b: string)
    requires values.Keys == before.Keys + {a} + after.Keys && a !in before && a !in after && b in after
    requires forall name :: name in values ==> values[name] == if name == a then Placeholder(b) else ""
    requires forall name :: name in before ==> before[name] == ""
    requires forall name :: name in after ==> after[name] == ""
    requires Hole(a) in template
    ensures Render(Fill(Renamed(Fill(template, before), a, b), after)) != Render(Fill(template, values))
  {
    var short, long := Fill(Renamed(Fill(template, before), a, b), after), Fill(template, values);
    forall i | 0 <= i < |template|
      ensures |Show(short[i])| <= |Show(long[i])|
      ensures template[i] == Hole(a) ==> |Show(short[i])| < |Show(long[i])|
    {
      assert template[i] == Hole(a) ==> short[i] == Literal("") && long[i] == Literal(Placeholder(b));
    }
    var i :| 0 <= i < |template| && template[i] == Hole(a);
    ShorterRender(short, long);
  }

  /** How the loop goes when one entry's value is the placeholder of another and all others are empty. */
  lemma ExposedRun(template: seq<Segment>, before: seq<Json>, entry: Json, after: seq<Json>,
                   arguments: Dict, show: Json -> string, a: string, b: string)
    requires TemplateOk(template) && Plain(a) && Plain(b) && NameOf(entry) == Some(a)
    requires a in arguments && show(arguments[a]) == Placeholder(b)
    requires EntriesOk(before, arguments, show) && EntriesOk(after, arguments, show)
    ensures Substituted(Render(template), before + [entry] + after, arguments, show) ==
            Render(Fill(Renamed(Fill(template, Values(before, arguments, show)), a, b), Values(after, arguments, show)))
  {
    var values := Values(before, arguments, show);
    var filled := Fill(template, values);
    var left := Renamed(filled, a, b);
    SubstitutedInTwo(Render(template), before + [entry], after, arguments, show);
    assert (before + [entry])[..|before|] == before;
    SequentialIsSimultaneous(template, before, arguments, show);
    ValuesOk(before, arguments, show);
    ReplaceIsFill(filled, a, Placeholder(b));
    FillByPlaceholder(filled, a, b);
    assert TemplateOk(left);
    SequentialIsSimultaneous(left, after, arguments, show);
  }

  /** Every declared argument is given: the placeholder of `b` for `a`, nothing for the others. */
  ghost predicate Exposes(names: set<string>, arguments: Dict, show: Json -> string, a: string, b: string) {
    names <= arguments.Keys &&
    forall name :: name in names ==> show(arguments[name]) == if name == a then Placeholder(b) else ""
  }

  lemma OthersEmpty(entries: seq<Json>, arguments: Dict, show: Json -> string, a: string, b: string)
    requires PlainNames(entries) && Exposes(NamesIn(entries), arguments, show, a, b) && a !in NamesIn(entries)
    ensures EntriesOk(entries, arguments, show)
    ensures forall name :: name in Values(entries, arguments, show) ==> Values(entries, arguments, show)[name] == ""
  {
    forall i | 0 <= i < |entries| && NameOf(entries[i]).Some?
      ensures show(ValueOf(NameOf(entries[i]).value, entries[i], arguments)) == ""
    {
      assert entries[i] in entries;
    }
    ValuesGiven(entries, arguments, show);
    ValuesAreDeclared(entries, arguments, show);
  }

  lemma ExposedAround(template: seq<Segment>, before: seq<Json>, entry: Json, after: seq<Json>,
                      arguments: Dict, show: Json -> string, a: string, b: string)
    requires TemplateOk(template) && PlainNames(before) && PlainNames(after) && Plain(a) && Plain(b)
    requires NameOf(entry) == Some(a) && Hole(a) in template
    requires a !in NamesIn(before) && a !in NamesIn(after) && b in NamesIn(after)
    requires Exposes(NamesIn(before + [entry] + after), arguments, show, a, b)
    ensures !Simultaneous(template, before + [entry] + after, arguments, show)
  {
    var entries := before + [entry] + after;
    NamesInBoth(before + [entry], after);
    NamesInBoth(before, [entry]);
    assert NamesIn([entry]) == {a} by { assert entry in [entry]; }
    OthersEmpty(before, arguments, show, a, b);
    OthersEmpty(after, arguments, show, a, b);
    ValuesGiven(entries, arguments, show);
    ValuesAreDeclared(before, arguments, show);
    ValuesAreDeclared(after, arguments, show);
    ValuesAreDeclared(entries, arguments, show);
    ExposedRun(template, before, entry, after, arguments, show, a, b);
    ExposedShorter(template, Values(before, arguments, show), Values(after, arguments, show),
                   Values(entries, arguments, show), a, b);
  }

  /** A name declared once, with a hole, and followed by another: some arguments come out differently. */
  lemma OnceExposedDiffers(template: seq<Segment>, entries: seq<Json>, show: Json -> string, i: nat, j: nat)
    requires TemplateOk(template) && PlainNames(entries)
    requires forall s :: show(Text(s)) == s
    requires i < j < |entries| && NameOf(entries[i]).Some? && NameOf(entries[j]).Some?
    requires Hole(NameOf(entries[i]).value) in template
    requires forall k :: 0 <= k < |entries| && k != i ==> NameOf(entries[k]) != NameOf(entries[i])
    ensures var arguments := Exposing(entries, NameOf(entries[i]).value, NameOf(entries[j]).value);
      !Simultaneous(template, entries, arguments, show)
  {
    var a, b := NameOf(entries[i]).value, NameOf(entries[j]).value;
    var before, after := entries[..i], entries[i + 1..];
    forall e | e in before || e in after ensures NameOf(e) != Some(a) {
      var k :| 0 <= k < |entries| && k != i && entries[k] == e;
    }
    assert entries[j] == after[j - i - 1];
    assert entries == before + [entries[i]] + after;
    ExposedAround(template, before, entries[i], after, Exposing(entries, a, b), show, a, b);
  }

  // A name declared twice is exposed to itself: a value that holds its own placeholder is replaced
  // once per declaration.

  function Repeat(c: char, n: nat): (r: string)
    ensures |r| == n && forall i :: 0 <= i < n ==> r[i] == c
  {
    seq(n, i => c)
  }

  /** A hole of the name is followed by `n` times the letter x. */
  function Trailed1(segment: Segment, a: string, n: nat): seq<Segment> {
    if segment == Hole(a) then [Hole(a), Literal(Repeat('x', n))] else [segment]
  }

  function Trailed(template: seq<Segment>, a: string, n: nat): seq<Segment> {
    if template == [] then [] else Trailed1(template[0], a, n) + Trailed(template[1..], a, n)
  }

  lemma Reassociated(a: string, b: string, c: string)
    ensures a + (b + c) == (a + b) + c
  {
  }

  lemma RenderFirst(first: Segment, rest: seq<Segment>)
    ensures Render([first] + rest) == Show(first) + Render(rest)
  {
    assert ([first] + rest)[1..] == rest;
  }

  lemma OneMoreFirst(first: Segment, mid: seq<Segment>, rest: seq<Segment>)
    ensures ([first] + mid) + rest == [first] + (mid + rest)
  {
  }

  lemma InTwoStep(first: Segment, mid: seq<Segment>, rest: seq<Segment>)
    requires Render(mid + rest) == Render(mid) + Render(rest)
    ensures Render(([first] + mid) + rest) == Render([first] + mid) + Render(rest)
  {
    RenderFirst(first, mid);
    RenderFirst(first, mid + rest);
    OneMoreFirst(first, mid, rest);
    Reassociated(Show(first), Render(mid), Render(rest));
  }

  lemma {:induction false} RenderInTwo(first: seq<Segment>, rest: seq<Segment>)
    ensures Render(first + rest) == Render(first) + Render(rest)
  {
    if first == [] {
      assert first + rest == rest;
    } else {
      RenderInTwo(first[1..], rest);
      InTwoStep(first[0], first[1..], rest);
      assert first == [first[0]] + first[1..];
    }
  }

  lemma FillInTwo(first: seq<Segment>, rest: seq<Segment>, values: map<string, string>)
    ensures Fill(first + rest, values) == Fill(first, values) + Fill(rest, values)
  {
  }

  lemma {:induction false} TrailedOk(template: seq<Segment>, a: string, n: nat)
    requires TemplateOk(template)
    ensures TemplateOk(Trailed(template, a, n))
  {
    if template != [] {
      TrailedOk(template[1..], a, n);
    }
  }

  lemma RenderOne(a: Segment)
    ensures Render([a]) == Show(a)
  {
    assert [a][1..] == [];
    assert Show(a) + "" == Show(a);
  }

  lemma RenderPair(a: Segment, b: Segment)
    ensures Render([a, b]) == Show(a) + Show(b)
  {
    RenderOne(b);
    assert [a, b][1..] == [b];
  }

  lemma TrailedSegment(segment: Segment, a: string, n: nat)
    ensures Render(Fill(Trailed1(segment, a, n), map[a := Placeholder(a) + "x"])) == Render(Trailed1(segment, a, n + 1))
    ensures |Render(Trailed1(segment, a, n))| == |Show(segment)| + if segment == Hole(a) then n else 0
  {
    if segment == Hole(a) {
      var xs := Repeat('x', n);
      RenderPair(Literal(Placeholder(a) + "x"), Literal(xs));
      RenderPair(Hole(a), Literal(Repeat('x', n + 1)));
      RenderPair(Hole(a), Literal(xs));
      assert Fill(Trailed1(segment, a, n), map[a := Placeholder(a) + "x"]) ==
        [Literal(Placeholder(a) + "x"), Literal(xs)];
      assert "x" + xs == Repeat('x', n + 1);
      assert (Placeholder(a) + "x") + xs == Placeholder(a) + ("x" + xs);
    } else {
      RenderOne(segment);
      assert Fill([segment], map[a := Placeholder(a) + "x"]) == [segment];
    }
  }

  /** Replacing the name by its own placeholder and an x adds one x to every trail. */
  lemma {:induction false} TrailGrows(template: seq<Segment>, a: string, n: nat)
    ensures Render(Fill(Trailed(template, a, n), map[a := Placeholder(a) + "x"])) == Render(Trailed(template, a, n + 1))
    ensures |Render(Trailed(template, a, n))| == |Render(template)| + Holes(template, a) * n
  {
    if template != [] {
      var values := map[a := Placeholder(a) + "x"];
      var first, rest := Trailed1(template[0], a, n), Trailed(template[1..], a, n);
      TrailGrows(template[1..], a, n);
      TrailedSegment(template[0], a, n);
      FillInTwo(first, rest, values);
      RenderInTwo(Fill(first, values), Fill(rest, values));
      RenderInTwo(Trailed1(template[0], a, n + 1), Trailed(template[1..], a, n + 1));
      RenderInTwo(first, rest);
      OneMore(Holes(template[1..], a), n);
    }
  }

  /** Filling another name does not touch the trails. */
  lemma {:induction false} TrailedFill(template: seq<Segment>, a: string, n: nat, b: string, value: string)
    requires a != b
    ensures Fill(Trailed(template, a, n), map[b := value]) == Trailed(Fill(template, map[b := value]), a, n)
  {
    if template != [] {
      var values := map[b := value];
      TrailedFill(template[1..], a, n, b, value);
      assert Fill(template, values)[1..] == Fill(template[1..], values);
      FillInTwo(Trailed1(template[0], a, n), Trailed(template[1..], a, n), values);
      assert Fill(Trailed1(template[0], a, n), values) == Trailed1(Fill1(template[0], values), a, n);
    }
  }

  /** How often a name is declared. */
  function Declarations(entries: seq<Json>, a: string): nat {
    if entries == [] then 0
    else
      var n := |entries| - 1;
      Declarations(entries[..n], a) + if NameOf(entries[n]) == Some(a) then 1 else 0
  }

  /** Arguments that make `a` grow: its own placeholder and an x, and nothing for the others. */
  function Growing(names: set<string>, a: string): Dict {
    map name | name in names :: Text(if name == a then Placeholder(a) + "x" else "")
  }

  /** The others' empty values. */
  function Blanks(names: set<string>, a: string): map<string, string> {
    map name | name in names && name != a :: ""
  }

  lemma BlanksMore(template: seq<Segment>, names: set<string>, a: string, b: string)
    requires a != b
    ensures Fill(Fill(template, Blanks(names, a)), map[b := ""]) == Fill(template, Blanks(names + {b}, a))
  {
  }

  lemma GrowingStep(template: seq<Segment>, names: set<string>, c: nat, a: string, b: string)
    requires TemplateOk(template) && Plain(a) && Plain(b)
    ensures Replace(Render(Trailed(Fill(template, Blanks(names, a)), a, c)), Placeholder(b),
                    if b == a then Placeholder(a) + "x" else "") ==
            Render(Trailed(Fill(template, Blanks(names + {b}, a)), a, if b == a then c + 1 else c))
  {
    var blank := Fill(template, Blanks(names, a));
    TrailedOk(blank, a, c);
    if b == a {
      ReplaceIsFill(Trailed(blank, a, c), a, Placeholder(a) + "x");
      TrailGrows(blank, a, c);
      assert Blanks(names + {b}, a) == Blanks(names, a);
    } else {
      ReplaceIsFill(Trailed(blank, a, c), b, "");
      TrailedFill(blank, a, c, b, "");
      BlanksMore(template, names, a, b);
    }
  }

  lemma GrowingEntry(
    template: seq<Segment>, seen: set<string>, c: nat, entry: Json, names: set<string>, show: Json -> string, a: string)
    requires TemplateOk(template) && Plain(a)
    requires NameOf(entry).Some? ==> NameOf(entry).value in names && Plain(NameOf(entry).value)
    requires forall s :: show(Text(s)) == s
    ensures Substituted1(Render(Trailed(Fill(template, Blanks(seen, a)), a, c)), entry, Growing(names, a), show) ==
            Render(Trailed(Fill(template, Blanks(seen + NamesIn([entry]), a)), a,
                           if NameOf(entry) == Some(a) then c + 1 else c))
  {
    if NameOf(entry).Some? {
      assert NamesIn([entry]) == {NameOf(entry).value} by { assert entry in [entry]; }
      GrowingStep(template, seen, c, a, NameOf(entry).value);
    } else {
      assert NamesIn([entry]) == {} && seen + {} == seen;
    }
  }

  /** A text that depends only on which names have been seen and how often one of them. */
  type Progress = (set<string>, nat) -> string

  ghost predicate Advances(progress: Progress, entry: Json, arguments: Dict, show: Json -> string, a: string) {
    forall seen: set<string>, c: nat {:trigger Substituted1(progress(seen, c), entry, arguments, show)} ::
      Substituted1(progress(seen, c), entry, arguments, show) ==
      progress(seen + NamesIn([entry]), if NameOf(entry) == Some(a) then c + 1 else c)
  }

  lemma Advanced(progress: Progress, entry: Json, arguments: Dict, show: Json -> string, a: string,
                 seen: set<string>, c: nat)
    requires Advances(progress, entry, arguments, show, a)
    ensures Substituted1(progress(seen, c), entry, arguments, show) ==
            progress(seen + NamesIn([entry]), if NameOf(entry) == Some(a) then c + 1 else c)
  {
  }

  lemma NamesInLast(entries: seq<Json>)
    requires entries != []
    ensures NamesIn(entries) == NamesIn(entries[..|entries| - 1]) + NamesIn([entries[|entries| - 1]])
  {
    var n := |entries| - 1;
    NamesInBoth(entries[..n], [entries[n]]);
    assert entries == entries[..n] + [entries[n]];
  }

  lemma {:induction false} Progressed(
    progress: Progress, entries: seq<Json>, arguments: Dict, show: Json -> string, a: string)
    requires forall e :: e in entries ==> Advances(progress, e, arguments, show, a)
    ensures Substituted(progress({}, 0), entries, arguments, show) ==
            progress(NamesIn(entries), Declarations(entries, a))
  {
    if entries == [] {
      assert NamesIn(entries) == {};
    } else {
      var n := |entries| - 1;
      Progressed(progress, entries[..n], arguments, show, a);
      Advanced(progress, entries[n], arguments, show, a, NamesIn(entries[..n]), Declarations(entries[..n], a));
      NamesInLast(entries);
    }
  }

  function GrownText(template: seq<Segment>, a: string): Progress {
    (seen: set<string>, c: nat) => Render(Trailed(Fill(template, Blanks(seen, a)), a, c))
  }

  lemma GrowingRun(
    template: seq<Segment>, entries: seq<Json>, names: set<string>, show: Json -> string, a: string)
    requires TemplateOk(template) && PlainNames(entries) && Plain(a) && NamesIn(entries) <= names
    requires forall s :: show(Text(s)) == s
    ensures Substituted(Render(template), entries, Growing(names, a), show) ==
            GrownText(template, a)(NamesIn(entries), Declarations(entries, a))
  {
    forall e | e in entries ensures Advances(GrownText(template, a), e, Growing(names, a), show, a) {
      assert NameOf(e).Some? ==> NameOf(e).value in NamesIn(entries);
      var i :| 0 <= i < |entries| && entries[i] == e;
      forall seen: set<string>, c: nat
        ensures Substituted1(GrownText(template, a)(seen, c), e, Growing(names, a), show) ==
                GrownText(template, a)(seen + NamesIn([e]), if NameOf(e) == Some(a) then c + 1 else c)
      {
        GrowingEntry(template, seen, c, e, names, show, a);
      }
    }
    Progressed(GrownText(template, a), entries, Growing(names, a), show, a);
    GrowingBase(template, a);
  }

  lemma GrowingBase(template: seq<Segment>, a: string)
    ensures GrownText(template, a)({}, 0) == Render(template)
  {
    assert Fill(template, Blanks({}, a)) == template;
    TrailedNone(template, a);
  }

  lemma {:induction false} TrailedNone(template: seq<Segment>, a: string)
    ensures Render(Trailed(template, a, 0)) == Render(template)
  {
    if template != [] {
      TrailedNone(template[1..], a);
      RenderInTwo(Trailed1(template[0], a, 0), Trailed(template[1..], a, 0));
      RenderOne(template[0]);
      RenderPair(template[0], Literal(Repeat('x', 0)));
      assert Show(template[0]) + "" == Show(template[0]);
    }
  }

  lemma {:induction false} BlanksKeepHoles(template: seq<Segment>, names: set<string>, a: string)
    ensures Holes(Fill(template, Blanks(names, a)), a) == Holes(template, a)
  {
    if template != [] {
      BlanksKeepHoles(template[1..], names, a);
      assert Fill(template, Blanks(names, a))[1..] == Fill(template[1..], Blanks(names, a));
    }
  }

  lemma {:induction false} HoleCounts(template: seq<Segment>, a: string)
    requires Hole(a) in template
    ensures Holes(template, a) >= 1
  {
    if template[0] != Hole(a) {
      HoleCounts(template[1..], a);
    }
  }

  lemma FillAfterBlanks(
    template: seq<Segment>, values: map<string, string>, names: set<string>, a: string, value: string)
    requires values.Keys == names && a in names
    requires forall name :: name in values ==> values[name] == if name == a then value else ""
    ensures Fill(template, values) == Fill(Fill(template, Blanks(names, a)), map[a := value])
  {
  }

  /** A name declared twice, with a hole: some arguments come out differently. */
  lemma TwiceDeclaredDiffers(template: seq<Segment>, entries: seq<Json>, show: Json -> string, a: string)
    requires TemplateOk(template) && PlainNames(entries) && Plain(a)
    requires forall s :: show(Text(s)) == s
    requires Hole(a) in template && a in NamesIn(entries) && Declarations(entries, a) >= 2
    ensures !Simultaneous(template, entries, Growing(NamesIn(entries), a), show)
  {
    var names, arguments := NamesIn(entries), Growing(NamesIn(entries), a);
    var blank, c, h := Fill(template, Blanks(names, a)), Declarations(entries, a), Holes(template, a);
    GrowingRun(template, entries, names, show, a);
    TrailGrows(blank, a, c);
    BlanksKeepHoles(template, names, a);
    HoleCounts(template, a);
    ValuesGiven(entries, arguments, show);
    ValuesAreDeclared(entries, arguments, show);
    FillAfterBlanks(template, Values(entries, arguments, show), names, a, Placeholder(a) + "x");
    FillLength(blank, a, Placeholder(a) + "x");
    MulLess(h, c);
  }

  lemma MulLess(h: nat, c: nat)
    requires h >= 1 && c >= 2
    ensures h * 1 < h * c
  {
  }

  lemma {:induction false} DeclaredTwice(entries: seq<Json>, i: nat, k: nat)
    requires i < k < |entries| && NameOf(entries[i]).Some? && NameOf(entries[i]) == NameOf(entries[k])
    ensures Declarations(entries, NameOf(entries[i]).value) >= 2
    decreases |entries|
  {
    var n := |entries| - 1;
    if k < n {
      DeclaredTwice(entries[..n], i, k);
    } else {
      DeclaredOnce(entries[..n], i);
    }
  }

  lemma {:induction false} DeclaredOnce(entries: seq<Json>, i: nat)
    requires i < |entries| && NameOf(entries[i]).Some?
    ensures Declarations(entries, NameOf(entries[i]).value) >= 1
    decreases |entries|
  {
    var n := |entries| - 1;
    if i < n {
      DeclaredOnce(entries[..n], i);
    }
  }

  /** An exposed name gives arguments on which the loop and the simultaneous filling differ. */
  lemma ExposedDiffers(template: seq<Segment>, entries: seq<Json>, show: Json -> string, i: nat, j: nat)
    returns (arguments: Dict)
    requires TemplateOk(template) && PlainNames(entries)
    requires forall s :: show(Text(s)) == s
    requires i < j < |entries| && NameOf(entries[i]).Some? && NameOf(entries[j]).Some?
    requires Hole(NameOf(entries[i]).value) in template
    ensures !Simultaneous(template, entries, arguments, show)
  {
    var a := NameOf(entries[i]).value;
    if k :| 0 <= k < |entries| && k != i && NameOf(entries[k]) == Some(a) {
      DeclaredTwice(entries, if k < i then k else i, if k < i then i else k);
      assert entries[i] in entries;
      arguments := Growing(NamesIn(entries), a);
      TwiceDeclaredDiffers(template, entries, show, a);
    } else {
      arguments := Exposing(entries, a, NameOf(entries[j]).value);
      OnceExposedDiffers(template, entries, show, i, j);
    }
  }

  /** Exactly which declarations are safe: if text is shown as it is, the loop fills all placeholders
      at once for every call if and only if no declared name with a hole in the path is followed by
      another declared name, the same one included. */
  lemma SafeIffUnexposed(template: seq<Segment>, entries: seq<Json>, show: Json -> string)
    requires TemplateOk(template) && PlainNames(entries)
    requires forall s :: show(Text(s)) == s
    ensures (forall arguments :: Simultaneous(template, entries, arguments, show)) <==> !Exposed(template, entries)
  {
    if i, j :| 0 <= i < j < |entries| && NameOf(entries[i]).Some? && NameOf(entries[j]).Some? &&
               Hole(NameOf(entries[i]).value) in template
    {
      var arguments := ExposedDiffers(template, entries, show, i, j);
    } else {
      forall arguments ensures Simultaneous(template, entries, arguments, show) {
        UnexposedIsSimultaneous(template, entries, arguments, show);
      }
    }
  }

  /** A value that itself looks like a placeholder is substituted again by a later parameter. */
  lemma ValueWithBraceIsReplacedAgain(show: Json -> string)
    requires show(Text("{b}")) == "{b}" && show(Text("x")) == "x"
    ensures var entries := [Object(map["name" := Text("a")]), Object(map["name" := Text("b")])];
      var arguments: Dict := map["a" := Text("{b}"), "b" := Text("x")];
      && Substituted(Render([Hole("a")]), entries, arguments, show) == "x"
      && Render(Fill([Hole("a")], Values(entries, arguments, show))) == "{b}"
  {
    var a, b := Object(map["name" := Text("a")]), Object(map["name" := Text("b")]);
    var entries := [a, b];
    var arguments: Dict := map["a" := Text("{b}"), "b" := Text("x")];
    assert NameOf(a) == Some("a") && NameOf(b) == Some("b");
    assert entries[..1] == [a] && [a][..0] == [];
    assert Render([Hole("a")]) == Placeholder("a") + "";
    ReplaceAtHole("a", "a", "", "{b}");
    assert Substituted(Render([Hole("a")]), [a], arguments, show) == "{b}" by {
      assert "{b}" + "" == "{b}";
    }
    assert "{b}" == Placeholder("b") + "";
    ReplaceAtHole("b", "b", "", "x");
    assert "x" + "" == "x";
    assert Values([a], arguments, show) == map["a" := "{b}"];
    assert Fill([Hole("a")], Values(entries, arguments, show)) == [Literal("{b}")];
    assert Render([Literal("{b}")]) == "{b}" + "";
  }
}
