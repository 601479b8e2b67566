/** Which arguments of a tool call make no difference to the request. */
module IgnoredArguments {
  import opened Wrappers
  import opened Tables
  import opened PathTemplates
  import opened HttpTool

  /** Leading slashes removed. */
  function Stripped(path: string): string {
    if path != "" && path[0] == '/' then Stripped(path[1..]) else path
  }

  /** What follows the base URL. */
  function UrlPath(path: string): string {
    if path == "" then "" else "/" + Stripped(path)
  }

  /** After the base URL comes one slash, and then the path without the slashes it begins with. */
  lemma {:induction false} UrlPathMeans(path: string)
    ensures path == "" ==> UrlPath(path) == ""
    ensures path != "" ==> UrlPath(path)[..1] == "/" && (|UrlPath(path)| > 1 ==> UrlPath(path)[1] != '/')
    ensures path != "" ==>
      exists k: nat :: k <= |path| && path[k..] == UrlPath(path)[1..] && forall i :: 0 <= i < k ==> path[i] == '/'
  {
    if path != "" {
      StrippedMeans(path);
    }
  }

  lemma {:induction false} StrippedMeans(path: string)
    ensures Stripped(path) == "" || Stripped(path)[0] != '/'
    ensures exists k: nat :: k <= |path| && path[k..] == Stripped(path) && forall i :: 0 <= i < k ==> path[i] == '/'
  {
    if path != "" && path[0] == '/' {
      StrippedMeans(path[1..]);
      var k: nat :| k <= |path[1..]| && path[1..][k..] == Stripped(path[1..]) &&
                    forall i :: 0 <= i < k ==> path[1..][i] == '/';
      assert path[k + 1..] == path[1..][k..];
      forall i | 0 <= i < k + 1 ensures path[i] == '/' {
        assert i > 0 ==> path[i] == path[1..][i - 1];
      }
    } else {
      assert path[0..] == path;
    }
  }

  /** All a call sends: where to, and with what. */
  datatype Call = Call(path: string, request: Request)

  function CallFor(httpMethod: string, path: string, lists: ParamLists, arguments: Dict, staticBody: Option<Dict>,
                   show: Json -> string): Call {
    Call(UrlPath(Substituted(path, lists.path, arguments, show)), RequestFor(httpMethod, lists, arguments, staticBody))
  }

  function With(arguments: Dict, name: string, value: Json): Dict {
    arguments[name := value]
  }

  /** Whatever value the argument has, the same is sent. */
  ghost predicate Ignored(httpMethod: string, path: string, lists: ParamLists, arguments: Dict,
                          staticBody: Option<Dict>, show: Json -> string, name: string) {
    forall v, w ::
      CallFor(httpMethod, path, lists, With(arguments, name, v), staticBody, show) ==
      CallFor(httpMethod, path, lists, With(arguments, name, w), staticBody, show)
  }

  /** The placeholder of the name is in the text when the turn of an entry that declares it comes. */
  predicate Reached(path: string, entries: seq<Json>, arguments: Dict, show: Json -> string, name: string) {
    entries != [] &&
    var n := |entries| - 1;
    Reached(path, entries[..n], arguments, show, name) ||
    (NameOf(entries[n]) == Some(name) &&
     Occurrences(Substituted(path, entries[..n], arguments, show), Placeholder(name)) > 0)
  }

  /** The same arguments, but for one name. */
  ghost predicate Alike(a: Dict, b: Dict, name: string) {
    forall k :: k != name ==> (k in a <==> k in b) && (k in a ==> a[k] == b[k])
  }

  lemma {:induction false} ReplaceAbsent(s: string, pattern: string, value: string)
    requires pattern != "" && Occurrences(s, pattern) == 0
    ensures Replace(s, pattern, value) == s
    decreases |s|
  {
    if s != "" {
      ReplaceAbsent(s[1..], pattern, value);
    }
  }

  /** Whether a name is reached does not depend on its own value, and one that is not changes nothing. */
  lemma {:induction false} UnreachedSame(
    path: string, entries: seq<Json>, a: Dict, b: Dict, show: Json -> string, name: string)
    requires Alike(a, b, name)
    ensures Reached(path, entries, a, show, name) <==> Reached(path, entries, b, show, name)
    ensures !Reached(path, entries, a, show, name) ==>
      Substituted(path, entries, a, show) == Substituted(path, entries, b, show)
  {
    if entries != [] {
      var n := |entries| - 1;
      UnreachedSame(path, entries[..n], a, b, show, name);
      if !Reached(path, entries, a, show, name) && NameOf(entries[n]) == Some(name) {
        var text := Substituted(path, entries[..n], a, show);
        ReplaceAbsent(text, Placeholder(name), show(ValueOf(name, entries[n], a)));
        ReplaceAbsent(text, Placeholder(name), show(ValueOf(name, entries[n], b)));
      }
    }
  }

  // A reached name: with a long run of the letter x as its value, the runs stay in the text.

  function Run(n: nat): string {
    Repeat('x', n)
  }

  /** The pieces with a run between any two of them. */
  function Woven(pieces: seq<string>, n: nat): string
    requires pieces != []
  {
    if |pieces| == 1 then pieces[0] else pieces[0] + (Run(n) + Woven(pieces[1..], n))
  }

  lemma PrefixBeforeRun(a: string, n: nat, rest: string, name: string)
    requires a != "" && n >= |Placeholder(name)|
    ensures StartsWith(a + (Run(n) + rest), Placeholder(name)) <==> StartsWith(a, Placeholder(name))
  {
    var s, p := a + (Run(n) + rest), Placeholder(name);
    if |p| <= |a| {
      assert s[..|p|] == a[..|p|];
    } else {
      assert s[..|p|][|p| - 1] == 'x' && p[|p| - 1] == '}';
    }
  }

  lemma TailOf(a: string, k: nat, rest: string)
    requires k <= |a|
    ensures (a + rest)[k..] == a[k..] + rest
  {
  }

  /** No placeholder reaches into a run, so the two sides of it are replaced separately. */
  lemma {:induction false} ReplaceAround(a: string, n: nat, rest: string, name: string, value: string)
    requires n >= |Placeholder(name)|
    ensures Replace(a + (Run(n) + rest), Placeholder(name), value) ==
            Replace(a, Placeholder(name), value) + (Run(n) + Replace(rest, Placeholder(name), value))
    decreases |a|
  {
    var p, tail := Placeholder(name), Run(n) + rest;
    var tail' := Run(n) + Replace(rest, p, value);
    if a == "" {
      NothingFirst(tail);
      NothingFirst(tail');
      ReplaceSkips(Run(n), rest, name, value);
    } else {
      PrefixBeforeRun(a, n, rest, name);
      if StartsWith(a, p) {
        TailOf(a, |p|, tail);
        ReplaceAround(a[|p|..], n, rest, name, value);
        Reassociated(value, Replace(a[|p|..], p, value), tail');
      } else {
        TailOf(a, 1, tail);
        ReplaceAround(a[1..], n, rest, name, value);
        Reassociated([a[0]], Replace(a[1..], p, value), tail');
      }
    }
  }

  function ReplaceEach(pieces: seq<string>, pattern: string, value: string): (r: seq<string>)
    requires pattern != ""
    ensures |r| == |pieces|
  {
    if pieces == [] then [] else [Replace(pieces[0], pattern, value)] + ReplaceEach(pieces[1..], pattern, value)
  }

  lemma {:induction false} ReplaceWoven(pieces: seq<string>, n: nat, name: string, value: string)
    requires pieces != [] && n >= |Placeholder(name)|
    ensures Replace(Woven(pieces, n), Placeholder(name), value) ==
      Woven(ReplaceEach(pieces, Placeholder(name), value), n)
  {
    if |pieces| > 1 {
      ReplaceWoven(pieces[1..], n, name, value);
      ReplaceAround(pieces[0], n, Woven(pieces[1..], n), name, value);
      assert ReplaceEach(pieces, Placeholder(name), value)[1..] == ReplaceEach(pieces[1..], Placeholder(name), value);
    }
  }

  /** The text between the occurrences of a pattern. */
  function Split(s: string, pattern: string): (r: seq<string>)
    requires pattern != ""
    ensures r != []
    decreases |s|
  {
    if s == "" then [""]
    else if StartsWith(s, pattern) then [""] + Split(s[|pattern|..], pattern)
    else
      var rest := Split(s[1..], pattern);
      [[s[0]] + rest[0]] + rest[1..]
  }

  lemma WovenLonger(c: char, pieces: seq<string>, n: nat)
    requires pieces != []
    ensures Woven([[c] + pieces[0]] + pieces[1..], n) == [c] + Woven(pieces, n)
  {
    var longer := [[c] + pieces[0]] + pieces[1..];
    assert longer[1..] == pieces[1..];
    if |pieces| > 1 {
      Reassociated([c], pieces[0], Run(n) + Woven(pieces[1..], n));
    }
  }

  /** Replacing by a run weaves the pieces together with runs. */
  lemma {:induction false} ReplaceByRun(s: string, pattern: string, n: nat)
    requires pattern != ""
    ensures Replace(s, pattern, Run(n)) == Woven(Split(s, pattern), n)
    decreases |s|
  {
    if s != "" {
      if StartsWith(s, pattern) {
        var rest := Split(s[|pattern|..], pattern);
        ReplaceByRun(s[|pattern|..], pattern, n);
        assert ([""] + rest)[1..] == rest;
        NothingFirst(Run(n) + Woven(rest, n));
      } else {
        ReplaceByRun(s[1..], pattern, n);
        WovenLonger(s[0], Split(s[1..], pattern), n);
      }
    }
  }

  lemma {:induction false} SplitsIfPresent(s: string, pattern: string)
    requires pattern != "" && Occurrences(s, pattern) > 0
    ensures |Split(s, pattern)| >= 2
    decreases |s|
  {
    if s != "" && !StartsWith(s, pattern) {
      SplitsIfPresent(s[1..], pattern);
    }
  }

  function SplitEach(pieces: seq<string>, pattern: string): (r: seq<string>)
    requires pattern != ""
    ensures |r| >= |pieces|
  {
    if pieces == [] then [] else Split(pieces[0], pattern) + SplitEach(pieces[1..], pattern)
  }

  lemma {:induction false} WovenInTwo(first: seq<string>, rest: seq<string>, n: nat)
    requires first != [] && rest != []
    ensures Woven(first + rest, n) == Woven(first, n) + (Run(n) + Woven(rest, n))
  {
    if |first| == 1 {
      assert (first + rest)[1..] == rest;
    } else {
      assert (first + rest)[1..] == first[1..] + rest;
      WovenInTwo(first[1..], rest, n);
      var tail := Run(n) + Woven(rest, n);
      Reassociated(Run(n), Woven(first[1..], n), tail);
      Reassociated(first[0], Run(n) + Woven(first[1..], n), tail);
    }
  }

  lemma {:induction false} ReplaceEachByRun(pieces: seq<string>, pattern: string, n: nat)
    requires pieces != [] && pattern != ""
    ensures Woven(ReplaceEach(pieces, pattern, Run(n)), n) == Woven(SplitEach(pieces, pattern), n)
  {
    var first := Split(pieces[0], pattern);
    ReplaceByRun(pieces[0], pattern, n);
    if |pieces| == 1 {
      assert SplitEach(pieces[1..], pattern) == [] && first + [] == first;
    } else {
      ReplaceEachByRun(pieces[1..], pattern, n);
      WovenInTwo(first, SplitEach(pieces[1..], pattern), n);
      assert ReplaceEach(pieces, pattern, Run(n))[1..] == ReplaceEach(pieces[1..], pattern, Run(n));
    }
  }

  /** For every long run as the value, the loop's result is the same pieces with runs between them. */
  ghost predicate Weaves(path: string, entries: seq<Json>, arguments: Dict, show: Json -> string, name: string,
                         bound: nat, pieces: seq<string>) {
    pieces != [] &&
    forall n :: n >= bound ==> Substituted(path, entries, With(arguments, name, Text(Run(n))), show) == Woven(pieces, n)
  }

  lemma WeavesMore(path: string, entries: seq<Json>, entry: Json, arguments: Dict, show: Json -> string, name: string,
                   bound: nat, pieces: seq<string>) returns (more: seq<string>)
    requires forall s :: show(Text(s)) == s
    requires NameOf(entry).Some? ==> |Placeholder(NameOf(entry).value)| <= bound
    requires Weaves(path, entries, arguments, show, name, bound, pieces)
    ensures Weaves(path, entries + [entry], arguments, show, name, bound, more) && |more| >= |pieces|
    ensures NameOf(entry) == Some(name) ==> more == SplitEach(pieces, Placeholder(name))
  {
    assert (entries + [entry])[..|entries|] == entries;
    match NameOf(entry)
    case None => more := pieces;
    case Some(m) =>
      var p := Placeholder(m);
      if m == name {
        more := SplitEach(pieces, p);
        forall n | n >= bound
          ensures Substituted(path, entries + [entry], With(arguments, name, Text(Run(n))), show) == Woven(more, n)
        {
          ReplaceWoven(pieces, n, m, Run(n));
          ReplaceEachByRun(pieces, p, n);
        }
      } else {
        var value := show(ValueOf(m, entry, arguments));
        more := ReplaceEach(pieces, p, value);
        forall n | n >= bound
          ensures Substituted(path, entries + [entry], With(arguments, name, Text(Run(n))), show) == Woven(more, n)
        {
          ReplaceWoven(pieces, n, m, value);
        }
      }
  }

  ghost predicate ShorterThan(entries: seq<Json>, bound: nat) {
    forall e :: e in entries && NameOf(e).Some? ==> |Placeholder(NameOf(e).value)| <= bound
  }

  lemma {:induction false} RunsStay(path: string, entries: seq<Json>, arguments: Dict, show: Json -> string,
                                    name: string, bound: nat) returns (pieces: seq<string>)
    requires forall s :: show(Text(s)) == s
    requires ShorterThan(entries, bound)
    ensures Weaves(path, entries, arguments, show, name, bound, pieces)
    ensures Reached(path, entries, With(arguments, name, Text(Run(bound))), show, name) ==> |pieces| >= 2
  {
    if entries == [] {
      pieces := [path];
    } else {
      var n := |entries| - 1;
      var before := RunsStay(path, entries[..n], arguments, show, name, bound);
      pieces := WeavesMore(path, entries[..n], entries[n], arguments, show, name, bound, before);
      assert entries == entries[..n] + [entries[n]];
      var text := Substituted(path, entries[..n], With(arguments, name, Text(Run(bound))), show);
      if |before| == 1 && NameOf(entries[n]) == Some(name) && Occurrences(text, Placeholder(name)) > 0 {
        assert before[0] == text;
        SplitsIfPresent(text, Placeholder(name));
      }
    }
  }

  function Xs(s: string): nat {
    multiset(s)['x']
  }

  lemma XsInTwo(a: string, b: string)
    ensures Xs(a + b) == Xs(a) + Xs(b)
  {
    assert multiset(a + b) == multiset(a) + multiset(b);
  }

  lemma LongerRun(n: nat)
    ensures Xs(Run(n + 1)) == Xs(Run(n)) + 1
  {
    assert Run(n + 1) == "x" + Run(n);
    XsInTwo("x", Run(n));
  }

  lemma {:induction false} WovenXs(pieces: seq<string>, n: nat)
    requires pieces != []
    ensures Xs(Woven(pieces, n + 1)) == Xs(Woven(pieces, n)) + |pieces| - 1
  {
    if |pieces| > 1 {
      var rest, rest' := Woven(pieces[1..], n), Woven(pieces[1..], n + 1);
      WovenXs(pieces[1..], n);
      LongerRun(n);
      XsInTwo(Run(n), rest);
      XsInTwo(Run(n + 1), rest');
      XsInTwo(pieces[0], Run(n) + rest);
      XsInTwo(pieces[0], Run(n + 1) + rest');
    }
  }

  lemma {:induction false} StrippedXs(path: string)
    ensures Xs(Stripped(path)) == Xs(path)
  {
    if path != "" && path[0] == '/' {
      StrippedXs(path[1..]);
      assert path == "/" + path[1..];
      XsInTwo("/", path[1..]);
    }
  }

  lemma UrlPathXs(path: string)
    ensures Xs(UrlPath(path)) == Xs(path)
  {
    if path != "" {
      StrippedXs(path);
      XsInTwo("/", Stripped(path));
    }
  }

  lemma {:induction false} SomeBound(entries: seq<Json>) returns (bound: nat)
    ensures ShorterThan(entries, bound)
  {
    if entries == [] {
      bound := 0;
    } else {
      var n := |entries| - 1;
      bound := SomeBound(entries[..n]);
      assert entries == entries[..n] + [entries[n]];
      if NameOf(entries[n]).Some? {
        bound := bound + |Placeholder(NameOf(entries[n]).value)|;
      }
    }
  }

  /** A reached name has two values that lead to different addresses. */
  lemma ReachedDiffers(path: string, entries: seq<Json>, arguments: Dict, show: Json -> string, name: string)
    returns (v: Json, w: Json)
    requires forall s :: show(Text(s)) == s
    requires Reached(path, entries, arguments, show, name)
    ensures UrlPath(Substituted(path, entries, With(arguments, name, v), show)) !=
            UrlPath(Substituted(path, entries, With(arguments, name, w), show))
  {
    var bound := SomeBound(entries);
    var pieces := RunsStay(path, entries, arguments, show, name, bound);
    UnreachedSame(path, entries, arguments, With(arguments, name, Text(Run(bound))), show, name);
    v, w := Text(Run(bound)), Text(Run(bound + 1));
    WovenXs(pieces, bound);
    UrlPathXs(Woven(pieces, bound));
    UrlPathXs(Woven(pieces, bound + 1));
  }

  // The whole call.

  lemma {:induction false} CollectedSame(entries: seq<Json>, a: Dict, b: Dict, name: string)
    requires Alike(a, b, name) && name !in NamesIn(entries)
    ensures Collected(entries, a) == Collected(entries, b)
  {
    if entries != [] {
      var n := |entries| - 1;
      assert entries == entries[..n] + [entries[n]];
      NamesInBoth(entries[..n], [entries[n]]);
      CollectedSame(entries[..n], a, b, name);
      assert NameOf(entries[n]) != Some(name) by { assert entries[n] in entries; }
    }
  }

  lemma KeptOutSame(httpMethod: string, lists: ParamLists, a: Dict, b: Dict, staticBody: Option<Dict>, name: string)
    requires Alike(a, b, name) && KeptOut(httpMethod, lists, name)
    ensures RequestFor(httpMethod, lists, a, staticBody) == RequestFor(httpMethod, lists, b, staticBody)
  {
    CollectedSame(lists.query, a, b, name);
    if !SendsNoBody(httpMethod) {
      CollectedSame(lists.body, a, b, name);
    }
    assert Leftover(lists, a) == Leftover(lists, b);
  }

  lemma SentDiffers(httpMethod: string, lists: ParamLists, arguments: Dict, staticBody: Option<Dict>, name: string,
                    v: Json, w: Json)
    requires !KeptOut(httpMethod, lists, name) && v != w
    ensures RequestFor(httpMethod, lists, With(arguments, name, v), staticBody) !=
            RequestFor(httpMethod, lists, With(arguments, name, w), staticBody)
  {
    ArgumentConservation(httpMethod, lists, With(arguments, name, v), staticBody, name);
    ArgumentConservation(httpMethod, lists, With(arguments, name, w), staticBody, name);
  }

  /** Exactly which arguments are lost: the value of an argument makes no difference to the address,
      the query or the body if and only if the name is declared, but for nothing that is sent, and its
      placeholder is not in the path when its turn there comes. */
  lemma IgnoredIff(httpMethod: string, path: string, lists: ParamLists, arguments: Dict, staticBody: Option<Dict>,
                   show: Json -> string, name: string)
    requires forall s :: show(Text(s)) == s
    ensures Ignored(httpMethod, path, lists, arguments, staticBody, show, name) <==>
            KeptOut(httpMethod, lists, name) && !Reached(path, lists.path, arguments, show, name)
  {
    if !KeptOut(httpMethod, lists, name) {
      SentDiffers(httpMethod, lists, arguments, staticBody, name, Null, Bool(true));
      assert CallFor(httpMethod, path, lists, With(arguments, name, Null), staticBody, show) !=
             CallFor(httpMethod, path, lists, With(arguments, name, Bool(true)), staticBody, show);
    } else if Reached(path, lists.path, arguments, show, name) {
      var v, w := ReachedDiffers(path, lists.path, arguments, show, name);
      assert CallFor(httpMethod, path, lists, With(arguments, name, v), staticBody, show) !=
             CallFor(httpMethod, path, lists, With(arguments, name, w), staticBody, show);
    } else {
      forall v, w
        ensures CallFor(httpMethod, path, lists, With(arguments, name, v), staticBody, show) ==
                CallFor(httpMethod, path, lists, With(arguments, name, w), staticBody, show)
      {
        KeptOutSame(httpMethod, lists, With(arguments, name, v), With(arguments, name, w), staticBody, name);
        UnreachedSame(path, lists.path, arguments, With(arguments, name, v), show, name);
        UnreachedSame(path, lists.path, With(arguments, name, v), With(arguments, name, w), show, name);
      }
    }
  }

  // For a path of plain text and holes.

  lemma {:induction false} OccursIffHole(template: seq<Segment>, name: string)
    requires TemplateOk(template) && Plain(name)
    ensures Occurrences(Render(template), Placeholder(name)) > 0 <==> Hole(name) in template
  {
    if template != [] {
      OccursIffHole(template[1..], name);
      assert template == [template[0]] + template[1..];
      match template[0]
      case Literal(text) => OccurrencesSkip(text, Render(template[1..]), name);
      case Hole(m) => OccurrencesAtHole(m, name, Render(template[1..]));
    }
  }

  lemma {:induction false} ReachedIsDeclared(
    path: string, entries: seq<Json>, arguments: Dict, show: Json -> string, name: string)
    requires Reached(path, entries, arguments, show, name)
    ensures name in NamesIn(entries)
  {
    var n := |entries| - 1;
    assert entries == entries[..n] + [entries[n]];
    NamesInBoth(entries[..n], [entries[n]]);
    if Reached(path, entries[..n], arguments, show, name) {
      ReachedIsDeclared(path, entries[..n], arguments, show, name);
    }
  }

  lemma FilledHole(template: seq<Segment>, values: map<string, string>, name: string)
    ensures Hole(name) in Fill(template, values) <==> Hole(name) in template && name !in values
  {
    if Hole(name) in template && name !in values {
      var i :| 0 <= i < |template| && template[i] == Hole(name);
      assert Fill(template, values)[i] == Hole(name);
    }
  }

  /** While no entry has declared the name, its placeholder is in the text exactly if there is a hole. */
  lemma HoleIsThere(template: seq<Segment>, entries: seq<Json>, arguments: Dict, show: Json -> string, name: string)
    requires TemplateOk(template) && EntriesOk(entries, arguments, show) && Plain(name)
    ensures Occurrences(Substituted(Render(template), entries, arguments, show), Placeholder(name)) > 0 <==>
            Hole(name) in template && name !in NamesIn(entries)
  {
    var values := Values(entries, arguments, show);
    SequentialIsSimultaneous(template, entries, arguments, show);
    ValuesOk(entries, arguments, show);
    ValuesAreDeclared(entries, arguments, show);
    OccursIffHole(Fill(template, values), name);
    FilledHole(template, values, name);
  }

  /** Then a declared name is reached exactly if the path has a hole for it. */
  lemma {:induction false} ReachedIffHole(
    template: seq<Segment>, entries: seq<Json>, arguments: Dict, show: Json -> string, name: string)
    requires TemplateOk(template) && EntriesOk(entries, arguments, show)
    ensures Reached(Render(template), entries, arguments, show, name) <==>
            name in NamesIn(entries) && Hole(name) in template
  {
    if entries != [] {
      var n := |entries| - 1;
      ReachedIffHole(template, entries[..n], arguments, show, name);
      assert entries == entries[..n] + [entries[n]];
      NamesInBoth(entries[..n], [entries[n]]);
      if NameOf(entries[n]) == Some(name) {
        assert name in NamesIn(entries) by { assert entries[n] in entries; }
        HoleIsThere(template, entries[..n], arguments, show, name);
      }
    }
  }
}
