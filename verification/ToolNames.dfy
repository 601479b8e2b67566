/** The names of an agent's tools, and when two of them are the same. */
module ToolNames {
  import CloneSpec
  import opened Runtime
  import opened Handoff
  import opened RoomNames

  predicate Alnum(c: char) {
    'a' <= c <= 'z' || 'A' <= c <= 'Z' || '0' <= c <= '9'
  }

  /** The text from its first letter or digit on. */
  function Skipped(s: string): (r: string)
    ensures |r| <= |s| && (r == "" || Alnum(r[0])) && (s != "" && !Alnum(s[0]) ==> |r| < |s|)
    ensures s == "" || Alnum(s[0]) ==> r == s
  {
    if s == "" || Alnum(s[0]) then s else Skipped(s[1..])
  }

  /** Every run of other characters replaced by one underscore. */
  function Underscored(s: string): string
    decreases |s|
  {
    if s == "" then ""
    else if Alnum(s[0]) then [s[0]] + Underscored(s[1..])
    else "_" + Underscored(Skipped(s))
  }

  function StripLeft(s: string): string {
    if s != "" && s[0] == '_' then StripLeft(s[1..]) else s
  }

  function StripRight(s: string): string {
    if s != "" && s[|s| - 1] == '_' then StripRight(s[..|s| - 1]) else s
  }

  /** The part of a transfer tool's name that comes from the name of an agent. */
  function Slugify(name: string): string {
    var slug := CloneSpec.Lower(StripRight(StripLeft(Underscored(name))));
    if slug == "" then "agent" else slug
  }

  // What a slug keeps of a name: its words.

  /** How many letters and digits the text starts with. */
  function RunLength(s: string): (n: nat)
    ensures n <= |s| && (forall i :: 0 <= i < n ==> Alnum(s[i])) && (n < |s| ==> !Alnum(s[n]))
    ensures s != "" && Alnum(s[0]) ==> n > 0
  {
    if s == "" || !Alnum(s[0]) then 0 else 1 + RunLength(s[1..])
  }

  /** The maximal runs of letters and digits. */
  function Words(s: string): (words: seq<string>)
    ensures forall i :: 0 <= i < |words| ==> words[i] != "" && forall c :: c in words[i] ==> Alnum(c)
    decreases |s|
  {
    var t := Skipped(s);
    if t == "" then [] else [t[..RunLength(t)]] + Words(t[RunLength(t)..])
  }

  lemma {:induction false} UnderscoredRun(run: string, rest: string)
    requires forall c :: c in run ==> Alnum(c)
    ensures Underscored(run + rest) == run + Underscored(rest)
    decreases |run|
  {
    if run == "" {
      assert run + rest == rest;
    } else {
      assert run[0] in run && (run + rest)[1..] == run[1..] + rest;
      UnderscoredRun(run[1..], rest);
    }
  }

  /** Stripping on the right goes no further than the first character it keeps. */
  lemma {:induction false} StripRightOf(a: string, b: string)
    ensures StripRight(a + b) == if StripRight(b) == "" then StripRight(a) else a + StripRight(b)
    decreases |b|
  {
    if b == "" {
      assert a + b == a;
    } else if b[|b| - 1] == '_' {
      assert (a + b)[..|a + b| - 1] == a + b[..|b| - 1];
      StripRightOf(a, b[..|b| - 1]);
    }
  }

  lemma StripRightRun(run: string)
    requires run == "" || Alnum(run[|run| - 1])
    ensures StripRight(run) == run
  {
  }

  /** A word, a gap, and what follows the gap. */
  lemma StripAfterWord(run: string, tail: string)
    requires run != "" && Alnum(run[|run| - 1])
    ensures StripRight(run + ("_" + tail)) ==
            if StripRight(tail) == "" then run else run + ("_" + StripRight(tail))
  {
    StripRightRun(run);
    StripRightOf(run, "_");
    StripRightOf(run + "_", tail);
    assert run + ("_" + tail) == (run + "_") + tail;
    assert (run + "_") + StripRight(tail) == run + ("_" + StripRight(tail));
  }

  lemma WordsOf(run: string, rest: string)
    requires run != "" && (forall c :: c in run ==> Alnum(c)) && (rest == "" || !Alnum(rest[0]))
    ensures Words(run + rest) == [run] + Words(Skipped(rest))
  {
    var s := run + rest;
    forall i | 0 <= i < |run| ensures Alnum(s[i]) {
      assert s[i] == run[i] && run[i] in run;
    }
    assert rest != "" ==> s[|run|] == rest[0];
    var n := RunLength(s);
    assert n == |run|;
    assert s[..n] == run && s[n..] == rest;
    assert Words(rest) == Words(Skipped(rest));
  }

  /** Text that starts with a word is its words, joined by underscores. */
  lemma {:induction false} UnderscoredIsWords(s: string)
    requires s == "" || Alnum(s[0])
    ensures StripRight(Underscored(s)) == Join(Words(s), '_')
    decreases |s|
  {
    if s != "" {
      var n := RunLength(s);
      var run, rest := s[..n], s[n..];
      var next := Skipped(rest);
      assert s == run + rest;
      UnderscoredRun(run, rest);
      WordsOf(run, rest);
      WordsJoined(run, Words(next));
      if rest == "" {
        StripRightRun(run);
        assert Underscored(s) == run;
      } else {
        UnderscoredIsWords(next);
        StripAfterWord(run, Underscored(next));
      }
    }
  }

  lemma WordsJoined(word: string, words: seq<string>)
    requires forall i :: 0 <= i < |words| ==> words[i] != ""
    ensures Join([word] + words, '_') == if words == [] then word else word + ("_" + Join(words, '_'))
    ensures Join(words, '_') == "" <==> words == []
  {
    assert ([word] + words)[1..] == words;
  }

  lemma StripLeftUnderscored(s: string)
    ensures StripLeft(Underscored(s)) == Underscored(Skipped(s))
  {
    var t := Skipped(s);
    assert t != "" ==> Underscored(t) == [t[0]] + Underscored(t[1..]);
    if s != "" && !Alnum(s[0]) {
      assert ("_" + Underscored(t))[1..] == Underscored(t);
    }
  }

  lemma LowerOfJoin(words: seq<string>)
    ensures CloneSpec.Lower(Join(words, '_')) == Join(Lowered(words), '_')
  {
    if |words| > 1 {
      LowerOfJoin(words[1..]);
      assert Lowered(words)[1..] == Lowered(words[1..]);
    }
  }

  function Lowered(words: seq<string>): (r: seq<string>)
    ensures |r| == |words| && forall i :: 0 <= i < |words| ==> r[i] == CloneSpec.Lower(words[i])
  {
    seq(|words|, i requires 0 <= i < |words| => CloneSpec.Lower(words[i]))
  }

  /** The words of a name in lower case; a name without any counts as "agent". */
  function SlugWords(name: string): (words: seq<string>)
    ensures words != []
  {
    if Words(name) == [] then ["agent"] else Lowered(Words(name))
  }

  lemma SlugIsWords(name: string)
    ensures Slugify(name) == Join(SlugWords(name), '_')
  {
    var t := Skipped(name);
    StripLeftUnderscored(name);
    assert Words(name) == Words(t);
    UnderscoredIsWords(t);
    LowerOfJoin(Words(t));
    WordsJoined("", Words(t));
    WordsJoined("", Lowered(Words(t)));
    assert Join(["agent"], '_') == "agent";
  }

  // By its letters and digits.

  function Letter1(c: char): string {
    if '0' <= c <= '9' || 'A' <= c <= 'Z' || 'a' <= c <= 'z' then [c] else ""
  }

  /** The ASCII letters and digits of a text, in order. */
  function Letters(s: string): string {
    if s == "" then "" else Letter1(s[0]) + Letters(s[1..])
  }

  lemma Regrouped(a: string, b: string, c: string)
    ensures a + (b + c) == (a + b) + c && "" + c == c
  {
  }

  lemma RestOf(a: string, b: string)
    requires a != ""
    ensures (a + b)[0] == a[0] && (a + b)[1..] == a[1..] + b && a + b != ""
  {
  }

  lemma {:induction false} LettersInTwo(a: string, b: string)
    ensures Letters(a + b) == Letters(a) + Letters(b)
  {
    if a == "" {
      Regrouped("", "", b);
      Regrouped("", "", Letters(b));
    } else {
      RestOf(a, b);
      LettersInTwo(a[1..], b);
      Regrouped(Letter1(a[0]), Letters(a[1..]), Letters(b));
    }
  }

  lemma {:induction false} LettersOfWord(word: string)
    requires forall c :: c in word ==> Alnum(c)
    ensures Letters(word) == word
  {
    if word != "" {
      assert word[0] in word && word == [word[0]] + word[1..];
      LettersOfWord(word[1..]);
    }
  }

  lemma {:induction false} LettersSkipped(s: string)
    ensures Letters(Skipped(s)) == Letters(s)
  {
    if s != "" && !Alnum(s[0]) {
      LettersSkipped(s[1..]);
    }
  }

  lemma {:induction false} LettersOfWords(s: string)
    ensures Letters(Join(Words(s), '_')) == Letters(s)
    decreases |s|
  {
    var t := Skipped(s);
    LettersSkipped(s);
    if t != "" {
      var first, rest := t[..RunLength(t)], t[RunLength(t)..];
      assert t == first + rest;
      LettersInTwo(first, rest);
      LettersOfWord(first);
      LettersOfWords(rest);
      LettersOfJoin(first, Words(rest));
      assert Words(s) == [first] + Words(rest);
    }
  }

  lemma LettersOfJoin(first: string, words: seq<string>)
    ensures Letters(Join([first] + words, '_')) == Letters(first) + Letters(Join(words, '_'))
  {
    if words == [] {
      assert Letters(first) + "" == Letters(first);
    } else {
      assert ([first] + words)[1..] == words;
      LettersInTwo(first + "_", Join(words, '_'));
      LettersInTwo(first, "_");
      assert Letters("_") == "" && Letters(first) + "" == Letters(first);
    }
  }

  lemma {:induction false} LettersOfLower(s: string)
    ensures Letters(CloneSpec.Lower(s)) == CloneSpec.Lower(Letters(s))
  {
    if s != "" {
      LettersOfLower(s[1..]);
      assert CloneSpec.Lower(s)[1..] == CloneSpec.Lower(s[1..]);
    }
  }

  lemma WordsHaveLetters(name: string)
    requires Words(name) != []
    ensures Letters(name) != ""
  {
    var t := Skipped(name);
    var first, rest := t[..RunLength(t)], t[RunLength(t)..];
    assert t == first + rest;
    LettersSkipped(name);
    LettersInTwo(first, rest);
    LettersOfWord(first);
  }

  /** A slug keeps the letters and digits of a name, in order and lower-cased; a name without any becomes
      `agent`. */
  lemma SlugLetters(name: string)
    ensures Letters(name) != "" ==> Letters(Slugify(name)) == CloneSpec.Lower(Letters(name))
    ensures Letters(name) == "" ==> Slugify(name) == "agent"
  {
    SlugIsWords(name);
    LettersOfWords(name);
    if Words(name) != [] {
      LowerOfJoin(Words(name));
      LettersOfLower(Join(Words(name), '_'));
      WordsHaveLetters(name);
    }
  }

  lemma {:induction false} SplitPlain(s: string, dash: char)
    requires dash !in s
    ensures Split(s, dash) == [s]
  {
    if s != "" {
      SplitPlain(s[1..], dash);
      assert [s[0]] + s[1..] == s;
    }
  }

  /** Splitting undoes joining. */
  lemma {:induction false} SplitJoin(parts: seq<string>, dash: char)
    requires parts != [] && forall i :: 0 <= i < |parts| ==> dash !in parts[i]
    ensures Split(Join(parts, dash), dash) == parts
  {
    SplitPlain(parts[0], dash);
    if |parts| > 1 {
      SplitJoin(parts[1..], dash);
      SplitAround(parts[0], Join(parts[1..], dash), dash);
    }
  }

  lemma SlugWordsPlain(name: string)
    ensures forall i :: 0 <= i < |SlugWords(name)| ==> '_' !in SlugWords(name)[i]
  {
    forall i | 0 <= i < |Words(name)| ensures '_' !in CloneSpec.Lower(Words(name)[i]) {
      var word := Words(name)[i];
      forall j | 0 <= j < |word| ensures CloneSpec.Lower(word)[j] != '_' {
        assert word[j] in word;
      }
    }
  }

  /** Two names have the same slug iff they have the same words, up to case. */
  lemma SlugsClashIff(a: string, b: string)
    ensures Slugify(a) == Slugify(b) <==> SlugWords(a) == SlugWords(b)
  {
    SlugIsWords(a);
    SlugIsWords(b);
    SlugWordsPlain(a);
    SlugWordsPlain(b);
    SplitJoin(SlugWords(a), '_');
    SplitJoin(SlugWords(b), '_');
  }

  // The tools of an agent.

  function ToolName(tool: AgentTool): string {
    match tool
    case DataTool(t) => t.name
    case TransferTool(_, name, _) => "transfer_to_" + Slugify(name)
  }

  ghost predicate DistinctNames(tools: seq<AgentTool>) {
    forall i, j :: 0 <= i < j < |tools| ==> ToolName(tools[i]) != ToolName(tools[j])
  }

  /** Successors whose names differ in more than case and punctuation. */
  ghost predicate DistinctSuccessors(successors: seq<(RuntimeAgent, RuntimeEdge)>) {
    forall i, j :: 0 <= i < j < |successors| ==> SlugWords(successors[i].0.name) != SlugWords(successors[j].0.name)
  }

  lemma TransferNamesClashIff(a: string, b: string)
    ensures "transfer_to_" + Slugify(a) == "transfer_to_" + Slugify(b) <==> SlugWords(a) == SlugWords(b)
  {
    SlugsClashIff(a, b);
    var p := "transfer_to_";
    assert (p + Slugify(a))[|p|..] == Slugify(a) && (p + Slugify(b))[|p|..] == Slugify(b);
  }

  /** An agent's transfer tools have distinct names iff its successors' names have distinct words. */
  lemma TransferNamesDistinctIff(successors: seq<(RuntimeAgent, RuntimeEdge)>)
    ensures DistinctNames(TransferTools(successors)) <==> DistinctSuccessors(successors)
  {
    forall i, j | 0 <= i < j < |successors|
      ensures ToolName(TransferTools(successors)[i]) == ToolName(TransferTools(successors)[j])
              <==> SlugWords(successors[i].0.name) == SlugWords(successors[j].0.name)
    {
      TransferNamesClashIff(successors[i].0.name, successors[j].0.name);
    }
  }

  /** All tools of an agent have distinct names iff the data tools have, the successors' names have
      distinct words, and no data tool is called like a transfer. */
  lemma ToolNamesDistinctIff(w: RuntimeWorkflow, agent: RuntimeAgent)
    ensures DistinctNames(ToolsOfAgent(w, agent)) <==>
      && DistinctNames(DataTools(agent.tools))
      && DistinctSuccessors(SuccessorsOf(w, agent))
      && forall i, j :: 0 <= i < |agent.tools| && 0 <= j < |SuccessorsOf(w, agent)| ==>
           agent.tools[i].name != "transfer_to_" + Slugify(SuccessorsOf(w, agent)[j].0.name)
  {
    TransferNamesDistinctIff(SuccessorsOf(w, agent));
    DistinctInTwo(DataTools(agent.tools), TransferTools(SuccessorsOf(w, agent)));
  }

  lemma DistinctInTwo(first: seq<AgentTool>, rest: seq<AgentTool>)
    ensures DistinctNames(first + rest) <==>
      && DistinctNames(first) && DistinctNames(rest)
      && forall i, j :: 0 <= i < |first| && 0 <= j < |rest| ==> ToolName(first[i]) != ToolName(rest[j])
  {
    var all := first + rest;
    forall i | 0 <= i < |first| ensures all[i] == first[i] {
    }
    forall j | 0 <= j < |rest| ensures all[|first| + j] == rest[j] {
    }
    if DistinctNames(all) {
      forall i, j | 0 <= i < j < |rest| ensures ToolName(rest[i]) != ToolName(rest[j]) {
        assert ToolName(all[|first| + i]) != ToolName(all[|first| + j]);
      }
    }
  }

  /** Two edges that lead to the same agent give two tools of the same name. */
  lemma SameTargetClashes(w: RuntimeWorkflow, agent: RuntimeAgent, i: nat, j: nat)
    requires i < j < |SuccessorsOf(w, agent)| && SuccessorsOf(w, agent)[i].0 == SuccessorsOf(w, agent)[j].0
    ensures !DistinctNames(ToolsOfAgent(w, agent))
  {
    ToolNamesDistinctIff(w, agent);
  }
}
