/** The action's options (src/options.ts): the include/exclude path rules and
    the settings the bots are built from.

    Glob matching (`minimatch`) is not modelled: every operation takes the
    matcher as a parameter `matches(path, pattern)`, so each law below holds
    for whatever the matcher decides. */
module Settings {
  import opened Wrappers
  import opened Strings

  /** One path rule: a glob pattern, and whether it came from a `!` line. */
  datatype Rule = Rule(pattern: string, exclude: bool)

  // ---------------------------------------------------------------------------
  // Rule parsing (the PathFilter constructor)
  // ---------------------------------------------------------------------------

  /** The rules one input line contributes: none for a missing or blank line,
      an exclude rule for a line whose trimmed text starts with `!` (its
      pattern is the rest, trimmed again), otherwise an include rule whose
      pattern is the whole trimmed text. */
  function ParseEntry(entry: Option<string>): (rules: seq<Rule>)
    ensures |rules| <= 1
    ensures rules == [] <==> entry.None? || AllWhitespace(entry.value)
    ensures rules != [] ==> entry.Some? && (rules[0].exclude <==> StartsWith(Trim(entry.value), "!"))
  {
    match entry
    case None => []
    case Some(raw) =>
      var trimmed := Trim(raw);
      if trimmed == "" then []
      else if StartsWith(trimmed, "!") then [Rule(Trim(trimmed[1..]), true)]
      else [Rule(trimmed, false)]
  }

  /** What `f` yields for each element of `xs`, concatenated in order. */
  function FlatMap<T, U>(f: T -> seq<U>, xs: seq<T>): seq<U> {
    if xs == [] then [] else FlatMap(f, xs[..|xs| - 1]) + f(xs[|xs| - 1])
  }

  lemma {:induction false} FlatMapAppend<T, U>(f: T -> seq<U>, a: seq<T>, b: seq<T>)
    ensures FlatMap(f, a + b) == FlatMap(f, a) + FlatMap(f, b)
    decreases |b|
  {
    if b == [] {
      assert a + b == a;
    } else {
      var b', last := b[..|b| - 1], b[|b| - 1];
      assert (a + b)[..|a + b| - 1] == a + b';
      assert (a + b)[|a + b| - 1] == last;
      FlatMapAppend(f, a, b');
    }
  }

  lemma {:induction false} FlatMapEmpty<T, U>(f: T -> seq<U>, xs: seq<T>)
    ensures FlatMap(f, xs) == [] <==> forall i :: 0 <= i < |xs| ==> f(xs[i]) == []
  {
    if xs != [] {
      var init := xs[..|xs| - 1];
      FlatMapEmpty(f, init);
      assert forall i :: 0 <= i < |init| ==> init[i] == xs[i];
    }
  }

  lemma {:induction false} FlatMapMember<T, U>(f: T -> seq<U>, xs: seq<T>, y: U)
    requires y in FlatMap(f, xs)
    ensures exists i :: 0 <= i < |xs| && y in f(xs[i])
  {
    var init := xs[..|xs| - 1];
    if y !in f(xs[|xs| - 1]) {
      FlatMapMember(f, init, y);
      var i :| 0 <= i < |init| && y in f(init[i]);
      assert init[i] == xs[i];
    }
  }

  lemma {:induction false} FlatMapLength<T, U>(f: T -> seq<U>, xs: seq<T>, bound: nat)
    requires forall x :: |f(x)| <= bound
    ensures |FlatMap(f, xs)| <= bound * |xs|
  {
    if xs != [] {
      FlatMapLength(f, xs[..|xs| - 1], bound);
    }
  }

  /** The rules a list of lines yields, in the order of the lines: at most
      one per line. */
  function ParseAll(entries: seq<Option<string>>): (rules: seq<Rule>)
    ensures |rules| <= |entries|
  {
    FlatMapLength(ParseEntry, entries, 1);
    FlatMap(ParseEntry, entries)
  }

  /** The rules the constructor keeps; a `null` argument yields none. */
  function ParseRules(entries: Option<seq<Option<string>>>): (rules: seq<Rule>)
    ensures entries.None? ==> rules == []
    ensures entries.Some? ==> |rules| <= |entries.value|
  {
    match entries
    case None => []
    case Some(es) => ParseAll(es)
  }

  /** Parsing distributes over concatenation of the input: every line
      contributes its rules in place, so rules keep input order. */
  lemma ParseAllAppend(a: seq<Option<string>>, b: seq<Option<string>>)
    ensures ParseAll(a + b) == ParseAll(a) + ParseAll(b)
  {
    FlatMapAppend(ParseEntry, a, b);
  }

  /** A list of lines yields no rule exactly when every line is missing or
      blank. */
  lemma NoRulesIffAllBlank(entries: seq<Option<string>>)
    ensures ParseAll(entries) == [] <==>
            forall i :: 0 <= i < |entries| ==> entries[i].None? || AllWhitespace(entries[i].value)
  {
    FlatMapEmpty(ParseEntry, entries);
  }

  /** Every parsed pattern is already trimmed; an include pattern is never
      empty and never starts with `!` (an exclude pattern may be empty: the
      line `!` alone). */
  lemma ParsedPatternsAreTrimmed(entries: seq<Option<string>>, r: Rule)
    requires r in ParseAll(entries)
    ensures Trim(r.pattern) == r.pattern
    ensures !r.exclude ==> r.pattern != "" && !StartsWith(r.pattern, "!")
  {
    FlatMapMember(ParseEntry, entries, r);
    var i :| 0 <= i < |entries| && r in ParseEntry(entries[i]);
    EntryPatternIsTrimmed(entries[i], r);
  }

  lemma EntryPatternIsTrimmed(entry: Option<string>, r: Rule)
    requires r in ParseEntry(entry)
    ensures Trim(r.pattern) == r.pattern
    ensures !r.exclude ==> r.pattern != "" && !StartsWith(r.pattern, "!")
  {
    var trimmed := Trim(entry.value);
    TrimIdempotent(entry.value);
    if StartsWith(trimmed, "!") {
      TrimIdempotent(trimmed[1..]);
    }
  }

  /** A line holding just `!` (with any surrounding blanks) is an exclude
      rule with the empty pattern. */
  lemma BangAloneExcludesEmptyPattern()
    ensures ParseEntry(Some("!")) == [Rule("", true)]
    ensures ParseEntry(Some("  ! ")) == [Rule("", true)]
  {
    assert SkipWhitespace("  ! ", 0) == 2;
    assert BackOverWhitespace("  ! ", 4) == 3;
    assert Trim("  ! ") == "!";
  }

  // ---------------------------------------------------------------------------
  // Rule evaluation (PathFilter.check)
  // ---------------------------------------------------------------------------

  /** Some rule of `rules` is an include rule. */
  predicate IncludeRuleExists(rules: seq<Rule>) {
    exists r :: r in rules && !r.exclude
  }

  /** Some include rule of `rules` matches `path`. */
  predicate IncludeMatches(rules: seq<Rule>, path: string, matches: (string, string) -> bool) {
    exists r :: r in rules && !r.exclude && matches(path, r.pattern)
  }

  /** Some exclude rule of `rules` matches `path`. */
  predicate ExcludeMatches(rules: seq<Rule>, path: string, matches: (string, string) -> bool) {
    exists r :: r in rules && r.exclude && matches(path, r.pattern)
  }

  /** Whether the rules admit `path`: when some include rule exists, one of
      them must match; no exclude rule may match. */
  predicate Admits(rules: seq<Rule>, path: string, matches: (string, string) -> bool) {
    (!IncludeRuleExists(rules) || IncludeMatches(rules, path, matches))
    && !ExcludeMatches(rules, path, matches)
  }

  /** With no rules every path is admitted. */
  lemma EmptyRulesAdmitEverything(path: string, matches: (string, string) -> bool)
    ensures Admits([], path, matches)
  {
  }

  /** A matching exclude rule rejects the path, wherever it stands and
      whatever include rules match. */
  lemma ExcludeWins(rules: seq<Rule>, path: string, matches: (string, string) -> bool, r: Rule)
    requires r in rules && r.exclude && matches(path, r.pattern)
    ensures !Admits(rules, path, matches)
  {
  }

  /** Once an include rule exists, only paths that some include rule matches
      are admitted. */
  lemma IncludeOnlyWhenMatched(rules: seq<Rule>, path: string, matches: (string, string) -> bool)
    requires IncludeRuleExists(rules)
    ensures Admits(rules, path, matches) ==>
            exists i :: 0 <= i < |rules| && !rules[i].exclude && matches(path, rules[i].pattern)
  {
    if Admits(rules, path, matches) {
      var r :| r in rules && !r.exclude && matches(path, r.pattern);
      var i :| 0 <= i < |rules| && rules[i] == r;
    }
  }

  /** With only exclude rules, a path is admitted exactly when no pattern
      matches it. */
  lemma OnlyExcludeRules(rules: seq<Rule>, path: string, matches: (string, string) -> bool)
    requires forall i :: 0 <= i < |rules| ==> rules[i].exclude
    ensures Admits(rules, path, matches) <==>
            forall i :: 0 <= i < |rules| ==> !matches(path, rules[i].pattern)
  {
    if !Admits(rules, path, matches) {
      var r :| r in rules && r.exclude && matches(path, r.pattern);
      var i :| 0 <= i < |rules| && rules[i] == r;
    }
  }

  /** The verdict does not depend on the order of the rules. */
  lemma OrderIndependent(rules: seq<Rule>, reordered: seq<Rule>, path: string, matches: (string, string) -> bool)
    requires multiset(rules) == multiset(reordered)
    ensures Admits(rules, path, matches) == Admits(reordered, path, matches)
  {
    forall r ensures r in rules <==> r in reordered {
      assert r in rules <==> r in multiset(rules);
      assert r in reordered <==> r in multiset(reordered);
    }
  }

  /** A line with no surrounding blanks is an include rule for itself, or,
      when it starts with `!`, an exclude rule for the rest trimmed again. */
  lemma ParseTrimmedLine(line: string)
    requires line != [] && !IsWhitespace(line[0]) && !IsWhitespace(line[|line| - 1])
    ensures line[0] != '!' ==> ParseEntry(Some(line)) == [Rule(line, false)]
    ensures line[0] == '!' ==> ParseEntry(Some(line)) == [Rule(Trim(line[1..]), true)]
  {
    TrimKeepsUnpaddedText(line);
  }

  /** A pattern without surrounding blanks and without a leading `!` is
      included as it is. */
  lemma IncludeLine(pattern: string)
    requires pattern != [] && !IsWhitespace(pattern[0]) && !IsWhitespace(pattern[|pattern| - 1])
    requires pattern[0] != '!'
    ensures ParseEntry(Some(pattern)) == [Rule(pattern, false)]
  {
    ParseTrimmedLine(pattern);
  }

  /** `!` directly followed by a pattern without surrounding blanks
      excludes that pattern. */
  lemma ExcludeLine(line: string, pattern: string)
    requires line == "!" + pattern
    requires pattern != [] && !IsWhitespace(pattern[0]) && !IsWhitespace(pattern[|pattern| - 1])
    ensures ParseEntry(Some(line)) == [Rule(pattern, true)]
  {
    ParseTrimmedLine(line);
    assert line[1..] == pattern;
    TrimKeepsUnpaddedText(pattern);
  }

  /** Blanks around a line, and blanks between its `!` and its pattern, do
      not change the rule it gives. */
  lemma {:induction false} ParseSeesTrimmedLine(raw: string)
    ensures ParseEntry(Some(raw)) == ParseEntry(Some(Trim(raw)))
  {
    TrimIdempotent(raw);
  }

  /** The line `! a` excludes `a`: the blank after the `!` is trimmed away. */
  lemma BangThenBlankExcludes()
    ensures ParseEntry(Some("! a")) == [Rule("a", true)]
  {
    ParseTrimmedLine("! a");
    assert "! a"[1..] == " a";
    assert SkipWhitespace(" a", 0) == 1;
    assert BackOverWhitespace(" a", 2) == 2;
    assert " a"[1..2] == "a";
  }

  /** Two lines give the rules of the first, then those of the second. */
  lemma TwoLines(a: Option<string>, b: Option<string>)
    ensures ParseRules(Some([a, b])) == ParseEntry(a) + ParseEntry(b)
  {
    var es := [a, b];
    assert es[..1] == [a] && [a][..0] == [];
    assert FlatMap(ParseEntry, [a]) == ParseEntry(a);
    assert FlatMap(ParseEntry, es) == FlatMap(ParseEntry, [a]) + ParseEntry(b);
  }

  /** The lines of a filter that reviews sources but skips generated ones. */
  const AllSources := "src/**"
  const GeneratedSources := "src/gen/**"
  const SkipGenerated := "!src/gen/**"

  /** An include line for `src` and an exclude line for `src/gen` parse to
      an include and an exclude rule, in that order. */
  lemma GeneratedSourcesRules()
    ensures ParseRules(Some([Some(AllSources), Some(SkipGenerated)]))
            == [Rule(AllSources, false), Rule(GeneratedSources, true)]
  {
    TwoLines(Some(AllSources), Some(SkipGenerated));
    AllSourcesLine();
    SkipGeneratedLine();
  }

  lemma AllSourcesLine()
    ensures ParseEntry(Some(AllSources)) == [Rule(AllSources, false)]
  {
    IncludeLine(AllSources);
  }

  lemma SkipGeneratedLine()
    ensures ParseEntry(Some(SkipGenerated)) == [Rule(GeneratedSources, true)]
  {
    ExcludeLine(SkipGenerated, GeneratedSources);
  }

  /** The filter that includes everything under `src` and then excludes
      everything under `src/gen`: generated sources are skipped although the
      src rule matches them, other sources are kept, and nothing outside
      `src` is kept. */
  lemma GeneratedSourcesExample(matches: (string, string) -> bool)
    requires matches("src/gen/x.ts", "src/**") && matches("src/gen/x.ts", "src/gen/**")
    requires matches("src/core/x.ts", "src/**") && !matches("src/core/x.ts", "src/gen/**")
    requires !matches("docs/a.md", "src/**")
    ensures var rules := [Rule("src/**", false), Rule("src/gen/**", true)];
            && !Admits(rules, "src/gen/x.ts", matches)
            && Admits(rules, "src/core/x.ts", matches)
            && !Admits(rules, "docs/a.md", matches)
  {
    var rules := [Rule("src/**", false), Rule("src/gen/**", true)];
    assert rules[0] in rules && rules[1] in rules;
  }

  /** The line of a filter that skips lock files. */
  const LockFiles := "*.lock"
  const SkipLockFiles := "!*.lock"

  lemma SkipLockFilesRules()
    ensures ParseRules(Some([Some(SkipLockFiles)])) == [Rule(LockFiles, true)]
  {
    var es := [Some(SkipLockFiles)];
    assert es[..0] == [];
    ExcludeLine(SkipLockFiles, LockFiles);
  }

  /** The filter that only excludes lock files: lock files are skipped,
      everything else is kept. */
  lemma LockFilesExample(matches: (string, string) -> bool)
    requires matches("a.lock", LockFiles) && !matches("a.ts", LockFiles)
    ensures var rules := ParseRules(Some([Some(SkipLockFiles)]));
            && rules == [Rule(LockFiles, true)]
            && !Admits(rules, "a.lock", matches)
            && Admits(rules, "a.ts", matches)
  {
    SkipLockFilesRules();
    var rules := [Rule(LockFiles, true)];
    assert rules[0] in rules;
  }

  /** PathFilter: the ordered rules parsed from the `path_filters` input. */
  class PathFilter {
    const rules: seq<Rule>

    /** Trims every line, drops blank ones and turns a leading `!` into an
        exclude rule, keeping the order of the lines. */
    constructor(entries: Option<seq<Option<string>>>)
      ensures rules == ParseRules(entries)
    {
      var acc: seq<Rule> := [];
      if entries.Some? {
        var es := entries.value;
        for i := 0 to |es|
          invariant acc == FlatMap(ParseEntry, es[..i])
        {
          assert es[..i + 1][..i] == es[..i];
          assert FlatMap(ParseEntry, es[..i + 1]) == acc + ParseEntry(es[i]);
          match es[i]
          case None =>
          case Some(raw) =>
            var trimmed := Trim(raw);
            if trimmed != "" {
              if StartsWith(trimmed, "!") {
                acc := acc + [Rule(Trim(trimmed[1..]), true)];
              } else {
                acc := acc + [Rule(trimmed, false)];
              }
            }
        }
        assert es[..|es|] == es;
      }
      rules := acc;
    }

    /** Whether `path` passes the filter: true when there are no rules;
        otherwise the rules are scanned once for a matching include rule, a
        matching exclude rule and the existence of an include rule. */
    method Check(path: string, matches: (string, string) -> bool) returns (ok: bool)
      ensures |rules| == 0 ==> ok
      ensures ok <==> (!IncludeRuleExists(rules) || IncludeMatches(rules, path, matches))
                      && !ExcludeMatches(rules, path, matches)
    {
      if |rules| == 0 {
        return true;
      }
      var included, excluded, inclusionRuleExists := false, false, false;
      for i := 0 to |rules|
        invariant included == IncludeMatches(rules[..i], path, matches)
        invariant excluded == ExcludeMatches(rules[..i], path, matches)
        invariant inclusionRuleExists == IncludeRuleExists(rules[..i])
      {
        var rule := rules[i];
        assert rules[..i + 1] == rules[..i] + [rule];
        if matches(path, rule.pattern) {
          if rule.exclude {
            excluded := true;
          } else {
            included := true;
          }
        }
        if !rule.exclude {
          inclusionRuleExists := true;
        }
      }
      assert rules[..|rules|] == rules;
      ok := (!inclusionRuleExists || included) && !excluded;
    }
  }

  /** The settings the core reads. Numbers arrive already parsed; the flags
      and limits that only the review modules read are not part of this
      model. */
  class Options {
    const debug: bool
    const pathFilters: PathFilter
    const systemMessage: string
    const modelProvider: string
    const openaiModel: string
    const openaiModelTemperature: real
    const retries: int
    const timeoutMS: int
    const azureOpenaiApiKey: string
    const azureOpenaiEndpoint: string
    const azureOpenaiDeploymentName: string
    const summaryTokens: int
    const reviewTokens: int
    const language: string

    /** Copies every setting; the path rules are parsed into a fresh
        PathFilter. The provider name is taken as given, unchecked. */
    constructor(debug: bool, pathFilters: Option<seq<Option<string>>>, systemMessage: string,
                modelProvider: string, openaiModel: string, openaiModelTemperature: real,
                retries: int, timeoutMS: int, azureOpenaiApiKey: string,
                azureOpenaiEndpoint: string, azureOpenaiDeploymentName: string,
                summaryTokens: int, reviewTokens: int, language: string)
      ensures this.debug == debug && this.systemMessage == systemMessage
      ensures this.pathFilters.rules == ParseRules(pathFilters)
      ensures this.modelProvider == modelProvider && this.openaiModel == openaiModel
      ensures this.openaiModelTemperature == openaiModelTemperature
      ensures this.retries == retries && this.timeoutMS == timeoutMS
      ensures this.azureOpenaiApiKey == azureOpenaiApiKey
      ensures this.azureOpenaiEndpoint == azureOpenaiEndpoint
      ensures this.azureOpenaiDeploymentName == azureOpenaiDeploymentName
      ensures this.summaryTokens == summaryTokens && this.reviewTokens == reviewTokens
      ensures this.language == language
    {
      this.debug := debug;
      this.pathFilters := new PathFilter(pathFilters);
      this.systemMessage := systemMessage;
      this.modelProvider := modelProvider;
      this.openaiModel := openaiModel;
      this.openaiModelTemperature := openaiModelTemperature;
      this.retries := retries;
      this.timeoutMS := timeoutMS;
      this.azureOpenaiApiKey := azureOpenaiApiKey;
      this.azureOpenaiEndpoint := azureOpenaiEndpoint;
      this.azureOpenaiDeploymentName := azureOpenaiDeploymentName;
      this.summaryTokens := summaryTokens;
      this.reviewTokens := reviewTokens;
      this.language := language;
    }

    /** Whether a changed file is processed: exactly the path filter's
        verdict. */
    method CheckPath(path: string, matches: (string, string) -> bool) returns (ok: bool)
      ensures ok == Admits(pathFilters.rules, path, matches)
    {
      ok := pathFilters.Check(path, matches);
    }
  }
}
