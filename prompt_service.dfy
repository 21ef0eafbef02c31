/**
 * The prompt-template service: a read-through cache over the prompts
 * directory (a map from file name to content, as it is at the time of each
 * call), the sorted template listing, the rule-based template linter, the
 * metadata summary, and the tester that runs the linter over templates.
 */
module Prompts {
  import opened Wrappers
  import opened Text
  import Grok

  /** The sections every template must mention, compared case-insensitively, in the order they are reported. */
  const RequiredSections: seq<string> := ["DISCOVER", "CLASSIFY", "SIGNAL criteria", "NOISE criteria", "Output Format"]

  const MissingSectionPrefix := "Missing required section: "
  const JsonFence := "```json"
  const FocusAreaHeading := "Focus Area Specific"
  const NoJsonBlock := "No JSON code block found in output format"
  const NoFocusAreaSection := "Missing focus area specific criteria section"
  const PromptSuffix := "_prompt"

  const TestInputs: map<string, string> := map[
    "voice_ai" := "Test voice AI tool with WebRTC support and 150ms latency",
    "agent_orchestration" := "Test agent framework with knowledge graph integration",
    "durable_runtime" := "Test serverless platform with 50ms cold start"
  ]
  const GenericTestInput := "Generic test input for trend analysis"

  /** The linter's verdict: `valid`, one error per missing section, and the warnings. */
  datatype Validation = Validation(valid: bool, errors: seq<string>, warnings: seq<string>)

  datatype Metadata = Metadata(name: string, title: string, length: nat, lines: nat, validation: Validation)

  /** What the tester reports for one template. */
  datatype SyntaxReport = TemplateNotFound(error: string) | Tested(template: string, validation: Validation)
  {
    predicate Success()
    {
      Tested? && validation.valid
    }
  }

  datatype BatchReport = BatchReport(success: bool, templatesTested: nat, results: map<string, SyntaxReport>)

  // ---------------------------------------------------------------- loading

  /** The file `load_template` reads: `<name>.md`, else `<name>_prompt.md`. */
  function ResolveTemplate(prompts: map<string, string>, name: string): (r: Option<string>)
    ensures r.None? <==> name + ".md" !in prompts && name + "_prompt.md" !in prompts
    ensures name + ".md" in prompts ==> r == Some(prompts[name + ".md"])
    ensures name + ".md" !in prompts && name + "_prompt.md" in prompts ==> r == Some(prompts[name + "_prompt.md"])
  {
    if name + ".md" in prompts then Some(prompts[name + ".md"])
    else if name + "_prompt.md" in prompts then Some(prompts[name + "_prompt.md"])
    else None
  }

  /** What `load_template` returns: the cached text, else the file's. */
  function LookupTemplate(cache: map<string, string>, prompts: map<string, string>, name: string): (r: Option<string>)
    ensures name in cache ==> r == Some(cache[name])
    ensures r.None? <==> name !in cache && name + ".md" !in prompts && name + "_prompt.md" !in prompts
  {
    if name in cache then Some(cache[name]) else ResolveTemplate(prompts, name)
  }

  /** The cache after `load_template(name)`: what was read is kept under the requested name. */
  function CacheAfterLoad(cache: map<string, string>, prompts: map<string, string>, name: string): (r: map<string, string>)
    ensures forall n :: n in r <==> n in cache || (n == name && ResolveTemplate(prompts, name).Some?)
    ensures forall n :: n in cache ==> r[n] == cache[n]
    ensures name in r ==> LookupTemplate(cache, prompts, name) == Some(r[name])
  {
    if name !in cache && ResolveTemplate(prompts, name).Some? then cache[name := ResolveTemplate(prompts, name).value]
    else cache
  }

  /** Loading never changes what any later load returns, while the directory stays the same. */
  lemma LoadPreservesLookups(cache: map<string, string>, prompts: map<string, string>, name: string, other: string)
    ensures LookupTemplate(CacheAfterLoad(cache, prompts, name), prompts, other) == LookupTemplate(cache, prompts, other)
  {
  }

  /** The cache after loading each of `names` in turn. */
  function CacheAfterLoads(cache: map<string, string>, prompts: map<string, string>, names: seq<string>): map<string, string>
    decreases |names|
  {
    if names == [] then cache
    else CacheAfterLoad(CacheAfterLoads(cache, prompts, names[..|names| - 1]), prompts, names[|names| - 1])
  }

  /**
   * Loading a list of names keeps the old cache and adds each listed name
   * that was not cached and resolves to a file, with that file's content.
   */
  lemma {:induction false} CacheAfterLoadsContents(cache: map<string, string>, prompts: map<string, string>, names: seq<string>)
    ensures forall n :: n in CacheAfterLoads(cache, prompts, names) <==>
      n in cache || (n in names && ResolveTemplate(prompts, n).Some?)
    ensures forall n :: n in CacheAfterLoads(cache, prompts, names) ==>
      CacheAfterLoads(cache, prompts, names)[n] == if n in cache then cache[n] else ResolveTemplate(prompts, n).value
  {
    if names != [] {
      var init := names[..|names| - 1];
      CacheAfterLoadsContents(cache, prompts, init);
      assert names == init + [names[|names| - 1]];
    }
  }

  /** A cached name is answered from the cache, whatever the directory now holds. */
  lemma CachedIgnoresDirectory(cache: map<string, string>, p1: map<string, string>, p2: map<string, string>, name: string)
    requires name in cache
    ensures LookupTemplate(cache, p1, name) == LookupTemplate(cache, p2, name) == Some(cache[name])
  {
  }

  // ---------------------------------------------------------------- listing

  /** `glob("*.md")` keeps the names ending in `.md`. */
  predicate IsMarkdown(file: string)
  {
    EndsWith(file, ".md")
  }

  /** `Path(file).stem`: the name without its `.md` suffix (a bare `.md` has no suffix). */
  function Stem(file: string): string
  {
    if |file| > 3 && IsMarkdown(file) then file[..|file| - 3] else file
  }

  /** The listed name of a template file: its stem without a trailing `_prompt`. */
  function TemplateName(file: string): (r: string)
    ensures |r| <= |file|
  {
    var stem := Stem(file);
    if EndsWith(stem, PromptSuffix) then stem[..|stem| - 7] else stem
  }

  /** Every listed name loads again: `<name>.md` or `<name>_prompt.md` is the file it came from, or one that wins over it. */
  lemma {:induction false} ListedTemplateLoads(file: string, prompts: map<string, string>)
    requires IsMarkdown(file) && |file| > 3 && file in prompts
    ensures ResolveTemplate(prompts, TemplateName(file)).Some?
  {
    var stem := file[..|file| - 3];
    assert file == stem + ".md";
    var name := TemplateName(file);
    if EndsWith(stem, PromptSuffix) {
      assert stem == name + PromptSuffix;
      assert file == name + "_prompt.md";
    } else {
      assert file == name + ".md";
    }
  }

  /** The template names in listing order, before sorting. */
  function TemplateNames(entries: seq<string>): (r: seq<string>)
    ensures |r| <= |entries|
  {
    if entries == [] then []
    else
      var last := entries[|entries| - 1];
      TemplateNames(entries[..|entries| - 1]) + (if IsMarkdown(last) then [TemplateName(last)] else [])
  }

  predicate Sorted(s: seq<string>)
  {
    forall i, j :: 0 <= i < j < |s| ==> LexLe(s[i], s[j])
  }

  lemma {:induction false} LexLeReflexive(a: string)
    ensures LexLe(a, a)
  {
    if a != [] {
      LexLeReflexive(a[1..]);
    }
  }

  /** Inserting keeps every element and adds exactly the one given. */
  function Insert(x: string, s: seq<string>): (r: seq<string>)
    ensures multiset(r) == multiset(s) + multiset{x}
  {
    if s == [] then [x]
    else if LexLe(x, s[0]) then [x] + s
    else
      assert s == [s[0]] + s[1..];
      [s[0]] + Insert(x, s[1..])
  }

  /** A lower bound of a list and of a new element bounds the list after insertion. */
  lemma InsertBound(lo: string, x: string, s: seq<string>)
    requires LexLe(lo, x)
    requires forall i :: 0 <= i < |s| ==> LexLe(lo, s[i])
    ensures forall i :: 0 <= i < |Insert(x, s)| ==> LexLe(lo, Insert(x, s)[i])
  {
    var r := Insert(x, s);
    forall i | 0 <= i < |r| ensures LexLe(lo, r[i]) {
      assert r[i] in multiset(r);
      if r[i] != x {
        assert r[i] in multiset(s);
      }
    }
  }

  /** Inserting into a sorted list keeps it sorted. */
  lemma {:induction false} InsertSorted(x: string, s: seq<string>)
    requires Sorted(s)
    ensures Sorted(Insert(x, s))
  {
    if s == [] {
    } else if LexLe(x, s[0]) {
      forall j | 0 < j < |s| ensures LexLe(x, s[j]) {
        LexLeTransitive(x, s[0], s[j]);
      }
    } else {
      LexLeTotal(x, s[0]);
      var tail := s[1..];
      InsertSorted(x, tail);
      InsertBound(s[0], x, tail);
      var rest := Insert(x, tail);
      var r := [s[0]] + rest;
      forall i, j | 0 <= i < j < |r| ensures LexLe(r[i], r[j]) {
        assert r[j] == rest[j - 1];
        if i > 0 { assert r[i] == rest[i - 1]; }
      }
    }
  }

  /** `sorted(names)`: the names in code-point order. */
  function SortStrings(names: seq<string>): (r: seq<string>)
    ensures Sorted(r)
    ensures multiset(r) == multiset(names)
  {
    if names == [] then []
    else
      assert names == names[..|names| - 1] + [names[|names| - 1]];
      var init := SortStrings(names[..|names| - 1]);
      InsertSorted(names[|names| - 1], init);
      Insert(names[|names| - 1], init)
  }

  /** The head of a sorted list is below every element of it. */
  lemma HeadIsLeast(s: seq<string>, y: string)
    requires Sorted(s) && y in s
    ensures LexLe(s[0], y)
  {
    var j :| 0 <= j < |s| && s[j] == y;
    if j == 0 { LexLeReflexive(y); }
  }

  lemma TailMultiset(s: seq<string>)
    requires s != []
    ensures multiset(s[1..]) == multiset(s) - multiset{s[0]}
  {
    assert s == [s[0]] + s[1..];
  }

  /** Sorted lists with the same elements are equal, so the listing does not depend on the directory's order. */
  lemma {:induction false} SortedUnique(a: seq<string>, b: seq<string>)
    requires Sorted(a) && Sorted(b) && multiset(a) == multiset(b)
    ensures a == b
  {
    assert |a| == |multiset(a)| == |multiset(b)| == |b|;
    if a != [] {
      assert a[0] in multiset(b) && b[0] in multiset(a);
      HeadIsLeast(a, b[0]);
      HeadIsLeast(b, a[0]);
      LexLeAntisymmetric(a[0], b[0]);
      TailMultiset(a);
      TailMultiset(b);
      SortedUnique(a[1..], b[1..]);
      assert a == [a[0]] + a[1..] && b == [b[0]] + b[1..];
    }
  }

  // ---------------------------------------------------------------- linting

  /** One error per required section the content lacks, in the sections' order. */
  function SectionErrors(content: string, sections: seq<string>): seq<string>
  {
    if sections == [] then []
    else
      var section := sections[|sections| - 1];
      SectionErrors(content, sections[..|sections| - 1])
      + (if ContainsIgnoringCase(content, section) then [] else [MissingSectionPrefix + section])
  }

  /** Checking one more section adds its error, if it is missing, at the end. */
  lemma SectionErrorsStep(content: string, sections: seq<string>, i: nat)
    requires i < |sections|
    ensures SectionErrors(content, sections[..i + 1]) == SectionErrors(content, sections[..i])
      + (if ContainsIgnoringCase(content, sections[i]) then [] else [MissingSectionPrefix + sections[i]])
  {
    assert sections[..i + 1][..i] == sections[..i];
  }

  /**
   * No error exactly when every section is present; each missing section
   * has its message; every message names a missing section.
   */
  lemma {:induction false} SectionErrorsMeaning(content: string, sections: seq<string>)
    ensures SectionErrors(content, sections) == [] <==> forall s :: s in sections ==> ContainsIgnoringCase(content, s)
    ensures forall s :: s in sections && !ContainsIgnoringCase(content, s) ==> MissingSectionPrefix + s in SectionErrors(content, sections)
    ensures forall e :: e in SectionErrors(content, sections) ==>
      && StartsWith(e, MissingSectionPrefix)
      && e[|MissingSectionPrefix|..] in sections
      && !ContainsIgnoringCase(content, e[|MissingSectionPrefix|..])
  {
    if sections != [] {
      var section := sections[|sections| - 1];
      var init := sections[..|sections| - 1];
      SectionErrorsMeaning(content, init);
      assert sections == init + [section];
      var message := MissingSectionPrefix + section;
      assert message[..|MissingSectionPrefix|] == MissingSectionPrefix;
      assert message[|MissingSectionPrefix|..] == section;
    }
  }


  /** The warnings: a missing ```` ```json ```` fence, then a missing focus-area section, both case-sensitive. */
  function Warnings(content: string): (r: seq<string>)
    ensures NoJsonBlock in r <==> !Contains(content, JsonFence)
    ensures NoFocusAreaSection in r <==> !Contains(content, FocusAreaHeading)
    ensures |r| <= 2
  {
    (if Contains(content, JsonFence) then [] else [NoJsonBlock])
    + (if Contains(content, FocusAreaHeading) then [] else [NoFocusAreaSection])
  }

  /** What `validate_template` returns: valid exactly when every required section is present; warnings do not count. */
  function TemplateValidation(content: string): (v: Validation)
    ensures v.valid <==> forall s :: s in RequiredSections ==> ContainsIgnoringCase(content, s)
    ensures v.valid <==> v.errors == []
    ensures v.errors == SectionErrors(content, RequiredSections)
    ensures v.warnings == Warnings(content)
  {
    SectionErrorsMeaning(content, RequiredSections);
    var errors := SectionErrors(content, RequiredSections);
    Validation(errors == [], errors, Warnings(content))
  }

  // ---------------------------------------------------------------- metadata

  /** Line `k` is the first line starting with `# `. */
  predicate FirstHeading(lines: seq<string>, k: int)
  {
    && 0 <= k < |lines|
    && StartsWith(lines[k], "# ")
    && forall j :: 0 <= j < k ==> !StartsWith(lines[j], "# ")
  }

  /** The content's title: the first line starting with `# `, without that prefix and stripped; `""` if none. */
  function Title(lines: seq<string>): string
  {
    if lines == [] then ""
    else if StartsWith(lines[0], "# ") then Strip(lines[0][2..])
    else Title(lines[1..])
  }

  /** The title is taken from the first heading line, and is empty when there is none. */
  lemma {:induction false} TitleIsFirstHeading(lines: seq<string>)
    ensures (forall k :: 0 <= k < |lines| ==> !StartsWith(lines[k], "# ")) ==> Title(lines) == ""
    ensures forall k :: FirstHeading(lines, k) ==> Title(lines) == Strip(lines[k][2..])
  {
    if lines != [] && !StartsWith(lines[0], "# ") {
      var rest := lines[1..];
      TitleIsFirstHeading(rest);
      forall k | FirstHeading(lines, k) ensures Title(lines) == Strip(lines[k][2..]) {
        assert k > 0 && lines[k] == rest[k - 1];
        assert FirstHeading(rest, k - 1);
      }
      if forall k :: 0 <= k < |lines| ==> !StartsWith(lines[k], "# ") {
        assert forall k :: 0 <= k < |rest| ==> rest[k] == lines[k + 1];
      }
    }
  }


  /** The scan for the title line, stopping at the first heading. */
  method FindTitle(lines: seq<string>) returns (title: string)
    ensures title == Title(lines)
  {
    title := "";
    var i := 0;
    while i < |lines|
      invariant 0 <= i <= |lines|
      invariant Title(lines[i..]) == Title(lines)
    {
      if StartsWith(lines[i], "# ") {
        assert lines[i..][0] == lines[i];
        title := Strip(lines[i][2..]);
        return;
      }
      assert lines[i..][1..] == lines[i + 1..];
      i := i + 1;
    }
  }

  /** The metadata of non-empty content. */
  function MetadataOf(name: string, content: string): (m: Metadata)
    ensures m.name == name && m.length == |content|
    ensures m.lines == Count(content, '\n') + 1
    ensures m.validation.valid <==> forall s :: s in RequiredSections ==> ContainsIgnoringCase(content, s)
    ensures m.title == Title(Lines(content)) && m.validation == TemplateValidation(content)
  {
    var lines := Lines(content);
    Metadata(name, Title(lines), |content|, |lines|, TemplateValidation(content))
  }

  // ---------------------------------------------------------------- testing

  /** What `test_template_syntax` reports for a name and what loading it returned. */
  function SyntaxReportFor(name: string, content: Option<string>): (r: SyntaxReport)
    ensures (content.None? || content.value == "") ==> r == TemplateNotFound("Template not found: " + name)
    ensures content.Some? && content.value != "" ==> r == Tested(name, TemplateValidation(content.value))
    ensures r.Success() <==> content.Some? && content.value != "" && TemplateValidation(content.value).valid
  {
    if content.None? || content.value == "" then TemplateNotFound("Template not found: " + name)
    else Tested(name, TemplateValidation(content.value))
  }

  /** `generate_test_input`: the fixed sample for a known template name, the generic one otherwise. */
  function GenerateTestInput(focusArea: string): (r: string)
    ensures focusArea !in TestInputs ==> r == GenericTestInput
    ensures focusArea in TestInputs ==> r == TestInputs[focusArea] && r != GenericTestInput
  {
    if focusArea in TestInputs then TestInputs[focusArea] else GenericTestInput
  }

  /** A file `<name>_prompt.md` is listed as `<name>`. */
  lemma PromptFileListedName(file: string, name: string)
    requires file == name + PromptSuffix + ".md"
    ensures TemplateName(file) == name
  {
    var stem := name + PromptSuffix;
    assert file[|file| - 3..] == ".md" && file[..|file| - 3] == stem;
    assert stem[|stem| - 7..] == PromptSuffix && stem[..|stem| - 7] == name;
  }

  /** A file `<name>.md` whose name does not end in `_prompt` is listed as `<name>`. */
  lemma PlainFileListedName(file: string, name: string)
    requires file == name + ".md" && name != "" && !EndsWith(name, PromptSuffix)
    ensures TemplateName(file) == name
  {
    assert file[|file| - 3..] == ".md" && file[..|file| - 3] == name;
  }

  /** The sample inputs are keyed by the listed names of the analysis service's template files. */
  lemma TestInputsCoverPipelineTemplates(focusArea: string)
    requires focusArea in Grok.PromptFiles
    ensures TemplateName(Grok.PromptFiles[focusArea]) in TestInputs
    ensures GenerateTestInput(TemplateName(Grok.PromptFiles[focusArea])) != GenericTestInput
  {
    if focusArea == "voice_ai_ux" {
      PromptFileListedName(Grok.PromptFiles[focusArea], "voice_ai");
    } else if focusArea == "agent_orchestration" {
      PromptFileListedName(Grok.PromptFiles[focusArea], "agent_orchestration");
    } else {
      PromptFileListedName(Grok.PromptFiles[focusArea], "durable_runtime");
    }
  }

  /** The template service and its cache of loaded templates. */
  class PromptService {
    var templates: map<string, string>

    constructor ()
      ensures templates == map[]
    {
      templates := map[];
    }

    /** `load_template`: the cache first, then `<name>.md`, then `<name>_prompt.md`. */
    method LoadTemplate(name: string, prompts: map<string, string>) returns (content: Option<string>)
      modifies this
      ensures content == LookupTemplate(old(templates), prompts, name)
      ensures templates == CacheAfterLoad(old(templates), prompts, name)
    {
      if name in templates {
        return Some(templates[name]);
      }
      var path := name + ".md";
      if path !in prompts {
        path := name + "_prompt.md";
      }
      if path !in prompts {
        return None;
      }
      content := Some(prompts[path]);
      templates := templates[name := prompts[path]];
    }

    /** `list_templates`: the names of the `.md` files, `_prompt` removed, sorted. */
    method ListTemplates(entries: seq<string>) returns (names: seq<string>)
      ensures Sorted(names)
      ensures multiset(names) == multiset(TemplateNames(entries))
    {
      var found: seq<string> := [];
      var i := 0;
      while i < |entries|
        invariant 0 <= i <= |entries|
        invariant found == TemplateNames(entries[..i])
      {
        var file := entries[i];
        assert entries[..i + 1][..i] == entries[..i];
        if IsMarkdown(file) {
          var name := Stem(file);
          if EndsWith(name, PromptSuffix) {
            name := name[..|name| - 7];
          }
          found := found + [name];
        }
        i := i + 1;
      }
      assert entries[..i] == entries;
      names := SortStrings(found);
    }

    /** The loop over the required sections, one error per section not found. */
    static method CheckSections(content: string, sections: seq<string>) returns (errors: seq<string>)
      ensures errors == SectionErrors(content, sections)
    {
      errors := [];
      var i := 0;
      while i < |sections|
        invariant 0 <= i <= |sections|
        invariant errors == SectionErrors(content, sections[..i])
      {
        var section := sections[i];
        SectionErrorsStep(content, sections, i);
        if !Contains(Lower(content), Lower(section)) {
          errors := errors + [MissingSectionPrefix + section];
        }
        i := i + 1;
      }
      assert sections[..i] == sections;
    }

    /** `validate_template`: one error per missing required section, then the warnings. */
    method ValidateTemplate(content: string) returns (v: Validation)
      ensures v == TemplateValidation(content)
    {
      var errors := CheckSections(content, RequiredSections);
      var warnings: seq<string> := [];
      if !Contains(content, JsonFence) {
        warnings := warnings + [NoJsonBlock];
      }
      if !Contains(content, FocusAreaHeading) {
        warnings := warnings + [NoFocusAreaSection];
      }
      v := Validation(|errors| == 0, errors, warnings);
    }

    /** `get_template_metadata`: `None` for a missing or empty template, else its title, length, line count and validation. */
    method GetTemplateMetadata(name: string, prompts: map<string, string>) returns (meta: Option<Metadata>)
      modifies this
      ensures var content := LookupTemplate(old(templates), prompts, name);
        meta == if content.None? || content.value == "" then None else Some(MetadataOf(name, content.value))
      ensures templates == CacheAfterLoad(old(templates), prompts, name)
    {
      var content := LoadTemplate(name, prompts);
      if content.None? || content.value == "" {
        return None;
      }
      var lines := Lines(content.value);
      var title := FindTitle(lines);
      var validation := ValidateTemplate(content.value);
      meta := Some(Metadata(name, title, |content.value|, |lines|, validation));
    }
  }

  /** The tester, running the linter over the service's templates. */
  class PromptTester {
    const service: PromptService

    /** `prompt_service or PromptService()`. */
    constructor (service: PromptService?)
      ensures service != null ==> this.service == service
      ensures service == null ==> fresh(this.service) && this.service.templates == map[]
    {
      if service != null {
        this.service := service;
      } else {
        this.service := new PromptService();
      }
    }

    /** `test_template_syntax`: not found for a missing or empty template, else success exactly when it validates. */
    method TestTemplateSyntax(name: string, prompts: map<string, string>) returns (report: SyntaxReport)
      modifies service
      ensures report == SyntaxReportFor(name, LookupTemplate(old(service.templates), prompts, name))
      ensures service.templates == CacheAfterLoad(old(service.templates), prompts, name)
      ensures forall n :: LookupTemplate(service.templates, prompts, n) == LookupTemplate(old(service.templates), prompts, n)
    {
      forall n ensures LookupTemplate(CacheAfterLoad(service.templates, prompts, name), prompts, n)
                       == LookupTemplate(service.templates, prompts, n) {
        LoadPreservesLookups(service.templates, prompts, name, n);
      }
      var content := service.LoadTemplate(name, prompts);
      if content.None? || content.value == "" {
        return TemplateNotFound("Template not found: " + name);
      }
      var validation := service.ValidateTemplate(content.value);
      report := Tested(name, validation);
    }

    /** The loop of `test_all_templates`: one report per name, each as `test_template_syntax` gives it. */
    method TestEach(names: seq<string>, prompts: map<string, string>) returns (results: map<string, SyntaxReport>)
      modifies service
      ensures forall t :: t in results <==> t in names
      ensures forall t :: t in results ==>
        results[t] == SyntaxReportFor(t, LookupTemplate(old(service.templates), prompts, t))
      ensures service.templates == CacheAfterLoads(old(service.templates), prompts, names)
      ensures forall n :: LookupTemplate(service.templates, prompts, n) == LookupTemplate(old(service.templates), prompts, n)
    {
      results := map[];
      var i := 0;
      while i < |names|
        invariant 0 <= i <= |names|
        invariant forall t :: t in results <==> t in names[..i]
        invariant forall t :: t in results ==>
          results[t] == SyntaxReportFor(t, LookupTemplate(old(service.templates), prompts, t))
        invariant forall n :: LookupTemplate(service.templates, prompts, n) == LookupTemplate(old(service.templates), prompts, n)
        invariant service.templates == CacheAfterLoads(old(service.templates), prompts, names[..i])
      {
        var name := names[i];
        var result := TestTemplateSyntax(name, prompts);
        results := results[name := result];
        assert names[..i + 1] == names[..i] + [name];
        assert names[..i + 1][..i] == names[..i];
        i := i + 1;
      }
      assert names[..i] == names;
    }

    /**
     * `test_all_templates`: one report per listed name, success exactly when
     * every one succeeds, and the count of listed names (duplicates included).
     */
    method TestAllTemplates(entries: seq<string>, prompts: map<string, string>) returns (report: BatchReport)
      modifies service
      ensures report.templatesTested == |TemplateNames(entries)|
      ensures forall t :: t in report.results <==> t in TemplateNames(entries)
      ensures forall t :: t in report.results ==>
        report.results[t] == SyntaxReportFor(t, LookupTemplate(old(service.templates), prompts, t))
      ensures report.success <==> forall t :: t in report.results ==> report.results[t].Success()
      // every listed template that was not cached and resolves is now cached with its file's content
      ensures forall n :: n in service.templates <==>
        n in old(service.templates) || (n in TemplateNames(entries) && ResolveTemplate(prompts, n).Some?)
      ensures forall n :: n in service.templates ==>
        service.templates[n] == if n in old(service.templates) then old(service.templates)[n] else ResolveTemplate(prompts, n).value
      ensures forall n :: LookupTemplate(service.templates, prompts, n) == LookupTemplate(old(service.templates), prompts, n)
    {
      var names := service.ListTemplates(entries);
      assert |names| == |multiset(names)| == |multiset(TemplateNames(entries))| == |TemplateNames(entries)|;
      forall t ensures t in names <==> t in TemplateNames(entries) {
        assert t in names <==> t in multiset(names);
      }
      var results := TestEach(names, prompts);
      CacheAfterLoadsContents(old(service.templates), prompts, names);
      var allPassed := forall t | t in results :: results[t].Success();
      report := BatchReport(allPassed, |names|, results);
    }
  }
}
