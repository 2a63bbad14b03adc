/**
 * The workflow template registry. At start-up it reads the YAML files of
 * the templates directory in sorted file-name order, keeps every file that
 * describes a named plan (a later file with the same name replaces an
 * earlier one, a file that fails is skipped), records each template's
 * description, and then answers lookups, listings and the planner's prompt
 * section.
 *
 * The directory listing and the YAML loader are parameters: `listing` is
 * what the directory holds and `read(f)` the loaded document of file `f`,
 * or the loader's error.
 */
module Templates {
  import opened Wrappers
  import opened PyStr
  import opened Json
  import opened WorkflowSchema
  import opened Sorting

  // ---------------------------------------------------------------- parsing one file

  /** `step_data["id"]` and friends: a template step must spell out id, worker and task. */
  function TemplateStep(item: Json): (r: Option<WorkflowStep>)
    ensures r.Some? <==>
      item.JObj? && "id" in item.fields && item.fields["id"].JStr? &&
      "worker" in item.fields && item.fields["worker"].JStr? &&
      "task" in item.fields && item.fields["task"].JStr? &&
      AsStringList(Get(item.fields, "depends_on", JArr([]))).Some?
    ensures r.Some? ==>
      JStr(r.value.id) == item.fields["id"] && JStr(r.value.worker) == item.fields["worker"] &&
      JStr(r.value.task) == item.fields["task"] &&
      Some(r.value.dependsOn) == AsStringList(Get(item.fields, "depends_on", JArr([])))
  {
    if !item.JObj? then None
    else
      var f := item.fields;
      if "id" !in f || "worker" !in f || "task" !in f then None
      else if !f["id"].JStr? || !f["worker"].JStr? || !f["task"].JStr? then None
      else match AsStringList(Get(f, "depends_on", JArr([])))
        case None => None
        case Some(deps) => Some(WorkflowStep(f["id"].s, f["worker"].s, f["task"].s, deps))
  }

  /** The steps of a template, in file order; one bad entry spoils the file. */
  function TemplateSteps(items: seq<Json>): (r: Option<seq<WorkflowStep>>)
    ensures r.None? <==> exists i :: 0 <= i < |items| && TemplateStep(items[i]).None?
    ensures r.Some? ==> |r.value| == |items| && forall i :: 0 <= i < |items| ==> TemplateStep(items[i]) == Some(r.value[i])
  {
    if items == [] then Some([])
    else
      var n := |items| - 1;
      match TemplateSteps(items[..n])
      case None =>
        assert forall i :: 0 <= i < n ==> items[..n][i] == items[i];
        None
      case Some(steps) =>
        match TemplateStep(items[n])
        case None => None
        case Some(s) =>
          assert forall i :: 0 <= i < n ==> items[..n][i] == items[i];
          Some(steps + [s])
  }

  /** Python's `key in data`: dict keys, list members, substrings; other values raise. */
  function PyIn(key: string, data: Json): Result<bool, Json>
  {
    match data
    case JObj(m) => Ok(key in m)
    case JArr(xs) => Ok(JStr(key) in xs)
    case JStr(s) => Ok(Contains(s, key))
    case JNull => Err(data)
    case JBool(_) => Err(data)
    case JInt(_) => Err(data)
  }

  /** What one file contributes. */
  datatype Parsed = NoTemplate | Invalid | Template(plan: WorkflowPlan, description: Json)

  /**
   * `_parse_template` on a loaded file: a falsy document, or one without
   * `name` or `steps`, is no template; a document that makes Python raise
   * (the load itself, a non-mapping indexed by a key, a malformed step, a
   * non-string name) is invalid; otherwise the plan, whose reasoning names
   * the file, and the description (default `""`).
   */
  function ParseTemplate(filename: string, loaded: Result<Json, string>): (p: Parsed)
    ensures p.Template? ==> loaded.Ok? && loaded.value.JObj?
    ensures p.Template? ==> "name" in loaded.value.fields && loaded.value.fields["name"] == JStr(p.plan.name)
    ensures p.Template? ==> "steps" in loaded.value.fields
    ensures p.Template? ==> p.plan.reasoning == "Loaded from template: " + filename
    ensures p.Template? ==> p.description == Get(loaded.value.fields, "description", JStr(""))
    ensures p.Template? && loaded.value.fields["steps"].JArr? ==>
      TemplateSteps(loaded.value.fields["steps"].items) == Some(p.plan.steps)
    ensures loaded.Ok? && !Truthy(loaded.value) ==> p == NoTemplate
  {
    match loaded
    case Err(_) => Invalid
    case Ok(data) =>
      if !Truthy(data) then NoTemplate
      else match PyIn("name", data)
        case Err(_) => Invalid
        case Ok(hasName) =>
          if !hasName then NoTemplate
          else match PyIn("steps", data)
            case Err(_) => Invalid
            case Ok(hasSteps) =>
              if !hasSteps then NoTemplate
              else if !data.JObj? then Invalid
              else
                var items: Option<seq<Json>> :=
                  match data.fields["steps"]
                  case JArr(xs) => Some(xs)
                  case JStr(s) => if s == "" then Some([]) else None
                  case JObj(m) => if m == map[] then Some([]) else None
                  case _ => None;
                if items.None? then Invalid
                else match TemplateSteps(items.value)
                  case None => Invalid
                  case Some(steps) =>
                    var name := data.fields["name"];
                    if !name.JStr? then Invalid
                    else Template(WorkflowPlan(name.s, steps, "Loaded from template: " + filename),
                                  Get(data.fields, "description", JStr("")))
  }

  /** `filename.endswith((".yaml", ".yml"))`. */
  predicate IsYaml(filename: string)
  {
    EndsWith(filename, ".yaml") || EndsWith(filename, ".yml")
  }

  /** The template a directory entry yields, if any. */
  function FileTemplate(filename: string, read: string -> Result<Json, string>): (r: Parsed)
    ensures r.Template? ==> IsYaml(filename) && r == ParseTemplate(filename, read(filename))
  {
    if !IsYaml(filename) then NoTemplate
    else
      var p := ParseTemplate(filename, read(filename));
      if p.Template? then p else NoTemplate
  }

  // ---------------------------------------------------------------- the registry as a value

  /** The registry's dicts; `names` is the insertion order of `templates`. */
  datatype RegistryState = RegistryState(templates: map<string, WorkflowPlan>, names: seq<string>,
                                         descriptions: map<string, Json>)

  const EmptyRegistry := RegistryState(map[], [], map[])

  ghost predicate WellFormed(st: RegistryState)
  {
    (forall n :: n in st.names <==> n in st.templates) &&
    (forall i, j :: 0 <= i < j < |st.names| ==> st.names[i] != st.names[j])
  }

  /** `self._descriptions[name] = …` then `self._templates[name] = plan`; a new name goes last. */
  function Store(st: RegistryState, plan: WorkflowPlan, description: Json): RegistryState
  {
    RegistryState(st.templates[plan.name := plan],
                  if plan.name in st.templates then st.names else st.names + [plan.name],
                  st.descriptions[plan.name := description])
  }

  /** One iteration of the load loop. */
  function LoadFile(st: RegistryState, filename: string, read: string -> Result<Json, string>): RegistryState
  {
    match FileTemplate(filename, read)
    case Template(plan, description) => Store(st, plan, description)
    case _ => st
  }

  /** The load loop over the files in visiting order. */
  function LoadFiles(st: RegistryState, files: seq<string>, read: string -> Result<Json, string>): RegistryState
  {
    if files == [] then st
    else LoadFile(LoadFiles(st, files[..|files| - 1], read), files[|files| - 1], read)
  }

  lemma LoadFilesStep(st: RegistryState, files: seq<string>, i: nat, read: string -> Result<Json, string>)
    requires i < |files|
    ensures LoadFiles(st, files[..i + 1], read) == LoadFile(LoadFiles(st, files[..i], read), files[i], read)
  {
    assert files[..i + 1][..i] == files[..i];
  }

  lemma StoreWellFormed(st: RegistryState, plan: WorkflowPlan, description: Json)
    requires WellFormed(st)
    ensures WellFormed(Store(st, plan, description))
  {
  }

  lemma {:induction false} LoadFilesWellFormed(st: RegistryState, files: seq<string>, read: string -> Result<Json, string>)
    requires WellFormed(st)
    ensures WellFormed(LoadFiles(st, files, read))
  {
    if files != [] {
      var prev := LoadFiles(st, files[..|files| - 1], read);
      LoadFilesWellFormed(st, files[..|files| - 1], read);
      var p := FileTemplate(files[|files| - 1], read);
      if p.Template? {
        StoreWellFormed(prev, p.plan, p.description);
      }
    }
  }

  /**
   * The last file that defines a name wins: its plan and description are
   * what the registry holds under that name, whatever came before and
   * whichever files failed.
   */
  lemma {:induction false} LoadLastWins(st: RegistryState, files: seq<string>, read: string -> Result<Json, string>, i: nat)
    requires i < |files| && FileTemplate(files[i], read).Template?
    requires forall j :: i < j < |files| && FileTemplate(files[j], read).Template? ==>
      FileTemplate(files[j], read).plan.name != FileTemplate(files[i], read).plan.name
    ensures var p := FileTemplate(files[i], read);
      p.plan.name in LoadFiles(st, files, read).templates &&
      LoadFiles(st, files, read).templates[p.plan.name] == p.plan &&
      p.plan.name in LoadFiles(st, files, read).descriptions &&
      LoadFiles(st, files, read).descriptions[p.plan.name] == p.description
  {
    var n := |files| - 1;
    var prefix := files[..n];
    if i < n {
      assert forall j :: i < j < n ==> prefix[j] == files[j];
      LoadLastWins(st, prefix, read, i);
      assert prefix[i] == files[i];
    }
  }

  /** Every stored template either was there before or comes from one of the files. */
  lemma {:induction false} LoadProvenance(st: RegistryState, files: seq<string>, read: string -> Result<Json, string>, name: string)
    requires name in LoadFiles(st, files, read).templates
    ensures (name in st.templates && LoadFiles(st, files, read).templates[name] == st.templates[name]) ||
            exists i :: 0 <= i < |files| && FileTemplate(files[i], read).Template? &&
                        FileTemplate(files[i], read).plan == LoadFiles(st, files, read).templates[name]
  {
    if files != [] {
      var n := |files| - 1;
      var prefix := files[..n];
      var p := FileTemplate(files[n], read);
      if p.Template? && p.plan.name == name {
      } else {
        LoadProvenance(st, prefix, read, name);
        if !(name in st.templates && LoadFiles(st, prefix, read).templates[name] == st.templates[name]) {
          var i :| 0 <= i < n && FileTemplate(prefix[i], read).Template? &&
                   FileTemplate(prefix[i], read).plan == LoadFiles(st, prefix, read).templates[name];
          assert prefix[i] == files[i];
        }
      }
    }
  }

  /** Every loaded template was read from a `.yaml` or `.yml` file and says which. */
  lemma LoadedFromYaml(files: seq<string>, read: string -> Result<Json, string>, name: string)
    requires name in LoadFiles(EmptyRegistry, files, read).templates
    ensures exists f :: (f in files && IsYaml(f) &&
                         LoadFiles(EmptyRegistry, files, read).templates[name].reasoning == "Loaded from template: " + f)
  {
    LoadProvenance(EmptyRegistry, files, read, name);
    var i :| 0 <= i < |files| && FileTemplate(files[i], read).Template? &&
             FileTemplate(files[i], read).plan == LoadFiles(EmptyRegistry, files, read).templates[name];
    assert files[i] in files;
  }

  // ---------------------------------------------------------------- listing and prompt

  datatype TemplateInfo = TemplateInfo(name: string, description: Json)

  const NoTemplatesMessage: string := "No predefined workflow templates available."
  const TemplatesHeader: string := "## Available Workflow Templates"
  const Arrow: string := " \U{2192} "

  /** `f"{s.worker}({s.id})"` joined by arrows. */
  function WorkerSequence(steps: seq<WorkflowStep>): string
  {
    Join(Arrow, seq(|steps|, i requires 0 <= i < |steps| => steps[i].worker + "(" + steps[i].id + ")"))
  }

  function TemplateLine(name: string, description: Json, containerText: Json -> string): string
  {
    "- **" + name + "**: " + Text(description, containerText)
  }

  function FlowLine(plan: WorkflowPlan): string
  {
    "  Flow: " + WorkerSequence(plan.steps)
  }

  /** The two prompt lines of each listed template, in order. */
  function TemplateLines(st: RegistryState, names: seq<string>, containerText: Json -> string): (lines: seq<string>)
    requires forall n :: n in names ==> n in st.templates
    ensures |lines| == 2 * |names|
  {
    if names == [] then []
    else
      var n := names[0];
      [TemplateLine(n, Get(st.descriptions, n, JStr("")), containerText), FlowLine(st.templates[n])]
        + TemplateLines(st, names[1..], containerText)
  }

  /** Template `k` owns lines `2k` and `2k + 1`. */
  lemma {:induction false} TemplateLinesAt(st: RegistryState, names: seq<string>, containerText: Json -> string, k: nat)
    requires forall n :: n in names ==> n in st.templates
    requires k < |names|
    ensures TemplateLines(st, names, containerText)[2 * k] ==
            TemplateLine(names[k], Get(st.descriptions, names[k], JStr("")), containerText)
    ensures TemplateLines(st, names, containerText)[2 * k + 1] == FlowLine(st.templates[names[k]])
  {
    var n := names[0];
    var tail := TemplateLines(st, names[1..], containerText);
    assert TemplateLines(st, names, containerText) ==
      [TemplateLine(n, Get(st.descriptions, n, JStr("")), containerText), FlowLine(st.templates[n])] + tail;
    if k > 0 {
      TemplateLinesAt(st, names[1..], containerText, k - 1);
    }
  }

  /** `list_templates`: one entry per template, in insertion order, description defaulting to `""`. */
  function Listing(st: RegistryState): (r: seq<TemplateInfo>)
    ensures |r| == |st.names|
    ensures forall i :: 0 <= i < |st.names| ==>
      r[i].name == st.names[i] && r[i].description == Get(st.descriptions, st.names[i], JStr(""))
  {
    seq(|st.names|, i requires 0 <= i < |st.names| => TemplateInfo(st.names[i], Get(st.descriptions, st.names[i], JStr(""))))
  }

  /** The listing names every template exactly once. */
  lemma ListingExact(st: RegistryState, name: string)
    requires WellFormed(st)
    ensures name in st.templates <==> exists i :: 0 <= i < |Listing(st)| && Listing(st)[i].name == name
    ensures forall i, j :: 0 <= i < j < |Listing(st)| ==> Listing(st)[i].name != Listing(st)[j].name
  {
    if name in st.templates {
      var i :| 0 <= i < |st.names| && st.names[i] == name;
      assert Listing(st)[i].name == name;
    }
  }

  /** `get_templates_prompt`. */
  function Prompt(st: RegistryState, containerText: Json -> string): string
    requires WellFormed(st)
  {
    if st.templates == map[] then NoTemplatesMessage
    else Join("\n", [TemplatesHeader] + TemplateLines(st, st.names, containerText))
  }

  /** Without templates the prompt says so; otherwise it opens with the section header. */
  lemma PromptHeader(st: RegistryState, containerText: Json -> string)
    requires WellFormed(st)
    ensures st.templates == map[] ==> Prompt(st, containerText) == NoTemplatesMessage
    ensures st.templates != map[] ==> StartsWith(Prompt(st, containerText), TemplatesHeader)
  {
    if st.templates != map[] {
      var n :| n in st.templates;
      assert n in st.names;
      var rest := TemplateLines(st, st.names, containerText);
      JoinCons("\n", TemplatesHeader, rest);
    }
  }

  lemma PromptContainsLine(st: RegistryState, containerText: Json -> string, i: nat)
    requires WellFormed(st) && st.templates != map[]
    requires i < 2 * |st.names|
    ensures Contains(Prompt(st, containerText), TemplateLines(st, st.names, containerText)[i])
  {
    var rest := TemplateLines(st, st.names, containerText);
    var lines := [TemplatesHeader] + rest;
    assert lines[i + 1] == rest[i];
    JoinContainsPart("\n", lines, i + 1);
  }

  /** The prompt has a line for every template, with its description, and its flow line. */
  lemma PromptMentionsTemplate(st: RegistryState, name: string, containerText: Json -> string)
    requires WellFormed(st) && name in st.templates
    ensures Contains(Prompt(st, containerText), TemplateLine(name, Get(st.descriptions, name, JStr("")), containerText))
    ensures Contains(Prompt(st, containerText), FlowLine(st.templates[name]))
  {
    var k :| 0 <= k < |st.names| && st.names[k] == name;
    TemplateLinesAt(st, st.names, containerText, k);
    PromptContainsLine(st, containerText, 2 * k);
    PromptContainsLine(st, containerText, 2 * k + 1);
  }

  /** The prompt mentions every stored template. */
  lemma PromptMentionsAll(st: RegistryState, containerText: Json -> string)
    requires WellFormed(st)
    ensures forall name :: name in st.templates ==>
      Contains(Prompt(st, containerText), TemplateLine(name, Get(st.descriptions, name, JStr("")), containerText)) &&
      Contains(Prompt(st, containerText), FlowLine(st.templates[name]))
  {
    forall name | name in st.templates
      ensures Contains(Prompt(st, containerText), TemplateLine(name, Get(st.descriptions, name, JStr("")), containerText))
      ensures Contains(Prompt(st, containerText), FlowLine(st.templates[name]))
    {
      PromptMentionsTemplate(st, name, containerText);
    }
  }

  class TemplateRegistry {
    var templates: map<string, WorkflowPlan>
    var names: seq<string>
    var descriptions: map<string, Json>

    function State(): RegistryState
      reads this
    {
      RegistryState(templates, names, descriptions)
    }

    ghost predicate Valid()
      reads this
    {
      WellFormed(State())
    }

    /** `__init__`: start empty, then load the templates directory. */
    constructor (dirExists: bool, listing: seq<string>, read: string -> Result<Json, string>)
      ensures Valid()
      ensures dirExists ==> State() == LoadFiles(EmptyRegistry, SortedStrings(listing), read)
      ensures !dirExists ==> State() == EmptyRegistry
    {
      templates := map[];
      names := [];
      descriptions := map[];
      new;
      LoadTemplates(dirExists, listing, read);
    }

    /**
     * `_load_templates`: a missing directory loads nothing; otherwise every
     * directory entry is visited in sorted order and each YAML file that
     * yields a template is stored.
     */
    method LoadTemplates(dirExists: bool, listing: seq<string>, read: string -> Result<Json, string>)
      requires Valid()
      modifies this
      ensures Valid()
      ensures dirExists ==> State() == LoadFiles(old(State()), SortedStrings(listing), read)
      ensures !dirExists ==> State() == old(State())
    {
      if !dirExists {
        return;
      }
      var files := SortedStrings(listing);
      ghost var start := State();
      var i := 0;
      while i < |files|
        invariant 0 <= i <= |files|
        invariant State() == LoadFiles(start, files[..i], read)
        invariant Valid()
      {
        LoadFilesStep(start, files, i, read);
        ghost var before := State();
        var filename := files[i];
        if IsYaml(filename) {
          var parsed := ParseTemplate(filename, read(filename));
          if parsed.Template? {
            var plan := parsed.plan;
            descriptions := descriptions[plan.name := parsed.description];
            if plan.name !in templates {
              names := names + [plan.name];
            }
            templates := templates[plan.name := plan];
            assert State() == Store(before, plan, parsed.description);
            StoreWellFormed(before, plan, parsed.description);
          }
        }
        i := i + 1;
      }
      assert files[..i] == files;
    }

    /** `get`: the stored plan, or none. */
    function Lookup(name: string): (r: Option<WorkflowPlan>)
      reads this
      ensures r.Some? <==> name in templates
      ensures r.Some? ==> r.value == templates[name]
    {
      if name in templates then Some(templates[name]) else None
    }

    /**
     * `list_templates`: one entry per stored name, in insertion order, with
     * its description or `""`; in a well-formed registry these are exactly
     * the stored templates.
     */
    function ListTemplates(): (r: seq<TemplateInfo>)
      reads this
      ensures |r| == |names|
      ensures forall i :: 0 <= i < |r| ==>
        r[i].name == names[i] && r[i].description == Get(descriptions, names[i], JStr(""))
      ensures Valid() ==> forall name :: name in templates <==> exists i :: 0 <= i < |r| && r[i].name == name
    {
      Listing(State())
    }

    /**
     * `get_templates_prompt`: the "none available" text without templates;
     * otherwise the section header first, then each template's line and
     * flow line.
     */
    function TemplatesPrompt(containerText: Json -> string): (r: string)
      reads this
      requires Valid()
      ensures templates == map[] ==> r == NoTemplatesMessage
      ensures templates != map[] ==> StartsWith(r, TemplatesHeader)
      ensures forall name :: name in templates ==>
        Contains(r, TemplateLine(name, Get(descriptions, name, JStr("")), containerText)) &&
        Contains(r, FlowLine(templates[name]))
    {
      PromptHeader(State(), containerText);
      PromptMentionsAll(State(), containerText);
      Prompt(State(), containerText)
    }
  }
}
