/**
 * The skill registry: skills read from markdown files with a `---`
 * frontmatter, kept in a dictionary by name, listed in the system prompt
 * and loaded on demand by the `load_skill` tool. Auto-generated skills are
 * written back to files that the parser reads again.
 *
 * The file system is not modelled: a directory is the list of its entries
 * with their text, and writing or removing a file is an output of the
 * operation that would do it.
 */
module SkillsRegistry {
  import opened Wrappers
  import opened PyStr
  import opened SkillFormat

  // ---------------------------------------------------------------- reading a skill file

  /**
   * What reading one skill file gives: a skill; nothing (the file is
   * logged and skipped); or the `ValueError` of `int()` on a malformed
   * version, which the loader catches and logs.
   */
  datatype FileParse = Loaded(skill: Skill) | NotASkill | BadVersion

  /**
   * The skill the frontmatter metadata and the body describe. Name and
   * description are required and non-empty; `version` defaults to 1,
   * `source` to the directory's default and `auto_generated` to false.
   */
  function FromMetadata(metadata: map<string, string>, body: string, defaultSource: string): (r: FileParse)
    ensures r.NotASkill? <==> !HasRequired(metadata)
    ensures r.BadVersion? <==> !r.NotASkill? && ParseInt(Lookup(metadata, "version", "1")).None?
    ensures r.Loaded? ==>
      r.skill.name == metadata["name"] && r.skill.description == metadata["description"] &&
      r.skill.content == body && r.skill.tags == Tags(Lookup(metadata, "tags", "")) &&
      Some(r.skill.version) == ParseInt(Lookup(metadata, "version", "1")) &&
      r.skill.createdAt.None? && r.skill.updatedAt.None?
    ensures r.Loaded? && "version" !in metadata ==> r.skill.version == 1
    ensures r.Loaded? ==> r.skill.source == if "source" in metadata then metadata["source"] else defaultSource
    ensures r.Loaded? ==> (r.skill.autoGenerated <==> "auto_generated" in metadata && Lower(metadata["auto_generated"]) == "true")
  {
    ParseIntOne();
    LowerFalse();
    if !HasRequired(metadata) then
      NotASkill
    else
      match ParseInt(Lookup(metadata, "version", "1"))
      case None => BadVersion
      case Some(v) =>
        Loaded(Skill(
          metadata["name"],
          metadata["description"],
          body,
          Tags(Lookup(metadata, "tags", "")),
          v,
          Lookup(metadata, "source", defaultSource),
          Lower(Lookup(metadata, "auto_generated", "false")) == "true",
          None,
          None))
  }

  lemma ParseIntOne()
    ensures ParseInt("1") == Some(1)
  {
    assert IntToString(1) == "1";
    ParseIntOfIntToString(1);
  }

  lemma LowerFalse()
    ensures Lower("false") != "true"
  {
    assert |Lower("false")| == 5;
  }

  /**
   * `_parse_skill_file` on the text of a file: nothing unless the text
   * starts with a fence and has a closing one; then the metadata of the
   * frontmatter lines and the stripped body make the skill.
   */
  function ParseSkillText(content: string, defaultSource: string): (r: FileParse)
    ensures !StartsWith(content, Fence) ==> r == NotASkill
    ensures r.Loaded? ==>
      r.skill.name != "" && r.skill.description != "" && IsStripped(r.skill.content) &&
      (forall i :: 0 <= i < |r.skill.tags| ==> r.skill.tags[i] != "" && IsStripped(r.skill.tags[i]))
  {
    match SplitDocument(content)
    case None => NotASkill
    case Some((front, body)) => FromMetadata(Metadata(Split(front, "\n")), body, defaultSource)
  }

  /** The parser as the loader runs it: the frontmatter lines are read one by one. */
  method ParseSkillFile(content: string, defaultSource: string) returns (r: FileParse)
    ensures r == ParseSkillText(content, defaultSource)
  {
    var doc := SplitDocument(content);
    if doc.None? {
      return NotASkill;
    }
    var metadata := ReadMetadata(Split(doc.value.0, "\n"));
    r := FromMetadata(metadata, doc.value.1, defaultSource);
  }

  // ---------------------------------------------------------------- writing a skill file

  /** `", ".join(tags) if tags else ""`. */
  function TagLine(tags: seq<string>): string
  {
    if tags != [] then Join(", ", tags) else ""
  }

  /** The frontmatter line `f"{key}: {value}"`. */
  function Field(key: string, value: string): string
  {
    key + ": " + value
  }

  /** The frontmatter lines between the two fences of a saved skill. */
  function InnerLines(s: Skill): seq<string>
  {
    [Field("name", s.name),
     Field("description", s.description),
     Field("tags", TagLine(s.tags)),
     Field("version", IntToString(s.version)),
     Field("source", s.source),
     Field("auto_generated", "true")]
  }

  /** `_save_skill_to_file`: the text written to `_auto/{name}.md`. */
  function SkillFileText(s: Skill): string
  {
    Join("\n", [Fence] + InnerLines(s) + [Fence]) + "\n\n" + s.content + "\n"
  }

  /** A value that fits on one frontmatter line and reads back unchanged. */
  predicate SingleLine(v: string)
  {
    IsStripped(v) && '\n' !in v && !Contains(v, Fence)
  }

  /**
   * The skills the file format can carry: non-empty name and description,
   * one-line fields without a fence, tags without commas, and content
   * without surrounding whitespace.
   */
  predicate Writable(s: Skill)
  {
    s.name != "" && s.description != "" &&
    SingleLine(s.name) && SingleLine(s.description) && SingleLine(s.source) &&
    (forall i :: 0 <= i < |s.tags| ==> WritableTag(s.tags[i]) && SingleLine(s.tags[i])) &&
    IsStripped(s.content)
  }

  /**
   * A saved skill reads back with the same name, description, content,
   * tags, version and source, marked auto-generated and without
   * timestamps, whatever default source the directory gives.
   */
  lemma SavedSkillReadsBack(s: Skill, defaultSource: string)
    requires Writable(s)
    ensures ParseSkillText(SkillFileText(s), defaultSource) ==
      Loaded(s.(autoGenerated := true, createdAt := None, updatedAt := None))
  {
    var front := Join("\n", InnerLines(s));
    DocumentOfSaved(s);
    FrontFacts(s);
    MetadataOfInner(s);
    FromWrittenMetadata(s, defaultSource);
    ParseOfDocument(SkillFileText(s), front, s.content, defaultSource);
  }

  lemma ParseOfDocument(text: string, front: string, body: string, defaultSource: string)
    requires SplitDocument(text) == Some((front, body))
    ensures ParseSkillText(text, defaultSource) == FromMetadata(Metadata(Split(front, "\n")), body, defaultSource)
  {
  }

  /** The saved text splits into the frontmatter lines, joined, and the content. */
  lemma DocumentOfSaved(s: Skill)
    requires Writable(s)
    ensures SplitDocument(SkillFileText(s)) == Some((Join("\n", InnerLines(s)), s.content))
  {
    var front := Join("\n", InnerLines(s));
    var tail := "\n\n" + s.content + "\n";
    FileShape(s);
    FrontFacts(s);
    SplitDocumentOf(front, tail);
    PaddedFront(front);
    PaddedContent(s.content);
  }

  lemma PaddedFront(front: string)
    requires IsStripped(front)
    ensures Strip("\n" + front + "\n") == front
  {
    StripPadded("\n", front, "\n");
  }

  lemma PaddedContent(content: string)
    requires IsStripped(content)
    ensures Strip("\n\n" + content + "\n") == content
  {
    StripPadded("\n\n", content, "\n");
  }

  /** The saved text is the fenced frontmatter followed by the padded content. */
  lemma FileShape(s: Skill)
    ensures SkillFileText(s) ==
      Fence + "\n" + Join("\n", InnerLines(s)) + "\n" + Fence + ("\n\n" + s.content + "\n")
  {
    FencedJoin(InnerLines(s));
  }

  /** Lines between two fences, joined by newlines. */
  lemma FencedJoin(inner: seq<string>)
    requires inner != []
    ensures Join("\n", [Fence] + inner + [Fence]) == Fence + "\n" + Join("\n", inner) + "\n" + Fence
  {
    assert [Fence] + inner + [Fence] == [Fence] + (inner + [Fence]);
    JoinCons("\n", Fence, inner + [Fence]);
    JoinAppend("\n", inner, Fence);
  }

  /** The frontmatter of a saved skill: stripped, fence-free and split back into its lines. */
  lemma FrontFacts(s: Skill)
    requires Writable(s)
    ensures IsStripped(Join("\n", InnerLines(s)))
    ensures !Contains("\n" + Join("\n", InnerLines(s)), Fence)
    ensures Split(Join("\n", InnerLines(s)), "\n") == InnerLines(s)
  {
    var inner := InnerLines(s);
    InnerLinesFree(s);
    LinesFacts(inner);
    InnerEnds(s);
  }

  lemma LinesFacts(lines: seq<string>)
    requires |lines| >= 1
    requires forall i :: 0 <= i < |lines| ==> '\n' !in lines[i] && !Contains(lines[i], Fence)
    ensures !Contains("\n" + Join("\n", lines), Fence)
    ensures Split(Join("\n", lines), "\n") == lines
  {
    JoinLinesFenceFree(lines);
    AfterNewline(Join("\n", lines));
    SplitLines(lines);
  }

  lemma AfterNewline(front: string)
    requires !Contains(front, Fence)
    ensures !Contains("\n" + front, Fence)
  {
    NoOccurrenceInShort("", Fence);
    NoOccurrenceAcross("", '\n', front, Fence);
    assert "" + ['\n'] + front == "\n" + front;
  }

  /** The frontmatter starts with `name` and ends with `true`. */
  lemma InnerEnds(s: Skill)
    ensures IsStripped(Join("\n", InnerLines(s)))
  {
    var inner := InnerLines(s);
    JoinEnds(inner, 'n', 'e');
  }

  lemma JoinEnds(lines: seq<string>, first: char, last: char)
    requires |lines| == 6 && lines[0] != [] && lines[5] != []
    requires lines[0][0] == first && lines[5][|lines[5]| - 1] == last
    ensures Join("\n", lines) != [] && Join("\n", lines)[0] == first
    ensures Join("\n", lines)[|Join("\n", lines)| - 1] == last
  {
    var front := Join("\n", lines);
    JoinCons("\n", lines[0], lines[1..]);
    HeadTail(lines);
    assert lines[..5] + [lines[5]] == lines;
    JoinAppend("\n", lines[..5], lines[5]);
  }

  /** No frontmatter line of a saved skill holds a newline or a fence. */
  lemma InnerLinesFree(s: Skill)
    requires Writable(s)
    ensures forall i :: 0 <= i < |InnerLines(s)| ==> '\n' !in InnerLines(s)[i] && !Contains(InnerLines(s)[i], Fence)
  {
    var inner := InnerLines(s);
    TagLineFacts(s.tags);
    IntTextFacts(s.version);
    DashFree("true");
    FieldsFree("name", s.name, "description", s.description, "tags", TagLine(s.tags),
      "version", IntToString(s.version), "source", s.source, "auto_generated", "true");
  }

  lemma FieldsFree(k0: string, v0: string, k1: string, v1: string, k2: string, v2: string,
                   k3: string, v3: string, k4: string, v4: string, k5: string, v5: string)
    requires '-' !in k0 && '-' !in k1 && '-' !in k2 && '-' !in k3 && '-' !in k4 && '-' !in k5
    requires '\n' !in k0 && '\n' !in k1 && '\n' !in k2 && '\n' !in k3 && '\n' !in k4 && '\n' !in k5
    requires '\n' !in v0 && '\n' !in v1 && '\n' !in v2 && '\n' !in v3 && '\n' !in v4 && '\n' !in v5
    requires !Contains(v0, Fence) && !Contains(v1, Fence) && !Contains(v2, Fence)
    requires !Contains(v3, Fence) && !Contains(v4, Fence) && !Contains(v5, Fence)
    ensures var lines := [Field(k0, v0), Field(k1, v1), Field(k2, v2), Field(k3, v3), Field(k4, v4), Field(k5, v5)];
      forall i :: 0 <= i < |lines| ==> '\n' !in lines[i] && !Contains(lines[i], Fence)
  {
    LineFree(k0, v0);
    LineFree(k1, v1);
    LineFree(k2, v2);
    LineFree(k3, v3);
    LineFree(k4, v4);
    LineFree(k5, v5);
  }

  /** A line `key: value` holds a newline or a fence only if the value does. */
  lemma LineFree(key: string, value: string)
    requires '-' !in key && '\n' !in key
    requires '\n' !in value && !Contains(value, Fence)
    ensures '\n' !in Field(key, value) && !Contains(Field(key, value), Fence)
  {
    DashFree(key + ":");
    NoOccurrenceAcross(key + ":", ' ', value, Fence);
    assert key + ":" + [' '] + value == key + ": " + value;
  }

  /** The written tag line is a one-line value. */
  lemma TagLineFacts(tags: seq<string>)
    requires forall i :: 0 <= i < |tags| ==> WritableTag(tags[i]) && SingleLine(tags[i])
    ensures SingleLine(TagLine(tags))
  {
    if tags == [] {
      NoOccurrenceInShort("", Fence);
    } else {
      JoinedTagsFacts(tags);
    }
  }

  lemma {:induction false} JoinedTagsFacts(tags: seq<string>)
    requires |tags| >= 1
    requires forall i :: 0 <= i < |tags| ==> WritableTag(tags[i]) && SingleLine(tags[i])
    ensures Join(", ", tags) != "" && SingleLine(Join(", ", tags))
  {
    var t := tags[0];
    assert WritableTag(t) && SingleLine(t);
    if |tags| > 1 {
      var j := Join(", ", tags[1..]);
      JoinedTagsFacts(tags[1..]);
      var s := Join(", ", tags);
      assert s == t + ", " + j;
      assert s[0] == t[0];
      assert s[|s| - 1] == j[|j| - 1];
      NoOccurrenceInShort("", Fence);
      NoOccurrenceAcross("", ' ', j, Fence);
      assert "" + [' '] + j == " " + j;
      NoOccurrenceAcross(t, ',', " " + j, Fence);
      assert t + [','] + (" " + j) == s;
    }
  }

  /** `str(n)` is a one-line value. */
  lemma IntTextFacts(n: int)
    ensures SingleLine(IntToString(n))
  {
    var m: nat := if n < 0 then -n else n;
    var d := NatToString(m);
    if n < 0 {
      NegativeText(d);
      assert IntToString(n) == "-" + d;
    } else {
      DigitsText(d);
    }
  }

  lemma DigitsText(d: string)
    requires d != [] && AllDigits(d)
    ensures SingleLine(d)
  {
    DigitsStripped("", d);
    assert "" + d == d;
    assert forall i :: 0 <= i < |d| ==> IsDigit(d[i]);
    DashFree(d);
  }

  lemma NegativeText(d: string)
    requires d != [] && AllDigits(d)
    ensures SingleLine("-" + d)
  {
    var s := "-" + d;
    DigitsStripped("-", d);
    assert forall i :: 0 <= i < |d| ==> IsDigit(d[i]);
    forall j | 0 <= j
      ensures !OccursAt(s, Fence, j)
    {
      if j + 3 <= |s| {
        assert s[j..j + 3][1] == s[j + 1] == d[j];
      }
    }
  }

  /** The metadata of a saved skill's frontmatter lines. */
  function WrittenMetadata(s: Skill): map<string, string>
  {
    map[]["name" := s.name]["description" := s.description]["tags" := TagLine(s.tags)]
         ["version" := IntToString(s.version)]["source" := s.source]["auto_generated" := "true"]
  }

  lemma MetadataOfInner(s: Skill)
    requires Writable(s)
    ensures Metadata(InnerLines(s)) == WrittenMetadata(s)
  {
    var inner := InnerLines(s);
    TagLineFacts(s.tags);
    IntTextFacts(s.version);
    MetadataSix("name", s.name, "description", s.description, "tags", TagLine(s.tags),
      "version", IntToString(s.version), "source", s.source, "auto_generated", "true");
  }

  /** Six `key: value` lines give the map their entries make in turn. */
  lemma MetadataSix(k0: string, v0: string, k1: string, v1: string, k2: string, v2: string,
                    k3: string, v3: string, k4: string, v4: string, k5: string, v5: string)
    requires ':' !in k0 && ':' !in k1 && ':' !in k2 && ':' !in k3 && ':' !in k4 && ':' !in k5
    requires IsStripped(k0) && IsStripped(k1) && IsStripped(k2) && IsStripped(k3) && IsStripped(k4) && IsStripped(k5)
    requires IsStripped(v0) && IsStripped(v1) && IsStripped(v2) && IsStripped(v3) && IsStripped(v4) && IsStripped(v5)
    ensures Metadata([Field(k0, v0), Field(k1, v1), Field(k2, v2), Field(k3, v3), Field(k4, v4), Field(k5, v5)]) ==
      map[][k0 := v0][k1 := v1][k2 := v2][k3 := v3][k4 := v4][k5 := v5]
  {
    var l0, l1, l2, l3, l4, l5 := Field(k0, v0), Field(k1, v1), Field(k2, v2), Field(k3, v3), Field(k4, v4), Field(k5, v5);
    LineEntryOf(k0, v0);
    LineEntryOf(k1, v1);
    LineEntryOf(k2, v2);
    LineEntryOf(k3, v3);
    LineEntryOf(k4, v4);
    LineEntryOf(k5, v5);
    Appends(l0, l1, l2, l3, l4, l5);
    MetadataAppend([], l0);
    MetadataAppend([l0], l1);
    MetadataAppend([l0, l1], l2);
    MetadataAppend([l0, l1, l2], l3);
    MetadataAppend([l0, l1, l2, l3], l4);
    MetadataAppend([l0, l1, l2, l3, l4], l5);
  }

  lemma Appends<T>(a: T, b: T, c: T, d: T, e: T, f: T)
    ensures [] + [a] == [a] && [a] + [b] == [a, b] && [a, b] + [c] == [a, b, c]
    ensures [a, b, c] + [d] == [a, b, c, d] && [a, b, c, d] + [e] == [a, b, c, d, e]
    ensures [a, b, c, d, e] + [f] == [a, b, c, d, e, f]
  {
  }

  lemma FromWrittenMetadata(s: Skill, defaultSource: string)
    requires Writable(s)
    ensures FromMetadata(WrittenMetadata(s), s.content, defaultSource) ==
      Loaded(s.(autoGenerated := true, createdAt := None, updatedAt := None))
  {
    WrittenLookups(s);
    ParseIntOfIntToString(s.version);
    TagsOfJoin(s.tags);
    LowerTrue();
    FromMetadataLoaded(WrittenMetadata(s), s.content, defaultSource,
      s.(autoGenerated := true, createdAt := None, updatedAt := None));
  }

  lemma LowerTrue()
    ensures Lower("true") == "true"
  {
  }

  lemma WrittenLookups(s: Skill)
    ensures var m := WrittenMetadata(s);
      "name" in m && m["name"] == s.name && "description" in m && m["description"] == s.description &&
      "tags" in m && m["tags"] == TagLine(s.tags) && "version" in m && m["version"] == IntToString(s.version) &&
      "source" in m && m["source"] == s.source && "auto_generated" in m && m["auto_generated"] == "true"
  {
  }

  lemma FromMetadataLoaded(m: map<string, string>, body: string, defaultSource: string, s: Skill)
    requires "name" in m && m["name"] == s.name != "" && "description" in m && m["description"] == s.description != ""
    requires "tags" in m && Tags(m["tags"]) == s.tags
    requires "version" in m && ParseInt(m["version"]) == Some(s.version)
    requires "source" in m && m["source"] == s.source
    requires "auto_generated" in m && (Lower(m["auto_generated"]) == "true" <==> s.autoGenerated)
    requires s.content == body && s.createdAt.None? && s.updatedAt.None?
    ensures FromMetadata(m, body, defaultSource) == Loaded(s)
  {
  }

  // ---------------------------------------------------------------- the registry's dictionary

  /**
   * The `_skills` dictionary: skills by name, and the names in insertion
   * order, the order in which `values()` yields them. Replacing the value
   * of a present key keeps its place; `pop` removes it.
   */
  datatype SkillTable = SkillTable(skills: map<string, Skill>, order: seq<string>)

  const EmptyTable := SkillTable(map[], [])

  predicate Distinct(names: seq<string>)
  {
    forall i, j :: 0 <= i < j < |names| ==> names[i] != names[j]
  }

  /** The dictionary is keyed by skill name, and its order lists each key once. */
  ghost predicate TableInv(t: SkillTable)
  {
    (forall k :: k in t.skills <==> k in t.order) &&
    Distinct(t.order) &&
    (forall k :: k in t.skills ==> t.skills[k].name == k)
  }

  /** `self._skills[skill.name] = skill`. */
  function Put(t: SkillTable, s: Skill): (r: SkillTable)
    ensures r.skills == t.skills[s.name := s]
    ensures s.name in t.skills ==> r.order == t.order
    ensures s.name !in t.skills ==> r.order == t.order + [s.name]
  {
    SkillTable(t.skills[s.name := s], if s.name in t.skills then t.order else t.order + [s.name])
  }

  /** `self._skills.pop(name)`. */
  function Remove(t: SkillTable, name: string): (r: SkillTable)
    ensures r.skills == t.skills - {name}
    ensures forall k :: k in r.order <==> k in t.order && k != name
  {
    SkillTable(t.skills - {name}, Without(t.order, name))
  }

  /** The names other than `name`, in their order. */
  function Without(names: seq<string>, name: string): (r: seq<string>)
    ensures forall k :: k in r <==> k in names && k != name
    ensures |r| <= |names|
  {
    if names == [] then []
    else (if names[0] == name then [] else [names[0]]) + Without(names[1..], name)
  }

  lemma {:induction false} WithoutDistinct(names: seq<string>, name: string)
    requires Distinct(names)
    ensures Distinct(Without(names, name))
  {
    if names != [] {
      var rest := Without(names[1..], name);
      assert Distinct(names[1..]) by {
        forall i, j | 0 <= i < j < |names| - 1
          ensures names[1..][i] != names[1..][j]
        {
          assert names[1..][i] == names[i + 1] && names[1..][j] == names[j + 1];
        }
      }
      WithoutDistinct(names[1..], name);
      if names[0] != name {
        assert names[0] !in names[1..] by {
          forall j | 0 <= j < |names| - 1
            ensures names[1..][j] != names[0]
          {
            assert names[1..][j] == names[j + 1];
          }
        }
        assert names[0] !in rest;
        DistinctCons(names[0], rest);
      }
    }
  }

  lemma DistinctCons(x: string, names: seq<string>)
    requires Distinct(names) && x !in names
    ensures Distinct([x] + names)
  {
    var s := [x] + names;
    forall i, j | 0 <= i < j < |s|
      ensures s[i] != s[j]
    {
      assert s[j] == names[j - 1];
      if i > 0 {
        assert s[i] == names[i - 1];
      }
    }
  }

  lemma DistinctSnoc(names: seq<string>, x: string)
    requires Distinct(names) && x !in names
    ensures Distinct(names + [x])
  {
    var s := names + [x];
    forall i, j | 0 <= i < j < |s|
      ensures s[i] != s[j]
    {
      assert s[i] == names[i];
      if j < |names| {
        assert s[j] == names[j];
      }
    }
  }

  lemma PutKeepsInv(t: SkillTable, s: Skill)
    requires TableInv(t)
    ensures TableInv(Put(t, s))
  {
    if s.name !in t.skills {
      DistinctSnoc(t.order, s.name);
    }
  }

  lemma RemoveKeepsInv(t: SkillTable, name: string)
    requires TableInv(t)
    ensures TableInv(Remove(t, name))
  {
    WithoutDistinct(t.order, name);
  }

  /** The registered skills in dictionary order: `list(self._skills.values())`. */
  function Values(skills: map<string, Skill>, order: seq<string>): (r: seq<Skill>)
    requires forall k :: k in order ==> k in skills
    ensures |r| == |order|
    ensures forall i :: 0 <= i < |order| ==> r[i] == skills[order[i]]
  {
    if order == [] then [] else [skills[order[0]]] + Values(skills, order[1..])
  }

  /** The names of some skills, in order. */
  function Names(skills: seq<Skill>): (r: seq<string>)
    ensures |r| == |skills|
    ensures forall i :: 0 <= i < |skills| ==> r[i] == skills[i].name
  {
    if skills == [] then [] else [skills[0].name] + Names(skills[1..])
  }

  // ---------------------------------------------------------------- loading directories

  /** A directory entry, as `os.listdir` names it, with the text of a file. */
  datatype Entry = File(name: string, content: string) | Directory(name: string)

  /**
   * One entry of `_load_skills_from_directory`: only `.md` files count, a
   * parsed skill replaces any skill of its name, and a file that is not a
   * skill or has a malformed version is skipped.
   */
  function LoadEntry(t: SkillTable, e: Entry, source: string): SkillTable
  {
    if !EndsWith(e.name, ".md") || e.Directory? then t
    else match ParseSkillText(e.content, source)
      case Loaded(s) => Put(t, s)
      case _ => t
  }

  /** The entries of a directory, loaded in listing order. */
  function LoadEntries(t: SkillTable, entries: seq<Entry>, source: string): SkillTable
  {
    if entries == [] then t
    else LoadEntry(LoadEntries(t, entries[..|entries| - 1], source), entries[|entries| - 1], source)
  }

  /** A directory that does not exist (none) loads nothing. */
  function LoadDir(t: SkillTable, dir: Option<seq<Entry>>, source: string): SkillTable
  {
    match dir
    case None => t
    case Some(entries) => LoadEntries(t, entries, source)
  }

  lemma {:induction false} LoadEntriesKeepsInv(t: SkillTable, entries: seq<Entry>, source: string)
    requires TableInv(t)
    ensures TableInv(LoadEntries(t, entries, source))
  {
    if entries != [] {
      var before := LoadEntries(t, entries[..|entries| - 1], source);
      LoadEntriesKeepsInv(t, entries[..|entries| - 1], source);
      var e := entries[|entries| - 1];
      if EndsWith(e.name, ".md") && e.File? {
        var p := ParseSkillText(e.content, source);
        if p.Loaded? {
          PutKeepsInv(before, p.skill);
        }
      }
    }
  }

  /**
   * Every skill a directory adds comes from a `.md` file of it that parses
   * to exactly that skill; the others were there before.
   */
  lemma {:induction false} LoadedFromFiles(t: SkillTable, entries: seq<Entry>, source: string, name: string)
    requires name in LoadEntries(t, entries, source).skills
    ensures (name in t.skills && LoadEntries(t, entries, source).skills[name] == t.skills[name]) ||
      (exists i :: 0 <= i < |entries| && entries[i].File? && EndsWith(entries[i].name, ".md") &&
        ParseSkillText(entries[i].content, source) == Loaded(LoadEntries(t, entries, source).skills[name]))
  {
    if entries != [] {
      var init := entries[..|entries| - 1];
      var before := LoadEntries(t, init, source);
      var e := entries[|entries| - 1];
      var after := LoadEntries(t, entries, source);
      if EndsWith(e.name, ".md") && e.File? && ParseSkillText(e.content, source).Loaded? &&
         ParseSkillText(e.content, source).skill.name == name {
        assert ParseSkillText(entries[|entries| - 1].content, source) == Loaded(after.skills[name]);
      } else {
        assert after.skills[name] == before.skills[name];
        LoadedFromFiles(t, init, source, name);
        if !(name in t.skills && before.skills[name] == t.skills[name]) {
          var i :| 0 <= i < |init| && init[i].File? && EndsWith(init[i].name, ".md") &&
            ParseSkillText(init[i].content, source) == Loaded(before.skills[name]);
          assert entries[i] == init[i];
        }
      }
    }
  }

  lemma LoadEntriesStep(t: SkillTable, entries: seq<Entry>, i: nat, source: string)
    requires i < |entries|
    ensures LoadEntries(t, entries[..i + 1], source) == LoadEntry(LoadEntries(t, entries[..i], source), entries[i], source)
  {
    assert entries[..i + 1][..i] == entries[..i];
  }

  lemma EmptyIff(t: SkillTable)
    requires TableInv(t)
    ensures t.skills == map[] <==> t.order == []
  {
    if t.order != [] {
      assert t.order[0] in t.skills;
    }
  }

  lemma {:induction false} NamesOfValues(t: SkillTable)
    requires TableInv(t)
    ensures Names(Values(t.skills, t.order)) == t.order
  {
    var names := Names(Values(t.skills, t.order));
    assert |names| == |t.order|;
    forall i | 0 <= i < |t.order|
      ensures names[i] == t.order[i]
    {
      assert t.order[i] in t.skills;
    }
  }

  // ---------------------------------------------------------------- the system prompt section

  const PromptHeader: seq<string> := [
    "## Available Skills",
    "",
    "Use the `load_skill` tool to load detailed instructions for a specific skill when needed.",
    "Use the `create_skill` tool to create a new skill from instructions or conversation patterns.",
    "Use the `update_skill` tool to incrementally improve an existing skill with new knowledge.",
    ""]

  /** `- **name** (vN)[ (auto)]: description[ [tags]]`. */
  function SkillLine(s: Skill): (r: string)
    ensures StartsWith(r, "- **" + s.name + "** (v" + IntToString(s.version) + ")")
    ensures s.tags != [] ==> EndsWith(r, " [" + Join(", ", s.tags) + "]")
    ensures s.tags == [] ==> EndsWith(r, ": " + s.description)
  {
    var head := "- **" + s.name + "** (v" + IntToString(s.version) + ")";
    var auto := if s.autoGenerated then " (auto)" else "";
    var tags := if s.tags != [] then " [" + Join(", ", s.tags) + "]" else "";
    Affixes(head, auto, ": " + s.description, tags);
    head + auto + (": " + s.description) + tags
  }

  lemma Affixes(a: string, b: string, c: string, d: string)
    ensures StartsWith(a + b + c + d, a)
    ensures EndsWith(a + b + c + d, d)
    ensures d == [] ==> EndsWith(a + b + c + d, c)
  {
    var s := a + b + c + d;
    assert s[..|a|] == a;
    assert s[|s| - |d|..] == d;
    if d == [] {
      assert s[|s| - |c|..] == c;
    }
  }

  /** One line per skill, in order. */
  function SkillLines(skills: seq<Skill>): (r: seq<string>)
    ensures |r| == |skills|
  {
    if skills == [] then [] else SkillLines(skills[..|skills| - 1]) + [SkillLine(skills[|skills| - 1])]
  }

  /** The line at each position is the line of the skill at that position. */
  lemma {:induction false} SkillLinesAt(skills: seq<Skill>, i: nat)
    requires i < |skills|
    ensures SkillLines(skills)[i] == SkillLine(skills[i])
    decreases |skills|
  {
    var init := skills[..|skills| - 1];
    if i < |skills| - 1 {
      SkillLinesAt(init, i);
      assert init[i] == skills[i];
    }
  }

  /** `get_skills_prompt` of the listed skills. */
  function PromptOf(skills: seq<Skill>): string
  {
    if skills == [] then "" else Join("\n", PromptHeader + SkillLines(skills))
  }

  lemma SkillLinesStep(skills: seq<Skill>, i: nat)
    requires i < |skills|
    ensures PromptHeader + SkillLines(skills[..i + 1]) == PromptHeader + SkillLines(skills[..i]) + [SkillLine(skills[i])]
  {
    assert skills[..i + 1][..i] == skills[..i];
  }

  /** The loop of `get_skills_prompt` over some skills: the heading, then one line per skill. */
  method JoinPrompt(listed: seq<Skill>) returns (prompt: string)
    requires listed != []
    ensures prompt == PromptOf(listed)
  {
    var lines := PromptHeader;
    var i := 0;
    while i < |listed|
      invariant 0 <= i <= |listed|
      invariant lines == PromptHeader + SkillLines(listed[..i])
    {
      SkillLinesStep(listed, i);
      lines := lines + [SkillLine(listed[i])];
      i := i + 1;
    }
    assert listed[..i] == listed;
    prompt := Join("\n", lines);
  }

  /**
   * The prompt section is empty exactly when there are no skills;
   * otherwise it opens with the heading and holds every skill's line.
   */
  lemma PromptListsSkills(skills: seq<Skill>)
    ensures PromptOf(skills) == "" <==> skills == []
    ensures skills != [] ==> StartsWith(PromptOf(skills), "## Available Skills\n")
    ensures forall i :: 0 <= i < |skills| ==> Contains(PromptOf(skills), SkillLine(skills[i]))
  {
    if skills != [] {
      PromptOpens(PromptHeader + SkillLines(skills));
      forall i | 0 <= i < |skills|
        ensures Contains(PromptOf(skills), SkillLine(skills[i]))
      {
        PromptContainsLine(skills, i);
      }
    }
  }

  lemma PromptContainsLine(skills: seq<Skill>, i: nat)
    requires i < |skills|
    ensures Contains(PromptOf(skills), SkillLine(skills[i]))
  {
    SkillLinesAt(skills, i);
    JoinContainsLater("\n", PromptHeader, SkillLines(skills), i);
  }

  lemma PromptOpens(lines: seq<string>)
    requires |lines| >= 2 && lines[0] == "## Available Skills"
    ensures StartsWith(Join("\n", lines), "## Available Skills\n")
  {
    var rest := Join("\n", lines[1..]);
    JoinCons("\n", lines[0], lines[1..]);
    HeadTail(lines);
    Affixes(lines[0] + "\n", rest, "", "");
  }

  // ---------------------------------------------------------------- the registry

  /** `SkillRegistry`: the skills, by name, in registration order. */
  class SkillRegistry {
    var skills: map<string, Skill>
    var order: seq<string>

    function Table(): SkillTable
      reads this
    {
      SkillTable(skills, order)
    }

    ghost predicate Valid()
      reads this
    {
      TableInv(Table())
    }

    /**
     * `__init__`: the manual skills of the prompts directory, then the
     * auto-generated ones of `_auto/`, which win on a shared name. A
     * directory that does not exist is none.
     */
    constructor (prompts: Option<seq<Entry>>, auto: Option<seq<Entry>>)
      ensures Valid()
      ensures Table() == LoadDir(LoadDir(EmptyTable, prompts, "manual"), auto, "agent")
    {
      skills := map[];
      order := [];
      new;
      LoadDirectory(prompts, "manual");
      LoadDirectory(auto, "agent");
    }

    /** `_load_skills_from_directory`: every entry, in listing order. */
    method LoadDirectory(dir: Option<seq<Entry>>, source: string)
      requires Valid()
      modifies this
      ensures Valid()
      ensures Table() == LoadDir(old(Table()), dir, source)
    {
      if dir.None? {
        return;
      }
      var entries := dir.value;
      ghost var start := Table();
      var i := 0;
      while i < |entries|
        invariant 0 <= i <= |entries|
        invariant Valid()
        invariant Table() == LoadEntries(start, entries[..i], source)
      {
        LoadEntriesStep(start, entries, i, source);
        var e := entries[i];
        if EndsWith(e.name, ".md") && e.File? {
          var parsed := ParseSkillFile(e.content, source);
          if parsed.Loaded? {
            Register(parsed.skill);
          }
        }
        i := i + 1;
      }
      assert entries[..i] == entries;
    }

    /** `register`: the skill replaces any skill of its name; the others stay. */
    method Register(skill: Skill)
      requires Valid()
      modifies this
      ensures Valid()
      ensures Table() == Put(old(Table()), skill)
      ensures forall k :: k != skill.name ==> (k in skills <==> k in old(skills)) && (k in skills ==> skills[k] == old(skills)[k])
    {
      PutKeepsInv(Table(), skill);
      if skill.name !in skills {
        order := order + [skill.name];
      }
      skills := skills[skill.name := skill];
    }

    /**
     * `register_or_update`: a skill replacing one of its name gets the next
     * version and keeps the creation time; a new one keeps its version.
     * Both are stamped with `now`. An auto-generated skill is persisted when
     * asked: `saved` is the text written to its file, which reads back as
     * the registered skill without timestamps.
     */
    method RegisterOrUpdate(skill: Skill, now: int, persist: bool) returns (registered: Skill, saved: Option<string>)
      requires Valid()
      modifies this
      ensures Valid()
      ensures skill.name in old(skills) ==>
        var existing := old(skills)[skill.name];
        registered == skill.(version := existing.version + 1, createdAt := Some(existing.createdAt.GetOr(now)),
                             updatedAt := Some(now))
      ensures skill.name !in old(skills) ==>
        registered == skill.(createdAt := Some(skill.createdAt.GetOr(now)), updatedAt := Some(now))
      ensures Table() == Put(old(Table()), registered)
      ensures saved.Some? <==> persist && skill.autoGenerated
      ensures saved.Some? ==> saved.value == SkillFileText(registered)
      ensures saved.Some? && Writable(registered) ==>
        ParseSkillText(saved.value, "agent") == Loaded(registered.(createdAt := None, updatedAt := None))
    {
      var existing := Get(skill.name);
      if existing.Some? {
        registered := skill.(version := existing.value.version + 1,
                             createdAt := Some(existing.value.createdAt.GetOr(now)), updatedAt := Some(now));
      } else {
        registered := skill.(createdAt := Some(skill.createdAt.GetOr(now)), updatedAt := Some(now));
      }
      Register(registered);
      if persist && registered.autoGenerated {
        saved := Some(SkillFileText(registered));
        if Writable(registered) {
          SavedSkillReadsBack(registered, "agent");
        }
      } else {
        saved := None;
      }
    }

    /**
     * `unregister`: true, and the skill is gone, exactly when it was
     * registered; `removesFile` says whether its `_auto/` file is deleted.
     */
    method Unregister(name: string) returns (removed: bool, removesFile: bool)
      requires Valid()
      modifies this
      ensures Valid()
      ensures removed <==> name in old(skills)
      ensures removesFile <==> name in old(skills) && old(skills)[name].autoGenerated
      ensures removed ==> Table() == Remove(old(Table()), name)
      ensures !removed ==> Table() == old(Table())
      ensures name !in skills
    {
      if name in skills {
        var skill := skills[name];
        RemoveKeepsInv(Table(), name);
        skills := skills - {name};
        order := Without(order, name);
        return true, skill.autoGenerated;
      }
      return false, false;
    }

    /** `get`. */
    function Get(name: string): (r: Option<Skill>)
      reads this
      ensures r.Some? <==> name in skills
      ensures r.Some? ==> r.value == skills[name]
    {
      if name in skills then Some(skills[name]) else None
    }

    /** `list_skills`: the skill of each registered name, in registration order. */
    function ListSkills(): (r: seq<Skill>)
      reads this
      requires Valid()
      ensures Names(r) == order
      ensures forall i :: 0 <= i < |r| ==> order[i] in skills && r[i] == skills[order[i]]
    {
      NamesOfValues(Table());
      Values(skills, order)
    }

    /** `get_skills_prompt`: the heading, then the line of each skill in order. */
    method SkillsPrompt() returns (prompt: string)
      requires Valid()
      ensures prompt == PromptOf(ListSkills())
    {
      EmptyIff(Table());
      var listed := ListSkills();
      if skills == map[] {
        assert |Names(listed)| == |order| == 0;
        return "";
      }
      prompt := JoinPrompt(listed);
    }

    /**
     * The `load_skill` tool: the skill's full content under a heading, or a
     * message naming every registered skill.
     */
    function LoadSkill(name: string): (r: string)
      reads this
      requires Valid()
      ensures name in skills ==> r == "# Skill: " + name + "\n\n" + skills[name].content
      ensures name !in skills ==> r == "Skill '" + name + "' not found. Available skills: " + Join(", ", order)
    {
      match Get(name)
      case Some(s) => "# Skill: " + s.name + "\n\n" + s.content
      case None => "Skill '" + name + "' not found. Available skills: " + Join(", ", Names(ListSkills()))
    }
  }

  /** The not-found message of `load_skill` names every registered skill. */
  lemma NotFoundNamesEverySkill(registry: SkillRegistry, name: string, k: string)
    requires registry.Valid() && name !in registry.skills && k in registry.skills
    ensures Contains(registry.LoadSkill(name), k)
  {
    var order := registry.order;
    assert k in order;
    var i :| 0 <= i < |order| && order[i] == k;
    JoinContainsPart(", ", order, i);
    ContainsInRight("Skill '" + name + "' not found. Available skills: ", Join(", ", order), k);
  }
}
