/**
 * The skill record and the `---`-delimited frontmatter format both the
 * skill registry and the skill creator read:
 *
 *     ---
 *     name: skill_name
 *     description: Brief description
 *     tags: tag1, tag2
 *     ---
 *     Full skill content ...
 *
 * Each frontmatter line holding a colon is split at its first colon into a
 * stripped key and a stripped value; a later line with the same key wins.
 * Tags are the non-empty stripped pieces of the comma-separated `tags`
 * value.
 */
module SkillFormat {
  import opened Wrappers
  import opened PyStr

  /**
   * A skill. `created_at`/`updated_at` are timestamps of the integer clock,
   * absent until the registry or the creator sets them.
   */
  datatype Skill = Skill(
    name: string,
    description: string,
    content: string,
    tags: seq<string>,
    version: int,
    source: string,
    autoGenerated: bool,
    createdAt: Option<int>,
    updatedAt: Option<int>)

  const Fence := "---"

  // ---------------------------------------------------------------- splitting a document

  /**
   * `text.split("---", 2)` on a text that starts with `---`: the stripped
   * frontmatter and body, or none when there is no closing `---`.
   */
  function SplitDocument(text: string): (r: Option<(string, string)>)
    ensures r.Some? ==> StartsWith(text, Fence)
    ensures !StartsWith(text, Fence) ==> r.None?
    ensures r.Some? ==> IsStripped(r.value.0) && IsStripped(r.value.1)
  {
    if !StartsWith(text, Fence) then None
    else
      var parts := SplitN(text, Fence, 2);
      if |parts| < 3 then None else Some((Strip(parts[1]), Strip(parts[2])))
  }

  /** `key, value = line.split(":", 1)`, both stripped; none for a line without a colon. */
  function LineEntry(line: string): (r: Option<(string, string)>)
    ensures r.Some? <==> Contains(line, ":")
    ensures r.Some? ==> IsStripped(r.value.0) && IsStripped(r.value.1)
  {
    var parts := SplitN(line, ":", 1);
    if |parts| == 2 then Some((Strip(parts[0]), Strip(parts[1]))) else None
  }

  /** The metadata the lines define, read in order so that a later line wins. */
  function Metadata(lines: seq<string>): map<string, string>
  {
    if lines == [] then map[]
    else
      var m := Metadata(lines[..|lines| - 1]);
      match LineEntry(lines[|lines| - 1])
      case None => m
      case Some(e) => m[e.0 := e.1]
  }

  /** The loop that fills `metadata`, line by line. */
  method ReadMetadata(lines: seq<string>) returns (metadata: map<string, string>)
    ensures metadata == Metadata(lines)
  {
    metadata := map[];
    var i := 0;
    while i < |lines|
      invariant 0 <= i <= |lines|
      invariant metadata == Metadata(lines[..i])
    {
      var entry := LineEntry(lines[i]);
      MetadataStep(lines, i);
      if entry.Some? {
        metadata := metadata[entry.value.0 := entry.value.1];
      }
      i := i + 1;
    }
    assert lines[..i] == lines;
  }

  /** `metadata.get(key, default)`. */
  function Lookup(metadata: map<string, string>, key: string, default: string): (r: string)
    ensures key in metadata ==> r == metadata[key]
    ensures key !in metadata ==> r == default
  {
    if key in metadata then metadata[key] else default
  }

  /** The frontmatter names the skill and describes it: `name` and `description` are present and non-empty. */
  predicate HasRequired(metadata: map<string, string>)
  {
    "name" in metadata && metadata["name"] != "" && "description" in metadata && metadata["description"] != ""
  }

  /** `[t.strip() for t in pieces if t.strip()]`. */
  function CleanTags(pieces: seq<string>): (r: seq<string>)
    ensures |r| <= |pieces|
    ensures forall i :: 0 <= i < |r| ==> r[i] != "" && IsStripped(r[i])
  {
    if pieces == [] then []
    else (if Strip(pieces[0]) != "" then [Strip(pieces[0])] else []) + CleanTags(pieces[1..])
  }

  /** The tags of a `tags:` value. */
  function Tags(value: string): seq<string>
  {
    CleanTags(Split(value, ","))
  }

  // ---------------------------------------------------------------- facts the writers rely on

  /** A line `key: value` reads back as that key and value, whatever colons the value holds. */
  lemma LineEntryOf(key: string, value: string)
    requires ':' !in key && IsStripped(key) && IsStripped(value)
    ensures LineEntry(key + ": " + value) == Some((key, value))
  {
    var line := key + ": " + value;
    var rest := " " + value;
    assert key + ":" + rest == line;
    SplitAtColon(key, rest);
    var parts := SplitN(line, ":", 1);
    assert parts == [key, rest];
    StripStripped(key);
    StripAfterBlank(value);
  }

  lemma SplitAtColon(key: string, rest: string)
    requires ':' !in key
    ensures SplitN(key + ":" + rest, ":", 1) == [key, rest]
  {
    var line := key + ":" + rest;
    NoCharNoOccurrence(key, ':');
    assert line == key + [':'] + rest;
    FindAfterSeparatorChar(key, ':', rest);
    assert line[..|key|] == key;
    assert line[|key| + 1..] == rest;
  }

  lemma MetadataStep(lines: seq<string>, i: nat)
    requires i < |lines|
    ensures Metadata(lines[..i + 1]) ==
      match LineEntry(lines[i])
      case None => Metadata(lines[..i])
      case Some(e) => Metadata(lines[..i])[e.0 := e.1]
  {
    assert lines[..i + 1][..i] == lines[..i];
  }

  lemma MetadataAppend(lines: seq<string>, line: string)
    ensures Metadata(lines + [line]) ==
      match LineEntry(line)
      case None => Metadata(lines)
      case Some(e) => Metadata(lines)[e.0 := e.1]
  {
    assert (lines + [line])[..|lines|] == lines;
  }

  /** A tag that survives being written and read back: non-empty, stripped, without a comma. */
  predicate WritableTag(t: string)
  {
    t != "" && IsStripped(t) && ',' !in t
  }

  /** Tags written as `", ".join(tags)` read back as the same tags. */
  lemma TagsOfJoin(tags: seq<string>)
    requires forall i :: 0 <= i < |tags| ==> WritableTag(tags[i])
    ensures Tags(Join(", ", tags)) == tags
  {
    if tags == [] {
      NoCharNoOccurrence("", ',');
      assert Split("", ",") == [""];
    } else {
      var j := Join(", ", tags);
      var parts := Padded("", tags);
      JoinPadded("", tags);
      assert "" + j == j;
      PaddedCommaFree("", tags);
      SplitJoinChar(parts, ',');
      assert Split(j, ",") == parts;
      CleanPadded("", tags);
    }
  }

  /** The pieces a comma split of written tags yields: each tag after its blank, the first after `pad`. */
  function Padded(pad: string, tags: seq<string>): (r: seq<string>)
    ensures |r| == |tags|
    decreases |tags|
  {
    if tags == [] then [] else [pad + tags[0]] + Padded(" ", tags[1..])
  }

  lemma {:induction false} JoinPadded(pad: string, tags: seq<string>)
    requires |tags| >= 1
    ensures pad + Join(", ", tags) == Join(",", Padded(pad, tags))
    decreases |tags|
  {
    var p := Padded(pad, tags);
    var q := Padded(" ", tags[1..]);
    assert p == [pad + tags[0]] + q;
    if |tags| > 1 {
      JoinPadded(" ", tags[1..]);
      assert p[1..] == q;
      CommaSpace(pad, tags[0], Join(", ", tags[1..]));
    }
  }

  lemma {:induction false} CleanPadded(pad: string, tags: seq<string>)
    requires pad == "" || pad == " "
    requires forall i :: 0 <= i < |tags| ==> WritableTag(tags[i])
    ensures CleanTags(Padded(pad, tags)) == tags
    decreases |tags|
  {
    if tags != [] {
      var p := Padded(pad, tags);
      var q := Padded(" ", tags[1..]);
      assert p == [pad + tags[0]] + q;
      assert p[0] == pad + tags[0] && p[1..] == q;
      assert AllSpace(pad) && WritableTag(tags[0]);
      StripPadded(pad, tags[0], "");
      assert pad + tags[0] + "" == pad + tags[0];
      assert Strip(p[0]) == tags[0] != "";
      assert CleanTags(p) == [tags[0]] + CleanTags(q);
      CleanPadded(" ", tags[1..]);
      HeadTail(tags);
    }
  }

  lemma {:induction false} PaddedCommaFree(pad: string, tags: seq<string>)
    requires pad == "" || pad == " "
    requires forall i :: 0 <= i < |tags| ==> WritableTag(tags[i])
    ensures forall k :: 0 <= k < |tags| ==> ',' !in Padded(pad, tags)[k]
    decreases |tags|
  {
    if tags != [] {
      var p := Padded(pad, tags);
      var q := Padded(" ", tags[1..]);
      assert p == [pad + tags[0]] + q;
      PaddedCommaFree(" ", tags[1..]);
      assert WritableTag(tags[0]);
      forall k | 0 <= k < |tags|
        ensures ',' !in p[k]
      {
        if k == 0 {
          assert p[0] == pad + tags[0];
        } else {
          assert p[k] == q[k - 1];
        }
      }
    }
  }

  lemma HeadTail<T>(s: seq<T>)
    requires s != []
    ensures [s[0]] + s[1..] == s
  {
  }

  lemma CommaSpace(pad: string, t: string, j: string)
    ensures pad + (t + ", " + j) == (pad + t) + "," + (" " + j)
  {
  }

  /** A string without a dash cannot contain the fence. */
  lemma DashFree(s: string)
    requires '-' !in s
    ensures !Contains(s, Fence)
  {
    forall j | 0 <= j
      ensures !OccursAt(s, Fence, j)
    {
      if j + 3 <= |s| {
        assert s[j] in s;
        assert s[j..j + 3][0] == s[j];
      }
    }
  }

  /** Lines joined by newlines contain the fence only if one of them does. */
  lemma {:induction false} JoinLinesFenceFree(lines: seq<string>)
    requires forall i :: 0 <= i < |lines| ==> !Contains(lines[i], Fence)
    ensures !Contains(Join("\n", lines), Fence)
  {
    if lines == [] {
      NoOccurrenceInShort("", Fence);
    } else if |lines| == 1 {
    } else {
      JoinLinesFenceFree(lines[1..]);
      assert Join("\n", lines) == lines[0] + ['\n'] + Join("\n", lines[1..]);
      NoOccurrenceAcross(lines[0], '\n', Join("\n", lines[1..]), Fence);
    }
  }

  /** Newline-joined lines none of which holds a newline split back into those lines. */
  lemma SplitLines(lines: seq<string>)
    requires |lines| >= 1
    requires forall i :: 0 <= i < |lines| ==> '\n' !in lines[i]
    ensures Split(Join("\n", lines), "\n") == lines
  {
    SplitJoinChar(lines, '\n');
  }

  /**
   * A document whose frontmatter holds no fence splits into that
   * frontmatter and its body, both stripped.
   */
  lemma SplitDocumentOf(front: string, tail: string)
    requires !Contains("\n" + front, Fence)
    ensures SplitDocument(Fence + "\n" + front + "\n" + Fence + tail) == Some((Strip("\n" + front + "\n"), Strip(tail)))
  {
    var text := Fence + "\n" + front + "\n" + Fence + tail;
    FencedParts(front, tail);
    assert StartsWith(text, Fence) by {
      assert text[..3] == Fence;
    }
    SplitDocumentParts(text, ["", "\n" + front + "\n", tail]);
  }

  lemma SplitDocumentParts(text: string, parts: seq<string>)
    requires StartsWith(text, Fence) && |parts| == 3 && SplitN(text, Fence, 2) == parts
    ensures SplitDocument(text) == Some((Strip(parts[1]), Strip(parts[2])))
  {
  }

  /** `split("---", 2)` of a fenced document: nothing before the first fence, the frontmatter, the rest. */
  lemma FencedParts(front: string, tail: string)
    requires !Contains("\n" + front, Fence)
    ensures SplitN(Fence + "\n" + front + "\n" + Fence + tail, Fence, 2) == ["", "\n" + front + "\n", tail]
  {
    var x := "\n" + front;
    var rest := x + "\n" + Fence + tail;
    assert Fence + "\n" + front + "\n" + Fence + tail == Fence + rest;
    LeadingFence(rest);
    ClosingFence(x, tail);
    assert x + "\n" == "\n" + front + "\n";
  }

  lemma LeadingFence(rest: string)
    ensures SplitN(Fence + rest, Fence, 2) == [""] + SplitN(rest, Fence, 1)
  {
    assert Fence + rest == "" + Fence + rest;
    FindAfterFreePrefix("", Fence, rest);
    assert (Fence + rest)[3..] == rest;
  }

  lemma ClosingFence(x: string, tail: string)
    requires !Contains(x, Fence)
    ensures SplitN(x + "\n" + Fence + tail, Fence, 1) == [x + "\n", tail]
  {
    var s := x + "\n" + Fence + tail;
    FindAfterSeparator(x, '\n', Fence, tail);
    assert s == x + ['\n'] + Fence + tail;
    assert s[..|x| + 1] == x + "\n";
    assert s[|x| + 4..] == tail;
  }
}
