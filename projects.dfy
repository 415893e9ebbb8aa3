/** The project data of src/parsers/project_loader.py and its copy in main.py:
    one line of text per project, the choice of the primary project (LinkUp),
    and the assembly of the loaded data. Reading the JSON file is not part of
    this model: its parsed content is an input. */
module Projects {
  import opened Text
  import opened Wrappers
  import opened Config
  import opened Variants

  /** One element of a project's `tech` list. */
  datatype TechItem =
    | Named(name: string)   // a dict with a "name"
    | Unnamed               // a dict without one: `t.get("name")` is None
    | Plain(repr: string)   // anything else, through `str(t)`

  /** A project's `tech` value after `or []`: a falsy value becomes the empty
      list; any other non-list value is shown through `str`. */
  datatype Tech = TechList(items: seq<TechItem>) | TechScalar(repr: string)

  /** A project record. A missing or falsy title, description or slug is "". */
  datatype Project = Project(title: string, description: string, slug: string, tech: Tech)

  const TypeError: string := "TypeError"

  /** The names `", ".join` receives; a None among them makes the join raise. */
  function TechNames(items: seq<TechItem>): (r: Result<seq<string>>)
    ensures r.Raises? <==> exists i :: 0 <= i < |items| && items[i].Unnamed?
    ensures r.Ok? ==> |r.value| == |items|
  {
    if items == [] then Ok([])
    else
      var rest := TechNames(items[1..]);
      match items[0]
      case Unnamed => Raises(TypeError)
      case Named(n) => if rest.Raises? then rest else Ok([n] + rest.value)
      case Plain(s) => if rest.Raises? then rest else Ok([s] + rest.value)
  }

  /** The tech part of a project's text: in the package none for an empty
      list; in the script `"Tech: "` even then. */
  function TechPart(v: Variant, tech: Tech): (r: Result<Option<string>>)
    ensures r.Ok? && r.value.Some? ==> StartsWith(r.value.value, "Tech: ")
    ensures v == Package && tech == TechList([]) ==> r == Ok(None)
    ensures v == Script ==> r.Ok? ==> r.value.Some?
  {
    match tech
    case TechScalar(s) => Ok(Some("Tech: " + s))
    case TechList(items) =>
      match TechNames(items)
      case Raises(e) => Raises(e)
      case Ok(names) =>
        if v == Package && names == [] then Ok(None) else Ok(Some("Tech: " + Join(", ", names)))
  }

  /** `_project_to_text` (and `project_to_text` in main.py): title, description
      and tech part, the empty ones left out, joined with `" | "`. */
  function ProjectToText(v: Variant, p: Project): (r: Result<string>)
    ensures r.Raises? <==> p.tech.TechList? && exists i :: 0 <= i < |p.tech.items| && p.tech.items[i].Unnamed?
  {
    match TechPart(v, p.tech)
    case Raises(e) => Raises(e)
    case Ok(tech) =>
      var parts := [p.title, p.description] + (if tech.Some? then [tech.value] else []);
      Ok(Join(" | ", NonEmpty(parts)))
  }

  /** A project whose title is set begins its text with the title. */
  lemma TextStartsWithTitle(v: Variant, p: Project)
    requires ProjectToText(v, p).Ok? && p.title != ""
    ensures StartsWith(ProjectToText(v, p).value, p.title)
  {
    var tech := TechPart(v, p.tech).value;
    var parts := [p.title, p.description] + (if tech.Some? then [tech.value] else []);
    var ne := NonEmpty(parts);
    assert ProjectToText(v, p).value == Join(" | ", ne);
    assert ne == [p.title] + NonEmpty(parts[1..]);
    JoinStartsWithFirst(" | ", ne);
  }

  lemma JoinStartsWithFirst(sep: string, parts: seq<string>)
    requires parts != []
    ensures StartsWith(Join(sep, parts), parts[0])
  {
    if |parts| > 1 {
      var rest := sep + Join(sep, parts[1..]);
      assert Join(sep, parts) == parts[0] + rest;
      assert (parts[0] + rest)[..|parts[0]|] == parts[0];
    }
  }

  /** The two copies differ only for an empty tech list: the script then adds a
      bare `"Tech: "` part. */
  lemma ScriptTextAddsEmptyTechPart(p: Project)
    requires p.tech == TechList([])
    ensures var pkg := ProjectToText(Package, p).value;
            ProjectToText(Script, p) == Ok(if pkg == "" then "Tech: " else pkg + " | Tech: ")
  {
    var base := [p.title, p.description];
    var ne := NonEmpty(base);
    var pkg := Join(" | ", ne);
    assert ProjectToText(Package, p) == Ok(pkg) by {
      assert TechPart(Package, p.tech) == Ok(None);
      assert base + [] == base;
    }
    assert ProjectToText(Script, p) == Ok(Join(" | ", ne + ["Tech: "])) by {
      assert TechNames([]) == Ok([]);
      assert "Tech: " + Join(", ", []) == "Tech: ";
      assert TechPart(Script, p.tech) == Ok(Some("Tech: "));
      NonEmptyAppend(base, ["Tech: "]);
      assert NonEmpty(["Tech: "]) == ["Tech: "];
    }
    JoinSnoc(" | ", ne, "Tech: ");
    if ne != [] {
      JoinEmpty(" | ", ne);
      assert pkg + " | " + "Tech: " == pkg + " | Tech: ";
    }
  }

  lemma {:induction false} JoinSnoc(sep: string, parts: seq<string>, x: string)
    ensures Join(sep, parts + [x]) == if parts == [] then x else Join(sep, parts) + sep + x
    decreases |parts|
  {
    if |parts| == 1 {
      assert parts + [x] == [parts[0], x];
    } else if |parts| > 1 {
      assert (parts + [x])[0] == parts[0];
      assert (parts + [x])[1..] == parts[1..] + [x];
      JoinSnoc(sep, parts[1..], x);
    }
  }

  /** Other than for an empty tech list, both copies give the same text. */
  lemma TextsAgreeOtherwise(p: Project)
    requires p.tech != TechList([])
    ensures ProjectToText(Package, p) == ProjectToText(Script, p)
  {
    if p.tech.TechList? {
      var names := TechNames(p.tech.items);
      assert names.Ok? ==> |names.value| == |p.tech.items| > 0;
    }
  }

  // ---------------------------------------------------------------- primary project

  /** The aliases a primary project is recognised by: the configured list in
      the package, "linkup" and "link-up" only in the script. */
  function Aliases(v: Variant): seq<string> {
    match v
    case Package => LinkupNames
    case Script => ["linkup", "link-up"]
  }

  predicate IsLinkupEntry(v: Variant, p: Project) {
    ContainsAny(Lower(Strip(p.title)), Aliases(v)) || ContainsAny(Lower(Strip(p.slug)), Aliases(v))
  }

  /** The index of the first entry satisfying `ok`, if any. */
  function FirstWhere(ok: Project -> bool, ps: seq<Project>): (r: Option<nat>)
    ensures r.None? <==> forall i :: 0 <= i < |ps| ==> !ok(ps[i])
    ensures r.Some? ==> r.value < |ps| && ok(ps[r.value])
                        && forall i :: 0 <= i < r.value ==> !ok(ps[i])
  {
    if ps == [] then None
    else if ok(ps[0]) then Some(0)
    else
      var r := FirstWhere(ok, ps[1..]);
      assert forall i :: 1 <= i < |ps| ==> ps[i] == ps[1..][i - 1];
      if r.None? then None else Some(r.value + 1)
  }

  /** `_find_linkup_project`: the first entry, in list order, whose stripped
      lower-cased title or slug contains an alias. */
  function FindLinkup(v: Variant, ps: seq<Project>): (r: Option<nat>)
    ensures r.None? <==> forall i :: 0 <= i < |ps| ==> !IsLinkupEntry(v, ps[i])
    ensures r.Some? ==> r.value < |ps| && IsLinkupEntry(v, ps[r.value])
                        && forall i :: 0 <= i < r.value ==> !IsLinkupEntry(v, ps[i])
  {
    FirstWhere(p => IsLinkupEntry(v, p), ps)
  }

  /** Every alias of the script is an alias of the package, so the package
      finds a primary project whenever the script does, and no later one. */
  lemma PackageFindsNoLater(ps: seq<Project>)
    requires FindLinkup(Script, ps).Some?
    ensures FindLinkup(Package, ps).Some? && FindLinkup(Package, ps).value <= FindLinkup(Script, ps).value
  {
    var k := FindLinkup(Script, ps).value;
    forall s | ContainsAny(s, Aliases(Script)) ensures ContainsAny(s, Aliases(Package)) {
      var j :| 0 <= j < 2 && Contains(s, Aliases(Script)[j]);
      assert Aliases(Package)[j] == Aliases(Script)[j];
    }
    assert IsLinkupEntry(Package, ps[k]);
  }

  // ---------------------------------------------------------------- loading

  /** The parsed JSON, when the file was found and its content is truthy: each
      of the three lists is present or not. */
  datatype RawProjects = RawProjects(courses: Option<seq<Project>>, prev: Option<seq<Project>>,
                                     projects: Option<seq<Project>>)

  datatype ProjectData = ProjectData(projects: seq<Project>, linkup: Option<Project>,
                                     textForRag: string, linkupText: string)

  const EntrySeparator: string := "\n\n---\n\n"

  function ListOrEmpty(l: Option<seq<Project>>): seq<Project> {
    if l.Some? then l.value else []
  }

  /** The text of every entry, in order, or the error the first bad one raises. */
  function ProjectTexts(v: Variant, ps: seq<Project>): (r: Result<seq<string>>)
    ensures r.Ok? ==> |r.value| == |ps|
    ensures r.Ok? ==> forall i :: 0 <= i < |ps| ==> ProjectToText(v, ps[i]) == Ok(r.value[i])
    ensures r.Raises? <==> exists i :: 0 <= i < |ps| && ProjectToText(v, ps[i]).Raises?
  {
    if ps == [] then Ok([])
    else
      var rest := ProjectTexts(v, ps[1..]);
      assert forall i :: 1 <= i < |ps| ==> ps[i] == ps[1..][i - 1];
      match ProjectToText(v, ps[0])
      case Raises(e) => Raises(e)
      case Ok(t) => if rest.Raises? then rest else Ok([t] + rest.value)
  }

  /** The entries in the order courses, prev, projects. */
  function AllEntries(raw: RawProjects): (r: seq<Project>)
    ensures multiset(r) == multiset(ListOrEmpty(raw.courses)) + multiset(ListOrEmpty(raw.prev))
                           + multiset(ListOrEmpty(raw.projects))
  {
    ListOrEmpty(raw.courses) + ListOrEmpty(raw.prev) + ListOrEmpty(raw.projects)
  }

  /** The in-place `extend` calls of `load_project_json`. */
  method GatherEntries(raw: RawProjects) returns (allEntries: seq<Project>)
    ensures allEntries == AllEntries(raw)
  {
    allEntries := [];
    if raw.courses.Some? {
      allEntries := allEntries + raw.courses.value;
    }
    if raw.prev.Some? {
      allEntries := allEntries + raw.prev.value;
    }
    if raw.projects.Some? {
      allEntries := allEntries + raw.projects.value;
    }
  }

  /** `load_project_json` after the file has been read: nothing is returned when
      the file gave nothing or there are no entries, and a tech dict without a
      name raises out of the whole load. */
  method LoadProjectJson(v: Variant, raw: Option<RawProjects>) returns (r: Result<Option<ProjectData>>)
    ensures raw.None? || AllEntries(raw.value) == [] ==> r == Ok(None)
    ensures raw.Some? && AllEntries(raw.value) != [] ==>
      var all := AllEntries(raw.value);
      (ProjectTexts(v, all).Raises? ==> r.Raises?)
      && (ProjectTexts(v, all).Ok? ==> r == Ok(Some(DataOf(v, all, ProjectTexts(v, all).value))))
  {
    if raw.None? {
      return Ok(None);
    }
    var allEntries := GatherEntries(raw.value);
    if allEntries == [] {
      return Ok(None);
    }
    var texts := ProjectTexts(v, allEntries);
    if texts.Raises? {
      return Raises(texts.error);
    }
    r := Ok(Some(DataOf(v, allEntries, texts.value)));
  }

  /** The loaded data from the entries and their texts. */
  function DataOf(v: Variant, all: seq<Project>, texts: seq<string>): (d: ProjectData)
    requires |texts| == |all|
    ensures d.projects == all
    ensures d.linkup.Some? ==> d.linkup.value in all && IsLinkupEntry(v, d.linkup.value)
    ensures d.linkup.None? <==> forall i :: 0 <= i < |all| ==> !IsLinkupEntry(v, all[i])
    ensures d.linkup.None? ==> d.linkupText == ""
    ensures d.linkup.Some? ==> exists k | 0 <= k < |all| ::
              d.linkup.value == all[k] && d.linkupText == texts[k]
              && forall i | 0 <= i < k :: !IsLinkupEntry(v, all[i])
    ensures d.textForRag == Join(EntrySeparator, texts)
  {
    var k := FindLinkup(v, all);
    ProjectData(all, if k.Some? then Some(all[k.value]) else None, Join(EntrySeparator, texts),
                if k.Some? then texts[k.value] else "")
  }

  /** The primary project's text is the text of that entry, and the combined
      text holds every entry's text with one separator between each two. */
  lemma LoadedTextShape(v: Variant, all: seq<Project>)
    requires all != [] && ProjectTexts(v, all).Ok?
    ensures var texts := ProjectTexts(v, all).value;
            var d := DataOf(v, all, texts);
            (d.linkup.Some? ==> ProjectToText(v, d.linkup.value) == Ok(d.linkupText))
            && StartsWith(d.textForRag, texts[0])
            && |d.textForRag| == TotalLen(texts) + (|all| - 1) * |EntrySeparator|
  {
    var texts := ProjectTexts(v, all).value;
    var d := DataOf(v, all, texts);
    var k := FindLinkup(v, all);
    if k.Some? {
      assert d.linkup == Some(all[k.value]) && d.linkupText == texts[k.value];
      assert ProjectToText(v, all[k.value]) == Ok(texts[k.value]);
    }
    assert d.textForRag == Join(EntrySeparator, texts);
    assert |texts| == |all|;
    JoinStartsWithFirst(EntrySeparator, texts);
    JoinLength(EntrySeparator, texts);
  }
}
