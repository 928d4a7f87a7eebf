/** The deterministic parts of the task analyzer (agent/task_analyzer.py):
    the prerequisite records, the line-based list parser used when the
    model's answer holds no JSON, the keyword fallback used when the analysis
    fails, and the record building and sorting applied to an already decoded
    JSON answer. */
module TaskAnalyzer {

  import opened Wrappers
  import opened Strings
  import opened Collections

  /** A prerequisite concept; priority 0 is the most important. */
  datatype Prerequisite = Prerequisite(name: string, category: string, description: string, priority: int)

  datatype TaskBreakdown = TaskBreakdown(
    taskDescription: string,
    prerequisites: seq<Prerequisite>,
    suggestedLearningOrder: seq<string>,
    estimatedComplexity: string)

  /** The sort key `lambda x: x.priority`. */
  function Priority(p: Prerequisite): int {
    p.priority
  }

  /** `[p.name for p in ps]`. */
  function Names(ps: seq<Prerequisite>): (r: seq<string>)
    ensures |r| == |ps|
    ensures forall i :: 0 <= i < |ps| ==> r[i] == ps[i].name
  {
    seq(|ps|, i requires 0 <= i < |ps| => ps[i].name)
  }

  // ---------------------------------------------------------------------
  // _extract_prerequisites_from_text
  // ---------------------------------------------------------------------

  /** A line that starts with a digit, `-` or `*` is a list item. */
  predicate IsBullet(c: char) {
    IsDigit(c) || c == '-' || c == '*'
  }

  /** The characters of the numbering pattern `[\d\-\*\.\s]`. */
  predicate IsNumbering(c: char) {
    IsDigit(c) || c == '-' || c == '*' || c == '.' || IsSpace(c)
  }

  /** `re.sub(r'^[\d\-\*\.\s]+', '', s)`: drops the leading run of numbering
      characters. */
  function DropNumbering(s: string): (r: string)
    ensures |r| <= |s| && r == s[|s| - |r|..]
    ensures r != [] ==> !IsNumbering(r[0])
    ensures forall k :: 0 <= k < |s| - |r| ==> IsNumbering(s[k])
  {
    if s != [] && IsNumbering(s[0]) then DropNumbering(s[1..]) else s
  }

  /** The prerequisite name a stripped line yields, if it yields one: the
      line must have at least 3 characters and start with a bullet, and the
      name is the text before the first `:` and then the first `,`, stripped
      and without its numbering, and longer than 2 characters. */
  function LineItemName(line: string): (r: Option<string>)
    ensures r.Some? ==> |line| >= 3 && IsBullet(line[0])
    ensures r.Some? ==> |r.value| > 2 && ':' !in r.value && ',' !in r.value && !IsNumbering(r.value[0])
  {
    if |line| < 3 || !IsBullet(line[0]) then None
    else
      var piece := Before(Before(line, ':'), ',');
      var stripped := Strip(piece);
      var name := DropNumbering(stripped);
      assert forall c :: c in name ==> c in stripped;
      assert forall c :: c in stripped ==> c in piece;
      if |name| > 2 then Some(name) else None
  }

  /** Which lines yield a name, and which name: exactly a line of at least 3
      characters that starts with a bullet and whose stripped, unnumbered text
      before the first `:` and then the first `,` is longer than 2 characters;
      the name is that text. */
  lemma LineItemNameValue(line: string)
    ensures LineItemName(line).Some? <==>
      |line| >= 3 && IsBullet(line[0]) && |DropNumbering(Strip(Before(Before(line, ':'), ',')))| > 2
    ensures LineItemName(line).Some? ==>
      LineItemName(line).value == DropNumbering(Strip(Before(Before(line, ':'), ',')))
  {
  }

  /** The prerequisites the line parser collects from `lines`, before any
      cap: one per list item, numbered in order. */
  function ExtractItems(lines: seq<string>): (r: seq<Prerequisite>)
    ensures |r| <= |lines|
  {
    if lines == [] then [] else AddLine(ExtractItems(lines[..|lines| - 1]), Strip(lines[|lines| - 1]))
  }

  /** One step of the parser: a stripped line that yields a name adds an
      item at the next position. */
  function AddLine(acc: seq<Prerequisite>, line: string): (r: seq<Prerequisite>)
    ensures |r| <= |acc| + 1
  {
    match LineItemName(line)
    case Some(name) => acc + [Prerequisite(name, "concept", line, |acc|)]
    case None => acc
  }

  /** What every collected item is: its priority is its position, its
      category is "concept", its description is one of the stripped lines,
      and its name is what that line yields. */
  ghost predicate ItemFromLines(lines: seq<string>, p: Prerequisite, i: int) {
    && p.priority == i
    && p.category == "concept"
    && LineItemName(p.description) == Some(p.name)
    && exists j :: 0 <= j < |lines| && Strip(lines[j]) == p.description
  }

  lemma {:induction false} ExtractItemsShape(lines: seq<string>)
    ensures forall i :: 0 <= i < |ExtractItems(lines)| ==> ItemFromLines(lines, ExtractItems(lines)[i], i)
  {
    if lines != [] {
      var init := lines[..|lines| - 1];
      ExtractItemsShape(init);
      var acc := ExtractItems(init);
      var line := Strip(lines[|lines| - 1]);
      var item := LineItemName(line);
      if item.Some? {
        var r := acc + [Prerequisite(item.value, "concept", line, |acc|)];
        assert ExtractItems(lines) == r;
        forall i | 0 <= i < |r| ensures ItemFromLines(lines, r[i], i) {
          if i < |acc| {
            InitItem(lines, acc, i);
          }
        }
      } else {
        assert ExtractItems(lines) == acc;
        forall i | 0 <= i < |acc| ensures ItemFromLines(lines, acc[i], i) {
          InitItem(lines, acc, i);
        }
      }
    }
  }

  /** An item collected from the lines before the last one is also one from
      all the lines. */
  lemma InitItem(lines: seq<string>, acc: seq<Prerequisite>, i: int)
    requires lines != [] && 0 <= i < |acc|
    requires ItemFromLines(lines[..|lines| - 1], acc[i], i)
    ensures ItemFromLines(lines, acc[i], i)
  {
    var j :| 0 <= j < |lines| - 1 && Strip(lines[..|lines| - 1][j]) == acc[i].description;
    assert lines[j] == lines[..|lines| - 1][j];
  }

  /** The breakdown built from unstructured text: at most 12 items, the
      learning order from the first 10, complexity "medium". */
  function TextBreakdown(task: string, text: string): TaskBreakdown {
    var items := ExtractItems(SplitOn(text, '\n'));
    TaskBreakdown(task, Take(items, 12), Names(Take(items, 10)), "medium")
  }

  /** The text breakdown keeps at most 12 list items, each as described by
      `ItemFromLines`, and its learning order names the first 10 of them. */
  lemma TextBreakdownShape(task: string, text: string, b: TaskBreakdown)
    requires b == TextBreakdown(task, text)
    ensures && b.taskDescription == task && b.estimatedComplexity == "medium"
            && |b.prerequisites| <= 12
            && b.suggestedLearningOrder == Names(Take(b.prerequisites, 10))
            && forall i :: 0 <= i < |b.prerequisites| ==> ItemFromLines(SplitOn(text, '\n'), b.prerequisites[i], i)
  {
    var lines := SplitOn(text, '\n');
    var items := ExtractItems(lines);
    ExtractItemsShape(lines);
    TakeTake(items, 12, 10);
    var kept := Take(items, 12);
    assert forall i :: 0 <= i < |kept| ==> kept[i] == items[i];
  }

  /** The body of the parser's loop for one stripped line. */
  method ParseLine(prerequisites: seq<Prerequisite>, line: string) returns (r: seq<Prerequisite>)
    ensures r == AddLine(prerequisites, line)
  {
    r := prerequisites;
    if line == [] || |line| < 3 {
      assert LineItemName(line) == None;
      return;
    }
    if IsDigit(line[0]) || line[0] == '-' || line[0] == '*' {
      var name := Before(Before(line, ':'), ',');
      name := Strip(name);
      name := DropNumbering(name);
      if name != [] && |name| > 2 {
        assert LineItemName(line) == Some(name);
        r := prerequisites + [Prerequisite(name, "concept", line, |prerequisites|)];
      } else {
        assert LineItemName(line) == None;
      }
    } else {
      assert LineItemName(line) == None;
    }
  }

  lemma ExtractItemsStep(lines: seq<string>, k: nat)
    requires k < |lines|
    ensures ExtractItems(lines[..k + 1]) == AddLine(ExtractItems(lines[..k]), Strip(lines[k]))
  {
    assert lines[..k + 1][..k] == lines[..k];
  }

  method ExtractPrerequisitesFromText(task: string, text: string) returns (b: TaskBreakdown)
    ensures b == TextBreakdown(task, text)
    ensures b.taskDescription == task && b.estimatedComplexity == "medium"
    ensures |b.prerequisites| <= 12
    ensures b.suggestedLearningOrder == Names(Take(b.prerequisites, 10))
    ensures forall i :: 0 <= i < |b.prerequisites| ==> ItemFromLines(SplitOn(text, '\n'), b.prerequisites[i], i)
  {
    var prerequisites: seq<Prerequisite> := [];
    var lines := SplitOn(text, '\n');
    for k := 0 to |lines|
      invariant prerequisites == ExtractItems(lines[..k])
    {
      ExtractItemsStep(lines, k);
      prerequisites := ParseLine(prerequisites, Strip(lines[k]));
    }
    assert lines[..|lines|] == lines;
    b := TaskBreakdown(task, Take(prerequisites, 12), Names(Take(prerequisites, 10)), "medium");
    TextBreakdownShape(task, text, b);
  }

  // ---------------------------------------------------------------------
  // _create_fallback_breakdown
  // ---------------------------------------------------------------------

  /** The keyword-to-technology table, in its dictionary order. */
  const TechKeywords: Dict<string, string> := Dict([
    ("react", "React"),
    ("django", "Django"),
    ("flask", "Flask"),
    ("node", "Node.js"),
    ("express", "Express.js"),
    ("angular", "Angular"),
    ("vue", "Vue.js"),
    ("python", "Python"),
    ("javascript", "JavaScript"),
    ("typescript", "TypeScript"),
    ("java", "Java"),
    ("spring", "Spring Framework"),
    ("sql", "SQL"),
    ("mongodb", "MongoDB"),
    ("postgresql", "PostgreSQL"),
    ("mysql", "MySQL"),
    ("redis", "Redis"),
    ("docker", "Docker"),
    ("kubernetes", "Kubernetes"),
    ("aws", "AWS"),
    ("azure", "Azure"),
    ("gcp", "Google Cloud Platform"),
    ("rest", "REST API"),
    ("graphql", "GraphQL"),
    ("jwt", "JWT Authentication"),
    ("oauth", "OAuth"),
    ("html", "HTML"),
    ("css", "CSS"),
    ("bootstrap", "Bootstrap"),
    ("tailwind", "Tailwind CSS"),
    ("tensorflow", "TensorFlow"),
    ("pytorch", "PyTorch"),
    ("machine learning", "Machine Learning"),
    ("deep learning", "Deep Learning"),
    ("neural network", "Neural Networks"),
    ("full-stack", "Full-Stack Development"),
    ("frontend", "Frontend Development"),
    ("backend", "Backend Development"),
    ("web application", "Web Development"),
    ("mobile app", "Mobile Development"),
    ("ios", "iOS Development"),
    ("android", "Android Development")
  ])

  /** The keywords of the first pass, most important first. */
  const PriorityOrder: seq<string> := [
    "react", "angular", "vue",
    "django", "flask", "express", "spring",
    "python", "javascript", "typescript", "java",
    "postgresql", "mysql", "mongodb", "sql",
    "node", "docker", "aws", "rest", "graphql"
  ]

  const GenericName := "Fundamentals related to the task"

  function TechPrerequisite(name: string, position: int): Prerequisite {
    Prerequisite(name, "technology", "Learn " + name + " to complete this task", position)
  }

  function GenericPrerequisite(task: string): Prerequisite {
    Prerequisite(GenericName, "concept", "Learn the fundamentals needed for: " + task, 0)
  }

  /** The first pass over `keywords`: a technology is added when its keyword
      occurs in the lower-cased task, `table` knows it, its name is not there
      yet, and fewer than 10 have been added. */
  function FirstPass(taskLower: string, table: Dict<string, string>, keywords: seq<string>): seq<Prerequisite> {
    if keywords == [] then []
    else
      var acc := FirstPass(taskLower, table, keywords[..|keywords| - 1]);
      var keyword := keywords[|keywords| - 1];
      if Contains(taskLower, keyword) then
        match table.Get(keyword)
        case Some(name) =>
          if name !in Names(acc) && |acc| < 10 then acc + [TechPrerequisite(name, |acc|)] else acc
        case None => acc
      else acc
  }

  /** The second pass over the table's `entries`, starting from `start`:
      keywords outside `priority` are added the same way. The source's
      `break` at 10 entries is the `|acc| < 10` test here, since the list
      only grows. */
  function SecondPass(taskLower: string, priority: seq<string>, start: seq<Prerequisite>, entries: seq<(string, string)>): seq<Prerequisite> {
    if entries == [] then start
    else
      var acc := SecondPass(taskLower, priority, start, entries[..|entries| - 1]);
      var (keyword, name) := entries[|entries| - 1];
      if keyword !in priority && Contains(taskLower, keyword) && name !in Names(acc) && |acc| < 10 then
        acc + [TechPrerequisite(name, |acc|)]
      else acc
  }

  lemma {:induction false} SecondPassGrows(taskLower: string, priority: seq<string>, start: seq<Prerequisite>, entries: seq<(string, string)>)
    ensures var r := SecondPass(taskLower, priority, start, entries); |r| >= |start| && r[..|start|] == start
  {
    if entries != [] { SecondPassGrows(taskLower, priority, start, entries[..|entries| - 1]); }
  }

  /** Once 10 entries are there the second pass adds nothing more, which is
      what the source's `break` relies on. */
  lemma {:induction false} SecondPassSaturated(taskLower: string, priority: seq<string>, start: seq<Prerequisite>, entries: seq<(string, string)>, j: nat)
    requires j <= |entries|
    requires |SecondPass(taskLower, priority, start, entries[..j])| >= 10
    ensures SecondPass(taskLower, priority, start, entries) == SecondPass(taskLower, priority, start, entries[..j])
    decreases |entries|
  {
    if |entries| > j {
      var init := entries[..|entries| - 1];
      assert init[..j] == entries[..j];
      SecondPassSaturated(taskLower, priority, start, init, j);
    } else {
      assert entries[..j] == entries;
    }
  }

  /** A technology prerequisite is named after a keyword of `table` that
      occurs in the lower-cased task. */
  ghost predicate FromKeyword(taskLower: string, table: Dict<string, string>, p: Prerequisite) {
    exists i :: 0 <= i < |table.entries| && table.entries[i].1 == p.name && Contains(taskLower, table.entries[i].0)
  }

  /** What holds of the list while the two passes run. */
  ghost predicate TechList(taskLower: string, table: Dict<string, string>, ps: seq<Prerequisite>) {
    && |ps| <= 10
    && (forall i :: 0 <= i < |ps| ==> ps[i] == TechPrerequisite(ps[i].name, i) && FromKeyword(taskLower, table, ps[i]))
    && (forall i, j :: 0 <= i < j < |ps| ==> ps[i].name != ps[j].name)
  }

  /** The first pass adds nothing exactly when none of its keywords that the
      table knows occurs. */
  lemma {:induction false} FirstPassEmpty(taskLower: string, table: Dict<string, string>, keywords: seq<string>)
    ensures FirstPass(taskLower, table, keywords) == [] <==>
            forall i :: 0 <= i < |keywords| && keywords[i] in table.Keys() ==> !Contains(taskLower, keywords[i])
  {
    if keywords != [] {
      var init := keywords[..|keywords| - 1];
      assert forall i :: 0 <= i < |init| ==> init[i] == keywords[i];
      FirstPassEmpty(taskLower, table, init);
      var keyword := keywords[|keywords| - 1];
      if Contains(taskLower, keyword) && keyword in table.Keys() {
        assert table.Get(keyword).Some?;
      }
    }
  }

  /** Started empty, the second pass adds nothing exactly when none of its
      keywords outside `priority` occurs. */
  lemma {:induction false} SecondPassEmpty(taskLower: string, priority: seq<string>, entries: seq<(string, string)>)
    ensures SecondPass(taskLower, priority, [], entries) == [] <==>
            forall i :: 0 <= i < |entries| ==> entries[i].0 in priority || !Contains(taskLower, entries[i].0)
  {
    if entries != [] {
      var init := entries[..|entries| - 1];
      assert forall i :: 0 <= i < |init| ==> init[i] == entries[i];
      SecondPassEmpty(taskLower, priority, init);
    }
  }

  /** No keyword of the table occurs when neither a known keyword of
      `priority` nor a keyword outside it occurs. */
  lemma AnyKeyword(taskLower: string, table: Dict<string, string>, priority: seq<string>)
    requires forall i :: 0 <= i < |priority| && priority[i] in table.Keys() ==> !Contains(taskLower, priority[i])
    requires forall i :: 0 <= i < |table.entries| ==> table.entries[i].0 in priority || !Contains(taskLower, table.entries[i].0)
    ensures !ContainsAny(taskLower, table.Keys())
  {
    var keys := table.Keys();
    forall k | 0 <= k < |keys| ensures !Contains(taskLower, keys[k]) {
      if keys[k] in priority {
        var i :| 0 <= i < |priority| && priority[i] == keys[k];
      }
    }
  }

  /** Appending a new technology whose keyword occurs keeps the list's
      shape. */
  lemma TechListAppend(taskLower: string, table: Dict<string, string>, ps: seq<Prerequisite>, k: nat, found: set<string>)
    requires TechList(taskLower, table, ps) && |ps| < 10
    requires k < |table.entries| && Contains(taskLower, table.entries[k].0)
    requires table.entries[k].1 !in found
    requires forall n :: n in found <==> n in Names(ps)
    ensures var name := table.entries[k].1;
            var r := ps + [TechPrerequisite(name, |ps|)];
            && TechList(taskLower, table, r)
            && forall n :: n in found + {name} <==> n in Names(r)
  {
    var name := table.entries[k].1;
    assert FromKeyword(taskLower, table, TechPrerequisite(name, |ps|));
    assert Names(ps + [TechPrerequisite(name, |ps|)]) == Names(ps) + [name];
  }

  /** The first pass of the fallback, over `priority`; `found` is the set of
      names added. */
  method FirstPassLoop(taskLower: string, table: Dict<string, string>, priority: seq<string>)
    returns (prerequisites: seq<Prerequisite>, found: set<string>)
    ensures prerequisites == FirstPass(taskLower, table, priority)
    ensures forall n :: n in found <==> n in Names(prerequisites)
    ensures TechList(taskLower, table, prerequisites)
  {
    prerequisites := [];
    found := {};
    for i := 0 to |priority|
      invariant prerequisites == FirstPass(taskLower, table, priority[..i])
      invariant forall n :: n in found <==> n in Names(prerequisites)
      invariant TechList(taskLower, table, prerequisites)
    {
      assert priority[..i + 1][..i] == priority[..i];
      var keyword := priority[i];
      if Contains(taskLower, keyword) {
        var techName := table.Get(keyword);
        if techName.Some? && techName.value !in found && |prerequisites| < 10 {
          var name := techName.value;
          GetSome(table, keyword);
          ghost var k :| 0 <= k < |table.entries| && table.entries[k] == (keyword, name);
          TechListAppend(taskLower, table, prerequisites, k, found);
          prerequisites := prerequisites + [TechPrerequisite(name, |prerequisites|)];
          found := found + {name};
        }
      }
    }
    assert priority[..|priority|] == priority;
  }

  /** The second pass of the fallback, over the table's entries, continuing
      from `start` whose names are `found`; it stops at 10 entries. */
  method SecondPassLoop(taskLower: string, table: Dict<string, string>, priority: seq<string>,
                        start: seq<Prerequisite>, found: set<string>)
    returns (prerequisites: seq<Prerequisite>)
    requires forall n :: n in found <==> n in Names(start)
    requires TechList(taskLower, table, start)
    ensures prerequisites == SecondPass(taskLower, priority, start, table.entries)
    ensures TechList(taskLower, table, prerequisites)
  {
    prerequisites := start;
    var foundTechs := found;
    var entries := table.entries;
    assert entries[..|entries|] == entries;
    for j := 0 to |entries|
      invariant prerequisites == SecondPass(taskLower, priority, start, entries[..j])
      invariant forall n :: n in foundTechs <==> n in Names(prerequisites)
      invariant TechList(taskLower, table, prerequisites)
    {
      assert entries[..j + 1][..j] == entries[..j];
      var (keyword, techName) := entries[j];
      if keyword !in priority && Contains(taskLower, keyword) && techName !in foundTechs {
        if |prerequisites| >= 10 {
          SecondPassSaturated(taskLower, priority, start, entries, j);
          return;
        }
        TechListAppend(taskLower, table, prerequisites, j, foundTechs);
        prerequisites := prerequisites + [TechPrerequisite(techName, |prerequisites|)];
        foundTechs := foundTechs + {techName};
      }
    }
  }

  /** The two keyword passes of the fallback: first over `priority`, then,
      when fewer than 8 were found, over the rest of `table` in its order.
      The list is empty exactly when no keyword of the table occurs. */
  method TechnologyPasses(taskLower: string, table: Dict<string, string>, priority: seq<string>) returns (prerequisites: seq<Prerequisite>)
    ensures TechList(taskLower, table, prerequisites)
    ensures var first := FirstPass(taskLower, table, priority);
            && |first| <= |prerequisites| && prerequisites[..|first|] == first
            && (|first| >= 8 ==> prerequisites == first)
            && (|first| < 8 ==> prerequisites == SecondPass(taskLower, priority, first, table.entries))
    ensures prerequisites == [] <==> !ContainsAny(taskLower, table.Keys())
  {
    var found;
    prerequisites, found := FirstPassLoop(taskLower, table, priority);
    ghost var first := prerequisites;
    if |prerequisites| < 8 {
      prerequisites := SecondPassLoop(taskLower, table, priority, prerequisites, found);
      SecondPassGrows(taskLower, priority, first, table.entries);
    }
    EmptyPasses(taskLower, table, priority, prerequisites);
  }

  /** The passes found nothing exactly when no keyword of the table occurs. */
  lemma EmptyPasses(taskLower: string, table: Dict<string, string>, priority: seq<string>, prerequisites: seq<Prerequisite>)
    requires TechList(taskLower, table, prerequisites)
    requires var first := FirstPass(taskLower, table, priority);
             && (|first| >= 8 ==> prerequisites == first)
             && (|first| < 8 ==> prerequisites == SecondPass(taskLower, priority, first, table.entries))
    ensures prerequisites == [] <==> !ContainsAny(taskLower, table.Keys())
  {
    var first := FirstPass(taskLower, table, priority);
    FirstPassEmpty(taskLower, table, priority);
    if prerequisites == [] {
      SecondPassGrows(taskLower, priority, first, table.entries);
      assert first == [];
      SecondPassEmpty(taskLower, priority, table.entries);
      AnyKeyword(taskLower, table, priority);
    } else {
      assert FromKeyword(taskLower, table, prerequisites[0]);
      var k :| 0 <= k < |table.entries| && table.entries[k].1 == prerequisites[0].name && Contains(taskLower, table.entries[k].0);
      assert table.Keys()[k] == table.entries[k].0;
    }
  }

  /** Nothing in the task names a technology of `table` or a general topic. */
  predicate NoTopicMatched(taskLower: string, table: Dict<string, string>) {
    && !ContainsAny(taskLower, table.Keys())
    && !Contains(taskLower, "web") && !Contains(taskLower, "application")
    && !Contains(taskLower, "api")
    && !Contains(taskLower, "database") && !Contains(taskLower, "data")
  }

  /** The general concepts added when no technology was found: at most
      three, for web, API and data topics, in that order. */
  method GeneralConcepts(taskLower: string) returns (prerequisites: seq<Prerequisite>)
    ensures |prerequisites| <= 3
    ensures prerequisites == [] <==>
              !Contains(taskLower, "web") && !Contains(taskLower, "application") && !Contains(taskLower, "api") &&
              !Contains(taskLower, "database") && !Contains(taskLower, "data")
    ensures Numbered(prerequisites)
    ensures forall i :: 0 <= i < |prerequisites| ==> prerequisites[i].category == "concept" && prerequisites[i].name != GenericName
    ensures (Contains(taskLower, "web") || Contains(taskLower, "application")) <==>
              Prerequisite(WebConcept, "concept", "Learn web development basics", 0) in prerequisites
    ensures Contains(taskLower, "api") <==> ApiConcept in Names(prerequisites)
    ensures (Contains(taskLower, "database") || Contains(taskLower, "data")) <==> DataConcept in Names(prerequisites)
    ensures Names(prerequisites) ==
              (if Contains(taskLower, "web") || Contains(taskLower, "application") then [WebConcept] else []) +
              (if Contains(taskLower, "api") then [ApiConcept] else []) +
              (if Contains(taskLower, "database") || Contains(taskLower, "data") then [DataConcept] else [])
  {
    var web := Contains(taskLower, "web") || Contains(taskLower, "application");
    var api := Contains(taskLower, "api");
    var data := Contains(taskLower, "database") || Contains(taskLower, "data");
    prerequisites := [];
    var added := 0;
    if web {
      prerequisites := prerequisites + [Prerequisite(WebConcept, "concept", "Learn web development basics", 0)];
      added := added + 1;
    }
    if api && added < 3 {
      prerequisites := prerequisites + [Prerequisite(ApiConcept, "concept", "Learn how to build and consume APIs", added)];
      added := added + 1;
    }
    if data && added < 3 {
      prerequisites := prerequisites + [Prerequisite(DataConcept, "concept", "Learn database concepts and SQL", added)];
    }
    assert prerequisites == GeneralList(web, api, data);
    GeneralListShape(web, api, data);
  }

  /** The general concepts for the three topic tests, appended in order with
      the running count as priority. */
  ghost function GeneralList(web: bool, api: bool, data: bool): seq<Prerequisite> {
    var a := if web then [Prerequisite(WebConcept, "concept", "Learn web development basics", 0)] else [];
    var b := if api then a + [Prerequisite(ApiConcept, "concept", "Learn how to build and consume APIs", |a|)] else a;
    if data then b + [Prerequisite(DataConcept, "concept", "Learn database concepts and SQL", |b|)] else b
  }

  lemma GeneralListShape(web: bool, api: bool, data: bool)
    ensures var ps := GeneralList(web, api, data);
            && |ps| <= 3
            && (ps == [] <==> !web && !api && !data)
            && Numbered(ps)
            && (forall i :: 0 <= i < |ps| ==> ps[i].category == "concept" && ps[i].name != GenericName)
            && (web <==> Prerequisite(WebConcept, "concept", "Learn web development basics", 0) in ps)
            && (api <==> ApiConcept in Names(ps))
            && (data <==> DataConcept in Names(ps))
            && Names(ps) == (if web then [WebConcept] else []) + (if api then [ApiConcept] else []) + (if data then [DataConcept] else [])
  {
    var ps := GeneralList(web, api, data);
    assert |WebConcept| == 28 && |ApiConcept| == 15 && |DataConcept| == 21 && |GenericName| != 28;
    assert |GenericName| != 15 && |GenericName| != 21;
    var w := if web then [WebConcept] else [];
    var x := if api then [ApiConcept] else [];
    var y := if data then [DataConcept] else [];
    assert Names(ps) == w + x + y;
    assert ApiConcept !in w + y && DataConcept !in w + x && WebConcept !in x + y;
    assert api <==> ApiConcept in Names(ps);
    assert data <==> DataConcept in Names(ps);
    if !web {
      assert WebConcept !in Names(ps);
    }
  }

  const WebConcept := "Web Development Fundamentals"
  const ApiConcept := "API Development"
  const DataConcept := "Database Fundamentals"

  /** Priorities count up from 0 and no name occurs twice. */
  ghost predicate Numbered(ps: seq<Prerequisite>) {
    && (forall i :: 0 <= i < |ps| ==> ps[i].priority == i)
    && (forall i, j :: 0 <= i < j < |ps| ==> ps[i].name != ps[j].name)
  }

  /** Every technology in the list is named after a keyword of the task. */
  ghost predicate TechnologiesFromKeywords(taskLower: string, table: Dict<string, string>, ps: seq<Prerequisite>) {
    forall i :: 0 <= i < |ps| && ps[i].category == "technology" ==> FromKeyword(taskLower, table, ps[i])
  }

  lemma TechListNumbered(taskLower: string, table: Dict<string, string>, ps: seq<Prerequisite>)
    requires TechList(taskLower, table, ps)
    ensures Numbered(ps) && TechnologiesFromKeywords(taskLower, table, ps)
  {
    forall i | 0 <= i < |ps| ensures ps[i].priority == i {
      assert ps[i] == TechPrerequisite(ps[i].name, i);
    }
  }

  lemma ConceptsOnly(taskLower: string, table: Dict<string, string>, ps: seq<Prerequisite>)
    requires forall i :: 0 <= i < |ps| ==> ps[i].category == "concept"
    ensures TechnologiesFromKeywords(taskLower, table, ps)
  {
  }

  /** `error` is not used by the source either. */
  method CreateFallbackBreakdown(task: string, error: string) returns (b: TaskBreakdown)
    ensures b.taskDescription == task && b.estimatedComplexity == "medium"
    ensures 1 <= |b.prerequisites| <= 10
    ensures Numbered(b.prerequisites)
    ensures b.suggestedLearningOrder == Names(Take(b.prerequisites, 8))
    ensures TechnologiesFromKeywords(Lower(task), TechKeywords, b.prerequisites)
    ensures var first := FirstPass(Lower(task), TechKeywords, PriorityOrder);
            && |first| <= |b.prerequisites| && b.prerequisites[..|first|] == first
            && (|first| >= 8 ==> b.prerequisites == first)
    ensures b.prerequisites == [GenericPrerequisite(task)] <==> NoTopicMatched(Lower(task), TechKeywords)
  {
    b := FallbackWith(task, TechKeywords, PriorityOrder);
  }

  /** The fallback over a keyword table and a first-pass keyword list. */
  method FallbackWith(task: string, table: Dict<string, string>, priority: seq<string>) returns (b: TaskBreakdown)
    ensures b.taskDescription == task && b.estimatedComplexity == "medium"
    ensures 1 <= |b.prerequisites| <= 10
    ensures Numbered(b.prerequisites)
    ensures b.suggestedLearningOrder == Names(Take(b.prerequisites, 8))
    ensures TechnologiesFromKeywords(Lower(task), table, b.prerequisites)
    ensures var first := FirstPass(Lower(task), table, priority);
            && |first| <= |b.prerequisites| && b.prerequisites[..|first|] == first
            && (|first| >= 8 ==> b.prerequisites == first)
    ensures b.prerequisites == [GenericPrerequisite(task)] <==> NoTopicMatched(Lower(task), table)
  {
    var taskLower := Lower(task);
    var prerequisites := TechnologyPasses(taskLower, table, priority);
    TechListNumbered(taskLower, table, prerequisites);
    ghost var techs := prerequisites;
    if prerequisites == [] {
      prerequisites := GeneralConcepts(taskLower);
      ConceptsOnly(taskLower, table, prerequisites);
    }
    ghost var topics := prerequisites;

    if prerequisites == [] {
      prerequisites := prerequisites + [GenericPrerequisite(task)];
      ConceptsOnly(taskLower, table, prerequisites);
    }

    assert Take(prerequisites, 10) == prerequisites;
    prerequisites := Take(prerequisites, 10);

    b := TaskBreakdown(task, prerequisites, Names(Take(prerequisites, 8)), "medium");

    if techs != [] {
      assert prerequisites == techs;
      assert techs[0] == TechPrerequisite(techs[0].name, 0);
    } else if topics != [] {
      assert prerequisites == topics;
    }
    GenericOnlyWhenNothingMatched(task, table, techs, topics, prerequisites);
  }

  /** How the three stages decide whether the generic entry is all there is. */
  lemma GenericOnlyWhenNothingMatched(task: string, table: Dict<string, string>, techs: seq<Prerequisite>, topics: seq<Prerequisite>, ps: seq<Prerequisite>)
    requires techs == [] <==> !ContainsAny(Lower(task), table.Keys())
    requires techs != [] ==> ps == techs && techs[0].category == "technology"
    requires techs == [] ==> (topics == [] <==>
               !Contains(Lower(task), "web") && !Contains(Lower(task), "application") && !Contains(Lower(task), "api") &&
               !Contains(Lower(task), "database") && !Contains(Lower(task), "data"))
    requires techs == [] && topics != [] ==> ps == topics && topics[0].name != GenericName
    requires techs == [] && topics == [] ==> ps == [GenericPrerequisite(task)]
    ensures ps == [GenericPrerequisite(task)] <==> NoTopicMatched(Lower(task), table)
  {
  }

  // ---------------------------------------------------------------------
  // _parse_analysis_result, after JSON decoding
  // ---------------------------------------------------------------------

  /** One decoded prerequisite object; a missing key is `None`. */
  datatype DecodedPrerequisite = DecodedPrerequisite(
    name: Option<string>, category: Option<string>, description: Option<string>, priority: Option<int>)

  /** The decoded top-level object; a missing key is `None`. */
  datatype DecodedAnalysis = DecodedAnalysis(
    prerequisites: Option<seq<DecodedPrerequisite>>,
    suggestedLearningOrder: Option<seq<string>>,
    estimatedComplexity: Option<string>)

  /** The record built with the defaults `""`, `"concept"`, `""` and 0. */
  function FromDecoded(d: DecodedPrerequisite): Prerequisite {
    Prerequisite(d.name.GetOr(""), d.category.GetOr("concept"), d.description.GetOr(""), d.priority.GetOr(0))
  }

  function AllFromDecoded(ds: seq<DecodedPrerequisite>): (r: seq<Prerequisite>)
    ensures |r| == |ds|
    ensures forall i :: 0 <= i < |ds| ==> r[i] == FromDecoded(ds[i])
  {
    seq(|ds|, i requires 0 <= i < |ds| => FromDecoded(ds[i]))
  }

  /** `decoded` is the JSON object found in `resultText`, or `None` when no
      `{...}` span was found or it did not decode; then the line parser is
      used. */
  method ParseAnalysisResult(task: string, decoded: Option<DecodedAnalysis>, resultText: string) returns (b: TaskBreakdown)
    ensures decoded.None? ==> b == TextBreakdown(task, resultText)
    ensures decoded.Some? ==>
              var built := AllFromDecoded(decoded.value.prerequisites.GetOr([]));
              && b.taskDescription == task
              && SortedBy(b.prerequisites, Priority)
              && multiset(b.prerequisites) == multiset(built)
              && (forall k :: WithKey(b.prerequisites, Priority, k) == WithKey(built, Priority, k))
              && b.suggestedLearningOrder == decoded.value.suggestedLearningOrder.GetOr([])
              && b.estimatedComplexity == decoded.value.estimatedComplexity.GetOr("medium")
  {
    if decoded.Some? {
      var data := decoded.value;
      var items := data.prerequisites.GetOr([]);
      var prerequisites: seq<Prerequisite> := [];
      for i := 0 to |items|
        invariant prerequisites == AllFromDecoded(items[..i])
      {
        prerequisites := prerequisites + [FromDecoded(items[i])];
      }
      assert items[..|items|] == items;
      var built := prerequisites;
      prerequisites := SortBy(prerequisites, Priority);
      SortBySorted(built, Priority);
      SortByPermutation(built, Priority);
      forall k ensures WithKey(prerequisites, Priority, k) == WithKey(built, Priority, k) {
        SortByStable(built, Priority, k);
      }
      b := TaskBreakdown(task, prerequisites, data.suggestedLearningOrder.GetOr([]), data.estimatedComplexity.GetOr("medium"));
    } else {
      b := ExtractPrerequisitesFromText(task, resultText);
    }
  }
}
