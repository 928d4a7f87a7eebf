/** The markdown report: a header, the prerequisites grouped by category in
    the order the categories first appear, the suggested learning order, the
    resources of every concept that has some, and a fixed footer. The
    timestamp is a parameter. Each part is specified as the text it appends
    to the report built so far, in the order the report is built. */
module OutputFormatter {

  import opened Wrappers
  import opened Strings
  import opened Collections
  import opened TaskAnalyzer
  import opened ResourceFinder

  // ---------------------------------------------------------------------
  // Title truncation of the console table.
  // ---------------------------------------------------------------------

  /** A displayed title: longer than 60 characters, it is cut to its first 60
      and followed by "...". */
  function TruncateTitle(title: string): (r: string)
    ensures |title| <= 60 ==> r == title
    ensures |title| > 60 ==> |r| == 63 && r[..60] == title[..60] && r[60..] == "..."
    ensures |r| <= 63
  {
    if |title| > 60 then title[..60] + "..." else title
  }

  /** Truncating a displayed title again changes nothing. */
  lemma TruncateTitleIdempotent(title: string)
    ensures TruncateTitle(TruncateTitle(title)) == TruncateTitle(title)
  {
    if |title| > 60 {
      var r := TruncateTitle(title);
      assert r[..60] == title[..60];
    }
  }

  // ---------------------------------------------------------------------
  // The pieces of the report.
  // ---------------------------------------------------------------------

  /** The heading under which a prerequisite is listed. */
  function CategoryOf(p: Prerequisite): string {
    Title(p.category)
  }

  /** The priority badge: 0 is high, 1 medium, anything else low. */
  function Badge(priority: int): (r: string)
    ensures priority == 0 <==> r == "\U{1F534} High"
    ensures priority == 1 <==> r == "\U{1F7E1} Medium"
    ensures priority != 0 && priority != 1 <==> r == "\U{1F7E2} Low"
  {
    if priority == 0 then "\U{1F534} High" else if priority == 1 then "\U{1F7E1} Medium" else "\U{1F7E2} Low"
  }

  function TitleLine(task: string): string {
    "# Learning Resources for: " + task
  }

  function Header(task: string, timestamp: string, complexity: string): string {
    TitleLine(task) + "\n\n**Generated:** " + timestamp + "  \n**Estimated Complexity:** "
    + Title(complexity) + "\n\n## Task Description\n\n" + task + "\n\n## Prerequisites\n\n"
  }

  function Heading(name: string): string {
    "### " + name + "\n\n"
  }

  const OrderHeading: string := "## Suggested Learning Order\n\n"
  const ResourcesHeading: string := "## Learning Resources\n\n"
  const Footer: string := "---\n\n*Generated by LearnMate AI Agent*\n"

  function PrereqBullet(p: Prerequisite): string {
    "- **" + p.name + "** (" + Badge(p.priority) + ")\n"
  }

  function PrereqNote(p: Prerequisite): string {
    "  - " + p.description + "\n"
  }

  /** What one prerequisite contributes: its bullet, and its description line
      when the description is not empty. */
  function PrereqEntry(p: Prerequisite): string {
    if p.description != [] then PrereqBullet(p) + PrereqNote(p) else PrereqBullet(p)
  }

  function AddPrereq(md: string, p: Prerequisite): string {
    var md' := md + PrereqBullet(p);
    if p.description != [] then md' + PrereqNote(p) else md'
  }

  function AddPrereqs(md: string, ps: seq<Prerequisite>): string {
    if ps == [] then md else AddPrereq(AddPrereqs(md, ps[..|ps| - 1]), ps[|ps| - 1])
  }

  /** A category's section on its own. */
  function CategorySection(category: string, ps: seq<Prerequisite>): string {
    AddPrereqs(Heading(category), ps) + "\n"
  }

  function AddCategory(md: string, category: string, ps: seq<Prerequisite>): string {
    AddPrereqs(md + Heading(category), ps) + "\n"
  }

  function AddCategories(md: string, groups: seq<(string, seq<Prerequisite>)>): string {
    if groups == [] then md
    else
      var (category, ps) := groups[|groups| - 1];
      AddCategory(AddCategories(md, groups[..|groups| - 1]), category, ps)
  }

  /** The line of the `n`-th item of a numbered list. */
  function OrderLine(n: nat, item: string): string {
    NatToString(n) + ". " + item + "\n"
  }

  function AddOrderLines(md: string, items: seq<string>): string {
    if items == [] then md else AddOrderLines(md, items[..|items| - 1]) + OrderLine(|items|, items[|items| - 1])
  }

  function AddOrder(md: string, order: seq<string>): string {
    if order == [] then md else AddOrderLines(md + OrderHeading, order) + "\n"
  }

  function ResourceLink(n: nat, r: LearningResource): string {
    NatToString(n) + ". [" + r.title + "](" + r.url + ")\n"
  }

  function ResourceNote(r: LearningResource): string {
    "   - " + r.description + "\n"
  }

  /** What the `n`-th resource of a concept contributes: its link, and its
      description line when the description is not empty. */
  function ResourceEntry(n: nat, r: LearningResource): string {
    if r.description != [] then ResourceLink(n, r) + ResourceNote(r) else ResourceLink(n, r)
  }

  function AddResource(md: string, n: nat, r: LearningResource): string {
    var md' := md + ResourceLink(n, r);
    if r.description != [] then md' + ResourceNote(r) else md'
  }

  function AddResources(md: string, rs: seq<LearningResource>): string {
    if rs == [] then md else AddResource(AddResources(md, rs[..|rs| - 1]), |rs|, rs[|rs| - 1])
  }

  /** A concept's section on its own. */
  function ConceptSection(name: string, rs: seq<LearningResource>): string {
    AddResources(Heading(name), rs) + "\n"
  }

  /** A concept without resources adds nothing. */
  function AddConcept(md: string, name: string, rs: seq<LearningResource>): string {
    if rs == [] then md else AddResources(md + Heading(name), rs) + "\n"
  }

  function AddConcepts(md: string, byConcept: seq<(string, seq<LearningResource>)>): string {
    if byConcept == [] then md
    else
      var (name, rs) := byConcept[|byConcept| - 1];
      AddConcept(AddConcepts(md, byConcept[..|byConcept| - 1]), name, rs)
  }

  /** The whole report. */
  function Markdown(b: TaskBreakdown, byConcept: Dict<string, seq<LearningResource>>, timestamp: string): string {
    var header := Header(b.taskDescription, timestamp, b.estimatedComplexity);
    var categories := AddCategories(header, GroupBy(b.prerequisites, CategoryOf).entries);
    var order := AddOrder(categories, b.suggestedLearningOrder);
    AddConcepts(order + ResourcesHeading, byConcept.entries) + Footer
  }

  // ---------------------------------------------------------------------
  // Each part only appends.
  // ---------------------------------------------------------------------

  lemma {:induction false} AddPrereqsExtends(md: string, ps: seq<Prerequisite>)
    ensures StartsWith(AddPrereqs(md, ps), md)
  {
    if ps != [] {
      var before := AddPrereqs(md, ps[..|ps| - 1]);
      AddPrereqsExtends(md, ps[..|ps| - 1]);
      AddPrereqExtends(before, ps[|ps| - 1]);
      StartsWithTrans(AddPrereqs(md, ps), before, md);
    }
  }

  /** One prerequisite appends exactly its entry. */
  lemma AddPrereqExtends(md: string, p: Prerequisite)
    ensures AddPrereq(md, p) == md + PrereqEntry(p)
    ensures StartsWith(AddPrereq(md, p), md)
  {
    assert (md + PrereqEntry(p))[..|md|] == md;
  }

  lemma {:induction false} AddCategoriesExtends(md: string, groups: seq<(string, seq<Prerequisite>)>)
    ensures StartsWith(AddCategories(md, groups), md)
  {
    if groups != [] {
      var before := AddCategories(md, groups[..|groups| - 1]);
      var (category, ps) := groups[|groups| - 1];
      AddCategoriesExtends(md, groups[..|groups| - 1]);
      AddCategoryShift(before, category, ps);
      StartsWithConcat(before, CategorySection(category, ps));
      StartsWithTrans(AddCategories(md, groups), before, md);
    }
  }

  lemma {:induction false} AddOrderLinesExtends(md: string, items: seq<string>)
    ensures StartsWith(AddOrderLines(md, items), md)
  {
    if items != [] {
      var before := AddOrderLines(md, items[..|items| - 1]);
      AddOrderLinesExtends(md, items[..|items| - 1]);
      StartsWithAppend(before, md, OrderLine(|items|, items[|items| - 1]));
    }
  }

  /** The order section is added exactly when the order is not empty. */
  lemma AddOrderExtends(md: string, order: seq<string>)
    ensures StartsWith(AddOrder(md, order), md)
    ensures AddOrder(md, order) == md <==> order == []
    ensures order != [] ==> StartsWith(AddOrder(md, order), md + OrderHeading)
  {
    if order != [] {
      var lines := AddOrderLines(md + OrderHeading, order);
      AddOrderLinesExtends(md + OrderHeading, order);
      StartsWithAppend(lines, md + OrderHeading, "\n");
      StartsWithConcat(md, OrderHeading);
      StartsWithTrans(AddOrder(md, order), md + OrderHeading, md);
    }
  }

  lemma {:induction false} AddResourcesExtends(md: string, rs: seq<LearningResource>)
    ensures StartsWith(AddResources(md, rs), md)
  {
    if rs != [] {
      var before := AddResources(md, rs[..|rs| - 1]);
      AddResourcesExtends(md, rs[..|rs| - 1]);
      AddResourceExtends(before, |rs|, rs[|rs| - 1]);
      StartsWithTrans(AddResources(md, rs), before, md);
    }
  }

  /** One resource appends exactly its entry. */
  lemma AddResourceExtends(md: string, n: nat, r: LearningResource)
    ensures AddResource(md, n, r) == md + ResourceEntry(n, r)
    ensures StartsWith(AddResource(md, n, r), md)
  {
    assert (md + ResourceEntry(n, r))[..|md|] == md;
  }

  lemma {:induction false} AddConceptsExtends(md: string, byConcept: seq<(string, seq<LearningResource>)>)
    ensures StartsWith(AddConcepts(md, byConcept), md)
  {
    if byConcept == [] {
      assert md[..|md|] == md;
    } else {
      var before := AddConcepts(md, byConcept[..|byConcept| - 1]);
      var (name, rs) := byConcept[|byConcept| - 1];
      AddConceptsExtends(md, byConcept[..|byConcept| - 1]);
      AddConceptShift(before, name, rs);
      if rs != [] {
        StartsWithConcat(before, ConceptSection(name, rs));
        StartsWithTrans(AddConcepts(md, byConcept), before, md);
      }
    }
  }

  // ---------------------------------------------------------------------
  // A section does not depend on what comes before it.
  // ---------------------------------------------------------------------

  lemma {:induction false} AddPrereqsShift(front: string, md: string, ps: seq<Prerequisite>)
    ensures AddPrereqs(front + md, ps) == front + AddPrereqs(md, ps)
  {
    if ps != [] {
      var p := ps[|ps| - 1];
      AddPrereqsShift(front, md, ps[..|ps| - 1]);
      AddPrereqExtends(AddPrereqs(front + md, ps[..|ps| - 1]), p);
      AddPrereqExtends(AddPrereqs(md, ps[..|ps| - 1]), p);
    }
  }

  lemma {:induction false} AddOrderLinesShift(front: string, md: string, items: seq<string>)
    ensures AddOrderLines(front + md, items) == front + AddOrderLines(md, items)
  {
    if items != [] {
      AddOrderLinesShift(front, md, items[..|items| - 1]);
    }
  }

  /** A category appends exactly its section. */
  lemma AddCategoryShift(md: string, category: string, ps: seq<Prerequisite>)
    ensures AddCategory(md, category, ps) == md + CategorySection(category, ps)
  {
    AddPrereqsShift(md, Heading(category), ps);
    assert md + Heading(category) == md + "### " + category + "\n\n";
  }

  lemma {:induction false} AddResourcesShift(front: string, md: string, rs: seq<LearningResource>)
    ensures AddResources(front + md, rs) == front + AddResources(md, rs)
  {
    if rs != [] {
      var r := rs[|rs| - 1];
      AddResourcesShift(front, md, rs[..|rs| - 1]);
      AddResourceExtends(AddResources(front + md, rs[..|rs| - 1]), |rs|, r);
      AddResourceExtends(AddResources(md, rs[..|rs| - 1]), |rs|, r);
    }
  }

  /** A concept with resources appends exactly its section. */
  lemma AddConceptShift(md: string, name: string, rs: seq<LearningResource>)
    ensures rs != [] ==> AddConcept(md, name, rs) == md + ConceptSection(name, rs)
  {
    AddResourcesShift(md, Heading(name), rs);
  }

  // ---------------------------------------------------------------------
  // What each part lists.
  // ---------------------------------------------------------------------

  /** Every prerequisite's entry appears. */
  lemma {:induction false} AddPrereqsContain(md: string, ps: seq<Prerequisite>, k: nat)
    requires k < |ps|
    ensures Contains(AddPrereqs(md, ps), PrereqEntry(ps[k]))
  {
    var before := AddPrereqs(md, ps[..|ps| - 1]);
    var p := ps[|ps| - 1];
    AddPrereqExtends(before, p);
    if k == |ps| - 1 {
      ContainsMiddle(before, PrereqEntry(p), []);
      assert before + PrereqEntry(p) + [] == AddPrereq(before, p);
    } else {
      assert ps[..|ps| - 1][k] == ps[k];
      AddPrereqsContain(md, ps[..|ps| - 1], k);
      StartsWithContains(AddPrereqs(md, ps), before, PrereqEntry(ps[k]));
    }
  }

  /** Every group's section appears. */
  lemma {:induction false} AddCategoriesContain(md: string, groups: seq<(string, seq<Prerequisite>)>, j: nat)
    requires j < |groups|
    ensures Contains(AddCategories(md, groups), CategorySection(groups[j].0, groups[j].1))
  {
    var before := AddCategories(md, groups[..|groups| - 1]);
    var (category, ps) := groups[|groups| - 1];
    AddCategoryShift(before, category, ps);
    if j == |groups| - 1 {
      ContainsMiddle(before, CategorySection(category, ps), []);
      assert before + CategorySection(category, ps) + [] == AddCategories(md, groups);
    } else {
      assert groups[..|groups| - 1][j] == groups[j];
      AddCategoriesContain(md, groups[..|groups| - 1], j);
      StartsWithConcat(before, CategorySection(category, ps));
      StartsWithContains(AddCategories(md, groups), before, CategorySection(groups[j].0, groups[j].1));
    }
  }

  /** Item `i` appears numbered `i + 1`. */
  lemma {:induction false} AddOrderLinesContain(md: string, items: seq<string>, i: nat)
    requires i < |items|
    ensures Contains(AddOrderLines(md, items), OrderLine(i + 1, items[i]))
  {
    var before := AddOrderLines(md, items[..|items| - 1]);
    var line := OrderLine(|items|, items[|items| - 1]);
    if i == |items| - 1 {
      ContainsMiddle(before, line, []);
      assert before + line + [] == AddOrderLines(md, items);
    } else {
      assert items[..|items| - 1][i] == items[i];
      AddOrderLinesContain(md, items[..|items| - 1], i);
      StartsWithConcat(before, line);
      StartsWithContains(AddOrderLines(md, items), before, OrderLine(i + 1, items[i]));
    }
  }

  /** The `i`-th resource appears numbered `i + 1`. */
  lemma {:induction false} AddResourcesContain(md: string, rs: seq<LearningResource>, i: nat)
    requires i < |rs|
    ensures Contains(AddResources(md, rs), ResourceEntry(i + 1, rs[i]))
  {
    var before := AddResources(md, rs[..|rs| - 1]);
    var r := rs[|rs| - 1];
    AddResourceExtends(before, |rs|, r);
    if i == |rs| - 1 {
      ContainsMiddle(before, ResourceEntry(|rs|, r), []);
      assert before + ResourceEntry(|rs|, r) + [] == AddResource(before, |rs|, r);
    } else {
      assert rs[..|rs| - 1][i] == rs[i];
      AddResourcesContain(md, rs[..|rs| - 1], i);
      StartsWithContains(AddResources(md, rs), before, ResourceEntry(i + 1, rs[i]));
    }
  }

  /** Every concept with resources has its section. */
  lemma {:induction false} AddConceptsContain(md: string, byConcept: seq<(string, seq<LearningResource>)>, k: nat)
    requires k < |byConcept| && byConcept[k].1 != []
    ensures Contains(AddConcepts(md, byConcept), ConceptSection(byConcept[k].0, byConcept[k].1))
  {
    var before := AddConcepts(md, byConcept[..|byConcept| - 1]);
    var (name, rs) := byConcept[|byConcept| - 1];
    AddConceptShift(before, name, rs);
    if k == |byConcept| - 1 {
      ContainsMiddle(before, ConceptSection(name, rs), []);
      assert before + ConceptSection(name, rs) + [] == AddConcepts(md, byConcept);
    } else {
      assert byConcept[..|byConcept| - 1][k] == byConcept[k];
      AddConceptsContain(md, byConcept[..|byConcept| - 1], k);
      if rs != [] {
        StartsWithConcat(before, ConceptSection(name, rs));
        StartsWithContains(AddConcepts(md, byConcept), before, ConceptSection(byConcept[k].0, byConcept[k].1));
      }
    }
  }

  /** The entries that have at least one resource, in order. */
  function WithResources(byConcept: seq<(string, seq<LearningResource>)>): (r: seq<(string, seq<LearningResource>)>)
    ensures forall i :: 0 <= i < |r| ==> r[i] in byConcept && r[i].1 != []
  {
    if byConcept == [] then []
    else
      var init := WithResources(byConcept[..|byConcept| - 1]);
      if byConcept[|byConcept| - 1].1 != [] then init + [byConcept[|byConcept| - 1]] else init
  }

  /** Dropping the concepts without resources leaves the resources part
      unchanged. */
  lemma {:induction false} EmptyConceptsSkipped(md: string, byConcept: seq<(string, seq<LearningResource>)>)
    ensures AddConcepts(md, byConcept) == AddConcepts(md, WithResources(byConcept))
  {
    if byConcept != [] {
      var init := byConcept[..|byConcept| - 1];
      var last := byConcept[|byConcept| - 1];
      EmptyConceptsSkipped(md, init);
      if last.1 != [] {
        var kept := WithResources(init);
        assert (kept + [last])[..|kept|] == kept;
      }
    }
  }

  // ---------------------------------------------------------------------
  // What the report promises.
  // ---------------------------------------------------------------------

  /** The header opens with the title line. */
  lemma HeaderTitle(task: string, timestamp: string, complexity: string)
    ensures StartsWith(Header(task, timestamp, complexity), TitleLine(task))
  {
    var t := TitleLine(task);
    var a := t + "\n\n**Generated:** " + timestamp + "  \n**Estimated Complexity:** ";
    var c := a + Title(complexity) + "\n\n## Task Description\n\n";
    StartsWithConcat(t, "\n\n**Generated:** ");
    StartsWithAppend(t + "\n\n**Generated:** ", t, timestamp);
    StartsWithAppend(t + "\n\n**Generated:** " + timestamp, t, "  \n**Estimated Complexity:** ");
    StartsWithAppend(a, t, Title(complexity));
    StartsWithAppend(a + Title(complexity), t, "\n\n## Task Description\n\n");
    StartsWithAppend(c, t, task);
    StartsWithAppend(c + task, t, "\n\n## Prerequisites\n\n");
  }

  /** The report up to the resources part is a prefix of the report. */
  lemma OrderInMarkdown(b: TaskBreakdown, byConcept: Dict<string, seq<LearningResource>>, timestamp: string)
    ensures var header := Header(b.taskDescription, timestamp, b.estimatedComplexity);
            var categories := AddCategories(header, GroupBy(b.prerequisites, CategoryOf).entries);
            StartsWith(Markdown(b, byConcept, timestamp), AddOrder(categories, b.suggestedLearningOrder))
  {
    var header := Header(b.taskDescription, timestamp, b.estimatedComplexity);
    var categories := AddCategories(header, GroupBy(b.prerequisites, CategoryOf).entries);
    var order := AddOrder(categories, b.suggestedLearningOrder);
    var concepts := AddConcepts(order + ResourcesHeading, byConcept.entries);
    AddConceptsExtends(order + ResourcesHeading, byConcept.entries);
    StartsWithAppend(concepts, order + ResourcesHeading, Footer);
    StartsWithConcat(order, ResourcesHeading);
    StartsWithTrans(Markdown(b, byConcept, timestamp), order + ResourcesHeading, order);
  }

  /** The report up to the categories part is a prefix of the report. */
  lemma CategoriesInMarkdown(b: TaskBreakdown, byConcept: Dict<string, seq<LearningResource>>, timestamp: string)
    ensures StartsWith(Markdown(b, byConcept, timestamp),
                       AddCategories(Header(b.taskDescription, timestamp, b.estimatedComplexity), GroupBy(b.prerequisites, CategoryOf).entries))
  {
    var header := Header(b.taskDescription, timestamp, b.estimatedComplexity);
    var categories := AddCategories(header, GroupBy(b.prerequisites, CategoryOf).entries);
    OrderInMarkdown(b, byConcept, timestamp);
    AddOrderExtends(categories, b.suggestedLearningOrder);
    StartsWithTrans(Markdown(b, byConcept, timestamp), AddOrder(categories, b.suggestedLearningOrder), categories);
  }

  /** The report opens with its title line and ends with the footer. */
  lemma MarkdownFrame(b: TaskBreakdown, byConcept: Dict<string, seq<LearningResource>>, timestamp: string)
    ensures var md := Markdown(b, byConcept, timestamp);
            StartsWith(md, TitleLine(b.taskDescription)) && |Footer| <= |md| && md[|md| - |Footer|..] == Footer
  {
    var header := Header(b.taskDescription, timestamp, b.estimatedComplexity);
    var categories := AddCategories(header, GroupBy(b.prerequisites, CategoryOf).entries);
    var md := Markdown(b, byConcept, timestamp);
    CategoriesInMarkdown(b, byConcept, timestamp);
    AddCategoriesExtends(header, GroupBy(b.prerequisites, CategoryOf).entries);
    HeaderTitle(b.taskDescription, timestamp, b.estimatedComplexity);
    StartsWithTrans(md, categories, header);
    StartsWithTrans(md, header, TitleLine(b.taskDescription));
    EndsWithFooter(AddConcepts(AddOrder(categories, b.suggestedLearningOrder) + ResourcesHeading, byConcept.entries));
  }

  lemma EndsWithFooter(body: string)
    ensures var md := body + Footer;
            |Footer| <= |md| && md[|md| - |Footer|..] == Footer
  {
  }

  /** Under the heading of a category all prerequisites of that category are
      listed in their original order. */
  lemma CategoryListed(b: TaskBreakdown, byConcept: Dict<string, seq<LearningResource>>, timestamp: string, c: string)
    requires c in KeysOf(b.prerequisites, CategoryOf)
    ensures Contains(Markdown(b, byConcept, timestamp), CategorySection(c, Group(b.prerequisites, CategoryOf, c)))
  {
    var ps := b.prerequisites;
    var d := GroupBy(ps, CategoryOf);
    var group := Group(ps, CategoryOf, c);
    GroupByGet(ps, CategoryOf, c);
    GetSome(d, c);
    var j :| 0 <= j < |d.entries| && d.entries[j] == (c, group);
    var header := Header(b.taskDescription, timestamp, b.estimatedComplexity);
    AddCategoriesContain(header, d.entries, j);
    CategoriesInMarkdown(b, byConcept, timestamp);
    StartsWithContains(Markdown(b, byConcept, timestamp), AddCategories(header, d.entries), CategorySection(c, group));
  }

  /** A category's section lists the entry of each of its prerequisites. */
  lemma SectionLists(c: string, group: seq<Prerequisite>, i: nat)
    requires i < |group|
    ensures Contains(CategorySection(c, group), PrereqEntry(group[i]))
  {
    AddPrereqsContain(Heading(c), group, i);
    StartsWithConcat(AddPrereqs(Heading(c), group), "\n");
    StartsWithContains(CategorySection(c, group), AddPrereqs(Heading(c), group), PrereqEntry(group[i]));
  }

  /** Every prerequisite is listed with its badge, and under the heading of
      its category all prerequisites of that category are listed in their
      original order. */
  lemma PrerequisiteListed(b: TaskBreakdown, byConcept: Dict<string, seq<LearningResource>>, timestamp: string, k: nat)
    requires k < |b.prerequisites|
    ensures var p := b.prerequisites[k];
            var md := Markdown(b, byConcept, timestamp);
            && Contains(md, CategorySection(CategoryOf(p), Group(b.prerequisites, CategoryOf, CategoryOf(p))))
            && Contains(CategorySection(CategoryOf(p), Group(b.prerequisites, CategoryOf, CategoryOf(p))), PrereqEntry(p))
            && Contains(md, PrereqEntry(p))
  {
    var ps := b.prerequisites;
    var p := ps[k];
    var c := CategoryOf(p);
    var group := Group(ps, CategoryOf, c);
    assert KeysOf(ps, CategoryOf)[k] == c;
    CategoryListed(b, byConcept, timestamp, c);
    InOwnGroup(ps, CategoryOf, k);
    var i :| 0 <= i < |group| && group[i] == p;
    SectionLists(c, group, i);
    ContainsTrans(Markdown(b, byConcept, timestamp), CategorySection(c, group), PrereqEntry(p));
  }

  /** The learning order is listed, numbered from 1, under its heading. */
  lemma OrderListed(b: TaskBreakdown, byConcept: Dict<string, seq<LearningResource>>, timestamp: string, i: nat)
    requires i < |b.suggestedLearningOrder|
    ensures Contains(Markdown(b, byConcept, timestamp), OrderHeading)
    ensures Contains(Markdown(b, byConcept, timestamp), OrderLine(i + 1, b.suggestedLearningOrder[i]))
    ensures var header := Header(b.taskDescription, timestamp, b.estimatedComplexity);
            var front := AddCategories(header, GroupBy(b.prerequisites, CategoryOf).entries) + OrderHeading;
            var lines := AddOrderLines([], b.suggestedLearningOrder);
            && StartsWith(Markdown(b, byConcept, timestamp), front + lines)
            && Contains(lines, OrderLine(i + 1, b.suggestedLearningOrder[i]))
  {
    var header := Header(b.taskDescription, timestamp, b.estimatedComplexity);
    var categories := AddCategories(header, GroupBy(b.prerequisites, CategoryOf).entries);
    var order := b.suggestedLearningOrder;
    var md := Markdown(b, byConcept, timestamp);
    OrderInMarkdown(b, byConcept, timestamp);
    AddOrderExtends(categories, order);
    StartsWithTrans(md, AddOrder(categories, order), categories + OrderHeading);
    ContainsMiddle(categories, OrderHeading, []);
    assert categories + OrderHeading + [] == categories + OrderHeading;
    StartsWithContains(md, categories + OrderHeading, OrderHeading);
    var lines := AddOrderLines(categories + OrderHeading, order);
    AddOrderLinesContain(categories + OrderHeading, order, i);
    StartsWithConcat(lines, "\n");
    StartsWithTrans(md, AddOrder(categories, order), lines);
    StartsWithContains(md, lines, OrderLine(i + 1, order[i]));
    AddOrderLinesShift(categories + OrderHeading, [], order);
    assert categories + OrderHeading + [] == categories + OrderHeading;
    AddOrderLinesContain([], order, i);
  }

  /** Every concept with resources has its section, and in it the `i`-th
      resource is numbered `i + 1`, in list order. */
  lemma ConceptListed(b: TaskBreakdown, byConcept: Dict<string, seq<LearningResource>>, timestamp: string, k: nat, i: nat)
    requires k < |byConcept.entries| && i < |byConcept.entries[k].1|
    ensures var (name, rs) := byConcept.entries[k];
            && Contains(Markdown(b, byConcept, timestamp), ConceptSection(name, rs))
            && Contains(ConceptSection(name, rs), ResourceEntry(i + 1, rs[i]))
            && Contains(Markdown(b, byConcept, timestamp), ResourceEntry(i + 1, rs[i]))
  {
    var (name, rs) := byConcept.entries[k];
    var header := Header(b.taskDescription, timestamp, b.estimatedComplexity);
    var categories := AddCategories(header, GroupBy(b.prerequisites, CategoryOf).entries);
    var order := AddOrder(categories, b.suggestedLearningOrder);
    var concepts := AddConcepts(order + ResourcesHeading, byConcept.entries);
    var md := Markdown(b, byConcept, timestamp);
    AddConceptsContain(order + ResourcesHeading, byConcept.entries, k);
    StartsWithConcat(concepts, Footer);
    StartsWithContains(md, concepts, ConceptSection(name, rs));
    var resources := AddResources(Heading(name), rs);
    AddResourcesContain(Heading(name), rs, i);
    StartsWithConcat(resources, "\n");
    StartsWithContains(ConceptSection(name, rs), resources, ResourceEntry(i + 1, rs[i]));
    ContainsTrans(md, ConceptSection(name, rs), ResourceEntry(i + 1, rs[i]));
  }

  // ---------------------------------------------------------------------
  // generate_markdown
  // ---------------------------------------------------------------------

  /** Fills `by_category`: each prerequisite goes to the end of the list of
      its heading, which is created empty when first seen. */
  method GroupByCategory(ps: seq<Prerequisite>) returns (byCategory: Dict<string, seq<Prerequisite>>)
    ensures byCategory == GroupBy(ps, CategoryOf)
  {
    byCategory := Dict([]);
    for i := 0 to |ps|
      invariant byCategory == GroupBy(ps[..i], CategoryOf)
    {
      GroupByStep(ps, CategoryOf, i);
      var prereq := ps[i];
      var category := Title(prereq.category);
      assert category == CategoryOf(prereq);
      SetDefaultAppend(byCategory, category, prereq);
      if category !in byCategory.Keys() {
        byCategory := byCategory.Put(category, []);
      }
      byCategory := byCategory.Put(category, byCategory.Get(category).value + [prereq]);
    }
    assert ps[..|ps|] == ps;
  }

  method AppendPrereqs(md0: string, prereqs: seq<Prerequisite>) returns (md: string)
    ensures md == AddPrereqs(md0, prereqs)
  {
    md := md0;
    for i := 0 to |prereqs|
      invariant md == AddPrereqs(md0, prereqs[..i])
    {
      assert prereqs[..i + 1][..i] == prereqs[..i];
      var prereq := prereqs[i];
      var priorityBadge := Badge(prereq.priority);
      md := md + ("- **" + prereq.name + "** (" + priorityBadge + ")\n");
      if prereq.description != [] {
        md := md + ("  - " + prereq.description + "\n");
      }
    }
    assert prereqs[..|prereqs|] == prereqs;
  }

  method AppendCategories(md0: string, groups: seq<(string, seq<Prerequisite>)>) returns (md: string)
    ensures md == AddCategories(md0, groups)
  {
    md := md0;
    for g := 0 to |groups|
      invariant md == AddCategories(md0, groups[..g])
    {
      assert groups[..g + 1][..g] == groups[..g];
      var (category, prereqs) := groups[g];
      md := md + ("### " + category + "\n\n");
      md := AppendPrereqs(md, prereqs);
      md := md + "\n";
    }
    assert groups[..|groups|] == groups;
  }

  method AppendOrder(md0: string, order: seq<string>) returns (md: string)
    ensures md == AddOrder(md0, order)
  {
    md := md0;
    if order != [] {
      md := md + "## Suggested Learning Order\n\n";
      ghost var start := md;
      for i := 0 to |order|
        invariant md == AddOrderLines(start, order[..i])
      {
        assert order[..i + 1][..i] == order[..i];
        md := md + (NatToString(i + 1) + ". " + order[i] + "\n");
      }
      assert order[..|order|] == order;
      md := md + "\n";
    }
  }

  method AppendResources(md0: string, resources: seq<LearningResource>) returns (md: string)
    ensures md == AddResources(md0, resources)
  {
    md := md0;
    for i := 0 to |resources|
      invariant md == AddResources(md0, resources[..i])
    {
      assert resources[..i + 1][..i] == resources[..i];
      var resource := resources[i];
      md := md + (NatToString(i + 1) + ". [" + resource.title + "](" + resource.url + ")\n");
      if resource.description != [] {
        md := md + ("   - " + resource.description + "\n");
      }
    }
    assert resources[..|resources|] == resources;
  }

  method AppendConcepts(md0: string, byConcept: seq<(string, seq<LearningResource>)>) returns (md: string)
    ensures md == AddConcepts(md0, byConcept)
  {
    md := md0;
    for c := 0 to |byConcept|
      invariant md == AddConcepts(md0, byConcept[..c])
    {
      assert byConcept[..c + 1][..c] == byConcept[..c];
      var (conceptName, resources) := byConcept[c];
      if resources == [] {
        continue;
      }
      md := md + ("### " + conceptName + "\n\n");
      md := AppendResources(md, resources);
      md := md + "\n";
    }
    assert byConcept[..|byConcept|] == byConcept;
  }

  /** The report for `breakdown` and the resources found, stamped with
      `timestamp`. */
  method GenerateMarkdown(breakdown: TaskBreakdown, resourcesByConcept: Dict<string, seq<LearningResource>>, timestamp: string)
    returns (md: string)
    ensures md == Markdown(breakdown, resourcesByConcept, timestamp)
    ensures StartsWith(md, TitleLine(breakdown.taskDescription))
    ensures |Footer| <= |md| && md[|md| - |Footer|..] == Footer
  {
    md := "# Learning Resources for: " + breakdown.taskDescription + "\n\n**Generated:** " + timestamp
      + "  \n**Estimated Complexity:** " + Title(breakdown.estimatedComplexity) + "\n\n## Task Description\n\n"
      + breakdown.taskDescription + "\n\n## Prerequisites\n\n";
    var byCategory := GroupByCategory(breakdown.prerequisites);
    md := AppendCategories(md, byCategory.entries);
    md := AppendOrder(md, breakdown.suggestedLearningOrder);
    md := md + "## Learning Resources\n\n";
    md := AppendConcepts(md, resourcesByConcept.entries);
    md := md + "---\n\n*Generated by LearnMate AI Agent*\n";
    MarkdownFrame(breakdown, resourcesByConcept, timestamp);
  }
}
