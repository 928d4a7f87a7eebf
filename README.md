# LearnMate core, modelled in Dafny

LearnMate takes a description of a programming task and lists what must be
learned to do it. An AI model breaks the task into prerequisites. A web
search then finds learning resources for each prerequisite and filters and
ranks them. Finally a markdown report is written. This project models the
deterministic core of that pipeline and proves properties of the model:

- **Task analyzer** (`task_analyzer.dfy`, module `TaskAnalyzer`) has the
  `Prerequisite` and `TaskBreakdown` records. It also holds:
  - the line parser used when the model's answer holds no JSON;
  - the keyword fallback used when the analysis fails;
  - the building and stable priority sort of records from an answer that
    was already decoded.
- **Resource finder** (`resource_finder.dfy`, module `ResourceFinder`) covers:
  - the five queries sent per concept;
  - the filter chain on every hit (duplicate URL, missing URL or title,
    Stack Overflow, relevance, quality gate);
  - the educational-value score;
  - the stable best-first ranking cut to `maxResults`;
  - the batch over the 10 most important prerequisites.
- **Output formatter** (`output_formatter.dfy`, module `OutputFormatter`)
  covers the markdown report and the 60-character title cut of the console
  table.
- **Shared support**:
  - `strings.dfy` (`Strings`) holds the string operations of Python's
    standard library that the code uses;
  - `collections.dfy` (`Collections`) holds the slice `s[:n]`, a stable sort,
    an insertion-ordered dictionary and grouping;
  - `wrappers.dfy` (`Wrappers`) holds `Option`.

How Python constructs become Dafny:

- **The search engine** is the parameter `search`. It maps a query to
  `Failed`, which stands for the raised exception, or to the list of hits.
  In the batch, `search` also takes the position of the prerequisite, so
  two searches for the same name may give different answers.
- **Python's `sort`/`sorted`** are stable, so they are modelled by a stable
  insertion sort (`Collections.SortBy`). That sort is proved sorted, a
  permutation and stable. `reverse=True` on the score is the stable
  ascending sort of the negated score.
- **A `dict`** is a `Collections.Dict`: a list of entries in insertion
  order, where `Put` replaces a value in place or appends a new key.
- **Loops that build a list or a string** are methods with loops. Each is
  proved equal to a function that folds over its input in the same order,
  and the properties are lemmas about those functions.
- **Fixed fields**: the resource finder's fields are never updated after
  construction. `maxResults` and `search` are therefore parameters, not
  fields of a class.

Code behaviour a reader might not expect:

- Relevance (`resource_finder.py:100-109`) depends only on keywords occurring
  in the lower-cased title or URL: one of the first five keywords must occur,
  and these may include words from the parentheses.
- The quality gate returns early on an educational marker
  (`resource_finder.py:365-403`). The LMS, keyword and top-level-domain
  checks are then skipped, so `has_educational_domain` at
  `resource_finder.py:449` is always false where it is computed.
- The score is never negative (`resource_finder.py:292`), so the test
  `resource_score >= 0` at `resource_finder.py:121` always passes.
- `"stackoverflow.com"` is on the educational list, but excluded domains are
  checked first, so a Stack Overflow URL is never valid
  (`ResourceFinder.StackOverflowNeverValid`).

## Model

| member | source | states |
|---|---|---|
| Strings.Lower | agent/resource_finder.py:84-86 | `str.lower` on ASCII: same length, each letter lowered, no upper-case letter left |
| Strings.Strip | agent/task_analyzer.py:204 | `str.strip()`: no longer than the input, and no white space at either end |
| Strings.StripSlice | agent/task_analyzer.py:204 | `str.strip()` keeps a contiguous slice of the input, and every character dropped before or after it is white space |
| Strings.SplitOn | agent/task_analyzer.py:201 | `text.split('\n')` gives at least one part and no part holds the separator |
| Strings.JoinSplitOn | agent/task_analyzer.py:201 | joining the parts of `split('\n')` with the separator gives back the text, so no character is lost |
| Strings.Before | agent/task_analyzer.py:211 | `line.split(c)[0]` is the prefix before the first `c`; it is shorter than the line exactly when `c` occurs |
| Strings.RemoveParens | agent/resource_finder.py:90 | removing every `(...)` group leaves no `(` that a later `)` closes, and a name without `(` or without `)` is unchanged |
| Strings.RemoveParensPlain | agent/resource_finder.py:90 | text before the first `(` is kept as it is, in front of what the rest becomes |
| Strings.RemoveParensGroup | agent/resource_finder.py:90 | a `(`, a run without `)` and the closing `)` are dropped as a whole |
| Strings.FirstParenGroup | agent/resource_finder.py:93 | the first `(...)` group is non-empty, holds no `)` and occurs between parentheses in the name |
| Strings.FirstParenGroupFirst | agent/resource_finder.py:93-94 | there is no group exactly when no `(` is followed by a non-empty run and a `)`; otherwise the group is the one at the first such `(`, up to the next `)` |
| Strings.SplitWsSpace | agent/resource_finder.py:91 | `str.split()`: a white-space character separates the words on its two sides |
| Strings.SplitWsWord | agent/resource_finder.py:91 | `str.split()`: a non-empty run without white space is a single word |
| Strings.SplitWsBlank | agent/resource_finder.py:91 | `str.split()`: a string of only white space has no word |
| Strings.Title | agent/output_formatter.py:180 | `str.title()` on ASCII: same length; a letter after a letter is lower-cased, any other letter upper-cased, other characters kept |
| Strings.UrlPathCut | agent/resource_finder.py:423 | `url.split('/', 3)[-1]`: the part after a `/` at which the URL has passed three slashes, or all its slashes when it has fewer |
| Strings.UrlPath | agent/resource_finder.py:423 | the path is `""` when the URL has no `/` |
| Strings.NatToStringValue | agent/output_formatter.py:197-198 | the decimal numeral of `n` used in numbered lists reads back as `n` |
| Collections.Take | agent/resource_finder.py:145 | Python's `s[:n]`: a prefix of length `min(n, len)` for `n >= 0`, and `len + n` (at least 0) for negative `n` |
| Collections.SortByPermutation | agent/task_analyzer.py:176 | the stable sort is a permutation of its input |
| Collections.SortBySorted | agent/task_analyzer.py:176 | the stable sort's result is ordered by the key |
| Collections.SortByStable | agent/task_analyzer.py:176 | for every key value, the elements with that key keep their input order |
| Collections.SortByDistinct | agent/resource_finder.py:144 | sorting keeps an injective field (the URL) injective |
| Collections.Dedup | agent/resource_finder.py:174-179 | every element is kept once, nothing else appears, and no element appears twice |
| Collections.DedupOrder | agent/resource_finder.py:174-179 | the kept elements are in the order of their first occurrences |
| Collections.TakeSortBySelects | agent/resource_finder.py:144-145 | the first `n` after a stable sort are ordered, drawn from the input, none has a larger key than anything left out, and all of the input when `n` covers it |
| Collections.TakeSortByStable | agent/resource_finder.py:144-145 | the first `n` after a stable sort keep, for each key, a prefix of the input's elements with that key in input order |
| Collections.PutGet | agent/resource_finder.py:179 | after `d[k] = v`, `d[k]` is `v` and every other key keeps its value |
| Collections.PutPut | agent/resource_finder.py:179 | assigning a key twice is the same as assigning only the second value |
| Collections.PutAllFromEmpty | agent/resource_finder.py:174-179 | assigning pairs in order gives the distinct keys in first-assignment order, never a key twice, and for each key its last value |
| Collections.GroupByKeys | agent/output_formatter.py:178-183 | the groups appear in the order in which their keys first occur |
| Collections.GroupByGet | agent/output_formatter.py:178-183 | a key's group is exactly the elements with that key, in input order, and a key that never occurs has no group |
| Collections.InOwnGroup | agent/output_formatter.py:178-183 | every element is in the group of its own key |
| TaskAnalyzer.Names | agent/task_analyzer.py:226 | `[p.name for p in ps]`: the names, position by position |
| TaskAnalyzer.DropNumbering | agent/task_analyzer.py:212 | `re.sub(r'^[\d\-\*\.\s]+', '', s)`: a suffix of `s` that does not start with a numbering character, and everything dropped is one |
| TaskAnalyzer.LineItemName | agent/task_analyzer.py:205-214 | a name is taken only from a line of at least 3 characters that starts with a digit, `-` or `*`; the name is longer than 2 characters, holds no `:` or `,` and does not start with a numbering character |
| TaskAnalyzer.LineItemNameValue | agent/task_analyzer.py:205-214 | a line yields a name exactly when it has at least 3 characters, starts with a digit, `-` or `*`, and its text before the first `:` and then the first `,`, stripped and without leading numbering, is longer than 2 characters; the name is that text |
| TaskAnalyzer.ExtractItemsShape | agent/task_analyzer.py:203-221 | every item collected is numbered by its position, has category "concept", has one of the stripped lines as its description, and has that line's name |
| TaskAnalyzer.TextBreakdownShape | agent/task_analyzer.py:223-228 | the text breakdown keeps at most 12 items; its learning order is the names of the first 10; its complexity is "medium" |
| TaskAnalyzer.ParseLine | agent/task_analyzer.py:204-221 | one stripped line adds the item that the parser's step function adds, or nothing |
| TaskAnalyzer.ExtractPrerequisitesFromText | agent/task_analyzer.py:190-228 | the loop computes the text breakdown, with the shape above |
| TaskAnalyzer.FirstPassEmpty | agent/task_analyzer.py:306-317 | the first pass finds nothing exactly when no keyword of the priority list that the table knows occurs in the task |
| TaskAnalyzer.SecondPassGrows | agent/task_analyzer.py:319-331 | the second pass only appends to what the first pass found |
| TaskAnalyzer.SecondPassSaturated | agent/task_analyzer.py:323-324 | once 10 entries are there, the rest of the second pass adds nothing, which is what the `break` relies on |
| TaskAnalyzer.SecondPassEmpty | agent/task_analyzer.py:319-331 | started empty, the second pass finds nothing exactly when no keyword outside the priority list occurs |
| TaskAnalyzer.TechListAppend | agent/task_analyzer.py:310-317 | appending a new technology whose keyword occurs keeps the list at most 10 long, numbered, free of duplicate names and named after keywords in the task |
| TaskAnalyzer.FirstPassLoop | agent/task_analyzer.py:306-317 | the first loop computes the first pass, and `found_techs` is exactly the set of names added |
| TaskAnalyzer.SecondPassLoop | agent/task_analyzer.py:319-331 | the second loop, including its `break`, computes the second pass and keeps the list's shape |
| TaskAnalyzer.TechnologyPasses | agent/task_analyzer.py:290-331 | the second pass runs only when the first found fewer than 8; the first pass's result is a prefix; the list is empty exactly when no keyword of the table occurs |
| TaskAnalyzer.EmptyPasses | agent/task_analyzer.py:306-331 | the two passes find nothing exactly when no keyword of the table occurs |
| TaskAnalyzer.GeneralConcepts | agent/task_analyzer.py:333-358 | at most three concepts, numbered from 0; none exactly when no web, application, api, database or data topic occurs; the web concept exactly when "web" or "application" occurs, the API concept exactly when "api" occurs, the database concept exactly when "database" or "data" occurs, in the order web, API, database |
| TaskAnalyzer.GeneralListShape | agent/task_analyzer.py:333-358 | for any outcome of the three topic tests, the concepts added are those whose test held, in the order web, API, database, numbered from 0 |
| TaskAnalyzer.TechListNumbered | agent/task_analyzer.py:310-316 | technology entries are numbered by position, and each is named after a keyword in the task |
| TaskAnalyzer.GenericOnlyWhenNothingMatched | agent/task_analyzer.py:333-367 | the generic entry is the whole list exactly when no technology keyword and no general topic occurs |
| TaskAnalyzer.FallbackWith | agent/task_analyzer.py:230-377 | the fallback over any keyword table: 1 to 10 entries, numbered, no name twice; its learning order is the names of the first 8; the first pass is a prefix, and the whole list when it has at least 8 entries; the generic entry is returned exactly when nothing matched |
| TaskAnalyzer.CreateFallbackBreakdown | agent/task_analyzer.py:230-377 | the same guarantees for the source's own 42-keyword table and 20-keyword priority list |
| TaskAnalyzer.AllFromDecoded | agent/task_analyzer.py:165-173 | one record per decoded object, in order, with the defaults for missing keys |
| TaskAnalyzer.ParseAnalysisResult | agent/task_analyzer.py:146-188 | without decoded JSON, the text breakdown; with decoded JSON, the records sorted by priority, as a permutation, ties in input order, and the order and complexity taken from the object or defaulted |
| ResourceFinder.Without | agent/resource_finder.py:91 | the words kept are words of the input and none is a stop word |
| ResourceFinder.WithoutMembers | agent/resource_finder.py:91 | a word is kept exactly when it is a word of the input and not a stop word |
| ResourceFinder.WithoutConcat | agent/resource_finder.py:91 | the filter keeps the words' order: it distributes over concatenation |
| ResourceFinder.LongerThan | agent/resource_finder.py:96 | the words kept are words of the input and longer than the bound |
| ResourceFinder.LongerThanMembers | agent/resource_finder.py:96 | a word is kept exactly when it is a word of the input longer than the bound |
| ResourceFinder.LongerThanConcat | agent/resource_finder.py:96 | the filter keeps the words' order: it distributes over concatenation |
| ResourceFinder.ParenWords | agent/resource_finder.py:93-96 | every word taken from the parentheses is longer than 2 characters |
| ResourceFinder.RelevanceFirstFive | agent/resource_finder.py:100-106 | with keywords, a hit is relevant exactly when one of the first five keywords occurs in its title or URL; the separate test of the first keyword adds nothing |
| ResourceFinder.ConceptBonus | agent/resource_finder.py:267-281 | the concept part of the score is 0, 2 or 4, and it is positive only when the name has a core word |
| ResourceFinder.Score | agent/resource_finder.py:186-292 | the score lies in 0..23; it is at least 1 without a low-quality title word and at least 9 with a high-value marker; it is 0 exactly when the title is low-quality and no bonus applies |
| ResourceFinder.NonAsciiCount | agent/resource_finder.py:360 | no more non-ASCII characters than characters |
| ResourceFinder.NonAsciiCountRange | agent/resource_finder.py:360 | the count is 0 exactly when every character is at most 127, and the full length exactly when every character is above 127 |
| ResourceFinder.NonAsciiCountConcat | agent/resource_finder.py:360 | `sum(1 for c in title if ord(c) > 127)` adds up over the pieces of a title |
| ResourceFinder.IsValid | agent/resource_finder.py:294-459 | a non-English or excluded domain rejects; a title more than 30% non-ASCII rejects; what passes has an educational marker or an English top-level domain; without a marker it also passed the LMS check and has a keyword or a concept word in its title |
| ResourceFinder.StackOverflowNeverValid | agent/resource_finder.py:335-356 | a Stack Overflow URL is never valid, although the educational list at :367 names it |
| ResourceFinder.EducationalAccepted | agent/resource_finder.py:365-403 | past the domain and non-ASCII checks, an educational marker accepts at once |
| ResourceFinder.SearchQueries | agent/resource_finder.py:52-58 | five queries are sent per concept |
| ResourceFinder.QueriesMentionConcept | agent/resource_finder.py:52-58 | every query contains the concept name |
| ResourceFinder.Describe | agent/resource_finder.py:125 | the description is the body when it has at most 200 characters, and otherwise its first 200 followed by "..." |
| ResourceFinder.Resources | agent/resource_finder.py:145 | `[r[1] for r in ...]`: the resources, position by position |
| ResourceFinder.AdmitOk | agent/resource_finder.py:67-130 | one hit adds at most one acceptable resource with its own score and a URL not seen before, and keeps what came before |
| ResourceFinder.AdmitAllOk | agent/resource_finder.py:67-130 | the hits of one query keep the accepted list acceptable and only append to it |
| ResourceFinder.GatherOk | agent/resource_finder.py:62-141 | whatever the engine returns, every gathered resource is acceptable, no URL occurs twice, and earlier queries' resources stay in front |
| ResourceFinder.AllFailed | agent/resource_finder.py:138-141 | when every query fails nothing is gathered |
| ResourceFinder.RankedAccepted | agent/resource_finder.py:144-145 | ranking keeps only acceptable resources with distinct URLs |
| ResourceFinder.RankedOrder | agent/resource_finder.py:144-145 | the ranking keeps at most `maxResults`, best score first; nothing left out scores above anything kept; when all fit it is a permutation |
| ResourceFinder.RankedStable | agent/resource_finder.py:144-145 | for each score, the ranking keeps a prefix of the resources accepted with that score, in the order of acceptance, and all of them when every resource fits |
| ResourceFinder.AdmitHit | agent/resource_finder.py:69-130 | one pass of the inner loop body is the filter chain, and `seen_urls` stays the set of accepted URLs |
| ResourceFinder.AdmitHits | agent/resource_finder.py:67-130 | the inner loop over the hits of one query is the filter chain applied to each hit in order |
| ResourceFinder.FindResourcesForConcept | agent/resource_finder.py:31-158 | the result is the ranked accepted list: at most `maxResults` resources, each acceptable, distinct URLs, non-increasing score, for each score a prefix of the resources accepted with it in acceptance order, and empty when every query fails |
| ResourceFinder.Searched | agent/resource_finder.py:172 | at most 10 prerequisites are searched |
| ResourceFinder.SearchedSelects | agent/resource_finder.py:172 | the searched prerequisites are the 10 (or all, when fewer) of smallest priority number, in priority order, ties in input order, and none left out has a smaller number than one searched |
| ResourceFinder.FindResourcesForPrerequisites | agent/resource_finder.py:160-184 | the dictionary is what assigning each searched name its search result, in priority order, builds |
| ResourceFinder.BatchShape | agent/resource_finder.py:160-184 | one entry per distinct searched name, in first-search order, at most 10, no key twice; each name holds the result of its last search |
| OutputFormatter.TruncateTitle | agent/output_formatter.py:106 | a title of at most 60 characters is kept; a longer one becomes its first 60 characters followed by "...", 63 in all |
| OutputFormatter.TruncateTitleIdempotent | agent/output_formatter.py:106 | truncating a displayed title again changes nothing |
| OutputFormatter.Badge | agent/output_formatter.py:188 | priority 0 is exactly High, 1 exactly Medium, anything else exactly Low |
| OutputFormatter.AddOrderExtends | agent/output_formatter.py:195-199 | the order part only appends; it adds nothing exactly when the order is empty, and otherwise starts with its heading |
| OutputFormatter.EmptyConceptsSkipped | agent/output_formatter.py:204-206 | concepts without resources contribute nothing to the report |
| OutputFormatter.MarkdownFrame | agent/output_formatter.py:164-215 | the report opens with the title line and ends with the footer |
| OutputFormatter.CategoryListed | agent/output_formatter.py:178-192 | every category that occurs has its section listing all its prerequisites in their original order |
| OutputFormatter.PrerequisiteListed | agent/output_formatter.py:178-192 | every prerequisite's entry, with its badge, is in its category's section, and that section is in the report |
| OutputFormatter.OrderListed | agent/output_formatter.py:195-199 | with a learning order, the report starts with the categories, the order heading and the numbered lines, and those lines list the `i`-th item numbered `i + 1` |
| OutputFormatter.ConceptListed | agent/output_formatter.py:204-213 | every concept with resources has its section in the report, and that section lists the `i`-th resource numbered `i + 1` |
| OutputFormatter.GroupByCategory | agent/output_formatter.py:178-183 | the grouping loop builds the category grouping by title-cased category in first-occurrence order |
| OutputFormatter.AppendPrereqs | agent/output_formatter.py:187-191 | the loop over one category's prerequisites appends their entries in order |
| OutputFormatter.AppendCategories | agent/output_formatter.py:185-192 | the loop over the categories appends their sections in order |
| OutputFormatter.AppendOrder | agent/output_formatter.py:195-199 | the learning order part is appended only when the order is not empty |
| OutputFormatter.AppendResources | agent/output_formatter.py:209-212 | the loop over one concept's resources appends their numbered entries |
| OutputFormatter.AppendConcepts | agent/output_formatter.py:204-213 | the loop over the concepts appends the sections of those that have resources |
| OutputFormatter.GenerateMarkdown | agent/output_formatter.py:151-216 | the report is the specified markdown document; it opens with the title line and ends with the footer |

## Left out

- Calling the AI model (`analyze_task` and the Semantic Kernel chat service): this is network I/O. The model starts from the answer text, or from the decoded JSON object.
- JSON decoding and the `{.*}` regular-expression search in `_parse_analysis_result`: the decoded object is an `Option<DecodedAnalysis>` parameter. `None` stands for "no match or a decoding error". A decoded value with the wrong type is not modelled.
- Search I/O, `time.sleep`, `print`, the `debug_counts` tallies and the "Found …" messages: these are side effects that do not affect the result.
- An exception raised while a query's hits are half processed: only a query that fails as a whole (`Failed`) is modelled.
- `DDGS` construction and the `max_results=5` argument of the query: the engine is the `search` parameter, which returns any list.
- The Rich console methods of the output formatter (`display_task_analysis`, `display_resources`, `display_plan`, `display_code_example`, `display_tutor_response`, `show_progress`, `show_error`) and `save_markdown`: these are terminal and file I/O. The only logic in the console table, the 60-character title cut, is modelled as `TruncateTitle`.
- `datetime.now()` in `generate_markdown`: the timestamp is a parameter.
- Python's full Unicode `lower()`, `title()`, `isdigit()` and `isspace()`: the model uses ASCII letters, ASCII digits and ASCII white space only.
- The floating-point ratio test at `resource_finder.py:361`: it is compared exactly in integers (`10 * n > 3 * len`).
- A missing `href`, `title` or `body` of a hit: it is `None` read as `""`, which is what `get(key, "")` gives.
- The rest of the repository (the other agents, the web and Streamlit front ends, the command line): it is outside the modelled core.
- TaskAnalyzer.FirstPass: the source also skips a keyword whose table name is empty (`if tech_name`, `task_analyzer.py:310`); the model does not test this, because no name in the source's table is empty, so for that table the two agree.
- Collections.SortBy: its own contract states only the length. Sortedness, permutation and stability are stated by the lemmas SortBySorted, SortByPermutation and SortByStable.
- Collections.Dict.Put: its own contract states only the new key list. The values are stated by PutGet and PutPut.
- ResourceFinder.ParenWords: it states only the length bound of the words. Which words are taken follows from its definition, which mirrors the source's split.
