/**
  Navigation map of a markdown document: its `##` and `###` headings outside code fences, each
  with the line range of its section.
 */
module NavigationMap {
  import opened Sequences
  import opened Text

  datatype Heading = Heading(level: nat, title: string, line: nat)

  datatype Entry = Entry(level: nat, title: string, start: nat, end: nat)

  predicate IsFence(line: string) {
    StartsWith(LStrip(line), "```")
  }

  function FencesIn(lines: seq<string>): nat {
    if lines == [] then 0
    else FencesIn(lines[..|lines| - 1]) + if IsFence(lines[|lines| - 1]) then 1 else 0
  }

  predicate IsHeadingLine(line: string) {
    StartsWith(line, "## ") || StartsWith(line, "### ")
  }

  /** Line `n`, counted from 1, is a heading with an even number of fence lines before it. */
  predicate Listed(lines: seq<string>, n: nat)
    requires 1 <= n <= |lines|
  {
    IsHeadingLine(lines[n - 1]) && FencesIn(lines[..n - 1]) % 2 == 0
  }

  function Level(line: string): nat {
    if StartsWith(line, "## ") then 2 else 3
  }

  function Title(line: string): string
    requires IsHeadingLine(line)
  {
    Strip(line[Level(line) + 1..])
  }

  /** A fence line is blanks followed by three backticks. */
  lemma FenceMeans(blanks: string, rest: string)
    requires forall i :: 0 <= i < |blanks| ==> IsSpace(blanks[i])
    requires rest != "" ==> !IsSpace(rest[0])
    ensures IsFence(blanks + rest) <==> "```" <= rest
  {
    LStripBlanks(blanks, rest);
  }

  /** The title of a heading line is what follows its mark, trimmed. */
  lemma TitleMeans(rest: string)
    ensures IsHeadingLine("## " + rest) && Level("## " + rest) == 2 && Title("## " + rest) == Strip(rest)
    ensures IsHeadingLine("### " + rest) && Level("### " + rest) == 3 && Title("### " + rest) == Strip(rest)
  {
    var two, three := "## " + rest, "### " + rest;
    assert two[3..] == rest && three[4..] == rest && three[2] == '#' && two[..3] == "## " && three[..4] == "### ";
  }

  /** A line is listed when it begins with a mark and the fence lines before it are even in number. */
  lemma ListedMeans(lines: seq<string>, n: nat)
    requires 1 <= n <= |lines|
    ensures Listed(lines, n) <==>
      ("## " <= lines[n - 1] || "### " <= lines[n - 1]) && |FencesBefore(lines, n - 1)| % 2 == 0
  {
    CountFences(lines, n - 1);
  }

  /** Which of the first `n` lines are fence lines. */
  function FencesBefore(lines: seq<string>, n: nat): set<nat>
    requires n <= |lines|
  {
    set i | 0 <= i < n && IsFence(lines[i])
  }

  lemma FencesBeforeNext(lines: seq<string>, n: nat)
    requires n < |lines|
    ensures |FencesBefore(lines, n + 1)| == |FencesBefore(lines, n)| + if IsFence(lines[n]) then 1 else 0
  {
    assert FencesBefore(lines, n + 1) == FencesBefore(lines, n) + if IsFence(lines[n]) then {n} else {};
  }

  lemma {:induction false} CountFences(lines: seq<string>, n: nat)
    requires n <= |lines|
    ensures FencesIn(lines[..n]) == |FencesBefore(lines, n)|
  {
    if n > 0 {
      CountFences(lines, n - 1);
      assert lines[..n][..n - 1] == lines[..n - 1];
      FencesBeforeNext(lines, n - 1);
    }
  }

  predicate Describes(h: Heading, lines: seq<string>) {
    1 <= h.line <= |lines| && Listed(lines, h.line) && h.level == Level(lines[h.line - 1]) && h.title == Title(lines[h.line - 1])
  }

  predicate Ascending(headings: seq<Heading>) {
    forall i, j :: 0 <= i < j < |headings| ==> headings[i].line < headings[j].line
  }

  predicate HasLine(headings: seq<Heading>, n: nat) {
    exists k :: 0 <= k < |headings| && headings[k].line == n
  }

  /** `headings` are exactly the listed lines among the first `n`, in order. */
  ghost predicate Indexes(headings: seq<Heading>, lines: seq<string>, n: nat)
    requires n <= |lines|
  {
    Ascending(headings)
    && (forall k :: 0 <= k < |headings| ==> headings[k].line <= n && Describes(headings[k], lines))
    && (forall l: nat :: 1 <= l <= n && Listed(lines, l) ==> HasLine(headings, l))
  }

  lemma HeadingIsNoFence(line: string)
    requires IsHeadingLine(line)
    ensures !IsFence(line)
  {
    assert line[0] == '#' && LStrip(line) == line;
    assert "```"[0] == '`';
  }

  lemma FenceIsNotListed(lines: seq<string>, n: nat)
    requires n < |lines| && IsFence(lines[n])
    ensures !Listed(lines, n + 1)
  {
    if IsHeadingLine(lines[n]) {
      HeadingIsNoFence(lines[n]);
    }
  }

  lemma IndexesMore(headings: seq<Heading>, lines: seq<string>, n: nat)
    requires n < |lines| && Indexes(headings, lines, n) && Listed(lines, n + 1)
    ensures Indexes(headings + [Heading(Level(lines[n]), Title(lines[n]), n + 1)], lines, n + 1)
  {
    var more := headings + [Heading(Level(lines[n]), Title(lines[n]), n + 1)];
    forall l: nat | 1 <= l <= n + 1 && Listed(lines, l) ensures HasLine(more, l) {
      if l <= n {
        assert HasLine(headings, l);
        var k :| 0 <= k < |headings| && headings[k].line == l;
        assert more[k].line == l;
      } else {
        assert more[|headings|].line == l;
      }
    }
  }

  method CollectHeadings(lines: seq<string>) returns (headings: seq<Heading>)
    ensures Indexes(headings, lines, |lines|)
  {
    headings := [];
    var inFence := false;
    for i := 0 to |lines|
      invariant inFence == (FencesIn(lines[..i]) % 2 == 1)
      invariant Indexes(headings, lines, i)
    {
      var line := lines[i];
      assert lines[..i + 1][..i] == lines[..i];
      if IsFence(line) {
        FenceIsNotListed(lines, i);
        inFence := !inFence;
        continue;
      }
      if inFence {
        continue;
      }
      if StartsWith(line, "## ") {
        IndexesMore(headings, lines, i);
        headings := headings + [Heading(2, Strip(line[3..]), i + 1)];
      } else if StartsWith(line, "### ") {
        IndexesMore(headings, lines, i);
        headings := headings + [Heading(3, Strip(line[4..]), i + 1)];
      }
    }
  }

  /** Entry `k` is heading `k`, its section ending before the next heading or with the document. */
  predicate IsSection(e: Entry, headings: seq<Heading>, k: nat, total: nat)
    requires k < |headings|
  {
    e.level == headings[k].level && e.title == headings[k].title && e.start == headings[k].line
    && e.end + 1 == if k + 1 < |headings| then headings[k + 1].line else total + 1
  }

  ghost predicate Sections(entries: seq<Entry>, headings: seq<Heading>, total: nat) {
    |entries| <= |headings| && forall k :: 0 <= k < |entries| ==> IsSection(entries[k], headings, k, total)
  }

  method BuildEntries(lines: seq<string>) returns (entries: seq<Entry>)
    ensures IsMapOf(entries, lines)
  {
    var headings := CollectHeadings(lines);
    assert forall k :: 0 <= k < |headings| ==> Describes(headings[k], lines);
    entries := TakeSections(headings, |lines|);
    SectionsAreMap(entries, headings, lines);
  }

  function Preamble(title: string, relPath: string): seq<string> {
    [ "## " + title + " (navigation map)",
      "",
      "Full text is NOT inlined to keep the working context window fit. Read any section on demand with "
        + "`read_file(root=\"system_repo\", path=\"" + relPath + "\", start_line=A, max_lines=N)` (untruncated). Sections:",
      "" ]
  }

  function RenderEntry(e: Entry): string {
    (if e.level == 3 then "  " else "") + "- " + e.title + " — lines " + Decimal(e.start) + "-" + Decimal(e.end)
  }

  /** A rendered entry ends with its line range, the first line before the last, and shows the heading;
      only a level three heading is indented. */
  lemma RenderedEntryShows(e: Entry)
    ensures EndsWith(RenderEntry(e), " — lines " + Decimal(e.start) + "-" + Decimal(e.end))
    ensures StartsWith(RenderEntry(e), if e.level == 3 then "  - " + e.title else "- " + e.title)
  {
    var indent := if e.level == 3 then "  " else "";
    var range := " — lines " + Decimal(e.start) + "-" + Decimal(e.end);
    assert RenderEntry(e) == (indent + "- " + e.title) + range;
  }

  function RenderEntries(entries: seq<Entry>): seq<string> {
    seq(|entries|, k requires 0 <= k < |entries| => RenderEntry(entries[k]))
  }

  function Rendered(entries: seq<Entry>, title: string, relPath: string): string {
    Join("\n", Preamble(title, relPath)
      + if entries == [] then ["- (no `##`/`###` headings; read `" + relPath + "` directly)"] else RenderEntries(entries))
  }

  method RenderMap(entries: seq<Entry>, title: string, relPath: string) returns (doc: string)
    ensures doc == Rendered(entries, title, relPath)
  {
    var out := Preamble(title, relPath);
    if entries == [] {
      out := out + ["- (no `##`/`###` headings; read `" + relPath + "` directly)"];
      return Join("\n", out);
    }
    for k := 0 to |entries|
      invariant out == Preamble(title, relPath) + RenderEntries(entries[..k])
    {
      assert RenderEntries(entries[..k + 1]) == RenderEntries(entries[..k]) + [RenderEntry(entries[k])];
      out := out + [RenderEntry(entries[k])];
    }
    assert entries[..|entries|] == entries;
    doc := Join("\n", out);
  }

  /** The navigation map of a document: its entries, which the document determines, rendered. */
  method GenerateDocNavMap(text: string, title: string, relPath: string) returns (doc: string)
    ensures exists entries :: IsMapOf(entries, SplitLines(text)) && doc == Rendered(entries, title, relPath)
    ensures forall entries :: IsMapOf(entries, SplitLines(text)) ==> doc == Rendered(entries, title, relPath)
  {
    var lines := SplitLines(text);
    var entries := BuildEntries(lines);
    doc := RenderMap(entries, title, relPath);
    forall others | IsMapOf(others, lines) ensures others == entries {
      MapIsUnique(others, entries, lines);
    }
  }

  method TakeSections(headings: seq<Heading>, total: nat) returns (entries: seq<Entry>)
    requires forall k :: 0 <= k < |headings| ==> headings[k].line >= 1
    ensures |entries| == |headings| && Sections(entries, headings, total)
  {
    entries := [];
    for k := 0 to |headings|
      invariant |entries| == k && Sections(entries, headings, total)
    {
      var end := if k + 1 < |headings| then headings[k + 1].line - 1 else total;
      var entry := Entry(headings[k].level, headings[k].title, headings[k].line, end);
      assert IsSection(entry, headings, k, total);
      entries := entries + [entry];
    }
  }

  predicate Holds(e: Entry, n: nat) {
    e.start <= n <= e.end
  }

  predicate Starts(entries: seq<Entry>, n: nat) {
    exists k :: 0 <= k < |entries| && entries[k].start == n
  }

  predicate EntryDescribes(e: Entry, lines: seq<string>) {
    1 <= e.start <= e.end <= |lines| && Listed(lines, e.start)
    && e.level == Level(lines[e.start - 1]) && e.title == Title(lines[e.start - 1])
  }

  predicate EndsBeforeNext(entries: seq<Entry>, k: nat, total: nat)
    requires k < |entries|
  {
    entries[k].end + 1 == if k + 1 < |entries| then entries[k + 1].start else total + 1
  }

  predicate Adjacent(entries: seq<Entry>, total: nat) {
    forall k :: 0 <= k < |entries| ==> EndsBeforeNext(entries, k, total)
  }

  /** The listed lines, each the start of one section, the sections adjacent up to the last line. */
  ghost predicate IsMapOf(entries: seq<Entry>, lines: seq<string>) {
    (forall n: nat :: 1 <= n <= |lines| ==> (Listed(lines, n) <==> Starts(entries, n)))
    && (forall k :: 0 <= k < |entries| ==> EntryDescribes(entries[k], lines))
    && Adjacent(entries, |lines|)
  }

  lemma SectionIsEntry(entries: seq<Entry>, headings: seq<Heading>, lines: seq<string>, k: nat)
    requires Indexes(headings, lines, |lines|)
    requires |entries| == |headings| && Sections(entries, headings, |lines|) && k < |entries|
    ensures EntryDescribes(entries[k], lines) && EndsBeforeNext(entries, k, |lines|)
  {
    assert Describes(headings[k], lines) && IsSection(entries[k], headings, k, |lines|);
    if k + 1 < |headings| {
      assert headings[k].line < headings[k + 1].line;
      assert Describes(headings[k + 1], lines) && IsSection(entries[k + 1], headings, k + 1, |lines|);
    }
  }

  lemma SectionsAreMap(entries: seq<Entry>, headings: seq<Heading>, lines: seq<string>)
    requires Indexes(headings, lines, |lines|)
    requires |entries| == |headings| && Sections(entries, headings, |lines|)
    ensures IsMapOf(entries, lines)
  {
    forall k | 0 <= k < |entries|
      ensures EntryDescribes(entries[k], lines) && EndsBeforeNext(entries, k, |lines|)
    {
      SectionIsEntry(entries, headings, lines, k);
    }
    forall n: nat | 1 <= n <= |lines| && Listed(lines, n) ensures Starts(entries, n) {
      assert HasLine(headings, n);
      var k :| 0 <= k < |headings| && headings[k].line == n;
      assert IsSection(entries[k], headings, k, |lines|);
    }
  }

  lemma {:induction false} LaterStartsAfter(entries: seq<Entry>, lines: seq<string>, i: nat, j: nat)
    requires IsMapOf(entries, lines) && i < j < |entries|
    ensures entries[i].end < entries[j].start
    decreases j - i
  {
    assert EntryDescribes(entries[i], lines) && EndsBeforeNext(entries, i, |lines|);
    if i + 1 < j {
      LaterStartsAfter(entries, lines, i + 1, j);
      assert EntryDescribes(entries[i + 1], lines);
    }
  }

  /** Every line from the first heading on lies in exactly one section, and each section holds one
      listed line, its first. */
  lemma SectionsCoverDocument(entries: seq<Entry>, lines: seq<string>, n: nat)
    requires IsMapOf(entries, lines) && entries != [] && n <= |lines|
    ensures entries[0].start <= n <==> exists k :: 0 <= k < |entries| && Holds(entries[k], n)
    ensures forall i, j :: 0 <= i < j < |entries| ==> !(Holds(entries[i], n) && Holds(entries[j], n))
    ensures forall k :: 0 <= k < |entries| && Holds(entries[k], n) ==> (Listed(lines, n) <==> n == entries[k].start)
  {
    if entries[0].start <= n {
      var k := SectionOf(entries, lines, n, 0);
    }
    forall i, j | 0 <= i < j < |entries|
      ensures entries[i].end < entries[j].start && !(Holds(entries[i], n) && Holds(entries[j], n))
    {
      LaterStartsAfter(entries, lines, i, j);
    }
    forall k | 0 <= k < |entries| && Holds(entries[k], n)
      ensures entries[0].start <= n && (Listed(lines, n) <==> n == entries[k].start)
    {
      OnlyTheFirstIsListed(entries, lines, n, k);
    }
  }

  lemma OnlyTheFirstIsListed(entries: seq<Entry>, lines: seq<string>, n: nat, k: nat)
    requires IsMapOf(entries, lines) && n <= |lines| && k < |entries| && Holds(entries[k], n)
    ensures entries[0].start <= n && 1 <= n && (Listed(lines, n) <==> n == entries[k].start)
  {
    assert EntryDescribes(entries[k], lines) && EntryDescribes(entries[0], lines);
    if 0 < k {
      LaterStartsAfter(entries, lines, 0, k);
    }
    if Listed(lines, n) {
      assert Starts(entries, n);
      var m :| 0 <= m < |entries| && entries[m].start == n;
      OneHolds(entries, lines, n, k, m);
    }
  }

  lemma OneHolds(entries: seq<Entry>, lines: seq<string>, n: nat, k: nat, m: nat)
    requires IsMapOf(entries, lines) && k < |entries| && Holds(entries[k], n)
    requires m < |entries| && entries[m].start == n
    ensures m == k
  {
    assert EntryDescribes(entries[m], lines);
    if m < k {
      LaterStartsAfter(entries, lines, m, k);
    } else if k < m {
      LaterStartsAfter(entries, lines, k, m);
    }
  }

  lemma {:induction false} SectionOf(entries: seq<Entry>, lines: seq<string>, n: nat, from: nat) returns (k: nat)
    requires IsMapOf(entries, lines) && n <= |lines| && from < |entries| && entries[from].start <= n
    ensures k < |entries| && Holds(entries[k], n)
    decreases |entries| - from
  {
    if n <= entries[from].end {
      k := from;
    } else {
      assert EndsBeforeNext(entries, from, |lines|);
      k := SectionOf(entries, lines, n, from + 1);
    }
  }

  lemma HasMember(ns: seq<nat>)
    ensures ns != [] <==> exists n :: n in ns
  {
    if ns != [] {
      assert ns[0] in ns;
    }
  }

  lemma LastIsGreatest(ns: seq<nat>)
    requires Increasing(ns) && ns != []
    ensures forall n :: n in ns ==> n <= ns[|ns| - 1]
    ensures forall n :: n in ns[..|ns| - 1] <==> n in ns && n != ns[|ns| - 1]
  {
    forall n | n in ns ensures n <= ns[|ns| - 1] {
      var k :| 0 <= k < |ns| && ns[k] == n;
    }
    assert ns == ns[..|ns| - 1] + [ns[|ns| - 1]];
  }

  /** An increasing list is determined by its members. */
  lemma {:induction false} SameMembersSameList(a: seq<nat>, b: seq<nat>)
    requires Increasing(a) && Increasing(b) && forall n :: n in a <==> n in b
    ensures a == b
  {
    HasMember(a);
    HasMember(b);
    if a != [] {
      LastIsGreatest(a);
      LastIsGreatest(b);
      var p, q := a[|a| - 1], b[|b| - 1];
      var front, front' := a[..|a| - 1], b[..|b| - 1];
      assert p in b && q in a;
      assert p == q;
      forall n ensures n in front <==> n in front' {
        assert n in a <==> n in b;
      }
      SameMembersSameList(front, front');
      assert a == front + [p] && b == front' + [q];
    }
  }

  function StartsOf(entries: seq<Entry>): seq<nat> {
    seq(|entries|, k requires 0 <= k < |entries| => entries[k].start)
  }

  lemma StartsAreListed(entries: seq<Entry>, lines: seq<string>)
    requires IsMapOf(entries, lines)
    ensures Increasing(StartsOf(entries))
    ensures forall n :: n in StartsOf(entries) <==> 1 <= n <= |lines| && Listed(lines, n)
  {
    var starts := StartsOf(entries);
    forall i, j | 0 <= i < j < |starts| ensures starts[i] < starts[j] {
      LaterStartsAfter(entries, lines, i, j);
      assert EntryDescribes(entries[i], lines);
    }
    forall n | n in starts ensures 1 <= n <= |lines| && Listed(lines, n) {
      var k :| 0 <= k < |starts| && starts[k] == n;
      assert EntryDescribes(entries[k], lines);
    }
    forall n: nat | 1 <= n <= |lines| && Listed(lines, n) ensures n in starts {
      assert Starts(entries, n);
      var k :| 0 <= k < |entries| && entries[k].start == n;
      assert starts[k] == n;
    }
  }

  /** A document has one map. */
  lemma MapIsUnique(a: seq<Entry>, b: seq<Entry>, lines: seq<string>)
    requires IsMapOf(a, lines) && IsMapOf(b, lines)
    ensures a == b
  {
    StartsAreListed(a, lines);
    StartsAreListed(b, lines);
    SameMembersSameList(StartsOf(a), StartsOf(b));
    assert |a| == |StartsOf(a)| == |b|;
    forall k | 0 <= k < |a| ensures a[k].start == b[k].start {
      assert StartsOf(a)[k] == StartsOf(b)[k];
    }
    forall k | 0 <= k < |a| ensures a[k] == b[k] {
      assert EntryDescribes(a[k], lines) && EntryDescribes(b[k], lines);
      assert EndsBeforeNext(a, k, |lines|) && EndsBeforeNext(b, k, |lines|);
    }
  }
}
