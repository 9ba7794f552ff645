/**
  Impact of a change: the files that reach a target through the inventory's resolved imports,
  found by a bounded breadth-first walk, with the depth at which each is met.
 */
module ImportImpact {
  import opened Text

  const MAX_DEPTH: nat := 5

  type Path = string

  datatype SymbolFact = SymbolFact(name: string, kind: string, line: nat)

  datatype FileFact = FileFact(path: Path, indexed: bool, imports: set<Path>, symbols: seq<SymbolFact>, references: set<string>)

  datatype Reason = Imports(depth: nat) | References | Target

  const SOURCE_SUFFIXES := [".py", ".js", ".jsx", ".ts", ".tsx"]

  function ForwardSlashes(text: string): string {
    if text == "" then "" else [if text[0] == '\\' then '/' else text[0]] + ForwardSlashes(text[1..])
  }

  function TargetText(target: string): string {
    ForwardSlashes(Strip(target))
  }

  predicate IsPath(text: string) {
    '/' in text || exists i :: 0 <= i < |SOURCE_SUFFIXES| && EndsWith(text, SOURCE_SUFFIXES[i])
  }

  function Clamp(depth: int): nat {
    if depth < 1 then 1 else if depth > MAX_DEPTH then MAX_DEPTH else depth
  }

  function WithoutSlashes(text: string): string {
    if text != "" && text[|text| - 1] == '/' then WithoutSlashes(text[..|text| - 1]) else text
  }

  /** A path filter names a file or a directory; an empty one lets every file through. */
  predicate UnderPath(path: Path, filter: string) {
    filter == "" || path == filter || StartsWith(path, WithoutSlashes(filter) + "/")
  }

  /** An empty name matches every symbol, and so do an empty kind and `any`. */
  predicate Matches(symbol: SymbolFact, name: string, kind: string) {
    (name == "" || symbol.name == name) && (kind == "" || kind == "any" || symbol.kind == kind)
  }

  predicate IsDefinition(files: seq<FileFact>, m: (FileFact, SymbolFact), name: string, filter: string, kind: string) {
    m.0 in files && m.0.indexed && UnderPath(m.0.path, filter) && m.1 in m.0.symbols && Matches(m.1, name, kind)
  }

  /** The file defines the name. */
  predicate Defines(f: FileFact, name: string) {
    f.indexed && exists i :: 0 <= i < |f.symbols| && Matches(f.symbols[i], name, "any")
  }

  function Definers(files: seq<FileFact>, name: string): set<Path> {
    set f | f in files && Defines(f, name) :: f.path
  }

  /** Where the walk starts: the path itself, or every file that defines the symbol. */
  function Start(files: seq<FileFact>, text: string): set<Path> {
    if IsPath(text) then {text} else Definers(files, text)
  }

  predicate Refers(f: FileFact, text: string) {
    f.indexed && text != "" && text in f.references
  }

  predicate ImportsAny(f: FileFact, frontier: set<Path>) {
    f.indexed && f.imports * frontier != {}
  }

  predicate Fires(f: FileFact, frontier: set<Path>, text: string) {
    ImportsAny(f, frontier) || Refers(f, text)
  }

  function ReasonOf(f: FileFact, frontier: set<Path>, hop: nat): Reason {
    if ImportsAny(f, frontier) then Imports(hop) else References
  }

  function Next(files: seq<FileFact>, frontier: set<Path>, text: string): set<Path> {
    set f | f in files && Fires(f, frontier, text) :: f.path
  }

  function Give(given: map<Path, Reason>, f: FileFact, frontier: set<Path>, text: string, hop: nat): map<Path, Reason> {
    if Fires(f, frontier, text) && f.path !in given then given[f.path := ReasonOf(f, frontier, hop)] else given
  }

  /** The reasons one hop would give, an earlier file of the same path first. */
  function HopReasons(files: seq<FileFact>, frontier: set<Path>, text: string, hop: nat): map<Path, Reason> {
    if files == [] then map[]
    else Give(HopReasons(files[..|files| - 1], frontier, text, hop), files[|files| - 1], frontier, text, hop)
  }

  function Level(files: seq<FileFact>, text: string, hop: nat): set<Path> {
    if hop == 0 then Start(files, text) else Next(files, Level(files, text, hop - 1), text)
  }

  /** The reasons after `hops` hops: a reason once given is kept. */
  function Reasons(files: seq<FileFact>, text: string, hops: nat): map<Path, Reason> {
    if hops == 0 then map[]
    else HopReasons(files, Level(files, text, hops - 1), text, hops) + Reasons(files, text, hops - 1)
  }

  // ---- What the parameters mean ----

  /** The depth is taken as given between one and five, and otherwise as the nearer bound. */
  lemma ClampMeans(depth: int)
    ensures 1 <= Clamp(depth) <= 5 && (1 <= depth <= 5 ==> Clamp(depth) == depth)
    ensures depth < 1 ==> Clamp(depth) == 1
    ensures depth > 5 ==> Clamp(depth) == 5
  {}

  /** A target is trimmed, and its backslashes become slashes. */
  lemma {:induction false} SlashesMean(text: string)
    ensures |ForwardSlashes(text)| == |text|
    ensures forall i :: 0 <= i < |text| ==> ForwardSlashes(text)[i] == if text[i] == '\\' then '/' else text[i]
  {
    if text != "" {
      SlashesMean(text[1..]);
    }
  }

  predicate HasSymbol(f: FileFact, name: string) {
    exists i :: 0 <= i < |f.symbols| && (name == "" || f.symbols[i].name == name)
  }

  lemma DefinesMeans(f: FileFact, name: string)
    ensures Defines(f, name) <==> f.indexed && HasSymbol(f, name)
  {
    if Defines(f, name) {
      var i :| 0 <= i < |f.symbols| && Matches(f.symbols[i], name, "any");
      assert name == "" || f.symbols[i].name == name;
    }
    if f.indexed && HasSymbol(f, name) {
      var i :| 0 <= i < |f.symbols| && (name == "" || f.symbols[i].name == name);
      assert Matches(f.symbols[i], name, "any");
    }
  }

  /** A target with a slash or a source suffix is a path and starts the walk alone; another names a
      symbol, and the walk starts at every indexed file that defines it, or any symbol if it is blank. */
  lemma StartMeans(files: seq<FileFact>, text: string, p: Path)
    ensures var isPath := '/' in text || EndsWith(text, ".py") || EndsWith(text, ".js") || EndsWith(text, ".jsx")
        || EndsWith(text, ".ts") || EndsWith(text, ".tsx");
      if isPath then Start(files, text) == {text}
      else p in Start(files, text) <==> exists f :: f in files && f.path == p && f.indexed && HasSymbol(f, text)
  {
    assert SOURCE_SUFFIXES[0] == ".py" && SOURCE_SUFFIXES[1] == ".js" && SOURCE_SUFFIXES[2] == ".jsx";
    assert SOURCE_SUFFIXES[3] == ".ts" && SOURCE_SUFFIXES[4] == ".tsx" && |SOURCE_SUFFIXES| == 5;
    forall f | f in files ensures Defines(f, text) <==> f.indexed && HasSymbol(f, text) {
      DefinesMeans(f, text);
    }
  }

  /** A path filter matches the file it names and, with or without a final slash, everything in the
      directory it names; nothing else, and an empty one everything. */
  lemma FilterMeans(path: Path, filter: string)
    requires filter != "" && filter[|filter| - 1] != '/'
    ensures UnderPath(path, filter) <==> path == filter || filter + "/" <= path
    ensures UnderPath(path, filter + "/") <==> path == filter + "/" || filter + "/" <= path
    ensures UnderPath(path, "")
  {
    assert (filter + "/")[..|filter + "/"| - 1] == filter;
  }

  // ---- The walk ----

  method SymbolsOf(f: FileFact, name: string, kind: string) returns (matches: seq<(FileFact, SymbolFact)>)
    ensures forall m :: m in matches <==> m.0 == f && m.1 in f.symbols && Matches(m.1, name, kind)
  {
    matches := [];
    for i := 0 to |f.symbols|
      invariant forall m :: m in matches <==> m.0 == f && m.1 in f.symbols[..i] && Matches(m.1, name, kind)
    {
      assert f.symbols[..i + 1] == f.symbols[..i] + [f.symbols[i]];
      if Matches(f.symbols[i], name, kind) {
        matches := matches + [(f, f.symbols[i])];
      }
    }
    assert f.symbols[..|f.symbols|] == f.symbols;
  }

  /** The definitions of a name, with its path and kind filters. */
  method SymbolDefinitions(files: seq<FileFact>, name: string, path: string, kind: string)
    returns (matches: seq<(FileFact, SymbolFact)>)
    ensures forall m :: m in matches <==> IsDefinition(files, m, name, TargetText(path), kind)
  {
    var filter := TargetText(path);
    matches := [];
    for i := 0 to |files|
      invariant forall m :: m in matches <==> IsDefinition(files[..i], m, name, filter, kind)
    {
      assert files[..i + 1] == files[..i] + [files[i]];
      if !files[i].indexed || !UnderPath(files[i].path, filter) {
        continue;
      }
      var more := SymbolsOf(files[i], name, kind);
      matches := matches + more;
    }
    assert files[..|files|] == files;
  }

  lemma HopStep(files: seq<FileFact>, i: nat, frontier: set<Path>, text: string, hop: nat, given: map<Path, Reason>)
    requires i < |files|
    ensures HopReasons(files[..i + 1], frontier, text, hop) + given
         == Give(HopReasons(files[..i], frontier, text, hop) + given, files[i], frontier, text, hop)
  {
    assert files[..i + 1][..i] == files[..i] && files[..i + 1][i] == files[i];
  }

  lemma NextStep(files: seq<FileFact>, i: nat, frontier: set<Path>, text: string)
    requires i < |files|
    ensures Next(files[..i + 1], frontier, text)
         == Next(files[..i], frontier, text) + if Fires(files[i], frontier, text) then {files[i].path} else {}
  {
    assert files[..i + 1] == files[..i] + [files[i]];
  }

  method Hop(files: seq<FileFact>, frontier: set<Path>, text: string, hop: nat, given: map<Path, Reason>)
    returns (impacted: map<Path, Reason>, next: set<Path>)
    ensures next == Next(files, frontier, text)
    ensures impacted == HopReasons(files, frontier, text, hop + 1) + given
  {
    impacted, next := given, {};
    for i := 0 to |files|
      invariant next == Next(files[..i], frontier, text)
      invariant impacted == HopReasons(files[..i], frontier, text, hop + 1) + given
    {
      var f := files[i];
      HopStep(files, i, frontier, text, hop + 1, given);
      NextStep(files, i, frontier, text);
      if f.indexed {
        if f.imports * frontier != {} {
          impacted := if f.path in impacted then impacted else impacted[f.path := Imports(hop + 1)];
          next := next + {f.path};
        }
        if text != "" && text in f.references {
          impacted := if f.path in impacted then impacted else impacted[f.path := References];
          next := next + {f.path};
        }
      }
    }
    assert files[..|files|] == files;
  }

  lemma {:induction false} HopReasonsKeys(files: seq<FileFact>, frontier: set<Path>, text: string, hop: nat)
    ensures HopReasons(files, frontier, text, hop).Keys == Next(files, frontier, text)
  {
    if files != [] {
      HopReasonsKeys(files[..|files| - 1], frontier, text, hop);
      assert files == files[..|files| - 1] + [files[|files| - 1]];
    }
  }

  lemma {:induction false} ReasonHasLevel(files: seq<FileFact>, text: string, hops: nat, p: Path) returns (h: nat)
    requires p in Reasons(files, text, hops)
    ensures 1 <= h <= hops && p in Level(files, text, h)
  {
    if p in Reasons(files, text, hops - 1) {
      h := ReasonHasLevel(files, text, hops - 1, p);
    } else {
      h := hops;
      HopReasonsKeys(files, Level(files, text, hops - 1), text, hops);
    }
  }

  lemma {:induction false} LevelHasReason(files: seq<FileFact>, text: string, h: nat, hops: nat, p: Path)
    requires 1 <= h <= hops && p in Level(files, text, h)
    ensures p in Reasons(files, text, hops)
    decreases hops
  {
    if h < hops {
      LevelHasReason(files, text, h, hops - 1, p);
    } else {
      HopReasonsKeys(files, Level(files, text, hops - 1), text, hops);
    }
  }

  lemma {:induction false} QuietHop(files: seq<FileFact>, text: string, hop: nat)
    requires forall f :: f in files ==> !Refers(f, text)
    ensures Next(files, {}, text) == {} && HopReasons(files, {}, text, hop) == map[]
  {
    HopReasonsKeys(files, {}, text, hop);
  }

  /** Once a level is empty, so is every later one: a referring file would be in each. */
  lemma {:induction false} EmptyLevelEnds(files: seq<FileFact>, text: string, hop: nat, later: nat)
    requires 1 <= hop <= later && Level(files, text, hop) == {}
    ensures Level(files, text, later) == {}
    ensures Reasons(files, text, later) == Reasons(files, text, hop)
    decreases later
  {
    if hop < later {
      EmptyLevelEnds(files, text, hop, later - 1);
      forall f | f in files ensures !Refers(f, text) {
        assert Refers(f, text) ==> f.path in Level(files, text, hop);
      }
      QuietHop(files, text, later);
    }
  }

  lemma LevelsHaveReasons(files: seq<FileFact>, text: string, hops: nat)
    requires hops > 0
    ensures forall p :: p in Level(files, text, hops) ==> p in Reasons(files, text, hops)
    ensures forall p :: p in Reasons(files, text, hops) ==> exists f :: f in files && f.path == p
  {
    forall p | p in Level(files, text, hops) ensures p in Reasons(files, text, hops) {
      LevelHasReason(files, text, hops, hops, p);
    }
    forall p | p in Reasons(files, text, hops) ensures exists f :: f in files && f.path == p {
      var h := ReasonHasLevel(files, text, hops, p);
    }
  }

  method StartingFiles(files: seq<FileFact>, text: string) returns (frontier: set<Path>)
    ensures frontier == Start(files, text)
  {
    if IsPath(text) {
      frontier := {text};
    } else {
      var matches := SymbolDefinitions(files, text, "", "any");
      frontier := set m | m in matches :: m.0.path;
      DefinersDefine(files, text, matches);
    }
  }

  lemma DefinersDefine(files: seq<FileFact>, name: string, matches: seq<(FileFact, SymbolFact)>)
    requires forall m :: m in matches <==> IsDefinition(files, m, name, TargetText(""), "any")
    ensures (set m | m in matches :: m.0.path) == Definers(files, name)
  {
    forall f | f in files && Defines(f, name) ensures exists m :: m in matches && m.0.path == f.path {
      var i :| 0 <= i < |f.symbols| && Matches(f.symbols[i], name, "any");
      assert IsDefinition(files, (f, f.symbols[i]), name, "", "any");
      assert (f, f.symbols[i]) in matches;
    }
    forall m | m in matches ensures m.0.path in Definers(files, name) {
      assert IsDefinition(files, m, name, "", "any");
      var i :| 0 <= i < |m.0.symbols| && m.0.symbols[i] == m.1;
      assert Matches(m.0.symbols[i], name, "any") && Defines(m.0, name);
    }
  }

  method ImpactFiles(files: seq<FileFact>, target: string, depth: int) returns (result: map<Path, Reason>)
    ensures result == Reasons(files, TargetText(target), Clamp(depth))
  {
    var hops, text := Clamp(depth), TargetText(target);
    var frontier := StartingFiles(files, text);
    var impacted := map[];
    var hop := 0;
    while hop < hops
      invariant hop <= hops
      invariant frontier == Level(files, text, hop) && impacted == Reasons(files, text, hop)
    {
      impacted, frontier := Hop(files, frontier, text, hop, impacted);
      hop := hop + 1;
      if frontier == {} {
        EmptyLevelEnds(files, text, hop, hops);
        break;
      }
    }
    LevelsHaveReasons(files, text, hops);
    assert frontier <= impacted.Keys;
    impacted := DefaultToTarget(frontier, impacted);
    result := KnownFiles(files, impacted);
  }

  method KnownFiles(files: seq<FileFact>, impacted: map<Path, Reason>) returns (result: map<Path, Reason>)
    ensures result == map p | p in impacted && (exists f :: f in files && f.path == p) :: impacted[p]
    ensures (forall p :: p in impacted ==> exists f :: f in files && f.path == p) ==> result == impacted
  {
    var known := set f | f in files :: f.path;
    result := map p | p in impacted && p in known :: impacted[p];
  }

  /** Gives `Target` to what is still without a reason; after a hop there is nothing left. */
  method DefaultToTarget(frontier: set<Path>, given: map<Path, Reason>) returns (impacted: map<Path, Reason>)
    ensures impacted == (map p | p in frontier :: Target) + given
    ensures frontier <= given.Keys ==> impacted == given
  {
    impacted := given;
    var todo := frontier;
    while todo != {}
      invariant todo <= frontier
      invariant impacted == (map p | p in frontier - todo :: Target) + given
    {
      var p :| p in todo;
      todo := todo - {p};
      if p !in impacted {
        impacted := impacted[p := Target];
      }
    }
  }

  // ---- Import chains ----

  ghost predicate Edge(files: seq<FileFact>, p: Path, q: Path) {
    exists f :: f in files && f.indexed && f.path == p && q in f.imports
  }

  lemma ReferringMeans(files: seq<FileFact>, p: Path, text: string)
    ensures Referring(files, p, text) <==>
      text != "" && exists f :: f in files && f.indexed && f.path == p && text in f.references
  {
    forall f | f in files && f.indexed && f.path == p && text in f.references && text != "" ensures Referring(files, p, text) {
      assert Refers(f, text);
    }
  }

  ghost predicate Referring(files: seq<FileFact>, p: Path, text: string) {
    exists f :: f in files && f.path == p && Refers(f, text)
  }

  /** Each file of the chain but the last is indexed and imports the one after it. */
  ghost predicate Chain(files: seq<FileFact>, walk: seq<Path>) {
    walk != [] && forall i :: 0 <= i < |walk| - 1 ==> Edge(files, walk[i], walk[i + 1])
  }

  /** A chain that explains `walk[0]` at level `h`: `h` imports to the start, or fewer to a referring file. */
  ghost predicate Explains(files: seq<FileFact>, text: string, walk: seq<Path>, h: nat) {
    Chain(files, walk) &&
    var last := walk[|walk| - 1];
    (|walk| == h + 1 && last in Start(files, text)) || (|walk| <= h && Referring(files, last, text))
  }

  lemma {:induction false} LevelHasChain(files: seq<FileFact>, text: string, p: Path, h: nat) returns (walk: seq<Path>)
    requires p in Level(files, text, h)
    ensures Explains(files, text, walk, h) && walk[0] == p
    decreases h
  {
    if h == 0 {
      return [p];
    }
    var f :| f in files && f.path == p && Fires(f, Level(files, text, h - 1), text);
    if Refers(f, text) {
      return [p];
    }
    var q :| q in f.imports * Level(files, text, h - 1);
    var rest := LevelHasChain(files, text, q, h - 1);
    walk := [p] + rest;
    assert Edge(files, p, q);
  }

  lemma {:induction false} ChainIsInLevel(files: seq<FileFact>, text: string, walk: seq<Path>, h: nat)
    requires Explains(files, text, walk, h)
    ensures walk[0] in Level(files, text, h)
  {
    if |walk| > 1 {
      var rest := walk[1..];
      forall i | 0 <= i < |rest| - 1 ensures Edge(files, rest[i], rest[i + 1]) {
        assert Edge(files, walk[i + 1], walk[i + 1 + 1]);
      }
      ChainIsInLevel(files, text, rest, h - 1);
      assert Edge(files, walk[0], walk[0 + 1]);
      var f :| f in files && f.indexed && f.path == walk[0] && walk[1] in f.imports;
      assert walk[1] in f.imports * Level(files, text, h - 1);
      assert Fires(f, Level(files, text, h - 1), text);
    }
  }

  /** Breadth-first levels are chains of imports, cycles included. */
  lemma LevelsAreChains(files: seq<FileFact>, text: string, p: Path, h: nat)
    ensures p in Level(files, text, h) <==> exists walk :: Explains(files, text, walk, h) && walk[0] == p
  {
    if p in Level(files, text, h) {
      var walk := LevelHasChain(files, text, p, h);
    }
    forall walk | Explains(files, text, walk, h) && walk[0] == p ensures p in Level(files, text, h) {
      ChainIsInLevel(files, text, walk, h);
    }
  }

  // ---- What a reason says ----

  lemma {:induction false} HopReasonMeans(files: seq<FileFact>, frontier: set<Path>, text: string, hop: nat, p: Path)
    requires p in HopReasons(files, frontier, text, hop)
    ensures HopReasons(files, frontier, text, hop)[p] in {Imports(hop), References}
    ensures HopReasons(files, frontier, text, hop)[p] == References ==> Referring(files, p, text)
    ensures HopReasons(files, frontier, text, hop)[p].Imports? ==> exists f :: f in files && f.path == p && ImportsAny(f, frontier)
  {
    if p in HopReasons(files[..|files| - 1], frontier, text, hop) {
      HopReasonMeans(files[..|files| - 1], frontier, text, hop, p);
    }
  }

  /** A file is first met at the depth its reason names; a reference is found in the first hop. */
  lemma {:induction false} ReasonIsFirstMeeting(files: seq<FileFact>, text: string, hops: nat, p: Path)
    requires p in Reasons(files, text, hops)
    ensures Reasons(files, text, hops)[p] != Target
    ensures Reasons(files, text, hops)[p] == References ==> Referring(files, p, text)
    ensures Reasons(files, text, hops)[p].Imports? ==>
      var k := Reasons(files, text, hops)[p].depth;
      1 <= k <= hops && p in Level(files, text, k) && p !in Reasons(files, text, k - 1)
  {
    if p in Reasons(files, text, hops - 1) {
      ReasonIsFirstMeeting(files, text, hops - 1, p);
    } else {
      HopReasonMeans(files, Level(files, text, hops - 1), text, hops, p);
      HopReasonsKeys(files, Level(files, text, hops - 1), text, hops);
    }
  }

  ghost predicate MetAt(files: seq<FileFact>, text: string, p: Path, h: nat) {
    exists walk :: Explains(files, text, walk, h) && walk[0] == p
  }

  /** For any target: a file is reported exactly when a chain explains it within the depth, and an
      import reason names the least such depth. */
  lemma ImpactIsExplained(files: seq<FileFact>, text: string, hops: nat, p: Path)
    ensures p in Reasons(files, text, hops) <==> exists h: nat :: 1 <= h <= hops && MetAt(files, text, p, h)
    ensures p in Reasons(files, text, hops) && !Reasons(files, text, hops)[p].Imports? ==> Referring(files, p, text)
    ensures p in Reasons(files, text, hops) && Reasons(files, text, hops)[p].Imports? ==>
      var k := Reasons(files, text, hops)[p].depth;
      MetAt(files, text, p, k) && forall h: nat :: 1 <= h < k ==> !MetAt(files, text, p, h)
  {
    forall h: nat ensures p in Level(files, text, h) <==> MetAt(files, text, p, h) {
      LevelsAreChains(files, text, p, h);
    }
    forall h: nat | 1 <= h <= hops && MetAt(files, text, p, h) ensures p in Reasons(files, text, hops) {
      LevelHasReason(files, text, h, hops, p);
    }
    if p in Reasons(files, text, hops) {
      var h := ReasonHasLevel(files, text, hops, p);
      ReasonIsFirstMeeting(files, text, hops, p);
      if Reasons(files, text, hops)[p].Imports? {
        FirstMeeting(files, text, Reasons(files, text, hops)[p].depth, p);
      }
    }
  }

  lemma FirstMeeting(files: seq<FileFact>, text: string, k: nat, p: Path)
    requires k > 0 && p !in Reasons(files, text, k - 1)
    ensures forall h: nat :: 1 <= h < k ==> !MetAt(files, text, p, h)
  {
    forall h: nat | 1 <= h < k ensures !MetAt(files, text, p, h) {
      LevelsAreChains(files, text, p, h);
      if p in Level(files, text, h) {
        LevelHasReason(files, text, h, k - 1, p);
      }
    }
  }

  /** The chains of a path target: from `p` to the target, at least one import long. */
  ghost predicate Connects(files: seq<FileFact>, walk: seq<Path>, p: Path, text: string) {
    Chain(files, walk) && |walk| > 1 && walk[0] == p && walk[|walk| - 1] == text
  }

  lemma PathLevels(files: seq<FileFact>, text: string, p: Path, h: nat)
    requires h > 0 && IsPath(text) && forall f :: f in files ==> !Refers(f, text)
    ensures p in Level(files, text, h) <==> exists walk :: Connects(files, walk, p, text) && |walk| == h + 1
  {
    LevelsAreChains(files, text, p, h);
    forall walk ensures Explains(files, text, walk, h) && walk[0] == p <==> Connects(files, walk, p, text) && |walk| == h + 1 {}
  }

  ghost predicate ReachedWithin(files: seq<FileFact>, p: Path, text: string, hops: nat) {
    exists walk :: Connects(files, walk, p, text) && |walk| <= hops + 1
  }

  lemma ReachedIffMet(files: seq<FileFact>, text: string, hops: nat, p: Path)
    requires IsPath(text) && forall f :: f in files ==> !Refers(f, text)
    ensures p in Reasons(files, text, hops) <==> ReachedWithin(files, p, text, hops)
  {
    if p in Reasons(files, text, hops) {
      var h := ReasonHasLevel(files, text, hops, p);
      PathLevels(files, text, p, h);
    }
    forall walk | Connects(files, walk, p, text) && |walk| <= hops + 1 ensures p in Reasons(files, text, hops) {
      PathLevels(files, text, p, |walk| - 1);
      LevelHasReason(files, text, |walk| - 1, hops, p);
    }
  }

  /** For a path nothing refers to by name, the walk reports exactly the files with an import
      chain of at most `hops` imports to it, each with the length of its shortest chain. */
  lemma ImpactIsReachability(files: seq<FileFact>, text: string, hops: nat, p: Path)
    requires IsPath(text) && forall f :: f in files ==> !Refers(f, text)
    ensures p in Reasons(files, text, hops) <==> ReachedWithin(files, p, text, hops)
    ensures p in Reasons(files, text, hops) ==>
      exists walk :: Connects(files, walk, p, text) && Reasons(files, text, hops)[p] == Imports(|walk| - 1) &&
        forall other :: Connects(files, other, p, text) ==> |walk| <= |other|
  {
    ReachedIffMet(files, text, hops, p);
    if p in Reasons(files, text, hops) {
      ReasonIsFirstMeeting(files, text, hops, p);
      var k := Reasons(files, text, hops)[p].depth;
      PathLevels(files, text, p, k);
      ReachedIffMet(files, text, k - 1, p);
      var walk :| Connects(files, walk, p, text) && |walk| == k + 1;
      forall other | Connects(files, other, p, text) ensures |walk| <= |other| {
        assert !ReachedWithin(files, p, text, k - 1);
      }
    }
  }

  predicate DistinctPaths(files: seq<FileFact>) {
    forall i, j :: 0 <= i < j < |files| ==> files[i].path != files[j].path
  }

  /** For a symbol, the word `references` is kept for referring files that import no definer. */
  lemma ReferencesExactly(files: seq<FileFact>, text: string, hops: nat, f: FileFact)
    requires DistinctPaths(files) && f in files && hops > 0
    ensures Refers(f, text) && !ImportsAny(f, Start(files, text)) <==>
      f.path in Reasons(files, text, hops) && Reasons(files, text, hops)[f.path] == References
  {
    if Refers(f, text) {
      assert f.path in Level(files, text, 1);
      FirstHopDecides(files, text, hops, f);
      var i :| 0 <= i < |files| && files[i] == f;
      OneReason(files, Start(files, text), text, 1, i);
    } else if f.path in Reasons(files, text, hops) {
      ReasonIsFirstMeeting(files, text, hops, f.path);
    }
  }

  lemma {:induction false} FirstHopDecides(files: seq<FileFact>, text: string, hops: nat, f: FileFact)
    requires hops > 0 && f.path in Level(files, text, 1)
    ensures f.path in Reasons(files, text, hops)
    ensures f.path in HopReasons(files, Start(files, text), text, 1)
    ensures Reasons(files, text, hops)[f.path] == HopReasons(files, Start(files, text), text, 1)[f.path]
  {
    HopReasonsKeys(files, Start(files, text), text, 1);
    if hops > 1 {
      FirstHopDecides(files, text, hops - 1, f);
    } else {
      assert Level(files, text, 0) == Start(files, text);
      assert Reasons(files, text, 0) == map[];
    }
  }

  /** Among facts of one path, the first that fires in a hop gives the reason. */
  lemma {:induction false} OneReason(files: seq<FileFact>, frontier: set<Path>, text: string, hop: nat, i: nat)
    requires i < |files| && Fires(files[i], frontier, text)
    requires forall j :: 0 <= j < i ==> files[j].path != files[i].path || !Fires(files[j], frontier, text)
    ensures files[i].path in HopReasons(files, frontier, text, hop)
    ensures HopReasons(files, frontier, text, hop)[files[i].path] == ReasonOf(files[i], frontier, hop)
  {
    var front := files[..|files| - 1];
    if i == |files| - 1 {
      HopReasonsKeys(front, frontier, text, hop);
    } else {
      assert forall j :: 0 <= j <= i ==> front[j] == files[j];
      OneReason(front, frontier, text, hop, i);
    }
  }
}
