/**
  Ripgrep-backed search: enumerate the permitted files under caps, pack them into command
  lines, and collect matches under a result cap and a time budget.
 */
module CodeSearch {
  import opened Sequences
  import opened Wrappers

  const MAX_SEARCH_FILES_SCANNED: nat := 50000
  const ARGV_CHAR_BUDGET: nat := 28000

  type Path = string

  datatype Match = Match(path: Path, line: nat, text: string)

  /** One line of ripgrep's output: a match, or anything the collector skips. */
  datatype Event = Hit(hit: Match) | Other

  datatype RgRun = Ran(events: seq<Event>) | RgError

  /** What to search: given files, a directory as its pruned, sorted walk, or one file. */
  datatype Targets = Listed(files: seq<Path>) | Directory(walk: seq<seq<Path>>) | Single(file: Path)

  /** The search's surroundings: the caller's permission gate, the file-name filter, and whether
      the time budget has run out at the `i`-th directory and before the `i`-th batch. */
  datatype Setting = Setting(allowed: Path -> bool, included: Path -> bool, walkLate: nat -> bool, batchLate: nat -> bool)

  datatype Outcome = Outcome(matches: seq<Match>, truncated: bool, fileCapped: bool, deadlineHit: bool)

  // ---- Enumeration ----

  function Keep(paths: seq<Path>, wanted: Path -> bool): seq<Path> {
    if paths == [] then []
    else
      var before, last := Keep(paths[..|paths| - 1], wanted), paths[|paths| - 1];
      if wanted(last) then before + [last] else before
  }

  lemma {:induction false} KeepConcat(a: seq<Path>, b: seq<Path>, wanted: Path -> bool)
    ensures Keep(a + b, wanted) == Keep(a, wanted) + Keep(b, wanted)
  {
    if b == [] {
      assert a + b == a;
    } else {
      assert (a + b)[..|a + b| - 1] == a + b[..|b| - 1];
      KeepConcat(a, b[..|b| - 1], wanted);
    }
  }

  /** What a directory walk lets through. */
  function Wanted(s: Setting): Path -> bool {
    p => s.included(p) && s.allowed(p)
  }

  /** The files a search may read, before any cap. */
  function Permitted(t: Targets, s: Setting): seq<Path> {
    match t
    case Listed(files) => Keep(files, s.allowed)
    case Directory(walk) => Keep(Flatten(walk), Wanted(s))
    case Single(file) => if s.allowed(file) then [file] else []
  }

  lemma {:induction false} KeepMeans(paths: seq<Path>, wanted: Path -> bool) returns (at: seq<nat>)
    ensures SelectedAt(at, paths, Keep(paths, wanted), wanted)
  {
    if paths == [] {
      at := [];
    } else {
      var front, last := paths[..|paths| - 1], paths[|paths| - 1];
      at := KeepMeans(front, wanted);
      SelectedSnoc(at, front, Keep(front, wanted), wanted, last);
      assert front + [last] == paths;
      if wanted(last) {
        at := at + [|front|];
      }
    }
  }

  /** The permitted files, in order: of a list or of one file those that the gate allows, and of a
      directory those that the gate and the file-name filter both let through. */
  lemma PermittedMeans(t: Targets, s: Setting) returns (at: seq<nat>, all: seq<Path>)
    ensures all == (match t case Listed(files) => files case Directory(walk) => Flatten(walk) case Single(file) => [file])
    ensures SelectedAt(at, all, Permitted(t, s), p => s.allowed(p) && (t.Directory? ==> s.included(p)))
  {
    match t {
      case Listed(files) =>
        all := files;
        at := KeepMeans(files, s.allowed);
      case Directory(walk) =>
        all := Flatten(walk);
        at := KeepMeans(all, Wanted(s));
      case Single(file) =>
        all := [file];
        at := if s.allowed(file) then [0] else [];
    }
  }

  method Enumerate(t: Targets, s: Setting) returns (files: seq<Path>, capped: bool, late: bool)
    ensures files <= Permitted(t, s)
    ensures !capped && !late ==> files == Permitted(t, s)
    ensures capped ==> |files| == MAX_SEARCH_FILES_SCANNED && t.Directory?
    ensures t.Directory? && !capped && !late ==> forall d :: 0 <= d < |t.walk| ==> !s.walkLate(d)
    ensures late ==> t.Directory? && !capped && exists d :: 0 <= d < |t.walk| && s.walkLate(d)
    ensures t.Directory? ==> |files| <= MAX_SEARCH_FILES_SCANNED
  {
    files, capped, late := [], false, false;
    match t {
      case Listed(given) =>
        for i := 0 to |given|
          invariant files == Keep(given[..i], s.allowed)
        {
          assert given[..i + 1][..i] == given[..i];
          if s.allowed(given[i]) {
            files := files + [given[i]];
          }
        }
        assert given[..|given|] == given;
      case Single(file) =>
        if s.allowed(file) {
          files := [file];
        }
      case Directory(walk) =>
        files, capped, late := WalkDirectory(walk, s);
    }
  }

  lemma KeepWalkStep(walk: seq<seq<Path>>, d: nat, wanted: Path -> bool)
    requires d < |walk|
    ensures Keep(Flatten(walk[..d + 1]), wanted) == Keep(Flatten(walk[..d]), wanted) + Keep(walk[d], wanted)
  {
    var upTo := walk[..d + 1];
    assert upTo[..d] == walk[..d] && upTo[d] == walk[d];
    assert upTo == walk[..d] + [walk[d]];
    FlattenSnoc(walk[..d], walk[d]);
    KeepConcat(Flatten(walk[..d]), walk[d], wanted);
  }

  lemma KeepWalkPrefix(walk: seq<seq<Path>>, d: nat, wanted: Path -> bool)
    requires d <= |walk|
    ensures Keep(Flatten(walk[..d]), wanted) <= Keep(Flatten(walk), wanted)
  {
    var done, rest := walk[..d], walk[d..];
    assert walk == done + rest;
    FlattenConcat(done, rest);
    KeepConcat(Flatten(done), Flatten(rest), wanted);
  }

  /** The files of one directory, until the cap. */
  method WalkFiles(names: seq<Path>, s: Setting, room: nat) returns (files: seq<Path>, capped: bool)
    requires room > 0
    ensures files <= Keep(names, Wanted(s))
    ensures if capped then |files| == room
      else files == Keep(names, Wanted(s)) && |files| < room
  {
    ghost var wanted := Wanted(s);
    files, capped := [], false;
    for i := 0 to |names|
      invariant files == Keep(names[..i], wanted)
      invariant |files| < room && !capped
    {
      assert names[..i + 1][..i] == names[..i];
      if !s.included(names[i]) || !s.allowed(names[i]) {
        continue;
      }
      files := files + [names[i]];
      if |files| >= room {
        capped := true;
        assert names == names[..i + 1] + names[i + 1..];
        KeepConcat(names[..i + 1], names[i + 1..], wanted);
        return;
      }
    }
    assert names[..|names|] == names;
  }

  method WalkDirectory(walk: seq<seq<Path>>, s: Setting) returns (files: seq<Path>, capped: bool, late: bool)
    ensures files <= Permitted(Directory(walk), s)
    ensures !capped && !late ==> files == Permitted(Directory(walk), s)
    ensures capped ==> |files| == MAX_SEARCH_FILES_SCANNED && !late
    ensures late ==> exists d :: 0 <= d < |walk| && s.walkLate(d)
    ensures !capped && !late ==> forall d :: 0 <= d < |walk| ==> !s.walkLate(d)
    ensures |files| <= MAX_SEARCH_FILES_SCANNED
  {
    files, capped, late := [], false, false;
    for d := 0 to |walk|
      invariant files == Keep(Flatten(walk[..d]), Wanted(s))
      invariant |files| < MAX_SEARCH_FILES_SCANNED && !capped && !late
      invariant forall k :: 0 <= k < d ==> !s.walkLate(k)
    {
      WalkStep(walk, d, Wanted(s));
      if s.walkLate(d) {
        late := true;
        return;
      }
      var found, full := WalkFiles(walk[d], s, MAX_SEARCH_FILES_SCANNED - |files|);
      PrefixOfSum(files, found, Keep(walk[d], Wanted(s)));
      files := files + found;
      if full {
        capped := true;
        return;
      }
    }
    assert walk[..|walk|] == walk;
  }

  lemma WalkStep(walk: seq<seq<Path>>, d: nat, wanted: Path -> bool)
    requires d < |walk|
    ensures Keep(Flatten(walk[..d]), wanted) <= Keep(Flatten(walk), wanted)
    ensures Keep(Flatten(walk[..d]), wanted) + Keep(walk[d], wanted) == Keep(Flatten(walk[..d + 1]), wanted)
    ensures Keep(Flatten(walk[..d]), wanted) + Keep(walk[d], wanted) <= Keep(Flatten(walk), wanted)
  {
    KeepWalkStep(walk, d, wanted);
    KeepWalkPrefix(walk, d, wanted);
    KeepWalkPrefix(walk, d + 1, wanted);
  }

  lemma PrefixOfSum(front: seq<Path>, part: seq<Path>, all: seq<Path>)
    requires part <= all
    ensures front + part <= front + all
  {}

  // ---- Batches ----

  function ArgLength(batch: seq<Path>): nat {
    if batch == [] then 0 else ArgLength(batch[..|batch| - 1]) + |batch[|batch| - 1]| + 1
  }

  /** A command line: never empty, and within the budget unless it is a single path. */
  predicate Fits(batch: seq<Path>) {
    batch != [] && (|batch| == 1 || ArgLength(batch) <= ARGV_CHAR_BUDGET)
  }

  /** An order-preserving partition of the files into command lines. */
  predicate Packing(batches: seq<seq<Path>>, files: seq<Path>) {
    Flatten(batches) == files && forall k :: 0 <= k < |batches| ==> Fits(batches[k])
  }

  predicate NoRoom(batches: seq<seq<Path>>, k: nat)
    requires k + 1 < |batches|
  {
    batches[k + 1] != [] && ArgLength(batches[k]) + |batches[k + 1][0]| + 1 > ARGV_CHAR_BUDGET
  }

  /** No batch has room for the first path of the next. */
  predicate Full(batches: seq<seq<Path>>) {
    forall k: nat :: k + 1 < |batches| ==> NoRoom(batches, k)
  }

  lemma CloseBatch(batches: seq<seq<Path>>, cur: seq<Path>, next: Path)
    requires Full(batches + [cur]) && ArgLength(cur) + |next| + 1 > ARGV_CHAR_BUDGET
    ensures Full(batches + [cur] + [[next]])
  {
    var closed := batches + [cur];
    forall k: nat | k + 1 < |closed + [[next]]| ensures NoRoom(closed + [[next]], k) {
      assert k + 1 < |closed| ==> NoRoom(closed, k);
    }
  }

  lemma ExtendBatch(batches: seq<seq<Path>>, cur: seq<Path>, next: Path)
    requires cur != [] && Full(batches + [cur])
    ensures Full(batches + [cur + [next]])
  {
    forall k: nat | k + 1 < |batches + [cur + [next]]| ensures NoRoom(batches + [cur + [next]], k) {
      assert NoRoom(batches + [cur], k);
    }
  }

  lemma ArgLengthSnoc(batch: seq<Path>, next: Path)
    ensures ArgLength(batch + [next]) == ArgLength(batch) + |next| + 1
  {
    assert (batch + [next])[..|batch|] == batch;
  }

  /** Where the packing loop stands after the files in `done`. */
  predicate Packed(batches: seq<seq<Path>>, cur: seq<Path>, done: seq<Path>) {
    && Flatten(batches) + cur == done
    && (forall k :: 0 <= k < |batches| ==> Fits(batches[k]))
    && (cur == [] ==> batches == [])
    && (cur != [] ==> Fits(cur) && Full(batches + [cur]))
  }

  lemma PackClosed(batches: seq<seq<Path>>, cur: seq<Path>, done: seq<Path>, next: Path)
    requires Packed(batches, cur, done) && cur != [] && ArgLength(cur) + |next| + 1 > ARGV_CHAR_BUDGET
    ensures Packed(batches + [cur], [next], done + [next])
  {
    FlattenSnoc(batches, cur);
    CloseBatch(batches, cur, next);
    assert Flatten(batches + [cur]) + [next] == done + [next];
  }

  lemma PackExtended(batches: seq<seq<Path>>, cur: seq<Path>, done: seq<Path>, next: Path)
    requires Packed(batches, cur, done) && (cur == [] || ArgLength(cur) + |next| + 1 <= ARGV_CHAR_BUDGET)
    ensures Packed(batches, cur + [next], done + [next])
  {
    ArgLengthSnoc(cur, next);
    if cur != [] {
      ExtendBatch(batches, cur, next);
    }
    assert Flatten(batches) + (cur + [next]) == (Flatten(batches) + cur) + [next];
  }

  lemma PackDone(batches: seq<seq<Path>>, cur: seq<Path>, files: seq<Path>)
    requires Packed(batches, cur, files)
    ensures var all := if cur == [] then batches else batches + [cur];
      Packing(all, files) && Full(all)
  {
    FlattenSnoc(batches, cur);
  }

  /** The packing loop, with the batch it leaves open. */
  method FillBatches(files: seq<Path>) returns (batches: seq<seq<Path>>, cur: seq<Path>)
    ensures Packed(batches, cur, files)
  {
    batches, cur := [], [];
    var curLen := 0;
    for i := 0 to |files|
      invariant Packed(batches, cur, files[..i])
      invariant curLen == ArgLength(cur)
    {
      var plen := |files[i]| + 1;
      assert files[..i + 1] == files[..i] + [files[i]];
      ArgLengthSnoc(cur, files[i]);
      if cur != [] && curLen + plen > ARGV_CHAR_BUDGET {
        PackClosed(batches, cur, files[..i], files[i]);
        ArgLengthSnoc([], files[i]);
        assert [] + [files[i]] == [files[i]];
        batches := batches + [cur];
        cur, curLen := [], 0;
      } else {
        PackExtended(batches, cur, files[..i], files[i]);
      }
      cur := cur + [files[i]];
      curLen := curLen + plen;
    }
    assert files[..|files|] == files;
  }

  /** Greedy packing partitions the files in order, and no partition needs fewer batches. */
  method PackBatches(files: seq<Path>) returns (batches: seq<seq<Path>>)
    ensures Packing(batches, files)
    ensures forall others :: Packing(others, files) ==> |batches| <= |others|
  {
    var cur: seq<Path>;
    batches, cur := FillBatches(files);
    PackDone(batches, cur, files);
    if cur != [] {
      batches := batches + [cur];
    }
    FullIsMinimal(batches, files);
  }

  /** A command line's length is one more than its path for each path, summed up. */
  lemma ArgLengthMeans(a: seq<Path>, b: seq<Path>, p: Path)
    ensures ArgLength([]) == 0 && ArgLength([p]) == |p| + 1
    ensures ArgLength(a + b) == ArgLength(a) + ArgLength(b)
  {
    ArgLengthSnoc([], p);
    assert [] + [p] == [p];
    ArgLengthConcat(a, b);
  }

  lemma FullIsMinimal(batches: seq<seq<Path>>, files: seq<Path>)
    requires Packing(batches, files) && Full(batches)
    ensures forall others :: Packing(others, files) ==> |batches| <= |others|
  {
    forall others | Packing(others, files) ensures |batches| <= |others| {
      assert files[0..] == files;
      GreedyIsMinimal(batches, others, 0);
    }
  }

  lemma {:induction false} ArgLengthConcat(a: seq<Path>, b: seq<Path>)
    ensures ArgLength(a + b) == ArgLength(a) + ArgLength(b)
  {
    if b == [] {
      assert a + b == a;
    } else {
      assert (a + b)[..|a + b| - 1] == a + b[..|b| - 1];
      ArgLengthConcat(a, b[..|b| - 1]);
    }
  }

  /** A full packing of what is left after `skip` files reaches as far with each batch as any
      other packing of all the files does. */
  lemma {:induction false} GreedyIsMinimal(greedy: seq<seq<Path>>, others: seq<seq<Path>>, skip: nat)
    requires skip <= |Flatten(others)| && Packing(greedy, Flatten(others)[skip..]) && Full(greedy)
    requires forall k :: 0 <= k < |others| ==> Fits(others[k])
    ensures |greedy| <= |others|
    decreases others
  {
    if greedy != [] {
      assert Fits(greedy[0]);
      if others == [] {
        assert false;
      } else {
        var p, rest := others[0], others[1..];
        assert forall k :: 0 <= k < |rest| ==> rest[k] == others[k + 1];
        if skip >= |p| {
          assert Flatten(others)[skip..] == Flatten(rest)[skip - |p|..];
          GreedyIsMinimal(greedy, rest, skip - |p|);
        } else {
          FirstReachesAsFar(greedy, p, Flatten(rest), skip);
          var next := skip + |greedy[0]| - |p|;
          assert Flatten(greedy[1..]) == Flatten(others)[skip..][|greedy[0]|..] == Flatten(rest)[next..];
          assert Full(greedy[1..]) by {
            forall k: nat | k + 1 < |greedy[1..]| ensures NoRoom(greedy[1..], k) {
              assert NoRoom(greedy, k + 1);
            }
          }
          GreedyIsMinimal(greedy[1..], rest, next);
        }
      }
    }
  }

  lemma PartIsShorter(p: seq<Path>, n: nat)
    requires n <= |p|
    ensures ArgLength(p[..n]) <= ArgLength(p) && ArgLength(p[n..]) <= ArgLength(p)
  {
    assert p == p[..n] + p[n..];
    ArgLengthConcat(p[..n], p[n..]);
  }

  lemma PieceIsShorter(p: seq<Path>, from: nat, upto: nat)
    requires from <= upto <= |p|
    ensures ArgLength(p[from..upto]) <= ArgLength(p)
  {
    PartIsShorter(p, upto);
    PartIsShorter(p[..upto], from);
    assert p[..upto][from..] == p[from..upto];
  }

  lemma FirstReachesAsFar(greedy: seq<seq<Path>>, p: seq<Path>, after: seq<Path>, skip: nat)
    requires greedy != [] && skip < |p| && Fits(p) && Fits(greedy[0]) && Full(greedy)
    requires Flatten(greedy) == (p + after)[skip..]
    ensures |greedy[0]| >= |p| - skip
  {
    var g, rest := greedy[0], greedy[1..];
    if |g| < |p| - skip {
      assert rest != [];
      assert NoRoom(greedy, 0);
      var first := rest[0][0];
      var upto := skip + |g| + 1;
      assert Flatten(greedy)[..|g| + 1] == g + [first];
      assert (p + after)[skip..][..|g| + 1] == p[skip..upto];
      ArgLengthSnoc(g, first);
      PieceIsShorter(p, skip, upto);
    }
  }

  // ---- Collection ----

  function AllowedHits(events: seq<Event>, allowed: Path -> bool): seq<Match> {
    if events == [] then []
    else
      var before, last := AllowedHits(events[..|events| - 1], allowed), events[|events| - 1];
      if last.Hit? && allowed(last.hit.path) then before + [last.hit] else before
  }

  /** The collector keeps each match of an allowed path and skips everything else. */
  lemma {:induction false} HitsMean(a: seq<Event>, b: seq<Event>, m: Match, allowed: Path -> bool)
    ensures AllowedHits([], allowed) == [] && AllowedHits([Other], allowed) == []
    ensures AllowedHits([Hit(m)], allowed) == if allowed(m.path) then [m] else []
    ensures AllowedHits(a + b, allowed) == AllowedHits(a, allowed) + AllowedHits(b, allowed)
  {
    assert [Other][..0] == [] && [Hit(m)][..0] == [];
    if b == [] {
      assert a + b == a;
    } else {
      assert (a + b)[..|a + b| - 1] == a + b[..|b| - 1];
      HitsMean(a, b[..|b| - 1], m, allowed);
    }
  }

  function HitsOf(run: RgRun, allowed: Path -> bool): seq<Match> {
    match run case Ran(events) => AllowedHits(events, allowed) case RgError => []
  }

  /** Everything ripgrep reports for the batches, one after the other. */
  function AllHits(batches: seq<seq<Path>>, rg: seq<Path> -> RgRun, allowed: Path -> bool): seq<Match> {
    if batches == [] then []
    else
      AllHits(batches[..|batches| - 1], rg, allowed) + HitsOf(rg(batches[|batches| - 1]), allowed)
  }

  lemma {:induction false} AllHitsGrow(batches: seq<seq<Path>>, rg: seq<Path> -> RgRun, allowed: Path -> bool, n: nat)
    requires n <= |batches|
    ensures AllHits(batches[..n], rg, allowed) <= AllHits(batches, rg, allowed)
  {
    if n == |batches| {
      assert batches[..n] == batches;
    } else {
      AllHitsGrow(batches[..|batches| - 1], rg, allowed, n);
      assert batches[..|batches| - 1][..n] == batches[..n];
    }
  }

  lemma {:induction false} AllowedHitsGrow(events: seq<Event>, allowed: Path -> bool, n: nat)
    requires n <= |events|
    ensures AllowedHits(events[..n], allowed) <= AllowedHits(events, allowed)
  {
    if n == |events| {
      assert events[..n] == events;
    } else {
      AllowedHitsGrow(events[..|events| - 1], allowed, n);
      assert events[..|events| - 1][..n] == events[..n];
    }
  }

  lemma {:induction false} HitsAllowed(events: seq<Event>, allowed: Path -> bool)
    ensures forall m :: m in AllowedHits(events, allowed) ==> allowed(m.path)
  {
    if events != [] {
      HitsAllowed(events[..|events| - 1], allowed);
    }
  }

  lemma {:induction false} AllHitsAllowed(batches: seq<seq<Path>>, rg: seq<Path> -> RgRun, allowed: Path -> bool)
    ensures forall m :: m in AllHits(batches, rg, allowed) ==> allowed(m.path)
  {
    if batches != [] {
      AllHitsAllowed(batches[..|batches| - 1], rg, allowed);
      if rg(batches[|batches| - 1]).Ran? {
        HitsAllowed(rg(batches[|batches| - 1]).events, allowed);
      }
    }
  }

  /** One batch's output, up to the result cap. */
  method CollectBatch(given: seq<Match>, events: seq<Event>, allowed: Path -> bool, maxResults: int)
    returns (matches: seq<Match>, full: bool)
    requires given != [] ==> |given| <= maxResults
    ensures matches <= given + AllowedHits(events, allowed)
    ensures matches != [] ==> |matches| <= maxResults
    ensures full ==> |matches| >= maxResults
    ensures !full ==> matches == given + AllowedHits(events, allowed)
  {
    matches := given;
    for i := 0 to |events|
      invariant matches == given + AllowedHits(events[..i], allowed)
      invariant matches != [] ==> |matches| <= maxResults
    {
      assert events[..i + 1][..i] == events[..i];
      if !events[i].Hit? || !allowed(events[i].hit.path) {
        continue;
      }
      if |matches| >= maxResults {
        AllowedHitsGrow(events, allowed, i);
        return matches, true;
      }
      matches := matches + [events[i].hit];
    }
    assert events[..|events|] == events;
    full := false;
  }

  lemma HitsOfNext(batches: seq<seq<Path>>, rg: seq<Path> -> RgRun, allowed: Path -> bool, b: nat)
    requires b < |batches|
    ensures AllHits(batches[..b + 1], rg, allowed) == AllHits(batches[..b], rg, allowed) + HitsOf(rg(batches[b]), allowed)
    ensures AllHits(batches[..b], rg, allowed) <= AllHits(batches, rg, allowed)
    ensures AllHits(batches[..b + 1], rg, allowed) <= AllHits(batches, rg, allowed)
  {
    AllHitsGrow(batches, rg, allowed, b);
    AllHitsGrow(batches, rg, allowed, b + 1);
    assert batches[..b + 1][..b] == batches[..b] && batches[..b + 1][b] == batches[b];
  }

  /** The first `n` batches were started in time, and ripgrep ran them. */
  predicate Served(batches: seq<seq<Path>>, rg: seq<Path> -> RgRun, s: Setting, n: nat)
    requires n <= |batches|
  {
    forall k :: 0 <= k < n ==> !s.batchLate(k) && rg(batches[k]).Ran?
  }

  lemma ServedNext(batches: seq<seq<Path>>, rg: seq<Path> -> RgRun, s: Setting, n: nat)
    requires n < |batches|
    ensures Served(batches, rg, s, n + 1) <==> Served(batches, rg, s, n) && !s.batchLate(n) && rg(batches[n]).Ran?
  {}

  lemma PrefixOfPrefix<T>(a: seq<T>, b: seq<T>, c: seq<T>)
    requires a <= b && b <= c
    ensures a <= c
  {}

  /** The batch loop; `None` is the error it raises when ripgrep fails. */
  method Collect(batches: seq<seq<Path>>, rg: seq<Path> -> RgRun, s: Setting, maxResults: int)
    returns (r: Option<(seq<Match>, bool, bool)>)
    ensures r.Some? ==>
      var (matches, truncated, late) := r.value;
      && matches <= AllHits(batches, rg, s.allowed)
      && (matches != [] ==> |matches| <= maxResults)
      && (truncated ==> |matches| >= maxResults)
      && (!truncated && !late ==> matches == AllHits(batches, rg, s.allowed))
      && (late ==> exists b :: 0 <= b < |batches| && s.batchLate(b))
      && (!truncated && !late ==> Served(batches, rg, s, |batches|))
    ensures (forall b :: 0 <= b < |batches| ==> rg(batches[b]).Ran?) ==> r.Some?
  {
    var matches: seq<Match> := [];
    for b := 0 to |batches|
      invariant matches == AllHits(batches[..b], rg, s.allowed)
      invariant matches != [] ==> |matches| <= maxResults
      invariant Served(batches, rg, s, b)
    {
      ServedNext(batches, rg, s, b);
      HitsOfNext(batches, rg, s.allowed, b);
      if |matches| >= maxResults {
        return Some((matches, true, false));
      }
      if s.batchLate(b) {
        return Some((matches, false, true));
      }
      var run := rg(batches[b]);
      if run.RgError? {
        return None;
      }
      var full: bool;
      matches, full := CollectBatch(matches, run.events, s.allowed, maxResults);
      if full {
        PrefixOfPrefix(matches, AllHits(batches[..b + 1], rg, s.allowed), AllHits(batches, rg, s.allowed));
        return Some((matches, true, false));
      }
    }
    assert batches[..|batches|] == batches;
    return Some((matches, false, false));
  }

  // ---- What "every match" means ----

  function MatchesOf(files: seq<Path>, found: Path -> seq<Match>): seq<Match> {
    if files == [] then [] else MatchesOf(files[..|files| - 1], found) + found(files[|files| - 1])
  }

  lemma {:induction false} MatchesConcat(a: seq<Path>, b: seq<Path>, found: Path -> seq<Match>)
    ensures MatchesOf(a + b, found) == MatchesOf(a, found) + MatchesOf(b, found)
  {
    if b == [] {
      assert a + b == a;
    } else {
      assert (a + b)[..|a + b| - 1] == a + b[..|b| - 1];
      MatchesConcat(a, b[..|b| - 1], found);
    }
  }

  lemma MatchesLast(batches: seq<seq<Path>>, found: Path -> seq<Match>)
    requires batches != []
    ensures MatchesOf(Flatten(batches), found)
         == MatchesOf(Flatten(batches[..|batches| - 1]), found) + MatchesOf(batches[|batches| - 1], found)
  {
    var before, last := batches[..|batches| - 1], batches[|batches| - 1];
    assert batches == before + [last];
    FlattenSnoc(before, last);
    MatchesConcat(Flatten(before), last, found);
  }

  /** Ripgrep's report for a batch holds the matches of its files, in some order. */
  predicate Faithful(batch: seq<Path>, rg: seq<Path> -> RgRun, found: Path -> seq<Match>, allowed: Path -> bool) {
    rg(batch).Ran? && multiset(AllowedHits(rg(batch).events, allowed)) == multiset(MatchesOf(batch, found))
  }

  predicate InOrder(batch: seq<Path>, rg: seq<Path> -> RgRun, found: Path -> seq<Match>, allowed: Path -> bool) {
    rg(batch).Ran? && AllowedHits(rg(batch).events, allowed) == MatchesOf(batch, found)
  }

  /** Batching is invisible: whatever the packing, the batches together report each match of
      each file exactly once; and file by file in order when each batch does. */
  lemma {:induction false} BatchingIsInvisible(batches: seq<seq<Path>>, rg: seq<Path> -> RgRun,
                                               found: Path -> seq<Match>, allowed: Path -> bool)
    requires forall k :: 0 <= k < |batches| ==> Faithful(batches[k], rg, found, allowed)
    ensures multiset(AllHits(batches, rg, allowed)) == multiset(MatchesOf(Flatten(batches), found))
    ensures (forall k :: 0 <= k < |batches| ==> InOrder(batches[k], rg, found, allowed))
            ==> AllHits(batches, rg, allowed) == MatchesOf(Flatten(batches), found)
  {
    if batches != [] {
      var before, last := batches[..|batches| - 1], batches[|batches| - 1];
      forall k | 0 <= k < |before| ensures before[k] == batches[k] && Faithful(before[k], rg, found, allowed) {}
      BatchingIsInvisible(before, rg, found, allowed);
      MatchesLast(batches, found);
      assert Faithful(last, rg, found, allowed);
      LastBatch(batches, rg, found, allowed);
    }
  }

  lemma LastBatch(batches: seq<seq<Path>>, rg: seq<Path> -> RgRun, found: Path -> seq<Match>, allowed: Path -> bool)
    requires batches != [] && Faithful(batches[|batches| - 1], rg, found, allowed)
    ensures var n := |batches| - 1; var hits := AllowedHits(rg(batches[n]).events, allowed);
      && AllHits(batches, rg, allowed) == AllHits(batches[..n], rg, allowed) + hits
      && multiset(hits) == multiset(MatchesOf(batches[n], found))
      && (InOrder(batches[n], rg, found, allowed) ==> hits == MatchesOf(batches[n], found))
  {}

  /** Ripgrep is faithful, or even in order, on every command line. */
  ghost predicate RgFaithful(rg: seq<Path> -> RgRun, found: Path -> seq<Match>, allowed: Path -> bool) {
    forall batch :: Faithful(batch, rg, found, allowed)
  }

  ghost predicate RgInOrder(rg: seq<Path> -> RgRun, found: Path -> seq<Match>, allowed: Path -> bool) {
    forall batch :: InOrder(batch, rg, found, allowed)
  }

  lemma FaithfulSearch(batches: seq<seq<Path>>, files: seq<Path>, rg: seq<Path> -> RgRun, allowed: Path -> bool)
    requires Flatten(batches) == files
    ensures forall found :: RgFaithful(rg, found, allowed) ==>
      multiset(AllHits(batches, rg, allowed)) == multiset(MatchesOf(files, found))
    ensures forall found :: RgInOrder(rg, found, allowed) ==> AllHits(batches, rg, allowed) == MatchesOf(files, found)
  {
    forall found | RgFaithful(rg, found, allowed)
      ensures multiset(AllHits(batches, rg, allowed)) == multiset(MatchesOf(files, found))
    {
      BatchingIsInvisible(batches, rg, found, allowed);
    }
    forall found | RgInOrder(rg, found, allowed)
      ensures AllHits(batches, rg, allowed) == MatchesOf(files, found)
    {
      assert forall batch :: InOrder(batch, rg, found, allowed) ==> Faithful(batch, rg, found, allowed);
      BatchingIsInvisible(batches, rg, found, allowed);
    }
  }

  lemma MatchesGrow(files: seq<Path>, permitted: seq<Path>, found: Path -> seq<Match>)
    requires files <= permitted
    ensures MatchesOf(files, found) <= MatchesOf(permitted, found)
  {
    assert permitted == files + permitted[|files|..];
    MatchesConcat(files, permitted[|files|..], found);
  }

  /** No flag is set: the search claims to be complete. */
  predicate Complete(o: Outcome) {
    !o.truncated && !o.fileCapped && !o.deadlineHit
  }

  /** What a search may find, whatever it collected. */
  lemma OrderedSearch(batches: seq<seq<Path>>, files: seq<Path>, permitted: seq<Path>, matches: seq<Match>,
                      rg: seq<Path> -> RgRun, allowed: Path -> bool)
    requires Flatten(batches) == files && files <= permitted && matches <= AllHits(batches, rg, allowed)
    ensures forall found :: RgInOrder(rg, found, allowed) ==> matches <= MatchesOf(permitted, found)
    ensures forall found :: RgFaithful(rg, found, allowed) ==> |matches| <= |MatchesOf(permitted, found)|
  {
    FaithfulSearch(batches, files, rg, allowed);
    forall found ensures MatchesOf(files, found) <= MatchesOf(permitted, found) {
      MatchesGrow(files, permitted, found);
    }
    forall found | RgFaithful(rg, found, allowed) ensures |matches| <= |MatchesOf(permitted, found)| {
      assert |multiset(AllHits(batches, rg, allowed))| == |multiset(MatchesOf(files, found))|;
    }
  }

  /** The whole search; `None` is the error it raises when ripgrep fails. Its flags are honest: it
      never returns more than `maxResults` matches or one outside the permitted paths, and when no
      flag is set it returns each match of each permitted file exactly once. When ripgrep reports
      file by file in order, so does the search, and what a flagged search returns is an initial
      part of that. */
  method SearchWithRg(t: Targets, rg: seq<Path> -> RgRun, s: Setting, maxResults: int) returns (r: Option<Outcome>)
    ensures r.Some? ==>
      && (forall m :: m in r.value.matches ==> s.allowed(m.path))
      && (r.value.matches != [] ==> |r.value.matches| <= maxResults)
      && (r.value.truncated ==> |r.value.matches| >= maxResults)
    ensures r.Some? && Complete(r.value) ==> forall found :: RgFaithful(rg, found, s.allowed) ==>
      multiset(r.value.matches) == multiset(MatchesOf(Permitted(t, s), found))
    ensures r.Some? ==> forall found :: RgInOrder(rg, found, s.allowed) ==>
      && r.value.matches <= MatchesOf(Permitted(t, s), found)
      && (Complete(r.value) ==> r.value.matches == MatchesOf(Permitted(t, s), found))
    ensures (forall batch :: batch != [] ==> rg(batch).Ran?) ==> r.Some?
    ensures r.Some? && r.value.deadlineHit ==>
      (t.Directory? && exists d :: 0 <= d < |t.walk| && s.walkLate(d)) || (exists b :: s.batchLate(b))
    ensures r.Some? && r.value.fileCapped ==> t.Directory? && |Permitted(t, s)| >= MAX_SEARCH_FILES_SCANNED
    ensures r.Some? && r.value.truncated ==> forall found :: RgFaithful(rg, found, s.allowed) ==>
      |MatchesOf(Permitted(t, s), found)| >= maxResults
  {
    var files, capped, late := Enumerate(t, s);
    if files == [] {
      return Some(Outcome([], false, capped, late));
    }
    var batches := PackBatches(files);
    var collected := Collect(batches, rg, s, maxResults);
    if collected.None? {
      return None;
    }
    var (matches, truncated, batchLate) := collected.value;
    AllHitsAllowed(batches, rg, s.allowed);
    forall m | m in matches ensures s.allowed(m.path) {
      assert m in AllHits(batches, rg, s.allowed);
    }
    FaithfulSearch(batches, files, rg, s.allowed);
    OrderedSearch(batches, files, Permitted(t, s), matches, rg, s.allowed);
    return Some(Outcome(matches, truncated, capped, late || batchLate));
  }
}
