/** core/storage.py: fresh attempt directories and the inventory of an artifact tree. */
module Inventory {
  import opened Base

  // ---- attempt directories ----

  function UpTo(n: nat): (r: set<nat>)
    ensures forall k: nat :: k in r <==> 1 <= k <= n
  {
    if n == 0 then {} else UpTo(n - 1) + {n}
  }

  /** The `attempts` directory of one task. */
  class AttemptDirectory {
    var taken: set<nat>

    constructor ()
      ensures taken == {}
    {
      taken := {};
    }

    /** Counts up until `mkdir` succeeds: the least number not taken. */
    method Allocate() returns (number: nat)
      modifies this
      ensures number >= 1 && number !in old(taken) && taken == old(taken) + {number}
      ensures forall k :: 1 <= k < number ==> k in old(taken)
      ensures forall n: nat :: old(taken) == UpTo(n) ==> number == n + 1 && taken == UpTo(n + 1)
    {
      number := 1;
      while number in taken
        invariant number >= 1 && forall k :: 1 <= k < number ==> k in taken
        invariant taken == old(taken)
        decreases taken - UpTo(number - 1)
      {
        assert number !in taken - UpTo(number) && number in taken - UpTo(number - 1);
        number := number + 1;
      }
      taken := taken + {number};
      forall n: nat | old(taken) == UpTo(n) ensures number == n + 1 && taken == UpTo(n + 1) {
        assert n + 1 !in old(taken);
        assert number <= n ==> number in UpTo(n);
      }
    }
  }

  // ---- artifact trees ----

  type Name = string
  type Path = seq<Name>

  datatype FileKind = Regular | Symlink | Special
  datatype FileEntry = FileEntry(name: Name, kind: FileKind)

  /** A directory as `os.walk` reports it; both lists are in name order, which is the
      order the walk sorts them into. */
  datatype Listing = Listing(files: seq<FileEntry>, dirs: seq<Sub>)
  datatype Sub = Sub(name: Name, link: bool, listing: Listing)

  datatype Selection = Selection(chosen: Option<set<Path>>, manifest: Path)

  predicate Under(path: Path, dir: Path) { |dir| < |path| && path[..|dir|] == dir }

  /** A formal artifact, told from its path alone: nothing below a `scratch` directory,
      neither the manifest nor an attempt marker, and selected if there is a selection. */
  predicate Formal(s: Selection, path: Path) {
    && path != []
    && "scratch" !in path[..|path| - 1]
    && path != s.manifest && path[|path| - 1] != ".attempt.json"
    && (s.chosen.Some? ==> path in s.chosen.value)
  }

  function PathsOf(files: seq<FileEntry>, base: Path): seq<Path> {
    seq(|files|, i requires 0 <= i < |files| => base + [files[i].name])
  }

  /** The plain walk: every file of the tree. */
  function AllFiles(l: Listing, base: Path): seq<Path>
    decreases l, 1
  {
    PathsOf(l.files, base) + AllUnder(l.dirs, base)
  }

  function AllUnder(dirs: seq<Sub>, base: Path): seq<Path>
    decreases dirs, 0
  {
    if dirs == [] then [] else AllFiles(dirs[0].listing, base + [dirs[0].name]) + AllUnder(dirs[1..], base)
  }

  // ---- the pruned walk ----

  /** Some selected path lies below `dir`. */
  predicate Leads(s: Selection, dir: Path) { s.chosen.Some? ==> exists p :: p in s.chosen.value && Under(p, dir) }

  predicate Descends(s: Selection, base: Path, d: Sub) { Leads(s, base + [d.name]) && d.name != "scratch" }

  function PrunedFiles(s: Selection, l: Listing, base: Path): seq<Path>
    decreases l, 1
  {
    Filter(PathsOf(l.files, base), p => Formal(s, p)) + PrunedUnder(s, l.dirs, base)
  }

  function PrunedUnder(s: Selection, dirs: seq<Sub>, base: Path): seq<Path>
    decreases dirs, 0
  {
    if dirs == [] then []
    else
      (if Descends(s, base, dirs[0]) then PrunedFiles(s, dirs[0].listing, base + [dirs[0].name]) else [])
      + PrunedUnder(s, dirs[1..], base)
  }

  /** Every file of a tree lies below its directory. */
  lemma {:induction false} FilesLieUnder(l: Listing, base: Path)
    ensures forall p :: p in AllFiles(l, base) ==> Under(p, base)
    decreases l, 1
  {
    SubFilesLieUnder(l.dirs, base);
  }

  lemma {:induction false} SubFilesLieUnder(dirs: seq<Sub>, base: Path)
    ensures forall p :: p in AllUnder(dirs, base) ==> Under(p, base)
    decreases dirs, 0
  {
    if dirs != [] {
      FilesLieUnder(dirs[0].listing, base + [dirs[0].name]);
      SubFilesLieUnder(dirs[1..], base);
      forall p | Under(p, base + [dirs[0].name]) ensures Under(p, base) {
        assert p[..|base|] == (base + [dirs[0].name])[..|base|];
      }
    }
  }

  /** Nothing is lost below a directory the walk does not enter. */
  lemma NothingFormalUnder(s: Selection, d: Sub, base: Path)
    requires !Descends(s, base, d)
    ensures forall p :: Under(p, base + [d.name]) ==> !Formal(s, p)
  {
    var dir := base + [d.name];
    forall p | Under(p, dir) ensures !Formal(s, p) {
      if d.name == "scratch" {
        assert p[..|p| - 1][|base|] == dir[|base|];
      }
    }
  }

  /** The pruned walk lists what the plain walk would list and a filter on paths keep,
      in the same order. */
  lemma {:induction false} PrunedIsFiltered(s: Selection, l: Listing, base: Path)
    ensures PrunedFiles(s, l, base) == Filter(AllFiles(l, base), p => Formal(s, p))
    decreases l, 1
  {
    FilterConcat(PathsOf(l.files, base), AllUnder(l.dirs, base), p => Formal(s, p));
    PrunedUnderIsFiltered(s, l.dirs, base);
  }

  lemma {:induction false} PrunedUnderIsFiltered(s: Selection, dirs: seq<Sub>, base: Path)
    ensures PrunedUnder(s, dirs, base) == Filter(AllUnder(dirs, base), p => Formal(s, p))
    decreases dirs, 0
  {
    if dirs != [] {
      var below := AllFiles(dirs[0].listing, base + [dirs[0].name]);
      FilterConcat(below, AllUnder(dirs[1..], base), p => Formal(s, p));
      PrunedUnderIsFiltered(s, dirs[1..], base);
      if Descends(s, base, dirs[0]) {
        PrunedIsFiltered(s, dirs[0].listing, base + [dirs[0].name]);
      } else {
        FilesLieUnder(dirs[0].listing, base + [dirs[0].name]);
        NothingFormalUnder(s, dirs[0], base);
        FilterNone(below, p => Formal(s, p));
      }
    }
  }

  // ---- register ----

  datatype RegisterError = SymlinkedDirectory | IrregularFile | MissingArtifacts

  predicate DirsClean(s: Selection, dirs: seq<Sub>, base: Path) {
    forall i :: 0 <= i < |dirs| && Leads(s, base + [dirs[i].name]) ==> !dirs[i].link
  }

  predicate FilesClean(s: Selection, files: seq<FileEntry>, base: Path) {
    forall i :: 0 <= i < |files| && Formal(s, base + [files[i].name]) ==> files[i].kind.Regular?
  }

  /** Nothing the walk looks at is a symlink or otherwise irregular. */
  predicate Clean(s: Selection, l: Listing, base: Path)
    decreases l, 1
  {
    DirsClean(s, l.dirs, base) && FilesClean(s, l.files, base) && CleanUnder(s, l.dirs, base)
  }

  predicate CleanUnder(s: Selection, dirs: seq<Sub>, base: Path)
    decreases dirs, 0
  {
    dirs == [] ||
    ((Descends(s, base, dirs[0]) ==> Clean(s, dirs[0].listing, base + [dirs[0].name]))
     && CleanUnder(s, dirs[1..], base))
  }

  method CollectFiles(s: Selection, files: seq<FileEntry>, base: Path) returns (ok: bool, listed: seq<Path>)
    ensures ok <==> FilesClean(s, files, base)
    ensures ok ==> listed == Filter(PathsOf(files, base), p => Formal(s, p))
  {
    listed := [];
    var paths := PathsOf(files, base);
    for i := 0 to |files|
      invariant FilesClean(s, files[..i], base)
      invariant listed == Filter(paths[..i], p => Formal(s, p))
    {
      assert paths[..i + 1][..i] == paths[..i] && files[..i + 1][..i] == files[..i];
      if !Formal(s, paths[i]) { continue; }
      if !files[i].kind.Regular? { return false, []; }
      listed := listed + [paths[i]];
    }
    assert paths[..|files|] == paths && files[..|files|] == files;
    ok := true;
  }

  /** Directories still to be walked, the next one first. */
  datatype Visit = Visit(base: Path, listing: Listing)

  function PendingFiles(s: Selection, todo: seq<Visit>): seq<Path> {
    if todo == [] then [] else PrunedFiles(s, todo[0].listing, todo[0].base) + PendingFiles(s, todo[1..])
  }

  predicate PendingClean(s: Selection, todo: seq<Visit>) {
    todo == [] || (Clean(s, todo[0].listing, todo[0].base) && PendingClean(s, todo[1..]))
  }

  function Weight(l: Listing): nat
    decreases l, 1
  {
    1 + WeightUnder(l.dirs)
  }

  function WeightUnder(dirs: seq<Sub>): nat
    decreases dirs, 0
  {
    if dirs == [] then 0 else Weight(dirs[0].listing) + WeightUnder(dirs[1..])
  }

  function PendingWeight(todo: seq<Visit>): nat {
    if todo == [] then 0 else Weight(todo[0].listing) + PendingWeight(todo[1..])
  }

  lemma {:induction false} PendingConcat(s: Selection, a: seq<Visit>, b: seq<Visit>)
    ensures PendingFiles(s, a + b) == PendingFiles(s, a) + PendingFiles(s, b)
    ensures PendingWeight(a + b) == PendingWeight(a) + PendingWeight(b)
    ensures PendingClean(s, a + b) <==> PendingClean(s, a) && PendingClean(s, b)
  {
    if a == [] {
      assert a + b == b;
    } else {
      assert (a + b)[1..] == a[1..] + b;
      PendingConcat(s, a[1..], b);
    }
  }

  /** The directory list pruned in place: symlinks are refused before `scratch` goes. */
  method PruneDirs(s: Selection, dirs: seq<Sub>, base: Path) returns (ok: bool, next: seq<Visit>)
    ensures ok <==> DirsClean(s, dirs, base)
    ensures ok ==> PendingFiles(s, next) == PrunedUnder(s, dirs, base)
    ensures ok ==> PendingWeight(next) <= WeightUnder(dirs)
    ensures ok ==> (PendingClean(s, next) <==> CleanUnder(s, dirs, base))
    decreases |dirs|
  {
    if dirs == [] { return true, []; }
    var rest;
    ok, rest := PruneDirs(s, dirs[1..], base);
    var leads := Leads(s, base + [dirs[0].name]);
    assert DirsClean(s, dirs, base) <==> (leads ==> !dirs[0].link) && DirsClean(s, dirs[1..], base) by {
      assert forall i :: 0 < i < |dirs| ==> dirs[i] == dirs[1..][i - 1];
    }
    if leads && dirs[0].link { return false, []; }
    if !ok { return false, []; }
    next := if leads && dirs[0].name != "scratch" then [Visit(base + [dirs[0].name], dirs[0].listing)] + rest else rest;
    if leads && dirs[0].name != "scratch" {
      assert next[1..] == rest;
      PendingConcat(s, [next[0]], rest);
    }
  }

  function Listed(paths: seq<Path>): set<Path> { set p | p in paths }

  /** `artifacts` are listed and `todo` remains: together, the walk of `root`. */
  predicate WalkState(s: Selection, root: Listing, artifacts: seq<Path>, todo: seq<Visit>) {
    && artifacts + PendingFiles(s, todo) == PrunedFiles(s, root, [])
    && (PendingClean(s, todo) <==> Clean(s, root, []))
  }

  /** One directory: its files are listed, its kept subdirectories come next. */
  lemma WalkTurn(s: Selection, root: Listing, artifacts: seq<Path>, todo: seq<Visit>, next: seq<Visit>,
                 listed: seq<Path>)
    requires todo != [] && WalkState(s, root, artifacts, todo)
    requires var here := todo[0];
             && PendingFiles(s, next) == PrunedUnder(s, here.listing.dirs, here.base)
             && PendingWeight(next) <= WeightUnder(here.listing.dirs)
             && (PendingClean(s, next) <==> CleanUnder(s, here.listing.dirs, here.base))
             && DirsClean(s, here.listing.dirs, here.base) && FilesClean(s, here.listing.files, here.base)
             && listed == Filter(PathsOf(here.listing.files, here.base), p => Formal(s, p))
    ensures WalkState(s, root, artifacts + listed, next + todo[1..])
    ensures PendingWeight(next + todo[1..]) < PendingWeight(todo)
  {
    var rest := todo[1..];
    PendingConcat(s, next, rest);
    var below, after := PendingFiles(s, next), PendingFiles(s, rest);
    Assoc(listed, below, after);
    Assoc(artifacts, listed, below + after);
  }

  lemma WalkRefused(s: Selection, root: Listing, artifacts: seq<Path>, todo: seq<Visit>)
    requires todo != [] && WalkState(s, root, artifacts, todo)
    requires !DirsClean(s, todo[0].listing.dirs, todo[0].base) || !FilesClean(s, todo[0].listing.files, todo[0].base)
    ensures !Clean(s, root, [])
  {
  }

  lemma WalkBegins(s: Selection, root: Listing)
    ensures WalkState(s, root, [], [Visit([], root)])
  {
    assert [Visit([], root)][1..] == [];
  }

  /** The loop over `os.walk`. */
  method WalkTree(s: Selection, root: Listing) returns (error: Option<RegisterError>, artifacts: seq<Path>)
    ensures error.None? <==> Clean(s, root, [])
    ensures error.None? ==> artifacts == PrunedFiles(s, root, [])
    ensures error != Some(MissingArtifacts)
  {
    artifacts := [];
    var todo := [Visit([], root)];
    WalkBegins(s, root);
    while todo != []
      invariant WalkState(s, root, artifacts, todo)
      decreases PendingWeight(todo)
    {
      var here := todo[0];
      var dirsOk, next := PruneDirs(s, here.listing.dirs, here.base);
      if !dirsOk {
        WalkRefused(s, root, artifacts, todo);
        return Some(SymlinkedDirectory), [];
      }
      var filesOk, listed := CollectFiles(s, here.listing.files, here.base);
      if !filesOk {
        WalkRefused(s, root, artifacts, todo);
        return Some(IrregularFile), [];
      }
      WalkTurn(s, root, artifacts, todo, next, listed);
      artifacts, todo := artifacts + listed, next + todo[1..];
    }
    error := None;
  }

  /** `register`: the walk, then the check that everything asked for was found. */
  method Register(root: Listing, manifest: Path, required: set<Path>, chosen: Option<set<Path>>)
    returns (outcome: Outcome<seq<Path>, RegisterError>)
    ensures var s := Selection(chosen, manifest);
            && (outcome.Ok? <==> Clean(s, root, []) && required + chosen.GetOr({}) <= Listed(PrunedFiles(s, root, [])))
            && (outcome.Ok? ==> outcome.value == PrunedFiles(s, root, []))
            && (outcome == Err(MissingArtifacts) ==> Clean(s, root, []))
  {
    var error, artifacts := WalkTree(Selection(chosen, manifest), root);
    if error.Some? { return Err(error.value); }
    var missing := (required + chosen.GetOr({})) - Listed(artifacts);
    assert missing == {} <==> required + chosen.GetOr({}) <= Listed(artifacts) by {
      assert forall p :: p in missing <==> p in required + chosen.GetOr({}) && p !in Listed(artifacts);
    }
    if missing != {} { return Err(MissingArtifacts); }
    return Ok(artifacts);
  }

  // ---- what is listed and what is refused, by paths alone ----

  /** The path of a formal artifact: no directory on the way is called `scratch`, it is
      neither the manifest nor an attempt marker, and it is asked for if anything is. */
  predicate Kept(manifest: Path, chosen: Option<set<Path>>, p: Path) {
    && p != [] && NoScratchAbove(p) && p != manifest && p[|p| - 1] != ".attempt.json"
    && (chosen == None || p in chosen.value)
  }

  predicate NoScratchAbove(p: Path) { forall i :: 0 <= i < |p| - 1 ==> p[i] != "scratch" }

  /** A directory the walk looks at: below no `scratch`, and on the way to something
      asked for if anything is. */
  predicate Looked(chosen: Option<set<Path>>, dir: Path) {
    && NoScratchAbove(dir)
    && (chosen == None || exists p :: p in chosen.value && |dir| < |p| && p[..|dir|] == dir)
  }

  lemma KeptExactly(s: Selection, p: Path)
    ensures Formal(s, p) <==> Kept(s.manifest, s.chosen, p)
  {
    if p != [] {
      assert "scratch" in p[..|p| - 1] <==> exists i :: 0 <= i < |p| - 1 && p[i] == "scratch";
    }
  }

  /** Some file the walk would list is not a regular file, or some directory it looks at
      is a symlink. */
  predicate Offends(s: Selection, l: Listing, base: Path)
    decreases l, 1
  {
    || (exists i :: 0 <= i < |l.files| && Kept(s.manifest, s.chosen, base + [l.files[i].name])
          && l.files[i].kind != Regular)
    || OffendsUnder(s, l.dirs, base)
  }

  predicate OffendsUnder(s: Selection, dirs: seq<Sub>, base: Path)
    decreases dirs, 0
  {
    dirs != [] &&
    (|| (Looked(s.chosen, base + [dirs[0].name]) && dirs[0].link)
     || Offends(s, dirs[0].listing, base + [dirs[0].name])
     || OffendsUnder(s, dirs[1..], base))
  }

  predicate Free(base: Path) { forall i :: 0 <= i < |base| ==> base[i] != "scratch" }

  lemma LeadsExactly(s: Selection, base: Path, name: Name)
    requires Free(base)
    ensures Leads(s, base + [name]) <==> Looked(s.chosen, base + [name])
  {
  }

  /** Below a directory the walk does not enter nothing can offend. */
  lemma {:induction false} NothingOffends(s: Selection, l: Listing, dir: Path)
    requires forall p :: Under(p, dir) ==> !Kept(s.manifest, s.chosen, p) && !Looked(s.chosen, p)
    ensures !Offends(s, l, dir)
    decreases l, 1
  {
    NothingOffendsUnder(s, l.dirs, dir);
    forall i | 0 <= i < |l.files| ensures !Kept(s.manifest, s.chosen, dir + [l.files[i].name]) {
      assert Under(dir + [l.files[i].name], dir);
    }
  }

  lemma {:induction false} NothingOffendsUnder(s: Selection, dirs: seq<Sub>, dir: Path)
    requires forall p :: Under(p, dir) ==> !Kept(s.manifest, s.chosen, p) && !Looked(s.chosen, p)
    ensures !OffendsUnder(s, dirs, dir)
    decreases dirs, 0
  {
    if dirs != [] {
      var sub := dir + [dirs[0].name];
      assert Under(sub, dir);
      forall p | Under(p, sub) ensures Under(p, dir) { assert p[..|dir|] == sub[..|dir|]; }
      NothingOffends(s, dirs[0].listing, sub);
      NothingOffendsUnder(s, dirs[1..], dir);
    }
  }

  lemma NotEntered(s: Selection, base: Path, d: Sub)
    requires Free(base) && !Descends(s, base, d)
    ensures !Offends(s, d.listing, base + [d.name])
  {
    var dir := base + [d.name];
    forall p | Under(p, dir) ensures !Kept(s.manifest, s.chosen, p) && !Looked(s.chosen, p) {
      if d.name == "scratch" {
        assert p[|base|] == p[..|dir|][|base|] == "scratch";
      } else {
        forall q | |p| <= |q| && q[..|p|] == p ensures Under(q, dir) { assert q[..|dir|] == p[..|dir|]; }
      }
    }
    NothingOffends(s, d.listing, dir);
  }

  lemma {:induction false} CleanExactly(s: Selection, l: Listing, base: Path)
    requires Free(base)
    ensures Clean(s, l, base) <==> !Offends(s, l, base)
    decreases l, 1
  {
    CleanUnderExactly(s, l.dirs, base);
    forall i | 0 <= i < |l.files|
      ensures Formal(s, base + [l.files[i].name]) <==> Kept(s.manifest, s.chosen, base + [l.files[i].name])
    {
      KeptExactly(s, base + [l.files[i].name]);
    }
  }

  lemma {:induction false} CleanUnderExactly(s: Selection, dirs: seq<Sub>, base: Path)
    requires Free(base)
    ensures DirsClean(s, dirs, base) && CleanUnder(s, dirs, base) <==> !OffendsUnder(s, dirs, base)
    decreases dirs, 0
  {
    if dirs != [] {
      LeadsExactly(s, base, dirs[0].name);
      CleanUnderExactly(s, dirs[1..], base);
      if Descends(s, base, dirs[0]) {
        CleanExactly(s, dirs[0].listing, base + [dirs[0].name]);
      } else {
        NotEntered(s, base, dirs[0]);
      }
      assert DirsClean(s, dirs, base) <==>
               (Leads(s, base + [dirs[0].name]) ==> !dirs[0].link) && DirsClean(s, dirs[1..], base) by {
        assert forall i :: 0 < i < |dirs| ==> dirs[i] == dirs[1..][i - 1];
      }
    }
  }

  /** By paths alone: the walk succeeds exactly when nothing offends, and it lists
      exactly the kept paths of the plain walk, in its order. */
  lemma ListedExactly(root: Listing, manifest: Path, chosen: Option<set<Path>>)
    ensures var s := Selection(chosen, manifest);
            && (Clean(s, root, []) <==> !Offends(s, root, []))
            && PrunedFiles(s, root, []) == Filter(AllFiles(root, []), p => Kept(manifest, chosen, p))
  {
    var s := Selection(chosen, manifest);
    CleanExactly(s, root, []);
    PrunedIsFiltered(s, root, []);
    forall p ensures Formal(s, p) <==> Kept(manifest, chosen, p) { KeptExactly(s, p); }
    FilterSame(AllFiles(root, []), p => Formal(s, p), p => Kept(manifest, chosen, p));
  }

  /** On success with an include set, exactly that set is listed, and it covers what
      was required. */
  lemma RegisteredExactly(root: Listing, manifest: Path, required: set<Path>, chosen: set<Path>)
    requires var s := Selection(Some(chosen), manifest); required + chosen <= Listed(PrunedFiles(s, root, []))
    ensures Listed(PrunedFiles(Selection(Some(chosen), manifest), root, [])) == chosen && required <= chosen
  {
    var s := Selection(Some(chosen), manifest);
    PrunedIsFiltered(s, root, []);
    forall p | p in PrunedFiles(s, root, []) ensures p in chosen {
      assert Formal(s, p);
    }
  }

  // ---- each file once ----

  /** No two entries of a directory share a name. */
  predicate UniqueNames(l: Listing)
    decreases l, 1
  {
    && (forall i, j :: 0 <= i < j < |l.files| ==> l.files[i].name != l.files[j].name)
    && UniqueUnder(l.dirs)
  }

  predicate UniqueUnder(dirs: seq<Sub>)
    decreases dirs, 0
  {
    dirs != [] ==>
      && (forall j :: 1 <= j < |dirs| ==> dirs[j].name != dirs[0].name)
      && UniqueNames(dirs[0].listing) && UniqueUnder(dirs[1..])
  }

  lemma DistinctConcat(a: seq<Path>, b: seq<Path>)
    requires Distinct(a) && Distinct(b) && forall p :: p in a ==> p !in b
    ensures Distinct(a + b)
  {
    forall i, j | 0 <= i < j < |a + b| ensures (a + b)[i] != (a + b)[j] {
      if i < |a| <= j { assert a[i] in a && b[j - |a|] in b; }
    }
  }

  lemma {:induction false} EachFileOnce(l: Listing, base: Path)
    requires UniqueNames(l)
    ensures Distinct(AllFiles(l, base))
    decreases l, 1
  {
    var files := PathsOf(l.files, base);
    forall i, j | 0 <= i < j < |files| ensures files[i] != files[j] {
      assert files[i][|base|] != files[j][|base|];
    }
    EachSubFileOnce(l.dirs, base);
    SubFilesAreDeeper(l.dirs, base);
    forall p | p in files ensures p !in AllUnder(l.dirs, base) { assert |p| == |base| + 1; }
    DistinctConcat(files, AllUnder(l.dirs, base));
  }

  lemma {:induction false} EachSubFileOnce(dirs: seq<Sub>, base: Path)
    requires UniqueUnder(dirs)
    ensures Distinct(AllUnder(dirs, base))
    decreases dirs, 0
  {
    if dirs != [] {
      var first := base + [dirs[0].name];
      EachFileOnce(dirs[0].listing, first);
      EachSubFileOnce(dirs[1..], base);
      FilesLieUnder(dirs[0].listing, first);
      SubFilesNamed(dirs[1..], base);
      forall p | p in AllFiles(dirs[0].listing, first) ensures p !in AllUnder(dirs[1..], base) {
        assert p[..|first|][|base|] == dirs[0].name;
      }
      DistinctConcat(AllFiles(dirs[0].listing, first), AllUnder(dirs[1..], base));
    }
  }

  lemma {:induction false} SubFilesNamed(dirs: seq<Sub>, base: Path)
    ensures forall p :: p in AllUnder(dirs, base) ==>
              |p| > |base| + 1 && exists j :: 0 <= j < |dirs| && dirs[j].name == p[|base|]
    decreases dirs, 0
  {
    if dirs != [] {
      var first := base + [dirs[0].name];
      FilesLieUnder(dirs[0].listing, first);
      SubFilesNamed(dirs[1..], base);
      forall p | p in AllUnder(dirs, base)
        ensures |p| > |base| + 1 && exists j :: 0 <= j < |dirs| && dirs[j].name == p[|base|]
      {
        if p in AllFiles(dirs[0].listing, first) {
          assert p[..|first|][|base|] == dirs[0].name;
        } else {
          var j :| 0 <= j < |dirs[1..]| && dirs[1..][j].name == p[|base|];
          assert dirs[j + 1] == dirs[1..][j];
        }
      }
    }
  }

  lemma SubFilesAreDeeper(dirs: seq<Sub>, base: Path)
    ensures forall p :: p in AllUnder(dirs, base) ==> |p| > |base| + 1
  {
    SubFilesNamed(dirs, base);
  }

  /** Nothing is registered twice, whatever the walk prunes. */
  lemma ListedOnce(s: Selection, root: Listing)
    requires UniqueNames(root)
    ensures Distinct(PrunedFiles(s, root, []))
  {
    PrunedIsFiltered(s, root, []);
    EachFileOnce(root, []);
    FilterDistinct(AllFiles(root, []), p => Formal(s, p));
  }
}
