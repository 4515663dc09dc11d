/** Crash-safe adoption of the legacy Windows layout (src/copilotd/config.py).

    The state of the old layout and of the new data directory is merged into a staging
    directory, which then replaces the data directory. A journal says how far a run got; a
    crash may happen before any file operation, and the next run starts from the top. */
module Migration {
  import opened Options

  type Name = string

  /** A path below one directory; `Top` is the directory itself. */
  datatype Path = Top | Entry(parent: Path, name: Name)

  datatype Node = File(content: string) | Dir

  /** Everything below one directory, by relative path. */
  type Tree = map<Path, Node>

  datatype Family = Main | Wal | Shm

  /** A database file: cut off by a crash, or a whole image of some content, which finalizing
      (schema migration and hand-off) brings up to date. */
  datatype DbFile = Partial | Image(content: string, finalized: bool)

  /** A state directory: ordinary entries, the SQLite family at its root, and how many
      temporary copies an interrupted database staging left behind. */
  datatype Root = Root(files: Tree, db: map<Family, DbFile>, strays: nat)

  const EMPTY_ROOT := Root(map[], map[], 0)

  datatype Phase =
    | Prepared
    | Staged
    | DatabaseStaging
    | DatabaseFinalizing
    | HandoffStaged
    | SwapStarted
    | SwappedPendingInstall

  datatype Outcome =
    | NotNeeded           // there is nothing to migrate
    | Adopted             // the journal is at SwappedPendingInstall
    | Refused             // RuntimeError: conflicting or unrecoverable state
    | Restricted          // RuntimeError: no service quiescer was given
    | Crashed

  datatype Step = Done | Conflict | Crash

  // ---------------------------------------------------------------- trees

  /** Every parent of an entry is a directory of the tree. */
  ghost predicate WellFormed(t: Tree) {
    Top !in t && forall q :: q in t ==> ParentIn(t, q)
  }

  ghost predicate ParentIn(t: Tree, q: Path) {
    q.Entry? && (q.parent == Top || (q.parent in t && t[q.parent] == Dir))
  }

  /** q is p or lies below it. */
  predicate Under(p: Path, q: Path) {
    p == q || (q.Entry? && Under(p, q.parent))
  }

  predicate Below(p: Path, q: Path) {
    q.Entry? && Under(p, q.parent)
  }

  /** The entry of directory p through which q is reached. */
  function Branch(p: Path, q: Path): Path
    requires Below(p, q)
  {
    if q.parent == p then q else Branch(p, q.parent)
  }

  function Depth(p: Path): nat {
    if p.Top? then 0 else 1 + Depth(p.parent)
  }

  ghost predicate Agree(a: Tree, b: Tree) {
    forall q :: q in a && q in b ==> a[q] == b[q]
  }

  ghost predicate AgreeUnder(a: Tree, b: Tree, p: Path) {
    forall q :: q in a && q in b && Under(p, q) ==> a[q] == b[q]
  }

  ghost predicate AgreeDb(a: map<Family, DbFile>, b: map<Family, DbFile>) {
    forall f :: f in a && f in b ==> a[f] == b[f]
  }

  ghost predicate SubTree(a: Tree, b: Tree) {
    forall q :: q in a ==> q in b && a[q] == b[q]
  }

  ghost predicate SubDb(a: map<Family, DbFile>, b: map<Family, DbFile>) {
    forall f :: f in a ==> f in b && a[f] == b[f]
  }

  function Without(t: Tree, p: Path): Tree {
    map q | q in t && !Under(p, q) :: t[q]
  }

  function Only(t: Tree, p: Path): Tree {
    map q | q in t && Under(p, q) :: t[q]
  }

  function Children(t: Tree, p: Path): set<Path> {
    set q | q in t && q.Entry? && q.parent == p
  }

  lemma {:induction false} UnderDeepens(p: Path, q: Path)
    requires Under(p, q)
    ensures Depth(p) <= Depth(q) && (p != q ==> Depth(p) < Depth(q))
  {
    if p != q { UnderDeepens(p, q.parent); }
  }

  /** What is under a child of p is what is reached through it. */
  lemma {:induction false} UnderChild(p: Path, c: Path, q: Path)
    requires c.Entry? && c.parent == p
    ensures Under(c, q) <==> Below(p, q) && Branch(p, q) == c
    ensures Under(c, q) ==> Under(p, q) && q != p
  {
    if Under(c, q) { UnderDeepens(c, q); }
    if q.Entry? {
      UnderChild(p, c, q.parent);
      if Under(p, q.parent) { UnderDeepens(p, q.parent); }
    }
  }

  lemma {:induction false} BranchInTree(t: Tree, p: Path, q: Path)
    requires WellFormed(t) && q in t && Below(p, q)
    ensures Branch(p, q) in Children(t, p)
    ensures p == Top || (p in t && t[p] == Dir)
  {
    assert ParentIn(t, q);
    if q.parent != p { BranchInTree(t, p, q.parent); }
  }

  lemma {:induction false} EverythingUnderTop(q: Path)
    ensures Under(Top, q)
  {
    if q.Entry? { EverythingUnderTop(q.parent); }
  }

  lemma GraftKeepsShape(s: Tree, g: Tree, p: Path)
    requires WellFormed(s) && WellFormed(g) && p in s && p !in g && ParentIn(g, p)
    ensures WellFormed(g + Only(s, p)) && WellFormed(Without(s, p))
    ensures forall q :: q in g ==> !Under(p, q)
  {
    forall q | q in g ensures !Under(p, q) {
      if Under(p, q) { BranchInTree(g, p, q); }
    }
    forall q | q in s ensures ParentIn(s, q) {}
    assert forall q :: q in g ==> ParentIn(g, q);
  }

  /** The source while the children of p outside `pending` are already merged. */
  function Waiting(s0: Tree, p: Path, pending: set<Path>): Tree {
    map q | q in s0 && (Below(p, q) ==> Branch(p, q) in pending) :: s0[q]
  }

  /** What those children brought to staging. */
  function Taken(s0: Tree, p: Path, pending: set<Path>): Tree {
    map q | q in s0 && Below(p, q) && Branch(p, q) !in pending :: s0[q]
  }

  ghost predicate AgreeThrough(s0: Tree, g0: Tree, p: Path, pending: set<Path>) {
    forall q :: q in s0 && q in g0 && Below(p, q) && Branch(p, q) !in pending ==> s0[q] == g0[q]
  }

  lemma StartChildren(s0: Tree, g0: Tree, p: Path)
    requires WellFormed(s0)
    ensures Waiting(s0, p, Children(s0, p)) == s0
    ensures Taken(s0, p, Children(s0, p)) == map[]
    ensures AgreeThrough(s0, g0, p, Children(s0, p))
  {
    forall q | q in s0 && Below(p, q) ensures Branch(p, q) in Children(s0, p) {
      BranchInTree(s0, p, q);
    }
  }

  lemma StartChild(s0: Tree, g0: Tree, p: Path, c: Path, pending: set<Path>)
    requires AgreeThrough(s0, g0, p, pending) && c in pending && pending <= Children(s0, p) && p in s0
    ensures Moved(s0, g0, Waiting(s0, p, pending), g0 + Taken(s0, p, pending))
    ensures c in Waiting(s0, p, pending)
    ensures Only(Waiting(s0, p, pending), c).Keys < Only(s0, p).Keys
    ensures !AgreeUnder(Waiting(s0, p, pending), g0 + Taken(s0, p, pending), c) ==> !AgreeUnder(s0, g0, p)
  {
    UnderChild(p, c, c);
    UnderChild(p, c, p);
    forall q | Under(c, q) ensures Below(p, q) && Branch(p, q) == c && Under(p, q) {
      UnderChild(p, c, q);
    }
    assert p in Only(s0, p) && p !in Only(Waiting(s0, p, pending), c);
  }

  lemma FinishChild(s0: Tree, g0: Tree, p: Path, c: Path, pending: set<Path>)
    requires c in pending && pending <= Children(s0, p) && AgreeThrough(s0, g0, p, pending)
    requires AgreeUnder(Waiting(s0, p, pending), g0 + Taken(s0, p, pending), c)
    ensures Without(Waiting(s0, p, pending), c) == Waiting(s0, p, pending - {c})
    ensures g0 + Taken(s0, p, pending) + Only(Waiting(s0, p, pending), c) == g0 + Taken(s0, p, pending - {c})
    ensures AgreeThrough(s0, g0, p, pending - {c})
  {
    ChildTaken(s0, g0, p, c, pending);
    forall q ensures Under(c, q) <==> Below(p, q) && Branch(p, q) == c {
      UnderChild(p, c, q);
    }
  }

  lemma ChildTaken(s0: Tree, g0: Tree, p: Path, c: Path, pending: set<Path>)
    requires c in pending && pending <= Children(s0, p)
    ensures g0 + Taken(s0, p, pending) + Only(Waiting(s0, p, pending), c) == g0 + Taken(s0, p, pending - {c})
  {
    forall q ensures Under(c, q) <==> Below(p, q) && Branch(p, q) == c {
      UnderChild(p, c, q);
    }
  }

  lemma FinishChildren(s0: Tree, g0: Tree, p: Path)
    requires WellFormed(s0) && AgreeThrough(s0, g0, p, {}) && p in s0 && p in g0 && s0[p] == g0[p]
    ensures AgreeUnder(s0, g0, p) && WellFormed(Without(s0, p))
    ensures Waiting(s0, p, {}) - {p} == Without(s0, p)
    ensures g0 + Taken(s0, p, {}) == g0 + Only(s0, p)
  {
    assert forall q :: q in s0 ==> ParentIn(s0, q);
  }

  /** What merging may do to a source tree and to staging, wherever it stops: entries only move
      from one to the other, and one is dropped from the source only when staging has its equal. */
  ghost predicate Moved(s0: Tree, g0: Tree, s1: Tree, g1: Tree) {
    && SubTree(s1, s0)
    && SubTree(g0, g1)
    && (forall q :: q in g1 && q !in g0 ==> q in s0 && g1[q] == s0[q])
    && (forall q :: q in s0 && q !in s1 ==> q in g1 && g1[q] == s0[q])
  }

  lemma MovedTransitive(s0: Tree, g0: Tree, s1: Tree, g1: Tree, s2: Tree, g2: Tree)
    requires Moved(s0, g0, s1, g1) && Moved(s1, g1, s2, g2)
    ensures Moved(s0, g0, s2, g2)
  {
  }

  // ---------------------------------------------------------------- what a migration keeps

  /** Both directories as they were before the first run. */
  datatype Origin = Origin(legacy: Root, target: Option<Root>) {
    function TargetRoot(): Root {
      if target.Some? then target.value else EMPTY_ROOT
    }

    /** No file system damage before the first run. */
    ghost predicate Valid() {
      && WellFormed(legacy.files) && WellFormed(TargetRoot().files)
      && legacy.strays == TargetRoot().strays == 0
      && (forall f :: f in legacy.db ==> legacy.db[f].Image?)
      && (forall f :: f in TargetRoot().db ==> TargetRoot().db[f].Image?)
    }

    ghost predicate Compatible() {
      Agree(legacy.files, TargetRoot().files) && AgreeDb(legacy.db, TargetRoot().db)
    }

    ghost predicate HasEntries() {
      legacy.files != map[] || legacy.db != map[]
    }

    ghost function Union(): Tree {
      TargetRoot().files + legacy.files
    }

    ghost predicate HasDatabase() {
      Main in legacy.db || Main in TargetRoot().db
    }

    ghost function Database(): string
      requires Valid() && HasDatabase()
    {
      if Main in legacy.db then legacy.db[Main].content else TargetRoot().db[Main].content
    }

    ghost function FinalDb(): map<Family, DbFile>
      requires Valid()
    {
      if HasDatabase() then map[Main := Image(Database(), true)] else map[]
    }

    ghost function Final(): Root
      requires Valid()
    {
      Root(Union(), FinalDb(), 0)
    }
  }

  function RootOr(r: Option<Root>): Root {
    if r.Some? then r.value else EMPTY_ROOT
  }

  /** What is on disk. The legacy directory may be empty; the other two may not exist. */
  datatype State = State(legacy: Root, target: Option<Root>, staging: Option<Root>, journal: Option<Phase>)

  ghost function Initial(o: Origin): State {
    State(o.legacy, o.target, None, None)
  }

  ghost function Complete(o: Origin): State
    requires o.Valid()
  {
    State(EMPTY_ROOT, Some(o.Final()), None, Some(SwappedPendingInstall))
  }

  /** The files have been merged in part: nothing invented, nothing lost. */
  ghost predicate Merging(o: Origin, l: Root, t: Root, g: Root) {
    && SubTree(l.files, o.legacy.files)
    && SubTree(t.files, o.TargetRoot().files)
    && SubTree(g.files, o.Union())
    && (forall q :: q in o.legacy.files && q !in l.files ==> q in g.files)
    && (forall q :: q in o.TargetRoot().files && q !in t.files ==> q in g.files)
  }

  /** All files are in staging. */
  ghost predicate Merged(o: Origin, l: Root, t: Root, g: Root) {
    l.files == map[] == t.files && g.files == o.Union()
  }

  ghost predicate SourcesKeepDatabase(o: Origin, l: Root, t: Root) {
    l.db == o.legacy.db && t.db == o.TargetRoot().db
  }

  ghost predicate SourcesShrinkDatabase(o: Origin, l: Root, t: Root) {
    SubDb(l.db, o.legacy.db) && SubDb(t.db, o.TargetRoot().db)
  }

  /** The staged database is a whole image of the original one. */
  ghost predicate StagedImage(o: Origin, g: Root)
    requires o.Valid()
  {
    o.HasDatabase() && g.strays == 0 && g.db.Keys == {Main} && g.db[Main].Image? && g.db[Main].content == o.Database()
  }

  /** Where a compatible migration stands, phase by phase of its journal. */
  ghost predicate InPhase(o: Origin, s: State)
    requires o.Valid()
  {
    var l, t, g := s.legacy, RootOr(s.target), RootOr(s.staging);
    match s.journal
    case None =>
      s == Initial(o)
    case Some(Prepared) =>
      s.legacy == o.legacy && s.target == o.target && g == EMPTY_ROOT
    case Some(Staged) =>
      && s.staging.Some? && Merging(o, l, t, g) && g.strays == 0
      && (if o.HasDatabase() then SourcesKeepDatabase(o, l, t) && g.db.Keys <= {Main}
          else SourcesShrinkDatabase(o, l, t) && g.db == map[])
    case Some(DatabaseStaging) =>
      s.staging.Some? && Merging(o, l, t, g) && o.HasDatabase() && SourcesKeepDatabase(o, l, t)
    case Some(DatabaseFinalizing) =>
      s.staging.Some? && Merged(o, l, t, g) && SourcesKeepDatabase(o, l, t) && StagedImage(o, g)
    case Some(HandoffStaged) =>
      s.staging.Some? && Merged(o, l, t, g) && SourcesShrinkDatabase(o, l, t) && o.HasDatabase() && g == o.Final()
    case Some(SwapStarted) =>
      l == EMPTY_ROOT && ((s.staging == Some(o.Final()) && s.target.None?) || (s.staging.None? && s.target == Some(o.Final())))
    case Some(SwappedPendingInstall) =>
      s == Complete(o)
  }

  ghost predicate Shaped(s: State) {
    && WellFormed(s.legacy.files) && WellFormed(RootOr(s.target).files) && WellFormed(RootOr(s.staging).files)
    && s.legacy.strays == RootOr(s.target).strays == 0
  }

  /** What holds of the disk before and after every run, crashed or not. */
  ghost predicate Reachable(o: Origin, s: State) {
    && o.Valid() && Shaped(s)
    && if o.Compatible() && o.HasEntries() then InPhase(o, s) else s == Initial(o)
  }

  ghost predicate Holds(r: Root, q: Path, n: Node) {
    q in r.files && r.files[q] == n
  }

  lemma MergingHolds(o: Origin, l: Root, t: Root, g: Root, q: Path, n: Node)
    requires o.Compatible() && Merging(o, l, t, g) && (Holds(o.legacy, q, n) || Holds(o.TargetRoot(), q, n))
    ensures Holds(l, q, n) || Holds(t, q, n) || Holds(g, q, n)
  {
    assert o.Union()[q] == n;
  }

  /** No loss at any crash point: every file and directory of both trees is still somewhere, at its
      relative path and with its content. */
  lemma NothingIsLost(o: Origin, s: State, q: Path, n: Node)
    requires Reachable(o, s) && (Holds(o.legacy, q, n) || Holds(o.TargetRoot(), q, n))
    ensures Holds(s.legacy, q, n) || Holds(RootOr(s.target), q, n) || Holds(RootOr(s.staging), q, n)
  {
    if o.Compatible() && o.HasEntries() {
      assert q in o.Union() && o.Union()[q] == n;
      match s.journal
      case Some(Staged) => MergingHolds(o, s.legacy, RootOr(s.target), RootOr(s.staging), q, n);
      case Some(DatabaseStaging) => MergingHolds(o, s.legacy, RootOr(s.target), RootOr(s.staging), q, n);
      case _ =>
    }
  }

  ghost predicate WholeCopy(o: Origin, r: Root)
    requires o.Valid() && o.HasDatabase()
  {
    Main in r.db && r.db[Main].Image? && r.db[Main].content == o.Database()
  }

  ghost predicate HandedOff(s: State) {
    s.journal.Some? && s.journal.value in {HandoffStaged, SwapStarted, SwappedPendingInstall}
  }

  /** A whole copy of the database exists at every crash point: a source's until the hand-off is
      journaled, the finalized one from then on. */
  lemma DatabaseAlwaysExists(o: Origin, s: State)
    requires Reachable(o, s) && o.Compatible() && o.HasEntries() && o.HasDatabase()
    ensures !HandedOff(s) ==> WholeCopy(o, s.legacy) || WholeCopy(o, RootOr(s.target))
    ensures HandedOff(s) ==> RootOr(s.staging).db == o.FinalDb() || RootOr(s.target).db == o.FinalDb()
    ensures o.FinalDb() == map[Main := Image(o.Database(), true)]
  {
    if !HandedOff(s) {
      assert SourcesKeepDatabase(o, s.legacy, RootOr(s.target));
    }
  }

  // ---------------------------------------------------------------- conflicts

  ghost predicate ConflictAt(source: Tree, target: Tree, q: Path) {
    q in source && q in target && source[q] != target[q]
  }

  /** `_collect_merge_conflicts` for one entry that is not a database file. */
  method CollectConflicts(source: Tree, target: Tree, p: Path, conflicts: seq<Path>) returns (r: seq<Path>)
    requires WellFormed(source) && WellFormed(target) && p in source
    ensures conflicts <= r
    ensures r == conflicts <==> AgreeUnder(source, target, p)
    ensures forall i :: |conflicts| <= i < |r| ==> Under(p, r[i]) && ConflictAt(source, target, r[i])
    decreases Only(source, p).Keys
  {
    r := conflicts;
    if p !in target {
      forall q | q in target ensures !Under(p, q) {
        if Under(p, q) { BranchInTree(target, p, q); }
      }
      return;
    }
    if source[p] == Dir && target[p] == Dir {
      var pending := Children(source, p);
      StartChildren(source, target, p);
      while pending != {}
        invariant pending <= Children(source, p)
        invariant conflicts <= r
        invariant r == conflicts <==> AgreeThrough(source, target, p, pending)
        invariant forall i :: |conflicts| <= i < |r| ==> Under(p, r[i]) && ConflictAt(source, target, r[i])
      {
        var c :| c in pending;
        ChildConflicts(source, target, p, c, pending);
        r := CollectConflicts(source, target, c, r);
        pending := pending - {c};
      }
      return;
    }
    forall q | q in source && source[p].File? ensures Under(p, q) ==> q == p {
      if Below(p, q) { BranchInTree(source, p, q); }
    }
    if source[p].File? && target[p].File? {
      if source[p].content != target[p].content {
        r := r + [p];
      }
      return;
    }
    r := r + [p];
  }

  lemma ChildConflicts(source: Tree, target: Tree, p: Path, c: Path, pending: set<Path>)
    requires c in pending && pending <= Children(source, p) && p in source
    ensures Only(source, c).Keys < Only(source, p).Keys
    ensures forall q :: Under(c, q) ==> Under(p, q)
    ensures AgreeThrough(source, target, p, pending) && AgreeUnder(source, target, c) <==>
            AgreeThrough(source, target, p, pending - {c})
  {
    forall q ensures Under(c, q) <==> Below(p, q) && Branch(p, q) == c {
      UnderChild(p, c, q);
    }
    UnderChild(p, c, p);
    assert p in Only(source, p) && p !in Only(source, c);
  }

  /** `_assert_merge_compatible` over all root entries of one source. */
  method AssertMergeCompatible(source: Root, target: Root, ignoreDatabase: bool) returns (ok: bool)
    requires WellFormed(source.files) && WellFormed(target.files)
    ensures ok <==> Agree(source.files, target.files) && (ignoreDatabase || AgreeDb(source.db, target.db))
  {
    var conflicts: seq<Path> := [];
    var pending := Children(source.files, Top);
    StartChildren(source.files, target.files, Top);
    while pending != {}
      invariant pending <= Children(source.files, Top)
      invariant conflicts == [] <==> AgreeThrough(source.files, target.files, Top, pending)
    {
      var c :| c in pending;
      ghost var was := conflicts;
      conflicts := CollectConflicts(source.files, target.files, c, conflicts);
      RootConflicts(source.files, target.files, c, pending);
      pending := pending - {c};
    }
    forall q | q in source.files ensures Below(Top, q) {
      EverythingUnderTop(q);
    }
    ok := conflicts == [] && (ignoreDatabase || forall f :: f in source.db && f in target.db ==> source.db[f] == target.db[f]);
  }

  lemma RootConflicts(source: Tree, target: Tree, c: Path, pending: set<Path>)
    requires c in pending && pending <= Children(source, Top)
    ensures AgreeThrough(source, target, Top, pending) && AgreeUnder(source, target, c) <==>
            AgreeThrough(source, target, Top, pending - {c})
  {
    forall q ensures Under(c, q) <==> Below(Top, q) && Branch(Top, q) == c {
      UnderChild(Top, c, q);
    }
  }

  // ---------------------------------------------------------------- the disk

  /** One state directory on disk. */
  class Directory {
    var files: Tree
    var db: map<Family, DbFile>
    var strays: nat

    ghost function View(): Root reads this { Root(files, db, strays) }

    constructor (root: Root)
      ensures View() == root
    {
      files, db, strays := root.files, root.db, root.strays;
    }

    /** `_merge_state_entry` for an ordinary entry of this directory. Every file operation may be
        preceded by a crash. */
    method MergeEntry(staging: Directory, p: Path, crashy: bool) returns (r: Step)
      requires this != staging && WellFormed(files) && WellFormed(staging.files)
      requires p in files && ParentIn(staging.files, p)
      modifies `files, staging`files
      ensures WellFormed(files) && WellFormed(staging.files)
      ensures Moved(old(files), old(staging.files), files, staging.files)
      ensures r.Done? ==>
                && AgreeUnder(old(files), old(staging.files), p)
                && files == Without(old(files), p)
                && staging.files == old(staging.files) + Only(old(files), p)
      ensures r.Conflict? ==> !AgreeUnder(old(files), old(staging.files), p)
      ensures r.Crash? ==> crashy
      decreases Only(files, p).Keys, 1
    {
      if crashy { if * { return Crash; } }
      if p !in staging.files {
        GraftKeepsShape(files, staging.files, p);
        staging.files := staging.files + Only(files, p);
        files := Without(files, p);
        return Done;
      }
      if files[p] == Dir && staging.files[p] == Dir {
        r := MergeChildren(staging, p, crashy);
        if !r.Done? { return; }
        FinishChildren(old(files), old(staging.files), p);
        if crashy { if * { return Crash; } }
        files := files - {p};
        return Done;
      }
      if files[p].File? && staging.files[p].File? {
        if files[p].content != staging.files[p].content {
          return Conflict;
        }
        LeafAlone(files, staging.files, p);
        files := files - {p};
        return Done;
      }
      return Conflict;
    }

    /** The recursion over the entries of a directory that staging has too. */
    method MergeChildren(staging: Directory, p: Path, crashy: bool) returns (r: Step)
      requires this != staging && WellFormed(files) && WellFormed(staging.files)
      requires p in files && p in staging.files && staging.files[p] == Dir
      modifies `files, staging`files
      ensures WellFormed(files) && WellFormed(staging.files)
      ensures Moved(old(files), old(staging.files), files, staging.files)
      ensures r.Done? ==>
                && AgreeThrough(old(files), old(staging.files), p, {})
                && files == Waiting(old(files), p, {})
                && staging.files == old(staging.files) + Taken(old(files), p, {})
      ensures r.Conflict? ==> !AgreeUnder(old(files), old(staging.files), p)
      ensures r.Crash? ==> crashy
      decreases Only(files, p).Keys, 0
    {
      ghost var s0, g0 := files, staging.files;
      var pending := Children(files, p);
      StartChildren(s0, g0, p);
      while pending != {}
        invariant WellFormed(files) && WellFormed(staging.files)
        invariant pending <= Children(s0, p)
        invariant files == Waiting(s0, p, pending)
        invariant staging.files == g0 + Taken(s0, p, pending)
        invariant AgreeThrough(s0, g0, p, pending)
      {
        var c :| c in pending;
        ghost var s1, g1 := files, staging.files;
        StartChild(s0, g0, p, c, pending);
        r := MergeEntry(staging, c, crashy);
        if !r.Done? {
          MovedTransitive(s0, g0, s1, g1, files, staging.files);
          return;
        }
        FinishChild(s0, g0, p, c, pending);
        pending := pending - {c};
      }
      r := Done;
    }

    /** The guard's contract for `stage_database`: an exact copy appears in staging; a crash can
        leave a temporary file or a partial copy behind. */
    method StageDatabase(staging: Directory, crashy: bool) returns (r: Step)
      requires this != staging && Main in db
      modifies staging`db, staging`strays
      ensures r.Done? ==> staging.strays == old(staging.strays) && staging.db == old(staging.db)[Main := db[Main]]
      ensures r.Done? && Main in old(staging.db) ==> old(staging.db)[Main] == db[Main]
      ensures r.Conflict? ==> Main in old(staging.db) && old(staging.db)[Main] != db[Main]
      ensures r.Conflict? ==> staging.db == old(staging.db) && staging.strays == old(staging.strays)
      ensures r.Crash? ==> crashy
    {
      if Main in staging.db {
        return if db[Main] == staging.db[Main] then Done else Conflict;
      }
      if crashy { if * { return Crash; } }
      staging.strays := staging.strays + 1;
      if crashy {
        if * { return Crash; }
        if * {
          staging.db := staging.db[Main := Partial];
          return Crash;
        }
      }
      staging.db := staging.db[Main := db[Main]];
      staging.strays := staging.strays - 1;
      r := Done;
    }

    /** One ordinary root entry, while the root entries outside `pending` are already merged. */
    method MergeRootEntry(staging: Directory, c: Path, crashy: bool, ghost s0: Tree, ghost g0: Tree, ghost pending: set<Path>)
      returns (r: Step)
      requires this != staging && WellFormed(files) && WellFormed(staging.files)
      requires c in pending && pending <= Children(s0, Top) && AgreeThrough(s0, g0, Top, pending)
      requires files == Waiting(s0, Top, pending) && staging.files == g0 + Taken(s0, Top, pending)
      modifies `files, staging`files
      ensures WellFormed(files) && WellFormed(staging.files) && Moved(s0, g0, files, staging.files)
      ensures r.Done? ==>
                && files == Waiting(s0, Top, pending - {c}) && staging.files == g0 + Taken(s0, Top, pending - {c})
                && AgreeThrough(s0, g0, Top, pending - {c})
      ensures r.Conflict? ==> !Agree(s0, g0)
      ensures r.Crash? ==> crashy
    {
      RootEntry(s0, g0, c, pending);
      r := MergeEntry(staging, c, crashy);
      MovedTransitive(s0, g0, old(files), old(staging.files), files, staging.files);
      if r.Done? { FinishChild(s0, g0, Top, c, pending); }
    }

    /** Merges all entries of this directory, in any order; database files are deferred and, unless
        the staged one is authoritative, the database itself is copied. */
    method MergeAll(staging: Directory, authoritative: bool, crashy: bool) returns (r: Step, deferred: set<Family>)
      requires this != staging && WellFormed(files) && WellFormed(staging.files)
      modifies `files, staging
      ensures WellFormed(files) && WellFormed(staging.files)
      ensures Moved(old(files), old(staging.files), files, staging.files)
      ensures authoritative || Main !in db ==> staging.db == old(staging.db) && staging.strays == old(staging.strays)
      ensures r.Done? ==>
                && Agree(old(files), old(staging.files))
                && files == map[] && staging.files == old(staging.files) + old(files)
                && deferred == db.Keys && staging.strays == old(staging.strays)
                && (!authoritative && Main in db ==>
                      && (Main in old(staging.db) ==> old(staging.db)[Main] == db[Main])
                      && staging.db == old(staging.db)[Main := db[Main]])
      ensures r.Conflict? ==>
                || !Agree(old(files), old(staging.files))
                || (!authoritative && Main in db && Main in old(staging.db) && old(staging.db)[Main] != db[Main])
      ensures r.Crash? ==> crashy
    {
      ghost var s0, g0 := files, staging.files;
      var pending, family := Children(files, Top), db.Keys;
      deferred := {};
      StartChildren(s0, g0, Top);
      while pending != {} || family != {}
        invariant WellFormed(files) && WellFormed(staging.files)
        invariant pending <= Children(s0, Top)
        invariant files == Waiting(s0, Top, pending)
        invariant staging.files == g0 + Taken(s0, Top, pending)
        invariant AgreeThrough(s0, g0, Top, pending)
        invariant deferred + family == db.Keys && deferred !! family
        invariant staging.strays == old(staging.strays)
        invariant if !authoritative && Main in deferred
                  then staging.db == old(staging.db)[Main := db[Main]] && (Main in old(staging.db) ==> old(staging.db)[Main] == db[Main])
                  else staging.db == old(staging.db)
        decreases pending, family
      {
        var ordinary: bool := *;
        if pending != {} && (family == {} || ordinary) {
          var c :| c in pending;
          r := MergeRootEntry(staging, c, crashy, s0, g0, pending);
          if !r.Done? { return; }
          pending := pending - {c};
        } else {
          var f :| f in family;
          if f == Main && !authoritative {
            RootMoved(s0, g0, pending);
            r := StageDatabase(staging, crashy);
            if !r.Done? { return; }
          }
          deferred, family := deferred + {f}, family - {f};
        }
      }
      FinishRoot(s0, g0);
      r := Done;
    }
  }

  lemma FinishRoot(s0: Tree, g0: Tree)
    requires WellFormed(s0) && AgreeThrough(s0, g0, Top, {})
    ensures Waiting(s0, Top, {}) == map[] && g0 + Taken(s0, Top, {}) == g0 + s0
    ensures Moved(s0, g0, map[], g0 + s0) && Agree(s0, g0)
  {
    forall q | q in s0 ensures Below(Top, q) {
      EverythingUnderTop(q);
      assert ParentIn(s0, q);
    }
  }

  lemma RootMoved(s0: Tree, g0: Tree, pending: set<Path>)
    requires AgreeThrough(s0, g0, Top, pending)
    ensures Moved(s0, g0, Waiting(s0, Top, pending), g0 + Taken(s0, Top, pending))
  {
  }

  lemma RootEntry(s0: Tree, g0: Tree, c: Path, pending: set<Path>)
    requires AgreeThrough(s0, g0, Top, pending) && c in pending && pending <= Children(s0, Top)
    ensures Moved(s0, g0, Waiting(s0, Top, pending), g0 + Taken(s0, Top, pending))
    ensures c in Waiting(s0, Top, pending)
    ensures !AgreeUnder(Waiting(s0, Top, pending), g0 + Taken(s0, Top, pending), c) ==> !Agree(s0, g0)
  {
    UnderChild(Top, c, c);
    forall q | Under(c, q) ensures Below(Top, q) && Branch(Top, q) == c {
      UnderChild(Top, c, q);
    }
  }

  lemma LeafAlone(s: Tree, g: Tree, p: Path)
    requires WellFormed(s) && p in s && s[p].File? && p in g && g[p] == s[p]
    ensures Without(s, p) == s - {p} && g + Only(s, p) == g && AgreeUnder(s, g, p) && WellFormed(Without(s, p))
  {
    forall q | q in s && Under(p, q) ensures q == p {
      if q != p { BranchInTree(s, p, q); }
    }
    assert forall q :: q in s ==> ParentIn(s, q);
  }

  // ---------------------------------------------------------------- the run

  predicate Late(phase: Option<Phase>) {
    phase in {Some(DatabaseFinalizing), Some(HandoffStaged), Some(SwapStarted)}
  }

  /** A migration that has work to do, at a point where entries may move. */
  ghost predicate MayMove(o: Origin, s: State) {
    && Reachable(o, s) && o.Compatible() && o.HasEntries() && s.staging.Some?
    && (Late(s.journal) || s.journal == Some(if o.HasDatabase() then DatabaseStaging else Staged))
  }

  /** s' is s after entries of one source moved to staging and, unless the staged database is
      authoritative, that source's database may have been copied. */
  ghost predicate MergeStep(s: State, source: Root, source': Root, s': State) {
    && Shaped(s) && Shaped(s') && s.staging.Some? && s'.staging.Some?
    && source' == source.(files := source'.files)
    && (|| (s.legacy == source && s' == s.(legacy := source', staging := s'.staging))
        || (s.target == Some(source) && s' == s.(target := Some(source'), staging := s'.staging)))
    && Moved(source.files, s.staging.value.files, source'.files, s'.staging.value.files)
    && (Late(s.journal) || Main !in source.db ==> s'.staging.value == s.staging.value.(files := s'.staging.value.files))
  }

  lemma MergeStepLate(o: Origin, s: State, source: Root, source': Root, s': State)
    requires MayMove(o, s) && Late(s.journal) && MergeStep(s, source, source', s')
    ensures s' == s
  {
    assert source.files == map[] && source'.files == map[];
    assert s'.staging.value.files == s.staging.value.files;
  }

  lemma MergeStepOpen(o: Origin, s: State, source: Root, source': Root, s': State)
    requires MayMove(o, s) && !Late(s.journal) && MergeStep(s, source, source', s')
    ensures MayMove(o, s')
  {
    assert Merging(o, s.legacy, RootOr(s.target), s.staging.value);
    assert Merging(o, s'.legacy, RootOr(s'.target), s'.staging.value);
  }

  lemma MergeKeeps(o: Origin, s: State, source: Root, source': Root, s': State)
    requires MayMove(o, s) && MergeStep(s, source, source', s')
    ensures MayMove(o, s') && (Late(s.journal) ==> s' == s)
  {
    if Late(s.journal) {
      MergeStepLate(o, s, source, source', s');
    } else {
      MergeStepOpen(o, s, source, source', s');
    }
  }

  /** The trees never disagree, so that no merge meets a conflict. */
  lemma SourcesAgree(o: Origin, s: State)
    requires MayMove(o, s)
    ensures Agree(s.legacy.files, s.staging.value.files) && Agree(RootOr(s.target).files, s.staging.value.files)
  {
    if !Late(s.journal) {
      assert Merging(o, s.legacy, RootOr(s.target), s.staging.value);
    }
  }

  lemma StagingAgrees(o: Origin, s: State)
    requires Reachable(o, s) && o.Compatible() && o.HasEntries() && s.staging.Some?
    requires s.journal !in {None, Some(Prepared), Some(SwappedPendingInstall)}
    ensures Agree(s.legacy.files, s.staging.value.files)
  {
    match s.journal
    case Some(Staged) => assert Merging(o, s.legacy, RootOr(s.target), s.staging.value);
    case Some(DatabaseStaging) => assert Merging(o, s.legacy, RootOr(s.target), s.staging.value);
    case _ =>
  }

  /** With staging's database area clean, the journal may announce the merge and the copy. */
  lemma OpenKeeps(o: Origin, s: State, phase: Phase)
    requires Reachable(o, s) && o.Compatible() && o.HasEntries() && s.staging.Some?
    requires s.journal in {Some(Prepared), Some(Staged), Some(DatabaseStaging)}
    requires s.staging.value.db == map[] && s.staging.value.strays == 0
    requires (phase == Staged && s.journal != Some(DatabaseStaging)) || (phase == DatabaseStaging && o.HasDatabase())
    ensures Reachable(o, s.(journal := Some(phase)))
  {
    if s.journal == Some(Prepared) {
      assert Merging(o, s.legacy, RootOr(s.target), s.staging.value);
    }
  }

  lemma DiscardKeeps(o: Origin, s: State, g': Root)
    requires Reachable(o, s) && o.Compatible() && o.HasEntries() && s.staging.Some?
    requires s.journal == Some(DatabaseStaging) || (s.journal == Some(Staged) && o.HasDatabase())
    requires g'.files == s.staging.value.files && g'.db.Keys <= s.staging.value.db.Keys && g'.strays <= s.staging.value.strays
    ensures Reachable(o, s.(staging := Some(g')))
  {
    assert Merging(o, s.legacy, RootOr(s.target), g');
  }

  /** The copied database is announced, finalized and handed off. */
  lemma FinalizeKeeps(o: Origin, s: State, g': Root)
    requires MayMove(o, s) && s.journal !in {Some(HandoffStaged), Some(SwapStarted)} && StagedImage(o, s.staging.value)
    requires Merged(o, s.legacy, RootOr(s.target), s.staging.value)
    requires g' == s.staging.value.(db := map[Main := Image(o.Database(), true)])
    ensures Reachable(o, s.(journal := Some(DatabaseFinalizing)))
    ensures Reachable(o, s.(journal := Some(DatabaseFinalizing), staging := Some(g')))
    ensures Reachable(o, s.(journal := Some(HandoffStaged), staging := Some(g')))
    ensures g' == o.Final()
  {
  }

  lemma AllMoved(o: Origin, s: State)
    requires MayMove(o, s) && s.legacy.files == map[] == RootOr(s.target).files
    ensures s.staging.value.files == o.Union()
  {
    if !Late(s.journal) {
      assert Merging(o, s.legacy, RootOr(s.target), s.staging.value);
    }
  }

  /** The file system the migration works on. */
  class Disk {
    const legacy: Directory
    var target: Directory?
    var staging: Directory?
    var journal: Option<Phase>

    constructor (l: Root, t: Option<Root>)
      ensures Valid() && fresh(Repr()) && Now() == Initial(Origin(l, t))
    {
      legacy := new Directory(l);
      if t.Some? {
        target := new Directory(t.value);
      } else {
        target := null;
      }
      staging := null;
      journal := None;
    }

    ghost function Repr(): set<object> reads this {
      {this, legacy} + (if target != null then {target} else {}) + (if staging != null then {staging} else {})
    }

    ghost predicate Valid() reads this {
      target != legacy && staging != legacy && (target != null ==> target != staging)
    }

    ghost function Now(): State reads Repr() {
      State(legacy.View(),
            if target != null then Some(target.View()) else None,
            if staging != null then Some(staging.View()) else None,
            journal)
    }

    /** `adopt_legacy_windows_layout`, for the trees `o` it found first. Without `crashy` no crash
        happens; `quiescer` says whether the caller passed a service quiescer. */
    method Adopt(ghost o: Origin, quiescer: bool, crashy: bool) returns (out: Outcome)
      requires Valid() && Reachable(o, Now())
      modifies Repr()
      ensures Valid() && fresh(Repr() - old(Repr())) && Reachable(o, Now())
      ensures out.Crashed? ==> crashy
      ensures out.Restricted? ==> !quiescer
      ensures !quiescer ==> Now() == old(Now())
      ensures !quiescer ==> out == if !o.HasEntries() then NotNeeded else if !o.Compatible() then Refused else Restricted
      ensures out.NotNeeded? ==> !o.HasEntries()
      ensures out.Refused? ==> o.HasEntries() && !o.Compatible()
      ensures out.Adopted? ==> o.HasEntries() && o.Compatible() && Now() == Complete(o)
      ensures out.NotNeeded? || out.Refused? || out.Restricted? ==> Now() == old(Now())
      ensures old(Now()) == Complete(o) ==> Now() == old(Now())
      ensures !crashy && quiescer ==>
                out == if !o.HasEntries() then NotNeeded else if !o.Compatible() then Refused else Adopted
    {
      if journal in {Some(SwapStarted), Some(SwappedPendingInstall)} && target != null && staging == null {
        if !quiescer { return Restricted; }
        if crashy { if * { return Crashed; } }
        journal := Some(SwappedPendingInstall);
        return Adopted;
      }
      var sourceDatabase := Main in legacy.db || (target != null && Main in target.db);
      var copyIncomplete := journal == Some(Staged) && staging != null && Main in staging.db && sourceDatabase;
      var stop := CheckState(o, copyIncomplete);
      if stop.Some? { return stop.value; }
      if !quiescer { return Restricted; }
      out := Work(o, copyIncomplete, sourceDatabase, crashy);
    }

    /** The checks before anything is touched: the outcome if the run stops here. */
    method CheckState(ghost o: Origin, copyIncomplete: bool) returns (stop: Option<Outcome>)
      requires Valid() && Reachable(o, Now()) && journal != Some(SwappedPendingInstall)
      requires journal == Some(SwapStarted) ==> staging != null
      requires copyIncomplete ==> journal == Some(Staged)
      requires journal == Some(Staged) && staging != null && Main in staging.db && o.HasDatabase() ==> copyIncomplete
      ensures stop == if !o.HasEntries() then Some(NotNeeded) else if !o.Compatible() then Some(Refused) else None
    {
      if staging != null {
        if journal.None? || journal == Some(SwappedPendingInstall) { return Some(Refused); }
        ghost var s := Now();
        if s.journal != Some(Prepared) { StagingAgrees(o, s); }
        var ok := AssertMergeCompatible(Root(legacy.files, legacy.db, 0), Root(staging.files, staging.db, 0),
                                        Late(journal) || journal == Some(DatabaseStaging) || copyIncomplete);
        return if ok then None else Some(Refused);
      }
      if legacy.files == map[] && legacy.db == map[] {
        return Some(if journal.Some? then Refused else NotNeeded);
      }
      if target != null {
        var ok := AssertMergeCompatible(Root(legacy.files, legacy.db, 0), Root(target.files, target.db, 0), false);
        return if ok then None else Some(Refused);
      }
      stop := None;
    }

    /** The migration proper, once nothing speaks against it. */
    method Work(ghost o: Origin, copyIncomplete: bool, sourceDatabase: bool, crashy: bool) returns (out: Outcome)
      requires Working(o) && journal != Some(SwappedPendingInstall)
      requires journal == Some(SwapStarted) ==> staging != null
      requires sourceDatabase <==> Main in legacy.db || (target != null && Main in target.db)
      requires copyIncomplete <==> journal == Some(Staged) && staging != null && Main in staging.db && sourceDatabase
      modifies Repr()
      ensures Working(o) && fresh(Repr() - old(Repr()))
      ensures out.Crashed? || out.Adopted?
      ensures out.Crashed? ==> crashy
      ensures out.Adopted? ==> Now() == Complete(o)
    {
      var phase := journal;
      var r := Prepare(o, copyIncomplete, sourceDatabase, crashy);
      if !r.Done? { return Crashed; }
      r := Carry(o, phase, crashy);
      if !r.Done? { return Crashed; }
      r := Swap(o, crashy);
      out := if r.Done? then Adopted else Crashed;
    }

    /** From the prepared staging directory to emptied sources; `phase` is what the journal said
        when the run began. */
    method Carry(ghost o: Origin, phase: Option<Phase>, crashy: bool) returns (r: Step)
      requires Working(o) && MayMove(o, Now())
      requires Late(phase) == Late(journal) && (Late(phase) ==> phase == journal)
      requires !Late(journal) ==> staging.db == map[] && staging.strays == 0
      modifies `journal, legacy, if target != null then {target} else {}, staging
      ensures Working(o)
      ensures r.Crash? ==> crashy
      ensures r.Done? || r.Crash?
      ensures r.Done? ==> ReadyToSwap(o)
    {
      var fromTarget, fromLegacy;
      r, fromTarget, fromLegacy := MergeBoth(o, Late(phase), crashy);
      if !r.Done? { return; }
      r := FinishDatabase(o, phase in {Some(HandoffStaged), Some(SwapStarted)}, crashy);
      if !r.Done? { return; }
      r := RemoveSources(o, fromTarget, fromLegacy, crashy);
    }

    ghost predicate ReadyToSwap(o: Origin) reads Repr()
      requires o.Valid()
    {
      && staging != null && staging.View() == o.Final()
      && legacy.View() == EMPTY_ROOT && (target != null ==> target.View() == EMPTY_ROOT)
      && (journal in {Some(HandoffStaged), Some(SwapStarted)} || (journal == Some(Staged) && !o.HasDatabase()))
    }

    ghost predicate Working(o: Origin) reads Repr() {
      Valid() && Reachable(o, Now()) && o.Compatible() && o.HasEntries()
    }

    /** Creates staging if needed and brings the journal to the phase in which entries move. */
    method Prepare(ghost o: Origin, copyIncomplete: bool, sourceDatabase: bool, crashy: bool) returns (r: Step)
      requires Working(o) && journal != Some(SwappedPendingInstall)
      requires journal == Some(SwapStarted) ==> staging != null
      requires sourceDatabase <==> Main in legacy.db || (target != null && Main in target.db)
      requires copyIncomplete <==> journal == Some(Staged) && staging != null && Main in staging.db && sourceDatabase
      modifies `journal, `staging, if staging != null then {staging} else {}
      ensures Working(o) && (staging == old(staging) || (old(staging) == null && fresh(staging)))
      ensures r.Crash? ==> crashy
      ensures r.Done? || r.Crash?
      ensures r.Done? ==> MayMove(o, Now()) && Late(journal) == Late(old(journal)) && (Late(journal) ==> journal == old(journal))
      ensures r.Done? && !Late(journal) ==> staging.db == map[] && staging.strays == 0
    {
      var phase := journal;
      if staging != null && (phase == Some(DatabaseStaging) || copyIncomplete) {
        r := RemoveIncomplete(o, crashy);
        if !r.Done? { return; }
      }
      if staging == null {
        if crashy { if * { return Crash; } }
        journal := Some(Prepared);
        if crashy { if * { return Crash; } }
        staging := new Directory(EMPTY_ROOT);
      }
      r := OpenMerge(o, phase, sourceDatabase, crashy);
    }

    /** Journals that entries, and then that a database copy, are about to move. */
    method OpenMerge(ghost o: Origin, phase: Option<Phase>, sourceDatabase: bool, crashy: bool) returns (r: Step)
      requires Working(o) && staging != null && journal.Some? && journal != Some(SwappedPendingInstall)
      requires journal == phase || (phase.None? && journal == Some(Prepared))
      requires !Late(journal) ==> staging.db == map[] && staging.strays == 0
      requires sourceDatabase <==> Main in legacy.db || (target != null && Main in target.db)
      modifies `journal
      ensures Working(o)
      ensures r.Crash? ==> crashy
      ensures r.Done? || r.Crash?
      ensures r.Done? ==> MayMove(o, Now()) && Late(journal) == Late(phase) && (Late(journal) ==> journal == phase)
    {
      if phase != Some(DatabaseStaging) && !Late(phase) {
        if crashy { if * { return Crash; } }
        OpenKeeps(o, Now(), Staged);
        journal := Some(Staged);
      }
      if sourceDatabase && !Late(phase) {
        if crashy { if * { return Crash; } }
        OpenKeeps(o, Now(), DatabaseStaging);
        journal := Some(DatabaseStaging);
      }
      r := Done;
    }

    /** `_remove_incomplete_staged_database`. */
    method RemoveIncomplete(ghost o: Origin, crashy: bool) returns (r: Step)
      requires Working(o) && staging != null && MayDiscard(o)
      modifies staging`db, staging`strays
      ensures Working(o)
      ensures r.Crash? ==> crashy
      ensures r.Done? || r.Crash?
      ensures r.Done? ==> staging.db == map[] && staging.strays == 0
    {
      r := Discard(o, Main, crashy);
      if !r.Done? { return; }
      r := Discard(o, Wal, crashy);
      if !r.Done? { return; }
      r := Discard(o, Shm, crashy);
      if !r.Done? { return; }
      forall f ensures f !in staging.db { assert f == Main || f == Wal || f == Shm; }
      r := DiscardStrays(o, crashy);
    }

    method DiscardStrays(ghost o: Origin, crashy: bool) returns (r: Step)
      requires Working(o) && staging != null && MayDiscard(o)
      modifies staging`strays
      ensures Working(o)
      ensures r.Crash? ==> crashy
      ensures r.Done? || r.Crash?
      ensures r.Done? ==> staging.strays == 0
    {
      while staging.strays > 0
        invariant Working(o)
      {
        if crashy { if * { return Crash; } }
        DiscardKeeps(o, Now(), staging.View().(strays := staging.strays - 1));
        staging.strays := staging.strays - 1;
      }
      r := Done;
    }

    ghost predicate MayDiscard(o: Origin) reads this {
      journal == Some(DatabaseStaging) || (journal == Some(Staged) && o.HasDatabase())
    }

    method Discard(ghost o: Origin, f: Family, crashy: bool) returns (r: Step)
      requires Working(o) && staging != null && MayDiscard(o)
      modifies staging`db
      ensures Working(o)
      ensures r.Crash? ==> crashy
      ensures r.Done? || r.Crash?
      ensures r.Done? ==> staging.db == old(staging.db) - {f}
    {
      if crashy { if * { return Crash; } }
      DiscardKeeps(o, Now(), staging.View().(db := staging.db - {f}));
      staging.db := staging.db - {f};
      r := Done;
    }

    method MergeBoth(ghost o: Origin, late: bool, crashy: bool)
      returns (r: Step, fromTarget: set<Family>, fromLegacy: set<Family>)
      requires Working(o) && MayMove(o, Now()) && late == Late(journal)
      requires !late ==> staging.db == map[] && staging.strays == 0
      modifies legacy`files, if target != null then {target} else {}, staging
      ensures Working(o) && MayMove(o, Now())
      ensures r.Crash? ==> crashy
      ensures r.Done? || r.Crash?
      ensures r.Done? ==> AllStaged(o)
      ensures r.Done? ==> fromLegacy == legacy.db.Keys && fromTarget == if target != null then target.db.Keys else {}
    {
      fromTarget, fromLegacy := {}, {};
      if target != null {
        r, fromTarget := MergeTarget(o, late, crashy);
        if !r.Done? { return; }
      }
      r, fromLegacy := MergeLegacy(o, late, crashy);
    }

    method MergeLegacy(ghost o: Origin, late: bool, crashy: bool) returns (r: Step, fromLegacy: set<Family>)
      requires Working(o) && MayMove(o, Now()) && late == Late(journal) && RootOr(Now().target).files == map[]
      requires !late ==>
        staging.strays == 0 && staging.db == if Main in o.TargetRoot().db then map[Main := o.TargetRoot().db[Main]] else map[]
      modifies legacy`files, staging
      ensures Working(o) && MayMove(o, Now())
      ensures r.Crash? ==> crashy
      ensures r.Done? || r.Crash?
      ensures r.Done? ==> AllStaged(o) && fromLegacy == legacy.db.Keys
    {
      fromLegacy := {};
      ghost var s := Now();
      SourcesAgree(o, s);
      var ok := AssertMergeCompatible(Root(legacy.files, legacy.db, 0), Root(staging.files, staging.db, 0), late);
      if !ok { return Conflict, fromLegacy; }
      r, fromLegacy := legacy.MergeAll(staging, late, crashy);
      MergeKeeps(o, s, s.legacy, Now().legacy, Now());
      if r.Done? { AllMoved(o, Now()); }
    }

    /** All files are in staging, and so is the database copy. */
    ghost predicate AllStaged(o: Origin) reads Repr()
      requires o.Valid()
    {
      && staging != null && staging.strays == 0
      && Merged(o, Now().legacy, RootOr(Now().target), Now().staging.value)
      && (if o.HasDatabase() then StagedImage(o, staging.View()) else staging.db == map[])
    }

    method MergeTarget(ghost o: Origin, late: bool, crashy: bool) returns (r: Step, fromTarget: set<Family>)
      requires Working(o) && MayMove(o, Now()) && late == Late(journal) && target != null
      requires !late ==> staging.db == map[] && staging.strays == 0
      modifies target, staging
      ensures Working(o) && MayMove(o, Now())
      ensures r.Crash? ==> crashy
      ensures r.Done? || r.Crash?
      ensures r.Done? ==>
                && target.files == map[] && target.db == old(target.db) && fromTarget == target.db.Keys
                && staging.strays == old(staging.strays)
                && staging.db == if !late && Main in target.db then map[Main := target.db[Main]] else old(staging.db)
    {
      ghost var s := Now();
      SourcesAgree(o, s);
      r, fromTarget := target.MergeAll(staging, late, crashy);
      MergeKeeps(o, s, s.target.value, Now().target.value, Now());
    }

    method FinishDatabase(ghost o: Origin, handedOff: bool, crashy: bool) returns (r: Step)
      requires Working(o) && staging != null
      requires MayMove(o, Now()) && AllStaged(o)
      requires handedOff <==> journal in {Some(HandoffStaged), Some(SwapStarted)}
      modifies `journal, staging`db
      ensures Working(o)
      ensures r.Done? ==> staging.View() == o.Final()
      ensures staging.db != old(staging.db) ==> journal in {Some(DatabaseFinalizing), Some(HandoffStaged)}
      ensures r.Crash? ==> crashy
      ensures r.Done? || r.Crash?
      ensures r.Done? ==> journal in {Some(HandoffStaged), Some(SwapStarted)} || (journal == Some(Staged) && !o.HasDatabase())
    {
      r := Done;
      if !handedOff && Main in staging.db {
        FinalizeKeeps(o, Now(), staging.View().(db := map[Main := Image(staging.db[Main].content, true)]));
        if crashy { if * { return Crash; } }
        journal := Some(DatabaseFinalizing);
        if crashy { if * { return Crash; } }
        staging.db := staging.db[Main := Image(staging.db[Main].content, true)];
        if crashy { if * { r := Crash; } }
        if r.Done? { journal := Some(HandoffStaged); }
      }
    }

    /** Every database file a source still has was copied into staging or belongs to the copy. */
    ghost predicate MayUnlink(o: Origin) reads Repr()
      requires o.Valid()
    {
      && staging != null && staging.View() == o.Final()
      && legacy.files == map[] && (target != null ==> target.files == map[])
      && (journal in {Some(HandoffStaged), Some(SwapStarted)} || (journal == Some(Staged) && !o.HasDatabase()))
    }

    /** Unlinks the deferred database files of both sources. */
    method RemoveSources(ghost o: Origin, fromTarget: set<Family>, fromLegacy: set<Family>, crashy: bool) returns (r: Step)
      requires Working(o) && MayUnlink(o)
      requires fromLegacy == legacy.db.Keys && fromTarget == (if target != null then target.db.Keys else {})
      modifies legacy`db, if target != null then {target} else {}
      ensures Working(o)
      ensures r.Crash? ==> crashy
      ensures r.Done? || r.Crash?
      ensures r.Done? ==> ReadyToSwap(o)
    {
      if target != null {
        r := Unlink(o, target, fromTarget, crashy);
        if !r.Done? { return; }
      }
      r := Unlink(o, legacy, fromLegacy, crashy);
    }

    method Unlink(ghost o: Origin, source: Directory, deferred: set<Family>, crashy: bool) returns (r: Step)
      requires Working(o) && MayUnlink(o) && (source == legacy || source == target) && deferred == source.db.Keys
      modifies source`db
      ensures Working(o) && MayUnlink(o)
      ensures r.Crash? ==> crashy
      ensures r.Done? || r.Crash?
      ensures r.Done? ==> source.View() == EMPTY_ROOT
    {
      var pending := deferred;
      while pending != {}
        invariant Working(o) && MayUnlink(o) && source.db.Keys == pending
      {
        var f :| f in pending;
        if crashy { if * { return Crash; } }
        source.db := source.db - {f};
        pending := pending - {f};
      }
      r := Done;
    }

    /** Prunes the emptied target and puts staging in its place. */
    method Swap(ghost o: Origin, crashy: bool) returns (r: Step)
      requires Working(o) && ReadyToSwap(o)
      modifies this
      ensures Working(o) && Repr() <= old(Repr())
      ensures r.Crash? ==> crashy
      ensures r.Done? || r.Crash?
      ensures r.Done? ==> Now() == Complete(o)
    {
      if target != null && target.files == map[] && target.db == map[] {
        if crashy { if * { return Crash; } }
        target := null;
      }
      if crashy { if * { return Crash; } }
      journal := Some(SwapStarted);
      if crashy { if * { return Crash; } }
      target, staging := staging, null;
      if crashy { if * { return Crash; } }
      journal := Some(SwappedPendingInstall);
      r := Done;
    }

    /** `LegacyLayoutAdoption.complete`: the journal goes once the service is installed. What is
        left is a finished layout, for which a later run has nothing to do. */
    method CompleteAdoption(ghost o: Origin)
      requires Valid() && o.Valid() && Now() == Complete(o)
      requires Reachable(o, Now())
      modifies `journal
      ensures Valid() && Now() == Initial(Origin(EMPTY_ROOT, Some(o.Final())))
      ensures Reachable(Origin(EMPTY_ROOT, Some(o.Final())), Now()) && !Origin(EMPTY_ROOT, Some(o.Final())).HasEntries()
    {
      journal := None;
    }
  }

  /** Any number of interrupted runs, then one that is not interrupted: it ends with the union of
      both trees in the target and nothing anywhere else, and one more run changes nothing. */
  method MigrateThroughCrashes(l: Root, t: Option<Root>, crashes: nat) returns (disk: Disk, out: Outcome)
    requires Origin(l, t).Valid()
    ensures var o := Origin(l, t);
            out == if !o.HasEntries() then NotNeeded else if !o.Compatible() then Refused else Adopted
    ensures disk.Valid() && disk.Now() == if out.Adopted? then Complete(Origin(l, t)) else Initial(Origin(l, t))
  {
    ghost var o := Origin(l, t);
    disk := new Disk(l, t);
    for i := 0 to crashes
      invariant fresh(disk.Repr()) && disk.Valid() && Reachable(o, disk.Now())
    {
      out := disk.Adopt(o, true, true);
    }
    out := disk.Adopt(o, true, false);
    if out.Adopted? {
      var again := disk.Adopt(o, true, false);
      assert again.Adopted? && disk.Now() == Complete(o);
    }
  }
}
