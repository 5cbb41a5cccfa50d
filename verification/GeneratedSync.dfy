/**
 Keeping the generated directory: a root that still matches its marker is replaced, any other root is first moved whole
 to a recovery directory of its own.
 */
module GeneratedSync {
  import opened Prelude
  import opened TreeStream

  /** What a path holds; anything but directories and plain files cannot be hashed. */
  datatype Node = Directory | Content(bytes: Bytes) | Other

  type Tree = map<Bytes, Node>

  type Digest = Bytes

  /** The marker file: missing, unreadable or of another version, or naming the hash of the tree it was written with. */
  datatype Marker = NoMarker | BadMarker | Marker(hash: Digest)

  /** The generated root; the marker is kept apart from the other entries. */
  datatype Root = Missing | NotADirectory(bytes: Bytes) | Folder(tree: Tree, marker: Marker)

  datatype Disk = Disk(root: Root, recovered: map<string, Root>)

  const DOT: Bytes := [0x2E]
  const SLASH: Byte := 0x2F

  // --- What is hashed ---

  /** The part of a path after its last slash. */
  function Base(path: Bytes): Bytes {
    if path == [] then []
    else if path[|path| - 1] == SLASH then []
    else Base(path[..|path| - 1]) + [path[|path| - 1]]
  }

  /** Names the operating system leaves behind: .DS_Store, Thumbs.db, desktop.ini and names that start with "._". */
  predicate IsMetadata(name: Bytes) {
    || name == [0x2E, 0x44, 0x53, 0x5F, 0x53, 0x74, 0x6F, 0x72, 0x65]
    || name == [0x54, 0x68, 0x75, 0x6D, 0x62, 0x73, 0x2E, 0x64, 0x62]
    || name == [0x64, 0x65, 0x73, 0x6B, 0x74, 0x6F, 0x70, 0x2E, 0x69, 0x6E, 0x69]
    || (|name| >= 2 && name[0] == 0x2E && name[1] == 0x5F && forall i :: 0 <= i < |name| ==> name[i] != SLASH)
  }

  predicate Hashable(tree: Tree) {
    forall p :: p in tree ==> tree[p] != Other
  }

  predicate Counted(tree: Tree, p: Bytes)
    requires p in tree
  {
    tree[p].Directory? || (tree[p].Content? && !IsMetadata(Base(p)))
  }

  /** The tree as far as it is hashed. */
  function Seen(tree: Tree): (seen: Tree)
    ensures forall p :: p in seen <==> p in tree && Counted(tree, p)
    ensures forall p :: p in seen ==> seen[p] == tree[p]
  {
    map p | p in tree && Counted(tree, p) :: tree[p]
  }

  function EntryAt(tree: Tree, p: Bytes): Entry
    requires p in tree
  {
    if tree[p].Content? then Entry(p, File, tree[p].bytes) else Entry(p, Dir, [])
  }

  /** The entries met on a walk over the tree, in some order: the root itself and everything that is hashed. */
  ghost predicate IsWalk(tree: Tree, walk: seq<Entry>) {
    && DistinctPaths(walk)
    && (forall e :: e in walk <==> e == Entry(DOT, Dir, []) || (e.path in Seen(tree) && e == EntryAt(tree, e.path)))
  }

  /** Two walks over the same tree hash the same bytes. */
  lemma WalksHashAlike(tree: Tree, a: seq<Entry>, b: seq<Entry>)
    requires IsWalk(tree, a) && IsWalk(tree, b)
    ensures Stream(Ordered(a)) == Stream(Ordered(b))
  {
    StreamIgnoresWalkOrder(a, b);
  }

  // --- The decision ---

  datatype Verdict = Seed | Recover

  function TreeHash(walk: seq<Entry>, hash: Bytes -> Digest): Digest {
    hash(Stream(Ordered(walk)))
  }

  predicate Clean(tree: Tree, marker: Marker, walk: seq<Entry>, hash: Bytes -> Digest) {
    marker.Marker? && Hashable(tree) && TreeHash(walk, hash) == marker.hash
  }

  /** A missing root is only seeded; an empty, foreign or changed one is recovered first. */
  function Judge(root: Root, walk: seq<Entry>, hash: Bytes -> Digest): Verdict {
    match root
    case Missing => Seed
    case NotADirectory(_) => Recover
    case Folder(tree, marker) =>
      if tree == map[] && marker.NoMarker? then Recover
      else if Clean(tree, marker, walk, hash) then Seed
      else Recover
  }

  function Recovery(disk: Disk, name: string): Disk {
    Disk(Missing, disk.recovered[name := disk.root])
  }

  /** The root as written: the expected tree, and a marker with the hash of what was written. */
  function Written(expected: Tree, walk: seq<Entry>, hash: Bytes -> Digest): Root {
    Folder(expected, Marker(TreeHash(walk, hash)))
  }

  function Sync(disk: Disk, walk: seq<Entry>, name: string, expected: Tree, written: seq<Entry>, hash: Bytes -> Digest): Disk {
    var kept := if Judge(disk.root, walk, hash).Recover? then Recovery(disk, name) else disk;
    kept.(root := Written(expected, written, hash))
  }

  /** After a sync the next one, whatever order it walks in, finds the root clean and recovers nothing. */
  lemma SyncedRootIsClean(disk: Disk, walk: seq<Entry>, name: string, expected: Tree, written: seq<Entry>,
                          hash: Bytes -> Digest, again: seq<Entry>, later: string, next: Tree, rewritten: seq<Entry>)
    requires Hashable(expected) && IsWalk(expected, written) && IsWalk(expected, again)
    ensures var synced := Sync(disk, walk, name, expected, written, hash);
            && Judge(synced.root, again, hash) == Seed
            && Sync(synced, again, later, next, rewritten, hash).recovered == synced.recovered
  {
    WalksHashAlike(expected, written, again);
  }

  /** A root that is not clean is kept whole under a new name, and no earlier recovery is touched. */
  lemma UncleanRootIsKept(disk: Disk, walk: seq<Entry>, name: string, expected: Tree, written: seq<Entry>,
                          hash: Bytes -> Digest)
    requires name !in disk.recovered
    ensures var synced := Sync(disk, walk, name, expected, written, hash);
            && (Judge(disk.root, walk, hash).Recover? ==> name in synced.recovered && synced.recovered[name] == disk.root)
            && (Judge(disk.root, walk, hash).Seed? ==> synced.recovered == disk.recovered)
            && (forall n :: n in disk.recovered ==> n in synced.recovered && synced.recovered[n] == disk.recovered[n])
  {
  }

  /**
   One start: the root and what a walk over it finds, whatever was done to it since the start before; the directory a
   recovery would go to; and the tree to write with what a walk over that finds, or none if it cannot be written.
   */
  datatype Start = Start(root: Root, walk: seq<Entry>, name: string, expected: Option<Tree>, written: seq<Entry>)

  function Begun(recovered: map<string, Root>, s: Start, hash: Bytes -> Digest): Disk {
    var disk := Disk(s.root, recovered);
    if s.expected.Some? then Sync(disk, s.walk, s.name, s.expected.value, s.written, hash)
    else if Judge(s.root, s.walk, hash).Recover? then Recovery(disk, s.name)
    else disk
  }

  /** The recoveries after a number of starts. */
  function RecoveredAfter(recovered: map<string, Root>, starts: seq<Start>, hash: Bytes -> Digest): map<string, Root>
    decreases |starts|
  {
    if starts == [] then recovered
    else RecoveredAfter(Begun(recovered, starts[0], hash).recovered, starts[1..], hash)
  }

  /** Every start takes a name not used so far. */
  predicate NamesUnused(recovered: map<string, Root>, starts: seq<Start>, hash: Bytes -> Digest)
    decreases |starts|
  {
    starts != [] ==>
      starts[0].name !in recovered && NamesUnused(Begun(recovered, starts[0], hash).recovered, starts[1..], hash)
  }

  lemma {:induction false} RecoveriesStay(recovered: map<string, Root>, starts: seq<Start>, hash: Bytes -> Digest, name: string)
    requires NamesUnused(recovered, starts, hash) && name in recovered
    ensures var after := RecoveredAfter(recovered, starts, hash); name in after && after[name] == recovered[name]
    decreases |starts|
  {
    if starts != [] {
      RecoveriesStay(Begun(recovered, starts[0], hash).recovered, starts[1..], hash, name);
    }
  }

  /**
   Over any number of starts, with anything done to the root in between and whether or not the trees could be written:
   every root ever found unclean is still there, whole and under its own name.
   */
  lemma {:induction false} EveryUncleanRootIsKept(recovered: map<string, Root>, starts: seq<Start>, hash: Bytes -> Digest, i: nat)
    requires NamesUnused(recovered, starts, hash) && i < |starts|
    requires Judge(starts[i].root, starts[i].walk, hash).Recover?
    ensures var after := RecoveredAfter(recovered, starts, hash);
            starts[i].name in after && after[starts[i].name] == starts[i].root
    decreases |starts|
  {
    var next := Begun(recovered, starts[0], hash).recovered;
    if i == 0 {
      RecoveriesStay(next, starts[1..], hash, starts[0].name);
    } else {
      EveryUncleanRootIsKept(next, starts[1..], hash, i - 1);
    }
  }

  // --- What a clean root means ---

  predicate PlainTree(tree: Tree) {
    forall p :: p in tree ==> NulFree(p) && (tree[p].Content? ==> NulFree(tree[p].bytes))
  }

  lemma WalkIsPlain(tree: Tree, walk: seq<Entry>)
    requires PlainTree(tree) && IsWalk(tree, walk)
    ensures AllPlain(walk)
  {
    forall i | 0 <= i < |walk| ensures Plain(walk[i]) {
      assert walk[i] in walk;
    }
  }

  /** Walks with the same entries come from trees that are hashed alike. */
  lemma SameWalkSameTree(a: Tree, b: Tree, walkA: seq<Entry>, walkB: seq<Entry>)
    requires IsWalk(a, walkA) && IsWalk(b, walkB) && SameEntries(walkA, walkB)
    requires DOT !in a && DOT !in b
    ensures Seen(a) == Seen(b)
  {
    SeenIncluded(a, b, walkA, walkB);
    SeenIncluded(b, a, walkB, walkA);
  }

  lemma SeenIncluded(a: Tree, b: Tree, walkA: seq<Entry>, walkB: seq<Entry>)
    requires IsWalk(a, walkA) && IsWalk(b, walkB) && SameEntries(walkA, walkB)
    requires DOT !in a && DOT !in b
    ensures forall p :: p in Seen(a) ==> p in Seen(b) && Seen(b)[p] == Seen(a)[p]
  {
    forall p | p in Seen(a) ensures p in Seen(b) && Seen(b)[p] == Seen(a)[p] {
      var e := EntryAt(a, p);
      assert e.path == p && e in walkA;
      assert e in walkB && e != Entry(DOT, Dir, []);
      assert e == EntryAt(b, p);
    }
  }

  lemma WalkOfSeen(a: Tree, b: Tree, walk: seq<Entry>)
    requires IsWalk(a, walk) && Seen(a) == Seen(b)
    ensures IsWalk(b, walk)
  {
    forall p | p in Seen(a) ensures EntryAt(a, p) == EntryAt(b, p) {
      assert Seen(a)[p] == Seen(b)[p];
    }
  }

  /**
   With a hash that tells streams apart and no NUL bytes about, a root is clean exactly when it can be hashed and all
   that is hashed of it is as it was written: only system metadata may differ.
   */
  lemma CleanExactlyWhenUntouched(was: Tree, tree: Tree, written: seq<Entry>, walk: seq<Entry>, hash: Bytes -> Digest)
    requires forall s: Bytes, t: Bytes :: hash(s) == hash(t) ==> s == t
    requires IsWalk(was, written) && IsWalk(tree, walk) && DOT !in was && DOT !in tree
    requires PlainTree(was) && PlainTree(tree)
    ensures Clean(tree, Marker(TreeHash(written, hash)), walk, hash) <==> Hashable(tree) && Seen(tree) == Seen(was)
  {
    WalkIsPlain(was, written);
    WalkIsPlain(tree, walk);
    if TreeHash(walk, hash) == TreeHash(written, hash) {
      StreamTellsTreesApart(walk, written);
      SameWalkSameTree(tree, was, walk, written);
    }
    if Seen(tree) == Seen(was) {
      WalkOfSeen(tree, was, walk);
      WalksHashAlike(was, walk, written);
    }
  }

  lemma OrderedPair(a: Entry, b: Entry)
    requires Less(a.path, b.path)
    ensures Ordered([a, b]) == [a, b]
  {
    assert [a, b][1..] == [b] && [b][1..] == [];
    assert Ordered([b]) == [b];
  }

  lemma OrderedTriple(a: Entry, b: Entry, c: Entry)
    requires Less(a.path, b.path) && Less(b.path, c.path)
    ensures Ordered([a, b, c]) == [a, b, c]
  {
    assert [a, b, c][1..] == [b, c];
    OrderedPair(b, c);
  }

  /** A NUL byte lets a change go unnoticed: merging two files into one in this way keeps every hash. */
  lemma NulHidesAnEdit(x: Bytes, y: Bytes, hash: Bytes -> Digest)
    ensures var a, b: Bytes := [0x61], [0x62];
            var merged := x + [NUL] + b + [NUL] + FILE_NAME + [NUL] + y;
            var root := Entry(DOT, Dir, []);
            TreeHash([root, Entry(a, File, x), Entry(b, File, y)], hash) == TreeHash([root, Entry(a, File, merged)], hash)
  {
    var a, b: Bytes := [0x61], [0x62];
    var root := Entry(DOT, Dir, []);
    var merged := Entry(a, File, x + [NUL] + b + [NUL] + FILE_NAME + [NUL] + y);
    var two := [Entry(a, File, x), Entry(b, File, y)];
    OrderedTriple(root, two[0], two[1]);
    OrderedPair(root, merged);
    NulContentsCollide(a, x, b, y);
    assert [root, two[0], two[1]][1..] == two && [root, merged][1..] == [merged];
  }

  // --- Recovery directories ---

  function Digit(d: nat): char
    requires d < 10
  {
    "0123456789"[d]
  }

  function Decimal(n: nat): (s: string)
    ensures s != ""
  {
    if n < 10 then [Digit(n)] else Decimal(n / 10) + [Digit(n % 10)]
  }

  lemma {:induction false} DecimalIsInjective(m: nat, n: nat)
    requires Decimal(m) == Decimal(n)
    ensures m == n
    decreases m
  {
    var s, t := Decimal(m), Decimal(n);
    assert s[|s| - 1] == t[|t| - 1];
    if m >= 10 && n >= 10 {
      assert s[..|s| - 1] == Decimal(m / 10) && t[..|t| - 1] == Decimal(n / 10);
      DecimalIsInjective(m / 10, n / 10);
    }
  }

  /** The directory names tried: the time stamp, then the time stamp with a number from two on. */
  function RecoveryName(stem: string, index: nat): string {
    if index <= 1 then stem else stem + "-" + Decimal(index)
  }

  lemma RecoveryNamesDiffer(stem: string, i: nat, j: nat)
    requires 1 <= i < j
    ensures RecoveryName(stem, i) != RecoveryName(stem, j)
  {
    var a, b := RecoveryName(stem, i), RecoveryName(stem, j);
    if i > 1 && a == b {
      assert a[|stem| + 1..] == Decimal(i) && b[|stem| + 1..] == Decimal(j);
      DecimalIsInjective(i, j);
    }
  }

  /** Tries names until one is unused. Names never repeat and only finitely many are used, so one is found. */
  method NextRecoveryDir(used: set<string>, stem: string) returns (name: string)
    ensures name !in used
    ensures exists i :: i >= 1 && name == RecoveryName(stem, i)
  {
    var index := 1;
    ghost var tried: set<string> := {};
    while true
      invariant index >= 1 && tried <= used
      invariant forall n :: n in tried ==> exists i :: 1 <= i < index && n == RecoveryName(stem, i)
      decreases used - tried
    {
      name := if index > 1 then stem + "-" + Decimal(index) else stem;
      assert name == RecoveryName(stem, index);
      if name !in used {
        return;
      }
      if name in tried {
        var i :| 1 <= i < index && name == RecoveryName(stem, i);
        RecoveryNamesDiffer(stem, i, index);
        assert false;
      }
      tried := tried + {name};
      index := index + 1;
    }
  }

  // --- What a start keeps and what it writes, told by the root alone ---

  ghost predicate TellsApart(hash: Bytes -> Digest) {
    forall s: Bytes, t: Bytes :: hash(s) == hash(t) ==> s == t
  }

  /** The root is a folder as a sync left it, with the marker of that sync, whatever has become of its contents. */
  ghost predicate MarkedFor(root: Root, was: Tree, written: seq<Entry>, hash: Bytes -> Digest) {
    root.Folder? && root.marker == Written(was, written, hash).marker && IsWalk(was, written)
  }

  ghost predicate Presentable(tree: Tree, walk: seq<Entry>) {
    IsWalk(tree, walk) && DOT !in tree && PlainTree(tree)
  }

  /**
   A start keeps the root it finds exactly when something that is hashed was changed in it, or something is there that
   cannot be hashed. Otherwise it keeps nothing.
   */
  lemma ChangedRootIsKept(recovered: map<string, Root>, s: Start, hash: Bytes -> Digest, was: Tree, writtenBefore: seq<Entry>)
    requires TellsApart(hash) && MarkedFor(s.root, was, writtenBefore, hash)
    requires Presentable(was, writtenBefore) && Presentable(s.root.tree, s.walk)
    ensures Begun(recovered, s, hash).recovered ==
            if Hashable(s.root.tree) && Seen(s.root.tree) == Seen(was) then recovered else recovered[s.name := s.root]
  {
    CleanExactlyWhenUntouched(was, s.root.tree, writtenBefore, s.walk, hash);
  }

  /** A file in the place of the root, and a folder without a readable marker, are always kept; a missing root never is. */
  lemma UnmarkedRootIsKept(recovered: map<string, Root>, s: Start, hash: Bytes -> Digest)
    requires s.root.Folder? ==> !s.root.marker.Marker?
    ensures Begun(recovered, s, hash).recovered == if s.root.Missing? then recovered else recovered[s.name := s.root]
  {
  }

  /**
   Over any number of starts: a root that was found changed, at whichever of them, is still there, whole and under its own
   name.
   */
  lemma EveryChangedRootIsKept(recovered: map<string, Root>, starts: seq<Start>, hash: Bytes -> Digest, i: nat,
                               was: Tree, writtenBefore: seq<Entry>)
    requires NamesUnused(recovered, starts, hash) && i < |starts|
    requires TellsApart(hash) && MarkedFor(starts[i].root, was, writtenBefore, hash)
    requires Presentable(was, writtenBefore) && Presentable(starts[i].root.tree, starts[i].walk)
    requires !Hashable(starts[i].root.tree) || Seen(starts[i].root.tree) != Seen(was)
    ensures var after := RecoveredAfter(recovered, starts, hash);
            starts[i].name in after && after[starts[i].name] == starts[i].root
  {
    CleanExactlyWhenUntouched(was, starts[i].root.tree, writtenBefore, starts[i].walk, hash);
    EveryUncleanRootIsKept(recovered, starts, hash, i);
  }

  /**
   What a start leaves: the expected tree, marked so that it is found as it was left; or, where that cannot be written,
   the root as it was if it had not to be moved away.
   */
  lemma StartLeaves(recovered: map<string, Root>, s: Start, hash: Bytes -> Digest)
    ensures var root := Begun(recovered, s, hash).root;
            && (s.expected.Some? && IsWalk(s.expected.value, s.written) ==>
                  root.Folder? && root.tree == s.expected.value && MarkedFor(root, s.expected.value, s.written, hash))
            && (s.expected.None? && s.name !in recovered ==>
                  root == if s.name in Begun(recovered, s, hash).recovered then Missing else s.root)
  {
  }

  // --- What counts as a change ---

  function Ascii(s: string): Bytes
    requires forall i :: 0 <= i < |s| ==> s[i] as int < 128
  {
    seq(|s|, i requires 0 <= i < |s| => s[i] as int)
  }

  /** The metadata names, spelled out; and any name that starts with a full stop and an underscore. */
  lemma MetadataNames(name: Bytes)
    ensures IsMetadata(name) <==>
            || name == Ascii(".DS_Store") || name == Ascii("Thumbs.db") || name == Ascii("desktop.ini")
            || (name[..if |name| < 2 then |name| else 2] == Ascii("._") && SLASH !in name)
  {
    assert Ascii(".DS_Store") == [0x2E, 0x44, 0x53, 0x5F, 0x53, 0x74, 0x6F, 0x72, 0x65];
    assert Ascii("Thumbs.db") == [0x54, 0x68, 0x75, 0x6D, 0x62, 0x73, 0x2E, 0x64, 0x62];
    assert Ascii("desktop.ini") == [0x64, 0x65, 0x73, 0x6B, 0x74, 0x6F, 0x70, 0x2E, 0x69, 0x6E, 0x69];
    MetadataPrefix(name);
  }

  lemma MetadataPrefix(name: Bytes)
    ensures (|name| >= 2 && name[0] == 0x2E && name[1] == 0x5F) <==> name[..if |name| < 2 then |name| else 2] == Ascii("._")
  {
    assert Ascii("._") == [0x2E, 0x5F];
    if |name| >= 2 {
      assert name[..2] == [name[0], name[1]];
    }
  }

  /** The last name of a path is what follows its last slash, or all of it. */
  lemma {:induction false} BaseIsLastName(dir: Bytes, name: Bytes)
    requires SLASH !in name
    ensures Base(dir + [SLASH] + name) == name && Base(name) == name
    decreases |name|
  {
    var path := dir + [SLASH] + name;
    if name != [] {
      var front := name[..|name| - 1];
      BaseIsLastName(dir, front);
      assert path[..|path| - 1] == dir + [SLASH] + front && path[|path| - 1] == name[|name| - 1];
      assert name == front + [name[|name| - 1]];
    }
  }

  /** A directory, or a file that is no system metadata. */
  predicate Matters(node: Node, p: Bytes) {
    node == Directory || (node.Content? && !IsMetadata(Base(p)))
  }

  predicate MattersAt(tree: Tree, p: Bytes) {
    p in tree && Matters(tree[p], p)
  }

  lemma SeenIsWhatMatters(a: Tree, b: Tree)
    ensures Seen(a) == Seen(b) <==>
            forall p :: p in a.Keys + b.Keys ==> (MattersAt(a, p) <==> MattersAt(b, p)) && (MattersAt(a, p) && MattersAt(b, p) ==> a[p] == b[p])
  {
    assert forall p :: p in Seen(a) <==> MattersAt(a, p);
    assert forall p :: p in Seen(b) <==> MattersAt(b, p);
  }

  /**
   A start keeps a root that a sync left exactly if, since then, a file or directory was added, removed or changed, other
   than files of system metadata, or something that is neither file nor directory was put there.
   */
  lemma RootIsKeptExactlyWhenChanged(recovered: map<string, Root>, s: Start, hash: Bytes -> Digest, was: Tree, writtenBefore: seq<Entry>)
    requires TellsApart(hash) && MarkedFor(s.root, was, writtenBefore, hash) && s.name !in recovered
    requires Presentable(was, writtenBefore) && Presentable(s.root.tree, s.walk)
    ensures var kept := Begun(recovered, s, hash).recovered;
            var tree := s.root.tree;
            var changed := (exists p :: p in tree && tree[p] == Other)
                           || exists p :: p in tree.Keys + was.Keys
                                && ((MattersAt(tree, p) != MattersAt(was, p)) || (MattersAt(tree, p) && MattersAt(was, p) && tree[p] != was[p]));
            && (changed ==> s.name in kept && kept[s.name] == s.root)
            && (!changed ==> kept == recovered)
  {
    ChangedRootIsKept(recovered, s, hash, was, writtenBefore);
    SeenIsWhatMatters(s.root.tree, was);
  }

  // --- Writing the expected tree ---

  /** The directories a path lies in. */
  function Ancestors(path: Bytes): (dirs: set<Bytes>)
    ensures forall d :: d in dirs ==> |d| < |path|
  {
    set i | 0 < i < |path| && path[i] == SLASH :: path[..i]
  }

  /** Makes directories with all they lie in; none where a file is in the way. */
  function MakeDirs(tree: Tree, dirs: set<Bytes>): Option<Tree> {
    if exists d :: d in dirs && d in tree && !tree[d].Directory? then None
    else Some(tree + map d | d in dirs :: Directory)
  }

  function Place(tree: Tree, e: Entry): Option<Tree> {
    if e.kind.Dir? then MakeDirs(tree, Ancestors(e.path) + {e.path})
    else
      var made := MakeDirs(tree, Ancestors(e.path));
      if made.None? || (e.path in made.value && made.value[e.path].Directory?) then None
      else Some(made.value[e.path := Content(e.content)])
  }

  /** The tree that writing the entries one after another leaves; none where two of them are in each other's way. */
  function TreeFrom(entries: seq<Entry>): Option<Tree> {
    if entries == [] then Some(map[])
    else
      var before := TreeFrom(entries[..|entries| - 1]);
      if before.None? then None else Place(before.value, entries[|entries| - 1])
  }

  predicate NeedsDir(e: Entry, p: Bytes) {
    p in Ancestors(e.path) || (e.kind.Dir? && p == e.path)
  }

  ghost predicate DirNeeded(entries: seq<Entry>, p: Bytes) {
    exists i :: 0 <= i < |entries| && NeedsDir(entries[i], p)
  }

  ghost predicate FileGiven(entries: seq<Entry>, p: Bytes) {
    exists i :: 0 <= i < |entries| && entries[i].kind.File? && entries[i].path == p
  }

  /** No path is to be a file and a directory. */
  ghost predicate NoClash(entries: seq<Entry>) {
    forall p :: !(FileGiven(entries, p) && DirNeeded(entries, p))
  }

  /** The tree holds the files given, with their contents, the directories given or needed for others, and no more. */
  ghost predicate HoldsExactly(tree: Tree, entries: seq<Entry>) {
    && (forall p :: p in tree <==> FileGiven(entries, p) || DirNeeded(entries, p))
    && (forall p :: p in tree && DirNeeded(entries, p) ==> tree[p] == Directory)
    && (forall i :: 0 <= i < |entries| && entries[i].kind.File? ==>
          entries[i].path in tree && tree[entries[i].path] == Content(entries[i].content))
  }

  lemma NeededWithLast(entries: seq<Entry>, e: Entry, p: Bytes)
    ensures DirNeeded(entries + [e], p) <==> DirNeeded(entries, p) || NeedsDir(e, p)
    ensures FileGiven(entries + [e], p) <==> FileGiven(entries, p) || (e.kind.File? && e.path == p)
  {
    var all := entries + [e];
    assert all[|entries|] == e;
    assert forall i :: 0 <= i < |entries| ==> all[i] == entries[i];
  }

  /** Placing one more entry succeeds exactly when nothing is in its way, and then adds it and its directories. */
  lemma PlaceAdds(tree: Tree, entries: seq<Entry>, e: Entry)
    requires HoldsExactly(tree, entries) && NoClash(entries)
    ensures Place(tree, e).Some? <==>
            !(exists d :: NeedsDir(e, d) && FileGiven(entries, d)) && !(e.kind.File? && DirNeeded(entries, e.path))
    ensures Place(tree, e).Some? ==>
              && (forall p :: p in Place(tree, e).value <==> p in tree || NeedsDir(e, p) || p == e.path)
              && (forall p :: p in Place(tree, e).value ==>
                    Place(tree, e).value[p] == if NeedsDir(e, p) then Directory
                                               else if p == e.path then Content(e.content) else tree[p])
  {
    var dirs := Ancestors(e.path) + if e.kind.Dir? then {e.path} else {};
    assert forall d :: d in dirs <==> NeedsDir(e, d);
    assert forall d :: d in tree ==> (!tree[d].Directory? <==> FileGiven(entries, d)) by {
      forall d | d in tree ensures !tree[d].Directory? <==> FileGiven(entries, d) {
        NodeKind(tree, entries, d);
      }
    }
    assert e.kind.File? ==> dirs == Ancestors(e.path);
    assert e.path !in Ancestors(e.path);
  }

  lemma NodeKind(tree: Tree, entries: seq<Entry>, p: Bytes)
    requires HoldsExactly(tree, entries) && NoClash(entries) && p in tree
    ensures tree[p].Directory? <==> DirNeeded(entries, p)
    ensures !tree[p].Directory? <==> FileGiven(entries, p)
  {
  }

  lemma NoClashWithLast(entries: seq<Entry>, e: Entry)
    ensures NoClash(entries + [e]) <==>
            && NoClash(entries)
            && !(exists d :: NeedsDir(e, d) && FileGiven(entries, d)) && !(e.kind.File? && DirNeeded(entries, e.path))
  {
    var all := entries + [e];
    forall p ensures && (DirNeeded(all, p) <==> DirNeeded(entries, p) || NeedsDir(e, p))
                     && (FileGiven(all, p) <==> FileGiven(entries, p) || (e.kind.File? && e.path == p))
    {
      NeededWithLast(entries, e, p);
    }
    if NoClash(all) {
      forall p ensures !(FileGiven(entries, p) && DirNeeded(entries, p)) {
        assert !(FileGiven(all, p) && DirNeeded(all, p));
      }
      assert e.kind.File? ==> !(FileGiven(all, e.path) && DirNeeded(all, e.path));
      forall d ensures !(NeedsDir(e, d) && FileGiven(entries, d)) {
        assert !(FileGiven(all, d) && DirNeeded(all, d));
      }
    }
  }

  lemma PlacedHolds(tree: Tree, entries: seq<Entry>, e: Entry)
    requires HoldsExactly(tree, entries) && NoClash(entries + [e]) && DistinctPaths(entries + [e])
    ensures Place(tree, e).Some? && HoldsExactly(Place(tree, e).value, entries + [e])
  {
    var all := entries + [e];
    NoClashWithLast(entries, e);
    PlaceAdds(tree, entries, e);
    var next := Place(tree, e).value;
    forall p ensures && (DirNeeded(all, p) <==> DirNeeded(entries, p) || NeedsDir(e, p))
                     && (FileGiven(all, p) <==> FileGiven(entries, p) || (e.kind.File? && e.path == p))
    {
      NeededWithLast(entries, e, p);
    }
    forall i | 0 <= i < |all| && all[i].kind.File?
      ensures all[i].path in next && next[all[i].path] == Content(all[i].content)
    {
      if i < |entries| {
        assert all[i] == entries[i] && all[|entries|] == e && FileGiven(entries, entries[i].path);
      }
    }
  }

  /**
   Writing entries with different paths succeeds exactly when none is to be a file where another needs a directory, and
   then the tree holds exactly the given files with their contents, the given directories, and the directories they lie
   in.
   */
  lemma {:induction false} WrittenTreeIsExact(entries: seq<Entry>)
    requires DistinctPaths(entries)
    ensures TreeFrom(entries).Some? <==> NoClash(entries)
    ensures TreeFrom(entries).Some? ==> HoldsExactly(TreeFrom(entries).value, entries)
    decreases |entries|
  {
    if entries != [] {
      var before, e := entries[..|entries| - 1], entries[|entries| - 1];
      assert entries == before + [e];
      WrittenTreeIsExact(before);
      NoClashWithLast(before, e);
      if TreeFrom(before).Some? {
        PlaceAdds(TreeFrom(before).value, before, e);
        if NoClash(entries) {
          PlacedHolds(TreeFrom(before).value, before, e);
        }
      }
    }
  }

  lemma SameNeeds(a: seq<Entry>, b: seq<Entry>, p: Bytes)
    requires forall e :: e in a ==> e in b
    ensures DirNeeded(a, p) ==> DirNeeded(b, p)
    ensures FileGiven(a, p) ==> FileGiven(b, p)
  {
    forall i | 0 <= i < |a| ensures exists k :: 0 <= k < |b| && b[k] == a[i] {
      assert a[i] in b;
    }
  }

  lemma HeldTreesAgree(a: seq<Entry>, b: seq<Entry>, x: Tree, y: Tree)
    requires SameEntries(a, b) && HoldsExactly(x, a) && HoldsExactly(y, b)
    ensures x == y
  {
    forall p ensures (DirNeeded(a, p) <==> DirNeeded(b, p)) && (FileGiven(a, p) <==> FileGiven(b, p)) {
      SameNeeds(a, b, p);
      SameNeeds(b, a, p);
    }
    forall p | p in x ensures x[p] == y[p] {
      if !DirNeeded(a, p) {
        var i :| 0 <= i < |a| && a[i].kind.File? && a[i].path == p;
        assert a[i] in b;
        var k :| 0 <= k < |b| && b[k] == a[i];
      }
    }
  }

  /** In whatever order entries with different paths are written, the outcome is the same. */
  lemma WritingOrderIsIrrelevant(a: seq<Entry>, b: seq<Entry>)
    requires DistinctPaths(a) && DistinctPaths(b) && SameEntries(a, b)
    ensures TreeFrom(a) == TreeFrom(b)
  {
    WrittenTreeIsExact(a);
    WrittenTreeIsExact(b);
    forall p ensures (DirNeeded(a, p) <==> DirNeeded(b, p)) && (FileGiven(a, p) <==> FileGiven(b, p)) {
      SameNeeds(a, b, p);
      SameNeeds(b, a, p);
    }
    if TreeFrom(a).Some? {
      HeldTreesAgree(a, b, TreeFrom(a).value, TreeFrom(b).value);
    }
  }

  lemma {:induction false} WrittenIsHashable(entries: seq<Entry>)
    ensures TreeFrom(entries).Some? ==> Hashable(TreeFrom(entries).value)
    decreases |entries|
  {
    if entries != [] {
      WrittenIsHashable(entries[..|entries| - 1]);
    }
  }

  /** A path below the root, not the root itself. */
  predicate Below(path: Bytes) {
    path != DOT && DOT !in Ancestors(path)
  }

  lemma {:induction false} WrittenIsBelow(entries: seq<Entry>)
    requires forall e :: e in entries ==> Below(e.path)
    ensures TreeFrom(entries).Some? ==> DOT !in TreeFrom(entries).value
    decreases |entries|
  {
    if entries != [] {
      WrittenIsBelow(entries[..|entries| - 1]);
    }
  }

  // --- The directories on disk ---

  class Store {
    var root: Root
    var recovered: map<string, Root>

    function State(): Disk
      reads this
    {
      Disk(root, recovered)
    }

    /** Nothing in the root is called like the root. */
    predicate Valid()
      reads this
    {
      root.Folder? ==> DOT !in root.tree
    }

    constructor (disk: Disk)
      ensures State() == disk
    {
      root, recovered := disk.root, disk.recovered;
    }

    static method WriteEntries(entries: seq<Entry>) returns (tree: Option<Tree>)
      ensures tree == TreeFrom(entries)
    {
      tree := Some(map[]);
      var i := 0;
      while i < |entries| && tree.Some?
        invariant i <= |entries| && tree == TreeFrom(entries[..i])
      {
        assert entries[..i + 1][..i] == entries[..i];
        tree := Place(tree.value, entries[i]);
        i := i + 1;
      }
      if tree.None? {
        NoneStays(entries, i);
      } else {
        assert entries[..|entries|] == entries;
      }
    }

    /** Walks over the tree, in whatever order it comes. */
    static method Walk(tree: Tree) returns (walk: seq<Entry>)
      requires DOT !in tree
      ensures IsWalk(tree, walk)
    {
      walk := [Entry(DOT, Dir, [])];
      var left := tree.Keys;
      ghost var seen := Seen(tree);
      while left != {}
        invariant left <= tree.Keys && DistinctPaths(walk)
        invariant forall e :: e in walk <==>
                    e == Entry(DOT, Dir, []) || (e.path in seen && e.path !in left && e == EntryAt(tree, e.path))
        decreases left
      {
        var p :| p in left;
        left := left - {p};
        if tree[p].Directory? || (tree[p].Content? && !IsMetadata(Base(p))) {
          walk := walk + [EntryAt(tree, p)];
        }
      }
    }

    static method HashTree(walk: seq<Entry>, hash: Bytes -> Digest) returns (digest: Digest)
      ensures digest == TreeHash(walk, hash)
    {
      var stream := WriteStream(Ordered(walk));
      digest := hash(stream);
    }

    method Inspect(hash: Bytes -> Digest) returns (recovers: bool, ghost walk: seq<Entry>)
      requires Valid()
      ensures root.Folder? ==> IsWalk(root.tree, walk)
      ensures recovers <==> Judge(root, walk, hash).Recover?
    {
      recovers, walk := false, [];
      match root {
        case Missing =>
        case NotADirectory(_) => recovers := true;
        case Folder(tree, marker) =>
          var found := Walk(tree);
          walk := found;
          var digest := HashTree(found, hash);
          recovers := (tree == map[] && marker.NoMarker?) || !marker.Marker? || !Hashable(tree) || digest != marker.hash;
      }
    }

    /**
     One start of the program. The expected entries are written to a new directory, which is walked and hashed for the
     marker; if they are in each other's way the start fails after the recovery. Otherwise the next start, in whatever
     order it walks, will find the root clean.
     */
    method Synchronize(stem: string, entries: seq<Entry>, hash: Bytes -> Digest)
        returns (name: string, recovers: bool, ok: bool, ghost walk: seq<Entry>, ghost written: seq<Entry>)
      requires Valid() && forall e :: e in entries ==> Below(e.path)
      modifies this
      ensures Valid() && name !in old(recovered)
      ensures old(root).Folder? ==> IsWalk(old(root).tree, walk)
      ensures recovers <==> Judge(old(root), walk, hash).Recover?
      ensures var expected := TreeFrom(Ordered(entries));
              && (ok <==> expected.Some?)
              && (ok ==>
                    && IsWalk(expected.value, written)
                    && State() == Sync(old(State()), walk, name, expected.value, written, hash)
                    && root.Folder? && root.tree == expected.value
                    && (DistinctPaths(entries) ==> HoldsExactly(root.tree, Ordered(entries)))
                    && forall again :: IsWalk(expected.value, again) ==> Judge(root, again, hash) == Seed)
              && (!ok ==> State() == if recovers then Recovery(old(State()), name) else old(State()))
    {
      name := NextRecoveryDir(recovered.Keys, stem);
      recovers, walk := Inspect(hash);
      if recovers {
        recovered := recovered[name := root];
        root := Missing;
      }
      var expected := WriteEntries(Ordered(entries));
      ok, written := expected.Some?, [];
      if ok {
        OrderedIsBelow(entries);
        WrittenIsBelow(Ordered(entries));
        WrittenIsHashable(Ordered(entries));
        var found := Walk(expected.value);
        written := found;
        var digest := HashTree(found, hash);
        root := Folder(expected.value, Marker(digest));
        if DistinctPaths(entries) {
          OrderedIsDistinct(entries);
          WrittenTreeIsExact(Ordered(entries));
        }
        forall again | IsWalk(expected.value, again) ensures Judge(root, again, hash) == Seed {
          WalksHashAlike(expected.value, found, again);
        }
      }
    }
  }

  lemma {:induction false} NoneStays(entries: seq<Entry>, i: nat)
    requires i <= |entries| && TreeFrom(entries[..i]).None?
    ensures TreeFrom(entries).None?
    decreases |entries| - i
  {
    if i == |entries| {
      assert entries[..i] == entries;
    } else {
      assert entries[..i + 1][..i] == entries[..i];
      NoneStays(entries, i + 1);
    }
  }

  lemma OrderedIsDistinct(entries: seq<Entry>)
    requires DistinctPaths(entries)
    ensures DistinctPaths(Ordered(entries))
  {
    OrderedIsSorted(entries);
    SortedIsDistinct(Ordered(entries));
  }

  lemma SortedIsDistinct(entries: seq<Entry>)
    requires Sorted(entries)
    ensures DistinctPaths(entries)
  {
    forall i, j | 0 <= i < |entries| && 0 <= j < |entries| && entries[i].path == entries[j].path ensures i == j {
      assert i < j ==> Less(entries[i].path, entries[j].path);
      assert j < i ==> Less(entries[j].path, entries[i].path);
      LessIsStrict(entries[i].path);
    }
  }

  lemma {:induction false} LessIsStrict(a: Bytes)
    ensures !Less(a, a)
    decreases |a|
  {
    if a != [] {
      LessIsStrict(a[1..]);
    }
  }

  lemma {:induction false} OrderedIsBelow(entries: seq<Entry>)
    requires forall e :: e in entries ==> Below(e.path)
    ensures forall e :: e in Ordered(entries) ==> Below(e.path)
    decreases |entries|
  {
    if entries != [] {
      OrderedIsBelow(entries[1..]);
      InsertKeepsEntries(entries[0], Ordered(entries[1..]));
    }
  }
}
