/**
 The byte stream hashed for a generated tree: the entries in order of their paths, each as path, kind and content, every
 part closed by a NUL byte.
 */
module TreeStream {
  import opened Prelude

  type Byte = b: int | 0 <= b < 256
  type Bytes = seq<Byte>

  datatype Kind = Dir | File

  /** An entry met on a walk; a directory has no content. */
  datatype Entry = Entry(path: Bytes, kind: Kind, content: Bytes)

  const DIR_NAME: Bytes := [0x64, 0x69, 0x72]
  const FILE_NAME: Bytes := [0x66, 0x69, 0x6C, 0x65]
  const NUL: Byte := 0

  function KindName(k: Kind): Bytes {
    if k.Dir? then DIR_NAME else FILE_NAME
  }

  function Encoded(e: Entry): Bytes {
    e.path + [NUL] + KindName(e.kind) + [NUL] + (if e.kind.File? then e.content else []) + [NUL]
  }

  function Stream(entries: seq<Entry>): Bytes {
    if entries == [] then [] else Encoded(entries[0]) + Stream(entries[1..])
  }

  // --- Reading the stream back ---

  predicate NulFree(s: Bytes) {
    forall i :: 0 <= i < |s| ==> s[i] != NUL
  }

  predicate Plain(e: Entry) {
    NulFree(e.path) && NulFree(e.content) && (e.kind.Dir? ==> e.content == [])
  }

  predicate AllPlain(entries: seq<Entry>) {
    forall i :: 0 <= i < |entries| ==> Plain(entries[i])
  }

  /** The bytes up to the first NUL. */
  function Part(s: Bytes): (r: Option<Bytes>)
    ensures r.Some? ==> |r.value| < |s| && NulFree(r.value)
  {
    if s == [] then None
    else if s[0] == NUL then Some([])
    else
      var rest := Part(s[1..]);
      if rest.None? then None else Some([s[0]] + rest.value)
  }

  /** An entry and the bytes after it. */
  datatype Read = Read(entry: Entry, rest: Bytes)

  function DecodeEntry(s: Bytes): (r: Option<Read>)
    ensures r.Some? ==> Plain(r.value.entry) && |r.value.rest| < |s|
  {
    var path := Part(s);
    if path.None? then None
    else
      var s1 := s[|path.value| + 1..];
      var kind := Part(s1);
      if kind.None? || (kind.value != DIR_NAME && kind.value != FILE_NAME) then None
      else
        var s2 := s1[|kind.value| + 1..];
        var content := Part(s2);
        if content.None? || (kind.value == DIR_NAME && content.value != []) then None
        else
          Some(Read(Entry(path.value, if kind.value == DIR_NAME then Dir else File, content.value),
                    s2[|content.value| + 1..]))
  }

  /** The entries a stream spells, if it is one. */
  function Decode(s: Bytes): (r: Option<seq<Entry>>)
    ensures r.Some? ==> AllPlain(r.value)
    decreases |s|
  {
    if s == [] then Some([])
    else
      var first := DecodeEntry(s);
      if first.None? then None
      else
        var rest := Decode(first.value.rest);
        if rest.None? then None else Some([first.value.entry] + rest.value)
  }

  lemma {:induction false} PartOfParts(a: Bytes, rest: Bytes)
    requires NulFree(a)
    ensures Part(a + [NUL] + rest) == Some(a)
    ensures (a + [NUL] + rest)[|a| + 1..] == rest
    decreases |a|
  {
    var s := a + [NUL] + rest;
    if a == [] {
      assert s[0] == NUL;
    } else {
      PartOfParts(a[1..], rest);
      assert s[1..] == a[1..] + [NUL] + rest;
      assert a == [a[0]] + a[1..];
    }
  }

  lemma EncodedSplits(e: Entry, rest: Bytes)
    requires e.kind.Dir? ==> e.content == []
    ensures Encoded(e) + rest ==
            e.path + [NUL] + (KindName(e.kind) + [NUL] + (e.content + [NUL] + rest))
  {
  }

  lemma EntryDecodes(e: Entry, rest: Bytes)
    requires Plain(e)
    ensures DecodeEntry(Encoded(e) + rest) == Some(Read(e, rest))
  {
    EncodedSplits(e, rest);
    var s2 := e.content + [NUL] + rest;
    var s1 := KindName(e.kind) + [NUL] + s2;
    PartOfParts(e.path, s1);
    PartOfParts(KindName(e.kind), s2);
    PartOfParts(e.content, rest);
  }

  lemma DecodeCons(s: Bytes, first: Entry, rest: Bytes, others: seq<Entry>)
    requires s != [] && DecodeEntry(s) == Some(Read(first, rest)) && Decode(rest) == Some(others)
    ensures Decode(s) == Some([first] + others)
  {
  }

  lemma StreamCons(entries: seq<Entry>)
    requires entries != []
    ensures Stream(entries) == Encoded(entries[0]) + Stream(entries[1..]) && Stream(entries) != []
    ensures entries == [entries[0]] + entries[1..]
  {
  }

  lemma {:induction false} PlainStreamDecodes(entries: seq<Entry>)
    requires AllPlain(entries)
    ensures Decode(Stream(entries)) == Some(entries)
    decreases |entries|
  {
    if entries != [] {
      var rest := Stream(entries[1..]);
      PlainStreamDecodes(entries[1..]);
      EntryDecodes(entries[0], rest);
      StreamCons(entries);
      DecodeCons(Stream(entries), entries[0], rest, entries[1..]);
    }
  }

  /** A stream reads back as the entries it was made from exactly when no path or content holds a NUL byte. */
  lemma StreamDecodesExactlyWhenPlain(entries: seq<Entry>)
    requires forall i :: 0 <= i < |entries| && entries[i].kind.Dir? ==> entries[i].content == []
    ensures Decode(Stream(entries)) == Some(entries) <==>
            forall i :: 0 <= i < |entries| ==> NulFree(entries[i].path) && NulFree(entries[i].content)
  {
    if forall i :: 0 <= i < |entries| ==> NulFree(entries[i].path) && NulFree(entries[i].content) {
      PlainStreamDecodes(entries);
    }
  }

  /** Plain entries with the same stream are the same entries. */
  lemma PlainStreamsAreDistinct(a: seq<Entry>, b: seq<Entry>)
    requires AllPlain(a) && AllPlain(b) && Stream(a) == Stream(b)
    ensures a == b
  {
    PlainStreamDecodes(a);
    PlainStreamDecodes(b);
  }

  /** With NUL bytes in a file, one file can have the stream of two. */
  lemma NulContentsCollide(p: Bytes, x: Bytes, q: Bytes, y: Bytes)
    ensures Stream([Entry(p, File, x + [NUL] + q + [NUL] + FILE_NAME + [NUL] + y)]) ==
            Stream([Entry(p, File, x), Entry(q, File, y)])
  {
    var one := Entry(p, File, x + [NUL] + q + [NUL] + FILE_NAME + [NUL] + y);
    var first, second := Entry(p, File, x), Entry(q, File, y);
    assert [one][1..] == [] && [first, second][1..] == [second] && [second][1..] == [];
    assert Stream([second]) == Encoded(second) + [];
    assert Encoded(one) == Encoded(first) + Encoded(second);
  }

  // --- The order of the entries ---

  /** Byte-wise lexicographic order. */
  predicate Less(a: Bytes, b: Bytes) {
    b != [] && (a == [] || a[0] < b[0] || (a[0] == b[0] && Less(a[1..], b[1..])))
  }

  lemma {:induction false} LessIsTotal(a: Bytes, b: Bytes)
    ensures Less(a, b) || Less(b, a) || a == b
    ensures !(Less(a, b) && Less(b, a))
    decreases |a|
  {
    if a != [] && b != [] && a[0] == b[0] {
      LessIsTotal(a[1..], b[1..]);
      assert a == [a[0]] + a[1..] && b == [b[0]] + b[1..];
    }
  }

  lemma {:induction false} LessIsTransitive(a: Bytes, b: Bytes, c: Bytes)
    requires Less(a, b) && Less(b, c)
    ensures Less(a, c)
    decreases |b|
  {
    if a != [] && a[0] == b[0] && b[0] == c[0] {
      LessIsTransitive(a[1..], b[1..], c[1..]);
    }
  }

  predicate Sorted(entries: seq<Entry>) {
    forall i, j :: 0 <= i < j < |entries| ==> Less(entries[i].path, entries[j].path)
  }

  predicate DistinctPaths(entries: seq<Entry>) {
    forall i, j :: 0 <= i < j < |entries| ==> entries[i].path != entries[j].path
  }

  predicate SameEntries(a: seq<Entry>, b: seq<Entry>) {
    (forall e :: e in a ==> e in b) && (forall e :: e in b ==> e in a)
  }

  function Insert(e: Entry, sorted: seq<Entry>): seq<Entry> {
    if sorted == [] then [e]
    else if Less(e.path, sorted[0].path) then [e] + sorted
    else [sorted[0]] + Insert(e, sorted[1..])
  }

  /** The entries in the order they are hashed in. */
  function Ordered(entries: seq<Entry>): seq<Entry> {
    if entries == [] then [] else Insert(entries[0], Ordered(entries[1..]))
  }

  lemma {:induction false} InsertKeepsEntries(e: Entry, sorted: seq<Entry>)
    ensures forall x :: x in Insert(e, sorted) <==> x == e || x in sorted
    decreases |sorted|
  {
    if sorted != [] {
      InsertKeepsEntries(e, sorted[1..]);
      assert sorted == [sorted[0]] + sorted[1..];
    }
  }

  lemma SortedCons(first: Entry, rest: seq<Entry>)
    requires Sorted(rest) && forall x :: x in rest ==> Less(first.path, x.path)
    ensures Sorted([first] + rest)
  {
    var all := [first] + rest;
    forall i, j | 0 <= i < j < |all| ensures Less(all[i].path, all[j].path) {
      assert all[j] == rest[j - 1];
      assert i > 0 ==> all[i] == rest[i - 1];
    }
  }

  lemma {:induction false} InsertSorts(e: Entry, sorted: seq<Entry>)
    requires Sorted(sorted) && forall x :: x in sorted ==> x.path != e.path
    ensures Sorted(Insert(e, sorted))
    decreases |sorted|
  {
    if sorted != [] {
      var first, rest := sorted[0], sorted[1..];
      LessIsTotal(e.path, first.path);
      if Less(e.path, first.path) {
        forall x | x in sorted ensures Less(e.path, x.path) {
          if x != first {
            LessIsTransitive(e.path, first.path, x.path);
          }
        }
        SortedCons(e, sorted);
      } else {
        InsertSorts(e, rest);
        InsertKeepsEntries(e, rest);
        SortedCons(first, Insert(e, rest));
      }
    }
  }

  lemma {:induction false} OrderedIsSorted(entries: seq<Entry>)
    requires DistinctPaths(entries)
    ensures Sorted(Ordered(entries)) && SameEntries(Ordered(entries), entries)
    decreases |entries|
  {
    if entries != [] {
      var rest := entries[1..];
      OrderedIsSorted(rest);
      assert entries == [entries[0]] + rest;
      forall x | x in Ordered(rest) ensures x.path != entries[0].path {
        assert x in rest;
        var i :| 0 <= i < |rest| && rest[i] == x;
        assert entries[i + 1] == x;
      }
      InsertSorts(entries[0], Ordered(rest));
      InsertKeepsEntries(entries[0], Ordered(rest));
    }
  }

  lemma FirstIsIn(s: seq<Entry>)
    ensures s != [] ==> exists e :: e in s && e == s[0]
  {
    if s != [] {
      assert s[0] in s;
    }
  }

  /** Sorted lists of the same entries are the same list. */
  lemma {:induction false} SortedIsUnique(a: seq<Entry>, b: seq<Entry>)
    requires Sorted(a) && Sorted(b) && SameEntries(a, b)
    ensures a == b
    decreases |a|
  {
    if a == [] {
      FirstIsIn(b);
    } else {
      assert a[0] in b && b[0] in a;
      var i :| 0 <= i < |b| && b[i] == a[0];
      var j :| 0 <= j < |a| && a[j] == b[0];
      LessIsTotal(a[0].path, b[0].path);
      assert a[0] == b[0];
      TailsHaveSameEntries(a, b);
      SortedIsUnique(a[1..], b[1..]);
      assert a == [a[0]] + a[1..] && b == [b[0]] + b[1..];
    }
  }

  lemma TailsHaveSameEntries(a: seq<Entry>, b: seq<Entry>)
    requires Sorted(a) && Sorted(b) && SameEntries(a, b) && a != [] && b != [] && a[0] == b[0]
    ensures Sorted(a[1..]) && Sorted(b[1..]) && SameEntries(a[1..], b[1..])
  {
    TailIsIncluded(a, b);
    TailIsIncluded(b, a);
  }

  lemma TailIsIncluded(a: seq<Entry>, b: seq<Entry>)
    requires Sorted(a) && SameEntries(a, b) && a != [] && b != [] && a[0] == b[0]
    ensures Sorted(a[1..]) && forall e :: e in a[1..] ==> e in b[1..]
  {
    forall e | e in a[1..] ensures e in b[1..] {
      var i :| 0 <= i < |a[1..]| && a[1..][i] == e;
      assert Less(a[0].path, a[i + 1].path);
      LessIsTotal(e.path, e.path);
      assert e != b[0] && e in b;
      assert b == [b[0]] + b[1..];
    }
  }

  /** Whatever order a tree is walked in, the hashed stream is the same. */
  lemma StreamIgnoresWalkOrder(a: seq<Entry>, b: seq<Entry>)
    requires DistinctPaths(a) && DistinctPaths(b) && SameEntries(a, b)
    ensures Stream(Ordered(a)) == Stream(Ordered(b))
  {
    OrderedIsSorted(a);
    OrderedIsSorted(b);
    SortedIsUnique(Ordered(a), Ordered(b));
  }

  lemma OrderedIsPlain(a: seq<Entry>)
    requires DistinctPaths(a) && AllPlain(a)
    ensures AllPlain(Ordered(a))
  {
    OrderedIsSorted(a);
    forall i | 0 <= i < |Ordered(a)| ensures Plain(Ordered(a)[i]) {
      assert Ordered(a)[i] in a;
    }
  }

  /** And plain trees with the same stream have the same entries. */
  lemma StreamTellsTreesApart(a: seq<Entry>, b: seq<Entry>)
    requires DistinctPaths(a) && DistinctPaths(b) && AllPlain(a) && AllPlain(b)
    requires Stream(Ordered(a)) == Stream(Ordered(b))
    ensures SameEntries(a, b)
  {
    OrderedIsSorted(a);
    OrderedIsSorted(b);
    OrderedIsPlain(a);
    OrderedIsPlain(b);
    PlainStreamsAreDistinct(Ordered(a), Ordered(b));
  }

  method WriteEntry(written: Bytes, e: Entry) returns (stream: Bytes)
    ensures stream == written + Encoded(e)
  {
    stream := written + e.path;
    stream := stream + [NUL];
    stream := stream + KindName(e.kind);
    stream := stream + [NUL];
    if e.kind.File? {
      stream := stream + e.content;
    }
    stream := stream + [NUL];
  }

  /** The hashing loop, entry by entry. */
  method WriteStream(sorted: seq<Entry>) returns (stream: Bytes)
    ensures stream == Stream(sorted)
  {
    stream := [];
    var i := 0;
    assert sorted[0..] == sorted;
    while i < |sorted|
      invariant i <= |sorted|
      invariant stream + Stream(sorted[i..]) == Stream(sorted)
    {
      assert sorted[i..][1..] == sorted[i + 1..];
      assert stream + Stream(sorted[i..]) == (stream + Encoded(sorted[i])) + Stream(sorted[i + 1..]);
      stream := WriteEntry(stream, sorted[i]);
      i := i + 1;
    }
  }
}
