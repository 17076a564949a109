/**
 The tree object of a set of files, and what its identity says about them.

 A path is the UTF-8 form of its name.  The hash is any function from byte strings to twenty bytes, so nothing is
 proved from the impossible premise that it has no collisions: every claim names the collision it would otherwise need.
 */
module GitTree {
  import opened GitOrder

  type Oid = s: Bytes | |s| == 20 witness seq(20, _ => 0)
  type Hash = Bytes -> Oid

  const NUL: Byte := 0
  const SPACE: Byte := 32
  const SLASH: Byte := 47

  const DirMode: Bytes := [52, 48, 48, 48, 48]
  const PlainMode: Bytes := [49, 48, 48, 54, 52, 52]
  const ExecutableMode: Bytes := [49, 48, 48, 55, 53, 53]
  const TreeTag: Bytes := [116, 114, 101, 101, 32]

  datatype File = File(mode: Bytes, oid: Oid)
  type Files = map<Bytes, File>

  // ---------------------------------------------------------------- names in a directory

  /** The part of a path up to and including its first slash, or all of it. */
  function Key(suffix: Bytes): (k: Bytes)
    ensures k <= suffix && (SLASH !in suffix ==> k == suffix)
    ensures IsDir(k) <==> SLASH in suffix
    ensures forall i :: 0 <= i < |k| && k[i] == SLASH ==> i == |k| - 1
  {
    if suffix == [] then []
    else if suffix[0] == SLASH then [SLASH]
    else [suffix[0]] + Key(suffix[1..])
  }

  predicate IsDir(key: Bytes) {
    key != [] && key[|key| - 1] == SLASH
  }

  function NameOf(key: Bytes): Bytes {
    if IsDir(key) then key[..|key| - 1] else key
  }

  /** The sorting keys of the entries of a directory: a subdirectory sorts as its name with a slash. */
  function Keys(files: Files, prefix: Bytes): set<Bytes> {
    set p | p in files && prefix <= p :: Key(p[|prefix|..])
  }

  // ---------------------------------------------------------------- the tree object

  ghost function Longest(paths: set<Bytes>): (n: nat)
    ensures forall p :: p in paths ==> |p| <= n
  {
    if paths == {} then 0
    else
      var p :| p in paths;
      var n := Longest(paths - {p});
      if |p| > n then |p| else n
  }

  /** How much deeper a path of these files can go. */
  ghost function Room(files: Files, prefix: Bytes): nat {
    if |prefix| <= Longest(files.Keys) then Longest(files.Keys) - |prefix| else 0
  }

  /** A subdirectory is deeper, and no deeper than the longest path. */
  lemma Deeper(files: Files, prefix: Bytes, key: Bytes)
    requires key in Keys(files, prefix) && IsDir(key)
    ensures Room(files, prefix + key) < Room(files, prefix)
  {
    var p :| p in files && prefix <= p && Key(p[|prefix|..]) == key;
  }

  lemma FileKey(files: Files, prefix: Bytes, key: Bytes)
    requires key in Keys(files, prefix) && !IsDir(key)
    ensures prefix + key in files
  {
    var p :| p in files && prefix <= p && Key(p[|prefix|..]) == key;
    assert p == prefix + p[|prefix|..];
  }

  function Line(mode: Bytes, name: Bytes, oid: Oid): Bytes {
    mode + [SPACE] + name + [NUL] + oid
  }

  /** Decimal digits. */
  function Decimal(n: nat): (d: Bytes)
    ensures d != [] && forall i :: 0 <= i < |d| ==> 48 <= d[i] <= 57
  {
    if n < 10 then [48 + n] else Decimal(n / 10) + [48 + n % 10]
  }

  function Encode(body: Bytes): Bytes {
    TreeTag + Decimal(|body|) + [NUL] + body
  }

  /** The identity of the directory `prefix` of some files. */
  ghost function Tree(hash: Hash, files: Files, prefix: Bytes): Oid
    decreases Room(files, prefix), 3, 0
  {
    hash(Encode(Body(hash, files, prefix, Sorted(Keys(files, prefix)))))
  }

  ghost function Body(hash: Hash, files: Files, prefix: Bytes, keys: seq<Bytes>): Bytes
    requires forall k :: k in keys ==> k in Keys(files, prefix)
    decreases Room(files, prefix), 2, |keys|
  {
    if keys == [] then [] else Entry(hash, files, prefix, keys[0]) + Body(hash, files, prefix, keys[1..])
  }

  ghost function Entry(hash: Hash, files: Files, prefix: Bytes, key: Bytes): Bytes
    requires key in Keys(files, prefix)
    decreases Room(files, prefix), 1, 0
  {
    Line(ModeOf(files, prefix, key), NameOf(key), OidOf(hash, files, prefix, key))
  }

  function ModeOf(files: Files, prefix: Bytes, key: Bytes): Bytes
    requires key in Keys(files, prefix)
  {
    if IsDir(key) then DirMode else FileKey(files, prefix, key); files[prefix + key].mode
  }

  ghost function OidOf(hash: Hash, files: Files, prefix: Bytes, key: Bytes): Oid
    requires key in Keys(files, prefix)
    decreases Room(files, prefix), 0, 0
  {
    if IsDir(key) then Deeper(files, prefix, key); Tree(hash, files, prefix + key)
    else FileKey(files, prefix, key); files[prefix + key].oid
  }

  /** The bytes hashed for a directory. */
  ghost function Encoding(hash: Hash, files: Files, prefix: Bytes): Bytes {
    Encode(Body(hash, files, prefix, Sorted(Keys(files, prefix))))
  }

  // ---------------------------------------------------------------- reading an object back

  /** A field that ends at its first separator is determined by what it starts. */
  lemma {:induction false} FieldUnique(a: Bytes, b: Bytes, c: Byte, x: Bytes, y: Bytes)
    requires c !in a && c !in b && a + [c] + x == b + [c] + y
    ensures a == b && x == y
  {
    if a == [] || b == [] {
      assert (a + [c] + x)[0] == (b + [c] + y)[0];
      if a == [] { assert (a + [c] + x)[1..] == x; }
      if b == [] { assert (b + [c] + y)[1..] == y; }
    } else {
      assert (a + [c] + x)[0] == a[0] && (b + [c] + y)[0] == b[0];
      assert (a + [c] + x)[1..] == a[1..] + [c] + x && (b + [c] + y)[1..] == b[1..] + [c] + y;
      FieldUnique(a[1..], b[1..], c, x, y);
      assert a == [a[0]] + a[1..] && b == [b[0]] + b[1..];
    }
  }

  lemma LineUnique(m: Bytes, n: Bytes, o: Oid, x: Bytes, m': Bytes, n': Bytes, o': Oid, y: Bytes)
    requires SPACE !in m && SPACE !in m' && NUL !in n && NUL !in n'
    requires Line(m, n, o) + x == Line(m', n', o') + y
    ensures m == m' && n == n' && o == o' && x == y
  {
    assert Line(m, n, o) + x == m + [SPACE] + (n + [NUL] + (o + x));
    assert Line(m', n', o') + y == m' + [SPACE] + (n' + [NUL] + (o' + y));
    FieldUnique(m, m', SPACE, n + [NUL] + (o + x), n' + [NUL] + (o' + y));
    FieldUnique(n, n', NUL, o + x, o' + y);
    assert o == (o + x)[..20] && o' == (o' + y)[..20];
    assert x == (o + x)[20..] && y == (o' + y)[20..];
  }

  lemma EncodeUnique(x: Bytes, y: Bytes)
    requires Encode(x) == Encode(y)
    ensures x == y
  {
    var a, b := TreeTag + Decimal(|x|), TreeTag + Decimal(|y|);
    FieldUnique(a, b, NUL, x, y);
  }

  // ---------------------------------------------------------------- identity

  /** Paths without a zero byte, and the two modes of a regular file. */
  predicate Valid(files: Files) {
    forall p :: p in files ==> NUL !in p && (files[p].mode == PlainMode || files[p].mode == ExecutableMode)
  }

  lemma KeyNames(files: Files, prefix: Bytes, key: Bytes)
    requires Valid(files) && key in Keys(files, prefix)
    ensures NUL !in NameOf(key) && SPACE !in ModeOf(files, prefix, key)
    ensures ModeOf(files, prefix, key) == DirMode <==> IsDir(key)
  {
    var p :| p in files && prefix <= p && Key(p[|prefix|..]) == key;
    assert forall b :: b in key ==> b in p;
    if !IsDir(key) { FileKey(files, prefix, key); }
  }

  /** Two directories with the same entries, identities of subdirectories included. */
  ghost predicate SameEntries(hash: Hash, f: Files, g: Files, prefix: Bytes, key: Bytes) {
    && key in Keys(f, prefix) && key in Keys(g, prefix)
    && ModeOf(f, prefix, key) == ModeOf(g, prefix, key) && OidOf(hash, f, prefix, key) == OidOf(hash, g, prefix, key)
  }

  /** Equal bodies list the same entries. */
  lemma {:induction false} BodyUnique(hash: Hash, f: Files, g: Files, prefix: Bytes, ks: seq<Bytes>, ls: seq<Bytes>)
    requires Valid(f) && Valid(g)
    requires (forall k :: k in ks ==> k in Keys(f, prefix)) && (forall k :: k in ls ==> k in Keys(g, prefix))
    requires Body(hash, f, prefix, ks) == Body(hash, g, prefix, ls)
    ensures ks == ls && forall k :: k in ks ==> SameEntries(hash, f, g, prefix, k)
    decreases |ks|
  {
    hide Valid, Keys, ModeOf, OidOf, NameOf, IsDir;
    if ks != [] && ls != [] {
      var k, l := ks[0], ls[0];
      KeyNames(f, prefix, k);
      KeyNames(g, prefix, l);
      LineUnique(ModeOf(f, prefix, k), NameOf(k), OidOf(hash, f, prefix, k), Body(hash, f, prefix, ks[1..]),
                 ModeOf(g, prefix, l), NameOf(l), OidOf(hash, g, prefix, l), Body(hash, g, prefix, ls[1..]));
      NameDetermines(k, l);
      BodyUnique(hash, f, g, prefix, ks[1..], ls[1..]);
      assert ks == [k] + ks[1..] && ls == [l] + ls[1..];
    }
  }

  lemma NameDetermines(k: Bytes, l: Bytes)
    requires NameOf(k) == NameOf(l) && (IsDir(k) <==> IsDir(l))
    ensures k == l
  {
    if IsDir(k) { assert k == NameOf(k) + [SLASH] && l == NameOf(l) + [SLASH]; }
  }

  predicate AgreeBelow(f: Files, g: Files, prefix: Bytes) {
    && (forall p :: p in f && prefix <= p ==> p in g && g[p] == f[p])
    && (forall p :: p in g && prefix <= p ==> p in f && f[p] == g[p])
  }

  /** Two different tree objects, of the same directory in each set of files, with one identity. */
  ghost predicate Collision(hash: Hash, f: Files, g: Files, prefix: Bytes) {
    Encoding(hash, f, prefix) != Encoding(hash, g, prefix) && hash(Encoding(hash, f, prefix)) == hash(Encoding(hash, g, prefix))
  }

  /** Equal encodings of a directory: the same keys, and the same entry under each. */
  lemma EncodingUnique(hash: Hash, f: Files, g: Files, prefix: Bytes)
    requires Valid(f) && Valid(g) && Encoding(hash, f, prefix) == Encoding(hash, g, prefix)
    ensures Keys(f, prefix) == Keys(g, prefix) && forall k :: k in Keys(f, prefix) ==> SameEntries(hash, f, g, prefix, k)
  {
    hide Valid, Keys, Body, SameEntries, Encode;
    var ks, ls := Sorted(Keys(f, prefix)), Sorted(Keys(g, prefix));
    EncodeUnique(Body(hash, f, prefix, ks), Body(hash, g, prefix, ls));
    BodyUnique(hash, f, g, prefix, ks, ls);
  }

  /** A path below a directory belongs to one of its entries. */
  lemma PathKey(f: Files, prefix: Bytes, p: Bytes)
    requires p in f && prefix <= p
    ensures var k := Key(p[|prefix|..]);
            k in Keys(f, prefix) && prefix + k <= p && (!IsDir(k) ==> p == prefix + k)
  {
    assert p == prefix + p[|prefix|..];
  }

  lemma EntryFile(hash: Hash, f: Files, g: Files, prefix: Bytes, p: Bytes)
    requires p in f && prefix <= p && SameEntries(hash, f, g, prefix, Key(p[|prefix|..]))
    requires IsDir(Key(p[|prefix|..])) ==> AgreeBelow(f, g, prefix + Key(p[|prefix|..]))
    ensures p in g && g[p] == f[p]
  {
    var k := Key(p[|prefix|..]);
    PathKey(f, prefix, p);
    if !IsDir(k) { FileKey(g, prefix, k); }
  }

  /**
   Two sets of files with one tree identity are the same files, or else two different tree objects built from them
   have the same hash.
   */
  lemma {:induction false} Identifies(hash: Hash, f: Files, g: Files, prefix: Bytes)
    requires Valid(f) && Valid(g) && Tree(hash, f, prefix) == Tree(hash, g, prefix)
    ensures AgreeBelow(f, g, prefix) || exists p :: Collision(hash, f, g, p)
    decreases Room(f, prefix)
  {
    hide Valid, Body, Keys, AgreeBelow, SameEntries, Encode, Room;
    if Encoding(hash, f, prefix) != Encoding(hash, g, prefix) {
      assert Collision(hash, f, g, prefix);
    } else if !exists p :: Collision(hash, f, g, p) {
      EncodingUnique(hash, f, g, prefix);
      forall k | k in Keys(f, prefix) && IsDir(k) ensures AgreeBelow(f, g, prefix + k) {
        SubtreeSame(hash, f, g, prefix, k);
        Deeper(f, prefix, k);
        Identifies(hash, f, g, prefix + k);
      }
      AgreeByEntries(hash, f, g, prefix);
    }
  }

  lemma SubtreeSame(hash: Hash, f: Files, g: Files, prefix: Bytes, k: Bytes)
    requires SameEntries(hash, f, g, prefix, k) && IsDir(k)
    ensures Tree(hash, f, prefix + k) == Tree(hash, g, prefix + k)
  {
    hide Tree, Keys;
  }

  lemma AgreeByEntries(hash: Hash, f: Files, g: Files, prefix: Bytes)
    requires Keys(f, prefix) == Keys(g, prefix) && forall k :: k in Keys(f, prefix) ==> SameEntries(hash, f, g, prefix, k)
    requires forall k :: k in Keys(f, prefix) && IsDir(k) ==> AgreeBelow(f, g, prefix + k)
    ensures AgreeBelow(f, g, prefix)
  {
    hide Keys, SameEntries;
    forall p | p in f && prefix <= p ensures p in g && g[p] == f[p] {
      PathKey(f, prefix, p);
      EntryFile(hash, f, g, prefix, p);
    }
    forall p | p in g && prefix <= p ensures p in f && f[p] == g[p] {
      PathKey(g, prefix, p);
      SameBack(hash, f, g, prefix, Key(p[|prefix|..]));
      EntryFile(hash, g, f, prefix, p);
    }
  }

  lemma SameBack(hash: Hash, f: Files, g: Files, prefix: Bytes, key: Bytes)
    requires SameEntries(hash, f, g, prefix, key)
    ensures SameEntries(hash, g, f, prefix, key)
  {
  }

  // ---------------------------------------------------------------- manifests

  datatype Row = Row(path: Bytes, mode: Bytes, oid: Oid)

  /** What a manifest says of each path; the last row of a path counts. */
  function FilesOf(manifest: seq<Row>): Files {
    if manifest == [] then map[]
    else
      var last := manifest[|manifest| - 1];
      FilesOf(manifest[..|manifest| - 1])[last.path := File(last.mode, last.oid)]
  }

  predicate UniquePaths(manifest: seq<Row>) {
    forall i, j :: 0 <= i < j < |manifest| ==> manifest[i].path != manifest[j].path
  }

  /** With no path twice, the files are exactly the rows. */
  lemma {:induction false} FilesAreRows(manifest: seq<Row>)
    requires UniquePaths(manifest)
    ensures forall r :: r in manifest ==> r.path in FilesOf(manifest) && FilesOf(manifest)[r.path] == File(r.mode, r.oid)
    ensures forall p :: p in FilesOf(manifest) ==> Row(p, FilesOf(manifest)[p].mode, FilesOf(manifest)[p].oid) in manifest
  {
    if manifest != [] {
      var rest, last := manifest[..|manifest| - 1], manifest[|manifest| - 1];
      FilesAreRows(rest);
      assert manifest == rest + [last];
    }
  }

  predicate ValidRows(manifest: seq<Row>) {
    forall r :: r in manifest ==> NUL !in r.path && (r.mode == PlainMode || r.mode == ExecutableMode)
  }

  /** The tree identity does not depend on the order of the manifest. */
  lemma OrderIsIrrelevant(hash: Hash, m: seq<Row>, n: seq<Row>)
    requires UniquePaths(m) && UniquePaths(n) && forall r :: r in m <==> r in n
    ensures FilesOf(m) == FilesOf(n) && Tree(hash, FilesOf(m), []) == Tree(hash, FilesOf(n), [])
  {
    hide Tree;
    FilesAreRows(m);
    FilesAreRows(n);
    assert FilesOf(m) == FilesOf(n);
  }

  /** Two valid manifests with one root identity hold the same rows, or two different tree objects collide. */
  lemma ManifestIdentified(hash: Hash, m: seq<Row>, n: seq<Row>)
    requires UniquePaths(m) && UniquePaths(n) && ValidRows(m) && ValidRows(n)
    requires Tree(hash, FilesOf(m), []) == Tree(hash, FilesOf(n), [])
    ensures (FilesOf(m) == FilesOf(n) && forall r :: r in m <==> r in n) ||
            exists p :: Encoding(hash, FilesOf(m), p) != Encoding(hash, FilesOf(n), p) && Tree(hash, FilesOf(m), p) == Tree(hash, FilesOf(n), p)
  {
    hide Tree, UniquePaths, Collision, Encoding;
    FilesAreRows(m);
    FilesAreRows(n);
    var f, g := FilesOf(m), FilesOf(n);
    assert Valid(f) && Valid(g);
    hide FilesOf;
    Identifies(hash, f, g, []);
    if AgreeBelow(f, g, []) {
      assert f == g;
      forall r ensures r in m <==> r in n {
        if r in m { assert Row(r.path, f[r.path].mode, f[r.path].oid) == r; }
        if r in n { assert Row(r.path, g[r.path].mode, g[r.path].oid) == r; }
      }
    } else {
      var p :| Collision(hash, f, g, p);
      Collides(hash, f, g, p);
    }
  }

  lemma Collides(hash: Hash, f: Files, g: Files, prefix: Bytes)
    requires Collision(hash, f, g, prefix)
    ensures Encoding(hash, f, prefix) != Encoding(hash, g, prefix) && Tree(hash, f, prefix) == Tree(hash, g, prefix)
  {
    hide Body, Sorted, Keys, Encode;
  }
}
