/**
 The two ways a candidate's tree identity is computed: recomputed in memory from a manifest, and built directory by
 directory with `git mktree`.  Both are proved to give the identity of the manifest's files.
 */
module GitCapture {
  import opened Common
  import opened GitOrder
  import opened GitTree

  lemma {:induction false} FilesOfNext(manifest: seq<Row>, i: nat)
    requires i < |manifest|
    ensures FilesOf(manifest[..i + 1]) == FilesOf(manifest[..i])[manifest[i].path := File(manifest[i].mode, manifest[i].oid)]
  {
    assert manifest[..i + 1][..i] == manifest[..i];
  }

  lemma KeysNext(files: Files, prefix: Bytes, path: Bytes, file: File)
    ensures Keys(files[path := file], prefix) == Keys(files, prefix) + if prefix <= path then {Key(path[|prefix|..])} else {}
  {
    var after := files[path := file];
    forall k | k in Keys(files, prefix) ensures k in Keys(after, prefix) {
      var p :| p in files && prefix <= p && Key(p[|prefix|..]) == k;
      assert p in after;
    }
    if prefix <= path { assert path in after; }
  }

  /** Sorts a set of byte strings by repeatedly taking the least. */
  method SortKeys(keys: set<Bytes>) returns (q: seq<Bytes>)
    ensures q == Sorted(keys)
  {
    q := [];
    var todo := keys;
    while todo != {}
      invariant todo <= keys && Ascending(q)
      invariant forall k :: k in q <==> k in keys && k !in todo
      invariant forall k, l :: k in q && l in todo ==> Less(k, l)
    {
      LeastExists(todo);
      var m :| m in todo && Least(todo, m);
      q := q + [m];
      todo := todo - {m};
    }
    AscendingUnique(q, Sorted(keys));
  }

  // ---------------------------------------------------------------- in memory

  /** An entry as the recomputation keeps it; a directory has no identity yet. */
  datatype Pending = Pending(mode: Bytes, name: Bytes, oid: Option<Oid>)

  function PendingOf(files: Files, prefix: Bytes, key: Bytes): Pending
    requires key in Keys(files, prefix)
  {
    Pending(ModeOf(files, prefix, key), NameOf(key),
            if IsDir(key) then None else FileKey(files, prefix, key); Some(files[prefix + key].oid))
  }

  predicate Collected(entries: map<Bytes, Pending>, files: Files, prefix: Bytes) {
    entries.Keys == Keys(files, prefix) && forall k :: k in entries ==> entries[k] == PendingOf(files, prefix, k)
  }

  /** One more row, in the dictionary and in the files alike. */
  lemma CollectNext(entries: map<Bytes, Pending>, files: Files, prefix: Bytes, row: Row, k: Bytes, entry: Pending)
    requires Collected(entries, files, prefix) && prefix <= row.path && k == Key(row.path[|prefix|..])
    requires entry == (if IsDir(k) then Pending(DirMode, NameOf(k), None) else Pending(row.mode, k, Some(row.oid)))
    ensures Collected(entries[k := entry], files[row.path := File(row.mode, row.oid)], prefix)
  {
    hide Keys, Key;
    var after := files[row.path := File(row.mode, row.oid)];
    KeysNext(files, prefix, row.path, File(row.mode, row.oid));
    assert !IsDir(k) ==> prefix + k == row.path by { WholePath(prefix, row.path); }
    forall l | l in Keys(files, prefix) && l != k ensures PendingOf(after, prefix, l) == PendingOf(files, prefix, l) {
      if !IsDir(l) { OtherFile(files, prefix, l, row.path, k); }
    }
  }

  lemma WholePath(prefix: Bytes, path: Bytes)
    requires prefix <= path
    ensures !IsDir(Key(path[|prefix|..])) ==> prefix + Key(path[|prefix|..]) == path
  {
    assert path == prefix + path[|prefix|..];
  }

  lemma OtherFile(files: Files, prefix: Bytes, l: Bytes, path: Bytes, k: Bytes)
    requires prefix <= path && k == Key(path[|prefix|..]) && l != k && !IsDir(l) && l in Keys(files, prefix)
    ensures prefix + l != path && prefix + l in files
  {
    FileKey(files, prefix, l);
    assert (prefix + l)[|prefix|..] == l;
    var p :| p in files && prefix <= p && Key(p[|prefix|..]) == l;
    assert SLASH !in l;
  }

  lemma CollectSkip(entries: map<Bytes, Pending>, files: Files, prefix: Bytes, row: Row)
    requires Collected(entries, files, prefix) && !(prefix <= row.path)
    ensures Collected(entries, files[row.path := File(row.mode, row.oid)], prefix)
  {
    var after := files[row.path := File(row.mode, row.oid)];
    KeysNext(files, prefix, row.path, File(row.mode, row.oid));
    hide Keys;
    forall k | k in Keys(files, prefix) ensures PendingOf(after, prefix, k) == PendingOf(files, prefix, k) {
      if !IsDir(k) { FileKey(files, prefix, k); }
    }
  }

  /** Splits a path at its first slash. */
  method Partition(suffix: Bytes) returns (name: Bytes, separator: bool)
    ensures separator <==> SLASH in suffix
    ensures Key(suffix) == if separator then name + [SLASH] else name
    ensures NameOf(Key(suffix)) == name
  {
    var i := 0;
    while i < |suffix| && suffix[i] != SLASH
      invariant i <= |suffix| && SLASH !in suffix[..i]
    {
      i := i + 1;
    }
    KeyAt(suffix, i);
    return suffix[..i], i < |suffix|;
  }

  lemma {:induction false} KeyAt(suffix: Bytes, i: nat)
    requires i <= |suffix| && SLASH !in suffix[..i] && (i < |suffix| ==> suffix[i] == SLASH)
    ensures Key(suffix) == if i < |suffix| then suffix[..i + 1] else suffix
    ensures NameOf(Key(suffix)) == suffix[..i] && (SLASH in suffix <==> i < |suffix|)
  {
    if i > 0 {
      assert suffix[0] == suffix[..i][0];
      assert suffix[1..][..i - 1] == suffix[..i][1..];
      KeyAt(suffix[1..], i - 1);
      assert suffix == [suffix[0]] + suffix[1..];
    }
  }

  /** The entries of one directory, collected in a dictionary. */
  method Collect(manifest: seq<Row>, prefix: Bytes) returns (entries: map<Bytes, Pending>)
    ensures Collected(entries, FilesOf(manifest), prefix)
  {
    entries := map[];
    for i := 0 to |manifest|
      invariant Collected(entries, FilesOf(manifest[..i]), prefix)
    {
      hide Collected, FilesOf, Key;
      var row := manifest[i];
      FilesOfNext(manifest, i);
      if prefix <= row.path {
        var name, separator := Partition(row.path[|prefix|..]);
        var key := if separator then name + [SLASH] else name;
        var entry := if separator then Pending(DirMode, name, None) else Pending(row.mode, name, Some(row.oid));
        CollectNext(entries, FilesOf(manifest[..i]), prefix, row, key, entry);
        entries := entries[key := entry];
      } else {
        CollectSkip(entries, FilesOf(manifest[..i]), prefix, row);
      }
    }
    assert manifest[..|manifest|] == manifest;
  }

  /** The next line of a tree object's body. */
  lemma BodyStep(hash: Hash, files: Files, prefix: Bytes, keys: seq<Bytes>, i: nat, body: Bytes, id: Oid)
    requires i < |keys| && forall k :: k in keys ==> k in Keys(files, prefix)
    requires body + Body(hash, files, prefix, keys[i..]) == Body(hash, files, prefix, keys)
    requires id == OidOf(hash, files, prefix, keys[i])
    ensures body + Line(ModeOf(files, prefix, keys[i]), NameOf(keys[i]), id) + Body(hash, files, prefix, keys[i + 1..]) ==
            Body(hash, files, prefix, keys)
  {
    hide Keys, ModeOf, NameOf, OidOf, Line;
    assert keys[i..][1..] == keys[i + 1..] && keys[i..][0] == keys[i];
    var line := Line(ModeOf(files, prefix, keys[i]), NameOf(keys[i]), id);
    assert Body(hash, files, prefix, keys[i..]) == line + Body(hash, files, prefix, keys[i + 1..]);
    assert body + line + Body(hash, files, prefix, keys[i + 1..]) == body + (line + Body(hash, files, prefix, keys[i + 1..]));
  }

  lemma SubTree(hash: Hash, files: Files, prefix: Bytes, key: Bytes)
    requires key in Keys(files, prefix) && IsDir(key)
    ensures OidOf(hash, files, prefix, key) == Tree(hash, files, prefix + key)
    ensures Room(files, prefix + key) < Room(files, prefix) && prefix + NameOf(key) + [SLASH] == prefix + key
  {
    hide Keys, Tree, Room;
    Deeper(files, prefix, key);
    assert NameOf(key) + [SLASH] == key;
  }

  lemma WholeBody(hash: Hash, files: Files, prefix: Bytes, keys: seq<Bytes>, body: Bytes)
    requires keys == Sorted(Keys(files, prefix)) && body + Body(hash, files, prefix, []) == Body(hash, files, prefix, keys)
    ensures hash(Encode(body)) == Tree(hash, files, prefix)
  {
    hide Keys, Encode;
    assert body + [] == body;
  }

  /** The identity recomputed from a manifest, without Git. */
  method TreeHash(hash: Hash, manifest: seq<Row>, prefix: Bytes) returns (oid: Oid)
    ensures oid == Tree(hash, FilesOf(manifest), prefix)
    decreases Room(FilesOf(manifest), prefix)
  {
    hide FilesOf, Keys, Room, Tree, Body, OidOf, ModeOf, NameOf, IsDir, Line, Encode;
    ghost var files := FilesOf(manifest);
    var entries := Collect(manifest, prefix);
    var keys := SortKeys(entries.Keys);
    var body := [];
    for i := 0 to |keys|
      invariant body + Body(hash, files, prefix, keys[i..]) == Body(hash, files, prefix, keys)
    {
      var key := keys[i];
      assert key in keys;
      var entry := entries[key];
      var id: Oid;
      if entry.oid.Some? {
        id := entry.oid.value;
        FileOid(hash, files, prefix, key);
      } else {
        SubTree(hash, files, prefix, key);
        id := TreeHash(hash, manifest, prefix + entry.name + [SLASH]);
      }
      BodyStep(hash, files, prefix, keys, i, body, id);
      body := body + Line(entry.mode, entry.name, id);
    }
    assert keys[|keys|..] == [];
    WholeBody(hash, files, prefix, keys, body);
    return hash(Encode(body));
  }

  lemma FileOid(hash: Hash, files: Files, prefix: Bytes, key: Bytes)
    requires key in Keys(files, prefix)
    ensures PendingOf(files, prefix, key).oid.Some? ==> OidOf(hash, files, prefix, key) == PendingOf(files, prefix, key).oid.value
    ensures PendingOf(files, prefix, key).oid.None? <==> IsDir(key)
  {
    hide Keys, Tree;
  }

  // ---------------------------------------------------------------- with Git

  /** One line of the input of `git mktree`. */
  datatype Listed = Listed(mode: Bytes, name: Bytes, oid: Oid, tree: bool)

  /** Git compares the names of entries with a slash appended to those of trees. */
  function SortKey(l: Listed): Bytes {
    if l.tree then l.name + [SLASH] else l.name
  }

  function Insert(l: Listed, q: seq<Listed>): seq<Listed> {
    if q == [] || Less(SortKey(l), SortKey(q[0])) then [l] + q else [q[0]] + Insert(l, q[1..])
  }

  function SortLines(lines: seq<Listed>): seq<Listed> {
    if lines == [] then [] else Insert(lines[|lines| - 1], SortLines(lines[..|lines| - 1]))
  }

  function Joined(lines: seq<Listed>): Bytes {
    if lines == [] then [] else Line(lines[0].mode, lines[0].name, lines[0].oid) + Joined(lines[1..])
  }

  /** `git mktree`: the lines in tree order, as one tree object. */
  function MkTree(hash: Hash, lines: seq<Listed>): Oid {
    hash(Encode(Joined(SortLines(lines))))
  }

  function SortKeysOf(lines: seq<Listed>): seq<Bytes> {
    seq(|lines|, i requires 0 <= i < |lines| => SortKey(lines[i]))
  }

  predicate DistinctKeys(lines: seq<Listed>) {
    forall i, j :: 0 <= i < j < |lines| ==> SortKey(lines[i]) != SortKey(lines[j])
  }

  lemma {:induction false} InsertSorts(l: Listed, q: seq<Listed>)
    requires Ascending(SortKeysOf(q)) && forall m :: m in q ==> SortKey(m) != SortKey(l)
    ensures Ascending(SortKeysOf(Insert(l, q)))
    ensures forall m :: m in Insert(l, q) <==> m == l || m in q
  {
    if q == [] {
      assert Insert(l, q) == [l];
    } else if Less(SortKey(l), SortKey(q[0])) {
      assert Insert(l, q) == [l] + q;
      forall j | 0 <= j < |q| ensures Less(SortKey(l), SortKey(q[j])) {
        if j > 0 {
          assert Less(SortKeysOf(q)[0], SortKeysOf(q)[j]);
          LessTransitive(SortKey(l), SortKey(q[0]), SortKey(q[j]));
        }
      }
      Prepend(l, q);
    } else {
      var rest := q[1..];
      assert SortKeysOf(rest) == SortKeysOf(q)[1..];
      assert q == [q[0]] + rest;
      assert forall m :: m in q <==> m == q[0] || m in rest;
      InsertSorts(l, rest);
      LessTotal(SortKey(l), SortKey(q[0]));
      var r := Insert(l, rest);
      forall j | 0 <= j < |r| ensures Less(SortKey(q[0]), SortKey(r[j])) {
        if r[j] != l {
          assert r[j] in rest;
          var i :| 0 <= i < |rest| && rest[i] == r[j];
          assert Less(SortKeysOf(q)[0], SortKeysOf(q)[i + 1]);
        }
      }
      Prepend(q[0], r);
    }
  }

  lemma Prepend(l: Listed, q: seq<Listed>)
    requires Ascending(SortKeysOf(q)) && forall j :: 0 <= j < |q| ==> Less(SortKey(l), SortKey(q[j]))
    ensures Ascending(SortKeysOf([l] + q))
  {
    var all := SortKeysOf([l] + q);
    forall i, j | 0 <= i < j < |all| ensures Less(all[i], all[j]) {
      if i == 0 {
        assert all[j] == SortKey(q[j - 1]);
      } else {
        assert all[i] == SortKeysOf(q)[i - 1] && all[j] == SortKeysOf(q)[j - 1];
      }
    }
  }

  lemma {:induction false} SortLinesSorts(lines: seq<Listed>)
    requires DistinctKeys(lines)
    ensures Ascending(SortKeysOf(SortLines(lines)))
    ensures forall m :: m in SortLines(lines) <==> m in lines
  {
    if lines != [] {
      var rest, last := lines[..|lines| - 1], lines[|lines| - 1];
      assert lines == rest + [last];
      SortLinesSorts(rest);
      forall m | m in SortLines(rest) ensures SortKey(m) != SortKey(last) { assert m in rest; }
      InsertSorts(last, SortLines(rest));
    }
  }

  /** The line of an entry of a directory. */
  ghost function ListedOf(hash: Hash, files: Files, prefix: Bytes, key: Bytes): Listed
    requires key in Keys(files, prefix)
  {
    Listed(ModeOf(files, prefix, key), NameOf(key), OidOf(hash, files, prefix, key), IsDir(key))
  }

  lemma SortKeyIsKey(hash: Hash, files: Files, prefix: Bytes, key: Bytes)
    requires key in Keys(files, prefix)
    ensures SortKey(ListedOf(hash, files, prefix, key)) == key
  {
    hide Keys, ModeOf, OidOf;
    if IsDir(key) { assert NameOf(key) + [SLASH] == key; }
  }

  lemma {:induction false} JoinedIsBody(hash: Hash, files: Files, prefix: Bytes, lines: seq<Listed>, keys: seq<Bytes>)
    requires |keys| == |lines| && forall k :: k in keys ==> k in Keys(files, prefix)
    requires forall i :: 0 <= i < |lines| ==> lines[i] == ListedOf(hash, files, prefix, keys[i])
    ensures Joined(lines) == Body(hash, files, prefix, keys)
  {
    hide Keys, ModeOf, OidOf, NameOf, IsDir, Line;
    if lines != [] { JoinedIsBody(hash, files, prefix, lines[1..], keys[1..]); }
  }

  /** The lines are exactly those of the directory's entries, each once. */
  ghost predicate Complete(hash: Hash, files: Files, prefix: Bytes, lines: seq<Listed>) {
    && DistinctKeys(lines)
    && (forall l :: l in lines ==> SortKey(l) in Keys(files, prefix) && l == ListedOf(hash, files, prefix, SortKey(l)))
    && (forall k :: k in Keys(files, prefix) ==> ListedOf(hash, files, prefix, k) in lines)
  }

  /** Given all the lines of a directory, in any order, `mktree` gives its identity. */
  lemma MkTreeIsTree(hash: Hash, files: Files, prefix: Bytes, lines: seq<Listed>)
    requires Complete(hash, files, prefix, lines)
    ensures MkTree(hash, lines) == Tree(hash, files, prefix)
  {
    hide Keys, Encode, ListedOf, DistinctKeys, SortLines, Joined, Body;
    var sorted := SortLines(lines);
    SortLinesSorts(lines);
    var keys := SortKeysOf(sorted);
    forall k ensures k in keys <==> k in Keys(files, prefix) {
      if k in Keys(files, prefix) {
        SortKeyIsKey(hash, files, prefix, k);
        var l := ListedOf(hash, files, prefix, k);
        assert l in sorted;
        var i :| 0 <= i < |sorted| && sorted[i] == l;
        assert keys[i] == k;
      }
      if k in keys {
        var i :| 0 <= i < |keys| && keys[i] == k;
        assert sorted[i] in lines;
      }
    }
    AscendingUnique(keys, Sorted(Keys(files, prefix)));
    forall i | 0 <= i < |sorted| ensures sorted[i] == ListedOf(hash, files, prefix, keys[i]) {
      assert sorted[i] in lines && keys[i] in keys;
    }
    JoinedIsBody(hash, files, prefix, sorted, keys);
  }

  // ---------------------------------------------------------------- building bottom-up

  function FileLine(files: Files, prefix: Bytes, name: Bytes): Listed
    requires prefix + name in files
  {
    Listed(files[prefix + name].mode, name, files[prefix + name].oid, false)
  }

  /** After the pass over the manifest: a line for every file and a name for every subdirectory. */
  predicate Sifted(files: Files, prefix: Bytes, lines: seq<Listed>, dirs: set<Bytes>) {
    && DistinctKeys(lines)
    && (forall l :: l in lines ==>
          l.name in Keys(files, prefix) && !IsDir(l.name) && prefix + l.name in files && l == FileLine(files, prefix, l.name))
    && (forall k :: k in Keys(files, prefix) && !IsDir(k) ==> prefix + k in files && FileLine(files, prefix, k) in lines)
    && (forall n :: n in dirs ==> n + [SLASH] in Keys(files, prefix))
    && (forall k :: k in Keys(files, prefix) && IsDir(k) ==> NameOf(k) in dirs)
  }

  lemma SiftSkip(files: Files, prefix: Bytes, lines: seq<Listed>, dirs: set<Bytes>, path: Bytes, file: File)
    requires Sifted(files, prefix, lines, dirs) && !(prefix <= path)
    ensures Sifted(files[path := file], prefix, lines, dirs)
  {
    KeysNext(files, prefix, path, file);
    hide Keys, DistinctKeys, IsDir;
  }

  lemma SiftDir(files: Files, prefix: Bytes, lines: seq<Listed>, dirs: set<Bytes>, path: Bytes, file: File, name: Bytes)
    requires Sifted(files, prefix, lines, dirs) && prefix <= path && Key(path[|prefix|..]) == name + [SLASH] && path !in files
    ensures Sifted(files[path := file], prefix, lines, dirs + {name})
  {
    KeysNext(files, prefix, path, file);
    hide Keys, DistinctKeys;
    assert IsDir(name + [SLASH]) && NameOf(name + [SLASH]) == name;
  }

  lemma SiftFile(files: Files, prefix: Bytes, lines: seq<Listed>, dirs: set<Bytes>, path: Bytes, file: File, name: Bytes)
    requires Sifted(files, prefix, lines, dirs) && prefix <= path && Key(path[|prefix|..]) == name && !IsDir(name) && path !in files
    ensures Sifted(files[path := file], prefix, lines + [Listed(file.mode, name, file.oid, false)], dirs)
  {
    KeysNext(files, prefix, path, file);
    WholePath(prefix, path);
    hide Keys;
    var line := Listed(file.mode, name, file.oid, false);
    forall l | l in lines ensures SortKey(l) != name && prefix + l.name != path { }
    assert DistinctKeys(lines + [line]);
    hide DistinctKeys;
    forall k | k in Keys(files[path := file], prefix) && !IsDir(k)
      ensures prefix + k in files[path := file] && FileLine(files[path := file], prefix, k) in lines + [line]
    {
      if k != name { assert FileLine(files, prefix, k) in lines; }
    }
  }

  lemma {:induction false} NewPath(manifest: seq<Row>, i: nat)
    requires UniquePaths(manifest) && i < |manifest|
    ensures manifest[i].path !in FilesOf(manifest[..i])
  {
    FilesAreRows(manifest[..i]);
    assert forall r :: r in manifest[..i] ==> r.path != manifest[i].path;
  }

  /** The pass over the manifest for one directory. */
  method Sift(manifest: seq<Row>, prefix: Bytes) returns (lines: seq<Listed>, dirs: set<Bytes>)
    requires UniquePaths(manifest)
    ensures Sifted(FilesOf(manifest), prefix, lines, dirs)
  {
    lines, dirs := [], {};
    for i := 0 to |manifest|
      invariant Sifted(FilesOf(manifest[..i]), prefix, lines, dirs)
    {
      hide Sifted, FilesOf, Key, UniquePaths;
      var row := manifest[i];
      FilesOfNext(manifest, i);
      NewPath(manifest, i);
      ghost var files := FilesOf(manifest[..i]);
      if prefix <= row.path {
        var name, separator := Partition(row.path[|prefix|..]);
        if separator {
          SiftDir(files, prefix, lines, dirs, row.path, File(row.mode, row.oid), name);
          dirs := dirs + {name};
        } else {
          SiftFile(files, prefix, lines, dirs, row.path, File(row.mode, row.oid), name);
          lines := lines + [Listed(row.mode, name, row.oid, false)];
        }
      } else {
        SiftSkip(files, prefix, lines, dirs, row.path, File(row.mode, row.oid));
      }
    }
    assert manifest[..|manifest|] == manifest;
  }

  ghost predicate LinesRight(hash: Hash, files: Files, prefix: Bytes, lines: seq<Listed>) {
    forall l :: l in lines ==> SortKey(l) in Keys(files, prefix) && l == ListedOf(hash, files, prefix, SortKey(l))
  }

  ghost predicate AllListed(hash: Hash, files: Files, prefix: Bytes, lines: seq<Listed>, todo: seq<Bytes>) {
    forall k :: k in Keys(files, prefix) ==> ListedOf(hash, files, prefix, k) in lines || (IsDir(k) && NameOf(k) in todo)
  }

  predicate Unlisted(lines: seq<Listed>, todo: seq<Bytes>) {
    forall l, n :: l in lines && n in todo ==> SortKey(l) != n + [SLASH]
  }

  predicate Subdirectories(files: Files, prefix: Bytes, todo: seq<Bytes>) {
    forall n :: n in todo ==> n + [SLASH] in Keys(files, prefix)
  }

  /** The lines so far, with the subdirectories still to build. */
  ghost predicate Built(hash: Hash, files: Files, prefix: Bytes, lines: seq<Listed>, todo: seq<Bytes>) {
    && DistinctKeys(lines) && LinesRight(hash, files, prefix, lines) && AllListed(hash, files, prefix, lines, todo)
    && Unlisted(lines, todo) && Subdirectories(files, prefix, todo)
  }

  lemma FileListed(hash: Hash, files: Files, prefix: Bytes, k: Bytes)
    requires k in Keys(files, prefix) && !IsDir(k)
    ensures prefix + k in files && ListedOf(hash, files, prefix, k) == FileLine(files, prefix, k)
    ensures SortKey(FileLine(files, prefix, k)) == k
  {
    hide Keys;
    FileKey(files, prefix, k);
  }

  lemma StartBuilding(hash: Hash, files: Files, prefix: Bytes, lines: seq<Listed>, dirs: set<Bytes>)
    requires Sifted(files, prefix, lines, dirs)
    ensures Built(hash, files, prefix, lines, Sorted(dirs))
  {
    hide Keys, DistinctKeys, ListedOf, FileLine, IsDir, NameOf, SortKey;
    var todo := Sorted(dirs);
    forall l | l in lines
      ensures SortKey(l) == l.name && SortKey(l) in Keys(files, prefix) && l == ListedOf(hash, files, prefix, SortKey(l))
    {
      FileListed(hash, files, prefix, l.name);
    }
    forall k | k in Keys(files, prefix)
      ensures ListedOf(hash, files, prefix, k) in lines || (IsDir(k) && NameOf(k) in todo)
    {
      if !IsDir(k) { FileListed(hash, files, prefix, k); }
    }
    forall l, n | l in lines && n in todo ensures SortKey(l) != n + [SLASH] {
      SlashIsDir(n);
    }
  }

  lemma SlashIsDir(n: Bytes)
    ensures IsDir(n + [SLASH]) && NameOf(n + [SLASH]) == n
  {
  }

  lemma DirListed(hash: Hash, files: Files, prefix: Bytes, name: Bytes)
    requires name + [SLASH] in Keys(files, prefix)
    ensures ListedOf(hash, files, prefix, name + [SLASH]) ==
            Listed(DirMode, name, Tree(hash, files, prefix + name + [SLASH]), true)
  {
    hide Keys, Tree;
    SlashIsDir(name);
    assert prefix + name + [SLASH] == prefix + (name + [SLASH]);
  }

  lemma BuildOne(hash: Hash, files: Files, prefix: Bytes, lines: seq<Listed>, name: Bytes, todo: seq<Bytes>, id: Oid)
    requires Built(hash, files, prefix, lines, [name] + todo) && Ascending([name] + todo)
    requires id == Tree(hash, files, prefix + name + [SLASH])
    ensures Built(hash, files, prefix, lines + [Listed(DirMode, name, id, true)], todo)
  {
    hide Keys, Tree, ListedOf, IsDir, NameOf;
    var key, line, all := name + [SLASH], Listed(DirMode, name, id, true), [name] + todo;
    assert all[0] == name && name in all && forall n :: n in todo ==> n in all;
    DirListed(hash, files, prefix, name);
    SlashIsDir(name);
    assert SortKey(line) == key && line == ListedOf(hash, files, prefix, key);
    assert DistinctKeys(lines + [line]);
    hide DistinctKeys, SortKey;
    assert LinesRight(hash, files, prefix, lines + [line]);
    forall n | n in todo ensures n + [SLASH] != key {
      OtherName(name, todo, n);
    }
    assert Unlisted(lines + [line], todo);
    hide Unlisted, LinesRight;
    forall k | k in Keys(files, prefix)
      ensures ListedOf(hash, files, prefix, k) in lines + [line] || (IsDir(k) && NameOf(k) in todo)
    {
      if IsDir(k) && NameOf(k) == name { NameDetermines(k, key); }
    }
  }

  lemma OtherName(name: Bytes, todo: seq<Bytes>, n: Bytes)
    requires Ascending([name] + todo) && n in todo
    ensures n + [SLASH] != name + [SLASH]
  {
    var i :| 0 <= i < |todo| && todo[i] == n;
    assert Less(([name] + todo)[0], ([name] + todo)[i + 1]);
    LessIrreflexive(name);
    assert (n + [SLASH])[..|n|] == n && (name + [SLASH])[..|name|] == name;
  }

  /** The identity of one directory, built with `git mktree` from the bottom up. */
  method Build(hash: Hash, manifest: seq<Row>, prefix: Bytes) returns (oid: Oid)
    requires UniquePaths(manifest)
    ensures oid == Tree(hash, FilesOf(manifest), prefix)
    decreases Room(FilesOf(manifest), prefix)
  {
    hide Sifted, FilesOf, Keys, Room, Tree, UniquePaths, MkTree, Built, Complete, Less, Ascending;
    ghost var files := FilesOf(manifest);
    var lines, dirs := Sift(manifest, prefix);
    StartBuilding(hash, files, prefix, lines, dirs);
    var names := SortKeys(dirs);
    assert names[0..] == names;
    for i := 0 to |names|
      invariant Built(hash, files, prefix, lines, names[i..])
    {
      var name := names[i];
      assert names[i..] == [name] + names[i + 1..];
      AscendingFrom(names, i);
      IsSubdirectory(hash, files, prefix, lines, names[i..], name);
      var id := Build(hash, manifest, prefix + name + [SLASH]);
      BuildOne(hash, files, prefix, lines, name, names[i + 1..], id);
      lines := lines + [Listed(DirMode, name, id, true)];
    }
    assert names[|names|..] == [];
    assert Complete(hash, files, prefix, lines) by { AllBuilt(hash, files, prefix, lines); }
    MkTreeIsTree(hash, files, prefix, lines);
    return MkTree(hash, lines);
  }

  lemma AscendingFrom(q: seq<Bytes>, i: nat)
    requires Ascending(q) && i <= |q|
    ensures Ascending(q[i..])
  {
  }

  lemma IsSubdirectory(hash: Hash, files: Files, prefix: Bytes, lines: seq<Listed>, todo: seq<Bytes>, name: Bytes)
    requires Built(hash, files, prefix, lines, todo) && name in todo
    ensures Room(files, prefix + name + [SLASH]) < Room(files, prefix)
  {
    hide Keys, Room;
    Deeper(files, prefix, name + [SLASH]);
    assert prefix + name + [SLASH] == prefix + (name + [SLASH]);
  }

  lemma AllBuilt(hash: Hash, files: Files, prefix: Bytes, lines: seq<Listed>)
    requires Built(hash, files, prefix, lines, [])
    ensures Complete(hash, files, prefix, lines)
  {
    hide Keys, DistinctKeys, ListedOf;
  }
}
