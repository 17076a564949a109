/**
 The bytes of a tree object, written out: what is hashed for a directory, and in which order.
 */
module GitMeaning {
  import opened Common
  import opened GitOrder
  import opened GitTree

  /** The codes of an ASCII text. */
  function Ascii(s: string): (b: Bytes)
    requires forall i :: 0 <= i < |s| ==> s[i] < 128 as char
    ensures |b| == |s| && forall i :: 0 <= i < |s| ==> b[i] == s[i] as int
  {
    seq(|s|, i requires 0 <= i < |s| => s[i] as int)
  }

  lemma NamesAreAscii()
    ensures DirMode == Ascii("40000") && PlainMode == Ascii("100644") && ExecutableMode == Ascii("100755")
    ensures TreeTag == Ascii("tree ") && [SPACE] == Ascii(" ") && [SLASH] == Ascii("/") && NUL == 0
  {
  }

  // ---------------------------------------------------------------- order

  /** The strings agree on the first `n` bytes; then the first one ends, or has the smaller byte. */
  predicate SplitsAt(a: Bytes, b: Bytes, n: int) {
    0 <= n <= |a| && n < |b| && a[..n] == b[..n] && (n == |a| || a[n] < b[n])
  }

  ghost predicate Precedes(a: Bytes, b: Bytes) {
    exists n :: SplitsAt(a, b, n)
  }

  lemma {:induction false} LessExactly(a: Bytes, b: Bytes)
    ensures Less(a, b) <==> Precedes(a, b)
  {
    if a == [] {
      if b != [] { assert SplitsAt(a, b, 0); }
    } else if b != [] {
      if a[0] < b[0] { assert SplitsAt(a, b, 0); }
      if a[0] == b[0] {
        LessExactly(a[1..], b[1..]);
        if Less(a, b) {
          var n :| SplitsAt(a[1..], b[1..], n);
          assert a[..n + 1] == [a[0]] + a[1..][..n] && b[..n + 1] == [b[0]] + b[1..][..n];
          assert SplitsAt(a, b, n + 1);
        }
      }
      if n :| SplitsAt(a, b, n) {
        if n > 0 {
          assert a[0] == a[..n][0] && b[0] == b[..n][0];
          assert a[1..][..n - 1] == a[..n][1..] && b[1..][..n - 1] == b[..n][1..];
          assert SplitsAt(a[1..], b[1..], n - 1);
        }
      }
    }
  }

  // ---------------------------------------------------------------- numbers

  /** The number that decimal digits stand for. */
  function Number(d: Bytes): int {
    if d == [] then 0 else Number(d[..|d| - 1]) * 10 + (d[|d| - 1] - '0' as int)
  }

  lemma {:induction false} DecimalExactly(n: nat)
    ensures Number(Decimal(n)) == n
    ensures |Decimal(n)| > 1 ==> Decimal(n)[0] != '0' as int
    ensures n > 0 ==> Decimal(n)[0] != '0' as int
  {
    if n >= 10 {
      DecimalExactly(n / 10);
      var d := Decimal(n);
      assert d[..|d| - 1] == Decimal(n / 10);
    } else {
      assert Decimal(n)[..0] == [];
    }
  }

  // ---------------------------------------------------------------- entries

  /** A file `k` of the directory, or a subdirectory `k` ending in its slash. */
  predicate IsEntry(files: Files, prefix: Bytes, k: Bytes) {
    || (prefix + k in files && SLASH !in k)
    || (k != [] && k[|k| - 1] == SLASH && SLASH !in k[..|k| - 1] && exists p :: p in files && prefix + k <= p)
  }

  /** The entries of a directory are its files and, each once, its subdirectories. */
  lemma KeysExactly(files: Files, prefix: Bytes, k: Bytes)
    ensures k in Keys(files, prefix) <==> IsEntry(files, prefix, k)
  {
    hide IsEntry, Keys;
    if k in Keys(files, prefix) { KeyIsEntry(files, prefix, k); }
    if IsEntry(files, prefix, k) { EntryIsKey(files, prefix, k); }
  }

  lemma KeyIsEntry(files: Files, prefix: Bytes, k: Bytes)
    requires k in Keys(files, prefix)
    ensures IsEntry(files, prefix, k)
  {
    var p :| p in files && prefix <= p && Key(p[|prefix|..]) == k;
    var suffix := p[|prefix|..];
    assert p == prefix + suffix;
    assert k <= suffix && (IsDir(k) <==> SLASH in suffix) && (SLASH !in suffix ==> k == suffix);
    assert forall i :: 0 <= i < |k| && k[i] == SLASH ==> i == |k| - 1;
    hide Key;
    if SLASH in suffix { assert prefix + k <= p; }
  }

  lemma EntryIsKey(files: Files, prefix: Bytes, k: Bytes)
    requires IsEntry(files, prefix, k)
    ensures k in Keys(files, prefix)
  {
    hide Key;
    if prefix + k in files && SLASH !in k {
      IsKey(files, prefix, prefix + k);
      assert (prefix + k)[|prefix|..] == k;
    } else {
      var p :| p in files && prefix + k <= p;
      assert p[..|prefix|] == (prefix + k)[..|prefix|] == prefix;
      assert p[|prefix|..][..|k|] == (prefix + k)[|prefix|..] == k;
      KeyOfDir(k, p[|prefix|..]);
      IsKey(files, prefix, p);
    }
  }

  lemma IsKey(files: Files, prefix: Bytes, p: Bytes)
    requires p in files && prefix <= p
    ensures Key(p[|prefix|..]) in Keys(files, prefix)
  {
    hide Key;
  }

  lemma {:induction false} KeyOfDir(k: Bytes, suffix: Bytes)
    requires k != [] && k[|k| - 1] == SLASH && SLASH !in k[..|k| - 1] && k <= suffix
    ensures Key(suffix) == k
  {
    if |k| == 1 {
      assert k == [SLASH] && suffix[0] == k[0];
    } else {
      assert k[0] == k[..|k| - 1][0] && suffix[0] == k[0];
      assert k[1..][..|k| - 2] == k[..|k| - 1][1..];
      KeyOfDir(k[1..], suffix[1..]);
      assert k == [k[0]] + k[1..];
    }
  }

  /** What is written for an entry: mode, blank, name, zero byte and the twenty bytes of its identity. */
  ghost predicate IsLine(hash: Hash, files: Files, prefix: Bytes, k: Bytes, line: Bytes) {
    if k != [] && k[|k| - 1] == SLASH
    then line == Ascii("40000") + Ascii(" ") + k[..|k| - 1] + [0] + Tree(hash, files, prefix + k)
    else prefix + k in files && line == files[prefix + k].mode + Ascii(" ") + k + [0] + files[prefix + k].oid
  }

  function Concat(lines: seq<Bytes>): Bytes {
    if lines == [] then [] else lines[0] + Concat(lines[1..])
  }

  ghost predicate AreLines(hash: Hash, files: Files, prefix: Bytes, keys: seq<Bytes>, lines: seq<Bytes>) {
    |lines| == |keys| && forall i :: 0 <= i < |keys| ==> IsLine(hash, files, prefix, keys[i], lines[i])
  }

  lemma EntryExactly(hash: Hash, files: Files, prefix: Bytes, k: Bytes)
    requires k in Keys(files, prefix)
    ensures IsLine(hash, files, prefix, k, Entry(hash, files, prefix, k))
  {
    hide Tree;
    NamesAreAscii();
    if IsDir(k) { Deeper(files, prefix, k); } else { FileKey(files, prefix, k); }
  }

  lemma {:induction false} BodyExactly(hash: Hash, files: Files, prefix: Bytes, keys: seq<Bytes>) returns (lines: seq<Bytes>)
    requires forall k :: k in keys ==> k in Keys(files, prefix)
    ensures AreLines(hash, files, prefix, keys, lines) && Concat(lines) == Body(hash, files, prefix, keys)
  {
    hide IsLine, Entry;
    lines := [];
    if keys != [] {
      var rest := BodyExactly(hash, files, prefix, keys[1..]);
      EntryExactly(hash, files, prefix, keys[0]);
      lines := [Entry(hash, files, prefix, keys[0])] + rest;
      assert lines[1..] == rest;
      forall i | 0 <= i < |keys| ensures IsLine(hash, files, prefix, keys[i], lines[i]) {
        if i > 0 { assert keys[i] == keys[1..][i - 1] && lines[i] == rest[i - 1]; }
      }
    }
  }

  /** The entries in order, their lines, and the length of the lines in digits. */
  ghost predicate IsObject(hash: Hash, files: Files, prefix: Bytes, keys: seq<Bytes>, lines: seq<Bytes>, digits: Bytes) {
    && (forall k :: k in keys <==> IsEntry(files, prefix, k))
    && (forall i, j :: 0 <= i < j < |keys| ==> Precedes(keys[i], keys[j]))
    && AreLines(hash, files, prefix, keys, lines)
    && Number(digits) == |Concat(lines)| && (forall i :: 0 <= i < |digits| ==> '0' as int <= digits[i] <= '9' as int)
    && (|digits| > 1 ==> digits[0] != '0' as int)
  }

  /**
   The identity of a directory is the hash of the word `tree`, a blank, the length of the rest in decimal digits, a zero
   byte, and a line for each of its entries, in ascending order of their bytes with the slash of a subdirectory counted.
   */
  lemma ObjectExactly(hash: Hash, files: Files, prefix: Bytes)
    ensures exists keys, lines, digits :: IsObject(hash, files, prefix, keys, lines, digits) &&
              Tree(hash, files, prefix) == hash(Ascii("tree ") + digits + [0] + Concat(lines))
  {
    hide IsEntry, Precedes, AreLines, Keys, Concat, Tree, Number, Decimal, Less, Sorted, Body;
    var keys := Sorted(Keys(files, prefix));
    forall k ensures k in keys <==> IsEntry(files, prefix, k) { KeysExactly(files, prefix, k); }
    forall i, j | 0 <= i < j < |keys| ensures Precedes(keys[i], keys[j]) { LessExactly(keys[i], keys[j]); }
    var lines := BodyExactly(hash, files, prefix, keys);
    var digits := Decimal(|Concat(lines)|);
    DecimalExactly(|Concat(lines)|);
    HashedBytes(hash, files, prefix, Concat(lines));
    assert IsObject(hash, files, prefix, keys, lines, digits);
  }

  lemma HashedBytes(hash: Hash, files: Files, prefix: Bytes, body: Bytes)
    requires body == Body(hash, files, prefix, Sorted(Keys(files, prefix)))
    ensures Tree(hash, files, prefix) == hash(Ascii("tree ") + Decimal(|body|) + [0] + body)
  {
    hide Body, Decimal, Keys, Sorted;
    NamesAreAscii();
  }

  // ---------------------------------------------------------------- manifests

  /** What is asked of a manifest: as many paths as rows, no zero byte in a path, and one of the two file modes. */
  lemma ManifestExactly(manifest: seq<Row>)
    ensures UniquePaths(manifest) <==> |set r | r in manifest :: r.path| == |manifest|
    ensures ValidRows(manifest) <==>
            forall r :: r in manifest ==> 0 !in r.path && (r.mode == Ascii("100644") || r.mode == Ascii("100755"))
  {
    NamesAreAscii();
    var paths := seq(|manifest|, i requires 0 <= i < |manifest| => manifest[i].path);
    AllDifferent(paths);
    assert (set r | r in manifest :: r.path) == set x | x in paths by {
      forall r | r in manifest ensures r.path in paths {
        var i :| 0 <= i < |manifest| && manifest[i] == r;
        assert paths[i] == r.path;
      }
    }
    assert forall i :: 0 <= i < |paths| ==> paths[i] == manifest[i].path;
  }
}
