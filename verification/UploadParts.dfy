/** Splitting a file into parts and checking the stored parts before completion
    (frontend/app.js: `partBytes`; app/models/upload.py: `part_count`;
    app/api/multipart_uploads.py: `validate_parts`). */
module UploadParts {
  import opened Prelude

  function PartCount(size: nat, partSize: nat): nat
    requires partSize > 0
  {
    (size + partSize - 1) / partSize
  }

  /** How many bytes part `n` of a `total`-byte file holds. */
  function PartBytes(n: int, partSize: int, total: int): int {
    var left := total - (n - 1) * partSize;
    if left < partSize then left else partSize
  }

  /** Part `n` of the file: `file.slice(start, min(start + partSize, size))`. */
  function Slice<B>(file: seq<B>, partSize: nat, n: nat): (part: seq<B>)
    requires partSize > 0 && 1 <= n <= PartCount(|file|, partSize)
    ensures |part| == PartBytes(n, partSize, |file|) > 0
  {
    PartFits(|file|, partSize, n);
    var start := (n - 1) * partSize;
    file[start..if start + partSize < |file| then start + partSize else |file|]
  }

  lemma PartFits(size: nat, partSize: nat, n: nat)
    requires partSize > 0 && 1 <= n <= PartCount(size, partSize)
    ensures 0 <= (n - 1) * partSize < size
    ensures n == PartCount(size, partSize) <==> size <= n * partSize
    ensures n * partSize == (n - 1) * partSize + partSize
  {
    var count := PartCount(size, partSize);
    assert count * partSize <= size + partSize - 1 < (count + 1) * partSize;
    assert (n - 1) * partSize + partSize == n * partSize;
    assert n * partSize <= count * partSize;
    if n < count {
      assert (n + 1) * partSize <= count * partSize;
      assert (n + 1) * partSize == n * partSize + partSize;
    }
  }

  function Parts<B>(file: seq<B>, partSize: nat): seq<seq<B>>
    requires partSize > 0
  {
    seq(PartCount(|file|, partSize), k requires 0 <= k < PartCount(|file|, partSize) => Slice(file, partSize, k + 1))
  }

  /** The parts in order are exactly the file's bytes. */
  lemma PartsAssemble<B>(file: seq<B>, partSize: nat)
    requires partSize > 0
    ensures Flatten(Parts(file, partSize)) == file
  {
    var count := PartCount(|file|, partSize);
    if count == 0 {
      assert |file| == 0;
    } else {
      var cuts := seq(count + 1, k requires 0 <= k <= count => if k < count then k * partSize else |file|);
      forall k | 0 <= k < count ensures IsStretch(file, cuts, Parts(file, partSize), k) {
        PartFits(|file|, partSize, k + 1);
      }
      FlattenStretches(file, cuts, Parts(file, partSize));
    }
  }

  // --- The server's check --------------------------------------------------

  datatype PartRef = PartRef(n: nat, etag: string)
  datatype StoredPart = StoredPart(n: nat, etag: string, size: int)

  function ByNumber(parts: seq<StoredPart>): seq<StoredPart> {
    SortBy((p: StoredPart) => p.n as int, parts)
  }

  /** What storage must hold for this manifest, part by part. */
  function Expected(manifest: seq<PartRef>, size: nat, partSize: nat): seq<StoredPart> {
    seq(|manifest|, k requires 0 <= k < |manifest| =>
      StoredPart(manifest[k].n, manifest[k].etag, PartBytes(manifest[k].n, partSize, size)))
  }

  /** Checks the stored parts against the manifest; true where the source raises nothing. */
  method ValidateParts(size: nat, partSize: nat, manifest: seq<PartRef>, actual: seq<StoredPart>) returns (ok: bool)
    requires partSize > 0
    ensures ok <==> |manifest| == PartCount(size, partSize) && ByNumber(actual) == Expected(manifest, size, partSize)
  {
    var count := PartCount(size, partSize);
    var stored := ByNumber(actual);
    assert |stored| == |multiset(actual)| == |actual|;
    if |actual| != count || |manifest| != count {
      return false;
    }
    for k := 0 to count
      invariant stored[..k] == Expected(manifest, size, partSize)[..k]
    {
      var expected := PartBytes(stored[k].n, partSize, size);
      if manifest[k].n != stored[k].n || manifest[k].etag != stored[k].etag || stored[k].size != expected {
        return false;
      }
      assert stored[k] == Expected(manifest, size, partSize)[k];
    }
    return true;
  }

  /** A manifest the schema accepts: parts 1, 2, ... once each, in order. */
  predicate Contiguous(manifest: seq<PartRef>) {
    forall k :: 0 <= k < |manifest| ==> manifest[k].n == k + 1
  }

  ghost predicate StrictlySortedBy<T>(key: T -> int, s: seq<T>) {
    forall i, j :: 0 <= i < j < |s| ==> key(s[i]) < key(s[j])
  }

  lemma SameHead<T>(key: T -> int, a: seq<T>, b: seq<T>)
    requires SortedBy(key, a) && StrictlySortedBy(key, b) && multiset(a) == multiset(b) && b != []
    ensures a != [] && a[0] == b[0]
  {
    assert b[0] in multiset(a) && |a| > 0;
    assert a[0] in multiset(b);
    var i, j :| 0 <= i < |b| && b[i] == a[0] && 0 <= j < |a| && a[j] == b[0];
  }

  lemma {:induction false} SortedUnique<T>(key: T -> int, a: seq<T>, b: seq<T>)
    requires SortedBy(key, a) && StrictlySortedBy(key, b) && multiset(a) == multiset(b)
    ensures a == b
  {
    if b != [] {
      SameHead(key, a, b);
      assert a == [a[0]] + a[1..] && b == [b[0]] + b[1..];
      assert multiset(a) == multiset{a[0]} + multiset(a[1..]) && multiset(b) == multiset{b[0]} + multiset(b[1..]);
      assert multiset(a[1..]) == multiset(a) - multiset{a[0]} && multiset(b[1..]) == multiset(b) - multiset{b[0]};
      SortedUnique(key, a[1..], b[1..]);
    } else {
      assert |multiset(a)| == 0;
    }
  }

  /** For a contiguous manifest the check passes exactly when storage holds each part
      once, with the manifest's ETag and the size that part of the file has. */
  lemma ValidatedMeans(size: nat, partSize: nat, manifest: seq<PartRef>, actual: seq<StoredPart>)
    requires partSize > 0 && Contiguous(manifest)
    ensures ByNumber(actual) == Expected(manifest, size, partSize)
            <==> multiset(actual) == multiset(Expected(manifest, size, partSize))
  {
    if multiset(actual) == multiset(Expected(manifest, size, partSize)) {
      var key := (p: StoredPart) => p.n as int;
      assert StrictlySortedBy(key, Expected(manifest, size, partSize));
      SortedUnique(key, SortBy(key, actual), Expected(manifest, size, partSize));
    }
  }
}
