/**
 * The content-hash skip mechanism: every PNG has a sidecar file, the PNG path
 * followed by ".hash", holding the first 16 hex digits of SHA-256 over the
 * format version, the slug and the tagline. A card is regenerated unless the
 * PNG exists and its sidecar still holds the current digest.
 */
module ContentHash {
  import opened PyStrings
  import opened FileStore

  const DIGEST_LENGTH: nat := 64
  const STORED_LENGTH: nat := 16
  const HASH_SUFFIX: string := ".hash"

  /** A lower-case hexadecimal digit, as `hexdigest()` writes them. */
  predicate IsHexDigit(c: char) {
    ('0' <= c <= '9') || ('a' <= c <= 'f')
  }

  predicate IsHexText(s: string) {
    forall i :: 0 <= i < |s| ==> IsHexDigit(s[i])
  }

  /** What `hexdigest()` of SHA-256 returns: 64 lower-case hex digits. */
  predicate IsHexDigest(s: string) {
    |s| == DIGEST_LENGTH && IsHexText(s)
  }

  const ZERO_DIGEST: string := seq(64, _ => '0')

  /** A `hexdigest()` result. */
  type HexDigest = s: string | IsHexDigest(s) witness ZERO_DIGEST

  /**
   * SHA-256 followed by `hexdigest()`, over the UTF-8 encoding of its argument.
   * The hash function itself is not modelled: any function with this range may stand for it.
   */
  type Sha256Hex = string -> HexDigest

  /**
   * The text whose UTF-8 bytes the hasher sees: version, slug and tagline fed one
   * after another, which hashes the same as their concatenation.
   */
  function HashInput(slug: string, tagline: string, version: string): (r: string)
    ensures |r| == |version| + |slug| + |tagline|
    ensures r[..|version|] == version
    ensures r[|version|..|version| + |slug|] == slug
    ensures r[|version| + |slug|..] == tagline
  {
    version + slug + tagline
  }

  /** `make_content_hash`: the first 16 hex digits of the digest of the hash input. */
  function MakeContentHash(sha: Sha256Hex, slug: string, tagline: string, version: string): (h: string)
    ensures |h| == STORED_LENGTH
    ensures IsHexText(h)
    ensures h <= sha(HashInput(slug, tagline, version))
  {
    sha(HashInput(slug, tagline, version))[..STORED_LENGTH]
  }

  /** Two calls with the same slug and version but different taglines hash different texts. */
  lemma DistinctTaglinesDistinctInput(slug: string, t1: string, t2: string, version: string)
    requires t1 != t2
    ensures HashInput(slug, t1, version) != HashInput(slug, t2, version)
  {
    var k := |version + slug|;
    assert HashInput(slug, t1, version)[k..] == t1;
    assert HashInput(slug, t2, version)[k..] == t2;
  }

  /** Two calls with the same slug and tagline but different versions hash different texts. */
  lemma DistinctVersionsDistinctInput(slug: string, tagline: string, v1: string, v2: string)
    requires v1 != v2
    ensures HashInput(slug, tagline, v1) != HashInput(slug, tagline, v2)
  {
    if |v1| == |v2| {
      assert HashInput(slug, tagline, v1)[..|v1|] == v1;
      assert HashInput(slug, tagline, v2)[..|v2|] == v2;
    }
  }

  /**
   * The three fields are concatenated without a separator, so changing the
   * version and the tagline together can leave the hashed text, and so the
   * digest, unchanged.
   */
  lemma AmbiguousHashInput(sha: Sha256Hex)
    ensures HashInput("a", "ab", "v1") == HashInput("a", "b", "v1a")
    ensures MakeContentHash(sha, "a", "ab", "v1") == MakeContentHash(sha, "a", "b", "v1a")
  {
  }

  function HashPath(pngPath: string): (p: string)
    ensures p != pngPath
  {
    pngPath + HASH_SUFFIX
  }

  /** `should_skip_generation`: whether the PNG is present and its sidecar holds the current digest. */
  function ShouldSkip(files: Files, sha: Sha256Hex, pngPath: string, slug: string, tagline: string, version: string): (skip: bool)
    ensures pngPath !in files ==> !skip
    ensures HashPath(pngPath) !in files ==> !skip
    ensures ReadText(files, HashPath(pngPath)).None? ==> !skip
    ensures skip ==> |Strip(files[HashPath(pngPath)].contents)| == STORED_LENGTH
  {
    if pngPath !in files then false
    else if HashPath(pngPath) !in files then false
    else match ReadText(files, HashPath(pngPath))
      case None => false
      case Some(stored) => Strip(stored) == MakeContentHash(sha, slug, tagline, version)
  }

  /**
   * The store after `save_content_hash`: the sidecar now holds the digest; a
   * write that fails before opening leaves it as it was, one that fails after
   * opening leaves it empty; no other path changes.
   */
  function SaveHash(files: Files, faults: Faults, sha: Sha256Hex, pngPath: string,
                    slug: string, tagline: string, version: string): (r: Files)
    ensures forall p :: p != HashPath(pngPath) ==> SameAt(r, files, p)
    ensures HashPath(pngPath) in faults.unopenable ==> r == files
    ensures HashPath(pngPath) !in faults.unopenable && HashPath(pngPath) in faults.failsAfterOpen ==>
      ReadText(r, HashPath(pngPath)) == Wrappers.Some("")
    ensures Writable(faults, HashPath(pngPath)) ==>
      ReadText(r, HashPath(pngPath)) == Wrappers.Some(MakeContentHash(sha, slug, tagline, version))
  {
    WriteResult(files, faults, HashPath(pngPath), Text(MakeContentHash(sha, slug, tagline, version)))
  }

  /** `save_content_hash`: writes the sidecar; a failed write is swallowed. */
  method SaveContentHash(disk: Disk, sha: Sha256Hex, pngPath: string, slug: string, tagline: string, version: string)
    modifies disk
    ensures disk.files == SaveHash(old(disk.files), disk.faults, sha, pngPath, slug, tagline, version)
  {
    var digest := MakeContentHash(sha, slug, tagline, version);
    var _ := disk.Write(HashPath(pngPath), Text(digest));
  }

  /** A digest has no whitespace at either end, so stripping leaves it unchanged. */
  lemma StripDigest(sha: Sha256Hex, slug: string, tagline: string, version: string)
    ensures Strip(MakeContentHash(sha, slug, tagline, version)) == MakeContentHash(sha, slug, tagline, version)
  {
    var d := MakeContentHash(sha, slug, tagline, version);
    assert IsHexDigit(d[0]) && IsHexDigit(d[|d| - 1]);
    StripPadded([], d, []);
    assert [] + d + [] == d;
  }

  /**
   * Round trip: with the PNG present, a sidecar saved for (slug, tagline, version)
   * makes the next check for the same arguments skip.
   */
  lemma SaveThenSkip(files: Files, faults: Faults, sha: Sha256Hex, pngPath: string,
                     slug: string, tagline: string, version: string)
    requires pngPath in files
    requires Writable(faults, HashPath(pngPath))
    ensures ShouldSkip(SaveHash(files, faults, sha, pngPath, slug, tagline, version), sha, pngPath, slug, tagline, version)
  {
    var r := SaveHash(files, faults, sha, pngPath, slug, tagline, version);
    assert SameAt(r, files, pngPath);
    StripDigest(sha, slug, tagline, version);
  }

  /** A save that failed after opening the sidecar leaves it empty, and an empty sidecar never matches. */
  lemma TruncatedSaveNeverSkips(files: Files, faults: Faults, sha: Sha256Hex, pngPath: string,
                                slug: string, tagline: string, version: string)
    requires HashPath(pngPath) !in faults.unopenable && HashPath(pngPath) in faults.failsAfterOpen
    ensures !ShouldSkip(SaveHash(files, faults, sha, pngPath, slug, tagline, version), sha, pngPath, slug, tagline, version)
  {
    var r := SaveHash(files, faults, sha, pngPath, slug, tagline, version);
    assert ReadText(r, HashPath(pngPath)) == Wrappers.Some("");
    assert |Strip("")| == 0;
  }

  /**
   * The sidecar is compared after stripping: a digest written with surrounding
   * whitespace (a trailing newline, say) still matches.
   */
  lemma SkipToleratesPadding(files: Files, sha: Sha256Hex, pngPath: string, slug: string, tagline: string,
                             version: string, pre: string, post: string)
    requires pngPath in files
    requires AllSpace(pre) && AllSpace(post)
    requires HashPath(pngPath) in files
    requires files[HashPath(pngPath)] == Text(pre + MakeContentHash(sha, slug, tagline, version) + post)
    ensures ShouldSkip(files, sha, pngPath, slug, tagline, version)
  {
    var d := MakeContentHash(sha, slug, tagline, version);
    assert IsHexDigit(d[0]) && IsHexDigit(d[|d| - 1]);
    StripPadded(pre, d, post);
  }

  /**
   * One sidecar matches one digest: if the check skips for two argument
   * triples, both have the same digest. With the two lemmas on distinct inputs
   * above, a changed tagline or version is caught unless SHA-256 collides on
   * its first 16 hex digits.
   */
  lemma SkipPinsDigest(files: Files, sha: Sha256Hex, pngPath: string,
                       s1: string, t1: string, v1: string, s2: string, t2: string, v2: string)
    requires ShouldSkip(files, sha, pngPath, s1, t1, v1)
    requires ShouldSkip(files, sha, pngPath, s2, t2, v2)
    ensures MakeContentHash(sha, s1, t1, v1) == MakeContentHash(sha, s2, t2, v2)
  {
  }

  /** Characterisation: the check skips exactly when both files exist, the sidecar reads as text and strips to the digest. */
  lemma ShouldSkipExactly(files: Files, sha: Sha256Hex, pngPath: string, slug: string, tagline: string, version: string)
    ensures ShouldSkip(files, sha, pngPath, slug, tagline, version) <==>
      && pngPath in files
      && ReadText(files, HashPath(pngPath)).Some?
      && Strip(ReadText(files, HashPath(pngPath)).value) == MakeContentHash(sha, slug, tagline, version)
  {
  }
}
