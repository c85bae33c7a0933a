/**
 * What one run of the screenshot loop of `capture_social_cards` does, as a
 * function of the slugs found in the output directory and the tagline table
 * the build phase filled: each slug with a tagline is either skipped (its
 * sidecar is current), captured (PNG written, then the sidecar saved) or
 * counted as an error.
 */
module CapturePhase {
  import opened Wrappers
  import opened PyStrings
  import opened FileStore
  import opened PosixPath
  import opened ContentHash

  const HTML_SUFFIX: string := ".html"
  const PNG_SUFFIX: string := ".png"

  /** The slug of a social HTML file name: the name without its last five characters. */
  function SlugOf(filename: string): string
    requires EndsWith(filename, HTML_SUFFIX)
  {
    filename[..|filename| - |HTML_SUFFIX|]
  }

  /** The slugs of a directory listing: every name ending in ".html", suffix removed, in listing order. */
  function SocialPages(filenames: seq<string>): (slugs: seq<string>)
    ensures |slugs| <= |filenames|
    ensures forall k :: 0 <= k < |slugs| ==> slugs[k] + HTML_SUFFIX in filenames
    ensures forall f :: f in filenames && EndsWith(f, HTML_SUFFIX) ==> SlugOf(f) in slugs
  {
    if filenames == [] then []
    else
      var init := filenames[..|filenames| - 1];
      var last := filenames[|filenames| - 1];
      assert filenames == init + [last];
      var r := SocialPages(init);
      if EndsWith(last, HTML_SUFFIX) then
        assert SlugOf(last) + HTML_SUFFIX == last;
        r + [SlugOf(last)]
      else r
  }

  predicate Distinct(s: seq<string>) {
    forall i, j :: 0 <= i < j < |s| ==> s[i] != s[j]
  }

  /** A name as `os.listdir` returns it: no directory separator inside. */
  predicate PlainName(s: string) {
    '/' !in s
  }

  /** The names of one directory are distinct and plain, and so are the slugs taken from them. */
  lemma {:induction false} SocialPagesDistinct(filenames: seq<string>)
    requires Distinct(filenames)
    requires forall k :: 0 <= k < |filenames| ==> PlainName(filenames[k])
    ensures Distinct(SocialPages(filenames))
    ensures forall k :: 0 <= k < |SocialPages(filenames)| ==> PlainName(SocialPages(filenames)[k])
  {
    if filenames != [] {
      var init := filenames[..|filenames| - 1];
      var last := filenames[|filenames| - 1];
      forall k | 0 <= k < |init| ensures init[k] == filenames[k] { }
      SocialPagesDistinct(init);
      var r := SocialPages(init);
      if EndsWith(last, HTML_SUFFIX) {
        var s := SlugOf(last);
        assert s + HTML_SUFFIX == last;
        forall k | 0 <= k < |r| ensures r[k] != s {
          assert r[k] + HTML_SUFFIX in init;
        }
        assert forall c :: c in s ==> c in last;
      }
    }
  }

  /** Everything the screenshot loop holds fixed. */
  datatype CaptureEnv = CaptureEnv(
    sha: Sha256Hex,
    faults: Faults,
    imageDir: string,
    hashSkip: bool,
    version: string,
    /** Whether the browser loads the slug's card page and renders a screenshot of it. */
    pageLoads: string -> bool)

  datatype Counters = Counters(generated: nat, skipped: nat, errors: nat)

  const NO_COUNTS: Counters := Counters(0, 0, 0)

  function Total(c: Counters): nat {
    c.generated + c.skipped + c.errors
  }

  datatype CaptureState = CaptureState(files: Files, counters: Counters)

  function PngPath(env: CaptureEnv, slug: string): string {
    Join(env.imageDir, slug + PNG_SUFFIX)
  }

  /** `taglines.get(slug, "")`. */
  function TaglineFor(taglines: map<string, string>, slug: string): (t: string)
    ensures slug in taglines ==> t == taglines[slug]
    ensures slug !in taglines ==> t == ""
  {
    if slug in taglines then taglines[slug] else ""
  }

  /** The skip check, consulted only when hash skipping is on. */
  predicate Skips(files: Files, env: CaptureEnv, taglines: map<string, string>, slug: string) {
    env.hashSkip && ShouldSkip(files, env.sha, PngPath(env, slug), slug, TaglineFor(taglines, slug), env.version)
  }

  /** The page loads and the screenshot's PNG is written without raising. */
  predicate Captures(env: CaptureEnv, slug: string) {
    env.pageLoads(slug) && Writable(env.faults, PngPath(env, slug))
  }

  /** One pass of the loop body. */
  function CaptureStep(st: CaptureState, env: CaptureEnv, taglines: map<string, string>, slug: string): (r: CaptureState)
    ensures Total(r.counters) == Total(st.counters) + (if TaglineFor(taglines, slug) != "" then 1 else 0)
    ensures !env.hashSkip ==> r.counters.skipped == st.counters.skipped
  {
    var tagline := TaglineFor(taglines, slug);
    var c := st.counters;
    if tagline == "" then st
    else if Skips(st.files, env, taglines, slug) then st.(counters := c.(skipped := c.skipped + 1))
    else if !env.pageLoads(slug) then st.(counters := c.(errors := c.errors + 1))
    else
      var shot := WriteResult(st.files, env.faults, PngPath(env, slug), Binary);
      if !Writable(env.faults, PngPath(env, slug)) then CaptureState(shot, c.(errors := c.errors + 1))
      else
        var saved := if env.hashSkip then SaveHash(shot, env.faults, env.sha, PngPath(env, slug), slug, tagline, env.version)
                     else shot;
        CaptureState(saved, c.(generated := c.generated + 1))
  }

  /** Number of slugs with a non-empty tagline in the table. */
  function TaggedCount(taglines: map<string, string>, slugs: seq<string>): (n: nat)
    ensures n <= |slugs|
  {
    if slugs == [] then 0
    else TaggedCount(taglines, slugs[..|slugs| - 1]) + (if TaglineFor(taglines, slugs[|slugs| - 1]) != "" then 1 else 0)
  }

  /**
   * The loop over `slugs`, from state `st`. Every slug with a tagline moves
   * exactly one counter and the others move none; without hash skipping
   * nothing is ever counted as skipped.
   */
  function CaptureRun(st: CaptureState, env: CaptureEnv, taglines: map<string, string>, slugs: seq<string>): (r: CaptureState)
    ensures Total(r.counters) == Total(st.counters) + TaggedCount(taglines, slugs)
    ensures !env.hashSkip ==> r.counters.skipped == st.counters.skipped
  {
    if slugs == [] then st
    else CaptureStep(CaptureRun(st, env, taglines, slugs[..|slugs| - 1]), env, taglines, slugs[|slugs| - 1])
  }

  /** The run over one more slug is one more step. */
  lemma CaptureRunSnoc(st: CaptureState, env: CaptureEnv, taglines: map<string, string>, slugs: seq<string>, i: nat)
    requires i < |slugs|
    ensures CaptureRun(st, env, taglines, slugs[..i + 1]) == CaptureStep(CaptureRun(st, env, taglines, slugs[..i]), env, taglines, slugs[i])
  {
    assert slugs[..i + 1][..i] == slugs[..i];
  }

  /** The four outcomes of a step: passed over, skipped, captured, or an error. */
  lemma StepCases(st: CaptureState, env: CaptureEnv, taglines: map<string, string>, slug: string)
    ensures var r := CaptureStep(st, env, taglines, slug);
      var tagline := TaglineFor(taglines, slug);
      var c := st.counters;
      var png := PngPath(env, slug);
      && (tagline == "" ==> r == st)
      && (tagline != "" && Skips(st.files, env, taglines, slug) ==> r == st.(counters := c.(skipped := c.skipped + 1)))
      && (tagline != "" && !Skips(st.files, env, taglines, slug) && !env.pageLoads(slug) ==>
            r == st.(counters := c.(errors := c.errors + 1)))
      && (tagline != "" && !Skips(st.files, env, taglines, slug) && env.pageLoads(slug) && !Captures(env, slug) ==>
            r == CaptureState(WriteResult(st.files, env.faults, png, Binary), c.(errors := c.errors + 1)))
      && (tagline != "" && !Skips(st.files, env, taglines, slug) && Captures(env, slug) ==>
            var shot := WriteResult(st.files, env.faults, png, Binary);
            r == CaptureState(if env.hashSkip then SaveHash(shot, env.faults, env.sha, png, slug, tagline, env.version)
                              else shot, c.(generated := c.generated + 1)))
  {
  }

  /** The loop over `a + b` is the loop over `a` followed by the loop over `b`. */
  lemma {:induction false} RunAppend(st: CaptureState, env: CaptureEnv, taglines: map<string, string>,
                                     a: seq<string>, b: seq<string>)
    ensures CaptureRun(st, env, taglines, a + b) == CaptureRun(CaptureRun(st, env, taglines, a), env, taglines, b)
  {
    if b == [] {
      assert a + b == a;
    } else {
      var b' := b[..|b| - 1];
      assert (a + b)[..|a + b| - 1] == a + b';
      assert (a + b)[|a + b| - 1] == b[|b| - 1];
      RunAppend(st, env, taglines, a, b');
    }
  }

  /** The two paths the step for `slug` may write: its PNG and the PNG's sidecar. */
  predicate TouchedBy(env: CaptureEnv, slug: string, path: string) {
    path == PngPath(env, slug) || path == HashPath(PngPath(env, slug))
  }

  /** A step writes nothing outside the PNG and the sidecar of its slug. */
  lemma StepFrame(st: CaptureState, env: CaptureEnv, taglines: map<string, string>, slug: string, path: string)
    requires !TouchedBy(env, slug, path)
    ensures SameAt(CaptureStep(st, env, taglines, slug).files, st.files, path)
  {
    var png := PngPath(env, slug);
    var tagline := TaglineFor(taglines, slug);
    if tagline != "" && !Skips(st.files, env, taglines, slug) && env.pageLoads(slug) {
      var shot := WriteResult(st.files, env.faults, png, Binary);
      assert SameAt(shot, st.files, path);
      if Captures(env, slug) && env.hashSkip {
        var saved := SaveHash(shot, env.faults, env.sha, png, slug, tagline, env.version);
        assert SameAt(saved, shot, path);
      }
    }
  }

  /** The loop writes nothing outside the PNGs and sidecars of its slugs. */
  lemma {:induction false} RunFrame(st: CaptureState, env: CaptureEnv, taglines: map<string, string>,
                                    slugs: seq<string>, path: string)
    requires forall k :: 0 <= k < |slugs| ==> !TouchedBy(env, slugs[k], path)
    ensures SameAt(CaptureRun(st, env, taglines, slugs).files, st.files, path)
  {
    if slugs != [] {
      var init := slugs[..|slugs| - 1];
      forall k | 0 <= k < |init| ensures init[k] == slugs[k] { }
      RunFrame(st, env, taglines, init, path);
      StepFrame(CaptureRun(st, env, taglines, init), env, taglines, slugs[|slugs| - 1], path);
    }
  }

  /** The skip check looks only at the PNG and its sidecar. */
  lemma SkipIsLocal(f1: Files, f2: Files, env: CaptureEnv, taglines: map<string, string>, slug: string)
    requires SameAt(f1, f2, PngPath(env, slug)) && SameAt(f1, f2, HashPath(PngPath(env, slug)))
    ensures Skips(f1, env, taglines, slug) == Skips(f2, env, taglines, slug)
  {
  }

  lemma PlainAppend(s: string, suffix: string)
    requires PlainName(s) && PlainName(suffix)
    ensures PlainName(s + suffix)
  {
    assert forall c :: c in s + suffix ==> c in s || c in suffix;
  }

  lemma SuffixCancel(a: string, b: string, c: string)
    requires a + c == b + c
    ensures a == b
  {
    assert (a + c)[..|a|] == a;
    assert (b + c)[..|b|] == b;
  }

  lemma HashPathInjective(a: string, b: string)
    requires HashPath(a) == HashPath(b)
    ensures a == b
  {
    assert HashPath(a)[..|a|] == a;
    assert HashPath(b)[..|b|] == b;
  }

  /** A plain name with ".png" appended is a relative path. */
  lemma PlainPngRelative(slug: string)
    requires PlainName(slug)
    ensures !StartsWith(slug + PNG_SUFFIX, "/")
  {
    var n := slug + PNG_SUFFIX;
    PlainAppend(slug, PNG_SUFFIX);
    assert n[0] in n;
  }

  /** The PNG path of a plain slug is the image directory's prefix, the slug and ".png". */
  lemma PngPathShape(env: CaptureEnv, slug: string)
    requires PlainName(slug)
    ensures PngPath(env, slug) == DirPrefix(env.imageDir) + (slug + PNG_SUFFIX)
    ensures PngPath(env, slug) == (DirPrefix(env.imageDir) + slug) + PNG_SUFFIX
  {
    PlainPngRelative(slug);
  }

  /** Distinct plain slugs have distinct PNG paths. */
  lemma PngPathsApart(env: CaptureEnv, s1: string, s2: string)
    requires s1 != s2 && PlainName(s1) && PlainName(s2)
    ensures PngPath(env, s1) != PngPath(env, s2)
  {
    PlainPngRelative(s1);
    PlainPngRelative(s2);
    if PngPath(env, s1) == PngPath(env, s2) {
      JoinInjective(env.imageDir, s1 + PNG_SUFFIX, s2 + PNG_SUFFIX);
      SuffixCancel(s1, s2, PNG_SUFFIX);
    }
  }

  /** A name ending in ".png" never ends in ".hash". */
  lemma PngNotHash(x: string, y: string)
    ensures x + PNG_SUFFIX != y + HASH_SUFFIX
  {
    var a, b := x + PNG_SUFFIX, y + HASH_SUFFIX;
    assert a[|a| - 1] == 'g';
    assert b[|b| - 1] == 'h';
  }

  /** A PNG path is never a sidecar path. */
  lemma PngIsNoSidecar(env: CaptureEnv, s1: string, s2: string)
    requires PlainName(s1)
    ensures PngPath(env, s1) != HashPath(PngPath(env, s2))
  {
    PngPathShape(env, s1);
    PngNotHash(DirPrefix(env.imageDir) + s1, PngPath(env, s2));
  }

  /** Distinct plain slugs touch disjoint paths. */
  lemma PathsApart(env: CaptureEnv, s1: string, s2: string)
    requires s1 != s2 && PlainName(s1) && PlainName(s2)
    ensures !TouchedBy(env, s1, PngPath(env, s2))
    ensures !TouchedBy(env, s1, HashPath(PngPath(env, s2)))
  {
    PngPathsApart(env, s1, s2);
    PngIsNoSidecar(env, s1, s2);
    PngIsNoSidecar(env, s2, s1);
    if HashPath(PngPath(env, s1)) == HashPath(PngPath(env, s2)) {
      HashPathInjective(PngPath(env, s1), PngPath(env, s2));
    }
  }

  /** Among distinct plain slugs, no slug but slug i touches the paths of slug i. */
  lemma OthersApart(env: CaptureEnv, slugs: seq<string>, i: nat, path: string)
    requires Distinct(slugs)
    requires forall k :: 0 <= k < |slugs| ==> PlainName(slugs[k])
    requires i < |slugs| && TouchedBy(env, slugs[i], path)
    ensures forall k :: 0 <= k < |slugs| && k != i ==> !TouchedBy(env, slugs[k], path)
  {
    forall k | 0 <= k < |slugs| && k != i
      ensures !TouchedBy(env, slugs[k], path)
    {
      PathsApart(env, slugs[k], slugs[i]);
    }
  }

  /** A sequence is its first `n` elements followed by the rest. */
  lemma SplitAt(slugs: seq<string>, n: nat)
    requires n <= |slugs|
    ensures slugs == slugs[..n] + slugs[n..]
  {
  }

  /** The steps before slug i leave the paths of slug i as they were at the start. */
  lemma IsolateBefore(st: CaptureState, env: CaptureEnv, taglines: map<string, string>,
                      slugs: seq<string>, i: nat, path: string)
    requires i < |slugs|
    requires forall k :: 0 <= k < |slugs| && k != i ==> !TouchedBy(env, slugs[k], path)
    ensures SameAt(CaptureRun(st, env, taglines, slugs[..i]).files, st.files, path)
  {
    var a := slugs[..i];
    assert forall k :: 0 <= k < |a| ==> !TouchedBy(env, a[k], path) by {
      forall k | 0 <= k < |a| ensures !TouchedBy(env, a[k], path) {
        assert a[k] == slugs[k];
      }
    }
    RunFrame(st, env, taglines, a, path);
  }

  /** The steps after slug i leave the paths of slug i as step i left them. */
  lemma IsolateAfter(st: CaptureState, env: CaptureEnv, taglines: map<string, string>,
                     slugs: seq<string>, i: nat, path: string)
    requires i < |slugs|
    requires forall k :: 0 <= k < |slugs| && k != i ==> !TouchedBy(env, slugs[k], path)
    ensures SameAt(CaptureRun(st, env, taglines, slugs).files,
                   CaptureStep(CaptureRun(st, env, taglines, slugs[..i]), env, taglines, slugs[i]).files, path)
  {
    var b := slugs[i + 1..];
    assert forall k :: 0 <= k < |b| ==> !TouchedBy(env, b[k], path) by {
      forall k | 0 <= k < |b| ensures !TouchedBy(env, b[k], path) {
        assert b[k] == slugs[i + 1 + k];
      }
    }
    CaptureRunSnoc(st, env, taglines, slugs, i);
    SplitAt(slugs, i + 1);
    RunAppend(st, env, taglines, slugs[..i + 1], b);
    RunFrame(CaptureRun(st, env, taglines, slugs[..i + 1]), env, taglines, b, path);
  }

  /**
   * Among distinct plain slugs, the paths of slug i are touched by step i
   * alone: the steps before it leave them as they were at the start, and the
   * steps after it leave them as step i left them.
   */
  lemma Isolate(st: CaptureState, env: CaptureEnv, taglines: map<string, string>,
                slugs: seq<string>, i: nat, path: string)
    requires Distinct(slugs)
    requires forall k :: 0 <= k < |slugs| ==> PlainName(slugs[k])
    requires i < |slugs| && TouchedBy(env, slugs[i], path)
    ensures var before := CaptureRun(st, env, taglines, slugs[..i]);
      && SameAt(before.files, st.files, path)
      && SameAt(CaptureRun(st, env, taglines, slugs).files, CaptureStep(before, env, taglines, slugs[i]).files, path)
  {
    OthersApart(env, slugs, i, path);
    IsolateBefore(st, env, taglines, slugs, i, path);
    IsolateAfter(st, env, taglines, slugs, i, path);
  }

  /** With hash skipping on, a tagged slug that is skipped or captured leaves a current sidecar behind. */
  lemma StepMakesCurrent(st: CaptureState, env: CaptureEnv, taglines: map<string, string>, slug: string)
    requires env.hashSkip && TaglineFor(taglines, slug) != ""
    requires Writable(env.faults, HashPath(PngPath(env, slug)))
    requires Captures(env, slug) || Skips(st.files, env, taglines, slug)
    ensures Skips(CaptureStep(st, env, taglines, slug).files, env, taglines, slug)
  {
    if !Skips(st.files, env, taglines, slug) {
      var png := PngPath(env, slug);
      var shot := WriteResult(st.files, env.faults, png, Binary);
      SaveThenSkip(shot, env.faults, env.sha, png, slug, TaglineFor(taglines, slug), env.version);
    }
  }

  /**
   * Cache convergence for one slug: after a run with hash skipping, a tagged
   * slug that was either current already or captured successfully (with a
   * writable sidecar) is current, so the next run will skip it.
   */
  lemma CaptureMakesCacheCurrent(st: CaptureState, env: CaptureEnv, taglines: map<string, string>,
                                 slugs: seq<string>, i: nat)
    requires env.hashSkip && Distinct(slugs)
    requires forall k :: 0 <= k < |slugs| ==> PlainName(slugs[k])
    requires i < |slugs| && TaglineFor(taglines, slugs[i]) != ""
    requires Writable(env.faults, HashPath(PngPath(env, slugs[i])))
    requires Captures(env, slugs[i]) || Skips(st.files, env, taglines, slugs[i])
    ensures Skips(CaptureRun(st, env, taglines, slugs).files, env, taglines, slugs[i])
  {
    var s := slugs[i];
    var before := CaptureRun(st, env, taglines, slugs[..i]);
    var after := CaptureStep(before, env, taglines, s);
    var final := CaptureRun(st, env, taglines, slugs);
    Isolate(st, env, taglines, slugs, i, PngPath(env, s));
    Isolate(st, env, taglines, slugs, i, HashPath(PngPath(env, s)));
    SkipIsLocal(before.files, st.files, env, taglines, s);
    StepMakesCurrent(before, env, taglines, s);
    SkipIsLocal(final.files, after.files, env, taglines, s);
  }

  /** When every tagged slug is current, the loop only skips and writes nothing. */
  lemma {:induction false} AllCurrentSkipsAll(st: CaptureState, env: CaptureEnv, taglines: map<string, string>,
                                              slugs: seq<string>)
    requires AllCurrent(st.files, env, taglines, slugs)
    ensures CaptureRun(st, env, taglines, slugs).files == st.files
    ensures CaptureRun(st, env, taglines, slugs).counters ==
      st.counters.(skipped := st.counters.skipped + TaggedCount(taglines, slugs))
  {
    if slugs != [] {
      var init := slugs[..|slugs| - 1];
      forall k | 0 <= k < |init| ensures init[k] == slugs[k] { }
      AllCurrentSkipsAll(st, env, taglines, init);
      var last := slugs[|slugs| - 1];
      assert TaglineFor(taglines, last) != "" ==> Skips(st.files, env, taglines, last);
      StepSkipsCurrent(CaptureRun(st, env, taglines, init), env, taglines, last);
    }
  }

  /** The step for a current slug counts it as skipped and writes nothing; an untagged slug is passed over. */
  lemma StepSkipsCurrent(st: CaptureState, env: CaptureEnv, taglines: map<string, string>, slug: string)
    requires TaglineFor(taglines, slug) != "" ==> Skips(st.files, env, taglines, slug)
    ensures CaptureStep(st, env, taglines, slug).files == st.files
    ensures CaptureStep(st, env, taglines, slug).counters ==
      st.counters.(skipped := st.counters.skipped + (if TaglineFor(taglines, slug) != "" then 1 else 0))
  {
  }

  /** Every slug with a tagline may be captured now (it has a writable sidecar and its page loads) or is current already. */
  predicate AllCapturable(files: Files, env: CaptureEnv, taglines: map<string, string>, slugs: seq<string>) {
    forall k :: 0 <= k < |slugs| && TaglineFor(taglines, slugs[k]) != "" ==>
      Writable(env.faults, HashPath(PngPath(env, slugs[k]))) &&
      (Captures(env, slugs[k]) || Skips(files, env, taglines, slugs[k]))
  }

  /** Every slug with a tagline is current. */
  predicate AllCurrent(files: Files, env: CaptureEnv, taglines: map<string, string>, slugs: seq<string>) {
    forall k :: 0 <= k < |slugs| && TaglineFor(taglines, slugs[k]) != "" ==> Skips(files, env, taglines, slugs[k])
  }

  /** After a run in which every tagged slug was capturable or current, every tagged slug is current. */
  lemma RunLeavesAllCurrent(st: CaptureState, env: CaptureEnv, taglines: map<string, string>, slugs: seq<string>)
    requires env.hashSkip && Distinct(slugs)
    requires forall k :: 0 <= k < |slugs| ==> PlainName(slugs[k])
    requires AllCapturable(st.files, env, taglines, slugs)
    ensures AllCurrent(CaptureRun(st, env, taglines, slugs).files, env, taglines, slugs)
  {
    forall k | 0 <= k < |slugs| && TaglineFor(taglines, slugs[k]) != ""
      ensures Skips(CaptureRun(st, env, taglines, slugs).files, env, taglines, slugs[k])
    {
      CaptureMakesCacheCurrent(st, env, taglines, slugs, k);
    }
  }

  /** Whether a slug is current depends on the environment only through the hash settings and the image directory. */
  lemma AllCurrentOtherEnv(files: Files, env: CaptureEnv, env2: CaptureEnv, taglines: map<string, string>, slugs: seq<string>)
    requires AllCurrent(files, env, taglines, slugs)
    requires env2.hashSkip == env.hashSkip && env2.sha == env.sha && env2.imageDir == env.imageDir && env2.version == env.version
    ensures AllCurrent(files, env2, taglines, slugs)
  {
    forall k | 0 <= k < |slugs| && TaglineFor(taglines, slugs[k]) != ""
      ensures Skips(files, env2, taglines, slugs[k])
    {
      assert PngPath(env2, slugs[k]) == PngPath(env, slugs[k]);
    }
  }

  /**
   * A second run over the same slugs and taglines, after a first run in which
   * every tagged slug was capturable or current, captures nothing and reports
   * every tagged slug as skipped, whatever the browser does this time.
   */
  lemma RerunSkipsEverything(st: CaptureState, env: CaptureEnv, env2: CaptureEnv,
                             taglines: map<string, string>, slugs: seq<string>)
    requires env.hashSkip && Distinct(slugs)
    requires forall k :: 0 <= k < |slugs| ==> PlainName(slugs[k])
    requires AllCapturable(st.files, env, taglines, slugs)
    requires env2.hashSkip && env2.sha == env.sha && env2.imageDir == env.imageDir && env2.version == env.version
    ensures var first := CaptureRun(st, env, taglines, slugs);
      var second := CaptureRun(CaptureState(first.files, NO_COUNTS), env2, taglines, slugs);
      second.files == first.files && second.counters == NO_COUNTS.(skipped := TaggedCount(taglines, slugs))
  {
    var first := CaptureRun(st, env, taglines, slugs);
    RunLeavesAllCurrent(st, env, taglines, slugs);
    AllCurrentOtherEnv(first.files, env, env2, taglines, slugs);
    AllCurrentSkipsAll(CaptureState(first.files, NO_COUNTS), env2, taglines, slugs);
  }

  /**
   * A sidecar is written only after the screenshot succeeded: if the run
   * changed a slug's sidecar, hash skipping is on, the slug has a tagline, its
   * page was captured, and its PNG is in place.
   */
  lemma HashSavedOnlyAfterScreenshot(st: CaptureState, env: CaptureEnv, taglines: map<string, string>,
                                     slugs: seq<string>, i: nat)
    requires Distinct(slugs)
    requires forall k :: 0 <= k < |slugs| ==> PlainName(slugs[k])
    requires i < |slugs|
    requires !SameAt(CaptureRun(st, env, taglines, slugs).files, st.files, HashPath(PngPath(env, slugs[i])))
    ensures env.hashSkip && TaglineFor(taglines, slugs[i]) != "" && Captures(env, slugs[i])
    ensures PngPath(env, slugs[i]) in CaptureRun(st, env, taglines, slugs).files
    ensures CaptureRun(st, env, taglines, slugs).files[PngPath(env, slugs[i])] == Binary
  {
    var s := slugs[i];
    var before := CaptureRun(st, env, taglines, slugs[..i]);
    Isolate(st, env, taglines, slugs, i, PngPath(env, s));
    Isolate(st, env, taglines, slugs, i, HashPath(PngPath(env, s)));
    StepSavesOnlyAfterShot(before, env, taglines, s);
  }

  /** The step for one slug changes its sidecar only after capturing its page and writing its PNG. */
  lemma StepSavesOnlyAfterShot(st: CaptureState, env: CaptureEnv, taglines: map<string, string>, slug: string)
    requires !SameAt(CaptureStep(st, env, taglines, slug).files, st.files, HashPath(PngPath(env, slug)))
    ensures env.hashSkip && TaglineFor(taglines, slug) != "" && Captures(env, slug)
    ensures PngPath(env, slug) in CaptureStep(st, env, taglines, slug).files
    ensures CaptureStep(st, env, taglines, slug).files[PngPath(env, slug)] == Binary
  {
    var png := PngPath(env, slug);
    var shot := WriteResult(st.files, env.faults, png, Binary);
    if env.hashSkip && TaglineFor(taglines, slug) != "" && !Skips(st.files, env, taglines, slug) && Captures(env, slug) {
      var saved := SaveHash(shot, env.faults, env.sha, png, slug, TaglineFor(taglines, slug), env.version);
      assert SameAt(saved, shot, png);
    }
  }
}
