/**
 * The plugin's three signal handlers as imperative code over a `Disk`: the two
 * build handlers render and write the card pages and fill the plugin-wide
 * tagline table, and the capture handler walks the output directory's card
 * pages and writes screenshots and their hash sidecars. Each method is proved
 * to do exactly what the corresponding run function of `BuildPhase` or
 * `CapturePhase` describes.
 */
module Plugin {
  import opened Wrappers
  import opened PyStrings
  import opened FileStore
  import opened PosixPath
  import opened Settings
  import opened ContentHash
  import opened BuildPhase
  import opened CapturePhase

  const TEMPLATE_NAME_KEY: string := "SOCIAL_TEMPLATE_NAME"
  const DEFAULT_TEMPLATE_NAME: string := "social_card.html"
  const HTML_DIR_KEY: string := "SOCIAL_CARD_HTML_DIR"
  const DEFAULT_HTML_DIR: string := "content/social"
  const OUTPUT_PATH_KEY: string := "OUTPUT_PATH"
  const DEFAULT_OUTPUT_PATH: string := "output"
  const SOCIAL_SUBDIR: string := "social"
  const SITEURL_KEY: string := "SITEURL"
  const SITENAME_KEY: string := "SITENAME"
  const DISABLE_SCREENSHOT_KEY: string := "SOCIAL_DISABLE_SCREENSHOT"
  const IMAGE_DIR_KEY: string := "SOCIAL_IMAGE_DIR"
  const DEFAULT_IMAGE_DIR: string := "content/static/images/social"
  const HASH_SKIP_KEY: string := "SOCIAL_HASH_SKIP"
  const HASH_VERSION_KEY: string := "SOCIAL_HASH_VERSION"
  const DEFAULT_HASH_VERSION: string := "v1"

  /** An article or page: the slug is fixed, the metadata is updated in place. */
  class Content {
    const slug: string
    var metadata: map<string, string>

    constructor (slug: string, metadata: map<string, string>)
      ensures this.slug == slug && this.metadata == metadata
    {
      this.slug := slug;
      this.metadata := metadata;
    }
  }

  /** The content objects as the build loop sees them: slug and tagline. */
  function ItemsOf(objects: seq<Content>): (items: seq<Item>)
    reads objects
    ensures |items| == |objects|
    ensures forall j :: 0 <= j < |objects| ==> items[j] == Item(objects[j].slug, TaglineOf(objects[j].metadata))
  {
    seq(|objects|, j requires 0 <= j < |objects| reads objects =>
      Item(objects[j].slug, TaglineOf(objects[j].metadata)))
  }

  /** The loop settings of `build_social_pages`, each with its default. */
  function BuildEnvOf(settings: Settings, render: Renderer, faults: Faults): (env: BuildEnv)
    ensures env.render == render && env.faults == faults
    ensures env.htmlDir == GetString(settings, HTML_DIR_KEY, DEFAULT_HTML_DIR)
    ensures env.outputSocialDir == Join(GetString(settings, OUTPUT_PATH_KEY, DEFAULT_OUTPUT_PATH), SOCIAL_SUBDIR)
    ensures env.portraitUrl == PortraitUrlOf(settings)
    ensures env.siteUrl == GetString(settings, SITEURL_KEY, "")
    ensures env.siteName == GetString(settings, SITENAME_KEY, "")
  {
    BuildEnv(render, faults,
             GetString(settings, HTML_DIR_KEY, DEFAULT_HTML_DIR),
             Join(GetString(settings, OUTPUT_PATH_KEY, DEFAULT_OUTPUT_PATH), SOCIAL_SUBDIR),
             PortraitUrlOf(settings),
             GetString(settings, SITEURL_KEY, ""),
             GetString(settings, SITENAME_KEY, ""))
  }

  /** The loop settings of `capture_social_cards`, each with its default. */
  function CaptureEnvOf(settings: Settings, sha: Sha256Hex, faults: Faults,
                        pageLoads: string -> bool): (env: CaptureEnv)
    ensures env.sha == sha && env.faults == faults && env.pageLoads == pageLoads
    ensures env.imageDir == GetString(settings, IMAGE_DIR_KEY, DEFAULT_IMAGE_DIR)
    ensures env.hashSkip == GetFlag(settings, HASH_SKIP_KEY, true)
    ensures env.version == GetString(settings, HASH_VERSION_KEY, DEFAULT_HASH_VERSION)
  {
    CaptureEnv(sha, faults,
               GetString(settings, IMAGE_DIR_KEY, DEFAULT_IMAGE_DIR),
               GetFlag(settings, HASH_SKIP_KEY, true),
               GetString(settings, HASH_VERSION_KEY, DEFAULT_HASH_VERSION),
               pageLoads)
  }

  /** How a call of the capture handler ended. */
  datatype CaptureReport =
    | ScreenshotsDisabled
    | PlaywrightMissing
    | NoSocialDirectory
    | NothingToCapture
    /** The server or the browser failed to start: the error is logged and nothing is written. */
    | BrowserFailed
    | Captured(counters: Counters)

  /** `[f[:-5] for f in filenames if f.endswith(".html")]`, written as the source's loop. */
  method ListSocialPages(filenames: seq<string>) returns (slugs: seq<string>)
    ensures slugs == SocialPages(filenames)
  {
    slugs := [];
    var i := 0;
    while i < |filenames|
      invariant 0 <= i <= |filenames|
      invariant slugs == SocialPages(filenames[..i])
    {
      var f := filenames[i];
      assert filenames[..i + 1][..i] == filenames[..i];
      if EndsWith(f, HTML_SUFFIX) {
        slugs := slugs + [SlugOf(f)];
      }
      i := i + 1;
    }
    assert filenames[..i] == filenames;
  }

  /** The first position at which the object at position `j` occurs. */
  function FirstIndex(objects: seq<Content>, j: nat): (k: nat)
    requires j < |objects|
    ensures k <= j && objects[k] == objects[j]
    ensures forall m :: 0 <= m < k ==> objects[m] != objects[j]
  {
    if objects[0] == objects[j] then 0 else 1 + FirstIndex(objects[1..], j - 1)
  }

  /** Positions holding the same object agree on its mark and its metadata on entry. */
  predicate Consistent(objects: seq<Content>, marks: seq<bool>, meta: seq<map<string, string>>) {
    && |marks| == |objects| == |meta|
    && forall j, k :: 0 <= j < |objects| && 0 <= k < |objects| && objects[j] == objects[k] ==>
         marks[j] == marks[k] && meta[j] == meta[k]
  }

  /**
   * The metadata of every object is its metadata `meta` on entry, with
   * "social_image" set when it is marked and the loop has passed the
   * object's first position (`n` positions are done).
   */
  predicate Marked(objects: seq<Content>, marks: seq<bool>, meta: seq<map<string, string>>, n: nat)
    requires |marks| == |objects| == |meta|
    reads objects
  {
    forall j :: 0 <= j < |objects| ==>
      objects[j].metadata == (if marks[j] && FirstIndex(objects, j) < n
                              then WithSocialImage(meta[j], objects[j].slug) else meta[j])
  }

  /** Before the loop nothing is marked, and the marks follow the objects. */
  lemma MarksStart(objects: seq<Content>, marks: seq<bool>, meta: seq<map<string, string>>)
    requires |marks| == |objects| == |meta|
    requires forall j :: 0 <= j < |objects| ==> meta[j] == objects[j].metadata
    requires forall j, k :: 0 <= j < |objects| && 0 <= k < |objects| && objects[j] == objects[k] ==> marks[j] == marks[k]
    ensures Consistent(objects, marks, meta) && Marked(objects, marks, meta, 0)
  {
  }

  /** Once the loop has passed every position, exactly the marked objects carry "social_image". */
  lemma MarkedAll(objects: seq<Content>, marks: seq<bool>, meta: seq<map<string, string>>)
    requires |marks| == |objects| == |meta| && Marked(objects, marks, meta, |objects|)
    ensures forall j :: 0 <= j < |objects| ==>
      objects[j].metadata == (if marks[j] then WithSocialImage(meta[j], objects[j].slug) else meta[j])
  {
    forall j | 0 <= j < |objects|
      ensures objects[j].metadata == (if marks[j] then WithSocialImage(meta[j], objects[j].slug) else meta[j])
    {
      assert FirstIndex(objects, j) < |objects|;
    }
  }

  /**
   * Why `capture_social_cards` stops before its loop, checked in the source's
   * order, or None when it reaches the loop.
   */
  function EarlyExit(settings: Settings, playwrightAvailable: bool, listing: Option<seq<string>>,
                     browserStarts: bool): (r: Option<CaptureReport>)
    ensures r.None? <==> && !GetFlag(settings, DISABLE_SCREENSHOT_KEY, false) && playwrightAvailable
                         && listing.Some? && SocialPages(listing.value) != [] && browserStarts
    ensures r.Some? ==> !r.value.Captured?
    ensures GetFlag(settings, DISABLE_SCREENSHOT_KEY, false) ==> r == Some(ScreenshotsDisabled)
    ensures !GetFlag(settings, DISABLE_SCREENSHOT_KEY, false) && !playwrightAvailable ==> r == Some(PlaywrightMissing)
    ensures !GetFlag(settings, DISABLE_SCREENSHOT_KEY, false) && playwrightAvailable && listing.None? ==>
      r == Some(NoSocialDirectory)
    ensures (!GetFlag(settings, DISABLE_SCREENSHOT_KEY, false) && playwrightAvailable && listing.Some?
             && SocialPages(listing.value) == []) ==> r == Some(NothingToCapture)
    ensures (!GetFlag(settings, DISABLE_SCREENSHOT_KEY, false) && playwrightAvailable && listing.Some?
             && SocialPages(listing.value) != [] && !browserStarts) ==> r == Some(BrowserFailed)
  {
    if GetFlag(settings, DISABLE_SCREENSHOT_KEY, false) then Some(ScreenshotsDisabled)
    else if !playwrightAvailable then Some(PlaywrightMissing)
    else if listing.None? then Some(NoSocialDirectory)
    else if SocialPages(listing.value) == [] then Some(NothingToCapture)
    else if !browserStarts then Some(BrowserFailed)
    else None
  }

  /**
   * The plugin's module state: the tagline table that `build_social_pages`
   * fills and `capture_social_cards` reads.
   */
  class SocialShare {
    var taglines: map<string, string>

    constructor ()
      ensures taglines == map[]
    {
      taglines := map[];
    }

    /** Nothing the build handler may change has changed. */
    twostate predicate Untouched(objects: seq<Content>, disk: Disk)
      reads this, disk, objects
    {
      && disk.files == old(disk.files)
      && taglines == old(taglines)
      && forall j :: 0 <= j < |objects| ==> objects[j].metadata == old(objects[j].metadata)
    }

    /**
     * The effect of one `build_social_pages` call on `objects`: with no
     * template nothing changes; otherwise the disk, the tagline table and the
     * count are those of `BuildRun` over the objects' slugs and taglines, and
     * exactly the processed objects get their "social_image" entry.
     */
    twostate predicate Built(settings: Settings, templates: string -> Option<Renderer>,
                             objects: seq<Content>, disk: Disk, processed: nat)
      reads this, disk, objects
    {
      match templates(GetString(settings, TEMPLATE_NAME_KEY, DEFAULT_TEMPLATE_NAME))
      case None => processed == 0 && Untouched(objects, disk)
      case Some(render) =>
        var env := BuildEnvOf(settings, render, disk.faults);
        var items := old(ItemsOf(objects));
        var r := BuildRun(BuildState(old(disk.files), old(taglines), 0), env, items);
        && disk.files == r.files
        && taglines == r.taglines
        && processed == r.processed
        && forall j :: 0 <= j < |objects| ==>
             objects[j].metadata == (if Processed(env, items[j])
                                     then WithSocialImage(old(objects[j].metadata), objects[j].slug)
                                     else old(objects[j].metadata))
    }

    /**
     * One pass of the build loop for `obj`: `counted` says whether it was
     * processed, and the disk, the tagline table and the count move as
     * `BuildStep` says.
     */
    method BuildObject(env: BuildEnv, obj: Content, disk: Disk, processed: nat, ghost item: Item) returns (counted: bool)
      requires env.faults == disk.faults
      requires item == Item(obj.slug, TaglineOf(obj.metadata))
      modifies this, disk, obj
      ensures && counted == Processed(env, item)
        && BuildState(disk.files, taglines, processed + (if counted then 1 else 0))
           == BuildStep(BuildState(old(disk.files), old(taglines), processed), env, item)
        && obj.metadata == (if counted then WithSocialImage(old(obj.metadata), obj.slug) else old(obj.metadata))
    {
      counted := false;
      var tagline := TaglineOf(obj.metadata);
      if tagline == "" {
        return;
      }
      var html := env.render(RenderContext(tagline, env.portraitUrl, obj.slug, env.siteUrl, env.siteName));
      if html.None? {
        return;
      }
      var ok := disk.Write(ContentHtmlPath(env, obj.slug), Text(html.value));
      if !ok {
        return;
      }
      ok := disk.Write(OutputHtmlPath(env, obj.slug), Text(html.value));
      if !ok {
        return;
      }
      obj.metadata := WithSocialImage(obj.metadata, obj.slug);
      taglines := taglines[obj.slug := tagline];
      counted := true;
    }

    /** The loop of `build_social_pages` over `objects`, for a template that was found. */
    method BuildLoop(env: BuildEnv, objects: seq<Content>, disk: Disk) returns (processed: nat)
      requires env.faults == disk.faults
      modifies this, disk, objects
      ensures var r := BuildRun(BuildState(old(disk.files), old(taglines), 0), env, old(ItemsOf(objects)));
        && disk.files == r.files
        && taglines == r.taglines
        && processed == r.processed
      ensures forall j :: 0 <= j < |objects| ==>
        objects[j].metadata == (if Processed(env, old(ItemsOf(objects))[j])
                                then WithSocialImage(old(objects[j].metadata), objects[j].slug)
                                else old(objects[j].metadata))
    {
      processed := 0;
      ghost var items := ItemsOf(objects);
      ghost var meta := seq(|objects|, j requires 0 <= j < |objects| reads objects => objects[j].metadata);
      ghost var marks := seq(|objects|, j requires 0 <= j < |objects| => Processed(env, items[j]));
      ghost var start := BuildState(disk.files, taglines, 0);
      assert items == old(ItemsOf(objects));
      assert forall j :: 0 <= j < |objects| ==> meta[j] == old(objects[j].metadata);
      MarksStart(objects, marks, meta);
      var i := 0;
      while i < |objects|
        invariant 0 <= i <= |objects|
        invariant BuildState(disk.files, taglines, processed) == BuildRun(start, env, items[..i])
        invariant Marked(objects, marks, meta, i)
      {
        processed := BuildAt(env, objects, disk, i, processed, items, marks, meta, start);
        i := i + 1;
      }
      assert items[..i] == items;
      MarkedAll(objects, marks, meta);
    }

    /** The pass of the build loop at position `i`, with the loop's bookkeeping carried forward. */
    method BuildAt(env: BuildEnv, objects: seq<Content>, disk: Disk, i: nat, processed: nat,
                   ghost items: seq<Item>, ghost marks: seq<bool>, ghost meta: seq<map<string, string>>,
                   ghost start: BuildState) returns (next: nat)
      requires env.faults == disk.faults
      requires i < |objects| == |items| && Consistent(objects, marks, meta)
      requires items[i] == Item(objects[i].slug, TaglineOf(meta[i])) && marks[i] == Processed(env, items[i])
      requires BuildState(disk.files, taglines, processed) == BuildRun(start, env, items[..i])
      requires Marked(objects, marks, meta, i)
      modifies this, disk, objects
      ensures BuildState(disk.files, taglines, next) == BuildRun(start, env, items[..i + 1])
      ensures Marked(objects, marks, meta, i + 1)
    {
      var obj := objects[i];
      RunSnoc(start, env, items, i);
      assert TaglineOf(obj.metadata) == items[i].tagline;
      var counted := BuildObject(env, obj, disk, processed, items[i]);
      next := if counted then processed + 1 else processed;
      forall j | 0 <= j < |objects|
        ensures objects[j].metadata == (if marks[j] && FirstIndex(objects, j) < i + 1
                                        then WithSocialImage(meta[j], objects[j].slug) else meta[j])
      {
        if objects[j] == obj {
          assert FirstIndex(objects, j) == FirstIndex(objects, i);
          assert WithSocialImage(WithSocialImage(meta[j], obj.slug), obj.slug) == WithSocialImage(meta[j], obj.slug);
        } else {
          assert FirstIndex(objects, j) != i;
        }
      }
    }

    /** `build_social_pages`: render, write twice, record the tagline, object by object. */
    method BuildSocialPages(settings: Settings, templates: string -> Option<Renderer>,
                            objects: seq<Content>, disk: Disk) returns (processed: nat)
      modifies this, disk, objects
      ensures Built(settings, templates, objects, disk, processed)
    {
      processed := 0;
      var template := templates(GetString(settings, TEMPLATE_NAME_KEY, DEFAULT_TEMPLATE_NAME));
      if template.None? {
        return;
      }
      var env := BuildEnvOf(settings, template.value, disk.faults);
      processed := BuildLoop(env, objects, disk);
    }

    /** `build_social_pages_articles`: the build handler runs on the articles when the scope asks for them. */
    method BuildSocialPagesArticles(settings: Settings, templates: string -> Option<Renderer>,
                                    articles: seq<Content>, disk: Disk) returns (processed: nat)
      modifies this, disk, articles
      ensures BuildsArticles(settings) ==> Built(settings, templates, articles, disk, processed)
      ensures !BuildsArticles(settings) ==> processed == 0 && Untouched(articles, disk)
    {
      processed := 0;
      if BuildsArticles(settings) {
        processed := BuildSocialPages(settings, templates, articles, disk);
      }
    }

    /** `build_social_pages_pages`: the build handler runs on the pages when the scope asks for them. */
    method BuildSocialPagesPages(settings: Settings, templates: string -> Option<Renderer>,
                                 pages: seq<Content>, disk: Disk) returns (processed: nat)
      modifies this, disk, pages
      ensures BuildsPages(settings) ==> Built(settings, templates, pages, disk, processed)
      ensures !BuildsPages(settings) ==> processed == 0 && Untouched(pages, disk)
    {
      processed := 0;
      if BuildsPages(settings) {
        processed := BuildSocialPages(settings, templates, pages, disk);
      }
    }

    /**
     * `capture_social_cards`. `playwrightAvailable` is whether the import
     * succeeded, `listing` the output directory's `os.listdir` (None when it
     * is not a directory), `browserStarts` whether the server and the browser
     * came up, and `pageLoads` whether a slug's card page loads and renders.
     * The screenshot loop does exactly what `CaptureRun` describes, and the
     * report carries its counters.
     */
    method CaptureSocialCards(settings: Settings, playwrightAvailable: bool, listing: Option<seq<string>>,
                              browserStarts: bool, pageLoads: string -> bool, sha: Sha256Hex, disk: Disk)
      returns (report: CaptureReport)
      modifies disk
      ensures match EarlyExit(settings, playwrightAvailable, listing, browserStarts)
        case Some(early) => report == early && disk.files == old(disk.files)
        case None =>
          var r := CaptureRun(CaptureState(old(disk.files), NO_COUNTS),
                              CaptureEnvOf(settings, sha, disk.faults, pageLoads),
                              taglines, SocialPages(listing.value));
          report == Captured(r.counters) && disk.files == r.files
    {
      if GetFlag(settings, DISABLE_SCREENSHOT_KEY, false) {
        return ScreenshotsDisabled;
      }
      if !playwrightAvailable {
        return PlaywrightMissing;
      }
      if listing.None? {
        return NoSocialDirectory;
      }
      var slugs := ListSocialPages(listing.value);
      if slugs == [] {
        return NothingToCapture;
      }
      if !browserStarts {
        return BrowserFailed;
      }
      var env := CaptureEnvOf(settings, sha, disk.faults, pageLoads);
      var counters := CaptureLoop(env, slugs, disk);
      report := Captured(counters);
    }

    /** The screenshot loop of `capture_social_cards` over `slugs`. */
    method CaptureLoop(env: CaptureEnv, slugs: seq<string>, disk: Disk) returns (counters: Counters)
      requires env.faults == disk.faults
      modifies disk
      ensures CaptureState(disk.files, counters) == CaptureRun(CaptureState(old(disk.files), NO_COUNTS), env, taglines, slugs)
    {
      ghost var start := CaptureState(disk.files, NO_COUNTS);
      counters := NO_COUNTS;
      var i := 0;
      while i < |slugs|
        invariant 0 <= i <= |slugs|
        invariant CaptureState(disk.files, counters) == CaptureRun(start, env, taglines, slugs[..i])
      {
        CaptureRunSnoc(start, env, taglines, slugs, i);
        counters := CaptureSlug(env, slugs[i], disk, counters);
        i := i + 1;
      }
      assert slugs[..i] == slugs;
    }

    /** One pass of the screenshot loop for `slug`, as `CaptureStep` says. */
    method CaptureSlug(env: CaptureEnv, slug: string, disk: Disk, counters: Counters) returns (next: Counters)
      requires env.faults == disk.faults
      modifies disk
      ensures CaptureState(disk.files, next) == CaptureStep(CaptureState(old(disk.files), counters), env, taglines, slug)
    {
      ghost var st := CaptureState(disk.files, counters);
      StepCases(st, env, taglines, slug);
      next := counters;
      var tagline := TaglineFor(taglines, slug);
      if tagline == "" {
        return;
      }
      var png := PngPath(env, slug);
      if env.hashSkip && ShouldSkip(disk.files, env.sha, png, slug, tagline, env.version) {
        next := counters.(skipped := counters.skipped + 1);
        return;
      }
      if !env.pageLoads(slug) {
        next := counters.(errors := counters.errors + 1);
        return;
      }
      var ok := disk.Write(png, Binary);
      if !ok {
        next := counters.(errors := counters.errors + 1);
        return;
      }
      if env.hashSkip {
        SaveContentHash(disk, env.sha, png, slug, tagline, env.version);
      }
      next := counters.(generated := counters.generated + 1);
    }
  }
}
