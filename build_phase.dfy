/**
 * What one run of `build_social_pages` does, as a function of the content
 * objects' slugs and taglines: for each object with a tagline the card HTML is
 * rendered and written twice (the content directory, for versioning, and the
 * output directory, for the screenshots); only when all three steps succeed is
 * the object counted and its tagline recorded for the capture phase.
 */
module BuildPhase {
  import opened Wrappers
  import opened FileStore
  import opened PosixPath

  const TAGLINE_KEY: string := "tagline"
  const SOCIAL_IMAGE_KEY: string := "social_image"

  /** The value stored in an object's metadata under "social_image". */
  function SocialImageUrl(slug: string): string {
    "/static/images/social/" + slug + ".png"
  }

  /**
   * `metadata.get("tagline")` as the truth test sees it: a missing key and an
   * empty tagline are both false, so both are the empty string here.
   */
  function TaglineOf(metadata: map<string, string>): (t: string)
    ensures TAGLINE_KEY in metadata ==> t == metadata[TAGLINE_KEY]
    ensures TAGLINE_KEY !in metadata ==> t == ""
  {
    if TAGLINE_KEY in metadata then metadata[TAGLINE_KEY] else ""
  }

  /** Metadata after the object got its card: only "social_image" changes, so the tagline stays. */
  function WithSocialImage(metadata: map<string, string>, slug: string): (m: map<string, string>)
    ensures SOCIAL_IMAGE_KEY in m && m[SOCIAL_IMAGE_KEY] == SocialImageUrl(slug)
    ensures m - {SOCIAL_IMAGE_KEY} == metadata - {SOCIAL_IMAGE_KEY}
    ensures TaglineOf(m) == TaglineOf(metadata)
  {
    metadata[SOCIAL_IMAGE_KEY := SocialImageUrl(slug)]
  }

  /** The keyword arguments the template is rendered with (the content object stands as its slug). */
  datatype RenderContext = RenderContext(tagline: string, portraitUrl: string, slug: string,
                                         siteUrl: string, siteName: string)

  /** `template.render(...)`: the HTML, or None when rendering raises. */
  type Renderer = RenderContext -> Option<string>

  /** A content object as the loop sees it. */
  datatype Item = Item(slug: string, tagline: string)

  /** Everything one call of the loop holds fixed. */
  datatype BuildEnv = BuildEnv(render: Renderer, faults: Faults, htmlDir: string,
                               outputSocialDir: string, portraitUrl: string, siteUrl: string,
                               siteName: string)

  function ContextOf(env: BuildEnv, item: Item): RenderContext {
    RenderContext(item.tagline, env.portraitUrl, item.slug, env.siteUrl, env.siteName)
  }

  function ContentHtmlPath(env: BuildEnv, slug: string): string {
    Join(env.htmlDir, slug + ".html")
  }

  function OutputHtmlPath(env: BuildEnv, slug: string): string {
    Join(env.outputSocialDir, slug + ".html")
  }

  /** The object has a tagline and its card renders. */
  predicate Rendered(env: BuildEnv, item: Item) {
    item.tagline != "" && env.render(ContextOf(env, item)).Some?
  }

  /** The object is counted in `processed`: it renders and both HTML writes succeed. */
  predicate Processed(env: BuildEnv, item: Item) {
    && Rendered(env, item)
    && Writable(env.faults, ContentHtmlPath(env, item.slug))
    && Writable(env.faults, OutputHtmlPath(env, item.slug))
  }

  datatype BuildState = BuildState(files: Files, taglines: map<string, string>, processed: nat)

  /**
   * One pass of the loop body: an untagged object or a failed render changes
   * nothing; otherwise only the object's two card paths can change, and a
   * processed object records its tagline and counts once.
   */
  function BuildStep(st: BuildState, env: BuildEnv, item: Item): (r: BuildState)
    ensures !Rendered(env, item) ==> r == st
    ensures forall p :: p != ContentHtmlPath(env, item.slug) && p != OutputHtmlPath(env, item.slug) ==>
      SameAt(r.files, st.files, p)
    ensures r.taglines == (if Processed(env, item) then st.taglines[item.slug := item.tagline] else st.taglines)
    ensures r.processed == st.processed + (if Processed(env, item) then 1 else 0)
  {
    if item.tagline == "" then st
    else match env.render(ContextOf(env, item))
      case None => st
      case Some(html) =>
        var first := WriteResult(st.files, env.faults, ContentHtmlPath(env, item.slug), Text(html));
        if !Writable(env.faults, ContentHtmlPath(env, item.slug)) then st.(files := first)
        else
          var second := WriteResult(first, env.faults, OutputHtmlPath(env, item.slug), Text(html));
          if !Writable(env.faults, OutputHtmlPath(env, item.slug)) then st.(files := second)
          else BuildState(second, st.taglines[item.slug := item.tagline], st.processed + 1)
  }

  /** Number of items that `Processed` holds for. */
  function CountProcessed(env: BuildEnv, items: seq<Item>): (n: nat)
    ensures n <= |items|
  {
    if items == [] then 0
    else CountProcessed(env, items[..|items| - 1]) + (if Processed(env, items[|items| - 1]) then 1 else 0)
  }

  /** The loop over `items`, from state `st`. */
  function BuildRun(st: BuildState, env: BuildEnv, items: seq<Item>): (r: BuildState)
    ensures r.processed == st.processed + CountProcessed(env, items)
  {
    if items == [] then st
    else BuildStep(BuildRun(st, env, items[..|items| - 1]), env, items[|items| - 1])
  }

  /** The run over one more item is one more step. */
  lemma RunSnoc(st: BuildState, env: BuildEnv, items: seq<Item>, i: nat)
    requires i < |items|
    ensures BuildRun(st, env, items[..i + 1]) == BuildStep(BuildRun(st, env, items[..i]), env, items[i])
  {
    assert items[..i + 1][..i] == items[..i];
  }

  /** An object without a tagline is passed over before rendering: it changes nothing. */
  lemma UntaggedIsSkipped(st: BuildState, env: BuildEnv, item: Item)
    requires item.tagline == ""
    ensures BuildStep(st, env, item) == st
  {
  }

  /** A step counts the object exactly when it is `Processed`, and then records its tagline. */
  lemma StepRecords(st: BuildState, env: BuildEnv, item: Item)
    ensures Processed(env, item) ==>
      BuildStep(st, env, item).taglines == st.taglines[item.slug := item.tagline]
    ensures !Processed(env, item) ==> BuildStep(st, env, item).taglines == st.taglines
    ensures BuildStep(st, env, item).processed == st.processed + (if Processed(env, item) then 1 else 0)
  {
  }

  /** `processed` never exceeds the number of content objects. */
  lemma ProcessedBounded(env: BuildEnv, items: seq<Item>)
    ensures BuildRun(BuildState(map[], map[], 0), env, items).processed <= |items|
  {
  }

  /** The tagline of the last processed item with this slug, if there is one. */
  function LastTagline(env: BuildEnv, items: seq<Item>, slug: string): Option<string> {
    if items == [] then None
    else if Processed(env, items[|items| - 1]) && items[|items| - 1].slug == slug then Some(items[|items| - 1].tagline)
    else LastTagline(env, items[..|items| - 1], slug)
  }

  /**
   * The tagline table after the run: a slug that some processed object has
   * maps to the tagline of the last such object; every other entry is as before.
   */
  lemma {:induction false} TaglinesAfterRun(st: BuildState, env: BuildEnv, items: seq<Item>, slug: string)
    ensures var r := BuildRun(st, env, items);
      match LastTagline(env, items, slug)
      case Some(t) => slug in r.taglines && r.taglines[slug] == t
      case None =>
        && (slug in r.taglines <==> slug in st.taglines)
        && (slug in st.taglines ==> r.taglines[slug] == st.taglines[slug])
  {
    if items != [] {
      var init := items[..|items| - 1];
      TaglinesAfterRun(st, env, init, slug);
      StepRecords(BuildRun(st, env, init), env, items[|items| - 1]);
    }
  }

  /** `LastTagline` finds the processed item with the slug that no later processed item shares it with. */
  lemma {:induction false} LastTaglineAt(env: BuildEnv, items: seq<Item>, i: nat)
    requires i < |items| && Processed(env, items[i])
    requires forall j :: i < j < |items| ==> !(Processed(env, items[j]) && items[j].slug == items[i].slug)
    ensures LastTagline(env, items, items[i].slug) == Some(items[i].tagline)
  {
    if i < |items| - 1 {
      var init := items[..|items| - 1];
      assert init[i] == items[i];
      forall j | i < j < |init| ensures !(Processed(env, init[j]) && init[j].slug == init[i].slug) {
        assert init[j] == items[j];
      }
      LastTaglineAt(env, init, i);
    }
  }

  /** With no processed item carrying the slug, `LastTagline` finds none. */
  lemma {:induction false} LastTaglineNone(env: BuildEnv, items: seq<Item>, slug: string)
    requires forall j :: 0 <= j < |items| ==> !(Processed(env, items[j]) && items[j].slug == slug)
    ensures LastTagline(env, items, slug) == None
  {
    if items != [] {
      var init := items[..|items| - 1];
      forall j | 0 <= j < |init| ensures !(Processed(env, init[j]) && init[j].slug == slug) {
        assert init[j] == items[j];
      }
      LastTaglineNone(env, init, slug);
    }
  }

  /** A processed object that no later processed object shares a slug with leaves its tagline in the table. */
  lemma LastProcessedTaglineWins(st: BuildState, env: BuildEnv, items: seq<Item>, i: nat)
    requires i < |items| && Processed(env, items[i])
    requires forall j :: i < j < |items| ==> !(Processed(env, items[j]) && items[j].slug == items[i].slug)
    ensures items[i].slug in BuildRun(st, env, items).taglines
    ensures BuildRun(st, env, items).taglines[items[i].slug] == items[i].tagline
  {
    TaglinesAfterRun(st, env, items, items[i].slug);
    LastTaglineAt(env, items, i);
  }

  /** A slug no processed object carries keeps its entry (or its absence) in the tagline table. */
  lemma UnprocessedSlugUntouched(st: BuildState, env: BuildEnv, items: seq<Item>, slug: string)
    requires forall j :: 0 <= j < |items| ==> !(Processed(env, items[j]) && items[j].slug == slug)
    ensures slug in BuildRun(st, env, items).taglines <==> slug in st.taglines
    ensures slug in st.taglines ==> BuildRun(st, env, items).taglines[slug] == st.taglines[slug]
  {
    TaglinesAfterRun(st, env, items, slug);
    LastTaglineNone(env, items, slug);
  }

  /**
   * The run writes nothing but the two HTML files of objects whose card
   * rendered: every other path keeps its entry (or its absence).
   */
  lemma {:induction false} BuildFilesFrame(st: BuildState, env: BuildEnv, items: seq<Item>, path: string)
    requires forall i :: 0 <= i < |items| && Rendered(env, items[i]) ==>
      path != ContentHtmlPath(env, items[i].slug) && path != OutputHtmlPath(env, items[i].slug)
    ensures (path in BuildRun(st, env, items).files <==> path in st.files)
    ensures path in st.files ==> BuildRun(st, env, items).files[path] == st.files[path]
  {
    if items != [] {
      var init := items[..|items| - 1];
      forall i | 0 <= i < |init| ensures init[i] == items[i] { }
      BuildFilesFrame(st, env, init, path);
    }
  }

  /** The loop over `a + b` is the loop over `a` followed by the loop over `b`. */
  lemma {:induction false} BuildRunAppend(st: BuildState, env: BuildEnv, a: seq<Item>, b: seq<Item>)
    ensures BuildRun(st, env, a + b) == BuildRun(BuildRun(st, env, a), env, b)
  {
    if b == [] {
      assert a + b == a;
    } else {
      assert (a + b)[..|a + b| - 1] == a + b[..|b| - 1];
      assert (a + b)[|a + b| - 1] == b[|b| - 1];
      BuildRunAppend(st, env, a, b[..|b| - 1]);
    }
  }

  /** The loop never deletes a file. */
  lemma {:induction false} BuildKeepsFiles(st: BuildState, env: BuildEnv, items: seq<Item>, path: string)
    requires path in st.files
    ensures path in BuildRun(st, env, items).files
  {
    if items != [] {
      BuildKeepsFiles(st, env, items[..|items| - 1], path);
    }
  }

  /** Both card pages of every processed object exist once the loop is over. */
  lemma ProcessedCardsExist(st: BuildState, env: BuildEnv, items: seq<Item>, i: nat)
    requires i < |items| && Processed(env, items[i])
    ensures ContentHtmlPath(env, items[i].slug) in BuildRun(st, env, items).files
    ensures OutputHtmlPath(env, items[i].slug) in BuildRun(st, env, items).files
  {
    RunSnoc(st, env, items, i);
    var mid := BuildRun(st, env, items[..i + 1]);
    BuildRunAppend(st, env, items[..i + 1], items[i + 1..]);
    assert items[..i + 1] + items[i + 1..] == items;
    BuildKeepsFiles(mid, env, items[i + 1..], ContentHtmlPath(env, items[i].slug));
    BuildKeepsFiles(mid, env, items[i + 1..], OutputHtmlPath(env, items[i].slug));
  }

  /**
   * A processed object whose two card paths no later rendered object writes
   * leaves both files holding its own rendered card.
   */
  lemma LastCardWritten(st: BuildState, env: BuildEnv, items: seq<Item>, i: nat)
    requires i < |items| && Processed(env, items[i])
    requires forall j :: i < j < |items| && Rendered(env, items[j]) ==>
      && ContentHtmlPath(env, items[j].slug) != ContentHtmlPath(env, items[i].slug)
      && ContentHtmlPath(env, items[j].slug) != OutputHtmlPath(env, items[i].slug)
      && OutputHtmlPath(env, items[j].slug) != ContentHtmlPath(env, items[i].slug)
      && OutputHtmlPath(env, items[j].slug) != OutputHtmlPath(env, items[i].slug)
    ensures var html := Text(env.render(ContextOf(env, items[i])).value);
      var files := BuildRun(st, env, items).files;
      && ContentHtmlPath(env, items[i].slug) in files && files[ContentHtmlPath(env, items[i].slug)] == html
      && OutputHtmlPath(env, items[i].slug) in files && files[OutputHtmlPath(env, items[i].slug)] == html
  {
    RunSnoc(st, env, items, i);
    var mid := BuildRun(st, env, items[..i + 1]);
    var rest := items[i + 1..];
    BuildRunAppend(st, env, items[..i + 1], rest);
    assert items[..i + 1] + rest == items;
    forall k | 0 <= k < |rest| ensures rest[k] == items[i + 1 + k] { }
    BuildFilesFrame(mid, env, rest, ContentHtmlPath(env, items[i].slug));
    BuildFilesFrame(mid, env, rest, OutputHtmlPath(env, items[i].slug));
  }
}
