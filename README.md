# pelican-social-share, modelled in Dafny

pelican-social-share is a Pelican plugin that makes social-sharing card
images. It runs in two phases, each hooked to a Pelican signal.

1. **Build phase.** When the article or page generator finishes,
   `build_social_pages` goes through each content object that has a
   `tagline`. It renders the theme's card template, writes the HTML twice
   (to the content tree and to `OUTPUT_PATH/social`), sets the object's
   `social_image` metadata and records the tagline in a plugin-wide table.
   `SOCIAL_SCOPE` decides whether articles, pages or both get cards.
2. **Capture phase.** When Pelican finishes, `capture_social_cards` lists
   the card pages in `OUTPUT_PATH/social`. For each slug that has a
   recorded tagline it takes a browser screenshot into `SOCIAL_IMAGE_DIR`.
   When `SOCIAL_HASH_SKIP` is on (the default), it then stores a
   16-hex-digit content hash in a `.hash` sidecar next to the PNG. With
   hash skipping on, a slug whose PNG exists and whose sidecar still
   matches its hash is not captured again. Each slug with a tagline is
   counted as generated, skipped or failed; the others are passed over.

How the model is laid out:

- **Store and library behaviour.**
  - The file system is a map from path to entry (`FileStore`).
  - The disk is a `Disk` object, updated in place. It records, for each
    path, whether `open(path, "w")` raises (nothing changes) or whether the
    write raises after `open` has created or truncated the file (the file is
    left empty).
  - `PyStrings` and `PosixPath` give the Python string and path operations
    the plugin relies on (`strip`, `lstrip`, `replace`, `startswith`,
    `endswith`, `os.path.join`).
- **Specification functions.** Hashing and the skip check are in
  `ContentHash`, the settings logic in `Settings`. The two loops are pure
  step and run functions: `BuildPhase.BuildRun` and
  `CapturePhase.CaptureRun`. The lemmas about them are proved there.
- **Imperative handlers.** The handlers are methods of `Plugin.SocialShare`,
  whose `taglines` field is the module-level `_taglines` table. Content
  objects are `Plugin.Content` objects whose metadata the build loop
  updates. Each handler method is proved equal to the run function of its
  phase.

Collaborators the model cannot see are parameters:
- **Jinja2.** A template lookup gives `Option<Renderer>`. A renderer gives
  `Option<string>`, where `None` means that rendering raised.
- **Playwright.** Whether it imported, whether the server and the browser
  came up, and whether a given slug's page loads and its screenshot is
  taken.
- **The directory listing.** Absent when `OUTPUT_PATH/social` is not a
  directory.
- **SHA-256 hex digest.** Any function from text to 64 lower-case hex
  digits.

## Model

| member | source | states |
|---|---|---|
| PyStrings.Strip | pelican_social_share/plugin.py:317 | `str.strip()`: the result is a contiguous piece of the input with only whitespace before and after it, and it begins and ends with a non-whitespace character; an all-whitespace input strips to "" |
| PyStrings.StripPadded | pelican_social_share/plugin.py:317 | whitespace padding on both sides of a text strips back to exactly that text |
| PyStrings.LStripChar | pelican_social_share/plugin.py:81 | `lstrip("/")`: the result is a suffix of the input, every removed character is the stripped one, and the result does not start with it |
| PyStrings.RemoveAll | pelican_social_share/plugin.py:79 | `replace(pattern, "")` never lengthens the text |
| PyStrings.RemoveAllAbsent | pelican_social_share/plugin.py:79 | replacing a pattern that does not occur leaves the text unchanged |
| PyStrings.RemoveAllFirst | pelican_social_share/plugin.py:79 | `replace(pattern, "")` keeps the text before the leftmost occurrence, drops that occurrence and continues after it without re-scanning what it kept |
| PosixPath.Join | pelican_social_share/plugin.py:71 | `os.path.join`: an absolute name is returned as is; otherwise the name follows the directory with exactly one separator added when the directory does not end in one |
| PosixPath.JoinInjective | pelican_social_share/plugin.py:218 | joining one directory with two different relative names gives two different paths |
| FileStore.ReadText | pelican_social_share/plugin.py:316-317 | reading text yields the stored contents exactly when the file exists and decodes as text; a missing file yields nothing |
| FileStore.WriteResult | pelican_social_share/plugin.py:116-117 | a write changes no other path and never deletes a file; a completed write stores the entry; a failing `open` changes nothing; a write failing after `open` leaves the file empty |
| FileStore.Disk.Write | pelican_social_share/plugin.py:126-133 | the in-place write reports success exactly when neither `open` nor the write raises, and leaves the disk as `WriteResult` says |
| ContentHash.MakeContentHash | pelican_social_share/plugin.py:295-301 | the content hash is 16 hex digits and is a prefix of the SHA-256 hex digest of version, slug and tagline |
| ContentHash.HashInput | pelican_social_share/plugin.py:297-300 | the hasher sees the version, then the slug, then the tagline, with nothing between them; three `update` calls hash the same as one call on their concatenation |
| ContentHash.DistinctTaglinesDistinctInput | pelican_social_share/plugin.py:298-300 | for a fixed slug and version, different taglines give different hash inputs |
| ContentHash.DistinctVersionsDistinctInput | pelican_social_share/plugin.py:298-300 | for a fixed slug and tagline, bumping the hash version changes the hash input |
| ContentHash.AmbiguousHashInput | pelican_social_share/plugin.py:298-300 | the three fields are fed with no separator, so ("a", "ab", "v1") and ("a", "b", "v1a") hash the same |
| ContentHash.HashPath | pelican_social_share/plugin.py:311 | the sidecar path always differs from the PNG path |
| ContentHash.ShouldSkip | pelican_social_share/plugin.py:304-323 | no skip without the PNG, without the sidecar, or when the sidecar cannot be read as text; a skip implies that the stripped sidecar is 16 characters long |
| ContentHash.ShouldSkipExactly | pelican_social_share/plugin.py:304-323 | the check skips if and only if the PNG exists, the sidecar reads as text and it strips to the current content hash |
| ContentHash.SaveHash | pelican_social_share/plugin.py:326-336 | after a completed save the sidecar reads back as the content hash; a failing `open` changes nothing; a write failing after `open` leaves an empty sidecar; no other path changes |
| ContentHash.SaveContentHash | pelican_social_share/plugin.py:326-336 | the in-place save leaves the disk as `SaveHash` says, with a write failure swallowed |
| ContentHash.StripDigest | pelican_social_share/plugin.py:317-320 | a stored hash is unchanged by `strip()` |
| ContentHash.SaveThenSkip | pelican_social_share/plugin.py:304-336 | round trip: once the PNG exists and the hash has been saved, the skip check for the same slug, tagline and version says skip |
| ContentHash.TruncatedSaveNeverSkips | pelican_social_share/plugin.py:317-336 | a save that fails after opening the sidecar leaves a sidecar that never matches, so the next check does not skip |
| ContentHash.SkipToleratesPadding | pelican_social_share/plugin.py:317-320 | a sidecar holding the hash surrounded by whitespace (an editor's trailing newline, say) still skips |
| ContentHash.SkipPinsDigest | pelican_social_share/plugin.py:317-320 | two inputs that both skip against the same sidecar have the same content hash |
| Settings.GetString | pelican_social_share/plugin.py:40 | `settings.get(key, default)` for a text setting: the stored value when the key is present, else the default |
| Settings.GetFlag | pelican_social_share/plugin.py:152 | `settings.get(key, default)` for a boolean setting: the stored value when the key is present, else the default |
| Settings.ScopeDispatch | pelican_social_share/plugin.py:38-49 | without `SOCIAL_SCOPE` only articles get cards; both handlers build if and only if the scope is "both"; neither builds if and only if the scope is none of the three names |
| Settings.PortraitUrl | pelican_social_share/plugin.py:76-81 | the URL starts with "/"; a path under "content/" becomes "/" plus the rest with every "content/" removed; any other path becomes "/" plus the path without its leading slashes |
| Settings.PortraitUrlKeepsSiteUrl | pelican_social_share/plugin.py:80-81 | a path already written as a site URL ("/x") is used as it is |
| Settings.PortraitUrlIdempotentOutsideContent | pelican_social_share/plugin.py:80-81 | outside "content/", applying the rule to its own result changes nothing |
| Settings.PortraitUrlRelative | pelican_social_share/plugin.py:80-81 | a relative path outside "content/" is served from the site root unchanged |
| Settings.PortraitUrlUnderContent | pelican_social_share/plugin.py:78-79 | "content/" plus a rest that holds no further "content/" maps to "/" plus that rest |
| BuildPhase.TaglineOf | pelican_social_share/plugin.py:89-91 | the tagline is the metadata entry when present, else empty (which is falsy) |
| BuildPhase.WithSocialImage | pelican_social_share/plugin.py:136 | sets `social_image` to "/static/images/social/<slug>.png" and keeps every other entry, the tagline included |
| BuildPhase.BuildStep | pelican_social_share/plugin.py:89-141 | an untagged object or a failed render changes nothing; otherwise only the object's two card paths can change, and a failed write leaves them as it left them; a processed object records its tagline and counts once |
| BuildPhase.CountProcessed | pelican_social_share/plugin.py:141 | the number of processed objects never exceeds the number of objects |
| BuildPhase.BuildRun | pelican_social_share/plugin.py:86-141 | the final count is the initial count plus the number of processed objects |
| BuildPhase.RunSnoc | pelican_social_share/plugin.py:88-141 | the loop over one more object is one more step of the loop body |
| BuildPhase.UntaggedIsSkipped | pelican_social_share/plugin.py:89-91 | an object without a tagline changes nothing: no file, no table entry, no count |
| BuildPhase.StepRecords | pelican_social_share/plugin.py:135-141 | a processed object records its tagline under its slug and counts once; an unprocessed one leaves the table and the count alone |
| BuildPhase.ProcessedBounded | pelican_social_share/plugin.py:86-141 | from a fresh start, `processed` is at most the number of content objects |
| BuildPhase.TaglinesAfterRun | pelican_social_share/plugin.py:139 | after the loop, a slug maps to the tagline of the last processed object with that slug; other entries are as before |
| BuildPhase.LastTaglineAt | pelican_social_share/plugin.py:139 | the last processed object with a slug is the one `LastTagline` reports |
| BuildPhase.LastTaglineNone | pelican_social_share/plugin.py:139 | with no processed object carrying the slug, `LastTagline` reports none |
| BuildPhase.LastProcessedTaglineWins | pelican_social_share/plugin.py:139 | when duplicate slugs are processed, the last one's tagline stays in the table |
| BuildPhase.UnprocessedSlugUntouched | pelican_social_share/plugin.py:107-133 | a slug whose objects all failed or had no tagline keeps its previous table entry, or its absence |
| BuildPhase.BuildFilesFrame | pelican_social_share/plugin.py:113-133 | the loop writes nothing but the two HTML files of objects whose card rendered |
| BuildPhase.BuildRunAppend | pelican_social_share/plugin.py:88-141 | the loop over two lists in a row is the loop over the first, then over the second |
| BuildPhase.BuildKeepsFiles | pelican_social_share/plugin.py:113-133 | the loop never deletes a file |
| BuildPhase.ProcessedCardsExist | pelican_social_share/plugin.py:113-141 | both card pages (content directory and output directory) of every processed object exist after the loop |
| BuildPhase.LastCardWritten | pelican_social_share/plugin.py:96-133 | when no later rendered object writes the same paths, both card pages of a processed object hold exactly its rendered HTML |
| CapturePhase.SocialPages | pelican_social_share/plugin.py:176-179 | every slug found has a ".html" file in the listing, and every ".html" file in the listing gives its slug |
| CapturePhase.SocialPagesDistinct | pelican_social_share/plugin.py:176-179 | a listing of distinct plain names gives distinct plain slugs |
| CapturePhase.TaglineFor | pelican_social_share/plugin.py:214 | `taglines.get(slug, "")`: a slug with an entry gets its tagline, a slug with none gets the empty tagline |
| CapturePhase.CaptureStep | pelican_social_share/plugin.py:213-257 | a slug with a tagline adds exactly one to generated + skipped + errors, and one without adds nothing; with hash skipping off nothing is ever skipped |
| CapturePhase.StepCases | pelican_social_share/plugin.py:213-257 | the five outcomes of the loop body: no tagline changes nothing; a current sidecar counts a skip; a page that fails to load counts an error and writes nothing; a screenshot whose write fails counts an error and leaves the PNG as the failed write left it; otherwise the PNG is written, the hash is saved when hash skipping is on, and one is counted as generated |
| CapturePhase.TaggedCount | pelican_social_share/plugin.py:214-216 | the number of slugs with a tagline is at most the number of slugs |
| CapturePhase.CaptureRun | pelican_social_share/plugin.py:209-257 | generated + skipped + errors grows by exactly the number of tagged slugs; with hash skipping off the skipped count does not grow |
| CapturePhase.CaptureRunSnoc | pelican_social_share/plugin.py:213-257 | the loop over one more slug is one more step of the loop body |
| CapturePhase.RunAppend | pelican_social_share/plugin.py:213-257 | the loop over two lists in a row is the loop over the first, then over the second |
| CapturePhase.StepFrame | pelican_social_share/plugin.py:218-248 | a slug's pass changes only its own PNG and its sidecar |
| CapturePhase.RunFrame | pelican_social_share/plugin.py:213-257 | a path that is no slug's PNG or sidecar is unchanged by the loop |
| CapturePhase.SkipIsLocal | pelican_social_share/plugin.py:221-223 | the skip decision for a slug depends only on its own PNG and sidecar |
| CapturePhase.HashPathInjective | pelican_social_share/plugin.py:311 | different PNG paths have different sidecars |
| CapturePhase.PngPathsApart | pelican_social_share/plugin.py:218 | different plain slugs have different PNG paths |
| CapturePhase.PngIsNoSidecar | pelican_social_share/plugin.py:218 | no slug's PNG path is any slug's sidecar path |
| CapturePhase.PathsApart | pelican_social_share/plugin.py:218-248 | one slug's pass never touches another slug's PNG or sidecar |
| CapturePhase.Isolate | pelican_social_share/plugin.py:213-257 | over distinct slugs, a slug's PNG or sidecar is changed only by that slug's own pass |
| CapturePhase.StepMakesCurrent | pelican_social_share/plugin.py:221-248 | with hash skipping on, a tagged slug that is captured with a writable sidecar, or is already current, is current after its pass |
| CapturePhase.CaptureMakesCacheCurrent | pelican_social_share/plugin.py:213-257 | the same holds at the end of the whole loop, over distinct slugs |
| CapturePhase.StepSkipsCurrent | pelican_social_share/plugin.py:221-225 | a current slug is counted as skipped and nothing is written |
| CapturePhase.AllCurrentSkipsAll | pelican_social_share/plugin.py:213-257 | when every tagged slug is current, the loop writes nothing and counts every tagged slug as skipped |
| CapturePhase.RunLeavesAllCurrent | pelican_social_share/plugin.py:213-257 | after a run in which every tagged slug could be captured or was current, every tagged slug is current |
| CapturePhase.AllCurrentOtherEnv | pelican_social_share/plugin.py:193-194 | whether a slug is current depends only on the hash settings, the hasher and the image directory, not on the browser |
| CapturePhase.RerunSkipsEverything | pelican_social_share/plugin.py:213-257 | a second run over the same slugs and taglines writes nothing and reports every tagged slug as skipped, whatever the browser does |
| CapturePhase.StepSavesOnlyAfterShot | pelican_social_share/plugin.py:243-248 | a pass changes a sidecar only when hash skipping is on, the slug has a tagline and its screenshot was written |
| CapturePhase.HashSavedOnlyAfterScreenshot | pelican_social_share/plugin.py:243-248 | over the whole loop, a changed sidecar means that hash skipping is on, the slug was captured and its PNG is in place |
| Plugin.ItemsOf | pelican_social_share/plugin.py:88-93 | one loop item per content object, in order, holding that object's slug and tagline |
| Plugin.BuildEnvOf | pelican_social_share/plugin.py:57-84 | the renderer and the disk's faults are passed through; the HTML directory, `OUTPUT_PATH/social`, the portrait URL, `SITEURL` and `SITENAME` come from the settings with the source's defaults ("" for the last two) |
| Plugin.CaptureEnvOf | pelican_social_share/plugin.py:163-194 | the hasher, the faults and the browser are passed through; the image directory, hash skipping (on by default) and hash version ("v1" by default) come from the settings |
| Plugin.ListSocialPages | pelican_social_share/plugin.py:169-179 | the loop collects exactly the slugs `SocialPages` describes, in listing order |
| Plugin.EarlyExit | pelican_social_share/plugin.py:151-200 | the capture handler reaches its loop if and only if screenshots are enabled, Playwright is installed, the social directory exists and has a card page, and the browser starts; otherwise the first failed condition, in that order, is the reported reason |
| Plugin.SocialShare.constructor | pelican_social_share/plugin.py:28 | the tagline table starts empty |
| Plugin.SocialShare.BuildObject | pelican_social_share/plugin.py:89-141 | one pass updates the disk, the table and the count as `BuildStep` says, and sets `social_image` exactly on a processed object |
| Plugin.SocialShare.BuildAt | pelican_social_share/plugin.py:88-141 | after the pass for object i, the state is `BuildRun` over the first i+1 objects and their metadata are updated accordingly, even when one object appears several times |
| Plugin.SocialShare.BuildLoop | pelican_social_share/plugin.py:86-141 | the loop leaves disk, table and count as `BuildRun` says, and exactly the processed objects get `social_image` |
| Plugin.SocialShare.BuildSocialPages | pelican_social_share/plugin.py:52-144 | a missing template changes nothing; otherwise the call has the effect of `BuildRun` over the objects' slugs and taglines |
| Plugin.SocialShare.BuildSocialPagesArticles | pelican_social_share/plugin.py:38-42 | articles are built exactly when the scope is "articles" or "both"; otherwise nothing changes |
| Plugin.SocialShare.BuildSocialPagesPages | pelican_social_share/plugin.py:45-49 | pages are built exactly when the scope is "pages" or "both"; otherwise nothing changes |
| Plugin.SocialShare.CaptureSocialCards | pelican_social_share/plugin.py:147-267 | an early exit leaves the disk unchanged and reports its reason; otherwise the disk and the counters are those of `CaptureRun` over the listed slugs, starting from zero counts |
| Plugin.SocialShare.CaptureLoop | pelican_social_share/plugin.py:209-257 | the screenshot loop leaves disk and counters as `CaptureRun` says |
| Plugin.SocialShare.CaptureSlug | pelican_social_share/plugin.py:214-257 | one pass updates the disk and counters as `CaptureStep` says |

## Left out

- `register` and the Pelican signal wiring: the handlers are called directly.
- Logging: every `logger` call, including the final "Generated N" and "Screenshots: …" summaries. The counters are returned instead.
- `serve_directory`: the HTTP server, its port and its thread. Whether the server and the browser start is the parameter `browserStarts`.
- Playwright internals: the viewport, the device scale factor and `wait_until` settings. Also the 15 s and 10 s timeouts, the swallowed `wait_for_selector` timeout and the 1 s wait. Whether a page loads and its screenshot is taken is the parameter `pageLoads`.
- `browser.close()` raising after the loop: the outer handler would only log it, and the files written stay written.
- SHA-256 itself: any function to 64 hex digits stands for it. Collision freedom cannot be proved, so results are stated about hash inputs, not digests.
- Jinja2: the `content_obj`, `article`, `page` and `SEO` template arguments are not in `RenderContext`. The renderer sees tagline, portrait URL, slug, site URL and site name.
- `os.makedirs` (plugin.py:73-74 and 166): the model has no directories. These calls sit outside every `try`, so when they fail the handler itself raises. No object is built, or the capture stops before listing. The model does not represent that exception.
- Text encoding: UTF-8 encoding and decoding, newline translation and a byte-order mark. A file that cannot be read as text is `Binary`.
- Settings of types other than text and boolean (the viewport tuple, for example). Python truthiness of a non-boolean `SOCIAL_DISABLE_SCREENSHOT` or `SOCIAL_HASH_SKIP` is not modelled.
- Metadata values other than text. A tagline that is present but empty is treated as missing, as the falsy check does.
- The order of `os.listdir` is arbitrary. The model takes the listing as given.
- `pelican_social_share/cli.py`, `generate_sample.py` and the example configuration are not part of this model.
- The model follows the code where the tests expect otherwise:
  - tests/test_plugin.py:173-175 expects an `image` entry and a "-social-share" file name.
  - tests/test_plugin.py:177-216 expects an object with an existing `image` to be skipped.
  - The code does neither.
- ContentHash.MakeContentHash: the hash input concatenates the three fields without a separator, so distinct inputs can collide (`AmbiguousHashInput`). Injectivity is stated only with slug and version, or slug and tagline, held fixed.
- FileStore.WriteResult, FileStore.Disk.Write: a write that fails after `open` leaves the file empty. A partly written file (some of the text flushed before the error) is not modelled.
