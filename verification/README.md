# SlideRush AI core, modelled in Dafny

SlideRush AI is a presentation service. A user picks a topic, a template and a slide count. An AI writes an outline and slide content. The user edits the slides in a browser editor and exports the deck as a PowerPoint file or as print-ready HTML. Plans (free, pro, ultra) cap the monthly generations, exports and rewrites, gate premium features, and decide whether exports carry a watermark. Razorpay subscription webhooks move users between plans.

This project models the decision logic of that service as pure Dafny functions over immutable datatypes, and proves properties about them. There is one module per source file:

| module | file | source |
|---|---|---|
| `Common` | common.dfy | JavaScript truthiness of optional strings (`x || d`) |
| `Deck` | build_deck.dfy | src/lib/pptx/build-deck.ts: themes, image prefetch, layout geometry, title and content slides, watermark, notes |
| `Print` | print_html.dfy | src/lib/pdf/generate.ts: print themes, `escapeHtml`, the document's sections |
| `Quota` | quota.dfy | src/lib/usage/quota.ts: plan limits, quota checks, the usage counter update |
| `Gating` | gating.dfy | src/lib/features/gating.ts: feature access by plan, slide cap, premium templates, upgrade texts |
| `ProjectsStore` | projects_store.dfy | src/store/projects.store.ts |
| `EditorStore` | editor_store.dfy | src/store/editor.store.ts |
| `Shortcuts` | shortcuts.dfy | src/components/editor/use-keyboard-shortcuts.ts |
| `AiSchemas` | ai_schemas.dfy | src/lib/validation/ai-schemas.ts |
| `Webhook` | billing_webhook.dfy | src/app/api/billing/webhook/route.ts and src/lib/razorpay/verify-webhook.ts |
| `Progress` | generation_progress.dfy | src/components/create/generation-progress.tsx |
| `SlideCount` | slide_count.dfy | src/components/create/slidecount-selector.tsx |
| `RecentProjects` | recent_projects.dfy | src/components/dashboard/recent-projects.tsx |

Conventions used throughout:

- **Optional strings.** An optional string is `Option<string>`. `Truthy` is false for `None` and for `""`, as in JavaScript. `OrElse(o, d)` is `o || d`.
- **Geometry.** Slide geometry is in hundredths of an inch: 0.5 becomes 50 and 4.3 becomes 430. A percentage width (`"90%"`) is a separate constructor.
- **Outside world.**
  - Image download, HMAC-SHA256 and `JSON.parse` are function parameters (oracles).
  - A Firestore read is a value: `ReadError`, `Missing` or `Present(doc)`.
  - The clock is an integer parameter `now`, in milliseconds.
- **Stores and webhook.** The Zustand stores and the webhook are state-transition functions: the old state goes in and the new state comes out.

Behaviour of the code worth noting:

- Neither export builder sorts slides by `order`. Both walk the array as given. `Deck.DeckIgnoresOrderField` states that renumbering `order` changes nothing.
- `prefetchImages` does not deduplicate. Its `imageMap.has` test runs before any download completes. See Findings.
- The webhook answers 503 when the database is missing. Any error thrown after the signature check is answered 200 with whatever writes had already happened.
- A stored plan string that names no plan: the counter checks allow, and feature gating falls through to the free rule. The panic check depends on the string. For most strings `PLAN_LIMITS[plan]` is `undefined`, reading its field throws, and the caught error allows. For a name that every object inherits, such as `toString` or `constructor`, the lookup finds a function, its `canUsePanicMode` is `undefined`, and the check denies.

## Model

| member | source | states |
|---|---|---|
| Common.OrElse | src/lib/pptx/build-deck.ts:183-186 | `o || d` on an optional string: the value when it is a non-empty string, the default otherwise |
| Common.Normalize | src/lib/pptx/build-deck.ts:342 | a value is kept exactly when it is truthy |
| Deck.GetTemplateTheme | src/lib/pptx/build-deck.ts:366-368 | theme lookup never fails: a known id gives its own theme, and any other id, including the empty one, gives `modern` |
| Deck.ImageRef | src/lib/pptx/build-deck.ts:103 | the image key is `imageUrl` when truthy, else `imageAssetId` when truthy, else none; a key is never empty |
| Deck.FetchRequests | src/lib/pptx/build-deck.ts:98-111 | as written, the requested keys are exactly the referenced keys, and there are no more requests than slides |
| Deck.FetchMultiplicity | src/lib/pptx/build-deck.ts:102-111 | each key is requested exactly as many times as slides reference it |
| Deck.FetchRequestsAppend | src/lib/pptx/build-deck.ts:102-111 | the requests follow slide order: the requests of two runs of slides are the first run's followed by the second's |
| Deck.FetchRequestsSingle | src/lib/pptx/build-deck.ts:103-105 | a single slide requests its reference when it has one, and nothing otherwise |
| Deck.DuplicateReferenceFetchedTwice | src/lib/pptx/build-deck.ts:102-111 | two slides with one URL request that URL twice, because `imageMap.has` is consulted before any download completes |
| Deck.DistinctFetchRequests | src/lib/pptx/build-deck.ts:102-111 | the deduplicated request list: the same keys, each once |
| Deck.CollectFetched | src/lib/pptx/build-deck.ts:106-113 | the map holds exactly the requested keys whose download returned data, each mapped to that data |
| Deck.PrefetchImages | src/lib/pptx/build-deck.ts:98-115 | a key is in the image map iff some slide references it and its download returned data, and it maps to that data |
| Deck.PrefetchIgnoresDuplicates | src/lib/pptx/build-deck.ts:102-115 | the duplicate downloads of the code as written yield the same map as downloading each key once |
| Deck.AddSlideImage | src/lib/pptx/build-deck.ts:129-172 | three cases: data present gives one image; a reference without data gives a dashed placeholder and "Image unavailable" text in the same box; no reference gives nothing |
| Deck.LayoutOf | src/lib/pptx/build-deck.ts:265-267 | a slide is title-only iff its layout is `title` or it has no bullets; an empty layout with bullets is the full-width layout |
| Deck.Midpoint | src/lib/pptx/build-deck.ts:297 | `ceil(n/2)`: the left column holds the larger half, at most one more than the right |
| Deck.Body | src/lib/pptx/build-deck.ts:264-339 | the blocks below the heading are empty exactly for the title-only layout |
| Deck.BodyKeepsBullets | src/lib/pptx/build-deck.ts:267-339 | every layout except title-only shows all the bullets, in order, exactly once; title-only shows none |
| Deck.TwoColumnSplit | src/lib/pptx/build-deck.ts:295-321 | two columns at x=0.5 and x=5.2, width 4.3; left holds the first `ceil(n/2)` bullets, and left then right is the original list |
| Deck.LayoutGeometry | src/lib/pptx/build-deck.ts:269-338 | image-left puts the image at x=0.5 and text at x=5.5; image-right mirrors it; full width is text w=9 plus a 3×2.5 image at (6.5,4) only when an image is referenced |
| Deck.ColumnsDoNotOverlap | src/lib/pptx/build-deck.ts:269-321 | in the image-left, image-right and two-column layouts the two boxes are horizontally disjoint |
| Deck.FullWidthImageOverlapsText | src/lib/pptx/build-deck.ts:322-338 | the default layout's corner image overlaps the full-width text box, horizontally and vertically |
| Deck.TitleSlide | src/lib/pptx/build-deck.ts:217-247 | the title slide uses no master, has no watermark and no notes, shows `title || topic`, and adds the "Created by" line iff the user name is truthy |
| Deck.BodyHasNoWatermark | src/lib/pptx/build-deck.ts:264-339 | no layout emits a watermark block |
| Deck.ContentSlide | src/lib/pptx/build-deck.ts:250-358 | a content slide is on the master, starts with its title heading, has a watermark iff free tier, and has notes iff the speaker notes are truthy |
| Deck.ContentSlides | src/lib/pptx/build-deck.ts:249-358 | one content slide per record, in input order |
| Deck.BuildDeck | src/lib/pptx/build-deck.ts:174-364 | one title slide then one content slide per record; title is `title || topic`; author and company default to "SlideRush AI" and the master shows the company |
| Deck.DeckTheme | src/lib/pptx/build-deck.ts:189-190 | `templateId || "modern"` then the lookup: the same theme as looking the id up directly, so an empty id gives `modern` |
| Deck.DeckShape | src/lib/pptx/build-deck.ts:217-358 | the deck has `n + 1` slides, title slide first; content slide `i+1` carries record `i`'s heading, a watermark iff free tier, and notes iff its notes are truthy; the title slide has no watermark |
| Deck.ImageIgnoresOrder | src/lib/pptx/build-deck.ts:129-172 | a slide's `order` field does not affect its image blocks |
| Deck.BodyIgnoresOrder | src/lib/pptx/build-deck.ts:250-358 | a slide's `order` field does not affect the blocks below its heading |
| Deck.ContentSlideIgnoresOrder | src/lib/pptx/build-deck.ts:250 | a slide's `order` field does not affect its content slide |
| Deck.PrefetchSameReferences | src/lib/pptx/build-deck.ts:98-115 | the image map depends only on the slides' image references |
| Deck.DeckIgnoresOrderField | src/lib/pptx/build-deck.ts:174-364 | renumbering `order` leaves the whole deck unchanged: the builder does not sort |
| Print.GetThemeForTemplate | src/lib/pdf/generate.ts:207-240 | the four known ids give their own theme; an inherited name such as `toString` finds no theme; any other id gives `modern` |
| Print.PrintThemeMatchesDeckTheme | src/lib/pdf/generate.ts:207-240 | for every id with a print theme, the print theme and the deck theme agree in colours, up to the leading `#`, and in fonts |
| Print.EscapeChar | src/lib/pdf/generate.ts:196-203 | the substitution table as written: `&` and `'` become entities; `<`, `>` and `"` map to themselves |
| Print.EscapeHtml | src/lib/pdf/generate.ts:195-204 | escapeHtml as written: the output is never shorter, and has the input's length exactly when the input has no `&` and no `'` |
| Print.EscapeHtmlAppend | src/lib/pdf/generate.ts:195-204 | escaping distributes over concatenation |
| Print.EscapeHtmlPerChar | src/lib/pdf/generate.ts:196-203 | as written, `&` becomes `&amp;`, `'` becomes `&#039;`, and every other character, `<`, `>` and `"` included, is unchanged |
| Print.EscapeHtmlIdentity | src/lib/pdf/generate.ts:195-204 | a string without `&` and `'` is returned unchanged |
| Print.EscapeHtmlPassesMarkup | src/lib/pdf/generate.ts:198-200 | as written, `<script>` passes through unescaped |
| Print.EscapeHtmlIntended | src/lib/pdf/generate.ts:195-204 | with the evidently intended table, the output contains none of `<`, `>`, `"`, `'` |
| Print.EscapeHtmlRoundTrip | src/lib/pdf/generate.ts:195-204 | decoding the entities of the as-written escape gives back the input |
| Print.EscapeHtmlIntendedRoundTrip | src/lib/pdf/generate.ts:195-204 | decoding the entities of the intended escape gives back the input |
| Print.SlidePagesCount | src/lib/pdf/generate.ts:29-42 | slide sections count as pages and carry no watermark |
| Print.ImagePrefix | src/lib/pdf/generate.ts:39 | `substring(0, 10)`: the first `min(10, n)` characters, the whole id when it is at most 10 long |
| Print.SlidePage | src/lib/pdf/generate.ts:29-41 | one slide section: gradient from the theme, escaped title, one escaped item per bullet, the image placeholder and the notes block |
| Print.RenderWith | src/lib/pdf/generate.ts:22-192 | body = watermark (free tier only), then the title section, then one section per record in input order; no document (the TypeError on `theme.fonts`) exactly for an inherited template id |
| Print.GenerateHtmlContent | src/lib/pdf/generate.ts:22-192 | the as-written escapes; throws exactly for an inherited template id; the head title is `title || topic` through escapeHtml |
| Print.GeneratePrintHtml | src/lib/pdf/generate.ts:243-249 | generatePrintHTML returns the same result as generateHTMLContent, themed by the project's template |
| Print.DocumentShape | src/lib/pdf/generate.ts:22-188 | for a template id that is not an inherited name: `n + 1` slide sections; exactly one watermark on the free tier and none otherwise; the head title is `title || topic` escaped |
| Print.SlidePageContents | src/lib/pdf/generate.ts:29-41 | one escaped list item per bullet, in order; an image placeholder iff the asset id is truthy, holding its first 10 characters through the image escape; notes iff truthy |
| Print.IntendedDocumentIsInjectionFree | src/lib/pdf/generate.ts:29-49 | with the intended escape on every inserted string, no title, bullet, image placeholder or note in the document contains a markup character |
| Print.AsWrittenDocumentCarriesMarkup | src/lib/pdf/generate.ts:36 | as written, a bullet `<b>` reaches the document as markup |
| Print.AsWrittenPlaceholderCarriesMarkup | src/lib/pdf/generate.ts:39 | as written, the asset id is inserted without escaping, so an asset id `<b>` reaches the document as markup even with the intended table |
| Quota.LimitsMonotone | src/lib/usage/quota.ts:5-33 | every numeric limit grows free ≤ pro ≤ ultra; only ultra may use panic mode; only free has a watermark |
| Quota.Limits | src/lib/usage/quota.ts:5-33 | PLAN_LIMITS: free 5/3/10/5 per month, watermark, 12 slides; pro 50/100/100/50, 25 slides; ultra 999999 each, panic mode, 50 slides |
| Quota.ParsePlan | src/lib/usage/quota.ts:83 | `""` and `"free"` name free, `"pro"` pro, `"ultra"` ultra, anything else no plan |
| Quota.LookupLimits | src/lib/usage/quota.ts:103 | `PLAN_LIMITS[plan]`: the plan's limits for the three plan names, an inherited object for the names every object inherits, `undefined` otherwise; `""` reads as free, as `ParsePlan` does (every caller passes `plan || "free"`, which is never empty) |
| Quota.GetUserQuota | src/lib/usage/quota.ts:58-104 | as written: no database, an error; a missing user is a fresh free account with zero counters and a period ending a month ahead; a document without a quota map throws, because its default `periodStart` is a `Date` and has no `toDate`; in a stored map, missing counters read as 0, a stored period end is kept and a missing one is a month ahead; the limits entry is the lookup of the plan string |
| Quota.GetUserQuotaIntended | src/lib/usage/quota.ts:84-101 | as intended: agrees with the as-written read wherever that returns, and reads a document without a quota map as zero counters in a period ending a month ahead |
| Quota.CheckCounterQuota | src/lib/usage/quota.ts:108-185 | denied iff the quota reads, the plan is one of the three, the period has not ended and used ≥ limit; a denial carries the count, the limit and "/pricing"; every error (a failed read, a document without a quota map), and an inherited plan name, allows |
| Quota.CheckGenerationQuota | src/lib/usage/quota.ts:108-133 | denied iff, in the current period of a known plan, the generations used reach the plan's monthly generations; the denial carries that limit |
| Quota.CheckExportQuota | src/lib/usage/quota.ts:136-159 | the same for exports |
| Quota.CheckRewriteQuota | src/lib/usage/quota.ts:162-185 | the same for rewrites |
| Quota.CheckPanicModeQuota | src/lib/usage/quota.ts:188-205 | denied exactly for a missing user, or a document with a quota map whose plan is free, pro or a name every object inherits; every error allows, including the throw for a document without a quota map and an unknown plan's `undefined` entry |
| Quota.FreshUserCheck | src/lib/usage/quota.ts:66-80 | a user with no document passes every counter check but not the panic check |
| Quota.SetCount | src/lib/usage/quota.ts:235-237 | sets the named counter and leaves the other counters and the period alone |
| Quota.IncrementUsage | src/lib/usage/quota.ts:208-273 | as written: no database, nothing happens; a failed read, a missing document or a document without a quota map rejects; in the current period the document is updated as intended; after the period ended the reset update rejects |
| Quota.IncrementUsageIntended | src/lib/usage/quota.ts:218-240 | the reset as intended: the document is updated and its plan kept whenever it exists |
| Quota.IncrementEffect | src/lib/usage/quota.ts:218-239 | for the intended update, read through the intended getter: in the current period only the named counter rises by one and the period end stays; after the period ended every counter is 0 except the named one, which is 1, and the period restarts |
| Quota.CheckThenIncrementWithinLimit | src/lib/usage/quota.ts:113-127 | a counter that passed its check in the current period is at most its limit after the increment |
| Quota.ExpiredPeriodIncrementRejected | src/lib/usage/quota.ts:222-232 | as written, an increment after the period ended rejects where the intended one resets the counters |
| Quota.ExpiredPeriodStaysOpen | src/lib/usage/quota.ts:112-232 | as written, once a stored period has ended, increments keep rejecting and every later counter check allows |
| Quota.QuotalessUserUncounted | src/lib/usage/quota.ts:84-101 | as written, for a document without a quota map every increment rejects and every counter check and the panic check allow |
| Quota.FreeSignUpDocumentAsWritten | src/lib/firebase/users.ts:12-21 | the document sign-up creates (plan "free", no quota map) is allowed panic mode, and its generation increment rejects |
| Quota.IntendedFirstIncrementCounts | src/lib/usage/quota.ts:84-101 | with the intended reading, the first increment of a quota-less document stores a map that the as-written read returns, with the named counter at 1 and the others at 0 |
| Gating.AllFeaturesComplete | src/lib/features/gating.ts:5-50 | the feature list names all seven features |
| Gating.Info | src/lib/features/gating.ts:14-50 | FEATURE_INFO: premium templates, AI rewrite and PDF export need pro; image regeneration, panic mode, branding and unlimited slides need ultra |
| Gating.FilterMembers | src/lib/features/gating.ts:98-106 | the filter keeps exactly the features the plan allows |
| Gating.GetAccessibleFeatures | src/lib/features/gating.ts:92-107 | a feature is listed iff the plan allows it: ultra all, pro the non-ultra ones, free the free-only ones |
| Gating.FilterStep | src/lib/features/gating.ts:97-101 | the filter over a tail of the feature list keeps the head exactly when the plan allows it, then filters the rest |
| Gating.ProFeatures | src/lib/features/gating.ts:97-101 | pro gets exactly premium templates, AI rewrite and PDF export, in that order |
| Gating.FreeAndUltraFeatures | src/lib/features/gating.ts:93-106 | free gets nothing; ultra gets all seven in declaration order |
| Gating.AccessMonotone | src/lib/features/gating.ts:92-107 | free ⊆ pro ⊆ ultra |
| Gating.CanAccessFeature | src/lib/features/gating.ts:53-89 | fails open without a database; a missing user or unknown plan gets the free answer; otherwise access is membership in the plan's accessible features |
| Gating.CanCreateSlides | src/lib/features/gating.ts:146-149 | allowed iff the count is at most 12 on free, 25 on pro, 50 on ultra |
| Gating.CanCreateSlidesMonotone | src/lib/features/gating.ts:146-149 | a count allowed on a plan is allowed on every higher plan |
| Gating.SliderCountsAllowed | src/components/create/slidecount-selector.tsx:59-60 | every count the 6..12 creation slider offers is allowed on every plan |
| Gating.FreeSlideCap | src/lib/features/gating.ts:146-149 | the free plan allows 12 slides and not 13 |
| Gating.IsTemplatePremium | src/lib/features/gating.ts:110-119 | premium iff the id is one of the five listed ids |
| Gating.PremiumTemplatesAndThemes | src/lib/features/gating.ts:110-119 | corporate and creative are premium with their own deck theme; startup, minimal_pro and academic_pro are premium but render with `modern`; the free registered ids are modern and minimal |
| Gating.GetUpgradeMessage | src/lib/features/gating.ts:122-143 | ultra-only features get the Ultra title and button, the others the Pro ones; the message opens with the feature's name |
| ProjectsStore.FindIndex | src/store/projects.store.ts:19 | -1 iff no project has the id, else the first index that has it |
| ProjectsStore.SetProjects | src/store/projects.store.ts:15 | replaces the list and keeps the loading flag |
| ProjectsStore.SetIsLoading | src/store/projects.store.ts:16 | sets the flag and keeps the list |
| ProjectsStore.UpsertProject | src/store/projects.store.ts:17-24 | a new id is prepended and the rest kept; a known id is replaced at its first index, length and other entries unchanged; the project is always present afterwards |
| ProjectsStore.UpsertFindsProject | src/store/projects.store.ts:17-24 | after an upsert, the first project with the id is the upserted one |
| ProjectsStore.UpsertIdempotent | src/store/projects.store.ts:17-24 | upserting the same project twice equals upserting it once |
| EditorStore.Merge | src/store/editor.store.ts:48 | each field the patch carries wins, id, project id, order, layout, title, bullets, notes and image alike; an empty patch changes nothing |
| EditorStore.SetProject | src/store/editor.store.ts:41 | changes only the project |
| EditorStore.SetSlides | src/store/editor.store.ts:42 | changes only the slides |
| EditorStore.SelectSlide | src/store/editor.store.ts:43 | changes only the selection |
| EditorStore.SetSaveStatus | src/store/editor.store.ts:81 | changes only the save status |
| EditorStore.MarkDirty | src/store/editor.store.ts:83 | sets the dirty flag and changes nothing else |
| EditorStore.MarkSaved | src/store/editor.store.ts:85-86 | clean, status saved, stamped with the clock; content and selection kept |
| EditorStore.MarkSavedAbsorbsDirty | src/store/editor.store.ts:83-86 | marking dirty before saving leaves no trace |
| EditorStore.UpdateSlides | src/store/editor.store.ts:47-49 | same length and order; slides with the id are merged, all others identical |
| EditorStore.UpdateSlide | src/store/editor.store.ts:45-51 | updates the slides as above, sets dirty, and keeps the rest of the state |
| EditorStore.UpdateSlideNoOp | src/store/editor.store.ts:45-51 | an empty patch, or an id no slide has, leaves the slides unchanged |
| EditorStore.UpdateSlideKeepsIds | src/store/editor.store.ts:47-49 | a patch without an id keeps every slide's id |
| EditorStore.AddSlide | src/store/editor.store.ts:53-57 | appends the slide at the end, existing slides unchanged, dirty set |
| EditorStore.WithoutMembers | src/store/editor.store.ts:61 | the survivors are exactly the slides whose id differs |
| EditorStore.WithoutCons | src/store/editor.store.ts:61 | the filter keeps or drops the first slide, then filters the rest |
| EditorStore.WithoutAppend | src/store/editor.store.ts:61 | the filter distributes over concatenation, so survivors keep their relative order |
| EditorStore.WithoutAbsent | src/store/editor.store.ts:61 | deleting an id no slide has leaves the list unchanged |
| EditorStore.FirstIdOr | src/store/editor.store.ts:64 | `slides[0]?.id || null`: the first id when there is a slide and its id is non-empty |
| EditorStore.DeleteSlide | src/store/editor.store.ts:59-67 | as written: survivors filtered; a deleted selection falls back to the first id of the list before deletion; other selections kept; dirty set |
| EditorStore.DeleteSelectedFirstReselectsIt | src/store/editor.store.ts:62-65 | as written, deleting the selected first slide selects the deleted id, which no surviving slide has |
| EditorStore.DeleteSlideIntended | src/store/editor.store.ts:59-67 | with the fallback taken from the survivors, the deleted id is never selected afterwards |
| EditorStore.DeleteSlideIntendedKeepsSelection | src/store/editor.store.ts:59-67 | if the selection named a slide, or nothing, before the intended deletion, it still does afterwards |
| EditorStore.DeleteSlideVersionsAgree | src/store/editor.store.ts:59-67 | the two versions differ only when the deleted slide is both selected and first |
| EditorStore.Lookup | src/store/editor.store.ts:71-74 | the map lookup finds a slide with the id iff one exists, and what it finds is a slide with that id |
| EditorStore.LookupLastWins | src/store/editor.store.ts:71-74 | the later entry overwrites in the map, so the slide found is the last one with the id |
| EditorStore.Reordered | src/store/editor.store.ts:72-77 | the result has at most one slide per listed id |
| EditorStore.ReorderedSnoc | src/store/editor.store.ts:72-77 | the list for all ids is the list for all but the last, then the last id's contribution |
| EditorStore.PlacedFound | src/store/editor.store.ts:73-76 | an id with a slide contributes that slide with `order` set to the id's index |
| EditorStore.PlacedExtends | src/store/editor.store.ts:72-77 | a slide placed by a prefix of the id list is placed by the whole list |
| EditorStore.ReorderedPlaced | src/store/editor.store.ts:72-77 | each kept slide is the listed id's slide with `order` set to the id's index |
| EditorStore.AscendingSnoc | src/store/editor.store.ts:72-77 | appending at most one slide numbered n to a list ascending below n keeps it ascending |
| EditorStore.ReorderedAscending | src/store/editor.store.ts:72-77 | the kept slides' orders lie below the number of ids and strictly increase |
| EditorStore.ReorderedCovers | src/store/editor.store.ts:72-77 | every listed id that has a slide contributes it, renumbered to the id's index |
| EditorStore.ReorderSlides | src/store/editor.store.ts:69-79 | replaces the slides with the reordered list, sets dirty, keeps the rest |
| EditorStore.LookupDistinct | src/store/editor.store.ts:71-74 | with distinct ids, the lookup returns the one slide with the id |
| EditorStore.ReorderByOwnIds | src/store/editor.store.ts:69-79 | reordering by the slides' own ids keeps them in place and sets `order` to the position |
| EditorStore.PlacedOwnId | src/store/editor.store.ts:73-76 | with distinct ids, the n-th own id places slide n with `order` n |
| EditorStore.Renumbered | src/store/editor.store.ts:76 | the first n slides, each with `order` set to its position |
| EditorStore.RenumberedSnoc | src/store/editor.store.ts:76 | renumbering n slides extends renumbering n-1 by the renumbered n-th slide |
| EditorStore.ReorderPrefix | src/store/editor.store.ts:72-77 | the same holds for every prefix of the id list |
| Shortcuts.CreateEditorShortcuts | src/components/editor/use-keyboard-shortcuts.ts:56-119 | Save comes first, and the list has one entry per supplied handler |
| Shortcuts.PushKeeps | src/components/editor/use-keyboard-shortcuts.ts:73-116 | each conditional push keeps the list made of supplied shortcuts in the builder's order |
| Shortcuts.EditorShortcutsOrdered | src/components/editor/use-keyboard-shortcuts.ts:56-119 | every entry is the shortcut of a supplied handler, in the order save, export, undo, redo, delete, duplicate |
| Shortcuts.EveryHandlerListed | src/components/editor/use-keyboard-shortcuts.ts:73-118 | every supplied handler has its shortcut, with the source's key and modifiers, in the list |
| Shortcuts.ShortcutFor | src/components/editor/use-keyboard-shortcuts.ts:64-118 | the shortcut entry of each action carries that action |
| Shortcuts.ToLower | src/components/editor/use-keyboard-shortcuts.ts:37 | lowercases letters A-Z character by character, keeping the length |
| Shortcuts.ToLowerIdempotent | src/components/editor/use-keyboard-shortcuts.ts:37 | lowercasing twice equals lowercasing once |
| Shortcuts.Matches | src/components/editor/use-keyboard-shortcuts.ts:34-37 | key equal ignoring case; ctrl or meta held when the shortcut names either; shift held exactly when the shortcut names it |
| Shortcuts.MatchIgnoresCase | src/components/editor/use-keyboard-shortcuts.ts:37 | matching does not depend on the key's case |
| Shortcuts.UndoRedoExclusive | src/components/editor/use-keyboard-shortcuts.ts:36 | shift must agree exactly, so undo and redo never match the same event |
| Shortcuts.FirstMatch | src/components/editor/use-keyboard-shortcuts.ts:33-44 | the first shortcut in list order that matches, or none when none matches |
| Shortcuts.FirstMatchIs | src/components/editor/use-keyboard-shortcuts.ts:33-44 | a matching position with no earlier match is the one found |
| Shortcuts.HandleKeyDown | src/components/editor/use-keyboard-shortcuts.ts:20-44 | in a text field only ctrl/meta + s or e proceed; otherwise at most one action runs, that of the first matching shortcut |
| Shortcuts.LoweredKey | src/components/editor/use-keyboard-shortcuts.ts:37 | each shortcut's key, lowercased, is the literal the comparison sees |
| Shortcuts.SpecialMatchesSaveOrExport | src/components/editor/use-keyboard-shortcuts.ts:21-31 | an event that passes the text-field filter can only match the save or export shortcut |
| Shortcuts.TextFieldOnlySaveOrExport | src/components/editor/use-keyboard-shortcuts.ts:21-31 | inside a text field the editor's shortcuts can only save or export |
| Shortcuts.AllShortcuts | src/components/editor/use-keyboard-shortcuts.ts:56-119 | with every handler supplied the list holds all six shortcuts in order |
| Shortcuts.KeyDiffers | src/components/editor/use-keyboard-shortcuts.ts:37 | a shortcut whose lowercased key differs from the pressed key's does not match |
| Shortcuts.UndoOnFullList | src/components/editor/use-keyboard-shortcuts.ts:33-44 | ctrl+z against the full list skips save and export and finds undo |
| Shortcuts.RedoOnFullList | src/components/editor/use-keyboard-shortcuts.ts:33-44 | ctrl+shift+Z against the full list skips save, export and undo and finds redo |
| Shortcuts.DeleteOnFullList | src/components/editor/use-keyboard-shortcuts.ts:33-44 | Delete outside a text field, without meta or shift, finds the delete shortcut |
| Shortcuts.UndoDispatch | src/components/editor/use-keyboard-shortcuts.ts:33-44 | with every handler supplied, ctrl+z runs undo |
| Shortcuts.RedoDispatch | src/components/editor/use-keyboard-shortcuts.ts:33-44 | with every handler supplied, ctrl+shift+Z runs redo and not undo |
| Shortcuts.DeleteIgnoresCtrl | src/components/editor/use-keyboard-shortcuts.ts:34-35 | the Delete key runs delete whether or not ctrl is held |
| AiSchemas.ParseAIOutput | src/lib/validation/ai-schemas.ts:76-87 | returns the data iff it satisfies the schema, and nothing otherwise |
| AiSchemas.ValidSlideContent | src/lib/validation/ai-schemas.ts:6-22 | title 1..200; 1..10 bullets of at most 300; notes at most 2000; one of the nine layout hints; image query at most 100 |
| AiSchemas.ValidOutlineSlide | src/lib/validation/ai-schemas.ts:29-45 | title 1..200; 1..8 key points of at most 300; purpose at most 200; one of the nine layout hints; image query at most 100 |
| AiSchemas.ValidDeckOutline | src/lib/validation/ai-schemas.ts:27-47 | 1..30 valid outline slides |
| AiSchemas.ValidTopicSuggestions | src/lib/validation/ai-schemas.ts:52-54 | 1..10 suggestions of 1..200 characters |
| AiSchemas.ValidRewrittenContent | src/lib/validation/ai-schemas.ts:59-63 | title 1..200; 1..10 bullets of at most 300; notes at most 2000 |
| AiSchemas.ValidPanicDeck | src/lib/validation/ai-schemas.ts:68-70 | 1..30 valid slide contents |
| AiSchemas.RewriteIsSlideContentRestricted | src/lib/validation/ai-schemas.ts:6-22 | the rewrite schema uses the slide schema's title, bullet and notes bounds and nothing else |
| AiSchemas.OutlineSlideIsSlideContent | src/lib/validation/ai-schemas.ts:27-47 | a valid outline slide, with its key points as bullets, is valid slide content |
| AiSchemas.NineBulletsNotAnOutline | src/lib/validation/ai-schemas.ts:8-33 | the converse fails: nine bullets are valid content but not a valid outline slide |
| AiSchemas.CheckPanicDeck | src/lib/validation/ai-schemas.ts:68-70 | the element-by-element check accepts exactly the panic decks of 1..30 valid slides |
| Webhook.VerifySignature | src/lib/razorpay/verify-webhook.ts:7-28 | valid iff a truthy secret exists and the signature equals the hex HMAC; `timingSafeEqual` throws exactly when the UTF-8 byte lengths differ |
| Webhook.VerifySignatureIntended | src/lib/razorpay/verify-webhook.ts:7-28 | never throws, and accepts exactly what the as-written check accepts |
| Webhook.Utf8Length | src/lib/razorpay/verify-webhook.ts:24-27 | `Buffer.from(s).length`: between one and four bytes per character |
| Webhook.Utf8LengthAscii | src/lib/razorpay/verify-webhook.ts:24-27 | the byte length equals the character length exactly when every character is ASCII |
| Webhook.ByteAndCharLengthsDisagree | src/lib/razorpay/verify-webhook.ts:24-27 | equal character lengths can differ in bytes, and different character lengths can agree |
| Webhook.StatusCode | src/app/api/billing/webhook/route.ts:13-138 | 200 exactly for an acknowledged or a failed-processing reply |
| Webhook.KindOf | src/app/api/billing/webhook/route.ts:41-130 | activated and charged are activations; cancelled, completed and expired are terminations |
| Webhook.Suffix | src/app/api/billing/webhook/route.ts:101 | for the three ending events, `"subscription."` followed by the suffix is the event type |
| Webhook.Kind | src/app/api/billing/webhook/route.ts:24-41 | an event without a type takes the `default` branch |
| Webhook.FindSub | src/app/api/billing/webhook/route.ts:48-56 | the first subscription record with the Razorpay id, or none |
| Webhook.SubscriptionEvent | src/app/api/billing/webhook/route.ts:42-117 | a subscription event never touches the event log |
| Webhook.Dispatch | src/app/api/billing/webhook/route.ts:41-130 | payment failures and unhandled events change nothing |
| Webhook.HandleWebhook | src/app/api/billing/webhook/route.ts:7-140 | missing signature 400 and invalid 401, both without effect; a throwing check is answered 200 without effect; no database 503; the log grows exactly when its record has a type, a payload and an id, and otherwise the reply is 200 "Processing failed" with no effect; records change only after logging |
| Webhook.WrongLengthSignatureAnswered200 | src/lib/razorpay/verify-webhook.ts:24-27 | as written, a forged signature whose UTF-8 byte length differs from the digest's is answered 200, not 401 |
| Webhook.IntendedRejectsForgedSignature | src/app/api/billing/webhook/route.ts:17-21 | with the intended check, every forged signature is answered 401 without effect |
| Webhook.AcceptedEventIsLogged | src/app/api/billing/webhook/route.ts:32-39 | an accepted event with a type and a payload is appended to the billing log, with `event_id || id`, before dispatch |
| Webhook.PayloadlessEventNotLogged | src/app/api/billing/webhook/route.ts:25-39 | an accepted event without a payload is answered 200 "Processing failed" and leaves every record as it was |
| Webhook.ActivationUpgradesUser | src/app/api/billing/webhook/route.ts:42-80 | activation sets the status to the entity's status or "active" and gives the user the subscription's plan and doc id |
| Webhook.TerminationDowngradesUser | src/app/api/billing/webhook/route.ts:82-117 | termination sets the status to the entity's status or the event suffix, sets `cancelledAt` only for cancelled, and moves the user to free |
| Webhook.MissingUserLeavesPartialUpdate | src/app/api/billing/webhook/route.ts:60-77 | when the user document is missing, the subscription record has already been stamped, the users are unchanged, and the reply is "Processing failed" (200) |
| Webhook.UnmatchedSubscriptionChangesNothing | src/app/api/billing/webhook/route.ts:44-55 | no entity, or no matching subscription, leaves subscriptions and users unchanged |
| Webhook.ActivateThenCancel | src/app/api/billing/webhook/route.ts:42-117 | an activation followed by a cancellation of the same subscription leaves its user on free |
| Progress.CurrentStage | src/components/create/generation-progress.tsx:28-35 | thresholds: below 10 initializing, below 30 outline, below 70 slides, below 90 images, below 100 finalize, else complete |
| Progress.StageMonotone | src/components/create/generation-progress.tsx:28-35 | the stage never moves backwards as progress grows |
| Progress.CompletedStages | src/components/create/generation-progress.tsx:37-43 | a prefix of [outline, slides, images], one more at 30, 70 and 90 |
| Progress.CurrentNotCompleted | src/components/create/generation-progress.tsx:28-43 | the current stage is never completed, and every completed stage precedes it |
| Progress.CompletedGrows | src/components/create/generation-progress.tsx:37-43 | completed stages only accumulate |
| Progress.StageProgress | src/components/create/generation-progress.tsx:45-58 | at most 100; 0 while initializing and when complete; within [0,100) inside a stage |
| Progress.StageProgressMonotone | src/components/create/generation-progress.tsx:45-58 | within one stage, stage progress rises with overall progress |
| Progress.Row | src/components/create/generation-progress.tsx:83-98 | a row is done iff completed, and active iff current and not completed |
| Progress.FinalizeRowRegresses | src/components/create/generation-progress.tsx:37-43 | as written, the finalize row spins at 95 and turns grey again at 100 |
| Progress.CompletedStagesIntended | src/components/create/generation-progress.tsx:37-43 | the intended completed list: exactly the timeline stages before the current one |
| Progress.RowIntendedMonotone | src/components/create/generation-progress.tsx:83-98 | with the intended list, no row moves backwards as progress grows |
| Progress.AllRowsDoneAtEnd | src/components/create/generation-progress.tsx:83-98 | with the intended list, every row is done at 100 |
| SlideCount.MinutesPerSlide | src/components/create/slidecount-selector.tsx:25 | between 1 and 2 minutes per slide |
| SlideCount.ComplexityLabel | src/components/create/slidecount-selector.tsx:34-39 | up to 6 quick, up to 8 standard, up to 10 detailed, else comprehensive |
| SlideCount.ComplexityMonotone | src/components/create/slidecount-selector.tsx:34-39 | the label never gets lighter as the count grows |
| SlideCount.EstimateDuration | src/components/create/slidecount-selector.tsx:24-32 | buckets by total minutes: below 15, below 30, below 45, else the last |
| SlideCount.DurationMonotone | src/components/create/slidecount-selector.tsx:24-32 | for a fixed audience, the bucket is monotone in the slide count |
| SlideCount.DurationByAudience | src/components/create/slidecount-selector.tsx:25-31 | students ≤ professionals ≤ teachers for the same count |
| SlideCount.SliderRangeDurations | src/components/create/slidecount-selector.tsx:59-60 | within the slider's range 6..12 the last bucket is never shown |
| SlideCount.PreviewTiles | src/components/create/slidecount-selector.tsx:107-120 | `min(count, 8)` numbered tiles, plus a "+(count−8) more" tile iff count > 8 |
| SlideCount.PreviewAccountsForEverySlide | src/components/create/slidecount-selector.tsx:107-120 | the numbered tiles and the "more" count add up to the slide count |
| RecentProjects.FormatDate | src/components/dashboard/recent-projects.tsx:48-60 | under a minute, negative included, "Just now"; then whole minutes below 60, whole hours below 24, whole days below 7, else the locale date |
| RecentProjects.FormatDateMonotone | src/components/dashboard/recent-projects.tsx:48-60 | a longer elapsed time never gives a finer bucket |
| RecentProjects.FutureIsJustNow | src/components/dashboard/recent-projects.tsx:50-55 | a date in the future shows "Just now" |
| RecentProjects.StatusConfig | src/components/dashboard/recent-projects.tsx:40-46 | every status has a configuration with a non-empty colour and caption |
| RecentProjects.StatusConfigInjective | src/components/dashboard/recent-projects.tsx:40-46 | distinct statuses have distinct captions |

## Left out

- The binary PowerPoint writer (`pptx.write`), the master slide's drawing, sizing and rounding options, colours and fonts of individual text runs: slides are lists of positioned blocks.
- The CSS text of the print template, and every part of the HTML that is constant markup: the document is a list of sections.
- The image download (`fetchImageAsBase64`: `fetch`, the timeout, base64 encoding) and the `Promise.all` concurrency. A download is an oracle returning data or nothing.
- Firestore and Firebase I/O, `serverTimestamp`, and the ISO conversion of subscription dates. The `RangeError` that `toISOString` throws on an out-of-range date is not modelled, and timestamps are plain integers.
- `getPeriodEnd`'s calendar month: the period length is the constant `Quota.MonthMs`.
- The `usage_events` analytics write in `incrementUsage`, which cannot fail the operation, and `getUsageSummary`'s rounded percentages (floating point).
- HMAC-SHA256 is an oracle; `timingSafeEqual` is modelled only through its length-mismatch exception. The fallback to the `RAZORPAY_WEBHOOK_SECRET` environment variable is the `secret` parameter.
- JSON parsing and Zod's structural type checks: the schemas are predicates over values that already have the right shape, and unknown keys, which Zod strips, are not represented. A webhook field of the wrong JSON type (an `event` that is a number) is not represented either; a missing one is. The text `JSON.stringify` makes of a present payload is left out.
- String length is counted in Dafny characters, not UTF-16 code units. So the schema bounds agree with Zod, and `Print.ImagePrefix` agrees with `substring(0, 10)`, only for text in the basic multilingual plane.
- The `createdAt` and `updatedAt` fields of a slide are not represented, because the editor store only copies them.
- A `SlidePatch` field is either absent or carries a value. A patch that sets a field explicitly to `undefined`, which the spread in `updateSlide` copies, is not represented.
- Shortcuts.ToLower: lowercases ASCII letters only, not the full Unicode case mapping of `toLowerCase`.
- RecentProjects.FormatDate: the locale date text and the number formatting of the labels are represented by the bucket and its whole count, not the rendered string.
- Deck.GetTemplateTheme: JavaScript object lookups also find inherited keys such as `constructor`; the model's map holds only the listed templates.
- Deck.DeckTheme: for a template id every object inherits (`constructor`, `toString`), `TEMPLATES[templateId]` in `buildDeck` finds a function, so reading `theme.colors.background` (build-deck.ts:197) throws a TypeError and no deck is built. Deck.DeckTheme and Deck.BuildDeck render such an id with `modern` instead; Print.RenderWith models the same case as no document.
- Deck.PrefetchIgnoresDuplicates: the download oracle answers every request for one URL alike. Two downloads of one URL that disagree (one times out, the other succeeds) are not modelled. In that case the source's map depends on which download settles last.
- Gating.CanCreateSlides: takes a plan value. A plan string outside the three is not modelled: for most strings reading a field of `undefined` throws, and for an inherited name the comparison with `undefined` is false.
- React rendering, icons, class names and console logging.
- The `payment.failed` branch only logs; its payment entity is not represented.
- Progress.StageProgress: a `NaN` progress value and `Math.round` in the displayed percentage are not modelled; progress is a real number.

## Findings

The as-written member in each row models the code as it stands. The corrected member is what the proved property is about.

| source | as written | input that shows it | evidently intended | confidence | as-written member | corrected member |
|---|---|---|---|---|---|---|
| src/lib/pptx/build-deck.ts:102-111 | `imageMap.has(url)` is evaluated before any download resolves, so it is always false in the loop | two slides with `imageUrl` "https://img/1" request it twice | each distinct image downloaded once | not executed | Deck.FetchRequests, Deck.DuplicateReferenceFetchedTwice | Deck.DistinctFetchRequests, Deck.PrefetchIgnoresDuplicates |
| src/lib/pdf/generate.ts:196-203 | the table maps `<`, `>` and `"` to themselves | a bullet `<b>` is emitted as the tag `<b>` | `&lt;`, `&gt;`, `&quot;` | not executed | Print.EscapeHtml, Print.AsWrittenDocumentCarriesMarkup | Print.EscapeHtmlIntended, Print.IntendedDocumentIsInjectionFree |
| src/store/editor.store.ts:62-65 | the fallback selection is read from the list before the deletion | deleting the selected first slide "a" of ["a","b"] selects "a" | the first surviving slide, "b" | not executed | EditorStore.DeleteSlide, EditorStore.DeleteSelectedFirstReselectsIt | EditorStore.DeleteSlideIntended, EditorStore.DeleteSlideIntendedKeepsSelection |
| src/lib/razorpay/verify-webhook.ts:24-27 | `timingSafeEqual` throws when the UTF-8 byte lengths differ, and the route's catch answers 200 | a non-empty signature shorter than the 64-character hex digest, or 64 characters one of which is `é` (65 bytes) | 401 "Invalid signature" | not executed | Webhook.VerifySignature, Webhook.WrongLengthSignatureAnswered200 | Webhook.VerifySignatureIntended, Webhook.IntendedRejectsForgedSignature |
| src/components/create/generation-progress.tsx:37-43 | finalize is never added to the completed stages | at 95 the finalize row spins; at 100 it turns grey | finalize completed at 100 | not executed | Progress.Row, Progress.FinalizeRowRegresses | Progress.CompletedStagesIntended, Progress.RowIntendedMonotone |
| src/lib/usage/quota.ts:222-232 | the reset writes `getPeriodTimestamp()` (lines 266-273), a plain object with function fields, which Firestore refuses as field data, so `updateDoc` rejects | a stored period end in the past, any counter | every counter reset, the named one to 1, and the period restarted | not executed; relies on Firestore's refusal of function values | Quota.IncrementUsage, Quota.ExpiredPeriodIncrementRejected, Quota.ExpiredPeriodStaysOpen | Quota.IncrementUsageIntended, Quota.IncrementEffect |
| src/lib/usage/quota.ts:100-101 | without a stored quota map the default object's `periodStart` is a `Date`, and `periodStart?.toDate()` throws a TypeError; sign-up (src/lib/firebase/users.ts:12-21) writes no quota map | a free user document as sign-up creates it | a missing map reads as zero counters, so checks and increments work | not executed | Quota.GetUserQuota, Quota.QuotalessUserUncounted, Quota.FreeSignUpDocumentAsWritten | Quota.GetUserQuotaIntended, Quota.IncrementUsageIntended, Quota.IntendedFirstIncrementCounts |
| src/lib/pdf/generate.ts:39 | the asset id in the image placeholder is inserted without `escapeHtml` | an asset id `<b>` is emitted as the tag `<b>` | escaped like every other inserted string | not executed | Print.AsWrittenEscaping, Print.AsWrittenPlaceholderCarriesMarkup | Print.IntendedEscaping, Print.IntendedDocumentIsInjectionFree |
