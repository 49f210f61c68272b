# DaunNime core, modelled in Dafny

DaunNime is a React front end for browsing anime. It lists, searches, shows
details, streams episodes and offers batch downloads. This project models
the logic of its data layer and pages:

- `src/services/api.js`: URL building, response handling and retries, plus
  the batch-download fallback.
- `src/services/batchService.js`: the second batch-download service. It
  probes a long chain of response shapes.
- The pages and components that turn API answers into what is shown:
  - `Home`, `SearchResults`, `AnimeDetail`, `Watch` and `BatchDownload`;
  - `AnimeCard`, `Pagination`, `Header` and `VideoPlayer`.

Layout:

- One Dafny module per source file (`Api`, `BatchService`, `BatchDownload`,
  `Home`, `SearchResults`, `AnimeDetail`, `Watch`, `AnimeCard`, `Pagination`,
  `Header`, `VideoPlayer`).
- A shared module `Js` models the JavaScript values these files work on.
  - `Json` has undefined, null, booleans, integer numbers, strings, arrays,
    and objects as ordered entry lists.
  - It also holds truthiness, `||`, `??`, property reads that throw on
    `null`/`undefined`, and the string helpers the pages use.
  - A JavaScript exception raised inside a `try` is an `Err` value. A
    `TypeError` from reading a property of `null` or `undefined` carries one
    fixed text, `Js.TypeErrorText`.

Shape of the model:

- Pure logic (URL building, response shapes, normalisation, labels, titles)
  is written as functions with lemmas about them.
- Imperative code is written as methods with loops and invariants: the
  pagination window, the grouping loops in `BatchDownload.jsx`, and the list
  extraction in `Home.jsx`.
- Each React component's state becomes a class. Its fields are that state;
  its methods are the handlers and effects that update it.
- Answers from the network are parameters: an `Api.Exchange` (the response,
  or a network error) or a function from the endpoint asked for to its
  result.

## Model

| member | source | states |
|---|---|---|
| Api.FetchWithErrorHandling | src/services/api.js:5-65 | a network error becomes "Request failed for <last two URL segments>: …"; a non-2xx answer becomes "API Error (status): detail" inside that wrapper; a JSON content type yields the parsed body; otherwise JSON-looking text is parsed and other text is wrapped as `{success: true, text}` |
| Api.LastTwoSegmentsIsSuffix | src/services/api.js:60 | the URL part quoted in the failure message is a suffix of the URL |
| Api.FetchWithRetry | src/services/api.js:68-80 | at most retries+1 attempts; every attempt before the last failed; the result is the last attempt's; a failure means the attempts were used up; the i-th wait is delay·1.5^i |
| Api.BackoffGrows | src/services/api.js:78 | each wait is 1.5 times the previous one |
| Api.DefaultRetryBound | src/services/api.js:68-80 | with the defaults (2 retries, 1000 ms) there are at most three attempts; a failed run made all three, waiting 1000 ms then 1500 ms |
| Api.AlwaysFailingRetries | src/services/api.js:70-79 | when every attempt fails, exactly retries+1 are made and the last error is returned |
| Api.Url | src/services/api.js:83-155 | an endpoint whose required argument is falsy fails with that endpoint's own message; every URL built starts with the API base followed by "/samehadaku/" |
| Api.Defaulted | src/services/api.js:88 | a default parameter applies to an undefined argument only |
| Api.OmittedArgumentsDefault | src/services/api.js:88-137 | omitted arguments request page 1 and order 'title'; null is passed through as "null" |
| Api.GetBatchDownload | src/services/api.js:158-242 | a falsy id fails with "Batch ID is required"; a successful batch request is returned as is; after a failed one, in order: the details' `batch` as data, else its `downloads` as the links, else the first listed episode's `downloads` (with the episode id and the note), else the placeholder; null details or a failed details request give "Batch download not available: <message>" |
| Api.PlaceholderUnavailable | src/services/api.js:223-235 | the placeholder says the batch is not available and has a truthy title |
| Api.PlaceholderDataEmpty | src/services/api.js:223-235 | the placeholder's data has an empty download list and batchAvailable false |
| Api.EpisodeErrorSwallowed | src/services/api.js:191-216 | a failed episode request behaves like an episode without downloads |
| Api.BatchBeatsEpisodes | src/services/api.js:172-175 | when the details carry a batch, the episode answer is irrelevant and the batch is the data |
| BatchService.FetchWithSafeJson | src/services/batchService.js:7-52 | fails exactly on a network error or a non-2xx status, with "API Error (status): detail" for the latter; a 2xx body that is not JSON becomes `{text}`, an unreadable or malformed one `{error: …}`, never a failure |
| BatchService.HostLink | src/services/batchService.js:141-144 | a string value is a link to it under its host key; otherwise the url is the value's `url` when truthy, else "", and the host is the first truthy of the listed host properties, else the key |
| BatchService.HostLinks | src/services/batchService.js:141-144 | one link per entry, in entry order |
| BatchService.HostLinksOfStringMap | src/services/batchService.js:141-144 | a host map of non-empty strings yields links whose urls are those strings |
| BatchService.DefaultHostGroup | src/services/batchService.js:137-145 | one 'Default' group with one host link per entry, in entry order |
| BatchService.QualityGroups | src/services/batchService.js:297-305 | one group per quality key, in key order, labelled with the key; an array value is the links, an object value becomes its host links (host = key), a falsy value no links; a nullish value throws unless the source guards it with `\|\| {}` |
| BatchService.DownloadsGroups | src/services/batchService.js:227-259 | an array of downloads is kept; an object keyed by quality becomes quality groups; an object keyed by host becomes one default group; anything else is empty |
| BatchService.SomeLinkHasUrl | src/services/batchService.js:466-468 | true exactly when some link has a truthy url; the guarded form never throws |
| BatchService.ItemHasUrl | src/services/batchService.js:268-269 | true exactly when the item has a non-empty link array holding a link with a url |
| BatchService.AnyItemHasUrl | src/services/batchService.js:268-270 | true exactly when some item passes that test |
| BatchService.KeepNonEmpty | src/services/batchService.js:80 | keeps exactly the groups with a truthy, non-empty link list, in order |
| BatchService.KeepNonEmptyAppend | src/services/batchService.js:80 | filtering distributes over concatenation |
| BatchService.AndLengthPositive | src/services/batchService.js:153 | `dl && dl.length > 0` is truthy exactly when dl is truthy and has a positive length |
| Js.NumeralLengthsPositive | src/services/batchService.js:153 | an object whose `length` is the string "2" or the array [3] passes `length > 0`, as JavaScript's number conversion makes it |
| Js.ZeroNumeralNotPositive | src/services/batchService.js:153 | the numeral "00" is not positive |
| Js.WordNotPositive | src/services/batchService.js:153 | a word is not a numeral, so it fails `length > 0` |
| Js.ArraysNotPositive | src/services/batchService.js:153 | an array of two numbers, or one holding a boolean, joins to a non-numeric string and fails `length > 0` |
| BatchService.ArrayGroups | src/services/batchService.js:76-79 | one group per array item, in order |
| BatchService.ArrayAnswer | src/services/batchService.js:70-86 | answers exactly when no item is nullish; it is always available, with the kept groups as data and a truthy title |
| BatchService.ArrayAnswerAvailableWithoutLinks | src/services/batchService.js:70-86 | an array whose items carry no links still yields batchAvailable true with an empty list |
| BatchService.PrimaryBatch | src/services/batchService.js:127-155 | a batch with a non-empty link array is the data and is available; otherwise a truthy `links || downloads` gives an object batch whose `downloadLinks` is DefaultLinks of it, every other field kept, and without one the batch is the data unchanged; the title is the answer's, the batch's or "Batch Download", the poster the answer's, the batch's or empty; availability is truthy exactly when the links are truthy and non-empty |
| BatchService.DefaultLinks | src/services/batchService.js:138-150 | an array `links` becomes one 'Default' group holding that array; any other value one 'Default' group holding its host map as links (DefaultHostGroup); a nullish one no group |
| BatchService.PrimaryAnswer | src/services/batchService.js:64-157 | an `error` field rejects the answer; then, in order: a non-empty array; a non-empty `downloadLinks` (the answer itself is the data); `data.downloadLinks` (data is `data`); `data.batch` (data is that batch); `batch` (PrimaryBatch); each with its title and poster chains and availability; an answer matching none of them gives no result, so the call falls back |
| BatchService.WrappedBodiesFallBack | src/services/batchService.js:26-46 | a non-JSON 2xx body never counts as a primary answer |
| BatchService.DataBatch | src/services/batchService.js:186-220 | a batch whose `downloadLinks` is a truthy array is kept as it is; an object batch otherwise gets `downloadLinks` = DefaultLinks of an array or object `links || downloads`, else `[]`, every other field kept; the title is `data`'s, the batch's or "Batch Download", the poster `data.poster`, `data.thumbnail`, the batch's or empty; availability is a boolean, true exactly when the resulting links are non-empty |
| BatchService.DownloadsAnswer | src/services/batchService.js:223-278 | the answer uses the groups DownloadsGroups builds; batchAvailable is whether some group has a url; the title is truthy |
| BatchService.HostKeyedDownloadsDecide | src/services/batchService.js:247-270 | a host-keyed downloads object always yields an answer without throwing |
| BatchService.BatchLinksGroups | src/services/batchService.js:281-319 | an array of batch links is used as is; an object gets one group per key, labelled with the key, whose links are the array value, the object value's host links, or none for a falsy value; anything else gives none |
| BatchService.EpisodesWithDownloads | src/services/batchService.js:326-328 | keeps exactly the episodes with truthy downloads; throws exactly when an episode is nullish |
| BatchService.FilterObjects | src/services/batchService.js:326-328 | the filter reports the TypeError text when it throws and keeps at most the input's elements |
| BatchService.FilterObjectsMembers | src/services/batchService.js:326-328 | the filter throws exactly on a nullish element and otherwise keeps exactly the elements the predicate accepts |
| BatchService.FilterObjectsAppend | src/services/batchService.js:326-328 | the filter distributes over concatenation, so it keeps the elements' order |
| BatchService.EpisodesWithDownloadsAppend | src/services/batchService.js:326-328 | the episodes with downloads keep their order |
| BatchService.EpisodeNumber | src/services/batchService.js:338-340 | `episode` if truthy, else the first run of digits of a string title (DigitRunOrEmpty), or "" when it has none; a non-string truthy title throws |
| BatchService.DigitRunOrEmpty | src/services/batchService.js:339 | "" for a text without digits; otherwise the maximal run of digits starting at the first digit |
| BatchService.EpisodeLabel | src/services/batchService.js:343 | "Episode N" when a number was found, else the title or "Episode"; the label is always truthy |
| BatchService.EpisodeGroup | src/services/batchService.js:334-353 | the group is labelled with the episode's label; its links are the downloads array, the downloads object's host links (host: the value's `host`, else the key), or none when the episode has no downloads |
| BatchService.EpisodeGroups | src/services/batchService.js:333-354 | one group per episode, in order; throws exactly when an episode's label throws |
| BatchService.EpisodesAnswer | src/services/batchService.js:322-382 | fails exactly when an episode is nullish or one with downloads has a label that throws; an episode collection exactly when it is available, with the non-empty groups as data; otherwise the "has episodes" marker with batchAvailable false and the fixed message; the title is truthy |
| BatchService.EpisodesAnswerFails | src/services/batchService.js:333-354 | grouping the episodes with downloads throws exactly when one of them has a label that throws |
| BatchService.EpisodeCollectionGroups | src/services/batchService.js:326-354 | a collection's groups are those of the episodes that have downloads |
| BatchService.DataAnswer | src/services/batchService.js:173-383 | in order: an object `data.batch` (DataBatch); a truthy `downloads` (DownloadsAnswer); non-empty `batch_links`/`downloadBatch`/`batchLinks` groups, available; a non-empty `episodes` array (EpisodesAnswer); no answer only when none of these applies |
| BatchService.DetailsBatch | src/services/batchService.js:386-417 | throws exactly when the batch is not an object; a non-empty link array keeps the batch as it is; an object batch otherwise gets `downloadLinks` = DefaultLinks of a truthy `links || downloads`, else `[]`, every other field kept; title and poster chains over the details and the batch; availability is a boolean, true exactly when its links are non-empty |
| BatchService.ApiMessageAnswer | src/services/batchService.js:541-554 | the `ok: false` answer: not available, marked with the message, titled "Batch Download", with the message in its data |
| BatchService.LaterCases | src/services/batchService.js:386-558 | in order: a truthy `batch` (DetailsBatch), a truthy `downloads` (DownloadsAnswer with guarded links), a non-empty `episodes` (EpisodesAnswer), an `ok: false` message; "Unexpected API response format" exactly when none applies |
| BatchService.Fallback | src/services/batchService.js:160-563 | null details fail with "getAnimeDetails returned null or undefined"; a truthy `data` is tried first (unwrapped), its failure or answer is final; no answer there, or no `data`, goes to the later cases |
| BatchService.Wrap | src/services/batchService.js:559-562 | a successful fallback is returned unchanged; a failure is rewrapped with the batch id |
| BatchService.GetBatchDownload | src/services/batchService.js:54-563 | a falsy id fails at once; a usable primary answer wins; otherwise the details fallback decides |
| BatchService.ErrorsAreWrapped | src/services/batchService.js:557-562 | every failure is the id check or "Fallback failed: <message> (<batchId>)" |
| BatchService.WrappedFailure | src/services/batchService.js:559-562 | the rewrapped message names the batch id and the original error |
| BatchService.PrimaryAnswerIgnoresDetails | src/services/batchService.js:58-157 | when the primary answer is usable, the details are never consulted |
| BatchDownload.NormalizeLink | src/pages/BatchDownload.jsx:11-26 | throws exactly for a nullish link; a string link keeps its url, takes the host from the URL, and uses the default quality; an object link takes url `url`, `link` or '#', host `host`, `name`, `provider` or 'Download', quality `quality`, `resolution` or the default, and `size` or null |
| BatchDownload.NormalizedEach | src/pages/BatchDownload.jsx:12 | each link is normalised in turn |
| BatchDownload.Collect | src/pages/BatchDownload.jsx:27 | fails exactly when some step failed, with that step's error; a link is kept exactly when some step produced it and it has a url other than '#' |
| BatchDownload.CollectAppend | src/pages/BatchDownload.jsx:27 | collecting distributes over concatenation |
| BatchDownload.NormalizeLinks | src/pages/BatchDownload.jsx:10-28 | throws exactly when some link is nullish; a normalised link is returned exactly when some input normalises to it and its url is truthy and not '#' |
| BatchDownload.NormalizeLinksAppend | src/pages/BatchDownload.jsx:10-28 | normalisation distributes over concatenation |
| BatchDownload.NormalizeIndividualDownloadLinks | src/pages/BatchDownload.jsx:10-28 | a non-array yields no links; an array is normalised link by link |
| BatchDownload.StringLinkKept | src/pages/BatchDownload.jsx:13-19 | a non-empty string link survives as one link |
| BatchDownload.LinkWithoutUrlDropped | src/pages/BatchDownload.jsx:27 | an object link without a url is filtered out |
| BatchDownload.BaseInfo | src/pages/BatchDownload.jsx:58-71 | the title and poster are always truthy; the info starts with no links and unavailable |
| BatchDownload.Source | src/pages/BatchDownload.jsx:73-105 | the link source in the source's order: non-empty `downloadLinks`, non-empty `download_links`, then a truthy `downloads` (an array, else its `links` array, else the object as a quality map, else nothing), then non-empty `links`, then a single `url` link with host `host`, `name` or 'Download', else nothing |
| BatchDownload.QualityLabel | src/pages/BatchDownload.jsx:90 | position by position: '_' becomes a space, a word character that starts a word (after the start, an underscore or a non-word character) is upper-cased, everything else is kept |
| BatchDownload.SpacedWordStart | src/pages/BatchDownload.jsx:90 | after replacing a word character by a space, a word starts exactly where the original has a word character after the start, a replaced character or a non-word character |
| BatchDownload.QualityEntryGroup | src/pages/BatchDownload.jsx:85-94 | only array or object entries become a group, labelled with the key; its links are exactly NormalizeLinks of the entry's individual links (EntryLinks) with the raw key as default quality; a throw is the TypeError |
| BatchDownload.FlattenAppend | src/pages/BatchDownload.jsx:88 | flattening distributes over concatenation, so it keeps the values' order |
| BatchDownload.FlattenMembers | src/pages/BatchDownload.jsx:88 | `Object.values(group).flat()` holds exactly the non-array values and the elements of the array values |
| BatchDownload.QualityEntryGroupThrows | src/pages/BatchDownload.jsx:87-93 | an array or object entry throws exactly when one of its individual links is null or undefined |
| BatchDownload.QualityMapGroups | src/pages/BatchDownload.jsx:85-94 | the loop throws exactly when some entry throws, with the TypeError; each group comes from some key; there is a group exactly when some entry is an array or object; every link has a truthy url other than '#' |
| BatchDownload.GroupedEntries | src/pages/BatchDownload.jsx:87-88 | the entries the loop groups are exactly those whose value is an array or an object |
| BatchDownload.QualityMapGroupsEntries | src/pages/BatchDownload.jsx:85-94 | one group per array or object entry, in key order: the j-th group is the group of the j-th such entry |
| BatchDownload.QualityMapErrorPersists | src/pages/BatchDownload.jsx:85-94 | a throwing entry ends the loop with that error |
| BatchDownload.CollectQualityGroups | src/pages/BatchDownload.jsx:82-94 | the `for…in` loop computes QualityMapGroups |
| BatchDownload.FirstAppearances | src/pages/BatchDownload.jsx:107-115 | the qualities in order of first appearance, without repeats |
| BatchDownload.FirstAppearancesOrdered | src/pages/BatchDownload.jsx:107-115 | qualities appear in the order of their first link |
| BatchDownload.WithLabelMembers | src/pages/BatchDownload.jsx:109-114 | a quality's bucket holds exactly the links with that quality |
| BatchDownload.Grouped | src/pages/BatchDownload.jsx:107-115 | the map has exactly the qualities that occur |
| BatchDownload.GroupedMeaning | src/pages/BatchDownload.jsx:107-115 | each map entry is the in-order list of that quality's links |
| BatchDownload.GroupByLabel | src/pages/BatchDownload.jsx:107-115 | the `forEach` loop throws exactly on a nullish link; otherwise it yields the first-appearance order and the grouping map |
| BatchDownload.GroupsOf | src/pages/BatchDownload.jsx:117-121 | one group per quality, in order, holding that quality's normalised links; every link has a truthy url other than '#' |
| BatchDownload.FlatGroups | src/pages/BatchDownload.jsx:73-121 | a flat list fails exactly when a link is nullish; every link of every group has a truthy url other than '#' |
| BatchDownload.FlatGroupsCover | src/pages/BatchDownload.jsx:107-121 | every normalised link lands in its quality's group |
| BatchDownload.FlatGroupsOrdered | src/pages/BatchDownload.jsx:107-121 | groups follow the first appearance of their quality |
| BatchDownload.FlatGroupsContents | src/pages/BatchDownload.jsx:107-121 | each group holds exactly the normalised links of its quality |
| BatchDownload.SourceGroups | src/pages/BatchDownload.jsx:73-130 | a non-empty quality map is always available; otherwise it is available exactly when some group has links; every link has a truthy url other than '#' |
| BatchDownload.EmptyQualityEntryAvailable | src/pages/BatchDownload.jsx:85-94 | a quality entry with no links still makes the batch available |
| BatchDownload.ExtractGroups | src/pages/BatchDownload.jsx:73-130 | the method computes SourceGroups |
| BatchDownload.PayloadInfo | src/pages/BatchDownload.jsx:58-130 | fails exactly when grouping the chosen source throws; the title is `title`, the details' title, the route title or "Anime Batch"; the poster the first of six poster fields or the placeholder; the message `message` or null; the groups and availability those of the chosen source; every link shown has a truthy url other than '#' |
| BatchDownload.NormalizeFullBatchData | src/pages/BatchDownload.jsx:30-132 | a falsy response gives nothing; an invalid payload gives the invalid-data info; otherwise base info and groups |
| BatchDownload.TitleFromSlug | src/pages/BatchDownload.jsx:162 | position by position: '-' becomes a space, a character that starts a word is upper-cased, everything else is kept |
| BatchDownload.DocumentTitle | src/pages/BatchDownload.jsx:166-170 | "Batch Download <title> - DaunNime" for a truthy title; "Batch Download - DaunNime" with no info |
| Pagination.MaxVisiblePages | src/components/Pagination.jsx:16 | 3 below a 640-pixel window, else 5 |
| Pagination.Window | src/components/Pagination.jsx:23-34 | when not all pages fit, the window lies strictly between the first and the last page, contains an inner current page, and with an odd limit holds limit-2 pages |
| Pagination.VisiblePages | src/components/Pagination.jsx:14-49 | for at least one page and a limit of three or more, the list starts with page 1 and ends with the last page |
| Pagination.WithGaps | src/components/Pagination.jsx:37-45 | the first and last entries are the first and last numbers; at most one ellipsis is added per number |
| Pagination.Range | src/components/Pagination.jsx:40-42 | consecutive pages from a to b |
| Pagination.PushRun | src/components/Pagination.jsx:40-42 | the loop appends exactly that run of pages |
| Pagination.CalculateVisiblePages | src/components/Pagination.jsx:14-49 | the method computes VisiblePages |
| Pagination.WithGapsRun | src/components/Pagination.jsx:35-46 | a window followed by the last page gets an ellipsis exactly when pages are skipped |
| Pagination.ManyPagesShape | src/components/Pagination.jsx:23-46 | with more pages than fit, the list is 1, the window and the last page, strictly increasing, with '...' exactly where numbers are skipped |
| Pagination.FewPagesAllShown | src/components/Pagination.jsx:18-21 | when all pages fit, they are all shown in order and with no ellipsis |
| Pagination.ManyPagesCount | src/components/Pagination.jsx:23-34 | with an odd limit and more pages than fit, exactly that many numbers are listed |
| Pagination.CurrentPageShown | src/components/Pagination.jsx:14-49 | a current page within 1..total is always listed |
| Pagination.PageClick | src/components/Pagination.jsx:51-55 | only a page number other than the current one triggers a change |
| Pagination.NavigationStaysInRange | src/components/Pagination.jsx:57-71 | first/prev/next/last request a page within 1..total, and nothing when already there |
| Pagination.GoToFirstPage | src/components/Pagination.jsx:57-59 | asks for page 1 exactly when not already on it |
| Pagination.GoToLastPage | src/components/Pagination.jsx:61-63 | asks for the last page exactly when not already on it |
| Pagination.GoToPrevPage | src/components/Pagination.jsx:65-67 | asks for the previous page exactly when past page 1 |
| Pagination.GoToNextPage | src/components/Pagination.jsx:69-71 | asks for the next page exactly when before the last page |
| Pagination.ClickStaysInRange | src/components/Pagination.jsx:51-55 | a clicked page is within 1..total |
| Pagination.Renders | src/components/Pagination.jsx:74 | the control renders exactly when there are at least two pages |
| AnimeCard.HrefId | src/components/AnimeCard.jsx:9 | throws for a truthy non-string href; the result is truthy exactly when the href is |
| AnimeCard.HrefLastSegment | src/components/AnimeCard.jsx:9 | the href's last path segment is extracted, with or without a trailing slash |
| AnimeCard.HrefWithoutSegmentUnchanged | src/components/AnimeCard.jsx:9 | an href with no slash is kept whole |
| AnimeCard.CardId | src/components/AnimeCard.jsx:8-9 | the first truthy of `animeId`, `id`, `slug`; else the href's last segment or "unknown"; always truthy |
| AnimeCard.CardOf | src/components/AnimeCard.jsx:4-17 | no card exactly for a falsy anime; otherwise the id of CardId, the title `title`/`name`/"No Title", the image `image`/`thumbnail`/`poster`/`img`/placeholder, the episode `episodeNumber`/`episode`/null and the type `type`/`category`/"TV" |
| AnimeCard.BadgeIffEpisode | src/components/AnimeCard.jsx:31-45 | the episode badge shows exactly when an episode number exists; the type line always shows |
| AnimeCard.ShowsEpisodeBadge | src/components/AnimeCard.jsx:31-39 | the badge condition: a truthy episode number (its meaning is stated by BadgeIffEpisode) |
| AnimeCard.CardOfListing | src/components/AnimeCard.jsx:4-17 | for an object with only the keys the pages build (id, title, thumbnail, type, episodeNumber), the card shows each value or its default, and the card's other fallback keys never apply |
| AnimeDetail.PatchEpisodes | src/pages/AnimeDetail.jsx:34-43 | the in-place assignments compute Patched |
| AnimeDetail.Patched | src/pages/AnimeDetail.jsx:34-43 | a falsy answer or an array is kept; an object's `episodes` becomes itself when it is an array, an empty array when it is truthy but not one, the `episode_list` array when it is falsy, else an empty array, with every other property unchanged; a truthy primitive throws |
| AnimeDetail.PatchedKeepsTitle | src/pages/AnimeDetail.jsx:34-43 | patching an object keeps its title and leaves an array of episodes |
| AnimeDetail.ClassifyError | src/pages/AnimeDetail.jsx:55-67 | the message is chosen by the first of "403", "404", "500" found in the error; otherwise the error's own text |
| AnimeDetail.NotFoundAnswer | src/pages/AnimeDetail.jsx:55-67 | an API 404 leads to the not-found message |
| AnimeDetail.ServerErrorAnswer | src/pages/AnimeDetail.jsx:55-67 | an API 500 leads to the server-trouble message |
| AnimeDetail.SynopsisText | src/pages/AnimeDetail.jsx:136-141 | the paragraph texts joined by blank lines (Js.Join with "\n\n") when paragraphs are present, with the length that implies; else the synopsis shown as text |
| Js.JoinLength | src/pages/AnimeDetail.jsx:138 | a joined text's length is the parts' total plus one separator between each two parts |
| Js.JoinAt | src/pages/AnimeDetail.jsx:138 | each part sits at its offset in the joined text, followed by the separator unless it is the last, and the last part ends the text |
| Js.FirstDigitRun | src/services/batchService.js:339 | `match(/(\d+)/)[1]`: present exactly when the text has a digit, and then the maximal run of digits starting at the first digit |
| AnimeDetail.SynopsisToShow | src/pages/AnimeDetail.jsx:143-145 | the whole text when expanded or short; otherwise the first 250 characters and "..." |
| AnimeDetail.ToggleMatters | src/pages/AnimeDetail.jsx:143-145 | without the toggle both states show the whole text; with it the collapsed state has 253 characters, and the two states look the same exactly for a 253-character text already ending in "..." |
| AnimeDetail.ShowsToggle | src/pages/AnimeDetail.jsx:222 | the toggle is offered for a synopsis longer than 250 characters (its effect is stated by ToggleMatters) |
| AnimeDetail.DetailItemRule | src/pages/AnimeDetail.jsx:147-148 | a detail is hidden exactly for null, undefined or ""; 0 and false are shown |
| AnimeDetail.DetailItemShown | src/pages/AnimeDetail.jsx:147-148 | a detail's visibility test (its meaning is stated by DetailItemRule) |
| AnimeDetail.EpisodeLabel | src/pages/AnimeDetail.jsx:303 | the episode's `title`, else `name`, else "Episode " with `episode_number`, else with `number`, else with its position plus one; throws for a nullish episode |
| AnimeDetail.EpisodeLink | src/pages/AnimeDetail.jsx:299 | "/watch/" followed by the episode's `id` when truthy, else its `episodeId`; throws for a nullish episode |
| AnimeDetail.EpisodeWithoutIdLink | src/pages/AnimeDetail.jsx:299 | an episode with no id links to "/watch/undefined" |
| AnimeDetail.FirstEpisodeLink | src/pages/AnimeDetail.jsx:198-200 | shown exactly when the first episode has an id, linking where that episode links |
| AnimeDetail.AnimeDetailPage.constructor | src/pages/AnimeDetail.jsx:11-14 | the initial state: no data, loading, no error, synopsis collapsed |
| AnimeDetail.AnimeDetailPage.FetchAnimeData | src/pages/AnimeDetail.jsx:16-74 | an empty id sets the invalid-id error; otherwise the answer is patched (Patched): a failure sets the classified error and the error title and keeps the previous data; success stores exactly the patched data, clears the error and titles the page |
| AnimeDetail.AnimeDetailPage.ShowOutcome | src/pages/AnimeDetail.jsx:45-69 | a failure shows the classified message and the error title and keeps the data; a success stores the data and titles the page with its `title`, else "Detail Anime" |
| AnimeDetail.AnimeDetailPage.ToggleSynopsis | src/pages/AnimeDetail.jsx:224 | flips the synopsis flag and changes nothing else |
| AnimeDetail.AnimeDetailPage.ShownSynopsis | src/pages/AnimeDetail.jsx:143-145 | the whole synopsis when expanded; collapsed, at most 253 characters, beginning with the first 250 characters of a synopsis long enough to be toggled |
| Home.CurrentPage | src/pages/Home.jsx:17-18 | the parsed page parameter, else 1 (the search page computes its `currentPage` by the same expression, src/pages/SearchResults.jsx:20-21) |
| Home.SelectRequest | src/pages/Home.jsx:34-43 | a search for a truthy query; otherwise the active tab's list with the page |
| Home.SelectedRequestIsBuilt | src/pages/Home.jsx:34-43 | the chosen request builds a URL |
| Home.FlattenGroups | src/pages/Home.jsx:54-56 | the groups' anime lists, concatenated in order |
| Home.FlattenGroupsAppend | src/pages/Home.jsx:54-56 | flattening distributes over concatenation |
| Home.Extracted | src/pages/Home.jsx:48-75 | the shape order: `data` as an array, the flattened `data.list`, `data.animeList`, the first property holding a non-empty array, `[data]` when it has a truthy title, else empty; throws exactly when a group of `data.list` is nullish |
| Home.ExtractList | src/pages/Home.jsx:48-75 | the `for…in` search with `break` computes Extracted |
| Home.ExtractedFromData | src/pages/Home.jsx:48-75 | every extracted item comes from the answer |
| Home.GroupOfFlattened | src/pages/Home.jsx:54-56 | every flattened item belongs to some group's list |
| Home.ItemIdOf | src/pages/Home.jsx:88-89 | the first truthy of `animeId`, `id`, `slug`, `href`; else a non-empty string link's last segment; else a random marker |
| Home.LinkIdIsLastSegment | src/pages/Home.jsx:88-89 | an item with only a link gets as id either the link itself or the '/'-free segment after its last '/' (a trailing '/' ignored) |
| Home.SegmentedLinkId | src/pages/Home.jsx:88-89 | an item with only a link of the form `<prefix>/<segment>`, with or without a trailing '/', gets the segment as id |
| Home.NormalizeItem | src/pages/Home.jsx:80-95 | nothing for a falsy item; otherwise the id of ItemIdOf, the title `title`/`name`/"No Title", the thumbnail `image`/`thumbnail`/`poster`/`img`/placeholder, the episode `episodeNumber`/`episode`/null and the type `type`/`category`/"TV" |
| Home.MapKept | src/pages/Home.jsx:80-95 | map then filter: keeps exactly the truthy results, in order |
| Home.Kept | src/pages/Home.jsx:95 | `.filter(Boolean)` keeps exactly the truthy items |
| Home.NormalizeList | src/pages/Home.jsx:80-95 | the normalised items of the truthy entries |
| Home.ObjectsAllKept | src/pages/Home.jsx:80-95 | a list of objects loses no item |
| Home.AllTruthyKept | src/pages/Home.jsx:80-95 | one normalised item per truthy entry |
| Home.CardShowsItem | src/pages/Home.jsx:178-180 | a normalised item's card shows its own id, title, image and episode |
| Home.ItemObject | src/pages/Home.jsx:87-94 | the object built for an item is an object whose keys are all listing keys a card reads |
| Home.ItemObjectPresent | src/pages/Home.jsx:87-94 | reading the built object back gives the item's id (or the random marker), title, thumbnail, episode number and type |
| Home.TotalPages | src/pages/Home.jsx:98-100 | the reported page count, else the count divided by 20 rounded up, else 1; never falsy |
| Home.HomePage.constructor | src/pages/Home.jsx:20-24 | the initial state |
| Home.HomePage.HandleTabChange | src/pages/Home.jsx:113-115 | sets the tab and keeps the rest |
| Home.HomePage.FetchData | src/pages/Home.jsx:27-108 | on success the list and page count are replaced and the error cleared; on any throw the fixed message is shown and the list and page count are kept; the tab becomes 'search' once a search answers; loading ends |
| SearchResults.FirstArray | src/pages/SearchResults.jsx:49-62 | the first of the four response shapes that holds an array |
| SearchResults.Listed | src/pages/SearchResults.jsx:49-62 | the results are the array of the first matching shape, else empty |
| SearchResults.PageCount | src/pages/SearchResults.jsx:47-61 | always truthy; 1 unless a results-object shape reports a page count |
| SearchResults.ExtractSearchData | src/pages/SearchResults.jsx:46-62 | the method computes Listed and PageCount |
| SearchResults.ArrayShapesHaveOnePage | src/pages/SearchResults.jsx:49-55 | the plain-array shapes always have one page |
| SearchResults.UnknownShapeIsEmpty | src/pages/SearchResults.jsx:46-62 | an unrecognised answer gives no results and one page |
| SearchResults.CardProps | src/pages/SearchResults.jsx:142-148 | the props object built for each result; throws for a nullish result |
| SearchResults.SearchCardShows | src/pages/SearchResults.jsx:138-149 | the card shows id, title, image, type and episode through the page's own fallbacks |
| SearchResults.SearchResultsPage.constructor | src/pages/SearchResults.jsx:24-27 | the initial state: no results, not loading, no error, one page |
| SearchResults.SearchResultsPage.PerformSearch | src/pages/SearchResults.jsx:29-80 | an empty query clears the results; success stores results, page count and title; failure stores the message and the error title; loading ends |
| SearchResults.SearchRequestIsBuilt | src/pages/SearchResults.jsx:44 | a non-empty query always builds a search URL |
| SearchResults.SearchResultsPage.ShowsPager | src/pages/SearchResults.jsx:152-154 | the pager is shown only for a non-empty result list whose numeric page count makes the pagination render |
| Watch.IsDirect | src/pages/Watch.jsx:58 | a server is direct for type "direct_link" or a name containing "direct" in any case; throws for a nullish server |
| Watch.PreferredServer | src/pages/Watch.jsx:58 | the first direct server, else the first server; throws only when the test throws before a direct server is found |
| Watch.StartingServer | src/pages/Watch.jsx:57-58 | a server is chosen exactly when the episode has a non-empty server list |
| Watch.ParentAnimeId | src/pages/Watch.jsx:33 | the episode's `anime.id` when truthy, else its `anime_id` when truthy, else its `animeId`; truthy exactly when one of the three is |
| Watch.TitleAfterLoad | src/pages/Watch.jsx:34-54 | when the parent loads: "Nonton <episode> - <anime>" when both have titles, "Nonton <episode>" when only the episode has one, "Nonton Anime" when the episode has none; when it does not load: "Nonton <episode>" when the episode has a title, else the previous title is kept; each with the site suffix |
| Watch.EpisodeTitleForDisplay | src/pages/Watch.jsx:112 | the episode's title, else "Episode" plus the id's last segment |
| Watch.FallbackTitleIsIdSuffix | src/pages/Watch.jsx:112 | the fallback number is a suffix of the id that follows its last '-' |
| Watch.StreamOutcome | src/pages/Watch.jsx:83-97 | a server with its own URL is used as is; otherwise the stream link's URL, or an error for a missing one |
| Watch.OwnUrlNeedsNoRequest | src/pages/Watch.jsx:86-87 | a server with its own URL never depends on the stream request |
| Watch.WatchPage.constructor | src/pages/Watch.jsx:12-18 | the initial state |
| Watch.WatchPage.HandleServerChange | src/pages/Watch.jsx:76-105 | the selected server and the video URL or error that follows; loading of the server ends |
| Watch.WatchPage.StartFirstServer | src/pages/Watch.jsx:57-63 | the preferred server is started as a server change; without servers the episode's own video URL plays from "Default Source" and nothing else changes; a throw while choosing becomes the load's error and keeps the video URL and current server; a falsy chosen server changes neither |
| Watch.WatchPage.FetchEpisodeAndAnimeData | src/pages/Watch.jsx:20-74 | an empty id is an error; a failed episode request is an error with the error title; on both early exits the episode, parent details, current server, video URL and server loading flag are unchanged; otherwise the episode, parent details, title and starting server after one load; when no server starts, the video URL and current server change only for the episode's own URL; a failed server choice leaves them and the server loading flag unchanged |
| Watch.WatchPage.LoadEpisode | src/pages/Watch.jsx:30-63 | the episode is stored, the parent's details are stored only when they load, the title is set and the first server is started (or the episode's own video URL used) |
| VideoPlayer.VideoUrlOf | src/components/VideoPlayer.jsx:41-44 | the first truthy of `url`, `videoUrl`, `streamingUrl`, else `embedUrl` as it is |
| VideoPlayer.LoadOutcome | src/components/VideoPlayer.jsx:25-66 | a listed server's own URL is used; otherwise the stream request's URL; an invalid or failed answer gives the matching message |
| VideoPlayer.ListedUrlNeedsNoRequest | src/components/VideoPlayer.jsx:27-31 | a listed URL never depends on the request |
| VideoPlayer.FailureMessages | src/components/VideoPlayer.jsx:38-63 | the three failure messages and when each is used |
| VideoPlayer.IsMarkup | src/components/VideoPlayer.jsx:94 | whether the URL holds `<iframe` or `<script` |
| VideoPlayer.Render | src/components/VideoPlayer.jsx:72-120 | spinner while loading, then error, then embedded markup or a frame, else the prompt |
| VideoPlayer.Player.View | src/components/VideoPlayer.jsx:72-120 | the spinner while loading; then a non-empty error; without a truthy video URL the prompt |
| VideoPlayer.Player.constructor | src/components/VideoPlayer.jsx:7-10 | the initial state with the given server |
| VideoPlayer.Player.LoadVideoFromServer | src/components/VideoPlayer.jsx:25-66 | keeps the selected server and ends in the state LoadedFrom describes for the load's outcome: a thrown lookup changes nothing; a listed URL is stored; a loaded URL is stored with loading off and no error; a failure stores its message and reports it when a handler is given |
| VideoPlayer.Player.Mount | src/components/VideoPlayer.jsx:12-16 | with a truthy initial server, the state is the one LoadedFrom describes for loading that server |
| VideoPlayer.Player.HandleServerChange | src/components/VideoPlayer.jsx:68-70 | selects the server; a truthy server other than the previous one is loaded, ending as LoadedFrom describes |
| VideoPlayer.Player.ServerIdPropChanged | src/components/VideoPlayer.jsx:18-23 | a truthy new server id is selected and loaded, ending as LoadedFrom describes; a falsy id or the current one changes nothing |
| VideoPlayer.LoadedUrlIsShown | src/components/VideoPlayer.jsx:72-120 | a loaded URL is what the player shows |
| Header.IsActive | src/components/Header.jsx:39-43 | the root item only on "/"; other items on any path they prefix |
| Header.AtMostOneActive | src/components/Header.jsx:33-43 | no path highlights two navigation items |
| Header.PrefixNotSegment | src/components/Header.jsx:39-43 | the match is a plain prefix: "/browser" highlights Browse |
| Header.HeaderState.constructor | src/components/Header.jsx:11-12 | not scrolled, menu closed |
| Header.HeaderState.HandleScroll | src/components/Header.jsx:16-22 | scrolled exactly past 10 pixels; the menu is unchanged |
| Header.HeaderState.LocationChanged | src/components/Header.jsx:29-31 | a navigation closes the mobile menu |
| Header.HeaderState.ToggleMobileMenu | src/components/Header.jsx:134 | the menu button flips the menu |

## Left out

- Numbers are integers: fractional values, `NaN` and floating-point rounding are not modelled. Retry waits are `real`s (1.5 is exact). A score or progress figure with `toFixed` is not modelled.
- Object keys keep insertion order. JavaScript's rule that integer-like keys come first is not modelled.
- A property added to an array value is not representable. The source adds one at three sites, and none of them is observable:
  - `episodes = []` on an array answer (`src/pages/AnimeDetail.jsx:38-40`). It is read back only by the destructuring default `episodes = []` (`src/pages/AnimeDetail.jsx:133`), which gives the same empty list, so `AnimeDetail.Patched` returns an array unchanged.
  - `downloadLinks = []` on an array `details.data.batch` (`src/services/batchService.js:192`), and on an array `details.batch` (`src/services/batchService.js:407`; an array has no `links` or `downloads`, so no rebuild is attempted). `BatchService.DataBatch` and `BatchService.DetailsBatch` return the array unchanged, and their availability is false either way. Every later reader of `downloadLinks` tests for a non-empty array, which `[]` and a missing property both fail.
- `===` on objects and arrays is compared structurally, not by identity. This applies to server ids in `VideoPlayer` and `Map` keys in `BatchDownload`.
- The text of a `TypeError` is one fixed message. Engine wording is not modelled.
- `JSON.parse` is an input: a body carries its outcome on the whole text (`response.json()`, `JSON.parse(text)`) and on the trimmed text (`JSON.parse(text.trim())`) separately, since `trim()` removes white space such as a no-break space that JSON does not allow. `new URL(...).hostname`, `encodeURIComponent`, `parseInt`, `window.innerWidth` and `window.scrollY` are inputs or parameters. `Math.random` is a fixed marker.
- The network, timers and `async` interleaving are left out. So is React's scheduling of renders and effects: each handler or effect runs to its end as one method call. The delay of each retry is recorded but not waited.
- The markup of every component is left out. Only what decides what is shown is modelled.
- `document.title` is a field of the page's state. Browser history and `useNavigate` are not modelled.
- `Watch.jsx` imports `getEpisodeDetails` and `getStreamingServerLink`, which `src/services/api.js` does not define. Their answers are inputs.
- The `BatchDownload` page's own fetch effect, loading flags and retry button are not modelled. Its normalisation, grouping and titles are.
- `BatchDownload.jsx:122-127` ("Available Downloads") and `batchService.js:566-576` cannot be reached and are not modelled.
- In-place updates of response objects are modelled by building the updated value (`Js.SetField`). Nothing else holds a reference to those objects.
- String lengths count UTF-16 units in JavaScript and characters here. They agree for the texts these files build.
- The genre list, score and title rendering of `AnimeDetail` are left out. So are the previous/next episode links and server highlighting of `Watch` (`Watch.jsx:190`, `207-227`).
- `handlePageChange` in `SearchResults` and `Home` only changes the URL, which is not modelled.
- The `Header` theme toggle comes from the theme context, which is not part of this model.
- `VideoPlayer`'s `serverOptions` is a list.
- Js.LengthPositive: a string `length` (or a one-element array holding one) counts as positive only when it is a decimal integer numeral, optionally signed with '+' and surrounded by white space. Fractions, exponents, hexadecimal, octal and binary literals and `Infinity` are treated as not positive, because JSON numbers in this model are integers and the rest of `Number`'s grammar is not modelled.
- `SearchResults.SearchResultsPage.ShowsPager`: `totalPages > 1` is modelled for numbers only. A string page count taken from the answer is never shown as more than one page here.
- `SearchResults.SearchResultsPage.PerformSearch` always requests page 1 through `searchAnime(query)`, as the source does. The stale `searchQuery` captured by `useCallback(..., [])` is an explicit parameter.
