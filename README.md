# A verified model of the nav link directory

nav is a Next.js link directory. Each navigation (a link) has a title, a URL, optional
descriptions, an icon, a visit counter, a status (`pending`, `approved` or
`rejected`) and tags. Visitors can submit links. An administrator reviews
submissions and manages links, tags and their own account from an admin
area.

This project models the parts of nav that make decisions. Each file below is
one Dafny module:

- **Favicon pipeline** (`favicon_downloader.dfy`, `icons_route.dfy`). The pipeline:
  1. builds the candidate icon URLs of a site: `origin/favicon.ico`, then the
     `<link>` hrefs grouped by selector and normalised by a four-way prefix
     rule;
  2. downloads candidates until one answers with at least 100 bytes, deciding
     its MIME type from the header or the file extension;
  3. stores that one blob, returns `/api/icons/<id>`, and points a navigation
     at it.

  The icon endpoint serves the stored bytes back. It is
  `IconsRoute.GetIcon`, the handler in `app/api/icons/[id]/route.ts`,
  lines 4-42: 404 exactly when no stored icon has that id; otherwise the
  stored bytes and MIME type, with a seven-day immutable cache header and an
  open CORS header. Its path has brackets, so the table below lists only the
  lemma that connects it to the pipeline's URL.
- **Batch drivers** (`cron_update_favicons.dfy`, `script_update_favicons.dfy`).
  Both are sequential loops over at most 50 icon-less navigations, with
  per-item failure isolation. The cron endpoint produces a result per item
  and a summary. The script keeps success and failure counters.
- **Database** (`store.dfy`). One in-memory table per model: navigations,
  icons, users, submissions and tags. Each table is a class whose methods add
  or update rows.
- **Admin pages and dashboards** (`navigation_management.dfy`, `dashboard.dfy`,
  `dashboard_stats.dfy`, `admin_dashboard.dfy`):
  - the admin link list: its page bar, its filter handlers and its pagination
    merge;
  - the day-bucketed dashboard statistics, with zero-filled day sequences and
    a sorted tag distribution.
- **Routes and guard chains**:
  - the link query with its status-fallback retry (`navigations_route.dfy`);
  - the admin route gate (`proxy.ts`, in `proxy.dfy`);
  - registration, profile update and password change on the server
    (`register_route.dfy`, `update_profile_route.dfy`,
    `change_password_route.dfy`) and in the dialogs
    (`change_password_dialog.dfy`, `edit_profile_dialog.dfy`);
  - the email pattern shared by the three places that check it
    (`email_format.dfy`);
  - submissions on the server and in the admin review screen
    (`submissions_route.dfy`, `submission_management.dfy`).
- **Seeding script** (`init_data.dfy`). It collects the tag set, upserts the
  tags, then creates the sample sites, skipping URLs that already exist.
- **Small state transitions**:
  - the search bar's hysteresis toggle (`search_bar_wrapper.dfy`);
  - the table's URL truncation and tag badges (`navigation_data_table.dfy`);
  - the link grid's parameter copying and response decoding
    (`navigation_grid.dfy`);
  - the chart's time window (`chart_area_interactive.dfy`);
  - the background configuration hook (`use_background_config.dfy`).
- **Shared modules**. `wrappers.dfy` holds `Option`. `strings.dfy` holds
  prefix, suffix and substring tests, decimal printing, and the parsing used
  for ids and `parseInt`. `sorting.dfy` holds the stable descending sort used
  for `orderBy … desc` and `Array.prototype.sort`.

The network, the HTML parser, the clock and the database's failures are
parameters. A web page's links are a sequence of `(rel, href?)` records. A
download is a function from URL to an optional `(ok, contentType?, body)`.
A database failure is a flag or an optional error. Dates are milliseconds
since the epoch, with days numbered by `ms / 86400000`. Password hashing is an
opaque function `hash`.

### Behaviour worth noting

- **Icon persistence.** A failure to store the icon does not propagate: the
  whole body of `downloadAndSaveFavicon` is inside a `try`
  (`lib/favicon-downloader.ts:174-177`), and the error becomes `null`. With
  `storeAvailable` false, `DownloadAndSaveFavicon` returns `None` and stores
  nothing.
- **Pagination merge.** `components/navigation-management.tsx:115-127`
  replaces only `total` and `totalPages` when `page` and `pageSize` agree.
  The record has exactly those four fields, so both branches yield the
  response's record. `MergeIsResponse` proves this.
- **Response shape.** `app/api/navigations/route.ts:93` answers a bare array,
  while `components/navigation-management.tsx:112` reads `result.data`.
  `components/navigation-grid.tsx:49-57` accepts both shapes;
  `NavigationGrid.Decode` models that.

## Model

| member | source | states |
|---|---|---|
| FaviconDownloader.NormalizeHrefMeaning | lib/favicon-downloader.ts:48-56 | an `http` prefix is kept unchanged; a `//` prefix gets `https:` prepended; a `/` prefix gets the origin prepended; anything else becomes origin + `/` + href. Every result ends with the href, and the href is kept unchanged exactly when it starts with `http` |
| FaviconDownloader.ExtractIconUrls | lib/favicon-downloader.ts:12-69 | the nested push loops yield exactly the candidate list: favicon.ico first, then the four selector groups |
| FaviconDownloader.PushGroup | lib/favicon-downloader.ts:42-59 | the inner loop over the links appends exactly the candidates of one selector's group, in link order |
| FaviconDownloader.PushCandidate | lib/favicon-downloader.ts:44-57 | one link appends a single absolute URL (as is for http, `https:` before `//`, the origin before `/`, `origin/` before anything else) when its rel is the selector and its href is non-empty, and nothing otherwise |
| FaviconDownloader.CandidatesStartWithFavicon | lib/favicon-downloader.ts:16-19 | an unparsable URL gives no candidates; otherwise the first candidate is `origin/favicon.ico` and every HTML candidate comes after it |
| FaviconDownloader.FailedPageGivesOnlyFavicon | lib/favicon-downloader.ts:30-63 | a page fetch that fails or answers non-ok leaves only the favicon.ico candidate |
| FaviconDownloader.HtmlCandidatesGrouped | lib/favicon-downloader.ts:35-59 | the HTML candidates are the groups for icon, shortcut icon, apple-touch-icon and apple-touch-icon-precomposed, in that order |
| FaviconDownloader.GroupCandidatesAppend | lib/favicon-downloader.ts:43-58 | the candidates of a group keep document order: those of a concatenation are the concatenation of the candidates |
| FaviconDownloader.IgnoredLinkAddsNothing | lib/favicon-downloader.ts:45-46 | a link without an href, or with another rel, adds no candidate wherever it stands |
| FaviconDownloader.GroupCandidatesFromLinks | lib/favicon-downloader.ts:43-57 | every candidate of a group is the normalised href of some matching link |
| FaviconDownloader.LinksGiveGroupCandidates | lib/favicon-downloader.ts:43-57 | every matching link with an href contributes its normalised href |
| FaviconDownloader.MimeFromExtension | lib/favicon-downloader.ts:94-104 | whatever the URL, the inferred type starts with `image/`, so it passes the check that made the inference necessary |
| FaviconDownloader.MimeFromExtensionRules | lib/favicon-downloader.ts:94-104 | the extension rules in order: .png, then .jpg or .jpeg, then .gif, then .svg, and image/x-icon for any other URL |
| FaviconDownloader.ResolveMime | lib/favicon-downloader.ts:90-105 | a missing or empty content-type gives image/x-icon; an `image/` content-type is kept; any other content-type lets the extension decide; the result always starts with `image/` |
| FaviconDownloader.DownloadAccepted | lib/favicon-downloader.ts:85-116 | a download is accepted exactly when the answer exists, is ok and has at least 100 bytes; an accepted blob carries the body and an `image/` MIME type |
| FaviconDownloader.DownloadIcon | lib/favicon-downloader.ts:74-121 | the method with its reassigned `mimeType` returns the accepted download, with the same acceptance condition and both bounds |
| FaviconDownloader.FirstIconIsFirstAccepted | lib/favicon-downloader.ts:159-173 | the pipeline finds nothing exactly when every candidate is rejected; otherwise it keeps the download of the first accepted candidate, and every earlier candidate was rejected |
| FaviconDownloader.FirstIconIsValid | lib/favicon-downloader.ts:111-169 | the kept icon has at least 100 bytes and an `image/` MIME type |
| FaviconDownloader.DownloadAndSaveFavicon | lib/favicon-downloader.ts:146-178 | with a stored icon it returns the new id and `/api/icons/<id>` and appends exactly that one blob; when no candidate is accepted, the list is empty, or the store fails, it returns null and stores nothing |
| FaviconDownloader.UpdateNavigationIcon | lib/favicon-downloader.ts:183-194 | only `icon` and `iconId` of the row with the given id change; a missing row or a database error changes nothing and is reported |
| IconsRoute.IconUrlServesStoredIcon | lib/favicon-downloader.ts:164-168 | the URL the pipeline returns for icon `id` serves exactly that icon's bytes and MIME type |
| CronUpdateFavicons.GetFaviconUrl | app/api/cron/update-favicons/route.ts:5-22 | null exactly when the URL does not parse or the HEAD request throws; otherwise favicon.ico when the HEAD is ok, and the Google s2 URL with `domain=origin` and `sz=64` when it is not |
| CronUpdateFavicons.ItemOutcome | app/api/cron/update-favicons/route.ts:44-59 | the result has the navigation's id and title; success holds exactly when a URL was found and the update did not throw; an error is recorded exactly when the update threw |
| CronUpdateFavicons.SelectionLimits | app/api/cron/update-favicons/route.ts:33-38 | at most 50 navigations are selected, each from the table and each with a null or empty icon |
| CronUpdateFavicons.UpdatedCountsSuccesses | app/api/cron/update-favicons/route.ts:67-72 | updated is at most total; it equals total exactly when every item succeeded, and it is 0 exactly when none did |
| CronUpdateFavicons.AfterBatchMeaning | app/api/cron/update-favicons/route.ts:45-51 | after the batch a row is untouched unless it was processed and succeeded; then only its icon changed, to the URL found |
| CronUpdateFavicons.BatchStep | app/api/cron/update-favicons/route.ts:43-63 | processing one more navigation changes only its own row, as the batch result describes |
| CronUpdateFavicons.ProcessNavigation | app/api/cron/update-favicons/route.ts:44-59 | one loop iteration: its result is the item outcome, and the table moves one step towards the batch result |
| CronUpdateFavicons.RunBatch | app/api/cron/update-favicons/route.ts:42-63 | the loop produces one result per navigation, in order, each one the outcome of that navigation, and leaves every row as the batch result describes |
| CronUpdateFavicons.Post | app/api/cron/update-favicons/route.ts:24-80 | without a session the answer is 401 and nothing changes; otherwise there is one result per selected navigation, in selection order; total is the number selected, updated is the number of successes, and every row ends as the batch result describes |
| CronUpdateFavicons.ValidAfterBatch | app/api/cron/update-favicons/route.ts:47-50 | the batch keeps ids distinct and below the next id |
| ScriptUpdateFavicons.DownloadsCoverSuccesses | scripts/update-favicons.ts:30-36 | every success stored one icon, and when no record update fails the successes are exactly the stored icons |
| ScriptUpdateFavicons.PrefixStep | scripts/update-favicons.ts:25-48 | one more navigation adds its id, its success and its stored icon to the running totals |
| ScriptUpdateFavicons.ProgressUpdate | scripts/update-favicons.ts:34 | the processed row then points at the icon just stored (`/api/icons/<id>` and its id) |
| ScriptUpdateFavicons.ProcessNavigation | scripts/update-favicons.ts:26-44 | one iteration: success is reported exactly when an icon was stored and the record update succeeded; only then does the row change, to point at the new icon; a stored icon is appended even when the update then fails, and the row then stays as it was |
| ScriptUpdateFavicons.RunBatch | scripts/update-favicons.ts:22-48 | the loop counts every navigation once, as a success exactly when it succeeds, and appends the downloads in order; the rows of the succeeded navigations point at their icons and every other row is exactly as before |
| ScriptUpdateFavicons.UpdateFavicons | scripts/update-favicons.ts:6-53 | successCount + failCount is the number selected; successCount counts the successes; the stored blobs are the downloads in order; a row changes only when its navigation was selected and succeeded, and failed or unselected rows are untouched |
| ScriptUpdateFavicons.SucceededIdsMeaning | scripts/update-favicons.ts:30-36 | an id is among the succeeded ones exactly when a processed navigation with that id succeeded |
| ScriptUpdateFavicons.RowOutcome | scripts/update-favicons.ts:25-48 | after the batch a row points at its newly stored icon when its navigation was selected and succeeded, and is exactly as before otherwise: unselected, no icon found, icon not stored, or the record update throwing |
| NavigationManagement.RenderPagination | components/navigation-management.tsx:230-254 | four shapes: all pages when there are at most 7; [1..4, …, last] for page ≤ 3; [1, …, last-3..last] near the end; [1, …, page-1..page+1, …, last] otherwise. Every bar has at most 7 entries, rising page numbers within 1..totalPages, and contains page when page is in range |
| NavigationManagement.PageBarWellFormed | components/navigation-management.tsx:234-254 | every bar of those shapes has at most 7 entries, rising numbers within range, and the current page when it is in range |
| NavigationManagement.MergeIsResponse | components/navigation-management.tsx:115-127 | the merged pagination record always equals the response's record |
| NavigationManagement.QueryParams | components/navigation-management.tsx:102-107 | page and pageSize always come first; q is sent exactly when non-empty; tag exactly when neither empty nor `all`; sortBy exactly when non-empty |
| NavigationManagement.NavigationManagement.constructor | components/navigation-management.tsx:71-79 | the initial state is page 1 of size 10 with no pages, an empty search, tag `all` and sort `created` |
| NavigationManagement.NavigationManagement.HandleSearchChange | components/navigation-management.tsx:207-210 | sets the search text and page 1; pageSize and the other filters are kept |
| NavigationManagement.NavigationManagement.HandleTagChange | components/navigation-management.tsx:212-215 | sets the tag and page 1; everything else is kept |
| NavigationManagement.NavigationManagement.HandleSortChange | components/navigation-management.tsx:217-220 | sets the sort key and page 1; everything else is kept |
| NavigationManagement.NavigationManagement.HandlePageChange | components/navigation-management.tsx:222-224 | sets only the page |
| NavigationManagement.NavigationManagement.HandlePageSizeChange | components/navigation-management.tsx:226-228 | sets pageSize and page 1 together |
| NavigationManagement.NavigationManagement.Previous | components/navigation-management.tsx:264 | steps back only from a page after the first, and keeps the page in range |
| NavigationManagement.NavigationManagement.Next | components/navigation-management.tsx:293 | steps forward only from a page before the last, and keeps the page in range |
| NavigationManagement.NavigationManagement.ApplyResponse | components/navigation-management.tsx:112-127 | a successful fetch sets the merged record, which is the response's record |
| Dashboard.CreationDaysMeaning | app/api/dashboard/stats/route.ts:66-70 | a day is a bucket key exactly when some navigation was created on it; days without a bucket have zero visits and zero creations |
| Dashboard.VisitsByDay | app/api/dashboard/stats/route.ts:66-70 | the `forEach` fills one bucket per creation day, holding the sum of the visits of that day's navigations; `|| 0` over the map is that sum for every day |
| Dashboard.CreationsByDay | app/api/dashboard/stats/route.ts:86-90 | one bucket per creation day, holding the positive number of navigations created that day; `|| 0` gives that count for every day |
| Dashboard.SubmissionDaysMeaning | app/api/dashboard/stats/route.ts:117-122 | a day has a bucket exactly when some submission was created on it; any other day has all three counts zero |
| Dashboard.OtherStatusCountsNowhere | app/api/dashboard/stats/route.ts:123-129 | a submission whose status is not pending, approved or rejected changes no count |
| Dashboard.CountSubmission | app/api/dashboard/stats/route.ts:119-129 | one submission opens its day's bucket when the day is new and adds one to the count of its status; the buckets then agree with the counts over one more submission |
| Dashboard.SubmissionsByDay | app/api/dashboard/stats/route.ts:117-130 | one bucket per submission day, with the pending, approved and rejected counts of that day |
| Dashboard.Trend | app/api/dashboard/stats/route.ts:73-82 | the while loop lists consecutive days from the start day, as many as fit before the end, each with its bucket or the zero value |
| Dashboard.WindowLength | app/api/dashboard/stats/route.ts:16-82 | a window of `days` days has days + 1 entries when both clock readings agree, and days entries when the clock moved on between them |
| Dashboard.TotalVisitsIsSum | app/api/dashboard/stats/route.ts:28-36 | the `_sum.visits` total, defaulted to 0, is the sum of the approved navigations' visits, and 0 when there are none |
| Dashboard.HeadlineOf | app/api/dashboard/stats/route.ts:21-46 | the four summary numbers: the approved count, their visit sum, the pending submissions and the users |
| Dashboard.PopularMeaning | app/api/dashboard/stats/route.ts:145-165 | the ten most visited approved navigations, most visited first: exactly ten, or all approved ones when there are fewer; each taken from the approved ones no more often than it occurs there; no approved navigation left out has more visits than a listed one |
| Sorting.SortedPrefix | app/api/dashboard/stats/route.ts:145-152 | the first n entries of a sorted list are sorted, drawn from the list, and none left out has a larger key than one taken |
| Dashboard.TagCounts | app/api/dashboard/stats/route.ts:168-185 | one entry per tag, counting its links to approved navigations |
| Dashboard.TagDistributionMeaning | app/api/dashboard/stats/route.ts:183-186 | the distribution is ordered by count, non-increasing; it is a permutation of the per-tag counts, and tags with equal counts keep their order |
| DashboardStats.DaysValueMeaning | app/api/dashboard/stats/route.ts:13 | an absent or empty `days` parameter means 90, and a decimal number is read back as itself |
| DashboardStats.Trends | app/api/dashboard/stats/route.ts:64-148 | the three series have one entry per day of the window, holding that day's visits, creations and submission counts, zero when nothing happened |
| DashboardStats.Window | app/api/dashboard/stats/route.ts:20-201 | the reply holds the summary numbers, the three day series over the window, the popular list and the tag distribution |
| DashboardStats.Get | app/api/dashboard/stats/route.ts:5-210 | without a session the answer is 401 before any query; an unreadable `days` gives 500; otherwise the reply holds the summary numbers, the three zero-filled day sequences over the window, the popular list and the tag distribution |
| AdminDashboard.WithStringDates | app/admin/dashboard/page.tsx:106-109 | the popular rows keep their order and every field, except that `createdAt` becomes its ISO string |
| AdminDashboard.GetDashboardData | app/admin/dashboard/page.tsx:9-109 | without a session the page redirects to /admin/login; otherwise it shows the summary numbers, the 90-day zero-filled visit trend and the re-typed popular list |
| AdminDashboard.NinetyDayWindow | app/admin/dashboard/page.tsx:15-80 | the fixed window spans 91 days when both clock readings agree and 90 otherwise |
| Strings.ParseIntDecimal | app/api/dashboard/stats/route.ts:13 | `parseInt` of a number's decimal form is that number |
| Sorting.SortDescSorted | app/api/dashboard/stats/route.ts:186 | the sort leaves the list ordered by the key, non-increasing, at the same length |
| Sorting.SortDescPermutes | app/api/dashboard/stats/route.ts:186 | the sort is a permutation |
| Sorting.SortDescStable | app/api/dashboard/stats/route.ts:186 | the sort is stable: the elements of each key keep their relative order |
| NavigationsRoute.BuildWhere | app/api/navigations/route.ts:13-76 | the status filter is set only on the primary query; the text filter exactly when q is non-empty; the tag filter exactly when a tag is given |
| NavigationsRoute.Order | app/api/navigations/route.ts:35-40 | visits descending exactly for `sortBy=visits`; creation time descending otherwise |
| NavigationsRoute.QueryMeaning | app/api/navigations/route.ts:17-54 | the query returns exactly the matching rows, as often as they occur in the table, ordered by the key, largest first |
| NavigationsRoute.PrimaryQueryApproved | app/api/navigations/route.ts:13-15 | the primary query returns only approved navigations |
| NavigationsRoute.Get | app/api/navigations/route.ts:5-101 | without an error it answers the primary query; after a status error and a successful retry it answers the same text and tag filters without the status filter; any other error gives 500 |
| NavigationsRoute.RetryWidensOnlyStatus | app/api/navigations/route.ts:55-91 | the retry answers a superset of the primary query; a navigation is in the primary answer exactly when it is in the retry's answer and approved |
| NavigationsRoute.Post | app/api/navigations/route.ts:103-139 | without a session the answer is 401; otherwise it creates one navigation with one tag link per entry of tagIds; a body without tagIds gives 500 and creates nothing |
| Proxy.AnonymousAdminGoesToLogin | proxy.ts:8-16 | a visitor who is not signed in and opens an /admin path other than login or register is sent to /admin/login |
| Proxy.SignedInAuthGoesHome | proxy.ts:9-21 | a signed-in visitor on a login or register path is sent to /admin |
| Proxy.PassesOtherwise | proxy.ts:23 | every other request passes, including every non-admin path and anonymous visits to login and register |
| Proxy.AuthRoutesAreAdminRoutes | proxy.ts:8-10 | every login or register path is also an /admin path, which is why the sign-in redirect has to exempt them |
| Proxy.NoRedirectLoop | proxy.ts:14-23 | a redirect target, opened under the same sign-in state, always passes |
| EmailFormat.IsValidEmailMatchesPattern | app/api/auth/register/route.ts:18-19 | the executable check holds exactly when the email matches `^[^\s@]+@[^\s@]+\.[^\s@]+$` |
| EmailFormat.ValidEmailShape | app/api/auth/register/route.ts:18-24 | a valid email has at least 5 characters, no whitespace, and exactly one `@` |
| RegisterRoute.NameOrDefault | app/api/auth/register/route.ts:62 | a missing or empty name becomes 管理员, and any other name is kept |
| RegisterRoute.Post | app/api/auth/register/route.ts:5-82 | the guard order is: missing field, bad email, short password, taken email, then any existing user (403). A user is created only in an empty store, with the hashed password and the defaulted name, and the reply carries no password |
| UpdateProfileRoute.Post | app/api/user/update-profile/route.ts:5-86 | the guard order is: no session email (401), missing field, bad email (400), unknown user (404), email owned by someone else (400). On success only the current user's name and email change, and the reply echoes them |
| UpdateProfileRoute.UpdateKeepsOthers | app/api/user/update-profile/route.ts:62-66 | the update changes no other user and no other field |
| ChangePasswordRoute.Post | app/api/user/change-password/route.ts:6-64 | the guard order is: no session email (401), missing or short password (400), unknown user (404). On success only that user's password changes, to the hash |
| ChangePasswordRoute.PasswordOnly | app/api/user/change-password/route.ts:47-50 | the update keeps every other user and every other field |
| ChangePasswordDialog.ClientCheck | components/change-password-dialog.tsx:34-47 | empty fields are rejected first, then a password under 6 characters, then a mismatch; no error means both fields agree and are long enough |
| ChangePasswordDialog.ClientCheckImpliesServerCheck | components/change-password-dialog.tsx:34-47 | a form the dialog sends passes the server's password checks |
| ChangePasswordDialog.ChangePasswordDialog.HandleSubmit | components/change-password-dialog.tsx:31-85 | a failed check shows its error and sends nothing; otherwise it sends only newPassword. An ok answer clears both fields and closes the dialog. A failure keeps the fields and shows the error |
| EditProfileDialog.ClientCheck | components/edit-profile-dialog.tsx:48-58 | an empty name or email is rejected first, then an email failing the pattern |
| EditProfileDialog.SuccessMessage | components/edit-profile-dialog.tsx:82-88 | the sign-in-again message appears exactly when the email changed |
| EditProfileDialog.ClientCheckImpliesServerCheck | components/edit-profile-dialog.tsx:48-58 | a form the dialog sends passes the server's field and email checks |
| EditProfileDialog.EditProfileDialog.SyncOnOpen | components/edit-profile-dialog.tsx:38-43 | opening the dialog resets name and email to the initial values |
| EditProfileDialog.EditProfileDialog.HandleSubmit | components/edit-profile-dialog.tsx:45-106 | a failed check sends nothing. The success callback runs only when it is provided and the answer carries a user. The dialog closes only after an ok answer |
| SubmissionsRoute.DescriptionOrNull | app/api/submissions/route.ts:22 | an empty or missing description is stored as null |
| SubmissionsRoute.Post | app/api/submissions/route.ts:6-35 | a missing title or url gives 400 and creates nothing; otherwise one pending submission is created |
| SubmissionsRoute.WithStatusComplete | app/api/submissions/route.ts:46-51 | every row with the requested status is selected |
| SubmissionsRoute.BuildWhere | app/api/submissions/route.ts:46-51 | the status filter is set exactly when a status is given |
| SubmissionsRoute.Get | app/api/submissions/route.ts:38-67 | without a session the answer is 401; otherwise the selected rows, ordered by createdAt descending, as a permutation |
| SubmissionsRoute.ListMeaning | app/api/submissions/route.ts:46-56 | a submission is listed exactly when it is in the table and, if a status was given, has that status |
| SubmissionManagement.StatusFilter | components/submission-management.tsx:64 | `all` sends no status; any other value is sent as given |
| SubmissionManagement.StatusQuery | components/submission-management.tsx:50 | a status gives `?status=<status>`, and no status gives nothing |
| SubmissionManagement.ListUrlMeaning | components/submission-management.tsx:50-65 | `all` or an empty selection requests `/api/submissions`; anything else requests it with `?status=` |
| SubmissionManagement.ActionStatus | components/submission-management.tsx:83 | approve maps to approved and reject maps to rejected |
| SubmissionManagement.SubmissionManagement.constructor | components/submission-management.tsx:39-44 | the initial state shows pending submissions, loading, with no dialog and no selection |
| SubmissionManagement.SubmissionManagement.FetchSubmissions | components/submission-management.tsx:47-61 | requests the list URL; an ok answer replaces the list, and every answer ends loading |
| SubmissionManagement.SubmissionManagement.SelectStatus | components/submission-management.tsx:63-65 | a new selection fetches its list |
| SubmissionManagement.SubmissionManagement.HandleReview | components/submission-management.tsx:67-71 | records the submission and the action, and opens the dialog |
| SubmissionManagement.SubmissionManagement.ConfirmReview | components/submission-management.tsx:73-108 | without a selection or an action nothing happens; otherwise it sends the mapped status. An ok answer clears the dialog, the selection and the action, then reloads. A failure keeps them and shows an error |
| InitData.CollectTags | scripts/init-data.ts:224-230 | the tag list has no repeats and holds exactly the union of the sites' tags |
| InitData.CreateTags | scripts/init-data.ts:233-241 | each distinct tag is upserted once; the tag map has exactly those names, each mapped to the id of a tag of that name; existing tags are kept |
| InitData.TagIdsOf | scripts/init-data.ts:270-274 | one link per tag name, in order, with the id from the tag map |
| InitData.RunCounts | scripts/init-data.ts:245-283 | created + skipped never exceeds the number of sites; the rows grow by exactly the created count |
| InitData.RunKeepsUrlsDistinct | scripts/init-data.ts:250-259 | skipping existing URLs keeps the table's URLs distinct |
| InitData.StepCreates | scripts/init-data.ts:262-276 | a created site gets its tag links and the Google s2 icon for its hostname with `sz=64` |
| InitData.FindUrl | scripts/init-data.ts:251-253 | the lookup finds a row exactly when some row has that URL |
| InitData.CreateSite | scripts/init-data.ts:249-281 | one site: the table and the two counters end as the step function says, skipped for a url already present, created when the host parses, the tags are known and the insert is accepted, unchanged otherwise |
| InitData.CreateSites | scripts/init-data.ts:248-283 | the loop with `continue` and a per-site `catch` ends in the state the step function describes |
| InitData.InitData | scripts/init-data.ts:219-293 | the tag map covers exactly the union of the sites' tags, and created + skipped ≤ number of sites |
| SearchBarWrapper.NextVisible | components/search-bar-wrapper.tsx:17-26 | top < 100 shows the bar; top > 120 hides it; a top between 100 and 120 keeps the state |
| SearchBarWrapper.BandKeepsState | components/search-bar-wrapper.tsx:21-26 | a scroll sequence that stays within the band never changes the state |
| SearchBarWrapper.SwitchNeedsCrossing | components/search-bar-wrapper.tsx:17-26 | the state flips only after the top crosses the far threshold |
| SearchBarWrapper.SearchBarWrapper.HandleScroll | components/search-bar-wrapper.tsx:10-27 | a missing anchor leaves the state unchanged; otherwise the new state is the threshold decision |
| NavigationDataTable.TruncateUrl | components/navigation-data-table.tsx:80-82 | a URL over 50 characters becomes its first 50 characters plus `...`; otherwise it is unchanged; the result has at most 53 characters |
| NavigationDataTable.FirstTags | components/navigation-data-table.tsx:96 | at most the first 3 tags, in order |
| NavigationDataTable.OverflowBadge | components/navigation-data-table.tsx:101-105 | a `+N` badge exactly for more than 3 tags, with N = count − 3 |
| NavigationDataTable.BadgesAccountForAllTags | components/navigation-data-table.tsx:96-105 | the shown tags plus N add up to the number of tags |
| NavigationGrid.BuildParams | components/navigation-grid.tsx:35-38 | only the non-empty q, tag and sortBy values are copied |
| NavigationGrid.Decode | components/navigation-grid.tsx:49-57 | an object with an array `data` gives that array; a bare array gives itself; anything else gives nothing |
| NavigationGrid.DecodeShapesAgree | components/navigation-grid.tsx:49-53 | both response shapes decode to the same items |
| NavigationGrid.NavigationGrid.FetchData | components/navigation-grid.tsx:28-64 | an ok answer sets the decoded items; a non-ok answer or a throw sets an empty list; loading ends false in every case |
| NavigationGrid.CardTags | components/navigation-grid.tsx:150 | at most 3 tags are shown, in order |
| NavigationGrid.InitialLetter | components/navigation-grid.tsx:119 | the upper-cased first character of the title, and nothing for an empty title |
| NavigationGrid.Placeholder | components/navigation-grid.tsx:108-122 | an icon-less item shows its initial letter, and an item with an icon shows none |
| ChartAreaInteractive.RangeDays | components/chart-area-interactive.tsx:67-72 | `30d` gives 30 days, `7d` gives 7, and anything else gives 90 |
| ChartAreaInteractive.InWindow | components/chart-area-interactive.tsx:73-79 | the items dated no earlier than the window start |
| ChartAreaInteractive.InWindowMeaning | components/chart-area-interactive.tsx:73-79 | the result is an order-preserving sublist of the trend, and it holds exactly the items inside the window |
| ChartAreaInteractive.FilteredData | components/chart-area-interactive.tsx:61-80 | a missing or empty trend gives nothing; otherwise the items inside the window for the selected range |
| ChartAreaInteractive.ChartAreaInteractive.constructor | components/chart-area-interactive.tsx:53 | the range starts at `90d` |
| ChartAreaInteractive.ChartAreaInteractive.OnMobileChange | components/chart-area-interactive.tsx:55-59 | becoming mobile selects `7d`, and anything else keeps the range |
| UseBackgroundConfig.Merge | hooks/use-background-config.ts:25-41 | the keys of the patch override, and missing keys keep their value |
| UseBackgroundConfig.MergeLaws | hooks/use-background-config.ts:25-47 | an empty patch changes nothing; merging twice is merging once; two merges are one merge of the combined patch; a full patch replaces the config |
| UseBackgroundConfig.Loaded | hooks/use-background-config.ts:11-36 | a stored config is merged over the defaults (grid and particles off, header blur on); nothing stored or a parse error gives the defaults |
| UseBackgroundConfig.SavedLoadsBack | hooks/use-background-config.ts:24-47 | the config `updateConfig` writes to local storage is the config the loading effect reads back from it |
| UseBackgroundConfig.UseBackgroundConfig.constructor | hooks/use-background-config.ts:11-22 | the hook starts with the defaults, not loaded |
| UseBackgroundConfig.UseBackgroundConfig.Load | hooks/use-background-config.ts:24-36 | a parsed config is merged over the defaults; otherwise the config is kept; loaded is set in every case |
| UseBackgroundConfig.UseBackgroundConfig.UpdateConfig | hooks/use-background-config.ts:39-47 | changes only the given fields and persists the merged result unless the write fails |
| UseBackgroundConfig.UseBackgroundConfig.SetShowGrid | hooks/use-background-config.ts:53 | changes only showGrid |
| UseBackgroundConfig.UseBackgroundConfig.SetShowParticles | hooks/use-background-config.ts:54 | changes only showParticles |
| UseBackgroundConfig.UseBackgroundConfig.SetShowHeaderBlur | hooks/use-background-config.ts:55 | changes only showHeaderBlur |
| Store.FilterKeepsMatches | app/api/navigations/route.ts:44-54 | the query filter keeps every matching row |
| Store.FindManySelects | app/api/cron/update-favicons/route.ts:33-38 | `findMany` with `take` selects at most `take` matching rows, and all of them when no more qualify |
| Store.TagTable.Upsert | scripts/init-data.ts:234-238 | returns the existing tag of that name unchanged, or creates one with a fresh id |
| Store.UserStore.Create | app/api/auth/register/route.ts:58-64 | appends one user with a fresh id and keeps emails unique |
| Store.UserStore.UpdateProfile | app/api/user/update-profile/route.ts:62-66 | changes only that user's name and email, and keeps emails unique |
| Store.UserStore.UpdatePassword | app/api/user/change-password/route.ts:47-50 | changes only that user's password |
| Store.SubmissionTable.Create | app/api/submissions/route.ts:18-25 | appends one submission with a fresh id |
| Store.NavigationTable.Create | app/api/navigations/route.ts:113-129 | appends one navigation with a fresh id and the given tag links |
| Store.IconStore.Save | lib/favicon-downloader.ts:126-139 | appends exactly one blob and returns its id |

## Left out

- The network, the HTML parser, timers and the database are parameters. This
  covers the 10-second fetch timeouts, the User-Agent header, the 500 ms
  delays between batch items, and the `setTimeout` that signs the user out
  after a profile or password change (modelled as a flag).
- Console logging and toasts are recorded as state or left out. They only
  display things.
- Dates are milliseconds since the epoch and days are `ms / 86400000` in UTC.
  Local `setDate` steps, daylight-saving time and `toISOString` formatting
  are not modelled.
- Lengths are counted in `char`s. JavaScript's UTF-16 `length`, `substring`
  and `charAt` can differ on characters outside the Basic Multilingual Plane.
- `NavigationGrid.UpperAscii`: upper-cases ASCII letters only, while
  `toUpperCase` also maps other scripts.
- `Strings.ParseInt`: reads an optional sign and decimal digits after leading
  white space. The `0x` prefix and the `Infinity` literal of `parseInt` are
  not modelled.
- `NavigationManagement.NavigationManagement.HandlePageSizeChange`: takes the
  integer that `parseInt` reads from the selected option, not the option text.
- The order the database returns among rows with equal sort keys is modelled
  as table order.
- Whether `contains` ignores case depends on the database and is not modelled.
  Matching is by exact substring.
- Database failures beyond the modelled fault parameters are not modelled.
  This includes constraint violations and the connection errors that the
  handlers' `catch` blocks turn into status 500.
- `DashboardStats.Get`: a `days` value that `parseInt` cannot read makes the
  start date invalid. The model answers that case with status 500, taken to be
  the database's rejection of the invalid date.
- The random visit counts of the seeding script are a parameter.
- The schema's default status for created rows is a parameter.
- bcrypt is an opaque function `hash`.
- `UseBackgroundConfig.Loaded`: stored values that are not booleans are not
  modelled. A stored patch carries optional booleans.
- The route matcher regex of `proxy.ts` is framework configuration.
- UpdateProfileRoute.UpdateKeepsOthers and ChangePasswordRoute.PasswordOnly
  follow from the table methods' contracts. They restate those contracts for
  the route, and Dafny needs no proof steps for them.
- The delete and favicon-refresh buttons of the admin list
  (`confirmDelete`, `confirmUpdateFavicons`) and its tag fetch are not
  modelled. They forward to endpoints that are not part of this model and
  show a toast.
