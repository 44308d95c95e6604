# Injai Channel — a verified model of the site's core

Injai Channel is a small content site for a music channel: public pages for news, artists,
videos and events, plus an admin area where these are edited. This Dafny project models the
parts of it that make decisions, and proves properties of them:

- **Access control.** The page middleware guards `/admin` and redirects to `/login`. The
  per-handler admin check answers 401, 403 or 500 instead (`gate.dfy`). Login and signup issue
  a signed token in a `token` cookie (`auth.dfy`).
- **API route handlers** over an in-memory model of the database tables (`table.dfy`, `crud.dfy`):
  - news (`news.dfy`), events (`events.dfy`), artists (`artists.dfy`), videos (`videos.dfy`);
  - the artist category table (`categories.dfy`);
  - newsletter subscription, unsubscription and broadcast (`newsletter.dfy`) and the admin
    subscriber statistics (`newsletter_admin.dfy`);
  - the site settings with their partial update and `getInTouch` merge (`settings.dfy`).
- **Library helpers:** YouTube id extraction and URLs (`youtube.dfy`), page metadata and
  structured data (`seo.dfy`), and the sitemap (`sitemap.dfy`).
- **Public list pages:** the search and filter chains of the news, events, videos and artists
  pages (`news_page.dfy`, `events_page.dfy`, `videos_page.dfy`, `artists_page.dfy`).
- **Admin editors:**
  - the news forms and their related-link lists (`admin_news.dfy`, `admin_news_new.dfy`, `news_links.dfy`);
  - the settings editor (`settings_editor.dfy`);
  - the subscriber CSV export (`newsletter_export.dfy`).

Shared modules:

- `Js`: JavaScript values and `||`, `??`, `?.`, truthiness.
- `Text`: `trim`, case mapping, `includes`, `split` and `join`.
- `Query`: `filter`, `map`, `orderBy` and `take`.

What the handlers receive from outside is passed in as a parameter:

- a token verifier, the password hash and compare functions, and the token signer;
- the clock and a date parser;
- oEmbed lookups;
- the outcome of sending an e-mail;
- whether the environment is production and has a database URL;
- fresh row ids.

Where the code updates state in place, the model does the same:

- the database tables and the admin forms are classes whose methods state the whole new state;
- the link objects of the news forms are shared objects;
- the playlist items of the settings editor are an array that successive states share.

## Model

| member | source | states |
|---|---|---|
| Gate.LoginUrl | middleware.ts:13-15 | the redirect target is the request URL with only its pathname replaced by `/login` (origin and query kept) |
| Gate.Middleware | middleware.ts:7-31 | the page request goes on exactly when a non-empty `token` cookie verifies to a payload whose role is `admin`; every other request is redirected to the login URL |
| Gate.MiddlewareIgnoresPath | middleware.ts:7-31 | the decision depends on the cookie alone: two URLs with the same cookie are both let through or both redirected |
| Gate.GatedPaths | middleware.ts:33-35 | the matcher covers exactly `/admin` and the paths under `/admin/` |
| Gate.AdminCheck | src/app/api/settings/route.ts:21-26 | the admin check of every admin handler: no or empty cookie is unauthorized, a token that fails to verify throws, a verified non-admin payload is forbidden, and only an admin payload is authorized |
| Gate.GateStatus | src/app/api/settings/route.ts:21-26 | a refused request gets 401, 403 or 500, and 500 exactly when token verification threw (the handlers' catch block) |
| Gate.LayersAgree | middleware.ts:18-30 | the middleware and the handlers' admin check let through the same requests; on a token that does not verify the page is redirected while the handler answers 500 |
| Gate.PresenceWeakerThanAdmin | src/app/api/artists/categories/route.ts:57-60 | every request the admin check authorizes also passes the cookie-presence check, and so does one whose token does not verify |
| YouTube.MarkerAt | src/lib/youtube.ts:4 | the marker alternatives of the pattern (`youtu.be/`, `v/`, `u/\w/`, `embed/`, `watch?v=`, `&v=`, with `.` any character but a line terminator): a match at a position lies within the string |
| YouTube.Reach | src/lib/youtube.ts:4 | the leading `.*` stops at the first line terminator: no terminator before the reach, and one at it unless it is the length |
| YouTube.LastMarker | src/lib/youtube.ts:4-5 | the greedy `.*` picks the last marker whose start is within reach: a marker starts there, and none starts later within reach |
| YouTube.IdRun | src/lib/youtube.ts:4 | `([^#&?]*)` is the longest prefix free of `#`, `&`, `?` and line terminators |
| YouTube.ExtractId | src/lib/youtube.ts:3-7 | an extracted id has exactly 11 characters, none of them `#`, `&`, `?` or a line terminator, and a marker matches within reach |
| YouTube.NoMarkerNoId | src/lib/youtube.ts:3-7 | a URL without any marker within reach yields no id |
| YouTube.IdAfterLastMarker | src/lib/youtube.ts:3-7 | conversely, 11 id characters right after the last marker within reach, followed by the end or a separator, are extracted |
| YouTube.LastMarkerUnique | src/lib/youtube.ts:4 | a marker with no later marker up to the bound is the one the greedy match settles on |
| YouTube.IdRunOf | src/lib/youtube.ts:4 | a string of id characters followed by a separator (or the end) has exactly that string as its run |
| YouTube.ReachPast | src/lib/youtube.ts:4 | a prefix free of line terminators lies within reach |
| YouTube.MarkerEnd | src/lib/youtube.ts:4 | every marker ends with `/` or `=` |
| YouTube.NoMarkerIn | src/lib/youtube.ts:4 | a marker starting in a stretch without `/` and `=` must end beyond it |
| YouTube.BareIdRejected | src/lib/youtube.ts:3-7 | a URL with no `/` and no `=` (a bare id, say) yields no id |
| YouTube.LaterMarkerWins | src/lib/youtube.ts:4-6 | the last marker decides: after a trailing `&v=` whose run is not 11 characters long there is no id, whatever id came earlier |
| YouTube.WatchUrl | src/lib/youtube.ts:3-7 | `…watch?v=<id>` with an 11-character id yields that id, whatever comes before on the line |
| YouTube.ValidIffElevenAfterLastMarker | src/lib/youtube.ts:3-20 | a URL is valid exactly when a marker starts within reach with no later one within reach, and the run of id characters after it is 11 long |
| YouTube.ThumbnailAsWritten | src/lib/youtube.ts:9-11 | the thumbnail URL as written: the quality name followed by `default.jpg`, `high` when none is given |
| YouTube.ThumbnailAsWrittenMissesFiles | src/lib/youtube.ts:9-11 | only `maxres` names a file YouTube serves; every other quality, the default `high` included (`highdefault.jpg`), names a missing file |
| YouTube.FileName | src/lib/youtube.ts:9-11 | every quality names one of the files YouTube serves |
| YouTube.Thumbnail | src/lib/youtube.ts:9-11 | the corrected thumbnail URL names a served file in the id's directory, `hqdefault.jpg` by default |
| YouTube.ThumbnailQualitiesDiffer | src/lib/youtube.ts:9-11 | two different qualities give two different corrected URLs |
| YouTube.EmbedUrl | src/lib/youtube.ts:13-15 | the embed URL is the embed prefix followed by the id, so the id can be read back from it |
| YouTube.EmbedUrlInjective | src/lib/youtube.ts:13-15 | two ids have the same embed URL exactly when they are the same id |
| Settings.GetSettings | src/app/api/settings/route.ts:10-17 | `GET` fails with 500 exactly when the query throws; otherwise it returns the stored row, or `[]` social links and team and `{}` `getInTouch` and playlist when there is none |
| Settings.MergeSide | src/app/api/settings/route.ts:37-42 | a side of the merge contributes its fields when it is a plain object and nothing otherwise (arrays, strings, null) |
| Settings.MergeGetInTouch | src/app/api/settings/route.ts:36-44 | the merged `getInTouch` is an object holding the keys of both sides, the incoming value winning on a shared key |
| Settings.Section | src/app/api/settings/route.ts:33-35 | a section is written exactly when the body gives it a value other than `undefined`, and then with that value (null included) |
| Settings.BuildUpdate | src/app/api/settings/route.ts:32-44 | the update data: the three plain sections as given, and `getInTouch` as the merge of the stored and the incoming block when the body has one |
| Settings.ApplyUpdate | src/app/api/settings/route.ts:47 | an update writes the columns it names and keeps the others |
| Settings.CreateAsWritten | src/app/api/settings/route.ts:48-53 | the created row: each of the four sections is the body's value when it is neither null nor undefined, else `[]` for social links and team and `{}` for the playlist and `getInTouch`; a non-object `getInTouch` is stored as it is |
| Settings.PostAsWritten | src/app/api/settings/route.ts:19-58 | `POST` as written: 401, 403 or 500 from the admin check and 500 for a missing or null body, each with the store untouched; it saves exactly when authorised with a body, and then the saved row is the stored row with the update applied, or the created row when there is none, and becomes the store |
| Settings.UpdateIdempotent | src/app/api/settings/route.ts:32-47 | applying the same body twice to a stored row gives what applying it once gives |
| Settings.PostAsWrittenNotIdempotent | src/app/api/settings/route.ts:36-53 | on an empty table, posting `{getInTouch: "x"}` twice leaves `{}` where posting it once leaves `"x"` |
| Settings.CreateNormalized | src/app/api/settings/route.ts:48-53 | the corrected create: `getInTouch` is the body's object when it gives one and `{}` otherwise; the other three sections as the as-written create stores them |
| Settings.Post | src/app/api/settings/route.ts:19-58 | `POST` with the corrected create: the same refusals and the same saving condition; with no stored row it saves the corrected create; whenever a row exists it behaves as written |
| Settings.PostIdempotent | src/app/api/settings/route.ts:19-58 | posting the same body twice leaves the state that posting it once leaves, with or without a stored row (for bodies whose plain sections are not null) |
| Settings.GetAfterPost | src/app/api/settings/route.ts:10-58 | a `GET` after a successful `POST` returns the row that `POST` saved |
| NewsletterAdmin.StatsOf | src/app/api/admin/newsletter/route.ts:20-24 | the stats count the whole list, the active records and the unsubscribed records; the two counts never exceed the total |
| NewsletterAdmin.StatsExact | src/app/api/admin/newsletter/route.ts:20-24 | when every record is active or unsubscribed, active plus unsubscribed is the total |
| NewsletterAdmin.Get | src/app/api/admin/newsletter/route.ts:4-47 | empty list and zero stats in a production build without a database; otherwise, when the query throws, the empty list in production and 500 elsewhere, and when it succeeds, every record (the same multiset) newest first with stats over them |
| NewsletterAdmin.StatsOfTable | src/app/api/admin/newsletter/route.ts:15-24 | the stats of the sorted list are the stats of the table itself |
| Seo.SiteUrl | src/lib/seo.ts:39 | the site URL is the configured one when it is set and non-empty, else `https://injai-channel.com` |
| Seo.FullTitle | src/lib/seo.ts:40 | a title that already contains the site name is kept; any other gets ` \| Injai Channel` appended |
| Seo.FullTitleIdempotent | src/lib/seo.ts:40 | every full title names the site, so computing the full title again changes nothing |
| Seo.Absolute | src/lib/seo.ts:41-42 | an absent or empty value gives the fallback, one starting with `http` is kept, any other is prefixed with the site URL |
| Seo.AbsoluteIsFixed | src/lib/seo.ts:41-42 | with an absolute site URL and fallback the result is absolute, and making it absolute again changes nothing |
| Seo.FullImageAndUrlAbsolute | src/lib/seo.ts:39-42 | with an absolute (or absent) configured site URL, the page image and page URL are absolute |
| Seo.Robots | src/lib/seo.ts:44-47 | with neither flag the robots list is `index, follow`; otherwise it holds exactly the flags that are set, `noindex` first |
| Seo.RobotsLine | src/lib/seo.ts:44-53 | the robots meta text is `index, follow` exactly when neither flag is set, and otherwise `noindex`, `nofollow` or `noindex, nofollow` |
| Seo.OrDefault | src/lib/seo.ts:21-36 | a destructuring default replaces a missing value only |
| Seo.IfGiven | src/lib/seo.ts:71-74 | a conditionally spread property is present exactly when its value is truthy, and then equal to it |
| Seo.OpenGraphBlock | src/lib/seo.ts:57-76 | the Open Graph block carries the page type (default `website`), full title, description, page URL, site name and one 1200×630 image; published and modified time, author (as a one-element list), section and tags are present exactly when given (tags: when non-empty) and then hold the given value |
| Seo.TwitterBlock | src/lib/seo.ts:77-84 | the Twitter block is a large-image card with the full title, the description, the page image and the `@injai_channel` handles |
| Seo.ArticleTags | src/lib/seo.ts:85-89 | the article author and section, or empty when not given, and the tags joined by `,` |
| Seo.GenerateMetadata | src/lib/seo.ts:20-93 | the metadata: full title everywhere, the description in the page, Open Graph and Twitter blocks, keywords and tags joined, canonical falling back to the page URL, one 1200×630 image, the robots list, the optional Open Graph fields present exactly when given and then holding the given value, and the fixed Twitter handles |
| Seo.StructuredData | src/lib/seo.ts:95-120 | the object holds `data`'s keys plus `@context` and `@type` (which `data` may override), the site `url` and `logo` for Organization and WebSite, the publisher for Article, and otherwise `data`'s own values |
| Seo.DefaultTitleKept | src/lib/seo.ts:122-128 | the default configuration's title already names the site and is used as it stands |
| Sitemap.StaticPages | src/app/sitemap.ts:8-51 | seven static entries, in order: home, news, artists, videos, events, contact, about, all stamped with the build time, changing daily (home, news, videos), weekly (artists, events) or monthly (contact, about) |
| Sitemap.Pages | src/app/sitemap.ts:62-67 | one entry per row, in row order, at the base URL plus the section prefix plus the id, stamped with the row's `updatedAt` |
| Sitemap.Build | src/app/sitemap.ts:4-89 | the static pages come first; when either read throws only they are returned; otherwise the sitemap is exactly the static pages, then one weekly entry per article, then one monthly entry per artist, each at its URL and stamped with the row's `updatedAt` |
| Sitemap.StaticUnderBase | src/app/sitemap.ts:8-51 | every static URL starts with the base URL |
| Sitemap.PagesUnderBase | src/app/sitemap.ts:62-82 | every URL of a dynamic section starts with the base URL |
| Sitemap.UrlsUnderBase | src/app/sitemap.ts:4-89 | every URL of the sitemap starts with the base URL |
| Sitemap.DistinctIdsDistinctUrls | src/app/sitemap.ts:62-82 | rows with different ids get different URLs |
| Auth.ClaimsOf | src/app/api/auth/login/route.ts:54-58 | the token's claims are exactly the user's id, username and role |
| Auth.Public | src/app/api/auth/login/route.ts:61-66 | the user returned to the client is the row without its password hash |
| Auth.Cookie | src/app/api/auth/login/route.ts:78-83 | the `token` cookie is HTTP-only, `strict`, lives seven days, and is secure exactly in production |
| Auth.Issue | src/app/api/auth/login/route.ts:54-85 | a successful reply carries the public user, a seven-day token signed over the user's claims, and the cookie holding that token |
| Auth.LoginEmail | src/app/api/auth/login/route.ts:24 | a truthy e-mail is looked up as its string form, trimmed and lower-cased; a falsy one is not looked up |
| Auth.LoginUsername | src/app/api/auth/login/route.ts:25 | a truthy username is looked up as its string form, trimmed; a falsy one is not looked up |
| Auth.FindLogin | src/app/api/auth/login/route.ts:27-34 | the lookup finds the first row, in table order, whose e-mail or username matches a non-empty identifier, and none when no row matches |
| Auth.Login | src/app/api/auth/login/route.ts:11-94 | an unreadable body gets 500; a body without a truthy e-mail or username, or without a truthy password, gets 400 `Email or username and password are required`; a lookup that finds no user gets 401 `Invalid credentials`; the reply is 200, 400, 401 or 500 |
| Auth.LoginSpec | src/app/api/auth/login/route.ts:11-94 | login without a password is refused with 400; every 401 says `Invalid credentials`; a success is status 200 for a stored user matching the identifiers whose hash the password matches |
| Auth.UnknownUserAndWrongPasswordAlike | src/app/api/auth/login/route.ts:36-51 | a wrong password gets the same reply as an identifier no user has |
| Auth.CheckSignup | src/app/api/auth/signup/route.ts:16-42 | an accepted signup has string fields, a password of at least six characters, and no stored user with the same (normalised) e-mail or username; the new row holds the username, the lower-cased trimmed e-mail, the cost-12 hash and role `admin`; once the fields pass, it is refused with 409 exactly when a stored user has the e-mail or the username, and with a string password that is its only refusal |
| Auth.CheckSignupStatuses | src/app/api/auth/signup/route.ts:16-38 | a rejected signup gets 400, 409 or 500; an unreadable body gets 500; a missing username or e-mail gets `All fields are required`; any password with a length under six gets the length message |
| Auth.UserStore.Signup | src/app/api/auth/signup/route.ts:11-85 | a rejected signup leaves the table alone and replies with the check's status; an accepted one appends the new user and replies 201 with its token and cookie |
| Auth.LoginFindsSignupEmail | src/app/api/auth/signup/route.ts:42 | login's trim-then-lower-case of a stored e-mail gives it back unchanged, and agrees with signup's lower-case-then-trim |
| Auth.SignupThenLogin | src/app/api/auth/signup/route.ts:31-42 | a user who has just signed up logs in with the same e-mail and password and gets a token naming the new row |
| Auth.SignupAcceptedThenLogin | src/app/api/auth/signup/route.ts:11-85 | the same, starting from any body signup accepts |
| Auth.LoginIssues | src/app/api/auth/login/route.ts:44-85 | when the lookup finds a row and the password matches its hash, login issues the token for that row |
| Auth.FindLast | src/app/api/auth/login/route.ts:27-34 | a row that is the only match and comes last is the one found |
| Categories.EntryIndex | src/app/api/artists/categories/route.ts:32 | `categoryMap[stat.category]` finds the entry whose key is the category, and none when no key matches |
| Categories.CategoryCounts | src/app/api/artists/categories/route.ts:24-42 | the reply lists `pioneers`, `collaborators`, `emerging` in that order with their fixed labels, each with the count of the last statistic for it, or 0 |
| Categories.StatForFound | src/app/api/artists/categories/route.ts:31-35 | a non-zero count, or any statistic for the category, means the listed count is that of a statistic for it |
| Categories.CountsAreArtistCounts | src/app/api/artists/categories/route.ts:16-35 | with the statistics `groupBy` returns, each listed count is the number of artists in that category |
| Categories.OtherCategoriesIgnored | src/app/api/artists/categories/route.ts:31-35 | a statistic for a category outside the table changes no count |
| Categories.List | src/app/api/artists/categories/route.ts:5-52 | `GET` fails exactly when a query throws; otherwise it lists the three categories with their counts |
| Categories.Post | src/app/api/artists/categories/route.ts:55-85 | `POST` asks only for a cookie (401 without), refuses an unparsable body with 500 and a missing field with 400, and otherwise echoes category and label with count 0 |
| Categories.NonAdminAccepted | src/app/api/artists/categories/route.ts:57-60 | a cookie the admin handlers refuse with 403 still gets an echo here |
| Newsletter.IndexOf | src/app/api/newsletter/route.ts:18-20 | `findUnique({ where: { email } })` finds a record with that address, and none exactly when no record has it |
| Newsletter.IndexOfUnique | src/app/api/newsletter/route.ts:18-20 | with unique addresses, every record is the one found for its own address |
| Newsletter.StatusAfterSet | src/app/api/newsletter/route.ts:30-33 | rewriting one record without changing its address keeps the addresses unique and changes that address's state only |
| Newsletter.StatusAfterAppend | src/app/api/newsletter/route.ts:37-39 | appending a record for a new address keeps the addresses unique and changes that address's state only |
| Newsletter.SourceOf | src/app/api/newsletter/route.ts:8 | the source defaults to `website` when the body leaves it undefined, and is kept otherwise |
| Newsletter.SubscriptionStore.Subscribe | src/app/api/newsletter/route.ts:6-57 | a missing e-mail gets 400 and an unreadable body 500, both without writing; an active address gets 400 unchanged; a known inactive address is reactivated with the new source; a new address gets an active record; the reply is 200 only when the welcome mail goes out, and no other address changes state |
| Newsletter.SubscriptionStore.Unsubscribe | src/app/api/newsletter/route.ts:60-89 | a missing address parameter gets 400; an address without a record makes the update throw (500); otherwise that record becomes `unsubscribed` and the reply is 200, no other address changing state |
| Newsletter.ActiveSubscribers | src/app/api/newsletter/route.ts:104-106 | the broadcast goes to exactly the active records of the table |
| Newsletter.SendToSubscribers | src/app/api/newsletter/route.ts:190-254 | one mail per subscriber, in order: deliveries plus failures is the number of subscribers, deliveries is the number whose mail went out, and a failure does not stop the loop |
| Newsletter.CountSnoc | src/app/api/newsletter/route.ts:202-250 | one more subscriber adds one to the delivery count exactly when its mail goes out |
| Newsletter.PutBroadcast | src/app/api/newsletter/route.ts:92-138 | an unreadable body gets 500, a missing article id, subject or content 400, an unknown article 404; a sent broadcast reaches every active subscriber and counts deliveries and failures |
| Js.Length | src/app/api/auth/signup/route.ts:23 | `v.length` exists exactly for strings and arrays, and is the number of characters or items |
| Js.StringOf | src/app/api/auth/login/route.ts:24-25 | `String(v)` of a string is the string itself, of an object `[object Object]` |
| Store.IdsHas | src/app/api/news/route.ts:142-154 | the id of every row is among the table's ids |
| Store.IdsAppend | src/app/api/news/route.ts:81-92 | appending a row adds exactly its id, and keeps the ids unique when the id is new |
| Store.Patched | src/app/api/news/route.ts:142-154 | `update({ where: { id } })` rewrites the row with that id and no other, keeping every id and the order |
| Store.WithoutIdSpec | src/app/api/news/route.ts:188-190 | `delete({ where: { id } })` takes away exactly the row with that id, keeping the others in order, and changes nothing for an unknown id |
| Store.WithoutIdCount | src/app/api/news/route.ts:188-190 | deleting an existing id removes one row and that id, and keeps the ids unique |
| Store.Table.Find | src/app/api/newsletter/route.ts:109-111 | `findUnique({ where: { id } })` finds a row exactly when the id is stored, and it is that row's data |
| Store.Table.Create | src/app/api/news/route.ts:81-92 | `create` appends the new row and keeps the ids unique |
| Store.Table.Update | src/app/api/news/route.ts:142-154 | `update` succeeds exactly when the id is stored, and then rewrites that row; otherwise the table is unchanged (Prisma throws) |
| Store.Table.Delete | src/app/api/news/route.ts:188-190 | `delete` succeeds exactly when the id is stored, and then removes that row; otherwise the table is unchanged (Prisma throws) |
| Store.FindIn | src/app/api/newsletter/route.ts:109-111 | the lookup finds a row exactly when the id is stored |
| Crud.Create | src/app/api/news/route.ts:50-122 | an admin-only `POST`: the gate's status when refused, 500 for a missing body, the builder's refusal, or 201 with the new row appended; the table is written only on 201 |
| Crud.Update | src/app/api/news/route.ts:124-167 | an admin-only `PUT`: the gate's status, 500 for an unreadable body, 400 without an id, 500 for an unknown id; 200 exactly when the stored row with that id is patched |
| Crud.Delete | src/app/api/news/route.ts:169-203 | an admin-only `DELETE`: the gate's status, 400 without an id parameter, 500 for an unknown id; 200 exactly when the row with that id is removed |
| Crud.Keep | src/app/api/news/route.ts:144-153 | a column the update data leaves `undefined` keeps its value; any other value is written |
| Crud.FilterValue | src/app/api/events/route.ts:21-31 | a query parameter filters only when it is present, non-empty and not `all`, and then by its own value |
| News.Defaulted | src/app/api/news/route.ts:70-71 | a destructuring default replaces `undefined` only |
| News.BuildArticle | src/app/api/news/route.ts:63-92 | 400 exactly when one of the six required fields is falsy; 500 when the category is not a string; otherwise the row holds the body's title, content, image, excerpt and author, the category upper-cased, `featured` defaulting to false and `links` to `[]`, and both time stamps set to now |
| News.Post | src/app/api/news/route.ts:50-122 | 201 exactly for an admin with the six fields and a string category, appending the built article; a featured article also triggers the newsletter with subject `New Featured Article: <title>` and the content; otherwise nothing is written or sent |
| News.Patch | src/app/api/news/route.ts:142-154 | title, content, image, excerpt, author, featured and links are the new value when given and the stored one when undefined; a string category is stored upper-cased and any other leaves it alone; the publication time is kept and the update time set to now |
| News.Put | src/app/api/news/route.ts:124-167 | 200 exactly for an admin whose body names a stored id and whose category is absent, null or a string; the row is then patched; 400 without id; nothing changes otherwise |
| News.Delete | src/app/api/news/route.ts:169-203 | 200 exactly when an admin names a stored id, which is then removed; 400 without id; nothing changes otherwise |
| News.CategoryFilter | src/app/api/news/route.ts:20-22 | the category filter is the parameter upper-cased, and none when it is absent, empty or `all` |
| News.List | src/app/api/news/route.ts:7-48 | an empty list in a production build without a database or when the query throws in production, 500 otherwise; a listing holds stored articles passing the filters, each at most as often as it is stored, newest first, exactly as many as the smaller of 50 and the number that match, and every matching article left out is no newer than any listed one |
| News.CategoryMatchIgnoresCase | src/app/api/news/route.ts:20-21 | an article created with category `k` is selected by the filter `c` exactly when `c` is absent, `all`, or equal to `k` up to case |
| Events.DateOf | src/app/api/events/route.ts:95 | a truthy date is parsed; a missing or falsy one becomes the current time |
| Events.FromBody | src/app/api/events/route.ts:91-106 | the created row takes the body's title, description, location, type, status and image, the date rule, `featured` as a boolean, the body's ticket price, ticket URL and capacity or null when nullish, and an empty lineup |
| Events.Patch | src/app/api/events/route.ts:134-149 | each text column is the body's value when given and the stored one when undefined; the date (now when missing), the featured flag and the three nullable fields are always written as create would write them; the lineup is untouched |
| Events.Post | src/app/api/events/route.ts:80-116 | 201 exactly for an admin with a body, appending the built event; otherwise the gate's status or 500 and nothing written |
| Events.Put | src/app/api/events/route.ts:119-160 | 200 exactly for an admin whose body names a stored id, which is then patched; 400 without id; nothing changes otherwise |
| Events.Delete | src/app/api/events/route.ts:163-195 | 200 exactly when an admin names a stored id, which is then removed; 400 without id; nothing changes otherwise |
| Events.View | src/app/api/events/route.ts:52-67 | each listed event carries its id twice (`id`, `_id`), every stored column (title, description, date, location, type, status, image, featured, ticket price, ticket URL, capacity), and its lineup, empty when not loaded |
| Events.List | src/app/api/events/route.ts:10-78 | 500 exactly when the query throws; otherwise the views of the rows the filtered, soonest-first, limited query selects: stored rows passing the status, featured and type filters; all of them without a limit, and the smaller of the limit and the number that match with one |
| Videos.ArtistIdOf | src/app/api/videos/route.ts:108 | the artist id is the first truthy of `artistId`, `artist._id`, `artist.id`, else null |
| Videos.ViewsOf | src/app/api/videos/route.ts:107 | the view count is the body's number, or 0 when it is not a number |
| Videos.UploadDateOf | src/app/api/videos/route.ts:104 | a truthy upload date is parsed; a missing or falsy one becomes the current time |
| Videos.ThumbnailForCreate | src/app/api/videos/route.ts:85-96 | a truthy thumbnail is kept; otherwise the oEmbed thumbnail when the lookup answers, else the body's value |
| Videos.ThumbnailForUpdate | src/app/api/videos/route.ts:139-148 | the same rule for `PUT`, whose lookup runs whenever the thumbnail is falsy |
| Videos.ThumbnailsAgree | src/app/api/videos/route.ts:85-148 | `POST` and `PUT` end with the same thumbnail for every body and lookup outcome |
| Videos.FromBody | src/app/api/videos/route.ts:98-110 | the created row takes the body's title, description, YouTube id and category, the resolved thumbnail, the upload date rule, `featured` as a boolean, the views rule and the artist id rule |
| Videos.Patch | src/app/api/videos/route.ts:154-167 | title, description, YouTube id, category and the resolved thumbnail are the new value when given and the stored one when undefined; the upload date (now when missing), views, featured flag and artist id are always written |
| Videos.Post | src/app/api/videos/route.ts:73-124 | 201 exactly for an admin with a body, appending the built video; otherwise nothing written |
| Videos.Put | src/app/api/videos/route.ts:127-181 | the lookup runs for an admin's readable body without a thumbnail, even when the id is missing; 200 exactly when the body names a stored id, which is then patched; 400 without id; nothing changes otherwise |
| Videos.Delete | src/app/api/videos/route.ts:184-216 | 200 exactly when an admin names a stored id, which is then removed; 400 without id; nothing changes otherwise |
| Videos.RelatedArtist | src/app/api/videos/route.ts:42 | the included artist is the stored artist whose id the video's `artistId` names, and none when no artist has it |
| Videos.ViewsText | src/app/api/videos/route.ts:56 | zero views show as `Unknown views`, any other count as the formatted number followed by `+ views` |
| Videos.View | src/app/api/videos/route.ts:46-60 | each listed video carries its id twice, its title, description, YouTube id, category, upload date, thumbnail and featured flag as stored, the placeholder duration `3:25`, the upload year as text, the views text, and its artist's name and id or `Unknown Artist` |
| Videos.YearDigits | src/app/api/videos/route.ts:54 | a non-negative upload year prints as decimal digits only |
| Videos.ArtistFilter | src/app/api/videos/route.ts:38 | the artist filter applies whenever the parameter is non-empty; `all` is not special |
| Videos.List | src/app/api/videos/route.ts:10-71 | 500 exactly when the query throws; otherwise the views of the rows the filtered, newest-first, limited query selects: stored rows passing the category, featured and artist filters, all matching rows without a limit, the smaller of the limit and that number with one |
| Videos.ListNewestFirst | src/app/api/videos/route.ts:40 | the listed videos come newest upload first |
| Artists.StatOf | src/app/api/artists/route.ts:94-96 | a statistic is the body's `stats` value when it is neither null nor undefined, else 0 |
| Artists.SocialOf | src/app/api/artists/route.ts:97-100 | a social link is the body's value when it is neither null nor undefined, else null |
| Artists.FromBody | src/app/api/artists/route.ts:87-103 | the created row takes the body's name, bio, category and image, the thumbnail or the image when the thumbnail is falsy, each statistic and social link by its default rule, `featured` as a boolean and the creation time |
| Artists.Patch | src/app/api/artists/route.ts:137-154 | name, bio, category, image and thumbnail are the new value when given and the stored one when undefined; the three statistics, four social links and the featured flag are always written by their default rules; the creation time is kept |
| Artists.PatchIdempotent | src/app/api/artists/route.ts:137-154 | applying the same `PUT` body twice gives what applying it once gives |
| Artists.View | src/app/api/artists/route.ts:40-54 | each listed artist carries its id twice, its name, bio, category, image, thumbnail and featured flag as stored, and its three statistics grouped under `stats` |
| Artists.Selection | src/app/api/artists/route.ts:23-37 | the rows found are stored rows passing the category and featured filters, each at most as often as it is stored, newest first; all of them without a limit, the smaller of the limit and the number that match with one, and every matching row left out is no newer than any row found |
| Artists.List | src/app/api/artists/route.ts:11-69 | an empty list in a production build without a database or when the query throws in production, 500 otherwise; else the views of the selection |
| Artists.AllCategories | src/app/api/artists/route.ts:24-26 | an absent category and the category `all` select the same rows |
| Artists.ListsEveryRow | src/app/api/artists/route.ts:23-37 | with no filter and no limit every stored row is listed |
| Artists.Post | src/app/api/artists/route.ts:72-116 | 201 exactly for an admin with a body, appending the built artist; otherwise nothing written |
| Artists.Put | src/app/api/artists/route.ts:119-167 | 200 exactly for an admin whose body names a stored id, which is then patched; 400 without id; nothing changes otherwise |
| Artists.Delete | src/app/api/artists/route.ts:170-204 | 200 exactly when an admin names a stored id, which is then removed; 400 without id; nothing changes otherwise |
| NewsPage.FilterArticlesIsOnePass | src/app/news/page.tsx:68-86 | the search step followed by the category step keeps exactly the articles one combined test keeps |
| NewsPage.FilterArticlesProperties | src/app/news/page.tsx:68-86 | the filtered list is an order-preserving subsequence holding exactly the articles whose title, excerpt or author contains the term ignoring case and whose category matches; with an empty search and `all` it is the whole list |
| NewsPage.FirstFeatured | src/app/news/page.tsx:156 | `find(a => a.featured)` stops at the first featured article, and finds none when no article is featured |
| NewsPage.FeaturedStory | src/app/news/page.tsx:150-156 | the story above the list exists exactly when the filtered list is non-empty; it is the first featured article, or the first article when none is featured |
| EventsPage.FilterEventsIsOnePass | src/app/events/page.tsx:55-73 | the search step followed by the type step keeps exactly the events one combined test keeps |
| EventsPage.FilterEventsProperties | src/app/events/page.tsx:55-73 | the filtered list is an order-preserving subsequence holding exactly the events whose title, description or location contains the term ignoring case and whose type matches; with no filter it is the whole list |
| VideosPage.ArtistName | src/app/videos/page.tsx:66 | the artist name is the string itself, the record's non-empty name, or empty |
| VideosPage.FilterVideosIsOnePass | src/app/videos/page.tsx:60-92 | the four steps (search, category, year, artist) keep exactly the videos one combined test keeps |
| VideosPage.FilterVideosProperties | src/app/videos/page.tsx:60-92 | the filtered list is an order-preserving subsequence holding exactly the shown videos; with an empty search and every dropdown on `all` it is the whole list |
| VideosPage.ArtistFilterWithinSearch | src/app/videos/page.tsx:65-88 | a video the artist filter keeps for a name is also found by searching for that name |
| ArtistsPage.SumWithout | src/app/artists/page.tsx:50-53 | the total of the statistics does not depend on the order the categories are taken in |
| ArtistsPage.SumIncrement | src/app/artists/page.tsx:52 | counting one more artist adds one to the total |
| ArtistsPage.CategoryCountAppend | src/app/artists/page.tsx:51-53 | one more artist adds one to its own category's count and nothing to any other |
| ArtistsPage.StatsStep | src/app/artists/page.tsx:51-53 | one step of the `forEach` keeps every statistic equal to the number of artists seen in that category |
| ArtistsPage.CategoryStats | src/app/artists/page.tsx:50-54 | each category's statistic is the number of artists in it, a category has an entry exactly when some artist is in it, and the entries add up to the number of artists |
| ArtistsPage.FilterArtistsProperties | src/app/artists/page.tsx:62-79 | the filtered list is an order-preserving subsequence holding exactly the artists whose name or bio contains the term ignoring case and whose category matches; with no filter it is the whole list |
| ArtistsPage.Options | src/app/artists/page.tsx:101-106 | four buttons: all artists with the total, then `pioneers`, `collaborators`, `emerging` with their labels and counts, 0 for an empty category |
| ArtistsPage.OptionCountsMatchFilter | src/app/artists/page.tsx:101-106 | each category button shows the number of artists that pressing it lists |
| NewsletterExport.Exported | src/app/admin/newsletter/page.tsx:193-195 | the `all` filter exports every subscriber; any other filter exports only subscribers with that status, and every one of them; in both cases every exported subscriber comes from the list and the export keeps the list order |
| NewsletterExport.Lines | src/app/admin/newsletter/page.tsx:197-205 | the file has one line more than the exported subscribers; line 0 is `Email,Status,Source,Subscribed Date`; line i+1 is subscriber i's email, status, source and formatted date, joined by `,` |
| NewsletterExport.JoinCellsHasNoNewline | src/app/admin/newsletter/page.tsx:199-205 | joining cells that hold no newline with `,` gives a row that holds no newline |
| NewsletterExport.LineHasNoNewline | src/app/admin/newsletter/page.tsx:197-205 | when no cell holds a newline, no line of the file (header or row) holds one |
| NewsletterExport.CsvLines | src/app/admin/newsletter/page.tsx:197-205 | when no cell holds a newline or comma, splitting the CSV text at newlines gives back exactly the header and one line per exported subscriber, in order |
| NewsletterExport.RowCells | src/app/admin/newsletter/page.tsx:199-205 | when no cell holds a comma, splitting a row at commas gives back the subscriber's four cells; the export does no quoting |
| NewsletterExport.FileNameDate | src/app/admin/newsletter/page.tsx:211 | the download is named `newsletter-subscribers-<filter>-<date>.csv`, where `<date>` is the part of the ISO timestamp before `T` |
| NewsLinks.Link.Blank | src/app/admin/news/page.tsx:151 | a new link object has empty text and an empty URL |
| NewsLinks.Values | src/app/admin/news/page.tsx:121 | the links are serialised one for one, each with its object's current text and URL |
| NewsLinks.AddLink | src/app/admin/news/new/page.tsx:62-64 | the new array is the old links followed by one new blank link object |
| NewsLinks.UpdateLink | src/app/admin/news/new/page.tsx:70-74 | the array is the same objects; only the link object at the index changes, and only in the given field; every link object that is a different object keeps both fields; an index out of range changes nothing |
| NewsLinks.FilterLinksProperties | src/app/admin/news/page.tsx:108 | the submitted links are an order-preserving subsequence of the form's links; they are exactly the links whose text and URL are both non-blank after trimming; filtering again changes nothing |
| NewsLinks.BlankLinkDropped | src/app/admin/news/new/page.tsx:32 | appending a blank link leaves the submitted links unchanged |
| NewsLinks.LinksVal | src/app/admin/news/page.tsx:115-121 | the body's `links` is an array with, for each submitted link, an object with exactly the keys `text` and `url` holding its text and URL |
| AdminNews.NewsForm.constructor | src/app/admin/news/page.tsx:34-44 | the form starts blank (empty fields, `GENERAL`, not featured, one blank link) and out of edit mode, with no message or error |
| AdminNews.NewsForm.Edit | src/app/admin/news/page.tsx:89-102 | the form enters edit mode for the article's id and takes its fields; it shares the article's own link objects, or has one new blank link when the article has none; the preview URL is cleared |
| AdminNews.NewsForm.AddLink | src/app/admin/news/page.tsx:148-153 | the links become the old links followed by a new blank link; every other field of the form is unchanged |
| AdminNews.NewsForm.RemoveLink | src/app/admin/news/page.tsx:155-160 | the link at the index is removed and the others stay in order (an index out of range keeps them all); every other field of the form is unchanged |
| AdminNews.NewsForm.UpdateLink | src/app/admin/news/page.tsx:162-166 | only the link object at the index changes, in the given field only; the link list, every other link object and every field of the form stay as they were |
| AdminNews.NewsForm.Body | src/app/admin/news/page.tsx:108-116 | the body holds `id` exactly in edit mode, and then it is the edited article's id; besides it exactly title, content, image, excerpt, author, category, featured, links and the preview URL, each the form's value, `links` being the filtered links |
| AdminNews.NewsForm.Fields | src/app/admin/news/page.tsx:108-116 | the form part of the body: exactly title, content, image, excerpt, author, category, featured, links and the preview URL, each the form's value, `links` being the filtered links |
| AdminNews.NewsForm.Reset | src/app/admin/news/page.tsx:130-141 | the form becomes blank with one new link object and leaves edit mode; the message and the error are kept |
| AdminNews.NewsForm.Submit | src/app/admin/news/page.tsx:104-146 | sends `PUT` in edit mode and `POST` otherwise, with the body built before the call; on success the form resets and shows `Article updated/created successfully`; on failure only the error changes, to the server's error or `Failed to update/create article` |
| AdminNews.BodyRequiredFields | src/app/admin/news/page.tsx:114-116 | the body passes the API's required-field check exactly when title, content, image, excerpt, author and category are all non-empty |
| AdminNews.EditBodyHasId | src/app/admin/news/page.tsx:114-115 | in edit mode with a non-empty id, the body carries the truthy `id` that `PUT /api/news` requires |
| AdminNewsNew.NewArticleForm.constructor | src/app/admin/news/new/page.tsx:13-24 | the form starts with empty fields, category `GENERAL`, not featured, one blank link, not submitting and no error |
| AdminNewsNew.NewArticleForm.AddLink | src/app/admin/news/new/page.tsx:62-64 | the links become the old links followed by a new blank link; every other field of the form is unchanged |
| AdminNewsNew.NewArticleForm.RemoveLink | src/app/admin/news/new/page.tsx:66-68 | the link at the index is removed and the others stay in order (an index out of range keeps them all); every other field of the form is unchanged |
| AdminNewsNew.NewArticleForm.UpdateLink | src/app/admin/news/new/page.tsx:70-74 | only the link object at the index changes, in the given field only; an index out of range changes nothing; the link list and every field of the form stay as they were |
| AdminNewsNew.NewArticleForm.Body | src/app/admin/news/new/page.tsx:32-46 | the body has exactly title, content, image, excerpt, author, category, featured and links, each the form's value, with the links filtered: no `id` and no preview URL |
| AdminNewsNew.NewArticleForm.Submit | src/app/admin/news/new/page.tsx:26-60 | sends the body built before the call; navigates to `/admin/news` exactly on success; on failure shows the server's error or `Failed to create article`; every other field is unchanged and it ends not submitting |
| AdminNewsNew.BodyRequiredFields | src/app/admin/news/new/page.tsx:37-46 | the body passes the API's required-field check exactly when the six required fields are all non-empty |
| SettingsEditor.SetSocialField | src/app/admin/settings/page.tsx:169-176 | the edited social link has the new value in the given field, and every other field (the optional icon class included) as before |
| SettingsEditor.SocialLinkByFields | src/app/admin/settings/page.tsx:9 | two social links with the same four fields are the same link, so the field-wise contract above determines the edited link |
| SettingsEditor.SetTeamField | src/app/admin/settings/page.tsx:202-212 | the edited team member has the new value in the given field (the photo from the upload, the bio from its input), and every other field as before |
| SettingsEditor.TeamMemberByFields | src/app/admin/settings/page.tsx:10 | two team members with the same four fields are the same member |
| SettingsEditor.SetItemField | src/app/admin/settings/page.tsx:137-151 | the edited playlist item has the new value in the given field and the other two fields as before |
| SettingsEditor.ReplaceAt | src/app/admin/settings/page.tsx:169 | copying the array and replacing one entry keeps the length, puts the new entry at that index and keeps every other entry |
| SettingsEditor.OutcomeMessage | src/app/admin/settings/page.tsx:60-111 | a stored save shows its section's success message, a refused reply that section's `Failed to save ...` message, a thrown error its own message or `Save failed` when that is empty; the message is never empty |
| SettingsEditor.SettingsEditor.constructor | src/app/admin/settings/page.tsx:16-25 | the page starts with empty lists and strings, an empty playlist with a new empty items array, not saving and no message |
| SettingsEditor.SettingsEditor.AddSocialLink | src/app/admin/settings/page.tsx:191 | the social links gain one blank link (empty icon class) at the end; nothing else changes |
| SettingsEditor.SettingsEditor.RemoveSocialLink | src/app/admin/settings/page.tsx:188 | the social link at the index is removed and the others stay in order; nothing else changes |
| SettingsEditor.SettingsEditor.UpdateSocialLink | src/app/admin/settings/page.tsx:169-176 | the social link at the index gets the new value in the given field; every other link and every other part of the state stay as they were |
| SettingsEditor.SettingsEditor.AddTeamMember | src/app/admin/settings/page.tsx:216 | the team gains one member at the end with empty name and role and no photo or bio; nothing else changes |
| SettingsEditor.SettingsEditor.RemoveTeamMember | src/app/admin/settings/page.tsx:213 | the member at the index is removed and the others stay in order; nothing else changes |
| SettingsEditor.SettingsEditor.UpdateTeamMember | src/app/admin/settings/page.tsx:202-212 | the member at the index gets the new value in the given field; everything else stays as it was |
| SettingsEditor.SettingsEditor.AddAddressLine | src/app/admin/settings/page.tsx:236 | the address lines gain one empty line at the end; nothing else changes |
| SettingsEditor.SettingsEditor.RemoveAddressLine | src/app/admin/settings/page.tsx:233 | the address line at the index is removed and the others stay in order; nothing else changes |
| SettingsEditor.SettingsEditor.UpdateAddressLine | src/app/admin/settings/page.tsx:232 | the address line at the index becomes the new text; nothing else changes |
| SettingsEditor.SettingsEditor.SetContact | src/app/admin/settings/page.tsx:224-227 | exactly the chosen one of headline, description, e-mail and phone takes the new value |
| SettingsEditor.SettingsEditor.SetPlaylistField | src/app/admin/settings/page.tsx:123-132 | the playlist's title, URL or description takes the new value; the playlist keeps the same items array and nothing else changes |
| SettingsEditor.SettingsEditor.AddPlaylistItem | src/app/admin/settings/page.tsx:159 | the playlist gets a new items array: the old items followed by one blank item; the old array and the rest of the state are untouched |
| SettingsEditor.SettingsEditor.RemovePlaylistItem | src/app/admin/settings/page.tsx:152-156 | the playlist gets a new items array without the item at the index, the others in order; the old array and the rest of the state are untouched |
| SettingsEditor.SettingsEditor.UpdatePlaylistItem | src/app/admin/settings/page.tsx:137-151 | the state keeps the same playlist and the same items array, and that shared array has the edited item at the index and every other item as before |
| SettingsEditor.SettingsEditor.Payload | src/app/admin/settings/page.tsx:60-111 | a full save sends exactly the four section keys; a section save sends exactly its own key; every key sent carries that section's current value |
| SettingsEditor.SettingsEditor.Save | src/app/admin/settings/page.tsx:60-111 | the request carries the payload of the state before the call and is sent while saving; afterwards saving is off, the message is the outcome's message, and nothing else changes |
| SettingsEditor.SectionSaveWritesOnlySection | src/app/admin/settings/page.tsx:73-111 | a section save, handled by `POST /api/settings` on a stored row, writes that section (merging `getInTouch`) and keeps the other three columns |
| SettingsEditor.SectionRowsInOrder | src/app/admin/settings/page.tsx:76 | the social links section sends one JSON entry per link, entry i being link i |
| Store.Table.constructor | src/app/api/news/route.ts:28-32 | a table starts with the given rows, whose ids are unique |
| Auth.UserStore.constructor | src/app/api/auth/signup/route.ts:31-42 | the user store wraps a valid user table |
| Newsletter.SubscriptionStore.constructor | src/app/api/newsletter/route.ts:6-57 | the subscription store starts with the given records, whose e-mails are unique |
| Query.Filter | src/app/api/admin/newsletter/route.ts:22-23 | `filter` keeps at most the list's length; every kept element satisfies the predicate and comes from the list; every element that satisfies it is kept |
| Query.FilterIsSubsequence | src/app/admin/newsletter/page.tsx:195 | `filter` keeps the elements in their original order |
| Query.FilterAppend | src/app/admin/news/new/page.tsx:32 | filtering a concatenation filters each part |
| Query.SortBy | src/app/api/events/route.ts:40 | `orderBy` returns the same rows (as a multiset) in key order, ascending or descending |
| Query.Take | src/app/api/news/route.ts:31 | `take: 50` keeps a prefix of the rows, of length 50 or all of them when there are fewer |
| Query.TakeSorted | src/app/api/news/route.ts:30-31 | a prefix of rows in key order is in key order |
| Query.TakeKeepsFirst | src/app/api/news/route.ts:30-31 | a prefix of rows in key order holds some of the rows, and every row it leaves out comes no earlier in the order than any row it keeps |
| Query.Select | src/app/api/news/route.ts:28-32 | `findMany` with `where`, `orderBy` and `take` returns only matching rows, in key order; without a limit, all of them; with one, the smaller of the limit and the number that match |
| Query.SelectKeepsFirst | src/app/api/news/route.ts:28-32 | with `take`, the rows kept are matching rows, and every matching row left out comes no earlier in key order than any row kept: the first rows in key order |
| Query.WithoutIndex | src/app/admin/news/page.tsx:158 | `filter((_, i) => i !== index)` removes exactly the element at an index in range and keeps the rest in order; an index out of range keeps everything |
| Query.CountPermutation | src/app/api/admin/newsletter/route.ts:15-24 | counting by status gives the same numbers whatever order `orderBy` put the rows in |
| Text.Trim | src/app/admin/news/page.tsx:108 | `trim` returns a string no longer than its input that neither starts nor ends with white space |
| Text.TrimIsSlice | src/app/admin/news/page.tsx:108 | the trimmed string is a slice `s[i..j]` of the input with only white space before `i` and from `j` on |
| Text.TrimEmptyIffBlank | src/app/admin/news/page.tsx:108 | `s.trim()` is empty exactly when `s` is all white space |
| Text.TrimIdempotent | src/app/api/auth/login/route.ts:24 | trimming twice is trimming once |
| Text.TrimOfLower | src/app/api/auth/login/route.ts:24 | `trim().toLowerCase()` and `toLowerCase().trim()` give the same string |
| Text.ToUpper | src/app/api/news/route.ts:21 | `toUpperCase` keeps the length and maps each character |
| Text.SplitJoin | src/app/admin/newsletter/page.tsx:205 | splitting a joined list at a separator that occurs in no part gives back the parts |

## Left out

- Token signing and verification and password hashing are parameters: their algorithms, the secret and its fallback value are not modelled.
- The database is a list of rows per table with unique ids. Column types, required columns, unique e-mail and username constraints, `@updatedAt` beyond the clock parameter, and the semantics of `groupBy` and `distinct` are not modelled. An empty `OR` list in a lookup is modelled as matching nothing.
- Row ids come from the caller, standing for the database's generated ids.
- Numbers are integers: `parseFloat` ticket prices, the sitemap `priority` values and floating point in general are not modelled. A `limit` query parameter is given already parsed, as an optional natural number.
- Dates are integers supplied by the caller. `new Date(...)` is a parser parameter, and an invalid date is whatever that parser returns. `getFullYear`, `toLocaleDateString` and `toISOString` are parameters or given strings.
- Case mapping covers ASCII letters only, with no Unicode case folding.
- The YouTube oEmbed lookup is a parameter that returns a thumbnail or nothing. The HTML scraping of the link preview route is not part of this model.
- Sending e-mail is only a success or failure outcome per message. The message templates, the transport and the welcome mail's content are not modelled.
- The newsletter request a featured article triggers is modelled as the request that is sent. Its reply is ignored, as in the code.
- React rendering, hooks and routing are not modelled: the admin pages' initial loads and list refreshes, the settings page's first fetch and login redirect, toasts and their timers, and the CSV download through a Blob and a link.
- The admin pages for artists, events, videos and users, the contact, about, store and home pages, and the shared components are not part of this model.
- The CSV export does no field quoting, and the model does not add any. `NewsletterExport.CsvLines` and `NewsletterExport.RowCells` hold only for cells without newlines or commas.
- SettingsEditor.SettingsEditor.UpdateSocialLink requires an existing index, and so do UpdateTeamMember, UpdateAddressLine and UpdatePlaylistItem, because writing past the end of a JavaScript array grows it with holes, which the model does not capture.
- Settings.PostIdempotent excludes bodies that give a plain section as `null`. On an empty table, create stores `[]` or `{}` for such a section while a later update stores `null`, so the state differs.
- Videos.List does not state the order itself. `Videos.ListNewestFirst` states it.
- YouTube.ExtractId: the 11-character test on the captured id counts characters, not UTF-16 code units (see the Js.Length line).
- Auth.CheckSignup: the six-character password minimum counts characters, not UTF-16 code units (see the Js.Length line).
- Js.Length: gives no length for objects, where JavaScript reads an object's own `length` property (a body password `{"length": 3}` gets the 400 length message in JavaScript, while here it passes the length test and is refused later). It also counts a string's characters, where JavaScript's `length` counts UTF-16 code units; a character outside the Basic Multilingual Plane counts once here and twice in JavaScript. The signup password-length check and the 11-character test of `extractYouTubeId` are affected for such characters.
- Auth.Login and Auth.UserStore.Signup model the cookie as a record of its attributes, not as a `Set-Cookie` header.

## Findings

| source | as written | input that shows it | evidently intended | confidence | as-written member | corrected member |
|---|---|---|---|---|---|---|
| src/app/api/settings/route.ts:48-53 | with no stored row, `create` stores a non-object `getInTouch` as it is; the next `POST` merges it as `{}` | the body `{"getInTouch": "x"}` posted twice on an empty table: `"x"` after one post, `{}` after two | posting the same body twice leaves what posting it once leaves | not executed | Settings.PostAsWrittenNotIdempotent | Settings.PostIdempotent |
| src/lib/youtube.ts:9-11 | the file name is the quality followed by `default.jpg` | no quality, so the default `high`: `.../highdefault.jpg`, a file YouTube does not serve | the served names `hqdefault.jpg`, `mqdefault.jpg`, `sddefault.jpg`, `maxresdefault.jpg` | not executed | YouTube.ThumbnailAsWrittenMissesFiles | YouTube.ThumbnailQualitiesDiffer |
