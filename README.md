# Request shaping and failure handling of the admin front-end

This project models, in Dafny, the layer of the admin front-end that
shapes HTTP requests and decides how to handle failures. It covers three
resources: article categories, publications and guestbook entries. For
each resource there is a service module and a React Query hooks module.

The service modules cover these operations:

- `getArticleCategories`, `getPublications` and `buildSearchParams` fill a
  `URLSearchParams` object with guarded `set` calls. They are modelled as
  methods over a `SearchParams` class whose `pairs` field they update. Each
  is proved to leave exactly `Present(fields)`: the truthy fields, in
  source order, each under one key. The five guarded calls that all three
  builders share (page, limit, search, sortBy, sortOrder) are written once,
  as `QueryString.SetListFields`; the publication builder adds its `lang`
  and `type` steps after them.
- `toPublicationFormData` fills a `FormData` object with `append` calls and
  a loop over the category ids. It is modelled as a method over a
  `FormData` class. It is proved to leave exactly `FormEntries(payload)`.
  That function's per-field contents, order and error case are proved as
  lemmas.
- `normalizeError`, in both variants. The guestbook variant has no
  `details` in its fallback.
- Every endpoint: its verb, path and body, and its own default message and
  code.

A call is `Settle(operation, send(request))`. The transport `send` is a
parameter of type `Request -> Outcome`. A rejected call fails with the
normalised error. A resolved call returns the response body, except that
the operations returning `response.data.data` (`getArticleCategoryById`,
`createArticleCategory`, `updateArticleCategory`, `getPublicationById`,
`createPublication`, `updatePublication`, `getGuestBooks`,
`getGuestBookById`) fail with their defaults when the body is `null` or
`undefined`: that inner read throws a TypeError, which the `catch` turns
into the default error.

The hook modules cover:

- the `retry` predicate and the `retryDelay` backoff, written out alike
  in all seven `useQuery` calls; every query's options carry them as
  fields, built by `QueryPolicy.WithSharedPolicy`;
- the query keys and the `enabled` guards;
- the keys each mutation invalidates on success.

Invalidation is modelled as a returned key list. React Query's prefix
selection is modelled as `Matches`, which tests whether one key is a
sequence prefix of another.

JavaScript values are a `JsValue` datatype, so `||` and truthiness follow
the language. `includes` compares with SameValueZero, so in this model a
numeric code `401` is not a terminal code; only the string `"401"` is.
`number.toString()` is modelled for integers as decimal text.

Reading and updating a category use `/admin/categories/{id}`, but
deleting one sends `DELETE /admin/article-categories/{id}`. The model
follows the code, and `ArticleCategoryServices.ItemPaths` states the
difference.

## Model

| member | source | states |
|---|---|---|
| JsValues.NumberToString | src/services/ArticleCategoryServices.ts:25-26 | `toString` of an integer page or limit is never empty |
| JsValues.DecimalRoundTrip | src/services/ArticleCategoryServices.ts:25-26 | the decimal text of a natural number reads back as that number |
| JsValues.NumberTextRoundTrip | src/services/PublicationServices.ts:57-58 | the text `toString` gives for an integer is a signed digit string that reads back as the same integer |
| JsValues.NumberToStringInjective | src/services/PublicationServices.ts:57-58 | distinct page/limit numbers never render to the same query value |
| WebForms.SetPair | src/services/ArticleCategoryServices.ts:25-29 | `URLSearchParams.set`: afterwards the key occurs exactly once, with the new value, and every other key's entries are unchanged; an existing key keeps the position of its first entry, with every entry before it unchanged; an absent key is appended at the end |
| WebForms.Serialize | src/services/ArticleCategoryServices.ts:31 | the query string is empty exactly when there are no entries |
| WebForms.SearchParams.Set | src/services/GuestBookServices.ts:19-23 | one `set` call changes the entry list to `SetPair` of the old list |
| WebForms.FormData.Append | src/services/PublicationServices.ts:30 | one `append` adds exactly one entry at the end and leaves the rest unchanged |
| WebForms.ValuesOfConcat | src/services/PublicationServices.ts:33-49 | the values under a key of two appended entry lists are the values of the first list followed by those of the second |
| WebForms.LookupConcat | src/services/PublicationServices.ts:62-63 | looking up a key in a concatenation finds the first list's entry before the second's |
| WebForms.WithoutKeyRemoves | src/services/ArticleCategoryServices.ts:25-29 | removing a key leaves no entry under that key |
| ApiErrors.NormalizeError | src/services/ArticleCategoryServices.ts:6-20 | with a response: the server's `errors` and `code` when truthy, otherwise the defaults, and `details` copied; without a response (a primitive, null, or an object without `response`): exactly the defaults with `details: undefined` |
| ApiErrors.NormalizedErrorNeverBlank | src/services/PublicationServices.ts:13-23 | with non-empty defaults, every normalised error has a truthy message and code |
| QueryString.NumberParam | src/services/ArticleCategoryServices.ts:25-26 | a number field contributes a value exactly when it is truthy (0 and absent do not) |
| QueryString.TextParam | src/services/ArticleCategoryServices.ts:27-28 | a string field contributes itself exactly when it is non-empty |
| QueryString.SortParam | src/services/ArticleCategoryServices.ts:29 | `sortOrder` contributes a value exactly when present |
| QueryString.Present | src/services/ArticleCategoryServices.ts:25-29 | a run of guarded `set` calls never leaves more entries than there are fields |
| QueryString.PresentCount | src/services/GuestBookServices.ts:19-23 | a key occurs in the result no more often than among the fields |
| QueryString.PresentAtMostOnce | src/services/GuestBookServices.ts:19-23 | with distinct field names, no key occurs twice |
| QueryString.KeyAtMostOnce | src/services/GuestBookServices.ts:19-23 | distinct names give each key at most one entry |
| QueryString.GuardedSetStep | src/services/ArticleCategoryServices.ts:25 | `if (v) set(k, v)` for a key not set before appends `(k, v)` when `v` is present and changes nothing otherwise |
| QueryString.SetField | src/services/PublicationServices.ts:62-63 | one guarded `set` of the builder extends the entries from the first `i` fields to the first `i + 1` |
| QueryString.SetListFields | src/services/ArticleCategoryServices.ts:25-29 | the five guarded `set` calls that start every list builder (page, limit, search, sortBy, sortOrder) turn an empty `URLSearchParams` into exactly the list query |
| QueryString.PresentSnoc | src/services/ArticleCategoryServices.ts:25-29 | adding a field at the end adds its entry at the end, or nothing |
| QueryString.PresentConcat | src/services/PublicationServices.ts:57-63 | the entries for two runs of fields are those of the first run followed by those of the second |
| QueryString.NotAmongLater | src/services/GuestBookServices.ts:19-23 | with distinct names, the first field's key does not recur later |
| QueryString.AbsentKey | src/services/GuestBookServices.ts:19-23 | a key that no field names has no entry and no lookup result |
| QueryString.LookupAt | src/services/GuestBookServices.ts:19-23 | with distinct names, looking up a field's name finds that field's value |
| QueryString.PresentLookup | src/services/ArticleCategoryServices.ts:25-29 | with distinct names, looking up a key in the result gives that field's value if it had one |
| QueryString.PresentOrder | src/services/ArticleCategoryServices.ts:25-29 | the result's keys are a subsequence of the field names, in the same order |
| QueryString.PresentEmpty | src/services/GuestBookServices.ts:17-25 | the result is empty exactly when no field has a value |
| QueryString.ListFieldsDistinct | src/services/GuestBookServices.ts:19-23 | the five list fields are page, limit, search, sortBy, sortOrder, all distinct |
| QueryString.ListQueryKeysOnce | src/services/GuestBookServices.ts:19-23 | no key appears twice in a list query |
| QueryString.ListQuery | src/services/ArticleCategoryServices.ts:24-29 | the entries a list builder leaves: at most five, each key at most once, in the order page, limit, search, sortBy, sortOrder |
| QueryString.ListQueryValues | src/services/ArticleCategoryServices.ts:25-29 | each of the five keys maps to its field's value exactly when the field is truthy; no other key appears |
| QueryString.ListQueryOrder | src/services/GuestBookServices.ts:19-23 | the keys appear in the order page, limit, search, sortBy, sortOrder |
| QueryString.ListQueryEmpty | src/services/ArticleCategoryServices.ts:24-29 | the list query is empty exactly when every field is falsy |
| QueryString.EmptyParamsEmptyQuery | src/services/GuestBookServices.ts:17 | the default `{}` gives an empty query |
| ArticleCategoryServices.GetArticleCategories | src/services/ArticleCategoryServices.ts:22-36 | the method sends `GET /admin/categories?` plus the serialised list query and settles the outcome with the list defaults |
| ArticleCategoryServices.Settle | src/services/ArticleCategoryServices.ts:38-80 | the try/catch: success exactly on a resolved call whose body, for by-id, create and update, is not `null`/`undefined`, carrying the body; a failure's code is the server's truthy code or the operation's default |
| ArticleCategoryServices.GetAllArticleCategories | src/services/ArticleCategoryServices.ts:38-45 | sends `GET /admin/categories/all`; succeeds exactly when it resolves, returning the body; a failure's code is the server's or `GET_ALL_ARTICLE_CATEGORIES_ERROR` |
| ArticleCategoryServices.GetArticleCategoryById | src/services/ArticleCategoryServices.ts:47-54 | sends `GET /admin/categories/{id}`; succeeds exactly when it resolves with a body that is not `null`/`undefined`; a failure's code is the server's or `GET_ARTICLE_CATEGORY_BY_ID_ERROR` |
| ArticleCategoryServices.CreateArticleCategory | src/services/ArticleCategoryServices.ts:56-63 | sends `POST /admin/categories` with `{name}`; succeeds exactly when it resolves with a body that is not `null`/`undefined`; a failure's code is the server's or `CREATE_ARTICLE_CATEGORY_ERROR` |
| ArticleCategoryServices.UpdateArticleCategory | src/services/ArticleCategoryServices.ts:65-72 | sends `PUT /admin/categories/{id}`; succeeds exactly when it resolves with a body that is not `null`/`undefined`; a failure's code is the server's or `UPDATE_ARTICLE_CATEGORY_ERROR` |
| ArticleCategoryServices.DeleteArticleCategory | src/services/ArticleCategoryServices.ts:74-80 | sends `DELETE /admin/article-categories/{id}`; succeeds exactly when it resolves; a failure's code is the server's or `DELETE_ARTICLE_CATEGORY_ERROR` |
| ArticleCategoryServices.DefaultCodesDistinct | src/services/ArticleCategoryServices.ts:34-78 | the six operations have six different default codes |
| ArticleCategoryServices.FailureNamesOperation | src/services/ArticleCategoryServices.ts:33-35 | a failure without a server code identifies the operation that failed |
| ArticleCategoryServices.SettleOutcome | src/services/ArticleCategoryServices.ts:38-71 | a call succeeds exactly when the transport resolves and, for by-id, create and update, which read `response.data.data`, the body is not `null`/`undefined`; such a body fails with exactly the defaults; a rejection carries the operation's default message and code when the server sent none |
| ArticleCategoryServices.ListPathBare | src/services/ArticleCategoryServices.ts:22-31 | the list path is the bare `/admin/categories?` exactly when every field is falsy, as with the default `{}` |
| ArticleCategoryServices.ItemPaths | src/services/ArticleCategoryServices.ts:49-76 | by-id and update address `/admin/categories/{id}`; delete addresses a different path, `/admin/article-categories/{id}` |
| ArticleCategoryServices.ByIdOfAllIsAll | src/services/ArticleCategoryServices.ts:38-54 | fetching the category with id `all` sends the same request as fetching all categories |
| GuestBookServices.NormalizeError | src/services/GuestBookServices.ts:5-15 | as the shared variant with a response; without one, exactly the defaults and no `details` property |
| GuestBookServices.NormalizeErrorVariants | src/services/GuestBookServices.ts:5-15 | the two variants agree on message and code always, and on details exactly when there was a response |
| GuestBookServices.BuildSearchParams | src/services/GuestBookServices.ts:17-25 | returns a new `URLSearchParams` holding exactly the list query of the params |
| GuestBookServices.GetGuestBooks | src/services/GuestBookServices.ts:27-35 | sends `GET /admin/guestbook?` plus the query and settles with the list defaults |
| GuestBookServices.Settle | src/services/GuestBookServices.ts:27-52 | the try/catch: success exactly on a resolved call whose body, for both reads, is not `null`/`undefined`, carrying the body; a failure's code is the server's truthy code or the operation's default |
| GuestBookServices.GetGuestBookById | src/services/GuestBookServices.ts:37-44 | sends `GET /admin/guestbook/{id}`; succeeds exactly when it resolves with a body that is not `null`/`undefined`; a failure's code is the server's or `GET_GUESTBOOK_BY_ID_ERROR` |
| GuestBookServices.DeleteGuestBook | src/services/GuestBookServices.ts:46-52 | sends `DELETE /admin/guestbook/{id}`; succeeds exactly when it resolves; a failure's code is the server's or `DELETE_GUESTBOOK_ERROR` |
| GuestBookServices.DefaultParamsBarePath | src/services/GuestBookServices.ts:17-30 | with the default `{}` the query is empty and the path is the bare `/admin/guestbook?` |
| GuestBookServices.ItemPaths | src/services/GuestBookServices.ts:39-48 | get-by-id and delete both address `/admin/guestbook/{id}`, with GET and DELETE |
| GuestBookServices.DefaultCodesDistinct | src/services/GuestBookServices.ts:33-50 | the three operations have different default codes |
| GuestBookServices.SettleOutcome | src/services/GuestBookServices.ts:27-50 | both reads succeed exactly when the transport resolves with a body that is not `null`/`undefined`, which otherwise fails with exactly the defaults and no `details`; the delete succeeds exactly when the transport resolves |
| GuestBookServices.FallbackFailure | src/services/GuestBookServices.ts:14 | a failure without a response fails with exactly the operation's defaults and no `details` |
| PublicationServices.LanguageParam | src/services/PublicationServices.ts:62 | `lang` contributes a value exactly when present |
| PublicationServices.TypeParam | src/services/PublicationServices.ts:63 | `type` contributes a value exactly when present |
| PublicationServices.PublicationFieldsDistinct | src/services/PublicationServices.ts:57-63 | the seven fields are the five list fields then lang and type, all distinct |
| PublicationServices.PublicationQueryKeysOnce | src/services/PublicationServices.ts:57-63 | no key appears twice in a publication query |
| PublicationServices.PublicationQuery | src/services/PublicationServices.ts:56-63 | the entries `getPublications` leaves: at most seven, each key at most once, in the order page, limit, search, sortBy, sortOrder, lang, type |
| PublicationServices.PublicationQueryValues | src/services/PublicationServices.ts:57-63 | each of the seven keys maps to its field's value exactly when the field is truthy; no other key appears |
| PublicationServices.ExtraQueryLookup | src/services/PublicationServices.ts:62-63 | `lang` and `type` contribute their values exactly when present, and nothing under any other key |
| PublicationServices.PublicationLookup | src/services/PublicationServices.ts:57-63 | a common key is looked up among the five list fields, and any other key among lang and type |
| PublicationServices.PublicationQueryOrder | src/services/PublicationServices.ts:57-63 | the keys appear in the order page, limit, search, sortBy, sortOrder, lang, type |
| PublicationServices.BuildPublicationQuery | src/services/PublicationServices.ts:56-63 | the seven guarded `set` calls turn a fresh `URLSearchParams` into exactly the publication query |
| PublicationServices.GetPublications | src/services/PublicationServices.ts:54-70 | the method sends `GET /admin/publications?` plus the serialised query and settles with the list defaults |
| PublicationServices.ListPathBare | src/services/PublicationServices.ts:54-65 | the list path is bare exactly when all seven fields are falsy |
| PublicationServices.CategoryEntries | src/services/PublicationServices.ts:41-43 | one `category_ids[]` entry per id |
| PublicationServices.AppendIfDefined | src/services/PublicationServices.ts:28-31 | appends `(key, value)` when the value is defined (an empty string included) and nothing otherwise |
| PublicationServices.ToPublicationFormData | src/services/PublicationServices.ts:25-52 | the method throws exactly when `FormEntries` has no value; otherwise the new `FormData` holds exactly `FormEntries` |
| PublicationServices.FormEntries | src/services/PublicationServices.ts:25-52 | the form is missing (the builder throws) exactly for a truthy date the formatter rejects; otherwise every entry is named title, content, date, category_ids[], type or image |
| PublicationServices.ValuesOfUniform | src/services/PublicationServices.ts:33-49 | a block of entries under one key holds all its values under that key and none under any other |
| PublicationServices.BlocksUniform | src/services/PublicationServices.ts:33-49 | each step of the builder appends entries under its own key only; the category step appends the ids in order |
| PublicationServices.FormValuesOf | src/services/PublicationServices.ts:33-49 | the form's values under a key are the concatenation of what each step appended under it |
| PublicationServices.FormValuesByKey | src/services/PublicationServices.ts:33-49 | under each field name, the form holds only the values of that field's step |
| PublicationServices.FormFields | src/services/PublicationServices.ts:25-52 | `title`, `content` and `type` appear once whenever defined; `date` appears once, as the ISO text, only when truthy; one `category_ids[]` per id in input order; `image` only for a File; nothing else |
| PublicationServices.TitleField | src/services/PublicationServices.ts:33 | `title` appears once exactly when defined |
| PublicationServices.ContentField | src/services/PublicationServices.ts:34 | `content` appears once exactly when defined |
| PublicationServices.DateField | src/services/PublicationServices.ts:36-39 | `date` is the ISO text of a truthy date, and absent otherwise |
| PublicationServices.CategoryField | src/services/PublicationServices.ts:41-43 | the `category_ids[]` values are the ids, in order, when the array is given |
| PublicationServices.TypeField | src/services/PublicationServices.ts:45 | `type` appears once exactly when defined |
| PublicationServices.ImageField | src/services/PublicationServices.ts:47-49 | `image` appears exactly when it is a File |
| PublicationServices.NoOtherField | src/services/PublicationServices.ts:25-52 | no entry has a name outside title, content, date, category_ids[], type, image |
| PublicationServices.ExtendOrder | src/services/PublicationServices.ts:33-49 | appending a block for a later field keeps the entries in field order |
| PublicationServices.FormOrder | src/services/PublicationServices.ts:33-49 | the entries come in the order title, content, date, category ids, type, image |
| PublicationServices.FormThrowsOnlyOnBadDate | src/services/PublicationServices.ts:36-37 | building the form throws exactly when the date is truthy and cannot be formatted |
| PublicationServices.CreatePublication | src/services/PublicationServices.ts:81-89 | the method posts the built form to `/admin/publications`, or fails with the create defaults when building throws |
| PublicationServices.Dispatch | src/services/PublicationServices.ts:81-99 | a request that could not be built fails with exactly the operation's defaults; a built one succeeds exactly when it resolves with, for create and update, a body that is not `null`/`undefined` |
| PublicationServices.Settle | src/services/PublicationServices.ts:72-107 | the try/catch: success exactly on a resolved call whose body, for by-id, create and update, is not `null`/`undefined`, carrying the body; a failure's code is the server's truthy code or the operation's default |
| PublicationServices.GetPublicationById | src/services/PublicationServices.ts:72-79 | sends `GET /admin/publications/{id}`; succeeds exactly when it resolves with a body that is not `null`/`undefined`; a failure's code is the server's or `GET_PUBLICATION_BY_ID_ERROR` |
| PublicationServices.DeletePublication | src/services/PublicationServices.ts:101-107 | sends `DELETE /admin/publications/{id}`; succeeds exactly when it resolves; a failure's code is the server's or `DELETE_PUBLICATION_ERROR` |
| PublicationServices.UpdatePublication | src/services/PublicationServices.ts:91-99 | the method puts the built form to `/admin/publications/{id}`, or fails with the update defaults when building throws |
| PublicationServices.DefaultCodesDistinct | src/services/PublicationServices.ts:68-105 | the five operations have different default codes |
| PublicationServices.SettleOutcome | src/services/PublicationServices.ts:72-99 | a sent call succeeds exactly when the transport resolves and, for by-id, create and update, the body is not `null`/`undefined`; such a body fails with exactly the operation's defaults |
| PublicationServices.DefaultParamsBarePath | src/services/PublicationServices.ts:54 | with the default `{}` the query is empty and the path is the bare `/admin/publications?` |
| PublicationServices.BadDateNeverSent | src/services/PublicationServices.ts:81-99 | a create or update with an unformattable date fails with exactly the operation's defaults, whatever the transport would answer |
| PublicationServices.WritesCarryTheForm | src/services/PublicationServices.ts:83-103 | a buildable create or update sends the built form as its multipart body; update, by-id and delete share `/admin/publications/{id}` |
| QueryPolicy.ShouldRetry | src/hooks/api/useArticleCategory.ts:21-27 | `retry` is false for the codes '401', '403', '404' whatever the count; for any other code, empty or missing included, it is true exactly when `failureCount < 3` |
| QueryPolicy.RetryDelay | src/hooks/api/useArticleCategory.ts:28 | `retryDelay` is between 1000 and 20000 ms |
| QueryPolicy.Pow2Monotone | src/hooks/api/usePublication.ts:26 | `2 ** n` does not decrease as `n` grows |
| QueryPolicy.RetryDelaySchedule | src/hooks/api/useGuestBook.ts:19 | the delay is 1000·2^n (1, 2, 4, 8, 16 seconds, each double the last) for n ≤ 4 and 20000 for n ≥ 5 |
| QueryPolicy.RetryDelayMonotone | src/hooks/api/usePublication.ts:26 | a later attempt never waits less than an earlier one |
| QueryPolicy.WithSharedPolicy | src/hooks/api/useArticleCategory.ts:16-29 | every query's options carry staleTime 300000, gcTime 600000, `retry` as `ShouldRetry` and `retryDelay` as `RetryDelay` |
| QueryPolicy.SharedRetry | src/hooks/api/usePublication.ts:21-26 | a query with the shared options never retries a terminal code, retries at most three times, and waits 1 to 20 seconds |
| QueryPolicy.RetryOfNormalizedError | src/hooks/api/useGuestBook.ts:14-18 | for an error a service normalised with a non-terminal default code, retrying depends only on the server's code; without a server code, up to three retries |
| ArticleCategoryHooks.GetArticleCategoriesQuery | src/hooks/api/useArticleCategory.ts:15-30 | the key starts with 'article-categories', the query is enabled, and it sends the list request with the list defaults |
| ArticleCategoryHooks.GetAllArticleCategoriesQuery | src/hooks/api/useArticleCategory.ts:32-47 | the key starts with 'article-categories' and the query sends the all request |
| ArticleCategoryHooks.GetArticleCategoryByIdQuery | src/hooks/api/useArticleCategory.ts:49-65 | the key starts with 'article-categories'; the query is enabled exactly when `categoryId` is non-empty |
| ArticleCategoryHooks.CacheLifetimes | src/hooks/api/useArticleCategory.ts:19-20 | every query is stale after five minutes and collected after ten |
| ArticleCategoryHooks.AllKeyIsByIdKeyOfAll | src/hooks/api/useArticleCategory.ts:34-51 | the all-categories key equals the by-id key exactly for the id `all` |
| ArticleCategoryHooks.SharedKeySharesRequest | src/hooks/api/useArticleCategory.ts:17-52 | two queries with the same key send the same request; they carry the same defaults only when they are the same hook call |
| ArticleCategoryHooks.Mutate | src/hooks/api/useArticleCategory.ts:71-92 | a mutation succeeds exactly when the transport resolves its request and, for create and update, the body is not `null`/`undefined` |
| ArticleCategoryHooks.InvalidatedKeys | src/hooks/api/useArticleCategory.ts:73-94 | every invalidated key starts with 'article-categories', and the first is `['article-categories']` |
| ArticleCategoryHooks.Invalidations | src/hooks/api/useArticleCategory.ts:72-74 | keys are invalidated only after a success |
| ArticleCategoryHooks.MutationRefreshesEveryQuery | src/hooks/api/useArticleCategory.ts:73-94 | after any successful mutation, every article-category query (any params, all, any id) matches an invalidated key |
| ArticleCategoryHooks.UpdateRefreshesItsItem | src/hooks/api/useArticleCategory.ts:83-84 | the update's second key is the edited category's by-id key, which reads the path the update wrote, and the first key already covers it |
| PublicationHooks.GetPublicationsQuery | src/hooks/api/usePublication.ts:15-28 | the key starts with 'publications', the query is enabled, and it sends the list request |
| PublicationHooks.GetPublicationByIdQuery | src/hooks/api/usePublication.ts:30-44 | the key starts with 'publications'; the query is enabled exactly when `publicationId` is non-empty |
| PublicationHooks.KeysIdentifyQueries | src/hooks/api/usePublication.ts:17-32 | two hook calls share a key exactly when they are the same call |
| PublicationHooks.Mutate | src/hooks/api/usePublication.ts:49-70 | a mutation succeeds exactly when its form could be built, the transport resolved it and, for create and update, the body is not `null`/`undefined`; a build failure carries the operation's default code |
| PublicationHooks.InvalidatedKeys | src/hooks/api/usePublication.ts:51-72 | every invalidated key starts with 'publications', and the first is `['publications']` |
| PublicationHooks.Invalidations | src/hooks/api/usePublication.ts:50-52 | keys are invalidated only after a success |
| PublicationHooks.BadDateInvalidatesNothing | src/hooks/api/usePublication.ts:46-64 | a create or update with an unformattable date invalidates nothing |
| PublicationHooks.MutationRefreshesEveryQuery | src/hooks/api/usePublication.ts:51-72 | after any successful mutation every publication query matches an invalidated key |
| PublicationHooks.UpdateRefreshesItsItem | src/hooks/api/usePublication.ts:61-62 | the update's second key is the edited publication's by-id key, which reads the path a buildable update wrote |
| GuestBookHooks.GetGuestBooksQuery | src/hooks/api/useGuestBook.ts:8-21 | the key starts with 'guestbooks', the query is enabled, and it sends the list request |
| GuestBookHooks.GetGuestBookByIdQuery | src/hooks/api/useGuestBook.ts:23-37 | the key starts with 'guestbooks'; the query is enabled exactly when `guestbookId` is non-empty |
| GuestBookHooks.KeysIdentifyQueries | src/hooks/api/useGuestBook.ts:10-25 | two hook calls share a key exactly when they are the same call |
| GuestBookHooks.DeleteMutate | src/hooks/api/useGuestBook.ts:42 | a delete succeeds exactly when the transport resolves it, and a failure always has a non-empty code |
| GuestBookHooks.DeleteInvalidations | src/hooks/api/useGuestBook.ts:43-45 | after a success the keys invalidated all start with 'guestbooks'; after a failure none are |
| GuestBookHooks.DeleteRefreshesEveryQuery | src/hooks/api/useGuestBook.ts:44 | a successful delete matches every guestbook query, including the deleted entry's by-id query, which reads the deleted path |

## Left out

- The axios calls, `async`/`await` and the proxy configuration are left out. A call is the transport parameter `send`, which returns a resolved body or a thrown value.
- The success values are not projected: a success carries the raw response body, not `response.data.data` or the result of `normalizePaginatedResponse`. Only the error path of the `.data.data` read is modelled (a `null` or `undefined` body fails with the defaults); an inner `data` that is itself missing is not. The helper module that defines `normalizePaginatedResponse` is not part of this model, so whether it throws on a malformed body is not modelled either. For the same reason the model cannot see that `getAllArticleCategories` returns `response.data` while `getArticleCategoryById` returns `response.data.data`, although the two hooks can share a cache key for the id `all`.
- `new Date(...).toISOString()` is a formatter parameter. `None` stands for the `RangeError` of an invalid date. JavaScript date parsing is not modelled.
- `instanceof File` is the boolean `isFile` of an upload. A non-File image is skipped, as in the source.
- Percent-encoding is not modelled. `URLSearchParams#toString` is `k=v` pairs joined by `&`.
- The `FormData` wire format and how a Blob is encoded are not modelled.
- Numbers are integers. NaN, infinities and fractional `page`/`limit` values are not modelled, so `toString` is the decimal text of an integer.
- JsValues.NumberToString: renders every integer in full digits. JavaScript switches to exponent notation (`"1e+21"`) from 10^21 on and cannot hold integers above 2^53 exactly, so the model matches `Number#toString` only for safe integers.
- React Query's own behaviour is not modelled. That covers caching, the staleTime/gcTime timers, deduplication, and when the library calls `retry` and `retryDelay`. Prefix selection is simplified to `Matches`. Only the options and key lists the hooks supply are modelled.
- Query keys are compared structurally. React Query hashes the params object, which drops undefined fields; the model's `Option` fields compare the same way.
- The hooks' `useQueryClient` plumbing and the React rendering are not modelled.
- The data types under `src/types/api` appear only as datatypes (sort order, language, publication type, params and payload records). They have no properties of their own.
- The rich-text editor component and the documentation page are UI over third-party libraries and are not part of this model.
