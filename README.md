# Blog frontend core, modelled in Dafny

A model of the client-side core of a Vue 3 personal blog front end. It covers:

- the HTTP gateway's request and response interceptors (`src/utils/request.ts`);
- the session store (`src/stores/user.ts`);
- the in-process event bus (`src/utils/eventBus.ts`);
- list-page memory kept in browser storage (`src/utils/pageMemory.ts`);
- light/dark theme management (`src/utils/theme.ts`);
- the article-editing form controller (`src/composables/useArticleForm.ts`);
- the loading/notification wrapper around async operations (`src/composables/useAsyncOperation.ts`);
- the example API-error presenter (`handleApiError` in `src/utils/messageExample.ts`);
- typed access to build-time environment variables (`src/utils/env.ts`).

Each source file has its own module. Shared pieces have modules of their own:

- `Wrappers`: `Option`, plus JavaScript truthiness of an optional string.
- `Seqs`: `Array.prototype.filter`.
- `Strings`: `join`, `split`, `String(n)` for integers, `includes` and `trim`.
- `Api`: response envelopes and HTTP errors.
- `Message`: notifications.
- `Storage`: `localStorage`, as a class over a `map<string, string>`.

Code with mutable state is modelled as a class:

- the Pinia store as `UserStore.Store`;
- the event bus as `EventBus.Bus`;
- the theme state as `Theme.ThemeState`;
- the form as `ArticleForm.Form`;
- `useAsyncOperation` as `AsyncOperation.Operation`.

Each state-changing method has a `modifies` clause; `EventBus.Bus.Emit` and `ArticleForm.Form.HandleSubmit` change nothing and have none. Where a pure transition function exists (`AfterLogout`, `Register`, `Restore`, `Toggled`, …), the method's postcondition ties its new state to that function. The lemmas prove the source's promises about those functions.

Things outside the code are passed in as parameters:

- **The browser and the server.** The outcome of a server call is passed in as an `Outcome` value.
- **The clock.** The current time is passed in as `now`.
- **JSON.** `JSON.stringify`/`JSON.parse` are a `Json` codec value. The round trip is proved for any codec that satisfies `Faithful`.
- **Build-time environment.** It is a `map<string, string>`.

The response error handler in `src/utils/request.ts` only removes `token` on status 40100 and otherwise logs. It has no redirect, no re-entrancy guard and no 40101 case, and it shows no notification.

`PageMemory.DefaultMaxAge` is 30 × 60 × 1000 ms. It is the default `maxAge` of `PageMemory.Restore` and `PageMemory.GetPageState`, as it is of `getPageState`.

## Model

| member | source | states |
|---|---|---|
| Request.OnRequest | src/utils/request.ts:14-25 | with a truthy stored token, the headers are the caller's headers plus `Authorization = "Bearer " + token`, with every other header, the url and the verb kept; with the token absent or empty the config is returned unchanged |
| Request.OnRequestError | src/utils/request.ts:26-30 | a request-setup error is rejected unchanged |
| Request.OnResponse | src/utils/request.ts:35-45 | succeeds exactly when the envelope code is 0 and then returns the response unchanged; any other code rejects with an error carrying the envelope message, or `Error` when that is empty or absent; a missing body rejects with the TypeError that reading `code` raises |
| Request.OnResponseError | src/utils/request.ts:46-72 | a response with status 40100 removes `token` from storage; any other status, or no response, leaves storage unchanged; the original error is always rejected, never turned into a success |
| Request.SucceededPassesInterceptor | src/utils/request.ts:39-41 | a response with code 0 and a payload passes the success side unchanged |
| Request.IsUnauthorized | src/utils/request.ts:48-52 | the error side's clearing branch is taken exactly for a present response with status 40100, which is never an HTTP status from 100 to 599 |
| Request.UnauthorizedNeverMatchesHttpStatus | src/utils/request.ts:48-54 | for every HTTP status from 100 to 599 the 40100 branch is not taken, so the error side never clears the token |
| Request.NotLoggedInEnvelopeKeepsToken | src/utils/request.ts:39-44 | an HTTP 200 envelope with business code 40100 is rejected by the success side, which has no access to storage |
| Request.OnResponseClearingToken | src/utils/request.ts:35-54 | the corrected success side: the same result as `OnResponse`, and an envelope with code 40100 also removes `token`; any other response leaves storage unchanged |
| UserStore.AfterSetUserInfo | src/stores/user.ts:18-21 | `userInfo` becomes the given info and `isLoggedIn` is true exactly when it is non-null; token and storage unchanged |
| UserStore.AfterSetToken | src/stores/user.ts:24-27 | `token` becomes the argument, and storage maps `token` to it, or to `""` when it is null; other keys and fields unchanged |
| UserStore.AfterLogin | src/stores/user.ts:30-33 | token and stored token equal the given token, `userInfo` equals the given info, `isLoggedIn` is true; storage gains the `token` key and no other, and every other key keeps its value |
| UserStore.AfterLogout | src/stores/user.ts:36-43 | token and user info null, logged out, and `token`, `tokenName`, `loginId`, `isLogin` all absent from storage, other keys kept |
| UserStore.AfterInit | src/stores/user.ts:46-58 | a truthy stored token is adopted, with the placeholder user `{id: 1, username: "当前用户"}` and logged in; otherwise nothing changes |
| UserStore.LogoutThenInit | src/stores/user.ts:36-58 | `init` after `logout` stays logged out with no token and no user |
| UserStore.LoginThenInit | src/stores/user.ts:30-58 | after logging in with a non-empty token, `init` keeps the token and the login but replaces the user with the placeholder |
| UserStore.EmptyTokenLoginIsForgotten | src/stores/user.ts:24-58 | a login with the empty token stores `""`, which a later `init` ignores |
| UserStore.Store.constructor | src/stores/user.ts:13-15 | the store starts with no user, no token, logged out |
| UserStore.Store.SetUserInfo | src/stores/user.ts:18-21 | the new state is `AfterSetUserInfo` of the old one |
| UserStore.Store.SetToken | src/stores/user.ts:24-27 | the new state and storage are `AfterSetToken` of the old ones |
| UserStore.Store.Login | src/stores/user.ts:30-33 | the new state and storage are `AfterLogin` of the old ones |
| UserStore.Store.Logout | src/stores/user.ts:36-43 | the new state and storage are `AfterLogout` of the old ones |
| UserStore.Store.Init | src/stores/user.ts:46-58 | the new state is `AfterInit` of the old one |
| EventBus.Listeners | src/utils/eventBus.ts:14-22 | `events.value[event]`: the registered list, or none for an event never registered |
| EventBus.Register | src/utils/eventBus.ts:13-18 | the event's list, created empty when absent, gets the callback appended at its end; every other event is untouched |
| EventBus.Without | src/utils/eventBus.ts:32 | every occurrence of the callback is removed, and every other callback keeps its number of occurrences |
| EventBus.Unregister | src/utils/eventBus.ts:28-34 | with no callback the event maps to the empty list, registered or not; with a callback on a registered event its occurrences are removed; on an unregistered event nothing changes; other events are never touched |
| EventBus.Dispatch | src/utils/eventBus.ts:22-24 | one call per listener, in registration order, each with the emitted arguments |
| EventBus.DispatchConcat | src/utils/eventBus.ts:23 | dispatching a concatenated list is dispatching each part in turn |
| EventBus.EmitAfterOn | src/utils/eventBus.ts:13-25 | after `on(e, cb)` an emit of `e` makes the old calls followed by a call of `cb` |
| EventBus.RegisterTwiceCallsTwice | src/utils/eventBus.ts:17-23 | a callback registered twice is called twice, in two consecutive final calls |
| EventBus.OffThenEmitSkips | src/utils/eventBus.ts:21-34 | after `off(e, cb)` no call of an emit of `e` goes to `cb` |
| EventBus.WithoutPreservesOrder | src/utils/eventBus.ts:32 | filtering distributes over concatenation, so the survivors keep their relative order |
| EventBus.WithoutAbsent | src/utils/eventBus.ts:32 | removing a callback that is not registered leaves the list unchanged |
| EventBus.Bus.constructor | src/utils/eventBus.ts:10 | the bus starts with no events |
| EventBus.Bus.On | src/utils/eventBus.ts:13-18 | the new events map is `Register` of the old one |
| EventBus.Bus.Emit | src/utils/eventBus.ts:21-25 | the calls made are `Dispatch` of the event's listeners (none for an unregistered event), and the map is not changed |
| EventBus.Bus.Off | src/utils/eventBus.ts:28-34 | the new events map is `Unregister` of the old one |
| PageMemory.Saved | src/utils/pageMemory.ts:26-36 | the storage maps `blog_page_state` to the encoding of a record whose fields are the arguments and whose `lastVisitTime` is the current time; other keys kept |
| PageMemory.Restore | src/utils/pageMemory.ts:45-70 | `maxAge` defaults to 1,800,000 ms; a missing or empty stored value gives undefined and leaves storage unchanged; an unparseable value or an age above `maxAge` gives undefined and removes the key; otherwise the parsed record is returned and storage is unchanged |
| PageMemory.SaveThenRestore | src/utils/pageMemory.ts:26-64 | with a faithful codec, restoring within `maxAge` of saving returns exactly the saved fields and time |
| PageMemory.ExpiryBoundary | src/utils/pageMemory.ts:57-61 | an age exactly `maxAge` is still valid; one millisecond more gives undefined and removes the key |
| PageMemory.DefaultExpiryIsHalfAnHour | src/utils/pageMemory.ts:45-61 | with the default `maxAge`, a saved state is restored exactly 30 minutes later and not one millisecond after that, when the key is removed |
| PageMemory.ClearThenRestore | src/utils/pageMemory.ts:46-50 | after the key is removed, restoring gives undefined and changes nothing |
| PageMemory.SavePageState | src/utils/pageMemory.ts:26-38 | the new storage is `Saved` of the old one |
| PageMemory.GetPageState | src/utils/pageMemory.ts:45-70 | `maxAge` defaults to 1,800,000 ms; the returned state and the new storage are `Restore` of the old storage |
| PageMemory.ClearPageState | src/utils/pageMemory.ts:75-78 | only `blog_page_state` is removed |
| Theme.Named | src/utils/theme.ts:12-15 | a stored string is a theme exactly when it is `light` or `dark` |
| Theme.InitialTheme | src/utils/theme.ts:10-26 | a stored `light`/`dark` is used as is; any other stored value is ignored, giving `dark` exactly when the system prefers dark |
| Theme.Applied | src/utils/theme.ts:48-71 | the root has class `dark` exactly when the theme is dark, `data-theme` is the theme's name, and other classes are kept |
| Theme.WithTheme | src/utils/theme.ts:36-40 | current theme and stored `theme` become the given theme, and the root shows it |
| Theme.Toggled | src/utils/theme.ts:29-33 | the theme flips, and is then stored and applied as `setTheme` would |
| Theme.AfterSystemChange | src/utils/theme.ts:79-84 | a system change is applied, as `setTheme`, only when no non-empty `theme` is stored |
| Theme.AppliedTwice | src/utils/theme.ts:48-71 | applying a theme twice is applying it once |
| Theme.SetIdempotent | src/utils/theme.ts:36-40 | setting the same theme twice is setting it once |
| Theme.AppliedOverwrites | src/utils/theme.ts:48-71 | applying `u` after `t` is applying `u` alone |
| Theme.ToggleTwice | src/utils/theme.ts:29-33 | toggling twice gives back the current theme, and stores and shows it |
| Theme.ToggleTwiceRestoresStorage | src/utils/theme.ts:29-33 | toggling twice after a stored theme restores the storage exactly |
| Theme.SystemChangeActsOnce | src/utils/theme.ts:79-84 | after one system change has been applied, later ones are ignored |
| Theme.SetThemeSurvivesReload | src/utils/theme.ts:10-45 | after `setTheme(t)`, a reload's initial theme is `t` whatever the system preference |
| Theme.ThemeState.constructor | src/utils/theme.ts:7 | the current theme starts as `InitialTheme` of the stored value and the system preference |
| Theme.ThemeState.ApplyTheme | src/utils/theme.ts:48-71 | the root becomes `Applied` of the old root |
| Theme.ThemeState.ToggleTheme | src/utils/theme.ts:29-33 | the new state is `Toggled` of the old one |
| Theme.ThemeState.SetTheme | src/utils/theme.ts:36-40 | the new state is `WithTheme` of the old one |
| Theme.ThemeState.InitTheme | src/utils/theme.ts:74-75 | the root shows the current theme; theme and storage unchanged |
| Theme.ThemeState.OnSystemChange | src/utils/theme.ts:79-84 | the new state is `AfterSystemChange` of the old one |
| ArticleForm.IdText | src/composables/useArticleForm.ts:265 | `tagIds.join(",")` is empty exactly when no tag is selected, and a single id is just its numeral |
| ArticleForm.NoTagsReadBackAsOneEmptyPart | src/composables/useArticleForm.ts:265 | no selected tags submit `""`, which splits back into one empty part, not into no parts |
| ArticleForm.IsBlank | src/composables/useArticleForm.ts:94 | `!name.trim()` holds exactly when every character of the name is white space, the empty name included |
| ArticleForm.IsImage | src/composables/useArticleForm.ts:167 | `file.type.includes("image/")`: the marker occurs somewhere in the MIME type |
| ArticleForm.Uploaded | src/composables/useArticleForm.ts:183 | code 0 and a truthy, that is non-empty, URL string |
| ArticleForm.IdTextReadsBack | src/composables/useArticleForm.ts:265 | the submitted `tagIds` text splits on `,` back into one decimal numeral per selected id, in order, each reading back as that id |
| ArticleForm.BlankCategoryNameStillReportsSuccess | src/composables/useArticleForm.ts:93-107 | the null that a blank name returns is treated as a success by the wrapper, so "分类添加成功" is shown |
| ArticleForm.TagsWithout | src/composables/useArticleForm.ts:304 | no tag with the id remains, and every other tag keeps its number of occurrences |
| ArticleForm.CategoriesWithout | src/composables/useArticleForm.ts:319-321 | no category with the id remains, and every other category keeps its number of occurrences |
| ArticleForm.IdsWithout | src/composables/useArticleForm.ts:306 | the id is no longer selected, and every other selected id keeps its number of occurrences |
| ArticleForm.TagsWithoutPreservesOrder | src/composables/useArticleForm.ts:304 | removing tags distributes over concatenation, so the remaining tags keep their order |
| ArticleForm.CategoriesWithoutPreservesOrder | src/composables/useArticleForm.ts:319-321 | removing categories distributes over concatenation, so the remaining categories keep their order |
| ArticleForm.StatusOrPublished | src/composables/useArticleForm.ts:340 | a falsy status, including draft 0, loads as published 1; any other status is kept |
| ArticleForm.Form.constructor | src/composables/useArticleForm.ts:21-54 | the form starts empty, published, with no category, no cover, every animation flag off and not uploading |
| ArticleForm.Form.HandleSubmit | src/composables/useArticleForm.ts:248-269 | blocked with "请填写完整信息" when title or content is empty, else with "请选择博客分类" when the category is absent or 0; otherwise the payload carries id, title, content, summary, category, status and cover unchanged and the tag ids joined with `,` |
| ArticleForm.SubmitNotices | src/composables/useArticleForm.ts:57-66 | `handleSubmit` shows exactly one notice: the warning of a blocked submission; otherwise, once `submitArticle` settles, "博客提交成功" on success, or on failure the server's message, else "博客提交失败" |
| ArticleForm.Form.AddCategory | src/composables/useArticleForm.ts:93-106 | a blank or whitespace-only name warns, sends nothing, returns null and changes nothing; a code-0 response with data appends the category at the end, clears the name and hides the form; any other response changes nothing; a failure propagates unchanged |
| ArticleForm.Form.AddTag | src/composables/useArticleForm.ts:111-124 | the same for tags |
| ArticleForm.Form.DeleteTag | src/composables/useArticleForm.ts:299-311 | an undefined id sends nothing and changes nothing; on success every tag with the id is removed from the tags and from the selection, and "标签删除成功" shows; on failure nothing changes and "标签删除失败" shows |
| ArticleForm.Form.DeleteCategory | src/composables/useArticleForm.ts:314-330 | an undefined id sends nothing; on success matching categories are removed and the selected category is cleared exactly when it is the id; on failure nothing changes |
| ArticleForm.Form.InitArticleData | src/composables/useArticleForm.ts:333-369 | falsy strings load as `""`, missing tag ids as `[]`, a falsy status as 1, the id and category are taken as given, and the content section, the form and every animation flag are turned on |
| ArticleForm.Form.RemoveCoverImage | src/composables/useArticleForm.ts:243-245 | the cover URL becomes empty and nothing else changes |
| ArticleForm.Form.HandleImageUpload | src/composables/useArticleForm.ts:158-195 | no file changes nothing; a non-image file shows an error and uploads nothing; otherwise it uploads, `isUploading` is true while waiting and false afterwards, and the cover changes only on a code-0 response with data |
| AsyncOperation.FailureMessage | src/composables/useAsyncOperation.ts:24 | the server's message if non-empty, else the configured error message if non-empty, else "操作失败"; never empty |
| AsyncOperation.Settle | src/composables/useAsyncOperation.ts:15-30 | on success the result is returned, with one success notification exactly when a success message is set; on failure null is returned with exactly one error notification carrying `FailureMessage` |
| AsyncOperation.Operation.constructor | src/composables/useAsyncOperation.ts:13 | not loading at the start |
| AsyncOperation.Operation.Execute | src/composables/useAsyncOperation.ts:15-30 | loading while the operation runs, not loading afterwards on both paths, with result and notifications as `Settle` says |
| MessageExample.KnownStatus | src/utils/messageExample.ts:37-47 | 401, 403, 404 and 500 have fixed title and description pairs, and no other status has one |
| MessageExample.HandleApiError | src/utils/messageExample.ts:33-59 | exactly one error-kind notification: the fixed pair of a known status with a response; ("请求错误", "HTTP错误: " + status) for any other status; the network pair for a request with no response; otherwise ("请求错误", the message or "发生未知错误") |
| MessageExample.ResponseTakesPrecedence | src/utils/messageExample.ts:34-52 | with a response present, whether a request was sent does not matter |
| MessageExample.UnauthorizedAsksForLogin | src/utils/messageExample.ts:37-39 | status 401 gives ("未授权", "请先登录") |
| MessageExample.OtherStatusIsReported | src/utils/messageExample.ts:49-50 | for an unknown status the description is the prefix followed by a numeral that reads back as the status |
| Env.GetEnv | src/utils/env.ts:12-18 | the value whenever the key is defined, the empty string included; the default only when it is undefined |
| Env.GetBooleanEnv | src/utils/env.ts:26-32 | the default (false unless given) when undefined, else true exactly for the string `true` |
| Env.GetNumberEnv | src/utils/env.ts:40-47 | the default (0 unless given) when undefined, else the text goes to number conversion with the default as fallback |
| Env.GetCurrentEnv | src/utils/env.ts:53-55 | `VITE_APP_ENV` when non-empty, else "development" |
| Env.IsDebugMode | src/utils/env.ts:77-79 | true exactly when `VITE_APP_DEBUG` is the string `true` |
| Env.GetApiBaseUrl | src/utils/env.ts:85-87 | `VITE_APP_API_BASE_URL` when defined, else "" |
| Env.GetAppTitle | src/utils/env.ts:93-95 | `VITE_APP_TITLE` when defined, even empty, else "个人博客" |
| Env.CurrentEnvVersusGetEnv | src/utils/env.ts:53-55 | an empty `VITE_APP_ENV` gives "development" here but the empty string from `getEnv` |
| Env.BooleanEnvIsExact | src/utils/env.ts:31 | `TRUE` and `1` read as false |
| Api.Succeeded | src/composables/useArticleForm.ts:100 | `res.data?.code === 0 && res.data?.data` for object payloads: a body with code 0 that carries data |
| Storage.LocalStorage.GetItem | src/utils/request.ts:16 | `getItem(key)` is the stored value, or null exactly when the key is absent |
| Storage.LocalStorage.SetItem | src/stores/user.ts:26 | `setItem(key, value)` maps the key to the value and changes no other key |
| Storage.LocalStorage.RemoveItem | src/utils/request.ts:52 | `removeItem(key)` removes that key alone, and a missing key is no error |
| Seqs.Filter | src/utils/eventBus.ts:32 | `filter` keeps exactly the kept elements, each as often as before, and the result is no longer than the input |
| Strings.Join | src/composables/useArticleForm.ts:265 | `join(sep)`: empty for no parts, the part itself for one, separators between neighbours otherwise |
| Strings.IntToString | src/utils/messageExample.ts:50 | `String(n)` of an integer is a non-empty numeral of digits and a sign |
| Strings.IntToStringValue | src/utils/messageExample.ts:50 | the numeral reads back as the number |
| Strings.Trim | src/composables/useArticleForm.ts:94 | `trim()` is the part of the string between its leading and its trailing white space, neither starting nor ending with white space |
| Wrappers.Truthy | src/stores/user.ts:48 | a string value is truthy exactly when it is present and non-empty |
| Wrappers.OrElse | src/stores/user.ts:26 | `s || fallback`: the string when truthy, else the fallback |
| Strings.Contains | src/composables/useArticleForm.ts:167 | `includes` holds exactly when the needle occurs at some position |
| Strings.TrimEmptyIffBlank | src/composables/useArticleForm.ts:94 | a trimmed name is empty exactly when every character is white space |
| Seqs.FilterConcat | src/utils/eventBus.ts:32 | `filter` distributes over concatenation |

## Left out

- The axios instance itself: base URL, 15 s timeout and transport (src/utils/request.ts:4-10). All `console` logging is left out too.
- Header names are compared exactly, not case-insensitively as `AxiosHeaders` does.
- `src/utils/message.ts` is left out; a notification is modelled as a `Message.Notification` value.
- The API controller files are not part of this model: they build one request config each. `src/api/ai.ts` is not part of it either: it is a string template behind a timer.
- In `theme.ts` the model keeps only the root element's class set and `data-theme`. It leaves out `querySelectorAll`/`dataset` on widgets, the `themechange` event and registering the `matchMedia` listener. It models the listener's decision, as `OnSystemChange`.
- `Date.now` is passed in as a parameter. `JSON.stringify`/`JSON.parse` are passed in as a codec whose `parse` returns `None` for text it rejects. A record with missing fields (which gives `NaN` ages in JavaScript) is not modelled.
- Env.GetNumberEnv: stops at where the text goes to `Number()`/`isNaN`, because that conversion is floating-point parsing.
- `isDevelopment`/`isProduction` read Vite's boolean flags `DEV`/`PROD`, not string variables, so they are left out.
- These parts of `useArticleForm.ts` are left out:
  - the `initAnimations` timer cascade, `handleCancel`/router, `onMounted`, and the `generateContent` mock;
  - `handleUploadImage2`, which repeats `handleImageUpload` and hands the URL to an editor callback;
  - `fetchCategories`/`fetchTags`, and `router.push("/blogs")` after a code-0 submission;
  - the `console.log`-only branches of `initArticleData` (src/composables/useArticleForm.ts:343-359).
- Numbers are unbounded integers. Fractional ids and `NaN` are not modelled, and neither is exponent notation in `String(n)`.
- ArticleForm.Form.HandleSubmit: returns the payload it would pass to `submitArticle` and does not await it. The wrapper's loading flag is not composed with it here: `AsyncOperation.Operation.Execute` states the flag for any wrapped call. The notifications of the whole call are composed in `ArticleForm.SubmitNotices`.
- ArticleForm.Form.AddCategory: models the operation body that `useAsyncOperation` wraps. The two are composed in `BlankCategoryNameStillReportsSuccess`, not in the method.
- AsyncOperation.Operation.Execute: `isLoading` during the await is a ghost out-value, since no other code runs in the model while the operation is pending. A successful `null` result and the failure `null` are kept apart (`Some(None)` against `None`), though JavaScript collapses them.
- EventBus.Register, EventBus.Unregister, EventBus.Bus.On, EventBus.Bus.Emit, EventBus.Bus.Off: event names inherited from `Object.prototype` (`toString`, `constructor`, `__proto__`, …) are not modelled. The source's `events` is a plain object, so for such a name `events.value[event]` is already truthy, and `push`, `forEach` or `filter` throw a TypeError. The model treats every name as an ordinary key.
- EventBus.Bus.Emit: callbacks are opaque identities. The model returns the calls made and does not run them, so a callback that calls `on`/`off` during an emit, or throws, is not modelled.
- Concurrency between in-flight promises is not modelled; each asynchronous call is one step with a given outcome.

## Findings

| source | as written | input that shows it | evidently intended | confidence | as-written member | corrected member |
|---|---|---|---|---|---|---|
| src/utils/request.ts:48-52 | the error side clears the token when `error.response.status` is 40100, an HTTP status no response carries; the business code 40100 arrives in an HTTP 200 envelope, which goes to the success side, and that side rejects without touching storage | a response with HTTP status 200 and body `{code: 40100, message: "未登录"}`: it is rejected and `token` stays in storage | clear the stored token when the server reports "not logged in" | medium, not executed | Request.UnauthorizedNeverMatchesHttpStatus, Request.NotLoggedInEnvelopeKeepsToken | Request.OnResponseClearingToken |
