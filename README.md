# RSS reader: feed and post state

A Dafny model of the state logic of a browser RSS reader (`src/app.js`). A user
submits a feed URL. The URL is validated against the feeds already stored. The
feed is then fetched through a proxy and parsed, and the feed and its posts are
stored. A poll round re-fetches every stored feed and adds the posts whose link
is new. Opening a post marks it as read.

Modules:

- `Parser` (`parser.dfy`): `parseRSS` over an abstract parsed document, and
  `getErrorType`. A thrown error is a `Failure` carrying the two flags that
  `getErrorType` reads.
- `Validator` (`validator.dfy`): the yup schema of `validateLink`. The URL
  test is a predicate `isUrl` that the caller passes in.
- `Posts` (`posts.dfy`): the post bookkeeping, stated on values. It covers
  lodash `union`/`differenceBy` by link, id assignment by `uniqueId`, one
  feed's merge, a poll round as a fold over the feeds' outcomes,
  `handleReadPost` on the list of read ids, and `posts.find` by id. The lemmas
  about these functions are here.
- `App` (`app.dfy`): the application `state` as a class, `AppState`. Its
  methods are `handleAddFeed`, one feed's `.then` in `updateRSS`, a whole
  round, `handleReadPost`, and the submit and click handlers. Each method is
  proved against the functions of `Posts`. The `on-change` proxy the
  controllers write through is the ghost field `log`. It gets one `Change` per
  write the proxy reports. The proxy compares old and new values with
  `Object.is`, so writing an equal primitive value reports nothing, while
  `undefined` written over `null` is reported. A new array or an in-place
  `push`/`unshift` is always reported. `modal.currentPost` keeps `null` and
  `undefined` apart (`ModalPost`).
- `Scenarios` (`scenarios.dfy`): outcomes for a fresh state, derived from the
  contracts of `App`. They cover the three the repository's tests check, a
  rejected fetch, and two clicks on an id that no post has.

Three behaviours of the code that are easy to misread:

- A document missing its `title` or `description` element does not give a
  parsing error. Reading `textContent` of `null` throws a plain `TypeError`,
  which `getErrorType` classifies as `'Unknown Error'` (`ParseRSS`,
  `ParseFailureClassified`).
- A poll round does not prepend one batch. Each feed's `.then` reassigns
  `state.posts` on its own and reads the posts as they are when it runs.
  `Round` folds the feeds one at a time, in the order their fetches settled.
- The order of yup's URL test and its uniqueness test varies between yup
  versions. `ValidateLink` runs the URL test first. `TestOrderUnobservable`
  proves the order makes no difference while every stored url is itself a
  URL, and `FeedsValid` keeps that invariant.

## Model

| member | source | states |
|---|---|---|
| `Parser.ParseItems` | src/app.js:28-39 | The items parse exactly when every item element has a title, description and link. A missing one fails the whole list with the unflagged error. On success, the i-th item holds the fields of the i-th element, with as many items as elements. |
| `Parser.ParseRSS` | src/app.js:11-42 | The error is flagged `isParsingError` exactly when the document has a parser error. No parse error is an axios error. Parsing succeeds exactly when there is no parser error, the title and description exist and every item is complete. The feed then holds the title and description, and the items match the item elements in number and order. |
| `Parser.GetErrorType` | src/app.js:64-71 | `'Parsing Error'` exactly when the parsing flag is set. `'Network Error'` exactly when only the axios flag is set. `'Unknown Error'` when neither flag is set. |
| `Parser.ParseFailureClassified` | src/app.js:14-32 | A failed parse is classified `'Parsing Error'` when the parser-error flag is set and `'Unknown Error'` otherwise, never `'Network Error'`. |
| `Validator.ValidateLink` | src/app.js:45-51 | Accepts exactly a URL that is not among the known urls. A non-URL is rejected as invalid. A URL among the known urls is rejected as a duplicate. |
| `Validator.TestOrderUnobservable` | src/app.js:45-51 | While every known url is a URL, the two test orders give the same outcome for every link. |
| `Validator.ValidateLinkUniqueFirst` | src/app.js:45-51 | The yup test order that runs `notOneOf` first. It accepts the same links as `ValidateLink`, gives the duplicate error for every known url whether or not it is a URL, and gives the invalid error only for an unknown non-URL. `TestOrderUnobservable` relates the two orders. |
| `Posts.DifferenceByLink` | src/app.js:110 | The result is never longer than the input. |
| `Posts.DifferenceByLinkMembers` | src/app.js:110 | An entry is in the result exactly when it is in the input and its link is not the link of any post. |
| `Posts.DifferenceByLinkAppend` | src/app.js:110 | Filtering a concatenation is concatenating the filtered parts, so the kept entries stay in input order. |
| `Posts.DifferenceByLinkAllKnown` | src/app.js:110 | When every entry's link is already a post's link, nothing is kept. |
| `Posts.UnionWithPosts` | src/app.js:109 | lodash `union(items, state.posts)` on freshly parsed objects: the items in order, then every current post without its id, in order. `UnionThenDifference` gives its meaning for the selection. |
| `Posts.UnionThenDifference` | src/app.js:109-110 | `differenceBy(union(items, posts), posts, 'link')` equals the filter of the parsed items alone. |
| `Posts.BatchDuplicatesKept` | src/app.js:109-110 | For a link no post has, the result holds as many entries with that link as the batch does. Items of one batch that share a new link all become posts. |
| `Posts.WithIds` | src/app.js:86-89 | Assigning ids keeps the number of items. |
| `Posts.WithIdsSpec` | src/app.js:111-114 | The i-th item gets id `first + i` and keeps its title, description and link. |
| `Posts.WithIdsLinks` | src/app.js:111-114 | Assigning ids keeps the set of links. |
| `Posts.Prepend` | src/app.js:90 | `state.posts = [...newPosts, ...state.posts]` after id assignment. The list grows by the number of items, and the counter advances by the same number. `PrependValid` proves that the new ids are fresh and distinct and that every earlier post stays. |
| `Posts.PrependValid` | src/app.js:86-90 | Prepending items with fresh ids keeps post ids distinct and drawn from the counter, and keeps every earlier post id. |
| `Posts.Merge` | src/app.js:109-116 | One feed's merge: the items with a new link, with fresh ids, go before the posts. The list never shrinks and grows by at most the number of items. The counter advances by exactly the number of posts added. `MergeShape` and `MergeLinks` characterise the result completely. |
| `Posts.MergeShape` | src/app.js:107-117 | After one feed's merge, the new posts are exactly the parsed items with a new link, in parsed order. They have consecutive fresh ids above the counter and none has a link of an existing post. The existing posts follow unchanged and in order. The counter advances by the number added. |
| `Posts.MergeLinks` | src/app.js:109-116 | After a merge, the links among the posts are the old links plus the links of the parsed items. |
| `Posts.MergeNothingNew` | src/app.js:115-117 | When no parsed item has a new link, nothing is selected and the posts and counter are unchanged. |
| `Posts.MergeValid` | src/app.js:109-116 | A merge keeps post ids distinct and drawn from the counter, and keeps every earlier post. |
| `Posts.LaterMergeSkipsEarlierLinks` | src/app.js:102-118 | When two feeds merge one after the other, the second adds no post whose link the first one's items carried. |
| `Posts.RoundNoLinkReadded` | src/app.js:102-118 | Within one round, a feed whose handler runs after feed `x`'s adds no post whose link `x`'s items carried, however many other feeds merged in between. |
| `Posts.RoundLinksOfAppend` | src/app.js:102-118 | The links carried by two batches of outcomes are the links of each batch. |
| `Posts.PollStep` | src/app.js:106-117 | One feed's handler in a round: a rejected fetch or a failed parse leaves the posts alone, and otherwise the feed's items are merged. The list never shrinks, and the counter advances by exactly the number of posts added. `PollStepLinks` gives the links it adds. |
| `Posts.Round` | src/app.js:102-118 | A round folds the handlers in the order they ran, each seeing the posts of the ones before. The list never shrinks, and the counter advances by exactly the number of posts added. `RoundLinks`, `RoundKeepsOldPosts`, `RoundValid` and `RoundAppend` give its meaning. |
| `Posts.PollStepLinks` | src/app.js:102-118 | One feed's step adds exactly the links of its parsed items. A failed fetch or parse adds none. |
| `Posts.RoundLinks` | src/app.js:102-118 | After a round, the links among the posts are the old links plus the links of every feed that was fetched and parsed. |
| `Posts.RoundValid` | src/app.js:102-118 | A round keeps post ids distinct and drawn from the counter. |
| `Posts.RoundKeepsOldPosts` | src/app.js:109-116 | After a round, the earlier posts form the tail of the list with their ids and order unchanged. The counter never decreases. |
| `Posts.RoundAppend` | src/app.js:102-118 | Folding two batches of outcomes one after the other equals folding their concatenation. |
| `Posts.FailedFeedSkipped` | src/app.js:102-107 | A feed whose fetch or parse fails is skipped. The feeds before and after it merge as if it were absent. |
| `Posts.MarkRead` | src/app.js:127-131 | Earlier read ids are untouched. The id is present afterwards. It is appended exactly when it was absent, and nothing else is added. A list without duplicates keeps none. |
| `Posts.MarkReadIdempotent` | src/app.js:127-131 | Marking a post read twice equals marking it once. |
| `Posts.FindPost` | src/app.js:207 | Nothing is found exactly when no post has the id. A found post is in the list, has the id, and is the head of the list when the head has the id. |
| `App.DuplicateRejected` | src/app.js:183-185 | The submit handler rejects a link as a duplicate exactly when it is a URL and is the url of a stored feed. |
| `App.FeedUrls` | src/app.js:184 | `feeds.map((feed) => feed.url)`: one url per feed, in feed order. |
| `App.Load` | src/app.js:78-79 | Fetch then `parseRSS`. The load succeeds exactly when the fetch succeeded and the document parsed. A rejected fetch passes its failure on unchanged. A failure of a fetched document is never classified `'Network Error'`. |
| `App.AddValidatedKeepsUrlsValid` | src/app.js:183-189 | Adding a feed whose link passed validation keeps the feed urls distinct and all URLs. |
| `App.AddedUrlRejected` | src/app.js:83-84 | Once a feed with url `link` is stored, validating `link` again gives the duplicate error. |
| `App.AppState.constructor` | src/app.js:154-168 | The initial state: no feeds, posts or read ids; `'idle'` with no error type; a valid form with no error; `modal.currentPost` is `null`; the id counter at 0. |
| `App.AppState.SetLoadState` | src/app.js:76 | Writes `loadStatus.state`. The proxy reports the write only when the value changes. |
| `App.AppState.SetErrorType` | src/app.js:96 | Writes `loadStatus.errorType`. The proxy reports the write only when the value changes. |
| `App.AppState.SetForm` | src/app.js:187-193 | Writes `form.isValid`, then `form.error`. Each is reported only when it changes. |
| `App.AppState.UniqueId` | src/app.js:87 | Increments the counter and returns its new value. |
| `App.AppState.AssignIds` | src/app.js:86-89 | The posts are the items with consecutive ids drawn from the counter, in order. The counter advances by the number of items. |
| `App.AppState.AddParsed` | src/app.js:83-90 | The feed with `url = link` goes first among the feeds. All items, with fresh ids and no deduplication, go before the posts. Feeds then posts are reported, and the invariant holds. |
| `App.AppState.HandleAddFeed` | src/app.js:75-98 | `'loading'` is written first. On success: the feed goes first, all items with fresh ids go before the posts, the state ends `'idle'` and the error type is kept. On failure: feeds, posts and counter are untouched, the state is `'failed'`, and then the error type becomes `getErrorType(err)`. The notifications come in that order. |
| `App.AppState.NewItems` | src/app.js:109-110 | The selected items are exactly `DifferenceByLink(items, posts)`. |
| `App.AppState.MergeItems` | src/app.js:109-117 | The posts and counter become `Merge` of the old ones. `posts` is reported only when posts were added. When no item has a new link, `posts` is neither changed nor reported. |
| `App.AppState.PollFeed` | src/app.js:102-118 | One feed's handler. A rejected fetch or a failed parse changes nothing. Otherwise it merges as `PollStep` says. |
| `App.AppState.UpdateRSS` | src/app.js:101-124 | After a round the posts and counter are `Round` of the old ones over the outcomes in settling order. The invariant and the known read marks are kept. Every notification is a `posts` notification. |
| `App.AppState.HandleReadPost` | src/app.js:127-131 | The read ids become `MarkRead` of the old ones. `readPostIds` is reported only when an id was appended. |
| `App.AppState.OpenPost` | src/app.js:199-209 | Without a `data-id`, nothing changes. Otherwise `modal.currentPost` becomes the post with that id, or `undefined` when no post has it. The write is reported only when the value changes. For an id that a post has, the post is shown and the id is marked read. When `undefined` is reported, the view's render throws and the handler stops before marking anything. Read marks stay known when the id is a post's. |
| `App.AppState.Submit` | src/app.js:180-195 | A rejected link only updates the form: feeds, posts and load status are untouched and nothing is fetched. An accepted link sets the form valid with no error and then runs the add-feed outcome. Feed urls stay distinct URLs. |
| `Scenarios.SubmitSameUrlTwice` | __tests__/app.test.js:24-35 | Submitting a loading feed URL twice: the first submission ends `'idle'`, the second is rejected as a duplicate, and one feed is stored. |
| `Scenarios.SubmitInvalidUrl` | __tests__/app.test.js:37-41 | A non-URL is rejected as invalid. The load status stays `'idle'` and no feed is stored. |
| `Scenarios.SubmitNonRss` | __tests__/app.test.js:43-49 | A document with a parser error fails the load with `'Parsing Error'`. No feed or post is stored. |
| `Scenarios.SubmitUnreachable` | src/app.js:94-96 | A rejected fetch fails the load with `'Network Error'`. No feed or post is stored. |
| `Scenarios.ClickUnknownPostTwice` | src/app.js:207-208 | Two clicks on an id that no post has, from a fresh state. The first writes `undefined` over `null`, and the render throw stops the id from being marked read. The second write is not reported, so the id is marked read. |

## Left out

- Fetching (`fetchRSS`, `buildProxyUrl`, axios, the `URL` API and the proxy) is not modelled. Each fetch outcome is a parameter: a parsed document, or a `Failure`.
- `DOMParser` and `querySelector` are abstracted as `Document`. It records the parser-error flag, the text of the first `title` and first `description` element anywhere in the document, and each item's first `title`, `description` and `link`. XML syntax is not modelled.
- yup's URL regular expression is the parameter `isUrl`. The `trim()` of the form value is not modelled: `link` is the trimmed string. The localised messages are the kinds `InvalidUrl` and `SameUrl`.
- `App.AppState.HandleAddFeed` takes the settled result of fetch-then-parse, and `Submit` passes it `Load(response)`. The write of `'loading'` and the completion happen in one call. An add-feed completion that interleaves with a poll round is not modelled.
- `App.AppState.UpdateRSS` does not tie its outcomes to the stored feeds. It takes the outcomes of the feeds whose fetch settled, in settling order. A fetch that never settles is simply absent.
- `setTimeout` rescheduling, the `timeout` parameter and `Promise.all(...).finally` are asynchronous scheduling and are not modelled. `Promise.all` settles at the first rejection, but the other feeds' handlers still run.
- `console.error`, i18next, the event-listener wiring and the rendering in `src/view.js` are not modelled. The one effect of the view on the state is modelled in `OpenPost`: `handleViewPost` (src/view.js:69-73) throws on `undefined`, which ends the click handler before `handleReadPost`. The view also throws in the default branch at src/view.js:117-118 when it gets the `'Unknown Error'` that a document with a missing element produces.
- `form.state` (`'filling'`) is never written by the code and is not modelled.
- `App.AppState.OpenPost` takes the clicked element's `data-id` as a post id. The handler accepts any attribute string (src/app.js:202), but the view only writes the decimal id strings of posts (src/view.js:44, 49), so a non-numeric `data-id` is not modelled.
- Post ids are the decimal strings produced by lodash `uniqueId`. They are modelled by the counter value. Distinct values give distinct strings.
- The proxy's notifications record the path and, for leaf values, the written value. They do not record the array passed for `feeds`, `posts` and `readPostIds`.
- `Posts.FindPost`: states "first match" only when the head matches. Under `ValidPosts`, ids are distinct, so the post with a given id is unique anyway.
