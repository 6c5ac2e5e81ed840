# Mastify paging and reply-chain model

A Dafny model of the loading logic of Mastify, an Android client for Mastodon:

- `Paginator`, the generic cursor-based loader behind every profile list, with
  its two operations `append()` and `refresh()`, its fields `loadState` and
  `endReached`, and the scroll trigger of `LaunchPaginatorListener`
  (module `Paging`);
- the reply-chain tagging of a conversation, `markAncestors` and
  `markDescendants` (module `StatusDetail`);
- how `ProfileViewModel` consumes its three pagers (posts, posts with replies,
  media): the append key, the merge done in `onSuccess`, the state copied in
  `onLoadUpdated`, and the tab selection `syncProfileTab` (module `Profile`);
- the cursor of `HomeTimelinePagingSource` (module `HomeTimeline`).

The Kotlin `Paginator` is configured with a refresh key and five closures.
The closures become parameters of each operation: `appendKey` is what
`getAppendKey` returned or threw, `onRequest` is a function from key to what
the request did (a batch, a failed `Result`, or a thrown throwable), and
`successThrows` says whether `onSuccess` threw, and what. A throwable is an
`Exception`, which the loader's `catch` clause handles, or a JVM `Error`,
which passes through it and out of the operation. Each operation returns the
hook calls it made, in order (`HookCall`), and the throwable that escaped, if
any. The profile view model replays those calls on its own list. That is equivalent to the
Kotlin interleaving, because its hooks touch only their own list, and the only
hook that runs before `getAppendKey` is `onLoadUpdated`, which changes only
`loadState`.

Three behaviours of the loader are worth stating on their own:

- `endReached` of a `Paginator` is only ever set to `true`. A successful
  `refresh()` does not reset it (Paginator.kt:57, 80). `EndReachedIsFinal`
  proves that once it is set, the scroll trigger stays off. The lists' own
  `endReached` field, set in `onSuccess`, does follow each batch.
- The guard of `append()` rejects only an append in flight, and the guard of
  `refresh()` rejects only a refresh in flight (Paginator.kt:46, 70). Neither
  blocks the other.
- Only `Exception` is caught (Paginator.kt:61, 84). A JVM `Error` thrown while
  resolving the key, by the request or by `onSuccess` leaves the operation with
  no `onError` call and no final `onLoadUpdated`. The state stays `Append` or
  `Refresh`, so the guard then drops every later call of that operation
  (`AppendAfterEscape`). A failed `Result` is always reported, whatever
  throwable it holds.

## Model

| member | source | states |
|---|---|---|
| Paging.Transition | app/src/main/java/com/github/whitescent/mastify/paging/Paginator.kt:45-90 | After an unguarded operation the state is `NotLoading` exactly when nothing failed: the key resolved, the request returned a batch and `onSuccess` did not throw. It is `Error` exactly when a failure was caught: a failed `Result`, or a thrown `Exception`. When a JVM `Error` was thrown, that throwable escapes and the state stays the operation's own. `endReached` becomes true on an empty batch and is never cleared. |
| Paging.TransitionCalls | app/src/main/java/com/github/whitescent/mastify/paging/Paginator.kt:45-90 | `onLoadUpdated` is called first with the operation's state and, unless a throwable escaped, last with the final one, and never in between. The request is made once, with the given key, unless resolving the key threw. `onSuccess` is called once, only on a batch, with the operation's own tag and the batch unchanged. `onError` is called exactly once on a caught failure, with that failure, just before the final `Error` notification, and never otherwise. |
| Paging.Paginator.constructor | app/src/main/java/com/github/whitescent/mastify/paging/Paginator.kt:30-43 | A new loader keeps the given `refreshKey`, is `NotLoading` and has not reached the end. |
| Paging.Paginator.Append | app/src/main/java/com/github/whitescent/mastify/paging/Paginator.kt:45-67 | While an append is in flight, `append()` makes no hook call, changes nothing and throws nothing. Otherwise it does what `Transition` says for `Append`, with the key `getAppendKey` gives at call time. |
| Paging.Paginator.Refresh | app/src/main/java/com/github/whitescent/mastify/paging/Paginator.kt:69-90 | While a refresh is in flight, `refresh()` makes no hook call, changes nothing and throws nothing. Otherwise it does what `Transition` says for `Refresh`, with the fixed `refreshKey`. |
| Paging.Paginator.Load | app/src/main/java/com/github/whitescent/mastify/paging/Paginator.kt:47-66 | The step-by-step body (set the active state, notify, fetch, then success, the `getOrElse` error path, the `catch` block, or an escaping throwable) leaves exactly the state, hook calls and escaped throwable that `Transition` describes. |
| Paging.FailureKindsAgree | app/src/main/java/com/github/whitescent/mastify/paging/Paginator.kt:51-66 | A failed `Result` and an `Exception` thrown by `onRequest` with the same cause lead to the same state and the same hook calls. |
| Paging.AppendAfterEscape | app/src/main/java/com/github/whitescent/mastify/paging/Paginator.kt:45-47 | After a JVM `Error` escapes an `append()`, the loader stays in `Append`, and a later `append()` makes no hook call and throws nothing. |
| Paging.ShouldAppend | app/src/main/java/com/github/whitescent/mastify/paging/Paginator.kt:106-108 | The scroll trigger fires only on a non-empty list, with `endReached` false and `loadState == NotLoading`. It divides by `fetchNumber` only once those hold. |
| Paging.TriggerMonotone | app/src/main/java/com/github/whitescent/mastify/paging/Paginator.kt:108 | If the trigger fires at one first-visible index, it fires at every later index. |
| Paging.NoTriggerBelowOneBatch | app/src/main/java/com/github/whitescent/mastify/paging/Paginator.kt:108 | With fewer items than `fetchNumber`, integer division gives an empty window, so no valid visible index fires the trigger. |
| Paging.TriggerAtLastItem | app/src/main/java/com/github/whitescent/mastify/paging/Paginator.kt:106-108 | With at least one full batch, a positive threshold and an idle loader that has not reached the end, showing the last item first fires the trigger. |
| Paging.EndReachedIsFinal | app/src/main/java/com/github/whitescent/mastify/paging/Paginator.kt:106-108 | Once `endReached` is true, any append or refresh leaves it true, so the trigger never fires again. |
| StatusDetail.MarkAncestors | app/src/main/java/com/github/whitescent/mastify/viewModel/StatusDetailViewModel.kt:76-86 | Length and order are kept and only the tag changes. The first ancestor is tagged `Start` and every later one `Continue`, whatever their reply links. An empty list stays empty. |
| StatusDetail.MarkDescendants | app/src/main/java/com/github/whitescent/mastify/viewModel/StatusDetailViewModel.kt:88-117 | Length, order, ids and reply links are kept. Lists of size 0 or 1 come back unchanged. Every position gets the tag its neighbours give it: the first is `Start` if the second replies to it, the last is `End` if it replies to the one before, and an interior one is `Start`, `Continue` or `End` by its two links. A position matching no case keeps its input tag. |
| StatusDetail.MaximalRunTagged | app/src/main/java/com/github/whitescent/mastify/viewModel/StatusDetailViewModel.kt:92-115 | A maximal run of two or more statuses, each replying to the one before, is tagged `Start`, then `Continue` for each interior status, then `End`. |
| StatusDetail.UnlinkedKeepsTag | app/src/main/java/com/github/whitescent/mastify/viewModel/StatusDetailViewModel.kt:99-114 | A status whose tag changes is linked to a neighbour. So an isolated reply keeps its input tag. |
| StatusDetail.ChainTagsAgree | app/src/main/java/com/github/whitescent/mastify/viewModel/StatusDetailViewModel.kt:76-117 | On one unbroken chain, the descendant rules agree with the ancestor tags at every position except the last, which they tag `End` where the ancestor rule says `Continue`. |
| StatusDetail.TwoStatusChain | app/src/main/java/com/github/whitescent/mastify/viewModel/StatusDetailViewModel.kt:94-97 | For `[A replying to root, B replying to A]`, A is tagged `Start` and B `End`. |
| StatusDetail.IsolatedThenChain | app/src/main/java/com/github/whitescent/mastify/viewModel/StatusDetailViewModel.kt:99-111 | For `[A and B replying to root, C replying to B]`, A keeps `Null`, B is tagged `Start` and C `End`. |
| Profile.AppendKey | app/src/main/java/com/github/whitescent/mastify/viewModel/ProfileViewModel.kt:107-109 | The append key is the id of the last timeline entry, or null exactly when the timeline is empty. |
| Profile.DistinctFrom | app/src/main/java/com/github/whitescent/mastify/viewModel/ProfileViewModel.kt:165 | Given ids already taken, the result has no repeated id. Its ids are the input's ids minus the taken ones, and every entry comes from the input. |
| Profile.DistinctById | app/src/main/java/com/github/whitescent/mastify/viewModel/ProfileViewModel.kt:165 | `distinctBy { it.id }` leaves no two entries with one id, loses no id, and invents no entry. |
| Profile.DistinctByIdIsFirstOccurrences | app/src/main/java/com/github/whitescent/mastify/viewModel/ProfileViewModel.kt:165 | `distinctBy` equals an independent reference: keep an entry exactly when no earlier entry has its id. This is first occurrence, in original order. |
| Profile.DistinctFromKeepsPrefix | app/src/main/java/com/github/whitescent/mastify/viewModel/ProfileViewModel.kt:165 | Deduplicating a repeat-free timeline followed by a batch keeps the timeline unchanged, followed by the batch entries with new ids. |
| Profile.AppendConcatenates | app/src/main/java/com/github/whitescent/mastify/viewModel/ProfileViewModel.kt:124-131 | On the post and media lists, an `Append` success makes the timeline the old timeline followed by the batch, and sets `endReached` to whether the batch was empty. The next append key is then the batch's last id. |
| Profile.RefreshReplaces | app/src/main/java/com/github/whitescent/mastify/viewModel/ProfileViewModel.kt:133-136 | A `Refresh` success replaces the timeline with the batch, deduplicated on the replies list, and sets `endReached` to whether the batch was empty. |
| Profile.ReplyTimelineUnique | app/src/main/java/com/github/whitescent/mastify/viewModel/ProfileViewModel.kt:161-177 | After an append or refresh, the replies list has no two entries with one id and loses no id. An append to a repeat-free timeline keeps it as a prefix. |
| Profile.OnSuccessData | app/src/main/java/com/github/whitescent/mastify/viewModel/ProfileViewModel.kt:122-140 | `onSuccess` never changes the list's `loadState`. After `Append` or `Refresh`, the list's `endReached` records whether the batch was empty. Any other state matches no branch and leaves the list unchanged. |
| Profile.AfterHook | app/src/main/java/com/github/whitescent/mastify/viewModel/ProfileViewModel.kt:110-112 | Only `onLoadUpdated` changes the state the list shows, and it copies the state it is given. Only `onSuccess` changes the timeline and `endReached`. `onRequest` and `onError` leave the list alone. |
| Profile.ReplayTransition | app/src/main/java/com/github/whitescent/mastify/viewModel/ProfileViewModel.kt:105-141 | Applying one operation's hook calls to a list gives the merged batch with `NotLoading` after a fetch. After a caught failure it gives the unchanged list with `Error`. After an escaping JVM `Error` it gives the unchanged list showing the operation's own state. |
| Profile.ProfileKindAt | app/src/main/java/com/github/whitescent/mastify/viewModel/ProfileViewModel.kt:265-267 | Page 0, 1 and 2 select the kind in that declaration position. Any other page is out of bounds. |
| Profile.ProfileKindAtOrdinal | app/src/main/java/com/github/whitescent/mastify/viewModel/ProfileViewModel.kt:334-340 | Every kind is selected again by its own declaration position. |
| Profile.ProfileViewModel.constructor | app/src/main/java/com/github/whitescent/mastify/viewModel/ProfileViewModel.kt:69-73 | The view model starts with three empty lists, the post tab selected, and three separate idle pagers that refresh with a null key. |
| Profile.ProfileViewModel.SetData | app/src/main/java/com/github/whitescent/mastify/viewModel/ProfileViewModel.kt:69-71 | Assigning the flow of one kind changes that list only. The other two lists and the selected tab are unchanged. |
| Profile.ProfileViewModel.AppendProfileKind | app/src/main/java/com/github/whitescent/mastify/viewModel/ProfileViewModel.kt:245-253 | Appending one kind uses that kind's pager, with the id of the list's last entry as key. A guarded call changes nothing. Otherwise the list ends as the merge with `NotLoading` after a batch, unchanged with `Error` after a caught failure, or unchanged and still `Append`, in list and pager, after an escaping JVM `Error`. The pager's `endReached` is set by an empty batch. The other lists and the tab are untouched. |
| Profile.ProfileViewModel.RefreshProfileKind | app/src/main/java/com/github/whitescent/mastify/viewModel/ProfileViewModel.kt:255-263 | The same as the append, for a refresh with the null key. The timeline is replaced by the batch, deduplicated on the replies list. |
| Profile.ProfileViewModel.SyncProfileTab | app/src/main/java/com/github/whitescent/mastify/viewModel/ProfileViewModel.kt:265-267 | Pages 0 to 2 select the tab at that position. Any other page throws and leaves the tab as it was. |
| HomeTimeline.HomeTimelinePagingSource.constructor | app/src/main/java/com/github/whitescent/mastify/paging/HomeTimelinePagingSource.kt:17 | The cursor starts null. |
| HomeTimeline.HomeTimelinePagingSource.GetRefreshKey | app/src/main/java/com/github/whitescent/mastify/paging/HomeTimelinePagingSource.kt:20-22 | The refresh key is the current cursor. |
| HomeTimeline.LoadStep | app/src/main/java/com/github/whitescent/mastify/paging/HomeTimelinePagingSource.kt:24-47 | A non-empty response yields a page with that data, `prevKey` the old cursor, and `nextKey` and the new cursor both the last item's id. An empty response gives the empty-page error, an I/O or HTTP exception gives its own error, and any other exception escapes. In all of these the cursor stays. |
| HomeTimeline.HomeTimelinePagingSource.Load | app/src/main/java/com/github/whitescent/mastify/paging/HomeTimelinePagingSource.kt:24-47 | `load` sends the current cursor as `maxId` and ends with the result and cursor that `LoadStep` gives for the API's answer. |
| HomeTimeline.Loads | app/src/main/java/com/github/whitescent/mastify/paging/HomeTimelinePagingSource.kt:24-47 | Over a run of loads, the i-th result is a page exactly when the i-th API call returned a non-empty list, and it carries that list unchanged. A run that delivers no page leaves the cursor where it started. |
| HomeTimeline.CursorFollowsLastPage | app/src/main/java/com/github/whitescent/mastify/paging/HomeTimelinePagingSource.kt:31-39 | After any run of loads, the cursor is the `nextKey` of the last page delivered, or the starting cursor if none was. |

## Left out

- Coroutines: suspension points, `viewModelScope.launch`, `rememberCoroutineScope` and concurrent, interleaved `append()`/`refresh()` calls. Each call runs to completion, one at a time.
- What happens to a JVM `Error` after it leaves an operation is not modelled. It leaves the coroutine launched by `appendProfileKind` or `refreshProfileKind`, and the view model methods do not return it.
- `onLoadUpdated` and `onError` are assumed not to throw. In the profile lists they only copy a value or print a stack trace. A throwing `onError` inside the `getOrElse` branch would reach the `catch` block and be reported again.
- `toUiData`: its mapper is not part of this model. Batches are taken to be list items that keep their `id`. The reply-chain `Status` keeps only `id`, `inReplyToId` and `replyChainType`. The profile and home-timeline items keep `id` plus a `content` field that stands for the rest.
- The untagged value of `ReplyChainType` is named `Null` here.
- The defaults of `StatusCommonListData` are not part of this model. An empty timeline, `NotLoading` and `endReached = false` are assumed.
- ShouldAppend: a zero `fetchNumber` on a non-empty, idle, unfinished list throws `ArithmeticException` in Kotlin (Paginator.kt:108); the requires excludes it. Kotlin `Int` arithmetic is unbounded here: the product `(size / fetchNumber) * threshold` or the subtraction wrapping past 32 bits is not modelled.
- The repository and API calls, `printStackTrace`, logging, and the `params` of `load`, which the source ignores, are parameters or not modelled.
- `ProfileViewModel`'s `init` is not modelled. That covers the first refresh, the tab-change refresh of an empty list, `fetchAccount`, `getRelationship` and the account lookup, which are network and database I/O.
- `onStatusAction` and `updateStatusFromDetailScreen` are not modelled: they delegate to `StatusActionHandler` and `updateStatusActionData`, which are not part of this model.
- `StatusDetailViewModel`'s `init` (the `statusContext` request), `favoriteStatus`, `unfavoriteStatus` and `updateText` are network calls or text plumbing.
- Compose state (`derivedStateOf`, `remember`, `StateFlow`, `stateIn`), navigation, UI, DTOs and the notification repository.
