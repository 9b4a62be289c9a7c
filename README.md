# Sourcegraph: git refs, Cody subscriptions, the sidebar file tree and gitserver RPCs

A Dafny model of four pieces of Sourcegraph, with proofs of what each one promises.

- **Git refs** (`GitRefs`, in `git_refs.dfy`). This is the GraphQL resolver behind a repository's `gitRefs`, `branches` and `tags`.
  - It lists branches and drops those whose lower-cased name does not contain the lower-cased query.
  - When asked, it orders branches by their latest commit date. It looks up each branch's commit first. In interactive mode it skips the sort when there are more than 1000 branches or the lookups time out.
  - Tags are sorted by name in reverse, unless they are already ordered by date.
  - Branches and tags are combined into `refs/heads/…` and `refs/tags/…` refs, filtered again by short name, and paged with `first`.
  - The filter and the sort run in place on arrays. They are proved against `Slices.Filter` and against "sorted and a permutation".
- **Cody subscriptions** (`CodySubscription`, in `cody_subscription.dfy`).
  - A user's subscription comes from the self-service Cody backend (SSC) when the user has a SAMS account, the `use-ssc-for-cody-subscription` flag is on, and SSC has a subscription for that account.
  - Otherwise the subscription is synthesised from dotcom: a Pro plan while Cody Pro is enabled, with rate limits only while the trial runs; a Free plan otherwise.
- **Sidebar file tree** (`FileTree`, in `file_tree.dfy`).
  - The `TreeEntries` GraphQL fetch defaults `first` to 1000; the sidebar asks for 1000 entries.
  - A full listing gets a `NodeLimit` marker appended.
  - `FileTreeProvider` gives the shown entries (with an "up" entry away from the root), children, the parent, node IDs, and expandability and selectability.
- **Gitserver gRPC** (`GitserverGrpc`, in `gitserver_grpc.dfy`). This is the request pipeline of `Blame`, `ReadFile`, `DefaultBranch` and `MergeBase`, as the server's tests pin it down:
  1. argument validation (`InvalidArgument`);
  2. the clone check (`NotFound` with a `RepoNotFoundPayload` and "repo not cloned");
  3. the sub-repository permission gate (`PermissionDenied`) for the two streaming calls;
  4. the backend call, whose errors map to `NotFound` with a revision or file payload;
  5. streaming of hunks or file chunks until end of data.

Shared pieces:
- `Wrappers`: `Option` and `Result`.
- `Strings`: ASCII lower-casing, substring search, prefix trimming and byte-wise string order.
- `Slices`: filter, map, in-place filter and in-place sort on arrays.

Collaborators the code calls are parameters of the model. These are gitserver's `ListBranches`, `ListTags` and `GetCommit`; RFC 3339 parsing; the SSC client; the external-account store; the GraphQL `query`; the tree loader; `dirname`; and the gitserver service, permission checker and git backend.

## Model

| member | source | states |
|---|---|---|
| Strings.ToLower | cmd/frontend/graphqlbackend/repository_git_refs.go:49 | Same length; every character lower-cased, with only A–Z changed. |
| Strings.Contains | cmd/frontend/graphqlbackend/repository_git_refs.go:53 | True exactly when the substring occurs at some index of the string. |
| Strings.LexLess | cmd/frontend/graphqlbackend/repository_git_refs.go:88 | Go's byte-wise string `<` on `seq<char>`. Its meaning as a strict total order is given by LexLessIrreflexive, LexLessTransitive and LexLessTotal. |
| Strings.ContainsEmpty | cmd/frontend/graphqlbackend/repository_git_refs.go:53 | Every string contains the empty query. |
| Strings.TrimPrefix | cmd/frontend/graphqlbackend/repository_git_refs.go:131 | When the prefix is present, prefix + result is the input; otherwise the input is returned unchanged. |
| Strings.TrimPrefixOfConcat | cmd/frontend/graphqlbackend/repository_git_refs.go:131 | Trimming p from p + s gives back s. |
| Strings.LexLessIrreflexive | cmd/frontend/graphqlbackend/repository_git_refs.go:88 | No string is below itself in Go's byte-wise string order. |
| Strings.LexLessTransitive | cmd/frontend/graphqlbackend/repository_git_refs.go:88 | Go's string order is transitive. |
| Strings.LexLessTotal | cmd/frontend/graphqlbackend/repository_git_refs.go:111 | Of two different strings, one is below the other. |
| Slices.Filter | cmd/frontend/graphqlbackend/repository_git_refs.go:51-57 | The kept elements, never more than the input. |
| Slices.FilterMembership | cmd/frontend/graphqlbackend/repository_git_refs.go:51-57 | An element is kept if and only if it is in the input and passes the test. |
| Slices.FilterConcat | cmd/frontend/graphqlbackend/repository_git_refs.go:129-135 | Filtering a concatenation is concatenating the filtered parts. |
| Slices.FilterAllKept | cmd/frontend/graphqlbackend/repository_git_refs.go:129-135 | When every element passes, the filter changes nothing. |
| Slices.Map | cmd/frontend/graphqlbackend/repository_git_refs.go:117-123 | Same length; element i is f of input element i. |
| Slices.FilterMap | cmd/frontend/graphqlbackend/repository_git_refs.go:121-135 | When the test on f(x) agrees with the test on x, filtering the mapped sequence is mapping the filtered one. |
| Slices.FilterRank | cmd/frontend/graphqlbackend/repository_git_refs.go:51-57 | A kept element lands at the count of kept elements before it, and that count grows along the input: the order is preserved. |
| Slices.FilterInPlace | cmd/frontend/graphqlbackend/repository_git_refs.go:51-57 | The `branches[:0]` append idiom: the array's first n cells are the filter of the old contents; the rest is untouched. |
| Slices.SortInPlace | cmd/frontend/graphqlbackend/repository_git_refs.go:78-94 | The contract of `sort.Slice` for a strict order: the first n cells are sorted and a permutation of the old ones; the rest is untouched. |
| Slices.SelectMin | cmd/frontend/graphqlbackend/repository_git_refs.go:78 | One sorting step: a least remaining element moves to position i, the multiset is kept, and cells outside [i, n) are untouched. |
| Slices.MinIndex | cmd/frontend/graphqlbackend/repository_git_refs.go:78 | Returns an index in [lo, hi) of an element that no other element there is below. |
| GitRefs.RefTypeSelection | cmd/frontend/graphqlbackend/repository_git_refs.go:39-100 | An absent type lists both branches and tags; "branch" lists branches only; "tag" lists tags only; any other type lists neither. |
| GitRefs.RefPrefix | cmd/frontend/graphqlbackend/repository_git_refs.go:131 | The prefix is "", refs/heads/ or refs/tags/, and the name starts with it. |
| GitRefs.NameMatches | cmd/frontend/graphqlbackend/repository_git_refs.go:49-53 | The case-insensitive substring test on a name. Its use in the branch filter is stated by BranchFilterKeeps. |
| GitRefs.ShortName | cmd/frontend/graphqlbackend/repository_git_refs.go:131 | A ref's name without its prefix. BranchRefShortName and TagRefShortName show it gives back the branch or tag name. |
| GitRefs.FilterBranches | cmd/frontend/graphqlbackend/repository_git_refs.go:48-58 | The branch query filter: never longer than its input. BranchFilterKeeps, BranchFilterKeepsOrder and EmptyQueryKeepsAll give which branches it keeps and in what order. |
| GitRefs.FilterRefs | cmd/frontend/graphqlbackend/repository_git_refs.go:125-136 | The ref query filter: never longer than its input. RefFilterOnCombined and FilterTagRefs give what it keeps of the combined refs. |
| GitRefs.BranchFilterKeeps | cmd/frontend/graphqlbackend/repository_git_refs.go:48-58 | A branch survives the query filter if and only if it was listed and its lower-cased name contains the lower-cased query. |
| GitRefs.BranchFilterKeepsOrder | cmd/frontend/graphqlbackend/repository_git_refs.go:51-57 | Two matching branches keep their relative order after the filter. |
| GitRefs.EmptyQueryKeepsAll | cmd/frontend/graphqlbackend/repository_git_refs.go:48-58 | An empty query keeps every branch. |
| GitRefs.CommitDate | cmd/frontend/graphqlbackend/repository_git_refs.go:69-77 | The later of the author and committer dates, and one of them; the author date when there is no committer. |
| GitRefs.BranchLess | cmd/frontend/graphqlbackend/repository_git_refs.go:78-94 | The `sort.Slice` comparator for branches: only a branch with a commit is ever below another. ByRecencyIsStrictOrder and RecencyOrderMeaning give its meaning. |
| GitRefs.ByRecencyIsStrictOrder | cmd/frontend/graphqlbackend/repository_git_refs.go:78-94 | The branch comparator is irreflexive and transitive, so sorting with it is well defined. |
| GitRefs.RecencyOrderMeaning | cmd/frontend/graphqlbackend/repository_git_refs.go:78-94 | In the sorted list, branches with a commit come first, newer dates come before older ones, and equal dates go by ascending name. |
| GitRefs.ByNameDescending | cmd/frontend/graphqlbackend/repository_git_refs.go:110-112 | The tag comparator, names in reverse. ByNameDescendingIsStrictOrder and TagOrderMeaning give its meaning. |
| GitRefs.ByNameDescendingIsStrictOrder | cmd/frontend/graphqlbackend/repository_git_refs.go:110-112 | The tag comparator is a strict order. |
| GitRefs.TagOrderMeaning | cmd/frontend/graphqlbackend/repository_git_refs.go:109-112 | In the sorted tags, a later tag with a different name has a smaller name (reverse alphabetical). |
| GitRefs.FirstFailure | cmd/frontend/graphqlbackend/repository_git_refs.go:155-163 | The index of the first branch whose commit lookup fails; every earlier one succeeds. |
| GitRefs.FetchSpec | cmd/frontend/graphqlbackend/repository_git_refs.go:144-167 | The reference definition of fetchBranchCommits. More than 1000 branches in interactive mode are skipped. Otherwise the result is the first failed lookup (skipped when it is the interactive timeout) or every branch mapped to its commit. FetchBranchCommits, SelectBranches and GitRefsQuery are proved against it. |
| GitRefs.Heads | cmd/frontend/graphqlbackend/repository_git_refs.go:156 | Slices.Map of the branch head: the commit IDs asked for, in order. |
| GitRefs.FetchBranchCommits | cmd/frontend/graphqlbackend/repository_git_refs.go:144-167 | Interactive with more than 1000 branches: nothing is requested and the outcome is not ok, with no error. Otherwise commits are requested in order up to and including the first failure. A timeout yields not ok with no error; any other failure yields the error; success maps every branch to its commit. |
| GitRefs.FirstFailureAt | cmd/frontend/graphqlbackend/repository_git_refs.go:155-163 | Characterises the first failure: it is the unique index with all earlier lookups succeeding and its own failing. |
| GitRefs.InteractiveCutoff | cmd/frontend/graphqlbackend/repository_git_refs.go:146-149 | Interactive requests over 1000 branches are skipped whatever the commit lookup would do. |
| GitRefs.BranchRefs | cmd/frontend/graphqlbackend/repository_git_refs.go:118-120 | One `refs/heads/` ref per branch, in order, targeting the branch head. |
| GitRefs.TagRefs | cmd/frontend/graphqlbackend/repository_git_refs.go:121-123 | One `refs/tags/` ref per tag, in order, targeting the tag commit. |
| GitRefs.Combine | cmd/frontend/graphqlbackend/repository_git_refs.go:117 | The combined list is as long as the branches and tags together. |
| GitRefs.BranchRefShortName | cmd/frontend/graphqlbackend/repository_git_refs.go:119-131 | A branch ref starts with refs/heads/, and its short name is the branch name. |
| GitRefs.TagRefShortName | cmd/frontend/graphqlbackend/repository_git_refs.go:122-131 | A tag ref starts with refs/tags/, and its short name is the tag name. |
| GitRefs.CombineLayout | cmd/frontend/graphqlbackend/repository_git_refs.go:117-123 | Entry i is branch i for i < number of branches and tag i minus that number after; name, target and short name match. |
| GitRefs.RefFilterOnCombined | cmd/frontend/graphqlbackend/repository_git_refs.go:125-136 | For any branches that all match the query, in any order (filter order or the date-sorted permutation), the second filter keeps every branch ref and applies the same name test to the tags. |
| GitRefs.RefFilterAfterBranchFilter | cmd/frontend/graphqlbackend/repository_git_refs.go:48-136 | In particular, the second filter keeps every branch the first filter kept. |
| GitRefs.FilterTagRefs | cmd/frontend/graphqlbackend/repository_git_refs.go:121-135 | Filtering tag refs by short name is the refs of the tags filtered by name. |
| GitRefs.CombineRefs | cmd/frontend/graphqlbackend/repository_git_refs.go:117-123 | Fills a fresh array of the combined length with exactly the combined refs. |
| GitRefs.Nodes | cmd/frontend/graphqlbackend/repository_git_refs.go:174-185 | Fails (a slice-bounds panic) if and only if `first` is negative. Otherwise the result is a prefix of the refs: the first `first` refs when there are more, all of them otherwise. |
| GitRefs.WrapInt32 | cmd/frontend/graphqlbackend/repository_git_refs.go:188 | Go's `int32()` conversion: the result is congruent to the input modulo 2^32 and lies in the int32 range; values below 2^31 are unchanged. |
| GitRefs.TotalCount | cmd/frontend/graphqlbackend/repository_git_refs.go:187-189 | The number of refs as an int32: congruent to it modulo 2^32, and equal to it when it is below 2^31. |
| GitRefs.HasNextPage | cmd/frontend/graphqlbackend/repository_git_refs.go:191-193 | True if and only if `first` is given and below the number of refs. |
| GitRefs.PageInfoAgreesWithNodes | cmd/frontend/graphqlbackend/repository_git_refs.go:174-193 | For non-negative `first`, there is a next page exactly when the page holds fewer nodes than the total count. |
| GitRefs.SelectBranches | cmd/frontend/graphqlbackend/repository_git_refs.go:48-96 | The listed branches filtered by the query. When ordered by date and all commits were found, they are sorted by recency and are a permutation of the filtered list. A failed lookup is returned as the error. |
| GitRefs.SelectTags | cmd/frontend/graphqlbackend/repository_git_refs.go:106-113 | With date order the tags are kept as listed; otherwise they are a permutation sorted by descending name. |
| GitRefs.GitRefsQuery | cmd/frontend/graphqlbackend/repository_git_refs.go:35-142 | Listing failures are returned. The selected branches and tags are combined in that order, filtered by short name when there is a query, and returned with `first`. |
| GitRefs.SeqToArray | cmd/frontend/graphqlbackend/repository_git_refs.go:38 | A fresh array holding the sequence. |
| GitRefs.Branches | cmd/frontend/graphqlbackend/repository_git_refs.go:23-27 | GitRefs with the type fixed to branches. A branch-listing failure is returned, and the tag listing cannot fail the call. The selected branches are the query-filtered list, or under date order the FetchSpec outcome: the lookup error, the filtered list when skipped, or a recency-sorted permutation. The refs are those branches as refs/heads/ refs, filtered by short name, with `first` kept. |
| GitRefs.Tags | cmd/frontend/graphqlbackend/repository_git_refs.go:29-33 | GitRefs with the type fixed to tags. A tag-listing failure is returned; otherwise the call succeeds whatever the branch listing does. The selected tags are as listed under date order, or else a permutation sorted by descending name. The refs are those tags as refs/tags/ refs, filtered by short name, with `first` kept. |
| GitRefs.OnlyKind | cmd/frontend/graphqlbackend/repository_git_refs.go:116-136 | With no tags every filtered ref is under refs/heads/; with no branches every one is under refs/tags/. |
| CodySubscription.Consolidate | internal/cody/subscription.go:53-103 | With SSC data: Pro plan, status copied, Pro rate limits for Active, PastDue and Trialing, and the parsed period. An unparsable start is the error; with a valid start, an unparsable end is. Without SSC data: status Pending, dotcom period, Pro with rate limits while the trial runs if Cody Pro is enabled, Free without rate limits otherwise. Pro rate limits imply the Pro plan. |
| CodySubscription.ProRateLimitStatus | internal/cody/subscription.go:68 | The statuses that earn Pro rate limits with SSC data: Active, PastDue and Trialing. Consolidate states the use. |
| CodySubscription.SscDataOverridesDotcom | internal/cody/subscription.go:54-77 | With SSC data, the dotcom user, trial flag and dotcom period do not affect the result. |
| CodySubscription.SamsAccountID | internal/cody/subscription.go:110-131 | A listing failure is wrapped; otherwise the first account's ID, or "" when there is none. |
| CodySubscription.ShouldFetchFromSsc | internal/cody/subscription.go:144 | SSC is asked only for a non-empty SAMS account ID with the flag on. SubscriptionForUser and SscNotConsulted state the consequence. |
| CodySubscription.SubscriptionForUser | internal/cody/subscription.go:135-152 | SSC is asked only when the SAMS ID is non-empty and the flag is on. Its failure is wrapped. The result is the consolidation of what it found (or of nothing). |
| CodySubscription.SscNotConsulted | internal/cody/subscription.go:143-149 | When SSC is not to be asked, any two SSC clients give the same result. |
| CodySubscription.NoSamsAccountUsesDotcom | internal/cody/subscription.go:127-151 | A user with no SAMS account always gets the dotcom-derived subscription, which succeeds. |
| FileTree.QueryVariables | client/web-sveltekit/src/lib/repo/api/tree.ts:45-48 | `first` defaults to 1000 when absent and is kept when given; the other variables are passed unchanged. |
| FileTree.FetchTreeEntries | client/web-sveltekit/src/lib/repo/api/tree.ts:42-55 | A query failure is returned. A node that is not a Repository, or that has no commit, is an error. Otherwise the commit is returned. |
| FileTree.Entries | client/web-sveltekit/src/lib/repo/api/tree.ts:83 | Slices.Map of the entry constructor: each entry becomes a tree value, in order. |
| FileTree.FetchSidebarFileTree | client/web-sveltekit/src/lib/repo/api/tree.ts:64-88 | Asks for 1000 entries. A missing tree is an error. The values are the entries, followed by the NodeLimit marker if and only if there are at least 1000. |
| FileTree.GetEntries | client/web-sveltekit/src/lib/repo/api/tree.ts:117-123 | With a parent or at the repository root, the values. Otherwise the root first, then the values. |
| FileTree.GetNodeID | client/web-sveltekit/src/lib/repo/api/tree.ts:149-151 | "node-limit" for the marker, the entry's path otherwise. |
| FileTree.IsExpandable | client/web-sveltekit/src/lib/repo/api/tree.ts:153-155 | Only a directory entry can be expanded, and it is selectable. ExpandableMeaning states the full if-and-only-if. |
| FileTree.IsSelectable | client/web-sveltekit/src/lib/repo/api/tree.ts:157-159 | Everything but the marker. ExpandableMeaning and SidebarSelectable give its meaning. |
| FileTree.ExpandableMeaning | client/web-sveltekit/src/lib/repo/api/tree.ts:153-159 | Expandable exactly for directory entries other than the root; selectable exactly for entries; expandable implies selectable. |
| FileTree.UpEntryNotExpandable | client/web-sveltekit/src/lib/repo/api/tree.ts:117-155 | The "up" entry can be selected but not expanded. |
| FileTree.SidebarSelectable | client/web-sveltekit/src/lib/repo/api/tree.ts:84-159 | In a sidebar listing only the appended marker, which comes last, cannot be selected. Node IDs are the entry paths and "node-limit" for the marker. |
| FileTree.NodeIDsDistinct | client/web-sveltekit/src/lib/repo/api/tree.ts:149-151 | Distinct values have distinct node IDs when paths are distinct and none is "node-limit". |
| FileTree.NodeIDCollision | client/web-sveltekit/src/lib/repo/api/tree.ts:149-151 | An entry whose path is "node-limit" shares the marker's node ID. |
| FileTree.FetchChildren | client/web-sveltekit/src/lib/repo/api/tree.ts:125-138 | A non-expandable value is an error. Otherwise the loader gets the same repository and commit, the entry's path, and this provider as the parent. |
| FileTree.FetchParent | client/web-sveltekit/src/lib/repo/api/tree.ts:140-147 | The loader gets the same repository and commit, the dirname of the root path, and no parent. |
| GitserverGrpc.Classify | cmd/gitserver/internal/server_grpc_test.go:373-395 | Revision-not-found, file-not-found and repo-not-found map to NotFound with the matching payload; anything else maps to Internal with no detail. |
| GitserverGrpc.ValidateBlame | cmd/gitserver/internal/server_grpc_test.go:45-53 | Valid if and only if repo and path are set; the repo is checked first, each with its "must be specified" message. |
| GitserverGrpc.ValidateDefaultBranch | cmd/gitserver/internal/server_grpc_test.go:158-163 | Valid if and only if the repo is set. |
| GitserverGrpc.ValidateMergeBase | cmd/gitserver/internal/server_grpc_test.go:214-225 | Valid if and only if repo, base and head are set, checked in that order. |
| GitserverGrpc.ValidateReadFile | cmd/gitserver/internal/server_grpc_test.go:270-281 | Valid if and only if repo, path and commit are set, checked in that order. |
| GitserverGrpc.CloneGate | cmd/gitserver/internal/server_grpc_test.go:54-63 | Passes if and only if the repository is cloned. Otherwise NotFound, "repo not cloned", and a RepoNotFoundPayload carrying the clone progress. |
| GitserverGrpc.PermissionGate | cmd/gitserver/internal/server_grpc_test.go:82-106 | Passes when sub-repository permissions are off or grant Read. PermissionDenied on no access. Internal when the checker fails. |
| GitserverGrpc.Pump | cmd/gitserver/internal/server_grpc_test.go:134-152 | Sends at most one message per read. Any error status is NotFound or Internal. |
| GitserverGrpc.FirstNonItem | cmd/gitserver/internal/server_grpc_test.go:134-141 | The index of the first read that is not an item. |
| GitserverGrpc.PumpMeaning | cmd/gitserver/internal/server_grpc_test.go:134-152 | Sends one message per item up to the first non-item. Ends cleanly on end of data, with the classified error on a failed read, and cleanly when the reads run out. |
| GitserverGrpc.PumpStopsAtTerminal | cmd/gitserver/internal/server_grpc_test.go:134-141 | Nothing after end of data or an error is read. |
| GitserverGrpc.ReadFilePayload | cmd/gitserver/internal/server_grpc_test.go:358-371 | The bytes sent are exactly the bytes read before the stream ends. |
| GitserverGrpc.PumpStream | cmd/gitserver/internal/server_grpc_test.go:134-152 | The streaming loop, written as a method, sends exactly what the Pump function specifies. The RPCs are modelled as functions through Pump, and this loop is their imperative counterpart. |
| GitserverGrpc.Blame | cmd/gitserver/internal/server_grpc_test.go:40-153 | An invalid request fails validation before anything else; an uncloned repo fails the clone check. A PermissionDenied status comes with no hunks sent. Past the gates, a blame reader that cannot be opened gives its classified error and nothing sent. BlameStreamsHunks states what an opened reader streams. |
| GitserverGrpc.ReadFile | cmd/gitserver/internal/server_grpc_test.go:265-396 | An invalid request fails validation before anything else; an uncloned repo fails the clone check. A PermissionDenied status comes with nothing sent. Past the gates, a file that cannot be opened gives its classified error and nothing sent. ReadFileStreamsChunks states what an opened reader streams. |
| GitserverGrpc.DefaultBranch | cmd/gitserver/internal/server_grpc_test.go:156-209 | Validation, then the clone check. Then the HEAD symbolic ref and the revision of HEAD, each error classified. |
| GitserverGrpc.MergeBase | cmd/gitserver/internal/server_grpc_test.go:212-262 | Validation, then the clone check, then the merge-base commit or the classified error. |
| GitserverGrpc.ValidationConsultsNothing | cmd/gitserver/internal/server_grpc_test.go:45-281 | An invalid request gets InvalidArgument whatever the server's collaborators are; the tests use an empty server. |
| GitserverGrpc.NotClonedConsultsNoBackend | cmd/gitserver/internal/server_grpc_test.go:54-292 | For an uncloned repo, each RPC returns the not-cloned error, whatever the permission checker and backend are. |
| GitserverGrpc.PermissionGateOutcomes | cmd/gitserver/internal/server_grpc_test.go:82-106 | For Blame and ReadFile: a Read grant leads to the backend call; a NoAccess verdict gives PermissionDenied and sends nothing. |
| GitserverGrpc.UnaryCallsIgnorePermissions | cmd/gitserver/internal/server_grpc_test.go:175-248 | DefaultBranch and MergeBase do not depend on the permission checker. |
| GitserverGrpc.BlameStreamsHunks | cmd/gitserver/internal/server_grpc_test.go:108-153 | Past the gates, Blame sends one message per hunk up to the first non-hunk read. |
| GitserverGrpc.ReadFileStreamsChunks | cmd/gitserver/internal/server_grpc_test.go:341-371 | Past the gates, ReadFile sends each block read before the first non-block, unchanged and in order, so the chunks concatenate to the bytes read. The stream ends with an error exactly when a read failed, and that error is the classified one. |
| GitserverGrpc.BlameSingleHunk | cmd/gitserver/internal/server_grpc_test.go:115-152 | One hunk, then end of data, gives exactly one message for that hunk and a clean end. |
| GitserverGrpc.ReadFileSingleChunk | cmd/gitserver/internal/server_grpc_test.go:341-371 | One chunk, then end of data, gives one message with exactly that content and a clean end. |
| GitserverGrpc.ReadFileErrors | cmd/gitserver/internal/server_grpc_test.go:373-395 | A missing file gives NotFound with a FileNotFoundPayload. A missing revision gives NotFound with a RevisionNotFoundPayload. |

## Left out

- `Strings.ToLower`: lower-cases ASCII letters only. Go's `strings.ToLower` folds all of Unicode, which the model does not.
- `Slices.SortInPlace`: a selection sort that keeps only the contract of Go's `sort.Slice` (sorted and a permutation). The order pdqsort gives to equivalent elements is not modelled. The branch comparator leaves branches without a commit mutually unordered, so their final order is left open.
- `GitRefs.FetchBranchCommits`: the five-second interactive deadline and context cancellation are abstracted. `GetCommit` reports a timeout as its own error value. The partly filled map returned on failure is not modelled, because the resolver discards it.
- `GitRefs.Nodes`: a negative `first` makes the Go slice expression panic. The model returns that panic as a failure value.
- `GitRefs.GitRefsQuery`: the GraphQL connection arguments other than `first`, and the resolver objects' repository back-pointer, are not modelled.
- The gitserver client, the GraphQL transport, the SSC HTTP client, the external-account store and the feature-flag store are parameters. Their own behaviour is not part of this model.
- `CodySubscription.SubscriptionStatus`: SSC's status strings become an enumeration. "active", "past_due", "trialing" and "pending" are the named constructors, and `OtherStatus` cannot carry those names, so Go's string comparison and the model's constructor test agree.
- `CodySubscription.Consolidate`: the dotcom period (`preSSCReleaseCurrentPeriodDateRange`) and the trial-ended flag are inputs. Their computation is not part of this model.
- The process-wide SSC client cache (`getSSCClient`) and `SubscriptionForUser`'s client lookup hold no logic beyond the call and are not modelled.
- `FileTree.IsExpandable` and `FileTree.ExpandableMeaning`: TypeScript compares the entry with the root by object identity. The model compares by value, so a distinct object equal to the root also counts as the root.
- `FileTree.FetchParent`: `dirname` from the path library is a parameter.
- `FileTree.FetchChildren`: the loader is a parameter rather than a field of the provider. The loader's argument type holds the parent provider (`LoaderArgs.parent`), so a provider field of type `LoaderArgs -> …` would put the provider in a non-strictly-positive position, which Dafny refuses as a logical inconsistency.
- `GitRefs.RefPrefix`: the body of `gitRefPrefix` is not part of this model's source. The choice among refs/heads/, refs/tags/ and "" is reconstructed from its use. Every ref the resolver builds starts with one of the two prefixes.
- `GitserverGrpc.Blame` and `GitserverGrpc.ReadFile` are functions that stream through `Pump`. The loop that sends the messages is `GitserverGrpc.PumpStream`, proved equal to `Pump`. The RPCs do not call it, because functions cannot call methods.
- The provider's `getRoot`/`getRepoID` accessors are the datatype's fields. The GraphQL query text and the `languages` field of blobs are not modelled.
- The async/Promise layer is modelled as `Result` values; rejections are failures.
- `GitserverGrpc.PermissionGate`: only the Read and no-access verdicts are distinguished. Other permission levels are not modelled.
- `GitserverGrpc.UnaryCallsIgnorePermissions`: DefaultBranch and MergeBase run without a sub-repository permission check, as the server tests configure them. A check there would be a different design.
- `GitserverGrpc.Blame` and `GitserverGrpc.ReadFile`: the permission gate runs before the backend is called. Message sending never fails, and client cancellation and the wire encoding are not modelled.
- `GitserverGrpc.ReadFile`: the chunk size is a property of the backend's reader. The model streams whatever chunks the reader yields.
- `GitserverGrpc.Blame`: each hunk is copied field by field into its message. Protobuf timestamp encoding is not modelled.
- The git backend resolver cannot fail in the source, so the model has no error path for it.
- Actor propagation through the request context is not modelled.
