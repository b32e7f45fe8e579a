# Batch queries of the download manager, in Dafny

This project models the query builder of the download manager library. The
builder turns a batch id, a set of public status flags and a sort request into
a `BatchQuery`. A `BatchQuery` is a selection, a sort order and the selection's
arguments. Its consumers are not part of this model.

It also models `DatabaseHelper.projectionFrom`. That method writes the
column list of a view as the array's entries separated by `", "`.

Modules:

- `Downloads` (downloads.dfy): the constants the builder reads from classes
  outside this model. These are the internal status codes, the two column
  names and the five public status flags (32-bit words).
- `Text` (text.dfy): `String.valueOf` on integers, with its round trip.
- `Criteria` (criteria.dfy): a stand-in for `Criteria.Builder`, whose
  source is not part of this model. It records the appended tokens (atoms,
  inner groups, `AND`, `OR`), the arguments and the sort directive. It also
  defines the well-formedness and alignment predicates the builder's output is
  proved to satisfy.
- `StatusFlags` (status_flags.dfy): the five status categories, the flag of
  each, and what a mask selects.
- `StatusFilter` (status_filter.dfy): `buildStatusesFrom`, `isNotLastIn`, and
  the token stream and arguments that `withStatusFilter` appends.
- `Liveness` (liveness.dfy): the rank that the `ORDER_BY_LIVENESS` CASE
  expression gives a status code.
- `BatchQuery` (batch_query.dfy): the `BatchQuery` value, `ALL`, and the
  `Builder` class with its mutable `criteriaIdBuilder` and
  `criteriaStatusBuilder` fields.
- `DatabaseHelper` (projection.dfy): `projectionFrom` as a loop over an
  array, proved against a join function.

The builder is specified by `QueryOf`. `BuildWith` proves that one fixed call
order yields `QueryOf`: an optional `withId`, then an optional
`withStatusFilter`, then an optional call of one sort setter
(`withSortAscendingBy`, `withSortDescendingBy` or `withSortByLiveness`), each
at most once, followed by `build()`. `QuerySound` then states the shape of
every such query. Other orders and repeated calls are covered only by the
individual methods' contracts and by `LastIdWins`.

`withStatusFilter(0)` still creates a status builder, so `build()` appends
`AND` and an empty group after the identity group (`EmptyMaskQuery`); an empty
mask appends nothing to that group (`NoFlags`). How `Criteria` renders an
empty inner criteria is not part of this model; it gives an empty (or null)
group, which is no valid predicate, so the model counts an empty group as ill
formed. `QuerySound` states that the query is well formed exactly when no
status filter was given or its mask selects some category, and that it ends
in an empty group otherwise.

## Model

| member | source | states |
|---|---|---|
| BatchQuery.Builder.constructor | library/src/main/java/com/novoda/downloadmanager/lib/BatchQuery.java:60-62 | a new builder has an empty main builder and neither an identity nor a status constraint |
| BatchQuery.Builder.WithId | library/src/main/java/com/novoda/downloadmanager/lib/BatchQuery.java:64-70 | replaces the identity constraint with a fresh one: a single `_ID = ?` atom whose argument is the id's decimal text; the status constraint is untouched |
| BatchQuery.Builder.WithSortAscendingBy | library/src/main/java/com/novoda/downloadmanager/lib/BatchQuery.java:72-75 | the sort becomes the column, ascending; selection tokens and arguments are unchanged |
| BatchQuery.Builder.WithSortDescendingBy | library/src/main/java/com/novoda/downloadmanager/lib/BatchQuery.java:77-80 | the sort becomes the column, descending; selection tokens and arguments are unchanged |
| BatchQuery.Builder.WithSortByLiveness | library/src/main/java/com/novoda/downloadmanager/lib/BatchQuery.java:86-89 | the sort becomes the liveness rank with no direction; selection tokens and arguments are unchanged |
| BatchQuery.Builder.WithStatusFilter | library/src/main/java/com/novoda/downloadmanager/lib/BatchQuery.java:91-147 | replaces the status constraint with a fresh one. It holds each selected category's fragment, in expansion order, with `OR` between consecutive categories, and the categories' arguments in the same order; the identity constraint is untouched |
| BatchQuery.Builder.Build | library/src/main/java/com/novoda/downloadmanager/lib/BatchQuery.java:178-195 | appends the identity group, then `AND` if both constraints exist, then the status group. The arguments are the identity's followed by the status's. The query carries the main builder's selection, sort and arguments |
| BatchQuery.BuildWith | library/src/main/java/com/novoda/downloadmanager/lib/BatchQuery.java:60-195 | a fresh builder given an optional withId, then an optional withStatusFilter, then an optional call of one of the three sort setters, each at most once, then build, gives exactly `QueryOf` of its inputs with that setter's sort |
| BatchQuery.AllVersusEmptyBuild | library/src/main/java/com/novoda/downloadmanager/lib/BatchQuery.java:12 | `ALL` has no selection, no sort and no arguments; a builder built with nothing set matches it in selection and sort but carries an empty argument list |
| BatchQuery.QuerySound | library/src/main/java/com/novoda/downloadmanager/lib/BatchQuery.java:178-195 | the selection is absent exactly when neither constraint was given. The sort is the one requested and arguments are always present. The token stream holds one group per constraint given, with one combinator fewer than groups; it has no stray combinator and one argument per placeholder, in order. It is well formed exactly when no status filter was given or its mask selects some category; when the mask selects nothing the stream ends in an empty group. With an id, its text is the first argument |
| BatchQuery.AssembledCases | library/src/main/java/com/novoda/downloadmanager/lib/BatchQuery.java:179-188 | on a fresh main builder: nothing; one group; the other group; or identity group, `AND`, status group. The arguments follow the same cases |
| BatchQuery.AssembledSound | library/src/main/java/com/novoda/downloadmanager/lib/BatchQuery.java:179-188 | when both constraints are non-empty and well formed, so is what build() assembles from them |
| BatchQuery.AssembledAligned | library/src/main/java/com/novoda/downloadmanager/lib/BatchQuery.java:179-188 | when both constraints are aligned, what build() assembles has no stray combinator, one combinator fewer than groups, and arguments that bind its placeholders in order, one each |
| BatchQuery.AssembledOperands | library/src/main/java/com/novoda/downloadmanager/lib/BatchQuery.java:179-188 | build() appends exactly one group per constraint given |
| BatchQuery.JoinedSound | library/src/main/java/com/novoda/downloadmanager/lib/BatchQuery.java:180-187 | two non-empty, well-formed groups joined by `AND` are well formed |
| BatchQuery.JoinedAligned | library/src/main/java/com/novoda/downloadmanager/lib/BatchQuery.java:180-187 | two aligned groups joined by `AND` alternate and are aligned with the concatenated arguments |
| BatchQuery.GroupSound | library/src/main/java/com/novoda/downloadmanager/lib/BatchQuery.java:180 | a non-empty, well-formed constraint nested as one group stays well formed |
| BatchQuery.GroupAligned | library/src/main/java/com/novoda/downloadmanager/lib/BatchQuery.java:180 | an aligned constraint nested as one group is bound by its own arguments |
| BatchQuery.AssembledEndsWithStatus | library/src/main/java/com/novoda/downloadmanager/lib/BatchQuery.java:186-188 | when a status constraint exists, its group is the last token build() appends |
| BatchQuery.EmptyGroupIllFormed | library/src/main/java/com/novoda/downloadmanager/lib/BatchQuery.java:186-188 | a stream holding an empty group is not well formed |
| BatchQuery.IdSound | library/src/main/java/com/novoda/downloadmanager/lib/BatchQuery.java:64-70 | the identity constraint is non-empty, well formed and aligned |
| BatchQuery.StatusSound | library/src/main/java/com/novoda/downloadmanager/lib/BatchQuery.java:91-147 | the status constraint is aligned for every mask; it is non-empty and well formed when the mask selects a category, and has no tokens and no arguments otherwise |
| BatchQuery.BuildFailedRange | library/src/main/java/com/novoda/downloadmanager/lib/BatchQuery.java:128-135 | the failed range is `status >= ?` with argument "400", `AND`, `status < ?` with argument "600" |
| BatchQuery.AppendStatusEquals | library/src/main/java/com/novoda/downloadmanager/lib/BatchQuery.java:98-100 | appends one `status = ?` atom and the code's text, and nothing else |
| BatchQuery.AppendPaused | library/src/main/java/com/novoda/downloadmanager/lib/BatchQuery.java:107-120 | appends four flat `status = ?` atoms joined by three `OR`s, with arguments PAUSED_BY_APP, WAITING_TO_RETRY, WAITING_FOR_NETWORK, QUEUED_FOR_WIFI in that order |
| BatchQuery.AppendCategory | library/src/main/java/com/novoda/downloadmanager/lib/BatchQuery.java:96-140 | appends exactly the category's fragment and its arguments |
| BatchQuery.EmptyBuilderQuery | library/src/main/java/com/novoda/downloadmanager/lib/BatchQuery.java:178-195 | a builder built at once has no selection and no sort, like `ALL`, but an empty argument list where `ALL` has none |
| BatchQuery.IdAndRunningQuery | library/src/main/java/com/novoda/downloadmanager/lib/BatchQuery.java:64-195 | id plus the running flag gives identity group, `AND`, running group, with the id's text first and the liveness sort |
| BatchQuery.LastIdWins | library/src/main/java/com/novoda/downloadmanager/lib/BatchQuery.java:64-70 | a second withId replaces the first: only the later id is selected |
| BatchQuery.EmptyMaskQuery | library/src/main/java/com/novoda/downloadmanager/lib/BatchQuery.java:91-93 | withStatusFilter(0) after withId still adds `AND` and an empty group, and the resulting selection is not well formed |
| StatusFilter.BuildStatusesFrom | library/src/main/java/com/novoda/downloadmanager/lib/BatchQuery.java:150-172 | the list built by the five tests is `StatusesFrom` of the mask |
| StatusFilter.StatusesFromSpec | library/src/main/java/com/novoda/downloadmanager/lib/BatchQuery.java:150-172 | a category is listed exactly when its flag shares a bit with the mask; the list is in the order PENDING, RUNNING, PAUSED, SUCCESSFUL, FAILED and so has no repeats |
| StatusFilter.StatusesFromIgnoresUnknownBits | library/src/main/java/com/novoda/downloadmanager/lib/BatchQuery.java:150-172 | bits outside the five flags do not change the list |
| StatusFilter.StatusesFromSingleFlag | library/src/main/java/com/novoda/downloadmanager/lib/BatchQuery.java:150-172 | with the flags non-zero and pairwise disjoint, a mask holding one flag lists exactly that category |
| StatusFilter.StatusesFromNoFlags | library/src/main/java/com/novoda/downloadmanager/lib/BatchQuery.java:150-172 | the zero mask lists nothing |
| StatusFilter.StatusesFromPair | library/src/main/java/com/novoda/downloadmanager/lib/BatchQuery.java:150-172 | a mask selecting PENDING and SUCCESSFUL lists them in that order |
| StatusFilter.PresentMembers | library/src/main/java/com/novoda/downloadmanager/lib/BatchQuery.java:150-172 | filtering a list keeps exactly its members that are selected |
| StatusFilter.PresentOrdered | library/src/main/java/com/novoda/downloadmanager/lib/BatchQuery.java:150-172 | filtering a list in expansion order keeps it in expansion order |
| StatusFilter.StatusesFromUnfolded | library/src/main/java/com/novoda/downloadmanager/lib/BatchQuery.java:150-172 | the filtered list is the five conditional appends in sequence, as the method performs them |
| StatusFilter.LastIndexOf | library/src/main/java/com/novoda/downloadmanager/lib/BatchQuery.java:175 | `List.lastIndexOf`: -1 or an index holding the element with no later occurrence |
| StatusFilter.IsNotLastIn | library/src/main/java/com/novoda/downloadmanager/lib/BatchQuery.java:174-176 | the test holds exactly when the list is non-empty and its last entry is not x: it asks only whether x is the last entry, not whether this occurrence is |
| StatusFilter.IsNotLastInDistinct | library/src/main/java/com/novoda/downloadmanager/lib/BatchQuery.java:174-176 | on any list without repeated entries, the test holds exactly for the entries before the last position |
| StatusFilter.IsNotLastInRepeated | library/src/main/java/com/novoda/downloadmanager/lib/BatchQuery.java:174-176 | every occurrence of the list's last entry fails the test, so an earlier duplicate of the last entry gets no `OR` after it |
| StatusFilter.IsNotLastInRepeatedPair | library/src/main/java/com/novoda/downloadmanager/lib/BatchQuery.java:174-176 | in `[c, c]` the first `c` fails the test although it is not at the last position, so the test relies on distinct entries |
| StatusFilter.OrderedDistinct | library/src/main/java/com/novoda/downloadmanager/lib/BatchQuery.java:150-172 | a list in expansion order has no repeated entries |
| StatusFilter.LastNotInPrefix | library/src/main/java/com/novoda/downloadmanager/lib/BatchQuery.java:142-144 | in a list in expansion order the last entry does not occur earlier, so `OR` is never appended after it |
| StatusFilter.FragmentWellFormed | library/src/main/java/com/novoda/downloadmanager/lib/BatchQuery.java:96-140 | each category's fragment is non-empty and well formed |
| StatusFilter.FragmentCombinators | library/src/main/java/com/novoda/downloadmanager/lib/BatchQuery.java:107-120 | PAUSED's fragment holds three combinators at the outer level; every other fragment holds none |
| StatusFilter.FragmentAligned | library/src/main/java/com/novoda/downloadmanager/lib/BatchQuery.java:96-140 | each fragment has one argument per placeholder, in order |
| StatusFilter.LoopStep | library/src/main/java/com/novoda/downloadmanager/lib/BatchQuery.java:95-145 | one iteration appends the category's fragment, then `OR` unless the category equals the list's last entry, and the category's arguments |
| StatusFilter.LoopNodesJoin | library/src/main/java/com/novoda/downloadmanager/lib/BatchQuery.java:95-145 | on a list in expansion order, after n iterations the stream is the first n fragments joined by `OR`, followed by a trailing `OR` when entries remain |
| StatusFilter.LoopNodesIsOrJoined | library/src/main/java/com/novoda/downloadmanager/lib/BatchQuery.java:95-145 | after the loop the stream is all fragments joined by `OR`, with no trailing `OR` |
| StatusFilter.OrJoinedShape | library/src/main/java/com/novoda/downloadmanager/lib/BatchQuery.java:95-145 | fragments joined by `OR` are non-empty and well formed: they neither start nor end with a combinator and never hold two adjacent ones |
| StatusFilter.OrJoinedAligned | library/src/main/java/com/novoda/downloadmanager/lib/BatchQuery.java:95-145 | the joined fragments are aligned with the concatenated arguments |
| StatusFilter.OrJoinedCombinators | library/src/main/java/com/novoda/downloadmanager/lib/BatchQuery.java:95-145 | k categories give k-1 category-level `OR`s, plus PAUSED's three inner ones when it is present |
| StatusFilter.StatusFilterShape | library/src/main/java/com/novoda/downloadmanager/lib/BatchQuery.java:91-147 | for every mask the status stream is well formed, has no stray combinator and is aligned with its arguments. A non-empty selection of k categories carries k-1 `OR`s besides PAUSED's |
| StatusFilter.SingleCategoryLoop | library/src/main/java/com/novoda/downloadmanager/lib/BatchQuery.java:95-145 | one category gives its fragment alone, with no `OR` |
| StatusFilter.TwoCategoryLoop | library/src/main/java/com/novoda/downloadmanager/lib/BatchQuery.java:95-145 | two categories, the first earlier in expansion order than the second, give the first fragment, `OR`, the second fragment |
| StatusFilter.PausedOnly | library/src/main/java/com/novoda/downloadmanager/lib/BatchQuery.java:107-120 | the paused flag alone gives the four flat atoms joined by `OR` with the four paused codes as arguments |
| StatusFilter.FailedOnly | library/src/main/java/com/novoda/downloadmanager/lib/BatchQuery.java:126-135 | the failed flag alone gives one inner group `status >= ? AND status < ?` with arguments "400" and "600", the half-open range [400, 600) |
| StatusFilter.PendingOrSuccessful | library/src/main/java/com/novoda/downloadmanager/lib/BatchQuery.java:95-145 | PENDING and SUCCESSFUL give `status = ? OR status = ?` with their codes in that order |
| StatusFilter.NoFlags | library/src/main/java/com/novoda/downloadmanager/lib/BatchQuery.java:91-147 | the zero mask appends no token and no argument |
| StatusFlags.Rank | library/src/main/java/com/novoda/downloadmanager/lib/BatchQuery.java:150-172 | each category's position in the order of the five tests |
| StatusFlags.SelectedSetTests | library/src/main/java/com/novoda/downloadmanager/lib/BatchQuery.java:152-170 | each of the five `(statusFlags & flag) != 0` tests decides its category's membership |
| StatusFlags.SelectedSetMembers | library/src/main/java/com/novoda/downloadmanager/lib/BatchQuery.java:152-170 | a category is selected exactly when its flag test passes |
| StatusFlags.SelectedIgnoresUnknownBits | library/src/main/java/com/novoda/downloadmanager/lib/BatchQuery.java:152-170 | clearing the bits outside the five flags leaves every test unchanged |
| StatusFlags.SelectedSetIgnoresUnknownBits | library/src/main/java/com/novoda/downloadmanager/lib/BatchQuery.java:152-170 | bits outside the five flags select nothing |
| StatusFlags.SingleFlag | library/src/main/java/com/novoda/downloadmanager/lib/BatchQuery.java:199-204 | with the flags pairwise disjoint and non-zero, as `@IntDef(flag = true)` intends, one flag passes its own test and no other |
| StatusFlags.TwoFlags | library/src/main/java/com/novoda/downloadmanager/lib/BatchQuery.java:199-204 | a mask of two disjoint flags selects a category exactly when it is one of the two |
| StatusFlags.SingleFlagSelects | library/src/main/java/com/novoda/downloadmanager/lib/BatchQuery.java:199-204 | a mask of one flag selects exactly its category |
| StatusFlags.TwoFlagsSelect | library/src/main/java/com/novoda/downloadmanager/lib/BatchQuery.java:199-204 | a mask of two flags selects exactly their two categories |
| StatusFlags.UnionTest | library/src/main/java/com/novoda/downloadmanager/lib/BatchQuery.java:199-204 | a flag's test on the union of two masks passes when it passes on either |
| StatusFlags.SubmaskTest | library/src/main/java/com/novoda/downloadmanager/lib/BatchQuery.java:152-170 | masking with a superset of a flag does not change that flag's test |
| StatusFlags.WithinKnownBits | library/src/main/java/com/novoda/downloadmanager/lib/BatchQuery.java:199-204 | each public flag lies within the union of the five |
| Liveness.LivenessRank | library/src/main/java/com/novoda/downloadmanager/lib/BatchQuery.java:42-55 | the rank is within 1..5; it is 1 exactly for RUNNING; a code not named in the CASE gets 2 |
| Liveness.LivenessOrder | library/src/main/java/com/novoda/downloadmanager/lib/BatchQuery.java:42-55 | with distinct codes: RUNNING before PENDING before PAUSED_BY_APP before BATCH_FAILED before SUCCESS, and every other code ties with PENDING |
| Liveness.LivenessFirstMatch | library/src/main/java/com/novoda/downloadmanager/lib/BatchQuery.java:42-55 | the CASE is first-match: the code of the i-th WHEN gets rank i+1 whenever no earlier WHEN names the same code, whatever later WHENs name |
| Liveness.LivenessSuccessAsRunning | library/src/main/java/com/novoda/downloadmanager/lib/BatchQuery.java:42-55 | SUCCESS equal to RUNNING ranks 1, the rank of its first WHEN, not 5 |
| Text.ValueOf | library/src/main/java/com/novoda/downloadmanager/lib/BatchQuery.java:68 | `String.valueOf(long)`: non-empty, a leading `-` exactly for negatives, digits otherwise |
| Text.ValueOfRoundTrip | library/src/main/java/com/novoda/downloadmanager/lib/BatchQuery.java:68 | parsing the text of an id gives the id back |
| Text.ValueOfInjective | library/src/main/java/com/novoda/downloadmanager/lib/BatchQuery.java:68 | distinct ids have distinct texts, so the argument identifies the batch |
| Text.DigitsRoundTrip | library/src/main/java/com/novoda/downloadmanager/lib/BatchQuery.java:68 | the decimal digits of a natural number read back to that number |
| Text.FailedBoundsText | library/src/main/java/com/novoda/downloadmanager/lib/BatchQuery.java:13-14 | the failed range's bounds are written "400" and "600" |
| DatabaseHelper.ProjectionFrom | library/src/main/java/com/novoda/downloadmanager/lib/DatabaseHelper.java:178-192 | a null array gives "null" and an empty array "[]". When the capacity hint overflows there is no result (the exception). Otherwise the result is the entries in array order separated by ", ", with a null entry written as "null" (loop invariant: after index i the buffer is the join of the first i entries) |
| DatabaseHelper.IntMul | library/src/main/java/com/novoda/downloadmanager/lib/DatabaseHelper.java:185 | Java `int` multiplication: the result lies in the 32-bit range and agrees with the true product modulo 2^32 |
| DatabaseHelper.ShortArraysFit | library/src/main/java/com/novoda/downloadmanager/lib/DatabaseHelper.java:185 | arrays shorter than 306,783,379 entries never make the capacity hint negative |
| DatabaseHelper.OverflowBoundaries | library/src/main/java/com/novoda/downloadmanager/lib/DatabaseHelper.java:185 | the hint first wraps negative at 306,783,379 entries, and that first run ends at 613,566,756 |
| DatabaseHelper.JoinIsSeparated | library/src/main/java/com/novoda/downloadmanager/lib/DatabaseHelper.java:185-191 | the join is the first entry followed by ", " and each further entry, in order |
| DatabaseHelper.JoinSnoc | library/src/main/java/com/novoda/downloadmanager/lib/DatabaseHelper.java:187-190 | one more entry appends ", " and that entry |
| DatabaseHelper.SeparatedSnoc | library/src/main/java/com/novoda/downloadmanager/lib/DatabaseHelper.java:187-190 | the separator-prefixed tail grows by ", " and the entry |
| DatabaseHelper.JoinLength | library/src/main/java/com/novoda/downloadmanager/lib/DatabaseHelper.java:185-191 | n entries get n-1 separators: the length is the entries' lengths plus 2(n-1) |
| DatabaseHelper.SingleEntry | library/src/main/java/com/novoda/downloadmanager/lib/DatabaseHelper.java:185-186 | a one-entry array yields that entry unchanged |
| DatabaseHelper.NullSentinelCollides | library/src/main/java/com/novoda/downloadmanager/lib/DatabaseHelper.java:179-181 | a null array and an array holding one null entry give the same text |
| DatabaseHelper.EmptySentinelCollides | library/src/main/java/com/novoda/downloadmanager/lib/DatabaseHelper.java:182-184 | an empty array and the array `["[]"]` give the same text |

## Left out

- `Criteria.Builder` and `Criteria` are not part of this model. The `Criteria` module is a stand-in that records tokens, arguments and the sort directive instead of rendering SQL text. Two things are assumptions about the unseen class: an inner criteria's arguments are spliced in at the group's position, and `getSelection()` is null when nothing was appended. `sortBy(column).ascending()` is one `SortBy` call.
- The SQL text of the selection, of the sort and of the `ORDER_BY_LIVENESS` CASE is not produced. `Liveness.LivenessRank` gives the rank the CASE computes instead, and the sort key `Criteria.ByLiveness` stands for the CASE.
- The values of `Downloads.Impl.STATUS_*`, `DownloadManager.STATUS_*` and the column names come from classes outside this model, so every operation takes them as parameters (`Downloads.InternalCodes`, `Downloads.PublicFlags`, `Downloads.Columns`).
- The `@Status` annotation is not enforced by Java. Masks are any 32-bit words, and the lemmas that need pairwise disjoint non-zero flags say so (`DisjointFlags`).
- The `long` id is an unbounded integer. `String.valueOf` is total on it, so there is no overflow to model.
- The `switch` `default` branch is unreachable in the model. `buildStatusesFrom` only lists the five categories, so each list entry is a `Category`.
- The fluent `return this` is not modelled. Each builder method updates the object and returns nothing.
- `selectionArguments` is always the main builder's argument list, possibly empty, and is never null. The model assumes `getSelectionArguments()` returns the list as an array.
- `getSelection`, `getSortOrder` and `getSelectionArguments` are the datatype's fields.
- The rest of `DatabaseHelper` is SQL DDL run through `SQLiteDatabase`, and `LiteDownloadMigrationService` is an Android service. Both are foreign calls and concurrency with no algorithmic core to model.
- The `StringBuilder` capacity hint (`array.length * 7`) matters only when it overflows and the constructor throws `NegativeArraySizeException`. `DatabaseHelper.ProjectionFrom` models that case as no result and leaves the exception itself out. The only caller passes a fixed short array.
