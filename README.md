# edunotice announcement notifier, modelled in Dafny

The repository's one piece of logic is the Cloud Functions trigger
`notifyOnNewAnnouncement` in `functions/index.js`. When a teacher creates a
document under `duyurular/{duyuruId}`, the trigger:

1. reads the title (`baslik`) and message (`mesaj`), falling back to
   "Yeni duyuru" and "Yeni bir duyuru yayınlandı." when a field is absent or
   empty, and reads the flags `targetAll`, `targetUids` and `targetClasses`
   (a non-array target list counts as empty);
2. collects the push tokens (`fcmToken`) of the targeted students of the
   `ogrenciler` collection into a `Set`: every student when `targetAll` is set
   or no target is given; otherwise the students whose document id is in
   `targetUids` together with those whose class (`sinif`) is in
   `targetClasses`, through "in" queries issued ten values at a time;
3. sends one multicast push per group of at most 500 tokens, with the title,
   the message shortened to 120 characters plus "..." when longer, and the
   announcement id; nothing at all is sent when no token was found.

The model keeps this structure:

- `seqs.dfy` (module `Seqs`): `Flatten`, `NoDup`, `ToSet`.
- `chunking.dfy` (module `Chunking`): the helper `chunk` as the method
  `Chunk` with its `while` loop, proved equal to the function `Chunks`, and
  the properties of `Chunks`.
- `directory.dfy` (module `Directory`): student records and the two reads of
  the collection; a full scan is the sequence itself and an "in" query is the
  function `WhereIn`, an order-preserving filter that accepts 1 to 10 values.
- `announcement.dfy` (module `Announcement`): field defaulting and coercion
  (`Parse`) and the body shortening (`NotificationBody`).
- `audience.dfy` (module `Audience`): the JavaScript `Set` as the class
  `TokenSet`, with its elements in insertion order (the order `Array.from`
  yields). The `forEach` callbacks are the method `AddTokens`, and audience
  resolution is the method `ResolveTokens` with its `for` loops over the
  query groups. `ResolveTokens` is proved against the function
  `ResolvedTokens` and against `AudienceTokens`, a definition of the
  audience that involves no queries and no grouping.
- `dispatch.dfy` (module `Dispatch`): the push provider as the class
  `Messaging`, whose ghost log `sent` records each request. The handler is
  the method `NotifyOnNewAnnouncement`, proved to send exactly
  `DispatchPlan`, and the lemmas give the shape of that plan.

`d.baslik || "Yeni duyuru"` falls back both when the field is absent and
when it is the empty string, and so does the message (`OrDefault`).

The source's `chunk` never terminates for a size of 0 or less on a
non-empty array, because `i += size` then never advances `i`
(functions/index.js:8); both of its call sites pass 10 and 500, so
`Chunks` and `Chunk` require a positive size.

## Model

| member | source | states |
|---|---|---|
| `Chunking.Chunks` | functions/index.js:8 | every slice is non-empty and has at most `size` elements |
| `Chunking.ChunksFlatten` | functions/index.js:6-10 | the slices laid end to end are the input, in order, with nothing lost or repeated |
| `Chunking.ChunksFull` | functions/index.js:8 | every slice except the last has exactly `size` elements |
| `Chunking.ChunksCount` | functions/index.js:8 | there are ceil(n / size) slices, and none exactly when the input is empty |
| `Chunking.Chunk` | functions/index.js:6-10 | the loop that advances `i` by `size` and pushes clamped slices returns `Chunks(arr, size)`: concatenation gives the input back, slices are non-empty, at most `size`, full except the last, ceil(n / size) of them |
| `Directory.HasToken` | functions/index.js:33-34 | the `if (t)` test: a token present and not empty; `CollectSpec` shows that exactly these tokens are added |
| `Directory.WhereIn` | functions/index.js:40-42 | an "in" query with 1 to 10 values returns exactly the records whose field holds one of the values, never more records than the collection has |
| `Announcement.OrDefault` | functions/index.js:18-19 | the result is never empty; a present non-empty value is kept; an absent or empty value gives the fallback |
| `Announcement.Parse` | functions/index.js:16-24 | a missing document gives every default; title and message are defaulted and never empty; `targetAll` is the stored flag; a target list that is not an array becomes empty |
| `Announcement.ArrayOrEmpty` | functions/index.js:23-24 | `Array.isArray(x) ? x : []`; `Parse` states it: a list that is not an array becomes empty, an array is kept |
| `Announcement.ParseKeepsProvidedFields` | functions/index.js:18-24 | a document whose fields are all present and non-empty is read back unchanged |
| `Announcement.NotificationBody` | functions/index.js:78 | a message of at most 120 characters is sent unchanged; a longer one as its first 120 characters followed by "..." (123 in all); the body never exceeds 123 characters and is empty only for an empty message |
| `Announcement.NotificationBodyExamples` | functions/index.js:78 | a 200-character message is sent as 120 characters plus "..."; a 50-character one unchanged |
| `Audience.Insert` | functions/index.js:34 | adding a token to the ordered set adds exactly that element, keeps it free of repetitions and keeps the earlier elements in place |
| `Audience.TokenSet.constructor` | functions/index.js:27 | a new set is empty |
| `Audience.TokenSet.Add` | functions/index.js:34 | `tokens.add(t)` appends `t` unless it is already present, and the set stays free of repetitions |
| `Audience.AddDoc` | functions/index.js:33-34 | one run of the `forEach` callback; `CollectSpec` gives its effect over a whole query result |
| `Audience.Collect` | functions/index.js:32-35 | the set after the callback has run on every document of a result, in order; `CollectSpec` states that it adds exactly the documents' non-empty tokens, without repetition, keeping the earlier elements as a prefix |
| `Audience.CollectQueries` | functions/index.js:39-47 | the set after one query per value group; `CollectQueriesSpec` states that it adds exactly the tokens of the records matching a value of some group |
| `Audience.TargetsEveryone` | functions/index.js:30 | the condition for resolving every student: `targetAll`, or both target lists empty; `TargetAllIgnoresLists` and `ResolvedTokensSpec` give its consequences |
| `Audience.ResolvedTokens` | functions/index.js:27-64 | `Array.from(tokens)` in the order the handler builds it; `ResolvedTokensSpec` states that its elements are exactly `AudienceTokens`, none empty and none twice |
| `Audience.CollectSpec` | functions/index.js:32-35 | running the callback over a query result adds exactly the non-empty tokens of its records, introduces no repetition and no empty token, and keeps what was already there as a prefix |
| `Audience.CollectQueriesSpec` | functions/index.js:39-47 | running one query per value group adds exactly the tokens of the records matching any value of any group, with no repetition and no empty token |
| `Audience.GroupingIrrelevant` | functions/index.js:37-61 | however the values are grouped (any group size from 1 to 10), the queries collect the same tokens, namely those of the records matching any of the values |
| `Audience.ResolvedTokensSpec` | functions/index.js:27-62 | the resolved token list holds exactly the audience's tokens: every user's in the "all" case, else the union of the id-matched and class-matched users' tokens; no token is empty and none appears twice |
| `Audience.TargetAllIgnoresLists` | functions/index.js:30-35 | with `targetAll` set, the resolved tokens do not depend on the target lists and are the tokens of every user |
| `Audience.ClassesOnly` | functions/index.js:50-61 | with only classes targeted, only the class queries contribute, and a token is resolved if and only if some user of one of those classes holds it |
| `Audience.TargetedIsUnion` | functions/index.js:36-61 | when targeting is in force, a user matching the id list or the class list is reached (union, not intersection) |
| `Audience.AddTokens` | functions/index.js:32-35 | the `forEach` loop leaves the set equal to `Collect` of its old contents and the query result |
| `Audience.QueryGroups` | functions/index.js:39-47 | the `for…of` loop over value groups leaves the set equal to `CollectQueries` of its old contents, one query per group |
| `Audience.ResolveTokens` | functions/index.js:27-64 | the handler's resolution loops return `ResolvedTokens`, whose elements are exactly the audience's tokens, none empty and none twice |
| `Dispatch.Messaging.SendEachForMulticast` | functions/index.js:74-89 | a request carries 1 to 500 tokens and is appended to the provider's log |
| `Dispatch.Requests` | functions/index.js:73-82 | one request per batch, carrying that batch: the requests' token lists are the batches |
| `Dispatch.DispatchPlan` | functions/index.js:16-89 | the requests the handler sends, in order; `PlanEmptyIffNoAudience`, `PlanShape` and `PlanCoversAudienceOnce` give its meaning |
| `Dispatch.PlanEmptyIffNoAudience` | functions/index.js:64-68 | no request is sent if and only if the audience has no token |
| `Dispatch.PlanShape` | functions/index.js:71-89 | for n tokens the handler sends ceil(n / 500) requests, each with 1 to 500 tokens and all full but the last, each with the resolved title, the shortened body and the announcement id |
| `Dispatch.PlanCoversAudienceOnce` | functions/index.js:64-75 | the requests' tokens, laid end to end, are the resolved token list: every audience token is sent to exactly once |
| `Dispatch.TwelveHundredTokens` | functions/index.js:64-75 | when the audience has 1200 tokens, the handler sends three requests, of 500, 500 and 200 tokens |
| `Dispatch.TwentyThreeIds` | functions/index.js:36-48 | with 23 target ids and no target class, the audience is resolved by exactly three id queries, of 10, 10 and 3 ids |
| `Dispatch.SendBatches` | functions/index.js:73-95 | the loop over batches appends one request per batch, in order, to the provider's log |
| `Dispatch.NotifyOnNewAnnouncement` | functions/index.js:14-98 | the handler appends exactly `DispatchPlan` to the provider's log, and nothing when no token was found |

## Left out

- SDK setup and singletons (`admin.initializeApp()`, `admin.firestore()`, `admin.messaging()`): foreign calls; the collection is the parameter `users` and the provider the `Messaging` object.
- The trigger wiring and `async`/`await`: queries and sends are modelled as happening in sequence, in the order the handler awaits them.
- Failure of a query or of a send: an exception would propagate to the platform, and the model has none; `SendEachForMulticast` states only the provider's size limits.
- The provider's per-token response `res`, the commented-out invalid-token cleanup and the `console.log` before the early return: they do not affect what is sent.
- The Android delivery hints (`priority: "high"`, `channelId: "default_channel"`): constants of every request, not part of `Multicast`.
- JavaScript coercions: fields are `Option<string>`, `Option<seq<string>>` and `bool`, so `.toString()` on non-string values, the truthiness of non-boolean `targetAll` values and non-string tokens are not modelled; an absent `targetAll` is `false`.
- `NotificationBody`: lengths count characters of `seq<char>`, not the UTF-16 code units that `length` and `substring` count.
- `Directory.WhereIn`: the backend's own result order (by document id) is taken to be the order of the `users` sequence.
