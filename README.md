# Distortioner, modelled in Dafny

Distortioner is a Telegram bot that "distorts" the media and text users send
it. This project models the parts of the bot that decide things rather than
move bytes:

- **The fair job queue** (`app/queue`). Video jobs wait in a binary heap
  ordered by (priority, insertion time). A job's priority is its owner's
  backlog when it was submitted, so every user's first job ties with
  everybody else's first job. Each time one of a user's jobs is served, that
  user's remaining jobs move up one level and are restamped. The queue also
  has a maintenance switch, a global limit of 2000 queued jobs, a per-user
  limit, banned users whose jobs are dropped, and priority chats that always
  go first. Go's `container/heap` algorithm (up, down, Push, Pop, Fix) is
  modelled too, because the queue's behaviour depends on it.
- **The rate limiter** (`app/tools/rate_limiter.go`). Each chat gets a
  300-second window that opens with its first message. The callers refuse
  the 4th and every later message inside a window.
- **The tools package** (`app/tools/tools.go`, and its older copy
  `app/tools.go`):
  - the classifier of user-facing errors;
  - the two media predicates;
  - the parser that pulls "N" out of Telegram's "retry after N (429)" errors;
  - the rate-limit reply.
- **Text distortion** (`text.go`), which alternates the case of the runes.
- **Download file names** (`tools.go`).

Each operation is written twice:

- A function on plain values (`PushStep`, `PopStep`, `RateStep`,
  `SiftedDown`, `Distorted`, ...). The lemmas state the properties against
  these functions.
- Where the source changes state, a class or method that does it in place:
  - `HonestJobQueue`, `PriorityQueue` and `RateLimiter` hold the fields the Go
    structs hold;
  - the `container/heap` routines run their loops over the queue object;
  - `DistortText` runs its loop with the rune counter.

  Each method is proved to leave exactly the state its function describes.

The Go integer types are modelled where their width matters (`GoInts`).
The `strconv` conversions the code calls are modelled too (`Strconv`): `Atoi`
and `FormatInt` on a 64-bit platform. So are the `strings` searches (`GoStrings`).

Two places where the queue does not do what it evidently means to are
listed under "## Findings". For each, the module `HonestQueueIntended`
shows the code as written going wrong on a concrete input and proves the
intended property of a corrected definition.

`time.Now()` is a logical clock: the queue's `clock` field holds the next
reading and advances by one on every reading. A closure is an opaque
`Runnable` handle.

## Model

| member | source | states |
|---|---|---|
| Jobs.NewJob | app/queue/job.go:12-19 | the new job carries the given owner, priority and closure, stamped with the current clock reading |
| Jobs.Run | app/queue/job.go:21-23 | running a job invokes its closure exactly once and has no other effect |
| PriorityQueues.JobLessIsLexicographic | app/queue/priority_queue.go:10-15 | `Less` is the lexicographic order on (priority, insertion time): a smaller priority first, then a strictly earlier stamp |
| PriorityQueues.JobLessIsStrictOrder | app/queue/priority_queue.go:10-15 | `Less` is irreflexive, asymmetric and transitive, and it decides every pair of jobs with distinct stamps, which is how insertion order is kept among equal priorities |
| PriorityQueues.SwappedPermutes | app/queue/priority_queue.go:17-19 | exchanging two positions keeps the same jobs |
| PriorityQueues.PriorityQueue.constructor | app/queue/honest_priority_queue.go:29 | a new slice is empty; the capacity is only a hint |
| PriorityQueues.PriorityQueue.Len | app/queue/priority_queue.go:8 | the number of queued jobs |
| PriorityQueues.PriorityQueue.Less | app/queue/priority_queue.go:10-15 | compares the jobs at two positions by the job order |
| PriorityQueues.PriorityQueue.Swap | app/queue/priority_queue.go:17-19 | the jobs at `i` and `j` are exchanged and nothing else changes |
| PriorityQueues.PriorityQueue.Push | app/queue/priority_queue.go:21-24 | the job is appended and the earlier ones are untouched |
| PriorityQueues.PriorityQueue.Pop | app/queue/priority_queue.go:26-33 | the last job is removed and returned, and the prefix is untouched |
| ContainerHeap.SiftedUpPermutes | app/queue/honest_priority_queue.go:136 | `up` only rearranges the jobs |
| ContainerHeap.SiftedDownPermutes | app/queue/honest_priority_queue.go:77 | `down` only rearranges the jobs |
| ContainerHeap.PushedHeapContents | app/queue/honest_priority_queue.go:136 | `heap.Push` adds exactly the new job |
| ContainerHeap.PoppedHeapContents | app/queue/honest_priority_queue.go:77 | `heap.Pop` removes exactly the job it returns |
| ContainerHeap.FixedHeapPermutes | app/queue/honest_priority_queue.go:55 | `heap.Fix` only rearranges the jobs |
| ContainerHeap.HeapRootIsMinimal | app/queue/honest_priority_queue.go:77 | no job in a heap goes ahead of its root |
| ContainerHeap.SiftedUpRestoresHeap | app/queue/honest_priority_queue.go:136 | `up` restores heap order when only the edge above the moved job may be broken |
| ContainerHeap.SiftedDownRestoresHeap | app/queue/honest_priority_queue.go:77 | `down` restores heap order around its start; when it does not move the job, the children already respect that job |
| ContainerHeap.PushedHeapKeepsHeap | app/queue/honest_priority_queue.go:136 | `heap.Push` on a heap gives a heap |
| ContainerHeap.PoppedHeapTakesMinimum | app/queue/honest_priority_queue.go:77 | `heap.Pop` on a heap returns the root, which no job goes ahead of, and leaves a heap of the rest |
| ContainerHeap.FixedHeapRestoresHeap | app/queue/honest_priority_queue.go:55 | `heap.Fix` restores heap order after one job changed; a job that only went up leaves every later position untouched |
| ContainerHeap.Up | app/queue/honest_priority_queue.go:136 | the loop over `Less`/`Swap` leaves exactly what `SiftedUp` describes |
| ContainerHeap.Down | app/queue/honest_priority_queue.go:77 | the loop leaves exactly what `SiftedDown` describes, and it reports a move exactly when the job moved |
| ContainerHeap.Push | app/queue/honest_priority_queue.go:136 | `heap.Push` appends and sifts up, as `PushedHeap` describes |
| ContainerHeap.Pop | app/queue/honest_priority_queue.go:77 | `heap.Pop` swaps the root to the end, sifts down and removes the last job, as `PoppedHeap` describes |
| ContainerHeap.Fix | app/queue/honest_priority_queue.go:55 | `heap.Fix` sifts down, or else up, as `FixedHeap` describes |
| HonestQueue.Promoted | app/queue/honest_priority_queue.go:51-53 | a promoted job keeps its owner and closure, goes up one priority level and is restamped |
| HonestQueue.Settled | app/queue/honest_priority_queue.go:86-90 | the served user's backlog drops by one and the entry is deleted at zero; other users' entries are unchanged |
| HonestQueue.PromotedAllAt | app/queue/honest_priority_queue.go:46-57 | the intended outcome of `updatePriorities`: every job of the user is promoted and stamped in position order, and the other jobs are unchanged |
| HonestQueue.PromotedFixStaysBehind | app/queue/honest_priority_queue.go:54-55 | the source comment's claim: after a promotion, `heap.Fix` only moves the job toward the root and leaves the positions after it untouched |
| HonestQueue.PromoteIsPromotedAll | app/queue/honest_priority_queue.go:46-57 | the loop keeps heap order, promotes each of the user's jobs exactly once (none is seen twice) and uses one clock reading per promoted job |
| HonestQueue.PromotedAllStamps | app/queue/honest_priority_queue.go:51-53 | restamped jobs get readings at or after the old clock, and every stamp stays below the new clock |
| HonestQueue.PushInMaintenance | app/queue/honest_priority_queue.go:110-112 | during maintenance Push fails and changes nothing |
| HonestQueue.PushQueueLimit | app/queue/honest_priority_queue.go:114-116 | Push fails for the global limit exactly when more than 2000 jobs are queued, and then it changes nothing |
| HonestQueue.PushAcceptedIff | app/queue/honest_priority_queue.go:106-139 | Push succeeds exactly when maintenance is off, at most 2000 jobs are queued and the computed priority is at most 2 |
| HonestQueue.PushAccepted | app/queue/honest_priority_queue.go:117-137 | an accepted Push adds exactly one job (caller, computed priority, current stamp), sets the backlog to priority + 1, lifts the caller's ban and keeps heap order |
| HonestQueue.PushFromPriorityChat | app/queue/honest_priority_queue.go:118-121 | a priority chat is never refused by the per-user limit whatever its backlog; the queue gains exactly one job, the chat's, with priority -2, and its backlog entry becomes -1 |
| HonestQueue.PushOverBacklog | app/queue/honest_priority_queue.go:123-126 | a user with a backlog of 3 or more is refused with no job added, and the refusal still lowers the backlog by one |
| HonestQueue.PushKeepsInv | app/queue/honest_priority_queue.go:106-139 | every outcome of Push keeps heap order and stamps below the clock |
| HonestQueue.PopBannedHeadDrains | app/queue/honest_priority_queue.go:77-84 | when the first popped job's owner is banned, Pop discards every queued job of every user and returns nil; backlogs and bans are untouched |
| HonestQueue.PopServesMinimum | app/queue/honest_priority_queue.go:77-91 | otherwise Pop returns the head, which no queued job goes ahead of, and settles the owner's backlog; bans, maintenance and priority chats are unchanged |
| HonestQueue.PopPromotesOwnersJobs | app/queue/honest_priority_queue.go:86-94 | after serving user U, the remaining jobs are the heap's rest with each of U's jobs promoted once; heap order and stamps are kept |
| HonestQueue.PopKeepsInv | app/queue/honest_priority_queue.go:73-95 | every outcome of Pop keeps heap order and stamps below the clock |
| HonestQueueIntended.CountOfMultiset | app/queue/honest_priority_queue.go:117-133 | the number of a user's queued jobs depends only on which jobs are queued, not on their heap positions |
| HonestQueueIntended.PushedHeapCount | app/queue/honest_priority_queue.go:135-136 | pushing a job onto the heap adds one to its owner's job count and nothing to anyone else's |
| HonestQueueIntended.PushRefusingCleanly | app/queue/honest_priority_queue.go:106-139 | Push with the refusal leaving the state untouched: it fails exactly when the source's Push fails, with the same error, and then changes nothing |
| HonestQueueIntended.CleanPushKeepsCounted | app/queue/honest_priority_queue.go:117-136 | with the corrected refusal, Push keeps every ordinary user's backlog equal to the number of that user's queued jobs |
| HonestQueueIntended.CleanPushKeepsCapped | app/queue/honest_priority_queue.go:117-136 | with the corrected refusal, Push keeps every ordinary user's queued jobs at most the backlog, and the backlog at most three |
| HonestQueueIntended.RefusalLetsFourthJobIn | app/queue/honest_priority_queue.go:123-136 | as written, a user with three counted jobs is refused, the refusal lowers the backlog, and the next Push is accepted, leaving four of the user's jobs queued against a backlog of three, which breaks the cap |
| HonestQueueIntended.PopSkippingBanned | app/queue/honest_priority_queue.go:36-37 | Pop dropping banned users' jobs as they come up never serves a banned user's job, keeps the bans, maintenance flag and priority chats, and takes at least one job out |
| HonestQueueIntended.PopSkippingBannedServesFirstAllowed | app/queue/honest_priority_queue.go:36-84 | the corrected Pop returns nil exactly when every queued job belongs to a banned user; otherwise it returns a queued job of a user who is not banned, and no such job goes ahead of it |
| HonestQueueIntended.BanDrainLosesWaitingJob | app/queue/honest_priority_queue.go:77-84 | with a banned user's job ahead of another user's job, the Pop as written returns nil and empties the queue, while the corrected Pop serves the other user's job |
| HonestQueueIntended.PromoteCount | app/queue/honest_priority_queue.go:46-57 | `updatePriorities` moves and restamps jobs but leaves every user's number of queued jobs unchanged |
| HonestQueueIntended.PoppedHeapCount | app/queue/honest_priority_queue.go:77 | `heap.Pop` takes exactly one job from its owner's count and none from anyone else's |
| HonestQueueIntended.PopKeepsCapped | app/queue/honest_priority_queue.go:73-95 | Pop as written keeps the cap on every outcome: serving settles the owner's backlog along with the count, and the ban drain only takes jobs away |
| HonestQueueIntended.PopSkippingBannedKeepsCapped | app/queue/honest_priority_queue.go:36-92 | the corrected Pop keeps the cap, each dropped job settling its owner's backlog as a served one does |
| HonestQueueIntended.CorrectedCallKeepsCapped | app/queue/honest_priority_queue.go:39-139 | every call (corrected Push and Pop, BanUser, ToggleMaintenance) keeps the cap |
| HonestQueueIntended.CorrectedRunKeepsCapped | app/queue/honest_priority_queue.go:39-139 | any run of calls keeps the cap |
| HonestQueueIntended.NeverOverThreeJobs | app/queue/honest_priority_queue.go:16 | from a new queue, whatever calls follow, no ordinary user ever has more than three jobs queued, as the backlog that tracks the user's queued jobs promises once refusals leave it alone |
| HonestQueue.HonestJobQueue.constructor | app/queue/honest_priority_queue.go:22-34 | a new queue is empty, not in maintenance and has no bans, and its priority chats are exactly the chats listed |
| HonestQueue.HonestJobQueue.Now | app/queue/honest_priority_queue.go:53 | a clock reading returns the current value and advances the clock by one, changing nothing else |
| HonestQueue.HonestJobQueue.BanUser | app/queue/honest_priority_queue.go:39-44 | the user is added to the banned set and nothing else changes |
| HonestQueue.HonestJobQueue.UpdatePriorities | app/queue/honest_priority_queue.go:46-57 | the loop leaves the queue and clock that `Promote` describes, and the backlogs, bans and flag are untouched |
| HonestQueue.HonestJobQueue.PromoteJobAt | app/queue/honest_priority_queue.go:48-55 | one iteration skips another user's job, or promotes, restamps and fixes the user's job |
| HonestQueue.HonestJobQueue.Len | app/queue/honest_priority_queue.go:59-64 | the number of queued jobs |
| HonestQueue.HonestJobQueue.Stats | app/queue/honest_priority_queue.go:66-71 | the number of queued jobs, and the number of users with a backlog entry |
| HonestQueue.HonestJobQueue.Pop | app/queue/honest_priority_queue.go:73-95 | Pop leaves the state and returns the job that `PopStep` describes, with the ban condition read only once, and heap order is kept |
| HonestQueue.HonestJobQueue.Serve | app/queue/honest_priority_queue.go:86-92 | settles the served user's backlog and promotes that user's jobs, as `Served` describes |
| HonestQueue.HonestJobQueue.ToggleMaintenance | app/queue/honest_priority_queue.go:97-104 | flips the flag and returns its new value; nothing else changes |
| HonestQueue.HonestJobQueue.Push | app/queue/honest_priority_queue.go:106-139 | Push leaves the state and returns the error that `PushStep` describes, and heap order is kept |
| HonestQueue.HonestJobQueue.Admit | app/queue/honest_priority_queue.go:128-136 | lifts the ban, records the backlog, stamps the job and pushes it, as `Admitted` describes |
| HonestQueueScenarios.InsertionOrder | app/queue/honest_priority_queue_test.go:9-20 | users 1, 2 and 3 each push one job: three are queued, they come out as 1, 2, 3, and the queue is then empty |
| HonestQueueScenarios.RepeatUsers | app/queue/honest_priority_queue_test.go:22-44 | pushes by users 1, 1, 1, 3, 2, 2 queue six jobs, which come out as 1, 3, 2, 1, 2, 1 |
| GoInts.Wrap64 | app/tools/rate_limiter.go:40 | an `int64` subtraction gives a value in range, equal to the exact one when that fits and congruent to it modulo 2^64 |
| Strconv.FormatInt | tools.go:12 | `FormatInt` writes a '-' exactly for negative numbers, then the digits of the absolute value with no leading zero (a lone '0' for zero), so its length is the digit count plus one for the sign |
| Strconv.NatDigitsValue | tools.go:12 | the digits written for a natural number read back as that number |
| Strconv.Atoi | app/tools/tools.go:110 | `Atoi` always returns an `int64`; its error names the whole input, and a syntax error comes with 0 |
| Strconv.AtoiSucceedsIff | app/tools/tools.go:110 | `Atoi` succeeds exactly on an optional sign followed by digits whose value fits in 64 bits, and it then returns that value |
| Strconv.AtoiOutOfRange | app/tools/tools.go:110 | a decimal literal out of range is a range error, clamped to the nearer bound |
| Strconv.AtoiFormatInt | app/tools/tools.go:110 | `Atoi` reads back every 64-bit number that `FormatInt` writes |
| GoStrings.LastIndex | app/tools/tools.go:102-106 | the result is -1 or an occurrence, and no occurrence starts later |
| GoStrings.Contains | app/tools/tools.go:98 | true exactly when some occurrence exists |
| Tools.GetUserFriendlyErr | app/tools/tools.go:37-45 | as written, only the not-supported error is shown verbatim (flag true); every other error gives "Failed" and false |
| Tools.FriendlyErr | app/tools/tools.go:37-45 | the corrected classifier shows all three listed errors verbatim and gives "Failed" for the rest |
| Tools.FriendlyErrAsWrittenDiffers | app/tools/tools.go:37-45 | the two classifiers differ exactly on the too-big and failed-download errors |
| Tools.IsMedia | app/tools/tools.go:53-58 | true exactly for a non-nil message carrying a photo, video, video note or voice |
| Tools.IsNonMediaMedia | app/tools/tools.go:60-65 | true exactly for a non-nil message carrying an animation or a sticker |
| Tools.SingleAttachmentClassified | app/tools/tools.go:53-65 | for a message with one attachment, the kind alone decides each predicate, and never both hold |
| Tools.TimeoutEnd | app/tools/tools.go:106-109 | the number ends at the last " (", or at the end of the text; it is always a valid position |
| Tools.ExtractPossibleTimeout | app/tools/tools.go:95-111 | the timeout is always an `int64`, and when the error comes back unchanged the timeout is 0 |
| Tools.TimeoutCases | app/tools/tools.go:95-111 | the error comes back unchanged exactly when the text mentions "kicked" or has no "after ". Otherwise the result is `Atoi`'s on the text between them, and it is a timeout exactly when that text is a 64-bit decimal |
| LegacyTools.ExtractPossibleTimeout | app/tools.go:46-62 | the older copy in the main package returns, on every input, exactly what the tools package's parser returns, so every case above holds for it too |
| Tools.KickedIsUnchanged | app/tools/tools.go:98-100 | any text that mentions "kicked" comes back unchanged with timeout 0, whatever else it says |
| Tools.RetryAfterParses | app/tools/tools.go:95-111 | "... after N (code)" yields N and no error for every 64-bit N and every numeric code |
| Tools.RetryAfterParsesAtEnd | app/tools/tools.go:106-110 | "... after N" without a code yields N when nothing before it opens a parenthesis |
| Tools.RetryAfter5 | app/tools/tools_test.go:9-13 | "telegram: retry after 5 (429)" yields 5 and no error |
| Tools.RetryAfter10 | app/tools/tools_test.go:14-18 | "telegram: retry after 10 (429)" yields 10 and no error |
| Tools.RetryAfter24 | app/tools/tools_test.go:20-24 | "retry after 24 (429)" yields 24 and no error |
| Tools.RetryAfter50 | app/tools/tools_test.go:26-30 | "retry after 50" yields 50 and no error |
| Tools.RetryAfterWithoutNumber | app/tools/tools_test.go:31-35 | "retry after" yields 0 and the error itself |
| Tools.RetryWhenKicked | app/tools/tools_test.go:36-40 | the "bot was kicked" error yields 0 and the error itself |
| Tools.RateLimitResponseNamesWait | app/tools/tools.go:113-115 | the reply is the fixed sentence around a number that reads back as the wait |
| RateLimiting.RateStep | app/tools/rate_limiter.go:27-54 | a call adds the caller's entry and leaves every other chat's entry alone; the count returned is the one stored, and the wait is an `int64` |
| RateLimiting.RateStepCountsPositive | app/tools/rate_limiter.go:30-52 | stored counts stay positive, and so does the returned count |
| RateLimiting.FirstMessage | app/tools/rate_limiter.go:30-37 | a chat's first message opens a window at its time with count 1 and wait 0 |
| RateLimiting.WithinWindow | app/tools/rate_limiter.go:40-53 | inside the window, the window is kept, the count goes up by one, and the wait is the time left in it (1 to 300 seconds) |
| RateLimiting.NewWindow | app/tools/rate_limiter.go:40-53 | 300 seconds or more after the window opened, a new window opens at the message's time with count 1, and the wait is not positive |
| RateLimiting.ClockWentBack | app/tools/rate_limiter.go:40-53 | a timestamp before the window's start still counts in the old window, and the wait exceeds 300 |
| RateLimiting.BurstInWindowCounts | app/tools/rate_limiter.go:27-54 | inside one window the count goes up by one per call, refused calls included |
| RateLimiting.BurstFromNewChat | app/tools/rate_limiter.go:7-8 | a new chat's messages within 300 seconds of its first get counts 1, 2, 3, ...; the first 3 are allowed and every later one is refused |
| RateLimiting.RateLimiter.constructor | app/tools/rate_limiter.go:20-25 | a new limiter has no windows |
| RateLimiting.RateLimiter.GetRateOverPeriod | app/tools/rate_limiter.go:27-54 | the call leaves the map and returns the count and wait that `RateStep` describes |
| Text.ToUpper | text.go:13 | an upper-cased rune is not lower case; a lower-case letter becomes upper case, and every other rune is unchanged |
| Text.ToLower | text.go:15 | a lower-cased rune is not upper case; an upper-case letter becomes lower case, and every other rune is unchanged |
| Text.CaseRoundTrip | text.go:12-15 | changing a rune's case and changing it back gives the rune in that case |
| Text.Distorted | text.go:8-17 | the result has as many runes as the input |
| Text.DistortText | text.go:8-17 | the loop with its rune counter returns exactly `Distorted(text)` |
| Text.DistortedShape | text.go:8-17 | the result spells the input up to case; the 2nd, 4th, ... runes hold no lower-case letter, and the 1st, 3rd, ... no upper-case one |
| Text.DistortIdempotent | text.go:8-17 | distorting a distorted text changes nothing |
| Text.DistortAppendEven | text.go:9-11 | after a piece of even length, the alternation carries on as if each piece were distorted alone |
| FileNames.UniqueFileName | tools.go:11-13 | the name starts with the file id; the character right after the id is '-' exactly for a negative timestamp; the length is the id's plus the timestamp's digit count, plus one when it is negative |
| FileNames.TimestampReadsBack | tools.go:11-13 | what follows the file id reads back as the timestamp |
| FileNames.DistinctTimestamps | tools.go:11-13 | for one file id, different timestamps give different names |
| FileNames.IdsCanCollide | tools.go:11-13 | the name does not mark where the id ends: ids "AgAD1" at 23 and "AgAD" at 123 get the same name |

## Left out

- Locking: the queue's `RWMutex` and the limiter's `Mutex` are not modelled. The model is single-threaded, and every call is atomic.
- The video worker (`app/tools/video_worker.go`) is not part of this model. It has two hazards:
  - Its channel holds 300 submissions while the queue admits up to 2001 jobs, so `Submit` can block.
  - Its loop calls `Run` on the result of `Pop` without checking for nil, and after a ban drain `Pop` returns nil.
- The bot and network plumbing, the ffmpeg wrappers, downloads and the SQLite statistics are I/O. They are not modelled.
- `GenerateProgressMessage` computes with floating point. It is not modelled.
- `JustGetTheMedia` and `JustGetTheFile` are download plumbing. Only the errors they return appear, as `Tools.BotError`.
- Wall-clock time: `time.Now()` is a logical counter, and `utc` is a parameter of the limiter.
- Closures are opaque handles (`Jobs.Runnable`). Running a job is recorded in a log and nothing more.
- Text.ToUpper: models `unicode.ToUpper` for the ASCII letters and the Cyrillic block U+0400 to U+045F only. Other scripts' case tables are not modelled.
- Text.ToLower: models `unicode.ToLower` for the ASCII letters and the Cyrillic block U+0400 to U+045F only, for the same reason.
- Text.DistortText: strings are sequences of runes. Invalid UTF-8, which `strings.Map` turns into U+FFFD, is not modelled.
- GoStrings.LastIndex: works on runes rather than bytes. Every pattern searched for is ASCII, so the matches and slices are the same.
- Tools.ExtractPossibleTimeout: Go panics when the last " (" comes before the number's start. The model makes that a precondition instead of a panic.
- Strconv.Atoi: modelled as `ParseInt(s, 10, 0)`. Go's fast path for short inputs is not written separately, since it gives the same value and error.
- RateLimiting.RateStep: `Count + 1` is not wrapped at 2^63. A window would need that many messages.
- RateLimiting.NewWindow: stated only while `utc - StartUtc` fits in an `int64`. Past that the difference wraps negative and the message counts in the old window.
- HonestQueue.HonestJobQueue.Pop: requires a non-empty queue, because `heap.Pop` panics on an empty one.
- HonestQueue.HonestJobQueue.constructor: takes the priority chats as a parameter, as the queue's source does. The queue's tests call the constructor with a single argument.
- HonestQueueIntended.PopSkippingBanned: drops the banned users' jobs as the comment on `BanUser` (app/queue/honest_priority_queue.go:36-37) says, but does not lift a ban once the user's last job has been popped, which the same comment promises at line 38. The source never lifts it there either: only the user's next Push does (lines 128-131), and the model keeps that.
- HonestQueueIntended.CorrectedCall: a Pop on an empty queue, where Go's `heap.Pop` panics, leaves the state unchanged in a run of calls.
- Backlog counters are unbounded integers, since they never come near the `int` range.

## Findings

| source | as written | input that shows it | evidently intended | confidence | as-written member | corrected member |
|---|---|---|---|---|---|---|
| app/tools/tools.go:37-45 | the cases for `TooBigErr` and `FailedToDownloadErr` are empty, and a Go `case` does not fall through, so those errors give ("Failed", false) | `TooBigErr` gives ("Failed", false) | the three listed errors share the body that returns their text and true | high; not executed | Tools.GetUserFriendlyErr, Tools.FriendlyErrAsWrittenDiffers | Tools.FriendlyErr |
| app/queue/honest_priority_queue.go:79-84 | the ban condition is read once before the loop, so when the first popped job's owner is banned the loop pops every remaining job and returns nil | a banned user's job at the head with another user's job behind it: the other job is discarded and Pop returns nil | only the banned users' jobs are dropped as they come up, and the first job of a user who is not banned is served (the comment at lines 36-38) | high; not executed | HonestQueue.PopBannedHeadDrains, HonestQueueIntended.BanDrainLosesWaitingJob | HonestQueueIntended.PopSkippingBanned, HonestQueueIntended.PopSkippingBannedServesFirstAllowed |
| app/queue/honest_priority_queue.go:123-126 | a refused Push still decrements the user's backlog, which then counts fewer jobs than the user has queued | a user with three queued jobs pushes twice: the first is refused, the second is accepted, and four jobs are queued | a refusal leaves the backlog alone, so a user never has more than three jobs queued | medium; not executed | HonestQueue.PushOverBacklog, HonestQueueIntended.RefusalLetsFourthJobIn | HonestQueueIntended.PushRefusingCleanly, HonestQueueIntended.CleanPushKeepsCapped, HonestQueueIntended.NeverOverThreeJobs |
