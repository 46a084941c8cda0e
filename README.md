# Pack bot: a Dafny model

The system is a Telegram bot for one administrator. The administrator builds
**packs**. A pack is a named list of blocks; each block is a photo with its
attachments (videos, and subtitle documents whose caption starts with
`SUBTITLE:`). The bot publishes a pack to a channel, either at once or at a
scheduled time. For each block it sets the channel's profile photo and then
sends the attachments, with their captions cleaned: every `@user` mention and
every `t.me` link becomes the channel's own handle. A second feature, the
"pro mode" mirror task, signs in as a user account. It scans a source channel
from a start message and copies each "channel photo changed" message, together
with the video or document that follows it, to the bot's channel.

The model covers these parts:

- **`PackStore`** (`database.dfy`): the pack collection and its operations.
  The class `Store` holds the packs in insertion order, with a counter for
  block ids. Create, add photo, add video, list, get, delete pack and delete
  photo are methods and functions over that state. The newest-first listing
  is proved to be a sorted permutation, and block ids round-trip through
  their 24-digit hex text.
- **`Captions`** (`captions.dfy`): `clean_caption` as a left-to-right scanner
  for the pattern `@\w+|https?://t\.me/\S+`. Lemmas describe what it replaces,
  what it keeps, and that it is idempotent.
- **`Publisher`** (`publisher.dfy`): `_publish_pack_logic`.
  - Every transport call takes its outcome (`Ok`, `RetryAfter`, `Failed`)
    from an oracle sequence.
  - The run is a trace of events: channel traffic, temporary files and
    notices to the requester.
  - Tail-recursive specification functions define the trace, and methods
    with loops are proved to produce it.
  - A flag says when `photo_sent` is set: `AfterNotice` after the progress
    notice, as the code is written, or `AfterSetPhoto` once the channel
    photo has changed, which is the correction of a finding below.
  - Lemmas cover the channel traffic of each item under either flag, the
    retries and skips, temporary-file removal and the final report.
- **`Jobs`** (`jobs.dfy`): scheduler job ids `pack:<name>:<timestamp>`, the
  prefix test that removes a deleted pack's jobs, and reading a pack name back
  out of an id.
- **`Menus`** (`menus.dfy`): page slicing of the pack list and its
  schedule annotations, the 4000-character split of error reports, and
  month navigation in the calendar.
- **`Conversation`** (`conversation.dfy`): the session dictionary as a value,
  and the text, photo, video and document dispatchers and flow handlers as
  functions over it. The class `Bot` applies them to its `session` and `jobs`
  fields while it calls the store.
- **`Mirror`** (`mirror.dfy`): the block-selection loop of `run_mirror_task`.
  - The source channel is a sequence of messages.
  - Each user-client call takes its outcome (`Done`, `FloodWait`, `Raised`)
    from an oracle.
  - The notices to the requester and the channel effects form the trace.
  - A mode says how the follower lookup is read: `Stale`, as the code is
    written, keeps the previous block's `video_msg` when nothing follows a
    photo change; `Fresh`, the correction of a finding below, skips it.

`Strings` (`strings.dfy`) and `Wrappers` (`wrappers.dfy`) are shared helpers.
`Strings` holds integer printing and parsing, stripping, the last
`/`-separated field and the 300-character truncation.

## Model

| member | source | states |
|---|---|---|
| Strings.Strip | bot.py:391 | the stripped name is the input without its surrounding whitespace: it starts right after the leading whitespace, only whitespace follows it, and it neither starts nor ends with whitespace |
| Strings.StripUnpadded | bot.py:391 | a name with no surrounding whitespace is kept as typed |
| Strings.IntToStringRoundTrip | bot.py:230 | `int()` reads back every integer that `str()` printed |
| Strings.IntToStringInjective | bot.py:728 | two different timestamps never print the same |
| Strings.LastField | pro_mode.py:39 | `split('/')[-1]` is a suffix of the link with no `/` in it: the whole link when it has no `/`, and otherwise the part right after its last `/` |
| Strings.Truncate300 | pro_mode.py:94-95 | an error text of up to 300 characters is kept; a longer one becomes its first 300 characters followed by `...` |
| Strings.ReplaceAll | bot.py:113 | a caption that starts with the subtitle marker starts with the replacement label afterwards, and a text without the marker is left unchanged |
| Strings.Find | bot.py:113 | the leftmost occurrence of the marker, or none when the text does not contain it |
| Strings.ReplaceIsSplitJoin | bot.py:113 | replacing every occurrence from left to right is splitting at the marker and joining the parts with the label, which is how `str.replace` is defined |
| Strings.SplitJoinRoundTrip | bot.py:113 | splitting at the marker and joining with it gives the text back, so the parts are exactly the text between occurrences |
| Captions.CleanReplacesMention | bot.py:75-78 | `@` followed by a maximal run of word characters becomes the handle, and the rest is cleaned after it |
| Captions.CleanReplacesLink | bot.py:77-78 | an `http://t.me/` or `https://t.me/` link, up to the next whitespace, becomes the handle |
| Captions.CleanKeepsUnmatched | bot.py:78 | a character at which no match starts is copied unchanged |
| Captions.CleanKeepsInertText | bot.py:78 | text with no `@` and no `h` passes through unchanged |
| Captions.CleanOutputPrefix | bot.py:78 | a cleaned prefix with no `@` was copied verbatim from the input |
| Captions.CleanIdempotent | bot.py:75-78 | cleaning a cleaned caption changes nothing |
| Captions.CleanCaptionIdempotent | pro_mode.py:22-25 | the same for a possibly missing caption; a missing or empty caption gives the empty text |
| PackStore.FirstByName | database.py:81 | the index of the first pack with that name, or none when no pack has it |
| PackStore.FindOwned | database.py:86 | the first pack with that name and owner, or none when there is no such pack |
| PackStore.FirstWithBlock | database.py:68-71 | the first pack with that name that holds a block with that id, or none |
| PackStore.WithoutBlock | database.py:97-100 | `$pull` keeps exactly the blocks with a different id, and the result is shorter exactly when the id was present |
| PackStore.WithoutBlockAppend | database.py:97-100 | `$pull` works block by block: on two lists in a row it gives the two results in a row, so the kept blocks stay in stored order |
| PackStore.WithoutBlockSingle | database.py:97-100 | a single block is kept exactly when its id differs from the pulled one |
| PackStore.SortIsNewestFirstPermutation | database.py:76 | sorting by creation time, newest first, is sorted and a permutation |
| PackStore.InsertIsPermutation | database.py:76 | one insertion step of the sort adds the pack and keeps every other pack |
| PackStore.InsertKeepsOrder | database.py:76 | one insertion step of the sort keeps the list newest first |
| PackStore.ObjectIdRoundTrip | database.py:96 | `ObjectId(str(id))` gives back the block id |
| PackStore.ParseObjectId | database.py:95-96 | a text parses exactly when it is 24 hex digits, and then to its hex value, which fits in 96 bits |
| PackStore.OwnedSorted | database.py:74-77 | the listing holds exactly the user's packs, newest first |
| PackStore.ListingIsExact | database.py:74-77 | a name is listed exactly when one of the user's packs has it, once per pack |
| PackStore.Store.constructor | database.py:24-28 | the store starts empty |
| PackStore.Store.CreatePack | database.py:36-47 | a pack is added, empty and stamped with its creation time, exactly when the (name, owner) pair is free; otherwise nothing changes |
| PackStore.Store.AddPhoto | database.py:49-60 | a block with a fresh id goes to the end of the first pack with that name; the call fails and changes nothing when there is no such pack |
| PackStore.Store.AddVideo | database.py:62-72 | the video goes to the end of the first matching block of the first pack with that name holding that id; the call fails and changes nothing otherwise |
| PackStore.Store.GetPackForSending | database.py:79-82 | the content of the first pack with that name, or none when no pack has the name |
| PackStore.Store.GetPackDetails | database.py:84-86 | a pack with that name and owner, or none when there is none |
| PackStore.Store.DeletePack | database.py:88-91 | the first pack with that name and owner is removed, and the call succeeds exactly when one existed |
| PackStore.Store.DeletePhoto | database.py:93-104 | an id that does not parse, or a missing pack, fails and changes nothing; otherwise every block with the id leaves the first pack with that name, and the call succeeds exactly when one was there |
| Publisher.Delivery | bot.py:112-115 | an attachment whose caption starts with `SUBTITLE:` goes out as a document labelled `Subtítulo:`, whose caption is the stored one with every marker renamed and nothing cleaned; any other goes out as a video with the cleaned caption |
| Publisher.SubtitleCaptionKept | bot.py:112-113 | a subtitle stored as the marker followed by a text goes out as `Subtítulo:` followed by that same text, handles and links included |
| Publisher.Prepare | bot.py:109-115 | a block's attachments go out one message each, in stored order |
| Publisher.Items | bot.py:87-89 | the pack's blocks are published in order, numbered by position |
| Publisher.PublishPack | bot.py:81-137 | for the pack the store returns, the loop over items produces exactly the specified trace; with the `AfterNotice` flag that is the code as written, with `AfterSetPhoto` the corrected publisher |
| Publisher.PublishItem | bot.py:90-133 | under either flag, the attempt loop of one item produces exactly the specified trace and oracle position |
| Publisher.RunAttempt | bot.py:94-120 | under either flag, one pass through the `try` body produces exactly the specified pass |
| Publisher.RunPhotoStep | bot.py:95-107 | the photo step produces exactly the specified pass; as written (`AfterNotice`) the photo counts as sent only once the progress notice went out |
| Publisher.RunAttachments | bot.py:109-117 | the attachment loop from `video_index` produces exactly the specified pass |
| Publisher.SendAttachmentsEvents | bot.py:110-116 | what a pass sent, followed by what it did not reach, is every attachment from `video_index` on |
| Publisher.PhotoStepTemp | bot.py:96-107 | the temporary photo file is removed on every way out of the step that wrote it |
| Publisher.PhotoStepChannel | bot.py:102-104 | with the corrected flag, the channel photo was set exactly when the step marks the photo sent |
| Publisher.AttemptShape | bot.py:94-130 | a pass sends no notices of its own, takes its outcomes in order and leaves no temporary file |
| Publisher.AttemptsChannel | bot.py:93-133 | with the corrected flag, over the remaining attempts the channel gets a prefix of what the item still owed, and all of it unless the item was skipped or given up |
| Publisher.AttemptsRetries | bot.py:122-125 | the retry notices match the `RetryAfter` outcomes consumed, there are at most five, and the give-up notice comes exactly when every attempt was rate-limited |
| Publisher.AttemptsFailures | bot.py:127-130 | an item is skipped at most once, exactly when a call failed outright, and the skip ends the item |
| Publisher.AttemptsTidy | bot.py:93-133 | an item's events are all about that item, with no run-level report among them |
| Publisher.ItemRunChannel | bot.py:93-133 | with the corrected flag, one item puts a prefix of its photo and attachments on the channel, in order and never twice, and all of it unless it was skipped or given up |
| Publisher.AttemptsPhotos | bot.py:93-133 | under either flag, the attempts from `video_index` on change the channel photo at most once each and never once it counts as sent, then send each later attachment at most once and in order; unless the item is skipped or given up, the photo went out and every attachment did |
| Publisher.ItemRunPhotos | bot.py:93-133 | under either flag, so for the code as written: each attachment reaches the channel at most once and in order, after at most five copies of the photo; unless skipped or given up, the photo went out and every attachment did |
| Publisher.PhotoSetTwiceAsWritten | bot.py:103-104 | as written, a `RetryAfter` on the progress notice makes the next attempt set the channel photo a second time |
| Publisher.ItemRunOfItem | bot.py:88-135 | an item's run is about that item alone |
| Publisher.PublishFromOfItem | bot.py:87-135 | the events about item `m` are exactly that item's own run, started where the earlier items left the oracle |
| Publisher.PublishFromReports | bot.py:87-137 | a non-empty pack ends with exactly one completion notice and no empty-pack notice |
| Publisher.PublishReports | bot.py:82-85 | a run ends with one report: the empty-pack error when the pack is missing or has no blocks, otherwise the completion notice, never both |
| Publisher.PublishedItem | bot.py:87-135 | under either flag, every item of a published pack puts some copies of its photo, then its attachments in order and each at most once, on the channel, all of them unless skipped or given up; at most five retry notices, one skip, and every temporary file removed |
| Publisher.PublishedItemCorrected | bot.py:87-135 | with the corrected flag, every item of a published pack gets a prefix of its photo and attachments, never anything twice, and all of it unless skipped or given up |
| Jobs.StampText | bot.py:728 | a printed timestamp is non-empty and has no colon |
| Jobs.JobIdInjective | bot.py:728-730 | two jobs share an id only when they are for the same pack at the same time, so `replace_existing` only replaces a job for that pack and time |
| Jobs.BelongsToIff | bot.py:375-377 | deleting pack `name` removes the jobs of pack `m` exactly when `m` is `name` or starts with `name:` |
| Jobs.DeleteTakesColonNames | bot.py:376 | deleting pack `a` also removes the jobs of a pack named `a:b` |
| Jobs.WithoutPackJobs | bot.py:375-377 | after the removal, exactly the jobs that fail the prefix test remain, unchanged |
| Jobs.BeforeColon | bot.py:316 | the text before the first colon is present exactly when the text has a colon, and contains no colon itself |
| Jobs.ScheduledName | bot.py:314-316 | a name read from a job id sits between `pack:` and the next colon |
| Jobs.ScheduledNameOfJobId | bot.py:314-316 | a name without a colon is read back from its own job id; a name with a colon is read back as its text before the first colon |
| Menus.Page | bot.py:320-324 | the page holds up to five packs: the list's elements from `page*5` on, with Python's slice clamping |
| Menus.NextIffMore | bot.py:334 | the "next" button appears exactly when the next page has something to show |
| Menus.PrevPageFull | bot.py:333 | the page that "previous" leads to from a non-empty page is full |
| Menus.PagesCoverAll | bot.py:320-324 | paging from a page to the end shows every remaining pack once, in list order |
| Menus.CollectScheduled | bot.py:311-319 | the loop over the jobs builds exactly the annotation map |
| Menus.ScheduledIffNamed | bot.py:313-318 | a pack is annotated exactly when some job id names it |
| Menus.ScheduledIsLastJob | bot.py:313-318 | an annotated pack carries the run time of the last job in the list that names it |
| Menus.ScheduledPackAnnotated | bot.py:728 | a newly scheduled pack whose name has no colon is annotated with that job's time |
| Menus.PackButton | bot.py:330-331 | a button shows the pack name, plus the run time exactly when the pack is scheduled, and selects that pack |
| Menus.ListingOf | bot.py:325-336 | no packs gives the empty listing; otherwise one button per pack of the page, in order, with "previous" exactly when the page is past the first and "next" exactly when packs follow |
| Menus.PackListMarkup | bot.py:310-337 | the listing method returns exactly the listing of the page with the jobs' annotations |
| Menus.Chunks | bot.py:62 | the pieces join back into the report, none is empty, none exceeds 4000 characters, all but the last have exactly 4000, and there are ceil(length/4000) of them |
| Menus.PrevMonth | bot.py:671 | the previous month exists exactly for valid months other than January of year 1, and its month number is one less |
| Menus.NextMonth | bot.py:672 | the next month exists exactly for valid months other than December of year 9999, and its month number is one more |
| Menus.MonthNumberInjective | bot.py:671-672 | two valid months with the same number are the same month |
| Menus.NavigationRoundTrip | bot.py:671-675 | "<<" then ">>", or ">>" then "<<", returns to the month shown |
| Conversation.RouteText | bot.py:154-179 | a text goes to a menu action exactly when it is one of the six menu texts |
| Conversation.PositiveCount | bot.py:229-235 | the count is accepted exactly when `int()` parses it and it is positive |
| Conversation.MenuTextsComeFirst | bot.py:158-169 | a menu text is routed the same way in every state; finish, cancel and the pack list clear the session, pro mode starts with only the link state, and no menu text launches the mirror task |
| Conversation.EditorIgnoresText | bot.py:178-179 | while a pack is being built, a non-menu text only re-prompts and changes nothing |
| Conversation.PackNameOutcome | bot.py:390-401 | an empty or taken name keeps waiting for a name; otherwise the session enters creation mode for that name with no current photo |
| Conversation.PostCountOutcome | bot.py:227-255 | a positive count launches the mirror task from the stored link and clears the session; anything else keeps waiting |
| Conversation.SourceLinkOutcome | bot.py:211-219 | a link without `t.me` or without `/` is refused; otherwise it is stored and the count is asked for |
| Conversation.AfterTextOk | bot.py:154-179 | every text keeps the keys each state needs present in the session |
| Conversation.VideoRouteIff | bot.py:187-193 | a video is attached exactly when the editor has a current photo or the session is adding videos to a chosen photo, and then to that photo of the session's pack; no key is ever missing |
| Conversation.PhotoThenVideo | bot.py:441-446 | after a photo is stored in the editor, the next video goes to that photo |
| Conversation.SubtitleCaption | bot.py:534 | a stored subtitle's caption starts with `SUBTITLE:` |
| Conversation.DocumentOutcome | bot.py:195-197 | a document is taken only while a subtitle is awaited, and that flow always ends with a cleared session |
| Conversation.ScheduledJob | bot.py:715-730 | a scheduled job is for the session's pack, reports to the calling chat and runs no earlier than now |
| Conversation.ScheduleOutcome | bot.py:715-730 | a missing session key or a date that does not exist schedules nothing; with all keys, a past time leaves the jobs unchanged, and any other time adds exactly the pack's job at the chosen local time under `pack:<name>:<timestamp>` |
| Conversation.AddJobKeepsOthers | bot.py:728-730 | adding a job keeps every job for another pack or time, keeps one job per id, and grows the store by at most one |
| Conversation.WithoutPackJobsKeyed | bot.py:374-377 | removing a pack's jobs keeps no job for that pack or for a pack named `name:...` |
| Conversation.Bot.constructor | bot.py:40-41 | a new bot has an empty store, an empty session and no jobs |
| Conversation.Bot.HandleText | bot.py:154-179 | the route, the launch, the new session and the store are those of the text dispatcher; only a successful pack name adds a pack |
| Conversation.Bot.HandlePhoto | bot.py:181-185 | in the editor the photo is stored in the session's pack and becomes the current photo; otherwise nothing changes |
| Conversation.Bot.HandleVideo | bot.py:187-193 | an attached video goes to the session's photo with its caption, or the empty caption when there is none; the session never changes |
| Conversation.Bot.HandleDocument | bot.py:529-539 | the subtitle is stored exactly when a subtitle was awaited, the photo id parses and a pack with that name holds the photo; it goes to that photo with the `SUBTITLE:` caption, and the session is cleared whatever happened |
| Conversation.Bot.ClearSession | bot.py:461-468 | finishing or cancelling empties the session and leaves the jobs |
| Conversation.Bot.EditPackStart | bot.py:406-412 | editing starts on the chosen pack with no current photo |
| Conversation.Bot.PhotoAddStart | bot.py:432-437 | adding a photo starts editing the pack and keeps the current photo |
| Conversation.Bot.VideoAddStart | bot.py:488-494 | adding videos targets the chosen photo; an id that does not parse clears the session |
| Conversation.Bot.SubtitleStart | bot.py:519-525 | a subtitle upload or search targets the chosen photo by its id text |
| Conversation.Bot.ScheduleStart | bot.py:678-683 | scheduling starts for the chosen pack |
| Conversation.Bot.CalendarDay | bot.py:696-702 | a day sets a fresh date with no hour; a session without the pack to schedule is cleared |
| Conversation.Bot.TimeHour | bot.py:705-709 | the hour is added to the chosen date; a session without a date is cleared |
| Conversation.Bot.TimeMinute | bot.py:715-736 | the jobs become `AddJob(old jobs, ScheduledJob(...))`, which ScheduleOutcome pins down for every case, and the session is cleared on every outcome |
| Conversation.Bot.DeletePackDo | bot.py:371-381 | the pack and its jobs go exactly when the store deleted the pack; otherwise nothing changes |
| Conversation.Bot.RemovePackJobs | bot.py:375-378 | the loop removes exactly the jobs that pass the prefix test |
| Mirror.After | pro_mode.py:47 | reading after a message yields exactly the later messages, in order |
| Mirror.AfterAppend | pro_mode.py:47 | reading two stretches of history in a row reads the first, then the second, so messages come oldest first in channel order |
| Mirror.AfterSingle | pro_mode.py:47 | one message is read exactly when its id is larger than the offset |
| Mirror.Window | pro_mode.py:47 | the scan reads the first `post_count * 5` of the messages after the start, or all of them when there are fewer |
| Mirror.Follower | pro_mode.py:58-59 | the lookup finds a later message, and finds none exactly when nothing follows |
| Mirror.FollowerFirst | pro_mode.py:58-59 | the message found is the one immediately after the photo change: no earlier message of the channel has a larger id |
| Mirror.Failure | pro_mode.py:90-97 | a call that fails inside a block always leaves a flood-wait notice or an error notice |
| Mirror.SendContent | pro_mode.py:80-87 | the send delivers the follower with its cleaned caption and counts one block, or fails with a notice and counts nothing; a notice appears exactly when nothing was counted |
| Mirror.PhotoUpdate | pro_mode.py:69-77 | the download, upload and photo edit send no content, and set the channel photo only from a photo with bytes; they succeed exactly when no failure notice was reported |
| Mirror.Deliver | pro_mode.py:65-87 | a block with a follower sends at most that follower, with its caption cleaned, and counts what it sent; the count stays put exactly when a flood-wait or error notice was reported |
| Mirror.BlockStep | pro_mode.py:55-97 | a block sends at most one content and counts it; under a fresh lookup every channel effect belongs to this photo change; a flood-wait or error notice leaves the count unchanged |
| Mirror.ProcessBlock | pro_mode.py:55-97 | for either reading of the lookup, the block's calls produce exactly the specified block trace, count and value of `video_msg`; `Stale` is the code as written |
| Mirror.DeliverBlock | pro_mode.py:65-87 | once the follower has media, the calls produce exactly the specified delivery |
| Mirror.RunMirror | pro_mode.py:31-104 | the task produces exactly the specified trace; with the `Stale` lookup that is the code as written, with `Fresh` the corrected one |
| Mirror.Scan | pro_mode.py:47-99 | the loop over the window, carrying `video_msg` from block to block, produces exactly the specified scan for either lookup |
| Mirror.FreshIgnoresPrev | pro_mode.py:58-61 | with a fresh lookup, the previous block's follower plays no part |
| Mirror.ScanTotal | pro_mode.py:48-99 | the scan ends with the completion notice reporting the blocks sent, never more than `post_count` |
| Mirror.ScanClosesOnce | pro_mode.py:47-99 | only the last notice of a scan is the completion notice; before it come only block traffic and the limit notice |
| Mirror.ScanLimit | pro_mode.py:48-50 | the limit notice appears only when `post_count` blocks were sent |
| Mirror.FreshScanEntitled | pro_mode.py:55-87 | with a fresh lookup, every content sent is the follower of a photo change in the window, with its caption cleaned, and the channel photo is set only from a photo change with bytes |
| Mirror.StaleFollowerAsWritten | pro_mode.py:58-61 | as written, a photo change with nothing after it re-sends the previous block's follower and counts it again |
| Mirror.StaleReuse | pro_mode.py:58-61 | as written, a photo change with nothing after it delivers the follower left over from the previous block |
| Mirror.FreshSkipsLoneChange | pro_mode.py:61-63 | with a fresh lookup, that photo change is skipped and nothing more is counted |
| Mirror.RepeatedVideoAsWritten | pro_mode.py:47-99 | on a channel holding a photo change, a video and a photo change, with `post_count` 2, the code as written sends the video twice and reports two blocks |
| Mirror.RepeatedVideoFresh | pro_mode.py:47-99 | on the same channel a fresh lookup sends the video once, skips the second photo change and reports one block |
| Mirror.UnboundFollowerAsWritten | pro_mode.py:58-61 | as written, a first photo change with nothing after it fails on the unbound follower, where a fresh lookup skips it |

## Left out

- The subtitle search service (`subtitles.py`) is not part of this model. Its three answers (failure, nothing found, results) are a parameter of the text handler, and the download callbacks are not modelled.
- Network, database and scheduler I/O are not modelled; each call's outcome is an oracle entry. The same goes for the webhook and polling start-up, logging, the `asyncio.sleep` pauses, and the reply texts and keyboards.
- The pro-mode and immediate-mode photo and video handlers (`handle_immediate_photo`, `handle_immediate_video`) are modelled only as the route that reaches them. Their three-attempt retry loops are not modelled.
- The mirror task runs as a separate asynchronous task. Concurrency between it, a publication and the handlers is not modelled.
- Time: the time-zone conversion and the clock are parameters of `Conversation.Bot.TimeMinute`. The calendar grid (`calendar.monthcalendar`) and the `strftime` texts are not modelled.
- Jobs.StampText: `str()` of a timestamp is modelled only for whole seconds (`<digits>.0`). Fractional timestamps cannot arise from whole-minute times in the zones the bot uses, so they are left out.
- Strings.IntToStringRoundTrip: `int()` is modelled on ASCII input only. Underscores and non-ASCII digits are not modelled.
- Captions.CleanIdempotent: `\w` is modelled as ASCII letters, digits and `_`. Python's Unicode word characters are not modelled. The replacement handle is fixed at its default `@estrenos_fh`.
- Mirror.RunMirror: the failures before the scan (`get_me`, `get_entity` of the link and of the channel) are modelled as the exception text they produce. The quoting `repr` applies to the bad link inside `int()`'s error text is simplified to plain quotes. A failure of the message iteration itself is not modelled.
- Mirror.UnboundFollowerAsWritten: the error text for an unbound variable is the wording of recent Python versions.
- Notices to the requester are assumed to succeed, except the publication's progress notice, which is modelled as a call that can fail. A failure of a notice outside a `try` would end the handler and is not modelled.
- Mirror.Deliver: the notices inside a block's `try` (pro_mode.py:62, 65, 76, 84 and 87) are assumed to succeed, though each can raise. If the notice at line 84 raised, the content would be sent but not counted. If the notice at line 87 raised, the block would be counted and an error notice would follow. A raise at line 62, 65 or 76 would end the block with a flood-wait or error notice.
- Publisher.PublishPack: the requester's chat and the pack name in the notices are not modelled. The trace records which item each notice is about.
- The list-page callback (`list_packs_callback`) parses the page number out of the button data. That parsing is not modelled. Menus.ListingOf takes the page as a natural number, which covers every page the buttons produce.

## Findings

| source | as written | input that shows it | evidently intended | confidence | as-written member | corrected member |
|---|---|---|---|---|---|---|
| bot.py:103-104 | `photo_sent = True` comes after the progress notice. When that notice raises `RetryAfter`, the channel photo has already changed but the flag is still false. | A block with no attachments; `get_file`, the download and `set_chat_photo` succeed, then the progress notice answers `RetryAfter`. The next attempt sets the channel photo a second time. | The photo counts as sent once `set_chat_photo` succeeded, so a retry resumes with the attachments. | not executed | Publisher.PhotoSetTwiceAsWritten | Publisher.ItemRunChannel |
| pro_mode.py:58-61 | `video_msg` is bound only inside the lookup loop. When no message follows a photo change, it keeps the previous block's follower, or is unbound for the first block. | Messages: photo change 1, video 2, photo change 3; `post_count` 2; every call succeeds. Video 2 is sent twice and reported as two blocks. | A photo change with no follower is skipped with the "no video/document" notice. | not executed | Mirror.RepeatedVideoAsWritten | Mirror.FreshScanEntitled |
