/**
 * The bot's conversation: the per-user session dictionary (`context.user_data`),
 * the dispatchers for text, photo, video and document messages, the flow
 * handlers that rewrite the session, and the scheduler's job store as touched
 * by scheduling a pack and deleting one.
 *
 * The session is a value (`Session`); what each handler does to it is a pure
 * function, and the `Bot` class applies those functions to its fields while it
 * calls the pack store. A handler that raises (a missing session key, an
 * unparsable id) ends in the error handler, which clears the session; that is
 * modelled as the `Cleared` session.
 */
module Conversation {
  import opened Wrappers
  import opened Strings
  import opened PackStore
  import opened Jobs

  // ---------------------------------------------------------------------------
  // The session
  // ---------------------------------------------------------------------------

  /** The values of the session's `state` key. */
  datatype State =
    | AwaitingPackName
    | CreatingPack
    | EditingPack
    | AwaitingVideos
    | AwaitingSubtitle
    | AwaitingSubtitleSearch
    | AwaitingSubtitleSearchIndependent
    | AwaitingSourceLink
    | AwaitingPostCount
    | Scheduling

  /** The `schedule_date` dictionary: the chosen day, and the hour once one is chosen. */
  datatype ScheduleDate = ScheduleDate(year: int, month: int, day: int, hour: Option<int>)

  /** `context.user_data`: each key is present (Some) or absent (None). */
  datatype Session = Session(
    state: Option<State>,
    packName: Option<string>,
    lastPhotoId: Option<PhotoId>,
    photoId: Option<string>,
    startLink: Option<string>,
    packToSchedule: Option<string>,
    scheduleDate: Option<ScheduleDate>)

  /** The session after `context.user_data.clear()`. */
  const Cleared := Session(None, None, None, None, None, None, None)

  predicate InPackEditor(s: Session)
  {
    s.state == Some(CreatingPack) || s.state == Some(EditingPack)
  }

  /** The keys every state's handlers read are there: what the flows that enter each state set up. */
  predicate SessionOk(s: Session)
  {
    && ((InPackEditor(s) || s.state == Some(AwaitingVideos) || s.state == Some(AwaitingSubtitle)
         || s.state == Some(AwaitingSubtitleSearch)) ==> s.packName.Some?)
    && (s.state == Some(AwaitingVideos) ==> s.lastPhotoId.Some?)
    && (s.state == Some(AwaitingSubtitle) || s.state == Some(AwaitingSubtitleSearch) ==> s.photoId.Some?)
    && (s.state == Some(AwaitingPostCount) ==> s.startLink.Some?)
    && (s.state == Some(Scheduling) ==> s.packToSchedule.Some?)
  }

  // ---------------------------------------------------------------------------
  // Text messages
  // ---------------------------------------------------------------------------

  const CreatePackButton: string := "\U{1F4E6} Crear Pack"
  const ManagePacksButton: string := "\U{1F4CB} Gestionar Packs"
  const FinishButton: string := "\U{2705} Terminar Creaci\U{F3}n/Edici\U{F3}n"
  const CancelButton: string := "\U{274C} Cancelar"
  const SearchSubtitlesButton: string := "\U{1F50E} Buscar Subt\U{ED}tulos"
  const ProModeButton: string := "\U{1F680} Activar Modo Pro"

  predicate IsMenuText(text: string)
  {
    text in {CreatePackButton, ManagePacksButton, FinishButton, CancelButton, SearchSubtitlesButton, ProModeButton}
  }

  /** The handler `handle_text` passes a text message to. */
  datatype TextRoute =
    | CreateStart | ListPacks | Finish | Cancel | SearchStart | ProModeStart
    | PackName | SearchQuery | SourceLink | PostCount | Reprompt | Ignored

  /** What the subtitle search service answered (its client is not part of this model). */
  datatype SearchOutcome = SearchFailed | NothingFound | Found

  /** A mirror task handed to the background: where it starts and how many blocks it copies. */
  datatype Launch = Launch(startLink: string, postCount: int)

  /** `handle_text` (bot.py:154-179): the menu texts first, then the session's state. */
  function RouteText(s: Session, text: string): (r: TextRoute)
    ensures IsMenuText(text) <==> r in {CreateStart, ListPacks, Finish, Cancel, SearchStart, ProModeStart}
  {
    if text == CreatePackButton then CreateStart
    else if text == ManagePacksButton then ListPacks
    else if text == FinishButton then Finish
    else if text == CancelButton then Cancel
    else if text == SearchSubtitlesButton then SearchStart
    else if text == ProModeButton then ProModeStart
    else if s.state == Some(AwaitingPackName) then PackName
    else if s.state == Some(AwaitingSubtitleSearch) || s.state == Some(AwaitingSubtitleSearchIndependent) then SearchQuery
    else if s.state == Some(AwaitingSourceLink) then SourceLink
    else if s.state == Some(AwaitingPostCount) then PostCount
    else if InPackEditor(s) then Reprompt
    else Ignored
  }

  /** `sub` occurs in `s` at index `i`. */
  predicate OccursAt(s: string, sub: string, i: int)
  {
    0 <= i <= |s| - |sub| && s[i..i + |sub|] == sub
  }

  /** `sub in s` for strings. */
  predicate Contains(s: string, sub: string)
  {
    exists i :: 0 <= i <= |s| - |sub| && OccursAt(s, sub, i)
  }

  /** The check `handle_source_link` makes of a start link (bot.py:215). */
  predicate LinkLooksValid(link: string)
  {
    Contains(link, "t.me") && '/' in link
  }

  /** The post count `handle_post_count` accepts: `int(text)` when it parses and is positive (bot.py:231-236). */
  function PositiveCount(text: string): (r: Option<int>)
    ensures r.Some? ==> r.value > 0 && ParseInt(text) == r
    ensures r.None? <==> ParseInt(text).None? || ParseInt(text).value <= 0
  {
    match ParseInt(text)
    case Some(n) => if n > 0 then Some(n) else None
    case None => None
  }

  /** `pack_await_name` creates a pack: the stripped name is non-empty and free for this user (bot.py:390-398). */
  predicate CreatesPack(s: Session, text: string, packs: seq<Pack>, admin: int)
  {
    RouteText(s, text) == PackName && Strip(text) != [] && FindOwned(packs, Strip(text), admin).None?
  }

  /** The session after a text message, given the store's packs and the search service's answer. */
  function AfterText(s: Session, text: string, packs: seq<Pack>, admin: int, search: SearchOutcome): Session
  {
    match RouteText(s, text)
    case CreateStart => s.(state := Some(AwaitingPackName))
    case ListPacks => Cleared
    case Finish => Cleared
    case Cancel => Cleared
    case SearchStart => s.(state := Some(AwaitingSubtitleSearchIndependent))
    case ProModeStart => Cleared.(state := Some(AwaitingSourceLink))
    case PackName =>
      if CreatesPack(s, text, packs, admin)
      then s.(state := Some(CreatingPack), packName := Some(Strip(text)), lastPhotoId := None)
      else s
    case SearchQuery => if search == Found then s else Cleared
    case SourceLink =>
      if LinkLooksValid(text) then s.(startLink := Some(text), state := Some(AwaitingPostCount)) else s
    case PostCount => if PositiveCount(text).Some? then Cleared else s
    case Reprompt => s
    case Ignored => s
  }

  /** The mirror task a text message launches, if any (bot.py:241-255). */
  function LaunchOf(s: Session, text: string): Option<Launch>
  {
    if RouteText(s, text) == PostCount && PositiveCount(text).Some? && s.startLink.Some?
    then Some(Launch(s.startLink.value, PositiveCount(text).value))
    else None
  }

  /**
   * A menu text is handled the same way whatever the state, and the finish and
   * cancel buttons end every flow with an empty session.
   */
  lemma MenuTextsComeFirst(s1: Session, s2: Session, text: string, packs: seq<Pack>, admin: int, search: SearchOutcome)
    requires IsMenuText(text)
    ensures RouteText(s1, text) == RouteText(s2, text)
    ensures text == FinishButton || text == CancelButton || text == ManagePacksButton ==>
      AfterText(s1, text, packs, admin, search) == Cleared
    ensures text == ProModeButton ==> AfterText(s1, text, packs, admin, search) == Cleared.(state := Some(AwaitingSourceLink))
    ensures LaunchOf(s1, text).None?
  {
  }

  /** While a pack is being built, any text other than a menu text only re-prompts: nothing changes. */
  lemma EditorIgnoresText(s: Session, text: string, packs: seq<Pack>, admin: int, search: SearchOutcome)
    requires InPackEditor(s) && !IsMenuText(text)
    ensures RouteText(s, text) == Reprompt
    ensures AfterText(s, text, packs, admin, search) == s && LaunchOf(s, text).None?
  {
  }

  /**
   * Naming a pack: an empty name after stripping, or one the user already has,
   * leaves the session waiting for a name; otherwise the pack is created and the
   * session enters creation mode with no photo yet.
   */
  lemma PackNameOutcome(s: Session, text: string, packs: seq<Pack>, admin: int, search: SearchOutcome)
    requires s.state == Some(AwaitingPackName) && !IsMenuText(text)
    ensures var r := AfterText(s, text, packs, admin, search);
      if Strip(text) == [] || FindOwned(packs, Strip(text), admin).Some? then r == s && r.state == Some(AwaitingPackName)
      else (r.state == Some(CreatingPack) && r.packName == Some(Strip(text)) && r.lastPhotoId.None?
        && r.photoId == s.photoId && r.startLink == s.startLink)
  {
  }

  /**
   * The post count: a positive integer launches the mirror task from the stored
   * link and clears the session; anything else keeps waiting for a count.
   */
  lemma PostCountOutcome(s: Session, text: string, packs: seq<Pack>, admin: int, search: SearchOutcome)
    requires s.state == Some(AwaitingPostCount) && !IsMenuText(text) && SessionOk(s)
    ensures match ParseInt(text)
      case Some(n) =>
        if n > 0 then AfterText(s, text, packs, admin, search) == Cleared && LaunchOf(s, text) == Some(Launch(s.startLink.value, n))
        else AfterText(s, text, packs, admin, search) == s && LaunchOf(s, text).None?
      case None => AfterText(s, text, packs, admin, search) == s && LaunchOf(s, text).None?
  {
  }

  /** A link without "t.me" or without a slash is refused and the session keeps waiting for one. */
  lemma SourceLinkOutcome(s: Session, text: string, packs: seq<Pack>, admin: int, search: SearchOutcome)
    requires s.state == Some(AwaitingSourceLink) && !IsMenuText(text)
    ensures var r := AfterText(s, text, packs, admin, search);
      if LinkLooksValid(text) then r.state == Some(AwaitingPostCount) && r.startLink == Some(text)
      else r == s
  {
  }

  /** Every text message keeps the session's keys consistent with its state. */
  lemma AfterTextOk(s: Session, text: string, packs: seq<Pack>, admin: int, search: SearchOutcome)
    requires SessionOk(s)
    ensures SessionOk(AfterText(s, text, packs, admin, search))
  {
  }

  // ---------------------------------------------------------------------------
  // Photos, videos and documents
  // ---------------------------------------------------------------------------

  /** Where `handle_photo` sends a photo (bot.py:181-185). */
  datatype PhotoRoute = AddPhotoToPack | PublishPhotoNow

  function RoutePhoto(s: Session): PhotoRoute
  {
    if InPackEditor(s) then AddPhotoToPack else PublishPhotoNow
  }

  /**
   * The session after a photo (bot.py:445-453): in the pack editor a photo the
   * store accepted under id `id` becomes the one later videos attach to.
   */
  function AfterPhoto(s: Session, packs: seq<Pack>, id: PhotoId): Session
  {
    if RoutePhoto(s) == PublishPhotoNow then s
    else if s.packName.None? then Cleared
    else if FirstByName(packs, s.packName.value).Some? then s.(lastPhotoId := Some(id))
    else s
  }

  /** Where `handle_video` sends a video (bot.py:187-193). */
  datatype VideoRoute = AttachTo(pack: string, photo: PhotoId) | PublishVideoNow | MissingKey

  function RouteVideo(s: Session): VideoRoute
  {
    if (InPackEditor(s) && s.lastPhotoId.Some?) || s.state == Some(AwaitingVideos) then
      if s.packName.Some? && s.lastPhotoId.Some? then AttachTo(s.packName.value, s.lastPhotoId.value) else MissingKey
    else PublishVideoNow
  }

  /** `update.message.caption or ""`. */
  function CaptionText(caption: Option<string>): string
  {
    if caption.None? then "" else caption.value
  }

  /**
   * A video is attached to a pack exactly when the editor has a current photo or
   * the session is adding videos to a chosen photo; it is then attached to that
   * photo of the session's pack. Every other video is published on the spot.
   */
  lemma VideoRouteIff(s: Session)
    requires SessionOk(s)
    ensures RouteVideo(s).AttachTo? <==> (InPackEditor(s) && s.lastPhotoId.Some?) || s.state == Some(AwaitingVideos)
    ensures RouteVideo(s).AttachTo? ==> RouteVideo(s) == AttachTo(s.packName.value, s.lastPhotoId.value)
    ensures RouteVideo(s) != MissingKey
  {
  }

  /** After a photo is stored in the editor, the next video goes to that photo of the same pack. */
  lemma PhotoThenVideo(s: Session, packs: seq<Pack>, id: PhotoId)
    requires SessionOk(s) && InPackEditor(s) && FirstByName(packs, s.packName.value).Some?
    ensures RouteVideo(AfterPhoto(s, packs, id)) == AttachTo(s.packName.value, id)
    ensures SessionOk(AfterPhoto(s, packs, id))
  {
  }

  const SubtitleMarker: string := "SUBTITLE:"

  /** `f"SUBTITLE:{document.file_name}"`; a document without a file name gives "None". */
  function SubtitleCaption(fileName: Option<string>): (r: string)
    ensures SubtitleMarker <= r
  {
    SubtitleMarker + (if fileName.None? then "None" else fileName.value)
  }

  /** The session after a document (bot.py:195-197, 529-543): a subtitle ends its flow whatever happened. */
  function AfterDocument(s: Session): (r: Session)
  {
    if s.state == Some(AwaitingSubtitle) then Cleared else s
  }

  /** A document is only taken while waiting for a subtitle, and that session always ends empty. */
  lemma DocumentOutcome(s: Session)
    ensures s.state == Some(AwaitingSubtitle) ==> AfterDocument(s) == Cleared
    ensures s.state != Some(AwaitingSubtitle) ==> AfterDocument(s) == s
    ensures SessionOk(s) ==> SessionOk(AfterDocument(s))
  {
  }

  // ---------------------------------------------------------------------------
  // Scheduling
  // ---------------------------------------------------------------------------

  /** A local date and time as the calendar and the hour and minute buttons chose it. */
  datatype LocalTime = LocalTime(year: int, month: int, day: int, hour: int, minute: int)

  /** Every job sits under the id made from its own pack and time. */
  predicate JobsKeyed(jobs: map<string, Job>)
  {
    forall id :: id in jobs ==> id == JobId(jobs[id].pack, jobs[id].time)
  }

  /**
   * The job `time_minute_callback` adds (bot.py:713-735): none when a session key
   * is missing, when the date does not exist (`localize` gives None), or when
   * the time is already past; otherwise the pack's publication at that time.
   */
  function ScheduledJob(s: Session, minute: int, chat: int, localize: LocalTime -> Option<int>, now: int): (r: Option<Job>)
    ensures r.Some? ==> s.packToSchedule == Some(r.value.pack) && r.value.chat == chat && r.value.time >= now
  {
    if s.scheduleDate.None? || s.packToSchedule.None? || s.scheduleDate.value.hour.None? then None
    else
      var d := s.scheduleDate.value;
      match localize(LocalTime(d.year, d.month, d.day, d.hour.value, minute))
      case None => None
      case Some(t) => if t < now then None else Some(Job(s.packToSchedule.value, chat, t))
  }

  /** The job store after a job is added with `replace_existing`. */
  function AddJob(jobs: map<string, Job>, job: Option<Job>): map<string, Job>
  {
    if job.None? then jobs else jobs[JobId(job.value.pack, job.value.time) := job.value]
  }

  /**
   * What choosing a minute does to the job store (bot.py:713-735): with the pack,
   * the date and the hour in the session and a date that exists, a time in the
   * past adds nothing, and any other time adds the pack's publication at exactly
   * the chosen local time, under `pack:<name>:<timestamp>`; a missing key or a
   * date that does not exist schedules nothing.
   */
  lemma ScheduleOutcome(s: Session, minute: int, chat: int, localize: LocalTime -> Option<int>, now: int, jobs: map<string, Job>)
    ensures s.packToSchedule.None? || s.scheduleDate.None? || s.scheduleDate.value.hour.None? ==>
      ScheduledJob(s, minute, chat, localize, now) == None && AddJob(jobs, None) == jobs
    ensures s.packToSchedule.Some? && s.scheduleDate.Some? && s.scheduleDate.value.hour.Some? ==>
      var d := s.scheduleDate.value;
      var p := s.packToSchedule.value;
      match localize(LocalTime(d.year, d.month, d.day, d.hour.value, minute))
      case None => ScheduledJob(s, minute, chat, localize, now) == None
      case Some(t) =>
        (t < now ==> AddJob(jobs, ScheduledJob(s, minute, chat, localize, now)) == jobs) &&
        (t >= now ==>
          && ScheduledJob(s, minute, chat, localize, now) == Some(Job(p, chat, t))
          && AddJob(jobs, ScheduledJob(s, minute, chat, localize, now)).Keys == jobs.Keys + {JobId(p, t)}
          && AddJob(jobs, ScheduledJob(s, minute, chat, localize, now))[JobId(p, t)] == Job(p, chat, t))
  {
  }

  /**
   * Scheduling keeps one job per id: a new job replaces only a job for the same
   * pack at the same time, and every other job stays.
   */
  lemma AddJobKeepsOthers(jobs: map<string, Job>, job: Job)
    requires JobsKeyed(jobs)
    ensures JobsKeyed(AddJob(jobs, Some(job)))
    ensures forall id :: id in jobs && (jobs[id].pack != job.pack || jobs[id].time != job.time) ==>
      id in AddJob(jobs, Some(job)) && AddJob(jobs, Some(job))[id] == jobs[id]
    ensures |AddJob(jobs, Some(job)).Keys| <= |jobs.Keys| + 1
  {
    var id := JobId(job.pack, job.time);
    forall other | other in jobs && (jobs[other].pack != job.pack || jobs[other].time != job.time)
      ensures other != id
    {
      if other == id {
        JobIdInjective(jobs[other].pack, jobs[other].time, job.pack, job.time);
      }
    }
    assert AddJob(jobs, Some(job)).Keys == jobs.Keys + {id};
  }

  /** Removing a pack's jobs keeps the store keyed by id. */
  lemma WithoutPackJobsKeyed(jobs: map<string, Job>, name: string)
    requires JobsKeyed(jobs)
    ensures JobsKeyed(WithoutPackJobs(jobs, name))
    ensures forall id :: id in WithoutPackJobs(jobs, name) ==> !(jobs[id].pack == name || name + ":" <= jobs[id].pack)
  {
    forall id | id in WithoutPackJobs(jobs, name)
      ensures !(jobs[id].pack == name || name + ":" <= jobs[id].pack)
    {
      BelongsToIff(name, jobs[id].pack, jobs[id].time);
    }
  }

  // ---------------------------------------------------------------------------
  // The bot
  // ---------------------------------------------------------------------------

  class Bot {
    var session: Session
    var jobs: map<string, Job>
    const store: Store
    const admin: int

    ghost predicate Valid()
      reads this, store
    {
      store.Valid() && SessionOk(session) && JobsKeyed(jobs)
    }

    constructor(admin: int)
      ensures Valid() && fresh(store) && store.packs == []
      ensures session == Cleared && jobs == map[] && this.admin == admin
    {
      this.admin := admin;
      store := new Store();
      session := Cleared;
      jobs := map[];
    }

    /** `handle_text` with the flows it dispatches to; `now` is the creation time a new pack gets. */
    method HandleText(text: string, search: SearchOutcome, now: int) returns (route: TextRoute, launch: Option<Launch>)
      requires Valid()
      modifies this, store
      ensures Valid() && jobs == old(jobs)
      ensures route == RouteText(old(session), text) && launch == LaunchOf(old(session), text)
      ensures session == AfterText(old(session), text, old(store.packs), admin, search)
      ensures store.packs == if CreatesPack(old(session), text, old(store.packs), admin)
        then old(store.packs) + [Pack(Strip(text), admin, now, [])] else old(store.packs)
    {
      route := RouteText(session, text);
      launch := None;
      AfterTextOk(session, text, store.packs, admin, search);
      match route {
        case CreateStart =>
          session := session.(state := Some(AwaitingPackName));
        case ListPacks =>
          session := Cleared;
        case Finish =>
          session := Cleared;
        case Cancel =>
          session := Cleared;
        case SearchStart =>
          session := session.(state := Some(AwaitingSubtitleSearchIndependent));
        case ProModeStart =>
          session := Cleared.(state := Some(AwaitingSourceLink));
        case PackName =>
          var name := Strip(text);
          if name != [] {
            var ok := store.CreatePack(name, admin, now);
            if ok {
              session := session.(state := Some(CreatingPack), packName := Some(name), lastPhotoId := None);
            }
          }
        case SearchQuery =>
          if search != Found {
            session := Cleared;
          }
        case SourceLink =>
          if LinkLooksValid(text) {
            session := session.(startLink := Some(text), state := Some(AwaitingPostCount));
          }
        case PostCount =>
          var count := PositiveCount(text);
          if count.Some? {
            launch := Some(Launch(session.startLink.value, count.value));
            session := Cleared;
          }
        case Reprompt =>
        case Ignored =>
      }
    }

    /** `handle_photo`: in the pack editor the photo is stored and becomes the current photo. */
    method HandlePhoto(fileId: string) returns (route: PhotoRoute, id: PhotoId)
      requires Valid()
      modifies this, store
      ensures Valid() && jobs == old(jobs)
      ensures route == RoutePhoto(old(session))
      ensures route == AddPhotoToPack ==> session == AfterPhoto(old(session), old(store.packs), old(store.nextId)) && id == old(store.nextId)
      ensures route == PublishPhotoNow ==> session == old(session) && store.packs == old(store.packs)
      ensures route == AddPhotoToPack ==> match FirstByName(old(store.packs), old(session).packName.value)
        case None => store.packs == old(store.packs)
        case Some(i) => store.packs == old(store.packs)[i := old(store.packs)[i].(content := old(store.packs)[i].content + [Block(id, fileId, [])])]
    {
      route := RoutePhoto(session);
      id := 0;
      if route == AddPhotoToPack {
        var ok;
        ok, id := store.AddPhoto(session.packName.value, fileId);
        if ok {
          session := session.(lastPhotoId := Some(id));
        }
      }
    }

    /** `handle_video`: attaches the video to the session's photo, or leaves it to immediate publishing. */
    method HandleVideo(fileId: string, caption: Option<string>) returns (route: VideoRoute, ok: bool)
      requires Valid()
      modifies store
      ensures Valid() && session == old(session) && jobs == old(jobs)
      ensures route == RouteVideo(old(session)) && route != MissingKey
      ensures route.PublishVideoNow? ==> !ok && store.packs == old(store.packs)
      ensures route.AttachTo? ==> (ok <==> FirstWithBlock(old(store.packs), route.pack, route.photo).Some?)
      ensures route.AttachTo? && ok ==>
        var i := FirstWithBlock(old(store.packs), route.pack, route.photo).value;
        var content := old(store.packs)[i].content;
        var j := BlockIndex(content, route.photo).value;
        store.packs == old(store.packs)[i := old(store.packs)[i].(content :=
          content[j := content[j].(videos := content[j].videos + [Video(fileId, CaptionText(caption))])])]
      ensures !ok ==> store.packs == old(store.packs)
    {
      route := RouteVideo(session);
      ok := false;
      if route.AttachTo? {
        ok := store.AddVideo(route.pack, route.photo, fileId, CaptionText(caption));
      }
    }

    /** `handle_document`: a subtitle file is attached to the session's photo, then the session is cleared. */
    method HandleDocument(fileId: string, fileName: Option<string>) returns (ok: bool)
      requires Valid()
      modifies this, store
      ensures Valid() && jobs == old(jobs)
      ensures session == AfterDocument(old(session))
      ensures ok <==> (old(session).state == Some(AwaitingSubtitle)
        && ParseObjectId(old(session).photoId.value).Some?
        && FirstWithBlock(old(store.packs), old(session).packName.value, ParseObjectId(old(session).photoId.value).value).Some?)
      ensures !ok ==> store.packs == old(store.packs)
      ensures ok ==>
        var id := ParseObjectId(old(session).photoId.value).value;
        var i := FirstWithBlock(old(store.packs), old(session).packName.value, id).value;
        var content := old(store.packs)[i].content;
        var j := BlockIndex(content, id).value;
        store.packs == old(store.packs)[i := old(store.packs)[i].(content :=
          content[j := content[j].(videos := content[j].videos + [Video(fileId, SubtitleCaption(fileName))])])]
    {
      ok := false;
      if session.state == Some(AwaitingSubtitle) {
        var parsed := ParseObjectId(session.photoId.value);
        if parsed.Some? {
          ok := store.AddVideo(session.packName.value, parsed.value, fileId, SubtitleCaption(fileName));
        }
        session := Cleared;
      }
    }

    /** `finish_creation_editing` and `cancel_action`, and the callbacks that only clear the session. */
    method ClearSession()
      requires Valid()
      modifies this
      ensures Valid() && session == Cleared && jobs == old(jobs)
    {
      session := Cleared;
    }

    /** `edit_pack_start`: edits a pack with no current photo. */
    method EditPackStart(name: string)
      requires Valid()
      modifies this
      ensures Valid() && jobs == old(jobs)
      ensures session == old(session).(state := Some(EditingPack), packName := Some(name), lastPhotoId := None)
    {
      session := session.(state := Some(EditingPack), packName := Some(name), lastPhotoId := None);
    }

    /** `photo_add_start_callback`: edits a pack and keeps whatever current photo the session had. */
    method PhotoAddStart(name: string)
      requires Valid()
      modifies this
      ensures Valid() && jobs == old(jobs)
      ensures session == old(session).(state := Some(EditingPack), packName := Some(name))
    {
      session := session.(state := Some(EditingPack), packName := Some(name));
    }

    /** `video_add_start_callback`: videos go to the chosen photo; an id that does not parse ends in the error handler. */
    method VideoAddStart(name: string, idText: string)
      requires Valid()
      modifies this
      ensures Valid() && jobs == old(jobs)
      ensures session == match ParseObjectId(idText)
        case None => Cleared
        case Some(id) => old(session).(state := Some(AwaitingVideos), packName := Some(name), lastPhotoId := Some(id))
    {
      var parsed := ParseObjectId(idText);
      if parsed.None? {
        session := Cleared;
      } else {
        session := session.(state := Some(AwaitingVideos), packName := Some(name), lastPhotoId := Some(parsed.value));
      }
    }

    /** `subtitle_add_start_callback` (`search` false) and `subtitle_search_start_callback` (`search` true). */
    method SubtitleStart(name: string, idText: string, search: bool)
      requires Valid()
      modifies this
      ensures Valid() && jobs == old(jobs)
      ensures session == old(session).(state := Some(if search then AwaitingSubtitleSearch else AwaitingSubtitle),
        packName := Some(name), photoId := Some(idText))
    {
      session := session.(state := Some(if search then AwaitingSubtitleSearch else AwaitingSubtitle),
        packName := Some(name), photoId := Some(idText));
    }

    /** `schedule_pack_start`. */
    method ScheduleStart(name: string)
      requires Valid()
      modifies this
      ensures Valid() && jobs == old(jobs)
      ensures session == old(session).(state := Some(Scheduling), packToSchedule := Some(name))
    {
      session := session.(state := Some(Scheduling), packToSchedule := Some(name));
    }

    /** `calendar_day_callback`: a new date without an hour; the back button reads the pack, so its absence ends in the error handler. */
    method CalendarDay(year: int, month: int, day: int)
      requires Valid()
      modifies this
      ensures Valid() && jobs == old(jobs)
      ensures session == if old(session).packToSchedule.None? then Cleared
        else old(session).(scheduleDate := Some(ScheduleDate(year, month, day, None)))
    {
      if session.packToSchedule.None? {
        session := Cleared;
      } else {
        session := session.(scheduleDate := Some(ScheduleDate(year, month, day, None)));
      }
    }

    /** `time_hour_callback`: adds the hour to the chosen date; without a date it ends in the error handler. */
    method TimeHour(hour: int)
      requires Valid()
      modifies this
      ensures Valid() && jobs == old(jobs)
      ensures session == match old(session).scheduleDate
        case None => Cleared
        case Some(d) => old(session).(scheduleDate := Some(d.(hour := Some(hour))))
    {
      if session.scheduleDate.None? {
        session := Cleared;
      } else {
        session := session.(scheduleDate := Some(session.scheduleDate.value.(hour := Some(hour))));
      }
    }

    /**
     * `time_minute_callback`: adds the publication job unless the time is past
     * or cannot be formed, and clears the session on every outcome. `localize`
     * stands for the time zone's conversion to a Unix time, `now` for the clock.
     */
    method TimeMinute(minute: int, chat: int, localize: LocalTime -> Option<int>, now: int) returns (job: Option<Job>)
      requires Valid()
      modifies this
      ensures Valid() && session == Cleared
      ensures job == ScheduledJob(old(session), minute, chat, localize, now)
      ensures jobs == AddJob(old(jobs), job)
    {
      job := ScheduledJob(session, minute, chat, localize, now);
      if job.Some? {
        AddJobKeepsOthers(jobs, job.value);
        jobs := jobs[JobId(job.value.pack, job.value.time) := job.value];
      }
      session := Cleared;
    }

    /** `delete_pack_do_callback`: the pack's jobs go only when the store deleted the pack. */
    method DeletePackDo(name: string) returns (ok: bool)
      requires Valid()
      modifies this, store
      ensures Valid() && session == old(session)
      ensures ok <==> FindOwned(old(store.packs), name, admin).Some?
      ensures !ok ==> store.packs == old(store.packs) && jobs == old(jobs)
      ensures ok ==> (store.packs == old(store.packs)[..FindOwned(old(store.packs), name, admin).value]
        + old(store.packs)[FindOwned(old(store.packs), name, admin).value + 1..])
      ensures ok ==> jobs == WithoutPackJobs(old(jobs), name)
    {
      ok := store.DeletePack(name, admin);
      if ok {
        RemovePackJobs(name);
      }
    }

    /** The loop over the scheduler's jobs that removes those whose id starts with `pack:<name>:` (bot.py:375-378). */
    method RemovePackJobs(name: string)
      requires Valid()
      modifies this
      ensures Valid() && session == old(session)
      ensures jobs == WithoutPackJobs(old(jobs), name)
    {
      var pending := jobs.Keys;
      ghost var before := jobs;
      while pending != {}
        invariant pending <= before.Keys
        invariant forall id :: id in jobs <==> id in before && (id in pending || !BelongsTo(id, name))
        invariant forall id :: id in jobs ==> jobs[id] == before[id]
        invariant session == old(session) && jobs.Keys <= before.Keys
        decreases pending
      {
        var id :| id in pending;
        if BelongsTo(id, name) {
          jobs := jobs - {id};
        }
        pending := pending - {id};
      }
      WithoutPackJobsKeyed(before, name);
      assert jobs.Keys == WithoutPackJobs(before, name).Keys;
    }
  }
}
