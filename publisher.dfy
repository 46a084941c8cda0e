/**
 * Publishing a pack to the channel (`_publish_pack_logic`). Every transport call
 * ends with an outcome drawn, in call order, from an oracle sequence; what the
 * run does on the channel and tells the requester is recorded as a trace of
 * events. Items are published in order; each item gets at most five attempts,
 * only a rate-limit signal (`RetryAfter`) leads to another one, and a retry
 * resumes where the previous attempt stopped (`photo_sent`, `video_index`).
 */
module Publisher {
  import opened Wrappers
  import opened Strings
  import opened Captions
  import opened PackStore

  /** How a transport call ended. */
  datatype Outcome = Ok | RetryAfter(seconds: nat) | Failed

  /** The outcome of the `k`-th transport call; calls past the end of the oracle succeed. */
  function At(oracle: seq<Outcome>, k: nat): Outcome
  {
    if k < |oracle| then oracle[k] else Ok
  }

  datatype Event =
    | ChannelPhoto(item: nat, fileId: string)
    | ChannelVideo(item: nat, index: nat, fileId: string, caption: string)
    | ChannelDocument(item: nat, index: nat, fileId: string, caption: string)
    | TempFileWritten(item: nat)
    | TempFileRemoved(item: nat)
    | ProgressNotice(item: nat)
    | RetryNotice(item: nat, wait: nat)
    | SkipNotice(item: nat)
    | GaveUpNotice(item: nat)
    | EmptyPackNotice
    | DoneNotice

  const MaxAttempts: nat := 5
  const SubtitleMarker: string := "SUBTITLE:"
  const SubtitleLabel: string := "Subtítulo:"

  predicate IsChannel(e: Event)
  {
    e.ChannelPhoto? || e.ChannelVideo? || e.ChannelDocument?
  }

  predicate HasItem(e: Event)
  {
    !e.EmptyPackNotice? && !e.DoneNotice?
  }

  // ---------------------------------------------------------------------------
  // What a block should put on the channel

  /** How one stored attachment goes to the channel: a subtitle as a document with its marker renamed, anything else as a video with a cleaned caption. */
  function Delivery(item: nat, index: nat, v: Video): (e: Event)
    ensures IsChannel(e) && !e.ChannelPhoto? && e.item == item && e.index == index && e.fileId == v.fileId
    ensures e.ChannelDocument? <==> SubtitleMarker <= v.caption
    ensures e.ChannelDocument? ==> SubtitleLabel <= e.caption && e.caption == ReplaceAll(v.caption, SubtitleMarker, SubtitleLabel)
    ensures e.ChannelVideo? ==> e.caption == CleanCaption(Some(v.caption))
  {
    if SubtitleMarker <= v.caption then
      ChannelDocument(item, index, v.fileId, ReplaceAll(v.caption, SubtitleMarker, SubtitleLabel))
    else
      ChannelVideo(item, index, v.fileId, CleanCaption(Some(v.caption)))
  }

  /**
   * A subtitle's caption goes out with its marker renamed and is not cleaned:
   * whatever follows the marker, handles and links included, is kept as stored.
   */
  lemma SubtitleCaptionKept(item: nat, index: nat, fileId: string, rest: string)
    requires forall i :: !OccursAt(rest, SubtitleMarker, i)
    ensures Delivery(item, index, Video(fileId, SubtitleMarker + rest)) == ChannelDocument(item, index, fileId, SubtitleLabel + rest)
  {
    var c := SubtitleMarker + rest;
    assert OccursAt(c, SubtitleMarker, 0) by { assert c[0..|SubtitleMarker|] == SubtitleMarker; }
    assert Find(c, SubtitleMarker) == Some(0);
    assert c[|SubtitleMarker|..] == rest;
    assert c[..0] == [];
  }

  /** A block as it is about to be published: its position, its photo, and its attachments as they go out. */
  datatype Item = Item(index: nat, photoFileId: string, attachments: seq<Event>)

  /** Every attachment message of `it` is channel traffic about `it`. */
  predicate Rendered(it: Item)
  {
    forall j :: 0 <= j < |it.attachments| ==>
      IsChannel(it.attachments[j]) && !it.attachments[j].ChannelPhoto? && it.attachments[j].item == it.index
  }

  /**
   * The attachments of a block in the form the attachment loop sends them. The
   * source computes each message just before sending it; the messages do not
   * depend on any call's outcome, so computing them up front changes nothing.
   */
  function Prepare(index: nat, b: Block): (it: Item)
    ensures it.index == index && it.photoFileId == b.photoFileId && Rendered(it)
    ensures |it.attachments| == |b.videos|
    ensures forall j :: 0 <= j < |b.videos| ==> it.attachments[j] == Delivery(index, j, b.videos[j])
  {
    Item(index, b.photoFileId, seq(|b.videos|, j requires 0 <= j < |b.videos| => Delivery(index, j, b.videos[j])))
  }

  /** What an item still has to put on the channel once `photoSent` and `j` say how far it got. */
  function Remaining(it: Item, photoSent: bool, j: nat): seq<Event>
    requires j <= |it.attachments|
  {
    (if photoSent then [] else [ChannelPhoto(it.index, it.photoFileId)]) + it.attachments[j..]
  }

  /** Everything a block should put on the channel, in order: its photo, then its attachments. */
  function Expected(index: nat, b: Block): seq<Event>
  {
    Remaining(Prepare(index, b), false, 0)
  }

  // ---------------------------------------------------------------------------
  // One pass through the `try` body

  /**
   * When `photo_sent` becomes true. The source sets it after the progress notice
   * to the requester; `AfterSetPhoto` sets it as soon as the channel photo has
   * been changed.
   */
  datatype PhotoFlag = AfterNotice | AfterSetPhoto

  /** Where one pass through the `try` body stopped, and how. */
  datatype Pass = Pass(events: seq<Event>, next: nat, photoSent: bool, videoIndex: nat, ending: Outcome)

  /** The photo step: get_file, download, set_chat_photo, progress notice; the temporary file goes in `finally`. */
  function PhotoStep(item: nat, fileId: string, oracle: seq<Outcome>, k: nat, flag: PhotoFlag): Pass
  {
    if At(oracle, k) != Ok then Pass([], k + 1, false, 0, At(oracle, k))
    else if At(oracle, k + 1) != Ok then Pass([], k + 2, false, 0, At(oracle, k + 1))
    else if At(oracle, k + 2) != Ok then
      Pass([TempFileWritten(item), TempFileRemoved(item)], k + 3, false, 0, At(oracle, k + 2))
    else if At(oracle, k + 3) != Ok then
      Pass([TempFileWritten(item), ChannelPhoto(item, fileId), TempFileRemoved(item)], k + 4, flag == AfterSetPhoto, 0, At(oracle, k + 3))
    else
      Pass([TempFileWritten(item), ChannelPhoto(item, fileId), ProgressNotice(item), TempFileRemoved(item)], k + 4, true, 0, Ok)
  }

  /** The attachment loop from `video_index == j`: stops at the first call that does not succeed. */
  function SendAttachments(it: Item, j: nat, oracle: seq<Outcome>, k: nat): Pass
    requires j <= |it.attachments|
    decreases |it.attachments| - j
  {
    if j == |it.attachments| then Pass([], k, true, j, Ok)
    else if At(oracle, k) != Ok then Pass([], k + 1, true, j, At(oracle, k))
    else
      var rest := SendAttachments(it, j + 1, oracle, k + 1);
      rest.(events := [it.attachments[j]] + rest.events)
  }

  /** One pass through the `try` body, resuming from `photoSent` and `j`. */
  function Attempt(it: Item, oracle: seq<Outcome>, k: nat, photoSent: bool, j: nat, flag: PhotoFlag): Pass
    requires j <= |it.attachments|
  {
    if photoSent then SendAttachments(it, j, oracle, k)
    else
      var ph := PhotoStep(it.index, it.photoFileId, oracle, k, flag);
      if ph.ending != Ok then ph.(videoIndex := j)
      else
        var vs := SendAttachments(it, j, oracle, ph.next);
        vs.(events := ph.events + vs.events)
  }

  /** The `for attempt in range(5)` loop and its `else`: the item's events and the next oracle position. */
  function Attempts(it: Item, oracle: seq<Outcome>, k: nat, attempt: nat, photoSent: bool, j: nat, flag: PhotoFlag): (seq<Event>, nat)
    requires attempt <= MaxAttempts && j <= |it.attachments|
    decreases MaxAttempts - attempt, 1
  {
    if attempt == MaxAttempts then ([GaveUpNotice(it.index)], k)
    else
      AttemptBounds(it, oracle, k, photoSent, j, flag);
      Continue(it, oracle, attempt, flag, Attempt(it, oracle, k, photoSent, j, flag))
  }

  /** What follows attempt number `attempt` that ended as `p` says: done, skip, or wait and try again. */
  function Continue(it: Item, oracle: seq<Outcome>, attempt: nat, flag: PhotoFlag, p: Pass): (seq<Event>, nat)
    requires attempt < MaxAttempts && p.videoIndex <= |it.attachments|
    decreases MaxAttempts - attempt, 0
  {
    match p.ending
    case Ok => (p.events, p.next)
    case Failed => (p.events + [SkipNotice(it.index)], p.next)
    case RetryAfter(n) =>
      var rest := Attempts(it, oracle, p.next, attempt + 1, p.photoSent, p.videoIndex, flag);
      (p.events + [RetryNotice(it.index, n + 1)] + rest.0, rest.1)
  }

  /** Every item carries its own position and only channel traffic about itself. */
  predicate Numbered(items: seq<Item>)
  {
    forall i :: 0 <= i < |items| ==> items[i].index == i && Rendered(items[i])
  }

  /** The blocks of a pack as items, numbered by position. */
  function Items(content: seq<Block>): (items: seq<Item>)
    ensures |items| == |content| && Numbered(items)
    ensures forall i :: 0 <= i < |content| ==> items[i] == Prepare(i, content[i])
  {
    seq(|content|, i requires 0 <= i < |content| => Prepare(i, content[i]))
  }

  /** One item from its first attempt; `AfterNotice` is the source as written. */
  function ItemRun(it: Item, oracle: seq<Outcome>, k: nat, flag: PhotoFlag): (seq<Event>, nat)
  {
    Attempts(it, oracle, k, 0, false, 0, flag)
  }

  /** The items from index `i` on, then the completion notice. */
  function PublishFrom(items: seq<Item>, i: nat, oracle: seq<Outcome>, k: nat, flag: PhotoFlag): seq<Event>
    decreases |items| - i
  {
    if i >= |items| then [DoneNotice]
    else
      var r := ItemRun(items[i], oracle, k, flag);
      r.0 + PublishFrom(items, i + 1, oracle, r.1, flag)
  }

  /** The whole run, given what `get_pack_for_sending` returned. */
  function Publish(content: Option<seq<Block>>, oracle: seq<Outcome>, flag: PhotoFlag): seq<Event>
  {
    if content.None? || content.value == [] then [EmptyPackNotice]
    else PublishFrom(Items(content.value), 0, oracle, 0, flag)
  }

  // ---------------------------------------------------------------------------
  // The publisher as a loop over items, attempts and attachments; with
  // `AfterNotice` it is the source as written

  /** `_publish_pack_logic` for the pack called `name` in `store`. */
  method PublishPack(store: Store, name: string, oracle: seq<Outcome>, flag: PhotoFlag) returns (events: seq<Event>)
    ensures events == Publish(store.GetPackForSending(name), oracle, flag)
  {
    var content := store.GetPackForSending(name);
    if content.None? || content.value == [] {
      return [EmptyPackNotice];
    }
    var blocks := content.value;
    ghost var items := Items(blocks);
    events := [];
    var k := 0;
    var photoIndex := 0;
    while photoIndex < |blocks|
      invariant photoIndex <= |blocks|
      invariant events + PublishFrom(items, photoIndex, oracle, k, flag) == PublishFrom(items, 0, oracle, 0, flag)
    {
      var itemEvents, next := PublishItem(Prepare(photoIndex, blocks[photoIndex]), oracle, k, flag);
      AppendAssoc(events, itemEvents, PublishFrom(items, photoIndex + 1, oracle, next, flag));
      events := events + itemEvents;
      k := next;
      photoIndex := photoIndex + 1;
    }
    events := events + [DoneNotice];
  }

  /** One item: up to five attempts, each resuming where the last one stopped. */
  method PublishItem(it: Item, oracle: seq<Outcome>, k0: nat, flag: PhotoFlag) returns (events: seq<Event>, k: nat)
    ensures (events, k) == ItemRun(it, oracle, k0, flag)
  {
    ghost var goal := ItemRun(it, oracle, k0, flag);
    events, k := [], k0;
    var photoSent := false;
    var videoIndex: nat, attempt: nat := 0, 0;
    var finished := false;
    while attempt < MaxAttempts && !finished
      invariant attempt <= MaxAttempts && videoIndex <= |it.attachments|
      invariant !finished ==>
        var rest := Attempts(it, oracle, k, attempt, photoSent, videoIndex, flag);
        events + rest.0 == goal.0 && rest.1 == goal.1
      invariant finished ==> events == goal.0 && k == goal.1
      decreases MaxAttempts - attempt, if finished then 0 else 1
    {
      var p := RunAttempt(it, oracle, k, photoSent, videoIndex, flag);
      AttemptBounds(it, oracle, k, photoSent, videoIndex, flag);
      ghost var now := Attempts(it, oracle, k, attempt, photoSent, videoIndex, flag);
      assert now == Continue(it, oracle, attempt, flag, p);
      if p.ending == Ok {
        assert now == (p.events, p.next);
        events, finished := events + p.events, true;
      } else if p.ending == Failed {
        assert now == (p.events + [SkipNotice(it.index)], p.next);
        events, finished := events + (p.events + [SkipNotice(it.index)]), true;
      } else {
        var notice := RetryNotice(it.index, p.ending.seconds + 1);
        ghost var later := Attempts(it, oracle, p.next, attempt + 1, p.photoSent, p.videoIndex, flag);
        assert now == (p.events + [notice] + later.0, later.1);
        AppendAssoc(events, p.events + [notice], later.0);
        events := events + (p.events + [notice]);
        attempt := attempt + 1;
      }
      k, photoSent, videoIndex := p.next, p.photoSent, p.videoIndex;
    }
    if !finished {
      events := events + [GaveUpNotice(it.index)];
    }
  }

  /** One pass through the `try` body. */
  method RunAttempt(it: Item, oracle: seq<Outcome>, k: nat, photoSent: bool, j: nat, flag: PhotoFlag) returns (p: Pass)
    requires j <= |it.attachments|
    ensures p == Attempt(it, oracle, k, photoSent, j, flag)
  {
    if photoSent {
      p := RunAttachments(it, j, oracle, k);
    } else {
      var ph := RunPhotoStep(it.index, it.photoFileId, oracle, k, flag);
      if ph.ending != Ok {
        p := ph.(videoIndex := j);
      } else {
        var vs := RunAttachments(it, j, oracle, ph.next);
        p := vs.(events := ph.events + vs.events);
      }
    }
  }

  /**
   * The photo step; the temporary file is removed on every way out once it has
   * been written. As written, `photo_sent` is set only after the progress notice.
   */
  method RunPhotoStep(item: nat, fileId: string, oracle: seq<Outcome>, k: nat, flag: PhotoFlag) returns (p: Pass)
    ensures p == PhotoStep(item, fileId, oracle, k, flag)
  {
    var events: seq<Event> := [];
    var next := k;
    var sent := false;
    var ending := At(oracle, next);
    next := next + 1;
    if ending == Ok {
      ending := At(oracle, next);
      next := next + 1;
      if ending == Ok {
        events := [TempFileWritten(item)];
        ending := At(oracle, next);
        next := next + 1;
        if ending == Ok {
          events := events + [ChannelPhoto(item, fileId)];
          if flag == AfterSetPhoto {
            sent := true;
          }
          ending := At(oracle, next);
          next := next + 1;
          if ending == Ok {
            events := events + [ProgressNotice(item)];
            sent := true;
          }
        }
        events := events + [TempFileRemoved(item)];
      }
    }
    p := Pass(events, next, sent, 0, ending);
  }

  /** The attachment loop from `video_index == j`. */
  method RunAttachments(it: Item, j: nat, oracle: seq<Outcome>, k: nat) returns (p: Pass)
    requires j <= |it.attachments|
    ensures p == SendAttachments(it, j, oracle, k)
  {
    var events: seq<Event> := [];
    var index, next := j, k;
    while index < |it.attachments| && At(oracle, next) == Ok
      invariant j <= index <= |it.attachments|
      invariant var rest := SendAttachments(it, index, oracle, next);
        SendAttachments(it, j, oracle, k) == rest.(events := events + rest.events)
      decreases |it.attachments| - index
    {
      AppendAssoc(events, [it.attachments[index]], SendAttachments(it, index + 1, oracle, next + 1).events);
      events := events + [it.attachments[index]];
      index, next := index + 1, next + 1;
    }
    if index == |it.attachments| {
      p := Pass(events, next, true, index, Ok);
    } else {
      p := Pass(events, next + 1, true, index, At(oracle, next));
    }
  }

  // ---------------------------------------------------------------------------
  // Sequence facts, stated over plain events

  lemma AppendAssoc(a: seq<Event>, b: seq<Event>, c: seq<Event>)
    ensures (a + b) + c == a + (b + c)
  {
  }

  lemma AppendEmpty(a: seq<Event>)
    ensures a + [] == a && [] + a == a
  {
  }

  lemma PrefixExtend(x: seq<Event>, y: seq<Event>, z: seq<Event>)
    requires y <= z
    ensures x + y <= x + z
  {
    assert (x + z)[..|x + y|] == x + z[..|y|];
  }

  lemma SliceCons(s: seq<Event>, j: nat)
    requires j < |s|
    ensures s[j..] == [s[j]] + s[j + 1..]
  {
  }

  // ---------------------------------------------------------------------------
  // Views of a trace

  /** The kinds of events a trace is searched for. */
  datatype View =
    | OnChannel | Retries | Skips | GiveUps | Completions | EmptyNotices | TempWrites | TempRemovals | AboutItem(i: nat)

  predicate Shows(v: View, e: Event)
  {
    match v
    case OnChannel => IsChannel(e)
    case Retries => e.RetryNotice?
    case Skips => e.SkipNotice?
    case GiveUps => e.GaveUpNotice?
    case Completions => e.DoneNotice?
    case EmptyNotices => e.EmptyPackNotice?
    case TempWrites => e.TempFileWritten?
    case TempRemovals => e.TempFileRemoved?
    case AboutItem(i) => HasItem(e) && e.item == i
  }

  /** The events of `evs` that `v` shows, in order. */
  function Filter(evs: seq<Event>, v: View): (r: seq<Event>)
    ensures |r| <= |evs|
  {
    if evs == [] then [] else (if Shows(v, evs[0]) then [evs[0]] else []) + Filter(evs[1..], v)
  }

  lemma {:induction false} FilterAppend(a: seq<Event>, b: seq<Event>, v: View)
    ensures Filter(a + b, v) == Filter(a, v) + Filter(b, v)
  {
    if a == [] {
      assert a + b == b;
    } else {
      var h := if Shows(v, a[0]) then [a[0]] else [];
      calc {
        Filter(a + b, v);
        { assert (a + b)[0] == a[0]; assert (a + b)[1..] == a[1..] + b; }
        h + Filter(a[1..] + b, v);
        { FilterAppend(a[1..], b, v); }
        h + (Filter(a[1..], v) + Filter(b, v));
      }
    }
  }

  lemma FilterSingle(e: Event, v: View)
    ensures Filter([e], v) == if Shows(v, e) then [e] else []
  {
    assert [e][1..] == [];
  }

  lemma {:induction false} FilterNone(evs: seq<Event>, v: View)
    requires forall i :: 0 <= i < |evs| ==> !Shows(v, evs[i])
    ensures Filter(evs, v) == []
  {
    if evs != [] {
      FilterNone(evs[1..], v);
    }
  }

  lemma {:induction false} FilterAll(evs: seq<Event>, v: View)
    requires forall i :: 0 <= i < |evs| ==> Shows(v, evs[i])
    ensures Filter(evs, v) == evs
  {
    if evs != [] {
      FilterAll(evs[1..], v);
    }
  }

  /** What reached the channel, in order. */
  function Channel(evs: seq<Event>): seq<Event>
  {
    Filter(evs, OnChannel)
  }

  function Count(evs: seq<Event>, v: View): nat
  {
    |Filter(evs, v)|
  }

  /** The events about item `i`. */
  function OfItem(evs: seq<Event>, i: nat): seq<Event>
  {
    Filter(evs, AboutItem(i))
  }

  lemma CountAppend3(a: seq<Event>, x: Event, c: seq<Event>, v: View)
    ensures Count(a + [x] + c, v) == Count(a, v) + (if Shows(v, x) then 1 else 0) + Count(c, v)
  {
    FilterAppend(a + [x], c, v);
    FilterAppend(a, [x], v);
    FilterSingle(x, v);
  }

  lemma CountAppend1(a: seq<Event>, x: Event, v: View)
    ensures Count(a + [x], v) == Count(a, v) + (if Shows(v, x) then 1 else 0)
  {
    FilterAppend(a, [x], v);
    FilterSingle(x, v);
  }

  /** What one pass may emit: channel effects, the temporary file, the progress notice, all about `item`. */
  predicate PassEvents(evs: seq<Event>, item: nat)
  {
    forall i :: 0 <= i < |evs| ==>
      (IsChannel(evs[i]) || evs[i].TempFileWritten? || evs[i].TempFileRemoved? || evs[i].ProgressNotice?) && evs[i].item == item
  }

  /** Channel traffic about `item` and nothing else. */
  predicate PlainChannel(evs: seq<Event>, item: nat)
  {
    PassEvents(evs, item) && Channel(evs) == evs && Count(evs, TempWrites) == 0 && Count(evs, TempRemovals) == 0
  }

  lemma PlainChannelCons(d: Event, rest: seq<Event>, item: nat)
    requires IsChannel(d) && d.item == item && PlainChannel(rest, item)
    ensures PlainChannel([d] + rest, item)
  {
    FilterAppend([d], rest, OnChannel);
    FilterAppend([d], rest, TempWrites);
    FilterAppend([d], rest, TempRemovals);
    FilterSingle(d, OnChannel);
    FilterSingle(d, TempWrites);
    FilterSingle(d, TempRemovals);
  }

  /** The item's events end with a skip or give-up notice. */
  predicate Stopped(evs: seq<Event>)
  {
    evs != [] && (evs[|evs| - 1].SkipNotice? || evs[|evs| - 1].GaveUpNotice?)
  }

  lemma PassHasNoNotices(evs: seq<Event>, item: nat)
    requires PassEvents(evs, item)
    ensures Count(evs, Retries) == 0 && Count(evs, Skips) == 0 && Count(evs, GiveUps) == 0
    ensures Count(evs, Completions) == 0 && Count(evs, EmptyNotices) == 0
    ensures !Stopped(evs)
  {
    FilterNone(evs, Retries);
    FilterNone(evs, Skips);
    FilterNone(evs, GiveUps);
    FilterNone(evs, Completions);
    FilterNone(evs, EmptyNotices);
  }

  // ---------------------------------------------------------------------------
  // Outcomes consumed from the oracle

  function RetriesIn(oracle: seq<Outcome>, k: nat, n: nat): nat
    decreases n - k
  {
    if n <= k then 0 else (if At(oracle, k).RetryAfter? then 1 else 0) + RetriesIn(oracle, k + 1, n)
  }

  function FailuresIn(oracle: seq<Outcome>, k: nat, n: nat): nat
    decreases n - k
  {
    if n <= k then 0 else (if At(oracle, k) == Failed then 1 else 0) + FailuresIn(oracle, k + 1, n)
  }

  lemma {:induction false} CountsSplit(oracle: seq<Outcome>, k: nat, m: nat, n: nat)
    requires k <= m <= n
    ensures RetriesIn(oracle, k, n) == RetriesIn(oracle, k, m) + RetriesIn(oracle, m, n)
    ensures FailuresIn(oracle, k, n) == FailuresIn(oracle, k, m) + FailuresIn(oracle, m, n)
    decreases m - k
  {
    if k < m {
      CountsSplit(oracle, k + 1, m, n);
    }
  }

  lemma {:induction false} AllOkCounts(oracle: seq<Outcome>, k: nat, n: nat)
    requires forall m :: k <= m < n ==> At(oracle, m) == Ok
    ensures RetriesIn(oracle, k, n) == 0 && FailuresIn(oracle, k, n) == 0
    decreases n - k
  {
    if k < n {
      AllOkCounts(oracle, k + 1, n);
    }
  }

  /** A pass took the outcomes from `k` to `p.next`: all succeeded except the last when the pass ended early. */
  predicate Consumes(oracle: seq<Outcome>, k: nat, p: Pass)
  {
    k <= p.next
    && (p.ending != Ok ==> k < p.next && At(oracle, p.next - 1) == p.ending)
    && forall m :: k <= m < p.next && (p.ending == Ok || m < p.next - 1) ==> At(oracle, m) == Ok
  }

  lemma PassCounts(oracle: seq<Outcome>, k: nat, p: Pass)
    requires Consumes(oracle, k, p)
    ensures RetriesIn(oracle, k, p.next) == (if p.ending.RetryAfter? then 1 else 0)
    ensures FailuresIn(oracle, k, p.next) == (if p.ending == Failed then 1 else 0)
  {
    if p.ending == Ok {
      AllOkCounts(oracle, k, p.next);
    } else {
      AllOkCounts(oracle, k, p.next - 1);
      CountsSplit(oracle, k, p.next - 1, p.next);
    }
  }

  // ---------------------------------------------------------------------------
  // Shape of a pass

  lemma {:induction false} SendAttachmentsShape(it: Item, j: nat, oracle: seq<Outcome>, k: nat)
    requires j <= |it.attachments|
    ensures var p := SendAttachments(it, j, oracle, k);
      j <= p.videoIndex <= |it.attachments| && p.photoSent
      && (p.ending == Ok ==> p.videoIndex == |it.attachments|)
      && Consumes(oracle, k, p)
    decreases |it.attachments| - j
  {
    if j < |it.attachments| && At(oracle, k) == Ok {
      SendAttachmentsShape(it, j + 1, oracle, k + 1);
    }
  }

  /** The attachments a pass sent, followed by those it did not reach, are all the attachments from `j` on. */
  lemma {:induction false} SendAttachmentsEvents(it: Item, j: nat, oracle: seq<Outcome>, k: nat)
    requires j <= |it.attachments|
    ensures var p := SendAttachments(it, j, oracle, k);
      j <= p.videoIndex <= |it.attachments| && p.events + it.attachments[p.videoIndex..] == it.attachments[j..]
    decreases |it.attachments| - j
  {
    SendAttachmentsShape(it, j, oracle, k);
    if j < |it.attachments| && At(oracle, k) == Ok {
      SendAttachmentsEvents(it, j + 1, oracle, k + 1);
      var rest := SendAttachments(it, j + 1, oracle, k + 1);
      AppendAssoc([it.attachments[j]], rest.events, it.attachments[rest.videoIndex..]);
      SliceCons(it.attachments, j);
    } else {
      AppendEmpty(it.attachments[j..]);
    }
  }

  /** Attachments alone: what they emit is channel traffic about the item and nothing else. */
  lemma {:induction false} SendAttachmentsPlain(it: Item, j: nat, oracle: seq<Outcome>, k: nat)
    requires j <= |it.attachments| && Rendered(it)
    ensures PlainChannel(SendAttachments(it, j, oracle, k).events, it.index)
    decreases |it.attachments| - j
  {
    if j < |it.attachments| && At(oracle, k) == Ok {
      SendAttachmentsPlain(it, j + 1, oracle, k + 1);
      var rest := SendAttachments(it, j + 1, oracle, k + 1);
      PlainChannelCons(it.attachments[j], rest.events, it.index);
    }
  }

  lemma PhotoStepShape(item: nat, fileId: string, oracle: seq<Outcome>, k: nat, flag: PhotoFlag)
    ensures var p := PhotoStep(item, fileId, oracle, k, flag);
      Consumes(oracle, k, p) && PassEvents(p.events, item) && p.videoIndex == 0
      && (p.ending == Ok ==> p.photoSent)
  {
  }

  /** The temporary photo file is removed on every way out of the photo step that wrote it. */
  lemma PhotoStepTemp(item: nat, fileId: string, oracle: seq<Outcome>, k: nat, flag: PhotoFlag)
    ensures var p := PhotoStep(item, fileId, oracle, k, flag);
      Count(p.events, TempWrites) == Count(p.events, TempRemovals) <= 1
  {
    var w, ph, pr, rm := TempFileWritten(item), ChannelPhoto(item, fileId), ProgressNotice(item), TempFileRemoved(item);
    if At(oracle, k) != Ok || At(oracle, k + 1) != Ok {
    } else if At(oracle, k + 2) != Ok {
      TempsAround(w, [], rm);
    } else if At(oracle, k + 3) != Ok {
      assert [w, ph, rm] == [w] + [ph] + [rm];
      TempsAround(w, [ph], rm);
    } else {
      assert [w, ph, pr, rm] == [w] + [ph, pr] + [rm];
      TempsAround(w, [ph, pr], rm);
    }
  }

  /** One write, then events that touch no temporary file, then one removal. */
  lemma TempsAround(w: Event, mid: seq<Event>, rm: Event)
    requires w.TempFileWritten? && rm.TempFileRemoved?
    requires forall i :: 0 <= i < |mid| ==> !mid[i].TempFileWritten? && !mid[i].TempFileRemoved?
    ensures Count([w] + mid + [rm], TempWrites) == 1 && Count([w] + mid + [rm], TempRemovals) == 1
  {
    FilterNone(mid, TempWrites);
    FilterNone(mid, TempRemovals);
    FilterAppend([w] + mid, [rm], TempWrites);
    FilterAppend([w] + mid, [rm], TempRemovals);
    FilterAppend([w], mid, TempWrites);
    FilterAppend([w], mid, TempRemovals);
    FilterSingle(w, TempWrites);
    FilterSingle(w, TempRemovals);
    FilterSingle(rm, TempWrites);
    FilterSingle(rm, TempRemovals);
  }

  /** With the corrected flag, a photo step put the channel photo out exactly when it marked it sent. */
  lemma PhotoStepChannel(item: nat, fileId: string, oracle: seq<Outcome>, k: nat)
    ensures var p := PhotoStep(item, fileId, oracle, k, AfterSetPhoto);
      Channel(p.events) == if p.photoSent then [ChannelPhoto(item, fileId)] else []
  {
    var w, ph, pr, rm := TempFileWritten(item), ChannelPhoto(item, fileId), ProgressNotice(item), TempFileRemoved(item);
    FilterSingle(w, OnChannel);
    FilterSingle(ph, OnChannel);
    FilterSingle(pr, OnChannel);
    FilterSingle(rm, OnChannel);
    if At(oracle, k) != Ok || At(oracle, k + 1) != Ok {
    } else if At(oracle, k + 2) != Ok {
      assert [w, rm] == [w] + [rm];
      FilterAppend([w], [rm], OnChannel);
    } else if At(oracle, k + 3) != Ok {
      assert [w, ph, rm] == [w] + [ph] + [rm];
      FilterAppend([w] + [ph], [rm], OnChannel);
      FilterAppend([w], [ph], OnChannel);
    } else {
      assert [w, ph, pr, rm] == [w] + [ph] + [pr] + [rm];
      FilterAppend([w] + [ph] + [pr], [rm], OnChannel);
      FilterAppend([w] + [ph], [pr], OnChannel);
      FilterAppend([w], [ph], OnChannel);
    }
  }

  lemma AttemptBounds(it: Item, oracle: seq<Outcome>, k: nat, photoSent: bool, j: nat, flag: PhotoFlag)
    requires j <= |it.attachments|
    ensures var p := Attempt(it, oracle, k, photoSent, j, flag);
      j <= p.videoIndex <= |it.attachments| && (photoSent ==> p.photoSent)
  {
    if photoSent {
      SendAttachmentsShape(it, j, oracle, k);
    } else {
      var ph := PhotoStep(it.index, it.photoFileId, oracle, k, flag);
      if ph.ending == Ok {
        SendAttachmentsShape(it, j, oracle, ph.next);
      }
    }
  }

  /** What every pass guarantees (`AttemptShape`), stated of the pass alone. */
  predicate WellFormedPass(oracle: seq<Outcome>, k: nat, it: Item, p: Pass)
  {
    p.videoIndex <= |it.attachments| && (!p.photoSent ==> p.videoIndex == 0)
    && Consumes(oracle, k, p) && PassEvents(p.events, it.index)
    && Count(p.events, TempWrites) == Count(p.events, TempRemovals)
    && (p.ending == Ok ==> p.photoSent && p.videoIndex == |it.attachments|)
  }

  /** A pass emits no notices of its own, takes its outcomes in order and leaves no temporary file behind. */
  lemma AttemptShape(it: Item, oracle: seq<Outcome>, k: nat, photoSent: bool, j: nat, flag: PhotoFlag)
    requires j <= |it.attachments| && (!photoSent ==> j == 0) && Rendered(it)
    ensures var p := Attempt(it, oracle, k, photoSent, j, flag);
      WellFormedPass(oracle, k, it, p) && j <= p.videoIndex && (photoSent ==> p.photoSent)
  {
    if photoSent {
      SendAttachmentsShape(it, j, oracle, k);
      SendAttachmentsPlain(it, j, oracle, k);
    } else {
      var ph := PhotoStep(it.index, it.photoFileId, oracle, k, flag);
      PhotoStepShape(it.index, it.photoFileId, oracle, k, flag);
      PhotoStepTemp(it.index, it.photoFileId, oracle, k, flag);
      if ph.ending == Ok {
        var vs := SendAttachments(it, j, oracle, ph.next);
        SendAttachmentsShape(it, j, oracle, ph.next);
        SendAttachmentsPlain(it, j, oracle, ph.next);
        FilterAppend(ph.events, vs.events, TempWrites);
        FilterAppend(ph.events, vs.events, TempRemovals);
      }
    }
  }

  /** With the corrected flag, what a pass put on the channel and what remains after it make up what remained before it. */
  lemma AttemptChannel(it: Item, oracle: seq<Outcome>, k: nat, photoSent: bool, j: nat)
    requires j <= |it.attachments| && (!photoSent ==> j == 0) && Rendered(it)
    ensures var p := Attempt(it, oracle, k, photoSent, j, AfterSetPhoto);
      p.videoIndex <= |it.attachments|
      && Channel(p.events) + Remaining(it, p.photoSent, p.videoIndex) == Remaining(it, photoSent, j)
  {
    AttemptBounds(it, oracle, k, photoSent, j, AfterSetPhoto);
    if photoSent {
      var p := SendAttachments(it, j, oracle, k);
      SendAttachmentsEvents(it, j, oracle, k);
      SendAttachmentsPlain(it, j, oracle, k);
      AppendEmpty(it.attachments[p.videoIndex..]);
      AppendEmpty(it.attachments[j..]);
    } else {
      FreshChannel(it, oracle, k);
    }
  }

  lemma FreshChannel(it: Item, oracle: seq<Outcome>, k: nat)
    requires Rendered(it)
    ensures var p := Attempt(it, oracle, k, false, 0, AfterSetPhoto);
      p.videoIndex <= |it.attachments|
      && Channel(p.events) + Remaining(it, p.photoSent, p.videoIndex) == Remaining(it, false, 0)
  {
    AttemptBounds(it, oracle, k, false, 0, AfterSetPhoto);
    var photo := ChannelPhoto(it.index, it.photoFileId);
    var ph := PhotoStep(it.index, it.photoFileId, oracle, k, AfterSetPhoto);
    PhotoStepShape(it.index, it.photoFileId, oracle, k, AfterSetPhoto);
    PhotoStepChannel(it.index, it.photoFileId, oracle, k);
    var all := it.attachments[0..];
    if ph.ending == Ok {
      var vs := SendAttachments(it, 0, oracle, ph.next);
      var left := it.attachments[vs.videoIndex..];
      SendAttachmentsShape(it, 0, oracle, ph.next);
      SendAttachmentsEvents(it, 0, oracle, ph.next);
      SendAttachmentsPlain(it, 0, oracle, ph.next);
      assert Attempt(it, oracle, k, false, 0, AfterSetPhoto) == vs.(events := ph.events + vs.events);
      FilterAppend(ph.events, vs.events, OnChannel);
      assert Channel(ph.events + vs.events) == [photo] + vs.events;
      AppendEmpty(left);
      AppendAssoc([photo], vs.events, left);
    } else if ph.photoSent {
      AppendEmpty(all);
    } else {
      AppendEmpty([photo] + all);
    }
  }

  // ---------------------------------------------------------------------------
  // One item: the five attempts

  /**
   * With the corrected flag, an item never puts anything on the channel twice or
   * out of order: the channel gets a prefix of what the item still had to
   * produce, and all of it unless the item ended in a skip or give-up.
   */
  lemma {:induction false} AttemptsChannel(it: Item, oracle: seq<Outcome>, k: nat, attempt: nat, photoSent: bool, j: nat)
    requires attempt <= MaxAttempts && j <= |it.attachments| && (!photoSent ==> j == 0) && Rendered(it)
    ensures var r := Attempts(it, oracle, k, attempt, photoSent, j, AfterSetPhoto);
      Channel(r.0) <= Remaining(it, photoSent, j)
      && (!Stopped(r.0) ==> Channel(r.0) == Remaining(it, photoSent, j))
    decreases MaxAttempts - attempt, 1
  {
    if attempt == MaxAttempts {
      FilterSingle(GaveUpNotice(it.index), OnChannel);
    } else {
      var p := Attempt(it, oracle, k, photoSent, j, AfterSetPhoto);
      AttemptShape(it, oracle, k, photoSent, j, AfterSetPhoto);
      AttemptChannel(it, oracle, k, photoSent, j);
      ContinueChannel(it, oracle, attempt, Remaining(it, photoSent, j), p, k);
    }
  }

  lemma {:induction false} ContinueChannel(it: Item, oracle: seq<Outcome>, attempt: nat, before: seq<Event>, p: Pass, k: nat)
    requires attempt < MaxAttempts && WellFormedPass(oracle, k, it, p) && Rendered(it)
    requires Channel(p.events) + Remaining(it, p.photoSent, p.videoIndex) == before
    ensures var r := Continue(it, oracle, attempt, AfterSetPhoto, p);
      Channel(r.0) <= before && (!Stopped(r.0) ==> Channel(r.0) == before)
    decreases MaxAttempts - attempt, 0
  {
    var after := Remaining(it, p.photoSent, p.videoIndex);
    if p.ending.RetryAfter? {
      var x := RetryNotice(it.index, p.ending.seconds + 1);
      var rest := Attempts(it, oracle, p.next, attempt + 1, p.photoSent, p.videoIndex, AfterSetPhoto);
      assert Continue(it, oracle, attempt, AfterSetPhoto, p) == (p.events + [x] + rest.0, rest.1);
      AttemptsChannel(it, oracle, p.next, attempt + 1, p.photoSent, p.videoIndex);
      RetryChannel(p.events, x, rest.0, after, before);
    } else if p.ending == Failed {
      assert Continue(it, oracle, attempt, AfterSetPhoto, p) == (p.events + [SkipNotice(it.index)], p.next);
      StopChannel(p.events, SkipNotice(it.index), after, before);
    } else {
      assert Continue(it, oracle, attempt, AfterSetPhoto, p) == (p.events, p.next);
      assert after == [];
      PassHasNoNotices(p.events, it.index);
      AppendEmpty(Channel(p.events));
    }
  }

  /** A notice that is not channel traffic, followed by a later attempt's events, keeps the channel a prefix of what remained. */
  lemma RetryChannel(pe: seq<Event>, x: Event, rest: seq<Event>, after: seq<Event>, before: seq<Event>)
    requires !IsChannel(x) && !x.SkipNotice? && !x.GaveUpNotice?
    requires Channel(pe) + after == before
    requires Channel(rest) <= after && (!Stopped(rest) ==> Channel(rest) == after)
    ensures Channel(pe + [x] + rest) <= before
    ensures !Stopped(pe + [x] + rest) ==> Channel(pe + [x] + rest) == before
  {
    NoticeChannel(pe, x, rest);
    NoticeStopped(pe, x, rest);
    PrefixExtend(Channel(pe), Channel(rest), after);
  }

  /** A notice that is not channel traffic leaves the channel of what surrounds it unchanged. */
  lemma NoticeChannel(pe: seq<Event>, x: Event, rest: seq<Event>)
    requires !IsChannel(x)
    ensures Channel(pe + [x] + rest) == Channel(pe) + Channel(rest)
  {
    FilterAppend(pe + [x], rest, OnChannel);
    FilterAppend(pe, [x], OnChannel);
    FilterSingle(x, OnChannel);
    AppendEmpty(Channel(pe));
  }

  /** Whether events ending in what follows a retry notice stop the item depends only on what follows. */
  lemma NoticeStopped(pe: seq<Event>, x: Event, rest: seq<Event>)
    requires !x.SkipNotice? && !x.GaveUpNotice?
    ensures Stopped(pe + [x] + rest) == Stopped(rest)
  {
    var evs := pe + [x] + rest;
    if rest != [] {
      assert evs[|evs| - 1] == rest[|rest| - 1];
    }
  }

  /** A final notice that is not channel traffic keeps the channel a prefix of what remained. */
  lemma StopChannel(pe: seq<Event>, x: Event, after: seq<Event>, before: seq<Event>)
    requires !IsChannel(x) && Channel(pe) + after == before
    ensures Channel(pe + [x]) <= before
  {
    FilterAppend(pe, [x], OnChannel);
    FilterSingle(x, OnChannel);
    AppendEmpty(Channel(pe));
    PrefixExtend(Channel(pe), [], after);
  }

  // ---------------------------------------------------------------------------
  // One item under either flag: the photo possibly again, each attachment once

  /** The channel photo of `it`. */
  function PhotoOf(it: Item): Event
  {
    ChannelPhoto(it.index, it.photoFileId)
  }

  /** `n` copies of `e`. */
  function Repeat(e: Event, n: nat): (r: seq<Event>)
    ensures |r| == n && forall i :: 0 <= i < n ==> r[i] == e
  {
    if n == 0 then [] else [e] + Repeat(e, n - 1)
  }

  /**
   * `ch` is some copies of the item's photo, at most one per attempt, followed by
   * its first `m` attachments in order; when `complete`, the photo went out and
   * so did every attachment.
   */
  predicate PhotosThenAttachments(it: Item, ch: seq<Event>, complete: bool)
  {
    exists n: nat, m: nat ::
      (n <= MaxAttempts && m <= |it.attachments|
       && ch == Repeat(PhotoOf(it), n) + it.attachments[..m]
       && (complete ==> 0 < n && m == |it.attachments|))
  }

  /** A photo step changes the channel photo at most once, and has changed it when it counts it as sent. */
  lemma PhotoStepPhotos(item: nat, fileId: string, oracle: seq<Outcome>, k: nat, flag: PhotoFlag) returns (x: nat)
    ensures var p := PhotoStep(item, fileId, oracle, k, flag);
      x <= 1 && Channel(p.events) == Repeat(ChannelPhoto(item, fileId), x) && (p.photoSent ==> x == 1)
  {
    var q := PhotoStep(item, fileId, oracle, k, AfterSetPhoto);
    PhotoStepChannel(item, fileId, oracle, k);
    assert PhotoStep(item, fileId, oracle, k, flag).events == q.events;
    x := if q.photoSent then 1 else 0;
  }

  /** The attachments a pass sent are exactly those from `j` up to where it stopped. */
  lemma SentSlice(evs: seq<Event>, atts: seq<Event>, j: nat, vi: nat)
    requires j <= vi <= |atts| && evs + atts[vi..] == atts[j..]
    ensures evs == atts[j..vi]
  {
    assert atts[j..] == atts[j..vi] + atts[vi..];
    assert evs == (evs + atts[vi..])[..|evs|];
  }

  /**
   * One pass under either flag: at most one copy of the photo, and none when the
   * photo was already counted as sent, then the attachments from `video_index` on
   * up to where the pass stopped.
   */
  lemma AttemptPhotos(it: Item, oracle: seq<Outcome>, k: nat, photoSent: bool, j: nat, flag: PhotoFlag) returns (x: nat)
    requires j <= |it.attachments| && (!photoSent ==> j == 0) && Rendered(it)
    ensures var p := Attempt(it, oracle, k, photoSent, j, flag);
      x <= 1 && (photoSent ==> x == 0) && (!photoSent && p.photoSent ==> x == 1)
      && j <= p.videoIndex <= |it.attachments|
      && Channel(p.events) == Repeat(PhotoOf(it), x) + it.attachments[j..p.videoIndex]
  {
    AttemptBounds(it, oracle, k, photoSent, j, flag);
    if photoSent {
      var p := SendAttachments(it, j, oracle, k);
      SendAttachmentsEvents(it, j, oracle, k);
      SendAttachmentsPlain(it, j, oracle, k);
      SentSlice(p.events, it.attachments, j, p.videoIndex);
      x := 0;
    } else {
      var ph := PhotoStep(it.index, it.photoFileId, oracle, k, flag);
      x := PhotoStepPhotos(it.index, it.photoFileId, oracle, k, flag);
      PhotoStepShape(it.index, it.photoFileId, oracle, k, flag);
      if ph.ending == Ok {
        var vs := SendAttachments(it, 0, oracle, ph.next);
        SendAttachmentsEvents(it, 0, oracle, ph.next);
        SendAttachmentsPlain(it, 0, oracle, ph.next);
        SentSlice(vs.events, it.attachments, 0, vs.videoIndex);
        FilterAppend(ph.events, vs.events, OnChannel);
        assert Attempt(it, oracle, k, false, 0, flag) == vs.(events := ph.events + vs.events);
      } else {
        assert it.attachments[0..0] == [];
      }
    }
  }

  /**
   * Under either flag, and so in the source as written, the attempts of an item
   * from `attempt` on change the channel photo at most once each, and never once
   * it counts as sent; they send each attachment from `video_index == j` on at
   * most once and in order; unless the item is skipped or given up, the photo
   * went out (now or before) and every attachment did.
   */
  lemma {:induction false} AttemptsPhotos(it: Item, oracle: seq<Outcome>, k: nat, attempt: nat, photoSent: bool, j: nat, flag: PhotoFlag)
    returns (n: nat, m: nat)
    requires attempt <= MaxAttempts && j <= |it.attachments| && (!photoSent ==> j == 0) && Rendered(it)
    ensures var r := Attempts(it, oracle, k, attempt, photoSent, j, flag);
      n <= MaxAttempts - attempt && (photoSent ==> n == 0) && j <= m <= |it.attachments|
      && Channel(r.0) == Repeat(PhotoOf(it), n) + it.attachments[j..m]
      && (!Stopped(r.0) ==> m == |it.attachments| && (photoSent || 0 < n))
    decreases MaxAttempts - attempt, 1
  {
    if attempt == MaxAttempts {
      FilterSingle(GaveUpNotice(it.index), OnChannel);
      n, m := 0, j;
    } else {
      var p := Attempt(it, oracle, k, photoSent, j, flag);
      AttemptShape(it, oracle, k, photoSent, j, flag);
      var x := AttemptPhotos(it, oracle, k, photoSent, j, flag);
      n, m := ContinuePhotos(it, oracle, attempt, flag, p, k, photoSent, j, x);
    }
  }

  lemma {:induction false} ContinuePhotos(it: Item, oracle: seq<Outcome>, attempt: nat, flag: PhotoFlag, p: Pass, k: nat, photoSent: bool, j: nat, x: nat)
    returns (n: nat, m: nat)
    requires attempt < MaxAttempts && WellFormedPass(oracle, k, it, p) && Rendered(it)
    requires j <= p.videoIndex && (!photoSent ==> j == 0) && (photoSent ==> p.photoSent)
    requires x <= 1 && (photoSent ==> x == 0) && (!photoSent && p.photoSent ==> x == 1)
    requires Channel(p.events) == Repeat(PhotoOf(it), x) + it.attachments[j..p.videoIndex]
    ensures var r := Continue(it, oracle, attempt, flag, p);
      n <= MaxAttempts - attempt && (photoSent ==> n == 0) && j <= m <= |it.attachments|
      && Channel(r.0) == Repeat(PhotoOf(it), n) + it.attachments[j..m]
      && (!Stopped(r.0) ==> m == |it.attachments| && (photoSent || 0 < n))
    decreases MaxAttempts - attempt, 0
  {
    if p.ending.RetryAfter? {
      var notice := RetryNotice(it.index, p.ending.seconds + 1);
      var rest := Attempts(it, oracle, p.next, attempt + 1, p.photoSent, p.videoIndex, flag);
      assert Continue(it, oracle, attempt, flag, p) == (p.events + [notice] + rest.0, rest.1);
      var later, reached := AttemptsPhotos(it, oracle, p.next, attempt + 1, p.photoSent, p.videoIndex, flag);
      RetryPhotos(p.events, notice, rest.0, PhotoOf(it), it.attachments, j, p.videoIndex, reached, x, later);
      n, m := x + later, reached;
    } else if p.ending == Failed {
      assert Continue(it, oracle, attempt, flag, p) == (p.events + [SkipNotice(it.index)], p.next);
      FilterAppend(p.events, [SkipNotice(it.index)], OnChannel);
      FilterSingle(SkipNotice(it.index), OnChannel);
      AppendEmpty(Channel(p.events));
      n, m := x, p.videoIndex;
    } else {
      assert Continue(it, oracle, attempt, flag, p) == (p.events, p.next);
      PassHasNoNotices(p.events, it.index);
      n, m := x, p.videoIndex;
    }
  }

  /** A retry notice between two runs of photos-then-attachments that meet at `vi` joins them into one. */
  lemma RetryPhotos(pe: seq<Event>, notice: Event, rest: seq<Event>, photo: Event, atts: seq<Event>, j: nat, vi: nat, m: nat, x: nat, later: nat)
    requires !IsChannel(notice) && !notice.SkipNotice? && !notice.GaveUpNotice? && j <= vi <= m <= |atts|
    requires Channel(pe) == Repeat(photo, x) + atts[j..vi]
    requires Channel(rest) == Repeat(photo, later) + atts[vi..m]
    requires 0 < later ==> vi == j
    ensures Channel(pe + [notice] + rest) == Repeat(photo, x + later) + atts[j..m]
    ensures !Stopped(pe + [notice] + rest) ==> !Stopped(rest)
  {
    NoticeChannel(pe, notice, rest);
    NoticeStopped(pe, notice, rest);
    JoinPhotos(photo, atts, j, vi, m, x, later);
  }

  lemma JoinPhotos(photo: Event, atts: seq<Event>, j: nat, vi: nat, m: nat, x: nat, later: nat)
    requires j <= vi <= m <= |atts| && (0 < later ==> vi == j)
    ensures Repeat(photo, x) + atts[j..vi] + (Repeat(photo, later) + atts[vi..m]) == Repeat(photo, x + later) + atts[j..m]
  {
    if 0 < later {
      assert atts[j..vi] == [];
      assert Repeat(photo, x) + Repeat(photo, later) == Repeat(photo, x + later);
    } else {
      assert atts[j..vi] + atts[vi..m] == atts[j..m];
    }
  }

  /**
   * Under either flag, and so in the source as written: each attachment reaches
   * the channel at most once and in order, after at most five copies of the
   * photo; unless the item was skipped or given up, the photo went out and every
   * attachment did.
   */
  lemma ItemRunPhotos(it: Item, oracle: seq<Outcome>, k: nat, flag: PhotoFlag)
    requires Rendered(it)
    ensures var evs := ItemRun(it, oracle, k, flag).0;
      PhotosThenAttachments(it, Channel(evs), !Stopped(evs))
  {
    var n, m := AttemptsPhotos(it, oracle, k, 0, false, 0, flag);
    assert it.attachments[0..m] == it.attachments[..m];
  }

  /**
   * Only a rate-limit signal leads to another attempt: the item's retry notices
   * match the `RetryAfter` outcomes it consumed, there are at most five, and the
   * give-up notice appears exactly when all five attempts were rate-limited.
   */
  lemma {:induction false} AttemptsRetries(it: Item, oracle: seq<Outcome>, k: nat, attempt: nat, photoSent: bool, j: nat, flag: PhotoFlag)
    requires attempt <= MaxAttempts && j <= |it.attachments| && (!photoSent ==> j == 0) && Rendered(it)
    ensures var r := Attempts(it, oracle, k, attempt, photoSent, j, flag);
      k <= r.1
      && Count(r.0, Retries) == RetriesIn(oracle, k, r.1) <= MaxAttempts - attempt
      && Count(r.0, GiveUps) == (if Count(r.0, Retries) == MaxAttempts - attempt then 1 else 0)
    decreases MaxAttempts - attempt, 1
  {
    if attempt == MaxAttempts {
      FilterSingle(GaveUpNotice(it.index), Retries);
      FilterSingle(GaveUpNotice(it.index), GiveUps);
    } else {
      AttemptShape(it, oracle, k, photoSent, j, flag);
      ContinueRetries(it, oracle, k, attempt, flag, Attempt(it, oracle, k, photoSent, j, flag));
    }
  }

  lemma {:induction false} ContinueRetries(it: Item, oracle: seq<Outcome>, k: nat, attempt: nat, flag: PhotoFlag, p: Pass)
    requires attempt < MaxAttempts && WellFormedPass(oracle, k, it, p) && Rendered(it)
    ensures var r := Continue(it, oracle, attempt, flag, p);
      k <= r.1
      && Count(r.0, Retries) == RetriesIn(oracle, k, r.1) <= MaxAttempts - attempt
      && Count(r.0, GiveUps) == (if Count(r.0, Retries) == MaxAttempts - attempt then 1 else 0)
    decreases MaxAttempts - attempt, 0
  {
    PassHasNoNotices(p.events, it.index);
    PassCounts(oracle, k, p);
    if p.ending.RetryAfter? {
      var x := RetryNotice(it.index, p.ending.seconds + 1);
      var rest := Attempts(it, oracle, p.next, attempt + 1, p.photoSent, p.videoIndex, flag);
      assert Continue(it, oracle, attempt, flag, p) == (p.events + [x] + rest.0, rest.1);
      AttemptsRetries(it, oracle, p.next, attempt + 1, p.photoSent, p.videoIndex, flag);
      CountAppend3(p.events, x, rest.0, Retries);
      CountAppend3(p.events, x, rest.0, GiveUps);
      CountsSplit(oracle, k, p.next, rest.1);
    } else if p.ending == Failed {
      assert Continue(it, oracle, attempt, flag, p) == (p.events + [SkipNotice(it.index)], p.next);
      CountAppend1(p.events, SkipNotice(it.index), Retries);
      CountAppend1(p.events, SkipNotice(it.index), GiveUps);
    } else {
      assert Continue(it, oracle, attempt, flag, p) == (p.events, p.next);
    }
  }

  /** An item is skipped at most once, exactly when a call failed outright, and that ends the item. */
  lemma {:induction false} AttemptsFailures(it: Item, oracle: seq<Outcome>, k: nat, attempt: nat, photoSent: bool, j: nat, flag: PhotoFlag)
    requires attempt <= MaxAttempts && j <= |it.attachments| && (!photoSent ==> j == 0) && Rendered(it)
    ensures var r := Attempts(it, oracle, k, attempt, photoSent, j, flag);
      k <= r.1 && Count(r.0, Skips) == FailuresIn(oracle, k, r.1) <= 1
      && (Count(r.0, Skips) == 1 ==> r.0[|r.0| - 1] == SkipNotice(it.index))
    decreases MaxAttempts - attempt, 1
  {
    if attempt == MaxAttempts {
      FilterSingle(GaveUpNotice(it.index), Skips);
    } else {
      AttemptShape(it, oracle, k, photoSent, j, flag);
      ContinueFailures(it, oracle, k, attempt, flag, Attempt(it, oracle, k, photoSent, j, flag));
    }
  }

  lemma {:induction false} ContinueFailures(it: Item, oracle: seq<Outcome>, k: nat, attempt: nat, flag: PhotoFlag, p: Pass)
    requires attempt < MaxAttempts && WellFormedPass(oracle, k, it, p) && Rendered(it)
    ensures var r := Continue(it, oracle, attempt, flag, p);
      k <= r.1 && Count(r.0, Skips) == FailuresIn(oracle, k, r.1) <= 1
      && (Count(r.0, Skips) == 1 ==> r.0[|r.0| - 1] == SkipNotice(it.index))
    decreases MaxAttempts - attempt, 0
  {
    PassHasNoNotices(p.events, it.index);
    PassCounts(oracle, k, p);
    if p.ending.RetryAfter? {
      var x := RetryNotice(it.index, p.ending.seconds + 1);
      var rest := Attempts(it, oracle, p.next, attempt + 1, p.photoSent, p.videoIndex, flag);
      var evs := p.events + [x] + rest.0;
      assert Continue(it, oracle, attempt, flag, p) == (evs, rest.1);
      AttemptsFailures(it, oracle, p.next, attempt + 1, p.photoSent, p.videoIndex, flag);
      CountAppend3(p.events, x, rest.0, Skips);
      CountsSplit(oracle, k, p.next, rest.1);
      if Count(evs, Skips) == 1 {
        assert evs[|evs| - 1] == rest.0[|rest.0| - 1];
      }
    } else if p.ending == Failed {
      assert Continue(it, oracle, attempt, flag, p) == (p.events + [SkipNotice(it.index)], p.next);
      CountAppend1(p.events, SkipNotice(it.index), Skips);
    } else {
      assert Continue(it, oracle, attempt, flag, p) == (p.events, p.next);
    }
  }

  /** Every event of an item is about that item, and every temporary photo file it writes is removed again. */
  predicate Tidy(evs: seq<Event>, item: nat)
  {
    Count(evs, TempWrites) == Count(evs, TempRemovals)
    && forall i :: 0 <= i < |evs| ==> HasItem(evs[i]) && evs[i].item == item
  }

  lemma {:induction false} AttemptsTidy(it: Item, oracle: seq<Outcome>, k: nat, attempt: nat, photoSent: bool, j: nat, flag: PhotoFlag)
    requires attempt <= MaxAttempts && j <= |it.attachments| && (!photoSent ==> j == 0) && Rendered(it)
    ensures Tidy(Attempts(it, oracle, k, attempt, photoSent, j, flag).0, it.index)
    decreases MaxAttempts - attempt, 1
  {
    if attempt == MaxAttempts {
      FilterSingle(GaveUpNotice(it.index), TempWrites);
      FilterSingle(GaveUpNotice(it.index), TempRemovals);
    } else {
      AttemptShape(it, oracle, k, photoSent, j, flag);
      ContinueTidy(it, oracle, k, attempt, flag, Attempt(it, oracle, k, photoSent, j, flag));
    }
  }

  lemma {:induction false} ContinueTidy(it: Item, oracle: seq<Outcome>, k: nat, attempt: nat, flag: PhotoFlag, p: Pass)
    requires attempt < MaxAttempts && WellFormedPass(oracle, k, it, p) && Rendered(it)
    ensures Tidy(Continue(it, oracle, attempt, flag, p).0, it.index)
    decreases MaxAttempts - attempt, 0
  {
    if p.ending.RetryAfter? {
      var x := RetryNotice(it.index, p.ending.seconds + 1);
      var rest := Attempts(it, oracle, p.next, attempt + 1, p.photoSent, p.videoIndex, flag);
      assert Continue(it, oracle, attempt, flag, p) == (p.events + [x] + rest.0, rest.1);
      AttemptsTidy(it, oracle, p.next, attempt + 1, p.photoSent, p.videoIndex, flag);
      CountAppend3(p.events, x, rest.0, TempWrites);
      CountAppend3(p.events, x, rest.0, TempRemovals);
    } else if p.ending == Failed {
      assert Continue(it, oracle, attempt, flag, p) == (p.events + [SkipNotice(it.index)], p.next);
      CountAppend1(p.events, SkipNotice(it.index), TempWrites);
      CountAppend1(p.events, SkipNotice(it.index), TempRemovals);
    } else {
      assert Continue(it, oracle, attempt, flag, p) == (p.events, p.next);
    }
  }

  // ---------------------------------------------------------------------------
  // One item, as written and corrected

  /** With the corrected flag, one item puts a prefix of its photo and attachments on the channel, and all of them unless it was skipped or given up. */
  lemma ItemRunChannel(it: Item, oracle: seq<Outcome>, k: nat)
    requires Rendered(it)
    ensures var evs := ItemRun(it, oracle, k, AfterSetPhoto).0;
      Channel(evs) <= Remaining(it, false, 0) && (!Stopped(evs) ==> Channel(evs) == Remaining(it, false, 0))
  {
    AttemptsChannel(it, oracle, k, 0, false, 0);
  }

  /**
   * As written, a rate-limit signal on the progress notice leaves `photo_sent`
   * false although the channel photo was already changed, so the next attempt
   * changes it again: the channel sees the photo twice for an item with one photo.
   */
  lemma PhotoSetTwiceAsWritten()
    ensures var b := Block(0, "p", []);
      var oracle := [Ok, Ok, Ok, RetryAfter(2)];
      Expected(0, b) == [ChannelPhoto(0, "p")]
      && Channel(ItemRun(Prepare(0, b), oracle, 0, AfterNotice).0) == [ChannelPhoto(0, "p"), ChannelPhoto(0, "p")]
      && !(Channel(ItemRun(Prepare(0, b), oracle, 0, AfterNotice).0) <= Expected(0, b))
      && Channel(ItemRun(Prepare(0, b), oracle, 0, AfterSetPhoto).0) == Expected(0, b)
  {
    var b := Block(0, "p", []);
    var oracle := [Ok, Ok, Ok, RetryAfter(2)];
    var it := Prepare(0, b);
    var w, ph, pr, rm := TempFileWritten(0), ChannelPhoto(0, "p"), ProgressNotice(0), TempFileRemoved(0);
    assert it == Item(0, "p", []);
    var first := Pass([w, ph, rm], 4, false, 0, RetryAfter(2));
    var second := Pass([w, ph, pr, rm], 8, true, 0, Ok);
    assert Attempt(it, oracle, 0, false, 0, AfterNotice) == first;
    assert Attempt(it, oracle, 4, false, 0, AfterNotice) == second;
    assert Attempts(it, oracle, 4, 1, false, 0, AfterNotice) == (second.events, 8);
    var evs := first.events + [RetryNotice(0, 3)] + second.events;
    assert ItemRun(Prepare(0, b), oracle, 0, AfterNotice).0 == evs;
    assert evs == [w] + [ph] + [rm] + [RetryNotice(0, 3)] + [w] + [ph] + [pr] + [rm];
    ChannelOfTwoAttempts(w, ph, rm, RetryNotice(0, 3), pr);
    ItemRunChannel(it, oracle, 0);
    var fixed := ItemRun(Prepare(0, b), oracle, 0, AfterSetPhoto).0;
    assert Attempt(it, oracle, 0, false, 0, AfterSetPhoto) == first.(photoSent := true);
    assert Attempt(it, oracle, 4, true, 0, AfterSetPhoto) == Pass([], 4, true, 0, Ok);
    assert fixed == first.events + [RetryNotice(0, 3)];
  }

  lemma ChannelOfTwoAttempts(w: Event, ph: Event, rm: Event, rn: Event, pr: Event)
    requires IsChannel(ph) && !IsChannel(w) && !IsChannel(rm) && !IsChannel(rn) && !IsChannel(pr)
    ensures Channel([w] + [ph] + [rm] + [rn] + [w] + [ph] + [pr] + [rm]) == [ph, ph]
  {
    FilterSingle(w, OnChannel);
    FilterSingle(ph, OnChannel);
    FilterSingle(rm, OnChannel);
    FilterSingle(rn, OnChannel);
    FilterSingle(pr, OnChannel);
    FilterAppend([w] + [ph] + [rm] + [rn] + [w] + [ph] + [pr], [rm], OnChannel);
    FilterAppend([w] + [ph] + [rm] + [rn] + [w] + [ph], [pr], OnChannel);
    FilterAppend([w] + [ph] + [rm] + [rn] + [w], [ph], OnChannel);
    FilterAppend([w] + [ph] + [rm] + [rn], [w], OnChannel);
    FilterAppend([w] + [ph] + [rm], [rn], OnChannel);
    FilterAppend([w] + [ph], [rm], OnChannel);
    FilterAppend([w], [ph], OnChannel);
  }

  // ---------------------------------------------------------------------------
  // The whole run

  /** The oracle position at which item `m` starts when the items from `i` on are published from position `k`. */
  function StartOf(items: seq<Item>, i: nat, oracle: seq<Outcome>, k: nat, m: nat, flag: PhotoFlag): nat
    decreases m - i
  {
    if m <= i || i >= |items| then k
    else StartOf(items, i + 1, oracle, ItemRun(items[i], oracle, k, flag).1, m, flag)
  }

  lemma ItemRunTidy(it: Item, oracle: seq<Outcome>, k: nat, flag: PhotoFlag)
    requires Rendered(it)
    ensures Tidy(ItemRun(it, oracle, k, flag).0, it.index)
  {
    AttemptsTidy(it, oracle, k, 0, false, 0, flag);
  }

  lemma TidyOfItem(evs: seq<Event>, i: nat, m: nat)
    requires Tidy(evs, i)
    ensures OfItem(evs, m) == (if m == i then evs else [])
    ensures Count(evs, Completions) == 0 && Count(evs, EmptyNotices) == 0
  {
    if m == i {
      FilterAll(evs, AboutItem(m));
    } else {
      FilterNone(evs, AboutItem(m));
    }
    FilterNone(evs, Completions);
    FilterNone(evs, EmptyNotices);
  }

  /** An item's run is about that item alone and reports nothing about the whole run. */
  lemma ItemRunOfItem(it: Item, oracle: seq<Outcome>, k: nat, m: nat, flag: PhotoFlag)
    requires Rendered(it)
    ensures var evs := ItemRun(it, oracle, k, flag).0;
      OfItem(evs, m) == (if m == it.index then evs else [])
      && Count(evs, Completions) == 0 && Count(evs, EmptyNotices) == 0
  {
    ItemRunTidy(it, oracle, k, flag);
    TidyOfItem(ItemRun(it, oracle, k, flag).0, it.index, m);
  }

  lemma {:induction false} LaterItems(items: seq<Item>, i: nat, oracle: seq<Outcome>, k: nat, m: nat, flag: PhotoFlag)
    requires Numbered(items) && m < i
    ensures OfItem(PublishFrom(items, i, oracle, k, flag), m) == []
    decreases |items| - i
  {
    if i >= |items| {
      FilterSingle(DoneNotice, AboutItem(m));
    } else {
      var r := ItemRun(items[i], oracle, k, flag);
      var tail := PublishFrom(items, i + 1, oracle, r.1, flag);
      LaterItems(items, i + 1, oracle, r.1, m, flag);
      assert items[i].index == i && Rendered(items[i]);
      ItemRunOfItem(items[i], oracle, k, m, flag);
      NothingAbout(r.0, tail, m);
      assert PublishFrom(items, i, oracle, k, flag) == r.0 + tail;
    }
  }

  lemma NothingAbout(a: seq<Event>, b: seq<Event>, m: nat)
    requires OfItem(a, m) == [] && OfItem(b, m) == []
    ensures OfItem(a + b, m) == []
  {
    FilterAppend(a, b, AboutItem(m));
  }

  /** The events about item `m` in a run are exactly that item's own run, started where the items before it left the oracle. */
  lemma {:induction false} PublishFromOfItem(items: seq<Item>, i: nat, oracle: seq<Outcome>, k: nat, m: nat, flag: PhotoFlag)
    requires Numbered(items) && i <= m < |items|
    ensures OfItem(PublishFrom(items, i, oracle, k, flag), m) == ItemRun(items[m], oracle, StartOf(items, i, oracle, k, m, flag), flag).0
    decreases m - i
  {
    var r := ItemRun(items[i], oracle, k, flag);
    var tail := PublishFrom(items, i + 1, oracle, r.1, flag);
    assert PublishFrom(items, i, oracle, k, flag) == r.0 + tail;
    FilterAppend(r.0, tail, AboutItem(m));
    ItemRunOfItem(items[i], oracle, k, m, flag);
    if i == m {
      LaterItems(items, i + 1, oracle, r.1, m, flag);
      AppendEmpty(r.0);
    } else {
      PublishFromOfItem(items, i + 1, oracle, r.1, m, flag);
      AppendEmpty(OfItem(tail, m));
    }
  }

  lemma {:induction false} PublishFromReports(items: seq<Item>, i: nat, oracle: seq<Outcome>, k: nat, flag: PhotoFlag)
    requires Numbered(items)
    ensures var evs := PublishFrom(items, i, oracle, k, flag);
      evs != [] && evs[|evs| - 1] == DoneNotice
      && Count(evs, Completions) == 1 && Count(evs, EmptyNotices) == 0
    decreases |items| - i
  {
    if i >= |items| {
      FilterSingle(DoneNotice, Completions);
      FilterSingle(DoneNotice, EmptyNotices);
    } else {
      var r := ItemRun(items[i], oracle, k, flag);
      var tail := PublishFrom(items, i + 1, oracle, r.1, flag);
      assert PublishFrom(items, i, oracle, k, flag) == r.0 + tail;
      PublishFromReports(items, i + 1, oracle, r.1, flag);
      ItemRunOfItem(items[i], oracle, k, i, flag);
      FilterAppend(r.0, tail, Completions);
      FilterAppend(r.0, tail, EmptyNotices);
    }
  }

  /**
   * A run ends with exactly one report to the requester: the empty-pack error
   * when the pack is missing or has no blocks, the completion notice otherwise,
   * and never both.
   */
  lemma PublishReports(content: Option<seq<Block>>, oracle: seq<Outcome>, flag: PhotoFlag)
    ensures var evs := Publish(content, oracle, flag);
      var empty := content.None? || content.value == [];
      evs != [] && evs[|evs| - 1] == (if empty then EmptyPackNotice else DoneNotice)
      && Count(evs, EmptyNotices) == (if empty then 1 else 0)
      && Count(evs, Completions) == (if empty then 0 else 1)
  {
    if content.None? || content.value == [] {
      FilterSingle(EmptyPackNotice, EmptyNotices);
      FilterSingle(EmptyPackNotice, Completions);
    } else {
      PublishFromReports(Items(content.value), 0, oracle, 0, flag);
    }
  }

  /**
   * Every item of a published pack under either flag, whatever the calls
   * returned: the channel gets some copies of the item's photo and then its
   * attachments in order, each at most once, all of them unless the item was
   * skipped or given up; at most five retry notices and one skip; every
   * temporary photo file is removed.
   */
  lemma PublishedItem(content: seq<Block>, oracle: seq<Outcome>, m: nat, flag: PhotoFlag)
    requires m < |content|
    ensures var mine := OfItem(Publish(Some(content), oracle, flag), m);
      PhotosThenAttachments(Prepare(m, content[m]), Channel(mine), !Stopped(mine))
      && Count(mine, Retries) <= MaxAttempts && Count(mine, Skips) <= 1
      && Count(mine, TempWrites) == Count(mine, TempRemovals)
  {
    var items := Items(content);
    var it := items[m];
    var k := StartOf(items, 0, oracle, 0, m, flag);
    PublishFromOfItem(items, 0, oracle, 0, m, flag);
    ItemRunPhotos(it, oracle, k, flag);
    AttemptsRetries(it, oracle, k, 0, false, 0, flag);
    AttemptsFailures(it, oracle, k, 0, false, 0, flag);
    ItemRunTidy(it, oracle, k, flag);
  }

  /**
   * With the corrected flag the photo goes out once at most: the channel gets a
   * prefix of the item's photo and attachments, all of it unless the item was
   * skipped or given up.
   */
  lemma PublishedItemCorrected(content: seq<Block>, oracle: seq<Outcome>, m: nat)
    requires m < |content|
    ensures var mine := OfItem(Publish(Some(content), oracle, AfterSetPhoto), m);
      Channel(mine) <= Expected(m, content[m])
      && (!Stopped(mine) ==> Channel(mine) == Expected(m, content[m]))
  {
    var items := Items(content);
    var k := StartOf(items, 0, oracle, 0, m, AfterSetPhoto);
    PublishFromOfItem(items, 0, oracle, 0, m, AfterSetPhoto);
    ItemRunChannel(items[m], oracle, k);
  }
}
