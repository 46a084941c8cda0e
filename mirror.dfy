/**
 * The mirror task (`run_mirror_task`): it scans a source channel from a start
 * message, pairs each channel-photo change with the message right after it,
 * and copies each such block to the bot's own channel: the photo becomes the
 * channel photo and the follower's video or document is re-sent with its
 * caption cleaned. It stops once `post_count` blocks are copied, and reads at
 * most `post_count * 5` messages.
 *
 * The source channel's history is a sequence of messages, oldest first; each
 * call to the user client (the follower lookup, the photo download, upload and
 * channel-photo edit, and the final send) draws an outcome from an oracle; the
 * bot's own notices to the requester are events of the trace.
 */
module Mirror {
  import opened Wrappers
  import opened Strings
  import opened Captions

  // ---------------------------------------------------------------------------
  // Messages and outcomes
  // ---------------------------------------------------------------------------

  /** What a source message is: a channel-photo change (whose photo downloads to bytes or not), a video, a document, anything else. */
  datatype Kind = PhotoChange(hasBytes: bool) | VideoPost | DocumentPost | OtherPost

  datatype Message = Message(id: int, kind: Kind, text: Option<string>)

  predicate HasMedia(m: Message)
  {
    m.kind.VideoPost? || m.kind.DocumentPost?
  }

  /** The outcome of one call to the user client: success, a flood wait of some seconds, or another exception with its text. */
  datatype Call = Done | FloodWait(seconds: nat) | Raised(text: string)

  function At(oracle: seq<Call>, k: nat): Call
  {
    if k < |oracle| then oracle[k] else Done
  }

  /** The task's notices to the requester and its effects on the bot's channel, in order. */
  datatype Event =
    | Connected
    | Scanning(startId: int)
    | LimitReached
    | Skipped(photoMsgId: int)
    | BlockFound(number: int, total: int)
    | ChannelPhotoSet(photoMsgId: int)
    | ContentSent(messageId: int, caption: string)
    | BlockDone(number: int, total: int)
    | FloodNotice(seconds: nat)
    | BlockError(text: string)
    | Completed(processed: int, requested: int)
    | Critical(text: string)

  /** The notices of a call that failed inside a block. */
  predicate IsFailure(e: Event)
  {
    e.FloodNotice? || e.BlockError?
  }

  predicate Fails(evs: seq<Event>)
  {
    exists e :: e in evs && IsFailure(e)
  }

  /** The notice a failed call inside a block produces (pro_mode.py:90-97). */
  function Failure(c: Call): (e: Event)
    requires c != Done
    ensures IsFailure(e)
  {
    if c.FloodWait? then FloodNotice(c.seconds) else BlockError(Truncate300(c.text))
  }

  // ---------------------------------------------------------------------------
  // Reading the source channel
  // ---------------------------------------------------------------------------

  /** The messages after `id`, oldest first: what `iter_messages(offset_id=id, reverse=True)` yields. */
  function After(history: seq<Message>, id: int): (r: seq<Message>)
    ensures |r| <= |history|
    ensures forall m :: m in r <==> m in history && m.id > id
  {
    if history == [] then []
    else (if history[0].id > id then [history[0]] else []) + After(history[1..], id)
  }

  /** Reading a history in two parts reads the first part, then the second. */
  lemma {:induction false} AfterAppend(a: seq<Message>, b: seq<Message>, id: int)
    ensures After(a + b, id) == After(a, id) + After(b, id)
  {
    if a == [] {
      assert a + b == b;
    } else {
      assert (a + b)[1..] == a[1..] + b;
      AfterAppend(a[1..], b, id);
    }
  }

  /** One message is read exactly when it comes after `id`. */
  lemma AfterSingle(m: Message, id: int)
    ensures After([m], id) == if m.id > id then [m] else []
  {
    assert [m][1..] == [];
  }

  /** The first message after `id` is the first message of the history with a larger id. */
  lemma {:induction false} AfterFirst(history: seq<Message>, id: int)
    requires After(history, id) != []
    ensures exists i :: (0 <= i < |history| && history[i] == After(history, id)[0]
      && forall j :: 0 <= j < i ==> history[j].id <= id)
  {
    if history[0].id > id {
      assert history[0] == After(history, id)[0];
    } else {
      var tail := history[1..];
      assert After(history, id) == After(tail, id);
      AfterFirst(tail, id);
      var i :| 0 <= i < |tail| && tail[i] == After(tail, id)[0] && forall j :: 0 <= j < i ==> tail[j].id <= id;
      assert history[i + 1] == tail[i];
      forall j | 0 <= j < i + 1
        ensures history[j].id <= id
      {
        if j > 0 {
          assert history[j] == tail[j - 1];
        }
      }
    }
  }

  /** The messages the scan reads: at most `limit` of those after the start message (pro_mode.py:47). */
  function Window(history: seq<Message>, start: int, limit: nat): (r: seq<Message>)
    ensures |r| <= limit && r <= After(history, start)
    ensures r == After(history, start) || |r| == limit
    ensures forall m :: m in r ==> m in history && m.id > start
  {
    var a := After(history, start);
    if |a| <= limit then a else a[..limit]
  }

  /** The message right after `id`, if any: the lookup with `limit=1` (pro_mode.py:58-59). */
  function Follower(history: seq<Message>, id: int): (r: Option<Message>)
    ensures r.Some? ==> r.value in history && r.value.id > id
    ensures r.None? <==> forall m :: m in history ==> m.id <= id
  {
    var a := After(history, id);
    if a == [] then None
    else
      assert a[0] in a;
      Some(a[0])
  }

  /** The follower is the message immediately after `id`: no earlier message of the history has a larger id. */
  lemma FollowerFirst(history: seq<Message>, id: int)
    ensures var r := Follower(history, id);
      r.Some? ==> exists i :: (0 <= i < |history| && history[i] == r.value
        && forall j :: 0 <= j < i ==> history[j].id <= id)
  {
    if After(history, id) != [] {
      AfterFirst(history, id);
    }
  }

  // ---------------------------------------------------------------------------
  // One block
  // ---------------------------------------------------------------------------

  /**
   * How the follower lookup is read. `Stale` is the code as written: when no
   * message follows, `video_msg` keeps the previous block's follower, or is
   * unbound when there was none. `Fresh` reads a missing follower as "no
   * video or document", which is what the skip notice says.
   */
  datatype Lookup = Stale | Fresh

  /** The traffic of one block, the processed count after it, the next oracle position and the value `video_msg` holds. */
  datatype Step = Step(events: seq<Event>, count: nat, k: nat, follower: Option<Message>)

  /** The text of the `UnboundLocalError` raised when `video_msg` was never bound. */
  const UnboundText: string := "cannot access local variable 'video_msg' where it is not associated with a value"

  /** Number of contents sent to the bot's channel. */
  function Sends(evs: seq<Event>): nat
  {
    if evs == [] then 0 else (if evs[0].ContentSent? then 1 else 0) + Sends(evs[1..])
  }

  lemma {:induction false} SendsAppend(a: seq<Event>, b: seq<Event>)
    ensures Sends(a + b) == Sends(a) + Sends(b)
  {
    if a == [] {
      assert a + b == b;
    } else {
      assert (a + b)[1..] == a[1..] + b;
      SendsAppend(a[1..], b);
    }
  }

  /** Events a block can produce: none of them opens, limits or ends the scan. */
  predicate InBlock(e: Event)
  {
    !(e.Connected? || e.Scanning? || e.LimitReached? || e.Completed? || e.Critical?)
  }

  /** A channel effect the block of photo-change message `p` is entitled to under a fresh lookup. */
  predicate Entitled(e: Event, p: Message, history: seq<Message>)
  {
    && (e.ContentSent? ==> (Follower(history, p.id).Some? && HasMedia(Follower(history, p.id).value)
          && e.messageId == Follower(history, p.id).value.id
          && e.caption == CleanCaption(Follower(history, p.id).value.text)))
    && (e.ChannelPhotoSet? ==> e.photoMsgId == p.id && p.kind == PhotoChange(true))
  }

  /** The final send of a block (pro_mode.py:80-87): the follower's media with its cleaned caption, then the count goes up. */
  function SendContent(f: Message, count: nat, postCount: int, oracle: seq<Call>, k: nat): (r: (seq<Event>, nat))
    ensures Sends(r.0) <= 1 && r.1 == count + Sends(r.0)
    ensures forall e :: e in r.0 ==> (InBlock(e) && !e.ChannelPhotoSet?
      && (e.ContentSent? ==> e == ContentSent(f.id, CleanCaption(f.text))))
    ensures Fails(r.0) <==> r.1 == count
  {
    var c := At(oracle, k);
    if c != Done then
      assert Sends([Failure(c)]) == 0;
      assert Failure(c) in [Failure(c)];
      ([Failure(c)], count)
    else
      var evs := [ContentSent(f.id, CleanCaption(f.text)), BlockDone(count + 1, postCount)];
      assert Sends(evs) == 1 by {
        assert evs[1..] == [BlockDone(count + 1, postCount)];
        assert Sends(evs[1..]) == 0 by { assert evs[1..][1..] == []; }
      }
      (evs, count + 1)
  }

  lemma {:induction false} NoSends(evs: seq<Event>)
    requires forall e :: e in evs ==> !e.ContentSent?
    ensures Sends(evs) == 0
  {
    if evs != [] {
      assert evs[0] in evs;
      assert forall e :: e in evs[1..] ==> e in evs;
      NoSends(evs[1..]);
    }
  }

  /**
   * Step A of a block (pro_mode.py:69-77): the download, and when it gave bytes
   * the upload and the channel-photo edit. The flag says whether every call
   * succeeded; a failed call leaves its notice.
   */
  function PhotoUpdate(p: Message, oracle: seq<Call>, k: nat): (r: (seq<Event>, bool, nat))
    requires p.kind.PhotoChange?
    ensures r.2 > k && Sends(r.0) == 0
    ensures forall e :: e in r.0 ==> (InBlock(e) && !e.ContentSent?
      && (e.ChannelPhotoSet? ==> e.photoMsgId == p.id && p.kind == PhotoChange(true)))
    ensures r.1 ==> (ChannelPhotoSet(p.id) in r.0 <==> p.kind.hasBytes)
    ensures r.1 <==> !Fails(r.0)
  {
    var r := if At(oracle, k) != Done then ([Failure(At(oracle, k))], false, k + 1)
      else if !p.kind.hasBytes then ([], true, k + 1)
      else if At(oracle, k + 1) != Done then ([Failure(At(oracle, k + 1))], false, k + 2)
      else if At(oracle, k + 2) != Done then ([Failure(At(oracle, k + 2))], false, k + 3)
      else ([ChannelPhotoSet(p.id)], true, k + 3);
    NoSends(r.0);
    r
  }

  /**
   * A block once its follower has media (pro_mode.py:65-87): the found notice,
   * step A, then the send. A failed call ends the block with its notice.
   */
  function Deliver(p: Message, f: Message, count: nat, postCount: int, oracle: seq<Call>, k: nat): (r: Step)
    requires p.kind.PhotoChange?
    ensures r.k > k && r.follower == Some(f)
    ensures Sends(r.events) <= 1 && r.count == count + Sends(r.events)
    ensures forall e :: e in r.events ==> (InBlock(e)
      && (e.ContentSent? ==> e == ContentSent(f.id, CleanCaption(f.text)))
      && (e.ChannelPhotoSet? ==> e.photoMsgId == p.id && p.kind == PhotoChange(true)))
    ensures Fails(r.events) <==> r.count == count
  {
    var found := [BlockFound(count + 1, postCount)];
    var (photo, ok, k1) := PhotoUpdate(p, oracle, k);
    NoSends(found + photo);
    if !ok then
      var e :| e in photo && IsFailure(e);
      assert e in found + photo;
      Step(found + photo, count, k1, Some(f))
    else
      var (sent, n) := SendContent(f, count, postCount, oracle, k1);
      SendsAppend(found + photo, sent);
      assert Fails(found + photo + sent) <==> Fails(sent) by {
        assert forall e :: e in found + photo + sent <==> e in found + photo || e in sent;
      }
      Step(found + photo + sent, n, k1 + 1, Some(f))
  }

  /**
   * One photo-change message (pro_mode.py:55-97): the follower lookup, then the
   * skip notice when there is no video or document to copy, else the delivery.
   */
  function BlockStep(p: Message, history: seq<Message>, count: nat, postCount: int, prev: Option<Message>,
                     oracle: seq<Call>, k: nat, mode: Lookup): (r: Step)
    requires p.kind.PhotoChange?
    ensures r.k > k
    ensures Sends(r.events) <= 1 && r.count == count + Sends(r.events)
    ensures forall e :: e in r.events ==> InBlock(e)
    ensures mode == Fresh ==> forall e :: e in r.events ==> Entitled(e, p, history)
    ensures Fails(r.events) ==> r.count == count
  {
    var lookup := At(oracle, k);
    if lookup != Done then
      assert Sends([Failure(lookup)]) == 0;
      Step([Failure(lookup)], count, k + 1, prev)
    else
      var found := Follower(history, p.id);
      var current := if found.Some? || mode == Fresh then found else prev;
      if current.None? then
        var e := if mode == Stale then BlockError(Truncate300(UnboundText)) else Skipped(p.id);
        assert Sends([e]) == 0;
        Step([e], count, k + 1, current)
      else if !HasMedia(current.value) then
        assert Sends([Skipped(p.id)]) == 0;
        Step([Skipped(p.id)], count, k + 1, current)
      else
        Deliver(p, current.value, count, postCount, oracle, k + 1)
  }

  // ---------------------------------------------------------------------------
  // The scan
  // ---------------------------------------------------------------------------

  /** The scan from window position `i` (pro_mode.py:47-99): the limit check, blocks, and the closing notice. */
  function ScanFrom(window: seq<Message>, history: seq<Message>, i: nat, count: nat, postCount: int,
                    prev: Option<Message>, oracle: seq<Call>, k: nat, mode: Lookup): seq<Event>
    decreases |window| - i
  {
    if i >= |window| then [Completed(count, postCount)]
    else if count >= postCount then [LimitReached, Completed(count, postCount)]
    else if !window[i].kind.PhotoChange? then ScanFrom(window, history, i + 1, count, postCount, prev, oracle, k, mode)
    else
      var step := BlockStep(window[i], history, count, postCount, prev, oracle, k, mode);
      step.events + ScanFrom(window, history, i + 1, step.count, postCount, step.follower, oracle, step.k, mode)
  }

  /** Which calls before the scan failed: `get_me`, `get_entity(start_link)`, `get_entity(MY_CHANNEL_ID)`, with the exception's text. */
  datatype Setup = Setup(me: Option<string>, source: Option<string>, target: Option<string>)

  /** The start message id: `int(start_link.split('/')[-1])` (pro_mode.py:39). */
  function StartId(link: string): Option<int>
  {
    ParseInt(LastField(link, '/'))
  }

  /** `str()` of the `ValueError` that `int()` raises. */
  function IntErrorText(s: string): string
  {
    "invalid literal for int() with base 10: '" + s + "'"
  }

  /** The whole task (pro_mode.py:31-104); any failure before the scan is one critical notice. */
  function MirrorRun(link: string, postCount: int, history: seq<Message>, setup: Setup, oracle: seq<Call>, mode: Lookup): seq<Event>
    requires postCount > 0
  {
    if setup.me.Some? then [Critical(Truncate300(setup.me.value))]
    else if setup.source.Some? then [Connected, Critical(Truncate300(setup.source.value))]
    else match StartId(link)
      case None => [Connected, Critical(Truncate300(IntErrorText(LastField(link, '/'))))]
      case Some(start) =>
        [Connected, Scanning(start)]
        + if setup.target.Some? then [Critical(Truncate300(setup.target.value))]
          else ScanFrom(Window(history, start, postCount * 5), history, 0, 0, postCount, None, oracle, 0, mode)
  }

  // ---------------------------------------------------------------------------
  // The task as a loop
  // ---------------------------------------------------------------------------

  /**
   * One block's `try` body, with its early exits; `prev` is the value
   * `video_msg` holds when the block starts, and the new value is returned.
   */
  method ProcessBlock(p: Message, history: seq<Message>, count: nat, postCount: int, prev: Option<Message>,
                      oracle: seq<Call>, k0: nat, mode: Lookup)
      returns (events: seq<Event>, processed: nat, k: nat, videoMsg: Option<Message>)
    requires p.kind.PhotoChange?
    ensures Step(events, processed, k, videoMsg) == BlockStep(p, history, count, postCount, prev, oracle, k0, mode)
  {
    processed, k, videoMsg := count, k0, prev;
    var c := At(oracle, k);
    k := k + 1;
    if c != Done {
      return [Failure(c)], processed, k, videoMsg;
    }
    var next := Follower(history, p.id);
    if next.Some? || mode == Fresh {
      videoMsg := next;
    }
    if videoMsg.None? {
      if mode == Stale {
        return [BlockError(Truncate300(UnboundText))], processed, k, videoMsg;
      }
      return [Skipped(p.id)], processed, k, videoMsg;
    }
    var f := videoMsg.value;
    if !HasMedia(f) {
      return [Skipped(p.id)], processed, k, videoMsg;
    }
    events, processed, k := DeliverBlock(p, f, count, postCount, oracle, k);
  }

  /** The rest of the `try` body once the follower has media: the found notice, step A, the send. */
  method DeliverBlock(p: Message, f: Message, count: nat, postCount: int, oracle: seq<Call>, k0: nat)
      returns (events: seq<Event>, processed: nat, k: nat)
    requires p.kind.PhotoChange?
    ensures Step(events, processed, k, Some(f)) == Deliver(p, f, count, postCount, oracle, k0)
  {
    processed, k := count, k0;
    var found := [BlockFound(count + 1, postCount)];
    var c := At(oracle, k);
    k := k + 1;
    if c != Done {
      return found + [Failure(c)], processed, k;
    }
    var photo: seq<Event> := [];
    if p.kind.hasBytes {
      c := At(oracle, k);
      k := k + 1;
      if c != Done {
        return found + [Failure(c)], processed, k;
      }
      c := At(oracle, k);
      k := k + 1;
      if c != Done {
        return found + [Failure(c)], processed, k;
      }
      photo := [ChannelPhotoSet(p.id)];
    }
    assert PhotoUpdate(p, oracle, k0) == (photo, true, k);
    c := At(oracle, k);
    k := k + 1;
    if c != Done {
      return found + photo + [Failure(c)], processed, k;
    }
    processed := count + 1;
    events := found + photo + [ContentSent(f.id, CleanCaption(f.text)), BlockDone(processed, postCount)];
  }

  /** `run_mirror_task`: the calls before the scan, then the scan; `Stale` is the code as written. */
  method RunMirror(link: string, postCount: int, history: seq<Message>, setup: Setup, oracle: seq<Call>, mode: Lookup)
      returns (events: seq<Event>)
    requires postCount > 0
    ensures events == MirrorRun(link, postCount, history, setup, oracle, mode)
  {
    if setup.me.Some? {
      return [Critical(Truncate300(setup.me.value))];
    }
    if setup.source.Some? {
      return [Connected, Critical(Truncate300(setup.source.value))];
    }
    var parsed := StartId(link);
    if parsed.None? {
      return [Connected, Critical(Truncate300(IntErrorText(LastField(link, '/'))))];
    }
    var start := parsed.value;
    if setup.target.Some? {
      return [Connected, Scanning(start), Critical(Truncate300(setup.target.value))];
    }
    var scanned := Scan(Window(history, start, postCount * 5), history, postCount, oracle, mode);
    events := [Connected, Scanning(start)] + scanned;
  }

  /**
   * The loop over the scanned messages (pro_mode.py:47-99): the limit check, then
   * a block for each photo change; `video_msg` lives across iterations.
   */
  method Scan(window: seq<Message>, history: seq<Message>, postCount: int, oracle: seq<Call>, mode: Lookup)
      returns (events: seq<Event>)
    ensures events == ScanFrom(window, history, 0, 0, postCount, None, oracle, 0, mode)
  {
    ghost var whole := ScanFrom(window, history, 0, 0, postCount, None, oracle, 0, mode);
    events := [];
    var processed: nat, k: nat, i: nat := 0, 0, 0;
    var videoMsg: Option<Message> := None;
    while i < |window|
      invariant i <= |window|
      invariant events + ScanFrom(window, history, i, processed, postCount, videoMsg, oracle, k, mode) == whole
      decreases |window| - i
    {
      if processed >= postCount {
        events := events + [LimitReached];
        break;
      }
      var m := window[i];
      if m.kind.PhotoChange? {
        var blockEvents;
        ghost var rest := ScanFrom(window, history, i, processed, postCount, videoMsg, oracle, k, mode);
        blockEvents, processed, k, videoMsg := ProcessBlock(m, history, processed, postCount, videoMsg, oracle, k, mode);
        assert rest == blockEvents + ScanFrom(window, history, i + 1, processed, postCount, videoMsg, oracle, k, mode);
        events := events + blockEvents;
      }
      i := i + 1;
    }
    events := events + [Completed(processed, postCount)];
  }

  /** Under a fresh lookup the previous follower plays no part. */
  lemma {:induction false} FreshIgnoresPrev(window: seq<Message>, history: seq<Message>, i: nat, count: nat, postCount: int,
                                            prev: Option<Message>, oracle: seq<Call>, k: nat)
    ensures ScanFrom(window, history, i, count, postCount, prev, oracle, k, Fresh)
         == ScanFrom(window, history, i, count, postCount, None, oracle, k, Fresh)
    decreases |window| - i
  {
    if i < |window| && count < postCount {
      if !window[i].kind.PhotoChange? {
        FreshIgnoresPrev(window, history, i + 1, count, postCount, prev, oracle, k);
      } else {
        var a := BlockStep(window[i], history, count, postCount, prev, oracle, k, Fresh);
        var b := BlockStep(window[i], history, count, postCount, None, oracle, k, Fresh);
        assert a.events == b.events && a.count == b.count && a.k == b.k;
        FreshIgnoresPrev(window, history, i + 1, a.count, postCount, a.follower, oracle, a.k);
        FreshIgnoresPrev(window, history, i + 1, a.count, postCount, b.follower, oracle, a.k);
      }
    }
  }

  // ---------------------------------------------------------------------------
  // What a whole scan does
  // ---------------------------------------------------------------------------

  /** Events that may come before the closing notice: block traffic and the limit notice. */
  predicate BeforeClose(e: Event)
  {
    InBlock(e) || e.LimitReached?
  }

  /**
   * The scan ends with the closing notice, which reports as processed the
   * blocks it sent on top of those already counted; the count never passes
   * `post_count`.
   */
  lemma {:induction false} ScanTotal(window: seq<Message>, history: seq<Message>, i: nat, count: nat, postCount: int,
                                     prev: Option<Message>, oracle: seq<Call>, k: nat, mode: Lookup)
    requires count <= postCount
    ensures var evs := ScanFrom(window, history, i, count, postCount, prev, oracle, k, mode);
      |evs| > 0 && evs[|evs| - 1] == Completed(count + Sends(evs), postCount) && count + Sends(evs) <= postCount
    decreases |window| - i
  {
    var evs := ScanFrom(window, history, i, count, postCount, prev, oracle, k, mode);
    if i >= |window| {
      assert evs == [Completed(count, postCount)];
      NoSends(evs);
    } else if count >= postCount {
      assert evs == [LimitReached, Completed(count, postCount)];
      NoSends(evs);
    } else if !window[i].kind.PhotoChange? {
      ScanTotal(window, history, i + 1, count, postCount, prev, oracle, k, mode);
    } else {
      var step := BlockStep(window[i], history, count, postCount, prev, oracle, k, mode);
      var rest := ScanFrom(window, history, i + 1, step.count, postCount, step.follower, oracle, step.k, mode);
      ScanTotal(window, history, i + 1, step.count, postCount, step.follower, oracle, step.k, mode);
      assert evs == step.events + rest;
      SendsAppend(step.events, rest);
    }
  }

  /** Only the last event of a scan closes it: everything before is block traffic or the limit notice. */
  lemma {:induction false} ScanClosesOnce(window: seq<Message>, history: seq<Message>, i: nat, count: nat, postCount: int,
                                          prev: Option<Message>, oracle: seq<Call>, k: nat, mode: Lookup)
    ensures var evs := ScanFrom(window, history, i, count, postCount, prev, oracle, k, mode);
      |evs| > 0 && evs[|evs| - 1].Completed? && forall j :: 0 <= j < |evs| - 1 ==> BeforeClose(evs[j])
    decreases |window| - i
  {
    var evs := ScanFrom(window, history, i, count, postCount, prev, oracle, k, mode);
    if i < |window| && count < postCount {
      if !window[i].kind.PhotoChange? {
        ScanClosesOnce(window, history, i + 1, count, postCount, prev, oracle, k, mode);
      } else {
        var step := BlockStep(window[i], history, count, postCount, prev, oracle, k, mode);
        var rest := ScanFrom(window, history, i + 1, step.count, postCount, step.follower, oracle, step.k, mode);
        ScanClosesOnce(window, history, i + 1, step.count, postCount, step.follower, oracle, step.k, mode);
        assert evs == step.events + rest;
        forall j | 0 <= j < |evs| - 1
          ensures BeforeClose(evs[j])
        {
          if j < |step.events| {
            assert evs[j] == step.events[j] && step.events[j] in step.events;
          } else {
            assert evs[j] == rest[j - |step.events|];
          }
        }
      }
    }
  }

  /** The limit notice appears only once `post_count` blocks are sent. */
  lemma {:induction false} ScanLimit(window: seq<Message>, history: seq<Message>, i: nat, count: nat, postCount: int,
                                     prev: Option<Message>, oracle: seq<Call>, k: nat, mode: Lookup)
    requires count <= postCount
    ensures var evs := ScanFrom(window, history, i, count, postCount, prev, oracle, k, mode);
      LimitReached in evs ==> count + Sends(evs) == postCount
    decreases |window| - i
  {
    var evs := ScanFrom(window, history, i, count, postCount, prev, oracle, k, mode);
    if i >= |window| {
      assert evs == [Completed(count, postCount)];
    } else if count >= postCount {
      assert evs == [LimitReached, Completed(count, postCount)];
      NoSends(evs);
    } else if !window[i].kind.PhotoChange? {
      ScanLimit(window, history, i + 1, count, postCount, prev, oracle, k, mode);
    } else {
      var step := BlockStep(window[i], history, count, postCount, prev, oracle, k, mode);
      var rest := ScanFrom(window, history, i + 1, step.count, postCount, step.follower, oracle, step.k, mode);
      ScanLimit(window, history, i + 1, step.count, postCount, step.follower, oracle, step.k, mode);
      assert evs == step.events + rest;
      SendsAppend(step.events, rest);
      LimitAfterBlock(step.events, rest);
    }
  }

  /** Block traffic holds no limit notice, so one after it is in what follows. */
  lemma LimitAfterBlock(block: seq<Event>, rest: seq<Event>)
    requires forall e :: e in block ==> InBlock(e)
    ensures LimitReached in block + rest ==> LimitReached in rest
  {
    assert !InBlock(LimitReached);
    assert forall e :: e in block + rest ==> e in block || e in rest;
  }


  /**
   * Under a fresh lookup every channel effect of the scan belongs to one of the
   * photo changes it reads: the content sent is that message's own follower,
   * with its caption cleaned, and the channel photo is set only from a photo
   * change whose photo has bytes.
   */
  lemma {:induction false} FreshScanEntitled(window: seq<Message>, history: seq<Message>, i: nat, count: nat, postCount: int,
                                             prev: Option<Message>, oracle: seq<Call>, k: nat)
    ensures forall e :: (e in ScanFrom(window, history, i, count, postCount, prev, oracle, k, Fresh)
                          && (e.ContentSent? || e.ChannelPhotoSet?)) ==>
        exists j :: i <= j < |window| && window[j].kind.PhotoChange? && Entitled(e, window[j], history)
    decreases |window| - i
  {
    var evs := ScanFrom(window, history, i, count, postCount, prev, oracle, k, Fresh);
    if i < |window| && count < postCount {
      if !window[i].kind.PhotoChange? {
        FreshScanEntitled(window, history, i + 1, count, postCount, prev, oracle, k);
      } else {
        var step := BlockStep(window[i], history, count, postCount, prev, oracle, k, Fresh);
        var rest := ScanFrom(window, history, i + 1, step.count, postCount, step.follower, oracle, step.k, Fresh);
        FreshScanEntitled(window, history, i + 1, step.count, postCount, step.follower, oracle, step.k);
        assert evs == step.events + rest;
        forall e | e in evs && (e.ContentSent? || e.ChannelPhotoSet?)
          ensures exists j :: i <= j < |window| && window[j].kind.PhotoChange? && Entitled(e, window[j], history)
        {
          if e in step.events {
            assert Entitled(e, window[i], history);
          } else {
            assert e in rest;
          }
        }
      }
    } else if i >= |window| {
      assert evs == [Completed(count, postCount)];
    } else {
      assert evs == [LimitReached, Completed(count, postCount)];
    }
  }

  /**
   * The code as written (the `Stale` lookup): after a block that sent video or
   * document `f`, a photo change with nothing after it sends `f` again and
   * counts it again; under a fresh lookup it is skipped and nothing is counted.
   */
  lemma StaleFollowerAsWritten(p1: Message, p2: Message, f: Message, history: seq<Message>, count: nat, postCount: int, k: nat)
    requires p1.kind.PhotoChange? && p2.kind.PhotoChange? && HasMedia(f)
    requires Follower(history, p1.id) == Some(f) && Follower(history, p2.id) == None
    ensures var sent := ContentSent(f.id, CleanCaption(f.text));
      var s1 := BlockStep(p1, history, count, postCount, None, [], k, Stale);
      var s2 := BlockStep(p2, history, s1.count, postCount, s1.follower, [], s1.k, Stale);
      && sent in s1.events && sent in s2.events && s2.count == count + 2
  {
    var sent := ContentSent(f.id, CleanCaption(f.text));
    var s1 := BlockStep(p1, history, count, postCount, None, [], k, Stale);
    assert s1 == Deliver(p1, f, count, postCount, [], k + 1);
    var s2 := BlockStep(p2, history, s1.count, postCount, s1.follower, [], s1.k, Stale);
    assert s2 == Deliver(p2, f, s1.count, postCount, [], s1.k + 1);
  }

  /** The same two blocks under a fresh lookup: the second photo change is skipped and the count stays. */
  lemma FreshSkipsLoneChange(p1: Message, p2: Message, f: Message, history: seq<Message>, count: nat, postCount: int, k: nat)
    requires p1.kind.PhotoChange? && p2.kind.PhotoChange? && HasMedia(f)
    requires Follower(history, p1.id) == Some(f) && Follower(history, p2.id) == None
    ensures var sent := ContentSent(f.id, CleanCaption(f.text));
      var s1 := BlockStep(p1, history, count, postCount, None, [], k, Fresh);
      var s2 := BlockStep(p2, history, s1.count, postCount, s1.follower, [], s1.k, Fresh);
      && sent in s1.events && s1.count == count + 1
      && s2.events == [Skipped(p2.id)] && s2.count == count + 1
  {
    var s1 := BlockStep(p1, history, count, postCount, None, [], k, Fresh);
    assert s1 == Deliver(p1, f, count, postCount, [], k + 1);
  }

  /** A photo change, a video, another photo change. */
  function TwoChanges(): seq<Message>
  {
    [Message(1, PhotoChange(false), None), Message(2, VideoPost, None), Message(3, PhotoChange(false), None)]
  }

  lemma TwoChangesFollowers()
    ensures Follower(TwoChanges(), 1) == Some(TwoChanges()[1]) && Follower(TwoChanges(), 3) == None
  {
    var h := TwoChanges();
    assert h[1..][1..][1..] == [];
    assert After(h, 1) == [h[1], h[2]];
    assert After(h, 3) == [];
  }

  /** One delivery of the video with every call succeeding. */
  lemma DeliverVideo(p: Message, count: nat, k: nat)
    requires p.kind == PhotoChange(false)
    ensures Deliver(p, TwoChanges()[1], count, 2, [], k)
      == Step([BlockFound(count + 1, 2), ContentSent(2, CleanCaption(None)), BlockDone(count + 1, 2)], count + 1, k + 2, Some(TwoChanges()[1]))
  {
  }

  /** The first photo change of the three-message channel, under either lookup: the video goes out. */
  lemma FirstStepOfTwo(mode: Lookup)
    ensures var h := TwoChanges();
      BlockStep(h[0], h, 0, 2, None, [], 0, mode)
        == Step([BlockFound(1, 2), ContentSent(2, CleanCaption(None)), BlockDone(1, 2)], 1, 3, Some(h[1]))
  {
    TwoChangesFollowers();
    DeliverVideo(TwoChanges()[0], 0, 1);
  }

  /** The second photo change as written: the follower left over from the first block is sent again. */
  lemma SecondStepStale()
    ensures var h := TwoChanges();
      BlockStep(h[2], h, 1, 2, Some(h[1]), [], 3, Stale)
        == Step([BlockFound(2, 2), ContentSent(2, CleanCaption(None)), BlockDone(2, 2)], 2, 6, Some(h[1]))
  {
    var h := TwoChanges();
    var p, f := Message(3, PhotoChange(false), None), Message(2, VideoPost, None);
    assert h[2] == p && h[1] == f;
    assert Follower(h, 3) == None by {
      TwoChangesFollowers();
    }
    StaleReuse(p, h, 1, 2, f, [], 3);
    DeliverVideo(p, 1, 4);
  }

  /** As written, a photo change with nothing after it delivers the follower it inherited. */
  lemma StaleReuse(p: Message, history: seq<Message>, count: nat, postCount: int, f: Message, oracle: seq<Call>, k: nat)
    requires p.kind.PhotoChange? && HasMedia(f) && At(oracle, k) == Done && Follower(history, p.id) == None
    ensures BlockStep(p, history, count, postCount, Some(f), oracle, k, Stale) == Deliver(p, f, count, postCount, oracle, k + 1)
  {
  }

  lemma FirstBlockOfTwo(mode: Lookup)
    ensures var h := TwoChanges();
      ScanFrom(h, h, 0, 0, 2, None, [], 0, mode)
        == [BlockFound(1, 2), ContentSent(2, CleanCaption(None)), BlockDone(1, 2)] + ScanFrom(h, h, 2, 1, 2, Some(h[1]), [], 3, mode)
  {
    var h := TwoChanges();
    FirstStepOfTwo(mode);
    assert ScanFrom(h, h, 1, 1, 2, Some(h[1]), [], 3, mode) == ScanFrom(h, h, 2, 1, 2, Some(h[1]), [], 3, mode);
  }

  lemma SecondBlockStale()
    ensures var h := TwoChanges();
      ScanFrom(h, h, 2, 1, 2, Some(h[1]), [], 3, Stale)
        == [BlockFound(2, 2), ContentSent(2, CleanCaption(None)), BlockDone(2, 2), Completed(2, 2)]
  {
    var h := TwoChanges();
    SecondStepStale();
    assert ScanFrom(h, h, 3, 2, 2, Some(h[1]), [], 6, Stale) == [Completed(2, 2)];
  }

  /** The second block under a fresh lookup: skipped. */
  lemma SecondBlockFresh()
    ensures var h := TwoChanges();
      ScanFrom(h, h, 2, 1, 2, Some(h[1]), [], 3, Fresh) == [Skipped(3), Completed(1, 2)]
  {
    var h := TwoChanges();
    assert BlockStep(h[2], h, 1, 2, Some(h[1]), [], 3, Fresh) == Step([Skipped(3)], 1, 4, None) by {
      TwoChangesFollowers();
    }
    assert ScanFrom(h, h, 3, 1, 2, None, [], 4, Fresh) == [Completed(1, 2)];
  }

  /**
   * The code as written on a channel holding a photo change, a video and another
   * photo change: the video goes out twice and is counted twice.
   */
  lemma RepeatedVideoAsWritten()
    ensures var h := TwoChanges();
      var sent := ContentSent(2, CleanCaption(None));
      ScanFrom(h, h, 0, 0, 2, None, [], 0, Stale)
        == [BlockFound(1, 2), sent, BlockDone(1, 2), BlockFound(2, 2), sent, BlockDone(2, 2), Completed(2, 2)]
  {
    FirstBlockOfTwo(Stale);
    SecondBlockStale();
  }

  /** The same channel under a fresh lookup: the video goes out once, the second photo change is skipped. */
  lemma RepeatedVideoFresh()
    ensures var h := TwoChanges();
      var sent := ContentSent(2, CleanCaption(None));
      ScanFrom(h, h, 0, 0, 2, None, [], 0, Fresh)
        == [BlockFound(1, 2), sent, BlockDone(1, 2), Skipped(3), Completed(1, 2)]
  {
    FirstBlockOfTwo(Fresh);
    SecondBlockFresh();
  }

  /** The code as written, when the first photo change has nothing after it: the block fails on the unbound follower. */
  lemma UnboundFollowerAsWritten()
    ensures var history := [Message(1, PhotoChange(false), None)];
      && ScanFrom(history, history, 0, 0, 1, None, [], 0, Stale) == [BlockError(Truncate300(UnboundText)), Completed(0, 1)]
      && ScanFrom(history, history, 0, 0, 1, None, [], 0, Fresh) == [Skipped(1), Completed(0, 1)]
  {
    var history := [Message(1, PhotoChange(false), None)];
    assert Follower(history, 1) == None;
  }
}
