/**
 * The pure helpers behind the bot's menus: the paged pack listing with its
 * schedule annotations (bot.py:310-336), the 4000-character split of error
 * reports (bot.py:62) and the calendar's month navigation (bot.py:671-672).
 */
module Menus {
  import opened Wrappers
  import opened Jobs

  const PageSize: nat := 5
  const ChunkSize: nat := 4000

  // ---------------------------------------------------------------------------
  // Page slicing
  // ---------------------------------------------------------------------------

  function Min(a: int, b: int): int
  {
    if a <= b then a else b
  }

  /** `all[page*5 : page*5 + 5]` with Python's clamping of slice bounds past the end. */
  function Page<T>(all: seq<T>, page: nat): (r: seq<T>)
    ensures |r| == if page * PageSize >= |all| then 0 else Min(PageSize, |all| - page * PageSize)
    ensures forall i :: 0 <= i < |r| ==> page * PageSize + i < |all| && r[i] == all[page * PageSize + i]
  {
    var start := page * PageSize;
    if start >= |all| then [] else all[start .. Min(start + PageSize, |all|)]
  }

  /** The "previous" button is shown on every page after the first. */
  predicate HasPrev(page: nat)
  {
    page > 0
  }

  /** The "next" button is shown when the page's end index is short of the list's length. */
  predicate HasNext<T>(all: seq<T>, page: nat)
  {
    page * PageSize + PageSize < |all|
  }

  /** The "next" button appears exactly when the following page has something to show. */
  lemma NextIffMore<T>(all: seq<T>, page: nat)
    ensures HasNext(all, page) <==> Page(all, page + 1) != []
  {
    assert (page + 1) * PageSize == page * PageSize + PageSize;
  }

  /** A page reached through the "previous" button from a non-empty page is full. */
  lemma PrevPageFull<T>(all: seq<T>, page: nat)
    requires HasPrev(page) && Page(all, page) != []
    ensures |Page(all, page - 1)| == PageSize
  {
    assert (page - 1) * PageSize + PageSize == page * PageSize;
  }

  /** The pages from `page` on, one after another. */
  function PagesFrom<T>(all: seq<T>, page: nat): seq<T>
    decreases |all| - page * PageSize
  {
    if page * PageSize >= |all| then []
    else
      assert (page + 1) * PageSize == page * PageSize + PageSize;
      Page(all, page) + PagesFrom(all, page + 1)
  }

  /** Paging through the list from the first page shows every pack once, in list order. */
  lemma {:induction false} PagesCoverAll<T>(all: seq<T>, page: nat)
    requires page * PageSize <= |all|
    ensures PagesFrom(all, page) == all[page * PageSize..]
    decreases |all| - page * PageSize
  {
    var start := page * PageSize;
    if start < |all| {
      assert (page + 1) * PageSize == start + PageSize;
      var end := Min(start + PageSize, |all|);
      if start + PageSize <= |all| {
        PagesCoverAll(all, page + 1);
        assert all[start..] == all[start..end] + all[end..];
      } else {
        assert PagesFrom(all, page + 1) == [];
        assert all[start..] == all[start..end];
      }
    }
  }

  // ---------------------------------------------------------------------------
  // Schedule annotations
  // ---------------------------------------------------------------------------

  /** A job as the listing sees it: its id and its run time already rendered as text. */
  datatype JobEntry = JobEntry(id: string, when: string)

  /**
   * The pack name to run-time text dictionary built from the job list: every id
   * `ScheduledName` reads a name from contributes, a later job overwriting an
   * earlier one for the same name.
   */
  function Scheduled(entries: seq<JobEntry>): map<string, string>
  {
    if entries == [] then map[]
    else
      var last := entries[|entries| - 1];
      var m := Scheduled(entries[..|entries| - 1]);
      match ScheduledName(last.id)
      case None => m
      case Some(n) => m[n := last.when]
  }

  /** The loop of bot.py:313-319. */
  method CollectScheduled(entries: seq<JobEntry>) returns (m: map<string, string>)
    ensures m == Scheduled(entries)
  {
    m := map[];
    var i := 0;
    while i < |entries|
      invariant 0 <= i <= |entries|
      invariant m == Scheduled(entries[..i])
    {
      assert entries[..i + 1][..i] == entries[..i];
      var name := ScheduledName(entries[i].id);
      if name.Some? {
        m := m[name.value := entries[i].when];
      }
      i := i + 1;
    }
    assert entries[..i] == entries;
  }

  /** Some job in the list names pack `n`. */
  predicate Names(entries: seq<JobEntry>, n: string)
  {
    exists i :: 0 <= i < |entries| && ScheduledName(entries[i].id) == Some(n)
  }

  /** The job at `i` is the last one in the list that names pack `n`. */
  predicate LastNaming(entries: seq<JobEntry>, n: string, i: int)
  {
    0 <= i < |entries| && ScheduledName(entries[i].id) == Some(n)
    && forall j :: i < j < |entries| ==> ScheduledName(entries[j].id) != Some(n)
  }

  /** What the last job of the list does to the entry for pack `n`. */
  lemma ScheduledStep(entries: seq<JobEntry>, n: string)
    requires entries != []
    ensures var last, init := entries[|entries| - 1], entries[..|entries| - 1];
      if ScheduledName(last.id) == Some(n) then n in Scheduled(entries) && Scheduled(entries)[n] == last.when
      else ((n in Scheduled(entries) <==> n in Scheduled(init))
        && (n in Scheduled(init) ==> Scheduled(entries)[n] == Scheduled(init)[n]))
  {
    var last, init := entries[|entries| - 1], entries[..|entries| - 1];
    var m := Scheduled(init);
    match ScheduledName(last.id)
    case None =>
      assert Scheduled(entries) == m;
    case Some(x) =>
      assert Scheduled(entries) == m[x := last.when];
  }

  /** A pack is annotated exactly when some job id names it. */
  lemma {:induction false} ScheduledIffNamed(entries: seq<JobEntry>, n: string)
    ensures n in Scheduled(entries) <==> Names(entries, n)
  {
    if entries != [] {
      var k := |entries| - 1;
      var init := entries[..k];
      ScheduledIffNamed(init, n);
      ScheduledStep(entries, n);
      if ScheduledName(entries[k].id) != Some(n) {
        if Names(init, n) {
          var i :| 0 <= i < |init| && ScheduledName(init[i].id) == Some(n);
          assert entries[i] == init[i];
        }
        if Names(entries, n) {
          var i :| 0 <= i < |entries| && ScheduledName(entries[i].id) == Some(n);
          assert i != k;
          assert init[i] == entries[i];
        }
      }
    }
  }

  /** An annotated pack carries the run time of the last job in the list that names it. */
  lemma {:induction false} ScheduledIsLastJob(entries: seq<JobEntry>, n: string)
    requires n in Scheduled(entries)
    ensures exists i :: LastNaming(entries, n, i) && Scheduled(entries)[n] == entries[i].when
  {
    var k := |entries| - 1;
    var init := entries[..k];
    ScheduledStep(entries, n);
    if ScheduledName(entries[k].id) == Some(n) {
      assert LastNaming(entries, n, k);
    } else {
      ScheduledIsLastJob(init, n);
      var i :| LastNaming(init, n, i) && Scheduled(init)[n] == init[i].when;
      assert entries[i] == init[i];
      forall j | i < j < |entries|
        ensures ScheduledName(entries[j].id) != Some(n)
      {
        if j < k {
          assert entries[j] == init[j];
        } else {
          assert j == k;
        }
      }
      assert LastNaming(entries, n, i);
    }
  }

  /** A pack scheduled with a plain name is annotated with the time of its last job. */
  lemma ScheduledPackAnnotated(entries: seq<JobEntry>, n: string, t: int, when: string)
    requires ':' !in n
    ensures n in Scheduled(entries + [JobEntry(JobId(n, t), when)])
    ensures Scheduled(entries + [JobEntry(JobId(n, t), when)])[n] == when
  {
    ScheduledNameOfJobId(n, t);
    assert (entries + [JobEntry(JobId(n, t), when)])[..|entries|] == entries;
  }

  // ---------------------------------------------------------------------------
  // The listing
  // ---------------------------------------------------------------------------

  const CalendarMark: string := " (\U{1F5D3}\U{FE0F} "

  /** One pack button: its label and the callback it sends. */
  datatype Button = Button(text: string, data: string)

  /** What the listing shows: a notice that there are no packs, or a page of packs with its navigation. */
  datatype Listing =
    | NoPacks
    | Packs(buttons: seq<Button>, prev: Option<nat>, next: Option<nat>)

  /** The button for one pack: its name, annotated with its run time when it is scheduled. */
  function PackButton(name: string, scheduled: map<string, string>): (b: Button)
    ensures name <= b.text && (b.text == name <==> name !in scheduled)
    ensures b.data == "pack_select:" + name
  {
    Button(name + (if name in scheduled then CalendarMark + scheduled[name] + ")" else ""), "pack_select:" + name)
  }

  /** The listing of page `page` of `all` (bot.py:320-336). */
  function ListingOf(all: seq<string>, scheduled: map<string, string>, page: nat): (r: Listing)
    ensures r.NoPacks? <==> all == []
    ensures r.Packs? ==> (|r.buttons| == |Page(all, page)|
      && (forall i :: 0 <= i < |r.buttons| ==> r.buttons[i] == PackButton(Page(all, page)[i], scheduled))
      && (r.prev.Some? <==> HasPrev(page)) && (r.prev.Some? ==> r.prev.value == page - 1)
      && (r.next.Some? <==> HasNext(all, page)) && (r.next.Some? ==> r.next.value == page + 1))
  {
    if all == [] then NoPacks
    else
      var shown := Page(all, page);
      Packs(seq(|shown|, i requires 0 <= i < |shown| => PackButton(shown[i], scheduled)),
            if HasPrev(page) then Some(page - 1) else None,
            if HasNext(all, page) then Some(page + 1) else None)
  }

  /** `_get_pack_list_markup`: annotations from the job list, then one button per pack of the page. */
  method PackListMarkup(all: seq<string>, entries: seq<JobEntry>, page: nat) returns (r: Listing)
    ensures r == ListingOf(all, Scheduled(entries), page)
  {
    var scheduled := CollectScheduled(entries);
    if all == [] {
      return NoPacks;
    }
    var shown := Page(all, page);
    var buttons: seq<Button> := [];
    var i := 0;
    while i < |shown|
      invariant 0 <= i <= |shown|
      invariant |buttons| == i
      invariant forall j :: 0 <= j < i ==> buttons[j] == PackButton(shown[j], scheduled)
    {
      buttons := buttons + [PackButton(shown[i], scheduled)];
      i := i + 1;
    }
    var prev: Option<nat> := None;
    if page > 0 {
      prev := Some(page - 1);
    }
    var next: Option<nat> := None;
    if page * PageSize + PageSize < |all| {
      next := Some(page + 1);
    }
    r := Packs(buttons, prev, next);
  }

  // ---------------------------------------------------------------------------
  // Error report chunks
  // ---------------------------------------------------------------------------

  function Concat(parts: seq<string>): string
  {
    if parts == [] then [] else parts[0] + Concat(parts[1..])
  }

  /**
   * `[s[i:i+4000] for i in range(0, len(s), 4000)]`: consecutive pieces that
   * join back into the report, none empty, none longer than 4000 characters,
   * all but the last exactly 4000.
   */
  function Chunks(s: string): (r: seq<string>)
    ensures Concat(r) == s
    ensures |r| == (|s| + ChunkSize - 1) / ChunkSize
    ensures forall i :: 0 <= i < |r| ==> 0 < |r[i]| <= ChunkSize
    ensures forall i :: 0 <= i < |r| - 1 ==> |r[i]| == ChunkSize
    decreases |s|
  {
    if s == [] then []
    else if |s| <= ChunkSize then [s]
    else
      var rest := Chunks(s[ChunkSize..]);
      assert s == s[..ChunkSize] + s[ChunkSize..];
      [s[..ChunkSize]] + rest
  }

  // ---------------------------------------------------------------------------
  // Month navigation
  // ---------------------------------------------------------------------------

  /** A calendar month, as `datetime(year, month, 1)` takes it. */
  datatype Month = Month(year: int, month: int)

  /** The months `datetime` can represent: years 1 to 9999. */
  predicate ValidMonth(m: Month)
  {
    1 <= m.year <= 9999 && 1 <= m.month <= 12
  }

  /** Months counted from January of year 0. */
  function MonthNumber(m: Month): int
  {
    m.year * 12 + m.month - 1
  }

  /**
   * `datetime(year, month, 1) - relativedelta(months=1)`: the month before,
   * wrapping January back to December of the previous year; None where
   * `datetime` raises (an invalid month, or January of year 1).
   */
  function PrevMonth(m: Month): (r: Option<Month>)
    ensures r.Some? <==> ValidMonth(m) && m != Month(1, 1)
    ensures r.Some? ==> ValidMonth(r.value) && MonthNumber(r.value) == MonthNumber(m) - 1
  {
    if !ValidMonth(m) then None
    else if m.month == 1 then (if m.year == 1 then None else Some(Month(m.year - 1, 12)))
    else Some(Month(m.year, m.month - 1))
  }

  /**
   * `datetime(year, month, 1) + relativedelta(months=1)`: the month after,
   * wrapping December to January of the next year; None where `datetime`
   * raises (an invalid month, or December of year 9999).
   */
  function NextMonth(m: Month): (r: Option<Month>)
    ensures r.Some? <==> ValidMonth(m) && m != Month(9999, 12)
    ensures r.Some? ==> ValidMonth(r.value) && MonthNumber(r.value) == MonthNumber(m) + 1
  {
    if !ValidMonth(m) then None
    else if m.month == 12 then (if m.year == 9999 then None else Some(Month(m.year + 1, 1)))
    else Some(Month(m.year, m.month + 1))
  }

  /** Months are told apart by their number. */
  lemma MonthNumberInjective(a: Month, b: Month)
    requires ValidMonth(a) && ValidMonth(b) && MonthNumber(a) == MonthNumber(b)
    ensures a == b
  {
    MonthNumberParts(a);
    MonthNumberParts(b);
  }

  lemma MonthNumberParts(m: Month)
    requires ValidMonth(m)
    ensures MonthNumber(m) / 12 == m.year && MonthNumber(m) % 12 == m.month - 1
  {
  }

  /** "<<" then ">>", or ">>" then "<<", brings the calendar back to the month it showed. */
  lemma NavigationRoundTrip(m: Month)
    ensures PrevMonth(m).Some? ==> NextMonth(PrevMonth(m).value) == Some(m)
    ensures NextMonth(m).Some? ==> PrevMonth(NextMonth(m).value) == Some(m)
  {
    if PrevMonth(m).Some? {
      var p := PrevMonth(m).value;
      assert p != Month(9999, 12) by {
        assert MonthNumber(p) < MonthNumber(Month(9999, 12));
      }
      MonthNumberInjective(NextMonth(p).value, m);
    }
    if NextMonth(m).Some? {
      var n := NextMonth(m).value;
      assert n != Month(1, 1) by {
        assert MonthNumber(n) > MonthNumber(Month(1, 1));
      }
      MonthNumberInjective(PrevMonth(n).value, m);
    }
  }
}
