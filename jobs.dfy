/**
 * Scheduled publications as the bot names them in the job store: ids of the
 * form `pack:<name>:<timestamp>`, the prefix test that removes a deleted pack's
 * jobs, and the reading of a pack name back out of an id for the pack listing.
 */
module Jobs {
  import opened Wrappers
  import opened Strings

  const JobPrefix: string := "pack:"

  /** A pending publication: the pack, the chat that gets the reports, the local run time as a Unix timestamp. */
  datatype Job = Job(pack: string, chat: int, time: int)

  /** `str()` of a whole-second float timestamp: the integer's digits, then ".0". */
  function StampText(ts: int): (r: string)
    ensures |r| > 0 && ':' !in r
  {
    var d := IntToString(ts);
    assert forall i :: 0 <= i < |d| ==> d[i] != ':';
    d + ".0"
  }

  /** The id a publication is stored under (bot.py:728). */
  function JobId(name: string, ts: int): (id: string)
  {
    JobPrefix + name + ":" + StampText(ts)
  }

  /** `id.startswith(f"pack:{name}:")`: the test that decides which jobs go with a deleted pack (bot.py:376). */
  predicate BelongsTo(id: string, name: string)
  {
    JobPrefix + name + ":" <= id
  }

  lemma PrefixOfConcat(a: string, b: string, c: string)
    requires a <= b
    ensures a <= b + c
  {
    assert (b + c)[..|a|] == b[..|a|];
  }

  /** Where an id splits at its last colon is fixed: the part after it cannot hold a colon. */
  lemma {:induction false} SplitAtLastColon(a1: string, t1: string, a2: string, t2: string)
    requires a1 + ":" + t1 == a2 + ":" + t2 && ':' !in t1 && ':' !in t2
    ensures a1 == a2 && t1 == t2
  {
    var s := a1 + ":" + t1;
    var s2 := a2 + ":" + t2;
    if |t1| < |t2| {
      ColonInLongerTail(a1, t1, a2, t2);
      assert false;
    } else if |t2| < |t1| {
      ColonInLongerTail(a2, t2, a1, t1);
      assert false;
    } else {
      assert t1 == s[|s| - |t1|..] == t2;
      assert a1 == s[..|a1|] == a2;
    }
  }

  lemma ColonInLongerTail(a1: string, t1: string, a2: string, t2: string)
    requires a1 + ":" + t1 == a2 + ":" + t2 && |t1| < |t2|
    ensures ':' in t2
  {
    var s := a1 + ":" + t1;
    var i := |s| - |t1| - 1;
    assert s[i] == ':';
    assert (a2 + ":" + t2)[i] == t2[|t2| - |t1| - 1];
  }

  /** Two publications share an id only when they are for the same pack at the same time, so replacing by id loses nothing else. */
  lemma JobIdInjective(n1: string, t1: int, n2: string, t2: int)
    requires JobId(n1, t1) == JobId(n2, t2)
    ensures n1 == n2 && t1 == t2
  {
    SplitAtLastColon(JobPrefix + n1, StampText(t1), JobPrefix + n2, StampText(t2));
    assert n1 == (JobPrefix + n1)[|JobPrefix|..] == (JobPrefix + n2)[|JobPrefix|..] == n2;
    var d1, d2 := IntToString(t1), IntToString(t2);
    assert d1 == StampText(t1)[..|d1|];
    assert d2 == StampText(t2)[..|d2|];
    assert |d1| == |d2|;
    IntToStringInjective(t1, t2);
  }

  /**
   * Deleting pack `name` takes the jobs of pack `m` exactly when `m` is `name`
   * or starts with `name:`: the prefix test also catches packs whose names
   * extend `name` with a colon.
   */
  lemma BelongsToIff(name: string, m: string, t: int)
    ensures BelongsTo(JobId(m, t), name) <==> (m == name || name + ":" <= m)
  {
    var T := StampText(t);
    assert JobId(m, t) == JobPrefix + (m + ":" + T);
    PrefixTestIff(name, m, T);
  }

  lemma ColonInTail(name: string, m: string, T: string)
    requires name + ":" <= m + ":" + T && |name| > |m|
    ensures ':' in T
  {
    var p := name + ":";
    var rest := m + ":" + T;
    var j := |p| - |m| - 2;
    assert T[j] == rest[|p| - 1] == p[|p| - 1] == ':';
  }

  lemma {:induction false} PrefixTestIff(name: string, m: string, T: string)
    requires ':' !in T
    ensures JobPrefix + name + ":" <= JobPrefix + (m + ":" + T) <==> (m == name || name + ":" <= m)
  {
    var rest := m + ":" + T;
    var p := name + ":";
    assert JobPrefix + name + ":" == JobPrefix + p;
    if JobPrefix + p <= JobPrefix + rest {
      assert p <= rest by {
        assert p == (JobPrefix + p)[|JobPrefix|..];
        assert rest[..|p|] == (JobPrefix + rest)[|JobPrefix|..|JobPrefix| + |p|];
      }
      if |name| < |m| {
        assert m[..|p|] == rest[..|p|];
      } else if |name| > |m| {
        ColonInTail(name, m, T);
        assert false;
      } else {
        assert m == rest[..|m|] == p[..|m|] == name;
      }
    }
    if m == name {
      assert (JobPrefix + rest)[..|JobPrefix + p|] == JobPrefix + p;
    } else if p <= m {
      PrefixOfConcat(p, m, ":" + T);
      assert rest == m + (":" + T);
      assert (JobPrefix + rest)[..|JobPrefix + p|] == JobPrefix + rest[..|p|];
    }
  }

  /** Deleting pack "a" also takes the jobs of a pack named "a:b". */
  lemma DeleteTakesColonNames(t: int)
    ensures BelongsTo(JobId("a:b", t), "a") && BelongsTo(JobId("a", t), "a")
  {
    BelongsToIff("a", "a:b", t);
    BelongsToIff("a", "a", t);
  }

  /** The job store after the pack's jobs are removed: every id the prefix test takes is gone, the rest is untouched. */
  function WithoutPackJobs(jobs: map<string, Job>, name: string): (r: map<string, Job>)
    ensures forall id :: id in r <==> id in jobs && !BelongsTo(id, name)
    ensures forall id :: id in r ==> r[id] == jobs[id]
  {
    map id | id in jobs && !BelongsTo(id, name) :: jobs[id]
  }

  /** The text before the first colon, when there is one. */
  function BeforeColon(s: string): (r: Option<string>)
    ensures r.Some? <==> ':' in s
    ensures r.Some? ==> ':' !in r.value && r.value + ":" <= s
  {
    if s == [] then None
    else if s[0] == ':' then Some([])
    else match BeforeColon(s[1..])
      case None => None
      case Some(x) => Some([s[0]] + x)
  }

  /**
   * The pack name the listing reads out of a job id (bot.py:314-316): ids that
   * start with `pack:` and have two more colon-separated parts give the part
   * between the first two colons; any other id is passed over.
   */
  function ScheduledName(id: string): (r: Option<string>)
    ensures r.Some? ==> JobPrefix + r.value + ":" <= id && ':' !in r.value
  {
    if !(JobPrefix <= id) then None
    else match BeforeColon(id[|JobPrefix|..])
      case None => None
      case Some(n) =>
        assert id == JobPrefix + id[|JobPrefix|..];
        PrefixOfConcat(n + ":", id[|JobPrefix|..], []);
        assert JobPrefix + (n + ":") <= JobPrefix + id[|JobPrefix|..];
        Some(n)
  }

  lemma {:induction false} BeforeColonOf(n: string, rest: string)
    requires ':' !in n
    ensures BeforeColon(n + ":" + rest) == Some(n)
  {
    if n != [] {
      assert (n + ":" + rest)[1..] == n[1..] + ":" + rest;
      BeforeColonOf(n[1..], rest);
      assert [n[0]] + n[1..] == n;
    }
  }

  /**
   * Reading a name back out of a job id gives the name when it has no colon; a
   * name with a colon is read back as its text before the first colon.
   */
  lemma ScheduledNameOfJobId(n: string, t: int)
    ensures ':' !in n ==> ScheduledName(JobId(n, t)) == Some(n)
    ensures ':' in n ==> ScheduledName(JobId(n, t)) == BeforeColon(n)
  {
    var T := StampText(t);
    assert JobId(n, t) == JobPrefix + (n + ":" + T);
    NameOfId(n, T);
  }

  lemma ScheduledNameRest(id: string)
    requires JobPrefix <= id
    ensures ScheduledName(id) == BeforeColon(id[|JobPrefix|..])
  {
  }

  lemma {:induction false} NameOfId(n: string, T: string)
    ensures ':' !in n ==> ScheduledName(JobPrefix + (n + ":" + T)) == Some(n)
    ensures ':' in n ==> ScheduledName(JobPrefix + (n + ":" + T)) == BeforeColon(n)
  {
    var id := JobPrefix + (n + ":" + T);
    assert id[|JobPrefix|..] == n + ":" + T;
    ScheduledNameRest(id);
    if ':' !in n {
      BeforeColonOf(n, T);
    } else {
      BeforeColonPrefix(n, ":" + T);
      assert n + ":" + T == n + (":" + T);
    }
  }

  lemma {:induction false} BeforeColonPrefix(n: string, rest: string)
    requires ':' in n
    ensures BeforeColon(n + rest) == BeforeColon(n)
  {
    if n[0] != ':' {
      assert (n + rest)[1..] == n[1..] + rest;
      assert n[1..] != [] && ':' in n[1..] by {
        var i :| 0 <= i < |n| && n[i] == ':';
        assert i > 0 && n[1..][i - 1] == ':';
      }
      BeforeColonPrefix(n[1..], rest);
    }
  }
}
