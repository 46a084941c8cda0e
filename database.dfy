/**
 * The pack store: a collection of pack documents
 * `{name, user_id, created_at, content: [{photo_id, photo_file_id, videos: [{file_id, caption}]}]}`
 * with a unique index on (name, user_id), kept in insertion order. Block ids
 * (ObjectIds) come from a counter. Every lookup that filters on the name alone
 * takes the first pack with that name, whoever owns it.
 */
module PackStore {
  import opened Wrappers

  type PhotoId = nat

  datatype Video = Video(fileId: string, caption: string)
  datatype Block = Block(photoId: PhotoId, photoFileId: string, videos: seq<Video>)
  datatype Pack = Pack(name: string, userId: int, createdAt: int, content: seq<Block>)

  // ---------------------------------------------------------------------------
  // Queries over a pack sequence

  /** `find_one({"name": name})`: the first pack with that name. */
  function FirstByName(packs: seq<Pack>, name: string): (r: Option<nat>)
    ensures r.Some? ==> r.value < |packs| && packs[r.value].name == name
    ensures r.Some? ==> forall j :: 0 <= j < r.value ==> packs[j].name != name
    ensures r.None? ==> forall j :: 0 <= j < |packs| ==> packs[j].name != name
  {
    if packs == [] then None
    else if packs[0].name == name then Some(0)
    else match FirstByName(packs[1..], name)
      case None => None
      case Some(i) => Some(i + 1)
  }

  /** `find_one({"name": name, "user_id": user})`. */
  function FindOwned(packs: seq<Pack>, name: string, user: int): (r: Option<nat>)
    ensures r.Some? ==> r.value < |packs| && packs[r.value].name == name && packs[r.value].userId == user
    ensures r.Some? ==> forall j :: 0 <= j < r.value ==> !(packs[j].name == name && packs[j].userId == user)
    ensures r.None? ==> forall j :: 0 <= j < |packs| ==> !(packs[j].name == name && packs[j].userId == user)
  {
    if packs == [] then None
    else if packs[0].name == name && packs[0].userId == user then Some(0)
    else match FindOwned(packs[1..], name, user)
      case None => None
      case Some(i) => Some(i + 1)
  }

  predicate HasBlock(content: seq<Block>, id: PhotoId)
  {
    exists b :: b in content && b.photoId == id
  }

  /** The first block with that id: the element the positional operator `content.$` designates. */
  function BlockIndex(content: seq<Block>, id: PhotoId): (r: Option<nat>)
    ensures r.Some? ==> r.value < |content| && content[r.value].photoId == id
    ensures r.Some? ==> forall j :: 0 <= j < r.value ==> content[j].photoId != id
    ensures r.None? <==> !HasBlock(content, id)
  {
    if content == [] then None
    else if content[0].photoId == id then Some(0)
    else match BlockIndex(content[1..], id)
      case None => (assert forall b :: b in content ==> b == content[0] || b in content[1..]; None)
      case Some(i) => Some(i + 1)
  }

  /** `find_one({"name": name, "content.photo_id": id})`. */
  function FirstWithBlock(packs: seq<Pack>, name: string, id: PhotoId): (r: Option<nat>)
    ensures r.Some? ==> r.value < |packs| && packs[r.value].name == name && HasBlock(packs[r.value].content, id)
    ensures r.Some? ==> forall j :: 0 <= j < r.value ==> !(packs[j].name == name && HasBlock(packs[j].content, id))
    ensures r.None? ==> forall j :: 0 <= j < |packs| ==> !(packs[j].name == name && HasBlock(packs[j].content, id))
  {
    if packs == [] then None
    else if packs[0].name == name && HasBlock(packs[0].content, id) then Some(0)
    else match FirstWithBlock(packs[1..], name, id)
      case None => None
      case Some(i) => Some(i + 1)
  }

  /** The blocks left after `$pull: {content: {photo_id: id}}`: every block with that id goes, the rest keep their order. */
  function WithoutBlock(content: seq<Block>, id: PhotoId): (r: seq<Block>)
    ensures |r| <= |content|
    ensures forall b :: b in r <==> b in content && b.photoId != id
    ensures |r| < |content| <==> HasBlock(content, id)
  {
    if content == [] then []
    else
      var rest := WithoutBlock(content[1..], id);
      assert forall b :: b in content <==> b == content[0] || b in content[1..];
      if content[0].photoId == id then rest else [content[0]] + rest
  }

  /** `$pull` works block by block: on a concatenation it pulls from each part and keeps the parts in order. */
  lemma {:induction false} WithoutBlockAppend(a: seq<Block>, b: seq<Block>, id: PhotoId)
    ensures WithoutBlock(a + b, id) == WithoutBlock(a, id) + WithoutBlock(b, id)
  {
    if a == [] {
      assert a + b == b;
    } else {
      assert (a + b)[0] == a[0] && (a + b)[1..] == a[1..] + b;
      WithoutBlockAppend(a[1..], b, id);
    }
  }

  /** A single block is pulled exactly when it has that id. */
  lemma WithoutBlockSingle(x: Block, id: PhotoId)
    ensures WithoutBlock([x], id) == if x.photoId == id then [] else [x]
  {
    assert [x][1..] == [];
  }

  predicate UniqueKeys(packs: seq<Pack>)
  {
    forall i, j :: 0 <= i < j < |packs| ==> !(packs[i].name == packs[j].name && packs[i].userId == packs[j].userId)
  }

  // ---------------------------------------------------------------------------
  // Newest-first listing

  predicate NewestFirst(ps: seq<Pack>)
  {
    forall i, j :: 0 <= i < j < |ps| ==> ps[i].createdAt >= ps[j].createdAt
  }

  /** Places `p` before the first pack that is not newer than it. */
  function Insert(p: Pack, sorted: seq<Pack>): seq<Pack>
  {
    if sorted == [] || p.createdAt >= sorted[0].createdAt then [p] + sorted
    else [sorted[0]] + Insert(p, sorted[1..])
  }

  lemma {:induction false} InsertKeepsOrder(p: Pack, sorted: seq<Pack>)
    requires NewestFirst(sorted)
    ensures NewestFirst(Insert(p, sorted))
  {
    if !(sorted == [] || p.createdAt >= sorted[0].createdAt) {
      var rest := Insert(p, sorted[1..]);
      InsertKeepsOrder(p, sorted[1..]);
      InsertNotNewer(p, sorted[1..], sorted[0].createdAt);
      var r := [sorted[0]] + rest;
      forall i, j | 0 <= i < j < |r| ensures r[i].createdAt >= r[j].createdAt {
        if i > 0 {
          assert r[i] == rest[i - 1] && r[j] == rest[j - 1];
        } else {
          assert r[j] == rest[j - 1];
        }
      }
    }
  }

  lemma {:induction false} InsertIsPermutation(p: Pack, sorted: seq<Pack>)
    ensures multiset(Insert(p, sorted)) == multiset(sorted) + multiset{p}
  {
    if !(sorted == [] || p.createdAt >= sorted[0].createdAt) {
      InsertIsPermutation(p, sorted[1..]);
      assert sorted == [sorted[0]] + sorted[1..];
    }
  }

  /** Inserting a pack no newer than `t` into packs no newer than `t` gives packs no newer than `t`. */
  lemma {:induction false} InsertNotNewer(p: Pack, sorted: seq<Pack>, t: int)
    requires p.createdAt <= t && forall i :: 0 <= i < |sorted| ==> sorted[i].createdAt <= t
    ensures forall i :: 0 <= i < |Insert(p, sorted)| ==> Insert(p, sorted)[i].createdAt <= t
  {
    if !(sorted == [] || p.createdAt >= sorted[0].createdAt) {
      InsertNotNewer(p, sorted[1..], t);
    }
  }

  /** `.sort("created_at", -1)`; the order of packs created at the same instant is not fixed by the source. */
  function SortNewestFirst(ps: seq<Pack>): seq<Pack>
  {
    if ps == [] then [] else Insert(ps[0], SortNewestFirst(ps[1..]))
  }

  /** Sorting keeps every pack (a permutation) and puts the newest first. */
  lemma {:induction false} SortIsNewestFirstPermutation(ps: seq<Pack>)
    ensures NewestFirst(SortNewestFirst(ps)) && multiset(SortNewestFirst(ps)) == multiset(ps)
  {
    if ps != [] {
      SortIsNewestFirstPermutation(ps[1..]);
      InsertKeepsOrder(ps[0], SortNewestFirst(ps[1..]));
      InsertIsPermutation(ps[0], SortNewestFirst(ps[1..]));
      assert ps == [ps[0]] + ps[1..];
    }
  }

  function OwnedBy(packs: seq<Pack>, user: int): (r: seq<Pack>)
    ensures forall p :: p in r <==> p in packs && p.userId == user
  {
    if packs == [] then []
    else
      var rest := OwnedBy(packs[1..], user);
      assert forall p :: p in packs <==> p == packs[0] || p in packs[1..];
      if packs[0].userId == user then [packs[0]] + rest else rest
  }

  function Names(ps: seq<Pack>): (r: seq<string>)
    ensures |r| == |ps| && forall i :: 0 <= i < |ps| ==> r[i] == ps[i].name
  {
    if ps == [] then [] else [ps[0].name] + Names(ps[1..])
  }

  // ---------------------------------------------------------------------------
  // ObjectId text: 24 hexadecimal digits

  function Pow16(n: nat): (r: nat)
    ensures r > 0
  {
    if n == 0 then 1 else 16 * Pow16(n - 1)
  }

  predicate IsHexDigit(c: char)
  {
    ('0' <= c <= '9') || ('a' <= c <= 'f') || ('A' <= c <= 'F')
  }

  function HexDigitValue(c: char): (v: nat)
    requires IsHexDigit(c)
    ensures v < 16
  {
    if '0' <= c <= '9' then (c as int) - ('0' as int)
    else if 'a' <= c <= 'f' then (c as int) - ('a' as int) + 10
    else (c as int) - ('A' as int) + 10
  }

  function HexDigitChar(d: nat): (c: char)
    requires d < 16
    ensures IsHexDigit(c) && HexDigitValue(c) == d
  {
    if d < 10 then (('0' as int) + d) as char else (('a' as int) + d - 10) as char
  }

  function HexValue(s: string): nat
    requires forall i :: 0 <= i < |s| ==> IsHexDigit(s[i])
  {
    if s == [] then 0 else HexValue(s[..|s| - 1]) * 16 + HexDigitValue(s[|s| - 1])
  }

  /** `width` lower-case hex digits of `n`, most significant first. */
  function HexText(n: nat, width: nat): (r: string)
    ensures |r| == width && forall i :: 0 <= i < |r| ==> IsHexDigit(r[i])
  {
    if width == 0 then [] else HexText(n / 16, width - 1) + [HexDigitChar(n % 16)]
  }

  /** `str(ObjectId)`. */
  function ObjectIdText(id: PhotoId): string
  {
    HexText(id, 24)
  }

  /** `ObjectId(text)`: exactly 24 hex digits, else the constructor raises. */
  function ParseObjectId(text: string): (r: Option<PhotoId>)
    ensures r.Some? <==> |text| == 24 && forall i :: 0 <= i < |text| ==> IsHexDigit(text[i])
    ensures r.Some? ==> r.value == HexValue(text) && r.value < Pow16(24)
  {
    if |text| == 24 && forall i :: 0 <= i < |text| ==> IsHexDigit(text[i]) then
      HexValueBound(text);
      Some(HexValue(text))
    else None
  }

  lemma {:induction false} HexValueBound(s: string)
    requires forall i :: 0 <= i < |s| ==> IsHexDigit(s[i])
    ensures HexValue(s) < Pow16(|s|)
  {
    if s != [] {
      var init := s[..|s| - 1];
      HexValueBound(init);
      assert HexValue(init) + 1 <= Pow16(|s| - 1);
      calc {
        HexValue(s);
      <  HexValue(init) * 16 + 16;
      == (HexValue(init) + 1) * 16;
      <= Pow16(|s| - 1) * 16;
      }
    }
  }

  lemma {:induction false} HexTextRoundTrip(n: nat, width: nat)
    requires n < Pow16(width)
    ensures HexValue(HexText(n, width)) == n
  {
    if width > 0 {
      var s := HexText(n, width);
      assert s[..|s| - 1] == HexText(n / 16, width - 1);
      assert n / 16 < Pow16(width - 1);
      HexTextRoundTrip(n / 16, width - 1);
    }
  }

  /** The id text put into callback data parses back to the same block id. */
  lemma ObjectIdRoundTrip(id: PhotoId)
    requires id < Pow16(24)
    ensures ParseObjectId(ObjectIdText(id)) == Some(id)
  {
    HexTextRoundTrip(id, 24);
  }

  // ---------------------------------------------------------------------------
  // The collection

  class Store {
    var packs: seq<Pack>
    var nextId: nat

    /** The unique index on (name, user_id) holds, and the id counter is ahead of every block id in use. */
    ghost predicate Valid()
      reads this
    {
      && UniqueKeys(packs)
      && forall i, b :: 0 <= i < |packs| && b in packs[i].content ==> b.photoId < nextId
    }

    constructor()
      ensures Valid() && packs == []
    {
      packs := [];
      nextId := 0;
    }

    /** `create_pack`: inserts an empty pack unless (name, user) is taken (database.py:36-47). */
    method CreatePack(name: string, user: int, now: int) returns (ok: bool)
      requires Valid()
      modifies this
      ensures Valid() && nextId == old(nextId)
      ensures ok <==> FindOwned(old(packs), name, user).None?
      ensures ok ==> packs == old(packs) + [Pack(name, user, now, [])]
      ensures !ok ==> packs == old(packs)
    {
      ok := FindOwned(packs, name, user).None?;
      if ok {
        packs := packs + [Pack(name, user, now, [])];
      }
    }

    /** `add_photo_to_pack`: a new block with a fresh id at the end of the first pack with that name (database.py:49-60). */
    method AddPhoto(name: string, photoFileId: string) returns (ok: bool, id: PhotoId)
      requires Valid()
      modifies this
      ensures Valid() && id == old(nextId) && nextId == old(nextId) + 1
      ensures forall i, b :: 0 <= i < |old(packs)| && b in old(packs)[i].content ==> b.photoId != id
      ensures ok <==> FirstByName(old(packs), name).Some?
      ensures !ok ==> packs == old(packs)
      ensures ok ==> var i := FirstByName(old(packs), name).value;
        packs == old(packs)[i := old(packs)[i].(content := old(packs)[i].content + [Block(id, photoFileId, [])])]
    {
      id := nextId;
      nextId := nextId + 1;
      var found := FirstByName(packs, name);
      ok := found.Some?;
      if ok {
        var i := found.value;
        var block := Block(id, photoFileId, []);
        packs := packs[i := packs[i].(content := packs[i].content + [block])];
        assert forall b :: b in packs[i].content ==> b in old(packs)[i].content || b == block;
      }
    }

    /** `add_video_to_photo`: appends to the first matching block of the first pack with that name holding that block (database.py:62-72). */
    method AddVideo(name: string, id: PhotoId, fileId: string, caption: string) returns (ok: bool)
      requires Valid()
      modifies this
      ensures Valid() && nextId == old(nextId)
      ensures ok <==> FirstWithBlock(old(packs), name, id).Some?
      ensures !ok ==> packs == old(packs)
      ensures ok ==>
        var i := FirstWithBlock(old(packs), name, id).value;
        var content := old(packs)[i].content;
        var j := BlockIndex(content, id).value;
        packs == old(packs)[i := old(packs)[i].(content := content[j := content[j].(videos := content[j].videos + [Video(fileId, caption)])])]
    {
      var found := FirstWithBlock(packs, name, id);
      ok := found.Some?;
      if ok {
        var i := found.value;
        var content := packs[i].content;
        var j := BlockIndex(content, id).value;
        var content' := content[j := content[j].(videos := content[j].videos + [Video(fileId, caption)])];
        assert forall b :: b in content' ==> b in content || b.photoId == content[j].photoId;
        packs := packs[i := packs[i].(content := content')];
      }
    }

    /** `list_all_packs`: the names of the user's packs, newest first (database.py:74-77). */
    function ListAllPacks(user: int): seq<string>
      reads this
    {
      Names(SortNewestFirst(OwnedBy(packs, user)))
    }

    /** `get_pack_for_sending`: the content of the first pack with that name (database.py:79-82). */
    function GetPackForSending(name: string): (r: Option<seq<Block>>)
      reads this
      ensures r.None? <==> forall j :: 0 <= j < |packs| ==> packs[j].name != name
      ensures r.Some? ==> exists j :: (0 <= j < |packs| && packs[j].name == name && packs[j].content == r.value
        && forall i :: 0 <= i < j ==> packs[i].name != name)
    {
      match FirstByName(packs, name)
      case None => None
      case Some(i) => Some(packs[i].content)
    }

    /** `get_pack_details`: the pack with that name and owner (database.py:84-86). */
    function GetPackDetails(name: string, user: int): (r: Option<Pack>)
      reads this
      ensures r.Some? ==> r.value in packs && r.value.name == name && r.value.userId == user
      ensures r.None? <==> forall p :: p in packs ==> !(p.name == name && p.userId == user)
    {
      match FindOwned(packs, name, user)
      case None => None
      case Some(i) => Some(packs[i])
    }

    /** `delete_pack`: removes the pack with that name and owner (database.py:88-91). */
    method DeletePack(name: string, user: int) returns (ok: bool)
      requires Valid()
      modifies this
      ensures Valid() && nextId == old(nextId)
      ensures ok <==> FindOwned(old(packs), name, user).Some?
      ensures !ok ==> packs == old(packs)
      ensures ok ==> var i := FindOwned(old(packs), name, user).value;
        packs == old(packs)[..i] + old(packs)[i + 1..]
    {
      var found := FindOwned(packs, name, user);
      ok := found.Some?;
      if ok {
        var i := found.value;
        ghost var before := packs;
        packs := packs[..i] + packs[i + 1..];
        assert forall k :: 0 <= k < |packs| ==> packs[k] == before[if k < i then k else k + 1];
      }
    }

    /** `delete_photo_from_pack`: pulls every block with the parsed id from the first pack with that name (database.py:93-104). */
    method DeletePhoto(name: string, idText: string) returns (ok: bool)
      requires Valid()
      modifies this
      ensures Valid() && nextId == old(nextId)
      ensures ParseObjectId(idText).None? || FirstByName(old(packs), name).None? ==> !ok && packs == old(packs)
      ensures ParseObjectId(idText).Some? && FirstByName(old(packs), name).Some? ==>
        var i := FirstByName(old(packs), name).value;
        var id := ParseObjectId(idText).value;
        && (ok <==> HasBlock(old(packs)[i].content, id))
        && packs == old(packs)[i := old(packs)[i].(content := WithoutBlock(old(packs)[i].content, id))]
    {
      var parsed := ParseObjectId(idText);
      var found := FirstByName(packs, name);
      if parsed.None? || found.None? {
        ok := false;
        return;
      }
      var i := found.value;
      var content' := WithoutBlock(packs[i].content, parsed.value);
      ok := |content'| < |packs[i].content|;
      packs := packs[i := packs[i].(content := content')];
    }
  }

  // ---------------------------------------------------------------------------
  // Properties of the listing

  /** The user's packs, sorted: exactly the packs the user owns, as many as they own, newest first. */
  lemma OwnedSorted(packs: seq<Pack>, user: int)
    ensures var owned := SortNewestFirst(OwnedBy(packs, user));
      && NewestFirst(owned)
      && |owned| == |OwnedBy(packs, user)|
      && forall p :: p in owned <==> p in packs && p.userId == user
  {
    var mine := OwnedBy(packs, user);
    var owned := SortNewestFirst(mine);
    SortIsNewestFirstPermutation(mine);
    assert |multiset(owned)| == |multiset(mine)|;
    forall p
      ensures p in owned <==> p in mine
    {
      assert p in owned <==> p in multiset(owned);
      assert p in mine <==> p in multiset(mine);
    }
  }

  /** A name is listed exactly when some pack in `ps` carries it. */
  lemma NamesHave(ps: seq<Pack>, n: string)
    ensures n in Names(ps) <==> exists p :: p in ps && p.name == n
  {
    if n in Names(ps) {
      var k :| 0 <= k < |ps| && Names(ps)[k] == n;
      assert ps[k] in ps;
    }
    if exists p :: p in ps && p.name == n {
      var p :| p in ps && p.name == n;
      var k :| 0 <= k < |ps| && ps[k] == p;
      assert Names(ps)[k] == n;
    }
  }

  /**
   * `list_all_packs` names every pack the user owns and nothing else, one entry
   * per pack, in the order of a newest-first sort.
   */
  lemma ListingIsExact(s: Store, user: int, n: string)
    ensures |s.ListAllPacks(user)| == |OwnedBy(s.packs, user)|
    ensures n in s.ListAllPacks(user) <==> exists p :: p in s.packs && p.userId == user && p.name == n
    ensures NewestFirst(SortNewestFirst(OwnedBy(s.packs, user)))
  {
    var owned := SortNewestFirst(OwnedBy(s.packs, user));
    OwnedSorted(s.packs, user);
    NamesHave(owned, n);
    if exists p :: p in s.packs && p.userId == user && p.name == n {
      var p :| p in s.packs && p.userId == user && p.name == n;
      assert p in owned && p.name == n;
    }
  }
}
