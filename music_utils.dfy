/** Room names for Music Assistant players (`music_utils.py`): the room a
    player stands in, the normal form used as a cache key, and the fuzzy
    lookup of a spoken room in the cache. The cache is an insertion-ordered
    dict from normalised room name to entity id. */
module MusicUtils {
  import opened Wrappers
  import opened Text
  import opened PyDict

  /** The suffixes tried, in this order. */
  const Suffixes: seq<string> := [" Speaker", " Player", " MA", " Music"]

  /** The name without the first suffix of `suffixes` it ends with, or
      `None` when it ends with none of them. */
  function StripFirstSuffix(name: string, suffixes: seq<string>): (r: Option<string>)
    ensures r.None? <==> forall k :: 0 <= k < |suffixes| ==> !EndsWith(name, suffixes[k])
    ensures r.Some? ==>
      exists k :: 0 <= k < |suffixes| && EndsWith(name, suffixes[k]) &&
        (forall j :: 0 <= j < k ==> !EndsWith(name, suffixes[j])) &&
        r.value == name[..|name| - |suffixes[k]|]
    decreases |suffixes|
  {
    if suffixes == [] then None
    else if EndsWith(name, suffixes[0]) then Some(name[..|name| - |suffixes[0]|])
    else
      var r := StripFirstSuffix(name, suffixes[1..]);
      if r.Some? then
        var k :| 0 <= k < |suffixes[1..]| && EndsWith(name, suffixes[1..][k]) &&
          (forall j :: 0 <= j < k ==> !EndsWith(name, suffixes[1..][j])) &&
          r.value == name[..|name| - |suffixes[1..][k]|];
        assert suffixes[k + 1] == suffixes[1..][k];
        r
      else r
  }

  /** The suffix removed is the first one the name ends with, and putting
      it back gives the name. */
  lemma StripFirstSuffixIsFirst(name: string, suffixes: seq<string>)
    ensures forall k :: (0 <= k < |suffixes| && EndsWith(name, suffixes[k]) &&
                         forall j :: 0 <= j < k ==> !EndsWith(name, suffixes[j])) ==>
      StripFirstSuffix(name, suffixes) == Some(name[..|name| - |suffixes[k]|]) &&
      name[..|name| - |suffixes[k]|] + suffixes[k] == name
  {
    forall k | 0 <= k < |suffixes| && EndsWith(name, suffixes[k]) &&
               forall j :: 0 <= j < k ==> !EndsWith(name, suffixes[j])
      ensures StripFirstSuffix(name, suffixes) == Some(name[..|name| - |suffixes[k]|])
      ensures name[..|name| - |suffixes[k]|] + suffixes[k] == name
    {
      StripFirstSuffixAt(name, suffixes, k);
      var m := |name| - |suffixes[k]|;
      assert name == name[..m] + name[m..];
    }
  }

  /** The suffix removed is the one at the first index the name ends with. */
  lemma {:induction false} StripFirstSuffixAt(name: string, suffixes: seq<string>, k: nat)
    requires k < |suffixes| && EndsWith(name, suffixes[k])
    requires forall j :: 0 <= j < k ==> !EndsWith(name, suffixes[j])
    ensures StripFirstSuffix(name, suffixes) == Some(name[..|name| - |suffixes[k]|])
    decreases k
  {
    if k > 0 {
      assert !EndsWith(name, suffixes[0]);
      forall j | 0 <= j < k - 1
        ensures !EndsWith(name, suffixes[1..][j])
      {
        assert suffixes[1..][j] == suffixes[j + 1];
      }
      StripFirstSuffixAt(name, suffixes[1..], k - 1);
    }
  }

  /** The room name hidden in an entity id: `media_player.` and every `ma_`
      removed, underscores turned into spaces. */
  function RoomOfEntityId(entityId: string): (r: string)
    ensures |r| <= |entityId|
    ensures forall i :: 0 <= i < |r| ==> r[i] != '_'
  {
    ReplaceChar(RemoveAll(RemoveAll(entityId, "media_player."), "ma_"), '_', ' ')
  }

  /** `extract_room_name` */
  function ExtractRoomName(friendlyName: string, entityId: string): (r: string)
    ensures friendlyName != [] ==>
      (forall k :: 0 <= k < |Suffixes| ==> !EndsWith(friendlyName, Suffixes[k])) ==> r == friendlyName
    ensures friendlyName != [] ==>
      forall k :: (0 <= k < |Suffixes| && EndsWith(friendlyName, Suffixes[k]) &&
                   forall j :: 0 <= j < k ==> !EndsWith(friendlyName, Suffixes[j])) ==>
        r + Suffixes[k] == friendlyName
    ensures friendlyName == [] ==> r == RoomOfEntityId(entityId)
    ensures friendlyName == [] ==> |r| <= |entityId| && forall i :: 0 <= i < |r| ==> r[i] != '_'
  {
    if friendlyName != [] then
      StripFirstSuffixIsFirst(friendlyName, Suffixes);
      match StripFirstSuffix(friendlyName, Suffixes)
      case Some(stripped) => stripped
      case None => friendlyName
    else RoomOfEntityId(entityId)
  }

  /** Only one suffix is removed: a name ending in two suffixes keeps the
      inner one. */
  lemma SuffixRemovedOnce(base: string)
    ensures ExtractRoomName(base + " Player" + " Speaker", "") == base + " Player"
  {
    var name := base + " Player" + " Speaker";
    assert EndsWith(name, Suffixes[0]);
    assert name[..|name| - |Suffixes[0]|] == base + " Player";
  }

  /** `normalize_room_name`: lower-cased, then stripped. */
  function NormalizeRoomName(roomName: string): (r: string)
    ensures forall i :: 0 <= i < |r| ==> !IsUpper(r[i])
    ensures r == [] || (!IsSpace(r[0]) && !IsSpace(r[|r| - 1]))
  {
    StripKeepsNoUpper(Lower(roomName));
    Strip(Lower(roomName))
  }

  /** Stripping a text without upper-case letters leaves none. */
  lemma StripKeepsNoUpper(s: string)
    requires forall i :: 0 <= i < |s| ==> !IsUpper(s[i])
    ensures forall i :: 0 <= i < |Strip(s)| ==> !IsUpper(Strip(s)[i])
  {
    var l := LStrip(s);
    var r := RStrip(l);
    forall i | 0 <= i < |r|
      ensures !IsUpper(r[i])
    {
      assert r[i] == l[i];
      assert l[i] == s[|s| - |l| + i];
    }
  }

  /** Stripping commutes with lower-casing. */
  lemma {:induction false} StripLower(s: string)
    ensures Strip(Lower(s)) == Lower(Strip(s))
  {
    LStripLower(s);
    RStripLower(LStrip(s));
  }

  /** A normalised name is its own normal form. */
  lemma {:induction false} NormalizeIdempotent(roomName: string)
    ensures NormalizeRoomName(NormalizeRoomName(roomName)) == NormalizeRoomName(roomName)
  {
    StripLower(Lower(roomName));
    LowerIdempotent(roomName);
    StripIdempotent(Lower(roomName));
  }

  /** Either room name contains the other, as Python's `in` on strings. */
  predicate Overlaps(query: string, room: string) {
    Contains(room, query) || Contains(query, room)
  }

  /** The value of the first entry whose key overlaps the query, in
      iteration order. */
  function FirstOverlap(query: string, rooms: Dict<string>): (r: Option<string>)
    ensures r.None? <==> forall i :: 0 <= i < |rooms| ==> !Overlaps(query, rooms[i].0)
    ensures r.Some? ==>
      exists i :: 0 <= i < |rooms| && Overlaps(query, rooms[i].0) && rooms[i].1 == r.value &&
        forall j :: 0 <= j < i ==> !Overlaps(query, rooms[j].0)
    decreases |rooms|
  {
    if rooms == [] then None
    else if Overlaps(query, rooms[0].0) then Some(rooms[0].1)
    else
      var r := FirstOverlap(query, rooms[1..]);
      if r.Some? then
        var i :| 0 <= i < |rooms[1..]| && Overlaps(query, rooms[1..][i].0) && rooms[1..][i].1 == r.value &&
          forall j :: 0 <= j < i ==> !Overlaps(query, rooms[1..][j].0);
        assert rooms[i + 1] == rooms[1..][i];
        r
      else r
  }

  /** `fuzzy_match_room` */
  function FuzzyMatchRoom(query: string, availableRooms: Dict<string>): (r: Option<string>)
    ensures NormalizeRoomName(query) == [] ==> r.None?
    ensures NormalizeRoomName(query) != [] && Get(availableRooms, NormalizeRoomName(query)).Some? ==>
      r == Get(availableRooms, NormalizeRoomName(query))
    ensures r.None? <==>
      NormalizeRoomName(query) == [] ||
      (Get(availableRooms, NormalizeRoomName(query)).None? &&
       forall i :: 0 <= i < |availableRooms| ==> !Overlaps(NormalizeRoomName(query), availableRooms[i].0))
    ensures r.Some? && Get(availableRooms, NormalizeRoomName(query)).None? ==>
      exists i :: 0 <= i < |availableRooms| && Overlaps(NormalizeRoomName(query), availableRooms[i].0) &&
        availableRooms[i].1 == r.value &&
        forall j :: 0 <= j < i ==> !Overlaps(NormalizeRoomName(query), availableRooms[j].0)
    ensures r.Some? ==> HasValue(availableRooms, r.value)
  {
    var normalizedQuery := NormalizeRoomName(query);
    if normalizedQuery == [] then None
    else if Get(availableRooms, normalizedQuery).Some? then
      GetHasValue(availableRooms, normalizedQuery);
      Get(availableRooms, normalizedQuery)
    else FirstOverlap(normalizedQuery, availableRooms)
  }

  /** A room key that equals the normalised query is found even when an
      earlier key merely overlaps it. */
  lemma ExactBeforeFuzzy(other: string, exact: string, a: string, b: string)
    requires NormalizeRoomName(exact) == exact && exact != []
    requires other != exact
    ensures FuzzyMatchRoom(exact, [(other, a), (exact, b)]) == Some(b)
  {
    var rooms := [(other, a), (exact, b)];
    assert rooms[1..] == [(exact, b)];
    assert Get(rooms, exact) == Some(b);
  }
}
