/** The Music Assistant handler (`music_assistant.py`): it caches the
    players' room names, resolves a spoken player reference to an entity
    id, and shapes the answers of `get_now_playing`, `control_playback`
    and `search_music`.

    The host's states are a sequence of `MediaEntity` values in the order
    the host lists them; service calls are returned as `ServiceCall`
    values, and their failures are parameters. */
module MusicAssistant {
  import opened Wrappers
  import opened Text
  import opened PyDict
  import opened JsonValue
  import opened MusicUtils

  /** A `media_player` entity as the handler sees it. `hasState` is false
      when the host has no state object for it, `platform` is `None` when
      the entity registry has no entry for it, and `friendlyName` is `None`
      when the attribute is absent. */
  datatype MediaEntity = MediaEntity(
    entityId: string,
    hasState: bool,
    platform: Option<string>,
    friendlyName: Option<string>,
    state: string,
    mediaTitle: Option<string>,
    mediaArtist: Option<string>,
    mediaAlbum: Option<string>)

  /** An entry of the list `load_and_cache_players` returns; the volume
      level is not modelled. */
  datatype Player = Player(
    entityId: string,
    name: string,
    state: string,
    mediaTitle: Option<string>,
    mediaArtist: Option<string>,
    mediaAlbum: Option<string>)

  /** A host service call `domain.service` aimed at one entity; the
      service data is not modelled. */
  datatype ServiceCall = ServiceCall(domain: string, service: string, entityId: string)

  /** A player of Music Assistant: it has a state, and either the registry
      puts it on the `music_assistant` platform or its id has the `ma_`
      prefix. */
  predicate IsMaPlayer(e: MediaEntity) {
    e.hasState && (e.platform == Some("music_assistant") || StartsWith(e.entityId, "media_player.ma_"))
  }

  /** `state.attributes.get("friendly_name", entity_id)` */
  function FriendlyName(e: MediaEntity): string {
    e.friendlyName.GetOr(e.entityId)
  }

  function PlayerOf(e: MediaEntity): Player {
    Player(e.entityId, FriendlyName(e), e.state, e.mediaTitle, e.mediaArtist, e.mediaAlbum)
  }

  /** The cache key of a player: its room name in normal form. */
  function CacheKey(e: MediaEntity): string {
    NormalizeRoomName(ExtractRoomName(FriendlyName(e), e.entityId))
  }

  /** The players found, in the host's order. */
  function Players(entities: seq<MediaEntity>): seq<Player>
    decreases |entities|
  {
    if entities == [] then []
    else
      var n := |entities| - 1;
      Players(entities[..n]) + if IsMaPlayer(entities[n]) then [PlayerOf(entities[n])] else []
  }

  /** The cache after the players of `entities` were stored, one by one. */
  function Cached(cache: Dict<string>, entities: seq<MediaEntity>): Dict<string>
    decreases |entities|
  {
    if entities == [] then cache
    else
      var n := |entities| - 1;
      var before := Cached(cache, entities[..n]);
      if IsMaPlayer(entities[n]) then Set(before, CacheKey(entities[n]), entities[n].entityId) else before
  }

  /** Every player found is reachable through its room name. */
  lemma CachedReachable(cache: Dict<string>, entities: seq<MediaEntity>)
    ensures forall i :: 0 <= i < |entities| && IsMaPlayer(entities[i]) ==>
      Get(Cached(cache, entities), CacheKey(entities[i])).Some?
  {
    forall i | 0 <= i < |entities| && IsMaPlayer(entities[i])
      ensures Get(Cached(cache, entities), CacheKey(entities[i])).Some?
    {
      CachedReaches(cache, entities, i);
    }
  }

  /** The player at position `i` is reachable through its room name. */
  lemma {:induction false} CachedReaches(cache: Dict<string>, entities: seq<MediaEntity>, i: nat)
    requires i < |entities| && IsMaPlayer(entities[i])
    ensures Get(Cached(cache, entities), CacheKey(entities[i])).Some?
    decreases |entities|
  {
    var n := |entities| - 1;
    var before := Cached(cache, entities[..n]);
    var e := entities[n];
    var key := CacheKey(entities[i]);
    if i == n {
      GetSetSame(before, key, e.entityId);
    } else {
      assert entities[..n][i] == entities[i];
      CachedReaches(cache, entities[..n], i);
      if IsMaPlayer(e) {
        if key != CacheKey(e) {
          GetSetOther(before, CacheKey(e), e.entityId, key);
        } else {
          GetSetSame(before, key, e.entityId);
        }
      }
    }
  }

  /** The last player stored keeps its room name. */
  lemma CachedLast(cache: Dict<string>, entities: seq<MediaEntity>)
    requires entities != [] && IsMaPlayer(entities[|entities| - 1])
    ensures Get(Cached(cache, entities), CacheKey(entities[|entities| - 1])) == Some(entities[|entities| - 1].entityId)
  {
    var n := |entities| - 1;
    GetSetSame(Cached(cache, entities[..n]), CacheKey(entities[n]), entities[n].entityId);
  }

  /** Every cached entity id was cached before or belongs to a player
      found. */
  lemma {:induction false} CachedValues(cache: Dict<string>, entities: seq<MediaEntity>)
    ensures forall v :: HasValue(Cached(cache, entities), v) ==>
      HasValue(cache, v) || exists i :: 0 <= i < |entities| && IsMaPlayer(entities[i]) && entities[i].entityId == v
    decreases |entities|
  {
    if entities != [] {
      var n := |entities| - 1;
      var before := Cached(cache, entities[..n]);
      CachedValues(cache, entities[..n]);
      var e := entities[n];
      forall v | HasValue(Cached(cache, entities), v)
        ensures HasValue(cache, v) || exists i :: 0 <= i < |entities| && IsMaPlayer(entities[i]) && entities[i].entityId == v
      {
        if IsMaPlayer(e) {
          SetHasValue(before, CacheKey(e), e.entityId, v);
        }
        if !(IsMaPlayer(e) && v == e.entityId) && !HasValue(cache, v) {
          var i :| 0 <= i < n && IsMaPlayer(entities[..n][i]) && entities[..n][i].entityId == v;
          assert entities[i] == entities[..n][i];
        }
      }
    }
  }

  /** The players list holds exactly the Music Assistant players, in order. */
  lemma {:induction false} PlayersAreMaPlayers(entities: seq<MediaEntity>)
    ensures |Players(entities)| <= |entities|
    ensures forall p :: p in Players(entities) <==> exists e :: e in entities && IsMaPlayer(e) && p == PlayerOf(e)
    decreases |entities|
  {
    if entities != [] {
      var n := |entities| - 1;
      PlayersAreMaPlayers(entities[..n]);
      assert entities == entities[..n] + [entities[n]];
      forall p | p in Players(entities)
        ensures exists e :: e in entities && IsMaPlayer(e) && p == PlayerOf(e)
      {
        if p in Players(entities[..n]) {
          var e :| e in entities[..n] && IsMaPlayer(e) && p == PlayerOf(e);
          assert e in entities;
        }
      }
    }
  }

  /** `get_first_active_player` after loading: the first playing player,
      else the first player, else none. */
  function FirstActive(players: seq<Player>): (r: Option<string>)
    ensures r.None? <==> players == []
    ensures (exists i :: 0 <= i < |players| && players[i].state == "playing") ==>
      exists i :: 0 <= i < |players| && players[i].state == "playing" && r == Some(players[i].entityId) &&
        forall j :: 0 <= j < i ==> players[j].state != "playing"
    ensures (forall i :: 0 <= i < |players| ==> players[i].state != "playing") && players != [] ==>
      r == Some(players[0].entityId)
  {
    match FirstPlaying(players)
    case Some(i) => Some(players[i].entityId)
    case None => if players != [] then Some(players[0].entityId) else None
  }

  /** The position of the first playing player. */
  function FirstPlaying(players: seq<Player>): (r: Option<nat>)
    ensures r.Some? ==> r.value < |players| && players[r.value].state == "playing"
    ensures r.Some? ==> forall j :: 0 <= j < r.value ==> players[j].state != "playing"
    ensures r.None? ==> forall i :: 0 <= i < |players| ==> players[i].state != "playing"
    decreases |players|
  {
    if players == [] then None
    else if players[0].state == "playing" then Some(0)
    else
      match FirstPlaying(players[1..])
      case Some(i) => Some(i + 1)
      case None => None
  }

  /** `[p for p in players if p["entity_id"] == target]` */
  function WithEntity(players: seq<Player>, target: Option<string>): (r: seq<Player>)
    ensures forall p :: p in r <==> p in players && Some(p.entityId) == target
    decreases |players|
  {
    if players == [] then []
    else
      var n := |players| - 1;
      WithEntity(players[..n], target) + if Some(players[n].entityId) == target then [players[n]] else []
  }

  /** `[p for p in players if p["state"] == "playing"]` */
  function PlayingOnly(players: seq<Player>): (r: seq<Player>)
    ensures forall p :: p in r <==> p in players && p.state == "playing"
    decreases |players|
  {
    if players == [] then []
    else
      var n := |players| - 1;
      PlayingOnly(players[..n]) + if players[n].state == "playing" then [players[n]] else []
  }

  /** A string entry present only when the value is truthy. */
  function Entry(key: string, value: Option<string>): Dict<Json> {
    if Given(value) then [(key, Str(value.value))] else []
  }

  /** The entry of one player in `get_now_playing`'s answer: track, artist
      and album only when they are truthy. */
  function PlayerInfo(p: Player): (r: Json)
    ensures r.Obj? && Get(r.fields, "player") == Some(Str(p.name)) && Get(r.fields, "state") == Some(Str(p.state))
    ensures Get(r.fields, "track") == if Given(p.mediaTitle) then Some(Str(p.mediaTitle.value)) else None
    ensures Get(r.fields, "artist") == if Given(p.mediaArtist) then Some(Str(p.mediaArtist.value)) else None
    ensures Get(r.fields, "album") == if Given(p.mediaAlbum) then Some(Str(p.mediaAlbum.value)) else None
  {
    var base := [("player", Str(p.name)), ("state", Str(p.state))];
    var track := Entry("track", p.mediaTitle);
    var artist := Entry("artist", p.mediaArtist);
    var album := Entry("album", p.mediaAlbum);
    GetNone(base, "track");
    GetNone(base, "artist");
    GetNone(base, "album");
    GetNone(track, "artist");
    GetNone(track, "album");
    GetNone(artist, "album");
    InfoLookup(base, track, artist, album, "player");
    InfoLookup(base, track, artist, album, "state");
    InfoLookup(base, track, artist, album, "track");
    InfoLookup(base, track, artist, album, "artist");
    InfoLookup(base, track, artist, album, "album");
    Obj(base + track + artist + album)
  }

  /** A lookup in four dicts laid end to end. */
  lemma InfoLookup(base: Dict<Json>, track: Dict<Json>, artist: Dict<Json>, album: Dict<Json>, k: string)
    ensures Get(base + track + artist + album, k) ==
      (if Get(base, k).Some? then Get(base, k)
       else if Get(track, k).Some? then Get(track, k)
       else if Get(artist, k).Some? then Get(artist, k)
       else Get(album, k))
  {
    GetAppend(base + track + artist, album, k);
    GetAppend(base + track, artist, k);
    GetAppend(base, track, k);
  }

  /** The answer when nothing is left to report. */
  const NothingPlaying: Json :=
    Obj([("success", Bool(true)), ("message", Str("Nothing is currently playing")), ("players", Arr([]))])

  /** The player names of `control_playback` actions and the services
      they call on the `media_player` domain. */
  const ServiceMap: Dict<string> := [
    ("play", "media_play"),
    ("pause", "media_pause"),
    ("stop", "media_stop"),
    ("next", "media_next_track"),
    ("previous", "media_previous_track"),
    ("volume_up", "volume_up"),
    ("volume_down", "volume_down"),
    ("shuffle", "shuffle_set"),
    ("repeat", "repeat_set")]

  /** The `media_player` service an action calls, or `None` for an
      unknown action. */
  function PlaybackService(action: string, volumeLevel: Option<int>): (r: Option<string>)
    ensures action == "volume_set" && volumeLevel.Some? ==> r == Some("volume_set")
    ensures action != "volume_set" ==> r == Get(ServiceMap, action)
    ensures action == "volume_set" && volumeLevel.None? ==> r.None?
    ensures r.Some? ==> r == Some("volume_set") || HasValue(ServiceMap, r.value)
  {
    if action == "volume_set" && volumeLevel.Some? then Some("volume_set")
    else
      var r := Get(ServiceMap, action);
      if action == "volume_set" then
        VolumeSetUnmapped();
        r
      else if r.Some? then
        GetHasValue(ServiceMap, action);
        r
      else r
  }

  /** `volume_set` has no entry of its own in the service map. */
  lemma VolumeSetUnmapped()
    ensures Get(ServiceMap, "volume_set").None?
  {
    GetNone(ServiceMap, "volume_set");
    forall i | 0 <= i < |ServiceMap|
      ensures ServiceMap[i].0 != "volume_set"
    {
      if i == 5 || i == 6 {
        assert ServiceMap[i].0[7] != "volume_set"[7];
      } else {
        assert ServiceMap[i].0[0] != "volume_set"[0];
      }
    }
  }

  /** Two entries of the service map: `play` calls `media_play`, and `seek`
      is not mapped. */
  lemma ServiceMapEntries()
    ensures PlaybackService("play", None) == Some("media_play")
    ensures PlaybackService("seek", Some(10)).None?
  {
  }

  /** `_get_player_name`: the friendly name of the first state with the
      id, else the id itself. */
  function PlayerName(states: seq<MediaEntity>, entityId: string): (r: string)
    ensures (forall e :: e in states ==> !(e.entityId == entityId && e.hasState)) ==> r == entityId
    decreases |states|
  {
    if states == [] then entityId
    else if states[0].entityId == entityId && states[0].hasState then FriendlyName(states[0])
    else PlayerName(states[1..], entityId)
  }

  /** The `service_data` of `search_music`. */
  function SearchRequest(query: string, mediaType: Option<string>, limit: int, favoritesOnly: bool,
                         maxResults: int): (r: Dict<Json>)
    ensures Get(r, "search") == Some(Str(query))
    ensures Get(r, "limit").Some? && Get(r, "limit").value.Int?
    ensures Get(r, "limit").value.i <= limit && Get(r, "limit").value.i <= maxResults
    ensures Get(r, "limit").value.i == limit || Get(r, "limit").value.i == maxResults
    ensures Get(r, "media_type") == if Given(mediaType) then Some(Str(mediaType.value)) else None
    ensures Get(r, "favorite") == if favoritesOnly then Some(Bool(true)) else None
  {
    var base := [("search", Str(query)), ("limit", Int(if limit <= maxResults then limit else maxResults))];
    var kind := Entry("media_type", mediaType);
    var favorite := if favoritesOnly then [("favorite", Bool(true))] else [];
    GetNone(base, "media_type");
    GetNone(base, "favorite");
    GetNone(kind, "favorite");
    GetAppend(base + kind, favorite, "search");
    GetAppend(base, kind, "search");
    GetAppend(base + kind, favorite, "limit");
    GetAppend(base, kind, "limit");
    GetAppend(base + kind, favorite, "media_type");
    GetAppend(base, kind, "media_type");
    GetAppend(base + kind, favorite, "favorite");
    GetAppend(base, kind, "favorite");
    base + kind + favorite
  }

  /** `search_music`. `maxResults` stands for `MAX_MUSIC_SEARCH_RESULTS`,
      and `response` is the outcome of the `get_library` call. */
  function SearchMusic(query: string, mediaType: Option<string>, limit: int, favoritesOnly: bool,
                       available: bool, maxResults: int, response: Result<Json, string>): (r: Json)
    ensures r.Obj? && |r.fields| >= 2 && r.fields[0] == ("success", Bool(available && response.Success?))
    ensures !available ==> r.fields == [("success", Bool(false)), ("error", Str("Music Assistant is not available"))]
    ensures available && response.Failure? ==> r.fields == [("success", Bool(false)), ("error", Str("Search failed: " + response.error))]
    ensures available && response.Success? ==>
      r.fields[1..] == [("results", if Truthy(response.value) then response.value else Arr([])), ("query", Str(query))]
  {
    if !available then Obj([("success", Bool(false)), ("error", Str("Music Assistant is not available"))])
    else
      match response
      case Failure(e) => Obj([("success", Bool(false)), ("error", Str("Search failed: " + e))])
      case Success(v) =>
        Obj([("success", Bool(true)), ("results", if Truthy(v) then v else Arr([])), ("query", Str(query))])
  }

  /** `MusicAssistantHandler`: the room cache, room name to entity id. */
  class MusicAssistantHandler {
    var playerCache: Dict<string>

    constructor ()
      ensures playerCache == []
    {
      playerCache := [];
    }

    /** `load_and_cache_players` over the host's `media_player` states. */
    method LoadAndCachePlayers(entities: seq<MediaEntity>) returns (players: seq<Player>)
      modifies this
      ensures players == Players(entities)
      ensures playerCache == Cached(old(playerCache), entities)
    {
      players := [];
      var i := 0;
      while i < |entities|
        invariant 0 <= i <= |entities|
        invariant players == Players(entities[..i])
        invariant playerCache == Cached(old(playerCache), entities[..i])
      {
        assert entities[..i + 1][..i] == entities[..i];
        var e := entities[i];
        if IsMaPlayer(e) {
          players := players + [PlayerOf(e)];
          var roomName := ExtractRoomName(FriendlyName(e), e.entityId);
          playerCache := Set(playerCache, NormalizeRoomName(roomName), e.entityId);
        }
        i := i + 1;
      }
      assert entities[..i] == entities;
    }

    /** `resolve_player` */
    function ResolvePlayer(playerRef: Option<string>): (r: Option<string>)
      reads this
      ensures !Given(playerRef) ==> r.None?
      ensures Given(playerRef) && StartsWith(playerRef.value, "media_player.") ==> r == playerRef
      ensures Given(playerRef) && !StartsWith(playerRef.value, "media_player.") ==>
        r == FuzzyMatchRoom(playerRef.value, playerCache)
      ensures r.Some? ==> r == playerRef || HasValue(playerCache, r.value)
    {
      if !Given(playerRef) then None
      else if StartsWith(playerRef.value, "media_player.") then playerRef
      else FuzzyMatchRoom(playerRef.value, playerCache)
    }

    /** `get_first_active_player` */
    method GetFirstActivePlayer(entities: seq<MediaEntity>) returns (r: Option<string>)
      modifies this
      ensures playerCache == Cached(old(playerCache), entities)
      ensures r == FirstActive(Players(entities))
    {
      var players := LoadAndCachePlayers(entities);
      r := FirstActive(players);
    }

    /** `get_now_playing` */
    method GetNowPlaying(player: Option<string>, entities: seq<MediaEntity>) returns (result: Json)
      modifies this
      ensures playerCache == Cached(old(playerCache), entities)
      ensures result == NowPlaying(player, Players(entities), ResolvePlayer(player))
    {
      var players := LoadAndCachePlayers(entities);
      if Given(player) {
        var target := ResolvePlayer(player);
        players := WithEntity(players, target);
      }
      if !Given(player) {
        var active := PlayingOnly(players);
        if active != [] {
          players := active;
        }
      }
      if players == [] {
        return NothingPlaying;
      }
      var resultPlayers := BuildInfos(players);
      result := Obj([("success", Bool(true)), ("players", Arr(resultPlayers))]);
    }

    /** `control_playback`: the answer and the service call made, if any;
        `serviceError` is the error the call raises, if it does. */
    method ControlPlayback(action: string, player: Option<string>, volumeLevel: Option<int>,
                           entities: seq<MediaEntity>, serviceError: Option<string>)
      returns (result: Json, call: Option<ServiceCall>)
      modifies this
      ensures Given(old(ResolvePlayer(player))) ==> playerCache == old(playerCache)
      ensures !Given(old(ResolvePlayer(player))) ==> playerCache == Cached(old(playerCache), entities)
      ensures result.Obj? && |result.fields| == 2 && result.fields[0] == ("success", Bool(call.Some? && serviceError.None?))
      ensures call.Some? ==>
        call.value.domain == "media_player" &&
        Some(call.value.service) == PlaybackService(action, volumeLevel) &&
        call.value.entityId == Target(old(ResolvePlayer(player)), entities)
      ensures call.None? <==> Target(old(ResolvePlayer(player)), entities) == [] || PlaybackService(action, volumeLevel).None?
      ensures Target(old(ResolvePlayer(player)), entities) == [] ==>
        result.fields[1] == ("error", Str("No Music Assistant player found"))
      ensures Target(old(ResolvePlayer(player)), entities) != [] && PlaybackService(action, volumeLevel).None? ==>
        result.fields[1] == ("error", Str("Unknown action: " + action))
      ensures call.Some? && serviceError.Some? ==>
        result.fields[1] == ("error", Str("Failed to control playback: " + serviceError.value))
      ensures call.Some? && serviceError.None? ==>
        result.fields[1] == ("message", Str("Executed " + action + " on " + PlayerName(entities, call.value.entityId)))
    {
      var target := ResolvePlayer(player);
      if !Given(target) {
        target := GetFirstActivePlayer(entities);
      }
      if !Given(target) {
        return Obj([("success", Bool(false)), ("error", Str("No Music Assistant player found"))]), None;
      }
      var service := PlaybackService(action, volumeLevel);
      if service.None? {
        return Obj([("success", Bool(false)), ("error", Str("Unknown action: " + action))]), None;
      }
      call := Some(ServiceCall("media_player", service.value, target.value));
      if serviceError.Some? {
        result := Obj([("success", Bool(false)), ("error", Str("Failed to control playback: " + serviceError.value))]);
      } else {
        var playerName := PlayerName(entities, target.value);
        result := Obj([("success", Bool(true)), ("message", Str("Executed " + action + " on " + playerName))]);
      }
    }
  }

  /** After a fresh handler loaded the players, a room reference resolves
      only to an explicit entity id or to one of those players. */
  lemma ResolvesToPlayer(h: MusicAssistantHandler, playerRef: Option<string>, entities: seq<MediaEntity>)
    requires h.playerCache == Cached([], entities)
    ensures h.ResolvePlayer(playerRef).Some? ==>
      h.ResolvePlayer(playerRef) == playerRef ||
      exists i :: 0 <= i < |entities| && IsMaPlayer(entities[i]) && Some(entities[i].entityId) == h.ResolvePlayer(playerRef)
  {
    CachedValues([], entities);
  }

  /** The `result_players` loop of `get_now_playing`. */
  method BuildInfos(players: seq<Player>) returns (resultPlayers: seq<Json>)
    ensures resultPlayers == Infos(players)
  {
    resultPlayers := [];
    var i := 0;
    while i < |players|
      invariant 0 <= i <= |players|
      invariant resultPlayers == Infos(players[..i])
    {
      assert players[..i + 1][..i] == players[..i];
      resultPlayers := resultPlayers + [PlayerInfo(players[i])];
      i := i + 1;
    }
    assert players[..i] == players;
  }

  /** The entity `control_playback` acts on: the resolved reference, else
      the first active player after loading; `""` when there is none. */
  function Target(resolved: Option<string>, entities: seq<MediaEntity>): string {
    if Given(resolved) then resolved.value
    else
      var first := FirstActive(Players(entities));
      if Given(first) then first.value else ""
  }

  /** The entries built by the `result_players` loop. */
  function Infos(players: seq<Player>): (r: seq<Json>)
    ensures |r| == |players|
    ensures forall i :: 0 <= i < |players| ==> r[i] == PlayerInfo(players[i])
    decreases |players|
  {
    if players == [] then [] else Infos(players[..|players| - 1]) + [PlayerInfo(players[|players| - 1])]
  }

  /** The answer of `get_now_playing`, given the loaded players and the
      resolved reference. */
  function NowPlaying(player: Option<string>, players: seq<Player>, resolved: Option<string>): Json {
    var shown :=
      if Given(player) then WithEntity(players, resolved)
      else if PlayingOnly(players) != [] then PlayingOnly(players)
      else players;
    if shown == [] then NothingPlaying
    else Obj([("success", Bool(true)), ("players", Arr(Infos(shown)))])
  }

  /** Without a player, `get_now_playing` reports only the playing players
      when some are playing, and everyone otherwise; with a player it
      reports only the resolved one. It always succeeds. */
  lemma NowPlayingShape(player: Option<string>, players: seq<Player>, resolved: Option<string>)
    ensures var r := NowPlaying(player, players, resolved);
      r.Obj? && r.fields[0] == ("success", Bool(true))
    ensures var r := NowPlaying(player, players, resolved);
      r == NothingPlaying <==>
        (if Given(player) then WithEntity(players, resolved) == [] else players == [])
    ensures !Given(player) && (exists p :: p in players && p.state == "playing") ==>
      NowPlaying(player, players, resolved) == Obj([("success", Bool(true)), ("players", Arr(Infos(PlayingOnly(players))))])
    ensures Given(player) ==> forall p :: p in WithEntity(players, resolved) ==> Some(p.entityId) == resolved
  {
    if !Given(player) && players != [] && PlayingOnly(players) == [] {
      assert players[0] in players;
    }
    if !Given(player) && (exists p :: p in players && p.state == "playing") {
      var p :| p in players && p.state == "playing";
      assert p in PlayingOnly(players);
    }
  }
}
