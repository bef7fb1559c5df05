/**
 * application/suggestions.py: the Spotify token kept in the web session, the
 * callback and sign-out that reset the session, the profile lookup, the track
 * search and the playlist creation. The session is an explicit map; the clock,
 * the OAuth refresh and code exchange, and every Spotify Web API call are
 * parameters.
 */
module Suggestions {
  import opened Wrappers
  import opened Seqs

  /** The token_info dict the OAuth helper returns. */
  datatype TokenInfo = TokenInfo(accessToken: string, refreshToken: string, expiresAt: int)

  /** The values the application stores in the session. */
  datatype SessionValue = TokenValue(info: TokenInfo) | UserValue(id: string)

  const TokenKey := "token_info"
  const UserKey := "user"

  /** Seconds before expiry at which get_token already refreshes. */
  const RefreshSkew := 60

  predicate IsExpired(t: TokenInfo, now: int) {
    t.expiresAt - now < RefreshSkew
  }

  /** The token in the session, if there is one. */
  function StoredToken(data: map<string, SessionValue>): Option<TokenInfo>
  {
    if TokenKey in data && data[TokenKey].TokenValue? then Some(data[TokenKey].info) else None
  }

  /** get_token's result: NoToken is the AttributeError raised when the session holds
      no token_info; otherwise the token and the token_valid flag. */
  datatype TokenOutcome = NoToken | Token(info: TokenInfo, valid: bool)

  /** get_token's result and the session it leaves, for session contents data. */
  function GetTokenOn(data: map<string, SessionValue>, now: int, refresh: string -> TokenInfo)
    : (TokenOutcome, map<string, SessionValue>)
  {
    match StoredToken(data)
    case None => (NoToken, data)
    case Some(t) =>
      if IsExpired(t, now) then
        var renewed := refresh(t.refreshToken);
        (Token(renewed, true), data[TokenKey := TokenValue(renewed)])
      else (Token(t, true), data)
  }

  /** A token with at least RefreshSkew seconds left is returned as stored and the
      session is left alone. */
  lemma FreshTokenUntouched(data: map<string, SessionValue>, now: int, refresh: string -> TokenInfo)
    requires StoredToken(data).Some? && StoredToken(data).value.expiresAt >= now + RefreshSkew
    ensures GetTokenOn(data, now, refresh) == (Token(StoredToken(data).value, true), data)
  {
  }

  /** An expiring token is replaced in the session by the refresh result, which is
      also what is returned; nothing else in the session changes. */
  lemma ExpiredTokenReplaced(data: map<string, SessionValue>, now: int, refresh: string -> TokenInfo)
    requires StoredToken(data).Some? && StoredToken(data).value.expiresAt < now + RefreshSkew
    ensures var (outcome, data') := GetTokenOn(data, now, refresh);
      && outcome == Token(refresh(StoredToken(data).value.refreshToken), true)
      && StoredToken(data') == Some(outcome.info)
      && data'.Keys == data.Keys
      && forall k :: k in data && k != TokenKey ==> data'[k] == data[k]
  {
  }

  /** token_valid is True whenever get_token returns. */
  lemma TokenAlwaysValid(data: map<string, SessionValue>, now: int, refresh: string -> TokenInfo)
    ensures GetTokenOn(data, now, refresh).0.Token? ==> GetTokenOn(data, now, refresh).0.valid
    ensures GetTokenOn(data, now, refresh).0.NoToken? <==> StoredToken(data).None?
  {
  }

  /** When the refresh hands out a token that is fresh at `now`, a second get_token at
      the same time refreshes nothing and returns the same token. */
  lemma GetTokenSettles(data: map<string, SessionValue>, now: int, refresh: string -> TokenInfo)
    requires StoredToken(data).Some?
    requires refresh(StoredToken(data).value.refreshToken).expiresAt >= now + RefreshSkew
    ensures var (first, data') := GetTokenOn(data, now, refresh);
      GetTokenOn(data', now, refresh) == (first, data')
  {
  }

  /** What the Spotify profile endpoint returns: the user id, the display name (None
      when null) and the image URLs. */
  datatype Profile = Profile(id: string, displayName: Option<string>, images: seq<string>)

  /** get_profile_data: the profile of the user whose access token the session holds.
      None is the AttributeError raised when the session holds no token. The session
      is not changed. */
  function GetProfileData(data: map<string, SessionValue>, currentUser: string -> Profile): (r: Option<Profile>)
    ensures r.None? <==> StoredToken(data).None?
    ensures r.Some? ==> r.value == currentUser(StoredToken(data).value.accessToken)
  {
    if TokenKey in data && data[TokenKey].TokenValue? then Some(currentUser(data[TokenKey].info.accessToken))
    else None
  }

  /** get_profile's result: NoToken and NoSecondImage are the AttributeError and the
      IndexError it raises. */
  datatype ProfileOutcome = ProfileNoToken | NoSecondImage | ImageUrl(url: string)

  /** One song suggested by the language model. */
  datatype Song = Song(title: string, artist: string)

  /** The arguments of sp.search. */
  datatype SearchRequest = SearchRequest(q: string, kind: string, limit: nat)

  /** An entry of spotify_search's result. */
  datatype FoundTrack = FoundTrack(title: string, artist: string, spotifyId: string)

  /** The search issued for a song: the query `track:<title> artist:<artist>`, one track. */
  function SearchFor(song: Song): (r: SearchRequest)
    ensures r.kind == "track" && r.limit == 1
    ensures |r.q| == 14 + |song.title| + |song.artist|
    ensures r.q[..6] == "track:" && r.q[6..6 + |song.title|] == song.title
    ensures r.q[6 + |song.title|..] == " artist:" + song.artist
  {
    SearchRequest("track:" + song.title + " artist:" + song.artist, "track", 1)
  }

  /** What one song contributes: the id of the first item, with the song's own title
      and artist, or nothing when the search finds no items. */
  function Lookup(song: Song, search: SearchRequest -> seq<string>): Option<FoundTrack>
  {
    var items := search(SearchFor(song));
    if items == [] then None else Some(FoundTrack(song.title, song.artist, items[0]))
  }

  function Resolved(songs: seq<Song>, search: SearchRequest -> seq<string>): seq<FoundTrack>
  {
    FilterMap(songs, s => Lookup(s, search))
  }

  /** spotify_search: one search per song, in order; the songs that find nothing are
      dropped. `search` is the items list of sp.search's reply (empty when the reply
      has no tracks or no items). */
  method SpotifySearch(songs: seq<Song>, search: SearchRequest -> seq<string>)
    returns (results: seq<FoundTrack>, requests: seq<SearchRequest>)
    ensures results == Resolved(songs, search)
    ensures |requests| == |songs| && forall i :: 0 <= i < |songs| ==> requests[i] == SearchFor(songs[i])
  {
    results, requests := [], [];
    for i := 0 to |songs|
      invariant results == Resolved(songs[..i], search)
      invariant |requests| == i && forall k :: 0 <= k < i ==> requests[k] == SearchFor(songs[k])
    {
      FilterMapSnoc(songs[..i], songs[i], s => Lookup(s, search));
      assert songs[..i + 1] == songs[..i] + [songs[i]];
      var song := songs[i];
      var request := SearchRequest("track:" + song.title + " artist:" + song.artist, "track", 1);
      requests := requests + [request];
      var items := search(request);
      if items != [] {
        results := results + [FoundTrack(song.title, song.artist, items[0])];
      }
    }
    assert songs[..|songs|] == songs;
  }

  /** Best effort: the result keeps the song order, has at most one entry per song,
      holds exactly the songs with a hit, and has as many entries as songs with a hit. */
  lemma ResolvedIsBestEffort(songs: seq<Song>, more: seq<Song>, search: SearchRequest -> seq<string>, t: FoundTrack)
    ensures Resolved(songs + more, search) == Resolved(songs, search) + Resolved(more, search)
    ensures t in Resolved(songs, search) <==>
      exists i :: 0 <= i < |songs| && Lookup(songs[i], search) == Some(t)
    ensures |Resolved(songs, search)| == |Filter(songs, s => search(SearchFor(s)) != [])|
  {
    FilterMapConcat(songs, more, s => Lookup(s, search));
    FilterMapMembership(songs, s => Lookup(s, search), t);
    FilterMapCountsHits(songs, search);
  }

  lemma {:induction false} FilterMapCountsHits(songs: seq<Song>, search: SearchRequest -> seq<string>)
    ensures |Resolved(songs, search)| == |Filter(songs, s => search(SearchFor(s)) != [])|
  {
    if songs != [] {
      FilterMapCountsHits(songs[..|songs| - 1], search);
    }
  }

  /** The entry for a song with a hit copies its title and artist and takes the first id. */
  lemma LookupCopiesSong(song: Song, search: SearchRequest -> seq<string>)
    ensures Lookup(song, search).Some? <==> search(SearchFor(song)) != []
    ensures Lookup(song, search).Some? ==>
      var t := Lookup(song, search).value;
      t.title == song.title && t.artist == song.artist && t.spotifyId == search(SearchFor(song))[0]
  {
  }

  datatype Book = Book(title: string, author: string)

  function PlaylistName(title: string): (r: string)
    ensures |r| == 10 + |title|
    ensures r[..10] == "cadence - " && r[10..] == title
  {
    "cadence - " + title
  }

  function PlaylistDescription(title: string, author: string): (r: string)
    ensures |r| == 38 + |title| + |author|
    ensures r[..34] == "CADENCE recommended playlist for: "
    ensures r[34..34 + |title|] == title && r[34 + |title|..] == " by " + author
  {
    "CADENCE recommended playlist for: " + title + " by " + author
  }

  function TrackUri(id: string): (r: string)
    ensures |r| == 14 + |id|
    ensures r[..14] == "spotify:track:" && r[14..] == id
  {
    "spotify:track:" + id
  }

  /** The URI list of create_playlist, one per found track, in order. */
  function TrackUris(tracks: seq<FoundTrack>): (r: seq<string>)
    ensures |r| == |tracks|
    ensures forall i :: 0 <= i < |tracks| ==> r[i] == "spotify:track:" + tracks[i].spotifyId
    ensures forall i :: 0 <= i < |tracks| ==> r[i][..14] == "spotify:track:" && r[i][14..] == tracks[i].spotifyId
  {
    seq(|tracks|, i requires 0 <= i < |tracks| => TrackUri(tracks[i].spotifyId))
  }

  /** The Spotify Web API calls create_playlist makes, in order. */
  datatype SpotifyCall =
    | CurrentUser
    | UserPlaylistCreate(user: string, name: string, public: bool, description: string)
    | Search(request: SearchRequest)
    | PlaylistAddItems(playlistId: string, items: seq<string>)

  /** create_playlist's result: NoToken is the AttributeError without a session token. */
  datatype PlaylistOutcome = PlaylistNoToken | Created(playlistId: string)

  function Searches(requests: seq<SearchRequest>): (r: seq<SpotifyCall>)
    ensures |r| == |requests| && forall i :: 0 <= i < |r| ==> r[i] == Search(requests[i])
  {
    seq(|requests|, i requires 0 <= i < |requests| => Search(requests[i]))
  }

  /** The web session. */
  class Session {
    var data: map<string, SessionValue>

    constructor ()
      ensures data == map[]
    {
      data := map[];
    }

    /** get_token, at time now (the integer seconds of time.time()). */
    method GetToken(now: int, refresh: string -> TokenInfo) returns (token: TokenOutcome)
      modifies this
      ensures (token, data) == GetTokenOn(old(data), now, refresh)
    {
      if TokenKey !in data || !data[TokenKey].TokenValue? {
        return NoToken;
      }
      var info := data[TokenKey].info;
      var expired := info.expiresAt - now < RefreshSkew;
      if expired {
        info := refresh(info.refreshToken);
        data := data[TokenKey := TokenValue(info)];
      }
      token := Token(info, true);
    }

    /** app_callback: the session is cleared before the code is exchanged, so a failed
        exchange (None) leaves it empty, and a successful one leaves only the token. */
    method AppCallback(code: Option<string>, exchange: Option<string> -> Option<TokenInfo>)
      returns (ok: bool)
      modifies this
      ensures ok <==> exchange(code).Some?
      ensures ok ==> data == map[TokenKey := TokenValue(exchange(code).value)]
      ensures !ok ==> data == map[]
    {
      data := map[];
      var info := exchange(code);
      if info.None? {
        return false;
      }
      data := data[TokenKey := TokenValue(info.value)];
      ok := true;
    }

    /** clear_session. */
    method ClearSession()
      modifies this
      ensures data == map[]
    {
      data := map[];
    }

    /** get_profile: stores the user id in the session, then returns the second image's
        URL. currentUser is sp.current_user() for the stored access token. */
    method GetProfile(currentUser: string -> Profile) returns (r: ProfileOutcome)
      modifies this
      ensures StoredToken(old(data)).None? ==> r == ProfileNoToken && data == old(data)
      ensures StoredToken(old(data)).Some? ==>
        var p := currentUser(StoredToken(old(data)).value.accessToken);
        && data == old(data)[UserKey := UserValue(p.id)]
        && r == (if |p.images| >= 2 then ImageUrl(p.images[1]) else NoSecondImage)
    {
      if TokenKey !in data || !data[TokenKey].TokenValue? {
        return ProfileNoToken;
      }
      var p := currentUser(data[TokenKey].info.accessToken);
      data := data[UserKey := UserValue(p.id)];
      if |p.images| < 2 {
        return NoSecondImage;
      }
      r := ImageUrl(p.images[1]);
    }

    /** create_playlist up to the cover image: currentUser is sp.current_user() for the
        stored access token, whose id names the playlist's owner, and createdId the id of the playlist the API creates. A failing batch add is caught
        and only printed, so it changes neither the calls made nor the result. */
    method CreatePlaylist(book: Book, songs: seq<Song>, currentUser: string -> Profile, createdId: string,
                          search: SearchRequest -> seq<string>)
      returns (r: PlaylistOutcome, calls: seq<SpotifyCall>)
      ensures StoredToken(data).None? ==> r == PlaylistNoToken && calls == []
      ensures StoredToken(data).Some? ==> r == Created(createdId)
      ensures StoredToken(data).Some? ==>
        var uris := TrackUris(Resolved(songs, search));
        var userId := currentUser(StoredToken(data).value.accessToken).id;
        calls == [CurrentUser, UserPlaylistCreate(userId, PlaylistName(book.title), true, PlaylistDescription(book.title, book.author))]
          + Searches(seq(|songs|, i requires 0 <= i < |songs| => SearchFor(songs[i])))
          + (if uris == [] then [] else [PlaylistAddItems(createdId, uris)])
    {
      if TokenKey !in data || !data[TokenKey].TokenValue? {
        return PlaylistNoToken, [];
      }
      var userId := currentUser(data[TokenKey].info.accessToken).id;
      calls := [CurrentUser];
      calls := calls + [UserPlaylistCreate(userId, "cadence - " + book.title, true,
                          "CADENCE recommended playlist for: " + book.title + " by " + book.author)];
      var found, requests := SpotifySearch(songs, search);
      calls := calls + Searches(requests);
      assert requests == seq(|songs|, i requires 0 <= i < |songs| => SearchFor(songs[i]));
      var uris := seq(|found|, i requires 0 <= i < |found| => "spotify:track:" + found[i].spotifyId);
      assert uris == TrackUris(found);
      if uris != [] {
        calls := calls + [PlaylistAddItems(createdId, uris)];
      }
      r := Created(createdId);
    }
  }
}
