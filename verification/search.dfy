/** The mapping from a track search response to a song entry. The search call
    itself belongs to the streaming service; only its response is modelled. */
module Search {
  import opened Wrappers
  import opened Songs

  /** The artist name used when a track lists no artists. */
  const UnknownArtist: string := "Unknown"

  datatype Artist = Artist(name: string)

  /** One track of a search response. */
  datatype Track = Track(uri: string, name: string, durationMs: nat, artists: seq<Artist>)

  /** The artist credited on a song built from `t`: its first artist, if any. */
  function LeadArtist(t: Track): (a: string)
    ensures |t.artists| > 0 ==> a == t.artists[0].name
    ensures |t.artists| == 0 ==> a == UnknownArtist
  {
    if |t.artists| == 0 then UnknownArtist else t.artists[0].name
  }

  /** The song a search response offers to `user`: nothing when the response
      has no tracks, otherwise the first track, credited to its lead artist. */
  function SongOf(user: UserId, items: seq<Track>): (r: Option<Song>)
    ensures r.None? <==> |items| == 0
    ensures r.Some? ==> r.value.uri == items[0].uri && r.value.title == items[0].name
    ensures r.Some? ==> r.value.length == items[0].durationMs && r.value.suggestedBy == user
    ensures r.Some? ==> r.value.artist == LeadArtist(items[0])
  {
    if |items| == 0 then None
    else
      var track := items[0];
      Some(Song(track.uri, LeadArtist(track), track.name, track.durationMs, user))
  }

  /** The search asks for one result: tracks after the first never matter. */
  lemma OnlyFirstTrackMatters(user: UserId, items: seq<Track>, more: seq<Track>)
    requires |items| > 0
    ensures SongOf(user, items + more) == SongOf(user, items[..1])
  {
  }

  /** Two responses offer the same song when their first tracks agree on uri,
      title, duration and lead artist; featured artists are dropped. */
  lemma OnlyLeadArtistMatters(user: UserId, t: Track, u: Track)
    requires t.uri == u.uri && t.name == u.name && t.durationMs == u.durationMs
    requires |t.artists| > 0 && |u.artists| > 0 && t.artists[0] == u.artists[0]
    ensures SongOf(user, [t]) == SongOf(user, [u])
  {
  }
}
