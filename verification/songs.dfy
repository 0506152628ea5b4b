/** The two records of the bot: a requester and a song entry. */
module Songs {
  import opened Wrappers

  /** The chat identity of a requester (the sender's numeric id). */
  type UserId = int

  /** A playable request. `length` is the track duration in milliseconds, as the
      search service reports it; `suggestedBy` names the requester by id. */
  datatype Song = Song(uri: string, artist: string, title: string, length: nat, suggestedBy: UserId)

  /** A requester, with the song their last search found and that they have not
      yet confirmed. */
  datatype User = User(id: UserId, name: string, searchResult: Option<Song>)

  /** A requester seen for the first time: no pending search result. */
  function NewUser(id: UserId, name: string): (u: User)
    ensures u.id == id && u.name == name
    ensures u.searchResult.None?
  {
    User(id, name, None)
  }
}
