/** The /confirm command: queue the requester's pending search result. */
module Bot {
  import opened Wrappers
  import opened Songs
  import opened Users
  import opened Player

  /** Everything the commands share: the requester directory and the coordinator. */
  datatype App = App(users: Directory, player: State)

  /** Looks the sender up; with a pending search result, queues that song and
      clears the result; without one, changes nothing but the lookup. */
  function ConfirmSong(app: App, id: UserId, name: string): (r: App)
    ensures id in r.users && r.users[id].searchResult.None?
    ensures r.users.Keys == app.users.Keys + {id}
    ensures forall k :: k in app.users && k != id ==> r.users[k] == app.users[k]
    ensures id in app.users ==> r.users[id] == app.users[id].(searchResult := None)
    ensures id !in app.users ==> r.users[id] == NewUser(id, name) && r.player == app.player
    ensures id !in app.users || app.users[id].searchResult.None? ==> r.player == app.player
    ensures id in app.users && app.users[id].searchResult.Some? ==>
      r.player == QueueSong(app.player, app.users[id].searchResult.value)
  {
    var lookup := GetUser(app.users, id, name);
    var u := lookup.user;
    match u.searchResult
    case None => App(lookup.users, app.player)
    case Some(song) => App(lookup.users[id := u.(searchResult := None)], QueueSong(app.player, song))
  }

  /** A confirmation while a song plays appends exactly the pending song to
      the queue and issues nothing to the backend. */
  lemma ConfirmWhilePlayingAppends(app: App, id: UserId, name: string, song: Song)
    requires id in app.users && app.users[id].searchResult == Some(song)
    requires app.player.nowPlaying.Some?
    ensures ConfirmSong(app, id, name).player.queue == app.player.queue + [song]
    ensures ConfirmSong(app, id, name).player.nowPlaying == app.player.nowPlaying
    ensures ConfirmSong(app, id, name).player.trace == app.player.trace
  {
  }

  /** A confirmation while idle, from a consistent state (so nothing is
      queued), starts the pending song at once. */
  lemma ConfirmWhileIdlePlays(app: App, id: UserId, name: string, song: Song)
    requires id in app.users && app.users[id].searchResult == Some(song)
    requires Consistent(app.player) && app.player.nowPlaying.None?
    ensures ConfirmSong(app, id, name).player.nowPlaying == Some(song)
    ensures ConfirmSong(app, id, name).player.queue == []
    ensures ConfirmSong(app, id, name).player.trace == app.player.trace + [Play(song.uri), ArmTimer(song.length)]
  {
  }

  /** A repeated /confirm without a fresh search queues nothing more (backend
      calls never fail in this model). */
  lemma ConfirmTwiceQueuesOnce(app: App, id: UserId, name: string)
    ensures ConfirmSong(ConfirmSong(app, id, name), id, name).player == ConfirmSong(app, id, name).player
  {
  }

  /** Confirmations keep the coordinator consistent and the directory well keyed. */
  lemma ConfirmKeepsInvariants(app: App, id: UserId, name: string)
    requires Consistent(app.player) && WellKeyed(app.users)
    ensures Consistent(ConfirmSong(app, id, name).player)
    ensures WellKeyed(ConfirmSong(app, id, name).users)
  {
    var lookup := GetUser(app.users, id, name);
    GetUserKeepsWellKeyed(app.users, id, name);
    if lookup.user.searchResult.Some? {
      StepKeepsConsistent(app.player, Enqueue(lookup.user.searchResult.value));
    }
  }
}
