/** The playback queue coordinator: a FIFO of pending songs, a now-playing slot,
    and the effects sent to the playback backend and the one-shot timer. Each
    advance is one atomic step; a timer firing is an explicit event. */
module Player {
  import opened Wrappers
  import opened Songs

  /** An instruction issued by the coordinator: start playing a track, pause
      the backend, or arm a one-shot timer that fires after `length`. */
  datatype Effect = Play(uri: string) | Pause | ArmTimer(length: nat)

  /** The coordinator's state; `trace` lists every effect issued so far, oldest first. */
  datatype State = State(queue: seq<Song>, nowPlaying: Option<Song>, trace: seq<Effect>)

  /** Start-up: nothing queued, nothing playing, nothing issued. */
  const Initial: State := State([], None, [])

  /** The advance step, run at start-up of playback and whenever the timer
      fires: pause when nothing is queued, otherwise move the head of the
      queue into the slot, play it and arm the timer for its length. */
  function Advance(s: State): (t: State)
    ensures t.nowPlaying.Some? <==> |s.queue| > 0
    ensures t.nowPlaying.None? ==> t.queue == [] && t.trace == s.trace + [Pause]
    ensures t.nowPlaying.Some? ==> s.queue == [t.nowPlaying.value] + t.queue
    ensures t.nowPlaying.Some? ==>
      t.trace == s.trace + [Play(t.nowPlaying.value.uri), ArmTimer(t.nowPlaying.value.length)]
  {
    if |s.queue| == 0 then
      State([], None, s.trace + [Pause])
    else
      var next := s.queue[0];
      State(s.queue[1..], Some(next), s.trace + [Play(next.uri), ArmTimer(next.length)])
  }

  /** Appends `song` to the queue and advances only if nothing is playing. */
  function QueueSong(s: State, song: Song): (t: State)
    ensures t.nowPlaying.Some?
    ensures s.nowPlaying.Some? ==>
      t.queue == s.queue + [song] && t.nowPlaying == s.nowPlaying && t.trace == s.trace
    ensures s.nowPlaying.None? ==>
      && t.nowPlaying.value == (if |s.queue| == 0 then song else s.queue[0])
      && s.queue + [song] == [t.nowPlaying.value] + t.queue
      && t.trace == s.trace + [Play(t.nowPlaying.value.uri), ArmTimer(t.nowPlaying.value.length)]
  {
    var appended := s.(queue := s.queue + [song]);
    if s.nowPlaying.None? then Advance(appended) else appended
  }

  /** What drives the coordinator: a requester queueing a song, or the armed
      timer firing. */
  datatype Event = Enqueue(song: Song) | TimerFired

  function Step(s: State, e: Event): State {
    match e
    case Enqueue(song) => QueueSong(s, song)
    case TimerFired => Advance(s)
  }

  /** The state after handling `events` in order. */
  function Run(s: State, events: seq<Event>): State
    decreases |events|
  {
    if |events| == 0 then s else Run(Step(s, events[0]), events[1..])
  }

  /** The songs requesters submitted, in submission order. */
  function Enqueued(events: seq<Event>): seq<Song>
    decreases |events|
  {
    if |events| == 0 then []
    else (if events[0].Enqueue? then [events[0].song] else []) + Enqueued(events[1..])
  }

  /** The song that event `e` started, observed from outside: the slot's new
      value when the step issued a Play, and nothing otherwise. */
  function StartedBy(s: State, e: Event): seq<Song> {
    var t := Step(s, e);
    if |t.trace| > |s.trace| && t.trace[|s.trace|].Play? && t.nowPlaying.Some?
    then [t.nowPlaying.value] else []
  }

  /** The songs that became now-playing while handling `events`, in order. */
  function Started(s: State, events: seq<Event>): seq<Song>
    decreases |events|
  {
    if |events| == 0 then [] else StartedBy(s, events[0]) + Started(Step(s, events[0]), events[1..])
  }

  /** The tracks the backend was told to play, in order. */
  function PlayedUris(trace: seq<Effect>): seq<string>
    decreases |trace|
  {
    if |trace| == 0 then []
    else (if trace[0].Play? then [trace[0].uri] else []) + PlayedUris(trace[1..])
  }

  function Uris(songs: seq<Song>): seq<string>
    decreases |songs|
  {
    if |songs| == 0 then [] else [songs[0].uri] + Uris(songs[1..])
  }

  /** The slot agrees with what the backend was last told, and an idle
      coordinator holds no queued song. This holds when each request and each
      advance runs as one atomic step; interleaved threads can break it. */
  ghost predicate Consistent(s: State) {
    && (s.nowPlaying.None? ==> |s.queue| == 0 && (|s.trace| == 0 || s.trace[|s.trace| - 1] == Pause))
    && (s.nowPlaying.Some? ==>
          && |s.trace| >= 2
          && s.trace[|s.trace| - 2] == Play(s.nowPlaying.value.uri)
          && s.trace[|s.trace| - 1] == ArmTimer(s.nowPlaying.value.length))
  }

  /** `n` timer firings with no request in between. */
  function Fires(n: nat): (events: seq<Event>)
    ensures |events| == n
    ensures forall i :: 0 <= i < n ==> events[i] == TimerFired
  {
    if n == 0 then [] else [TimerFired] + Fires(n - 1)
  }

  // ---------------------------------------------------------------------------
  // One step

  /** Every step only appends to the trace: issued effects are never revised. */
  lemma StepExtendsTrace(s: State, e: Event)
    ensures s.trace <= Step(s, e).trace
  {
  }

  /** No silent drops: whatever a step removes from the queue (after adding the
      enqueued song) is exactly the song it started. */
  lemma StepConservesSongs(s: State, e: Event)
    ensures s.queue + (if e.Enqueue? then [e.song] else []) == StartedBy(s, e) + Step(s, e).queue
  {
    var t := Step(s, e);
    match e
    case TimerFired =>
      if |s.queue| == 0 {
        assert t.trace[|s.trace|] == Pause;
      } else {
        assert t.trace[|s.trace|] == Play(s.queue[0].uri);
      }
    case Enqueue(song) =>
      if s.nowPlaying.None? {
        assert t.trace[|s.trace|].Play?;
      } else {
        assert t.trace == s.trace;
      }
  }

  /** The Play effects a step issues are exactly the songs it started. */
  lemma StepPlays(s: State, e: Event)
    ensures PlayedUris(Step(s, e).trace) == PlayedUris(s.trace) + Uris(StartedBy(s, e))
  {
    var t := Step(s, e);
    if t.trace == s.trace {
    } else if t.nowPlaying.None? {
      assert t.trace == s.trace + [Pause];
      PlayedUrisAppend(s.trace, [Pause]);
      assert PlayedUris([Pause]) == [];
    } else {
      var x := t.nowPlaying.value;
      assert t.trace == s.trace + [Play(x.uri), ArmTimer(x.length)];
      PlayedUrisAppend(s.trace, [Play(x.uri), ArmTimer(x.length)]);
      assert PlayedUris([Play(x.uri), ArmTimer(x.length)]) == [x.uri] by {
        assert [Play(x.uri), ArmTimer(x.length)][1..] == [ArmTimer(x.length)];
        assert PlayedUris([ArmTimer(x.length)]) == [];
      }
      assert t.trace[|s.trace|] == Play(x.uri);
      assert StartedBy(s, e) == [x];
    }
  }

  lemma {:induction false} PlayedUrisAppend(a: seq<Effect>, b: seq<Effect>)
    ensures PlayedUris(a + b) == PlayedUris(a) + PlayedUris(b)
    decreases |a|
  {
    if |a| == 0 {
      assert a + b == b;
    } else {
      assert (a + b)[1..] == a[1..] + b;
      PlayedUrisAppend(a[1..], b);
    }
  }

  lemma {:induction false} UrisAppend(a: seq<Song>, b: seq<Song>)
    ensures Uris(a + b) == Uris(a) + Uris(b)
    decreases |a|
  {
    if |a| == 0 {
      assert a + b == b;
    } else {
      assert (a + b)[1..] == a[1..] + b;
      UrisAppend(a[1..], b);
    }
  }

  /** Every step leaves the coordinator consistent, when it started so; an
      advance does so from any state. */
  lemma StepKeepsConsistent(s: State, e: Event)
    requires Consistent(s) || e.TimerFired?
    ensures Consistent(Step(s, e))
  {
  }

  // ---------------------------------------------------------------------------
  // Runs of many steps

  /** FIFO: the songs started so far, followed by the songs still queued, are
      the songs queued at the start followed by every song enqueued since. */
  lemma {:induction false} RunConservesSongs(s: State, events: seq<Event>)
    ensures s.queue + Enqueued(events) == Started(s, events) + Run(s, events).queue
    decreases |events|
  {
    if |events| > 0 {
      var e := events[0];
      var t := Step(s, e);
      StepConservesSongs(s, e);
      RunConservesSongs(t, events[1..]);
      Regroup(s.queue, if e.Enqueue? then [e.song] else [], Enqueued(events[1..]),
              StartedBy(s, e), t.queue, Started(t, events[1..]), Run(t, events[1..]).queue);
    }
  }

  /** Splicing two equal concatenations that share a middle piece. */
  lemma Regroup<X>(a: seq<X>, b: seq<X>, r: seq<X>, s: seq<X>, t: seq<X>, u: seq<X>, q: seq<X>)
    requires a + b == s + t
    requires t + r == u + q
    ensures a + (b + r) == (s + u) + q
  {
    calc {
      a + (b + r);
      (a + b) + r;
      (s + t) + r;
      s + (t + r);
      s + (u + q);
      (s + u) + q;
    }
  }

  /** FIFO from start-up: the songs that became now-playing are a prefix of
      the songs in the order they were enqueued, and the queue holds the rest. */
  lemma PlaysInRequestOrder(events: seq<Event>)
    ensures Started(Initial, events) <= Enqueued(events)
    ensures Enqueued(events) == Started(Initial, events) + Run(Initial, events).queue
  {
    RunConservesSongs(Initial, events);
    assert Initial.queue + Enqueued(events) == Enqueued(events);
  }

  /** The backend is told to play exactly the started songs, in order. */
  lemma {:induction false} RunPlays(s: State, events: seq<Event>)
    ensures PlayedUris(Run(s, events).trace) == PlayedUris(s.trace) + Uris(Started(s, events))
    decreases |events|
  {
    if |events| > 0 {
      var e := events[0];
      StepPlays(s, e);
      RunPlays(Step(s, e), events[1..]);
      UrisAppend(StartedBy(s, e), Started(Step(s, e), events[1..]));
    }
  }

  /** Consistency holds after any run from a consistent state. */
  lemma {:induction false} RunKeepsConsistent(s: State, events: seq<Event>)
    requires Consistent(s)
    ensures Consistent(Run(s, events))
    decreases |events|
  {
    if |events| > 0 {
      StepKeepsConsistent(s, events[0]);
      RunKeepsConsistent(Step(s, events[0]), events[1..]);
    }
  }

  /** In any sequential schedule of atomic steps, from start-up, whenever
      nothing is playing nothing is queued either, and the backend was last
      told to pause (or told nothing). Concurrent threads can break this. */
  lemma IdleMeansDrained(events: seq<Event>)
    ensures Run(Initial, events).nowPlaying.None? ==> Run(Initial, events).queue == []
    ensures Run(Initial, events).nowPlaying.None? && |Run(Initial, events).trace| > 0 ==>
      Run(Initial, events).trace[|Run(Initial, events).trace| - 1] == Pause
  {
    RunKeepsConsistent(Initial, events);
  }

  /** Auto-advance: with no further requests, one timer firing per queued song
      plus one plays every queued song in order and then pauses. */
  lemma {:induction false} TimerDrainsQueue(s: State)
    ensures Started(s, Fires(|s.queue| + 1)) == s.queue
    ensures Run(s, Fires(|s.queue| + 1)).queue == []
    ensures Run(s, Fires(|s.queue| + 1)).nowPlaying.None?
    ensures PlayedUris(Run(s, Fires(|s.queue| + 1)).trace) == PlayedUris(s.trace) + Uris(s.queue)
    ensures |Run(s, Fires(|s.queue| + 1)).trace| > 0
    ensures Run(s, Fires(|s.queue| + 1)).trace[|Run(s, Fires(|s.queue| + 1)).trace| - 1] == Pause
    decreases |s.queue|
  {
    var events := Fires(|s.queue| + 1);
    var t := Step(s, TimerFired);
    assert events[0] == TimerFired;
    assert events[1..] == Fires(|s.queue|);
    if |s.queue| == 0 {
      assert events[1..] == [];
      assert Run(s, events) == t;
      assert t.trace[|s.trace|] == Pause;
      assert Started(s, events) == [];
    } else {
      assert |t.queue| + 1 == |s.queue|;
      TimerDrainsQueue(t);
      assert Run(s, events) == Run(t, Fires(|t.queue| + 1));
      assert t.trace[|s.trace|] == Play(s.queue[0].uri);
      assert StartedBy(s, TimerFired) == [s.queue[0]];
      assert s.queue == [s.queue[0]] + t.queue;
    }
    RunPlays(s, events);
  }

  /** The walk-through of a typical session: x queued while idle starts at
      once; y queued meanwhile waits; the first firing plays y with no pause in
      between; the second pauses and the coordinator is idle again. */
  lemma TwoRequestSession(x: Song, y: Song)
    ensures Run(Initial, [Enqueue(x)]) == State([], Some(x), [Play(x.uri), ArmTimer(x.length)])
    ensures Run(Initial, [Enqueue(x), Enqueue(y)]) == State([y], Some(x), [Play(x.uri), ArmTimer(x.length)])
    ensures Run(Initial, [Enqueue(x), Enqueue(y), TimerFired]) ==
      State([], Some(y), [Play(x.uri), ArmTimer(x.length), Play(y.uri), ArmTimer(y.length)])
    ensures Run(Initial, [Enqueue(x), Enqueue(y), TimerFired, TimerFired]) ==
      State([], None, [Play(x.uri), ArmTimer(x.length), Play(y.uri), ArmTimer(y.length), Pause])
  {
    RunOfFour(Initial, Enqueue(x), Enqueue(y), TimerFired, TimerFired);
  }

  /** Handling a literal list of events is handling them one at a time. */
  lemma RunOfFour(s: State, a: Event, b: Event, c: Event, d: Event)
    ensures Run(s, [a]) == Step(s, a)
    ensures Run(s, [a, b]) == Step(Step(s, a), b)
    ensures Run(s, [a, b, c]) == Step(Step(Step(s, a), b), c)
    ensures Run(s, [a, b, c, d]) == Step(Step(Step(Step(s, a), b), c), d)
  {
    var s1 := Step(s, a);
    var s2 := Step(s1, b);
    var s3 := Step(s2, c);
    assert [a][1..] == [] && [b][1..] == [] && [c][1..] == [] && [d][1..] == [];
    assert [a, b][1..] == [b];
    assert [b, c][1..] == [c];
    assert [c, d][1..] == [d];
    assert [a, b, c][1..] == [b, c];
    assert [b, c, d][1..] == [c, d];
    assert [a, b, c, d][1..] == [b, c, d];
    assert Run(s3, [d]) == Step(s3, d);
    assert Run(s2, [c, d]) == Run(s3, [d]);
    assert Run(s2, [c]) == Step(s2, c);
    assert Run(s1, [b, c, d]) == Run(s2, [c, d]);
    assert Run(s1, [b, c]) == Run(s2, [c]);
    assert Run(s1, [b]) == Step(s1, b);
  }
}
