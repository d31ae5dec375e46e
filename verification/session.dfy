/** The recognition state machine of the app server (`ShazamMentraOSApp`): listening
    and processing flags, the buffered audio chunks with their counters, the
    batch timer, the last identified song and the song history.

    Each callback is one atomic transition from a state to the next state and
    the commands it issues to the outside world (arming the batch timer,
    submitting samples to the recognizer). `processAudioChunks` is split at the
    `await` of the recognition call: timer expiry runs up to the recognition
    request, and the settlement of that request runs the rest. Its second
    `await`, on `handleSongIdentified`, lets no other callback in, because
    that function never suspends. */
module Session {
  import opened Wrappers
  import opened Pcm
  import opened ShazamClient

  /** Delay of the batch timer, in milliseconds. Timer expiry is an event of
      the model, so the value is documentation only. */
  const BatchIntervalMs := 10000
  /** Window within which an identical (title, artist) match is a duplicate. */
  const DuplicateWindowMs := 60000
  /** Bound of the song history. */
  const MaxHistory := 10

  datatype State = State(
    isListening: bool,
    isProcessing: bool,
    audioChunks: seq<seq<Byte>>,
    chunkCount: nat,
    totalAudioBytes: nat,
    /** `audioChunkTimer !== null` */
    timerActive: bool,
    lastSong: Option<SongInfo>,
    songHistory: seq<SongInfo>)

  const Initial := State(false, false, [], 0, 0, false, None, [])

  /** How the awaited identification of a batch settled. */
  datatype Recognition = Match(song: SongInfo) | NoMatch | Failed

  datatype Event =
    | StartListening
    | AudioChunk(data: seq<Byte>)
    | TimerExpired
    | RecognitionSettled(outcome: Recognition, now: nat)

  datatype Command = ArmTimer | Recognize(samples: seq<int>)

  datatype Transition = Transition(next: State, commands: seq<Command>)

  /** `identifySong` over the client: a song is a match, `null` is no match.
      The client catches every exception, so it never reports a failure. */
  function Identify(outcome: FullRecognition, now: nat): (r: Recognition)
    ensures r != Failed
    ensures r == NoMatch <==> RecognizeSong(outcome, now).None?
    ensures r.Match? ==> Some(r.song) == RecognizeSong(outcome, now)
  {
    match RecognizeSong(outcome, now)
    case Some(song) => Match(song)
    case None => NoMatch
  }

  /** Start listening; a second call changes nothing. */
  function StartListening(s: State): (r: State)
    ensures r.isListening
    ensures s.isListening ==> r == s
    ensures r.(isListening := s.isListening) == s
  {
    if s.isListening then s else s.(isListening := true)
  }

  /** Chunks are buffered only while listening and not processing a batch. */
  predicate Accepts(s: State) {
    s.isListening && !s.isProcessing
  }

  /** A chunk arrives: dropped, or appended with the counters advanced and the
      batch timer armed if none is running. */
  function HandleAudioChunk(s: State, data: seq<Byte>): (r: Transition)
    ensures !Accepts(s) ==> r == Transition(s, [])
    ensures Accepts(s) ==>
      && r.next.audioChunks == s.audioChunks + [data]
      && r.next.chunkCount == s.chunkCount + 1
      && r.next.totalAudioBytes == s.totalAudioBytes + |data|
      && r.next.timerActive
      && r.next.(audioChunks := s.audioChunks, chunkCount := s.chunkCount,
                 totalAudioBytes := s.totalAudioBytes, timerActive := s.timerActive) == s
    ensures ArmTimer in r.commands <==> Accepts(s) && !s.timerActive
    ensures forall c | c in r.commands :: c == ArmTimer
  {
    if !Accepts(s) then Transition(s, [])
    else
      var next := s.(audioChunks := s.audioChunks + [data],
                     chunkCount := s.chunkCount + 1,
                     totalAudioBytes := s.totalAudioBytes + |data|,
                     timerActive := true);
      if s.timerActive then Transition(next, []) else Transition(next, [ArmTimer])
  }

  /** After a batch attempt: nothing buffered, counters zero, no timer, not
      processing. */
  predicate Settled(s: State) {
    s.audioChunks == [] && s.chunkCount == 0 && s.totalAudioBytes == 0 &&
    !s.timerActive && !s.isProcessing
  }

  /** The `finally` block of `processAudioChunks`. */
  function Reset(s: State): (r: State)
    ensures Settled(r)
    ensures r.isListening == s.isListening
    ensures r.lastSong == s.lastSong && r.songHistory == s.songHistory
  {
    s.(audioChunks := [], timerActive := false, isProcessing := false,
       chunkCount := 0, totalAudioBytes := 0)
  }

  /** Timer expiry, up to the recognition request: with nothing buffered the
      timer is cleared and nothing else happens; an odd-length batch makes the
      `Int16Array` view throw, which is caught and settles the batch at once;
      otherwise the decoded samples of the whole batch are submitted and
      processing begins. */
  function ProcessAudioChunks(s: State): (r: Transition)
    ensures |s.audioChunks| == 0 ==> r == Transition(s.(timerActive := false), [])
    ensures |s.audioChunks| > 0 && SumLengths(s.audioChunks) % 2 == 1 ==>
      && r.commands == []
      && r.next == Reset(s)
    ensures |s.audioChunks| > 0 && SumLengths(s.audioChunks) % 2 == 0 ==>
      && r.next == s.(isProcessing := true)
      && |r.commands| == 1 && r.commands[0].Recognize?
      && |r.commands[0].samples| == SumLengths(s.audioChunks) / 2
      && InInt16Range(r.commands[0].samples)
      && EncodeInt16(r.commands[0].samples) == Flatten(s.audioChunks)
  {
    if |s.audioChunks| == 0 then Transition(s.(timerActive := false), [])
    else
      var combined := Flatten(s.audioChunks);
      FlattenLength(s.audioChunks);
      match DecodeInt16(combined)
      case Failure(_) => Transition(Reset(s), [])
      case Success(samples) =>
        EncodeDecode(combined);
        Transition(s.(isProcessing := true), [Recognize(samples)])
  }

  /** The same song (exact title and artist) identified less than a minute
      after the last one. */
  function IsDuplicate(last: Option<SongInfo>, song: SongInfo, now: nat): (dup: bool)
    ensures dup ==> last.Some? && last.value.title == song.title && last.value.artist == song.artist
    ensures last.Some? && last.value.title == song.title && last.value.artist == song.artist ==>
      (dup <==> now < last.value.timestamp + DuplicateWindowMs)
  {
    last.Some? && last.value.title == song.title && last.value.artist == song.artist &&
    now - last.value.timestamp < DuplicateWindowMs
  }

  /** `unshift` the song, then `pop` once if the history grew past the bound. */
  function PushHistory(h: seq<SongInfo>, song: SongInfo): (r: seq<SongInfo>)
    ensures |r| > 0 && r[0] == song
    ensures |h| < MaxHistory ==> r[1..] == h
    ensures |h| >= MaxHistory ==> r[1..] == h[..|h| - 1]
    ensures |h| <= MaxHistory ==> |r| <= MaxHistory
  {
    var pushed := [song] + h;
    if |pushed| > MaxHistory then pushed[..|pushed| - 1] else pushed
  }

  /** A new match: ignored as a duplicate, otherwise it becomes the last song
      and the head of the history. */
  function HandleSongIdentified(s: State, song: SongInfo, now: nat): (r: State)
    ensures IsDuplicate(s.lastSong, song, now) ==> r == s
    ensures !IsDuplicate(s.lastSong, song, now) ==>
      && r.lastSong == Some(song)
      && r.songHistory == PushHistory(s.songHistory, song)
      && r.(lastSong := s.lastSong, songHistory := s.songHistory) == s
  {
    if IsDuplicate(s.lastSong, song, now) then s
    else s.(lastSong := Some(song), songHistory := PushHistory(s.songHistory, song))
  }

  /** The recognition request settles; whatever the outcome the batch is reset. */
  function SettleBatch(s: State, outcome: Recognition, now: nat): (r: State)
    ensures Settled(r)
    ensures r.isListening == s.isListening
    ensures !outcome.Match? ==> r.lastSong == s.lastSong && r.songHistory == s.songHistory
    ensures outcome.Match? ==>
      var h := HandleSongIdentified(s, outcome.song, now);
      r.lastSong == h.lastSong && r.songHistory == h.songHistory
  {
    match outcome
    case Match(song) => Reset(HandleSongIdentified(s, song, now))
    case _ => Reset(s)
  }

  /** One callback. A timer expiry exists only while the timer is armed and
      has not yet fired (its handle stays set while the batch is processed),
      and a settlement only while a request is in flight. */
  function Step(s: State, e: Event): (r: Transition)
    ensures e.TimerExpired? && !(s.timerActive && !s.isProcessing) ==> r == Transition(s, [])
    ensures e.RecognitionSettled? && !s.isProcessing ==> r == Transition(s, [])
  {
    match e
    case StartListening => Transition(StartListening(s), [])
    case AudioChunk(data) => HandleAudioChunk(s, data)
    case TimerExpired =>
      if s.timerActive && !s.isProcessing then ProcessAudioChunks(s) else Transition(s, [])
    case RecognitionSettled(outcome, now) =>
      if s.isProcessing then Transition(SettleBatch(s, outcome, now), []) else Transition(s, [])
  }

  /** The state after a sequence of events, and every command issued, in
      order. */
  function Run(s: State, events: seq<Event>): (r: Transition)
    decreases |events|
  {
    if |events| == 0 then Transition(s, [])
    else
      var before := Run(s, events[..|events| - 1]);
      var last := Step(before.next, events[|events| - 1]);
      Transition(last.next, before.commands + last.commands)
  }
}
