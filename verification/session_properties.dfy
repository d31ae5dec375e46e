/** Properties of the session state machine over whole runs: the invariant
    every reachable state keeps, the guards on timers and recognition
    requests, and an end-to-end batch. */
module SessionProperties {
  import opened Wrappers
  import opened Pcm
  import opened ShazamClient
  import opened Session
  import opened Dashboard

  /** What holds of every state reachable from the initial one. */
  ghost predicate Valid(s: State) {
    && s.chunkCount == |s.audioChunks|
    && s.totalAudioBytes == SumLengths(s.audioChunks)
    && (s.timerActive <==> |s.audioChunks| > 0)
    && (|s.audioChunks| > 0 ==> s.isListening)
    && (s.isProcessing ==> |s.audioChunks| > 0 && SumLengths(s.audioChunks) % 2 == 0)
    && |s.songHistory| <= MaxHistory
    && (s.lastSong.Some? <==> |s.songHistory| > 0)
    && (s.lastSong.Some? ==> s.songHistory[0] == s.lastSong.value)
  }

  lemma InitialValid()
    ensures Valid(Initial)
  {
  }

  /** Every event keeps the invariant. */
  lemma StepPreservesValid(s: State, e: Event)
    requires Valid(s)
    ensures Valid(Step(s, e).next)
  {
  }

  /** Every run from a valid state ends in a valid state. */
  lemma {:induction false} RunPreservesValid(s: State, events: seq<Event>)
    requires Valid(s)
    ensures Valid(Run(s, events).next)
    decreases |events|
  {
    if |events| > 0 {
      RunPreservesValid(s, events[..|events| - 1]);
      StepPreservesValid(Run(s, events[..|events| - 1]).next, events[|events| - 1]);
    }
  }

  /** In a reachable state an armed timer always finds buffered audio: the
      empty-buffer branch of timer expiry is never taken. */
  lemma {:induction false} ExpiryFindsAudio(events: seq<Event>)
    ensures var s := Run(Initial, events).next;
      s.timerActive ==> |s.audioChunks| > 0
  {
    RunPreservesValid(Initial, events);
  }

  /** The total byte counter always equals the bytes actually buffered. */
  lemma {:induction false} TotalBytesMatchBuffer(events: seq<Event>)
    ensures var s := Run(Initial, events).next;
      s.totalAudioBytes == |Flatten(s.audioChunks)| && s.chunkCount == |s.audioChunks|
  {
    RunPreservesValid(Initial, events);
    FlattenLength(Run(Initial, events).next.audioChunks);
  }

  /** A timer is armed only when none is running, and it stays armed. */
  lemma StepArmsOnlyIdleTimer(s: State, e: Event)
    requires ArmTimer in Step(s, e).commands
    ensures !s.timerActive && Step(s, e).next.timerActive
    ensures e.AudioChunk? && Accepts(s)
  {
  }

  /** A recognition request is issued only when none is in flight, and one is
      in flight afterwards. */
  lemma StepRecognizesOnlyWhenIdle(s: State, e: Event, samples: seq<int>)
    requires Recognize(samples) in Step(s, e).commands
    ensures !s.isProcessing && Step(s, e).next.isProcessing
    ensures e.TimerExpired? && |s.audioChunks| > 0
  {
  }

  /** The history stays within its bound, newest first, over any run. */
  lemma {:induction false} HistoryBounded(events: seq<Event>)
    ensures var s := Run(Initial, events).next;
      |s.songHistory| <= MaxHistory &&
      (s.lastSong.Some? ==> |s.songHistory| > 0 && s.songHistory[0] == s.lastSong.value)
  {
    RunPreservesValid(Initial, events);
  }

  /** A run extended by one event is that event's step from the run's end. */
  lemma RunSnoc(s: State, events: seq<Event>, e: Event)
    ensures Run(s, events + [e]).next == Step(Run(s, events).next, e).next
    ensures Run(s, events + [e]).commands == Run(s, events).commands + Step(Run(s, events).next, e).commands
  {
  }

  /** Starting to listen and receiving three chunks buffers them in order and
      arms one timer. */
  lemma BufferThree(c1: seq<Byte>, c2: seq<Byte>, c3: seq<Byte>)
    ensures Run(Initial, [StartListening, AudioChunk(c1), AudioChunk(c2), AudioChunk(c3)]) ==
      Transition(State(true, false, [c1, c2, c3], 3, |c1| + |c2| + |c3|, true, None, []), [ArmTimer])
  {
    var s1 := State(true, false, [], 0, 0, false, None, []);
    var s2 := State(true, false, [c1], 1, |c1|, true, None, []);
    var s3 := State(true, false, [c1, c2], 2, |c1| + |c2|, true, None, []);
    var s4 := State(true, false, [c1, c2, c3], 3, |c1| + |c2| + |c3|, true, None, []);
    RunSnoc(Initial, [], StartListening);
    assert Run(Initial, [StartListening]) == Transition(s1, []);
    assert [] + [c1] == [c1];
    RunSnoc(Initial, [StartListening], AudioChunk(c1));
    assert Run(Initial, [StartListening, AudioChunk(c1)]) == Transition(s2, [ArmTimer]);
    RunSnoc(Initial, [StartListening, AudioChunk(c1)], AudioChunk(c2));
    assert [StartListening, AudioChunk(c1)] + [AudioChunk(c2)] ==
      [StartListening, AudioChunk(c1), AudioChunk(c2)];
    assert Run(Initial, [StartListening, AudioChunk(c1), AudioChunk(c2)]) == Transition(s3, [ArmTimer]);
    RunSnoc(Initial, [StartListening, AudioChunk(c1), AudioChunk(c2)], AudioChunk(c3));
    assert [StartListening, AudioChunk(c1), AudioChunk(c2)] + [AudioChunk(c3)] ==
      [StartListening, AudioChunk(c1), AudioChunk(c2), AudioChunk(c3)];
  }

  /** Timer expiry on the three buffered chunks submits their decoded bytes. */
  lemma SubmitThree(c1: seq<Byte>, c2: seq<Byte>, c3: seq<Byte>)
    requires (|c1| + |c2| + |c3|) % 2 == 0
    ensures var s4 := State(true, false, [c1, c2, c3], 3, |c1| + |c2| + |c3|, true, None, []);
      && DecodeInt16(c1 + c2 + c3).Success?
      && Step(s4, TimerExpired) ==
         Transition(s4.(isProcessing := true), [Recognize(DecodeInt16(c1 + c2 + c3).value)])
  {
    var chunks := [c1, c2, c3];
    FlattenAppend([], c1);
    FlattenAppend([c1], c2);
    FlattenAppend([c1, c2], c3);
    assert [] + [c1] == [c1] && [c1] + [c2] == [c1, c2] && [c1, c2] + [c3] == chunks;
    assert Flatten(chunks) == c1 + c2 + c3;
  }

  /** The first match of a session becomes its only history entry. */
  lemma SettleFirstMatch(s: State, song: SongInfo, now: nat)
    requires s.isProcessing && s.lastSong == None && s.songHistory == []
    ensures Step(s, RecognitionSettled(Match(song), now)).next ==
      State(s.isListening, false, [], 0, 0, false, Some(song), [song])
    ensures Step(s, RecognitionSettled(Match(song), now)).commands == []
  {
  }

  /** Three chunks of 100, 200 and 50 bytes, the timer, and a match: the song
      is shown and is the only history entry, the 175 samples of the batch
      were submitted, and the session is ready for the next batch. */
  lemma EndToEndBatch(c1: seq<Byte>, c2: seq<Byte>, c3: seq<Byte>, song: SongInfo, now: nat)
    requires |c1| == 100 && |c2| == 200 && |c3| == 50
    ensures var r := Run(Initial, [StartListening, AudioChunk(c1), AudioChunk(c2), AudioChunk(c3),
                                   TimerExpired, RecognitionSettled(Match(song), now)]);
      && r.next.lastSong == Some(song)
      && r.next.songHistory == [song]
      && Settled(r.next) && r.next.isListening
      && |r.commands| == 2 && r.commands[0] == ArmTimer
      && r.commands[1].Recognize? && |r.commands[1].samples| == 175
      && DecodeInt16(c1 + c2 + c3) == Success(r.commands[1].samples)
      && MainText(r.next)[..|NowPlaying| + 1] == NowPlaying + "\n"
  {
    var buffering := [StartListening, AudioChunk(c1), AudioChunk(c2), AudioChunk(c3)];
    var settle := RecognitionSettled(Match(song), now);
    var s4 := State(true, false, [c1, c2, c3], 3, 350, true, None, []);
    var s5 := s4.(isProcessing := true);
    var s6 := State(true, false, [], 0, 0, false, Some(song), [song]);
    BufferThree(c1, c2, c3);
    SubmitThree(c1, c2, c3);
    var samples := DecodeInt16(c1 + c2 + c3).value;
    SettleFirstMatch(s5, song, now);
    var expired := buffering + [TimerExpired];
    var full := expired + [settle];
    RunSnoc(Initial, buffering, TimerExpired);
    assert Run(Initial, expired) == Transition(s5, [ArmTimer] + [Recognize(samples)]);
    RunSnoc(Initial, expired, settle);
    assert Run(Initial, full).next == s6;
    assert Run(Initial, full).commands == [ArmTimer, Recognize(samples)];
    assert full == [StartListening, AudioChunk(c1), AudioChunk(c2), AudioChunk(c3), TimerExpired, settle];
    assert MainText(s6)[..|NowPlaying| + 1] == NowPlaying + "\n";
  }
}
