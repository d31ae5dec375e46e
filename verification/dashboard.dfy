/** The text `updateDashboard` writes to the main and expanded dashboard
    views, as a function of the session state. */
module Dashboard {
  import opened Wrappers
  import opened JsString
  import opened ShazamClient
  import opened Session

  const NowPlaying := "Now Playing"
  const UnknownAlbumText := "Unknown"
  const ListeningText := "Listening for music..."
  const PausedText := "\U{23F8}\U{FE0F} Paused"
  const IdleExpandedText :=
    "\U{1F3B5} Shazam Forever\n\nNo song currently playing\n\nListening for music in your environment..."
  const SpotifyNote := "\U{1F3A7} Available on Spotify"

  /** The main view: the last song when there is one, else the listening
      status. */
  function MainText(s: State): (r: string)
    ensures s.lastSong.None? && s.isListening ==> r == ListeningText
    ensures s.lastSong.None? && !s.isListening ==> r == PausedText
    ensures s.lastSong.Some? ==> |r| > |NowPlaying| && r[..|NowPlaying| + 1] == NowPlaying + "\n"
  {
    match s.lastSong
    case Some(song) =>
      NowPlaying + "\n" + song.title + "\nby " + song.artist +
      "\nAlbum: " + Or(song.album, UnknownAlbumText)
    case None => if s.isListening then ListeningText else PausedText
  }

  /** The expanded view; `timeText` is the identification time as the
      locale formats it. */
  function ExpandedText(s: State, timeText: string): (r: string)
    ensures s.lastSong.None? ==> r == IdleExpandedText
    ensures s.lastSong.Some? ==> |r| > |NowPlaying| && r[..|NowPlaying| + 1] == NowPlaying + "\n"
  {
    match s.lastSong
    case Some(song) =>
      NowPlaying + "\n" + song.title + "\nby " + song.artist +
      "\n\nAlbum: " + Or(song.album, UnknownAlbumText) +
      "\nTime: " + timeText + "\n\n" + (if Truthy(song.spotifyUri) then SpotifyNote else "")
    case None => IdleExpandedText
  }

  /** The lines of a text, split at every newline. */
  function Lines(text: string): (r: seq<string>)
    ensures |r| > 0
  {
    if |text| == 0 then [""]
    else if text[0] == '\n' then [""] + Lines(text[1..])
    else
      var rest := Lines(text[1..]);
      [[text[0]] + rest[0]] + rest[1..]
  }

  predicate OneLine(text: string) {
    '\n' !in text
  }

  /** A text without newlines is a single line. */
  lemma {:induction false} LinesOfOneLine(a: string)
    requires OneLine(a)
    ensures Lines(a) == [a]
  {
    if |a| > 0 {
      LinesOfOneLine(a[1..]);
      assert [a[0]] + a[1..] == a;
    }
  }

  /** Splitting after a newline-free line peels that line off. */
  lemma {:induction false} LinesOfJoin(a: string, b: string)
    requires OneLine(a)
    ensures Lines(a + "\n" + b) == [a] + Lines(b)
  {
    if |a| == 0 {
      assert a + "\n" + b == "\n" + b;
      assert ("\n" + b)[1..] == b;
    } else {
      LinesOfJoin(a[1..], b);
      assert (a + "\n" + b)[1..] == a[1..] + "\n" + b;
      assert [a[0]] + a[1..] == a;
    }
  }

  /** The main view of a song with newline-free fields reads back as its four
      lines: header, title, artist and album. */
  lemma MainTextLines(s: State)
    requires s.lastSong.Some?
    requires OneLine(s.lastSong.value.title) && OneLine(s.lastSong.value.artist)
    requires OneLine(Or(s.lastSong.value.album, UnknownAlbumText))
    ensures Lines(MainText(s)) ==
      [NowPlaying, s.lastSong.value.title, "by " + s.lastSong.value.artist,
       "Album: " + Or(s.lastSong.value.album, UnknownAlbumText)]
  {
    var song := s.lastSong.value;
    var album := "Album: " + Or(song.album, UnknownAlbumText);
    var artistLine := "by " + song.artist;
    assert OneLine(artistLine) by { assert forall k | 0 <= k < |artistLine| :: artistLine[k] != '\n' by {
      forall k | 3 <= k < |artistLine| ensures artistLine[k] != '\n' { assert artistLine[k] == song.artist[k - 3]; } } }
    assert OneLine(album) by { assert forall k | 0 <= k < |album| :: album[k] != '\n' by {
      forall k | 7 <= k < |album| ensures album[k] != '\n' {
        assert album[k] == Or(song.album, UnknownAlbumText)[k - 7]; } } }
    assert MainText(s) == NowPlaying + "\n" + (song.title + "\n" + (artistLine + "\n" + album));
    LinesOfOneLine(album);
    LinesOfJoin(artistLine, album);
    LinesOfJoin(song.title, artistLine + "\n" + album);
    LinesOfJoin(NowPlaying, song.title + "\n" + (artistLine + "\n" + album));
  }

  /** The expanded view's last line is the Spotify note exactly when the song
      has a Spotify uri. */
  lemma ExpandedTextLastLine(s: State, timeText: string)
    requires s.lastSong.Some?
    ensures var text := ExpandedText(s, timeText);
      (Truthy(s.lastSong.value.spotifyUri) ==> Lines(text)[|Lines(text)| - 1] == SpotifyNote) &&
      (!Truthy(s.lastSong.value.spotifyUri) ==> Lines(text)[|Lines(text)| - 1] == "")
  {
    var song := s.lastSong.value;
    var note := if Truthy(song.spotifyUri) then SpotifyNote else "";
    var head := NowPlaying + "\n" + song.title + "\nby " + song.artist +
      "\n\nAlbum: " + Or(song.album, UnknownAlbumText) + "\nTime: " + timeText + "\n";
    assert ExpandedText(s, timeText) == head + "\n" + note;
    LinesOfLast(head, note);
  }

  /** Two newline-free texts join into a newline-free text. */
  lemma OneLineConcat(a: string, b: string)
    requires OneLine(a) && OneLine(b)
    ensures OneLine(a + b)
  {
    forall k | 0 <= k < |a + b| ensures (a + b)[k] != '\n' {
      if k < |a| { assert (a + b)[k] == a[k]; } else { assert (a + b)[k] == b[k - |a|]; }
    }
  }

  /** The expanded view of a song, regrouped as its lines joined from the
      right. */
  lemma ExpandedTextJoined(s: State, timeText: string)
    requires s.lastSong.Some?
    ensures var song := s.lastSong.value;
      var note := if Truthy(song.spotifyUri) then SpotifyNote else "";
      ExpandedText(s, timeText) ==
        NowPlaying + "\n" + (song.title + "\n" + (("by " + song.artist) + "\n" + ("" + "\n" +
        (("Album: " + Or(song.album, UnknownAlbumText)) + "\n" + (("Time: " + timeText) + "\n" +
        ("" + "\n" + note))))))
  {
  }

  /** Eight newline-free lines joined by newlines split back into those
      lines. */
  lemma LinesOfEight(l0: string, l1: string, l2: string, l3: string,
                     l4: string, l5: string, l6: string, l7: string)
    requires OneLine(l0) && OneLine(l1) && OneLine(l2) && OneLine(l3)
    requires OneLine(l4) && OneLine(l5) && OneLine(l6) && OneLine(l7)
    ensures Lines(l0 + "\n" + (l1 + "\n" + (l2 + "\n" + (l3 + "\n" + (l4 + "\n" +
      (l5 + "\n" + (l6 + "\n" + l7))))))) == [l0, l1, l2, l3, l4, l5, l6, l7]
  {
    LinesOfOneLine(l7);
    LinesOfJoin(l6, l7);
    LinesOfJoin(l5, l6 + "\n" + l7);
    LinesOfJoin(l4, l5 + "\n" + (l6 + "\n" + l7));
    LinesOfJoin(l3, l4 + "\n" + (l5 + "\n" + (l6 + "\n" + l7)));
    LinesOfJoin(l2, l3 + "\n" + (l4 + "\n" + (l5 + "\n" + (l6 + "\n" + l7))));
    LinesOfJoin(l1, l2 + "\n" + (l3 + "\n" + (l4 + "\n" + (l5 + "\n" + (l6 + "\n" + l7)))));
    LinesOfJoin(l0, l1 + "\n" + (l2 + "\n" + (l3 + "\n" + (l4 + "\n" + (l5 + "\n" + (l6 + "\n" + l7))))));
  }

  /** The expanded view of a song with newline-free fields and time text reads
      back as its eight lines: header, title, artist, a blank line, album,
      time, a blank line and the Spotify note (empty without a uri). */
  lemma ExpandedTextLines(s: State, timeText: string)
    requires s.lastSong.Some?
    requires OneLine(s.lastSong.value.title) && OneLine(s.lastSong.value.artist)
    requires OneLine(Or(s.lastSong.value.album, UnknownAlbumText)) && OneLine(timeText)
    ensures Lines(ExpandedText(s, timeText)) ==
      [NowPlaying, s.lastSong.value.title, "by " + s.lastSong.value.artist, "",
       "Album: " + Or(s.lastSong.value.album, UnknownAlbumText), "Time: " + timeText, "",
       if Truthy(s.lastSong.value.spotifyUri) then SpotifyNote else ""]
  {
    var song := s.lastSong.value;
    var note := if Truthy(song.spotifyUri) then SpotifyNote else "";
    OneLineConcat("by ", song.artist);
    OneLineConcat("Album: ", Or(song.album, UnknownAlbumText));
    OneLineConcat("Time: ", timeText);
    assert OneLine(note);
    ExpandedTextJoined(s, timeText);
    LinesOfEight(NowPlaying, song.title, "by " + song.artist, "",
      "Album: " + Or(song.album, UnknownAlbumText), "Time: " + timeText, "", note);
  }

  /** The last line of a text ending in a newline-free line is that line. */
  lemma {:induction false} LinesOfLast(a: string, b: string)
    requires OneLine(b)
    ensures |Lines(a + "\n" + b)| >= 2
    ensures Lines(a + "\n" + b)[|Lines(a + "\n" + b)| - 1] == b
    decreases |a|
  {
    if |a| == 0 {
      assert a + "\n" + b == "\n" + b;
      assert ("\n" + b)[1..] == b;
      LinesOfOneLine(b);
    } else {
      LinesOfLast(a[1..], b);
      assert (a + "\n" + b)[1..] == a[1..] + "\n" + b;
    }
  }
}
