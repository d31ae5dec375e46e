# Shazam Forever session core, modelled in Dafny

This project models the core of "Shazam Forever", a MentraOS smart-glasses app that identifies
music near the wearer. The model covers two parts:

- **The recognition state machine of the app server** (`ShazamMentraOSApp` in `src/index.ts`). Streamed
  microphone chunks are buffered while the app listens and is not processing. The first buffered
  chunk arms a 10-second batch timer. When the timer expires, the chunks are concatenated and read
  as 16-bit signed little-endian samples, and the samples go to the recognizer. Whatever the outcome,
  the batch is then cleared. A match updates the last song and a newest-first history of at most 10
  entries. The exception is a duplicate: the same title and artist as the last song, less than
  60 000 ms after it. The dashboard's main and expanded texts are functions of this state.
- **The mapping from recognition-service responses to song records.** `ShazamClient.recognizeSong`,
  `extractAlbum` and `extractSpotifyUri` are in `src/shazam-client.ts`. The unused alternative
  `ShazamAPI.parseShazamResponse` is in `src/shazam-api.ts`.

Modules, one per component:

- `Wrappers` (`wrappers.dfy`): `Option` and `Result`.
- `JsString` (`js_string.dfy`): the `x || fallback` idiom on optional strings. A missing value and
  `""` select the fallback.
- `ShazamTrack` (`shazam_track.dfy`): the response shape and the album and Spotify queries that
  both mappers share.
- `ShazamClient` (`shazam_client.dfy`) and `ShazamApi` (`shazam_api.dfy`): the two mappers.
- `Pcm` (`pcm.dfy`): chunk concatenation, plus `Int16Array` decoding with its inverse encoding.
- `Session` (`session.dfy`): the state record and one pure transition per callback.
  - Each transition returns the next state and the commands it issues. These are arming the batch
    timer and submitting samples for recognition.
  - `processAudioChunks` is split at the `await` of the recognition call (`src/index.ts:163`). Timer
    expiry runs up to the recognition request. The `await` at `src/index.ts:166` lets no other
    callback in, because `handleSongIdentified` never suspends. The settlement of that request (match, no match or failure) runs the rest, including
    the `finally` reset.
- `Dashboard` (`dashboard.dfy`): the texts written to the dashboard, plus a line splitter used to
  read them back.
- `SessionProperties` (`session_properties.dfy`): the invariant of reachable states and properties
  of whole runs.

Inputs from the outside world are parameters:

- the audio bytes of a chunk;
- timer expiry, as an event;
- the current time, as milliseconds;
- the recognizer's outcome;
- the locale-formatted time text.

## Behaviour worth noting

- **Odd-length batch.** A trailing odd byte is not dropped. `new Int16Array(buffer)` throws a
  RangeError on an odd byte length (`src/index.ts:195`). The catch at `src/index.ts:171` handles it,
  and the batch is reset exactly like "no match". No recognition is requested.
- **Album.** The album is never absent. Both mappers fall back to `"Unknown Album"`.
- **Listening flag.** Settling a batch does not change `isListening`. No code path ever clears it,
  so after `startListening` the paused text is unreachable.
- **Empty-buffer expiry is dead code.** The timer is armed only together with a buffered chunk. The
  buffer is emptied only in the `finally` block, which also clears the timer. So the expiry branch
  for an empty buffer (`src/index.ts:132-135`) cannot be reached. `SessionProperties.ExpiryFindsAudio`
  proves this. The branch is still modelled as written.
- **Duplicate window.** The window is strict: the difference must be below 60 000 ms. The
  difference is taken between the time of the duplicate check and the last song's `timestamp`.

## Model

| member | source | states |
|---|---|---|
| ShazamTrack.FirstDeepLink | src/shazam-client.ts:65-69 | The inner action loop yields the first action named `hub:spotify:searchdeeplink`. It yields nothing exactly when no action has that name. |
| ShazamClient.ExtractAlbum | src/shazam-client.ts:54-59 | The result is the caption of `sections[0].metapages[1]` when that path exists and the caption is non-empty, else `"Unknown Album"`. It is never empty. |
| ShazamClient.ScanFirst | src/shazam-client.ts:62-71 | The provider loop with its early return finds the deep-link action of the first SPOTIFY provider that has one. It finds nothing exactly when no provider offers one. |
| ShazamClient.ExtractSpotifyUri | src/shazam-client.ts:61-74 | The uri comes from the first SPOTIFY provider offering a deep link, taken from its first deep-link action. It is undefined when no provider offers one. |
| ShazamClient.RecognizeSong | src/shazam-client.ts:21-52 | A song is returned exactly when the call returned a result with a track. An exception or a missing track gives null. Title and artist fall back to the placeholders when empty. The album comes from `ExtractAlbum`, the cover art is passed through and the time is the current time. |
| ShazamApi.Genre | src/shazam-api.ts:157-165 | The genre is `localized.en` if non-empty, else `primary` if non-empty, else `"Unknown Genre"`. It is never empty, and it is either the placeholder or a genre the track itself names. |
| ShazamApi.Album | src/shazam-api.ts:167-171 | The album of this mapper equals the client's `ExtractAlbum` on every track. |
| ShazamApi.ScanLast | src/shazam-api.ts:174-186 | Because `break` leaves only the inner loop, the last SPOTIFY provider offering a deep link decides the uri. The initial value survives when no provider offers one. |
| ShazamApi.ParseSpotifyUri | src/shazam-api.ts:173-186 | The uri comes from the first deep-link action of the last offering provider. It is undefined when no provider offers one. |
| ShazamApi.ParseShazamResponse | src/shazam-api.ts:148-198 | Null exactly when the response has no track. Otherwise: title and artist get their fallbacks, the genre follows `Genre`, the album follows the client's rule, the cover-art and background urls are passed through unchanged, and the Spotify uri follows `ParseSpotifyUri`. |
| ShazamApi.MappersAgreeExceptSpotify | src/shazam-api.ts:148-198 | On every response, `parseShazamResponse` and the client's `recognizeSong` (`src/shazam-client.ts:32-46`) agree on whether there is a song. They also agree on its title, artist, album, cover art and time. Only the Spotify uri can differ. |
| ShazamApi.SpotifyUriAgreesOnSingleOffering | src/shazam-api.ts:175-186 | When exactly one provider offers a deep link, the two mappers give the same Spotify uri. |
| ShazamApi.SpotifyUriFirstVersusLast | src/shazam-api.ts:179-181 | With two SPOTIFY providers linking to `a` and then `b`, the client gives `a` and `parseShazamResponse` gives `b`. |
| JsString.Or | src/shazam-client.ts:36-37 | JavaScript logical-or with a fallback, applied to an optional string: the value when present and non-empty, otherwise the fallback. A non-empty fallback gives a non-empty result. |
| Pcm.FlattenLength | src/index.ts:145-146 | The combined buffer's length is the sum of the chunk lengths. |
| Pcm.FlattenPlacesChunk | src/index.ts:149-153 | Chunk `i` occupies the combined buffer from the sum of the earlier chunks' lengths onward, in order. |
| Pcm.CombineChunks | src/index.ts:144-153 | The copy loop allocates a buffer of the total length and writes each chunk at the running offset. The result is exactly the chunks laid end to end, each at its offset. |
| Pcm.Int16At | src/index.ts:195 | A byte pair read little-endian lies in [-32768, 32767] and is congruent to `lo + 256*hi` modulo 65536 (two's complement). |
| Pcm.DecodeInt16 | src/index.ts:193-204 | An odd byte length raises a RangeError. Otherwise there is one sample per byte pair, each being that pair read as int16. |
| Pcm.Int16PairRoundTrip | src/index.ts:195 | Reading a byte pair as a sample and writing that sample back gives the same two bytes. |
| Pcm.DecodeEncode | src/index.ts:195 | Decoding the little-endian bytes of in-range samples gives the samples back. |
| Pcm.EncodeDecode | src/index.ts:195 | An even-length buffer decodes to in-range samples whose encoding is the buffer again. |
| Pcm.DecodeExtremes | src/index.ts:195 | The bytes `00 80 FF 7F` decode to -32768 and 32767. |
| Session.Identify | src/index.ts:206-213 | Over the client, identification gives a match exactly when the client gives a song, and never reports a failure. |
| Session.StartListening | src/index.ts:90-101 | Listening is on afterwards. A second call changes nothing, and nothing but the flag changes. |
| Session.HandleAudioChunk | src/index.ts:105-129 | A chunk is dropped unless the app is listening and not processing. An accepted chunk is appended, the count rises by 1 and the byte total by its length, and nothing else changes. A timer is armed exactly when none was active. |
| Session.Reset | src/index.ts:173-180 | After a batch, the buffer is empty, both counters are 0, the timer is cleared and processing is off. The songs and the listening flag are kept. |
| Session.ProcessAudioChunks | src/index.ts:131-172 | On expiry with an empty buffer, only the timer is cleared. An odd-length batch is reset at once and requests nothing. An even-length batch starts processing and submits the samples whose encoding is the whole batch. |
| Session.PushHistory | src/index.ts:232-236 | The new song comes first and the earlier entries follow in order. Only the oldest entry is evicted, and only when the history was full. A history of at most 10 stays at most 10. |
| Session.IsDuplicate | src/index.ts:219-222 | A match is a duplicate only of a last song with the same title and artist. For such a song, it is a duplicate exactly when it arrives less than 60 000 ms after that song's timestamp. |
| Session.HandleSongIdentified | src/index.ts:215-242 | A duplicate (same title and artist, less than 60 000 ms later) changes nothing. Any other match becomes the last song and is pushed onto the history. |
| Session.SettleBatch | src/index.ts:163-183 | A match, no match or failure always ends settled. Only a match can change the last song and history, and only as `HandleSongIdentified` does. |
| Session.Step | src/index.ts:123-128 | A timer expiry while no armed and unfired timer exists changes nothing. A settlement with no request in flight changes nothing. |
| Dashboard.MainText | src/index.ts:72-85 | With a last song, the main text starts with the "Now Playing" line. Otherwise it is "Listening for music..." when listening and "⏸️ Paused" when not. |
| Dashboard.MainTextLines | src/index.ts:74 | For newline-free fields, the main text splits into exactly: "Now Playing", the title, "by " + artist, and "Album: " + the album or "Unknown". |
| Dashboard.ExpandedText | src/index.ts:80-86 | Without a last song, the expanded text is the fixed "Shazam Forever / No song currently playing" message. With one, it starts with the "Now Playing" line. |
| Dashboard.ExpandedTextLines | src/index.ts:80 | For a song whose title, artist, album and time text contain no newline, the expanded text splits into exactly eight lines: "Now Playing", the title, "by " and the artist, a blank line, "Album: " and the album or "Unknown", "Time: " and the time, a blank line, and the Spotify note or an empty line. |
| Dashboard.ExpandedTextLastLine | src/index.ts:80 | The expanded text's last line is the Spotify note exactly when the song has a non-empty Spotify uri, and is empty otherwise. |
| SessionProperties.InitialValid | src/index.ts:9-16 | The initial field values satisfy the session invariant. |
| SessionProperties.StepPreservesValid | src/index.ts:105-183 | Every callback keeps the invariant. The count equals the number of chunks, and the byte total equals the sum of their lengths. A timer is active iff audio is buffered. Buffered audio implies listening. Processing implies a non-empty even-length batch. The history holds at most 10 entries, headed by the last song. |
| SessionProperties.RunPreservesValid | src/index.ts:105-242 | Every run of callbacks from a valid state keeps the invariant. |
| SessionProperties.ExpiryFindsAudio | src/index.ts:132-135 | In every reachable state, an active timer means audio is buffered. |
| SessionProperties.TotalBytesMatchBuffer | src/index.ts:110-113 | In every reachable state, the byte total is the length of the combined buffer and the count is the number of chunks. |
| SessionProperties.StepArmsOnlyIdleTimer | src/index.ts:122-128 | A timer is armed only by an accepted chunk, only when no timer is active, and the timer is active afterwards. |
| SessionProperties.StepRecognizesOnlyWhenIdle | src/index.ts:137-163 | Recognition is requested only by a timer expiry with audio buffered and no batch in flight. A batch is then in flight. |
| SessionProperties.HistoryBounded | src/index.ts:233-236 | In every reachable state, the history holds at most 10 songs and is headed by the last song. |
| SessionProperties.RunSnoc | src/index.ts:47-49 | Callbacks are applied one at a time in arrival order. Each one starts from the state the previous one left, and its commands follow theirs. |
| SessionProperties.SubmitThree | src/index.ts:144-163 | Expiry on three buffered chunks of even total length submits the decoding of their concatenation and starts processing. |
| SessionProperties.SettleFirstMatch | src/index.ts:215-236 | The first match of a session becomes the last song and the only history entry, and the batch is reset. |
| SessionProperties.BufferThree | src/index.ts:105-129 | Listening and then three chunks buffers them in order with their counts and arms exactly one timer. |
| SessionProperties.EndToEndBatch | src/index.ts:105-242 | For chunks of 100, 200 and 50 bytes followed by expiry and a match: the song is shown and is the only history entry, one timer was armed, the 175 decoded samples were submitted, and the session is settled and still listening. |

## Left out

- MentraOS SDK I/O is outside the model: the session object, event subscriptions, the battery
  handler, the dashboard mode-change handler, `setupMainUI` (empty in the source) and the
  `writeToMain`/`writeToExpanded` calls. Only the strings that would be written are modelled.
- The periodic UI refresh every 10 chunks and the refreshes around processing are left out. They
  write the same dashboard text and change no state.
- Wall-clock timing of `setTimeout`: timer expiry is an explicit event, so the 10 000 ms delay is
  documentation only.
- Several sessions: one session per app instance is assumed. The state lives on the app server
  (`src/index.ts:9-18`), and a second `onSession` only replaces `currentSession`, so it would share
  the buffer, counters, timer, last song and history. The model starts from `Initial` once.
- Async interleaving: each callback is one atomic transition. A recognition request settles only
  while a batch is in flight.
- Floating-point sample scaling is omitted. This covers `view[i] / 32768.0` in `convertToPCM` and
  `Math.round(sample * 32767)` in `recognizeSong`. The submitted samples are the decoded integers.
- `Int16Array` uses the host's byte order. The model assumes a little-endian host (x86, ARM).
- The external `fullRecognizeSong` call is an input to `RecognizeSong`: a returned result, or an
  exception.
- `ShazamAPI.recognizeSong` is omitted: it returns random mock songs from `Math.random`.
- `sendRecognizeRequest` is omitted: it is an HTTP POST with random request identifiers.
- The startup checks of environment variables and the server start are omitted.
- `toLocaleTimeString` is locale-dependent, so the formatted time is a parameter of `ExpandedText`.
- Console logging is omitted.
- `chunkCount` and `totalAudioBytes` are JavaScript numbers. They are exact only up to 2^53; the
  model uses unbounded naturals.
- JSON arrays in a response are taken to hold objects, never `null` elements.
- Session.Step: its own contract covers only the two guards. Each callback's behaviour is stated
  by the contract of the function it dispatches to.
