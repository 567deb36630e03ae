# WF4S Haulin' Radio — announcement engine, modelled in Dafny

This project models the announcement engine of a Discord radio bot whose
DJ persona, "Ava", speaks between tracks. It covers three parts:

- The DJ (`ava-dj.js`). It generates an announcement with a language model
  and falls back to a static phrase table when that call fails. It keeps a
  rolling history of its last five announcements. It turns text into
  speech through Azure, then Google, and deletes the audio files afterwards.
- The radio manager (`radio-manager.js`). A play counter gates a news
  segment every `newsFrequency` tracks. Each news, track or time
  announcement runs generate, synthesize, play, clean up. Auto-radio
  searches a fixed rotation of queries and fills a guild's queue.
- The event guards (`main.js`). They decide when a starting track is
  announced and gets a "Now playing" message, and when auto-radio starts or
  restarts.

Every external call is an input to the model:

- The language model's completion is `Some(text)`, or `None` when the call
  throws or returns no content.
- Each speech provider's attempt is `Produced(path)` or `Failed`.
- Whether deleting an audio file goes through is a flag; a refused deletion
  leaves the file on disk.
- `Math.random()` is a real in [0, 1).
- The clock is a `UtcInstant`.
- The music search is a function from query to outcome.
- Whether each queue operation succeeds is a flag.

The file system is a `Disk` object holding a set of paths. The DJ and the
manager are classes whose methods update their fields: the DJ's
`lastAnnouncements` and the manager's `songCount` and `scNews`. Each of
these methods is proved against specification functions (`Recorded`,
`Replay`, `Synthesis`, `NewsPick`, …), and the properties of those
functions are proved as lemmas.

Files:

- `js.dfy`: the JavaScript built-ins the engine relies on. These are
  `trim`, `substring`, string truthiness and `Math.floor(Math.random() * n)`.
- `iso_time.dfy`: `Date.prototype.toISOString`.
- `ava_dj.dfy`: the DJ.
- `radio_manager.dfy`: the radio manager.
- `events.dfy`: the event guards.

Three behaviours of the code are easy to misread, and the model follows the
code in each:

- Only a successful generation adds to the history. A fallback phrase never
  does.
- `songCount` goes up only when the track announcement was synthesized and
  played. When every speech provider fails, the error is caught inside
  `announceBeforeTrack` and the counter stays where it was. A consequence:
  while speech stays down, a counter that sits on a multiple of the cadence
  keeps news due before every track.
- The counter is read before it is incremented, and it starts at 0. With a
  cadence of 3, the first news segment therefore comes before the 4th
  track, not the 3rd.

## Model

| member | source | states |
|---|---|---|
| `Js.SkipLeading` | ava-dj.js:49 | the scan from the start passes only whitespace and stops at the end or at the first character that is not whitespace |
| `Js.SkipTrailing` | ava-dj.js:49 | the scan back from the end passes only whitespace and stops at the start bound or after the last character that is not whitespace |
| `Js.Trim` | ava-dj.js:49 | `content.trim()` is a contiguous part of the input with only whitespace removed on either side, and neither of its ends is whitespace |
| `Js.TrimUnique` | ava-dj.js:49 | any string that is the input with only surrounding whitespace removed and no whitespace at either end is `trim()`'s result, so that description determines it |
| `Js.TrimIdempotent` | ava-dj.js:49 | trimming an announcement twice gives the same text as trimming it once |
| `Js.Substring` | radio-manager.js:40 | `substring(start, end)` is the slice `s[start..end]` when both ends are in range; an end past the length is clamped to it (`s[start..]`, or empty when both are past it); reversed ends are swapped |
| `Js.RandomIndex` | ava-dj.js:83 | `Math.floor(Math.random() * n)` always lies in [0, n) |
| `IsoTime.Digits` | radio-manager.js:40 | a zero-padded field of `toISOString` has exactly its width, all decimal digits |
| `IsoTime.DigitsRoundTrip` | radio-manager.js:40 | reading a padded field back gives the number, so no field of the timestamp is lost |
| `IsoTime.IsoString` | radio-manager.js:40 | `toISOString()` is 24 characters with `T` at 10, `:` at 13 and 16, `.` at 19 and `Z` at 23 |
| `IsoTime.IsoClockSlice` | radio-manager.js:40 | characters 11 up to 19 of the ISO string are exactly the `HH:MM:SS` clock |
| `AvaDj.WindowOfWindow` | ava-dj.js:52-55 | trimming the history to its newest 5 entries before appending keeps the same newest 5 entries as appending to the whole sequence |
| `AvaDj.RecordedIsWindow` | ava-dj.js:49-62 | one generation on a history of at most 5 entries is the newest-5 window over the history plus the trimmed completion; a failed call adds nothing |
| `AvaDj.ReplayIsWindow` | ava-dj.js:49-62 | after any run of generations the history is the newest 5 of the old entries followed by the successful trimmed completions, in order (FIFO eviction) |
| `AvaDj.HistoryFromFresh` | ava-dj.js:12-13 | from a new DJ the history never exceeds 5 entries, holds only trimmed completions (no fallback phrase), and after more than 5 successes holds exactly the newest 5 |
| `AvaDj.FallbackTable` | ava-dj.js:66-82 | "news" gets the 2 news phrases, "time" the 2 time phrases, and every other context the 3 song phrases |
| `AvaDj.FallbackAnnouncement` | ava-dj.js:65-84 | the fallback is always an element of the context's phrase table |
| `AvaDj.SongFallbackNamesTrack` | ava-dj.js:67-71 | every song fallback, and so the fallback for any unknown context, contains the track's title |
| `AvaDj.FixedFallbacksIgnoreSubject` | ava-dj.js:72-79 | the news and time fallbacks do not depend on the subject passed in |
| `AvaDj.Announcement` | ava-dj.js:49-62 | `generateAnnouncement` returns the trimmed completion on success, and a phrase from the fallback table on failure |
| `AvaDj.Synthesis` | ava-dj.js:86-103 | Azure is called iff key and region are both set; Google is called, once, iff Azure was unconfigured or failed; success iff a called provider produced a file, and it is the serving provider's file; otherwise the error "All TTS services failed" |
| `AvaDj.AvaDJ.constructor` | ava-dj.js:8-14 | a new DJ starts with an empty history |
| `AvaDj.AvaDJ.GenerateAnnouncement` | ava-dj.js:16-63 | the push-then-shift update keeps the history within 5 entries and equals `Recorded`: on success the trimmed text is the newest entry; on failure the history is unchanged and the fallback is returned |
| `AvaDj.AvaDJ.SynthesizeSpeech` | ava-dj.js:86-103 | the step-by-step try/fallback yields exactly `Synthesis`, and only the serving provider's file is added to disk |
| `AvaDj.AvaDJ.CleanupAudioFile` | ava-dj.js:163-172 | when the deletion goes through the file is gone and nothing else changes; a refused deletion is caught and leaves the disk unchanged; an absent file leaves the disk unchanged (so a second call is a no-op); no error escapes |
| `Radio.NewsDue` | radio-manager.js:29-31 | `shouldAnnounceNews` is never true at counter 0 or with cadence 0, and when true the counter has reached at least the cadence's magnitude |
| `Radio.NoNewsAtStart` | radio-manager.js:29-31 | news is never due at `songCount == 0` |
| `Radio.NewsDueAtMultiples` | radio-manager.js:29-31 | with cadence f ≥ 1, news is due at every positive multiple of f |
| `Radio.NewsDueOnlyAtMultiples` | radio-manager.js:29-31 | with cadence f ≥ 1, news is due only at positive multiples of f |
| `Radio.DefaultCadence` | radio-manager.js:11 | with the default cadence of 3, counters 1 to 9 give news exactly at 3, 6 and 9 |
| `Radio.RandomNews` | radio-manager.js:33-36 | no item iff the store is empty; otherwise an element of the store |
| `Radio.NewsPick` | radio-manager.js:45-48 | the cycle announces news iff news is due and the store is not empty |
| `Radio.ZuluTime` | radio-manager.js:38-41 | `getZuluTime` is the `HH:MM:SS` clock of the instant followed by " Zulu", 13 characters |
| `Radio.NewsText` | radio-manager.js:72 | the news text starts "Star Citizen news update: ", the title and ". ", and ends with the description or nothing |
| `Radio.NewsSpeech` | radio-manager.js:74 | the spoken news is the announcement, a space, then the news text |
| `Radio.TimeSpeech` | radio-manager.js:89 | the spoken time text is the announcement, " The time is ", the Zulu time, then "." |
| `Radio.TimeSpeechShape` | radio-manager.js:87-90 | the spoken time check is the announcement followed by " The time is HH:MM:SS Zulu." |
| `Radio.AutoRadioQuery` | radio-manager.js:115-123 | the auto-radio query is one of the 5 fixed queries |
| `Radio.Batch` | radio-manager.js:154 | the queued batch is a prefix of the results of length min(20, n) |
| `Radio.DiskAfterStep` | ava-dj.js:163-172 | a step whose deletion goes through leaves no file of its own and removes no other file; a refused deletion leaves exactly the new audio file behind |
| `Radio.ReplayTwo` | radio-manager.js:46-51 | the history after a cycle is the news generation, if any, followed by the track generation |
| `Radio.RadioManager.constructor` | radio-manager.js:7-14 | counter 0, empty DJ history, and a news store that is empty unless a snapshot was parsed |
| `Radio.RadioManager.LoadStarCitizenNews` | radio-manager.js:16-27 | a parsed snapshot replaces the store with its `articles` (or nothing); a missing or unreadable file changes nothing |
| `Radio.RadioManager.AnnounceNews` | radio-manager.js:67-83 | with an empty store nothing happens; otherwise the news segment is generated and recorded, and it is played iff synthesis succeeded; its file is then deleted unless the deletion is refused; no error escapes |
| `Radio.RadioManager.AnnounceBeforeTrack` | radio-manager.js:43-65 | news (when due) is generated and played before the track announcement, and a news failure does not stop the track; the counter rises by exactly 1 iff the track was synthesized; every file created is deleted unless its deletion is refused, and then it is left on disk; no error escapes |
| `Radio.RadioManager.AnnounceZuluTime` | radio-manager.js:85-99 | the time check speaks the announcement with the Zulu time; played iff synthesis succeeded, and its file deleted unless the deletion is refused; no error escapes |
| `Radio.RadioManager.StartAutoRadio` | radio-manager.js:110-166 | the query is from the rotation; no results or any failed operation returns false; an empty search or a failed create or connect leaves the queue untouched; otherwise the first min(20, n) results are appended in order and the result is whether the queue plays |
| `Events.React` | main.js:63-147 | playerStart announces iff the metadata has a radio manager, announces before messaging, and sends "Now playing" iff the channel can send and not (loopMessage off and repeat on); emptyQueue schedules a restart after 5000 ms iff auto-radio is on and a voice channel is set; voiceStateUpdate starts auto-radio iff mode is on, the joined channel has the target name, there is no queue or it is not playing, and a text channel was found; no handler takes an action other than these |
| `Events.AutoRadioOnlyWhenEnabled` | main.js:109-144 | no event starts or re-arms auto-radio when auto-radio mode is off |
| `Events.AnnouncedOnlyOnPlayerStart` | main.js:63-71 | only a starting track on a queue carrying the radio manager is announced |

## Left out

- The OpenAI, Azure Speech SDK, google-tts-api and node-fetch calls (ava-dj.js:42-47, 105-161) are foreign services. Their outcomes are inputs.
- A provider that fails is taken to leave no file behind. Whether the Azure SDK creates its output file before failing is not modelled.
- Audio file names come from `Date.now()`, so the provider outcome supplies the path.
- The persona prompt and the history rendered into it (ava-dj.js:17-39) are text for the language model, with no behaviour of their own.
- The sampling settings are also left out for the same reason.
- `Math.random()` is a real in [0, 1), not a double. The floating-point rounding of `random * n` is not modelled.
- The `fallbacks[context]` lookup is modelled for the contexts the code passes ("song", "news", "time") and for other plain strings. Inherited object keys such as "constructor" are not modelled.
- `toISOString` is modelled for years 0 to 9999. The six-digit signed years of dates outside that range are not modelled.
- `parseInt(process.env.NEWS_FREQUENCY || '3')` is taken as an already-parsed integer. Its NaN result for a non-numeric setting behaves like 0: news is never due.
- A negative cadence behaves like its absolute value, as in JavaScript for a positive counter.
- `playAudioFile` (radio-manager.js:101-108) is a timer that always resolves. It is recorded as a `Playback` of the spoken text and its file.
- In `startAutoRadio`, the queue creation options and metadata (radio-manager.js:135-147) are left out. So is discord-player taking the first queued track when playback starts: starting playback only sets `playing`.
- In `voiceStateUpdate`, the text-channel lookup (main.js:138-140) is an input flag.
- All `channel.send` texts and `console` output are left out.
- Concurrency is left out. Overlapping announcement cycles share `songCount` and the history, and the model treats each handler call as atomic and sequential.
- `fetch_sc_news.js` (the batch news scrape), `commands/music/play.js`, `config.js` (its values are parameters) and `events/ready.js` are not part of this model.
- The module loading and login in `main.js` are not part of this model either.
