/** The announcement scheduler of the radio: a play counter that gates a news
    segment every `newsFrequency` tracks, the news, track and time
    announcement steps (generate, synthesize, play, clean up), and the
    auto-radio start that searches for music and fills a guild's queue.

    External answers are inputs: a `Step` carries what the language model and
    the two speech providers answer during one announcement, `Math.random()`
    draws are reals in [0, 1), the clock is a `UtcInstant`, and the music
    search is a function from query to outcome. Playing an announcement (a
    timer that always resolves) is recorded as a `Playback`. */
module Radio {
  import opened Js
  import opened IsoTime
  import opened AvaDj

  /** One entry of the news snapshot. */
  datatype NewsItem = NewsItem(title: string, description: Option<string>)

  /** What reading `sc_news.json` finds: no file, a file that cannot be read or
      parsed, or a parsed object whose `articles` field may be absent. */
  datatype NewsFile = Missing | Unreadable | Snapshot(articles: Option<seq<NewsItem>>)

  /** What the outside world answers during one announcement step: the language
      model's completion (`None` when the call threw), the `Math.random()` draw a
      fallback would use, the attempt of each speech provider, and whether
      deleting the audio file afterwards succeeds. */
  datatype Step = Step(completion: Option<string>, fallbackRandom: real, azure: TtsOutcome, google: TtsOutcome,
                       unlinkOk: bool) {
    predicate Valid() {
      0.0 <= fallbackRandom < 1.0
    }
  }

  /** An announcement handed to `playAudioFile`: the text spoken and its audio file. */
  datatype Playback = Playback(text: string, file: Path)

  // ---------------------------------------------------------------------------
  // News cadence and news store

  /** `shouldAnnounceNews`: the counter is positive and a multiple of the
      cadence. A cadence of 0 (or the NaN that `parseInt` yields for a
      non-numeric setting) never matches, as `songCount % 0` is NaN. */
  function NewsDue(songCount: nat, newsFrequency: int): (due: bool)
    ensures due ==> songCount > 0 && newsFrequency != 0
    ensures due ==> songCount >= (if newsFrequency < 0 then -newsFrequency else newsFrequency)
    ensures songCount == 0 || newsFrequency == 0 ==> !due
  {
    songCount > 0 && newsFrequency != 0 && songCount % newsFrequency == 0
  }

  /** News is never due before the first track has been counted. */
  lemma NoNewsAtStart(newsFrequency: int)
    ensures !NewsDue(0, newsFrequency)
  {
  }

  /** With a positive cadence, news is due exactly at the positive multiples of
      the cadence: at every one of them ... */
  lemma NewsDueAtMultiples(k: nat, newsFrequency: nat)
    requires k >= 1 && newsFrequency >= 1
    ensures NewsDue(k * newsFrequency, newsFrequency)
  {
  }

  /** ... and at nothing else. */
  lemma NewsDueOnlyAtMultiples(songCount: nat, newsFrequency: nat)
    requires newsFrequency >= 1
    requires NewsDue(songCount, newsFrequency)
    ensures songCount / newsFrequency >= 1 && songCount == songCount / newsFrequency * newsFrequency
  {
  }

  /** With the default cadence of 3 the first nine counter values give news at 3, 6 and 9. */
  lemma DefaultCadence()
    ensures forall c :: 1 <= c <= 9 ==> (NewsDue(c, 3) <==> c == 3 || c == 6 || c == 9)
  {
  }

  /** `getRandomNews`: no item when the store is empty, otherwise a random item of it. */
  function RandomNews(news: seq<NewsItem>, random: real): (item: Option<NewsItem>)
    requires 0.0 <= random < 1.0
    ensures item.None? <==> news == []
    ensures item.Some? ==> item.value in news
  {
    if |news| == 0 then None else Some(news[RandomIndex(random, |news|)])
  }

  /** The news store after `loadStarCitizenNews`: the `articles` of a parsed
      snapshot (empty when the field is absent); a missing or unreadable file
      leaves the store as it was. */
  function LoadedNews(file: NewsFile, previous: seq<NewsItem>): seq<NewsItem> {
    match file
    case Snapshot(articles) => articles.GetOr([])
    case _ => previous
  }

  // ---------------------------------------------------------------------------
  // Text builders

  /** `getZuluTime`: characters 11 up to 19 of the ISO-8601 rendering of the
      clock, then " Zulu" — that is, the `HH:MM:SS` clock and " Zulu". */
  function ZuluTime(now: UtcInstant): (zulu: string)
    requires now.Valid()
    ensures zulu == ClockText(now) + " Zulu"
    ensures |zulu| == 13
  {
    IsoClockSlice(now);
    Substring(IsoString(now), 11, 19) + " Zulu"
  }

  const NewsHeading := "Star Citizen news update: "

  /** The text of a news segment: the heading, the title and ". ", then the
      description, or nothing when the item has none. */
  function NewsText(item: NewsItem): (text: string)
    ensures NewsHeading + item.title + ". " <= text
    ensures text[|NewsHeading| + |item.title| + 2..] == item.description.GetOr("")
  {
    NewsHeading + item.title + ". " + item.description.GetOr("")
  }

  /** What is spoken for a news segment: the announcement, a space, the news text. */
  function NewsSpeech(announcement: string, item: NewsItem): (text: string)
    ensures announcement + " " + NewsHeading + item.title + ". " <= text
    ensures text[|announcement| + 1..] == NewsText(item)
  {
    announcement + " " + NewsText(item)
  }

  /** What is spoken for a time check: the announcement, then "The time is"
      and the Zulu time as a sentence. */
  function TimeSpeech(announcement: string, zulu: string): (text: string)
    ensures |text| == |announcement| + |zulu| + 14
    ensures announcement <= text && text[|announcement|..|announcement| + 13] == " The time is "
    ensures text[|announcement| + 13..|text| - 1] == zulu && text[|text| - 1] == '.'
  {
    announcement + " The time is " + zulu + "."
  }

  /** A time check spoken at `now` starts with the announcement and ends with
      " The time is HH:MM:SS Zulu." for the clock of `now`. */
  lemma TimeSpeechShape(announcement: string, now: UtcInstant)
    requires now.Valid()
    ensures var text := TimeSpeech(announcement, ZuluTime(now));
      |text| == |announcement| + 27 &&
      announcement <= text &&
      text[|announcement|..] == " The time is " + ClockText(now) + " Zulu."
  {
  }

  // ---------------------------------------------------------------------------
  // One announcement step, as a function of its inputs

  /** The audio file one step's speech synthesis leaves, if any. */
  function SpeechFile(env: SpeechEnv, step: Step): Option<Path> {
    var result := Synthesis(env, step.azure, step.google).result;
    if result.Ok? then Some(result.value) else None
  }

  /** The disk after a step that synthesized `file` (none when synthesis
      failed), played it, and tried to delete it: a refused deletion leaves
      the new file behind. */
  function DiskAfter(files: set<Path>, file: Option<Path>, step: Step): set<Path> {
    if file.None? then files
    else if step.unlinkOk then files - {file.value}
    else files + {file.value}
  }

  /** A step whose deletion goes through leaves no file of its own and removes
      nothing else; a refused deletion leaves exactly the new file. */
  lemma DiskAfterStep(files: set<Path>, file: Option<Path>, step: Step)
    ensures step.unlinkOk ==> DiskAfter(files, file, step) <= files
    ensures step.unlinkOk && file.Some? ==> file.value !in DiskAfter(files, file, step)
    ensures forall p :: p in files && (file.None? || p != file.value) ==> p in DiskAfter(files, file, step)
    ensures !step.unlinkOk ==> DiskAfter(files, file, step) == files + (if file.Some? then {file.value} else {})
  {
  }

  /** What a step plays: its text in its file, or nothing when synthesis failed. */
  function Played(text: string, file: Option<Path>): seq<Playback> {
    if file.Some? then [Playback(text, file.value)] else []
  }

  /** The news item the cycle announces: a random one when news is due and the
      store is not empty, none otherwise. */
  function NewsPick(songCount: nat, newsFrequency: int, news: seq<NewsItem>, random: real): (item: Option<NewsItem>)
    requires 0.0 <= random < 1.0
    ensures item.Some? <==> NewsDue(songCount, newsFrequency) && news != []
  {
    if NewsDue(songCount, newsFrequency) then RandomNews(news, random) else None
  }

  /** The spoken text of a news segment for `item`. */
  function NewsSegment(item: NewsItem, step: Step): string
    requires step.Valid()
  {
    NewsSpeech(Announcement(Track(NewsText(item), None), "news", step.completion, step.fallbackRandom), item)
  }

  /** The spoken text of a track announcement. */
  function TrackSegment(track: Track, step: Step): string
    requires step.Valid()
  {
    Announcement(track, "song", step.completion, step.fallbackRandom)
  }

  // ---------------------------------------------------------------------------
  // Auto-radio

  /** The fixed rotation of searches auto-radio chooses from. */
  const SearchQueries: seq<string> :=
    ["house music mix", "electronic music mix", "chill music mix", "lofi hip hop", "synthwave mix"]

  /** How many search results auto-radio queues at most. */
  const MaxBatch: nat := 20

  /** The query of one auto-radio start: a random entry of the rotation. */
  function AutoRadioQuery(random: real): (query: string)
    requires 0.0 <= random < 1.0
    ensures query in SearchQueries
  {
    SearchQueries[RandomIndex(random, |SearchQueries|)]
  }

  /** `tracks.slice(0, 20)`: the first results, at most `MaxBatch` of them, in order. */
  function Batch(tracks: seq<Track>): (batch: seq<Track>)
    ensures |batch| == Min(|tracks|, MaxBatch)
    ensures batch <= tracks
  {
    if |tracks| <= MaxBatch then tracks else tracks[..MaxBatch]
  }

  /** What the player's search answers: it threw or found nothing usable, or a list of tracks. */
  datatype SearchOutcome = SearchFailed | Found(tracks: seq<Track>)

  /** Whether each queue operation auto-radio calls succeeds rather than throws:
      creating the guild's queue, connecting it to the voice channel, starting
      playback. */
  datatype Transport = Transport(createOk: bool, connectOk: bool, playOk: bool)

  /** A guild's queue, as far as auto-radio changes it. */
  class GuildQueue {
    var tracks: seq<Track>
    var connected: bool
    var playing: bool

    constructor (tracks: seq<Track>, connected: bool, playing: bool)
      ensures this.tracks == tracks && this.connected == connected && this.playing == playing
    {
      this.tracks, this.connected, this.playing := tracks, connected, playing;
    }
  }

  // ---------------------------------------------------------------------------
  // The manager

  class RadioManager {
    const dj: AvaDJ
    var songCount: nat
    const newsFrequency: int
    var scNews: seq<NewsItem>

    ghost predicate Valid()
      reads this, dj
    {
      dj.Valid()
    }

    /** A fresh manager: a new DJ with an empty history, the counter at 0, and
        the news store as loaded from the snapshot (empty when it is missing,
        unreadable or has no articles). */
    constructor (env: SpeechEnv, disk: Disk, newsFrequency: int, newsFile: NewsFile)
      ensures Valid() && fresh(dj)
      ensures dj.env == env && dj.disk == disk && dj.lastAnnouncements == []
      ensures songCount == 0 && this.newsFrequency == newsFrequency
      ensures scNews == LoadedNews(newsFile, [])
      ensures !newsFile.Snapshot? ==> scNews == []
    {
      dj := new AvaDJ(env, disk);
      songCount := 0;
      this.newsFrequency := newsFrequency;
      scNews := [];
      new;
      LoadStarCitizenNews(newsFile);
    }

    /** `loadStarCitizenNews`: replace the store by the snapshot's articles; a
        missing or unreadable file is logged and changes nothing. */
    method LoadStarCitizenNews(file: NewsFile)
      modifies this`scNews
      ensures scNews == LoadedNews(file, old(scNews))
    {
      match file {
        case Snapshot(articles) =>
          scNews := articles.GetOr([]);
        case _ =>
      }
    }

    /** `announceNews`: draw an item; if there is one, generate a news
        announcement, synthesize it with the news text, play it and delete its
        file. Every failure inside is caught: a failed synthesis plays nothing
        and leaves no file, and nothing escapes to the caller. */
    method AnnounceNews(newsRandom: real, step: Step) returns (played: seq<Playback>)
      requires Valid() && step.Valid()
      requires 0.0 <= newsRandom < 1.0
      modifies dj, dj.disk
      ensures Valid()
      ensures var item := RandomNews(scNews, newsRandom);
        if item.None? then
          played == [] && dj.lastAnnouncements == old(dj.lastAnnouncements) &&
          dj.disk.files == old(dj.disk.files)
        else
          var file := SpeechFile(dj.env, step);
          played == Played(NewsSegment(item.value, step), file) &&
          dj.lastAnnouncements == Recorded(old(dj.lastAnnouncements), step.completion) &&
          dj.disk.files == DiskAfter(old(dj.disk.files), file, step)
    {
      played := [];
      var news := RandomNews(scNews, newsRandom);
      if news.None? {
        return;
      }
      var newsText := NewsText(news.value);
      var announcement := dj.GenerateAnnouncement(Track(newsText, None), "news", step.completion, step.fallbackRandom);
      var speech := announcement + " " + newsText;
      var audio, _ := dj.SynthesizeSpeech(speech, step.azure, step.google);
      if audio.Err? {
        return;
      }
      played := [Playback(speech, audio.value)];
      dj.CleanupAudioFile(audio.value, step.unlinkOk);
    }

    /** `announceBeforeTrack`: a news segment first when news is due, then the
        track announcement, then cleanup, then `songCount++`. A failed news
        segment does not stop the track announcement; a failed track synthesis
        skips playback, cleanup and the increment, and is caught. */
    method AnnounceBeforeTrack(track: Track, newsRandom: real, news: Step, trackStep: Step)
      returns (played: seq<Playback>)
      requires Valid() && news.Valid() && trackStep.Valid()
      requires 0.0 <= newsRandom < 1.0
      modifies this`songCount, dj, dj.disk
      ensures Valid()
      ensures var item := NewsPick(old(songCount), newsFrequency, scNews, newsRandom);
        var newsFile := if item.Some? then SpeechFile(dj.env, news) else None;
        var trackFile := SpeechFile(dj.env, trackStep);
        songCount == old(songCount) + (if trackFile.Some? then 1 else 0) &&
        played ==
          (if item.Some? then Played(NewsSegment(item.value, news), newsFile) else []) +
          Played(TrackSegment(track, trackStep), trackFile) &&
        dj.lastAnnouncements ==
          Replay(old(dj.lastAnnouncements),
                 (if item.Some? then [news.completion] else []) + [trackStep.completion]) &&
        dj.disk.files == DiskAfter(DiskAfter(old(dj.disk.files), newsFile, news), trackFile, trackStep)
    {
      played := [];
      if NewsDue(songCount, newsFrequency) {
        played := AnnounceNews(newsRandom, news);
      }
      ghost var afterNews := dj.lastAnnouncements;
      var announcement := dj.GenerateAnnouncement(track, "song", trackStep.completion, trackStep.fallbackRandom);
      var audio, _ := dj.SynthesizeSpeech(announcement, trackStep.azure, trackStep.google);
      if audio.Err? {
        // "All TTS services failed" is caught here: the music goes on uncounted.
        ReplayTwo(old(dj.lastAnnouncements), afterNews, news.completion, trackStep.completion,
                  NewsPick(old(songCount), newsFrequency, scNews, newsRandom).Some?);
        return;
      }
      played := played + [Playback(announcement, audio.value)];
      dj.CleanupAudioFile(audio.value, trackStep.unlinkOk);
      songCount := songCount + 1;
      ReplayTwo(old(dj.lastAnnouncements), afterNews, news.completion, trackStep.completion,
                NewsPick(old(songCount), newsFrequency, scNews, newsRandom).Some?);
    }

    /** `announceZuluTime`: announce the current Zulu time; every failure is
        caught, and a failed synthesis plays nothing and leaves no file. */
    method AnnounceZuluTime(now: UtcInstant, step: Step) returns (played: seq<Playback>)
      requires Valid() && step.Valid() && now.Valid()
      modifies dj, dj.disk
      ensures Valid()
      ensures var zulu := ZuluTime(now);
        var file := SpeechFile(dj.env, step);
        played == Played(TimeSpeech(Announcement(Track(zulu, None), "time", step.completion, step.fallbackRandom), zulu), file) &&
        dj.lastAnnouncements == Recorded(old(dj.lastAnnouncements), step.completion) &&
        dj.disk.files == DiskAfter(old(dj.disk.files), file, step)
    {
      played := [];
      var zuluTime := ZuluTime(now);
      var announcement := dj.GenerateAnnouncement(Track(zuluTime, None), "time", step.completion, step.fallbackRandom);
      var fullText := announcement + " The time is " + zuluTime + ".";
      var audio, _ := dj.SynthesizeSpeech(fullText, step.azure, step.google);
      if audio.Err? {
        return;
      }
      played := [Playback(fullText, audio.value)];
      dj.CleanupAudioFile(audio.value, step.unlinkOk);
    }

    /** `startAutoRadio`: search for a random query of the rotation; with no
        results report failure and leave the queue alone; otherwise create the
        queue, connect it if needed, append the first `MaxBatch` results in
        order and start playback if it is not playing. Any thrown error is
        caught and reported as failure. */
    method StartAutoRadio(queue: GuildQueue, random: real, search: string -> SearchOutcome, transport: Transport)
      returns (query: string, started: bool)
      requires 0.0 <= random < 1.0
      modifies queue
      ensures query == AutoRadioQuery(random) && query in SearchQueries
      ensures var found := search(query);
        var usable := found.Found? && found.tracks != [];
        var connects := usable && transport.createOk && (old(queue.connected) || transport.connectOk);
        (!connects ==> !started && queue.tracks == old(queue.tracks) &&
                       queue.connected == old(queue.connected) && queue.playing == old(queue.playing)) &&
        (connects ==> queue.connected && queue.tracks == old(queue.tracks) + Batch(found.tracks) &&
                      queue.playing == (old(queue.playing) || transport.playOk) &&
                      started == queue.playing)
    {
      query := AutoRadioQuery(random);
      started := false;
      var found := search(query);
      if found.SearchFailed? || found.tracks == [] {
        return;
      }
      if !transport.createOk {
        return;
      }
      if !queue.connected {
        if !transport.connectOk {
          return;
        }
        queue.connected := true;
      }
      queue.tracks := queue.tracks + Batch(found.tracks);
      if !queue.playing {
        if !transport.playOk {
          return;
        }
        queue.playing := true;
      }
      started := true;
    }
  }

  /** The history after a cycle: the news generation, if there was one,
      followed by the track generation. */
  lemma ReplayTwo(start: seq<string>, afterNews: seq<string>, newsCompletion: Option<string>,
                  trackCompletion: Option<string>, newsRan: bool)
    requires afterNews == if newsRan then Recorded(start, newsCompletion) else start
    ensures Replay(start, (if newsRan then [newsCompletion] else []) + [trackCompletion]) ==
            Recorded(afterNews, trackCompletion)
  {
    var cs := (if newsRan then [newsCompletion] else []) + [trackCompletion];
    assert Replay(afterNews, [trackCompletion]) == Recorded(afterNews, trackCompletion) by {
      assert [trackCompletion][1..] == [];
    }
    if newsRan {
      assert cs[0] == newsCompletion && cs[1..] == [trackCompletion];
    } else {
      assert cs == [trackCompletion];
    }
  }
}
