/** The DJ persona: announcement text from a language model with a static
    fallback, a rolling history of the last announcements, speech synthesis
    through a primary (Azure) and a fallback (Google) provider, and removal of
    the audio files that synthesis leaves on disk.

    Every external call is an input: the language model's completion is
    `Some(text)` or `None` (the call threw), each speech provider's attempt
    `Produced(path)` or `Failed`, and `Math.random()` a real in [0, 1). */
module AvaDj {
  import opened Js

  type Path = string

  /** The subject of an announcement: a queued track, or for news and time
      announcements a subject that carries only a title. */
  datatype Track = Track(title: string, author: Option<string>)

  /** `maxHistory`: how many recent announcements the DJ remembers. */
  const MaxHistory: nat := 5

  // ---------------------------------------------------------------------------
  // Announcement history

  /** The newest `MaxHistory` entries of `s`, oldest first (all of `s` when it is shorter). */
  function Window(s: seq<string>): (w: seq<string>)
    ensures |w| == Min(|s|, MaxHistory)
  {
    if |s| <= MaxHistory then s else s[|s| - MaxHistory..]
  }

  /** The history after one generation: a completion from the language model
      adds its trimmed text as the newest entry; a failed call, answered from the
      fallback table, leaves the history as it was. */
  function Recorded(history: seq<string>, completion: Option<string>): seq<string>
  {
    match completion
    case None => history
    case Some(content) => Window(history + [Trim(content)])
  }

  /** The history after a run of generations, in call order. */
  function Replay(history: seq<string>, completions: seq<Option<string>>): seq<string>
    decreases |completions|
  {
    if completions == [] then history
    else Replay(Recorded(history, completions[0]), completions[1..])
  }

  /** The entry one generation contributes: the trimmed completion, or nothing. */
  function Success(completion: Option<string>): seq<string> {
    match completion
    case None => []
    case Some(content) => [Trim(content)]
  }

  /** The trimmed texts of the completions that succeeded, in call order. */
  function Successes(completions: seq<Option<string>>): seq<string>
    decreases |completions|
  {
    if completions == [] then [] else Success(completions[0]) + Successes(completions[1..])
  }

  /** Keeping only the newest entries and then appending more keeps the same
      newest entries as appending to the whole sequence. */
  lemma WindowOfWindow(s: seq<string>, more: seq<string>)
    ensures Window(Window(s) + more) == Window(s + more)
  {
  }

  /** One generation on a valid history is the window over the history and
      what the generation contributes. */
  lemma RecordedIsWindow(history: seq<string>, completion: Option<string>)
    requires |history| <= MaxHistory
    ensures Recorded(history, completion) == Window(history + Success(completion))
  {
  }

  /** Starting from any valid history, a run of generations leaves exactly the
      newest `MaxHistory` of the old entries followed by the successful
      completions: the history is a FIFO window over the successes. */
  lemma {:induction false} ReplayIsWindow(history: seq<string>, completions: seq<Option<string>>)
    requires |history| <= MaxHistory
    ensures Replay(history, completions) == Window(history + Successes(completions))
    decreases |completions|
  {
    if completions == [] {
      assert history + Successes(completions) == history;
    } else {
      var c, rest := completions[0], completions[1..];
      RecordedIsWindow(history, c);
      ReplayIsWindow(Recorded(history, c), rest);
      AppendAfterWindow(history, Success(c), Successes(rest), Successes(completions));
    }
  }

  lemma AppendAfterWindow(history: seq<string>, first: seq<string>, rest: seq<string>, all: seq<string>)
    requires all == first + rest
    ensures Window(Window(history + first) + rest) == Window(history + all)
  {
    WindowOfWindow(history + first, rest);
    assert history + first + rest == history + all;
  }

  /** From a fresh DJ, the history after any run holds at most `MaxHistory`
      entries, each the trimmed text of a successful completion (a fallback
      phrase never enters it), and once more than `MaxHistory` completions have
      succeeded the oldest ones have been evicted in order. */
  lemma HistoryFromFresh(completions: seq<Option<string>>)
    ensures var h, s := Replay([], completions), Successes(completions);
      |h| == Min(|s|, MaxHistory) && h == s[|s| - |h|..] &&
      (|s| > MaxHistory ==> h == s[|s| - MaxHistory..])
  {
    ReplayIsWindow([], completions);
    assert [] + Successes(completions) == Successes(completions);
  }

  // ---------------------------------------------------------------------------
  // Fallback phrases

  function SongFallbacks(track: Track): seq<string> {
    [ "Next up: " + track.title + ". Let's ride!",
      "Coming at you with " + track.title + ". Buckle up!",
      "Here's " + track.title + " to keep those engines humming." ]
  }

  const NewsFallbacks: seq<string> :=
    [ "Time for some Star Citizen news, space cowboys!",
      "Let's catch up on what's happening in the 'verse." ]

  const TimeFallbacks: seq<string> :=
    [ "Here's your Zulu time check, haulers.",
      "Time update for all you space truckers." ]

  /** `fallbacks[context] || fallbacks.song`: the phrase table for a context,
      the song table for any context other than news and time. */
  function FallbackTable(track: Track, context: string): (options: seq<string>)
    ensures |options| == (if context == "news" || context == "time" then 2 else 3)
    ensures context == "news" ==> options == NewsFallbacks
    ensures context == "time" ==> options == TimeFallbacks
    ensures context != "news" && context != "time" ==> options == SongFallbacks(track)
  {
    if context == "news" then NewsFallbacks
    else if context == "time" then TimeFallbacks
    else SongFallbacks(track)
  }

  /** `getFallbackAnnouncement`: a phrase drawn from the context's table. */
  function FallbackAnnouncement(track: Track, context: string, random: real): (phrase: string)
    requires 0.0 <= random < 1.0
    ensures phrase in FallbackTable(track, context)
  {
    var options := FallbackTable(track, context);
    options[RandomIndex(random, |options|)]
  }

  /** `part` occurs in `text` at some position. */
  predicate Mentions(text: string, part: string) {
    exists k :: 0 <= k <= |text| && part <= text[k..]
  }

  /** Every song fallback phrase, and so the fallback for any context other
      than news and time, names the track's title. */
  lemma SongFallbackNamesTrack(track: Track, context: string, random: real)
    requires 0.0 <= random < 1.0
    requires context != "news" && context != "time"
    ensures Mentions(FallbackAnnouncement(track, context, random), track.title)
  {
    var t := track.title;
    var p := FallbackAnnouncement(track, context, random);
    if p == SongFallbacks(track)[0] {
      assert t <= p[9..];
    } else if p == SongFallbacks(track)[1] {
      assert t <= p[19..];
    } else {
      assert t <= p[7..];
    }
  }

  /** The news and time fallbacks do not depend on the subject they were asked about. */
  lemma FixedFallbacksIgnoreSubject(a: Track, b: Track, context: string, random: real)
    requires 0.0 <= random < 1.0
    requires context == "news" || context == "time"
    ensures FallbackAnnouncement(a, context, random) == FallbackAnnouncement(b, context, random)
  {
  }

  /** What `generateAnnouncement` returns: the trimmed completion when the
      language model answered, otherwise a phrase from the fallback table. */
  function Announcement(track: Track, context: string, completion: Option<string>, random: real): (a: string)
    requires 0.0 <= random < 1.0
    ensures completion.Some? ==> a == Trim(completion.value)
    ensures completion.None? ==> a in FallbackTable(track, context)
  {
    match completion
    case Some(content) => Trim(content)
    case None => FallbackAnnouncement(track, context, random)
  }

  // ---------------------------------------------------------------------------
  // Speech synthesis

  datatype Provider = Azure | Google

  /** One provider's attempt: it wrote an audio file at `path`, or it threw. */
  datatype TtsOutcome = Produced(path: Path) | Failed

  /** The two environment variables that gate the primary provider. */
  datatype SpeechEnv = SpeechEnv(azureKey: Option<string>, azureRegion: Option<string>) {
    predicate AzureConfigured() {
      Truthy(azureKey) && Truthy(azureRegion)
    }
  }

  /** What a synthesis call yields and which providers it called, in order. */
  datatype Synthesized = Synthesized(result: Result<Path>, tried: seq<Provider>)

  const AllTtsFailed := "All TTS services failed"

  /** The provider chain of `synthesizeSpeech`. Azure is called exactly when its
      key and region are both set; Google is called, once, exactly when Azure was
      not configured or failed; the call yields the serving provider's file and
      fails with "All TTS services failed" only when every provider called failed. */
  function Synthesis(env: SpeechEnv, azure: TtsOutcome, google: TtsOutcome): (s: Synthesized)
    ensures (Azure in s.tried) <==> env.AzureConfigured()
    ensures (Google in s.tried) <==> !(env.AzureConfigured() && azure.Produced?)
    ensures s.tried == [Azure] || s.tried == [Google] || s.tried == [Azure, Google]
    ensures s.result.Ok? <==> (env.AzureConfigured() && azure.Produced?) || google.Produced?
    ensures s.result.Ok? ==>
      s.result.value == (if env.AzureConfigured() && azure.Produced? then azure.path else google.path)
    ensures s.result.Err? ==> s.result.message == AllTtsFailed
  {
    if env.AzureConfigured() && azure.Produced? then Synthesized(Ok(azure.path), [Azure])
    else
      var tried := if env.AzureConfigured() then [Azure, Google] else [Google];
      if google.Produced? then Synthesized(Ok(google.path), tried)
      else Synthesized(Err(AllTtsFailed), tried)
  }

  /** The files a synthesis result leaves on disk. */
  function FilesOf(result: Result<Path>): set<Path> {
    if result.Ok? then {result.value} else {}
  }

  /** The local file system, seen as the set of paths that exist. */
  class Disk {
    var files: set<Path>

    constructor (files: set<Path>)
      ensures this.files == files
    {
      this.files := files;
    }
  }

  class AvaDJ {
    /** `lastAnnouncements`, oldest first. */
    var lastAnnouncements: seq<string>
    /** The process environment as far as speech synthesis reads it. */
    const env: SpeechEnv
    /** The file system the providers write to and the cleanup deletes from. */
    const disk: Disk

    ghost predicate Valid()
      reads this
    {
      |lastAnnouncements| <= MaxHistory
    }

    constructor (env: SpeechEnv, disk: Disk)
      ensures Valid() && lastAnnouncements == []
      ensures this.env == env && this.disk == disk
    {
      lastAnnouncements := [];
      this.env := env;
      this.disk := disk;
    }

    /** `generateAnnouncement(track, context)`: on a completion the trimmed text
        is pushed onto the history and the oldest entry shifted off when the
        history overflows; on a failed call the fallback phrase is returned and
        the history is left alone. */
    method GenerateAnnouncement(track: Track, context: string, completion: Option<string>, random: real)
      returns (announcement: string)
      requires Valid()
      requires 0.0 <= random < 1.0
      modifies this`lastAnnouncements
      ensures Valid()
      ensures announcement == Announcement(track, context, completion, random)
      ensures lastAnnouncements == Recorded(old(lastAnnouncements), completion)
      ensures completion.Some? ==> lastAnnouncements[|lastAnnouncements| - 1] == announcement
    {
      match completion {
        case Some(content) =>
          announcement := Trim(content);
          lastAnnouncements := lastAnnouncements + [announcement];
          if |lastAnnouncements| > MaxHistory {
            lastAnnouncements := lastAnnouncements[1..];
          }
        case None =>
          announcement := FallbackAnnouncement(track, context, random);
      }
    }

    /** `synthesizeSpeech(text)`: try Azure when it is configured, then Google;
        a provider that succeeds has written its file to disk. */
    method SynthesizeSpeech(text: string, azure: TtsOutcome, google: TtsOutcome)
      returns (result: Result<Path>, tried: seq<Provider>)
      modifies disk
      ensures Synthesized(result, tried) == Synthesis(env, azure, google)
      ensures disk.files == old(disk.files) + FilesOf(result)
    {
      tried := [];
      if env.AzureConfigured() {
        tried := tried + [Azure];
        if azure.Produced? {
          disk.files := disk.files + {azure.path};
          return Ok(azure.path), tried;
        }
      }
      tried := tried + [Google];
      if google.Produced? {
        disk.files := disk.files + {google.path};
        result := Ok(google.path);
      } else {
        result := Err(AllTtsFailed);
      }
    }

    /** `cleanupAudioFile(filename)`: delete the file if it exists. `unlinkOk`
        is whether the operating system lets the deletion through; a refused
        deletion throws inside the `try`, is logged, and leaves the file. An
        absent file is no error, so a second call changes nothing. */
    method CleanupAudioFile(filename: Path, unlinkOk: bool)
      modifies disk
      ensures disk.files == if unlinkOk then old(disk.files) - {filename} else old(disk.files)
      ensures filename !in old(disk.files) ==> disk.files == old(disk.files)
    {
      if filename in disk.files {
        if unlinkOk {
          disk.files := disk.files - {filename};
        }
      }
    }
  }
}
