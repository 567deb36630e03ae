/** The decisions the bot's player and voice event handlers make: whether a
    starting track gets a DJ announcement and a "Now playing" message, whether
    an exhausted queue re-arms auto-radio, and whether someone joining the radio
    channel starts it. Each handler is a function from the configuration and
    what it sees of the queue and channels to the actions it takes, in order;
    the actions themselves (messages, timers, the radio manager's calls) are
    carried out elsewhere. */
module Events {
  import opened Js

  /** The configuration the handlers read. */
  datatype Config = Config(autoRadioMode: bool, voiceChannelName: string, loopMessage: bool)

  /** What a player event sees of its queue: whether the metadata carries a
      radio manager, whether the metadata's text channel can be sent to,
      whether the metadata names a voice channel, and the repeat mode (0 is
      off). */
  datatype QueueView = QueueView(hasRadioManager: bool, canSend: bool, hasVoiceChannel: bool, repeatMode: nat)

  datatype Event =
      /** A track started playing on a queue. */
    | PlayerStart(queue: QueueView)
      /** A queue ran out of tracks. */
    | EmptyQueue(queue: QueueView)
      /** A member's voice state changed: the name of the channel they are now
          in (none when they left), whether the guild's queue is playing (none
          when the guild has no queue), and whether a text channel the bot may
          send to was found. */
    | VoiceStateUpdate(joined: Option<string>, queuePlaying: Option<bool>, textChannelFound: bool)

  datatype Action =
      /** Start `announceBeforeTrack` without waiting; its rejection is caught and logged. */
    | AnnounceBeforeTrack
    | SendNowPlaying
    | SendQueueFinished
      /** Call `startAutoRadio` after `delayMs` milliseconds. */
    | ScheduleAutoRadio(delayMs: nat)
      /** Call `startAutoRadio` now, on the joined channel. */
    | StartAutoRadio

  /** The delay before an exhausted queue restarts auto-radio. */
  const RestartDelayMs: nat := 5000

  predicate StartsRadio(a: Action) {
    a.StartAutoRadio? || a.ScheduleAutoRadio?
  }

  /** The actions the handler for `event` takes, in order. */
  function React(config: Config, event: Event): (actions: seq<Action>)
    ensures event.PlayerStart? ==>
      (AnnounceBeforeTrack in actions <==> event.queue.hasRadioManager) &&
      (SendNowPlaying in actions <==>
         event.queue.canSend && (config.loopMessage || event.queue.repeatMode == 0)) &&
      (actions != [] && AnnounceBeforeTrack in actions ==> actions[0] == AnnounceBeforeTrack) &&
      (forall a :: a in actions ==> a == AnnounceBeforeTrack || a == SendNowPlaying)
    ensures event.EmptyQueue? ==>
      (SendQueueFinished in actions <==> event.queue.canSend) &&
      (ScheduleAutoRadio(RestartDelayMs) in actions <==> config.autoRadioMode && event.queue.hasVoiceChannel) &&
      (forall a :: a in actions ==> a == SendQueueFinished || a == ScheduleAutoRadio(RestartDelayMs))
    ensures event.VoiceStateUpdate? ==>
      (actions == [] || actions == [StartAutoRadio]) &&
      (actions == [StartAutoRadio] <==>
         config.autoRadioMode &&
         event.joined == Some(config.voiceChannelName) &&
         (event.queuePlaying.None? || !event.queuePlaying.value) &&
         event.textChannelFound)
  {
    match event
    case PlayerStart(queue) =>
      (if queue.hasRadioManager then [AnnounceBeforeTrack] else []) +
      (if !config.loopMessage && queue.repeatMode != 0 then []
       else if queue.canSend then [SendNowPlaying]
       else [])
    case EmptyQueue(queue) =>
      (if queue.canSend then [SendQueueFinished] else []) +
      (if config.autoRadioMode && queue.hasVoiceChannel then [ScheduleAutoRadio(RestartDelayMs)] else [])
    case VoiceStateUpdate(joined, queuePlaying, textChannelFound) =>
      if !config.autoRadioMode then []
      else if joined.None? || joined.value != config.voiceChannelName then []
      else if queuePlaying.Some? && queuePlaying.value then []
      else if !textChannelFound then []
      else [StartAutoRadio]
  }

  /** With auto-radio mode off, no event starts or re-arms auto-radio. */
  lemma AutoRadioOnlyWhenEnabled(config: Config, event: Event, a: Action)
    requires a in React(config, event) && StartsRadio(a)
    ensures config.autoRadioMode
  {
  }

  /** Only a starting track is announced, and only on a queue that carries the radio manager. */
  lemma AnnouncedOnlyOnPlayerStart(config: Config, event: Event)
    requires AnnounceBeforeTrack in React(config, event)
    ensures event.PlayerStart? && event.queue.hasRadioManager
  {
  }
}
