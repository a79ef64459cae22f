/** The Player component of src/components/Player/index.tsx, reduced to its
    decisions: which episode is shown, which buttons are enabled, what the end
    of an episode does to the queue, and how the audio element is driven from
    the store and fed back into it.
 */
module Player {
  import opened Queue
  import PlayerContext

  // What the component reads from the queue on each render.

  /** `episodeList[currentEpisodeIndex]`, absent when the index is out of range. */
  function CurrentEpisode(s: QueueState): (o: Option<Episode>)
    ensures o.Some? <==> HasCurrent(s)
    ensures o.Some? ==> o.value in s.episodeList && o.value == s.episodeList[s.currentEpisodeIndex]
  {
    if HasCurrent(s) then Some(s.episodeList[s.currentEpisodeIndex]) else None
  }

  // The `disabled` condition of each button, and what enabling it guarantees.

  /** An enabled shuffle button means an episode is shown and there are others to pick. */
  predicate ShuffleDisabled(s: QueueState): (b: bool)
    ensures !b ==> HasCurrent(s) && |s.episodeList| >= 2
  {
    CurrentEpisode(s).None? || |s.episodeList| == 1
  }

  /** An enabled previous button leads to an episode that is shown. */
  predicate PreviousDisabled(s: QueueState): (b: bool)
    ensures !b ==> HasCurrent(s) && HasCurrent(PlayPrevius(s))
  {
    CurrentEpisode(s).None? || !HasPrevius(s)
  }

  /** Play is disabled exactly when the index names no episode. */
  predicate PlayDisabled(s: QueueState): (b: bool)
    ensures b <==> !HasCurrent(s)
  {
    CurrentEpisode(s).None?
  }

  /** An enabled next button leads to an episode that is shown, whatever the pick. */
  predicate NextDisabled(s: QueueState): (b: bool)
    ensures !b ==> HasCurrent(s) && forall r :: ValidPick(r, |s.episodeList|) ==> HasCurrent(PlayNext(s, r))
  {
    CurrentEpisode(s).None? || !HasNext(s)
  }

  /** Loop is disabled exactly when the index names no episode. */
  predicate LoopDisabled(s: QueueState): (b: bool)
    ensures b <==> !HasCurrent(s)
  {
    CurrentEpisode(s).None?
  }

  /** Play and loop are enabled exactly when an episode is shown; shuffle,
      previous and next need an episode too, and beyond it at least two queued
      episodes, a previous one and a next one respectively. */
  lemma EnabledControlsNeedAnEpisode(s: QueueState)
    ensures !PlayDisabled(s) <==> HasCurrent(s)
    ensures !LoopDisabled(s) <==> HasCurrent(s)
    ensures !ShuffleDisabled(s) <==> HasCurrent(s) && |s.episodeList| >= 2
    ensures !PreviousDisabled(s) <==> HasCurrent(s) && s.currentEpisodeIndex > 0
    ensures !NextDisabled(s) <==> HasCurrent(s) && HasNext(s)
  {
  }

  /** Clicking an enabled previous or next button always lands on an episode:
      previous on the one before, next on the one after or on the random pick. */
  lemma EnabledNavigationLandsOnEpisode(s: QueueState, r: int)
    requires ValidPick(r, |s.episodeList|)
    ensures !PreviousDisabled(s) ==>
      CurrentEpisode(PlayPrevius(s)) == Some(s.episodeList[s.currentEpisodeIndex - 1])
    ensures !NextDisabled(s) && !s.isShuffling ==>
      CurrentEpisode(PlayNext(s, r)) == Some(s.episodeList[s.currentEpisodeIndex + 1])
    ensures !NextDisabled(s) && s.isShuffling ==>
      CurrentEpisode(PlayNext(s, r)) == Some(s.episodeList[r])
  {
  }

  /** After a clear every control is disabled, even the next button while
      shuffling, where the store still reports a next episode. */
  lemma ClearDisablesEveryControl(s: QueueState)
    ensures var t := ClearPlayerState(s);
      CurrentEpisode(t) == None &&
      ShuffleDisabled(t) && PreviousDisabled(t) && PlayDisabled(t) && NextDisabled(t) && LoopDisabled(t) &&
      HasNext(t) == s.isShuffling
  {
  }

  /** After play(e) the episode is shown; shuffle and previous are disabled,
      next is enabled only while shuffling. */
  lemma PlayShowsTheEpisode(s: QueueState, e: Episode)
    ensures var t := Queue.Play(s, e);
      CurrentEpisode(t) == Some(e) &&
      !PlayDisabled(t) && !LoopDisabled(t) && ShuffleDisabled(t) && PreviousDisabled(t) &&
      (NextDisabled(t) <==> !s.isShuffling)
  {
  }

  // The end of an episode.

  /** handleEpisodeEnded: advance when there is a next episode, else clear. */
  function EpisodeEnded(s: QueueState, r: int): (t: QueueState)
    requires ValidPick(r, |s.episodeList|)
    ensures t.isPlaying == s.isPlaying && t.isLooping == s.isLooping && t.isShuffling == s.isShuffling
    ensures WellFormed(s) ==> WellFormed(t)
    ensures HasNext(s) ==> t.episodeList == s.episodeList
    ensures !HasNext(s) ==> t.episodeList == [] && CurrentEpisode(t) == None
  {
    if HasNext(s) then PlayNext(s, r) else ClearPlayerState(s)
  }

  /** `k` ended events in a row, with picks of 0 (used only when shuffling). */
  function EndedRepeatedly(s: QueueState, k: nat): QueueState
    decreases k
  {
    if k == 0 then s else EndedRepeatedly(EpisodeEnded(s, 0), k - 1)
  }

  /** Without shuffling, the remaining episodes are played in order, each for
      one ended event: after `k` events the queue stands `k` episodes later. */
  lemma {:induction false} EndedPlaysInOrder(s: QueueState, k: nat)
    requires !s.isShuffling && 0 <= s.currentEpisodeIndex
    requires s.currentEpisodeIndex + k < |s.episodeList|
    ensures EndedRepeatedly(s, k) == s.(currentEpisodeIndex := s.currentEpisodeIndex + k)
    decreases k
  {
    if k > 0 {
      EndedPlaysInOrder(EpisodeEnded(s, 0), k - 1);
    }
  }

  /** Without shuffling, the ended event that follows the last episode empties
      the queue, so the player shows nothing. */
  lemma {:induction false} EndedDrainsQueue(s: QueueState)
    requires !s.isShuffling && HasCurrent(s)
    ensures var t := EndedRepeatedly(s, |s.episodeList| - s.currentEpisodeIndex);
      t.episodeList == [] && CurrentEpisode(t) == None
    decreases |s.episodeList| - s.currentEpisodeIndex
  {
    var s' := EpisodeEnded(s, 0);
    if s.currentEpisodeIndex + 1 < |s.episodeList| {
      EndedDrainsQueue(s');
    }
  }

  // The audio element and the component's own state.

  /** How a seek arrives from the slider: one value or a range of them. */
  datatype SeekValue = Scalar(amount: int) | Range(amounts: seq<int>)

  /** The media element as the component sees it through its ref: whether it is
      mounted, whether it plays, and its position in whole seconds. */
  class AudioElement {
    var present: bool
    var playing: bool
    var currentTime: int

    constructor (present: bool)
      ensures this.present == present && !playing && currentTime == 0
    {
      this.present := present;
      playing := false;
      currentTime := 0;
    }

    method Play()
      modifies this
      ensures playing
      ensures present == old(present) && currentTime == old(currentTime)
    {
      playing := true;
    }

    method Pause()
      modifies this
      ensures !playing
      ensures present == old(present) && currentTime == old(currentTime)
    {
      playing := false;
    }
  }

  class Player {
    const store: PlayerContext.PlayerContextProvider
    const audio: AudioElement
    var progress: int

    constructor (store: PlayerContext.PlayerContextProvider, audio: AudioElement)
      ensures this.store == store && this.audio == audio && progress == 0
    {
      this.store := store;
      this.audio := audio;
      progress := 0;
    }

    /** The device plays exactly when the store says so, or there is no device. */
    predicate InSync()
      reads audio, store
    {
      audio.present ==> audio.playing == store.isPlaying
    }

    /** The effect run when `isPlaying` changes: play or pause a mounted device.
        A device already in the requested state is left as it is. */
    method OnIsPlayingChanged()
      modifies audio
      ensures InSync()
      ensures audio.present == old(audio.present) && audio.currentTime == old(audio.currentTime)
      ensures !audio.present ==> audio.playing == old(audio.playing)
      ensures old(InSync()) ==> audio.playing == old(audio.playing)
    {
      if !audio.present {
        return;
      }
      if store.isPlaying {
        audio.Play();
      } else {
        audio.Pause();
      }
    }

    /** On loaded metadata a mounted device is rewound to 0. */
    method SetupProgressListener()
      modifies audio
      ensures audio.present == old(audio.present) && audio.playing == old(audio.playing)
      ensures audio.currentTime == if audio.present then 0 else old(audio.currentTime)
    {
      if audio.present {
        audio.currentTime := 0;
      }
    }

    /** The `timeupdate` listener: the shown progress follows the device. */
    method OnTimeUpdate()
      modifies this
      ensures progress == if audio.present then audio.currentTime else old(progress)
    {
      if audio.present {
        progress := audio.currentTime;
      }
    }

    /** A scalar seek moves the device (when mounted) and the shown progress;
        a range changes nothing. */
    method HandleSeek(value: SeekValue)
      modifies this, audio
      ensures audio.present == old(audio.present) && audio.playing == old(audio.playing)
      ensures value.Scalar? ==> progress == value.amount
      ensures value.Scalar? ==> audio.currentTime == if audio.present then value.amount else old(audio.currentTime)
      ensures value.Range? ==> progress == old(progress) && audio.currentTime == old(audio.currentTime)
    {
      if value.Scalar? {
        if audio.present {
          audio.currentTime := value.amount;
        }
        progress := value.amount;
      }
    }

    /** `r` stands for the random pick playNext makes when shuffling. */
    method HandleEpisodeEnded(r: int)
      requires ValidPick(r, |store.episodeList|)
      modifies store
      ensures store.State() == EpisodeEnded(old(store.State()), r)
    {
      if store.HasNext() {
        store.PlayNext(r);
      } else {
        store.ClearPlayerState();
      }
    }

    /** The device reports that it started playing. */
    method OnDevicePlay()
      modifies store
      ensures store.State() == SetPlayingState(old(store.State()), true)
      ensures audio.playing ==> InSync()
    {
      store.SetPlayingState(true);
    }

    /** The device reports that it paused. */
    method OnDevicePause()
      modifies store
      ensures store.State() == SetPlayingState(old(store.State()), false)
      ensures !audio.playing ==> InSync()
    {
      store.SetPlayingState(false);
    }
  }

  /** A pause that starts at the device travels to the store and back to the
      device without changing the device a second time. */
  method DevicePauseSettles(p: Player)
    requires p.audio.present && !p.audio.playing
    modifies p.store, p.audio
    ensures !p.store.isPlaying && p.InSync()
    ensures p.audio.playing == old(p.audio.playing) && p.audio.currentTime == old(p.audio.currentTime)
  {
    p.OnDevicePause();
    p.OnIsPlayingChanged();
  }
}
