# Podcast player queue, modelled in Dafny

This project models the playback queue of the podcastr web player and the
decision logic of the Player component that drives the audio element from it.

- `queue.dfy`, module `Queue`: the five fields of the player store as the
  value `QueueState` (episode list, current index, `isPlaying`, `isLooping`,
  `isShuffling`). Every store command is a function from the state before it
  to the state after it. `hasNext` and `hasPrevius` are predicates on the
  state. `WellFormed` says the index is valid for a non-empty list and 0 for
  the empty one. Lemmas cover runs of `playNext`/`playPrevius` and the
  end-to-end walk through a queue.
- `player_context.dfy`, module `PlayerContext`: the store itself, the class
  `PlayerContextProvider`. Its fields are rewritten in place by one method per
  command. Each method's postcondition ties the new fields to the `Queue`
  function of the same name applied to the old fields.
- `player.dfy`, module `Player`: what the Player component decides.
  - Pure parts: the shown episode, the five button `disabled` conditions, and
    the end-of-episode policy (`EpisodeEnded`).
  - Imperative parts: the class `AudioElement` stands for the media element
    behind the ref (mounted or not, playing or not, position in seconds). The
    class `Player` holds the store, the element and the `progress` value. It
    has the `isPlaying` effect, the loaded-metadata reset, the `timeupdate`
    listener, the seek handler, the ended handler, and the device's
    play/pause notifications.
- `app.dfy`, module `App`: the reduced store that the App component provides.
  It has the list, the index and `isPlaying`, with `play`, `togglePlay` and
  `setPlayingState`. A lemma shows it agrees with the full store on those
  three fields over any run of these commands.

The random pick of `playNext` in shuffle mode is a parameter `r`. It is
constrained by `ValidPick(r, n)`: `0 <= r < n`, or `r == 0` for an empty
list, which is what `Math.floor(Math.random() * n)` yields.

The model follows the code as written:
- `playList` does not check its index. The queue stays well formed exactly
  when the index is valid (`Queue.PlayList`).
- `clearPlayerState` keeps all three flags. So afterwards `hasNext` equals
  `isShuffling`, and a cleared queue can still be playing
  (`Queue.ClearKeepsStaleFlags`).
- `playPrevius` ignores shuffle mode.

## Model

| member | source | states |
|---|---|---|
| Queue.Initial | src/contexts/PlayerContext.tsx:38-42 | the initial queue is empty, well formed, shows no episode, has all three flags off and has neither a next nor a previous episode |
| Queue.HasPrevius | src/contexts/PlayerContext.tsx:72 | hasPrevius: when an episode is current, the one before it exists; in a well-formed queue it holds exactly when an episode is current and it is not the first |
| Queue.HasNext | src/contexts/PlayerContext.tsx:73 | hasNext always holds while shuffling; otherwise, from a non-negative index, exactly when the episode after the current one exists, which in a well-formed queue means a non-empty list whose current episode is not the last |
| PlayerContext.PlayerContextProvider.constructor | src/contexts/PlayerContext.tsx:38-42 | a new store holds the initial queue |
| Queue.Play | src/contexts/PlayerContext.tsx:44-48 | play(e) leaves a well-formed one-episode queue whose current episode is e and which is playing, whatever came before; loop and shuffle are kept; there is no previous episode, and a next one only while shuffling |
| PlayerContext.PlayerContextProvider.Play | src/contexts/PlayerContext.tsx:44-48 | the store's fields afterwards are Queue.Play of its fields before |
| Queue.PlayList | src/contexts/PlayerContext.tsx:50-54 | playList installs the list and index unchecked and starts playing; a current episode exists iff 0 <= index < length; the queue is well formed iff the index is valid (or the list is empty and the index 0); loop and shuffle are kept |
| Queue.PlayListWithValidIndex | src/contexts/PlayerContext.tsx:50-54 | with a valid index, playList leaves a well-formed queue whose current episode is list[index] |
| PlayerContext.PlayerContextProvider.PlayList | src/contexts/PlayerContext.tsx:50-54 | the store's fields afterwards are Queue.PlayList of its fields before |
| Queue.TogglePlay | src/contexts/PlayerContext.tsx:56-58 | isPlaying is negated and nothing else changes |
| Queue.ToggleLoop | src/contexts/PlayerContext.tsx:60-62 | isLooping is negated and nothing else changes |
| Queue.ToggleShuffle | src/contexts/PlayerContext.tsx:64-66 | isShuffling is negated and nothing else changes |
| Queue.TogglesAreInvolutions | src/contexts/PlayerContext.tsx:56-66 | each toggle applied twice restores the whole state |
| Queue.SetPlayingState | src/contexts/PlayerContext.tsx:68-70 | isPlaying becomes the given value and nothing else changes |
| PlayerContext.PlayerContextProvider.TogglePlay | src/contexts/PlayerContext.tsx:56-58 | the store's fields afterwards are Queue.TogglePlay of its fields before |
| PlayerContext.PlayerContextProvider.ToggleLoop | src/contexts/PlayerContext.tsx:60-62 | the store's fields afterwards are Queue.ToggleLoop of its fields before |
| PlayerContext.PlayerContextProvider.ToggleShuffle | src/contexts/PlayerContext.tsx:64-66 | the store's fields afterwards are Queue.ToggleShuffle of its fields before |
| PlayerContext.PlayerContextProvider.SetPlayingState | src/contexts/PlayerContext.tsx:68-70 | the store's fields afterwards are Queue.SetPlayingState of its fields before |
| Queue.PlayNext | src/contexts/PlayerContext.tsx:73-84 | playNext changes only the index and keeps a well-formed queue well formed; when shuffling the index is a valid pick for the list; otherwise the index moves by at most one, forward, and it moves exactly when hasNext holds |
| Queue.ShuffleReachesEveryIndex | src/contexts/PlayerContext.tsx:73-79 | while shuffling hasNext always holds and every index of the list is the result of some pick |
| PlayerContext.PlayerContextProvider.PlayNext | src/contexts/PlayerContext.tsx:75-84 | the store's fields afterwards are Queue.PlayNext of its fields before, for the given pick |
| Queue.PlayPrevius | src/contexts/PlayerContext.tsx:86-90 | playPrevius changes only the index, whatever the shuffle flag; the index moves exactly when hasPrevius holds, and then down by one; it never becomes negative and a well-formed queue stays well formed |
| PlayerContext.PlayerContextProvider.PlayPrevius | src/contexts/PlayerContext.tsx:86-90 | the store's fields afterwards are Queue.PlayPrevius of its fields before |
| Queue.NextAndPreviusAreInverse | src/contexts/PlayerContext.tsx:72-90 | without shuffling, playPrevius undoes a possible playNext and playNext undoes a possible playPrevius |
| Queue.ClearPlayerState | src/contexts/PlayerContext.tsx:92-95 | clear leaves a well-formed empty queue with no current episode, keeps all three flags, has no previous episode, and has a next one exactly when shuffling |
| Queue.ClearKeepsStaleFlags | src/contexts/PlayerContext.tsx:72-95 | a cleared queue can still be playing and still report a next episode |
| PlayerContext.PlayerContextProvider.ClearPlayerState | src/contexts/PlayerContext.tsx:92-95 | the store's fields afterwards are Queue.ClearPlayerState of its fields before |
| Queue.Step | src/contexts/PlayerContext.tsx:75-90 | one playNext or playPrevius changes only the index and preserves well-formedness |
| Queue.Navigate | src/contexts/PlayerContext.tsx:75-90 | any run of playNext/playPrevius leaves the list and the three flags as they were |
| Queue.NavigationKeepsIndexInRange | src/contexts/PlayerContext.tsx:75-90 | any run of playNext/playPrevius from a well-formed queue ends well formed; for a non-empty list the index stays in [0, length) |
| Queue.AdvanceSequentially | src/contexts/PlayerContext.tsx:73-82 | without shuffling, k playNext calls from a valid index reach min(index + k, length - 1) |
| Queue.RetreatSequentially | src/contexts/PlayerContext.tsx:86-90 | k playPrevius calls from a non-negative index reach max(index - k, 0), shuffling or not |
| Queue.ThreeEpisodeWalk | src/contexts/PlayerContext.tsx:73-84 | with three episodes from index 0 and no shuffling, playNext gives 1, then 2, after which hasNext is false and playNext changes nothing |
| Player.CurrentEpisode | src/components/Player/index.tsx:75 | the shown episode exists exactly when the index is in range, and then it is the list's entry at the index |
| Player.ShuffleDisabled | src/components/Player/index.tsx:139 | an enabled shuffle button means an episode is shown and at least two are queued |
| Player.PreviousDisabled | src/components/Player/index.tsx:145 | an enabled previous button means an episode is shown and playPrevius leads to a shown episode |
| Player.PlayDisabled | src/components/Player/index.tsx:148 | the play button is disabled exactly when the index names no episode |
| Player.NextDisabled | src/components/Player/index.tsx:154 | an enabled next button means an episode is shown and playNext leads to a shown episode for every possible pick |
| Player.LoopDisabled | src/components/Player/index.tsx:159 | the loop button is disabled exactly when the index names no episode |
| Player.EnabledControlsNeedAnEpisode | src/components/Player/index.tsx:139-159 | of the five `disabled` conditions: PlayDisabled and LoopDisabled are false exactly when an episode is shown; ShuffleDisabled exactly when one is shown and at least two are queued; PreviousDisabled exactly when one is shown and the index is above 0; NextDisabled exactly when one is shown and hasNext holds |
| Player.EnabledNavigationLandsOnEpisode | src/components/Player/index.tsx:145-154 | clicking an enabled previous button shows the episode before; an enabled next button shows the one after, or the picked one while shuffling |
| Player.ClearDisablesEveryControl | src/components/Player/index.tsx:139-159 | after a clear no episode is shown and ShuffleDisabled, PreviousDisabled, PlayDisabled, NextDisabled and LoopDisabled all hold, NextDisabled even while shuffling, where hasNext still holds |
| Player.PlayShowsTheEpisode | src/components/Player/index.tsx:139-159 | after play(e) episode e is shown, play and loop are enabled, shuffle and previous are disabled, and next is disabled iff not shuffling |
| Player.EpisodeEnded | src/components/Player/index.tsx:67-73 | the end of an episode keeps the flags and well-formedness; with hasNext the list is kept, without it the list is emptied and no episode is shown |
| Player.EndedPlaysInOrder | src/components/Player/index.tsx:67-73 | without shuffling, k ended events move the queue exactly k episodes forward while episodes remain |
| Player.EndedDrainsQueue | src/components/Player/index.tsx:67-73 | without shuffling, the ended event after the last remaining episode empties the queue and nothing is shown |
| Player.Player.HandleEpisodeEnded | src/components/Player/index.tsx:67-73 | the store afterwards is EpisodeEnded of the store before: playNext once when hasNext, clear otherwise |
| Player.Player.constructor | src/components/Player/index.tsx:13-14 | a new Player holds the given store and audio element, and its progress starts at 0 |
| Player.Player.OnIsPlayingChanged | src/components/Player/index.tsx:33-43 | afterwards a mounted device plays iff the store is playing; without a device nothing changes; a device already in the requested state is left as it is |
| Player.Player.SetupProgressListener | src/components/Player/index.tsx:45-48 | a mounted device is rewound to 0, nothing else changes |
| Player.Player.OnTimeUpdate | src/components/Player/index.tsx:50-54 | while a device is mounted, the shown progress becomes its position |
| Player.Player.HandleSeek | src/components/Player/index.tsx:58-65 | a scalar seek sets progress, and a mounted device's position, to the amount; a range changes nothing |
| Player.Player.OnDevicePlay | src/components/Player/index.tsx:130 | the device's play notification sets isPlaying to true and leaves the device in sync if it plays |
| Player.Player.OnDevicePause | src/components/Player/index.tsx:131 | the device's pause notification sets isPlaying to false and leaves the device in sync if it is paused |
| Player.DevicePauseSettles | src/components/Player/index.tsx:33-43 | a pause that starts at the device reaches the store, and the effect that follows leaves the device untouched |
| Player.AudioElement.Play | src/components/Player/index.tsx:39 | the device plays afterwards; its position is kept |
| Player.AudioElement.Pause | src/components/Player/index.tsx:41 | the device is paused afterwards; its position is kept |
| App.Initial | src/pages/_app.tsx:21-23 | the reduced store starts with an empty list, index 0 and not playing, the full store's initial state on these fields |
| App.Play | src/pages/_app.tsx:25-30 | play(e) gives the one-episode list [e] with e current and playing, and agrees with the full store's play on the shared fields from any agreeing state |
| App.TogglePlay | src/pages/_app.tsx:32-34 | isPlaying is negated; list and index are kept |
| App.SetPlayingState | src/pages/_app.tsx:36-38 | isPlaying becomes the given value; nothing else changes |
| App.AgreesWithPlayerContext | src/pages/_app.tsx:21-38 | any run of play, togglePlay and setPlayingState gives the reduced store the list, index and isPlaying that the full store gets, from any states on which they agree |
| App.AgreesFromInitialStates | src/pages/_app.tsx:21-38 | from the two initial states, any run of play, togglePlay and setPlayingState leaves the reduced store equal to the full store's list, index and isPlaying |
| App.AppStore.constructor | src/pages/_app.tsx:21-23 | a new reduced store holds App.Initial |
| App.AppStore.Play | src/pages/_app.tsx:25-30 | the fields afterwards are App.Play of the fields before |
| App.AppStore.TogglePlay | src/pages/_app.tsx:32-34 | the fields afterwards are App.TogglePlay of the fields before |
| App.AppStore.SetPlayingState | src/pages/_app.tsx:36-38 | the fields afterwards are App.SetPlayingState of the fields before |

## Left out

- Player.Player.OnTimeUpdate: positions are whole seconds, so the rounding down of the device's fractional `currentTime` is not modelled.
- Randomness: `Math.random` is replaced by the pick parameter `r`. The model states which picks are possible, not that they are uniform.
- Registering the `timeupdate` listener, and listeners piling up over several loads, are browser event wiring. Only the listener's effect is modelled.
- `autoPlay` and the native `loop` attribute are behaviour of the media element. `isLooping` is only stored and toggled; looping a track is left to the device.
- Whether the audio element is mounted is a field of its own (`AudioElement.present`). The model does not tie it to an episode being shown, since the ref is set by React.
- A play request the browser refuses is not handled by the code, so it is not modelled.
- React's hook machinery is not modelled: state batching, closures over render-time values, effect scheduling, and context creation. Each command is one atomic update of the fields.
- Rendering is not modelled: the markup, images, slider, styles and icons, and the duration formatter `convertDurationToTimeString`.
- The App component writes a log line in `play`. That is output only.
- The model composes `Player.Player` with the full store `PlayerContextProvider`. As `src/pages/_app.tsx` is written, the Player is mounted under the App component's own provider, whose value lacks `hasNext`, `hasPrevius`, `playNext`, `playPrevius`, `clearPlayerState`, `toggleShuffle`, `toggleLoop`, `isLooping` and `isShuffling`; there the Player would see those fields as undefined. That mounting is not modelled.
