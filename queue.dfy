/** The playback queue of src/contexts/PlayerContext.tsx as values.

    Every command of the store is a function from the queue state before it
    to the queue state after it; the store class in module PlayerContext is
    specified by these functions, and the lemmas below state what the store
    promises over whole runs of commands.
 */
module Queue {

  /** An episode descriptor; no field is validated. */
  datatype Episode = Episode(title: string, members: string, thumbnail: string, duration: int, url: string)

  datatype Option<T> = None | Some(value: T)

  /** The five fields of the store. */
  datatype QueueState = QueueState(
    episodeList: seq<Episode>,
    currentEpisodeIndex: int,
    isPlaying: bool,
    isLooping: bool,
    isShuffling: bool)

  /** The index names an episode of the list. */
  predicate HasCurrent(s: QueueState) {
    0 <= s.currentEpisodeIndex < |s.episodeList|
  }

  /** The index is valid for a non-empty list, and 0 for the empty one. */
  predicate WellFormed(s: QueueState) {
    if s.episodeList == [] then s.currentEpisodeIndex == 0 else HasCurrent(s)
  }

  /** The values `Math.floor(Math.random() * n)` can take. */
  predicate ValidPick(r: int, n: int) {
    if n <= 0 then r == 0 else 0 <= r < n
  }

  /** The state right after the provider mounts. */
  function Initial(): (s: QueueState)
    ensures WellFormed(s) && !HasCurrent(s)
    ensures !s.isPlaying && !s.isLooping && !s.isShuffling
    ensures !HasNext(s) && !HasPrevius(s)
  {
    QueueState([], 0, false, false, false)
  }

  // Derived values, recomputed from the fields on every render.

  /** There is an episode before the current one: in a well-formed queue,
      exactly when an episode is current and it is not the first. */
  predicate HasPrevius(s: QueueState): (b: bool)
    ensures b && HasCurrent(s) ==> 0 <= s.currentEpisodeIndex - 1 < |s.episodeList|
    ensures WellFormed(s) ==> (b <==> HasCurrent(s) && s.currentEpisodeIndex != 0)
  {
    s.currentEpisodeIndex > 0
  }

  /** There is a next episode: always while shuffling; otherwise, in a
      well-formed queue, exactly when the current episode is not the last. */
  predicate HasNext(s: QueueState): (b: bool)
    ensures s.isShuffling ==> b
    ensures !s.isShuffling && 0 <= s.currentEpisodeIndex ==>
      (b <==> 0 <= s.currentEpisodeIndex + 1 < |s.episodeList|)
    ensures WellFormed(s) && !s.isShuffling ==>
      (b <==> s.episodeList != [] && s.currentEpisodeIndex != |s.episodeList| - 1)
  {
    s.isShuffling || s.currentEpisodeIndex + 1 < |s.episodeList|
  }

  // Commands.

  /** Replace the queue by the one episode `e` and start playing it. */
  function Play(s: QueueState, e: Episode): (t: QueueState)
    ensures WellFormed(t) && HasCurrent(t)
    ensures t.episodeList == [e] && t.episodeList[t.currentEpisodeIndex] == e
    ensures t.isPlaying
    ensures t.isLooping == s.isLooping && t.isShuffling == s.isShuffling
    ensures !HasPrevius(t) && HasNext(t) == s.isShuffling
  {
    s.(episodeList := [e], currentEpisodeIndex := 0, isPlaying := true)
  }

  /** Replace the queue by `list`, positioned at `index`; the index is not checked. */
  function PlayList(s: QueueState, list: seq<Episode>, index: int): (t: QueueState)
    ensures t.episodeList == list && t.currentEpisodeIndex == index && t.isPlaying
    ensures t.isLooping == s.isLooping && t.isShuffling == s.isShuffling
    ensures HasCurrent(t) <==> 0 <= index < |list|
    ensures WellFormed(t) <==> (0 <= index < |list| || (list == [] && index == 0))
  {
    s.(episodeList := list, currentEpisodeIndex := index, isPlaying := true)
  }

  function TogglePlay(s: QueueState): (t: QueueState)
    ensures t.isPlaying != s.isPlaying
    ensures t == s.(isPlaying := t.isPlaying)
  {
    s.(isPlaying := !s.isPlaying)
  }

  function ToggleLoop(s: QueueState): (t: QueueState)
    ensures t.isLooping != s.isLooping
    ensures t == s.(isLooping := t.isLooping)
  {
    s.(isLooping := !s.isLooping)
  }

  function ToggleShuffle(s: QueueState): (t: QueueState)
    ensures t.isShuffling != s.isShuffling
    ensures t == s.(isShuffling := t.isShuffling)
  {
    s.(isShuffling := !s.isShuffling)
  }

  function SetPlayingState(s: QueueState, state: bool): (t: QueueState)
    ensures t.isPlaying == state
    ensures t == s.(isPlaying := t.isPlaying)
  {
    s.(isPlaying := state)
  }

  /** Advance: to the random pick `r` when shuffling, else one step forward if
      there is a next episode, else stay. */
  function PlayNext(s: QueueState, r: int): (t: QueueState)
    requires ValidPick(r, |s.episodeList|)
    ensures t == s.(currentEpisodeIndex := t.currentEpisodeIndex)
    ensures WellFormed(s) ==> WellFormed(t)
    ensures s.isShuffling ==> ValidPick(t.currentEpisodeIndex, |s.episodeList|)
    ensures !s.isShuffling ==> s.currentEpisodeIndex <= t.currentEpisodeIndex <= s.currentEpisodeIndex + 1
    ensures !s.isShuffling ==> (t.currentEpisodeIndex != s.currentEpisodeIndex <==> HasNext(s))
  {
    if s.isShuffling then s.(currentEpisodeIndex := r)
    else if HasNext(s) then s.(currentEpisodeIndex := s.currentEpisodeIndex + 1)
    else s
  }

  /** Step back by one if there is a previous episode; shuffling plays no part. */
  function PlayPrevius(s: QueueState): (t: QueueState)
    ensures t == s.(currentEpisodeIndex := t.currentEpisodeIndex)
    ensures WellFormed(s) ==> WellFormed(t)
    ensures s.currentEpisodeIndex >= 0 ==> t.currentEpisodeIndex >= 0
    ensures t.currentEpisodeIndex != s.currentEpisodeIndex <==> HasPrevius(s)
    ensures HasPrevius(s) ==> t.currentEpisodeIndex == s.currentEpisodeIndex - 1
  {
    if HasPrevius(s) then s.(currentEpisodeIndex := s.currentEpisodeIndex - 1) else s
  }

  /** Empty the queue; the three flags are kept. */
  function ClearPlayerState(s: QueueState): (t: QueueState)
    ensures WellFormed(t) && !HasCurrent(t) && t.episodeList == []
    ensures t.isPlaying == s.isPlaying && t.isLooping == s.isLooping && t.isShuffling == s.isShuffling
    ensures !HasPrevius(t) && HasNext(t) == s.isShuffling
  {
    s.(episodeList := [], currentEpisodeIndex := 0)
  }

  // Runs of navigation commands.

  /** One navigation command: playNext with its random pick, or playPrevius. */
  datatype Nav = Next(pick: int) | Previous

  predicate PicksValid(steps: seq<Nav>, n: int) {
    forall k :: 0 <= k < |steps| && steps[k].Next? ==> ValidPick(steps[k].pick, n)
  }

  function Step(s: QueueState, step: Nav): (t: QueueState)
    requires step.Next? ==> ValidPick(step.pick, |s.episodeList|)
    ensures t == s.(currentEpisodeIndex := t.currentEpisodeIndex)
    ensures WellFormed(s) ==> WellFormed(t)
  {
    match step
    case Next(r) => PlayNext(s, r)
    case Previous => PlayPrevius(s)
  }

  /** Apply `steps` in order. Navigation never changes the list or a flag. */
  function Navigate(s: QueueState, steps: seq<Nav>): (t: QueueState)
    requires PicksValid(steps, |s.episodeList|)
    ensures t == s.(currentEpisodeIndex := t.currentEpisodeIndex)
    decreases |steps|
  {
    if steps == [] then s
    else
      var s' := Step(s, steps[0]);
      Navigate(s', steps[1..])
  }

  /** Any run of playNext/playPrevius keeps the index of a well-formed queue in
      range; in particular it stays in [0, |list|) for a non-empty list. */
  lemma {:induction false} NavigationKeepsIndexInRange(s: QueueState, steps: seq<Nav>)
    requires WellFormed(s) && PicksValid(steps, |s.episodeList|)
    ensures WellFormed(Navigate(s, steps))
    ensures s.episodeList != [] ==> HasCurrent(Navigate(s, steps))
    decreases |steps|
  {
    if steps != [] {
      var s' := Step(s, steps[0]);
      NavigationKeepsIndexInRange(s', steps[1..]);
    }
  }

  /** `k` copies of `step`. */
  function Repeat(step: Nav, k: nat): (steps: seq<Nav>)
    ensures |steps| == k
    ensures forall i :: 0 <= i < k ==> steps[i] == step
  {
    if k == 0 then [] else [step] + Repeat(step, k - 1)
  }

  function Min(a: int, b: int): int { if a <= b then a else b }

  function Max(a: int, b: int): int { if a >= b then a else b }

  /** Without shuffling, `k` playNext calls move the index forward one episode
      at a time and stop at the last episode. */
  lemma {:induction false} AdvanceSequentially(s: QueueState, k: nat)
    requires !s.isShuffling && HasCurrent(s)
    ensures PicksValid(Repeat(Next(0), k), |s.episodeList|)
    ensures Navigate(s, Repeat(Next(0), k)).currentEpisodeIndex
         == Min(s.currentEpisodeIndex + k, |s.episodeList| - 1)
    decreases k
  {
    if k > 0 {
      var s' := PlayNext(s, 0);
      assert Repeat(Next(0), k)[1..] == Repeat(Next(0), k - 1);
      AdvanceSequentially(s', k - 1);
    }
  }

  /** `k` playPrevius calls move the index back one episode at a time and stop
      at the first, whether or not the queue is shuffling. */
  lemma {:induction false} RetreatSequentially(s: QueueState, k: nat)
    requires s.currentEpisodeIndex >= 0
    ensures PicksValid(Repeat(Previous, k), |s.episodeList|)
    ensures Navigate(s, Repeat(Previous, k)).currentEpisodeIndex
         == Max(s.currentEpisodeIndex - k, 0)
    decreases k
  {
    if k > 0 {
      var s' := PlayPrevius(s);
      assert Repeat(Previous, k)[1..] == Repeat(Previous, k - 1);
      RetreatSequentially(s', k - 1);
    }
  }

  /** Three episodes, not shuffling, starting at the first: playNext reaches
      index 1, then 2, and a third call leaves it at 2 with no next episode. */
  lemma ThreeEpisodeWalk(s: QueueState)
    requires |s.episodeList| == 3 && s.currentEpisodeIndex == 0 && !s.isShuffling
    ensures PlayNext(s, 0).currentEpisodeIndex == 1
    ensures PlayNext(PlayNext(s, 0), 0).currentEpisodeIndex == 2
    ensures !HasNext(PlayNext(PlayNext(s, 0), 0))
    ensures PlayNext(PlayNext(PlayNext(s, 0), 0), 0) == PlayNext(PlayNext(s, 0), 0)
  {
  }

  /** While shuffling there is always a next episode, and every index of the
      list is the outcome of some pick. */
  lemma ShuffleReachesEveryIndex(s: QueueState)
    requires s.isShuffling
    ensures HasNext(s)
    ensures forall j :: 0 <= j < |s.episodeList| ==> PlayNext(s, j).currentEpisodeIndex == j
  {
  }

  /** Without shuffling, playPrevius undoes playNext and playNext undoes
      playPrevius whenever the step is possible. */
  lemma NextAndPreviusAreInverse(s: QueueState)
    requires !s.isShuffling && s.currentEpisodeIndex >= 0
    ensures HasNext(s) ==> PlayPrevius(PlayNext(s, 0)) == s
    ensures HasPrevius(s) && s.currentEpisodeIndex < |s.episodeList| ==> PlayNext(PlayPrevius(s), 0) == s
  {
  }

  /** Each toggle applied twice restores the state. */
  lemma TogglesAreInvolutions(s: QueueState)
    ensures TogglePlay(TogglePlay(s)) == s
    ensures ToggleLoop(ToggleLoop(s)) == s
    ensures ToggleShuffle(ToggleShuffle(s)) == s
  {
  }

  /** With a valid index, playList leaves a well-formed queue whose current
      episode is the one at that index of the list. */
  lemma PlayListWithValidIndex(s: QueueState, list: seq<Episode>, index: int)
    requires 0 <= index < |list|
    ensures var t := PlayList(s, list, index);
      WellFormed(t) && HasCurrent(t) && t.episodeList[t.currentEpisodeIndex] == list[index]
  {
  }

  /** The store does not keep "playing only with a non-empty queue": clearing a
      playing queue leaves it playing, and shuffling leaves a next episode. */
  lemma ClearKeepsStaleFlags(e: Episode)
    ensures var t := ClearPlayerState(ToggleShuffle(Play(Initial(), e)));
      t.episodeList == [] && t.isPlaying && HasNext(t)
  {
  }
}
