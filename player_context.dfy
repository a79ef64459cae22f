/** The store of src/contexts/PlayerContext.tsx: one object whose five fields
    the commands overwrite in place. Each command is specified by the function
    of the same name in module Queue; State() is the value those functions
    take and return.
 */
module PlayerContext {
  import opened Queue

  class PlayerContextProvider {
    var episodeList: seq<Episode>
    var currentEpisodeIndex: int
    var isPlaying: bool
    var isLooping: bool
    var isShuffling: bool

    /** The five fields as one value. */
    function State(): QueueState
      reads this
    {
      QueueState(episodeList, currentEpisodeIndex, isPlaying, isLooping, isShuffling)
    }

    /** Empty list, index 0, all three flags off. */
    constructor ()
      ensures State() == Initial()
    {
      episodeList := [];
      currentEpisodeIndex := 0;
      isPlaying := false;
      isLooping := false;
      isShuffling := false;
    }

    function HasPrevius(): bool
      reads this
    {
      Queue.HasPrevius(State())
    }

    function HasNext(): bool
      reads this
    {
      Queue.HasNext(State())
    }

    method Play(episode: Episode)
      modifies this
      ensures State() == Queue.Play(old(State()), episode)
    {
      episodeList := [episode];
      currentEpisodeIndex := 0;
      isPlaying := true;
    }

    method PlayList(list: seq<Episode>, index: int)
      modifies this
      ensures State() == Queue.PlayList(old(State()), list, index)
    {
      episodeList := list;
      currentEpisodeIndex := index;
      isPlaying := true;
    }

    method TogglePlay()
      modifies this
      ensures State() == Queue.TogglePlay(old(State()))
    {
      isPlaying := !isPlaying;
    }

    method ToggleLoop()
      modifies this
      ensures State() == Queue.ToggleLoop(old(State()))
    {
      isLooping := !isLooping;
    }

    method ToggleShuffle()
      modifies this
      ensures State() == Queue.ToggleShuffle(old(State()))
    {
      isShuffling := !isShuffling;
    }

    method SetPlayingState(state: bool)
      modifies this
      ensures State() == Queue.SetPlayingState(old(State()), state)
    {
      isPlaying := state;
    }

    /** `r` stands for `Math.floor(Math.random() * episodeList.length)`. */
    method PlayNext(r: int)
      requires ValidPick(r, |episodeList|)
      modifies this
      ensures State() == Queue.PlayNext(old(State()), r)
    {
      if isShuffling {
        currentEpisodeIndex := r;
      } else if HasNext() {
        currentEpisodeIndex := currentEpisodeIndex + 1;
      }
    }

    method PlayPrevius()
      modifies this
      ensures State() == Queue.PlayPrevius(old(State()))
    {
      if HasPrevius() {
        currentEpisodeIndex := currentEpisodeIndex - 1;
      }
    }

    method ClearPlayerState()
      modifies this
      ensures State() == Queue.ClearPlayerState(old(State()))
    {
      episodeList := [];
      currentEpisodeIndex := 0;
    }
  }
}
