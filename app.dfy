/** The reduced store that src/pages/_app.tsx provides to the page tree: the
    episode list, the index and isPlaying, with play, togglePlay and
    setPlayingState. Each command agrees with the full store's command of the
    same name on these three fields.
 */
module App {
  import Queue

  datatype AppState = AppState(episodeList: seq<Queue.Episode>, currentEpisodeIndex: int, isPlaying: bool)

  /** The fields the reduced store shares with the full one. */
  function Shared(s: Queue.QueueState): AppState {
    AppState(s.episodeList, s.currentEpisodeIndex, s.isPlaying)
  }

  function Initial(): (a: AppState)
    ensures a == Shared(Queue.Initial())
    ensures a.episodeList == [] && a.currentEpisodeIndex == 0 && !a.isPlaying
  {
    AppState([], 0, false)
  }

  function Play(a: AppState, e: Queue.Episode): (b: AppState)
    ensures b.episodeList == [e] && 0 <= b.currentEpisodeIndex < 1 && b.episodeList[b.currentEpisodeIndex] == e && b.isPlaying
    ensures forall s: Queue.QueueState :: Shared(s) == a ==> Shared(Queue.Play(s, e)) == b
  {
    AppState([e], 0, true)
  }

  function TogglePlay(a: AppState): (b: AppState)
    ensures b.isPlaying != a.isPlaying && b == a.(isPlaying := b.isPlaying)
  {
    a.(isPlaying := !a.isPlaying)
  }

  function SetPlayingState(a: AppState, state: bool): (b: AppState)
    ensures b.isPlaying == state && b == a.(isPlaying := b.isPlaying)
  {
    a.(isPlaying := state)
  }

  /** A command of the reduced store. */
  datatype Action = PlayAction(episode: Queue.Episode) | TogglePlayAction | SetPlayingStateAction(state: bool)

  function Apply(a: AppState, act: Action): AppState {
    match act
    case PlayAction(e) => Play(a, e)
    case TogglePlayAction => TogglePlay(a)
    case SetPlayingStateAction(state) => SetPlayingState(a, state)
  }

  /** The same command on the full store. */
  function ApplyToQueue(s: Queue.QueueState, act: Action): Queue.QueueState {
    match act
    case PlayAction(e) => Queue.Play(s, e)
    case TogglePlayAction => Queue.TogglePlay(s)
    case SetPlayingStateAction(state) => Queue.SetPlayingState(s, state)
  }

  function Replay(a: AppState, acts: seq<Action>): AppState
    decreases |acts|
  {
    if acts == [] then a else Replay(Apply(a, acts[0]), acts[1..])
  }

  function ReplayOnQueue(s: Queue.QueueState, acts: seq<Action>): Queue.QueueState
    decreases |acts|
  {
    if acts == [] then s else ReplayOnQueue(ApplyToQueue(s, acts[0]), acts[1..])
  }

  /** Any run of play, togglePlay and setPlayingState leaves the two stores
      with the same list, index and isPlaying, from any state on which they
      agree. */
  lemma {:induction false} AgreesWithPlayerContext(s: Queue.QueueState, acts: seq<Action>)
    ensures Shared(ReplayOnQueue(s, acts)) == Replay(Shared(s), acts)
    decreases |acts|
  {
    if acts != [] {
      AgreesWithPlayerContext(ApplyToQueue(s, acts[0]), acts[1..]);
    }
  }

  /** In particular the two stores agree from their initial states on. */
  lemma AgreesFromInitialStates(acts: seq<Action>)
    ensures Shared(ReplayOnQueue(Queue.Initial(), acts)) == Replay(Initial(), acts)
  {
    AgreesWithPlayerContext(Queue.Initial(), acts);
  }

  /** The store object of the App component. */
  class AppStore {
    var episodeList: seq<Queue.Episode>
    var currentEpisodeIndex: int
    var isPlaying: bool

    function State(): AppState
      reads this
    {
      AppState(episodeList, currentEpisodeIndex, isPlaying)
    }

    constructor ()
      ensures State() == Initial()
    {
      episodeList := [];
      currentEpisodeIndex := 0;
      isPlaying := false;
    }

    method Play(episode: Queue.Episode)
      modifies this
      ensures State() == Apply(old(State()), PlayAction(episode))
    {
      episodeList := [episode];
      currentEpisodeIndex := 0;
      isPlaying := true;
    }

    method TogglePlay()
      modifies this
      ensures State() == Apply(old(State()), TogglePlayAction)
    {
      isPlaying := !isPlaying;
    }

    method SetPlayingState(state: bool)
      modifies this
      ensures State() == Apply(old(State()), SetPlayingStateAction(state))
    {
      isPlaying := state;
    }
  }
}
