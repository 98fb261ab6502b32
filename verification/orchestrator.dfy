/**
 * The per-screen player orchestrator: `FirstLayoutViewModel` and
 * `SecondLayoutViewModel`, one generic model parameterised by the screen's
 * stream table.
 *
 * The view model owns one handle per stream, keeps the buffering list, and
 * reports to the screen through an append-only log of emissions. Calls into
 * the decoder SDK and into the views are recorded, in order, as effects.
 * A handle's decoder state is whatever the last delivered state callback said.
 */
module Orchestrator {
  import opened Wrappers
  import opened Streams
  import opened PlayerEvents
  import opened Buffering
  import Decimal

  /**
   * What distinguishes the screens: the stream table, and whether `release`
   * also unbinds the surface (the first layout does, the second does not).
   */
  datatype Config = Config(streams: seq<StreamSlot>, detachesSurfaceOnRelease: bool)

  function FirstLayout(): (c: Config)
    ensures |c.streams| == 3 && c.detachesSurfaceOnRelease
  {
    Config(FirstLayoutStreams(), true)
  }

  function SecondLayout(): (c: Config)
    ensures |c.streams| == 2 && !c.detachesSurfaceOnRelease
  {
    Config(SecondLayoutStreams(), false)
  }

  /**
   * `PlayerModel`: one decoder instance. `stream` is the table entry its
   * listener was created for; `width` and `height` start at 0.
   */
  datatype PlayerHandle = PlayerHandle(index: nat, stream: StreamSlot, state: PlayerState, width: nat, height: nat)

  /** `PlayerViewModel` / `PlayerUIModel`: a view, its container and its surface, identified by `index`. */
  datatype PlayerView = PlayerView(index: nat)

  /** What the view model posts to the screen. */
  datatype Emission =
    | SizeChanged(playerIndex: nat)
    | BufferingChanged(states: seq<BufferingEntry>)
    | PlayingChanged(playing: bool)
    | ErrorOccurred(error: Error)

  /** Calls into a decoder instance. */
  datatype SdkCall =
    | AddListener
    | SetSurface(surface: Option<nat>)
    | Load(uri: string)
    | Play
    | Pause
    | SetAutoMaxQuality(quality: Quality)
    | RemoveListener
    | Release

  /** A decoder call on the player with the given index, or a `zoomToFit` on a view's container. */
  datatype Effect =
    | PlayerCall(player: nat, call: SdkCall)
    | ZoomToFit(container: nat, videoWidth: nat, videoHeight: nat)

  datatype ViewModel = ViewModel(
    config: Config,
    players: seq<PlayerHandle>,
    bufferingStates: seq<BufferingEntry>,
    emitted: seq<Emission>,
    effects: seq<Effect>)

  /** A view model as constructed: no players, no buffering entries, nothing posted. */
  function NewViewModel(config: Config): (vm: ViewModel)
    ensures vm.config == config && |vm.players| == 0 && |vm.bufferingStates| == 0
    ensures |vm.emitted| == 0 && |vm.effects| == 0
  {
    ViewModel(config, [], [], [], [])
  }

  // ---------------------------------------------------------------------------
  // The playing flag

  /** `playerSet.all { it.player.state != PLAYING }`. */
  predicate NonePlaying(players: seq<PlayerHandle>)
  {
    forall i :: 0 <= i < |players| ==> players[i].state != Playing
  }

  /** The last playing value posted, if any. */
  function LastPlaying(emitted: seq<Emission>): (r: Option<bool>)
    ensures r.None? <==> forall i :: 0 <= i < |emitted| ==> !emitted[i].PlayingChanged?
    ensures r.Some? ==> exists i :: 0 <= i < |emitted| && emitted[i] == PlayingChanged(r.value)
  {
    if |emitted| == 0 then None
    else if emitted[|emitted| - 1].PlayingChanged? then Some(emitted[|emitted| - 1].playing)
    else LastPlaying(emitted[..|emitted| - 1])
  }

  /** `isPlaying`: the last playing value posted, false before any was posted. */
  function IsPlaying(emitted: seq<Emission>): (r: bool)
    ensures r <==> LastPlaying(emitted) == Some(true)
  {
    LastPlaying(emitted).GetOr(false)
  }

  // ---------------------------------------------------------------------------
  // Lookups

  /** `playerSet.find { it.index == index }`: the position of the first handle with that index. */
  function FindHandle(players: seq<PlayerHandle>, index: nat): (r: Option<nat>)
    ensures r.None? <==> forall j :: 0 <= j < |players| ==> players[j].index != index
    ensures r.Some? ==> r.value < |players| && players[r.value].index == index
    ensures r.Some? ==> forall j :: 0 <= j < r.value ==> players[j].index != index
  {
    if |players| == 0 then None
    else if players[0].index == index then Some(0)
    else
      match FindHandle(players[1..], index)
      case None => None
      case Some(p) => Some(p + 1)
  }

  /** `qualities.firstOrNull { it.name == name }`. */
  function FirstQualityNamed(qualities: seq<Quality>, name: string): (r: Option<Quality>)
    ensures r.None? <==> forall i :: 0 <= i < |qualities| ==> qualities[i].name != name
    ensures r.Some? ==> r.value.name == name
    ensures r.Some? ==>
      exists i :: (0 <= i < |qualities| && qualities[i] == r.value &&
                   forall j :: 0 <= j < i ==> qualities[j].name != name)
  {
    if |qualities| == 0 then None
    else if qualities[0].name == name then Some(qualities[0])
    else
      var r := FirstQualityNamed(qualities[1..], name);
      if r.Some? then
        var i :| (0 <= i < |qualities[1..]| && qualities[1..][i] == r.value &&
                  forall j :: 0 <= j < i ==> qualities[1..][j].name != name);
        assert qualities[i + 1] == r.value;
        r
      else r
  }

  // ---------------------------------------------------------------------------
  // Buffering

  /** `updateBufferingState`: upsert the flag, then post a copy of the whole list. */
  function UpdateBufferingState(vm: ViewModel, playerIndex: nat, isBuffering: bool): (r: ViewModel)
    ensures r.bufferingStates == Upsert(vm.bufferingStates, playerIndex, isBuffering)
    ensures r.emitted == vm.emitted + [BufferingChanged(r.bufferingStates)]
    ensures r.config == vm.config && r.players == vm.players && r.effects == vm.effects
  {
    var states := Upsert(vm.bufferingStates, playerIndex, isBuffering);
    vm.(bufferingStates := states, emitted := vm.emitted + [BufferingChanged(states)])
  }

  // ---------------------------------------------------------------------------
  // Initialisation

  /** The surface handed to the player at `index`: `playerViews.getOrNull(index)?.surface`. */
  function SurfaceAt(views: seq<PlayerView>, index: nat): Option<nat>
  {
    if index < |views| then Some(views[index].index) else None
  }

  /**
   * The decoder calls made while starting one stream: attach the listener
   * (`Player.init`), bind the surface, load the URI, play.
   */
  function StartCalls(views: seq<PlayerView>, index: nat, stream: StreamSlot): seq<Effect>
  {
    [ PlayerCall(index, AddListener), PlayerCall(index, SetSurface(SurfaceAt(views, index))),
      PlayerCall(index, Load(stream.uri)), PlayerCall(index, Play) ]
  }

  /** The decoder calls made while starting the first `n` streams of the table. */
  function StartCallsUpTo(views: seq<PlayerView>, streams: seq<StreamSlot>, n: nat): (r: seq<Effect>)
    requires n <= |streams|
    ensures |r| == 4 * n
  {
    if n == 0 then [] else StartCallsUpTo(views, streams, n - 1) + StartCalls(views, n - 1, streams[n - 1])
  }

  /** Stream `i`'s four calls sit at positions `4i .. 4i+4`: attach the listener, bind the surface, load its URI, play. */
  lemma {:induction false} StartCallsInTableOrder(views: seq<PlayerView>, streams: seq<StreamSlot>, n: nat, i: nat)
    requires i < n <= |streams|
    ensures StartCallsUpTo(views, streams, n)[4 * i .. 4 * i + 4] == StartCalls(views, i, streams[i])
  {
    var prefix := StartCallsUpTo(views, streams, n - 1);
    assert StartCallsUpTo(views, streams, n) == prefix + StartCalls(views, n - 1, streams[n - 1]);
    if i < n - 1 {
      StartCallsInTableOrder(views, streams, n - 1, i);
      assert StartCallsUpTo(views, streams, n)[4 * i .. 4 * i + 4] == prefix[4 * i .. 4 * i + 4];
    }
  }

  /** The handles `initPlayers` creates for the first `n` table entries, index = position, size 0x0. */
  function NewHandles(streams: seq<StreamSlot>, n: nat): (r: seq<PlayerHandle>)
    requires n <= |streams|
    ensures |r| == n
    ensures forall i :: 0 <= i < n ==> r[i] == PlayerHandle(i, streams[i], Idle, 0, 0)
  {
    if n == 0 then [] else NewHandles(streams, n - 1) + [PlayerHandle(n - 1, streams[n - 1], Idle, 0, 0)]
  }

  /** The buffering snapshots posted while the first `n` streams are marked buffering, one per stream. */
  function MarkingSnapshots(entries: seq<BufferingEntry>, n: nat): (r: seq<Emission>)
    ensures |r| == n
    ensures forall j :: 0 <= j < n ==> r[j].BufferingChanged?
  {
    if n == 0 then [] else MarkingSnapshots(entries, n - 1) + [BufferingChanged(MarkedBuffering(entries, n))]
  }

  /**
   * `initPlayers`: does nothing once players exist; otherwise runs one
   * iteration per table entry, in table order: mark the stream buffering
   * (posting a snapshot), create its player, bind the surface, load, play.
   * Each iteration touches the handle list, the call log and the buffering
   * list independently, so each is written as its own fold over the table.
   */
  function InitPlayers(vm: ViewModel, views: seq<PlayerView>): (r: ViewModel)
    ensures |vm.players| > 0 ==> r == vm
    ensures |vm.players| == 0 ==>
      && r.config == vm.config
      && |r.players| == |vm.config.streams|
      && (forall i :: 0 <= i < |r.players| ==> r.players[i] == PlayerHandle(i, vm.config.streams[i], Idle, 0, 0))
      && (forall i: nat :: i < |vm.config.streams| ==> Lookup(r.bufferingStates, i) == Some(true))
      && r.effects == vm.effects + StartCallsUpTo(views, vm.config.streams, |vm.config.streams|)
      && r.emitted == vm.emitted + MarkingSnapshots(vm.bufferingStates, |vm.config.streams|)
  {
    if |vm.players| > 0 then vm
    else
      var n := |vm.config.streams|;
      MarkedBufferingLooksUp(vm.bufferingStates, n);
      vm.(players := NewHandles(vm.config.streams, n),
          effects := vm.effects + StartCallsUpTo(views, vm.config.streams, n),
          bufferingStates := MarkedBuffering(vm.bufferingStates, n),
          emitted := vm.emitted + MarkingSnapshots(vm.bufferingStates, n))
  }

  // ---------------------------------------------------------------------------
  // Listener handlers

  /** The size handler: store a size that differs from the known one and post the player's index. */
  function OnVideoSizeChanged(vm: ViewModel, size: VideoSizeState): (r: ViewModel)
    ensures FindHandle(vm.players, size.index).None? ==> r == vm
    ensures FindHandle(vm.players, size.index).Some? ==>
      var p := FindHandle(vm.players, size.index).value;
      && |r.players| == |vm.players|
      && r.players[p] == vm.players[p].(width := size.width, height := size.height)
      && (forall j :: 0 <= j < |vm.players| && j != p ==> r.players[j] == vm.players[j])
      && r.bufferingStates == vm.bufferingStates && r.effects == vm.effects && r.config == vm.config
      && ((vm.players[p].width != size.width || vm.players[p].height != size.height) <==>
          r.emitted == vm.emitted + [SizeChanged(size.index)])
      && ((vm.players[p].width == size.width && vm.players[p].height == size.height) <==> r == vm)
  {
    match FindHandle(vm.players, size.index)
    case None => vm
    case Some(p) =>
      var player := vm.players[p];
      if player.width != size.width || player.height != size.height then
        vm.(players := vm.players[p := player.(width := size.width, height := size.height)],
            emitted := vm.emitted + [SizeChanged(player.index)])
      else vm
  }

  /** The `when` on the new decoder state, before the "is any player playing" check. */
  function HandleState(vm: ViewModel, stream: StreamSlot, state: PlayerState, playerIndex: nat,
                       qualities: seq<Quality>): (r: ViewModel)
    ensures r.players == vm.players && r.config == vm.config
    ensures vm.emitted <= r.emitted
    ensures state == Buffering ==> r.bufferingStates == Upsert(vm.bufferingStates, playerIndex, true)
    ensures state == Playing ==> r.bufferingStates == Upsert(vm.bufferingStates, playerIndex, false)
    ensures state != Buffering && state != Playing ==> r.bufferingStates == vm.bufferingStates
    ensures state == Ready ==>
      r.effects == vm.effects + match FirstQualityNamed(qualities, stream.maxQuality)
                                case Some(q) => [PlayerCall(playerIndex, SetAutoMaxQuality(q))]
                                case None => []
    ensures state != Ready ==> r.effects == vm.effects
    ensures state == Buffering ==> r.emitted == vm.emitted + [BufferingChanged(r.bufferingStates)]
    ensures state == Playing ==>
      r.emitted == vm.emitted + [BufferingChanged(r.bufferingStates), PlayingChanged(true)]
    ensures state != Buffering && state != Playing ==> r.emitted == vm.emitted
    ensures LastPlaying(r.emitted) == if state == Playing then Some(true) else LastPlaying(vm.emitted)
  {
    match state
    case Buffering =>
      var marked := UpdateBufferingState(vm, playerIndex, true);
      assert marked.emitted[..|marked.emitted| - 1] == vm.emitted;
      marked
    case Ready =>
      (match FirstQualityNamed(qualities, stream.maxQuality)
       case Some(q) => vm.(effects := vm.effects + [PlayerCall(playerIndex, SetAutoMaxQuality(q))])
       case None => vm)
    case Playing =>
      var marked := UpdateBufferingState(vm, playerIndex, false);
      marked.(emitted := marked.emitted + [PlayingChanged(true)])
    case _ => vm
  }

  /**
   * The state handler of the player created for `stream`, run after its
   * decoder has entered `state`: the `when` on the state, then a `false`
   * posted if no player is playing.
   */
  function OnStateChanged(vm: ViewModel, stream: StreamSlot, state: PlayerState, playerIndex: nat,
                          qualities: seq<Quality>): (r: ViewModel)
    ensures r.players == vm.players && r.config == vm.config
    ensures vm.emitted <= r.emitted
    ensures state == Buffering ==> r.bufferingStates == Upsert(vm.bufferingStates, playerIndex, true)
    ensures state == Playing ==> r.bufferingStates == Upsert(vm.bufferingStates, playerIndex, false)
    ensures state != Buffering && state != Playing ==> r.bufferingStates == vm.bufferingStates
    ensures state == Ready ==>
      r.effects == vm.effects + match FirstQualityNamed(qualities, stream.maxQuality)
                                case Some(q) => [PlayerCall(playerIndex, SetAutoMaxQuality(q))]
                                case None => []
    ensures state != Ready ==> r.effects == vm.effects
    ensures var posts := if state == Buffering then [BufferingChanged(r.bufferingStates)]
                         else if state == Playing then [BufferingChanged(r.bufferingStates), PlayingChanged(true)]
                         else [];
      && (NonePlaying(vm.players) ==> r.emitted == vm.emitted + posts + [PlayingChanged(false)])
      && (!NonePlaying(vm.players) ==> r.emitted == vm.emitted + posts)
    ensures NonePlaying(vm.players) ==> !IsPlaying(r.emitted)
    ensures !NonePlaying(vm.players) && state == Playing ==> IsPlaying(r.emitted)
    ensures !NonePlaying(vm.players) && state != Playing ==> IsPlaying(r.emitted) == IsPlaying(vm.emitted)
  {
    var handled := HandleState(vm, stream, state, playerIndex, qualities);
    if NonePlaying(handled.players) then handled.(emitted := handled.emitted + [PlayingChanged(false)])
    else handled
  }

  /** The decoder of the handle at position `p` has entered `state`. */
  function SetDecoderState(vm: ViewModel, p: nat, state: PlayerState): (r: ViewModel)
    requires p < |vm.players|
    ensures |r.players| == |vm.players| && r.players[p] == vm.players[p].(state := state)
    ensures forall j :: 0 <= j < |vm.players| && j != p ==> r.players[j] == vm.players[j]
    ensures r.config == vm.config && r.bufferingStates == vm.bufferingStates
    ensures r.emitted == vm.emitted && r.effects == vm.effects
  {
    vm.(players := vm.players[p := vm.players[p].(state := state)])
  }

  /** The error handler: post the error. */
  function OnError(vm: ViewModel, error: Error): (r: ViewModel)
    ensures r.emitted == vm.emitted + [ErrorOccurred(error)]
    ensures r.players == vm.players && r.bufferingStates == vm.bufferingStates && r.effects == vm.effects
  {
    vm.(emitted := vm.emitted + [ErrorOccurred(error)])
  }

  /**
   * A decoder callback reaching the listener of the player with `index`,
   * which `Player.init` translates before the handlers run. A callback for an
   * index with no player has no listener to reach. `qualities` is what the
   * decoder reports if asked for its quality levels during the callback.
   */
  function OnCallback(vm: ViewModel, index: nat, cb: PlayerCallback, qualities: seq<Quality>): (r: ViewModel)
    ensures FindHandle(vm.players, index).None? || !Forwarded(cb) ==> r == vm
    ensures r.config == vm.config
    ensures FindHandle(vm.players, index).Some? && cb.VideoSizeChanged? ==>
      r == OnVideoSizeChanged(vm, VideoSizeState(index, cb.width >= cb.height, cb.width, cb.height))
    ensures FindHandle(vm.players, index).Some? && cb.ErrorRaised? && cb.code != 0 ==>
      && r.emitted == vm.emitted + [ErrorOccurred(Error(index, Decimal.DecimalString(cb.code), cb.message))]
      && r.players == vm.players && r.bufferingStates == vm.bufferingStates && r.effects == vm.effects
  {
    match FindHandle(vm.players, index)
    case None => vm
    case Some(p) =>
      match Translate(index, cb)
      case None => vm
      case Some(SizeEvent(size)) => OnVideoSizeChanged(vm, size)
      case Some(StateEvent(state, playerIndex)) =>
        OnStateChanged(SetDecoderState(vm, p, state), vm.players[p].stream, state, playerIndex, qualities)
      case Some(ErrorEvent(error)) => OnError(vm, error)
  }

  // ---------------------------------------------------------------------------
  // Commands from the screen

  /** The same call made on every player, in list order. */
  function Broadcast(players: seq<PlayerHandle>, call: SdkCall): (r: seq<Effect>)
    ensures |r| == |players|
    ensures forall i :: 0 <= i < |players| ==> r[i] == PlayerCall(players[i].index, call)
  {
    if |players| == 0 then [] else [PlayerCall(players[0].index, call)] + Broadcast(players[1..], call)
  }

  /** `play`: every player is told to play. */
  function PlayAll(vm: ViewModel): (r: ViewModel)
    ensures r.players == vm.players && r.bufferingStates == vm.bufferingStates
    ensures r.emitted == vm.emitted && r.config == vm.config
    ensures vm.effects <= r.effects && |r.effects| == |vm.effects| + |vm.players|
    ensures forall i :: 0 <= i < |vm.players| ==> r.effects[|vm.effects| + i] == PlayerCall(vm.players[i].index, Play)
  {
    vm.(effects := vm.effects + Broadcast(vm.players, Play))
  }

  /** `pause`: every player is told to pause. */
  function PauseAll(vm: ViewModel): (r: ViewModel)
    ensures r.players == vm.players && r.bufferingStates == vm.bufferingStates
    ensures r.emitted == vm.emitted && r.config == vm.config
    ensures vm.effects <= r.effects && |r.effects| == |vm.effects| + |vm.players|
    ensures forall i :: 0 <= i < |vm.players| ==> r.effects[|vm.effects| + i] == PlayerCall(vm.players[i].index, Pause)
  {
    vm.(effects := vm.effects + Broadcast(vm.players, Pause))
  }

  /** The calls `release` makes on one player. */
  function ReleaseCalls(index: nat, detachesSurface: bool): seq<Effect>
  {
    [PlayerCall(index, RemoveListener)]
    + (if detachesSurface then [PlayerCall(index, SetSurface(None))] else [])
    + [PlayerCall(index, Release)]
  }

  /** The calls `release` makes on all players, player by player. */
  function ReleaseAllCalls(players: seq<PlayerHandle>, detachesSurface: bool): (r: seq<Effect>)
    ensures |players| == 0 <==> |r| == 0
    ensures detachesSurface ==> |r| == 3 * |players| && forall i :: 0 <= i < |players| ==>
      && r[3 * i] == PlayerCall(players[i].index, RemoveListener)
      && r[3 * i + 1] == PlayerCall(players[i].index, SetSurface(None))
      && r[3 * i + 2] == PlayerCall(players[i].index, Release)
    ensures !detachesSurface ==> |r| == 2 * |players| && forall i :: 0 <= i < |players| ==>
      && r[2 * i] == PlayerCall(players[i].index, RemoveListener)
      && r[2 * i + 1] == PlayerCall(players[i].index, Release)
  {
    if |players| == 0 then []
    else
      var rest := ReleaseAllCalls(players[1..], detachesSurface);
      var r := ReleaseCalls(players[0].index, detachesSurface) + rest;
      assert forall i :: 1 <= i < |players| ==> players[i] == players[1..][i - 1];
      r
  }

  /**
   * Every call `release` makes is a call on one of the players, and the only
   * surface call it makes clears the surface, on a screen that unbinds.
   */
  lemma ReleaseCallsTargetPlayers(players: seq<PlayerHandle>, detachesSurface: bool)
    ensures var r := ReleaseAllCalls(players, detachesSurface);
      forall j :: 0 <= j < |r| ==>
        && r[j].PlayerCall?
        && (exists i :: 0 <= i < |players| && r[j].player == players[i].index)
        && (r[j].call.SetSurface? ==> detachesSurface && r[j].call.surface.None?)
  {
    var r := ReleaseAllCalls(players, detachesSurface);
    forall j | 0 <= j < |r|
      ensures r[j].PlayerCall?
      ensures exists i :: 0 <= i < |players| && r[j].player == players[i].index
      ensures r[j].call.SetSurface? ==> detachesSurface && r[j].call.surface.None?
    {
      var i := ReleaseCallOwner(players, detachesSurface, j);
    }
  }

  /** The player the `j`-th call of `release` is made on, and what that call can be. */
  lemma ReleaseCallOwner(players: seq<PlayerHandle>, detachesSurface: bool, j: nat) returns (i: nat)
    requires j < |ReleaseAllCalls(players, detachesSurface)|
    ensures var e := ReleaseAllCalls(players, detachesSurface)[j];
      && i < |players| && e.PlayerCall? && e.player == players[i].index
      && (e.call.SetSurface? ==> detachesSurface && e.call.surface.None?)
  {
    var r := ReleaseAllCalls(players, detachesSurface);
    if detachesSurface {
      i := j / 3;
      assert 3 * i <= j < 3 * i + 3 && i < |players|;
      if j == 3 * i {
        assert r[j] == PlayerCall(players[i].index, RemoveListener);
      } else if j == 3 * i + 1 {
        assert r[j] == PlayerCall(players[i].index, SetSurface(None));
      } else {
        assert r[j] == PlayerCall(players[i].index, Release);
      }
    } else {
      i := j / 2;
      assert 2 * i <= j < 2 * i + 2 && i < |players|;
      if j == 2 * i {
        assert r[j] == PlayerCall(players[i].index, RemoveListener);
      } else {
        assert r[j] == PlayerCall(players[i].index, Release);
      }
    }
  }

  /** `release`: detach and release every player, then forget them all. */
  function ReleasePlayers(vm: ViewModel): (r: ViewModel)
    ensures |r.players| == 0
    ensures r.bufferingStates == vm.bufferingStates && r.emitted == vm.emitted && r.config == vm.config
    ensures |vm.players| == 0 ==> r == vm
    ensures r.effects == vm.effects + ReleaseAllCalls(vm.players, vm.config.detachesSurfaceOnRelease)
  {
    vm.(players := [], effects := vm.effects + ReleaseAllCalls(vm.players, vm.config.detachesSurfaceOnRelease))
  }

  /** `updatePlayerView`: fit the view's container to the size of the player at the view's position, if any. */
  function UpdatePlayerView(vm: ViewModel, view: PlayerView): (r: ViewModel)
    ensures r.players == vm.players && r.bufferingStates == vm.bufferingStates && r.emitted == vm.emitted
    ensures view.index < |vm.players| ==>
      r.effects == vm.effects + [ZoomToFit(view.index, vm.players[view.index].width, vm.players[view.index].height)]
    ensures view.index >= |vm.players| ==> r == vm
  {
    if view.index < |vm.players| then
      var player := vm.players[view.index];
      vm.(effects := vm.effects + [ZoomToFit(view.index, player.width, player.height)])
    else vm
  }

  /** `updatePlayerViews`: `updatePlayerView` on each view, in order. */
  function UpdatePlayerViews(vm: ViewModel, views: seq<PlayerView>): (r: ViewModel)
    ensures r.players == vm.players && r.bufferingStates == vm.bufferingStates && r.emitted == vm.emitted
    ensures r.config == vm.config
    decreases |views|
  {
    if |views| == 0 then vm else UpdatePlayerViews(UpdatePlayerView(vm, views[0]), views[1..])
  }

  // ---------------------------------------------------------------------------
  // Arbitrary interleavings

  /** Everything that can happen to a view model: screen commands and decoder callbacks. */
  datatype Input =
    | Init(views: seq<PlayerView>)
    | Callback(index: nat, cb: PlayerCallback, qualities: seq<Quality>)
    | PlayCommand
    | PauseCommand
    | ReleaseCommand
    | UpdateView(view: PlayerView)
    | UpdateViews(views: seq<PlayerView>)

  function Step(vm: ViewModel, input: Input): ViewModel
  {
    match input
    case Init(views) => InitPlayers(vm, views)
    case Callback(index, cb, qualities) => OnCallback(vm, index, cb, qualities)
    case PlayCommand => PlayAll(vm)
    case PauseCommand => PauseAll(vm)
    case ReleaseCommand => ReleasePlayers(vm)
    case UpdateView(view) => UpdatePlayerView(vm, view)
    case UpdateViews(views) => UpdatePlayerViews(vm, views)
  }

  function Run(vm: ViewModel, inputs: seq<Input>): ViewModel
    decreases |inputs|
  {
    if |inputs| == 0 then vm else Run(Step(vm, inputs[0]), inputs[1..])
  }
}
