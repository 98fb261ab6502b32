/**
 * Properties of the orchestrator over arbitrary sequences of screen commands
 * and decoder callbacks: the shape invariant of a view model, the playing
 * flag as a projection of the decoders' states, idempotence of the guarded
 * operations, and the append-only logs.
 */
module OrchestratorProperties {
  import opened Wrappers
  import opened PlayerEvents
  import opened Buffering
  import opened Orchestrator
  import Streams

  /** The last posted playing value agrees with "some player is PLAYING". */
  predicate Consistent(vm: ViewModel)
  {
    IsPlaying(vm.emitted) == !NonePlaying(vm.players)
  }

  /**
   * What every reachable view model satisfies: one handle per table entry
   * (or none), handle index = position, one buffering entry per known player
   * id, and a playing handle is never hidden behind a posted `false`.
   */
  predicate WellFormed(vm: ViewModel)
  {
    && HandlesFollowTable(vm.players, vm.config.streams)
    && BufferingKeyedBySlot(vm.bufferingStates, |vm.config.streams|)
    && PlayingNotHidden(vm)
  }

  /** No handles, or one per table entry with index = position. */
  predicate HandlesFollowTable(players: seq<PlayerHandle>, streams: seq<Streams.StreamSlot>)
  {
    && (|players| == 0 || |players| == |streams|)
    && forall i :: 0 <= i < |players| ==> players[i].index == i && players[i].stream == streams[i]
  }

  /** At most one entry per player id, and only ids of table entries. */
  predicate BufferingKeyedBySlot(entries: seq<BufferingEntry>, slots: nat)
  {
    UniqueIds(entries) && forall id :: id in Ids(entries) ==> id < slots
  }

  /** A playing handle is never hidden behind a posted `false`. */
  predicate PlayingNotHidden(vm: ViewModel)
  {
    !NonePlaying(vm.players) ==> IsPlaying(vm.emitted)
  }

  /** Posting a value other than a playing value leaves `isPlaying` as it was; posting one sets it. */
  lemma IsPlayingAfterPost(emitted: seq<Emission>, e: Emission)
    ensures IsPlaying(emitted + [e]) == if e.PlayingChanged? then e.playing else IsPlaying(emitted)
  {
    assert (emitted + [e])[..|emitted|] == emitted;
  }

  /** `isPlaying` is false as long as no playing value has been posted. */
  lemma NotPlayingBeforeFirstPost(emitted: seq<Emission>)
    requires forall i :: 0 <= i < |emitted| ==> !emitted[i].PlayingChanged?
    ensures !IsPlaying(emitted)
  {
  }

  /** Posting only buffering snapshots leaves `isPlaying` as it was. */
  lemma {:induction false} IsPlayingIgnoresSnapshots(before: seq<Emission>, after: seq<Emission>)
    requires before <= after
    requires forall j :: |before| <= j < |after| ==> after[j].BufferingChanged?
    ensures IsPlaying(after) == IsPlaying(before)
    decreases |after|
  {
    if |after| > |before| {
      var shorter := after[..|after| - 1];
      assert after == shorter + [after[|after| - 1]];
      IsPlayingIgnoresSnapshots(before, shorter);
      IsPlayingAfterPost(shorter, after[|after| - 1]);
    } else {
      assert after == before;
    }
  }

  lemma NewViewModelWellFormed(config: Orchestrator.Config)
    ensures WellFormed(NewViewModel(config)) && Consistent(NewViewModel(config))
  {
  }

  /** A state callback reaching a live player: record the state, then run the state handler. */
  lemma StateStepUnfolds(vm: ViewModel, index: nat, state: PlayerState, qualities: seq<Quality>)
    requires FindHandle(vm.players, index).Some?
    ensures var p := FindHandle(vm.players, index).value;
      Step(vm, Callback(index, StateChanged(state), qualities))
      == OnStateChanged(SetDecoderState(vm, p, state), vm.players[p].stream, state, index, qualities)
  {
    var cb := StateChanged(state);
    assert Translate(index, cb) == Some(StateEvent(state, index));
    assert Step(vm, Callback(index, cb, qualities)) == OnCallback(vm, index, cb, qualities);
  }

  /** A player other than the one whose state changed away from PLAYING is still playing. */
  lemma PlayingElsewhere(vm: ViewModel, p: nat, state: PlayerState)
    requires p < |vm.players| && state != Playing
    requires !NonePlaying(SetDecoderState(vm, p, state).players)
    ensures !NonePlaying(vm.players)
  {
    var players := SetDecoderState(vm, p, state).players;
    var j :| 0 <= j < |players| && players[j].state == Playing;
    assert j != p && vm.players[j] == players[j];
  }

  /**
   * After any state callback reaching a live player, the posted playing value
   * equals "some player is PLAYING".
   */
  lemma StateCallbackSynchronizesPlaying(vm: ViewModel, index: nat, state: PlayerState, qualities: seq<Quality>)
    requires WellFormed(vm)
    requires FindHandle(vm.players, index).Some?
    ensures Consistent(Step(vm, Callback(index, StateChanged(state), qualities)))
  {
    var p := FindHandle(vm.players, index).value;
    StateStepUnfolds(vm, index, state, qualities);
    if !NonePlaying(SetDecoderState(vm, p, state).players) && state != Playing {
      PlayingElsewhere(vm, p, state);
    }
  }

  /**
   * What a state handler posts: `false` exactly when no player is PLAYING, and
   * otherwise only the buffering list it just updated or a `true`; for
   * BUFFERING and PLAYING that list comes first and is the list after the upsert.
   */
  lemma StateHandlerPosts(vm: ViewModel, stream: Streams.StreamSlot, state: PlayerState, playerIndex: nat,
                          qualities: seq<Quality>)
    ensures var r := OnStateChanged(vm, stream, state, playerIndex, qualities);
      var posted := r.emitted[|vm.emitted|..];
      && (PlayingChanged(false) in posted <==> NonePlaying(vm.players))
      && (forall e :: e in posted ==> e == BufferingChanged(r.bufferingStates) || e == PlayingChanged(true)
                                      || e == PlayingChanged(false))
      && ((state == Buffering || state == Playing) <==>
          (|posted| > 0 && posted[0] == BufferingChanged(r.bufferingStates)))
  {
    var r := OnStateChanged(vm, stream, state, playerIndex, qualities);
    PostsOfShape(vm.emitted, r.emitted, r.bufferingStates, state, NonePlaying(vm.players));
  }

  /** The three facts above, for a log extended with posts of the shape `OnStateChanged` ensures. */
  lemma PostsOfShape(before: seq<Emission>, after: seq<Emission>, list: seq<BufferingEntry>, state: PlayerState,
                     nonePlaying: bool)
    requires after == before + (if state == Buffering then [BufferingChanged(list)]
                                else if state == Playing then [BufferingChanged(list), PlayingChanged(true)]
                                else []) + (if nonePlaying then [PlayingChanged(false)] else [])
    ensures var posted := after[|before|..];
      && (PlayingChanged(false) in posted <==> nonePlaying)
      && (forall e :: e in posted ==> e == BufferingChanged(list) || e == PlayingChanged(true) || e == PlayingChanged(false))
      && ((state == Buffering || state == Playing) <==> (|posted| > 0 && posted[0] == BufferingChanged(list)))
  {
    var posted := after[|before|..];
    assert posted == (if state == Buffering then [BufferingChanged(list)]
                      else if state == Playing then [BufferingChanged(list), PlayingChanged(true)]
                      else []) + (if nonePlaying then [PlayingChanged(false)] else []);
  }

  /** `initPlayers` on an empty view model, in terms of its parts; only buffering snapshots are posted. */
  lemma InitFromEmpty(vm: ViewModel, views: seq<PlayerView>)
    requires |vm.players| == 0
    ensures var r := InitPlayers(vm, views);
      && r.config == vm.config
      && r.players == NewHandles(vm.config.streams, |vm.config.streams|)
      && r.bufferingStates == MarkedBuffering(vm.bufferingStates, |vm.config.streams|)
      && vm.emitted <= r.emitted && vm.effects <= r.effects
      && IsPlaying(r.emitted) == IsPlaying(vm.emitted)
  {
    var r := InitPlayers(vm, views);
    IsPlayingIgnoresSnapshots(vm.emitted, r.emitted);
  }

  /** Marking every table slot buffering keeps the list keyed by table slot. */
  lemma MarkedKeyedBySlot(entries: seq<BufferingEntry>, n: nat)
    requires BufferingKeyedBySlot(entries, n)
    ensures BufferingKeyedBySlot(MarkedBuffering(entries, n), n)
  {
    MarkedBufferingIds(entries, n);
    MarkedBufferingUnique(entries, n);
  }

  /** Fresh handles follow the table and none of them is playing. */
  lemma NewHandlesFollowTable(streams: seq<Streams.StreamSlot>)
    ensures HandlesFollowTable(NewHandles(streams, |streams|), streams)
    ensures NonePlaying(NewHandles(streams, |streams|))
  {
  }

  lemma InitPreservesWellFormed(vm: ViewModel, views: seq<PlayerView>)
    requires WellFormed(vm)
    ensures WellFormed(InitPlayers(vm, views))
  {
    if |vm.players| == 0 {
      InitFromEmpty(vm, views);
      MarkedKeyedBySlot(vm.bufferingStates, |vm.config.streams|);
      NewHandlesFollowTable(vm.config.streams);
    }
  }

  /** Upserting a table entry's id keeps the buffering list keyed by table slot. */
  lemma UpsertKeyedBySlot(entries: seq<BufferingEntry>, slots: nat, id: nat, isBuffering: bool)
    requires BufferingKeyedBySlot(entries, slots) && id < slots
    ensures BufferingKeyedBySlot(Upsert(entries, id, isBuffering), slots)
  {
    UpsertKeepsUniqueIds(entries, id, isBuffering);
  }

  lemma StateCallbackPreservesWellFormed(vm: ViewModel, index: nat, state: PlayerState, qualities: seq<Quality>)
    requires WellFormed(vm)
    requires FindHandle(vm.players, index).Some?
    ensures WellFormed(Step(vm, Callback(index, StateChanged(state), qualities)))
  {
    var p := FindHandle(vm.players, index).value;
    var r := Step(vm, Callback(index, StateChanged(state), qualities));
    StateCallbackSynchronizesPlaying(vm, index, state, qualities);
    StateStepUnfolds(vm, index, state, qualities);
    assert r.players == vm.players[p := vm.players[p].(state := state)];
    assert HandlesFollowTable(r.players, r.config.streams);
    assert index < |vm.config.streams|;
    UpsertKeyedBySlot(vm.bufferingStates, |vm.config.streams|, index, state == Buffering);
  }

  lemma SizeCallbackPreservesWellFormed(vm: ViewModel, index: nat, width: nat, height: nat, qualities: seq<Quality>)
    requires WellFormed(vm)
    ensures WellFormed(Step(vm, Callback(index, VideoSizeChanged(width, height), qualities)))
  {
    var r := Step(vm, Callback(index, VideoSizeChanged(width, height), qualities));
    if FindHandle(vm.players, index).Some? {
      var size := VideoSizeState(index, width >= height, width, height);
      assert r == OnVideoSizeChanged(vm, size);
      if r != vm {
        IsPlayingAfterPost(vm.emitted, SizeChanged(index));
        assert NonePlaying(r.players) == NonePlaying(vm.players);
      }
    }
  }

  lemma ErrorCallbackPreservesWellFormed(vm: ViewModel, index: nat, code: int, message: string, qualities: seq<Quality>)
    requires WellFormed(vm)
    ensures WellFormed(Step(vm, Callback(index, ErrorRaised(code, message), qualities)))
  {
    var r := Step(vm, Callback(index, ErrorRaised(code, message), qualities));
    if FindHandle(vm.players, index).Some? && code != 0 {
      IsPlayingAfterPost(vm.emitted, r.emitted[|r.emitted| - 1]);
    }
  }

  /** Every command and callback keeps a view model well formed. */
  lemma StepPreservesWellFormed(vm: ViewModel, input: Input)
    requires WellFormed(vm)
    ensures WellFormed(Step(vm, input))
  {
    match input
    case Init(views) => InitPreservesWellFormed(vm, views);
    case Callback(index, cb, qualities) =>
      if cb.StateChanged? {
        if FindHandle(vm.players, index).Some? {
          StateCallbackPreservesWellFormed(vm, index, cb.state, qualities);
        }
      } else if cb.VideoSizeChanged? {
        SizeCallbackPreservesWellFormed(vm, index, cb.width, cb.height, qualities);
      } else if cb.ErrorRaised? {
        ErrorCallbackPreservesWellFormed(vm, index, cb.code, cb.message, qualities);
      } else {
        assert Step(vm, input) == vm;
      }
    case PlayCommand =>
    case PauseCommand =>
    case ReleaseCommand =>
    case UpdateView(view) =>
    case UpdateViews(views) =>
  }

  /** Callbacks other than state changes touch neither the decoder states nor the playing value. */
  lemma OtherCallbackKeepsPlaying(vm: ViewModel, index: nat, cb: PlayerCallback, qualities: seq<Quality>)
    requires !cb.StateChanged?
    ensures var r := Step(vm, Callback(index, cb, qualities));
      && |r.players| == |vm.players|
      && (forall j :: 0 <= j < |r.players| ==> r.players[j].state == vm.players[j].state)
      && NonePlaying(r.players) == NonePlaying(vm.players) && IsPlaying(r.emitted) == IsPlaying(vm.emitted)
  {
    var r := Step(vm, Callback(index, cb, qualities));
    if r.emitted != vm.emitted {
      assert r.emitted == vm.emitted + [r.emitted[|r.emitted| - 1]];
      IsPlayingAfterPost(vm.emitted, r.emitted[|r.emitted| - 1]);
    }
    if FindHandle(vm.players, index).Some? && cb.VideoSizeChanged? {
      assert forall j :: 0 <= j < |r.players| ==> r.players[j].state == vm.players[j].state;
    }
  }

  lemma InitKeepsConsistent(vm: ViewModel, views: seq<PlayerView>)
    requires Consistent(vm)
    ensures Consistent(InitPlayers(vm, views))
  {
    if |vm.players| == 0 {
      InitFromEmpty(vm, views);
      NewHandlesFollowTable(vm.config.streams);
    }
  }

  /** Every command except `release` keeps the playing flag consistent. */
  lemma StepPreservesConsistent(vm: ViewModel, input: Input)
    requires WellFormed(vm) && Consistent(vm)
    requires !input.ReleaseCommand?
    ensures Consistent(Step(vm, input))
  {
    match input
    case Init(views) => InitKeepsConsistent(vm, views);
    case Callback(index, cb, qualities) =>
      if cb.StateChanged? {
        if FindHandle(vm.players, index).Some? {
          StateCallbackSynchronizesPlaying(vm, index, cb.state, qualities);
        }
      } else {
        OtherCallbackKeepsPlaying(vm, index, cb, qualities);
      }
    case PlayCommand =>
    case PauseCommand =>
    case UpdateView(view) =>
    case UpdateViews(views) =>
  }

  /**
   * `release` keeps the last posted value while dropping every player, so it
   * stays consistent only if no player was playing.
   */
  lemma ReleaseKeepsLastPlayingValue(vm: ViewModel)
    requires Consistent(vm)
    ensures Consistent(ReleasePlayers(vm)) <==> NonePlaying(vm.players)
  {
  }

  /**
   * The stale `true` left by releasing a playing set outlasts a new
   * `initPlayers` and any `play` or `pause`: the fresh players are all idle.
   */
  lemma StaleFlagOutlastsInit(vm: ViewModel, views: seq<PlayerView>)
    requires Consistent(vm) && !NonePlaying(vm.players)
    ensures var r := InitPlayers(ReleasePlayers(vm), views);
      && IsPlaying(r.emitted) && NonePlaying(r.players)
      && IsPlaying(PlayAll(r).emitted) && NonePlaying(PlayAll(r).players)
      && IsPlaying(PauseAll(r).emitted) && NonePlaying(PauseAll(r).players)
  {
    var released := ReleasePlayers(vm);
    InitFromEmpty(released, views);
    NewHandlesFollowTable(released.config.streams);
  }

  /** From any well-formed view model, every sequence of inputs leads to a well-formed one. */
  lemma {:induction false} RunPreservesWellFormed(vm: ViewModel, inputs: seq<Input>)
    requires WellFormed(vm)
    ensures WellFormed(Run(vm, inputs))
    decreases |inputs|
  {
    if |inputs| > 0 {
      StepPreservesWellFormed(vm, inputs[0]);
      RunPreservesWellFormed(Step(vm, inputs[0]), inputs[1..]);
    }
  }

  /** Without `release`, the playing flag agrees with the players after every input. */
  lemma {:induction false} RunWithoutReleaseConsistent(vm: ViewModel, inputs: seq<Input>)
    requires WellFormed(vm) && Consistent(vm)
    requires forall i :: 0 <= i < |inputs| ==> !inputs[i].ReleaseCommand?
    ensures Consistent(Run(vm, inputs))
    decreases |inputs|
  {
    if |inputs| > 0 {
      StepPreservesWellFormed(vm, inputs[0]);
      StepPreservesConsistent(vm, inputs[0]);
      RunWithoutReleaseConsistent(Step(vm, inputs[0]), inputs[1..]);
    }
  }

  /**
   * From a fresh view model, whatever happened before: the last input being a
   * state callback to a live player leaves the playing flag consistent.
   */
  lemma ConsistentAfterEveryStateCallback(config: Orchestrator.Config, inputs: seq<Input>, index: nat,
                                          state: PlayerState, qualities: seq<Quality>)
    requires FindHandle(Run(NewViewModel(config), inputs).players, index).Some?
    ensures Consistent(Step(Run(NewViewModel(config), inputs), Callback(index, StateChanged(state), qualities)))
  {
    NewViewModelWellFormed(config);
    RunPreservesWellFormed(NewViewModel(config), inputs);
    StateCallbackSynchronizesPlaying(Run(NewViewModel(config), inputs), index, state, qualities);
  }

  /** Nothing posted and no recorded call is ever taken back, and no buffering entry is removed. */
  lemma StepAppendsOnly(vm: ViewModel, input: Input)
    ensures vm.emitted <= Step(vm, input).emitted
    ensures vm.effects <= Step(vm, input).effects
    ensures Ids(vm.bufferingStates) <= Ids(Step(vm, input).bufferingStates)
    ensures Step(vm, input).config == vm.config
  {
    match input
    case Init(views) => InitAppendsOnly(vm, views);
    case Callback(index, cb, qualities) => CallbackAppendsOnly(vm, index, cb, qualities);
    case UpdateViews(views) => UpdatePlayerViewsAppends(vm, views);
    case _ =>
  }

  lemma InitAppendsOnly(vm: ViewModel, views: seq<PlayerView>)
    ensures vm.emitted <= InitPlayers(vm, views).emitted
    ensures vm.effects <= InitPlayers(vm, views).effects
    ensures Ids(vm.bufferingStates) <= Ids(InitPlayers(vm, views).bufferingStates)
  {
    if |vm.players| == 0 {
      InitFromEmpty(vm, views);
      MarkedBufferingIds(vm.bufferingStates, |vm.config.streams|);
    }
  }

  lemma CallbackAppendsOnly(vm: ViewModel, index: nat, cb: PlayerCallback, qualities: seq<Quality>)
    ensures vm.emitted <= OnCallback(vm, index, cb, qualities).emitted
    ensures vm.effects <= OnCallback(vm, index, cb, qualities).effects
    ensures Ids(vm.bufferingStates) <= Ids(OnCallback(vm, index, cb, qualities).bufferingStates)
  {
    if FindHandle(vm.players, index).Some? && cb.StateChanged? {
      UpsertIds(vm.bufferingStates, index, true);
      UpsertIds(vm.bufferingStates, index, false);
      StateStepUnfolds(vm, index, cb.state, qualities);
    }
  }

  lemma {:induction false} UpdatePlayerViewsAppends(vm: ViewModel, views: seq<PlayerView>)
    ensures vm.effects <= UpdatePlayerViews(vm, views).effects
    decreases |views|
  {
    if |views| > 0 {
      UpdatePlayerViewsAppends(UpdatePlayerView(vm, views[0]), views[1..]);
    }
  }

  lemma {:induction false} RunAppendsOnly(vm: ViewModel, inputs: seq<Input>)
    ensures vm.emitted <= Run(vm, inputs).emitted
    ensures vm.effects <= Run(vm, inputs).effects
    ensures Ids(vm.bufferingStates) <= Ids(Run(vm, inputs).bufferingStates)
    decreases |inputs|
  {
    if |inputs| > 0 {
      StepAppendsOnly(vm, inputs[0]);
      RunAppendsOnly(Step(vm, inputs[0]), inputs[1..]);
    }
  }

  /** A second `initPlayers` while players exist changes nothing, whatever the views. */
  lemma InitPlayersIdempotent(vm: ViewModel, first: seq<PlayerView>, second: seq<PlayerView>)
    ensures InitPlayers(InitPlayers(vm, first), second) == InitPlayers(vm, first)
  {
  }

  /** A second `release` does nothing. */
  lemma ReleaseIdempotent(vm: ViewModel)
    ensures ReleasePlayers(ReleasePlayers(vm)) == ReleasePlayers(vm)
  {
  }

  /** Delivering the same size twice changes nothing the second time. */
  lemma VideoSizeIdempotent(vm: ViewModel, size: VideoSizeState)
    ensures OnVideoSizeChanged(OnVideoSizeChanged(vm, size), size) == OnVideoSizeChanged(vm, size)
  {
    var once := OnVideoSizeChanged(vm, size);
    if FindHandle(vm.players, size.index).Some? {
      var p := FindHandle(vm.players, size.index).value;
      assert FindHandle(once.players, size.index) == Some(p) by {
        assert forall j :: 0 <= j < |once.players| ==> once.players[j].index == vm.players[j].index;
      }
    }
  }

  /** The containers fitted by `updatePlayerViews`: one per view whose index names a player. */
  function FitEffects(players: seq<PlayerHandle>, views: seq<PlayerView>): seq<Effect>
  {
    if |views| == 0 then []
    else
      (if views[0].index < |players|
       then [ZoomToFit(views[0].index, players[views[0].index].width, players[views[0].index].height)]
       else [])
      + FitEffects(players, views[1..])
  }

  /** `updatePlayerViews` handles each view on its own: its effect is the concatenation of theirs. */
  lemma {:induction false} UpdatePlayerViewsEffects(vm: ViewModel, views: seq<PlayerView>)
    ensures UpdatePlayerViews(vm, views).effects == vm.effects + FitEffects(vm.players, views)
    decreases |views|
  {
    if |views| > 0 {
      UpdatePlayerViewsEffects(UpdatePlayerView(vm, views[0]), views[1..]);
    }
  }

  /** Applying `updatePlayerViews` to two lists one after the other is applying it to their concatenation. */
  lemma {:induction false} UpdatePlayerViewsCompose(vm: ViewModel, first: seq<PlayerView>, second: seq<PlayerView>)
    ensures UpdatePlayerViews(vm, first + second) == UpdatePlayerViews(UpdatePlayerViews(vm, first), second)
    decreases |first|
  {
    if |first| > 0 {
      assert (first + second)[1..] == first[1..] + second;
      UpdatePlayerViewsCompose(UpdatePlayerView(vm, first[0]), first[1..], second);
    } else {
      assert first + second == second;
    }
  }
}
