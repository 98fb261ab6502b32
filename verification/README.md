# Multiple players: orchestrator and layout geometry

A Dafny model of the two pieces of logic in an Android app that plays several
live video streams side by side on one screen.

- **The player orchestrator.** This is the per-screen view model (`FirstLayoutViewModel`, `SecondLayoutViewModel`). It covers:
  - creating one decoder per entry of the screen's stream table;
  - the listener `Player.init` installs, which translates raw decoder callbacks into indexed size, state and error events;
  - keeping a per-player buffering list with a keyed upsert;
  - posting size changes, buffering snapshots, playing values and errors;
  - broadcasting play and pause, releasing the players, and fitting the player views.

  The view model is one immutable value, and every command and callback is a pure transition (`Orchestrator.Step`). What the view model posts is an append-only log, and the calls it makes on decoders and views are an append-only effect log. `isPlaying` is the last posted playing value, false before any.
- **The layout geometry:**
  - the three fragments' `updateViewDimensions` searches: a featured stream with two stacked ones; two equal squares; a large stream with a small inset;
  - their portrait closed forms;
  - the zoom-to-fit computation `calculateSurfaceSize`;
  - `clearAllAnchors`;
  - the shared constants and the `dp` conversion.

  Sizes are exact `real`s, so 0.5625 is exactly 9/16, and the display density is a positive parameter.

Files:
- `wrappers.dfy`: `Option`.
- `sizing.dfy`: constants, `dp` and rounding.
- `streams.dfy`: the stream tables.
- `decimal.dfy`: `Int.toString` and its inverse.
- `player_events.dfy`: the listener translation.
- `buffering.dfy`: the buffering list.
- `orchestrator.dfy`: the view model and its operations.
- `orchestrator_properties.dfy`: invariants over arbitrary input sequences.
- `square_layout.dfy`, `featured_layout.dfy`, `inset_layout.dfy`: the three searches.
- `surface_fit.dfy`: zoom to fit.
- `anchors.dfy`: `clearAllAnchors`.

The central properties:
- **Well-formedness** (`OrchestratorProperties.RunPreservesWellFormed`). Every sequence of commands and callbacks keeps a view model well formed:
  - handles follow the table;
  - there is at most one buffering entry per table slot;
  - a playing player is never hidden behind a posted `false`.
- **The playing flag** (`StateCallbackSynchronizesPlaying`, `RunWithoutReleaseConsistent`). After every state callback the posted playing value equals "some player is PLAYING". In a run with no `release`, or from a state where the two agree, it stays equal after every input other than `release`.
- **Zoom to fit** (`SurfaceFit.SurfaceCoversCard`, `SurfaceKeepsAspect`). For every positive video size the result covers the card and keeps the video's aspect to within a pixel.

## Model

| member | source | states |
|---|---|---|
| Sizing.IntRange | app/src/main/java/com/amazon/ivs/multiple/players/common/CommonExtensions.kt:9 | The inclusive range `first..last` holds `last - first + 1` elements (none when empty), the i-th being `first + i`. |
| Sizing.MeasureRepeatCountIsFour | app/src/main/java/com/amazon/ivs/multiple/players/common/CommonExtensions.kt:9 | `MEASURE_REPEAT_COUNT` is 4, because `0..3` includes both ends. |
| Sizing.WideScreenIsNineSixteenths | app/src/main/java/com/amazon/ivs/multiple/players/common/CommonExtensions.kt:5 | `WIDE_SCREEN_PROPORTION` is exactly 9/16. |
| Sizing.DpStrictlyIncreasing | app/src/main/java/com/amazon/ivs/multiple/players/common/CommonExtensions.kt:11 | For a positive density, `n.dp` grows strictly with `n`. |
| Sizing.GuttersOrdered | app/src/main/java/com/amazon/ivs/multiple/players/common/CommonExtensions.kt:11 | The gutters are ordered: `0.5 < 8.dp < 16.dp < 24.dp` for every positive density. |
| Sizing.Round | app/src/main/java/com/amazon/ivs/multiple/players/ui/firstlayout/FirstLayoutFragment.kt:198-203 | `roundToInt` gives the integer nearest to its argument, with halves rounded up. |
| Sizing.Truncate | app/src/main/java/com/amazon/ivs/multiple/players/common/ViewExtensions.kt:117-118 | `toInt` of a non-negative value gives the largest integer not above it. |
| Sizing.RoundWhole | app/src/main/java/com/amazon/ivs/multiple/players/ui/secondlayout/SecondLayoutFragment.kt:180-183 | Rounding a whole number of pixels gives that number back. |
| Streams.FirstLayoutStreams | app/src/main/java/com/amazon/ivs/multiple/players/ui/models/Stream.kt:3-7 | The first table has 3 entries, each indexed by its position, with max qualities 1080p, 480p, 480p. |
| Streams.SecondLayoutStreams | app/src/main/java/com/amazon/ivs/multiple/players/ui/models/Stream.kt:9-12 | The second table has 2 entries, each indexed by its position, both with max quality 1080p. |
| Streams.ThirdLayoutStreams | app/src/main/java/com/amazon/ivs/multiple/players/ui/models/Stream.kt:14-17 | The third table has 2 entries, each indexed by its position, with max qualities 1080p and 480p. |
| Streams.ChannelUriInjective | app/src/main/java/com/amazon/ivs/multiple/players/ui/models/Stream.kt:4-16 | Two stream URIs built on the shared prefix are equal only if their channel identifiers are. |
| Streams.DistinctChannelsDistinctUris | app/src/main/java/com/amazon/ivs/multiple/players/ui/models/Stream.kt:4-16 | Pairwise distinct channel identifiers give pairwise distinct URIs. |
| Streams.AllUrisDistinct | app/src/main/java/com/amazon/ivs/multiple/players/ui/models/Stream.kt:4-16 | The seven URIs of the three tables are pairwise distinct. |
| Decimal.NatDigits | app/src/main/java/com/amazon/ivs/multiple/players/common/PlayerExtensions.kt:47 | A natural number renders as a non-empty run of digits with no leading zero. |
| Decimal.DecimalString | app/src/main/java/com/amazon/ivs/multiple/players/common/PlayerExtensions.kt:47 | `code.toString()` is non-empty; it is all digits exactly when the code is non-negative, and starts with `-` exactly when it is negative. |
| Decimal.NatDigitsRoundTrip | app/src/main/java/com/amazon/ivs/multiple/players/common/PlayerExtensions.kt:47 | Reading back the digits of a natural number gives the number. |
| Decimal.DecimalRoundTrip | app/src/main/java/com/amazon/ivs/multiple/players/common/PlayerExtensions.kt:47 | Parsing the rendering of any integer error code gives the code back. |
| Decimal.DecimalStringInjective | app/src/main/java/com/amazon/ivs/multiple/players/common/PlayerExtensions.kt:47 | Two error codes render to the same string exactly when they are equal. |
| PlayerEvents.Translate | app/src/main/java/com/amazon/ivs/multiple/players/common/PlayerExtensions.kt:33-50 | The listener forwards exactly sizes, states and errors with a non-zero code, each tagged with the player index. A size event keeps width and height and is landscape iff `width >= height`. A state event keeps the state. An error event carries the code as its decimal string and the message unchanged. |
| PlayerEvents.TranslateLossless | app/src/main/java/com/amazon/ivs/multiple/players/common/PlayerExtensions.kt:38-50 | Every forwarded callback can be recovered from its event: sizes, states, error codes and messages are passed on unchanged. |
| PlayerEvents.ZeroCodeSuppressed | app/src/main/java/com/amazon/ivs/multiple/players/common/PlayerExtensions.kt:46 | An error with code 0 produces no event. |
| Buffering.LookupMissesIffAbsent | app/src/main/java/com/amazon/ivs/multiple/players/ui/firstlayout/FirstLayoutViewModel.kt:109 | `find { it.playerId == id }` misses exactly when no entry has that id. |
| Buffering.AsMapAgreesWithLookup | app/src/main/java/com/amazon/ivs/multiple/players/ui/firstlayout/FirstLayoutViewModel.kt:109 | Read as a map, the list has the keys the lookup finds, with the flags the lookup returns (first entry wins). |
| Buffering.Upsert | app/src/main/java/com/amazon/ivs/multiple/players/ui/firstlayout/FirstLayoutViewModel.kt:109-113 | After the upsert the id looks up to the new flag. A known id keeps the length; an unknown id gets a new entry appended at the end. |
| Buffering.UpsertIds | app/src/main/java/com/amazon/ivs/multiple/players/ui/firstlayout/FirstLayoutViewModel.kt:109-113 | The upsert adds its id to the set of ids with an entry and removes none. |
| Buffering.UpsertKeepsOtherLookups | app/src/main/java/com/amazon/ivs/multiple/players/ui/firstlayout/FirstLayoutViewModel.kt:109-113 | Every other id looks up to the same flag as before. |
| Buffering.UpsertKeepsPositions | app/src/main/java/com/amazon/ivs/multiple/players/ui/firstlayout/FirstLayoutViewModel.kt:109-113 | No entry is removed or moved: every position keeps its id, and entries of other ids are unchanged. |
| Buffering.UpsertIsMapUpdate | app/src/main/java/com/amazon/ivs/multiple/players/ui/firstlayout/FirstLayoutViewModel.kt:109-113 | Read as a map, the upsert is exactly a map update at the id. |
| Buffering.UpsertIdempotent | app/src/main/java/com/amazon/ivs/multiple/players/ui/firstlayout/FirstLayoutViewModel.kt:109-113 | Upserting the same flag twice equals upserting it once. |
| Buffering.UniqueIdsPairwise | app/src/main/java/com/amazon/ivs/multiple/players/ui/secondlayout/SecondLayoutViewModel.kt:113-121 | "At most one entry per id" holds iff no two positions share an id. |
| Buffering.UpsertKeepsUniqueIds | app/src/main/java/com/amazon/ivs/multiple/players/ui/secondlayout/SecondLayoutViewModel.kt:113-121 | The upsert never creates a second entry for an id. |
| Buffering.UpsertSingleEntry | app/src/main/java/com/amazon/ivs/multiple/players/ui/secondlayout/SecondLayoutViewModel.kt:113-121 | With unique ids, the upserted id ends with exactly one entry, and that entry carries the new flag. |
| Buffering.LookupFindsUnique | app/src/main/java/com/amazon/ivs/multiple/players/ui/firstlayout/FirstLayoutViewModel.kt:109 | With unique ids, the lookup returns the flag at the only position that holds the id. |
| Buffering.MarkedBufferingLooksUp | app/src/main/java/com/amazon/ivs/multiple/players/ui/firstlayout/FirstLayoutViewModel.kt:25-26 | Marking the first `n` slots buffering makes each of them look up to true and leaves every other id as it was. |
| Buffering.MarkedBufferingLooksUpAt | app/src/main/java/com/amazon/ivs/multiple/players/ui/firstlayout/FirstLayoutViewModel.kt:25-26 | The same, for one id. |
| Buffering.MarkedBufferingIds | app/src/main/java/com/amazon/ivs/multiple/players/ui/firstlayout/FirstLayoutViewModel.kt:25-26 | Marking the first `n` slots adds exactly those ids to the ids with an entry. |
| Buffering.MarkedBufferingUnique | app/src/main/java/com/amazon/ivs/multiple/players/ui/secondlayout/SecondLayoutViewModel.kt:32-33 | Marking slots buffering never duplicates an id. |
| Orchestrator.FirstLayout | app/src/main/java/com/amazon/ivs/multiple/players/ui/firstlayout/FirstLayoutViewModel.kt:23-80 | The first screen plays its 3-stream table and unbinds surfaces on release. |
| Orchestrator.SecondLayout | app/src/main/java/com/amazon/ivs/multiple/players/ui/secondlayout/SecondLayoutViewModel.kt:30-86 | The second screen plays its 2-stream table and does not unbind surfaces on release. |
| Orchestrator.NewViewModel | app/src/main/java/com/amazon/ivs/multiple/players/ui/firstlayout/FirstLayoutViewModel.kt:16-21 | A new view model has no players, no buffering entries, nothing posted and no calls made. |
| Orchestrator.LastPlaying | app/src/main/java/com/amazon/ivs/multiple/players/ui/secondlayout/SecondLayoutViewModel.kt:28 | The replay-cache value is absent iff no playing value was ever posted. Otherwise it is one of the values posted. |
| Orchestrator.IsPlaying | app/src/main/java/com/amazon/ivs/multiple/players/ui/secondlayout/SecondLayoutViewModel.kt:28 | `isPlaying` is true exactly when the last posted playing value is `true`; with none posted it is false. |
| Orchestrator.FindHandle | app/src/main/java/com/amazon/ivs/multiple/players/ui/firstlayout/FirstLayoutViewModel.kt:31 | `playerSet.find` misses iff no handle has the index. Otherwise it returns the first position holding the index. |
| Orchestrator.FirstQualityNamed | app/src/main/java/com/amazon/ivs/multiple/players/ui/firstlayout/FirstLayoutViewModel.kt:45 | `firstOrNull` misses iff no quality has the name. Otherwise it returns the earliest quality with that name. |
| Orchestrator.UpdateBufferingState | app/src/main/java/com/amazon/ivs/multiple/players/ui/firstlayout/FirstLayoutViewModel.kt:107-115 | The flag is upserted, and the posted snapshot equals the list after the update. Nothing else changes. |
| Orchestrator.StartCallsUpTo | app/src/main/java/com/amazon/ivs/multiple/players/ui/firstlayout/FirstLayoutViewModel.kt:28-67 | Starting `n` streams makes four calls per stream. |
| Orchestrator.StartCallsInTableOrder | app/src/main/java/com/amazon/ivs/multiple/players/ui/firstlayout/FirstLayoutViewModel.kt:28-67 | Stream `i`'s calls come at positions `4i .. 4i+4`, in table order: attach the listener (`Player.init`), bind the surface at position `i` (or none), load the stream's URI, play. |
| Orchestrator.NewHandles | app/src/main/java/com/amazon/ivs/multiple/players/ui/firstlayout/FirstLayoutViewModel.kt:25-68 | One handle per table entry, in table order, with index = position, state idle and size 0x0. |
| Orchestrator.MarkingSnapshots | app/src/main/java/com/amazon/ivs/multiple/players/ui/firstlayout/FirstLayoutViewModel.kt:26 | Initialisation posts one buffering snapshot per stream and nothing else. |
| Orchestrator.InitPlayers | app/src/main/java/com/amazon/ivs/multiple/players/ui/firstlayout/FirstLayoutViewModel.kt:23-70 | With players present, nothing changes. Otherwise it adds one handle per stream (index = position, size 0x0) and marks every stream index buffering. It appends the start calls in table order and posts one snapshot per stream. |
| Orchestrator.OnVideoSizeChanged | app/src/main/java/com/amazon/ivs/multiple/players/ui/firstlayout/FirstLayoutViewModel.kt:30-37 | An unknown index changes nothing. A known one gets the new size, other handles unchanged. The index is posted iff width or height differs, and an identical size changes nothing. |
| Orchestrator.HandleState | app/src/main/java/com/amazon/ivs/multiple/players/ui/firstlayout/FirstLayoutViewModel.kt:40-54 | BUFFERING upserts true and posts the updated list; PLAYING upserts false, posts the updated list and then `true`; READY posts nothing and sets the auto max quality to the first quality named like the stream's max quality, if any; other states change and post nothing. |
| Orchestrator.OnStateChanged | app/src/main/java/com/amazon/ivs/multiple/players/ui/firstlayout/FirstLayoutViewModel.kt:39-59 | The posts are exactly those of the `when` (the updated list for BUFFERING and PLAYING, then `true` for PLAYING), followed by `false` when no player is PLAYING and by nothing otherwise. So with no player PLAYING, `isPlaying` ends false. With one playing, it ends true after PLAYING and is otherwise unchanged. Handles are untouched. |
| Orchestrator.SetDecoderState | app/src/main/java/com/amazon/ivs/multiple/players/ui/firstlayout/FirstLayoutViewModel.kt:56 | A decoder's state is whatever its last state callback said. Only that handle's state changes; every other handle and the rest of the view model are untouched. |
| Orchestrator.OnError | app/src/main/java/com/amazon/ivs/multiple/players/ui/firstlayout/FirstLayoutViewModel.kt:60-62 | An error is posted as is and changes nothing else. |
| Orchestrator.OnCallback | app/src/main/java/com/amazon/ivs/multiple/players/ui/firstlayout/FirstLayoutViewModel.kt:28-62 | A callback for an index with no player, or one the listener does not forward, changes nothing. A size callback is the size handler on the tagged, unchanged size. A non-zero error posts `Error(index, decimal code, message)` and changes nothing else. |
| Orchestrator.Broadcast | app/src/main/java/com/amazon/ivs/multiple/players/ui/firstlayout/FirstLayoutViewModel.kt:82-92 | `play`/`pause` make one call per player, in list order. |
| Orchestrator.PlayAll | app/src/main/java/com/amazon/ivs/multiple/players/ui/firstlayout/FirstLayoutViewModel.kt:88-92 | `play` appends one play call per player, in list order, keeps every earlier call, and changes nothing else. |
| Orchestrator.PauseAll | app/src/main/java/com/amazon/ivs/multiple/players/ui/firstlayout/FirstLayoutViewModel.kt:82-86 | `pause` appends one pause call per player, in list order, keeps every earlier call, and changes nothing else. |
| Orchestrator.ReleaseAllCalls | app/src/main/java/com/amazon/ivs/multiple/players/ui/firstlayout/FirstLayoutViewModel.kt:72-80 | Player by player, in list order: remove the listener, clear the surface (only on a screen that unbinds), release. That is three calls per player on the first screen and two on the second; no players means no calls. |
| Orchestrator.ReleaseCallOwner | app/src/main/java/com/amazon/ivs/multiple/players/ui/firstlayout/FirstLayoutViewModel.kt:72-80 | Each call of `release` belongs to a player of the list, and a surface call in it is a clearing one. |
| Orchestrator.ReleaseCallsTargetPlayers | app/src/main/java/com/amazon/ivs/multiple/players/ui/firstlayout/FirstLayoutViewModel.kt:72-80 | Every call `release` makes is on one of the players, and its only surface call clears the surface, on a screen that unbinds. |
| Orchestrator.ReleasePlayers | app/src/main/java/com/amazon/ivs/multiple/players/ui/firstlayout/FirstLayoutViewModel.kt:72-80 | `release` appends exactly the per-player release calls after the earlier calls, then leaves no players. It posts nothing, keeps the buffering list, and does nothing on an empty set. |
| Orchestrator.UpdatePlayerView | app/src/main/java/com/amazon/ivs/multiple/players/ui/firstlayout/FirstLayoutViewModel.kt:100-105 | A view at a player's position fits its container to that player's size. Any other view changes nothing. |
| Orchestrator.UpdatePlayerViews | app/src/main/java/com/amazon/ivs/multiple/players/ui/firstlayout/FirstLayoutViewModel.kt:94-98 | Fitting views changes neither the players, the buffering list nor the log. |
| OrchestratorProperties.IsPlayingAfterPost | app/src/main/java/com/amazon/ivs/multiple/players/ui/secondlayout/SecondLayoutViewModel.kt:28 | Posting a playing value sets `isPlaying` to it. Posting anything else leaves it unchanged. |
| OrchestratorProperties.NotPlayingBeforeFirstPost | app/src/main/java/com/amazon/ivs/multiple/players/ui/secondlayout/SecondLayoutViewModel.kt:28 | `isPlaying` is false until a playing value is posted. |
| OrchestratorProperties.IsPlayingIgnoresSnapshots | app/src/main/java/com/amazon/ivs/multiple/players/ui/secondlayout/SecondLayoutViewModel.kt:28-33 | Posting only buffering snapshots leaves `isPlaying` unchanged. |
| OrchestratorProperties.NewViewModelWellFormed | app/src/main/java/com/amazon/ivs/multiple/players/ui/secondlayout/SecondLayoutViewModel.kt:17-28 | A new view model is well formed, and its playing flag agrees with its (absent) players. |
| OrchestratorProperties.StateStepUnfolds | app/src/main/java/com/amazon/ivs/multiple/players/common/PlayerExtensions.kt:42-44 | A state callback to a live player records the state, then runs the handler with the player's own index. |
| OrchestratorProperties.PlayingElsewhere | app/src/main/java/com/amazon/ivs/multiple/players/ui/secondlayout/SecondLayoutViewModel.kt:63 | If some player is PLAYING after one player left PLAYING, that was another player, already playing before. |
| OrchestratorProperties.StateCallbackSynchronizesPlaying | app/src/main/java/com/amazon/ivs/multiple/players/ui/secondlayout/SecondLayoutViewModel.kt:46-65 | From any well-formed state, after any state callback the last posted playing value equals "some player is PLAYING". |
| OrchestratorProperties.StateHandlerPosts | app/src/main/java/com/amazon/ivs/multiple/players/ui/firstlayout/FirstLayoutViewModel.kt:39-59 | A state handler posts `false` if and only if no player is PLAYING. Everything else it posts is the buffering list after its upsert or `true`, and it posts that list first exactly for BUFFERING and PLAYING. |
| OrchestratorProperties.InitFromEmpty | app/src/main/java/com/amazon/ivs/multiple/players/ui/firstlayout/FirstLayoutViewModel.kt:23-70 | First initialisation yields the fresh handles and the marked buffering list. Logs are only extended, and `isPlaying` is unchanged. |
| OrchestratorProperties.MarkedKeyedBySlot | app/src/main/java/com/amazon/ivs/multiple/players/ui/firstlayout/FirstLayoutViewModel.kt:25-26 | Marking every slot keeps at most one buffering entry per id, with only table ids. |
| OrchestratorProperties.NewHandlesFollowTable | app/src/main/java/com/amazon/ivs/multiple/players/ui/firstlayout/FirstLayoutViewModel.kt:25-68 | Fresh handles follow the table (index = position) and none is PLAYING. |
| OrchestratorProperties.InitPreservesWellFormed | app/src/main/java/com/amazon/ivs/multiple/players/ui/firstlayout/FirstLayoutViewModel.kt:23-70 | `initPlayers` keeps a view model well formed. |
| OrchestratorProperties.UpsertKeyedBySlot | app/src/main/java/com/amazon/ivs/multiple/players/ui/firstlayout/FirstLayoutViewModel.kt:107-113 | Upserting a table id keeps the buffering list keyed by table slot. |
| OrchestratorProperties.StateCallbackPreservesWellFormed | app/src/main/java/com/amazon/ivs/multiple/players/ui/firstlayout/FirstLayoutViewModel.kt:39-59 | A state callback keeps a view model well formed. |
| OrchestratorProperties.SizeCallbackPreservesWellFormed | app/src/main/java/com/amazon/ivs/multiple/players/ui/firstlayout/FirstLayoutViewModel.kt:30-37 | A size callback keeps a view model well formed. |
| OrchestratorProperties.ErrorCallbackPreservesWellFormed | app/src/main/java/com/amazon/ivs/multiple/players/ui/firstlayout/FirstLayoutViewModel.kt:60-62 | An error callback keeps a view model well formed. |
| OrchestratorProperties.StepPreservesWellFormed | app/src/main/java/com/amazon/ivs/multiple/players/ui/firstlayout/FirstLayoutViewModel.kt:23-115 | Every command and callback keeps a view model well formed. |
| OrchestratorProperties.OtherCallbackKeepsPlaying | app/src/main/java/com/amazon/ivs/multiple/players/ui/firstlayout/FirstLayoutViewModel.kt:30-62 | Size, error and ignored callbacks keep every decoder state and leave `isPlaying` unchanged. |
| OrchestratorProperties.InitKeepsConsistent | app/src/main/java/com/amazon/ivs/multiple/players/ui/firstlayout/FirstLayoutViewModel.kt:23-70 | `initPlayers` keeps `isPlaying` equal to "some player is PLAYING". |
| OrchestratorProperties.StepPreservesConsistent | app/src/main/java/com/amazon/ivs/multiple/players/ui/secondlayout/SecondLayoutViewModel.kt:28-111 | Every input except `release` keeps `isPlaying` equal to "some player is PLAYING". |
| OrchestratorProperties.ReleaseKeepsLastPlayingValue | app/src/main/java/com/amazon/ivs/multiple/players/ui/secondlayout/SecondLayoutViewModel.kt:79-86 | After `release` the flag still agrees iff no player was PLAYING: a playing set leaves a stale `true`. |
| OrchestratorProperties.StaleFlagOutlastsInit | app/src/main/java/com/amazon/ivs/multiple/players/ui/secondlayout/SecondLayoutViewModel.kt:79-86 | After releasing a set with a PLAYING player, a new `initPlayers` and any following `play` or `pause` leave `isPlaying` true while no player is PLAYING. |
| OrchestratorProperties.RunPreservesWellFormed | app/src/main/java/com/amazon/ivs/multiple/players/ui/secondlayout/SecondLayoutViewModel.kt:30-121 | Every sequence of inputs keeps a view model well formed. |
| OrchestratorProperties.RunWithoutReleaseConsistent | app/src/main/java/com/amazon/ivs/multiple/players/ui/secondlayout/SecondLayoutViewModel.kt:28-111 | Without `release`, `isPlaying` equals "some player is PLAYING" after every sequence of inputs. |
| OrchestratorProperties.ConsistentAfterEveryStateCallback | app/src/main/java/com/amazon/ivs/multiple/players/ui/secondlayout/SecondLayoutViewModel.kt:46-65 | From a new view model, after any history, a state callback to a live player leaves `isPlaying` equal to "some player is PLAYING". |
| OrchestratorProperties.StepAppendsOnly | app/src/main/java/com/amazon/ivs/multiple/players/ui/firstlayout/FirstLayoutViewModel.kt:16-115 | No input takes back a posted value or a made call, or removes a buffering entry. The screen's table is never changed. |
| OrchestratorProperties.InitAppendsOnly | app/src/main/java/com/amazon/ivs/multiple/players/ui/firstlayout/FirstLayoutViewModel.kt:23-70 | `initPlayers` only extends the logs and the buffering ids. |
| OrchestratorProperties.CallbackAppendsOnly | app/src/main/java/com/amazon/ivs/multiple/players/ui/firstlayout/FirstLayoutViewModel.kt:30-62 | Callbacks only extend the logs and the buffering ids. |
| OrchestratorProperties.UpdatePlayerViewsAppends | app/src/main/java/com/amazon/ivs/multiple/players/ui/firstlayout/FirstLayoutViewModel.kt:94-98 | `updatePlayerViews` only appends calls. |
| OrchestratorProperties.RunAppendsOnly | app/src/main/java/com/amazon/ivs/multiple/players/ui/firstlayout/FirstLayoutViewModel.kt:16-115 | Over any sequence of inputs the logs and the buffering ids only grow. |
| OrchestratorProperties.InitPlayersIdempotent | app/src/main/java/com/amazon/ivs/multiple/players/ui/firstlayout/FirstLayoutViewModel.kt:24 | A second `initPlayers` changes nothing, whatever views it is given. |
| OrchestratorProperties.ReleaseIdempotent | app/src/main/java/com/amazon/ivs/multiple/players/ui/firstlayout/FirstLayoutViewModel.kt:72-80 | A second `release` changes nothing. |
| OrchestratorProperties.VideoSizeIdempotent | app/src/main/java/com/amazon/ivs/multiple/players/ui/firstlayout/FirstLayoutViewModel.kt:30-37 | Delivering the same size twice changes nothing the second time. |
| OrchestratorProperties.UpdatePlayerViewsEffects | app/src/main/java/com/amazon/ivs/multiple/players/ui/secondlayout/SecondLayoutViewModel.kt:100-111 | `updatePlayerViews` fits exactly the views naming a player, each on its own, in order. |
| OrchestratorProperties.UpdatePlayerViewsCompose | app/src/main/java/com/amazon/ivs/multiple/players/ui/secondlayout/SecondLayoutViewModel.kt:100-104 | Fitting two lists one after the other equals fitting their concatenation. |
| SquareLayout.GrowSide | app/src/main/java/com/amazon/ivs/multiple/players/ui/secondlayout/SecondLayoutFragment.kt:168-178 | The side after the loop is `10 + steps`, where `steps` is the only count at which the guard first fails. On exit a bound is violated. If the loop iterated at least once, the previous side satisfied both bounds. |
| SquareLayout.SecondLayoutDimensions | app/src/main/java/com/amazon/ivs/multiple/players/ui/secondlayout/SecondLayoutFragment.kt:161-184 | Both streams get the same square, `round(side) = 10 + steps` pixels wide and high. |
| SquareLayout.StopsAfterUnique | app/src/main/java/com/amazon/ivs/multiple/players/ui/secondlayout/SecondLayoutFragment.kt:171-177 | The number of steps is determined by the bounds. |
| SquareLayout.StopsAfterIffLastStep | app/src/main/java/com/amazon/ivs/multiple/players/ui/secondlayout/SecondLayoutFragment.kt:171-177 | The search stops after `k` steps iff the guard fails at `k` and held at `k - 1`. |
| SquareLayout.LargerScreenLargerSide | app/src/main/java/com/amazon/ivs/multiple/players/ui/secondlayout/SecondLayoutFragment.kt:170-178 | Enlarging the width or height never decreases the resulting side. |
| SquareLayout.PortraitSwapsRoles | app/src/main/java/com/amazon/ivs/multiple/players/ui/secondlayout/SecondLayoutFragment.kt:170-177 | Portrait is the landscape search with width and height swapped. |
| SquareLayout.OvershootBelowOneStep | app/src/main/java/com/amazon/ivs/multiple/players/ui/secondlayout/SecondLayoutFragment.kt:171-177 | If the loop iterated at least once, the side exceeds the single-side limit by less than 1, and twice the side exceeds the pair limit by less than 2. |
| FeaturedLayout.GrowLandscape | app/src/main/java/com/amazon/ivs/multiple/players/ui/firstlayout/FirstLayoutFragment.kt:177-189 | The search is the iteration at which the guard first fails, and on exit a bound is violated. A guard false at once leaves all four at 10. Otherwise `lW = 10 + steps`, `lH = lW·9/16`, `2·sH + 8dp = lH` and `sW = sH/(9/16)`. |
| FeaturedLayout.RowWidensByHalfStep | app/src/main/java/com/amazon/ivs/multiple/players/ui/firstlayout/FirstLayoutFragment.kt:183-189 | After the first iteration, each further one widens `lW + sW` by 1.5. |
| FeaturedLayout.OvershootBelowOneStep | app/src/main/java/com/amazon/ivs/multiple/players/ui/firstlayout/FirstLayoutFragment.kt:183-189 | If the loop iterated at least once, `lW + sW` exceeds `W − 24dp` by less than 1.5 and `lH` exceeds `H − 8dp` by less than 9/16. |
| FeaturedLayout.StopsAfterUnique | app/src/main/java/com/amazon/ivs/multiple/players/ui/firstlayout/FirstLayoutFragment.kt:183 | The number of iterations is determined by the screen. |
| FeaturedLayout.LargerScreenWiderFeatured | app/src/main/java/com/amazon/ivs/multiple/players/ui/firstlayout/FirstLayoutFragment.kt:183-189 | A larger screen never gives a narrower featured stream. |
| FeaturedLayout.Portrait | app/src/main/java/com/amazon/ivs/multiple/players/ui/firstlayout/FirstLayoutFragment.kt:190-195 | Portrait: `lW + 16dp = W`, `2·sW + 8dp = lW`, and both heights are 9/16 of their widths. |
| FeaturedLayout.PixelSizes | app/src/main/java/com/amazon/ivs/multiple/players/ui/firstlayout/FirstLayoutFragment.kt:198-203 | Streams B and C receive the same pixel size. |
| FeaturedLayout.FirstLayoutDimensions | app/src/main/java/com/amazon/ivs/multiple/players/ui/firstlayout/FirstLayoutFragment.kt:169-204 | Landscape runs the search and portrait the closed form. Stream A gets the rounded featured size, and B and C get the same rounded secondary size. |
| InsetLayout.Grow | app/src/main/java/com/amazon/ivs/multiple/players/ui/thirdlayout/ThirdLayoutFragment.kt:160-174 | Either loop ends at the first iteration at which its guard fails, and on exit a bound is violated. A guard false at once leaves the size at 10x10. Otherwise the width overshoots its bound by less than 1, and the height keeps `w·9/16` (large) or `w/(9/16)` (small). |
| InsetLayout.StopsAfterUnique | app/src/main/java/com/amazon/ivs/multiple/players/ui/thirdlayout/ThirdLayoutFragment.kt:166-174 | The number of iterations is determined by the limits. |
| InsetLayout.LooserLimitsWiderStream | app/src/main/java/com/amazon/ivs/multiple/players/ui/thirdlayout/ThirdLayoutFragment.kt:166-174 | Looser limits never give a narrower stream. |
| InsetLayout.Portrait | app/src/main/java/com/amazon/ivs/multiple/players/ui/thirdlayout/ThirdLayoutFragment.kt:175-191 | Portrait: `lW + 16dp = W`, `lH = lW·9/16`, `3·sH = H`, `sW = sH·9/16`. |
| InsetLayout.ThirdLayoutDimensions | app/src/main/java/com/amazon/ivs/multiple/players/ui/thirdlayout/ThirdLayoutFragment.kt:153-192 | In landscape the large loop runs up to 78% of the width less 24dp and overshoots it by less than 1. The small loop is bounded by the width the final large width leaves. Portrait uses the closed form, and the streams get the rounded sizes. |
| SurfaceFit.FromInt | app/src/main/java/com/amazon/ivs/multiple/players/common/ViewExtensions.kt:114-118 | A pixel count converts to a non-negative float. |
| SurfaceFit.Div | app/src/main/java/com/amazon/ivs/multiple/players/common/ViewExtensions.kt:114-118 | IEEE division of non-negative floats: NaN exactly for NaN operands, 0/0 and inf/inf; infinity exactly for inf/finite and positive/0. |
| SurfaceFit.Mul | app/src/main/java/com/amazon/ivs/multiple/players/common/ViewExtensions.kt:117-118 | IEEE multiplication of non-negative floats: NaN exactly for NaN operands and 0·inf; otherwise infinite iff an operand is. |
| SurfaceFit.ToInt | app/src/main/java/com/amazon/ivs/multiple/players/common/ViewExtensions.kt:117-118 | `Float.toInt()`: NaN gives 0, infinity and values past `Int.MAX_VALUE` give `Int.MAX_VALUE`, and other values truncate. |
| SurfaceFit.Saturate | app/src/main/java/com/amazon/ivs/multiple/players/common/ViewExtensions.kt:117-118 | Integer results past `Int.MAX_VALUE` are clamped to it. |
| SurfaceFit.SurfaceSize | app/src/main/java/com/amazon/ivs/multiple/players/common/ViewExtensions.kt:113-125 | Both sides lie in `0..Int.MAX_VALUE`. One side equals the card's, and the width is never below the card's. |
| SurfaceFit.TruncatedQuotient | app/src/main/java/com/amazon/ivs/multiple/players/common/ViewExtensions.kt:117-118 | Truncating `a·b/c` computed exactly agrees with saturated integer division. |
| SurfaceFit.QuotientsWhenPositive | app/src/main/java/com/amazon/ivs/multiple/players/common/ViewExtensions.kt:114-118 | For a positive video size both `isPortrait` branches compute `sW·vH/vW` and `sH·vW/vH` exactly. |
| SurfaceFit.SurfaceSizeMatchesDivision | app/src/main/java/com/amazon/ivs/multiple/players/common/ViewExtensions.kt:113-125 | For a positive video size the computation equals the integer-division reference. |
| SurfaceFit.DivisionCoversCard | app/src/main/java/com/amazon/ivs/multiple/players/common/ViewExtensions.kt:120-124 | The reference covers the card: neither side is smaller than the card's. |
| SurfaceFit.SurfaceCoversCard | app/src/main/java/com/amazon/ivs/multiple/players/common/ViewExtensions.kt:113-125 | Zoom to fit covers the card for every positive video size. |
| SurfaceFit.DivisionKeepsAspect | app/src/main/java/com/amazon/ivs/multiple/players/common/ViewExtensions.kt:117-124 | Below saturation the reference keeps the video's aspect to within one pixel. |
| SurfaceFit.SurfaceKeepsAspect | app/src/main/java/com/amazon/ivs/multiple/players/common/ViewExtensions.kt:113-125 | Below saturation the scaled side keeps the video's aspect to within one pixel of truncation. |
| SurfaceFit.ZeroWidthVideo | app/src/main/java/com/amazon/ivs/multiple/players/common/ViewExtensions.kt:114-118 | A video of width 0 gives the card's width and a saturated height. For a card of width 0, it gives the card. |
| SurfaceFit.ZeroHeightVideo | app/src/main/java/com/amazon/ivs/multiple/players/common/ViewExtensions.kt:114-118 | A video of height 0 gives a saturated width beside a card of positive height. A card of height 0 gives 0x0 when its width is 0 too, and otherwise keeps the card's width with height 0. |
| SurfaceFit.EmptyVideo | app/src/main/java/com/amazon/ivs/multiple/players/common/ViewExtensions.kt:114-118 | Before any size is reported (0x0), the view keeps the card's width with height 0, or the card itself if its width is 0. |
| Anchors.ClearAllAnchors | app/src/main/java/com/amazon/ivs/multiple/players/common/ViewExtensions.kt:66-79 | All eight anchors become UNSET, both percents 1 and both defaults SPREAD. Size and margins are untouched. |
| Anchors.ClearForgetsAnchors | app/src/main/java/com/amazon/ivs/multiple/players/common/ViewExtensions.kt:66-79 | Two params clear to the same params iff they agree on size and margins: nothing else survives. |
| Anchors.ClearIdempotent | app/src/main/java/com/amazon/ivs/multiple/players/common/ViewExtensions.kt:66-79 | Clearing twice is clearing once. |

## Left out

- Coroutines, flows and the Android lifecycle are not modelled. This covers:
  - `CoroutineExtensions.kt`, `waitForSurface`, both `onReady` helpers and `onDrawn`;
  - the `doOnLayout` wait in `zoomToFit`, which is modelled as an effect carrying the player's size;
  - the `updateOnRotation` retry loop and its delays, and the resume/destroy wiring.

  They are asynchronous plumbing without a sequential contract.
- The fragments' `updatePlayerConstraints` anchor assignments are left out, because what they mean depends on the ConstraintLayout solver. Only `clearAllAnchors` is modelled.
- Sizes are 32-bit floats in the app and exact reals here, so no claim is Float-exact. `roundToInt` is "nearest, halves up" and `toInt` is truncation. Only the NaN, infinity and saturation cases of zoom to fit are modelled as floats.
- The decoder SDK is not modelled. A handle's state is whatever its last state callback said, and its quality list is an input of that callback. `addListener`, `load`, `play`, `pause`, `setSurface`, `setAutoMaxQuality`, `removeListener` and `release` are recorded as effects, and surfaces are identified by their view's index.
- How `ConsumableLiveData` and `ConsumableSharedFlow` deliver values is not shown; posting is appending to the log.
- A callback for an index with no live handle is dropped. After `release` the listener is removed, and before `initPlayers` none exists. Whether the SDK could still deliver one is not modelled.
- Decoder sizes are natural numbers: the SDK never reports negative sizes.
- `ThirdLayoutViewModel` is not part of this model. Only the third layout's geometry and stream table are.
- `FirstLayoutFragment` refers to members the first view model does not declare (`onPlaying`, flow collection). The view model is modelled as written, and the two are not reconciled.
- Snackbars, navigation, `MainActivity`, `App`, the debug log tree and logging have no logic to model.
- Orchestrator.MarkingSnapshots: states only that one buffering snapshot is posted per stream. The content of each snapshot is `MarkedBuffering` of the list so far, as its body shows, and `InitPlayers` states the final list.
- Orchestrator.UpdatePlayerViews: its own contract says only what is not touched. The effects are stated by `OrchestratorProperties.UpdatePlayerViewsEffects`.
- Orchestrator.StartCallsUpTo: its own contract gives only the length. The content is stated by `Orchestrator.StartCallsInTableOrder`.
- SquareLayout.GrowSide: the loops stop only after a bound is violated, so a result can exceed its bound by up to one step's growth. In landscape, the square side exceeds `H − 16dp` by less than 1 and `2·side + 24dp` exceeds `W` by less than 2; portrait swaps `W` and `H` (`SquareLayout.OvershootBelowOneStep`). The featured row `lW + sW + 24dp` exceeds `W` by less than 1.5 (`FeaturedLayout.OvershootBelowOneStep`). The inset width exceeds its bound by less than 1 (`InsetLayout.Grow`).
- `release` keeps the last posted playing value while dropping every player. If a player was PLAYING, `isPlaying` stays `true` with no player left (`ReleaseKeepsLastPlayingValue`). The stale value outlasts later `initPlayers`, `play` and `pause` and is corrected only by the next state callback (`StaleFlagOutlastsInit`). This is recorded as an observation, not as a finding: the screen is being torn down at that point.
