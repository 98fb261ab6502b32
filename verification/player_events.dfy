/**
 * The decoder listener and its translation into indexed player events
 * (common/PlayerExtensions.kt). The many optional listener hooks are one
 * tagged callback type; `Translate` is the listener `Player.init` installs.
 */
module PlayerEvents {
  import opened Wrappers
  import Decimal

  /** The decoder's playback states (`Player.State`). */
  datatype PlayerState = Idle | Ready | Buffering | Playing | Ended

  /** A quality level the decoder offers; only its name is consulted. */
  datatype Quality = Quality(name: string, bitrate: nat)

  /** One raw listener callback of the decoder. Sizes are never negative. */
  datatype PlayerCallback =
    | AnalyticsEvent(key: string, value: string)
    | Rebuffering
    | SeekCompleted(position: int)
    | QualityChanged(quality: Quality)
    | VideoSizeChanged(width: nat, height: nat)
    | CueReceived(text: string)
    | DurationChanged(duration: int)
    | StateChanged(state: PlayerState)
    | ErrorRaised(code: int, message: string)
    | MetadataReceived(data: string)
    | NetworkUnavailable

  /** `VideoSizeState`: a reported video size, tagged with the player index. */
  datatype VideoSizeState = VideoSizeState(index: nat, isLandscape: bool, width: nat, height: nat)

  /** `Error` (ui/models/Error.kt): the code is carried as its decimal string. */
  datatype Error = Error(playerIndex: nat, errorCode: string, errorMessage: string)

  /** An event handed to the view model's three handlers. */
  datatype PlayerEvent =
    | SizeEvent(size: VideoSizeState)
    | StateEvent(state: PlayerState, playerIndex: nat)
    | ErrorEvent(error: Error)
  {
    /** The player the event was tagged with. */
    function Index(): nat
    {
      match this
      case SizeEvent(s) => s.index
      case StateEvent(_, i) => i
      case ErrorEvent(e) => e.playerIndex
    }
  }

  /** The callbacks the installed listener passes on; all other hooks default to no-ops. */
  predicate Forwarded(cb: PlayerCallback)
  {
    cb.VideoSizeChanged? || cb.StateChanged? || (cb.ErrorRaised? && cb.code != 0)
  }

  /**
   * The listener `Player.init(playerIndex, ...)` installs: sizes and states
   * are passed on tagged with the player's index, errors only for a non-zero code.
   */
  function Translate(playerIndex: nat, cb: PlayerCallback): (r: Option<PlayerEvent>)
    ensures r.Some? <==> Forwarded(cb)
    ensures r.Some? ==> r.value.Index() == playerIndex
    ensures cb.VideoSizeChanged? ==>
      && r.value.SizeEvent? && r.value.size.width == cb.width && r.value.size.height == cb.height
      && (r.value.size.isLandscape <==> cb.width >= cb.height)
    ensures cb.StateChanged? ==> r.value.StateEvent? && r.value.state == cb.state
    ensures cb.ErrorRaised? && cb.code != 0 ==>
      && r.value.ErrorEvent?
      && r.value.error.errorCode == Decimal.DecimalString(cb.code)
      && r.value.error.errorMessage == cb.message
  {
    match cb
    case VideoSizeChanged(w, h) => Some(SizeEvent(VideoSizeState(playerIndex, w >= h, w, h)))
    case StateChanged(s) => Some(StateEvent(s, playerIndex))
    case ErrorRaised(code, message) =>
      if code != 0 then Some(ErrorEvent(Error(playerIndex, Decimal.DecimalString(code), message)))
      else None
    case _ => None
  }

  /** The callback an event was made from, reading the error code back from its string. */
  function Recover(ev: PlayerEvent): Option<PlayerCallback>
  {
    match ev
    case SizeEvent(s) => Some(VideoSizeChanged(s.width, s.height))
    case StateEvent(st, _) => Some(StateChanged(st))
    case ErrorEvent(e) =>
      match Decimal.ParseDecimal(e.errorCode)
      case Some(code) => Some(ErrorRaised(code, e.errorMessage))
      case None => None
  }

  /** The translation loses nothing: every forwarded callback can be recovered from its event. */
  lemma TranslateLossless(playerIndex: nat, cb: PlayerCallback)
    requires Forwarded(cb)
    ensures Recover(Translate(playerIndex, cb).value) == Some(cb)
  {
    if cb.ErrorRaised? {
      Decimal.DecimalRoundTrip(cb.code);
    }
  }

  /** A code-0 error is informational and produces no event. */
  lemma ZeroCodeSuppressed(playerIndex: nat, message: string)
    ensures Translate(playerIndex, ErrorRaised(0, message)) == None
  {
  }
}
