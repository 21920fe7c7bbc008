/** The call-status constants shared by the video components. */
module Constants {

  /** CALL_STATUS: each constructor carries the text the UI shows for it. */
  datatype CallStatus = Disconnected | Connecting | Connected | Ringing | Ended
  {
    function Text(): (t: string)
      ensures |t| > 0
    {
      match this
      case Disconnected => "disconnected"
      case Connecting => "connecting..."
      case Connected => "connected"
      case Ringing => "ringing..."
      case Ended => "ended"
    }
  }
}
