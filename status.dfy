/**
 * The status mapper: services report a status token and a message, and the
 * mapper forwards it to the status window as a colour class, dropping the
 * call when no window is set or the token is unknown.
 */
module Status {

  import opened Wrappers

  /** Identifies the window that receives status messages. */
  type WindowId = nat

  /** What the window receives: `window.send( channel, colour, message )`. */
  datatype Message = Message(window: WindowId, channel: string, colour: string, text: string)

  /** `statusMap`: status token to colour class. */
  const StatusMap: map<string, string> :=
    map["okay" := "positive", "warning" := "intermediary", "error" := "negative"]

  /** `statusMap[ status ]`, or nothing for a token the map does not hold. */
  function Colour(status: string): (r: Option<string>)
    ensures r.Some? <==> status in {"okay", "warning", "error"}
    ensures status == "okay" ==> r == Some("positive")
    ensures status == "warning" ==> r == Some("intermediary")
    ensures status == "error" ==> r == Some("negative")
  {
    if status in StatusMap then Some(StatusMap[status]) else None
  }

  /** The message `setStatus` sends, if any, for the window in place. */
  function Outgoing(window: Option<WindowId>, status: string, text: string): (r: Option<Message>)
    ensures r.Some? <==> window.Some? && status in {"okay", "warning", "error"}
    ensures r.Some? ==> r.value.window == window.value && r.value.channel == "status"
                        && Some(r.value.colour) == Colour(status) && r.value.text == text
  {
    if window.None? then None
    else if Colour(status).None? then None
    else Some(Message(window.value, "status", Colour(status).value, text))
  }

  /** The watcher's `setStatus( 'grunt', ... )` calls never reach the window. */
  lemma GruntReportsDropped(window: Option<WindowId>, text: string)
    ensures Outgoing(window, "grunt", text) == None
  {
    assert "grunt" != "okay" && "grunt" != "warning" && "grunt" != "error";
  }

  /** The module-level `statusWindow` and what has been sent to it. */
  class StatusChannel {
    var window: Option<WindowId>
    var sent: seq<Message>

    constructor ()
      ensures window == None && sent == []
    {
      window := None;
      sent := [];
    }

    /** `setStatusWindow`: the new window replaces the previous one. */
    method SetStatusWindow(w: Option<WindowId>)
      modifies this
      ensures window == w && sent == old(sent)
    {
      window := w;
    }

    /** `setStatus`: sends the message `Outgoing` describes, and only that. */
    method SetStatus(status: string, text: string)
      modifies this
      ensures window == old(window)
      ensures sent == old(sent) + match Outgoing(old(window), status, text)
                                  case Some(m) => [m]
                                  case None => []
    {
      if window.None? {
        return;
      }
      var colour := Colour(status);
      if colour.None? {
        return;
      }
      sent := sent + [Message(window.value, "status", colour.value, text)];
    }
  }
}
