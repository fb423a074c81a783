/** The array of objects a channel broadcasts for a message window. */
module WindowJson {
  import opened JsonText
  import MW = MessageWindows

  /** One entry of `cur_window` in `resolve_broadcast`. */
  function ObjectOf(m: MW.Msg, channel: nat): Object {
    [Member("type", Text(if m.kind.User? then "user" else "system")), Member("user_name", Text(m.userName)),
     Member("event", Text(m.text)), Member("timestamp", Int(m.timestamp))]
    + if m.kind.User? then [] else [Member("channel_id", Int(channel))]
  }

  const SERVER_GAP: string := " "

  /** The members of an object, without the braces around them. */
  function TailBody(o: Object): string {
    if o == [] then "" else ", " + MemberThen(o[0], SERVER_GAP, TailBody(o[1..]))
  }

  function Body(o: Object): string {
    if o == [] then "" else MemberThen(o[0], SERVER_GAP, TailBody(o[1..]))
  }

  function Bodies(w: seq<MW.Msg>, channel: nat): seq<string> {
    if w == [] then [] else [Body(ObjectOf(w[0], channel))] + Bodies(w[1..], channel)
  }

  /** The array `json_dumps` makes of a window. */
  function WindowText(w: seq<MW.Msg>, channel: nat): string {
    ArrayText(Bodies(w, channel))
  }
}
