/** The messages the pipeline's bus delivers, the pads the source announces
    in between, and how the main loop treats each of them. */
module Bus {
  import opened Outcomes
  import opened Gst

  /** A bus message. Error, Warning and Info carry the path of the element
      that posted them (when known), their text and optional debug detail. */
  datatype Message =
    | ErrorMsg(origin: Option<string>, text: string, debug: Option<string>)
    | WarningMsg(origin: Option<string>, text: string, debug: Option<string>)
    | InfoMsg(origin: Option<string>, text: string, debug: Option<string>)
    | Eos
    | OtherMsg

  /** What happens after the pipeline starts playing, in order: the source
      announcing a pad (the pad-added callback runs), or a bus message. */
  datatype Event = PadAdded(pad: Pad) | Posted(msg: Message)

  datatype Level = ErrorLevel | WarnLevel | InfoLevel | DebugLevel

  /** The messages that end the loop. */
  predicate Ends(m: Message) {
    m.ErrorMsg? || m.Eos?
  }

  predicate EndsRun(e: Event) {
    e.Posted? && Ends(e.msg)
  }

  /** How many events the loop consumes: up to and including the first Error
      or EOS, or all of them when neither comes. */
  function Consumed(events: seq<Event>): (n: nat)
    ensures n <= |events|
    ensures n < |events| ==> 0 < n && EndsRun(events[n - 1])
    ensures forall i :: 0 <= i < n - 1 ==> !EndsRun(events[i])
  {
    if events == [] then 0
    else if EndsRun(events[0]) then 1
    else 1 + Consumed(events[1..])
  }

  /** `Consumed` is the position just past the first Error or EOS: any count
      that stops right after an ending event, and passes none before it, is
      the count the loop reaches. */
  lemma {:induction false} ConsumedIsFirstEnd(events: seq<Event>, n: nat)
    requires n <= |events|
    requires forall i :: 0 <= i < n - 1 ==> !EndsRun(events[i])
    requires n < |events| ==> 0 < n && EndsRun(events[n - 1])
    ensures Consumed(events) == n
  {
    if events != [] {
      if !EndsRun(events[0]) {
        assert 0 < n;
        ConsumedIsFirstEnd(events[1..], n - 1);
      }
    }
  }

  /** The levels `main` logs a message at: the element's line at the
      message's own level and its debug detail at debug level; "Received
      EOS" at error level; nothing for other messages. */
  function Levels(m: Message): (ls: seq<Level>)
    ensures ls != [] && ls[0] == ErrorLevel <==> Ends(m)
    ensures m.OtherMsg? <==> ls == []
    ensures DebugLevel in ls <==> !m.Eos? && !m.OtherMsg? && m.debug.Some?
    ensures m.WarningMsg? ==> ls[0] == WarnLevel
    ensures m.InfoMsg? ==> ls[0] == InfoLevel
    ensures |ls| == if m.OtherMsg? then 0 else if !m.Eos? && m.debug.Some? then 2 else 1
  {
    var detail := if !m.Eos? && !m.OtherMsg? && m.debug.Some? then [DebugLevel] else [];
    match m
    case ErrorMsg(_, _, _) => [ErrorLevel] + detail
    case WarningMsg(_, _, _) => [WarnLevel] + detail
    case InfoMsg(_, _, _) => [InfoLevel] + detail
    case Eos => [ErrorLevel]
    case OtherMsg => []
  }
}
