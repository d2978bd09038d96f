/** The NdSinkState enumeration: the states a sink passes through while a
    cast is set up, with the numeric codes published on D-Bus as `Status`
    and mirrored by the client's `Monitor::NdSinkState`. */
module SinkStates {
  import opened Common

  datatype SinkState =
    | Disconnected
    | EnsureFirewall
    | WaitP2P
    | WaitSocket
    | WaitStreaming
    | Streaming
    | Error
  {
    /** The value of the enumerator. */
    function Code(): int
    {
      match this
      case Disconnected => 0x0
      case EnsureFirewall => 0x50
      case WaitP2P => 0x100
      case WaitSocket => 0x110
      case WaitStreaming => 0x120
      case Streaming => 0x1000
      case Error => 0x10000
    }

    /** Position of the state in the progress order of a connection attempt
        (declaration order), Error last. */
    function Rank(): nat
    {
      match this
      case Disconnected => 0
      case EnsureFirewall => 1
      case WaitP2P => 2
      case WaitSocket => 3
      case WaitStreaming => 4
      case Streaming => 5
      case Error => 6
    }
  }

  const DisconnectedCode: int := 0x0
  const StreamingCode: int := 0x1000
  const ErrorCode: int := 0x10000

  /** Reads a published status code back as an enumerator; codes that name
      no enumerator have no reading. */
  function FromCode(c: int): (r: Option<SinkState>)
    ensures r.Some? ==> r.value.Code() == c
    ensures r.None? ==> forall s: SinkState :: s.Code() != c
  {
    if c == 0x0 then Some(Disconnected)
    else if c == 0x50 then Some(EnsureFirewall)
    else if c == 0x100 then Some(WaitP2P)
    else if c == 0x110 then Some(WaitSocket)
    else if c == 0x120 then Some(WaitStreaming)
    else if c == 0x1000 then Some(Streaming)
    else if c == 0x10000 then Some(Error)
    else None
  }

  /** Every enumerator reads back as itself. */
  lemma CodeRoundTrip(s: SinkState)
    ensures FromCode(s.Code()) == Some(s)
  {
  }

  /** The codes strictly increase in progress order (both directions), so
      comparing codes compares progress; Error has the largest code. */
  lemma CodesFollowProgress(a: SinkState, b: SinkState)
    ensures a.Rank() < b.Rank() <==> a.Code() < b.Code()
    ensures a.Code() == b.Code() <==> a == b
    ensures a.Code() <= Error.Code()
  {
  }
}
