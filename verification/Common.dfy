/** Types and limits shared by every component of the model. */
module Common {
  datatype Option<+T> = None | Some(value: T)

  /** An IP address. Only its identity matters to the server. */
  type Ip = nat

  datatype SocketAddr = SocketAddr(ip: Ip, port: nat)

  /** The identity of one registration: two tokens match when they are the same allocation. */
  type Token = nat

  const MESSAGE_HISTORY_LIMIT: nat := 100
  const PENDING_MESSAGES_LIMIT: nat := 128
  const OUTBOUND_QUEUE_SIZE: nat := MESSAGE_HISTORY_LIMIT + PENDING_MESSAGES_LIMIT
  const MAX_CONNECTIONS: nat := 256
  const MAX_CONNECTIONS_PER_IP: nat := 4

  /** The last `limit` elements of a log, or all of it. */
  function Last<T>(log: seq<T>, limit: nat): (r: seq<T>)
    ensures |r| <= limit
  {
    if |log| <= limit then log else log[|log| - limit..]
  }

  /** What the history keeps of a log. */
  function Recent<T>(log: seq<T>): (r: seq<T>)
    ensures |r| <= MESSAGE_HISTORY_LIMIT
  {
    Last(log, MESSAGE_HISTORY_LIMIT)
  }

  /** A bounded buffer after one more line: the oldest line goes when the limit is passed. */
  function PushBounded<T>(lines: seq<T>, line: T, limit: nat): seq<T> {
    var longer := lines + [line];
    if |longer| > limit then longer[1..] else longer
  }

  /** A bounded buffer always holds the end of what was pushed into it. */
  lemma PushKeepsLast<T>(log: seq<T>, line: T, limit: nat)
    ensures PushBounded(Last(log, limit), line, limit) == Last(log + [line], limit)
  {
  }
}
