module Wrappers {
  datatype Option<+T> = None | Some(value: T)
}

/** The hub messages that travel between two parties (hubprotocol.go).  Payloads are opaque
    encoded values: what they decode to is the business of a `Decoder`. */
module Messages {
  import opened Wrappers

  type Id = string
  type Raw = string
  type Value = string

  /** UnmarshalArgument of the protocol in use: a partial function on encoded values. */
  type Decoder = Raw -> Option<Value>

  datatype Kind = Simple | Streaming    // message types 1 and 4

  /** A message whose payloads have type `P`. */
  datatype MessageOf<P> =
    | Invocation(kind: Kind, id: Id, target: string, args: seq<P>, streamIds: seq<Id>)
    | StreamItem(id: Id, item: P)
    | Completion(id: Id, result: Option<P>, error: string)
    | CancelInvocation(id: Id)
    | Ping
    | Close(error: string, allowReconnect: bool)

  type Message = MessageOf<Raw>

  /** The errors a message handler hands back to the loop, which then ends. */
  datatype HandlerError =
    | UnknownStreamId
    | UnknownCompletionId
    | UnknownInvocationId
    | DecodeFailed
    | ResultOnRunningStream
    | ReceiveTimeout
}

/** Go channels as cells: what was ever sent, how often the channel was closed, and how many
    operations on it would have panicked (a send or a close on a closed channel). */
module Channels {
  datatype Chan<T> = Chan(cap: nat, sent: seq<T>, closes: nat, faults: nat) {
    function Send(v: T): Chan<T> {
      if closes > 0 then this.(faults := faults + 1) else this.(sent := sent + [v])
    }

    function Close(): Chan<T> {
      if closes > 0 then this.(closes := closes + 1, faults := faults + 1) else this.(closes := 1)
    }

    /** Untouched since it was made. */
    predicate Fresh() { sent == [] && closes == 0 && faults == 0 }

    /** No operation on it panicked: it was closed at most once and never sent to afterwards. */
    predicate Sound() { faults == 0 && closes <= 1 }

    /** Sound, and everything ever sent fits the buffer, so no send had to wait for a receiver. */
    predicate Safe() { Sound() && |sent| <= cap }
  }

  function MakeChan<T>(cap: nat): Chan<T> { Chan(cap, [], 0, 0) }
}
