/** The event contract every platform connection presents to application code:
    the channels it raises, recorded as values so that a connection's behaviour
    can be stated as the exact trace of events it emits. */
module WebSocketContract {

  datatype Option<+T> = None | Some(value: T) {
    function GetOr(default: T): T {
      match this
      case Some(v) => v
      case None => default
    }
  }

  /** One raised event, named after the channel that carries it.
      `OnDispose` carries the connection that was disposed. */
  datatype Event =
    | OnOpened
    | OnClosed
    | OnDispose(source: object)
    | OnError(description: string)
    | OnMessage(text: string)
    | OnPong(text: string)
}
