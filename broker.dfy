/** The publishing half of the Redis service, as far as the request handler uses it: every
    publication is one JSON message on one channel, and the service keeps them in order. */
module Broker {
  import opened Values

  /** A response message: `{"chatId": .., "token": .., "done": ..}` plus `"error"` when present. */
  datatype Message = Message(chatId: Value, token: string, done: bool, error: Option<string>)

  datatype Publication = Publication(channel: string, message: Message)

  class Broker {
    /** Whether the client is connected; publishing is only possible when it is. */
    var connected: bool
    /** Every message published so far, in publication order. */
    var log: seq<Publication>

    constructor (connected: bool)
      ensures this.connected == connected && log == []
    {
      this.connected := connected;
      log := [];
    }

    /** `publish(channel, message)`. */
    method Publish(channel: string, message: Message)
      requires connected
      modifies this
      ensures connected && log == old(log) + [Publication(channel, message)]
    {
      log := log + [Publication(channel, message)];
    }
  }
}
