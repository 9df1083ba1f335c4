/** A client slot of the server. */
module Clients {
  import opened Input
  import opened Output

  /** The callbacks a slot has been announced with. */
  datatype Notice = ClientConnected | ClientDisconnected

  class Client {
    /** The place of the slot in the pool. */
    const slot: nat
    var clientFd: int
    var keepAliveTimerFd: int
    const input: Input
    const output: OutputQueue
    var next: Client?
    var prev: Client?
    var trace: seq<Notice>

    constructor (slot: nat, input: Input, output: OutputQueue)
      ensures this.slot == slot && this.input == input && this.output == output && trace == []
    {
      this.slot, this.input, this.output := slot, input, output;
      trace := [];
    }
  }
}
