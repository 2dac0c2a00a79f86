/** Vocabulary of the TLM-2.0 generic payload used by the initiator and the
    memory target (IEEE 1666-2011, clause 14): commands, response status and
    the payload object that the target fills in. Times are whole nanoseconds. */
module Tlm {

  newtype byte = x: int | 0 <= x < 256

  /** tlm_command: anything that is not a write is served as a read by the target. */
  datatype Command = Read | Write | Ignore

  /** tlm_response_status. */
  datatype ResponseStatus =
    | OkResponse
    | IncompleteResponse
    | GenericErrorResponse
    | AddressErrorResponse
    | CommandErrorResponse
    | BurstErrorResponse
    | ByteEnableErrorResponse

  /** tlm_generic_payload::is_response_error: every status but OK, INCOMPLETE included. */
  predicate IsResponseError(s: ResponseStatus)
  {
    s != OkResponse
  }

  /** Size of the target's backing store, in bytes. */
  const MemSize: nat := 1024

  /** Latency the target adds to the caller's delay on every successful access (33 ns). */
  const AccessLatency: nat := 33

  /** Computation time the initiator charges itself after every transaction (10 ns). */
  const ComputeCost: nat := 10

  /** The global quantum the initiator installs in its keeper (10000 ns). */
  const GlobalQuantum: nat := 10000

  /** Number of transactions one run of the initiator issues. */
  const Iterations: nat := 1024

  /** A tlm_generic_payload as the initiator builds it: the target writes the
      response status and, for a read, the bytes behind the data pointer. */
  class GenericPayload {
    var address: nat
    var command: Command
    var dataLength: nat
    var streamingWidth: nat
    var data: array<byte>
    var status: ResponseStatus

    constructor (address: nat, command: Command, data: array<byte>, dataLength: nat, streamingWidth: nat)
      ensures this.address == address && this.command == command
      ensures this.data == data && this.dataLength == dataLength
      ensures this.streamingWidth == streamingWidth
      ensures status == IncompleteResponse
    {
      this.address := address;
      this.command := command;
      this.data := data;
      this.dataLength := dataLength;
      this.streamingWidth := streamingWidth;
      status := IncompleteResponse;
    }
  }
}
