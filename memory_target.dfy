/** The memory target: a 1024-byte store behind a blocking-transport entry
    point (IEEE 1666-2011, clause 11.1). Both target sockets are bound to the
    same entry point, so one class with one store models both. */
module MemoryTarget {
  import opened Tlm

  /** What one b_transport call leaves behind: the store, the payload's data
      buffer, the caller's delay and the response status. */
  datatype Outcome = Outcome(mem: seq<byte>, data: seq<byte>, delay: nat, status: ResponseStatus)

  /** The effect of b_transport on a store `mem`, given the payload fields and the
      caller's delay. The address is checked before the length; a failed check
      touches neither the store, the buffer nor the delay. */
  function Access(mem: seq<byte>, cmd: Command, address: nat, length: nat, data: seq<byte>, delay: nat): (r: Outcome)
    requires |mem| == MemSize
    requires length <= |data|
    ensures |r.mem| == MemSize && |r.data| == |data|
    ensures r.status == AddressErrorResponse <==> address >= MemSize
    ensures r.status == BurstErrorResponse <==> address < MemSize && length != 1
    ensures r.status == OkResponse <==> address < MemSize && length == 1
    ensures r.status != OkResponse ==> r.mem == mem && r.data == data && r.delay == delay
    ensures r.status == OkResponse ==> r.delay == delay + AccessLatency
    ensures r.status == OkResponse && cmd == Write ==>
              r.data == data && r.mem[address] == data[0] &&
              forall i :: 0 <= i < MemSize && i != address ==> r.mem[i] == mem[i]
    ensures r.status == OkResponse && cmd != Write ==>
              r.mem == mem && r.data[0] == mem[address] &&
              forall i :: 1 <= i < |data| ==> r.data[i] == data[i]
  {
    if address >= MemSize then Outcome(mem, data, delay, AddressErrorResponse)
    else if length != 1 then Outcome(mem, data, delay, BurstErrorResponse)
    else if cmd == Write then Outcome(mem[address := data[0]], data, delay + AccessLatency, OkResponse)
    else Outcome(mem, data[0 := mem[address]], delay + AccessLatency, OkResponse)
  }

  /** A one-byte write to an in-range address followed by a read of the same
      address returns the written byte, whatever the store held before. */
  lemma WriteThenRead(mem: seq<byte>, address: nat, v: byte, buf: seq<byte>, d1: nat, d2: nat)
    requires |mem| == MemSize && address < MemSize && |buf| >= 1
    ensures var w := Access(mem, Write, address, 1, [v], d1);
            var r := Access(w.mem, Read, address, 1, buf, d2);
            w.status == OkResponse && r.status == OkResponse &&
            r.data[0] == v && r.mem == w.mem && r.delay == d2 + AccessLatency
  {
  }

  /** A write to one address is invisible to a read of any other address. */
  lemma WriteElsewhereThenRead(mem: seq<byte>, a: nat, b: nat, v: byte, buf: seq<byte>, d1: nat, d2: nat)
    requires |mem| == MemSize && a < MemSize && b < MemSize && a != b && |buf| >= 1
    ensures var w := Access(mem, Write, a, 1, [v], d1);
            Access(w.mem, Read, b, 1, buf, d2).data[0] == mem[b]
  {
  }

  class Target {
    const mem: array<byte>

    ghost predicate Valid()
      reads this
    {
      mem.Length == MemSize
    }

    /** The C++ array is left uninitialised; its first contents are an input here. */
    constructor (init: seq<byte>)
      requires |init| == MemSize
      ensures Valid() && fresh(mem) && mem[..] == init
    {
      mem := new byte[MemSize](i requires 0 <= i < MemSize => init[i]);
    }

    /** b_transport: serves one payload and returns the caller's delay, updated. */
    method BTransport(trans: GenericPayload, delay: nat) returns (delayOut: nat)
      requires Valid()
      requires trans.data != mem
      requires trans.dataLength <= trans.data.Length
      modifies mem, trans`status, trans.data
      ensures var r := Access(old(mem[..]), trans.command, trans.address, trans.dataLength, old(trans.data[..]), delay);
              mem[..] == r.mem && trans.data[..] == r.data &&
              trans.status == r.status && delayOut == r.delay
    {
      if trans.address >= MemSize {
        trans.status := AddressErrorResponse;
        delayOut := delay;
        return;
      }
      if trans.dataLength != 1 {
        trans.status := BurstErrorResponse;
        delayOut := delay;
        return;
      }
      if trans.command == Write {
        mem[trans.address] := trans.data[0];
      } else {
        trans.data[0] := mem[trans.address];
      }
      delayOut := delay + AccessLatency;
      trans.status := OkResponse;
    }
  }
}
