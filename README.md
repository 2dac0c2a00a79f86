# TLM-2.0 quantum keeper example, in Dafny

This project models `tlm_quantum_keeper/main.cpp`, a SystemC/TLM-2.0 example with two parts.
The first is a memory target: a 1024-byte store behind a blocking-transport entry point
(IEEE 1666-2011, clause 11.1, with the generic payload and response status of clause 14).
The second is an initiator that issues 1024 one-byte writes. It keeps track of its time with a
quantum keeper (clause 16.2), which lets it run up to one global quantum (10000 ns) ahead of
simulated time before it must synchronise.

- `tlm.dfy` (module `Tlm`): the command and response-status enumerations, the generic payload
  object the target fills in, and the constants. These are the 1024-byte store, the 33 ns access
  latency, the 10 ns compute cost, the 10000 ns quantum and the 1024 iterations.
- `memory_target.dfy` (module `MemoryTarget`): `Access` is a specification function that gives the
  effect of one `b_transport` call on the store, the payload buffer, the delay and the status.
  `Target` holds the store as an `array`, and `Target.BTransport` updates that array in place.
  It is proved to do exactly what `Access` says.
- `quantum_keeper.dfy` (module `QuantumKeeper`): `Keeper` is a class with a fixed `quantum`, a mutable
  `localTime` and a ghost `globalTime` that only `Sync` advances. Its methods `Reset`,
  `GetLocalTime`, `Set`, `Inc`, `NeedSync` and `Sync` model the library's `reset`,
  `get_local_time`, `set`, `inc`, `need_sync` and `sync`.
- `initiator.dfy` (module `Initiator`): `Iteration` and `Run` give the keeper's state after one
  iteration and after n iterations of the initiator's loop. `Initiator.Process` is the loop itself.
  It drives the real `Target` and `Keeper` objects, and it is proved against `Run` and against the
  final contents of the store. The lemmas work out when the keeper synchronises.

The code checks the address before the length. A payload with both a bad address and a bad length
therefore gets ADDRESS_ERROR. The code's read branch is an
`else` branch, so `TLM_IGNORE_COMMAND` is served as a read; the model does the same.

## Model

| member | source | states |
|---|---|---|
| `Tlm.GenericPayload.constructor` | tlm_quantum_keeper/main.cpp:71-78 | A fresh payload carries the given address, command, data pointer, length and streaming width, with status INCOMPLETE. |
| `MemoryTarget.Access` | tlm_quantum_keeper/main.cpp:147-177 | ADDRESS_ERROR exactly when address >= 1024. BURST_ERROR exactly when the address is in range and the length is not 1. OK exactly otherwise. On an error the store, buffer and delay are unchanged. On OK the delay grows by exactly 33. A write sets only `mem[address]` to the payload byte. A read leaves the store unchanged, puts `mem[address]` in the buffer's first byte and leaves the rest of the buffer alone. |
| `MemoryTarget.WriteThenRead` | tlm_quantum_keeper/main.cpp:161-172 | A write of `v` to an in-range address followed by a read of that address succeeds, returns `v` and leaves the store as the write left it. |
| `MemoryTarget.WriteElsewhereThenRead` | tlm_quantum_keeper/main.cpp:161-172 | A write to address `a` does not change what a read of a different address `b` returns. |
| `MemoryTarget.Target.constructor` | tlm_quantum_keeper/main.cpp:135-145 | The store is a fresh 1024-byte array holding the given initial contents. |
| `MemoryTarget.Target.BTransport` | tlm_quantum_keeper/main.cpp:147-177 | The new store, the new payload buffer, the status and the returned delay are exactly those `Access` gives for the old store and buffer. |
| `QuantumKeeper.Keeper.constructor` | tlm_quantum_keeper/main.cpp:49-61 | The keeper holds the given global quantum and starts with local and global time zero. |
| `QuantumKeeper.Keeper.Reset` | tlm_quantum_keeper/main.cpp:60 | The local time offset becomes zero. |
| `QuantumKeeper.Keeper.GetLocalTime` | tlm_quantum_keeper/main.cpp:80 | Returns the local time offset and changes nothing. |
| `QuantumKeeper.Keeper.Set` | tlm_quantum_keeper/main.cpp:94 | The local time offset becomes exactly the annotated delay. |
| `QuantumKeeper.Keeper.Inc` | tlm_quantum_keeper/main.cpp:95 | The local time offset grows by exactly the given amount. |
| `QuantumKeeper.Keeper.NeedSync` | tlm_quantum_keeper/main.cpp:101 | True if and only if the local time offset has reached the quantum. |
| `QuantumKeeper.Keeper.Sync` | tlm_quantum_keeper/main.cpp:107 | Global time advances to the projected time (old global plus old local), and the local offset becomes zero. |
| `Initiator.Iteration` | tlm_quantum_keeper/main.cpp:79-108 | One pass of the loop body adds exactly 43 ns to global plus local time. It syncs, at most once, exactly when the old offset plus 43 reaches the quantum. A sync leaves the offset at zero; otherwise global time is unchanged. For a positive quantum the offset afterwards is below the quantum. |
| `Initiator.Run` | tlm_quantum_keeper/main.cpp:70-110 | After n passes from a reset keeper, global plus local time is exactly 43·n, and there have been at most n syncs. |
| `Initiator.RunInvariant` | tlm_quantum_keeper/main.cpp:70-108 | For any positive quantum, after any number of iterations the local offset is below the quantum, and global time is at least the quantum times the number of syncs. |
| `Initiator.RunClosedForm` | tlm_quantum_keeper/main.cpp:59-108 | For the fixed-window keeper with the 10000 ns quantum, after n iterations the local time is 43·(n mod 233), global time is 10019·(n div 233), and n div 233 syncs have happened. |
| `Initiator.FirstSyncAfter233` | tlm_quantum_keeper/main.cpp:59-108 | With the 10000 ns quantum, no sync happens during the first 232 iterations, and local time after k of them is 43·k. The 233rd iteration syncs once, with global time reaching 10019 and local time back to 0. |
| `Initiator.ProcessTotals` | tlm_quantum_keeper/main.cpp:59-108 | For the fixed-window keeper, a full run of 1024 iterations syncs 4 times, reaches global time 40076 ns and ends 3956 ns ahead. |
| `Initiator.Initiator.constructor` | tlm_quantum_keeper/main.cpp:54-62 | The socket is bound to the given target, and the fresh keeper holds the 10000 ns quantum, reset to zero. |
| `Initiator.Initiator.Process` | tlm_quantum_keeper/main.cpp:64-111 | No transaction gets a response error, so the fatal report is unreachable. Afterwards the store holds exactly the 1024 written bytes, in order. The keeper's local time, global time and sync count are those of `Run(1024, quantum)`. Local time ends below the quantum, and global plus local time has grown by 43 ns per transaction. |

## Left out

- The SystemC kernel, `SC_THREAD` scheduling, `sc_start` and socket binding are not modelled. `Sync` is modelled only by its effect on a ghost global time, as if this actor alone advanced it.
- The interleaving of the two initiators `cpu1` and `cpu2` on the shared store is not modelled. It depends on the kernel's resumption order. `Process` is proved for one initiator running alone against the target.
- The dummy interface methods (`invalidate_direct_mem_ptr`, `nb_transport_bw`, `nb_transport_fw`, `get_direct_mem_ptr`, `transport_dbg`) are left out. Each one only raises a fatal report.
- The `cout` tracing under `PRINTING` is left out because it is output only. The payload bytes come from `rand()`, so `Process` takes them as an arbitrary input sequence.
- The `LONG_RUN` outer loop (100000 repetitions) and the non-`USEQK` variant (`wait(delay + 10 ns)` instead of the keeper) are alternatives that this build compiles out, so they are left out.
- QuantumKeeper.Keeper.NeedSync: the library keeper compares global plus local time against the next multiple of the global quantum. The model instead tests whether the local offset has reached the quantum. The two agree while the actor starts its window on a quantum boundary, as it does up to the first sync. After a sync at 10019 ns the library's next window is shorter.
- Initiator.RunClosedForm: describes the fixed-window keeper only. The library keeper aligns each window to the next multiple of 10000 ns, so it syncs after transactions 233, 466, 698 and 931 rather than every 233 transactions.
- Initiator.ProcessTotals: describes the fixed-window keeper only. With the library keeper a run of 1024 transactions also syncs 4 times, but it ends at global time 40033 ns with 3999 ns of local time, not 40076 ns and 3956 ns.
- `sc_time` is modelled as unbounded whole nanoseconds. Its 64-bit range and its time resolution are not modelled.
- The store's initial contents are indeterminate in the C++ code. The `Target` constructor takes them as an input.
- The target ignores the streaming width and the byte-enable pointer, and so does the model. The payload records the streaming width only.
