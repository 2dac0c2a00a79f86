/** The initiator: a loop of 1024 one-byte writes to addresses 0..1023, with
    its time accounted for by a quantum keeper. The functions below state the
    keeper's effect of one loop iteration and of n iterations; the lemmas work
    out when the keeper synchronises. */
module Initiator {
  import opened Tlm
  import opened MemoryTarget
  import opened QuantumKeeper

  /** The keeper as the loop sees it: local offset, global time reached by the
      syncs so far, and how many syncs have happened. */
  datatype KeeperState = KeeperState(local: nat, global: nat, syncs: nat)

  /** Local time one successful transaction adds: the target's latency plus the
      initiator's own computation. */
  const PerTransaction: nat := AccessLatency + ComputeCost

  /** One loop iteration under quantum `q`: the delay sent is the local time,
      the target adds its latency, `set` stores the result, `inc` adds the
      computation cost, and a sync follows when the offset reaches `q`.
      Either way the projected time (global plus local) grows by exactly 43 ns
      and the window ends below the quantum. */
  function Iteration(s: KeeperState, q: nat): (r: KeeperState)
    ensures r.global + r.local == s.global + s.local + PerTransaction
    ensures r.syncs == s.syncs + 1 <==> s.local + PerTransaction >= q
    ensures r.syncs == s.syncs + 1 ==> r.local == 0
    ensures r.syncs == s.syncs ==> r.global == s.global
    ensures r.syncs == s.syncs || r.syncs == s.syncs + 1
    ensures q > 0 ==> r.local < q
  {
    var annotated := s.local + AccessLatency;
    var local := annotated + ComputeCost;
    if local >= q then KeeperState(0, s.global + local, s.syncs + 1)
    else KeeperState(local, s.global, s.syncs)
  }

  /** The keeper after `n` iterations from a reset keeper at global time 0:
      no iteration loses or invents time, and there is at most one sync per
      iteration. */
  function Run(n: nat, q: nat): (r: KeeperState)
    ensures r.global + r.local == 43 * n
    ensures r.syncs <= n
  {
    if n == 0 then KeeperState(0, 0, 0) else Iteration(Run(n - 1, q), q)
  }

  /** For any positive quantum: between iterations the offset stays below the
      quantum, so the actor never runs a whole quantum ahead, and every sync
      has moved global time by at least a quantum. */
  lemma {:induction false} RunInvariant(n: nat, q: nat)
    requires q > 0
    ensures Run(n, q).local < q
    ensures Run(n, q).global >= q * Run(n, q).syncs
  {
    if n > 0 {
      RunInvariant(n - 1, q);
      var s, r := Run(n - 1, q), Run(n, q);
      assert r == Iteration(s, q);
      if r.syncs == s.syncs + 1 {
        assert r.global == s.global + s.local + PerTransaction;
        assert s.local + PerTransaction >= q;
        assert q * r.syncs == q * s.syncs + q;
      }
    }
  }

  /** Under the 10000 ns quantum the fixed-window keeper cycles every 233 transactions:
      after n of them it has synced n / 233 times, each at 10019 ns, and holds
      43 ns per transaction since the last sync. */
  lemma {:induction false} RunClosedForm(n: nat)
    ensures Run(n, GlobalQuantum) ==
            KeeperState(43 * (n % 233), 10019 * (n / 233), n / 233)
  {
    if n > 0 {
      RunClosedForm(n - 1);
      var d, m := (n - 1) / 233, (n - 1) % 233;
      assert n - 1 == 233 * d + m && m < 233;
      if m < 232 {
        assert n == 233 * d + (m + 1);
        assert n % 233 == m + 1 && n / 233 == d;
      } else {
        assert n == 233 * (d + 1);
        assert n % 233 == 0 && n / 233 == d + 1;
      }
    }
  }

  /** need_sync stays false for the first 232 transactions and first holds after
      the 233rd (232 * 43 = 9976 < 10000 <= 10019 = 233 * 43), whose sync
      brings the local time back to zero. */
  lemma FirstSyncAfter233()
    ensures forall k :: 0 <= k < 233 ==>
              Run(k, GlobalQuantum) == KeeperState(43 * k, 0, 0)
    ensures Run(233, GlobalQuantum) == KeeperState(0, 10019, 1)
  {
    forall k | 0 <= k < 233
      ensures Run(k, GlobalQuantum) == KeeperState(43 * k, 0, 0)
    {
      RunClosedForm(k);
    }
    RunClosedForm(233);
  }

  /** The closed form read off at n = 233 * d + m, without division. */
  lemma RunAt(n: nat, d: nat, m: nat)
    requires n == 233 * d + m && m < 233
    ensures Run(n, GlobalQuantum) == KeeperState(43 * m, 10019 * d, d)
  {
    RunClosedForm(n);
    assert n / 233 == d && n % 233 == m;
  }

  /** With the fixed-window keeper, a full run of 1024 transactions syncs 4 times (at 233, 466, 699 and 932),
      reaching global time 40076 ns, and ends 92 * 43 = 3956 ns ahead. */
  lemma ProcessTotals()
    ensures Run(Iterations, GlobalQuantum) == KeeperState(3956, 40076, 4)
  {
    RunAt(Iterations, 4, 92);
  }

  class Initiator {
    const keeper: Keeper
    const socket: Target

    /** Binds the socket to `target`, installs the global quantum and resets the keeper. */
    constructor (target: Target)
      ensures socket == target && fresh(keeper)
      ensures keeper.quantum == GlobalQuantum && keeper.localTime == 0 && keeper.globalTime == 0
    {
      socket := target;
      var k := new Keeper(GlobalQuantum);
      k.Reset();
      keeper := k;
    }

    /** process: writes values[i] to address i for i in 0..1023. No transaction
        fails, so the fatal report is never reached; the store ends up holding
        exactly `values`, and the keeper ends where `Run` says: less than a
        quantum ahead, with 43 ns per transaction accounted for in all. */
    method Process(values: seq<byte>) returns (ghost syncs: nat)
      requires |values| == Iterations
      requires socket.Valid() && keeper.quantum > 0 && keeper.localTime == 0
      modifies keeper, socket.mem
      ensures socket.mem[..] == values
      ensures keeper.localTime == Run(Iterations, keeper.quantum).local
      ensures keeper.globalTime == old(keeper.globalTime) + Run(Iterations, keeper.quantum).global
      ensures syncs == Run(Iterations, keeper.quantum).syncs
      ensures keeper.localTime < keeper.quantum
      ensures keeper.globalTime + keeper.localTime == old(keeper.globalTime) + Iterations * PerTransaction
    {
      syncs := 0;
      var i := 0;
      while i < Iterations
        invariant 0 <= i <= Iterations
        invariant forall j :: 0 <= j < i ==> socket.mem[j] == values[j]
        invariant keeper.localTime == Run(i, keeper.quantum).local
        invariant keeper.globalTime == old(keeper.globalTime) + Run(i, keeper.quantum).global
        invariant syncs == Run(i, keeper.quantum).syncs
      {
        var buf := new byte[1];
        buf[0] := values[i];
        var trans := new GenericPayload(i, Write, buf, 1, 1);
        var delay := keeper.GetLocalTime();
        delay := socket.BTransport(trans, delay);
        if IsResponseError(trans.status) {
          // the fatal report: every address is below 1024 and every length is 1
          assert false;
        }
        keeper.Set(delay);
        keeper.Inc(ComputeCost);
        var needSync := keeper.NeedSync();
        if needSync {
          keeper.Sync();
          syncs := syncs + 1;
        }
        i := i + 1;
      }
      RunInvariant(Iterations, keeper.quantum);
    }
  }
}
