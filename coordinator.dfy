/**
 * The control logic of the coordinator script (src/hogwild/coordinator.py):
 * node registration, the start broadcast, the synchronous two-barrier round,
 * the asynchronous fold, the early-stopping broadcast and the final fold.
 *
 * Outbound RPCs are not performed; each one is recorded as an envelope in
 * the ghost log `sent`, and each call of `svm.update_weights` as an entry in
 * the ghost log `updates`. The busy-wait loops of the script are the
 * preconditions of the step methods.
 */
module CoordinatorProtocol {
  import opened Base

  /** A worker's network endpoint, as in `s.node_addresses`. */
  type Address = string

  /** A sparse weight update: weight index to delta (`all_delta_w`). */
  type Delta = map<int, real>

  // ---------------------------------------------------------------------------
  // Peer lists (coordinator.py:45-46)
  // ---------------------------------------------------------------------------

  /** Position of the first occurrence of `a`. */
  function IndexOf(xs: seq<Address>, a: Address): (k: nat)
    requires a in xs
    ensures k < |xs| && xs[k] == a
    ensures forall j :: 0 <= j < k ==> xs[j] != a
  {
    if xs[0] == a then 0 else 1 + IndexOf(xs[1..], a)
  }

  /**
   * `other_nodes = s.node_addresses.copy(); other_nodes.remove(node_addr)`:
   * Python's `list.remove` drops the first occurrence (and raises when there
   * is none, which the script never triggers: it iterates over the list).
   */
  function PeerList(addresses: seq<Address>, self: Address): (peers: seq<Address>)
    requires self in addresses
    ensures var k := IndexOf(addresses, self);
            peers == addresses[..k] + addresses[k + 1..]
  {
    if addresses[0] == self then addresses[1..]
    else
      var rest := addresses[1..];
      assert addresses == [addresses[0]] + rest;
      [addresses[0]] + PeerList(rest, self)
  }

  /** Reference definition: every address except `a`, in order. */
  function Without(xs: seq<Address>, a: Address): seq<Address> {
    if xs == [] then []
    else (if xs[0] == a then [] else [xs[0]]) + Without(xs[1..], a)
  }

  lemma {:induction false} DistinctTail(xs: seq<Address>)
    requires xs != [] && Distinct(xs)
    ensures Distinct(xs[1..]) && xs[0] !in xs[1..]
  {
  }

  lemma {:induction false} WithoutAbsent(xs: seq<Address>, a: Address)
    requires a !in xs
    ensures Without(xs, a) == xs
  {
    if xs != [] {
      WithoutAbsent(xs[1..], a);
      assert xs == [xs[0]] + xs[1..];
    }
  }

  /**
   * With distinct addresses, the peer list of a node has n - 1 entries,
   * leaves the node itself out, and keeps every other address in order.
   */
  lemma {:induction false} PeerListOfDistinct(addresses: seq<Address>, self: Address)
    requires Distinct(addresses) && self in addresses
    ensures PeerList(addresses, self) == Without(addresses, self)
    ensures |PeerList(addresses, self)| == |addresses| - 1
    ensures self !in PeerList(addresses, self)
    ensures forall a :: a in PeerList(addresses, self) <==> a in addresses && a != self
  {
    DistinctTail(addresses);
    var rest := addresses[1..];
    if addresses[0] == self {
      WithoutAbsent(rest, self);
    } else {
      PeerListOfDistinct(rest, self);
      assert addresses == [addresses[0]] + rest;
    }
  }

  // ---------------------------------------------------------------------------
  // The stubs dict (coordinator.py:34-43): keys in insertion order
  // ---------------------------------------------------------------------------

  /**
   * `stubs[a] = stub` on a dict whose keys, in order, are `keys`: the existing
   * keys keep their places, `a` is afterwards a key, and no key is repeated.
   */
  function InsertKey(keys: seq<Address>, a: Address): (r: seq<Address>)
    ensures |keys| <= |r| <= |keys| + 1 && r[..|keys|] == keys
    ensures forall b :: b in r <==> b in keys || b == a
    ensures Distinct(keys) ==> Distinct(r)
  {
    if a in keys then keys else keys + [a]
  }

  /** The keys of `stubs` after one insertion per address of `addrs`. */
  function StubKeys(addrs: seq<Address>): (keys: seq<Address>)
    ensures Distinct(keys) && |keys| <= |addrs|
    ensures forall a :: a in keys <==> a in addrs
  {
    if addrs == [] then []
    else
      var init := addrs[..|addrs| - 1];
      assert addrs == init + [addrs[|addrs| - 1]];
      InsertKey(StubKeys(init), addrs[|addrs| - 1])
  }

  /** With distinct addresses the stubs are iterated in address order. */
  lemma {:induction false} StubKeysOfDistinct(addrs: seq<Address>)
    requires Distinct(addrs)
    ensures StubKeys(addrs) == addrs
  {
    if addrs != [] {
      var init := addrs[..|addrs| - 1];
      assert Distinct(init) by {
        forall i, j | 0 <= i < j < |init| ensures init[i] != init[j] {
          assert init[i] == addrs[i] && init[j] == addrs[j];
        }
      }
      StubKeysOfDistinct(init);
      assert addrs[|addrs| - 1] !in init;
      assert addrs == init + [addrs[|addrs| - 1]];
    }
  }

  lemma StubKeysStep(addrs: seq<Address>, i: nat)
    requires i < |addrs|
    ensures StubKeys(addrs[..i + 1]) == InsertKey(StubKeys(addrs[..i]), addrs[i])
  {
    assert addrs[..i + 1][..i] == addrs[..i];
  }

  // ---------------------------------------------------------------------------
  // Messages and the send log
  // ---------------------------------------------------------------------------

  datatype Message =
    | NodeInfo(coordinatorAddress: Address, nodeAddresses: seq<Address>, valIndices: seq<int>)
    | StartMessage(learningRate: real, lambdaReg: real, epochs: int, subsetSize: int, dim: int)
    | WeightUpdate(deltaW: Delta)
    | ReadyToGo
    | StopMessage

  /** One outbound RPC: the worker it went to and what it carried. */
  datatype Envelope = Envelope(to: Address, msg: Message)

  /** One `for stub in stubs.values(): stub.Get...(msg)` loop. */
  function BroadcastLog(stubs: seq<Address>, msg: Message): seq<Envelope> {
    seq(|stubs|, i requires 0 <= i < |stubs| => Envelope(stubs[i], msg))
  }

  /** The `GetNodeInfo` call the registration loop makes for node `a`. */
  function Registration(nodes: seq<Address>, coordinator: Address, val: seq<int>, a: Address): Envelope
    requires a in nodes
  {
    Envelope(a, NodeInfo(coordinator, PeerList(nodes, a), val))
  }

  /** The registration loop's `GetNodeInfo` calls, one per listed address. */
  function RegistrationLog(nodes: seq<Address>, coordinator: Address, val: seq<int>): seq<Envelope> {
    seq(|nodes|, i requires 0 <= i < |nodes| => Registration(nodes, coordinator, val, nodes[i]))
  }

  lemma PrefixStep<T>(s: seq<T>, i: nat)
    requires i < |s|
    ensures s[..i + 1] == s[..i] + [s[i]]
  {
  }

  /** The messages a log delivers to worker `a`, in order. */
  function Received(log: seq<Envelope>, a: Address): seq<Message> {
    if log == [] then []
    else
      var last := log[|log| - 1];
      Received(log[..|log| - 1], a) + (if last.to == a then [last.msg] else [])
  }

  lemma {:induction false} ReceivedAppend(x: seq<Envelope>, y: seq<Envelope>, a: Address)
    ensures Received(x + y, a) == Received(x, a) + Received(y, a)
    decreases |y|
  {
    if y != [] {
      var init := y[..|y| - 1];
      assert (x + y)[..|x + y| - 1] == x + init;
      assert (x + y)[|x + y| - 1] == y[|y| - 1];
      ReceivedAppend(x, init, a);
    } else {
      assert x + y == x;
    }
  }

  /** Every stub receives a broadcast message exactly once; nobody else does. */
  lemma {:induction false} BroadcastReachesEachStubOnce(stubs: seq<Address>, msg: Message, a: Address)
    requires Distinct(stubs)
    ensures Received(BroadcastLog(stubs, msg), a) == if a in stubs then [msg] else []
  {
    if stubs != [] {
      var n := |stubs|;
      var init := stubs[..n - 1];
      assert BroadcastLog(stubs, msg)[..n - 1] == BroadcastLog(init, msg);
      assert Distinct(init) by {
        forall i, j | 0 <= i < j < |init| ensures init[i] != init[j] {
          assert init[i] == stubs[i] && init[j] == stubs[j];
        }
      }
      BroadcastReachesEachStubOnce(init, msg, a);
      assert stubs[n - 1] !in init;
      assert stubs == init + [stubs[n - 1]];
    }
  }

  /**
   * Over one synchronous round, each stub receives exactly the aggregate
   * `GetWeightUpdate` and then one `GetReadyToGo`.
   */
  lemma SyncRoundDelivery(stubs: seq<Address>, aggregate: Delta, a: Address)
    requires Distinct(stubs)
    ensures Received(BroadcastLog(stubs, WeightUpdate(aggregate)) + BroadcastLog(stubs, ReadyToGo), a)
            == if a in stubs then [WeightUpdate(aggregate), ReadyToGo] else []
  {
    ReceivedAppend(BroadcastLog(stubs, WeightUpdate(aggregate)), BroadcastLog(stubs, ReadyToGo), a);
    BroadcastReachesEachStubOnce(stubs, WeightUpdate(aggregate), a);
    BroadcastReachesEachStubOnce(stubs, ReadyToGo, a);
  }

  // ---------------------------------------------------------------------------
  // The coordinator's state machine
  // ---------------------------------------------------------------------------

  /** The run configuration read from the settings module (`s.*`). */
  datatype Settings = Settings(
    nodeAddresses: seq<Address>,
    coordinatorAddress: Address,
    synchronous: bool,
    learningRate: real,
    lambdaReg: real,
    epochs: int,
    subsetSize: int)

  /** One entry of `losses_val`. */
  datatype LossRecord = LossRecord(time: string, lossVal: real)

  /** Where the script's control is. */
  datatype Stage =
    | Registering   // before the registration loop (line 36)
    | Starting      // before the start broadcast (line 69)
    | LoopHead      // at the guard of the main loop (line 86)
    | AwaitUpdates  // synchronous: spinning on wait_for_all_nodes_counter (line 90)
    | AwaitReady    // synchronous: spinning on ready_to_go_counter (line 101)
    | AwaitVolume   // asynchronous: spinning on len(all_delta_w) (line 112)
    | Evaluating    // after the weight update, before the loss entry (line 119)
    | Finishing     // after the loop (line 133)
    | Finished      // after the final fold (line 137)

  class Coordinator {
    const settings: Settings
    /** The keys of `stubs`, in insertion order. */
    var stubs: seq<Address>
    var waitForAllNodesCounter: nat
    var readyToGoCounter: nat
    var epochsDone: nat
    var allDeltaW: Delta
    var lossesVal: seq<LossRecord>
    var stoppingCritReached: bool
    /** Every outbound RPC, in the order it was issued. */
    ghost var sent: seq<Envelope>
    /** The argument of every `svm.update_weights` call, in order. */
    ghost var updates: seq<Delta>
    ghost var stage: Stage

    /**
     * `len(s.node_addresses)`, the barrier target: never below the number of
     * stubs, and equal to it when the addresses are distinct.
     */
    function NodeCount(): (n: nat)
      ensures n >= |StubKeys(settings.nodeAddresses)|
      ensures Distinct(settings.nodeAddresses) ==> n == |StubKeys(settings.nodeAddresses)|
    {
      if Distinct(settings.nodeAddresses) then StubKeysOfDistinct(settings.nodeAddresses); |settings.nodeAddresses|
      else |settings.nodeAddresses|
    }

    /** Model updates applied but not yet followed by a loss entry. */
    ghost function Pending(): nat
      reads this
    {
      if stage == AwaitReady || stage == Evaluating || (stage == Finished && !settings.synchronous)
      then 1 else 0
    }

    ghost predicate Valid()
      reads this
    {
      && (stage == Registering ==> stubs == [])
      && (stage != Registering ==> stubs == StubKeys(settings.nodeAddresses))
      && ((stage == AwaitUpdates || stage == AwaitReady) ==> settings.synchronous)
      && (stage == AwaitVolume ==> !settings.synchronous)
      // update_weights is called exactly once per completed round (plus the final async fold)
      && |updates| == |lossesVal| + Pending()
    }

    constructor (settings: Settings)
      ensures Valid() && stage == Registering
      ensures this.settings == settings
      ensures stubs == [] && allDeltaW == map[] && lossesVal == [] && !stoppingCritReached
      ensures waitForAllNodesCounter == 0 && readyToGoCounter == 0 && epochsDone == 0
      ensures sent == [] && updates == []
    {
      this.settings := settings;
      stubs := [];
      waitForAllNodesCounter, readyToGoCounter, epochsDone := 0, 0, 0;
      allDeltaW := map[];
      lossesVal := [];
      stoppingCritReached := false;
      sent, updates := [], [];
      stage := Registering;
    }

    /** Lines 36-50: open a stub per node and send it its peers. */
    method RegisterNodes(valIndices: seq<int>)
      requires Valid() && stage == Registering
      modifies this`stubs, this`sent, this`stage
      ensures Valid() && stage == Starting
      ensures stubs == StubKeys(settings.nodeAddresses)
      ensures sent == old(sent)
                      + RegistrationLog(settings.nodeAddresses, settings.coordinatorAddress, valIndices)
    {
      var nodes := settings.nodeAddresses;
      ghost var log := RegistrationLog(nodes, settings.coordinatorAddress, valIndices);
      for i := 0 to |nodes|
        invariant stubs == StubKeys(nodes[..i])
        invariant sent == old(sent) + log[..i]
      {
        StubKeysStep(nodes, i);
        stubs := InsertKey(stubs, nodes[i]);
        var others := PeerList(nodes, nodes[i]);
        var info := Envelope(nodes[i], NodeInfo(settings.coordinatorAddress, others, valIndices));
        assert log[i] == info;
        PrefixStep(log, i);
        sent := sent + [info];
      }
      assert nodes[..|nodes|] == nodes;
      assert log[..|nodes|] == log;
      stage := Starting;
    }

    /** One `for stub in stubs.values()` send loop. */
    method Broadcast(msg: Message)
      modifies this`sent
      ensures sent == old(sent) + BroadcastLog(stubs, msg)
    {
      for i := 0 to |stubs|
        invariant sent == old(sent) + BroadcastLog(stubs[..i], msg)
      {
        assert BroadcastLog(stubs[..i + 1], msg) == BroadcastLog(stubs[..i], msg) + [Envelope(stubs[i], msg)];
        sent := sent + [Envelope(stubs[i], msg)];
      }
      assert stubs[..|stubs|] == stubs;
    }

    /** Lines 69-75: every stub is told to start SGD. */
    method StartSGD(dim: int)
      requires Valid() && stage == Starting
      modifies this`sent, this`stage
      ensures Valid() && stage == LoopHead
      ensures sent == old(sent) + BroadcastLog(stubs, StartMessage(settings.learningRate,
                        settings.lambdaReg, settings.epochs, settings.subsetSize, dim))
    {
      Broadcast(StartMessage(settings.learningRate, settings.lambdaReg, settings.epochs,
                             settings.subsetSize, dim));
      stage := LoopHead;
    }

    /** Line 86: the loop runs while some node has epochs left and no stop fired. */
    method LoopTest() returns (go: bool)
      requires Valid() && stage == LoopHead
      modifies this`stage
      ensures Valid()
      ensures go <==> epochsDone != NodeCount() && !stoppingCritReached
      ensures stage == if !go then Finishing
                       else if settings.synchronous then AwaitUpdates else AwaitVolume
    {
      go := epochsDone != NodeCount() && !stoppingCritReached;
      stage := if !go then Finishing else if settings.synchronous then AwaitUpdates else AwaitVolume;
    }

    /**
     * Lines 90-99: once every node has submitted, broadcast the aggregate,
     * apply the same aggregate locally, then clear it and reset the counter.
     */
    method SyncExchange()
      requires Valid() && stage == AwaitUpdates
      requires waitForAllNodesCounter == NodeCount()
      modifies this`sent, this`updates, this`allDeltaW, this`waitForAllNodesCounter, this`stage
      ensures Valid() && stage == AwaitReady
      ensures sent == old(sent) + BroadcastLog(stubs, WeightUpdate(old(allDeltaW)))
      ensures updates == old(updates) + [old(allDeltaW)]
      ensures allDeltaW == map[] && waitForAllNodesCounter == 0
    {
      Broadcast(WeightUpdate(allDeltaW));
      updates := updates + [allDeltaW];
      allDeltaW := map[];
      waitForAllNodesCounter := 0;
      stage := AwaitReady;
    }

    /** Lines 101-107: once every node is ready, release them all and reset the counter. */
    method SyncRelease()
      requires Valid() && stage == AwaitReady
      requires readyToGoCounter == NodeCount()
      modifies this`sent, this`readyToGoCounter, this`stage
      ensures Valid() && stage == Evaluating
      ensures sent == old(sent) + BroadcastLog(stubs, ReadyToGo)
      ensures readyToGoCounter == 0
    {
      Broadcast(ReadyToGo);
      readyToGoCounter := 0;
      stage := Evaluating;
    }

    /**
     * Lines 112-116: once the accumulator holds at least
     * `subset_size * len(s.node_addresses)` weight indices, fold it into the
     * model and empty it. No broadcast happens in this mode.
     */
    method AsyncFold()
      requires Valid() && stage == AwaitVolume
      requires |allDeltaW| >= settings.subsetSize * NodeCount()
      modifies this`updates, this`allDeltaW, this`stage
      ensures Valid() && stage == Evaluating
      ensures updates == old(updates) + [old(allDeltaW)]
      ensures allDeltaW == map[]
    {
      updates := updates + [allDeltaW];
      allDeltaW := map[];
      stage := Evaluating;
    }

    /**
     * Lines 119-129: record this round's validation loss and, if the
     * early-stopping criterion fired, tell every stub to stop. The loss and
     * the criterion are computed by code outside this model and come in as
     * parameters.
     */
    method RecordRound(time: string, valLoss: real, stop: bool)
      requires Valid() && stage == Evaluating
      modifies this`lossesVal, this`stoppingCritReached, this`sent, this`stage
      ensures Valid() && stage == LoopHead
      ensures lossesVal == old(lossesVal) + [LossRecord(time, valLoss)]
      ensures stoppingCritReached == stop
      ensures sent == old(sent) + if stop then BroadcastLog(stubs, StopMessage) else []
    {
      lossesVal := lossesVal + [LossRecord(time, valLoss)];
      stoppingCritReached := stop;
      if stop {
        Broadcast(StopMessage);
      }
      stage := LoopHead;
    }

    /**
     * Lines 134-135: in asynchronous mode, fold what is left in the
     * accumulator. The accumulator is not cleared.
     */
    method FinalFold()
      requires Valid() && stage == Finishing
      modifies this`updates, this`stage
      ensures Valid() && stage == Finished
      ensures updates == old(updates) + if settings.synchronous then [] else [allDeltaW]
    {
      if !settings.synchronous {
        updates := updates + [allDeltaW];
      }
      stage := Finished;
    }
  }
}
