/**
 * The outcomes of the control-plane negotiation between a master (rank 0)
 * and one worker (rank 1), as src/ksana_llm/distributed/control_channel_test.cpp
 * pins them down: the contiguous layer split with offloaded layers, the
 * "no next-token layers" sentinel -1, the minimum of the cache block counts,
 * and the order in which each side calls the channel. The message layouts
 * follow src/ksana_llm/distributed/control_message.h.
 */
module ControlChannel {
  import opened Wrappers

  newtype u16 = x: int | 0 <= x < 0x1_0000
  newtype i16 = x: int | -0x8000 <= x < 0x8000

  /** For layer allocation, master to worker (host, port and communication id left out). */
  datatype AllocateLayerRequest = AllocateLayerRequest(lower_layer_idx: u16, upper_layer_idx: u16,
                                                       lower_nextn_layer_idx: i16, upper_nextn_layer_idx: i16)

  datatype CacheBlockNumRequest = CacheBlockNumRequest(node_rank: nat, device_block_num: nat, host_block_num: nat)

  datatype CacheBlockNumResponse = CacheBlockNumResponse(device_block_num: nat, host_block_num: nat)

  /** The negotiated part of a node's pipeline configuration. */
  datatype PipelineConfig = PipelineConfig(lower_layer_idx: int, upper_layer_idx: int,
                                           lower_nextn_layer_idx: int, upper_nextn_layer_idx: int,
                                           device_block_num: nat, host_block_num: nat)

  /** The layer index reported when no next-token-prediction layers are configured. */
  const NO_NEXTN_LAYER: i16 := -1

  // ---------------------------------------------------------------------
  // Layer split
  // ---------------------------------------------------------------------

  /** The layers of the first of two nodes before offloading: ceil(total / 2). */
  function HalfLayers(total_layers: nat): nat
  {
    (total_layers + 1) / 2
  }

  /** The split exists when the master keeps at least one layer and indices fit in uint16. */
  predicate LayerSplitDefined(total_layers: nat, offload_layer_num: nat)
  {
    offload_layer_num < HalfLayers(total_layers) && total_layers <= 0x1_0000
  }

  /** The request the master sends a node, for an inclusive range and no next-token layers. */
  function LayerRequest(lower: u16, upper: u16): AllocateLayerRequest
  {
    AllocateLayerRequest(lower, upper, NO_NEXTN_LAYER, NO_NEXTN_LAYER)
  }

  /** The master's layers: the first ceil(total / 2) minus the offloaded ones. */
  function MasterLayers(total_layers: nat, offload_layer_num: nat): AllocateLayerRequest
    requires LayerSplitDefined(total_layers, offload_layer_num)
  {
    LayerRequest(0, (HalfLayers(total_layers) - offload_layer_num - 1) as u16)
  }

  /** The worker's layers: all the rest, up to the last layer. */
  function WorkerLayers(total_layers: nat, offload_layer_num: nat): AllocateLayerRequest
    requires LayerSplitDefined(total_layers, offload_layer_num)
  {
    LayerRequest((HalfLayers(total_layers) - offload_layer_num) as u16, (total_layers - 1) as u16)
  }

  predicate InRange(r: AllocateLayerRequest, layer: int)
  {
    r.lower_layer_idx as int <= layer <= r.upper_layer_idx as int
  }

  /**
   * The two ranges are contiguous in rank order, start at layer 0, end at the
   * last layer, and every layer belongs to exactly one of them; neither node
   * is given next-token-prediction layers.
   */
  lemma LayerSplitPartitions(total_layers: nat, offload_layer_num: nat)
    requires LayerSplitDefined(total_layers, offload_layer_num)
    ensures var m, w := MasterLayers(total_layers, offload_layer_num), WorkerLayers(total_layers, offload_layer_num);
            && m.lower_layer_idx == 0 && m.upper_layer_idx as int + 1 == w.lower_layer_idx as int
            && w.upper_layer_idx as int == total_layers - 1
            && (forall layer :: 0 <= layer < total_layers ==> (InRange(m, layer) <==> !InRange(w, layer)))
            && (forall layer :: InRange(m, layer) || InRange(w, layer) ==> 0 <= layer < total_layers)
            && m.lower_nextn_layer_idx == m.upper_nextn_layer_idx == NO_NEXTN_LAYER
            && w.lower_nextn_layer_idx == w.upper_nextn_layer_idx == NO_NEXTN_LAYER
  {
  }

  /** The asserted case: 32 layers, one offloaded, give [0, 14] and [15, 31]. */
  lemma LayerSplitOf32()
    ensures MasterLayers(32, 1) == AllocateLayerRequest(0, 15 - 1, -1, -1)
    ensures WorkerLayers(32, 1) == AllocateLayerRequest(16 - 1, 31, -1, -1)
  {
  }

  // ---------------------------------------------------------------------
  // Cache block agreement
  // ---------------------------------------------------------------------

  /** The agreed capacity: the minimum over all nodes of each of the two counts. */
  function AgreedBlockNum(requests: seq<CacheBlockNumRequest>): (r: CacheBlockNumResponse)
    requires requests != []
    ensures forall i :: 0 <= i < |requests| ==>
              r.device_block_num <= requests[i].device_block_num && r.host_block_num <= requests[i].host_block_num
    ensures exists i :: 0 <= i < |requests| && r.device_block_num == requests[i].device_block_num
    ensures exists i :: 0 <= i < |requests| && r.host_block_num == requests[i].host_block_num
  {
    var last := requests[|requests| - 1];
    if |requests| == 1 then CacheBlockNumResponse(last.device_block_num, last.host_block_num)
    else
      var rest := AgreedBlockNum(requests[..|requests| - 1]);
      CacheBlockNumResponse(if rest.device_block_num <= last.device_block_num then rest.device_block_num else last.device_block_num,
                            if rest.host_block_num <= last.host_block_num then rest.host_block_num else last.host_block_num)
  }

  /** The asserted case: (10, 8) and (6, 4) agree on (6, 4). */
  lemma AgreedBlockNumOfTest()
    ensures AgreedBlockNum([CacheBlockNumRequest(0, 10, 8), CacheBlockNumRequest(1, 6, 4)]) == CacheBlockNumResponse(6, 4)
  {
  }

  // ---------------------------------------------------------------------
  // The channel on each side
  // ---------------------------------------------------------------------

  datatype Phase = Created | Listening | Connected | Registered | PastBarrier | LayersAssigned | BlocksAgreed | Closed

  /**
   * One side of the control channel. Each method may only be called in the
   * phase the master or worker sequence reaches it in; what travels over the
   * socket is a parameter or a result.
   */
  class ControlChannel {
    const node_rank: nat
    var phase: Phase
    var config: PipelineConfig

    constructor(node_rank: nat, config: PipelineConfig)
      ensures this.node_rank == node_rank && this.config == config && phase == Created
    {
      this.node_rank, this.config, phase := node_rank, config, Created;
    }

    predicate IsMaster()
    {
      node_rank == 0
    }

    method Listen()
      requires IsMaster() && phase == Created
      modifies this
      ensures phase == Listening && config == old(config)
    {
      phase := Listening;
    }

    method Connect()
      requires !IsMaster() && phase == Created
      modifies this
      ensures phase == Connected && config == old(config)
    {
      phase := Connected;
    }

    method AddNode()
      requires !IsMaster() && phase == Connected
      modifies this
      ensures phase == Registered && config == old(config)
    {
      phase := Registered;
    }

    /** The master passes the barrier after listening, a worker after registering. */
    method Barrier()
      requires (IsMaster() && phase == Listening) || (!IsMaster() && phase == Registered)
      modifies this
      ensures phase == PastBarrier && config == old(config)
    {
      phase := PastBarrier;
    }

    /** Master side: takes its own layers and returns the request for the worker. */
    method SynchronizeNodeLayersMaster(offload_layer_num: nat, total_layers: nat) returns (request: AllocateLayerRequest)
      requires IsMaster() && phase == PastBarrier && LayerSplitDefined(total_layers, offload_layer_num)
      modifies this
      ensures phase == LayersAssigned && request == WorkerLayers(total_layers, offload_layer_num)
      ensures config == ApplyLayers(old(config), MasterLayers(total_layers, offload_layer_num))
    {
      config := ApplyLayers(config, MasterLayers(total_layers, offload_layer_num));
      request := WorkerLayers(total_layers, offload_layer_num);
      phase := LayersAssigned;
    }

    /** Worker side: takes the layers the master's request assigns it. */
    method SynchronizeNodeLayersWorker(request: AllocateLayerRequest)
      requires !IsMaster() && phase == PastBarrier
      modifies this
      ensures phase == LayersAssigned && config == ApplyLayers(old(config), request)
    {
      config := ApplyLayers(config, request);
      phase := LayersAssigned;
    }

    /** What this node sends: its local capacity. */
    function LocalBlockNum(): CacheBlockNumRequest
      reads this
    {
      CacheBlockNumRequest(node_rank, config.device_block_num, config.host_block_num)
    }

    /** Master side: agrees on the minimum over itself and the workers and returns it for broadcast. */
    method SynchronizeCacheBlockNumMaster(worker_requests: seq<CacheBlockNumRequest>) returns (response: CacheBlockNumResponse)
      requires IsMaster() && phase == LayersAssigned
      modifies this
      ensures response == AgreedBlockNum([old(LocalBlockNum())] + worker_requests)
      ensures phase == BlocksAgreed && config == ApplyBlocks(old(config), response)
    {
      response := AgreedBlockNum([LocalBlockNum()] + worker_requests);
      config := ApplyBlocks(config, response);
      phase := BlocksAgreed;
    }

    /** Worker side: overwrites its capacity with the agreed one. */
    method SynchronizeCacheBlockNumWorker(response: CacheBlockNumResponse)
      requires !IsMaster() && phase == LayersAssigned
      modifies this
      ensures phase == BlocksAgreed && config == ApplyBlocks(old(config), response)
    {
      config := ApplyBlocks(config, response);
      phase := BlocksAgreed;
    }

    method Close()
      requires IsMaster() && phase == BlocksAgreed
      modifies this
      ensures phase == Closed && config == old(config)
    {
      phase := Closed;
    }

    method Disconnect()
      requires !IsMaster() && phase == BlocksAgreed
      modifies this
      ensures phase == Closed && config == old(config)
    {
      phase := Closed;
    }
  }

  function ApplyLayers(c: PipelineConfig, r: AllocateLayerRequest): PipelineConfig
  {
    c.(lower_layer_idx := r.lower_layer_idx as int, upper_layer_idx := r.upper_layer_idx as int,
       lower_nextn_layer_idx := r.lower_nextn_layer_idx as int, upper_nextn_layer_idx := r.upper_nextn_layer_idx as int)
  }

  function ApplyBlocks(c: PipelineConfig, r: CacheBlockNumResponse): PipelineConfig
  {
    c.(device_block_num := r.device_block_num, host_block_num := r.host_block_num)
  }

  /**
   * The master and worker sequences of the test, run one after the other
   * where they exchange messages. Both end with contiguous layer ranges,
   * the -1 next-token sentinels and the same, minimal block counts.
   */
  method TwoNodeNegotiation(total_layers: nat, offload_layer_num: nat, master_config: PipelineConfig, worker_config: PipelineConfig)
    returns (master_final: PipelineConfig, worker_final: PipelineConfig)
    requires LayerSplitDefined(total_layers, offload_layer_num)
    ensures master_final.lower_layer_idx == 0
    ensures master_final.upper_layer_idx == HalfLayers(total_layers) - offload_layer_num - 1
    ensures worker_final.lower_layer_idx == master_final.upper_layer_idx + 1
    ensures worker_final.upper_layer_idx == total_layers - 1
    ensures master_final.lower_nextn_layer_idx == -1 && master_final.upper_nextn_layer_idx == -1
    ensures worker_final.lower_nextn_layer_idx == -1 && worker_final.upper_nextn_layer_idx == -1
    ensures master_final.device_block_num == worker_final.device_block_num
    ensures master_final.host_block_num == worker_final.host_block_num
    ensures master_final.device_block_num == Min(master_config.device_block_num, worker_config.device_block_num)
    ensures master_final.host_block_num == Min(master_config.host_block_num, worker_config.host_block_num)
  {
    var master := new ControlChannel(0, master_config);
    var worker := new ControlChannel(1, worker_config);
    master.Listen();
    worker.Connect();
    worker.AddNode();
    master.Barrier();
    worker.Barrier();
    var layers := master.SynchronizeNodeLayersMaster(offload_layer_num, total_layers);
    worker.SynchronizeNodeLayersWorker(layers);
    var response := master.SynchronizeCacheBlockNumMaster([worker.LocalBlockNum()]);
    worker.SynchronizeCacheBlockNumWorker(response);
    master.Close();
    worker.Disconnect();
    master_final, worker_final := master.config, worker.config;
  }
}
