# KsanaLLM core, modelled in Dafny

This project models the deterministic core of KsanaLLM, an LLM inference
server, and proves properties of that model. The core covered is:

- **Hidden-unit buffer pool** of the pipeline-parallel data hub
  (`hidden_unit_buffer.dfy`). It holds:
  - device buffers, with one tensor per tensor-parallel rank;
  - host packets, each a header followed by the decode bytes and, in ACL
    builds, the prefill bytes;
  - the free, send and receive queues, the last keyed by schedule id;
  - the pending-receive counter.

  Marshalling between a device buffer and a host packet is proved against
  the pure functions `DeviceToHost` and `HostToDevice`, which have
  round-trip lemmas.
- **Control-plane negotiation** between a master and one worker
  (`control_channel.dfy`):
  - the contiguous layer split with offloaded layers;
  - the `-1` sentinel for "no next-token layers";
  - the minimum-reduction of cache block counts;
  - each side's call order, as a state machine.
- **Memory utilities** (`memory_utils.dfy`):
  - `AlignedMemoryQueue`, with power-of-two alignment, `AlignSize` and
    `AllocateAndAlign` placing items at prefix-sum offsets;
  - the figure combination of `GetHostMemoryInfo`;
  - the grow-only per-device workspace cache of `GetWorkSpaceImpl`.
- **NumPy `.npy` preamble and header parsing** (`npy.dfy`), for format
  versions 1.0 and 2.0. It works over a byte file with a cursor, with
  `std::string::find`/`substr`/`getline`/`stoul` semantics, `npos` and size_t
  wrap-around.
- **Small codecs and selectors**:
  - `NetworkAddr` to and from text, and `TransferTensor::GetElementNumber`
    (`transfer_types.dfy`);
  - the log-level mapping, the once-flag of `InitLoguru`, and `CheckAssert`
    (`logger.dfy`);
  - the transport choice of the data channel factory
    (`data_channel_factory.dfy`).

Two helper modules are shared:

- `wrappers.dfy`: `Option`, `Result`, `Min`.
- `numerals.dfy`: `std::to_string`, `std::stoi`, `std::stoul` and substring
  occurrence, with round-trip lemmas.

Fixed-width integers are unbounded in the model, except where the source's
width matters:

- size_t arithmetic (modulo 2^64) and the uint32 `start_data` wrap, and that
  wrap-around is written out explicitly. The exception is the buffer pool's
  dimension products, listed under "## Left out".
- The uint16/int16 layer indices of the control messages are range newtypes.
  The layer split is defined only for totals whose indices stay within those
  ranges, so no cast wraps.
- Ports are int32 values. `std::stoi` raises on a number outside that range,
  so a port never wraps either.

## Model

| member | source | states |
|---|---|---|
| HiddenUnitBuffer.HiddenUnitBufferPool.constructor | src/ksana_llm/data_hub/hidden_unit_buffer.cpp:17-22 | every queue starts empty, the pending-receive counter is 0 and the pool is not stopped |
| HiddenUnitBuffer.HiddenUnitBufferPool.InitializedImageIsFresh | src/ksana_llm/data_hub/hidden_unit_buffer.cpp:145-173 | initialization gives tensor_para_size tensors of shape [max_token_num, hidden_unit_size], each sized max_token_num*hidden_unit_size*type_size bytes; with ACL the prefill tensors match and both flags are off |
| HiddenUnitBuffer.HiddenUnitBufferPool.InitializeHiddenUnitDeviceBuffer | src/ksana_llm/data_hub/hidden_unit_buffer.cpp:145-173 | the rank loop leaves the buffer exactly as InitializedImage describes |
| HiddenUnitBuffer.HiddenUnitBufferPool.PreAllocateDeviceBuffer | src/ksana_llm/data_hub/hidden_unit_buffer.cpp:24-28 | a fresh, initialized buffer is appended to the free queue; nothing else changes |
| HiddenUnitBuffer.HiddenUnitBufferPool.GetDeviceBuffer | src/ksana_llm/data_hub/hidden_unit_buffer.cpp:175-184 | pops the head of a non-empty free queue; otherwise returns a fresh initialized buffer without queueing it |
| HiddenUnitBuffer.HiddenUnitBufferPool.FreeDeviceBuffer | src/ksana_llm/data_hub/hidden_unit_buffer.cpp:187-195 | clears both flags (ACL) and appends the buffer to the free queue |
| HiddenUnitBuffer.HiddenUnitBufferPool.FreeThenGetDeviceBuffer | src/ksana_llm/data_hub/hidden_unit_buffer.cpp:175-195 | a buffer freed into an empty pool is the very buffer the next get returns |
| HiddenUnitBuffer.HiddenUnitBufferPool.GetHostBuffer | src/ksana_llm/data_hub/hidden_unit_buffer.cpp:197-220 | pooled packets come back unmodified; a new one is DATA_REQ_HIDDEN_UNIT, has size header + max_token_num*hidden_unit_size*type_size, dims [max_token_num, hidden_unit_size] and tensor_parallel = tensor_para_size, while its schedule id, prefill dims and data bytes keep what malloc left there; null when malloc fails |
| HiddenUnitBuffer.HiddenUnitBufferPool.FreeHostBuffer | src/ksana_llm/data_hub/hidden_unit_buffer.cpp:222-225 | the packet is appended to the free host queue |
| HiddenUnitBuffer.HiddenUnitBufferPool.GetHostPacketSize | src/ksana_llm/data_hub/hidden_unit_buffer.cpp:109-118 | header size plus decode payload, plus prefill payload only with ACL |
| HiddenUnitBuffer.HiddenUnitBufferPool.FreshPacketSize | src/ksana_llm/data_hub/hidden_unit_buffer.cpp:109-118 | for a fresh host packet without ACL, GetHostPacketSize equals the size in its header and the payload fills its data area; with ACL the never-written prefill dims add their bytes to it |
| HiddenUnitBuffer.HiddenUnitBufferPool.FullTwoPartImageOverflowsPacket | src/ksana_llm/data_hub/hidden_unit_buffer.cpp:87-104 | with ACL, a device buffer whose decode and prefill tensor 0 both have the full [max_token_num, hidden_unit_size] shape and are both enabled does not fit a packet from GetHostBuffer |
| HiddenUnitBuffer.HiddenUnitBufferPool.ConvertHostBufferToDevice | src/ksana_llm/data_hub/hidden_unit_buffer.cpp:30-62 | the rank loop leaves the device buffer as HostToDevice of the old host and device contents |
| HiddenUnitBuffer.HiddenUnitBufferPool.ConvertDeviceBufferToHost | src/ksana_llm/data_hub/hidden_unit_buffer.cpp:64-107 | the host buffer becomes DeviceToHost of the old contents: rank 0 only, because the loop breaks after one pass |
| HiddenUnitBuffer.HostToDeviceRanks | src/ksana_llm/data_hub/hidden_unit_buffer.cpp:30-62 | every rank below tensor_parallel gets the decode bytes and shape, and the prefill bytes from offset buffer_bytes; a zero-byte part leaves the tensors alone; with ACL the flags are bytes > 0 |
| HiddenUnitBuffer.HostToDevice | src/ksana_llm/data_hub/hidden_unit_buffer.cpp:30-62 | definition of the device buffer ConvertHostBufferToDevice produces (copies to ranks below tensor_parallel, shapes, ACL flags); HostToDeviceRanks and the round-trip lemmas state its properties |
| HiddenUnitBuffer.DeviceToHostDecode | src/ksana_llm/data_hub/hidden_unit_buffer.cpp:64-107 | the host gets the schedule id, the tensor count, tensor 0's dims and tensor 0's decode bytes at offset 0 |
| HiddenUnitBuffer.DeviceToHostPrefill | src/ksana_llm/data_hub/hidden_unit_buffer.cpp:64-107 | with ACL, prefill tensor 0's dims and bytes land right after the decode bytes |
| HiddenUnitBuffer.DeviceToHost | src/ksana_llm/data_hub/hidden_unit_buffer.cpp:64-107 | the host buffer ConvertDeviceBufferToHost produces keeps the length of its data area; DeviceToHostDecode, DeviceToHostPrefill and DeviceToHostWritesOnlyPayload state what it writes |
| HiddenUnitBuffer.RoundTrip | src/ksana_llm/data_hub/hidden_unit_buffer.cpp:30-107 | device to host to device preserves the schedule id, and gives every rank rank 0's decode shape and bytes; a decode part switched off travels nothing |
| HiddenUnitBuffer.RoundTripPrefill | src/ksana_llm/data_hub/hidden_unit_buffer.cpp:30-107 | with ACL and prefill on, every rank gets prefill tensor 0's shape and bytes and the flag stays on |
| HiddenUnitBuffer.RoundTripPrefillOff | src/ksana_llm/data_hub/hidden_unit_buffer.cpp:30-107 | with ACL and prefill off, the prefill tensors are untouched and the flag stays off |
| HiddenUnitBuffer.DeviceToHostWritesOnlyPayload | src/ksana_llm/data_hub/hidden_unit_buffer.cpp:94-106 | bytes past the payload the new dims describe are left as they were |
| HiddenUnitBuffer.HostToDeviceReadsOnlyPayload | src/ksana_llm/data_hub/hidden_unit_buffer.cpp:40-61 | host packets that agree on their header fields and payload bytes give the same device contents |
| HiddenUnitBuffer.HiddenUnitBufferPool.PutToHostRecvQueue | src/ksana_llm/data_hub/hidden_unit_buffer.cpp:227-230 | appends to the host receive queue |
| HiddenUnitBuffer.HiddenUnitBufferPool.GetFromHostRecvQueue | src/ksana_llm/data_hub/hidden_unit_buffer.cpp:232 | pops its head |
| HiddenUnitBuffer.HiddenUnitBufferPool.PutToDeviceRecvQueue | src/ksana_llm/data_hub/hidden_unit_buffer.cpp:234-237 | appends the buffer under its own schedule id |
| HiddenUnitBuffer.HiddenUnitBufferPool.GetFromDeviceRecvQueue | src/ksana_llm/data_hub/hidden_unit_buffer.cpp:266-277 | increments the pending counter by one and returns the oldest buffer queued under the id |
| HiddenUnitBuffer.HiddenUnitBufferPool.PutThenGetDeviceRecv | src/ksana_llm/data_hub/hidden_unit_buffer.cpp:234-277 | a get with a buffer's schedule id returns that buffer and restores the queue |
| HiddenUnitBuffer.HiddenUnitBufferPool.WaitUtilReadyToRecv | src/ksana_llm/data_hub/hidden_unit_buffer.cpp:239-262 | decrements the pending counter by exactly one |
| HiddenUnitBuffer.ReceiveCycle | src/ksana_llm/data_hub/hidden_unit_buffer.cpp:234-277 | put, get and wait leave the pending counter where it started |
| HiddenUnitBuffer.HiddenUnitBufferPool.PutToSendQueue | src/ksana_llm/data_hub/hidden_unit_buffer.cpp:279-284 | appends to the send queue |
| HiddenUnitBuffer.HiddenUnitBufferPool.GetFromSendQueue | src/ksana_llm/data_hub/hidden_unit_buffer.cpp:286 | pops its head |
| HiddenUnitBuffer.HiddenUnitBufferPool.Stop | src/ksana_llm/data_hub/hidden_unit_buffer.cpp:288-300 | sets the stopped flag and changes no queue or counter |
| HiddenUnitBuffer.HiddenUnitBufferPool.Stopped | src/ksana_llm/data_hub/hidden_unit_buffer.cpp:302 | reports the stopped flag |
| ControlChannel.LayerSplitPartitions | src/ksana_llm/distributed/control_channel_test.cpp:174-181 | master starts at 0, worker ends at the last layer, master upper + 1 = worker lower, and every layer is in exactly one range; both carry -1 for the two next-token layer indices |
| ControlChannel.LayerSplitOf32 | src/ksana_llm/distributed/control_channel_test.cpp:104-181 | 32 layers with one offloaded give [0, 15 - 1] and [16 - 1, 31] with the -1 sentinels |
| ControlChannel.MasterLayers | src/ksana_llm/distributed/control_channel_test.cpp:118 | the master's request: layers 0 to ceil(total/2) - offload - 1 with no next-token layers; LayerSplitPartitions and LayerSplitOf32 state its properties |
| ControlChannel.WorkerLayers | src/ksana_llm/distributed/control_channel_test.cpp:150 | the worker's request: the remaining layers up to total - 1 with no next-token layers; LayerSplitPartitions and LayerSplitOf32 state its properties |
| ControlChannel.AgreedBlockNum | src/ksana_llm/distributed/control_channel_test.cpp:184-187 | each agreed count is at most every node's and equals some node's: the minimum |
| ControlChannel.AgreedBlockNumOfTest | src/ksana_llm/distributed/control_channel_test.cpp:49-58 | (10, 8) and (6, 4) agree on (6, 4) |
| ControlChannel.ControlChannel.constructor | src/ksana_llm/distributed/control_channel_test.cpp:110-167 | a channel starts before its first call, holding its rank and its pipeline configuration |
| ControlChannel.ControlChannel.Listen | src/ksana_llm/distributed/control_channel_test.cpp:112 | the master's first call; the configuration is unchanged |
| ControlChannel.ControlChannel.Connect | src/ksana_llm/distributed/control_channel_test.cpp:141 | the worker's first call; the configuration is unchanged |
| ControlChannel.ControlChannel.AddNode | src/ksana_llm/distributed/control_channel_test.cpp:144 | the worker registers after connecting; the configuration is unchanged |
| ControlChannel.ControlChannel.Barrier | src/ksana_llm/distributed/control_channel_test.cpp:115-147 | the master passes it after listening and the worker after registering; the configuration is unchanged |
| ControlChannel.ControlChannel.SynchronizeNodeLayersMaster | src/ksana_llm/distributed/control_channel_test.cpp:118 | the master takes its range and sends the worker's |
| ControlChannel.ControlChannel.SynchronizeNodeLayersWorker | src/ksana_llm/distributed/control_channel_test.cpp:150 | the worker adopts the layer range and next-token indices of the master's request |
| ControlChannel.ControlChannel.SynchronizeCacheBlockNumMaster | src/ksana_llm/distributed/control_channel_test.cpp:121 | the master agrees on the minimum over itself and the workers and adopts it |
| ControlChannel.ControlChannel.SynchronizeCacheBlockNumWorker | src/ksana_llm/distributed/control_channel_test.cpp:153 | the worker overwrites its block counts with the agreed ones |
| ControlChannel.ControlChannel.Close | src/ksana_llm/distributed/control_channel_test.cpp:124 | the master's last call, after the block agreement; the configuration is unchanged |
| ControlChannel.ControlChannel.Disconnect | src/ksana_llm/distributed/control_channel_test.cpp:156 | the worker's last call, after the block agreement; the configuration is unchanged |
| ControlChannel.TwoNodeNegotiation | src/ksana_llm/distributed/control_channel_test.cpp:110-187 | the master and worker call sequences, in their only allowed order, end with contiguous ranges, the -1 sentinels, and equal block counts that are the minima |
| MemoryUtils.AlignedMemoryQueue.Create | src/ksana_llm/utils/memory_utils.cpp:20-26 | construction fails exactly when the alignment is not a power of two, with the message KLLM_THROW gives: the text, the alignment in decimal, then " (file:24)" with the source file's name as a parameter |
| MemoryUtils.AlignedMemoryQueue.constructor | src/ksana_llm/utils/memory_utils.cpp:20-21 | stores the alignment and the allocator, with an empty queue |
| MemoryUtils.AlignedMemoryQueue.Add | src/ksana_llm/utils/memory_utils.cpp:30-37 | appends one request (a caller's pointer slot and its size) to the queue AllocateAndAlign serves in order |
| MemoryUtils.PowerOfTwoCharacterization | src/ksana_llm/utils/memory_utils.cpp:46 | `x && !(x & (x-1))` holds exactly for the powers of two |
| MemoryUtils.Log2 | src/ksana_llm/utils/memory_utils.cpp:46 | every value passing the test is 2^k for the k returned |
| MemoryUtils.IsPowerOfTwo | src/ksana_llm/utils/memory_utils.cpp:46 | the bit test `x && !(x & (x-1))` itself; PowerOfTwoCharacterization and Log2 state what it decides |
| MemoryUtils.AlignedMemoryQueue.AlignSize | src/ksana_llm/utils/memory_utils.cpp:44 | the rounded size stays inside size_t; AlignSizeIsLeastMultiple and AlignSizeIdempotent state what it computes |
| MemoryUtils.AlignedMemoryQueue.AlignSizeIsLeastMultiple | src/ksana_llm/utils/memory_utils.cpp:44 | without overflow, AlignSize is a multiple of the alignment in [size, size + alignment), and 0 for 0 |
| MemoryUtils.AlignedMemoryQueue.AlignSizeIdempotent | src/ksana_llm/utils/memory_utils.cpp:44 | aligning twice is aligning once |
| MemoryUtils.AlignedMemoryQueue.AlignedSizes | src/ksana_llm/utils/memory_utils.cpp:30-32 | item k's aligned size is AlignSize(size_k) |
| MemoryUtils.AlignedMemoryQueue.SumAlignedSizes | src/ksana_llm/utils/memory_utils.cpp:29-32 | the accumulating loop computes the size_t sum of the aligned sizes |
| MemoryUtils.AlignedMemoryQueue.PlaceItems | src/ksana_llm/utils/memory_utils.cpp:35-40 | item i gets null for size 0, otherwise base + the aligned sizes of the items before it |
| MemoryUtils.AlignedMemoryQueue.AllocateAndAlign | src/ksana_llm/utils/memory_utils.cpp:28-42 | one allocator call with the sum of aligned sizes, item addresses at the prefix sums, queue cleared |
| MemoryUtils.AlignedMemoryQueue.RegionsDisjoint | src/ksana_llm/utils/memory_utils.cpp:34-40 | without overflow, non-empty regions come one after another without overlap, inside the allocation |
| MemoryUtils.AlignedMemoryQueue.OffsetsAligned | src/ksana_llm/utils/memory_utils.cpp:37-40 | every offset is a multiple of the alignment |
| MemoryUtils.KiBToBytes | src/ksana_llm/utils/memory_utils.cpp:64-69 | `<<= 10` is the product by 1024 when it does not wrap |
| MemoryUtils.EffectiveUsage | src/ksana_llm/utils/memory_utils.cpp:130-132 | the cache is subtracted when it is below the usage, and the usage is left as it is otherwise |
| MemoryUtils.CombineHostMemoryInfo | src/ksana_llm/utils/memory_utils.cpp:117-144 | definition of the status, *free and *total GetHostMemoryInfo ends with, from the figures it read; HostMemoryStatus, CgroupLimitCapsTotal and NoCgroupUsesMeminfo state its properties |
| MemoryUtils.HostMemoryStatus | src/ksana_llm/utils/memory_utils.cpp:117-144 | OK exactly when a free figure and a total figure were each obtained from meminfo or the cgroup |
| MemoryUtils.CgroupLimitCapsTotal | src/ksana_llm/utils/memory_utils.cpp:117-138 | a cgroup limit caps the total (min with meminfo, or the limit alone), and a cgroup free figure is total - usage |
| MemoryUtils.NoCgroupUsesMeminfo | src/ksana_llm/utils/memory_utils.cpp:61-76 | without a cgroup limit the figures are meminfo's, in bytes |
| MemoryUtils.WorkspaceCache.GetWorkSpace | src/ksana_llm/utils/memory_utils.cpp:147-174 | size 0 leaves ws_addr alone; only a smaller cached workspace is replaced (and freed); sizes never decrease and cover every request served |
| Npy.NpyFile.Read | 3rdparty/LLM_kernels/csrc/utils/common.cc:19 | fread returns what remains, up to the count, and advances the cursor past it |
| Npy.LittleEndianRoundTrip | 3rdparty/LLM_kernels/csrc/utils/common.cc:30-37 | a length field read back from its little-endian bytes is the length |
| Npy.ParseNpyIntro | 3rdparty/LLM_kernels/csrc/utils/common.cc:14-43 | outcome and bytes consumed are those of Intro on the remaining file |
| Npy.Intro | 3rdparty/LLM_kernels/csrc/utils/common.cc:14-43 | definition of the outcome and the bytes consumed when reading a preamble; IntroOfPreamble, IntroRejectsBadMagic and IntroRejectsOtherVersions state its properties |
| Npy.ReadHeaderLength | 3rdparty/LLM_kernels/csrc/utils/common.cc:30-40 | version 1 reads 2 length bytes, version 2 reads 4, any other version fails with its number |
| Npy.IntroOfPreamble | 3rdparty/LLM_kernels/csrc/utils/common.cc:25-42 | a v1 or v2 preamble reads back as its header length, with the data at 10 + len or 12 + len |
| Npy.IntroRejectsBadMagic | 3rdparty/LLM_kernels/csrc/utils/common.cc:15-23 | the magic-token error is raised exactly when the first six bytes are not "\x93NUMPY" |
| Npy.IntroRejectsOtherVersions | 3rdparty/LLM_kernels/csrc/utils/common.cc:38-40 | a major version other than 1 or 2 raises "Unsupported npy version: " and the number |
| Npy.Find | 3rdparty/LLM_kernels/csrc/utils/common.cc:55-69 | std::string::find returns npos or an occurrence at or after pos |
| Npy.FindIsFirst | 3rdparty/LLM_kernels/csrc/utils/common.cc:55-69 | no occurrence lies before what find returns, and none at all when it returns npos |
| Npy.Substr | 3rdparty/LLM_kernels/csrc/utils/common.cc:63-72 | substr returns count characters from pos, or fewer at the end |
| Npy.Cut | 3rdparty/LLM_kernels/csrc/utils/common.cc:62-71 | the substr from after a found delimiter up to the next close delimiter, in size_t arithmetic; BetweenFound states what it cuts |
| Npy.Between | 3rdparty/LLM_kernels/csrc/utils/common.cc:60-71 | a key lookup followed by Cut at the next open delimiter; BetweenFound states what it cuts |
| Npy.BetweenFound | 3rdparty/LLM_kernels/csrc/utils/common.cc:60-69 | with the key and both delimiters found, the size_t arithmetic cuts exactly the text between the delimiters |
| Npy.Getline | 3rdparty/LLM_kernels/csrc/utils/common.cc:75 | getline yields nothing exactly at the end of the stream, and otherwise consumes part of it |
| Npy.GetlineSplits | 3rdparty/LLM_kernels/csrc/utils/common.cc:75 | the token is the text before the first comma (all of the stream without one) and the rest follows that comma |
| Numerals.StoulReadsNumeral | 3rdparty/LLM_kernels/csrc/utils/common.cc:79 | stoul succeeds exactly on a number within unsigned long, and reads an unsigned one as its value |
| Numerals.StoulOfNatToString | 3rdparty/LLM_kernels/csrc/utils/common.cc:79 | stoul reads back the decimal text of any size_t value |
| Npy.ParseNpyHeader | 3rdparty/LLM_kernels/csrc/utils/common.cc:45-83 | the return value, the shape and the cursor are those of Header on the bytes fread returns |
| Npy.Header | 3rdparty/LLM_kernels/csrc/utils/common.cc:45-83 | definition of the return value and the shape ParseNpyHeader ends with; ShortReadLeavesShape, FortranOrderRefused and HeaderReadsShape state its properties |
| Npy.ShapeTokens | 3rdparty/LLM_kernels/csrc/utils/common.cc:74-80 | definition of the getline/stoul loop over the shape text; ShapeTupleRoundTrip, ShapeExamples and ShapeTrailingBlank state its properties |
| Npy.ShortReadLeavesShape | 3rdparty/LLM_kernels/csrc/utils/common.cc:46-51 | a short read returns -1 and leaves the shape as it was |
| Npy.FortranOrderRefused | 3rdparty/LLM_kernels/csrc/utils/common.cc:60-65 | a fortran_order value without False raises, leaving the shape as it was |
| Npy.HeaderReadsShape | 3rdparty/LLM_kernels/csrc/utils/common.cc:67-82 | with fortran_order False and a shape tuple as numpy writes it, the result is 0 and the shape is exactly the dimensions written |
| Npy.ShapeTupleRoundTrip | 3rdparty/LLM_kernels/csrc/utils/common.cc:71-80 | the tuple text of any size_t dimensions reads back as those dimensions |
| Npy.ShapeExamples | 3rdparty/LLM_kernels/csrc/utils/common.cc:71-80 | "()" gives [] and "(3,)" gives [3] |
| Npy.ShapeTrailingBlank | 3rdparty/LLM_kernels/csrc/utils/common.cc:75-78 | a blank token such as the " " of "(3, )" ends the shape without adding to it |
| TransferTypes.ToString | src/ksana_llm/transfer/transfer_types.h:21 | the text is the ip, a ':' and a decimal that stoi reads back as the port |
| TransferTypes.FindChar | src/ksana_llm/transfer/transfer_types.h:25 | find of one character: none exactly when it is absent, otherwise its first position |
| TransferTypes.FromString | src/ksana_llm/transfer/transfer_types.h:23-31 | without ':' the default 127.0.0.1:50051; otherwise the ip is the text before the first ':' and the port is stoi of the rest, and it raises exactly when stoi rejects that rest |
| TransferTypes.FromStringOfToString | src/ksana_llm/transfer/transfer_types.h:21-31 | parsing a printed address gives it back when its ip has no ':' |
| TransferTypes.GetElementNumber | src/ksana_llm/transfer/transfer_types.h:48-56 | 0 for an empty shape, else the product of the dims cast to size_t, modulo 2^64 |
| TransferTypes.Product | src/ksana_llm/transfer/transfer_types.h:51-55 | definition of the product of the size_t-cast dimensions without the wrap; GetElementNumber takes it modulo 2^64, and ProductWithZero and ProductOfNonNegative state its properties |
| TransferTypes.ProductWithZero | src/ksana_llm/transfer/transfer_types.h:51-55 | one zero dimension makes the product 0 |
| TransferTypes.ProductOfNonNegative | src/ksana_llm/transfer/transfer_types.h:51-55 | with non-negative dims the product is the true product of the shape |
| Logger.GetLogLevel | src/ksana_llm/utils/logger.h:18-31 | INFO when the variable is unset or names no level; always a valid level |
| Logger.GetLogFile | src/ksana_llm/utils/logger.h:34-38 | log/ksana_llm.log when unset, else the variable's value |
| Logger.GetLevelName | src/ksana_llm/utils/logger.h:41-56 | the five levels have names that map back to them; others give "Invalid: " and the number |
| Logger.LevelNameRoundTrip | src/ksana_llm/utils/logger.h:18-56 | a level's name reads back as the level |
| Logger.LevelOfNameRoundTrip | src/ksana_llm/utils/logger.h:18-56 | a level name read as a level names it again |
| Logger.InvalidNameReadsAsInfo | src/ksana_llm/utils/logger.h:26-29 | the name of an invalid level reads back as INFO |
| Logger.Verbosity | src/ksana_llm/utils/logger.h:62-73 | the level-to-verbosity table, MAX for levels at or below DEBUG and above FATAL |
| Logger.VerbosityNonIncreasing | src/ksana_llm/utils/logger.h:62-73 | a more severe level never has a larger verbosity |
| Logger.LoggerState.InitLoguru | src/ksana_llm/utils/logger.h:59-81 | stderr logging off; the log file is added, in append mode with the level's verbosity, on the first call only |
| Logger.InitTwiceAddsOneFile | src/ksana_llm/utils/logger.h:76-80 | two calls add exactly one file |
| Logger.CheckAssert | src/ksana_llm/utils/logger.h:91-101 | raises exactly when the result is false, with a message containing the info and "file:line" |
| Logger.RuntimeErrorMessage | src/ksana_llm/utils/logger.h:91-95 | the message `info (file:line)` ThrowRuntimeError formats; CheckAssert states what it contains |
| DataChannelFactory.CreateDataChannel | src/ksana_llm/distributed/data_channel_factory.cpp:16-35 | NCCL exactly when TCP is not requested and CUDA is built in; the socket channel otherwise |
| DataChannelFactory.CreateExpertDataChannel | src/ksana_llm/distributed/data_channel_factory.cpp:37-62 | TCP, then CUDA, then ACL precedence; no channel, with OK, when none applies |
| DataChannelFactory.ExpertFollowsPipelineChoice | src/ksana_llm/distributed/data_channel_factory.cpp:16-62 | both factories pick the collective channel under the same conditions |
| DataChannelFactory.OnlyOneSelectsTcp | src/ksana_llm/distributed/data_channel_factory.cpp:20-21 | only the exact value "1" selects TCP: "0", "true" and unset do not |
| Numerals.StoiOfIntToString | src/ksana_llm/transfer/transfer_types.h:21-28 | std::stoi reads back what std::to_string wrote for any int |

## Left out

- Concurrency in the buffer pool is left out, because it is thread
  synchronisation and has no sequential meaning. This covers blocking, the
  `Waiter` wait/notify/reset calls, and `Stop` waking waiters. A blocking
  get is modelled with "an item is present" as a precondition, and
  `WaitUtilReadyToRecv` with "one receive is pending" as a precondition.
- `PutToSendQueue` in the source also waits for `NotifySendFinished`. That
  is a blocking wait and is not modelled.
- The keyed receive queue is taken to be a FIFO per schedule id. Its
  implementation is not part of this model.
- Device calls are foreign and are not modelled: `SetDevice`, `Memcpy`,
  tensor allocation and `GetDevice`/`GetDeviceCount`.
  - Memcpy is a sequence splice.
  - Fresh device memory is zero bytes. The indeterminate contents of a
    malloc'd host packet are parameters of `GetHostBuffer`.
  - Malloc's failure and the pointers it returns are parameters.
- `InitializeBufferSize` reads the configuration, which is I/O. The values
  it derives are parameters of the pool constructor, and its empty-config
  path is not modelled.
- `sizeof(HiddenUnitHostBuffer)` and `GetTypeSize` are parameters. Their
  definitions are not part of this model.
- HiddenUnitBuffer.HiddenUnitBufferPool.ConvertDeviceBufferToHost and
  HiddenUnitBuffer.HiddenUnitBufferPool.ConvertHostBufferToDevice: the
  source does not check that the decode bytes and, with ACL, the prefill
  bytes after them fit the packet's data area and the device tensors. The
  model assumes they do (`DeviceToHostSafe`, `HostToDeviceSafe`). A packet
  from `GetHostBuffer` holds one full [max_token_num, hidden_unit_size] part,
  so with ACL a full decode part plus a full prefill part would be written
  past it (`FullTwoPartImageOverflowsPacket`). What the source does then is
  not modelled.
- HiddenUnitBuffer.Bytes: dimension products are computed without size_t
  wrap-around, because the pool's sizes are far below 2^64.
- The `ControlChannel` implementation is not part of this model: sockets,
  threads, the barrier messages and heartbeats. It is modelled from its test,
  with one class per side.
  - Out-of-order calls are ruled out by preconditions.
  - Next-token layer ranges configured by the user are not modelled. Only
    the "not configured" sentinel is.
- ControlChannel.MasterLayers: for a total other than the 32 layers the test
  fixes, the split follows the documented two-node formula: the master takes
  ceil(total/2) layers minus the offloaded ones. It is not checked against an
  implementation.
- Reading `/proc/meminfo` and the cgroup v1/v2 files is I/O. The combination
  takes the parsed values as `Option`s. A value that fails to parse is
  treated as not found. The source then writes 0 and stops scanning, and that
  is not modelled.
- MemoryUtils.AlignedMemoryQueue.AllocateAndAlign: writes through the
  callers' pointer slots. They are returned as a sequence of addresses,
  indexed like the queue. `Add` is modelled from its use in the queue,
  because its declaration is not part of this model.
- MemoryUtils.AlignedMemoryQueue.RegionsDisjoint: proved only when neither
  the total nor any single rounded size wraps modulo 2^64. Beyond that the
  source's regions can overlap.
- `GetDeviceMemoryInfo` and the other device queries in memory_utils.cpp are
  foreign calls and are not modelled.
- Npy.NpyFile.Read: fread may fill part of a multi-byte element at the end of
  the file. There the header length is taken as the little-endian value of
  the bytes read, as glibc copies them, on a little-endian host.
- The `'descr'` lookups of `ParseNpyHeader` have no effect on its result,
  and the dtype is not validated. They are not modelled.
- Exceptions are modelled as `Failure` values. The messages of `std::stoul`'s
  and `std::stoi`'s exceptions are not modelled: the error is the function's
  name.
- loguru is a library and is not modelled. Its verbosity constants are
  stated as values, and `add_file` is a record appended to a list of files.
- `getenv` is I/O. Environment variables are `Option<string>` parameters.
- `CreateDataChannel` with neither a backend nor the TCP flag has no return
  statement in the source. That case is excluded by its precondition.
