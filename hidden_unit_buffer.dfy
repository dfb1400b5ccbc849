/**
 * The hidden-unit buffer pool of the pipeline-parallel data hub
 * (src/ksana_llm/data_hub/hidden_unit_buffer.cpp): device buffers (one tensor
 * per tensor-parallel rank), host packets (a header followed by the decode
 * bytes and, with ACL, the prefill bytes), the free/send/receive queues and
 * the pending-receive counter.
 *
 * Device and host memory are byte sequences; Memcpy is a splice into them.
 * GetTypeSize(weight_type), sizeof(HiddenUnitHostBuffer) and ENABLE_ACL are
 * constants of the pool.
 */
module HiddenUnitBuffer {

  type byte = bv8

  /** The two dimensions stored in a host buffer (shape_dims, prefill_shape_dims). */
  datatype Dims = Dims(rows: nat, cols: nat)

  /** A device tensor: its shape and the bytes of its device memory. */
  datatype DeviceTensor = DeviceTensor(shape: seq<nat>, data: seq<byte>)

  datatype PacketType = DataReqHiddenUnit | OtherPacketType(code: nat)

  /** The number of payload bytes two dimensions describe. */
  function Bytes(d: Dims, type_size: nat): nat
  {
    d.rows * d.cols * type_size
  }

  function Zeros(n: nat): (z: seq<byte>)
    ensures |z| == n && forall i :: 0 <= i < n ==> z[i] == 0
  {
    seq(n, _ => 0)
  }

  /** Memcpy(dst + at, src, |src|): src replaces |src| bytes of dst starting at `at`. */
  function Splice(dst: seq<byte>, at: nat, src: seq<byte>): (r: seq<byte>)
    requires at + |src| <= |dst|
    ensures |r| == |dst|
    ensures r[..at] == dst[..at] && r[at..at + |src|] == src && r[at + |src|..] == dst[at + |src|..]
  {
    dst[..at] + src + dst[at + |src|..]
  }

  /** A Memcpy into a device tensor followed by setting its shape. */
  function CopyInto(t: DeviceTensor, shape: seq<nat>, bytes: seq<byte>): (r: DeviceTensor)
    requires |bytes| <= |t.data|
    ensures r.shape == shape && |r.data| == |t.data| && r.data[..|bytes|] == bytes
  {
    DeviceTensor(shape, Splice(t.data, 0, bytes))
  }

  /** Every tensor below k can hold n bytes. */
  predicate RanksHold(tensors: seq<DeviceTensor>, k: nat, n: nat)
  {
    k <= |tensors| && forall j :: 0 <= j < k ==> n <= |tensors[j].data|
  }

  /** The tensors after the ranks below k received `bytes` and `shape`. */
  function UpdateRanks(tensors: seq<DeviceTensor>, k: nat, shape: seq<nat>, bytes: seq<byte>): (r: seq<DeviceTensor>)
    requires RanksHold(tensors, k, |bytes|)
    ensures |r| == |tensors|
    ensures forall j :: 0 <= j < k ==> r[j] == CopyInto(tensors[j], shape, bytes)
    ensures forall j :: k <= j < |tensors| ==> r[j] == tensors[j]
  {
    seq(|tensors|, j requires 0 <= j < |tensors| => if j < k then CopyInto(tensors[j], shape, bytes) else tensors[j])
  }

  // ---------------------------------------------------------------------
  // Buffers
  // ---------------------------------------------------------------------

  /** The contents of a device buffer. */
  datatype DeviceImage = DeviceImage(schedule_id: nat, tensors: seq<DeviceTensor>, prefill_tensors: seq<DeviceTensor>,
                                     prefill_enabled: bool, decode_enabled: bool, comm_type: nat)

  /** The contents of a host buffer: the packet body. */
  datatype HostImage = HostImage(schedule_id: nat, tensor_parallel: nat, shape_dims: Dims,
                                 prefill_shape_dims: Dims, data: seq<byte>)

  class HiddenUnitDeviceBuffer {
    var schedule_id: nat
    var tensors: seq<DeviceTensor>
    var prefill_tensors: seq<DeviceTensor>
    var prefill_enabled: bool
    var decode_enabled: bool
    var comm_type: nat

    /** `new HiddenUnitDeviceBuffer()`: empty tensor lists, flags off. */
    constructor()
      ensures Image() == DeviceImage(0, [], [], false, false, 0)
    {
      schedule_id, tensors, prefill_tensors := 0, [], [];
      prefill_enabled, decode_enabled, comm_type := false, false, 0;
    }

    function Image(): DeviceImage
      reads this
    {
      DeviceImage(schedule_id, tensors, prefill_tensors, prefill_enabled, decode_enabled, comm_type)
    }
  }

  class HiddenUnitHostBuffer {
    var schedule_id: nat
    var tensor_parallel: nat
    var shape_dims: Dims
    var prefill_shape_dims: Dims
    /** The flexible array after the header. */
    var data: seq<byte>

    /** Memory fresh from malloc: its indeterminate contents are the parameter. */
    constructor(junk: HostImage)
      ensures Image() == junk
    {
      schedule_id, tensor_parallel := junk.schedule_id, junk.tensor_parallel;
      shape_dims, prefill_shape_dims := junk.shape_dims, junk.prefill_shape_dims;
      data := junk.data;
    }

    function Image(): HostImage
      reads this
    {
      HostImage(schedule_id, tensor_parallel, shape_dims, prefill_shape_dims, data)
    }
  }

  class Packet {
    var packet_type: PacketType
    var size: nat
    /** The packet body, read as a HiddenUnitHostBuffer. */
    const body: HiddenUnitHostBuffer

    /** A packet fresh from malloc: header and body hold whatever the parameters say. */
    constructor(junk_type: PacketType, junk_size: nat, junk: HostImage)
      ensures fresh(body) && body.Image() == junk
      ensures packet_type == junk_type && size == junk_size
    {
      packet_type, size := junk_type, junk_size;
      body := new HiddenUnitHostBuffer(junk);
    }
  }

  // ---------------------------------------------------------------------
  // Marshalling between device buffers and host packets
  // ---------------------------------------------------------------------

  function DecodeBytes(type_size: nat, h: HostImage): nat
  {
    Bytes(h.shape_dims, type_size)
  }

  /** Prefill bytes exist only in ACL builds. */
  function PrefillBytes(acl: bool, type_size: nat, h: HostImage): nat
  {
    if acl then Bytes(h.prefill_shape_dims, type_size) else 0
  }

  /** The bytes of the packet body after the header that describe hidden units. */
  function PayloadBytes(acl: bool, type_size: nat, h: HostImage): nat
  {
    DecodeBytes(type_size, h) + PrefillBytes(acl, type_size, h)
  }

  /** What ConvertHostBufferToDevice needs for its copies to stay inside both buffers. */
  predicate HostToDeviceSafe(acl: bool, type_size: nat, h: HostImage, d: DeviceImage)
  {
    var bb, pb := DecodeBytes(type_size, h), PrefillBytes(acl, type_size, h);
    && (bb > 0 ==> bb <= |h.data| && RanksHold(d.tensors, h.tensor_parallel, bb))
    && (pb > 0 ==> bb + pb <= |h.data| && RanksHold(d.prefill_tensors, h.tensor_parallel, pb))
  }

  /**
   * ConvertHostBufferToDevice on values: every rank below tensor_parallel
   * receives the decode bytes and shape (and, with ACL, the prefill bytes
   * read right after them); a zero-byte part is not copied and leaves the
   * shapes as they were; with ACL the flags record which parts are non-empty.
   */
  function HostToDevice(acl: bool, type_size: nat, h: HostImage, d: DeviceImage): DeviceImage
    requires HostToDeviceSafe(acl, type_size, h, d)
  {
    var bb, pb := DecodeBytes(type_size, h), PrefillBytes(acl, type_size, h);
    DeviceImage(
      h.schedule_id,
      if bb > 0 then UpdateRanks(d.tensors, h.tensor_parallel, [h.shape_dims.rows, h.shape_dims.cols], h.data[..bb])
      else d.tensors,
      if pb > 0 then UpdateRanks(d.prefill_tensors, h.tensor_parallel,
                                 [h.prefill_shape_dims.rows, h.prefill_shape_dims.cols], h.data[bb..bb + pb])
      else d.prefill_tensors,
      if acl then pb > 0 else d.prefill_enabled,
      if acl then bb > 0 else d.decode_enabled,
      d.comm_type)
  }

  /** ConvertDeviceBufferToHost reads tensor 0's shape (and with ACL prefill tensor 0's). */
  predicate DeviceShapesReadable(acl: bool, d: DeviceImage)
  {
    && |d.tensors| >= 1 && |d.tensors[0].shape| >= 2
    && (acl ==> |d.prefill_tensors| >= 1 && |d.prefill_tensors[0].shape| >= 2)
  }

  /** The decode dims written to the host: tensor 0's shape, zero when decode is off under ACL. */
  function HostDecodeDims(acl: bool, d: DeviceImage): Dims
    requires DeviceShapesReadable(acl, d)
  {
    if acl && !d.decode_enabled then Dims(0, 0) else Dims(d.tensors[0].shape[0], d.tensors[0].shape[1])
  }

  /** The prefill dims written to the host: only ACL builds touch them. */
  function HostPrefillDims(acl: bool, d: DeviceImage, h: HostImage): Dims
    requires DeviceShapesReadable(acl, d)
  {
    if !acl then h.prefill_shape_dims
    else if !d.prefill_enabled then Dims(0, 0)
    else Dims(d.prefill_tensors[0].shape[0], d.prefill_tensors[0].shape[1])
  }

  predicate DeviceToHostSafe(acl: bool, type_size: nat, d: DeviceImage, h: HostImage)
  {
    && DeviceShapesReadable(acl, d)
    && var bb := Bytes(HostDecodeDims(acl, d), type_size);
       var pb := if acl then Bytes(HostPrefillDims(acl, d, h), type_size) else 0;
       && (bb > 0 ==> bb <= |d.tensors[0].data| && bb <= |h.data|)
       && (pb > 0 ==> pb <= |d.prefill_tensors[0].data| && bb + pb <= |h.data|)
  }

  /**
   * ConvertDeviceBufferToHost on values: the schedule id, the number of ranks
   * and the dims are recorded, and rank 0's decode bytes go to offset 0 of
   * the payload with its prefill bytes right after them.
   */
  function DeviceToHost(acl: bool, type_size: nat, d: DeviceImage, h: HostImage): (r: HostImage)
    requires DeviceToHostSafe(acl, type_size, d, h)
    ensures |r.data| == |h.data|
  {
    var dims, pdims := HostDecodeDims(acl, d), HostPrefillDims(acl, d, h);
    var bb := Bytes(dims, type_size);
    var pb := if acl then Bytes(pdims, type_size) else 0;
    var data1 := if bb > 0 then Splice(h.data, 0, d.tensors[0].data[..bb]) else h.data;
    var data2 := if pb > 0 then Splice(data1, bb, d.prefill_tensors[0].data[..pb]) else data1;
    HostImage(d.schedule_id, |d.tensors|, dims, pdims, data2)
  }

  /** What the device-to-host step leaves in the host image for the decode part. */
  lemma DeviceToHostDecode(acl: bool, type_size: nat, d: DeviceImage, h: HostImage)
    requires DeviceToHostSafe(acl, type_size, d, h)
    requires acl ==> d.decode_enabled
    ensures var r := DeviceToHost(acl, type_size, d, h);
            var bb := Bytes(Dims(d.tensors[0].shape[0], d.tensors[0].shape[1]), type_size);
            && r.schedule_id == d.schedule_id && r.tensor_parallel == |d.tensors|
            && r.shape_dims == Dims(d.tensors[0].shape[0], d.tensors[0].shape[1])
            && DecodeBytes(type_size, r) == bb
            && (bb > 0 ==> bb <= |r.data| && r.data[..bb] == d.tensors[0].data[..bb])
  {
  }

  /** What the device-to-host step leaves in the host image for the prefill part (ACL). */
  lemma DeviceToHostPrefill(type_size: nat, d: DeviceImage, h: HostImage)
    requires DeviceToHostSafe(true, type_size, d, h)
    requires d.prefill_enabled
    ensures var r := DeviceToHost(true, type_size, d, h);
            var pshape := d.prefill_tensors[0].shape;
            var bb, pb := DecodeBytes(type_size, r), Bytes(Dims(pshape[0], pshape[1]), type_size);
            && r.prefill_shape_dims == Dims(pshape[0], pshape[1])
            && PrefillBytes(true, type_size, r) == pb
            && (pb > 0 ==> bb + pb <= |r.data| && r.data[bb..bb + pb] == d.prefill_tensors[0].data[..pb])
  {
    var r := DeviceToHost(true, type_size, d, h);
    var pshape := d.prefill_tensors[0].shape;
    var bb, pb := DecodeBytes(type_size, r), Bytes(Dims(pshape[0], pshape[1]), type_size);
    assert bb == Bytes(HostDecodeDims(true, d), type_size);
  }

  /** What the host-to-device step writes into each rank. */
  lemma HostToDeviceRanks(acl: bool, type_size: nat, h: HostImage, d: DeviceImage)
    requires HostToDeviceSafe(acl, type_size, h, d)
    ensures var r := HostToDevice(acl, type_size, h, d);
            var bb, pb := DecodeBytes(type_size, h), PrefillBytes(acl, type_size, h);
            && r.schedule_id == h.schedule_id
            && (bb > 0 ==> forall i :: 0 <= i < h.tensor_parallel ==>
                  r.tensors[i].shape == [h.shape_dims.rows, h.shape_dims.cols] && r.tensors[i].data[..bb] == h.data[..bb])
            && (bb == 0 ==> r.tensors == d.tensors)
            && (pb > 0 ==> forall i :: 0 <= i < h.tensor_parallel ==>
                  r.prefill_tensors[i].shape == [h.prefill_shape_dims.rows, h.prefill_shape_dims.cols]
                  && r.prefill_tensors[i].data[..pb] == h.data[bb..bb + pb])
            && (pb == 0 ==> r.prefill_tensors == d.prefill_tensors)
            && (acl ==> r.decode_enabled == (bb > 0) && r.prefill_enabled == (pb > 0))
  {
  }

  /**
   * Device to host and back: every rank of the new device buffer gets the
   * schedule id, rank 0's decode shape and rank 0's decode bytes; with ACL
   * a decode part switched off is not copied.
   */
  lemma RoundTrip(acl: bool, type_size: nat, d: DeviceImage, h: HostImage, d2: DeviceImage)
    requires DeviceToHostSafe(acl, type_size, d, h)
    requires HostToDeviceSafe(acl, type_size, DeviceToHost(acl, type_size, d, h), d2)
    ensures var r := HostToDevice(acl, type_size, DeviceToHost(acl, type_size, d, h), d2);
            var shape := d.tensors[0].shape;
            var bb := Bytes(Dims(shape[0], shape[1]), type_size);
            && r.schedule_id == d.schedule_id
            && (bb > 0 && (acl ==> d.decode_enabled) ==>
                  forall i :: 0 <= i < |d.tensors| ==>
                    r.tensors[i].shape == shape[..2] && r.tensors[i].data[..bb] == d.tensors[0].data[..bb])
            && (acl && !d.decode_enabled ==> r.tensors == d2.tensors && !r.decode_enabled)
  {
    var shape := d.tensors[0].shape;
    assert shape[..2] == [shape[0], shape[1]];
    var h2 := DeviceToHost(acl, type_size, d, h);
    var r := HostToDevice(acl, type_size, h2, d2);
    HostToDeviceRanks(acl, type_size, h2, d2);
    var bb := Bytes(Dims(shape[0], shape[1]), type_size);
    if acl ==> d.decode_enabled {
      DeviceToHostDecode(acl, type_size, d, h);
      if bb > 0 {
        assert DecodeBytes(type_size, h2) == bb && h2.tensor_parallel == |d.tensors|;
        assert h2.shape_dims.rows == shape[0] && h2.shape_dims.cols == shape[1];
        forall i | 0 <= i < |d.tensors|
          ensures r.tensors[i].shape == shape[..2] && r.tensors[i].data[..bb] == d.tensors[0].data[..bb]
        {
          assert r.tensors[i].data[..bb] == h2.data[..bb];
        }
      }
    } else {
      assert h2.shape_dims == Dims(0, 0);
      assert DecodeBytes(type_size, h2) == 0;
    }
  }

  /**
   * With ACL the prefill part travels the same way, read right after the
   * decode bytes.
   */
  lemma RoundTripPrefill(type_size: nat, d: DeviceImage, h: HostImage, d2: DeviceImage)
    requires DeviceToHostSafe(true, type_size, d, h)
    requires HostToDeviceSafe(true, type_size, DeviceToHost(true, type_size, d, h), d2)
    requires d.prefill_enabled
    ensures var r := HostToDevice(true, type_size, DeviceToHost(true, type_size, d, h), d2);
            var pshape := d.prefill_tensors[0].shape;
            var pb := Bytes(Dims(pshape[0], pshape[1]), type_size);
            pb > 0 ==>
              && r.prefill_enabled
              && forall i :: 0 <= i < |d.tensors| ==>
                   r.prefill_tensors[i].shape == pshape[..2] && r.prefill_tensors[i].data[..pb] == d.prefill_tensors[0].data[..pb]
  {
    var pshape := d.prefill_tensors[0].shape;
    assert pshape[..2] == [pshape[0], pshape[1]];
    var h2 := DeviceToHost(true, type_size, d, h);
    var r := HostToDevice(true, type_size, h2, d2);
    HostToDeviceRanks(true, type_size, h2, d2);
    DeviceToHostPrefill(type_size, d, h);
    var bb, pb := DecodeBytes(type_size, h2), Bytes(Dims(pshape[0], pshape[1]), type_size);
    if pb > 0 {
      assert PrefillBytes(true, type_size, h2) == pb && h2.tensor_parallel == |d.tensors|;
      forall i | 0 <= i < |d.tensors|
        ensures r.prefill_tensors[i].shape == pshape[..2]
        ensures r.prefill_tensors[i].data[..pb] == d.prefill_tensors[0].data[..pb]
      {
        assert r.prefill_tensors[i].data[..pb] == h2.data[bb..bb + pb];
      }
    }
  }

  /** A prefill part switched off is not copied and stays off. */
  lemma RoundTripPrefillOff(type_size: nat, d: DeviceImage, h: HostImage, d2: DeviceImage)
    requires DeviceToHostSafe(true, type_size, d, h)
    requires HostToDeviceSafe(true, type_size, DeviceToHost(true, type_size, d, h), d2)
    requires !d.prefill_enabled
    ensures var r := HostToDevice(true, type_size, DeviceToHost(true, type_size, d, h), d2);
            r.prefill_tensors == d2.prefill_tensors && !r.prefill_enabled
  {
    var h2 := DeviceToHost(true, type_size, d, h);
    assert h2.prefill_shape_dims == Dims(0, 0);
    assert PrefillBytes(true, type_size, h2) == 0;
  }

  /** ConvertDeviceBufferToHost writes nothing beyond the payload its new dims describe. */
  lemma DeviceToHostWritesOnlyPayload(acl: bool, type_size: nat, d: DeviceImage, h: HostImage)
    requires DeviceToHostSafe(acl, type_size, d, h)
    ensures var r := DeviceToHost(acl, type_size, d, h);
            PayloadBytes(acl, type_size, r) <= |r.data| ==>
              r.data[PayloadBytes(acl, type_size, r)..] == h.data[PayloadBytes(acl, type_size, r)..]
  {
  }

  /** ConvertHostBufferToDevice reads nothing beyond the payload the dims describe. */
  lemma HostToDeviceReadsOnlyPayload(acl: bool, type_size: nat, h1: HostImage, h2: HostImage, d: DeviceImage)
    requires HostToDeviceSafe(acl, type_size, h1, d) && HostToDeviceSafe(acl, type_size, h2, d)
    requires h1.(data := []) == h2.(data := [])
    requires PayloadBytes(acl, type_size, h1) <= |h1.data| && PayloadBytes(acl, type_size, h1) <= |h2.data|
    requires h1.data[..PayloadBytes(acl, type_size, h1)] == h2.data[..PayloadBytes(acl, type_size, h1)]
    ensures HostToDevice(acl, type_size, h1, d) == HostToDevice(acl, type_size, h2, d)
  {
    var bb, pb := DecodeBytes(type_size, h1), PrefillBytes(acl, type_size, h1);
    var n := bb + pb;
    assert h1.data[..bb] == h1.data[..n][..bb] && h2.data[..bb] == h2.data[..n][..bb];
    assert h1.data[bb..n] == h1.data[..n][bb..] && h2.data[bb..n] == h2.data[..n][bb..];
  }

  // ---------------------------------------------------------------------
  // The pool
  // ---------------------------------------------------------------------

  class HiddenUnitBufferPool {
    /** ENABLE_ACL. */
    const acl: bool
    /** GetTypeSize(weight_type_). */
    const type_size: nat
    const tensor_para_size: nat
    const max_token_num: nat
    const hidden_unit_size: nat
    const comm_type: nat
    /** sizeof(HiddenUnitHostBuffer). */
    const header_size: nat

    var free_device_buffers: seq<HiddenUnitDeviceBuffer>
    var free_host_buffers: seq<Packet>
    var recv_host_buffers: seq<Packet>
    var send_device_buffers: seq<HiddenUnitDeviceBuffer>
    /** The receive queue keyed by schedule id; a key is present only while it has buffers. */
    var recv_device_buffers: map<nat, seq<HiddenUnitDeviceBuffer>>
    var pending_recv_count: int
    var is_stopped: bool

    ghost predicate Valid()
      reads this
    {
      && pending_recv_count >= 0
      && forall id | id in recv_device_buffers :: recv_device_buffers[id] != []
    }

    /** The pool after InitializeBufferSize: a parameter per configuration value, empty queues. */
    constructor(acl: bool, type_size: nat, tensor_para_size: nat, max_token_num: nat,
                hidden_unit_size: nat, comm_type: nat, header_size: nat)
      ensures Valid()
      ensures this.acl == acl && this.type_size == type_size && this.tensor_para_size == tensor_para_size
      ensures this.max_token_num == max_token_num && this.hidden_unit_size == hidden_unit_size
      ensures this.comm_type == comm_type && this.header_size == header_size
      ensures free_device_buffers == [] && free_host_buffers == [] && recv_host_buffers == []
      ensures send_device_buffers == [] && recv_device_buffers == map[]
      ensures pending_recv_count == 0 && !is_stopped
    {
      this.acl, this.type_size, this.tensor_para_size := acl, type_size, tensor_para_size;
      this.max_token_num, this.hidden_unit_size, this.comm_type := max_token_num, hidden_unit_size, comm_type;
      this.header_size := header_size;
      free_device_buffers, free_host_buffers, recv_host_buffers := [], [], [];
      send_device_buffers, recv_device_buffers := [], map[];
      pending_recv_count, is_stopped := 0, false;
    }

    /** The bytes a device tensor (and a host payload) is sized for. */
    function ExtraSize(): nat
    {
      max_token_num * hidden_unit_size * type_size
    }

    /** A tensor freshly allocated on a device: shape [max_token_num, hidden_unit_size]. */
    function FreshTensor(): (t: DeviceTensor)
      ensures |t.data| == ExtraSize()
    {
      DeviceTensor([max_token_num, hidden_unit_size], Zeros(ExtraSize()))
    }

    /** What InitializeHiddenUnitDeviceBuffer makes of a buffer. */
    function InitializedImage(before: DeviceImage): DeviceImage
    {
      var ranks := seq(tensor_para_size, _ => FreshTensor());
      if acl then DeviceImage(before.schedule_id, ranks, ranks, false, false, comm_type)
      else before.(tensors := ranks, comm_type := comm_type)
    }

    /** Every rank below tensor_para_size holds a fresh tensor, and with ACL both flags are off. */
    lemma InitializedImageIsFresh(before: DeviceImage)
      ensures var r := InitializedImage(before);
              && |r.tensors| == tensor_para_size
              && (forall i :: 0 <= i < |r.tensors| ==>
                    r.tensors[i].shape == [max_token_num, hidden_unit_size] && |r.tensors[i].data| == ExtraSize())
              && (acl ==> r.prefill_tensors == r.tensors && !r.prefill_enabled && !r.decode_enabled)
              && r.comm_type == comm_type && r.schedule_id == before.schedule_id
    {
    }

    /** vector::resize: keeps the first n elements and pads with default tensors. */
    static function Resize(ts: seq<DeviceTensor>, n: nat): (r: seq<DeviceTensor>)
      ensures |r| == n && forall i :: 0 <= i < n && i < |ts| ==> r[i] == ts[i]
    {
      if n <= |ts| then ts[..n] else ts + seq(n - |ts|, _ => DeviceTensor([], []))
    }

    method InitializeHiddenUnitDeviceBuffer(b: HiddenUnitDeviceBuffer)
      modifies b
      ensures b.Image() == InitializedImage(old(b.Image()))
    {
      b.tensors := Resize(b.tensors, tensor_para_size);
      if acl {
        b.prefill_tensors := Resize(b.prefill_tensors, tensor_para_size);
      }
      for rank := 0 to tensor_para_size
        invariant |b.tensors| == tensor_para_size
        invariant forall j :: 0 <= j < rank ==> b.tensors[j] == FreshTensor()
        invariant acl ==> |b.prefill_tensors| == tensor_para_size
        invariant acl ==> forall j :: 0 <= j < rank ==> b.prefill_tensors[j] == FreshTensor()
        invariant !acl ==> b.prefill_tensors == old(b.prefill_tensors)
        invariant b.schedule_id == old(b.schedule_id) && b.comm_type == old(b.comm_type)
        invariant b.prefill_enabled == old(b.prefill_enabled) && b.decode_enabled == old(b.decode_enabled)
      {
        b.tensors := b.tensors[rank := FreshTensor()];
        if acl {
          b.prefill_tensors := b.prefill_tensors[rank := FreshTensor()];
        }
      }
      if acl {
        b.prefill_enabled := false;
        b.decode_enabled := false;
      }
      b.comm_type := comm_type;
    }

    method PreAllocateDeviceBuffer() returns (b: HiddenUnitDeviceBuffer)
      requires Valid()
      modifies this
      ensures Valid() && fresh(b)
      ensures b.Image() == InitializedImage(DeviceImage(0, [], [], false, false, 0))
      ensures free_device_buffers == old(free_device_buffers) + [b]
      ensures unchanged(this`free_host_buffers, this`recv_host_buffers, this`send_device_buffers, this`recv_device_buffers)
      ensures pending_recv_count == old(pending_recv_count) && is_stopped == old(is_stopped)
    {
      b := new HiddenUnitDeviceBuffer();
      InitializeHiddenUnitDeviceBuffer(b);
      free_device_buffers := free_device_buffers + [b];
    }

    /** Pops the free queue; when it is empty, returns a new initialized buffer without queueing it. */
    method GetDeviceBuffer() returns (b: HiddenUnitDeviceBuffer)
      requires Valid()
      modifies this
      ensures Valid()
      ensures old(free_device_buffers) != [] ==>
                b == old(free_device_buffers)[0] && free_device_buffers == old(free_device_buffers)[1..]
      ensures old(free_device_buffers) == [] ==>
                fresh(b) && b.Image() == InitializedImage(DeviceImage(0, [], [], false, false, 0))
                && free_device_buffers == []
      ensures unchanged(this`free_host_buffers, this`recv_host_buffers, this`send_device_buffers, this`recv_device_buffers)
      ensures pending_recv_count == old(pending_recv_count) && is_stopped == old(is_stopped)
    {
      if free_device_buffers == [] {
        b := new HiddenUnitDeviceBuffer();
        InitializeHiddenUnitDeviceBuffer(b);
        return;
      }
      b := free_device_buffers[0];
      free_device_buffers := free_device_buffers[1..];
    }

    /** Clears the flags (ACL builds) and returns the buffer to the free queue. */
    method FreeDeviceBuffer(b: HiddenUnitDeviceBuffer)
      requires Valid()
      modifies this, b
      ensures Valid()
      ensures b.Image() == if acl then old(b.Image()).(prefill_enabled := false, decode_enabled := false) else old(b.Image())
      ensures free_device_buffers == old(free_device_buffers) + [b]
      ensures unchanged(this`free_host_buffers, this`recv_host_buffers, this`send_device_buffers, this`recv_device_buffers)
      ensures pending_recv_count == old(pending_recv_count) && is_stopped == old(is_stopped)
    {
      if acl {
        b.prefill_enabled := false;
        b.decode_enabled := false;
      }
      free_device_buffers := free_device_buffers + [b];
    }

    /** A buffer freed into an empty pool is the next one handed out. */
    method FreeThenGetDeviceBuffer(b: HiddenUnitDeviceBuffer) returns (got: HiddenUnitDeviceBuffer)
      requires Valid() && free_device_buffers == []
      modifies this, b
      ensures Valid() && got == b && free_device_buffers == []
    {
      FreeDeviceBuffer(b);
      got := GetDeviceBuffer();
    }

    /**
     * Pops the free host queue; when it is empty, mallocs a packet sized for
     * the header and max_token_num * hidden_unit_size elements (null when
     * malloc fails) and fills in its type, size, dims and rank count. The
     * other fields of a new packet (schedule_id, prefill_shape_dims and the
     * data bytes) keep the indeterminate contents malloc returned, given by
     * junk_type, junk_size and junk, whose data area has the extra size.
     */
    method GetHostBuffer(malloc_ok: bool, junk_type: PacketType, junk_size: nat, junk: HostImage) returns (p: Packet?)
      requires Valid()
      requires malloc_ok ==> |junk.data| == ExtraSize()
      modifies this
      ensures Valid()
      ensures old(free_host_buffers) != [] ==>
                p == old(free_host_buffers)[0] && free_host_buffers == old(free_host_buffers)[1..]
      ensures old(free_host_buffers) == [] && !malloc_ok ==> p == null && free_host_buffers == []
      ensures old(free_host_buffers) == [] && malloc_ok ==>
                && p != null && fresh(p) && fresh(p.body) && free_host_buffers == []
                && p.packet_type == DataReqHiddenUnit && p.size == header_size + ExtraSize()
                && p.body.Image() == junk.(tensor_parallel := tensor_para_size,
                                           shape_dims := Dims(max_token_num, hidden_unit_size))
      ensures unchanged(this`free_device_buffers, this`recv_host_buffers, this`send_device_buffers, this`recv_device_buffers)
      ensures pending_recv_count == old(pending_recv_count) && is_stopped == old(is_stopped)
    {
      if free_host_buffers == [] {
        var extra_size := ExtraSize();
        var packet_body_size := header_size + extra_size;
        if !malloc_ok {
          return null;
        }
        p := new Packet(junk_type, junk_size, junk);
        p.packet_type := DataReqHiddenUnit;
        p.size := packet_body_size;
        var hidden_unit := p.body;
        hidden_unit.shape_dims := Dims(max_token_num, hidden_unit_size);
        hidden_unit.tensor_parallel := tensor_para_size;
        return;
      }
      p := free_host_buffers[0];
      free_host_buffers := free_host_buffers[1..];
    }

    method FreeHostBuffer(p: Packet)
      requires Valid()
      modifies this
      ensures Valid() && free_host_buffers == old(free_host_buffers) + [p]
      ensures unchanged(this`free_device_buffers, this`recv_host_buffers, this`send_device_buffers, this`recv_device_buffers)
      ensures pending_recv_count == old(pending_recv_count) && is_stopped == old(is_stopped)
    {
      free_host_buffers := free_host_buffers + [p];
    }

    /** The header plus the payload the body's dims describe (the prefill part with ACL only). */
    function GetHostPacketSize(p: Packet): (size: nat)
      reads p, p.body
      ensures size == header_size + PayloadBytes(acl, type_size, p.body.Image())
    {
      var hidden_unit := p.body;
      var host_packet_size := header_size + Bytes(hidden_unit.shape_dims, type_size);
      if acl then host_packet_size + Bytes(hidden_unit.prefill_shape_dims, type_size) else host_packet_size
    }

    /**
     * A packet fresh from GetHostBuffer: without ACL its GetHostPacketSize is
     * the size its header records and the payload fills its data area; with
     * ACL the never-written prefill_shape_dims add their bytes on top.
     */
    lemma FreshPacketSize(p: Packet)
      requires p.size == header_size + ExtraSize() && |p.body.data| == ExtraSize()
      requires p.body.shape_dims == Dims(max_token_num, hidden_unit_size)
      ensures GetHostPacketSize(p) == p.size + (if acl then Bytes(p.body.prefill_shape_dims, type_size) else 0)
      ensures !acl ==> GetHostPacketSize(p) == p.size && PayloadBytes(acl, type_size, p.body.Image()) == |p.body.data|
    {
    }

    /**
     * A packet from GetHostBuffer has room for one [max_token_num,
     * hidden_unit_size] part: with ACL, a device buffer whose decode and
     * prefill tensor 0 are both that full shape and both enabled does not
     * fit, so ConvertDeviceBufferToHost would write past the packet.
     */
    lemma FullTwoPartImageOverflowsPacket(d: DeviceImage, h: HostImage)
      requires acl && ExtraSize() > 0 && |h.data| == ExtraSize()
      requires d.decode_enabled && d.prefill_enabled
      requires |d.tensors| >= 1 && |d.prefill_tensors| >= 1
      requires d.tensors[0].shape == [max_token_num, hidden_unit_size]
      requires d.prefill_tensors[0].shape == [max_token_num, hidden_unit_size]
      ensures !DeviceToHostSafe(acl, type_size, d, h)
    {
      assert HostDecodeDims(acl, d) == Dims(max_token_num, hidden_unit_size);
      assert HostPrefillDims(acl, d, h) == Dims(max_token_num, hidden_unit_size);
    }

    method ConvertHostBufferToDevice(dev: HiddenUnitDeviceBuffer, host: HiddenUnitHostBuffer)
      requires HostToDeviceSafe(acl, type_size, host.Image(), dev.Image())
      modifies dev
      ensures dev.Image() == HostToDevice(acl, type_size, old(host.Image()), old(dev.Image()))
    {
      ghost var d0 := dev.Image();
      dev.schedule_id := host.schedule_id;
      var buffer_bytes := Bytes(host.shape_dims, type_size);
      var buffer_shape := [host.shape_dims.rows, host.shape_dims.cols];
      var prefill_buffer_bytes := 0;
      var prefill_buffer_shape := [];
      if acl {
        prefill_buffer_bytes := Bytes(host.prefill_shape_dims, type_size);
        prefill_buffer_shape := [host.prefill_shape_dims.rows, host.prefill_shape_dims.cols];
        dev.decode_enabled := buffer_bytes > 0;
        dev.prefill_enabled := prefill_buffer_bytes > 0;
      }
      for i := 0 to host.tensor_parallel
        invariant dev.tensors == if buffer_bytes > 0
          then UpdateRanks(d0.tensors, i, buffer_shape, host.data[..buffer_bytes]) else d0.tensors
        invariant dev.prefill_tensors == if prefill_buffer_bytes > 0
          then UpdateRanks(d0.prefill_tensors, i, prefill_buffer_shape,
                           host.data[buffer_bytes..buffer_bytes + prefill_buffer_bytes])
          else d0.prefill_tensors
        invariant dev.schedule_id == host.schedule_id && dev.comm_type == d0.comm_type
        invariant dev.prefill_enabled == (if acl then prefill_buffer_bytes > 0 else d0.prefill_enabled)
        invariant dev.decode_enabled == (if acl then buffer_bytes > 0 else d0.decode_enabled)
      {
        if buffer_bytes > 0 {
          dev.tensors := dev.tensors[i := CopyInto(dev.tensors[i], buffer_shape, host.data[..buffer_bytes])];
        }
        if prefill_buffer_bytes > 0 {
          dev.prefill_tensors := dev.prefill_tensors[i := CopyInto(dev.prefill_tensors[i], prefill_buffer_shape,
                                                       host.data[buffer_bytes..buffer_bytes + prefill_buffer_bytes])];
        }
      }
    }

    /** The loop over the ranks breaks after its first iteration, so only rank 0 is copied. */
    method ConvertDeviceBufferToHost(host: HiddenUnitHostBuffer, dev: HiddenUnitDeviceBuffer)
      requires DeviceToHostSafe(acl, type_size, dev.Image(), host.Image())
      modifies host
      ensures host.Image() == DeviceToHost(acl, type_size, old(dev.Image()), old(host.Image()))
    {
      host.schedule_id := dev.schedule_id;
      host.tensor_parallel := |dev.tensors|;
      var buffer_shape := dev.tensors[0].shape;
      host.shape_dims := Dims(buffer_shape[0], buffer_shape[1]);
      if acl {
        if !dev.decode_enabled {
          host.shape_dims := Dims(0, 0);
        }
        var prefill_buffer_shape := dev.prefill_tensors[0].shape;
        host.prefill_shape_dims := Dims(prefill_buffer_shape[0], prefill_buffer_shape[1]);
        if !dev.prefill_enabled {
          host.prefill_shape_dims := Dims(0, 0);
        }
      }
      var buffer_bytes := Bytes(host.shape_dims, type_size);
      var prefill_buffer_bytes := if acl then Bytes(host.prefill_shape_dims, type_size) else 0;
      if buffer_bytes > 0 {
        host.data := Splice(host.data, 0, dev.tensors[0].data[..buffer_bytes]);
      }
      if prefill_buffer_bytes > 0 {
        host.data := Splice(host.data, buffer_bytes, dev.prefill_tensors[0].data[..prefill_buffer_bytes]);
      }
    }

    method PutToHostRecvQueue(p: Packet)
      requires Valid()
      modifies this
      ensures Valid() && recv_host_buffers == old(recv_host_buffers) + [p]
      ensures unchanged(this`free_device_buffers, this`free_host_buffers, this`send_device_buffers, this`recv_device_buffers)
      ensures pending_recv_count == old(pending_recv_count) && is_stopped == old(is_stopped)
    {
      recv_host_buffers := recv_host_buffers + [p];
    }

    /** Blocks until a packet is queued; here a packet must be present. */
    method GetFromHostRecvQueue() returns (p: Packet)
      requires Valid() && recv_host_buffers != []
      modifies this
      ensures Valid() && p == old(recv_host_buffers)[0] && recv_host_buffers == old(recv_host_buffers)[1..]
      ensures unchanged(this`free_device_buffers, this`free_host_buffers, this`send_device_buffers, this`recv_device_buffers)
      ensures pending_recv_count == old(pending_recv_count) && is_stopped == old(is_stopped)
    {
      p := recv_host_buffers[0];
      recv_host_buffers := recv_host_buffers[1..];
    }

    /** Queues the buffer under its own schedule id. */
    method PutToDeviceRecvQueue(b: HiddenUnitDeviceBuffer)
      requires Valid()
      modifies this
      ensures Valid()
      ensures recv_device_buffers == old(recv_device_buffers)[b.schedule_id :=
                (if b.schedule_id in old(recv_device_buffers) then old(recv_device_buffers)[b.schedule_id] else []) + [b]]
      ensures unchanged(this`free_device_buffers, this`free_host_buffers, this`recv_host_buffers, this`send_device_buffers)
      ensures pending_recv_count == old(pending_recv_count) && is_stopped == old(is_stopped)
    {
      var id := b.schedule_id;
      var queued := if id in recv_device_buffers then recv_device_buffers[id] else [];
      recv_device_buffers := recv_device_buffers[id := queued + [b]];
    }

    /**
     * Counts one more pending receive, then takes the oldest buffer queued
     * under the schedule id (blocking until one is there; here one must be).
     */
    method GetFromDeviceRecvQueue(schedule_id: nat) returns (b: HiddenUnitDeviceBuffer)
      requires Valid() && schedule_id in recv_device_buffers
      modifies this
      ensures Valid()
      ensures pending_recv_count == old(pending_recv_count) + 1
      ensures b == old(recv_device_buffers)[schedule_id][0]
      ensures var rest := old(recv_device_buffers)[schedule_id][1..];
              recv_device_buffers == if rest == [] then old(recv_device_buffers) - {schedule_id}
                                     else old(recv_device_buffers)[schedule_id := rest]
      ensures unchanged(this`free_device_buffers, this`free_host_buffers, this`recv_host_buffers, this`send_device_buffers)
      ensures is_stopped == old(is_stopped)
    {
      pending_recv_count := pending_recv_count + 1;
      var queued := recv_device_buffers[schedule_id];
      b := queued[0];
      if |queued| == 1 {
        recv_device_buffers := recv_device_buffers - {schedule_id};
      } else {
        recv_device_buffers := recv_device_buffers[schedule_id := queued[1..]];
      }
    }

    /** A buffer put under its schedule id comes back from a get with that id. */
    method PutThenGetDeviceRecv(b: HiddenUnitDeviceBuffer) returns (got: HiddenUnitDeviceBuffer)
      requires Valid() && b.schedule_id !in recv_device_buffers
      modifies this
      ensures Valid() && got == b && recv_device_buffers == old(recv_device_buffers)
      ensures pending_recv_count == old(pending_recv_count) + 1
    {
      PutToDeviceRecvQueue(b);
      got := GetFromDeviceRecvQueue(b.schedule_id);
    }

    /**
     * Consumes one pending receive. With none pending the source waits to be
     * notified by GetFromDeviceRecvQueue; here one must be pending.
     */
    method WaitUtilReadyToRecv()
      requires Valid() && pending_recv_count > 0
      modifies this
      ensures Valid() && pending_recv_count == old(pending_recv_count) - 1
      ensures unchanged(this`free_device_buffers, this`free_host_buffers, this`recv_host_buffers, this`send_device_buffers)
      ensures recv_device_buffers == old(recv_device_buffers) && is_stopped == old(is_stopped)
    {
      pending_recv_count := pending_recv_count - 1;
    }

    /** Queues the buffer for sending (the wait for NotifySendFinished is not modelled). */
    method PutToSendQueue(b: HiddenUnitDeviceBuffer)
      requires Valid()
      modifies this
      ensures Valid() && send_device_buffers == old(send_device_buffers) + [b]
      ensures unchanged(this`free_device_buffers, this`free_host_buffers, this`recv_host_buffers, this`recv_device_buffers)
      ensures pending_recv_count == old(pending_recv_count) && is_stopped == old(is_stopped)
    {
      send_device_buffers := send_device_buffers + [b];
    }

    method GetFromSendQueue() returns (b: HiddenUnitDeviceBuffer)
      requires Valid() && send_device_buffers != []
      modifies this
      ensures Valid() && b == old(send_device_buffers)[0] && send_device_buffers == old(send_device_buffers)[1..]
      ensures unchanged(this`free_device_buffers, this`free_host_buffers, this`recv_host_buffers, this`recv_device_buffers)
      ensures pending_recv_count == old(pending_recv_count) && is_stopped == old(is_stopped)
    {
      b := send_device_buffers[0];
      send_device_buffers := send_device_buffers[1..];
    }

    method Stop()
      requires Valid()
      modifies this
      ensures Valid() && is_stopped
      ensures unchanged(this`free_device_buffers, this`free_host_buffers, this`recv_host_buffers,
                        this`send_device_buffers, this`recv_device_buffers, this`pending_recv_count)
    {
      is_stopped := true;
    }

    method Stopped() returns (stopped: bool)
      ensures stopped == is_stopped
    {
      stopped := is_stopped;
    }
  }

  /** Each get from the receive queue is matched by one wait: the counter is back where it started. */
  method ReceiveCycle(pool: HiddenUnitBufferPool, b: HiddenUnitDeviceBuffer) returns (got: HiddenUnitDeviceBuffer)
    requires pool.Valid() && b.schedule_id !in pool.recv_device_buffers
    modifies pool
    ensures pool.Valid() && got == b && pool.pending_recv_count == old(pool.pending_recv_count)
  {
    pool.PutToDeviceRecvQueue(b);
    got := pool.GetFromDeviceRecvQueue(b.schedule_id);
    pool.WaitUtilReadyToRecv();
  }
}
