/**
 * Network addresses and transfer tensors of the transfer layer
 * (src/ksana_llm/transfer/transfer_types.h).
 */
module TransferTypes {
  import opened Wrappers
  import opened Numerals

  type Int32 = x: int | INT32_MIN <= x <= INT32_MAX
  type Int64 = x: int | -0x8000_0000_0000_0000 <= x < 0x8000_0000_0000_0000

  const DEFAULT_IP: string := "127.0.0.1"
  const DEFAULT_PORT: Int32 := 50051

  /** A server address; a default-constructed one is 127.0.0.1:50051. */
  datatype NetworkAddr = NetworkAddr(ip: string, port: Int32)

  const DEFAULT_ADDR: NetworkAddr := NetworkAddr(DEFAULT_IP, DEFAULT_PORT)

  /** `ip:port`, the port in decimal. */
  function ToString(a: NetworkAddr): (s: string)
    ensures |s| > |a.ip| && s[..|a.ip|] == a.ip && s[|a.ip|] == ':'
    ensures Stoi(s[|a.ip| + 1..]) == Some(a.port as int)
  {
    var s := a.ip + ":" + IntToString(a.port);
    assert s[|a.ip| + 1..] == IntToString(a.port);
    StoiOfIntToString(a.port);
    s
  }

  /** The position of the first occurrence of c in s (std::string::find of one character). */
  function FindChar(s: string, c: char): (r: Option<nat>)
    ensures r.None? <==> c !in s
    ensures r.Some? ==> r.value < |s| && s[r.value] == c && c !in s[..r.value]
  {
    if s == [] then None
    else if s[0] == c then Some(0)
    else
      match FindChar(s[1..], c)
      case None => None
      case Some(i) =>
        assert s[..i + 1] == [s[0]] + s[1..][..i];
        Some(i + 1)
  }

  /** What std::stoi's exceptions report. */
  const STOI_ERROR: string := "stoi"

  /** There is no ':', or std::stoi accepts what follows the first one. */
  predicate PortParses(s: string)
  {
    match FindChar(s, ':')
    case None => true
    case Some(i) => Stoi(s[i + 1..]).Some?
  }

  /**
   * Parses `ip:port`, splitting at the first ':'. Without a ':' the
   * default address is returned; a port std::stoi rejects raises.
   */
  function FromString(s: string): (r: Result<NetworkAddr, string>)
    ensures r.Success? <==> PortParses(s)
    ensures r.Failure? ==> r.error == STOI_ERROR
    ensures ':' !in s ==> r == Success(DEFAULT_ADDR)
    ensures ':' in s && r.Success? ==>
              var a := r.value;
              && |a.ip| < |s| && ':' !in a.ip && s[..|a.ip|] == a.ip && s[|a.ip|] == ':'
              && Stoi(s[|a.ip| + 1..]) == Some(a.port as int)
  {
    match FindChar(s, ':')
    case None => Success(DEFAULT_ADDR)
    case Some(pos) =>
      var port := Stoi(s[pos + 1..]);
      if port.None? then Failure(STOI_ERROR)
      else
        assert |s[..pos]| == pos;
        Success(NetworkAddr(s[..pos], port.value))
  }

  /** Parsing what ToString printed gives back the address, unless the ip itself holds a ':'. */
  lemma FromStringOfToString(a: NetworkAddr)
    requires ':' !in a.ip
    ensures FromString(ToString(a)) == Success(a)
  {
    var s := ToString(a);
    assert s[..|a.ip|] == a.ip;
    var i := FindChar(s, ':');
    assert s[|a.ip|] == ':';
  }

  /** A tensor handed to the transfer engine; only the fields the element count reads are kept. */
  datatype TransferTensor = TransferTensor(block_idx: Int32, layer_idx: Int32, device_idx: Int32, shape: seq<Int64>)

  /** static_cast<size_t> of a 64-bit signed dimension: two's complement reinterpretation. */
  function AsSizeT(d: Int64): (r: nat)
    ensures r < SIZE_T_MOD && (d >= 0 ==> r == d)
  {
    d % SIZE_T_MOD
  }

  /** The mathematical product of the dimensions, each cast to size_t. */
  function Product(dims: seq<Int64>): nat
  {
    if dims == [] then 1 else Product(dims[..|dims| - 1]) * AsSizeT(dims[|dims| - 1])
  }

  /** Reducing the accumulator modulo 2^64 before a multiplication does not change the residue. */
  lemma MulMod(a: nat, b: nat)
    ensures ((a % SIZE_T_MOD) * b) % SIZE_T_MOD == (a * b) % SIZE_T_MOD
  {
    var q, r := a / SIZE_T_MOD, a % SIZE_T_MOD;
    var t := q * b;
    assert a * b == t * SIZE_T_MOD + r * b;
  }

  /**
   * The number of elements: 0 for an empty shape, otherwise the product of the
   * dimensions in size_t arithmetic (so modulo 2^64).
   */
  method GetElementNumber(t: TransferTensor) returns (num_elements: nat)
    ensures t.shape == [] ==> num_elements == 0
    ensures t.shape != [] ==> num_elements == Product(t.shape) % SIZE_T_MOD
  {
    if t.shape == [] {
      return 0;
    }
    num_elements := 1;
    var i := 0;
    while i < |t.shape|
      invariant 0 <= i <= |t.shape|
      invariant num_elements == Product(t.shape[..i]) % SIZE_T_MOD
    {
      assert t.shape[..i + 1][..i] == t.shape[..i];
      MulMod(Product(t.shape[..i]), AsSizeT(t.shape[i]));
      num_elements := (num_elements * AsSizeT(t.shape[i])) % SIZE_T_MOD;
      i := i + 1;
    }
    assert t.shape[..i] == t.shape;
  }

  /** One zero dimension makes the whole product zero. */
  lemma {:induction false} ProductWithZero(dims: seq<Int64>, k: nat)
    requires k < |dims| && dims[k] == 0
    ensures Product(dims) == 0
  {
    var n := |dims|;
    if k < n - 1 {
      ProductWithZero(dims[..n - 1], k);
    }
  }

  /** With non-negative dimensions every size_t cast is the identity, so Product is the product of the dimensions as integers. */
  lemma {:induction false} ProductOfNonNegative(dims: seq<Int64>)
    requires forall i :: 0 <= i < |dims| ==> dims[i] >= 0
    ensures Product(dims) == ProductOfInts(dims)
  {
    if dims != [] {
      ProductOfNonNegative(dims[..|dims| - 1]);
    }
  }

  function ProductOfInts(dims: seq<int>): int
  {
    if dims == [] then 1 else ProductOfInts(dims[..|dims| - 1]) * dims[|dims| - 1]
  }
}
