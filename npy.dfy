/**
 * Reading the preamble and the header of a NumPy .npy file
 * (3rdparty/LLM_kernels/csrc/utils/common.cc), following the format's
 * versions 1.0 and 2.0: the magic string "\x93NUMPY", a major and a minor
 * version byte, a little-endian header length of 2 (version 1) or 4
 * (version 2) bytes, then the header, a Python dict literal.
 *
 * The file is a byte sequence with a cursor; fread reads what remains, up
 * to the count asked for. std::string::find, substr and the size_t
 * arithmetic around them are modelled with their npos and wrap-around.
 */
module Npy {
  import opened Wrappers
  import opened Numerals

  newtype byte = x: int | 0 <= x < 256

  const UINT32_MOD: nat := 0x1_0000_0000
  /** std::string::npos. */
  const NPOS: nat := SIZE_T_MOD - 1

  /** "\x93NUMPY" */
  const MAGIC: seq<byte> := [0x93, 0x4E, 0x55, 0x4D, 0x50, 0x59]

  const MAGIC_ERROR: string := "Could read magic token in NPY file"
  const FORTRAN_ERROR: string := "Unsupported value for fortran_order while reading npy file"
  /** What std::stoul's exceptions report. */
  const STOUL_ERROR: string := "stoul"

  /** The first n elements of s, or all of s when it is shorter. */
  function Take<T>(s: seq<T>, n: nat): (r: seq<T>)
    ensures |r| == (if n <= |s| then n else |s|) && r == s[..|r|]
  {
    if n <= |s| then s[..n] else s
  }

  // ---------------------------------------------------------------------
  // The file
  // ---------------------------------------------------------------------

  class NpyFile {
    const contents: seq<byte>
    var pos: nat

    ghost predicate Valid()
      reads this
    {
      pos <= |contents|
    }

    constructor(contents: seq<byte>)
      ensures Valid() && this.contents == contents && pos == 0
    {
      this.contents, pos := contents, 0;
    }

    function Remaining(): seq<byte>
      reads this
      requires Valid()
    {
      contents[pos..]
    }

    /** fread of n one-byte elements. */
    method Read(n: nat) returns (bytes: seq<byte>)
      requires Valid()
      modifies this
      ensures Valid()
      ensures bytes == Take(old(Remaining()), n) && Remaining() == old(Remaining())[|bytes|..]
    {
      var k := if n <= |contents| - pos then n else |contents| - pos;
      bytes := contents[pos..pos + k];
      pos := pos + k;
    }
  }

  // ---------------------------------------------------------------------
  // ParseNpyIntro
  // ---------------------------------------------------------------------

  /** An unsigned integer from its little-endian bytes. */
  function LittleEndian(bs: seq<byte>): nat
  {
    if bs == [] then 0 else bs[0] as nat + 256 * LittleEndian(bs[1..])
  }

  /** The k little-endian bytes of n (modulo 256^k). */
  function ToLittleEndian(n: nat, k: nat): (bs: seq<byte>)
    ensures |bs| == k
  {
    if k == 0 then [] else [(n % 256) as byte] + ToLittleEndian(n / 256, k - 1)
  }

  function Pow256(k: nat): (p: nat)
    ensures p >= 1
  {
    if k == 0 then 1 else 256 * Pow256(k - 1)
  }

  lemma ByteSplit(n: nat, p: nat)
    requires n < 256 * p
    ensures n == n % 256 + 256 * (n / 256) && n / 256 < p
  {
  }

  lemma {:induction false} LittleEndianRoundTrip(n: nat, k: nat)
    requires n < Pow256(k)
    ensures LittleEndian(ToLittleEndian(n, k)) == n
  {
    if k > 0 {
      var bs := ToLittleEndian(n, k);
      ByteSplit(n, Pow256(k - 1));
      assert bs[0] as nat == n % 256;
      assert bs[1..] == ToLittleEndian(n / 256, k - 1);
      LittleEndianRoundTrip(n / 256, k - 1);
    }
  }

  /** The header length and the offset of the data. */
  datatype NpyIntro = NpyIntro(header_len: nat, start_data: nat)

  /**
   * ParseNpyIntro on the bytes that remain in the file: its outcome (a
   * failure stands for the exception thrown) and how many bytes it reads.
   */
  function Intro(s: seq<byte>): (Result<NpyIntro, string>, nat)
  {
    if |s| < 6 || s[..6] != MAGIC then (Failure(MAGIC_ERROR), |Take(s, 6)|)
    else
      var (r, n) := AfterMagic(s[6..]);
      (r, 6 + n)
  }

  /**
   * The rest of ParseNpyIntro, after the magic string: the version bytes and
   * the header length. A byte missing at the end of the file reads as 0.
   */
  function AfterMagic(t: seq<byte>): (Result<NpyIntro, string>, nat)
  {
    var npy_major: nat := if |t| > 0 then t[0] as nat else 0;
    var c := |Take(t, 2)|;
    var (r, n) := HeaderLength(npy_major, t[c..]);
    (r, c + n)
  }

  /** The header length field, 2 bytes wide in version 1 and 4 in version 2. */
  function HeaderLength(npy_major: nat, u: seq<byte>): (Result<NpyIntro, string>, nat)
  {
    if npy_major == 1 || npy_major == 2 then
      var len_bytes := Take(u, 2 * npy_major);
      var header_len := LittleEndian(len_bytes);
      (Success(NpyIntro(header_len, (8 + 2 * npy_major + header_len) % UINT32_MOD)), |len_bytes|)
    else (Failure("Unsupported npy version: " + NatToString(npy_major)), 0)
  }

  method ParseNpyIntro(f: NpyFile) returns (r: Result<NpyIntro, string>)
    requires f.Valid()
    modifies f
    ensures f.Valid()
    ensures r == Intro(old(f.Remaining())).0
    ensures f.Remaining() == old(f.Remaining())[Intro(old(f.Remaining())).1..]
  {
    var magic_test := f.Read(6);
    if |magic_test| != 6 || magic_test != MAGIC {
      return Failure(MAGIC_ERROR);
    }
    var major_bytes := f.Read(1);
    var npy_major: nat := if |major_bytes| == 1 then major_bytes[0] as nat else 0;
    var minor_bytes := f.Read(1);
    r := ReadHeaderLength(f, npy_major);
  }

  method ReadHeaderLength(f: NpyFile, npy_major: nat) returns (r: Result<NpyIntro, string>)
    requires f.Valid()
    modifies f
    ensures f.Valid()
    ensures r == HeaderLength(npy_major, old(f.Remaining())).0
    ensures f.Remaining() == old(f.Remaining())[HeaderLength(npy_major, old(f.Remaining())).1..]
  {
    if npy_major == 1 {
      var header_len_u16 := f.Read(2);
      var header_len := LittleEndian(header_len_u16);
      r := Success(NpyIntro(header_len, (8 + 2 * npy_major + header_len) % UINT32_MOD));
    } else if npy_major == 2 {
      var header_len_u32 := f.Read(4);
      var header_len := LittleEndian(header_len_u32);
      r := Success(NpyIntro(header_len, (8 + 2 * npy_major + header_len) % UINT32_MOD));
    } else {
      r := Failure("Unsupported npy version: " + NatToString(npy_major));
    }
  }

  /** The preamble numpy writes for a version (1 or 2) and a header length. */
  function Preamble(major: nat, minor: byte, header_len: nat): seq<byte>
    requires major == 1 || major == 2
  {
    MAGIC + [major as byte, minor] + ToLittleEndian(header_len, if major == 1 then 2 else 4)
  }

  /**
   * A preamble reads back as its header length, with the data starting after
   * the 10 (version 1) or 12 (version 2) preamble bytes and the header.
   */
  lemma IntroOfPreamble(major: nat, minor: byte, header_len: nat, rest: seq<byte>)
    requires major == 1 || major == 2
    requires header_len < (if major == 1 then 0x1_0000 else UINT32_MOD)
    ensures var p := Preamble(major, minor, header_len);
            Intro(p + rest) == (Success(NpyIntro(header_len, (|p| + header_len) % UINT32_MOD)), |p|)
  {
    var k := if major == 1 then 2 else 4;
    assert Pow256(2) == 0x1_0000 && Pow256(4) == UINT32_MOD;
    LittleEndianRoundTrip(header_len, k);
    var p := Preamble(major, minor, header_len);
    var s := p + rest;
    assert s[..6] == MAGIC;
    var t := s[6..];
    assert t[0] as nat == major && |t| >= 2;
    assert t[2..][..k] == ToLittleEndian(header_len, k);
    assert HeaderLength(major, t[2..]) == (Success(NpyIntro(header_len, (8 + 2 * major + header_len) % UINT32_MOD)), k);
  }

  /** Anything not starting with the six magic bytes is rejected before the version is looked at. */
  lemma IntroRejectsBadMagic(s: seq<byte>)
    ensures Intro(s).0 == Failure(MAGIC_ERROR) <==> |s| < 6 || s[..6] != MAGIC
  {
    if |s| >= 6 && s[..6] == MAGIC {
      var npy_major: nat := if |s| > 6 then s[6] as nat else 0;
      if npy_major != 1 && npy_major != 2 {
        var msg := "Unsupported npy version: " + NatToString(npy_major);
        assert msg[0] == 'U' != MAGIC_ERROR[0];
      }
    }
  }

  /** Only versions 1 and 2 are read; any other major version is reported by number. */
  lemma IntroRejectsOtherVersions(s: seq<byte>)
    requires |s| >= 7 && s[..6] == MAGIC && s[6] != 1 && s[6] != 2
    ensures Intro(s).0 == Failure("Unsupported npy version: " + NatToString(s[6] as nat))
  {
  }

  // ---------------------------------------------------------------------
  // String operations of ParseNpyHeader
  // ---------------------------------------------------------------------

  /** std::string::find(needle, pos) for a non-empty needle. */
  function Find(s: string, needle: string, pos: nat): (i: nat)
    requires |needle| > 0 && |s| < NPOS
    ensures i == NPOS || (pos <= i < |s| && OccursAt(needle, s, i))
    decreases |s| - pos
  {
    if pos + |needle| > |s| then NPOS
    else if s[pos..pos + |needle|] == needle then pos
    else Find(s, needle, pos + 1)
  }

  /** Find returns the first occurrence at or after pos, and npos only when there is none. */
  lemma {:induction false} FindIsFirst(s: string, needle: string, pos: nat, j: nat)
    requires |needle| > 0 && |s| < NPOS
    requires pos <= j && (j < Find(s, needle, pos) || Find(s, needle, pos) == NPOS)
    ensures !OccursAt(needle, s, j)
    decreases |s| - pos
  {
    if pos + |needle| <= |s| && s[pos..pos + |needle|] != needle && j > pos {
      FindIsFirst(s, needle, pos + 1, j);
    }
  }

  /** std::string::substr(pos, count), for pos no greater than the length. */
  function Substr(s: string, pos: nat, count: nat): (r: string)
    requires pos <= |s|
    ensures |r| == (if count <= |s| - pos then count else |s| - pos) && r == s[pos..pos + |r|]
  {
    if count <= |s| - pos then s[pos..pos + count] else s[pos..]
  }

  /** a + b on size_t. */
  function AddSizeT(a: nat, b: nat): (r: nat)
    ensures r < SIZE_T_MOD
  {
    (a + b) % SIZE_T_MOD
  }

  /**
   * The text between the delimiters after a key, as ParseNpyHeader cuts it:
   *   start = find(key) + |key|; start = find(open, start);
   *   end = find(close, start + 1); substr(start + 1, end - start - 1)
   * all in size_t arithmetic, so a missing key or delimiter wraps round.
   */
  function Between(header: string, key: string, open: string, close: string): string
    requires |key| > 0 && |open| > 0 && |close| > 0 && |header| < NPOS
  {
    Cut(header, Find(header, open, AddSizeT(Find(header, key, 0), |key|)), close)
  }

  /** The text after position start up to the next close delimiter. */
  function Cut(header: string, start: nat, close: string): string
    requires |close| > 0 && |header| < NPOS && (start < |header| || start == NPOS)
  {
    var end := Find(header, close, AddSizeT(start, 1));
    Substr(header, AddSizeT(start, 1), (end - start - 1) % SIZE_T_MOD)
  }

  lemma CutFound(header: string, o: nat, close: string, c: nat)
    requires |close| > 0 && |header| < NPOS && o < |header|
    requires c == Find(header, close, o + 1) && c != NPOS
    ensures Cut(header, o, close) == header[o + 1..c]
  {
    assert AddSizeT(o, 1) == o + 1;
    assert (c - o - 1) % SIZE_T_MOD == c - o - 1;
  }

  /** When the key, the opening and the closing delimiter are found in order, Between is the text inside. */
  lemma BetweenFound(header: string, key: string, open: string, close: string, k: nat, o: nat, c: nat)
    requires |key| > 0 && |open| > 0 && |close| > 0 && |header| < NPOS
    requires k == Find(header, key, 0) && k != NPOS
    requires o == Find(header, open, k + |key|) && o != NPOS
    requires c == Find(header, close, o + 1) && c != NPOS
    ensures Between(header, key, open, close) == header[o + 1..c]
  {
    assert Between(header, key, open, close) == Cut(header, o, close) by {
      assert AddSizeT(k, |key|) == k + |key|;
    }
    CutFound(header, o, close, c);
  }

  predicate Blank(token: string)
  {
    forall i :: 0 <= i < |token| ==> token[i] == ' '
  }

  function CharIndex(s: string, ch: char): (i: nat)
    ensures i <= |s| && (i < |s| ==> s[i] == ch) && forall j :: 0 <= j < i ==> s[j] != ch
  {
    if s == [] || s[0] == ch then 0 else 1 + CharIndex(s[1..], ch)
  }

  /**
   * std::getline(stream, token, ','): the text up to the next comma, which is
   * consumed; nothing when the stream is exhausted, so a trailing comma does
   * not yield an empty token.
   */
  function Getline(s: string): (r: Option<(string, string)>)
    ensures r.None? <==> s == []
    ensures r.Some? ==> |r.value.1| < |s|
  {
    if s == [] then None
    else
      var i := CharIndex(s, ',');
      if i == |s| then
        assert s[..i] == s;
        Some((s, []))
      else
        assert s == s[..i] + [','] + s[i + 1..];
        Some((s[..i], s[i + 1..]))
  }

  /** getline splits the stream at its first comma, or takes all of it when there is none. */
  lemma GetlineSplits(s: string)
    requires s != []
    ensures var (token, rest) := Getline(s).value;
            && ',' !in token
            && s == token + (if |token| < |s| then [','] + rest else [])
  {
  }

  /** The outcome of ParseNpyHeader: the value returned or the exception thrown, and the shape. */
  datatype HeaderOutcome = HeaderOutcome(ret: Result<int, string>, shape: seq<nat>)

  /**
   * The getline loop over the tuple text that remains: each token is read
   * with std::stoul and appended; a blank token or the end stops the loop.
   */
  function ShapeTokens(rest: string, shape: seq<nat>): HeaderOutcome
    decreases |rest|
  {
    match Getline(rest)
    case None => HeaderOutcome(Success(0), shape)
    case Some((token, more)) =>
      if Blank(token) then HeaderOutcome(Success(0), shape)
      else match Stoul(token)
        case None => HeaderOutcome(Failure(STOUL_ERROR), shape)
        case Some(v) => ShapeTokens(more, shape + [v])
  }

  function BytesToString(bs: seq<byte>): (s: string)
    ensures |s| == |bs|
  {
    seq(|bs|, i requires 0 <= i < |bs| => (bs[i] as int) as char)
  }

  /**
   * ParseNpyHeader given the bytes fread returned: -1 for a short read, an
   * exception unless the fortran_order value mentions False, otherwise the
   * shape read from the 'shape' tuple.
   */
  function Header(read: seq<byte>, header_len: nat, shape: seq<nat>): HeaderOutcome
    requires header_len < UINT32_MOD
  {
    if |read| != header_len then HeaderOutcome(Success(-1), shape)
    else
      var header := BytesToString(read);
      if Find(Between(header, "'fortran_order'", ":", ","), "False", 0) == NPOS then
        HeaderOutcome(Failure(FORTRAN_ERROR), shape)
      else ShapeTokens(Between(header, "'shape'", "(", ")"), [])
  }

  method ParseNpyHeader(f: NpyFile, header_len: nat, shape: seq<nat>) returns (ret: Result<int, string>, shape_out: seq<nat>)
    requires f.Valid() && header_len < UINT32_MOD
    modifies f
    ensures f.Valid()
    ensures HeaderOutcome(ret, shape_out) == Header(Take(old(f.Remaining()), header_len), header_len, shape)
    ensures f.Remaining() == old(f.Remaining())[|Take(old(f.Remaining()), header_len)|..]
  {
    var header_c := f.Read(header_len);
    if |header_c| != header_len {
      return Success(-1), shape;
    }
    var header := BytesToString(header_c);
    // The 'descr' lookups of the source do not affect the outcome.
    var fortran := Between(header, "'fortran_order'", ":", ",");
    if Find(fortran, "False", 0) == NPOS {
      return Failure(FORTRAN_ERROR), shape;
    }
    var shape_stream := Between(header, "'shape'", "(", ")");
    shape_out := [];
    while true
      invariant ShapeTokens(shape_stream, shape_out) == ShapeTokens(Between(header, "'shape'", "(", ")"), [])
      decreases |shape_stream|
    {
      var next := Getline(shape_stream);
      if next.None? {
        break;
      }
      var token := next.value.0;
      if Blank(token) {
        break;
      }
      var value := Stoul(token);
      if value.None? {
        return Failure(STOUL_ERROR), shape_out;
      }
      shape_out := shape_out + [value.value];
      shape_stream := next.value.1;
    }
    ret := Success(0);
  }

  /** fread returning fewer than header_len bytes gives -1 and leaves the shape alone. */
  lemma ShortReadLeavesShape(read: seq<byte>, header_len: nat, shape: seq<nat>)
    requires header_len < UINT32_MOD && |read| < header_len
    ensures Header(read, header_len, shape) == HeaderOutcome(Success(-1), shape)
  {
  }

  /** A fortran_order value without False is refused before the shape is touched. */
  lemma FortranOrderRefused(read: seq<byte>, shape: seq<nat>)
    requires |read| < UINT32_MOD
    requires Find(Between(BytesToString(read), "'fortran_order'", ":", ","), "False", 0) == NPOS
    ensures Header(read, |read|, shape) == HeaderOutcome(Failure(FORTRAN_ERROR), shape)
  {
  }

  /**
   * A header of the announced length, with fortran_order False and a shape
   * tuple written by numpy, yields 0 and exactly the dimensions written.
   */
  lemma HeaderReadsShape(read: seq<byte>, shape: seq<nat>, dims: seq<nat>)
    requires |read| < UINT32_MOD && AllSizeT(dims)
    requires Find(Between(BytesToString(read), "'fortran_order'", ":", ","), "False", 0) != NPOS
    requires Between(BytesToString(read), "'shape'", "(", ")") == ShapeTuple(dims)
    ensures Header(read, |read|, shape) == HeaderOutcome(Success(0), dims)
  {
    ShapeTupleRoundTrip(dims);
  }

  // ---------------------------------------------------------------------
  // The shape tuple
  // ---------------------------------------------------------------------

  /** ", d" for every dimension. */
  function JoinRest(dims: seq<nat>): string
  {
    if dims == [] then "" else ", " + NatToString(dims[0]) + JoinRest(dims[1..])
  }

  /** The text numpy writes between the parentheses of a shape tuple: "", "3,", "3, 4", ... */
  function ShapeTuple(dims: seq<nat>): string
  {
    if dims == [] then ""
    else if |dims| == 1 then NatToString(dims[0]) + ","
    else NatToString(dims[0]) + JoinRest(dims[1..])
  }

  predicate AllSizeT(dims: seq<nat>)
  {
    forall i :: 0 <= i < |dims| ==> dims[i] < SIZE_T_MOD
  }

  lemma StoulOfPaddedNatToString(pad: string, n: nat)
    requires pad == "" || pad == " "
    requires n < SIZE_T_MOD
    ensures Stoul(pad + NatToString(n)) == Some(n)
  {
    var d := NatToString(n);
    if pad == " " {
      ScanSkipsSpace(' ', d);
      assert pad + d == [' '] + d;
    } else {
      assert pad + d == d;
    }
    StoulOfNatToString(n);
  }

  lemma NoCommaInNatToString(n: nat)
    ensures ',' !in NatToString(n)
  {
  }

  /** A token followed by a comma is read and the loop goes on after the comma. */
  lemma ShapeTokensStep(token: string, more: string, shape: seq<nat>, v: nat)
    requires ',' !in token && !Blank(token) && Stoul(token) == Some(v)
    ensures ShapeTokens(token + [','] + more, shape) == ShapeTokens(more, shape + [v])
  {
    GetlineAt(token, more);
  }

  /** A last token without a comma is read and ends the loop. */
  lemma ShapeTokensLast(token: string, shape: seq<nat>, v: nat)
    requires ',' !in token && !Blank(token) && Stoul(token) == Some(v)
    ensures ShapeTokens(token, shape) == HeaderOutcome(Success(0), shape + [v])
  {
    assert Getline(token) == Some((token, []));
  }

  /** The tokens " d1", " d2", ... of JoinRest read back as the dimensions. */
  lemma {:induction false} ShapeTokensOfJoin(pad: string, d: nat, dims: seq<nat>, shape: seq<nat>)
    requires pad == "" || pad == " "
    requires d < SIZE_T_MOD && AllSizeT(dims)
    ensures ShapeTokens(pad + NatToString(d) + JoinRest(dims), shape) == HeaderOutcome(Success(0), shape + [d] + dims)
    decreases |dims|
  {
    var token := pad + NatToString(d);
    assert ',' !in token by {
      NoCommaInNatToString(d);
    }
    assert Stoul(token) == Some(d) by {
      StoulOfPaddedNatToString(pad, d);
    }
    assert !Blank(token) by {
      assert token[|pad|] == NatToString(d)[0];
    }
    if dims == [] {
      assert token + JoinRest(dims) == token;
      ShapeTokensLast(token, shape, d);
      assert shape + [d] + dims == shape + [d];
    } else {
      var more := " " + NatToString(dims[0]) + JoinRest(dims[1..]);
      assert token + JoinRest(dims) == token + [','] + more;
      ShapeTokensStep(token, more, shape, d);
      ShapeTokensOfJoin(" ", dims[0], dims[1..], shape + [d]);
      assert shape + [d] + [dims[0]] + dims[1..] == shape + [d] + dims;
    }
  }

  lemma GetlineAt(token: string, more: string)
    requires ',' !in token
    ensures Getline(token + [','] + more) == Some((token, more))
  {
    var s := token + [','] + more;
    var i := CharIndex(s, ',');
    assert s[|token|] == ',';
    assert forall j :: 0 <= j < |token| ==> s[j] == token[j];
    assert i == |token|;
    assert s[..i] == token && s[i + 1..] == more;
  }

  /** A one-dimensional shape is written with a trailing comma, "d,". */
  lemma ShapeTupleSingle(d: nat)
    requires d < SIZE_T_MOD
    ensures ShapeTokens(NatToString(d) + ",", []) == HeaderOutcome(Success(0), [d])
  {
    var token := NatToString(d);
    NoCommaInNatToString(d);
    GetlineAt(token, "");
    assert token + "," == token + [','] + "";
    StoulOfPaddedNatToString("", d);
    assert "" + token == token;
    assert !Blank(token) by {
      assert IsDigit(token[0]);
    }
  }

  /** The shape tuple numpy writes reads back as the dimensions it was written from. */
  lemma ShapeTupleRoundTrip(dims: seq<nat>)
    requires AllSizeT(dims)
    ensures ShapeTokens(ShapeTuple(dims), []) == HeaderOutcome(Success(0), dims)
  {
    if |dims| == 1 {
      ShapeTupleSingle(dims[0]);
      assert [dims[0]] == dims;
    } else if |dims| > 1 {
      assert ShapeTuple(dims) == "" + NatToString(dims[0]) + JoinRest(dims[1..]) by {
        assert "" + NatToString(dims[0]) == NatToString(dims[0]);
      }
      ShapeTokensOfJoin("", dims[0], dims[1..], []);
      assert [] + [dims[0]] + dims[1..] == dims;
    }
  }

  /** The tuples "()" and "(3,)" give [] and [3]. */
  lemma ShapeExamples()
    ensures ShapeTokens("", []) == HeaderOutcome(Success(0), [])
    ensures ShapeTokens("3,", []) == HeaderOutcome(Success(0), [3])
  {
    assert NatToString(3) == "3";
    ShapeTupleSingle(3);
    assert NatToString(3) + "," == "3,";
  }

  /** A blank last token, as in "(3, )", ends the shape without adding a dimension. */
  lemma ShapeTrailingBlank(token: string, shape: seq<nat>)
    requires ',' !in token && Blank(token)
    ensures ShapeTokens(token, shape) == HeaderOutcome(Success(0), shape)
  {
    if token != [] {
      assert Getline(token) == Some((token, []));
    }
  }
}
