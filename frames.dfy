/**
 * The call frames of the IEEE 1275 client interface, as the binding builds them.
 *
 * A frame is a header (service name, `nargs`, `nret`) followed by the service's
 * positional inputs and then its positional outputs. The firmware's single entry
 * function receives the frame, fills the output slots in place and returns a word.
 * Frames are modelled as records: one `Body` variant per frame struct of the binding,
 * with pointers to strings carried as the strings themselves (NUL included), and the
 * caller buffer of `getprop` carried as its byte contents.
 */
module Frames {

  const WORD_MAX: int := 0xFFFF_FFFF_FFFF_FFFF

  /** A `usize` of the 64-bit target; handles and addresses are words too. */
  type Word = x: int | 0 <= x <= WORD_MAX

  type Byte = x: int | 0 <= x < 256

  /** `OF_SIZE_ERR = usize::MAX`: the sentinel for a failed call. */
  const OF_SIZE_ERR: Word := WORD_MAX

  /** The null pointer, used for absent handles and addresses. */
  const NULL: Word := 0

  /** `size_of::<usize>()`, also the width of one handle. */
  const WORD_BYTES: nat := 8

  const ISIZE_MAX: Word := 0x7FFF_FFFF_FFFF_FFFF

  /** A Rust `&str`: at most `isize::MAX` bytes; one char stands for one byte. */
  type Str = s: string | |s| <= ISIZE_MAX

  datatype Header = Header(service: string, nargs: Word, nret: Word)

  /** The service-specific part of each frame struct, inputs first, then outputs. */
  datatype Body =
    | ExitArgs
    | WriteArgs(stdout: Word, msg: string, len: Word, ret: Word)
    | FindDeviceArgs(device: string, phandle: Word)
    | PropArgs(phandle: Word, prop: string, buf: seq<Byte>, buflen: Word, size: Word)
    | ClaimArgs(virt: Word, size: Word, align: Word, ret: Word)
    | ReleaseArgs(virt: Word, size: Word)
    | OpenArgs(dev: string, handle: Word)
    | ReadArgs(handle: Word, buffer: Word, size: Word, actualSize: Word)
    | CloseArgs(handle: Word)
    | BlockSizeArgs(methodName: string, handle: Word, result: Word, blockSize: Word)

  datatype Frame = Frame(header: Header, body: Body)

  /** One positional input slot: a word, a pointer to a string, or a pointer to caller memory of a given size. */
  datatype Field = Cell(w: Word) | Text(s: string) | Space(bytes: nat)

  /** One call through the entry: the frame sent, the word returned, the frame as the entry left it. */
  datatype Exchange = Exchange(sent: Frame, ret: Word, filled: Frame)

  /** The service each frame shape belongs to, with its terminating NUL. */
  function ServiceName(b: Body): string
  {
    match b
    case ExitArgs => "exit\0"
    case WriteArgs(_, _, _, _) => "write\0"
    case FindDeviceArgs(_, _) => "finddevice\0"
    case PropArgs(_, _, _, _, _) => "getprop\0"
    case ClaimArgs(_, _, _, _) => "claim\0"
    case ReleaseArgs(_, _) => "release\0"
    case OpenArgs(_, _) => "open\0"
    case ReadArgs(_, _, _, _) => "read\0"
    case CloseArgs(_) => "close\0"
    case BlockSizeArgs(_, _, _, _) => "call-method\0"
  }

  /** The positional inputs of a frame, in order. */
  function Inputs(b: Body): seq<Field>
  {
    match b
    case ExitArgs => []
    case WriteArgs(stdout, msg, len, _) => [Cell(stdout), Text(msg), Cell(len)]
    case FindDeviceArgs(device, _) => [Text(device)]
    case PropArgs(phandle, prop, buf, buflen, _) => [Cell(phandle), Text(prop), Space(|buf|), Cell(buflen)]
    case ClaimArgs(virt, size, align, _) => [Cell(virt), Cell(size), Cell(align)]
    case ReleaseArgs(virt, size) => [Cell(virt), Cell(size)]
    case OpenArgs(dev, _) => [Text(dev)]
    case ReadArgs(handle, buffer, size, _) => [Cell(handle), Cell(buffer), Cell(size)]
    case CloseArgs(handle) => [Cell(handle)]
    case BlockSizeArgs(methodName, handle, _, _) => [Text(methodName), Cell(handle)]
  }

  /** The positional output slots of a frame, in order. */
  function Outputs(b: Body): seq<Word>
  {
    match b
    case ExitArgs => []
    case WriteArgs(_, _, _, ret) => [ret]
    case FindDeviceArgs(_, phandle) => [phandle]
    case PropArgs(_, _, _, _, size) => [size]
    case ClaimArgs(_, _, _, ret) => [ret]
    case ReleaseArgs(_, _) => []
    case OpenArgs(_, handle) => [handle]
    case ReadArgs(_, _, _, actualSize) => [actualSize]
    case CloseArgs(_) => []
    case BlockSizeArgs(_, _, result, blockSize) => [result, blockSize]
  }

  /** The header declares exactly as many inputs and outputs as the frame carries. */
  predicate Conforms(f: Frame)
  {
    f.header.nargs == |Inputs(f.body)| && f.header.nret == |Outputs(f.body)|
  }

  /**
   * The frame's layout is the one of the service it names, and a message pointer
   * covers the `len` bytes it claims.
   */
  predicate WellFormed(f: Frame)
  {
    && f.header.service == ServiceName(f.body)
    && (f.body.WriteArgs? ==> f.body.len <= |f.body.msg|)
  }

  /** Which frame struct a body is. */
  function Shape(b: Body): nat
  {
    match b
    case ExitArgs => 0
    case WriteArgs(_, _, _, _) => 1
    case FindDeviceArgs(_, _) => 2
    case PropArgs(_, _, _, _, _) => 3
    case ClaimArgs(_, _, _, _) => 4
    case ReleaseArgs(_, _) => 5
    case OpenArgs(_, _) => 6
    case ReadArgs(_, _, _, _) => 7
    case CloseArgs(_) => 8
    case BlockSizeArgs(_, _, _, _) => 9
  }

  /** `g` is `f` with at most its output slots (and the caller memory they point to) rewritten. */
  predicate SameInputs(f: Frame, g: Frame)
  {
    && f.header == g.header
    && Shape(f.body) == Shape(g.body)
    && Inputs(f.body) == Inputs(g.body)
  }

  // ---------------------------------------------------------------------------
  // Frames sent by the binding (src/lib.rs). Output slots start as 0 / null.

  /** `exit` as `OF::exit` builds it: it declares one argument but carries none. */
  function ExitFrame(): (f: Frame)
    ensures WellFormed(f) && !Conforms(f)
    ensures f.header.nargs == 1 && f.header.nret == 0 && Inputs(f.body) == []
  {
    Frame(Header("exit\0", 1, 0), ExitArgs)
  }

  /** `exit` as the bootstrap failure path of `of_init` builds it. */
  function RawExitFrame(): (f: Frame)
    ensures WellFormed(f) && Conforms(f)
    ensures Inputs(f.body) == [] && Outputs(f.body) == []
  {
    Frame(Header("exit\0", 0, 0), ExitArgs)
  }

  function WriteFrame(stdout: Word, msg: Str): (f: Frame)
    ensures WellFormed(f) && Conforms(f)
    ensures Inputs(f.body) == [Cell(stdout), Text(msg), Cell(|msg|)] && Outputs(f.body) == [0]
  {
    Frame(Header("write\0", 3, 1), WriteArgs(stdout, msg, |msg|, 0))
  }

  function FindDeviceFrame(name: Str): (f: Frame)
    ensures WellFormed(f) && Conforms(f)
    ensures Inputs(f.body) == [Text(name)] && Outputs(f.body) == [NULL]
  {
    Frame(Header("finddevice\0", 1, 1), FindDeviceArgs(name, NULL))
  }

  function PropFrame(phandle: Word, prop: Str, buf: seq<Byte>, buflen: Word): (f: Frame)
    ensures WellFormed(f) && Conforms(f)
    ensures Inputs(f.body) == [Cell(phandle), Text(prop), Space(|buf|), Cell(buflen)]
    ensures Outputs(f.body) == [0] && f.body.buf == buf
  {
    Frame(Header("getprop\0", 4, 1), PropArgs(phandle, prop, buf, buflen, 0))
  }

  /** `claim` with a null address hint: the firmware chooses the address. */
  function ClaimFrame(size: Word, align: Word): (f: Frame)
    ensures WellFormed(f) && Conforms(f)
    ensures Inputs(f.body) == [Cell(NULL), Cell(size), Cell(align)] && Outputs(f.body) == [NULL]
  {
    Frame(Header("claim\0", 3, 1), ClaimArgs(NULL, size, align, NULL))
  }

  function ReleaseFrame(virt: Word, size: Word): (f: Frame)
    ensures WellFormed(f) && Conforms(f)
    ensures Inputs(f.body) == [Cell(virt), Cell(size)] && Outputs(f.body) == []
  {
    Frame(Header("release\0", 2, 0), ReleaseArgs(virt, size))
  }

  function OpenFrame(dev: Str): (f: Frame)
    ensures WellFormed(f) && Conforms(f)
    ensures Inputs(f.body) == [Text(dev)] && Outputs(f.body) == [NULL]
  {
    Frame(Header("open\0", 1, 1), OpenArgs(dev, NULL))
  }

  function ReadFrame(handle: Word, buffer: Word, size: Word): (f: Frame)
    ensures WellFormed(f) && Conforms(f)
    ensures Inputs(f.body) == [Cell(handle), Cell(buffer), Cell(size)] && Outputs(f.body) == [0]
  {
    Frame(Header("read\0", 3, 1), ReadArgs(handle, buffer, size, 0))
  }

  function CloseFrame(handle: Word): (f: Frame)
    ensures WellFormed(f) && Conforms(f)
    ensures Inputs(f.body) == [Cell(handle)] && Outputs(f.body) == []
  {
    Frame(Header("close\0", 1, 0), CloseArgs(handle))
  }

  // ---------------------------------------------------------------------------
  // A word stored in memory and read back (the `getprop` buffer of `init`).
  // Both sides use the same native order; little-endian is chosen here.

  function Pow256(k: nat): (p: nat)
    ensures p > 0
  {
    if k == 0 then 1 else 256 * Pow256(k - 1)
  }

  /** The `k` low-order bytes of `n`, least significant first. */
  function LeBytes(n: nat, k: nat): (bs: seq<Byte>)
    ensures |bs| == k
  {
    if k == 0 then [] else [n % 256] + LeBytes(n / 256, k - 1)
  }

  /** The number whose little-endian bytes are `bs`. */
  function LeValue(bs: seq<Byte>): nat
  {
    if bs == [] then 0 else bs[0] + 256 * LeValue(bs[1..])
  }

  lemma {:induction false} LeValueBound(bs: seq<Byte>)
    ensures LeValue(bs) < Pow256(|bs|)
  {
    if bs != [] {
      LeValueBound(bs[1..]);
      assert LeValue(bs[1..]) + 1 <= Pow256(|bs| - 1);
      assert 256 * (LeValue(bs[1..]) + 1) <= 256 * Pow256(|bs| - 1);
    }
  }

  /** Storing `n` in `k` bytes and loading it back gives `n` when it fits. */
  lemma {:induction false} LeRoundTrip(n: nat, k: nat)
    requires n < Pow256(k)
    ensures LeValue(LeBytes(n, k)) == n
  {
    if k > 0 {
      var bs := LeBytes(n, k);
      assert bs[0] == n % 256 && bs[1..] == LeBytes(n / 256, k - 1);
      assert n / 256 < Pow256(k - 1);
      LeRoundTrip(n / 256, k - 1);
    }
  }

  /** Loading `k` bytes and storing the value back gives the same bytes. */
  lemma {:induction false} LeBytesOfValue(bs: seq<Byte>)
    ensures LeBytes(LeValue(bs), |bs|) == bs
  {
    if bs != [] {
      LeBytesOfValue(bs[1..]);
      DivMod256(bs[0], LeValue(bs[1..]));
      assert bs == [bs[0]] + bs[1..];
    }
  }

  /** A byte plus 256 times `m` has that byte as remainder and `m` as quotient. */
  lemma DivMod256(b: Byte, m: nat)
    ensures (b + 256 * m) % 256 == b && (b + 256 * m) / 256 == m
  {
  }

  /** The bytes a word occupies in memory. */
  function WordBytes(w: Word): (bs: seq<Byte>)
    ensures |bs| == WORD_BYTES
  {
    LeBytes(w, WORD_BYTES)
  }

  /** The word held by `WORD_BYTES` bytes of memory. */
  function WordOf(bs: seq<Byte>): (w: Word)
    requires |bs| == WORD_BYTES
  {
    LeValueBound(bs);
    LeValue(bs)
  }

  lemma WordRoundTrip(w: Word)
    ensures WordOf(WordBytes(w)) == w
  {
    LeRoundTrip(w, WORD_BYTES);
  }

  lemma BytesRoundTrip(bs: seq<Byte>)
    requires |bs| == WORD_BYTES
    ensures WordBytes(WordOf(bs)) == bs
  {
    LeBytesOfValue(bs);
  }
}
