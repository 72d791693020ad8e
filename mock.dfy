/**
 * The mock firmware of the test runner: a concrete implementation of the entry
 * contract. Its state is a console string and a lazily created heap that maps the
 * addresses it hands out to zero-filled byte regions. The entry selects a handler by
 * matching the service name as a prefix; each handler checks the header counts it
 * asserts, fills output slots of the frame and returns a word.
 */
module Mock {
  import opened Wrappers
  import opened Frames

  const CHOSEN_PHANDLE: Word := 0xdeadbeef
  const STDOUT_IHANDLE: Word := 0xdecafbad
  const DISK_IHANDLE: Word := 0xfeedd15c
  const DISK_BLOCK_SIZE: Word := 512

  /** `s.starts_with(key)`. */
  predicate StartsWith(s: string, key: string)
  {
    |key| <= |s| && s[..|key|] == key
  }

  /** A string whose only NUL is its last character. */
  predicate NulTerminated(s: string)
  {
    && 0 < |s|
    && s[|s| - 1] == '\0'
    && forall i :: 0 <= i < |s| - 1 ==> s[i] != '\0'
  }

  /**
   * Two NUL-terminated keys that both prefix the same string are the same key: a
   * string cannot start with two different service names.
   */
  lemma {:induction false} KeysExclusive(s: string, k1: string, k2: string)
    requires NulTerminated(k1) && NulTerminated(k2)
    requires StartsWith(s, k1) && StartsWith(s, k2)
    requires |k1| <= |k2|
    ensures k1 == k2
  {
    var n := |k1|;
    assert k2[n - 1] == s[n - 1] == k1[n - 1] == '\0';
    assert n == |k2|;
    assert k1 == s[..n] == k2;
  }

  // ---------------------------------------------------------------------------
  // Dispatch

  datatype Handler =
    | FindDeviceH | GetPropH | WriteH | ClaimH | ReleaseH
    | OpenH | ReadH | CloseH | CallMethodH | Unknown

  /** The prefix each handler is selected by. */
  function Key(h: Handler): string
    requires h != Unknown
  {
    match h
    case FindDeviceH => "finddevice\0"
    case GetPropH => "getprop\0"
    case WriteH => "write\0"
    case ClaimH => "claim\0"
    case ReleaseH => "release\0"
    case OpenH => "open\0"
    case ReadH => "read\0"
    case CloseH => "close\0"
    case CallMethodH => "call-method\0"
  }

  /** The handler `mock_entry` selects, testing the prefixes in its order. */
  function Route(service: string): Handler
  {
    if StartsWith(service, Key(FindDeviceH)) then FindDeviceH
    else if StartsWith(service, Key(GetPropH)) then GetPropH
    else if StartsWith(service, Key(WriteH)) then WriteH
    else if StartsWith(service, Key(ClaimH)) then ClaimH
    else if StartsWith(service, Key(ReleaseH)) then ReleaseH
    else if StartsWith(service, Key(OpenH)) then OpenH
    else if StartsWith(service, Key(ReadH)) then ReadH
    else if StartsWith(service, Key(CloseH)) then CloseH
    else if StartsWith(service, Key(CallMethodH)) then CallMethodH
    else Unknown
  }

  lemma KeysNulTerminated(h: Handler)
    requires h != Unknown
    ensures NulTerminated(Key(h))
  {
  }

  /**
   * The order of the prefix tests does not matter: whenever the service starts with a
   * handler's key, that handler is the one selected.
   */
  lemma RouteIsOrderFree(service: string, h: Handler)
    requires h != Unknown && StartsWith(service, Key(h))
    ensures Route(service) == h
  {
    var r := Route(service);
    assert r != Unknown;
    assert StartsWith(service, Key(r));
    KeysNulTerminated(h);
    KeysNulTerminated(r);
    if |Key(r)| <= |Key(h)| {
      KeysExclusive(service, Key(r), Key(h));
    } else {
      KeysExclusive(service, Key(h), Key(r));
    }
  }

  /** The handler whose frame layout is `b`; `exit` has none. */
  function HandlerFor(b: Body): Handler
  {
    match b
    case ExitArgs => Unknown
    case WriteArgs(_, _, _, _) => WriteH
    case FindDeviceArgs(_, _) => FindDeviceH
    case PropArgs(_, _, _, _, _) => GetPropH
    case ClaimArgs(_, _, _, _) => ClaimH
    case ReleaseArgs(_, _) => ReleaseH
    case OpenArgs(_, _) => OpenH
    case ReadArgs(_, _, _, _) => ReadH
    case CloseArgs(_) => CloseH
    case BlockSizeArgs(_, _, _, _) => CallMethodH
  }

  /** A frame that names its own service reaches the handler for its layout; `exit` reaches none. */
  lemma RouteByName(b: Body)
    ensures Route(ServiceName(b)) == HandlerFor(b)
  {
    if HandlerFor(b) == Unknown {
      assert ServiceName(b) == "exit\0";
      assert !StartsWith("exit\0", Key(OpenH)) by { assert "exit\0"[0] != "open\0"[0]; }
      assert !StartsWith("exit\0", Key(ReadH)) by { assert "exit\0"[0] != "read\0"[0]; }
    } else {
      assert Key(HandlerFor(b)) == ServiceName(b);
      RouteIsOrderFree(ServiceName(b), HandlerFor(b));
    }
  }

  // ---------------------------------------------------------------------------
  // Handlers that only fill frame slots

  /** What a handler did: returned a word with the frame as it left it, or panicked (a failed assertion). */
  datatype Reply = Reply(ret: Word, frame: Frame) | Aborted

  /** The word and frame the caller of the entry sees; a panic is seen as the sentinel. */
  function Delivered(r: Reply, sent: Frame): (Word, Frame)
  {
    if r.Aborted? then (OF_SIZE_ERR, sent) else (r.ret, r.frame)
  }

  function FindDevice(f: Frame): (r: Reply)
    requires f.body.FindDeviceArgs?
    ensures r.Aborted? <==> !(f.header.nargs == 1 && f.header.nret == 1)
    ensures r.Reply? ==> SameInputs(f, r.frame)
    ensures r.Reply? ==> (r.ret == OF_SIZE_ERR <==> !StartsWith(f.body.device, "/chosen\0"))
    ensures r.Reply? && r.ret != OF_SIZE_ERR ==> r.ret == WORD_BYTES && r.frame.body.phandle == CHOSEN_PHANDLE
    ensures r.Reply? && r.ret == OF_SIZE_ERR ==> r.frame == f
  {
    if f.header.nargs != 1 || f.header.nret != 1 then Aborted
    else if StartsWith(f.body.device, "/chosen\0") then
      Reply(WORD_BYTES, f.(body := FindDeviceArgs(f.body.device, CHOSEN_PHANDLE)))
    else Reply(OF_SIZE_ERR, f)
  }

  /** `region` after `bytes` are written at its start; bytes past its end are not part of it. */
  function Store(region: seq<Byte>, bytes: seq<Byte>): (r: seq<Byte>)
    ensures |r| == |region|
    ensures forall i :: 0 <= i < |r| ==> r[i] == if i < |bytes| then bytes[i] else region[i]
  {
    if |bytes| <= |region| then bytes + region[|bytes|..] else bytes[..|region|]
  }

  function GetProp(f: Frame): (r: Reply)
    requires f.body.PropArgs?
    ensures r.Aborted? <==>
      || !(f.header.nargs == 4 && f.header.nret == 1)
      || (StartsWith(f.body.prop, "stdout\0") && f.body.buflen < WORD_BYTES)
    ensures r.Reply? ==> SameInputs(f, r.frame) && r.frame.body.size == r.ret
    ensures r.Reply? ==> (r.ret == OF_SIZE_ERR <==> !StartsWith(f.body.prop, "stdout\0"))
    ensures r.Reply? && r.ret != OF_SIZE_ERR ==>
      r.ret == WORD_BYTES && r.frame.body.buf == Store(f.body.buf, WordBytes(STDOUT_IHANDLE))
    ensures r.Reply? && r.ret == OF_SIZE_ERR ==> r.frame.body.buf == f.body.buf
  {
    if f.header.nargs != 4 || f.header.nret != 1 then Aborted
    else if StartsWith(f.body.prop, "stdout\0") then
      if f.body.buflen < WORD_BYTES then Aborted
      else
        var buf := Store(f.body.buf, WordBytes(STDOUT_IHANDLE));
        Reply(WORD_BYTES, f.(body := PropArgs(f.body.phandle, f.body.prop, buf, f.body.buflen, WORD_BYTES)))
    else Reply(OF_SIZE_ERR, f.(body := PropArgs(f.body.phandle, f.body.prop, f.body.buf, f.body.buflen, OF_SIZE_ERR)))
  }

  function Open(f: Frame): (r: Reply)
    requires f.body.OpenArgs?
    ensures r.Reply? && SameInputs(f, r.frame)
    ensures r.ret == 0 <==> StartsWith(f.body.dev, "disk\0")
    ensures r.ret == 0 ==> r.frame.body.handle == DISK_IHANDLE
    ensures r.ret != 0 ==> r.ret == OF_SIZE_ERR && r.frame == f
  {
    if StartsWith(f.body.dev, "disk\0") then Reply(0, f.(body := OpenArgs(f.body.dev, DISK_IHANDLE)))
    else Reply(OF_SIZE_ERR, f)
  }

  /** Reads nothing: `actual_size` keeps the value the caller put there. */
  function Read(f: Frame): (r: Reply)
    requires f.body.ReadArgs?
    ensures r.Reply? && r.ret == 0 && r.frame == f
  {
    Reply(0, f)
  }

  function Close(f: Frame): (r: Reply)
    requires f.body.CloseArgs?
    ensures r.Reply? && r.ret == 0 && r.frame == f
  {
    Reply(0, f)
  }

  /** `call-method`: only `block-size` on the disk answers, with result 0 and 512-byte blocks. */
  function CallMethod(f: Frame): (r: Reply)
    requires f.body.BlockSizeArgs?
    ensures r.Reply? && SameInputs(f, r.frame)
    ensures r.ret == 0 <==> StartsWith(f.body.methodName, "block-size") && f.body.handle == DISK_IHANDLE
    ensures r.ret == 0 ==> r.frame.body.result == 0 && r.frame.body.blockSize == DISK_BLOCK_SIZE
    ensures r.ret != 0 ==> r.ret == OF_SIZE_ERR && r.frame == f
  {
    if StartsWith(f.body.methodName, "block-size") && f.body.handle == DISK_IHANDLE then
      Reply(0, f.(body := BlockSizeArgs(f.body.methodName, f.body.handle, 0, DISK_BLOCK_SIZE)))
    else Reply(OF_SIZE_ERR, f)
  }

  // ---------------------------------------------------------------------------
  // The heap

  /** The claim frame `f` with its `ret` slot set to `a`. */
  function WithClaimRet(f: Frame, a: Word): (g: Frame)
    requires f.body.ClaimArgs?
    ensures SameInputs(f, g) && g.body.ClaimArgs? && g.body.ret == a
  {
    f.(body := ClaimArgs(f.body.virt, f.body.size, f.body.align, a))
  }

  function Zeros(n: nat): (z: seq<Byte>)
    ensures |z| == n && forall i :: 0 <= i < n ==> z[i] == 0
  {
    seq(n, _ => 0)
  }

  /** The heap map, as `claim` finds it after creating it if absent. */
  function HeapOrEmpty(heap: Option<map<Word, seq<Byte>>>): map<Word, seq<Byte>>
  {
    if heap.Some? then heap.value else map[]
  }

  /**
   * An address the test process's allocator may give a new zero-filled vector of
   * `size` bytes: never null or the sentinel, the dangling address 1 for an empty
   * vector, otherwise an address no live region has. Vectors over `isize::MAX` bytes
   * cannot be allocated.
   */
  predicate HostAddress(heap: map<Word, seq<Byte>>, size: Word, a: Word)
  {
    && a != NULL && a != OF_SIZE_ERR && size <= ISIZE_MAX
    && (size == 0 ==> a == 1)
    && (size > 0 ==> a > 1 && a !in heap)
  }

  // ---------------------------------------------------------------------------
  // Specification of one call into the mock

  datatype MockState = MockState(console: string, heap: Option<map<Word, seq<Byte>>>, failed: bool)

  /** The replies the mock may give to `x.sent` in state `st`. */
  ghost predicate Answer(st: MockState, x: Exchange)
  {
    var f := x.sent;
    match f.body
    case ExitArgs => x.ret == OF_SIZE_ERR && x.filled == f
    case WriteArgs(stdout, _, len, _) =>
      && x.filled == f
      && x.ret == if f.header.nargs == 3 && f.header.nret == 1 && stdout == STDOUT_IHANDLE then len else OF_SIZE_ERR
    case FindDeviceArgs(_, _) => Delivered(FindDevice(f), f) == (x.ret, x.filled)
    case PropArgs(_, _, _, _, _) => Delivered(GetProp(f), f) == (x.ret, x.filled)
    case ClaimArgs(_, size, _, _) =>
      if size == OF_SIZE_ERR then
        x.ret == OF_SIZE_ERR && x.filled == WithClaimRet(f, OF_SIZE_ERR)
      else
        || (size > 0 && x.ret == OF_SIZE_ERR && x.filled == f)
        || (HostAddress(HeapOrEmpty(st.heap), size, x.ret) && x.filled == WithClaimRet(f, x.ret))
    case ReleaseArgs(_, _) => x.ret == 0 && x.filled == f
    case OpenArgs(_, _) => Delivered(Open(f), f) == (x.ret, x.filled)
    case ReadArgs(_, _, _, _) => Delivered(Read(f), f) == (x.ret, x.filled)
    case CloseArgs(_) => Delivered(Close(f), f) == (x.ret, x.filled)
    case BlockSizeArgs(_, _, _, _) => Delivered(CallMethod(f), f) == (x.ret, x.filled)
  }

  /** The mock's state after answering `x` in state `st`. */
  function Step(st: MockState, x: Exchange): MockState
  {
    var f := x.sent;
    match f.body
    case WriteArgs(stdout, msg, len, _) =>
      if !(f.header.nargs == 3 && f.header.nret == 1) then st.(failed := true)
      else if stdout == STDOUT_IHANDLE && len <= |msg| then st.(console := st.console + msg[..len])
      else st
    case FindDeviceArgs(_, _) => if FindDevice(f).Aborted? then st.(failed := true) else st
    case PropArgs(_, _, _, _, _) => if GetProp(f).Aborted? then st.(failed := true) else st
    case ClaimArgs(_, size, _, _) =>
      var heap := HeapOrEmpty(st.heap);
      if size == OF_SIZE_ERR then st.(heap := Some(heap))
      else if x.ret == OF_SIZE_ERR then st.(heap := Some(heap), failed := true)
      else st.(heap := Some(heap[x.ret := Zeros(size)]))
    case ReleaseArgs(virt, _) =>
      if st.heap.None? then st else st.(heap := Some(st.heap.value - {virt}))
    case _ => st
  }

  // ---------------------------------------------------------------------------
  // The mock itself

  class MockProm {
    /** Everything written to the console so far. */
    var console: string
    /** Claimed regions by address; absent until the first `claim`. */
    var heap: Option<map<Word, seq<Byte>>>
    /** A handler panicked: the test has failed. */
    var failed: bool

    constructor ()
      ensures console == "" && heap == None && !failed
    {
      console := "";
      heap := None;
      failed := false;
    }

    function State(): MockState
      reads this
    {
      MockState(console, heap, failed)
    }

    /** Appends the `len` message bytes to the console, one at a time, when the handle is the console's. */
    method Write(f: Frame) returns (r: Reply)
      requires f.body.WriteArgs? && f.body.len <= |f.body.msg|
      modifies this
      ensures heap == old(heap) && failed == old(failed)
      ensures r.Aborted? <==> !(f.header.nargs == 3 && f.header.nret == 1)
      ensures r.Reply? ==> r.frame == f
      ensures r.Reply? && f.body.stdout == STDOUT_IHANDLE ==>
        r.ret == f.body.len && console == old(console) + f.body.msg[..f.body.len]
      ensures r.Reply? && f.body.stdout != STDOUT_IHANDLE ==> r.ret == OF_SIZE_ERR && console == old(console)
      ensures r.Aborted? ==> console == old(console)
    {
      if f.header.nargs != 3 || f.header.nret != 1 {
        return Aborted;
      }
      if f.body.stdout == STDOUT_IHANDLE {
        var msg := f.body.msg[..f.body.len];
        var c: Word := 0;
        for i := 0 to |msg|
          invariant c == i
          invariant console == old(console) + msg[..i]
          invariant heap == old(heap) && failed == old(failed)
        {
          console := console + [msg[i]];
          c := c + 1;
        }
        r := Reply(c, f);
      } else {
        r := Reply(OF_SIZE_ERR, f);
      }
    }

    /** Creates the heap if absent, then records a zero-filled region at a fresh address. */
    method Claim(f: Frame) returns (r: Reply)
      requires f.body.ClaimArgs?
      modifies this
      ensures console == old(console) && failed == old(failed)
      ensures f.body.size == OF_SIZE_ERR ==>
        && r == Reply(OF_SIZE_ERR, WithClaimRet(f, OF_SIZE_ERR))
        && heap == Some(HeapOrEmpty(old(heap)))
      ensures f.body.size != OF_SIZE_ERR ==>
        || (r.Aborted? && f.body.size > 0 && heap == Some(HeapOrEmpty(old(heap))))
        || (&& r.Reply?
            && HostAddress(HeapOrEmpty(old(heap)), f.body.size, r.ret)
            && r.frame == WithClaimRet(f, r.ret)
            && heap == Some(HeapOrEmpty(old(heap))[r.ret := Zeros(f.body.size)]))
    {
      if heap.None? {
        heap := Some(map[]);
      }
      if f.body.size == OF_SIZE_ERR {
        return Reply(OF_SIZE_ERR, WithClaimRet(f, OF_SIZE_ERR));
      }
      // The test process's allocator is outside the model: any address it may give,
      // or NULL when a non-empty allocation fails; an empty vector never fails.
      assert f.body.size == 0 ==> HostAddress(heap.value, 0, 1);
      var a: Word :| (a == NULL && f.body.size > 0) || HostAddress(heap.value, f.body.size, a);
      if a == NULL {
        assert !HostAddress(heap.value, f.body.size, a);
        return Aborted;
      }
      heap := Some(heap.value[a := Zeros(f.body.size)]);
      r := Reply(a, WithClaimRet(f, a));
    }

    /** Forgets the region at the given address, if the heap exists. */
    method Release(f: Frame) returns (r: Reply)
      requires f.body.ReleaseArgs?
      modifies this
      ensures console == old(console) && failed == old(failed)
      ensures r == Reply(0, f)
      ensures old(heap).None? ==> heap == None
      ensures old(heap).Some? ==> heap == Some(old(heap).value - {f.body.virt})
    {
      if heap.None? {
        return Reply(0, f);
      }
      heap := Some(heap.value - {f.body.virt});
      r := Reply(0, f);
    }

    /** `mock_entry`: dispatch by service-name prefix; unknown services get the sentinel. */
    method MockEntry(f: Frame) returns (ret: Word, filled: Frame)
      requires WellFormed(f)
      modifies this
      ensures SameInputs(f, filled)
      ensures Answer(old(State()), Exchange(f, ret, filled))
      ensures State() == Step(old(State()), Exchange(f, ret, filled))
    {
      RouteByName(f.body);
      var r: Reply;
      match Route(f.header.service) {
        case FindDeviceH => r := FindDevice(f);
        case GetPropH => r := GetProp(f);
        case WriteH => r := Write(f);
        case ClaimH => r := Claim(f);
        case ReleaseH => r := Release(f);
        case OpenH => r := Open(f);
        case ReadH => r := Read(f);
        case CloseH => r := Close(f);
        case CallMethodH => r := CallMethod(f);
        case Unknown => r := Reply(OF_SIZE_ERR, f);
      }
      if r.Aborted? {
        failed := true;
        ret, filled := OF_SIZE_ERR, f;
      } else {
        ret, filled := r.ret, r.frame;
      }
    }
  }
}
