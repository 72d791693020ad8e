/**
 * The test runner's scenarios, proved end to end against the mock firmware: the binding's
 * start-up finds the mock's handles, `write_line` reaches the console, `claim` and
 * `release` add and remove a heap region, and `open` / `call-method` find the
 * disk and its block size. A few more scenarios state what the fallback entry and
 * the outcome rules of the binding lead to.
 */
module Scenarios {
  import opened Wrappers
  import opened Frames
  import Mock
  import Firmware
  import Binding

  /**
   * Against the mock, the bootstrap always succeeds, whatever state the mock is in:
   * it yields the mock's `/chosen` phandle and console ihandle and leaves the mock's
   * state as it was.
   */
  lemma MockBootstrap(prom: Mock.MockProm, base: Mock.MockState, before: seq<Firmware.Event>,
                      after: seq<Firmware.Event>, ok: bool, chosen: Word, stdout: Word)
    requires Firmware.Legal(Firmware.Mocked(prom), base, after)
    requires Binding.Bootstrap(before, after, ok, chosen, stdout)
    ensures ok && chosen == Mock.CHOSEN_PHANDLE && stdout == Mock.STDOUT_IHANDLE
    ensures |after| == |before| + 2
    ensures Firmware.Replay(base, after) == Firmware.Replay(base, before)
  {
    var kind := Firmware.Mocked(prom);
    var n := |before|;
    var x1 := after[n].x;
    assert after[..n] == before;
    Firmware.LegalAt(kind, base, after, n);
    var st := Firmware.Replay(base, before);
    assert Mock.FindDevice(x1.sent).Reply?;
    assert Mock.StartsWith(x1.sent.body.device, "/chosen\0");
    assert x1.ret == WORD_BYTES;
    var x2 := after[n + 1].x;
    Firmware.LegalAt(kind, base, after, n + 1);
    assert Mock.Step(st, x1) == st;
    var f2 := x2.sent;
    assert Mock.StartsWith(f2.body.prop, "stdout\0");
    var g := Mock.GetProp(f2);
    assert g.Reply? && g.ret == WORD_BYTES;
    assert Mock.Store(WordBytes(NULL), WordBytes(Mock.STDOUT_IHANDLE)) == WordBytes(Mock.STDOUT_IHANDLE);
    WordRoundTrip(Mock.STDOUT_IHANDLE);
    assert after[..n + 2] == after;
  }

  /** A fresh mock, and the binding initialised over it. */
  method BootMock() returns (prom: Mock.MockProm, entry: Firmware.Entry, of: Binding.OF)
    ensures fresh(prom) && fresh(entry) && fresh(of)
    ensures entry.kind == Firmware.Mocked(prom) && entry.Repr == {entry, prom}
    ensures of.entry == entry && of.Valid()
    ensures of.chosen == Mock.CHOSEN_PHANDLE && of.stdout == Mock.STDOUT_IHANDLE
    ensures prom.State() == Mock.MockState("", None, false)
  {
    prom := new Mock.MockProm();
    entry := new Firmware.Entry.MakeMock(prom);
    var made := Binding.OF.New(entry);
    MockBootstrap(prom, entry.base, [], entry.log, made.Ok?,
                  if made.Ok? then made.value.chosen else NULL,
                  if made.Ok? then made.value.stdout else NULL);
    of := made.value;
  }

  /** `prom_new`: start-up finds `/chosen` at 0xdeadbeef and the console at 0xdecafbad. */
  method PromNew() returns (chosen: Word, stdout: Word)
    ensures chosen == 0xdeadbeef && stdout == 0xdecafbad
  {
    var _, _, of := BootMock();
    chosen, stdout := of.chosen, of.stdout;
  }

  /** The mock's state after a write of `msg` to its console. */
  lemma WriteStep(st: Mock.MockState, x: Exchange, msg: Str)
    requires x.sent == WriteFrame(Mock.STDOUT_IHANDLE, msg)
    ensures Mock.Step(st, x) == st.(console := st.console + msg)
  {
    assert msg[..|msg|] == msg;
  }

  /** `write_stdout`: `write_line("one two three")` leaves exactly that line on the console. */
  method WriteLineScenario() returns (console: string)
    ensures console == "one two three\n\r"
  {
    var prom, entry, of := BootMock();
    ghost var before := entry.log;
    of.WriteLine("one two three");
    ghost var log := entry.log;
    ghost var n := |before|;
    assert log[..n] == before;
    Firmware.LegalAt(entry.kind, entry.base, log, n);
    WriteStep(Firmware.Replay(entry.base, before), log[n].x, "one two three");
    Firmware.LegalAt(entry.kind, entry.base, log, n + 1);
    WriteStep(Firmware.Replay(entry.base, log[..n + 1]), log[n + 1].x, "\n\r");
    assert log[..n + 2] == log;
    console := prom.console;
  }

  /**
   * From a mock without a heap, `claim(4, 1)` either fails and marks the test failed,
   * or creates the heap with one zero-filled four-byte region at the returned address.
   */
  lemma MockClaimFour(prom: Mock.MockProm, base: Mock.MockState, log: seq<Firmware.Event>, n: nat)
    requires Firmware.Legal(Firmware.Mocked(prom), base, log)
    requires n + 1 == |log| && log[n].Called? && log[n].x.sent == ClaimFrame(4, 1)
    requires Firmware.Replay(base, log[..n]) == Mock.MockState("", None, false)
    ensures var x := log[n].x;
      && x.filled.body.ClaimArgs?
      && (Firmware.Replay(base, log).failed <==> x.ret == OF_SIZE_ERR)
      && (x.ret != OF_SIZE_ERR ==>
            x.filled.body.ret == x.ret && Firmware.Replay(base, log).heap == Some(map[x.ret := Mock.Zeros(4)]))
  {
    Firmware.LegalAt(Firmware.Mocked(prom), base, log, n);
    assert log[..n + 1] == log;
  }

  /** A `release` of `a` takes `a` out of the mock's heap. */
  lemma MockReleaseStep(prom: Mock.MockProm, base: Mock.MockState, log: seq<Firmware.Event>, n: nat)
    requires Firmware.Legal(Firmware.Mocked(prom), base, log)
    requires n + 1 == |log| && log[n].Called? && log[n].x.sent.body.ReleaseArgs?
    requires Firmware.Replay(base, log[..n]).heap.Some?
    ensures Firmware.Replay(base, log).heap
         == Some(Firmware.Replay(base, log[..n]).heap.value - {log[n].x.sent.body.virt})
  {
    Firmware.LegalAt(Firmware.Mocked(prom), base, log, n);
    assert log[..n + 1] == log;
  }

  /**
   * `claim_release`: `claim(4, 1)` gives an address whose region in the heap is four
   * zero bytes, and `release` removes that address. The claim fails only when the test
   * process itself cannot allocate, which the mock records as a failed test.
   */
  method ClaimRelease() returns (claimed: Result<Word>, region: Option<seq<Byte>>, presentAfterRelease: bool, testFailed: bool)
    ensures claimed.Err? <==> testFailed
    ensures claimed.Err? ==> claimed.error == "Could not allocate memory"
    ensures claimed.Ok? ==> region == Some([0, 0, 0, 0]) && !presentAfterRelease
  {
    var prom, entry, of := BootMock();
    ghost var before := entry.log;
    claimed := of.Claim(4, 1);
    MockClaimFour(prom, entry.base, entry.log, |before|);
    testFailed := prom.failed;
    if claimed.Err? {
      region := None;
      presentAfterRelease := false;
      return;
    }
    var a := claimed.value;
    region := Some(prom.heap.value[a]);
    assert Mock.Zeros(4) == [0, 0, 0, 0];
    ghost var mid := entry.log;
    of.Release(a, 4);
    MockReleaseStep(prom, entry.base, entry.log, |mid|);
    presentAfterRelease := a in prom.heap.value;
  }

  /** The mock answers `open("disk")` with its disk handle in the handle slot. */
  lemma MockOpensDisk(prom: Mock.MockProm, base: Mock.MockState, log: seq<Firmware.Event>, k: nat)
    requires Firmware.Legal(Firmware.Mocked(prom), base, log)
    requires k < |log| && log[k].Called? && log[k].x.sent == OpenFrame("disk\0")
    ensures log[k].x.ret == 0
    ensures log[k].x.filled.body.OpenArgs? && log[k].x.filled.body.handle == Mock.DISK_IHANDLE
  {
    Firmware.LegalAt(Firmware.Mocked(prom), base, log, k);
    assert Mock.StartsWith("disk\0", "disk\0");
  }

  /** `open`: the disk opens with the mock's disk ihandle. */
  method OpenDisk() returns (disk: Result<Word>)
    ensures disk == Ok(Mock.DISK_IHANDLE)
  {
    var prom, entry, of := BootMock();
    ghost var before := entry.log;
    disk := of.Open("disk\0");
    MockOpensDisk(prom, entry.base, entry.log, |before|);
  }

  /** A `call-method` frame asking the instance `handle` for its block size. */
  function BlockSizeFrame(handle: Word): (f: Frame)
    ensures WellFormed(f) && Conforms(f)
    ensures Inputs(f.body) == [Text("block-size\0"), Cell(handle)] && Outputs(f.body) == [0, 0]
  {
    Frame(Header("call-method\0", 2, 2), BlockSizeArgs("block-size\0", handle, 0, 0))
  }

  /** The mock answers `block-size` on its disk with result 0 and 512-byte blocks. */
  lemma MockBlockSize(prom: Mock.MockProm, base: Mock.MockState, log: seq<Firmware.Event>, k: nat)
    requires Firmware.Legal(Firmware.Mocked(prom), base, log)
    requires k < |log| && log[k].Called? && log[k].x.sent == BlockSizeFrame(Mock.DISK_IHANDLE)
    ensures log[k].x.ret == 0
    ensures log[k].x.filled.body.BlockSizeArgs?
    ensures log[k].x.filled.body.result == 0 && log[k].x.filled.body.blockSize == 512
  {
    Firmware.LegalAt(Firmware.Mocked(prom), base, log, k);
    assert Mock.StartsWith("block-size\0", "block-size");
  }

  /** `block_size`: the opened disk answers `block-size` with result 0 and 512-byte blocks. */
  method BlockSize() returns (disk: Result<Word>, ret: Word, result: Word, blockSize: Word)
    ensures disk == Ok(Mock.DISK_IHANDLE)
    ensures ret == 0 && result == 0 && blockSize == 512
  {
    var prom, entry, of := BootMock();
    ghost var before := entry.log;
    disk := of.Open("disk\0");
    MockOpensDisk(prom, entry.base, entry.log, |before|);
    var filled;
    ret, filled := entry.Call(BlockSizeFrame(disk.value));
    MockBlockSize(prom, entry.base, entry.log, |entry.log| - 1);
    result, blockSize := filled.body.result, filled.body.blockSize;
  }

  /** Before start-up has found the console, a write fails without reaching the firmware. */
  method WriteWithoutConsole() returns (r: Result<()>, console: string)
    ensures r == Err("stdout is not present") && console == ""
  {
    var prom := new Mock.MockProm();
    var entry := new Firmware.Entry.MakeMock(prom);
    var of := new Binding.OF(entry);
    r := of.WriteStdout("hello");
    console := prom.console;
  }

  /**
   * A write to a handle the mock does not know: the mock answers with the sentinel
   * but leaves the `ret` slot alone, and the binding, which reads only that slot,
   * reports success.
   */
  method WriteToUnknownHandle() returns (r: Result<()>, console: string)
    ensures r.Ok? && console == ""
  {
    var prom, entry, of := BootMock();
    of.stdout := 0x1234;
    ghost var before := entry.log;
    r := of.WriteStdout("lost");
    ghost var log := entry.log;
    assert log[..|before|] == before;
    Firmware.LegalAt(entry.kind, entry.base, log, |before|);
    assert log[..|before| + 1] == log;
    ghost var x := log[|before|].x;
    assert x.sent == WriteFrame(0x1234, "lost");
    assert Binding.LastCall(log) == x;
    console := prom.console;
  }

  /** Before `of_init`, the global answers every claim with failure, and `alloc` panics. */
  method AllocBeforeInit() returns (claimed: Result<Word>, outcome: Binding.Allocation)
    ensures claimed == Err("Could not allocate memory")
    ensures outcome == Binding.AllocPanicked
  {
    var rt := new Binding.Runtime();
    claimed := rt.global.Claim(16, 8);
    Firmware.LegalAt(rt.global.entry.kind, rt.global.entry.base, rt.global.entry.log, 0);
    var layout: Binding.Layout := Binding.SizeAlign(16, 8);
    outcome := rt.Alloc(layout);
    ghost var log := rt.global.entry.log;
    Firmware.LegalAt(rt.global.entry.kind, rt.global.entry.base, log, 1);
  }

  /**
   * `of_init` over an entry that fails every call exits instead of returning: the
   * program stops, so the runtime is no longer usable, and the global keeps its
   * fallback entry.
   */
  method BootWithoutFirmware() returns (exited: bool, globalKind: Firmware.Kind, ghost running: bool)
    ensures exited && globalKind == Firmware.Fallback && !running
  {
    var rt := new Binding.Runtime();
    var entry := new Firmware.Entry.MakeFallback();
    var boot := rt.OfInit(entry);
    if boot.Booted? {
      Firmware.LegalAt(entry.kind, entry.base, entry.log, 0);
    }
    exited := boot.BootExited?;
    globalKind := rt.global.entry.kind;
    running := rt.Valid();
  }

  /**
   * Start-up over real firmware, which is only known to leave inputs alone: the
   * binding asks for `/chosen` first, makes at most one more call, and succeeds
   * only after exactly two.
   */
  method BootOverForeignFirmware() returns (booted: bool, ghost log: seq<Firmware.Event>)
    ensures 1 <= |log| <= 2 && log[0].Called? && log[0].x.sent == FindDeviceFrame("/chosen\0")
    ensures booted ==> |log| == 2
  {
    var entry := new Firmware.Entry.MakeForeign();
    var made := Binding.OF.New(entry);
    booted := made.Ok?;
    log := entry.log;
  }
}
