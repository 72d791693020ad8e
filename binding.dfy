/**
 * The Open Firmware binding: the `OF` handle with its service wrappers, the heap
 * allocator built on `claim`/`release`, and the process-wide global with its
 * bootstrap `of_init`.
 *
 * Every wrapper builds one fixed frame, passes it to the entry function and reads
 * the outcome back. What each wrapper counts as failure differs, and the contracts
 * below keep those differences: some test the entry's return word, `write_stdout`
 * tests the `ret` slot, `open` tests the handle slot for null, `read` tests
 * `actual_size`.
 */
module Binding {
  import opened Wrappers
  import opened Frames
  import Firmware

  /** The exchange of the last call in `log`. */
  ghost function LastCall(log: seq<Firmware.Event>): Exchange
    requires |log| > 0 && log[|log| - 1].Called?
  {
    log[|log| - 1].x
  }

  /**
   * The calls `init` makes between `before` and `after`: `finddevice("/chosen")`;
   * only when that succeeds, `getprop(chosen, "stdout")` into a one-handle buffer
   * holding null. It succeeds (`ok`) exactly when both calls do, and then yields the
   * phandle slot of the first call and the handle stored in the buffer by the second.
   */
  ghost predicate Bootstrap(before: seq<Firmware.Event>, after: seq<Firmware.Event>, ok: bool, chosen: Word, stdout: Word)
  {
    && |before| < |after|
    && after[|before|].Called?
    && var first := after[|before|].x;
    && first.sent == FindDeviceFrame("/chosen\0")
    && first.filled.body.FindDeviceArgs?
    && if first.ret == OF_SIZE_ERR then
         Firmware.Sent(before, after, [first.sent]) && !ok
       else
         var phandle := first.filled.body.phandle;
         && Firmware.Sent(before, after, [first.sent, PropFrame(phandle, "stdout\0", WordBytes(NULL), WORD_BYTES)])
         && var second := after[|before| + 1].x;
         && second.filled.body.PropArgs?
         && |second.filled.body.buf| == WORD_BYTES
         && (ok <==> second.ret != OF_SIZE_ERR)
         && (ok ==> chosen == phandle && stdout == WordOf(second.filled.body.buf))
  }

  /**
   * A successful bootstrap keeps the console handle exactly as the firmware stored
   * it: the handle's eight bytes are the bytes left in the `getprop` buffer.
   */
  lemma BootstrapKeepsStoredHandle(before: seq<Firmware.Event>, after: seq<Firmware.Event>, chosen: Word, stdout: Word)
    requires Bootstrap(before, after, true, chosen, stdout)
    ensures |after| == |before| + 2 && after[|before| + 1].Called?
    ensures after[|before| + 1].x.filled.body.PropArgs?
    ensures WordBytes(stdout) == after[|before| + 1].x.filled.body.buf
  {
    BytesRoundTrip(after[|before| + 1].x.filled.body.buf);
  }

  /** Appending one call sends exactly its frame, and that call is the last one. */
  lemma SentOne(before: seq<Firmware.Event>, x: Exchange)
    ensures Firmware.Sent(before, before + [Firmware.Called(x)], [x.sent])
    ensures LastCall(before + [Firmware.Called(x)]) == x
  {
    assert (before + [Firmware.Called(x)])[..|before|] == before;
  }

  /** Two runs of sent frames, one after the other, send the frames of both in order. */
  lemma SentThen(before: seq<Firmware.Event>, mid: seq<Firmware.Event>, after: seq<Firmware.Event>,
                 first: seq<Frame>, second: seq<Frame>)
    requires Firmware.Sent(before, mid, first) && Firmware.Sent(mid, after, second)
    ensures Firmware.Sent(before, after, first + second)
    ensures after[..|mid|] == mid
  {
    assert after[..|before|] == mid[..|before|];
  }

  /** A successful `finddevice` followed by a `getprop` of `stdout` is a bootstrap. */
  lemma BootstrapOfCalls(before: seq<Firmware.Event>, mid: seq<Firmware.Event>, after: seq<Firmware.Event>,
                         phandle: Word, ok: bool, chosen: Word, stdout: Word)
    requires Firmware.Sent(before, mid, [FindDeviceFrame("/chosen\0")])
    requires var first := LastCall(mid);
      first.filled.body.FindDeviceArgs? && first.ret != OF_SIZE_ERR && first.filled.body.phandle == phandle
    requires Firmware.Sent(mid, after, [PropFrame(phandle, "stdout\0", WordBytes(NULL), WORD_BYTES)])
    requires var second := LastCall(after);
      && second.filled.body.PropArgs?
      && |second.filled.body.buf| == WORD_BYTES
      && (ok <==> second.ret != OF_SIZE_ERR)
      && (ok ==> chosen == phandle && stdout == WordOf(second.filled.body.buf))
    ensures Bootstrap(before, after, ok, chosen, stdout)
  {
    SentThen(before, mid, after, [FindDeviceFrame("/chosen\0")],
             [PropFrame(phandle, "stdout\0", WordBytes(NULL), WORD_BYTES)]);
  }

  /** A failed bootstrap followed by the bare `exit` and the endless loop. */
  lemma FailedBootThenExit(before: seq<Firmware.Event>, failed: seq<Firmware.Event>, after: seq<Firmware.Event>, x: Exchange)
    requires Bootstrap(before, failed, false, NULL, NULL)
    requires after == failed + [Firmware.Called(x), Firmware.Exited] && x.sent == RawExitFrame()
    ensures 2 <= |after|
    ensures var n := |after| - 2;
      && Bootstrap(before, after[..n], false, NULL, NULL)
      && after[n].Called? && after[n].x.sent == RawExitFrame()
      && after[n + 1] == Firmware.Exited
  {
    assert after[..|after| - 2] == failed;
  }

  /** `after` is `before` followed by an `exit` call and the client stopping for good. */
  ghost predicate ExitedAfter(before: seq<Firmware.Event>, after: seq<Firmware.Event>)
  {
    && |after| == |before| + 2
    && Firmware.Sent(before, after[..|before| + 1], [ExitFrame()])
    && after[|before| + 1] == Firmware.Exited
  }

  /** An Open Firmware environment: its entry function and the two handles found at start-up. */
  class OF {
    const entry: Firmware.Entry
    /** Package handle of `/chosen`. */
    var chosen: Word
    /** Instance handle of the console. */
    var stdout: Word

    /** A usable environment: its entry is consistent and the client has not exited. */
    ghost predicate Valid()
      reads this, entry, entry.Repr
    {
      entry.Valid() && entry.Live() && this !in entry.Repr
    }

    /** An environment over `entry` whose handles are still null. */
    constructor (entry: Firmware.Entry)
      requires entry.Valid() && entry.Live()
      ensures this.entry == entry && chosen == NULL && stdout == NULL && Valid()
    {
      this.entry := entry;
      chosen := NULL;
      stdout := NULL;
    }

    /** `OF::new`: an environment over `entry`, initialised, or the error of `init`. */
    static method New(entry: Firmware.Entry) returns (r: Result<OF>)
      requires entry.Valid() && entry.Live()
      modifies entry.Repr
      ensures entry.Valid() && entry.Live()
      ensures r.Ok? ==> fresh(r.value) && r.value.entry == entry && r.value.Valid()
      ensures Bootstrap(old(entry.log), entry.log, r.Ok?,
                        if r.Ok? then r.value.chosen else NULL,
                        if r.Ok? then r.value.stdout else NULL)
      ensures r.Err? ==> r.error == "Could not retreive property"
    {
      var of := new OF(entry);
      var init := of.Init();
      if init.Err? {
        return Err(init.error);
      }
      r := Ok(of);
    }

    /** Looks up `/chosen`, then reads the console handle out of its `stdout` property. */
    method Init() returns (r: Result<()>)
      requires Valid()
      modifies this, entry.Repr
      ensures Valid()
      ensures Bootstrap(old(entry.log), entry.log, r.Ok?, chosen, stdout)
      ensures r.Err? ==> r.error == "Could not retreive property"
      ensures r.Err? ==> chosen == old(chosen) && stdout == old(stdout)
    {
      var found := FindDevice("/chosen\0");
      if found.Err? {
        return Err(found.error);
      }
      ghost var mid := entry.log;
      var size, buf := GetProperty(found.value, "stdout\0", WordBytes(NULL), WORD_BYTES);
      BootstrapOfCalls(old(entry.log), mid, entry.log, found.value, size.Ok?,
                       if size.Ok? then found.value else chosen,
                       if size.Ok? then WordOf(buf) else stdout);
      if size.Err? {
        return Err(size.error);
      }
      stdout := WordOf(buf);
      chosen := found.value;
      r := Ok(());
    }

    /** Hands control back to the firmware; the client then spins forever and calls nothing more. */
    method Exit()
      requires Valid()
      modifies entry.Repr
      ensures entry.Valid() && !entry.Live()
      ensures ExitedAfter(old(entry.log), entry.log)
    {
      var _, _ := entry.Call(ExitFrame());
      ghost var called := entry.log;
      entry.Halt();
      assert entry.log[..|entry.log| - 1] == called;
    }

    /** Writes `msg` to the console; failure is read from the `ret` slot, not the entry's word. */
    method WriteStdout(msg: Str) returns (r: Result<()>)
      requires Valid()
      modifies entry.Repr
      ensures Valid()
      ensures stdout == NULL ==> r == Err("stdout is not present") && entry.log == old(entry.log)
      ensures stdout != NULL ==>
        && Firmware.Sent(old(entry.log), entry.log, [WriteFrame(stdout, msg)])
        && var filled := LastCall(entry.log).filled;
        && filled.body.WriteArgs?
        && (r.Err? <==> filled.body.ret == OF_SIZE_ERR)
        && (r.Err? ==> r.error == "Error writing stdout")
    {
      if stdout == NULL {
        return Err("stdout is not present");
      }
      var ret, filled := entry.Call(WriteFrame(stdout, msg));
      assert Shape(filled.body) == 1;
      SentOne(old(entry.log), Exchange(WriteFrame(stdout, msg), ret, filled));
      if filled.body.ret == OF_SIZE_ERR {
        r := Err("Error writing stdout");
      } else {
        r := Ok(());
      }
    }

    /** Writes `msg` and then a line break, whatever becomes of the first write. */
    method WriteLine(msg: Str)
      requires Valid()
      modifies entry.Repr
      ensures Valid()
      ensures stdout == NULL ==> entry.log == old(entry.log)
      ensures stdout != NULL ==>
        Firmware.Sent(old(entry.log), entry.log, [WriteFrame(stdout, msg), WriteFrame(stdout, "\n\r")])
    {
      var _ := WriteStdout(msg);
      var _ := WriteStdout("\n\r");
    }

    /** The package handle of the device at path `name`. */
    method FindDevice(name: Str) returns (r: Result<Word>)
      requires Valid()
      modifies entry.Repr
      ensures Valid()
      ensures Firmware.Sent(old(entry.log), entry.log, [FindDeviceFrame(name)])
      ensures var x := LastCall(entry.log);
        && x.filled.body.FindDeviceArgs?
        && (r.Err? <==> x.ret == OF_SIZE_ERR)
        && (r.Ok? ==> r.value == x.filled.body.phandle)
        && (r.Err? ==> r.error == "Could not retreive property")
    {
      var ret, filled := entry.Call(FindDeviceFrame(name));
      assert Shape(filled.body) == 2;
      SentOne(old(entry.log), Exchange(FindDeviceFrame(name), ret, filled));
      if ret == OF_SIZE_ERR {
        r := Err("Could not retreive property");
      } else {
        r := Ok(filled.body.phandle);
      }
    }

    /**
     * Reads property `prop` of package `phandle` into `buf`, whose size the caller
     * gives as `buflen`; `bufAfter` is the buffer as the firmware left it, and the
     * result the size the firmware reported.
     */
    method GetProperty(phandle: Word, prop: Str, buf: seq<Byte>, buflen: Word) returns (r: Result<Word>, bufAfter: seq<Byte>)
      requires Valid()
      modifies entry.Repr
      ensures Valid()
      ensures Firmware.Sent(old(entry.log), entry.log, [PropFrame(phandle, prop, buf, buflen)])
      ensures var x := LastCall(entry.log);
        && x.filled.body.PropArgs?
        && bufAfter == x.filled.body.buf
        && (r.Err? <==> x.ret == OF_SIZE_ERR)
        && (r.Ok? ==> r.value == x.filled.body.size)
        && (r.Err? ==> r.error == "Could not retreive property")
      ensures |bufAfter| == |buf|
    {
      var f := PropFrame(phandle, prop, buf, buflen);
      var ret, filled := entry.Call(f);
      assert Shape(filled.body) == 3;
      assert Inputs(filled.body)[2] == Inputs(f.body)[2] == Space(|buf|);
      SentOne(old(entry.log), Exchange(f, ret, filled));
      bufAfter := filled.body.buf;
      if ret == OF_SIZE_ERR {
        r := Err("Could not retreive property");
      } else {
        r := Ok(filled.body.size);
      }
    }

    /** Asks the firmware for `size` bytes aligned to `align`, at an address of its choosing. */
    method Claim(size: Word, align: Word) returns (r: Result<Word>)
      requires Valid()
      modifies entry.Repr
      ensures Valid()
      ensures align == 0 ==>
        r == Err("Could not allocate memory with alignment '0'") && entry.log == old(entry.log)
      ensures align != 0 ==>
        && Firmware.Sent(old(entry.log), entry.log, [ClaimFrame(size, align)])
        && var x := LastCall(entry.log);
        && x.filled.body.ClaimArgs?
        && (r.Err? <==> x.ret == OF_SIZE_ERR)
        && (r.Ok? ==> r.value == x.filled.body.ret)
        && (r.Err? ==> r.error == "Could not allocate memory")
    {
      if align == 0 {
        return Err("Could not allocate memory with alignment '0'");
      }
      var ret, filled := entry.Call(ClaimFrame(size, align));
      assert Shape(filled.body) == 4;
      SentOne(old(entry.log), Exchange(ClaimFrame(size, align), ret, filled));
      if ret == OF_SIZE_ERR {
        r := Err("Could not allocate memory");
      } else {
        r := Ok(filled.body.ret);
      }
    }

    /** Gives `size` bytes at `virt` back to the firmware; the outcome is discarded. */
    method Release(virt: Word, size: Word)
      requires Valid()
      modifies entry.Repr
      ensures Valid()
      ensures Firmware.Sent(old(entry.log), entry.log, [ReleaseFrame(virt, size)])
    {
      var ret, filled := entry.Call(ReleaseFrame(virt, size));
      SentOne(old(entry.log), Exchange(ReleaseFrame(virt, size), ret, filled));
    }

    /** Opens the device `dev`; failure is a null handle slot, whatever the entry returns. */
    method Open(dev: Str) returns (r: Result<Word>)
      requires Valid()
      modifies entry.Repr
      ensures Valid()
      ensures Firmware.Sent(old(entry.log), entry.log, [OpenFrame(dev)])
      ensures var filled := LastCall(entry.log).filled;
        && filled.body.OpenArgs?
        && (r.Err? <==> filled.body.handle == NULL)
        && (r.Ok? ==> r.value == filled.body.handle)
        && (r.Err? ==> r.error == "Could not open device")
    {
      var ret, filled := entry.Call(OpenFrame(dev));
      assert Shape(filled.body) == 6;
      SentOne(old(entry.log), Exchange(OpenFrame(dev), ret, filled));
      if filled.body.handle == NULL {
        r := Err("Could not open device");
      } else {
        r := Ok(filled.body.handle);
      }
    }

    /** Reads up to `size` bytes into `buffer`; failure is an `actual_size` of the sentinel. */
    method Read(handle: Word, buffer: Word, size: Word) returns (r: Result<Word>)
      requires Valid()
      modifies entry.Repr
      ensures Valid()
      ensures Firmware.Sent(old(entry.log), entry.log, [ReadFrame(handle, buffer, size)])
      ensures var filled := LastCall(entry.log).filled;
        && filled.body.ReadArgs?
        && (r.Err? <==> filled.body.actualSize == OF_SIZE_ERR)
        && (r.Ok? ==> r.value == filled.body.actualSize)
        && (r.Err? ==> r.error == "Could not read device")
    {
      var ret, filled := entry.Call(ReadFrame(handle, buffer, size));
      assert Shape(filled.body) == 7;
      SentOne(old(entry.log), Exchange(ReadFrame(handle, buffer, size), ret, filled));
      if filled.body.actualSize == OF_SIZE_ERR {
        r := Err("Could not read device");
      } else {
        r := Ok(filled.body.actualSize);
      }
    }

    method Close(handle: Word) returns (r: Result<()>)
      requires Valid()
      modifies entry.Repr
      ensures Valid()
      ensures Firmware.Sent(old(entry.log), entry.log, [CloseFrame(handle)])
      ensures var x := LastCall(entry.log);
        && (r.Err? <==> x.ret == OF_SIZE_ERR)
        && (r.Err? ==> r.error == "Could not close device")
    {
      var ret, filled := entry.Call(CloseFrame(handle));
      SentOne(old(entry.log), Exchange(CloseFrame(handle), ret, filled));
      if ret == OF_SIZE_ERR {
        r := Err("Could not close device");
      } else {
        r := Ok(());
      }
    }
  }

  // ---------------------------------------------------------------------------
  // The global environment, the allocator and the panic path

  /** `n` is a power of two. */
  predicate PowerOfTwo(n: nat)
  {
    n == 1 || (n > 1 && n % 2 == 0 && PowerOfTwo(n / 2))
  }

  datatype SizeAlign = SizeAlign(size: Word, align: Word)

  /** `core::alloc::Layout`: a size and an alignment, which is always a power of two. */
  type Layout = l: SizeAlign | PowerOfTwo(l.align) witness SizeAlign(0, 1)

  /** What `alloc` does: return an address, or panic (and so exit to the firmware). */
  datatype Allocation = Allocated(ptr: Word) | AllocPanicked

  /** What `of_init` does: return the initialised environment, or exit to the firmware. */
  datatype Boot = Booted(of: OF) | BootExited

  /** The process-wide state: `GLOBAL_OF`, which also serves as the heap allocator. */
  class Runtime {
    var global: OF
    /** The program has entered the endless loop after an `exit`; nothing runs any more. */
    ghost var stopped: bool

    /** The program still runs, over a usable global environment. */
    ghost predicate Valid()
      reads this, global, global.entry, global.entry.Repr
    {
      !stopped && global.Valid() && this !in global.entry.Repr
    }

    /** The program's start: the global has null handles and `fallback_entry`. */
    constructor ()
      ensures Valid() && fresh(global) && fresh(global.entry.Repr)
      ensures global.entry.kind == Firmware.Fallback && global.entry.log == []
      ensures global.chosen == NULL && global.stdout == NULL
    {
      var fallback := new Firmware.Entry.MakeFallback();
      global := new OF(fallback);
      stopped := false;
    }

    /** The panic handler: exit through the global environment. */
    method Panic()
      requires Valid()
      modifies this, global.entry.Repr
      ensures stopped && global == old(global)
      ensures global.entry.Valid() && !global.entry.Live()
      ensures ExitedAfter(old(global.entry.log), global.entry.log)
    {
      global.Exit();
      stopped := true;
    }

    /** `GlobalAlloc::alloc`: claim the layout from the firmware, or panic. */
    method Alloc(layout: Layout) returns (r: Allocation)
      requires Valid()
      modifies this, global.entry.Repr
      ensures global == old(global)
      ensures r.Allocated? ==> Valid()
      ensures r.AllocPanicked? ==> stopped && global.entry.Valid() && !global.entry.Live()
      ensures
        && |old(global.entry.log)| < |global.entry.log|
        && Firmware.Sent(old(global.entry.log), global.entry.log[..|old(global.entry.log)| + 1], [ClaimFrame(layout.size, layout.align)])
        && var x := global.entry.log[|old(global.entry.log)|].x;
        && x.filled.body.ClaimArgs?
        && (x.ret != OF_SIZE_ERR ==> r == Allocated(x.filled.body.ret) && |global.entry.log| == |old(global.entry.log)| + 1)
        && (x.ret == OF_SIZE_ERR ==>
              r == AllocPanicked && ExitedAfter(global.entry.log[..|old(global.entry.log)| + 1], global.entry.log))
    {
      var claimed := global.Claim(layout.size, layout.align);
      if claimed.Err? {
        Panic();
        return AllocPanicked;
      }
      r := Allocated(claimed.value);
    }

    /** `GlobalAlloc::dealloc`: release the layout's size at `ptr`. */
    method Dealloc(ptr: Word, layout: Layout)
      requires Valid()
      modifies global.entry.Repr
      ensures Valid()
      ensures Firmware.Sent(old(global.entry.log), global.entry.log, [ReleaseFrame(ptr, layout.size)])
    {
      global.Release(ptr, layout.size);
    }

    /**
     * `of_init`: initialise an environment over `entry` and install it as the global;
     * if that fails, send a bare `exit` through `entry` and stop the program.
     */
    method OfInit(entry: Firmware.Entry) returns (r: Boot)
      requires !stopped && entry.Valid() && entry.Live() && this !in entry.Repr
      modifies this, entry.Repr
      ensures entry.Valid()
      ensures entry.Live() <==> r.Booted?
      ensures stopped <==> r.BootExited?
      ensures r.Booted? ==>
        && fresh(r.of) && global == r.of && r.of.entry == entry && Valid()
        && Bootstrap(old(entry.log), entry.log, true, r.of.chosen, r.of.stdout)
      ensures r.BootExited? ==>
        && global == old(global)
        && 2 <= |entry.log|
        && var n := |entry.log| - 2;
        && Bootstrap(old(entry.log), entry.log[..n], false, NULL, NULL)
        && entry.log[n].Called? && entry.log[n].x.sent == RawExitFrame()
        && entry.log[n + 1] == Firmware.Exited
    {
      var made := OF.New(entry);
      if made.Err? {
        ghost var failed := entry.log;
        var ret, filled := entry.Call(RawExitFrame());
        entry.Halt();
        FailedBootThenExit(old(entry.log), failed, entry.log, Exchange(RawExitFrame(), ret, filled));
        stopped := true;
        return BootExited;
      }
      global := made.value;
      r := Booted(made.value);
    }
  }
}
