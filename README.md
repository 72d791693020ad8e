# ieee1275-rs: the Open Firmware client binding and its mock firmware

An IEEE 1275 (Open Firmware) firmware gives a client program one entry function.
The client builds a call frame and passes it in. A frame is a header (service name
with its NUL, `nargs`, `nret`), then the service's positional inputs, then its
output slots. The firmware fills the output slots in place and returns a word;
`usize::MAX` (`OF_SIZE_ERR`) is the failure sentinel.

This project models two parts of the repository.

- **The binding** (`src/lib.rs`).
  - The `OF` environment and its wrappers: `new`/`init`, `exit`, `write_stdout`,
    `write_line`, `find_device`, `get_property`, `claim`, `release`, `open`, `read`
    and `close`.
  - The heap allocator built on `claim`/`release`.
  - The global `GLOBAL_OF`, which starts out over `fallback_entry`.
  - `of_init` and the panic handler.
- **The mock firmware** (`test-runner/src/lib.rs`).
  - The handlers of `MockProm`.
  - The `mock_entry` dispatcher.
  - The lazily created `HEAP` map.
  - The `#[test]` scenarios, proved end to end against the binding.

Layout:

- `frames.dfy` (module `Frames`): words, bytes and the frame records. It holds one
  builder per frame the binding sends, each stating its header and its inputs and
  outputs in order. It also holds the little-endian encoding of a word in memory,
  which the `getprop` buffer of `init` needs.
- `mock.dfy` (module `Mock`): the mock's handlers, the dispatch by prefix, and the
  specification of one call (`Answer`, `Step`). The `MockProm` class holds the
  console, the heap and a `failed` flag, and its methods are proved against that
  specification.
- `firmware.dfy` (module `Firmware`): the entry function as an object `Entry` with
  a `Call(frame)` method and a ghost log of every exchange.
  - The three entry functions of the system are its three kinds: the fallback
    (fails every call), foreign firmware (may only rewrite output slots) and the mock.
  - `Valid()` says the log is a run that kind may produce, and for the mock that
    the mock's state is the log replayed.
- `binding.dfy` (module `Binding`): the `OF` class, and `Runtime` (the global with
  the allocator, the panic handler and `of_init`).
  - Each wrapper states which frame it sent (`Sent`) and how its result follows
    from the exchange.
  - The outcome rule differs per wrapper, exactly as in the source.
    - `write_stdout` reads the `ret` slot.
    - `find_device`, `get_property`, `claim` and `close` read the entry's return word.
    - `open` tests the handle slot for null.
    - `read` tests `actual_size`.
- `scenarios.dfy` (module `Scenarios`): the tests, plus a few more scenarios that
  state what the fallback entry and the outcome rules lead to.

Notes on the source as written:
- `src/lib.rs` has no `seek`, `call_method` or `get_block_size` wrapper, and it
  reports errors as fixed strings. The model has the strings, including the
  spelling "Could not retreive property".
- The `block-size` scenario therefore sends a `call-method` frame straight through
  the entry function, answered by the mock's `call_method` handler.
- `exit` declares `nargs: 1` but supplies no argument. The bootstrap-failure exit
  declares `nargs: 0`. Both are kept as written; `ExitFrame` states that its
  header does not match its contents.

## Model

| member | source | states |
|---|---|---|
| `Frames.ExitFrame` | src/lib.rs:89-99 | `exit` declares one argument and no result but carries no inputs, so its header does not conform |
| `Frames.RawExitFrame` | src/lib.rs:398-402 | the bootstrap-failure `exit` declares 0 arguments and 0 results and carries none |
| `Frames.WriteFrame` | src/lib.rs:116-126 | `write` (3/1) carries the console handle, the message and the message length, in that order; `ret` starts at 0 |
| `Frames.FindDeviceFrame` | src/lib.rs:151-159 | `finddevice` (1/1) carries the path; the phandle slot starts null |
| `Frames.PropFrame` | src/lib.rs:196-207 | `getprop` (4/1) carries phandle, property name, buffer and buffer length; `size` starts at 0 |
| `Frames.ClaimFrame` | src/lib.rs:235-245 | `claim` (3/1) carries a null address hint, the size and the alignment; `ret` starts null |
| `Frames.ReleaseFrame` | src/lib.rs:262-270 | `release` (2/0) carries the address and the size |
| `Frames.OpenFrame` | src/lib.rs:292-300 | `open` (1/1) carries the device path; the handle slot starts null |
| `Frames.ReadFrame` | src/lib.rs:336-346 | `read` (3/1) carries handle, buffer and size; `actual_size` starts at 0 |
| `Frames.CloseFrame` | src/lib.rs:363-370 | `close` (1/0) carries the handle |
| `Frames.LeValueBound` | src/lib.rs:76-81 | the value of `k` bytes is below 256^k, so eight bytes always hold a word |
| `Frames.LeRoundTrip` | src/lib.rs:76-81 | storing a number in `k` bytes and loading it back gives the number when it fits |
| `Frames.LeBytesOfValue` | src/lib.rs:76-81 | loading bytes and storing the value back gives the same bytes |
| `Frames.WordBytes` | test-runner/src/lib.rs:70-71 | a handle stored in memory occupies exactly `size_of::<usize>()` bytes |
| `Frames.WordRoundTrip` | test-runner/src/lib.rs:70-71 | a handle the firmware stores into the `getprop` buffer is the handle `init` reads back |
| `Frames.BytesRoundTrip` | src/lib.rs:76-84 | every eight-byte buffer is the stored form of the word read from it |
| `Mock.KeysExclusive` | test-runner/src/lib.rs:180-197 | two NUL-terminated keys that both prefix one service name are the same key |
| `Mock.KeysNulTerminated` | test-runner/src/lib.rs:180-197 | every key `mock_entry` tests ends in its only NUL |
| `Mock.RouteIsOrderFree` | test-runner/src/lib.rs:173-201 | whenever the service name starts with a handler's key, the if-chain selects that handler, whatever the order of the tests |
| `Mock.RouteByName` | test-runner/src/lib.rs:173-201 | each frame the binding builds reaches the handler for its own layout; `exit` reaches none and gets the sentinel |
| `Mock.FindDevice` | test-runner/src/lib.rs:46-59 | panics iff nargs/nret are not 1/1; writes phandle 0xdeadbeef and returns the word size iff the path starts with `/chosen\0`; otherwise returns the sentinel and leaves the frame alone |
| `Mock.Store` | test-runner/src/lib.rs:70-71 | the buffer after the store holds the stored bytes at its start and is otherwise unchanged |
| `Mock.GetProp` | test-runner/src/lib.rs:61-78 | panics iff nargs/nret are not 4/1, or the property is `stdout\0` and the buffer is shorter than a word; for `stdout\0` stores 0xdecafbad and sets and returns size = word size; otherwise sets size to the sentinel and returns it |
| `Mock.Open` | test-runner/src/lib.rs:134-144 | returns 0 iff the path starts with `disk\0`, and then sets the handle to 0xfeedd15c; otherwise returns the sentinel with the frame unchanged |
| `Mock.Read` | test-runner/src/lib.rs:146-149 | returns 0 and leaves the frame, `actual_size` included, unchanged |
| `Mock.Close` | test-runner/src/lib.rs:151-154 | returns 0 and leaves the frame unchanged |
| `Mock.CallMethod` | test-runner/src/lib.rs:156-170 | returns 0 iff the method starts with `block-size` and the handle is the disk's, and then sets result 0 and block size 512; otherwise returns the sentinel with the frame unchanged |
| `Mock.Zeros` | test-runner/src/lib.rs:114 | a fresh region of `n` bytes, all zero |
| `Mock.MockProm.constructor` | test-runner/src/lib.rs:34-39 | the mock starts with an empty console, no heap and no failure |
| `Mock.MockProm.Write` | test-runner/src/lib.rs:80-98 | panics iff nargs/nret are not 3/1; for the console handle appends exactly the `len` message bytes in order and returns `len`; otherwise returns the sentinel and leaves the console alone; the heap never changes |
| `Mock.MockProm.Claim` | test-runner/src/lib.rs:100-118 | creates the heap if absent; size `usize::MAX` sets `ret` to the sentinel and returns it without inserting; otherwise inserts a zero-filled region of `size` bytes at the returned address; a non-empty region gets an address no live region had, while an empty region always goes to address 1, replacing any region there; it panics only when the test process cannot allocate a non-empty region |
| `Mock.MockProm.Release` | test-runner/src/lib.rs:120-132 | removes exactly the given address; no heap stays no heap; always returns 0 |
| `Mock.MockProm.MockEntry` | test-runner/src/lib.rs:173-201 | one call leaves the frame's inputs alone, answers as `Answer` allows and moves the state as `Step` says; a panic in a handler is seen as the sentinel and marks the test failed |
| `Firmware.Entry.MakeFallback` | src/lib.rs:10-12 | the fallback entry starts with an empty log; `Valid` then forces the sentinel, with the frame untouched, on every call |
| `Firmware.Entry.Call` | src/lib.rs:50 | requires that the client has not exited; one call appends its exchange to the log, leaves the frame's inputs alone, and keeps the log a legal run of the entry's kind |
| `Firmware.Entry.Halt` | src/lib.rs:98 | the endless loop after `exit`: the entry stops being live, so no call and no second halt can follow, and `Exited` stays the last event of the log |
| `Binding.OF.constructor` | src/lib.rs:64-68 | a new environment has null `chosen` and `stdout` |
| `Binding.OF.New` | src/lib.rs:63-72 | `new` is `init` on a fresh environment: on success a new `OF` over the entry holds the two handles `init` found; any failure is an error |
| `Binding.OF.Init` | src/lib.rs:74-87 | first `finddevice("/chosen\0")`; only if that succeeds, `getprop(chosen, "stdout\0")` into a one-word buffer holding null; success iff both succeed, and then `chosen` is the phandle slot and `stdout` the word the firmware stored; on failure the handles are unchanged |
| `Binding.BootstrapKeepsStoredHandle` | src/lib.rs:76-84 | after a successful start-up, the console handle's eight stored bytes are exactly the bytes the firmware left in the `getprop` buffer |
| `Binding.OF.Exit` | src/lib.rs:89-99 | sends the `exit` frame and then stops for good: the entry is no longer live, so nothing can be called afterwards |
| `Binding.OF.WriteStdout` | src/lib.rs:102-134 | null `stdout` gives "stdout is not present" with no call; otherwise one `write` frame, and an error iff the `ret` slot is the sentinel, whatever the entry returned |
| `Binding.OF.WriteLine` | src/lib.rs:137-140 | exactly two writes, `msg` then `"\n\r"`, the second even when the first fails; no error surfaces; nothing is sent when `stdout` is null |
| `Binding.OF.FindDevice` | src/lib.rs:143-165 | one `finddevice` frame; an error iff the entry returns the sentinel, else the phandle slot |
| `Binding.OF.GetProperty` | src/lib.rs:179-213 | one `getprop` frame; an error iff the entry returns the sentinel, else the `size` slot; the buffer comes back as the firmware left it |
| `Binding.OF.Claim` | src/lib.rs:221-251 | alignment 0 gives an error with no call; otherwise one `claim` frame, and an error iff the entry returns the sentinel, else the `ret` slot |
| `Binding.OF.Release` | src/lib.rs:254-273 | sends exactly one `release` frame and discards the outcome |
| `Binding.OF.Open` | src/lib.rs:284-308 | one `open` frame; an error iff the handle slot is null, whatever the entry returned; else the handle |
| `Binding.OF.Read` | src/lib.rs:321-354 | one `read` frame; an error iff `actual_size` is the sentinel, whatever the entry returned, so reading 0 bytes succeeds; else `actual_size` |
| `Binding.OF.Close` | src/lib.rs:356-376 | one `close` frame; an error iff the entry returns the sentinel |
| `Binding.Runtime.constructor` | src/lib.rs:14-19 | the global starts with null handles over the fallback entry, with nothing called yet |
| `Binding.Runtime.Panic` | src/lib.rs:23-28 | a panic sends `exit` through the global environment and stops the program: the runtime is marked stopped, so nothing more can run through it, and the global entry is no longer live |
| `Binding.Runtime.Alloc` | src/lib.rs:379-387 | a `Layout`'s alignment is a power of two, so `alloc` always sends one `claim` of the layout's size and alignment through the global; it returns the `ret` slot when the entry does not return the sentinel, and otherwise panics into `exit`, after which the program is stopped and the global entry is no longer live |
| `Binding.Runtime.Dealloc` | src/lib.rs:389-391 | `dealloc` always sends one `release` of the pointer and the layout's size |
| `Binding.Runtime.OfInit` | src/lib.rs:394-414 | requires a running program; the entry stays live iff start-up succeeds, and the program stops iff it fails; on success the initialised environment becomes the global; on failure a 0/0 `exit` goes through the raw entry, the runtime is marked stopped so no `alloc`, `dealloc`, panic or second `of_init` can follow, and the global is unchanged |
| `Scenarios.MockBootstrap` | test-runner/src/lib.rs:46-78 | against the mock, from any state, `init` succeeds with `/chosen` at 0xdeadbeef and the console at 0xdecafbad, and changes nothing in the mock |
| `Scenarios.BootMock` | test-runner/src/lib.rs:208 | `PROM::new(mock_entry)` succeeds and leaves the mock in its initial state |
| `Scenarios.PromNew` | test-runner/src/lib.rs:206-213 | start-up yields chosen 0xdeadbeef and stdout 0xdecafbad |
| `Scenarios.WriteStep` | test-runner/src/lib.rs:87-94 | a write frame to the console appends the whole message to the mock's console |
| `Scenarios.WriteLineScenario` | test-runner/src/lib.rs:215-221 | `write_line("one two three")` leaves the console as `"one two three\n\r"` |
| `Scenarios.ClaimRelease` | test-runner/src/lib.rs:223-258 | `claim(4, 1)` gives an address whose heap region is four zero bytes, and after `release` the address is absent; the claim fails only when the test has failed |
| `Scenarios.MockClaimFour` | test-runner/src/lib.rs:100-118 | from a mock without a heap, `claim(4, 1)` either fails and marks the test failed, or creates the heap with one zero-filled four-byte region at the address returned in `ret` |
| `Scenarios.MockReleaseStep` | test-runner/src/lib.rs:120-132 | a `release` takes exactly its address out of an existing heap |
| `Scenarios.MockOpensDisk` | test-runner/src/lib.rs:134-144 | the mock answers `open("disk\0")` with 0 and the disk handle 0xfeedd15c in the handle slot |
| `Scenarios.OpenDisk` | test-runner/src/lib.rs:271-277 | `open("disk\0")` gives the disk handle 0xfeedd15c |
| `Scenarios.BlockSizeFrame` | test-runner/src/lib.rs:156-165 | the `call-method` frame for `block-size` carries the method name and the handle, with two result slots |
| `Scenarios.MockBlockSize` | test-runner/src/lib.rs:156-170 | the mock answers `block-size` on the disk handle with 0, result 0 and block size 512 |
| `Scenarios.BlockSize` | test-runner/src/lib.rs:260-268 | the opened disk answers `block-size` with result 0 and block size 512 |
| `Scenarios.WriteWithoutConsole` | src/lib.rs:112-114 | an environment whose console is still null refuses to write, and the mock's console stays empty |
| `Scenarios.WriteToUnknownHandle` | src/lib.rs:128-133 | a write to a handle the mock does not know is reported as success: the mock returns the sentinel but leaves `ret` alone, and the binding reads only `ret` |
| `Scenarios.AllocBeforeInit` | src/lib.rs:379-387 | before `of_init`, `claim` through the global fails and `alloc` panics |
| `Scenarios.BootWithoutFirmware` | src/lib.rs:394-406 | `of_init` over an entry that fails every call exits instead of returning: the runtime is no longer usable, and the global keeps its fallback entry |
| `Scenarios.BootOverForeignFirmware` | src/lib.rs:63-87 | over firmware known only to leave inputs alone, start-up first asks for `/chosen`, makes at most two calls, and succeeds only after exactly two |

## Left out

- Memory layout: `#[repr(C)]`, raw-pointer casts, `transmute` and `from_raw_parts`
  over the fixed `MAX_SERVICE_LENGTH`/`MAX_DEVICE_LENGTH` windows are not modelled.
  Frames are records, pointers to strings are the strings themselves, and handles
  and addresses are plain numbers.
- Divergence: the `loop {}` after `exit`, the panic handler and the failure path of
  `of_init` are modelled as an `Exited` event, not as non-termination. `Exited` ends
  the log: `Call` and `Halt` require a live entry, and after `Halt` the entry is
  no longer live. The runtime also records the stop (`stopped`), so its own
  operations cannot run after a panic or a failed `of_init`.
- `Binding.OF.Exit`: the stop belongs to the entry the `exit` went through. An `OF`
  object over a different entry, and the fallback global reached directly rather
  than through the runtime, still accept calls in the model, whereas the source's
  `loop {}` stops the whole program.
- `static mut` aliasing: `GLOBAL_OF` is the `global` field of `Runtime`, and
  `MOCK`/`HEAP` are the fields of one `MockProm` object.
- `of_init` copies `OF`, which is `Copy`, into the global. The model shares one
  object, so the global and the returned environment are the same object.
- Real firmware behaviour (device tree, console hardware) is foreign. It is
  constrained only by leaving a frame's inputs alone.
- Message formatting: the `println!` of the mock for unknown services and the
  panic message of `alloc` are not modelled.
- The `format!("{:p}")` handle comparison in the mock's `write` is modelled as a
  comparison of handle numbers.
- `Mock.MockProm.Claim`: the address comes from the test process's allocator,
  which is outside the model. It is a nondeterministic choice of an address no live
  region has, or 1 for an empty region, which replaces any region already at 1.
  A non-empty allocation the process cannot
  make (including one over `isize::MAX` bytes) is a panic of the handler.
- `Mock.MockProm.MockEntry`: a handler panic (a failed `assert_eq!` or `assert!`,
  or an allocation the test process cannot make) unwinds out of `mock_entry` or
  aborts the process in the source. The model answers the sentinel with the frame
  unchanged, sets `failed`, and lets execution continue.
- `Mock.GetProp`: a store through a buffer shorter than a word cannot happen after
  the length assertion. Bytes written past the buffer are not part of the model.
- One `char` stands for one byte of a message; the mock's `*i as char` conversion
  is the identity here.
- Word order in memory is little-endian in the model. The binding and the mock
  share the host's order, so only the round trip matters.
- The test `claim_release` writes 1, 2, 3, 4 through the returned pointer and
  compares the heap region with it. The model has no memory behind addresses, so
  it checks the region's zero-filled contents right after `claim` instead.
- The tests call an API that is not in `src/lib.rs` (`PROM`, `services::*`,
  `get_block_size`). The scenarios call the `OF` wrappers instead. `block_size`
  sends its `call-method` frame straight through the entry.
- The empty tests `read` and `close` have nothing to state.
- `template/src/main.rs` and `src/main.rs` are not part of this model. They are an
  example boot program and an empty entry stub.
