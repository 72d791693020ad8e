/**
 * The firmware's entry function, as the binding sees it: an object whose `Call`
 * takes a frame, may fill its output slots, and returns a word. A ghost log records
 * every frame received, what came back, and the point where the client stopped for
 * good after `exit`.
 *
 * Three entry functions exist in the system: `fallback_entry`, which fails every
 * call; the real firmware, which is foreign and only promised to leave the inputs of
 * a frame alone; and the test runner's mock.
 */
module Firmware {
  import opened Wrappers
  import opened Frames
  import Mock

  datatype Kind = Fallback | Foreign | Mocked(prom: Mock.MockProm)

  /** One entry in the log: a call, or the client entering the endless loop after `exit`. */
  datatype Event = Called(x: Exchange) | Exited

  /** What an entry of the given kind may answer to `x.sent`, the mock being in state `st`. */
  ghost predicate Answered(kind: Kind, st: Mock.MockState, x: Exchange)
  {
    && WellFormed(x.sent)
    && SameInputs(x.sent, x.filled)
    && match kind
       case Fallback => x.ret == OF_SIZE_ERR && x.filled == x.sent
       case Foreign => true
       case Mocked(_) => Mock.Answer(st, x)
  }

  /** The mock's state after it has answered every call of `log`, starting from `base`. */
  ghost function Replay(base: Mock.MockState, log: seq<Event>): Mock.MockState
  {
    if log == [] then base
    else
      var prev := Replay(base, log[..|log| - 1]);
      var e := log[|log| - 1];
      if e.Called? then Mock.Step(prev, e.x) else prev
  }

  /** Every call in `log` was answered as an entry of this kind may answer. */
  ghost predicate Legal(kind: Kind, base: Mock.MockState, log: seq<Event>)
  {
    log == [] ||
    (var prefix := log[..|log| - 1];
     var e := log[|log| - 1];
     Legal(kind, base, prefix) && (e.Called? ==> Answered(kind, Replay(base, prefix), e.x)))
  }

  lemma LegalSnoc(kind: Kind, base: Mock.MockState, log: seq<Event>, e: Event)
    ensures Legal(kind, base, log + [e]) <==>
      Legal(kind, base, log) && (e.Called? ==> Answered(kind, Replay(base, log), e.x))
    ensures Replay(base, log + [e]) == if e.Called? then Mock.Step(Replay(base, log), e.x) else Replay(base, log)
  {
    assert (log + [e])[..|log|] == log;
  }

  /** Every prefix of a legal run is a legal run. */
  lemma {:induction false} LegalPrefix(kind: Kind, base: Mock.MockState, log: seq<Event>, n: nat)
    requires Legal(kind, base, log) && n <= |log|
    ensures Legal(kind, base, log[..n])
  {
    if n < |log| {
      var prefix := log[..|log| - 1];
      LegalPrefix(kind, base, prefix, n);
      assert prefix[..n] == log[..n];
    } else {
      assert log[..n] == log;
    }
  }

  /**
   * In a legal run, the `k`-th call was answered as the entry may answer in the state
   * left by the calls before it, and moved the mock on by one step.
   */
  lemma LegalAt(kind: Kind, base: Mock.MockState, log: seq<Event>, k: nat)
    requires Legal(kind, base, log) && k < |log| && log[k].Called?
    ensures Answered(kind, Replay(base, log[..k]), log[k].x)
    ensures Replay(base, log[..k + 1]) == Mock.Step(Replay(base, log[..k]), log[k].x)
  {
    LegalPrefix(kind, base, log, k + 1);
    assert log[..k + 1][..k] == log[..k];
  }

  /** `after` is `before` followed by one call per frame of `frames`, in order. */
  ghost predicate Sent(before: seq<Event>, after: seq<Event>, frames: seq<Frame>)
  {
    && |after| == |before| + |frames|
    && after[..|before|] == before
    && forall k :: |before| <= k < |after| ==> after[k].Called? && after[k].x.sent == frames[k - |before|]
  }

  class Entry {
    const kind: Kind
    /** The mock's state when this entry was created. */
    ghost const base: Mock.MockState
    ghost var log: seq<Event>
    ghost const Repr: set<object>

    ghost predicate Valid()
      reads this, Repr
    {
      && this in Repr
      && (kind.Mocked? ==> kind.prom in Repr && kind.prom.State() == Replay(base, log))
      && Legal(kind, base, log)
    }

    /** The client has not exited: calls can still be made. */
    ghost predicate Live()
      reads this
    {
      Exited !in log
    }

    /** `fallback_entry`: the entry `GLOBAL_OF` holds until `of_init`. */
    constructor MakeFallback()
      ensures kind == Fallback && log == [] && Valid() && fresh(Repr)
    {
      kind := Fallback;
      base := Mock.MockState("", None, false);
      log := [];
      Repr := {this};
    }

    /** The firmware's own entry, passed to the program's start routine. */
    constructor MakeForeign()
      ensures kind == Foreign && log == [] && Valid() && fresh(Repr)
    {
      kind := Foreign;
      base := Mock.MockState("", None, false);
      log := [];
      Repr := {this};
    }

    /** `mock_entry` over the given mock. */
    constructor MakeMock(prom: Mock.MockProm)
      ensures kind == Mocked(prom) && base == prom.State() && log == [] && Valid()
      ensures Repr == {this, prom} && fresh(Repr - {prom})
    {
      kind := Mocked(prom);
      base := prom.State();
      log := [];
      Repr := {this, prom};
    }

    /** One call through the entry function. */
    method Call(f: Frame) returns (ret: Word, filled: Frame)
      requires Valid() && Live() && WellFormed(f)
      modifies Repr
      ensures Valid() && Live()
      ensures log == old(log) + [Called(Exchange(f, ret, filled))]
      ensures SameInputs(f, filled)
    {
      match kind {
        case Fallback =>
          ret, filled := OF_SIZE_ERR, f;
        case Foreign =>
          // Whatever the firmware answers; it only writes output slots.
          assert SameInputs(f, f);
          ret :| true;
          filled :| SameInputs(f, filled);
        case Mocked(prom) =>
          ret, filled := prom.MockEntry(f);
      }
      LegalSnoc(kind, base, log, Called(Exchange(f, ret, filled)));
      log := log + [Called(Exchange(f, ret, filled))];
    }

    /**
     * The client enters `loop {}` after `exit`. The entry is no longer live, and as
     * `Call` and `Halt` both need a live entry, `Exited` stays the last event.
     */
    method Halt()
      requires Valid() && Live()
      modifies this
      ensures Valid() && !Live() && log == old(log) + [Exited]
    {
      LegalSnoc(kind, base, log, Exited);
      log := log + [Exited];
    }
  }
}
