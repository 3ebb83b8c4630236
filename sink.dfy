/** The `ILogger` the loggers write to, as an append-only list of
    `(level, text)` entries, and the value a logging call is specified by:
    the entries it appends and the exception, if any, it lets escape. */
module Sinks {
  import opened Wrappers
  import opened Exceptions

  datatype Level = Trace | Debug | Information | Warning | Error

  datatype Entry = Entry(level: Level, text: string)

  /** A logger: its category name and everything written to it so far. */
  class Sink {
    const category: string
    var entries: seq<Entry>

    constructor(category: string)
      ensures this.category == category && entries == []
    {
      this.category := category;
      entries := [];
    }

    /** `LogTrace`, `LogDebug`, ... with the message template "{message}":
        one entry holding the message at that level. */
    method Log(level: Level, text: string)
      modifies this
      ensures entries == old(entries) + [Entry(level, text)]
    {
      entries := entries + [Entry(level, text)];
    }
  }

  /** What one logging call does: the entries it appends, in order, and
      the exception it throws after them, if any. */
  datatype Emission = Emission(entries: seq<Entry>, thrown: Option<Exception>) {
    /** This call followed by `next`: once an exception escapes, nothing
        after it runs. */
    function Then(next: Emission): (r: Emission)
      ensures thrown.Some? ==> r == this
      ensures thrown.None? ==> r == Emission(entries + next.entries, next.thrown)
    {
      if thrown.Some? then this else Emission(entries + next.entries, next.thrown)
    }
  }

  const Nothing: Emission := Emission([], None)

  /** Running three calls one after the other does not depend on how they
      are grouped. */
  lemma ThenAssociative(a: Emission, b: Emission, c: Emission)
    ensures a.Then(b).Then(c) == a.Then(b.Then(c))
  {
    if a.thrown.None? && b.thrown.None? {
      assert (a.entries + b.entries) + c.entries == a.entries + (b.entries + c.entries);
    }
  }

  /** Appending in turn is appending the concatenation. */
  lemma AppendedTwice(log: seq<Entry>, a: seq<Entry>, b: seq<Entry>)
    ensures log + a + b == log + (a + b)
  {
  }

  lemma AppendedInTurn(log: seq<Entry>, a: seq<Entry>, b: seq<Entry>, c: seq<Entry>)
    ensures log + a + b + c == log + (a + (b + c))
  {
  }

  /** Doing nothing first or last changes nothing. */
  lemma ThenNothing(a: Emission)
    ensures Nothing.Then(a) == a && a.Then(Nothing) == a
  {
    assert [] + a.entries == a.entries;
    assert a.entries + [] == a.entries;
  }

  /** One entry and no exception. */
  function Emit(level: Level, text: string): Emission {
    Emission([Entry(level, text)], None)
  }

  /** An exception before anything is written. */
  function Throw(e: Exception): Emission {
    Emission([], Some(e))
  }

  /** Every exception an emission lets escape is a runtime fault. */
  predicate ThrowsFaultsOnly(e: Emission) {
    e.thrown.Some? ==> IsRuntimeFault(e.thrown.value)
  }

  /** Calls made one after the other, stopping at the first that throws. */
  function InTurn(calls: seq<Emission>): Emission {
    if calls == [] then Nothing else calls[0].Then(InTurn(calls[1..]))
  }

  /** Calls that throw only runtime faults, made in turn, throw only
      runtime faults. */
  lemma {:induction false} InTurnFaultsOnly(calls: seq<Emission>)
    requires forall k | 0 <= k < |calls| :: ThrowsFaultsOnly(calls[k])
    ensures ThrowsFaultsOnly(InTurn(calls))
  {
    if calls != [] {
      assert ThrowsFaultsOnly(calls[0]);
      assert forall k | 0 <= k < |calls[1..]| :: calls[1..][k] == calls[k + 1];
      InTurnFaultsOnly(calls[1..]);
    }
  }

  /** Peeling the `i`-th call off the calls from `i` on. */
  lemma InTurnStep(calls: seq<Emission>, i: nat)
    requires i < |calls|
    ensures InTurn(calls[i..]) == calls[i].Then(InTurn(calls[i + 1..]))
  {
    assert calls[i..][1..] == calls[i + 1..];
  }

  /** One step of a loop that makes calls in turn: the call just made
      joins what is done, and once it throws, what is done is the whole
      outcome. */
  lemma Advance(done: Emission, step: Emission, rest: Emission, whole: Emission)
    requires done.thrown.None? && done.Then(step.Then(rest)) == whole
    ensures done.Then(step).Then(rest) == whole
    ensures done.Then(step) == Emission(done.entries + step.entries, step.thrown)
    ensures step.thrown.Some? ==> done.Then(step) == whole
  {
    ThenAssociative(done, step, rest);
  }

  /** Every entry written by calls in turn is an entry one of them writes. */
  lemma {:induction false} InTurnEntries(calls: seq<Emission>, e: Entry)
    requires e in InTurn(calls).entries
    ensures exists k | 0 <= k < |calls| :: e in calls[k].entries
  {
    if calls != [] {
      if e !in calls[0].entries {
        InTurnEntries(calls[1..], e);
        var k :| 0 <= k < |calls[1..]| && e in calls[1..][k].entries;
        assert calls[1..][k] == calls[k + 1];
      }
    }
  }
}
