/**
 The FIFO queue of both dispatchers, as a value: everything ever pushed and how
 much of it was taken, so that `Contents` is what the queue object holds now.
 The step systems use these functions, and the queue class refines them.
 */
module Fifo {
  import opened Basics

  /** `wire` lists the positions whose requests were written, oldest first. */
  datatype Log<T> = Log(pushed: seq<T>, taken: nat, wire: seq<nat>)

  function Fresh<T>(): Log<T> { Log([], 0, []) }

  function Front<T>(q: Log<T>): Option<T> {
    if q.taken < |q.pushed| then Some(q.pushed[q.taken]) else None
  }

  function Contents<T>(q: Log<T>): seq<T> {
    if q.taken <= |q.pushed| then q.pushed[q.taken..] else []
  }

  predicate Full<T>(q: Log<T>, capacity: nat) { capacity > 0 && |q.pushed| - q.taken >= capacity }

  function Push<T>(q: Log<T>, x: T): Log<T> { q.(pushed := q.pushed + [x]) }

  function Pop<T>(q: Log<T>): Log<T> { q.(taken := q.taken + 1) }

  function Drain<T>(q: Log<T>): Log<T> { q.(taken := |q.pushed|) }

  function Wrote<T>(q: Log<T>, i: nat): Log<T> { q.(wire := q.wire + [i]) }
}
