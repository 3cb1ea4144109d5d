/**
 Teardown of one websocket: writers and closers that hold the read lock across
 a channel send, readPump, writePump, and the cleanup only writePump runs. A
 send on a closed channel, a second close of a channel and a use of the nil
 connection are modelled as panics, and none is reachable.
 */
module SocketTeardown {
  import opened Basics

  const OUT_QUEUE_CAPACITY := 2

  /** A WriteManual or Close call: before the read lock, or inside its select. */
  datatype Call = Begun | Selecting
  datatype Read = Reading | Failed | Forcing | ReadExit
  datatype Pump = Idle | Writing | Closing | Locking | Notifying | PumpExit

  datatype State = State(
    connected: bool,              // connection != nil
    doneClosed: bool,
    channelsClosed: bool,         // outQueue, closeC and forceCloseC
    out: nat, close: nat, force: nat,   // elements buffered in each
    writers: map<nat, Call>,
    closers: map<nat, Call>,
    read: Read,
    pump: Pump,
    cleanups: nat,                // cleanup calls so far
    notified: nat,                // onClosed calls so far
    panicked: bool)

  function Init(): State { State(true, false, false, 0, 0, 0, map[], map[], Reading, Idle, 0, 0, false) }

  datatype Step =
    | WriteCall(t: nat) | WriteLock(t: nat) | WriteSend(t: nat) | WriteAbort(t: nat)
    | CloseCall(t: nat) | CloseLock(t: nat) | CloseSend(t: nat) | CloseAbort(t: nat)
    | ReadFails | ReadLock | ReadForce
    | TakeOut | TakeTick | TakeClose | TakeForce | WriteDone(ok: bool) | CloseDoneC | Cleanup | Notify

  /** RWMutex prefers writers: a waiting cleanup keeps new readers out. */
  predicate MayReadLock(s: State) { !s.pump.Locking? }

  predicate Holds(m: map<nat, Call>, t: nat) { t in m && m[t].Selecting? }

  predicate NoReaders(s: State) {
    && (forall t :: t in s.writers ==> !s.writers[t].Selecting?)
    && (forall t :: t in s.closers ==> !s.closers[t].Selecting?)
    && !s.read.Forcing?
  }

  predicate WriterNext(s: State, l: Step, s': State) {
    match l
    case WriteCall(t) => t !in s.writers && s' == s.(writers := s.writers[t := Begun])
    case WriteLock(t) =>
      && Lookup(s.writers, t) == Some(Begun) && MayReadLock(s)
      && s' == s.(writers := if s.connected then s.writers[t := Selecting] else s.writers - {t})
    case WriteSend(t) =>
      && Holds(s.writers, t) && (s.out < OUT_QUEUE_CAPACITY || s.channelsClosed)
      && s' == s.(writers := s.writers - {t}, out := s.out + 1, panicked := s.panicked || s.channelsClosed)
    case WriteAbort(t) => Holds(s.writers, t) && s.doneClosed && s' == s.(writers := s.writers - {t})
    case _ => false
  }

  predicate CloserNext(s: State, l: Step, s': State) {
    match l
    case CloseCall(t) => t !in s.closers && s' == s.(closers := s.closers[t := Begun])
    case CloseLock(t) =>
      && Lookup(s.closers, t) == Some(Begun) && MayReadLock(s)
      && s' == s.(closers := if s.connected then s.closers[t := Selecting] else s.closers - {t})
    case CloseSend(t) =>
      && Holds(s.closers, t) && (s.close < 1 || s.channelsClosed)
      && s' == s.(closers := s.closers - {t}, close := s.close + 1, panicked := s.panicked || s.channelsClosed)
    case CloseAbort(t) => Holds(s.closers, t) && s.doneClosed && s' == s.(closers := s.closers - {t})
    case _ => false
  }

  predicate ReadNext(s: State, l: Step, s': State) {
    match l
    case ReadFails => s.read.Reading? && s' == s.(read := Failed)
    case ReadLock => s.read.Failed? && MayReadLock(s) && s' == s.(read := if s.connected then Forcing else ReadExit)
    case ReadForce =>
      && s.read.Forcing? && (s.force < 1 || s.channelsClosed)
      && s' == s.(read := ReadExit, force := s.force + 1, panicked := s.panicked || s.channelsClosed)
    case _ => false
  }

  /** The writePump's select; a receive from a closed outQueue would end the pump without cleanup. */
  predicate PumpNext(s: State, l: Step, s': State) {
    match l
    case TakeOut =>
      && s.pump.Idle? && (s.out > 0 || s.channelsClosed)
      && s' == if s.out > 0 then s.(pump := Writing, out := s.out - 1) else s.(pump := PumpExit)
    case TakeTick => s.pump.Idle? && s' == s.(pump := Writing)
    case TakeClose => s.pump.Idle? && (s.close > 0 || s.channelsClosed) && s' == s.(pump := Closing, close := if s.close > 0 then s.close - 1 else 0)
    case TakeForce => s.pump.Idle? && (s.force > 0 || s.channelsClosed) && s' == s.(pump := Closing, force := if s.force > 0 then s.force - 1 else 0)
    case WriteDone(ok) => s.pump.Writing? && s' == s.(pump := if ok then Idle else Closing)
    case CloseDoneC =>
      s.pump.Closing? && s' == s.(pump := Locking, cleanups := s.cleanups + 1, doneClosed := true, panicked := s.panicked || s.doneClosed)
    case Cleanup =>
      && s.pump.Locking? && NoReaders(s)
      && s' == s.(pump := Notifying, connected := false, channelsClosed := true, panicked := s.panicked || !s.connected || s.channelsClosed)
    case Notify => s.pump.Notifying? && s' == s.(pump := PumpExit, notified := s.notified + 1)
    case _ => false
  }

  predicate Next(s: State, l: Step, s': State) {
    WriterNext(s, l, s') || CloserNext(s, l, s') || ReadNext(s, l, s') || PumpNext(s, l, s')
  }

  // ---- invariants ----

  predicate Torn(p: Pump) { p.Notifying? || p.PumpExit? }

  /** The flags say exactly how far writePump is. */
  predicate FlagsOk(s: State) {
    && (s.connected <==> !Torn(s.pump)) && (s.channelsClosed <==> Torn(s.pump))
    && (s.doneClosed <==> s.pump.Locking? || Torn(s.pump))
    && s.cleanups == (if s.pump.Locking? || Torn(s.pump) then 1 else 0)
    && s.notified == (if s.pump.PumpExit? then 1 else 0)
    && !s.panicked
  }

  /** Nobody is inside a send once the channels are closed. */
  predicate HoldersOk(s: State) { s.channelsClosed ==> NoReaders(s) }

  /** The read error is posted at most once. */
  predicate ForceOk(s: State) { s.force > 0 ==> s.read.ReadExit? }

  predicate Inv(s: State) { FlagsOk(s) && HoldersOk(s) && ForceOk(s) }

  lemma InvStep(s: State, l: Step, s': State)
    requires Inv(s) && Next(s, l, s')
    ensures Inv(s')
  {
    if WriterNext(s, l, s') {
    } else if CloserNext(s, l, s') {
    } else if ReadNext(s, l, s') {
    } else {
      assert PumpNext(s, l, s');
    }
  }

  lemma {:induction false} InvInRun(states: seq<State>, steps: seq<Step>, n: nat)
    requires IsChain(states, steps, Next) && states[0] == Init() && n < |states|
    ensures Inv(states[n])
  {
    if n > 0 {
      InvInRun(states, steps, n - 1);
      InvStep(states[n - 1], steps[n - 1], states[n]);
    }
  }

  /** In every run cleanup begins at most once, the disconnect is notified at
      most once, and nobody sends on or closes a closed channel. */
  lemma TeardownIsSafe(states: seq<State>, steps: seq<Step>, n: nat)
    requires IsChain(states, steps, Next) && states[0] == Init() && n < |states|
    ensures !states[n].panicked && states[n].cleanups <= 1 && states[n].notified <= states[n].cleanups
    ensures states[n].channelsClosed ==> NoReaders(states[n])
  {
    InvInRun(states, steps, n);
  }

  // ---- a waiting cleanup gets the lock ----

  function Selecters(m: map<nat, Call>): set<nat> { set t | t in m && m[t].Selecting? }

  function Readers(s: State): nat {
    |Selecters(s.writers)| + |Selecters(s.closers)| + (if s.read.Forcing? then 1 else 0)
  }

  lemma Leaves(m: map<nat, Call>, t: nat)
    requires Holds(m, t)
    ensures |Selecters(m - {t})| + 1 == |Selecters(m)|
  {
    assert Selecters(m) == Selecters(m - {t}) + {t};
  }

  lemma Begins(m: map<nat, Call>, t: nat)
    requires t !in m
    ensures Selecters(m[t := Begun]) == Selecters(m)
  {
  }

  /** A writer or closer in its select never waits for good: it can go on, or
      writePump, which takes no lock before `done` is closed, is on its way. */
  lemma CallIsServed(s: State, t: nat, writing: bool) returns (l: Step, s': State)
    requires Inv(s) && Holds(if writing then s.writers else s.closers, t)
    ensures Next(s, l, s')
    ensures (if writing then l in {WriteSend(t), WriteAbort(t)} else l in {CloseSend(t), CloseAbort(t)}) || PumpNext(s, l, s')
  {
    if s.doneClosed {
      if writing { l, s' := WriteAbort(t), s.(writers := s.writers - {t}); }
      else { l, s' := CloseAbort(t), s.(closers := s.closers - {t}); }
    } else {
      match s.pump
      case Idle =>
        if s.out > 0 { l, s' := TakeOut, s.(pump := Writing, out := s.out - 1); }
        else if s.close > 0 { l, s' := TakeClose, s.(pump := Closing, close := s.close - 1); }
        else if writing { l, s' := WriteSend(t), s.(writers := s.writers - {t}, out := s.out + 1); }
        else { l, s' := CloseSend(t), s.(closers := s.closers - {t}, close := s.close + 1); }
      case Writing => l, s' := WriteDone(true), s.(pump := Idle);
      case Closing => l, s' := CloseDoneC, s.(pump := Locking, cleanups := s.cleanups + 1, doneClosed := true);
    }
  }

  /** Everybody the cleanup waits for can leave at once: a blocked writer or
      closer through `done`, the readPump because its channel is empty. */
  lemma ReaderReleased(s: State) returns (l: Step, s': State)
    requires Inv(s) && s.pump.Locking? && !NoReaders(s)
    ensures Next(s, l, s') && s'.pump.Locking? && Readers(s') < Readers(s)
  {
    if t :| t in s.writers && s.writers[t].Selecting? {
      Leaves(s.writers, t);
      l, s' := WriteAbort(t), s.(writers := s.writers - {t});
    } else if t :| t in s.closers && s.closers[t].Selecting? {
      Leaves(s.closers, t);
      l, s' := CloseAbort(t), s.(closers := s.closers - {t});
    } else {
      l, s' := ReadForce, s.(read := ReadExit, force := s.force + 1);
    }
  }

  /** While cleanup waits, no step of anybody adds a reader. */
  lemma NoNewReader(s: State, l: Step, s': State)
    requires Inv(s) && s.pump.Locking? && Next(s, l, s') && s'.pump.Locking?
    ensures Readers(s') <= Readers(s)
  {
    match l
    case WriteSend(t) => Leaves(s.writers, t);
    case WriteAbort(t) => Leaves(s.writers, t);
    case CloseSend(t) => Leaves(s.closers, t);
    case CloseAbort(t) => Leaves(s.closers, t);
    case WriteCall(t) => Begins(s.writers, t);
    case CloseCall(t) => Begins(s.closers, t);
    case _ =>
  }

  /** From every reachable state with a cleanup waiting there is a way, by steps
      of the readers alone, to the write lock. */
  lemma {:induction false} CleanupGetsTheLock(s: State) returns (states: seq<State>, steps: seq<Step>)
    requires Inv(s) && s.pump.Locking?
    ensures IsChain(states, steps, Next) && states[0] == s
    ensures states[|steps|].pump.Locking? && NoReaders(states[|steps|])
    ensures |steps| <= Readers(s)
    decreases Readers(s)
  {
    if NoReaders(s) {
      states, steps := [s], [];
    } else {
      var l, s' := ReaderReleased(s);
      InvStep(s, l, s');
      var rest, tail := CleanupGetsTheLock(s');
      states, steps := [s] + rest, [l] + tail;
    }
  }
}
