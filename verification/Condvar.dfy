/**
  Waiting on a condition variable, core/condvar.cc, as a step system: threads
  wait with or without a timeout, and wakers hand them to the user mutex, which
  wakes each of them when it is its turn to hold it ("wait morphing").
  A step is what happens under the internal lock of the condition variable.
 */
module Condvar {

  datatype Option<T> = None | Some(value: T)

  datatype Pc =
    | Out                       // not in wait()
    | Sleeping
    | Removing                  // the timer expired before the record was woken
    | WaitAgain                 // the record was no longer queued
    | Relock                    // took its record off the queue; locks the mutex

  /** Where the wait record of a thread is; bookkeeping, no step looks at it. */
  datatype Place = Nowhere | InFifo | InBatch(i: nat) | InMutex | Given | Gone

  /** `sent` counts how often the record of the present or last wait was sent to a mutex. */
  datatype Thread = Thread(pc: Pc, mutex: nat, woken: bool, timedOut: bool, place: Place, sent: nat)

  /** Records that a wake_all() detached and has yet to send. */
  datatype Batch = Batch(list: seq<nat>, mutex: nat)

  datatype State = State(
    threads: seq<Thread>,
    fifo: seq<nat>,
    userMutex: Option<nat>,
    owners: seq<Option<nat>>,   // of each user mutex
    pending: seq<set<nat>>,     // records each user mutex will wake
    batches: seq<Batch>
  )

  datatype Action =
    | Lock(t: nat, m: nat)
    | Unlock(t: nat, m: nat)
    | Wait(t: nat, m: nat)
    | Expire(t: nat)
    | Remove(t: nat)
    | Receive(t: nat)
    | LockAgain(t: nat)
    | WakeOne
    | WakeAll
    | SendNext(b: nat, k: nat)
    | Grant(m: nat, t: nat)

  function Init(n: nat, mutexes: nat): State {
    State(seq(n, _ => Thread(Out, 0, false, false, Nowhere, 0)), [], None,
          seq(mutexes, _ => None), seq(mutexes, _ => {}), [])
  }

  predicate IsOut(s: State, t: nat) { t < |s.threads| && s.threads[t].pc == Out }

  /** The assertion that concurrent waits use the same mutex. */
  predicate SameMutex(s: State, m: nat) {
    s.userMutex == None || s.userMutex == Some(m)
  }

  predicate Enabled(s: State, a: Action) {
    match a
    case Lock(t, m) => IsOut(s, t) && m < |s.owners| && s.owners[m] == None
    case Unlock(t, m) => IsOut(s, t) && m < |s.owners| && s.owners[m] == Some(t)
    case Wait(t, m) => IsOut(s, t) && m < |s.owners| && s.owners[m] == Some(t) && SameMutex(s, m)
    case Expire(t) => t < |s.threads| && s.threads[t].pc == Sleeping && !s.threads[t].woken
    case Remove(t) => t < |s.threads| && s.threads[t].pc == Removing
    case Receive(t) => t < |s.threads| && s.threads[t].pc in {Sleeping, WaitAgain} && s.threads[t].woken
    case LockAgain(t) => t < |s.threads| && s.threads[t].pc == Relock
                         && s.threads[t].mutex < |s.owners| && s.owners[s.threads[t].mutex] == None
    case WakeOne => s.fifo != [] && s.userMutex.Some? && s.userMutex.value < |s.pending| && s.fifo[0] < |s.threads|
    case WakeAll => s.fifo != [] && s.userMutex.Some?
    case SendNext(b, k) => b < |s.batches| && k < |s.batches[b].list| && s.batches[b].list[k] < |s.threads|
                           && s.batches[b].mutex < |s.pending|
    case Grant(m, t) => m < |s.owners| && m < |s.pending| && t < |s.threads| && s.owners[m] == None && t in s.pending[m]
  }

  function DropAt(q: seq<nat>, k: nat): seq<nat>
    requires k < |q|
  {
    q[..k] + q[k + 1..]
  }

  function Without(q: seq<nat>, t: nat): seq<nat> {
    if q == [] then [] else if q[0] == t then q[1..] else [q[0]] + Without(q[1..], t)
  }

  /** Send a record to a mutex. */
  function Send(s: State, t: nat, m: nat): State
    requires t < |s.threads| && m < |s.pending|
  {
    s.(threads := s.threads[t := s.threads[t].(place := InMutex, sent := s.threads[t].sent + 1)],
       pending := s.pending[m := s.pending[m] + {t}])
  }

  function WaitStep(s: State, t: nat, m: nat): State
    requires Enabled(s, Wait(t, m))
  {
    s.(threads := s.threads[t := Thread(Sleeping, m, false, false, InFifo, 0)],
       fifo := s.fifo + [t], userMutex := Some(m), owners := s.owners[m := None])
  }

  /** Only if the record is still queued has the wait timed out. */
  function RemoveStep(s: State, t: nat): State
    requires Enabled(s, Remove(t))
  {
    var th := s.threads[t];
    if t in s.fifo then
      s.(threads := s.threads[t := th.(pc := Relock, timedOut := true, place := Gone)], fifo := Without(s.fifo, t))
    else s.(threads := s.threads[t := th.(pc := WaitAgain)])
  }

  function WakeOneStep(s: State): State
    requires Enabled(s, WakeOne)
  {
    var s' := Send(s, s.fifo[0], s.userMutex.value).(fifo := s.fifo[1..]);
    if s'.fifo == [] then s'.(userMutex := None) else s'
  }

  function WakeAllStep(s: State): State
    requires Enabled(s, WakeAll)
  {
    var b := |s.batches|;
    s.(threads := seq(|s.threads|, t requires 0 <= t < |s.threads| =>
                        if t in s.fifo then s.threads[t].(place := InBatch(b)) else s.threads[t]),
       fifo := [], userMutex := None, batches := s.batches + [Batch(s.fifo, s.userMutex.value)])
  }

  function SendNextStep(s: State, b: nat, k: nat): State
    requires Enabled(s, SendNext(b, k))
  {
    var batch := s.batches[b];
    Send(s, batch.list[k], batch.mutex).(batches := s.batches[b := batch.(list := DropAt(batch.list, k))])
  }

  /** A mutex that is free wakes one of the records sent to it, and belongs to its thread. */
  function GrantStep(s: State, m: nat, t: nat): State
    requires Enabled(s, Grant(m, t))
  {
    s.(threads := s.threads[t := s.threads[t].(woken := true, place := Given)],
       owners := s.owners[m := Some(t)], pending := s.pending[m := s.pending[m] - {t}])
  }

  function Next(s: State, a: Action): State
    requires Enabled(s, a)
  {
    match a
    case Lock(t, m) => s.(owners := s.owners[m := Some(t)])
    case Unlock(t, m) => s.(owners := s.owners[m := None])
    case Wait(t, m) => WaitStep(s, t, m)
    case Expire(t) => s.(threads := s.threads[t := s.threads[t].(pc := Removing)])
    case Remove(t) => RemoveStep(s, t)
    case Receive(t) => s.(threads := s.threads[t := s.threads[t].(pc := Out, woken := false, place := Nowhere)])
    case LockAgain(t) =>
      s.(threads := s.threads[t := s.threads[t].(pc := Out, place := Nowhere)],
         owners := s.owners[s.threads[t].mutex := Some(t)])
    case WakeOne => WakeOneStep(s)
    case WakeAll => WakeAllStep(s)
    case SendNext(b, k) => SendNextStep(s, b, k)
    case Grant(m, t) => GrantStep(s, m, t)
  }

  ghost predicate Follows(s: State, s': State) {
    exists a: Action :: Enabled(s, a) && s' == Next(s, a)
  }

  ghost predicate IsRun(n: nat, mutexes: nat, run: seq<State>) {
    && |run| > 0 && run[0] == Init(n, mutexes)
    && forall i :: 0 < i < |run| ==> Follows(run[i - 1], run[i])
  }
}
