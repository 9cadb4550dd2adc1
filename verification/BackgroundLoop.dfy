/**
 `backend/core/asyncio_utils.py`: the lazily started background event loop, with any number
 of threads interleaving at single reads and writes, and the bridge `run_sync` built on it.
 */
module BackgroundLoop {
  import opened Options

  type ThreadId = nat
  type LoopId = nat

  /** Where a thread is in `_LazyBackgroundLoop.get`. */
  datatype Phase =
    | FirstCheck
    | Acquiring
    | SecondCheck
    | Starting
    | Assigning(started: LoopId)
    | Unlocking(raising: bool)
    | Returning
    | Returned(loop: Option<LoopId>)
    | Raised

  /** `loops` counts the event loops ever started; they are numbered from 0. */
  datatype State = State(loop: Option<LoopId>, lock: Option<ThreadId>, loops: nat, threads: map<ThreadId, Phase>)

  datatype Event =
    | Call(t: ThreadId)
    | CheckUnlocked(t: ThreadId)
    | Acquire(t: ThreadId)
    | CheckLocked(t: ThreadId)
    | StartLoop(t: ThreadId, succeeds: bool)
    | Assign(t: ThreadId)
    | Unlock(t: ThreadId)
    | Return(t: ThreadId)

  const INIT := State(None, None, 0, map[])

  predicate Enabled(s: State, e: Event) {
    if e.Call? then e.t !in s.threads
    else
      && e.t in s.threads
      && match e
         case Call(_) => true
         case CheckUnlocked(t) => s.threads[t].FirstCheck?
         case Acquire(t) => s.threads[t].Acquiring? && s.lock.None?
         case CheckLocked(t) => s.threads[t].SecondCheck?
         case StartLoop(t, _) => s.threads[t].Starting?
         case Assign(t) => s.threads[t].Assigning?
         case Unlock(t) => s.threads[t].Unlocking?
         case Return(t) => s.threads[t].Returning?
  }

  function At(s: State, t: ThreadId, phase: Phase): State {
    s.(threads := s.threads[t := phase])
  }

  function Apply(s: State, e: Event): State
    requires Enabled(s, e)
  {
    match e
    case Call(t) => At(s, t, FirstCheck)
    case CheckUnlocked(t) => At(s, t, if s.loop.None? then Acquiring else Returning)
    case Acquire(t) => At(s, t, SecondCheck).(lock := Some(t))
    case CheckLocked(t) => At(s, t, if s.loop.None? then Starting else Unlocking(false))
    case StartLoop(t, succeeds) =>
      if succeeds then At(s, t, Assigning(s.loops)).(loops := s.loops + 1) else At(s, t, Unlocking(true))
    case Assign(t) => At(s, t, Unlocking(false)).(loop := Some(s.threads[t].started))
    case Unlock(t) => At(s, t, if s.threads[t].raising then Raised else Returning).(lock := None)
    case Return(t) => At(s, t, Returned(s.loop))
  }

  ghost predicate IsRun(s: State, es: seq<Event>)
    decreases |es|, 0
  {
    es == [] || (IsRun(s, es[..|es| - 1]) && Enabled(Run(s, es[..|es| - 1]), es[|es| - 1]))
  }

  ghost function Run(s: State, es: seq<Event>): State
    requires IsRun(s, es)
    decreases |es|, 1
  {
    if es == [] then s else Apply(Run(s, es[..|es| - 1]), es[|es| - 1])
  }

  // ---- The invariant ----

  predicate InLock(phase: Phase) {
    phase.SecondCheck? || phase.Starting? || phase.Assigning? || phase.Unlocking?
  }

  ghost predicate ThreadOk(s: State, t: ThreadId, phase: Phase) {
    && (InLock(phase) <==> s.lock == Some(t))
    && match phase
       case Starting => s.loop.None? && s.loops == 0
       case Assigning(l) => s.loop.None? && s.loops == 1 && l == 0
       case Unlocking(raising) => if raising then s.loop.None? && s.loops == 0 else s.loop.Some?
       case Returning => s.loop.Some?
       case Returned(l) => l.Some? && l == s.loop
       case _ => true
  }

  ghost predicate Inv(s: State) {
    && (s.loop.Some? ==> s.loop == Some(0) && s.loops == 1)
    && (s.loop.None? && s.lock.None? ==> s.loops == 0)
    && (s.lock.Some? ==> s.lock.value in s.threads && InLock(s.threads[s.lock.value]))
    && (s.lock.Some? && s.loop.None? && !s.threads[s.lock.value].Assigning? ==> s.loops == 0)
    && s.loops <= 1
    && (forall t :: t in s.threads ==> ThreadOk(s, t, s.threads[t]))
  }

  lemma StepKeepsInv(s: State, e: Event)
    requires Inv(s) && Enabled(s, e)
    ensures Inv(Apply(s, e))
    ensures s.loop.Some? ==> Apply(s, e).loop == s.loop
  {
    assert e.t in s.threads ==> ThreadOk(s, e.t, s.threads[e.t]);
  }

  lemma {:induction false} RunKeepsInv(s: State, es: seq<Event>)
    requires Inv(s) && IsRun(s, es)
    ensures Inv(Run(s, es))
    decreases |es|
  {
    if es != [] {
      RunKeepsInv(s, es[..|es| - 1]);
      StepKeepsInv(Run(s, es[..|es| - 1]), es[|es| - 1]);
    }
  }

  /** In every interleaving at most one loop is started, no call returns None, and all calls return the same loop. */
  lemma OneLoopForAll(es: seq<Event>, t1: ThreadId, t2: ThreadId)
    requires IsRun(INIT, es)
    ensures Run(INIT, es).loops <= 1
    ensures t1 in Run(INIT, es).threads && Run(INIT, es).threads[t1].Returned? ==> Run(INIT, es).threads[t1].loop.Some?
    ensures var threads := Run(INIT, es).threads;
            t1 in threads && t2 in threads && threads[t1].Returned? && threads[t2].Returned? ==>
              threads[t1].loop == threads[t2].loop
  {
    RunKeepsInv(INIT, es);
    var s := Run(INIT, es);
    assert t1 in s.threads ==> ThreadOk(s, t1, s.threads[t1]);
    assert t2 in s.threads ==> ThreadOk(s, t2, s.threads[t2]);
  }

  /** How a call of `get` has gone when its thread is next looked at. */
  datatype Progress = Got(loop: LoopId) | StartFailed | Waiting

  class LazyBackgroundLoop {
    var state: State
    ghost var trace: seq<Event>

    ghost predicate Valid()
      reads this
    {
      IsRun(INIT, trace) && state == Run(INIT, trace)
    }

    constructor ()
      ensures Valid() && trace == []
    {
      state := INIT;
      trace := [];
    }

    lemma IsSound()
      requires Valid()
      ensures Inv(state)
    {
      RunKeepsInv(INIT, trace);
    }

    method Do(e: Event)
      requires Valid() && Enabled(state, e)
      modifies this
      ensures Valid() && state == Apply(old(state), e) && trace == old(trace) + [e]
      ensures old(state.loop).Some? ==> state.loop == old(state.loop)
    {
      IsSound();
      StepKeepsInv(state, e);
      assert (trace + [e])[..|trace|] == trace;
      state := Apply(state, e);
      trace := trace + [e];
    }

    /** Any number of steps of other threads; once a loop is set it stays. */
    method Interleave(t: ThreadId)
      requires Valid() && t in state.threads
      modifies this
      ensures Valid() && t in state.threads && state.threads[t] == old(state.threads[t])
      ensures old(state.loop).Some? ==> state.loop == old(state.loop)
      ensures old(trace) <= trace
    {
      var steps: nat := *;
      while steps > 0
        invariant Valid() && t in state.threads && state.threads[t] == old(state.threads[t])
        invariant old(state.loop).Some? ==> state.loop == old(state.loop)
        invariant old(trace) <= trace
      {
        var e: Event := *;
        if Enabled(state, e) && e.t != t {
          Do(e);
        }
        steps := steps - 1;
      }
    }

    /** A step of `t` after whatever the others did. */
    method Proceed(t: ThreadId, e: Event)
      requires Valid() && t in state.threads && e.t == t && Enabled(state, e) && !e.Acquire?
      modifies this
      ensures Valid() && t in state.threads && Inv(state)
      ensures exists s: State :: Enabled(s, e) && s.threads[t] == old(state.threads[t]) && state == Apply(s, e)
      ensures old(state.loop).Some? ==> state.loop.Some? && state.loop == old(state.loop)
      ensures old(trace) <= trace
    {
      Interleave(t);
      Do(e);
      IsSound();
    }

    /** The part of `get` under the lock. */
    method GetLocked(t: ThreadId, startSucceeds: bool) returns (raised: bool)
      requires Valid() && t in state.threads && state.threads[t].SecondCheck?
      modifies this
      ensures Valid() && t in state.threads && old(trace) <= trace
      ensures state.threads[t] == if raised then Raised else Returning
      ensures raised ==> !startSucceeds
      ensures old(state.loop).Some? ==> !raised && state.loop == old(state.loop)
    {
      Proceed(t, CheckLocked(t));
      raised := false;
      if state.threads[t].Starting? {
        Proceed(t, StartLoop(t, startSucceeds));
        if startSucceeds {
          Proceed(t, Assign(t));
        } else {
          raised := true;
        }
      }
      Proceed(t, Unlock(t));
    }

    /**
     `get`. It gives the loop that is set from then on, and the one set before if there was one;
     it fails only when it had to start a loop and could not. Waiting means the lock was still
     taken when the thread was last looked at.
     */
    method Get(t: ThreadId, startSucceeds: bool) returns (p: Progress)
      requires Valid() && t !in state.threads
      modifies this
      ensures Valid() && t in state.threads && old(trace) <= trace
      ensures p.Got? ==> state.loop == Some(p.loop) && state.threads[t] == Returned(Some(p.loop))
      ensures p.StartFailed? ==> !startSucceeds && state.threads[t] == Raised
      ensures p.Waiting? ==> state.threads[t] == Acquiring && state.lock.Some?
      ensures old(state.loop).Some? ==> p == Got(old(state.loop).value)
    {
      Do(Call(t));
      Proceed(t, CheckUnlocked(t));
      if state.threads[t].Acquiring? {
        Interleave(t);
        if state.lock.Some? {
          return Waiting;
        }
        Do(Acquire(t));
        var raised := GetLocked(t, startSucceeds);
        if raised {
          return StartFailed;
        }
      }
      p := TakeLoop(t);
    }

    /** The last line of `get`. */
    method TakeLoop(t: ThreadId) returns (p: Progress)
      requires Valid() && t in state.threads && state.threads[t].Returning?
      modifies this
      ensures Valid() && t in state.threads && old(trace) <= trace
      ensures p.Got? && state.loop == Some(p.loop) && state.threads[t] == Returned(Some(p.loop))
      ensures old(state.loop).Some? ==> state.loop == old(state.loop)
    {
      Proceed(t, Return(t));
      assert ThreadOk(state, t, state.threads[t]);
      return Got(state.threads[t].loop.value);
    }
  }

  /** What `run_sync` does with its coroutine: run it on the loop, or refuse it. */
  datatype Bridged = RunsOn(loop: LoopId) | WouldDeadlock | NoLoop

  /**
   `run_sync`. Once its thread has the background loop, the coroutine runs there, unless the
   caller is itself running on that loop and is refused. It has no loop only while another thread
   holds the lock, or because it had to start one and could not.
   */
  method RunSync(lazy: LazyBackgroundLoop, t: ThreadId, running: Option<LoopId>, startSucceeds: bool)
    returns (b: Bridged)
    requires lazy.Valid() && t !in lazy.state.threads
    modifies lazy
    ensures lazy.Valid() && t in lazy.state.threads
    ensures match lazy.state.threads[t]
            case Returned(Some(loop)) =>
              lazy.state.loop == Some(loop) && b == if running == Some(loop) then WouldDeadlock else RunsOn(loop)
            case Raised => b == NoLoop && !startSucceeds
            case Acquiring => b == NoLoop && lazy.state.lock.Some?
            case _ => false
    ensures old(lazy.state.loop).Some? ==>
              b == if running == old(lazy.state.loop) then WouldDeadlock else RunsOn(old(lazy.state.loop).value)
  {
    var p := lazy.Get(t, startSucceeds);
    match p {
      case Got(loop) => b := if running == Some(loop) then WouldDeadlock else RunsOn(loop);
      case _ => b := NoLoop;
    }
  }
}
