/**
 `Monitor::wait` and `Monitor::signal` at the grain of single memory accesses:
 one thread waits once and without a time limit, any number of threads signal.
 The writes and reads of `_signaled` and `_waiters` in `signal` happen outside
 the mutex, and every increment is a read followed by a write.
 */
module MonitorRace {

  datatype Thread = Waiter | Signaller(id: nat)

  datatype Holder = Nobody | Held(thread: Thread)

  // Where a thread inside `signal(1)` is; named after what it does next.
  datatype SignalPc =
    | ReadWaiters          // `_waiters > 0`
    | ReadWaitersAgain     // `nrThreads > _waiters`
    | ReadWaitersLast      // `? _waiters`
    | WriteSignaled(v: int)
    | LockToSignal
    | Broadcast
    | UnlockAfterSignal
    | AssertWaitersKept    // `assert(_waiters >= 0)`
    | AssertPermitsKept    // `assert(_signaled >= 0)`
    | SignalReturned
    | SignalAssertFailed

  // Where the thread inside `wait(0)` is.
  datatype WaitPc =
    | LockToWait
    | CheckSignaled        // `_signaled > 0`, signalled prior to waiting
    | FastRead             // `_signaled--`
    | FastWrite(v: int)
    | FastUnlock
    | EnterRead            // `_waiters++`
    | EnterWrite(v: int)
    | Loop                 // `while(!_signaled)`
    | GoToSleep            // call of `pthread_cond_wait`, mutex still held
    | Asleep
    | Woken                // needs the mutex again
    | AssertSignaled
    | AssertWaiters
    | ConsumeRead          // `_signaled--`
    | ConsumeWrite(v: int)
    | LeaveRead            // `_waiters--`
    | LeaveWrite(v: int)
    | UnlockAfterWait
    | WaitReturned(result: bool)
    | WaitAssertFailed

  datatype State = State(waiters: int, signaled: int, holder: Holder, wait: WaitPc, signals: seq<SignalPc>)

  ghost predicate Init(s: State) {
    && s.waiters == 0 && s.signaled == 0 && s.holder == Nobody && s.wait == LockToWait
    && forall i :: 0 <= i < |s.signals| ==> s.signals[i] == ReadWaiters
  }

  // ---------- steps ----------

  // The one step of the waiting thread, if it can move.
  ghost predicate WaitStep(s: State, s': State) {
    match s.wait
    case LockToWait => s.holder == Nobody && s' == s.(holder := Held(Waiter), wait := CheckSignaled)
    case CheckSignaled => s' == s.(wait := if s.signaled > 0 then FastRead else EnterRead)
    case FastRead => s' == s.(wait := FastWrite(s.signaled - 1))
    case FastWrite(v) => s' == s.(signaled := v, wait := FastUnlock)
    case FastUnlock => s' == s.(holder := Nobody, wait := WaitReturned(true))
    case EnterRead => s' == s.(wait := EnterWrite(s.waiters + 1))
    case EnterWrite(v) => s' == s.(waiters := v, wait := Loop)
    case Loop => s' == s.(wait := if s.signaled == 0 then GoToSleep else AssertSignaled)
    case GoToSleep => s' == s.(holder := Nobody, wait := Asleep)
    case Asleep => false
    case Woken => s.holder == Nobody && s' == s.(holder := Held(Waiter), wait := Loop)
    case AssertSignaled => s' == s.(wait := if s.signaled > 0 then AssertWaiters else WaitAssertFailed)
    case AssertWaiters => s' == s.(wait := if s.waiters > 0 then ConsumeRead else WaitAssertFailed)
    case ConsumeRead => s' == s.(wait := ConsumeWrite(s.signaled - 1))
    case ConsumeWrite(v) => s' == s.(signaled := v, wait := LeaveRead)
    case LeaveRead => s' == s.(wait := LeaveWrite(s.waiters - 1))
    case LeaveWrite(v) => s' == s.(waiters := v, wait := UnlockAfterWait)
    case UnlockAfterWait => s' == s.(holder := Nobody, wait := WaitReturned(true))
    case WaitReturned(_) => false
    case WaitAssertFailed => false
  }

  // A condition variable may wake without being signalled.
  ghost predicate SpuriousWakeup(s: State, s': State) {
    s.wait == Asleep && s' == s.(wait := Woken)
  }

  ghost predicate SignalStep(s: State, i: nat, s': State)
    requires i < |s.signals|
  {
    match s.signals[i]
    case ReadWaiters => s' == s.(signals := s.signals[i := if s.waiters > 0 then ReadWaitersAgain else WriteSignaled(1)])
    case ReadWaitersAgain => s' == s.(signals := s.signals[i := if 1 > s.waiters then ReadWaitersLast else WriteSignaled(1)])
    case ReadWaitersLast => s' == s.(signals := s.signals[i := WriteSignaled(s.waiters)])
    case WriteSignaled(v) => s' == s.(signaled := v, signals := s.signals[i := LockToSignal])
    case LockToSignal => s.holder == Nobody && s' == s.(holder := Held(Signaller(i)), signals := s.signals[i := Broadcast])
    case Broadcast =>
      s' == s.(wait := if s.wait == Asleep then Woken else s.wait, signals := s.signals[i := UnlockAfterSignal])
    case UnlockAfterSignal => s' == s.(holder := Nobody, signals := s.signals[i := AssertWaitersKept])
    case AssertWaitersKept => s' == s.(signals := s.signals[i := if s.waiters >= 0 then AssertPermitsKept else SignalAssertFailed])
    case AssertPermitsKept => s' == s.(signals := s.signals[i := if s.signaled >= 0 then SignalReturned else SignalAssertFailed])
    case SignalReturned => false
    case SignalAssertFailed => false
  }

  ghost predicate Next(s: State, s': State) {
    WaitStep(s, s') || SpuriousWakeup(s, s') || exists i: nat :: i < |s.signals| && SignalStep(s, i, s')
  }

  ghost predicate IsRun(ss: seq<State>) {
    |ss| > 0 && Init(ss[0]) && forall i :: 0 <= i < |ss| - 1 ==> Next(ss[i], ss[i + 1])
  }

  // ---------- the invariant ----------

  // The signaller has written `_signaled`.
  ghost predicate HasWritten(pc: SignalPc) {
    pc in {LockToSignal, Broadcast, UnlockAfterSignal, AssertWaitersKept, AssertPermitsKept, SignalReturned}
  }

  // The signaller has also woken whoever slept.
  ghost predicate HasBroadcast(pc: SignalPc) {
    pc in {UnlockAfterSignal, AssertWaitersKept, AssertPermitsKept, SignalReturned}
  }

  // The waiter has not yet taken a permit.
  ghost predicate StillWants(pc: WaitPc) {
    pc in {LockToWait, CheckSignaled, FastRead, EnterRead, Loop, GoToSleep, Asleep, Woken, AssertSignaled, AssertWaiters, ConsumeRead}
    || pc.EnterWrite?
  }

  ghost predicate WaiterHolds(pc: WaitPc) {
    !(pc in {LockToWait, Asleep, Woken}) && !pc.WaitReturned?
  }

  // The waiter is counted in `_waiters`.
  ghost predicate Counted(pc: WaitPc) {
    pc in {Loop, GoToSleep, Asleep, Woken, AssertSignaled, AssertWaiters, ConsumeRead, LeaveRead}
    || pc.ConsumeWrite? || pc.LeaveWrite?
  }

  // The waiter has counted itself out again.
  ghost predicate HasLeft(pc: WaitPc) {
    pc == UnlockAfterWait || pc.WaitReturned?
  }

  ghost predicate SignalInv(s: State, pc: SignalPc, i: nat) {
    && pc != SignalAssertFailed
    && (s.holder == Held(Signaller(i)) <==> pc in {Broadcast, UnlockAfterSignal})
    && (pc == ReadWaitersAgain ==> Counted(s.wait) || HasLeft(s.wait))
    && (pc == ReadWaitersLast ==> HasLeft(s.wait))
    && (pc.WriteSignaled? ==> pc.v == 1 || (pc.v == 0 && HasLeft(s.wait)))
    && (HasWritten(pc) && StillWants(s.wait) ==> s.signaled == 1)
    && (s.wait == GoToSleep ==> HasWritten(pc) ==> pc == LockToSignal)
    && (s.wait == Asleep ==> !HasBroadcast(pc))
  }

  ghost predicate WaitInv(s: State) {
    && s.wait != WaitAssertFailed
    && s.signaled in {0, 1}
    && s.waiters == (if Counted(s.wait) then 1 else 0)
    && (s.holder == Held(Waiter) <==> WaiterHolds(s.wait))
    && (s.holder.Held? && s.holder.thread.Signaller? ==> s.holder.thread.id < |s.signals|)
    && (s.wait in {FastRead, AssertSignaled, AssertWaiters, ConsumeRead} ==> s.signaled == 1)
    && (s.wait.FastWrite? ==> s.wait.v == 0)
    && (s.wait.EnterWrite? ==> s.wait.v == 1)
    && (s.wait.ConsumeWrite? ==> s.wait.v == 0)
    && (s.wait.LeaveWrite? ==> s.wait.v == 0)
    && (s.wait.WaitReturned? ==> s.wait.result)
  }

  ghost predicate Inv(s: State) {
    WaitInv(s) && forall i: nat :: i < |s.signals| ==> SignalInv(s, s.signals[i], i)
  }

  lemma WaitStepKeepsInv(s: State, s': State)
    requires Inv(s) && (WaitStep(s, s') || SpuriousWakeup(s, s'))
    ensures Inv(s')
  {
    forall i: nat | i < |s'.signals|
      ensures SignalInv(s', s'.signals[i], i)
    {
      assert SignalInv(s, s.signals[i], i);
    }
  }

  lemma SignalStepKeepsInv(s: State, i: nat, s': State)
    requires Inv(s) && i < |s.signals| && SignalStep(s, i, s')
    ensures Inv(s')
  {
    assert SignalInv(s, s.signals[i], i);
    forall j: nat | j < |s'.signals|
      ensures SignalInv(s', s'.signals[j], j)
    {
      assert SignalInv(s, s.signals[j], j);
    }
  }

  lemma {:induction false} InvHolds(ss: seq<State>)
    requires IsRun(ss)
    ensures Inv(ss[|ss| - 1])
  {
    if |ss| > 1 {
      var n := |ss| - 2;
      InvHolds(ss[..n + 1]);
      assert Next(ss[n], ss[n + 1]);
      if WaitStep(ss[n], ss[n + 1]) || SpuriousWakeup(ss[n], ss[n + 1]) {
        WaitStepKeepsInv(ss[n], ss[n + 1]);
      } else {
        var i: nat :| i < |ss[n].signals| && SignalStep(ss[n], i, ss[n + 1]);
        SignalStepKeepsInv(ss[n], i, ss[n + 1]);
      }
    }
  }

  // ---------- results ----------

  /** In no run is the waiter asleep once some signaller has returned, and no assert fails. */
  lemma NoLostWakeup(ss: seq<State>, i: nat)
    requires IsRun(ss) && i < |ss[|ss| - 1].signals|
    ensures var s := ss[|ss| - 1];
            && (s.signals[i] == SignalReturned ==> s.wait != Asleep)
            && s.wait != WaitAssertFailed && s.signals[i] != SignalAssertFailed
  {
    InvHolds(ss);
    var s := ss[|ss| - 1];
    assert SignalInv(s, s.signals[i], i);
  }

  // ---------- permits ----------

  // The waiter has found a permit, and has perhaps taken it.
  ghost predicate FoundPermit(pc: WaitPc) {
    !StillWants(pc) || pc in {FastRead, AssertSignaled, AssertWaiters, ConsumeRead}
  }

  // The waiter has taken its permit off the counter.
  ghost predicate TookPermit(pc: WaitPc) {
    !StillWants(pc) && !pc.FastWrite? && !pc.ConsumeWrite?
  }

  // There is no permit before a signaller has written one, and none left once the waiter took the only one.
  ghost predicate PermitInv(s: State) {
    && ((forall i :: 0 <= i < |s.signals| ==> !HasWritten(s.signals[i])) ==> s.signaled == 0 && !FoundPermit(s.wait))
    && (|s.signals| == 1 && TookPermit(s.wait) ==> s.signaled == 0)
  }

  lemma WaitStepKeepsPermits(s: State, s': State)
    requires Inv(s) && PermitInv(s) && (WaitStep(s, s') || SpuriousWakeup(s, s'))
    ensures PermitInv(s')
  {
  }

  lemma SignalStepKeepsPermits(s: State, i: nat, s': State)
    requires Inv(s) && PermitInv(s) && i < |s.signals| && SignalStep(s, i, s')
    ensures PermitInv(s')
  {
    assert SignalInv(s, s.signals[i], i);
    assert s'.signals[i] != s.signals[i];
    if forall j :: 0 <= j < |s'.signals| ==> !HasWritten(s'.signals[j]) {
      forall j | 0 <= j < |s.signals|
        ensures !HasWritten(s.signals[j])
      {
        assert j == i || s'.signals[j] == s.signals[j];
      }
    }
  }

  lemma {:induction false} PermitInvHolds(ss: seq<State>)
    requires IsRun(ss)
    ensures PermitInv(ss[|ss| - 1])
  {
    if |ss| > 1 {
      var n := |ss| - 2;
      PermitInvHolds(ss[..n + 1]);
      InvHolds(ss[..n + 1]);
      assert Next(ss[n], ss[n + 1]);
      if WaitStep(ss[n], ss[n + 1]) || SpuriousWakeup(ss[n], ss[n + 1]) {
        WaitStepKeepsPermits(ss[n], ss[n + 1]);
      } else {
        var i: nat :| i < |ss[n].signals| && SignalStep(ss[n], i, ss[n + 1]);
        SignalStepKeepsPermits(ss[n], i, ss[n + 1]);
      }
    }
  }

  /**
   In no run does the wait return before a signaller has written its permit. When it has
   returned, nobody is counted as waiting, and the permit of a single signaller is used up.
   */
  lemma WaitUsesUpTheSignal(ss: seq<State>)
    requires IsRun(ss) && ss[|ss| - 1].wait.WaitReturned?
    ensures var s := ss[|ss| - 1];
            && s.waiters == 0
            && (exists i :: 0 <= i < |s.signals| && HasWritten(s.signals[i]))
            && (|s.signals| == 1 ==> s.signaled == 0)
  {
    InvHolds(ss);
    PermitInvHolds(ss);
  }

  // Some thread can move without a spurious wakeup.
  ghost predicate CanMove(s: State) {
    (exists s' :: WaitStep(s, s')) || exists i: nat, s' :: i < |s.signals| && SignalStep(s, i, s')
  }

  lemma StuckSignallersReturned(s: State, i: nat)
    requires Inv(s) && !CanMove(s) && i < |s.signals| && s.holder == Nobody
    ensures s.signals[i] == SignalReturned
  {
    assert SignalInv(s, s.signals[i], i);
    match s.signals[i] {
      case ReadWaiters => assert SignalStep(s, i, s.(signals := s.signals[i := if s.waiters > 0 then ReadWaitersAgain else WriteSignaled(1)]));
      case ReadWaitersAgain => assert SignalStep(s, i, s.(signals := s.signals[i := if 1 > s.waiters then ReadWaitersLast else WriteSignaled(1)]));
      case ReadWaitersLast => assert SignalStep(s, i, s.(signals := s.signals[i := WriteSignaled(s.waiters)]));
      case WriteSignaled(v) => assert SignalStep(s, i, s.(signaled := v, signals := s.signals[i := LockToSignal]));
      case LockToSignal => assert SignalStep(s, i, s.(holder := Held(Signaller(i)), signals := s.signals[i := Broadcast]));
      case AssertWaitersKept => assert SignalStep(s, i, s.(signals := s.signals[i := AssertPermitsKept]));
      case AssertPermitsKept => assert SignalStep(s, i, s.(signals := s.signals[i := SignalReturned]));
      case _ =>
    }
  }

  lemma HolderCanMove(s: State)
    requires Inv(s) && s.holder != Nobody
    ensures CanMove(s)
  {
    if s.holder == Held(Waiter) {
      WaiterCanMove(s);
    } else {
      var i := s.holder.thread.id;
      assert SignalInv(s, s.signals[i], i);
      if s.signals[i] == Broadcast {
        assert SignalStep(s, i, s.(wait := if s.wait == Asleep then Woken else s.wait, signals := s.signals[i := UnlockAfterSignal]));
      } else {
        assert SignalStep(s, i, s.(holder := Nobody, signals := s.signals[i := AssertWaitersKept]));
      }
    }
  }

  lemma WaiterCanMove(s: State)
    requires Inv(s) && !s.wait.WaitReturned? && s.wait != Asleep
    requires s.holder == Held(Waiter) || s.holder == Nobody
    ensures exists s' :: WaitStep(s, s')
  {
    var s' := match s.wait
      case LockToWait => s.(holder := Held(Waiter), wait := CheckSignaled)
      case CheckSignaled => s.(wait := if s.signaled > 0 then FastRead else EnterRead)
      case FastRead => s.(wait := FastWrite(s.signaled - 1))
      case FastWrite(v) => s.(signaled := v, wait := FastUnlock)
      case FastUnlock => s.(holder := Nobody, wait := WaitReturned(true))
      case EnterRead => s.(wait := EnterWrite(s.waiters + 1))
      case EnterWrite(v) => s.(waiters := v, wait := Loop)
      case Loop => s.(wait := if s.signaled == 0 then GoToSleep else AssertSignaled)
      case GoToSleep => s.(holder := Nobody, wait := Asleep)
      case Woken => s.(holder := Held(Waiter), wait := Loop)
      case AssertSignaled => s.(wait := AssertWaiters)
      case AssertWaiters => s.(wait := ConsumeRead)
      case ConsumeRead => s.(wait := ConsumeWrite(s.signaled - 1))
      case ConsumeWrite(v) => s.(signaled := v, wait := LeaveRead)
      case LeaveRead => s.(wait := LeaveWrite(s.waiters - 1))
      case LeaveWrite(v) => s.(waiters := v, wait := UnlockAfterWait)
      case _ => s.(holder := Nobody, wait := WaitReturned(true));
    assert WaitStep(s, s');
  }

  /** A run with a signaller only stops when everybody is through: the wait has returned true and the mutex is free. */
  lemma RunsStopOnlyWhenDone(ss: seq<State>)
    requires IsRun(ss) && |ss[|ss| - 1].signals| > 0 && !CanMove(ss[|ss| - 1])
    ensures var s := ss[|ss| - 1];
            && s.wait == WaitReturned(true) && s.holder == Nobody
            && forall i :: 0 <= i < |s.signals| ==> s.signals[i] == SignalReturned
  {
    InvHolds(ss);
    var s := ss[|ss| - 1];
    if s.holder != Nobody {
      HolderCanMove(s);
    }
    forall i: nat | i < |s.signals|
      ensures s.signals[i] == SignalReturned
    {
      StuckSignallersReturned(s, i);
    }
    assert SignalInv(s, s.signals[0], 0);
    if !s.wait.WaitReturned? {
      WaiterCanMove(s);
    }
  }
}
