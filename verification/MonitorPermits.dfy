/**
 The two counters of a `Monitor` when each update is one atomic step, with any
 number of waiting threads, timed or not.
 */
module MonitorPermits {

  datatype Counters = Counters(waiters: int, signaled: int)

  const FRESH := Counters(0, 0)

  // `signal(nrThreads)`: it assigns the permits and does not add to them.
  function Signalled(c: Counters, nrThreads: int): Counters {
    if c.waiters > 0 then c.(signaled := if nrThreads > c.waiters then c.waiters else nrThreads)
    else c.(signaled := 1)
  }

  // `wait` passes at once if it was signalled before, and blocks otherwise.
  function Entered(c: Counters): Counters {
    if c.signaled > 0 then c.(signaled := c.signaled - 1) else c.(waiters := c.waiters + 1)
  }

  // A blocked thread takes a permit.
  function Woken(c: Counters): Counters {
    Counters(c.waiters - 1, c.signaled - 1)
  }

  // A blocked thread gives up and leaves the permits alone.
  function TimedOut(c: Counters): Counters {
    c.(waiters := c.waiters - 1)
  }

  /** The monitor object; a blocking `wait` is its entry followed by a wakeup or a time-out. */
  class Monitor {
    var waiters: int
    var signaled: int

    ghost function View(): Counters
      reads this
    {
      Counters(waiters, signaled)
    }

    constructor ()
      ensures View() == FRESH
    {
      waiters, signaled := 0, 0;
    }

    method Signal(nrThreads: int)
      modifies this
      ensures View() == Signalled(old(View()), nrThreads)
    {
      if waiters > 0 {
        signaled := if nrThreads > waiters then waiters else nrThreads;
      } else {
        signaled := 1;
      }
    }

    method Broadcast()
      modifies this
      ensures View() == Signalled(old(View()), old(waiters))
    {
      Signal(waiters);
    }

    method EnterWait() returns (passed: bool)
      modifies this
      ensures View() == Entered(old(View()))
      ensures passed == (old(signaled) > 0)
    {
      if signaled > 0 {
        signaled := signaled - 1;
        return true;
      }
      waiters := waiters + 1;
      return false;
    }

    method LeaveWait(timedOut: bool) returns (passed: bool)
      requires waiters > 0 && (!timedOut ==> signaled > 0)
      modifies this
      ensures View() == if timedOut then TimedOut(old(View())) else Woken(old(View()))
      ensures passed == !timedOut
    {
      if !timedOut {
        signaled := signaled - 1;
      }
      waiters := waiters - 1;
      return !timedOut;
    }
  }

  // ---------- many threads ----------

  datatype State = State(counters: Counters, blocked: set<nat>)

  datatype Step =
    | Signal(nrThreads: nat)
    | SignalAll
    | Wait(thread: nat)      // entry of a wait: passes or blocks
    | Wakeup(thread: nat)
    | GiveUp(thread: nat)    // time-out of a timed wait

  ghost predicate Init(s: State) {
    s == State(FRESH, {})
  }

  ghost predicate Next(s: State, step: Step, s': State) {
    match step
    case Signal(n) => s' == s.(counters := Signalled(s.counters, n))
    case SignalAll => s' == s.(counters := Signalled(s.counters, s.counters.waiters))
    case Wait(t) =>
      && t !in s.blocked
      && s' == State(Entered(s.counters), if s.counters.signaled > 0 then s.blocked else s.blocked + {t})
    case Wakeup(t) =>
      && t in s.blocked && s.counters.signaled != 0
      && s' == State(Woken(s.counters), s.blocked - {t})
    case GiveUp(t) =>
      t in s.blocked && s' == State(TimedOut(s.counters), s.blocked - {t})
  }

  predicate IsSignal(step: Step) {
    step.Signal? || step.SignalAll?
  }

  // A wait that succeeds in this step.
  predicate Passes(s: State, step: Step) {
    step.Wakeup? || (step.Wait? && s.counters.signaled > 0)
  }

  ghost predicate StepAt(ss: seq<State>, steps: seq<Step>, i: nat)
    requires i < |steps| < |ss|
  {
    Next(ss[i], steps[i], ss[i + 1])
  }

  ghost predicate IsRun(ss: seq<State>, steps: seq<Step>) {
    && |ss| == |steps| + 1 && Init(ss[0])
    && forall i :: 0 <= i < |steps| ==> StepAt(ss, steps, i)
  }

  // How many waits succeed in the steps from `i` up to `j`.
  ghost function Successes(ss: seq<State>, steps: seq<Step>, i: nat, j: nat): nat
    requires |ss| == |steps| + 1 && i <= j <= |steps|
  {
    if i == j then 0
    else Successes(ss, steps, i, j - 1) + if Passes(ss[j - 1], steps[j - 1]) then 1 else 0
  }

  ghost predicate Inv(s: State) {
    s.counters.waiters == |s.blocked| && s.counters.signaled >= 0
  }

  lemma StepKeepsInv(s: State, step: Step, s': State)
    requires Inv(s) && Next(s, step, s')
    ensures Inv(s')
  {
    if step.Wakeup? || step.GiveUp? {
      assert |s.blocked - {step.thread}| == |s.blocked| - 1;
    }
  }

  lemma {:induction false} InvHolds(ss: seq<State>, steps: seq<Step>, n: nat)
    requires IsRun(ss, steps) && n <= |steps|
    ensures Inv(ss[n])
  {
    if n > 0 {
      InvHolds(ss, steps, n - 1);
      assert StepAt(ss, steps, n - 1);
      StepKeepsInv(ss[n - 1], steps[n - 1], ss[n]);
    }
  }

  /**
   In every run `_waiters` counts the blocked threads and no counter is negative,
   so the asserts hold wherever a blocked thread leaves.
   */
  lemma WaitersAreTheBlocked(ss: seq<State>, steps: seq<Step>, n: nat)
    requires IsRun(ss, steps) && n <= |steps|
    ensures ss[n].counters.waiters == |ss[n].blocked| && ss[n].counters.signaled >= 0
    ensures forall t :: t in ss[n].blocked ==> ss[n].counters.waiters > 0
  {
    InvHolds(ss, steps, n);
    if t :| t in ss[n].blocked {
      assert |ss[n].blocked| == |ss[n].blocked - {t}| + 1;
    }
  }

  // A success uses up a permit, and nothing else does.
  lemma StepUsesPermits(ss: seq<State>, steps: seq<Step>, k: nat)
    requires IsRun(ss, steps) && k < |steps| && !IsSignal(steps[k])
    ensures ss[k + 1].counters.signaled + (if Passes(ss[k], steps[k]) then 1 else 0) == ss[k].counters.signaled
  {
    assert StepAt(ss, steps, k);
  }

  /**
   Between two signals every success uses up one permit of the first: the successes
   never exceed the permits it set, and what is left is the difference.
   */
  lemma {:induction false} SuccessesUseUpPermits(ss: seq<State>, steps: seq<Step>, i: nat, j: nat)
    requires IsRun(ss, steps) && i < j <= |steps| && IsSignal(steps[i])
    requires forall k :: i < k < j ==> !IsSignal(steps[k])
    ensures Successes(ss, steps, i + 1, j) + ss[j].counters.signaled == ss[i + 1].counters.signaled
    ensures Successes(ss, steps, i + 1, j) <= ss[i + 1].counters.signaled
  {
    InvHolds(ss, steps, j);
    if j > i + 1 {
      SuccessesUseUpPermits(ss, steps, i, j - 1);
      StepUsesPermits(ss, steps, j - 1);
    }
  }

  // How many threads a signal for `n` of them is to release when `waiting` of them wait.
  function Released(n: nat, waiting: nat): nat {
    if waiting == 0 then 1 else if n < waiting then n else waiting
  }

  // For how many threads a step signals.
  ghost function SignalledFor(s: State, step: Step): nat
    requires IsSignal(step)
  {
    if step.Signal? then step.nrThreads else |s.blocked|
  }

  // No permit is left over for threads that do not wait.
  lemma {:induction false} PermitsAreForWaiters(ss: seq<State>, steps: seq<Step>, i: nat, j: nat)
    requires IsRun(ss, steps) && i < j <= |steps| && IsSignal(steps[i]) && ss[i].blocked != {}
    requires forall k :: i < k < j ==> !IsSignal(steps[k]) && !steps[k].GiveUp?
    ensures ss[j].counters.signaled <= |ss[j].blocked|
  {
    InvHolds(ss, steps, j - 1);
    assert StepAt(ss, steps, j - 1);
    if j > i + 1 {
      PermitsAreForWaiters(ss, steps, i, j - 1);
      StepKeepsPermitsForWaiters(ss[j - 1], steps[j - 1], ss[j]);
    }
  }

  lemma StepKeepsPermitsForWaiters(s: State, step: Step, s': State)
    requires Inv(s) && Next(s, step, s') && !IsSignal(step) && !step.GiveUp? && s.counters.signaled <= |s.blocked|
    ensures s'.counters.signaled <= |s'.blocked|
  {
    if step.Wakeup? {
      assert |s.blocked - {step.thread}| == |s.blocked| - 1;
    }
  }

  /**
   After a signal for `n` threads no more waits succeed, up to the next signal, than `n`
   and than threads were waiting, or one if there were none. If threads were waiting and
   none gives up, the monitor does not rest before: as long as fewer have succeeded, there
   is a blocked thread, and each of them can wake up. If none was waiting, the first thread
   to wait passes at once.
   */
  lemma SignalReleases(ss: seq<State>, steps: seq<Step>, i: nat, j: nat)
    requires IsRun(ss, steps) && i < j <= |steps| && IsSignal(steps[i])
    requires forall k :: i < k < j ==> !IsSignal(steps[k])
    ensures var all := Released(SignalledFor(ss[i], steps[i]), |ss[i].blocked|);
            && Successes(ss, steps, i + 1, j) <= all
            && (ss[i].blocked != {} && (forall k :: i < k < j ==> !steps[k].GiveUp?) && Successes(ss, steps, i + 1, j) < all ==>
                  && ss[j].blocked != {}
                  && forall t :: t in ss[j].blocked ==> exists s' :: Next(ss[j], Wakeup(t), s'))
            && (ss[i].blocked == {} && Successes(ss, steps, i + 1, j) == 0 ==> forall t :: Passes(ss[j], Wait(t)))
  {
    InvHolds(ss, steps, i);
    assert StepAt(ss, steps, i);
    SuccessesUseUpPermits(ss, steps, i, j);
    if ss[i].blocked != {} && (forall k :: i < k < j ==> !steps[k].GiveUp?) {
      PermitsAreForWaiters(ss, steps, i, j);
      forall t | t in ss[j].blocked && ss[j].counters.signaled > 0
        ensures exists s' :: Next(ss[j], Wakeup(t), s')
      {
        assert Next(ss[j], Wakeup(t), State(Woken(ss[j].counters), ss[j].blocked - {t}));
      }
    }
  }

  /** Nothing passes before the first signal. */
  lemma {:induction false} NothingPassesUnsignalled(ss: seq<State>, steps: seq<Step>, j: nat)
    requires IsRun(ss, steps) && j <= |steps|
    requires forall k :: 0 <= k < j ==> !IsSignal(steps[k])
    ensures Successes(ss, steps, 0, j) == 0 && ss[j].counters.signaled == 0
  {
    if j > 0 {
      NothingPassesUnsignalled(ss, steps, j - 1);
      assert !IsSignal(steps[j - 1]);
      assert StepAt(ss, steps, j - 1);
    }
  }

  ghost predicate PermitsBounded(c: Counters) {
    c.signaled <= if c.waiters > 1 then c.waiters else 1
  }

  // One of several waiters, each with a permit, gives up.
  ghost predicate LeavesPermit(s: State, step: Step) {
    step.GiveUp? && s.counters.signaled == s.counters.waiters >= 2
  }

  lemma StepKeepsBoundExactlyWhen(s: State, step: Step, s': State)
    requires Inv(s) && PermitsBounded(s.counters) && Next(s, step, s')
    ensures PermitsBounded(s'.counters) <==> !LeavesPermit(s, step)
  {
  }

  /**
   There are never more permits than waiting threads, or one, if and only if no thread
   gives up while it waits with others and there is a permit for each of them.
   */
  lemma {:induction false} PermitsStayBoundedExactlyWhen(ss: seq<State>, steps: seq<Step>, n: nat)
    requires IsRun(ss, steps) && n <= |steps|
    ensures (forall k :: 0 <= k <= n ==> PermitsBounded(ss[k].counters))
            <==> (forall k :: 0 <= k < n ==> !LeavesPermit(ss[k], steps[k]))
  {
    if n > 0 {
      PermitsStayBoundedExactlyWhen(ss, steps, n - 1);
      InvHolds(ss, steps, n - 1);
      assert StepAt(ss, steps, n - 1);
      if PermitsBounded(ss[n - 1].counters) {
        StepKeepsBoundExactlyWhen(ss[n - 1], steps[n - 1], ss[n]);
      }
    }
  }

  /** So without time-outs the bound always holds. */
  lemma PermitsStayBounded(ss: seq<State>, steps: seq<Step>, n: nat)
    requires IsRun(ss, steps) && n <= |steps|
    requires forall k :: 0 <= k < n ==> !steps[k].GiveUp?
    ensures PermitsBounded(ss[n].counters)
  {
    PermitsStayBoundedExactlyWhen(ss, steps, n);
  }

  /** A time-out can break the bound: two threads wait, both are signalled, one gives up. */
  lemma TimeOutBreaksBound()
    ensures exists ss: seq<State>, steps: seq<Step> :: IsRun(ss, steps) && !PermitsBounded(ss[|steps|].counters)
  {
    var steps := [Wait(0), Wait(1), SignalAll, GiveUp(0)];
    var ss := [State(FRESH, {}), State(Counters(1, 0), {0}), State(Counters(2, 0), {0, 1}),
               State(Counters(2, 2), {0, 1}), State(Counters(1, 2), {1})];
    assert {0, 1} - {0} == {1};
    assert IsRun(ss, steps);
    assert !PermitsBounded(ss[|steps|].counters);
  }

  /** Two signals in a row are worth one: permits are assigned, not added. */
  lemma SignalsCoalesce(c: Counters, m: nat, n: nat)
    ensures Signalled(Signalled(c, m), n) == Signalled(c, n)
  {
  }
}
