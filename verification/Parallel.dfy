/** Bounded parallel fan-out with cancellation, as interleaved steps of the dispatching goroutine, the
    workers and the context (internal/services/common/parallel.go). */
module Parallel {
  const DEFAULT_CONCURRENCY := 8

  /** fn may look at whether the context is done. */
  datatype Job<!T, R> = Job(items: seq<T>, maxConcurrency: int, fn: (T, bool) -> R, zero: R)

  function Cap<T, R>(job: Job<T, R>): (cap: nat)
    ensures cap > 0
  {
    if job.maxConcurrency <= 0 then DEFAULT_CONCURRENCY else job.maxConcurrency
  }

  /** The dispatcher: at the select for item i, between the steps of spawning its worker, or past the
      loop with i items dispatched. */
  datatype Dispatcher = Selecting(i: nat) | Acquired(i: nat) | Added(i: nat) | Waiting(i: nat) | Returned(i: nat)

  /** A worker; the semaphore is released before the wait group. */
  datatype Worker = NotStarted | Spawned | Calling | Wrote | Released | Finished

  /** `saw` records whether the call of fn saw the context done. */
  datatype State<R> = State(pc: Dispatcher, workers: seq<Worker>, sem: nat, wg: nat, results: seq<R>,
                            saw: seq<bool>, cancelled: bool)

  datatype Action =
    | Acquire | Stop | Add | Spawn | Return
    | Start(k: nat) | Write(k: nat, done: bool) | Release(k: nat) | Finish(k: nat)
    | Cancel

  function Init<T, R>(job: Job<T, R>): State<R> {
    var n := |job.items|;
    State(AtItem(0, n), seq(n, _ => NotStarted), 0, 0, seq(n, _ => job.zero), seq(n, _ => false), false)
  }

  /** The top of the loop, or its end. */
  function AtItem(i: nat, n: nat): Dispatcher { if i < n then Selecting(i) else Waiting(i) }

  predicate Sized<T, R>(job: Job<T, R>, s: State<R>) {
    |s.workers| == |s.results| == |s.saw| == |job.items| && s.pc.i <= |job.items|
    && (s.pc.Selecting? || s.pc.Acquired? || s.pc.Added? ==> s.pc.i < |job.items|)
  }

  predicate Enabled<T, R>(job: Job<T, R>, s: State<R>, a: Action)
    requires Sized(job, s)
  {
    match a
    case Acquire => s.pc.Selecting? && s.sem < Cap(job)
    case Stop => s.pc.Selecting? && s.cancelled
    case Add => s.pc.Acquired?
    case Spawn => s.pc.Added?
    case Return => s.pc.Waiting? && s.wg == 0
    case Start(k) => k < |s.workers| && s.workers[k] == Spawned
    case Write(k, done) => k < |s.workers| && s.workers[k] == Calling && (done ==> s.cancelled)
    case Release(k) => k < |s.workers| && s.workers[k] == Wrote && s.sem > 0
    case Finish(k) => k < |s.workers| && s.workers[k] == Released && s.wg > 0
    case Cancel => !s.cancelled
  }

  function Step<T, R>(job: Job<T, R>, s: State<R>, a: Action): State<R>
    requires Sized(job, s) && Enabled(job, s, a)
  {
    match a
    case Acquire => s.(pc := Acquired(s.pc.i), sem := s.sem + 1)
    case Stop => s.(pc := Waiting(s.pc.i))
    case Add => s.(pc := Added(s.pc.i), wg := s.wg + 1)
    case Spawn => s.(pc := AtItem(s.pc.i + 1, |job.items|), workers := s.workers[s.pc.i := Spawned])
    case Return => s.(pc := Returned(s.pc.i))
    case Start(k) => s.(workers := s.workers[k := Calling])
    case Write(k, done) =>
      s.(workers := s.workers[k := Wrote], results := s.results[k := job.fn(job.items[k], done)],
         saw := s.saw[k := done])
    case Release(k) => s.(workers := s.workers[k := Released], sem := s.sem - 1)
    case Finish(k) => s.(workers := s.workers[k := Finished], wg := s.wg - 1)
    case Cancel => s.(cancelled := true)
  }

  // ---- counting workers ----

  predicate Holds(w: Worker) { w == Spawned || w == Calling || w == Wrote }

  predicate Awaited(w: Worker) { Holds(w) || w == Released }

  predicate InCall(w: Worker) { w == Calling }

  function Count(ws: seq<Worker>, p: Worker -> bool): nat {
    if ws == [] then 0 else Count(ws[..|ws| - 1], p) + if p(ws[|ws| - 1]) then 1 else 0
  }

  function One(b: bool): nat { if b then 1 else 0 }

  lemma {:induction false} CountUpdate(ws: seq<Worker>, p: Worker -> bool, k: nat, w: Worker)
    requires k < |ws|
    ensures Count(ws[k := w], p) == Count(ws, p) - One(p(ws[k])) + One(p(w))
    ensures p(ws[k]) ==> Count(ws, p) > 0
  {
    var n := |ws| - 1;
    if k < n {
      assert ws[k := w][..n] == ws[..n][k := w];
      CountUpdate(ws[..n], p, k, w);
    } else {
      assert ws[k := w][..n] == ws[..n];
    }
  }

  lemma {:induction false} CountLe(ws: seq<Worker>, p: Worker -> bool, q: Worker -> bool)
    requires forall w :: p(w) ==> q(w)
    ensures Count(ws, p) <= Count(ws, q)
  {
    if ws != [] { CountLe(ws[..|ws| - 1], p, q); }
  }

  lemma {:induction false} CountNone(ws: seq<Worker>, p: Worker -> bool)
    ensures Count(ws, p) == 0 <==> forall k :: 0 <= k < |ws| ==> !p(ws[k])
  {
    if ws != [] { CountNone(ws[..|ws| - 1], p); }
  }

  // ---- the invariant ----

  /** What result k is in state w of its worker. */
  ghost predicate ResultOk<T, R>(job: Job<T, R>, s: State<R>, k: nat)
    requires Sized(job, s) && k < |job.items|
  {
    if s.workers[k] == NotStarted || s.workers[k] == Spawned || s.workers[k] == Calling then s.results[k] == job.zero
    else s.results[k] == job.fn(job.items[k], s.saw[k]) && (s.saw[k] ==> s.cancelled)
  }

  /** Exactly the items before i have a worker; the semaphore counts the workers between dispatch and
      release, the wait group those not finished; results are written or still zero. */
  ghost predicate Inv<T, R>(job: Job<T, R>, s: State<R>) {
    && Sized(job, s)
    && (forall k :: 0 <= k < |s.workers| ==> (s.workers[k] == NotStarted <==> k >= s.pc.i))
    && s.sem == Count(s.workers, Holds) + One(s.pc.Acquired? || s.pc.Added?)
    && s.sem <= Cap(job)
    && s.wg == Count(s.workers, Awaited) + One(s.pc.Added?)
    && (s.pc.Waiting? || s.pc.Returned? ==> s.cancelled || s.pc.i == |job.items|)
    && (s.pc.Returned? ==> s.wg == 0)
    && forall k :: 0 <= k < |s.workers| ==> ResultOk(job, s, k)
  }

  lemma InitInv<T, R>(job: Job<T, R>)
    ensures Inv(job, Init(job))
  {
    CountNone(Init(job).workers, Holds);
    CountNone(Init(job).workers, Awaited);
  }

  lemma DispatchKeepsInv<T, R>(job: Job<T, R>, s: State<R>, a: Action)
    requires Inv(job, s) && Enabled(job, s, a)
    requires a.Acquire? || a.Stop? || a.Add? || a.Spawn? || a.Return? || a.Cancel?
    ensures Inv(job, Step(job, s, a))
  {
    if a.Spawn? {
      CountUpdate(s.workers, Holds, s.pc.i, Spawned);
      CountUpdate(s.workers, Awaited, s.pc.i, Spawned);
    }
    var t := Step(job, s, a);
    forall k | 0 <= k < |t.workers| ensures ResultOk(job, t, k) {
      assert ResultOk(job, s, k);
    }
  }

  lemma WorkerKeepsInv<T, R>(job: Job<T, R>, s: State<R>, a: Action)
    requires Inv(job, s) && Enabled(job, s, a)
    requires a.Start? || a.Write? || a.Release? || a.Finish?
    ensures Inv(job, Step(job, s, a))
  {
    hide Count, Cap;
    var t := Step(job, s, a);
    CountUpdate(s.workers, Holds, a.k, t.workers[a.k]);
    CountUpdate(s.workers, Awaited, a.k, t.workers[a.k]);
    forall k | 0 <= k < |t.workers| ensures ResultOk(job, t, k) {
      assert ResultOk(job, s, k);
    }
  }

  lemma StepKeepsInv<T, R>(job: Job<T, R>, s: State<R>, a: Action)
    requires Inv(job, s) && Enabled(job, s, a)
    ensures Inv(job, Step(job, s, a))
  {
    hide Inv, Step;
    if a.Start? || a.Write? || a.Release? || a.Finish? {
      WorkerKeepsInv(job, s, a);
    } else {
      DispatchKeepsInv(job, s, a);
    }
  }

  /** Never more than the cap of calls run at once. */
  lemma CapHolds<T, R>(job: Job<T, R>, s: State<R>)
    requires Inv(job, s)
    ensures Count(s.workers, InCall) <= Cap(job)
  {
    CountLe(s.workers, InCall, Holds);
  }

  /** The step a worker that is not finished can take. */
  function WorkerStep(w: Worker, k: nat): Action {
    match w
    case Spawned => Start(k)
    case Calling => Write(k, false)
    case Wrote => Release(k)
    case _ => Finish(k)
  }

  lemma WorkerCanStep<T, R>(job: Job<T, R>, s: State<R>, k: nat)
    requires Inv(job, s) && k < |s.workers| && Awaited(s.workers[k])
    ensures Enabled(job, s, WorkerStep(s.workers[k], k))
  {
    CountUpdate(s.workers, Awaited, k, Finished);
    CountUpdate(s.workers, Holds, k, Finished);
  }

  /** No deadlock: until it has returned, something other than a cancellation can happen. */
  lemma NoDeadlock<T, R>(job: Job<T, R>, s: State<R>) returns (a: Action)
    requires Inv(job, s) && !s.pc.Returned?
    ensures !a.Cancel? && Enabled(job, s, a)
  {
    match s.pc
    case Acquired(_) => a := Add;
    case Added(_) => a := Spawn;
    case Selecting(_) =>
      a := Acquire;
      if s.sem >= Cap(job) {
        CountNone(s.workers, Holds);
        var k :| 0 <= k < |s.workers| && Holds(s.workers[k]);
        WorkerCanStep(job, s, k);
        a := WorkerStep(s.workers[k], k);
      }
    case Waiting(_) =>
      a := Return;
      if s.wg > 0 {
        CountNone(s.workers, Awaited);
        var k :| 0 <= k < |s.workers| && Awaited(s.workers[k]);
        WorkerCanStep(job, s, k);
        a := WorkerStep(s.workers[k], k);
      }
  }

  // ---- every run ends ----

  function StepsLeft(w: Worker): nat {
    match w
    case NotStarted => 5
    case Spawned => 4
    case Calling => 3
    case Wrote => 2
    case Released => 1
    case Finished => 0
  }

  function WorkLeft(ws: seq<Worker>): nat {
    if ws == [] then 0 else WorkLeft(ws[..|ws| - 1]) + StepsLeft(ws[|ws| - 1])
  }

  function DispatchLeft(pc: Dispatcher, n: nat): nat {
    match pc
    case Selecting(i) => if i <= n then 2 + 3 * (n - i) else 0
    case Acquired(i) => if i <= n then 1 + 3 * (n - i) else 0
    case Added(i) => if i <= n then 3 * (n - i) else 0
    case Waiting(_) => 1
    case Returned(_) => 0
  }

  /** How many steps are left at most. */
  function Measure<T, R>(job: Job<T, R>, s: State<R>): nat {
    DispatchLeft(s.pc, |job.items|) + WorkLeft(s.workers) + One(!s.cancelled)
  }

  lemma {:induction false} WorkUpdate(ws: seq<Worker>, k: nat, w: Worker)
    requires k < |ws|
    ensures WorkLeft(ws[k := w]) == WorkLeft(ws) - StepsLeft(ws[k]) + StepsLeft(w)
  {
    var n := |ws| - 1;
    if k < n {
      assert ws[k := w][..n] == ws[..n][k := w];
      WorkUpdate(ws[..n], k, w);
    } else {
      assert ws[k := w][..n] == ws[..n];
    }
  }

  lemma StepDecreases<T, R>(job: Job<T, R>, s: State<R>, a: Action)
    requires Inv(job, s) && Enabled(job, s, a)
    ensures Measure(job, Step(job, s, a)) < Measure(job, s)
  {
    if a.Start? || a.Write? || a.Release? || a.Finish? {
      WorkUpdate(s.workers, a.k, Step(job, s, a).workers[a.k]);
    } else if a.Spawn? {
      WorkUpdate(s.workers, s.pc.i, Spawned);
    }
  }

  // ---- runs ----

  /** A run: every state follows from the one before by some step. */
  ghost predicate IsRun<T, R(!new)>(job: Job<T, R>, states: seq<State<R>>) {
    && states != [] && states[0] == Init(job)
    && forall i :: 0 < i < |states| ==> Follows(job, states[i - 1], states[i])
  }

  ghost predicate Follows<T, R>(job: Job<T, R>, s: State<R>, t: State<R>) {
    Sized(job, s) && exists a :: Enabled(job, s, a) && t == Step(job, s, a)
  }

  /** In every reachable state the invariant holds, and no run is longer than the measure allows. */
  lemma {:induction false} RunKeepsInv<T, R(!new)>(job: Job<T, R>, states: seq<State<R>>)
    requires IsRun(job, states)
    ensures Inv(job, states[|states| - 1])
    ensures |states| - 1 + Measure(job, states[|states| - 1]) <= Measure(job, Init(job))
  {
    hide Inv, Step, Measure;
    if |states| == 1 {
      InitInv(job);
    } else {
      var init := states[..|states| - 1];
      RunKeepsInv(job, init);
      var s, t := states[|states| - 2], states[|states| - 1];
      assert Follows(job, s, t);
      var a :| Enabled(job, s, a) && t == Step(job, s, a);
      StepKeepsInv(job, s, a);
      StepDecreases(job, s, a);
    }
  }

  /** What a call returned with: a prefix of the items was dispatched and each has its result; the rest
      are zero. Without a cancellation all were dispatched. */
  ghost predicate Outcome<T, R>(job: Job<T, R>, s: State<R>) {
    && Sized(job, s)
    && (forall k :: 0 <= k < s.pc.i ==> s.results[k] == job.fn(job.items[k], s.saw[k]) && (s.saw[k] ==> s.cancelled))
    && (forall k :: s.pc.i <= k < |job.items| ==> s.results[k] == job.zero)
    && (!s.cancelled ==> s.results == SequentialMap(job))
  }

  function SequentialMap<T, R>(job: Job<T, R>): seq<R> {
    seq(|job.items|, k requires 0 <= k < |job.items| => job.fn(job.items[k], false))
  }

  lemma ReturnedOutcome<T, R>(job: Job<T, R>, s: State<R>)
    requires Inv(job, s) && s.pc.Returned?
    ensures (forall k :: 0 <= k < s.pc.i ==> s.workers[k] == Finished) && Outcome(job, s)
  {
    CountNone(s.workers, Awaited);
    forall k | 0 <= k < |s.workers|
      ensures if k < s.pc.i then
          s.workers[k] == Finished && s.results[k] == job.fn(job.items[k], s.saw[k]) && (s.saw[k] ==> s.cancelled)
        else s.results[k] == job.zero
    {
      assert !Awaited(s.workers[k]) && ResultOk(job, s, k);
    }
    if !s.cancelled {
      forall k | 0 <= k < |s.results| ensures s.results[k] == SequentialMap(job)[k] {
        assert s.results[k] == job.fn(job.items[k], s.saw[k]) && !s.saw[k];
      }
      assert s.results == SequentialMap(job);
    }
  }

  /** ForEachParallel, over every interleaving: in every reachable state at most maxConcurrency calls run, or
      eight if it is not positive; a worker can be dispatched as long as fewer are busy, and dispatching can
      stop as soon as the context is done; and either it has returned, every worker it spawned has written
      and finished, and the outcome is as promised, or some step other than a cancellation is possible; and
      runs are bounded. */
  lemma ForEachParallel<T, R(!new)>(job: Job<T, R>, states: seq<State<R>>)
    requires IsRun(job, states)
    ensures |states| <= Measure(job, Init(job)) + 1
    ensures var s := states[|states| - 1];
      && Sized(job, s)
      && (var limit := if job.maxConcurrency > 0 then job.maxConcurrency else 8;
          && Count(s.workers, InCall) <= Count(s.workers, Holds) <= limit
          && (s.pc.Selecting? ==>
                && (Enabled(job, s, Acquire) <==> Count(s.workers, Holds) < limit)
                && (Enabled(job, s, Stop) <==> s.cancelled)))
      && if s.pc.Returned? then (forall k :: 0 <= k < s.pc.i ==> s.workers[k] == Finished) && Outcome(job, s)
         else exists a: Action :: !a.Cancel? && Enabled(job, s, a)
  {
    var s := states[|states| - 1];
    RunKeepsInv(job, states);
    CapHolds(job, s);
    CountLe(s.workers, InCall, Holds);
    if s.pc.Returned? {
      ReturnedOutcome(job, s);
    } else {
      var a := NoDeadlock(job, s);
    }
  }
}
