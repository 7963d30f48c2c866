/** The worker and scheduler protocol of include/qs/queue.hpp, include/qs/scheduler.hpp and
    src/lib/scheduler.cpp as a transition system.

    One submitting thread hands jobs round robin to workers and may wait for all of them; each
    worker owns a queue and runs peek, job, dequeue.  A step is one section under the queue's
    mutex, one signal, or the completion of one job, so every interleaving of the threads is a
    run.  A queue has a single condition variable for the worker that waits for a job and for
    the submitter that waits for the queue to be empty. */
module Scheduling {

  // The jobs of src/core.cpp: one insertion per query word, and the matching of one document.
  // The scheduler looks at none of this.
  datatype Job = AddWord(query: nat, word: string) | MatchDoc(doc: nat)

  // Looking: about to lock the queue in `peek`.  Asleep: waiting in `peek`.  Running: `peek`
  // has returned the head.  Done: the head has run and is still in the queue.
  datatype WorkerPc = Looking | Asleep | Running | Done

  datatype Worker = Worker(queue: seq<Job>, pc: WorkerPc)

  // Idle: between calls.  Signalling(w): `enqueue` found the queue of `w` empty, has unlocked it
  // and owes the signal.  Checking(w): in wait_all_finish, about to lock the queue of `w` in
  // `wait_empty`.  Sleeping(w): waiting there.
  datatype SubmitterPc = Idle | Signalling(w: nat) | Checking(w: nat) | Sleeping(w: nat)

  // `submitted` and `completed` record the history: all jobs in the order of submit_job, and
  // per worker the jobs it has run.
  datatype State = State(workers: seq<Worker>, current: nat, sub: SubmitterPc,
                         submitted: seq<Job>, completed: seq<seq<Job>>)

  function Initial(n: nat): State {
    State(seq(n, _ => Worker([], Looking)), 0, Idle, [], seq(n, _ => []))
  }

  // A signal wakes at least one waiter if there is any, and nobody else; the event says whom.
  datatype Event =
    | Submit(j: Job)
    | Signal(wakesWorker: bool)
    | StartWait
    | Check
    | Return
    | Peek(w: nat)
    | Finish(w: nat)
    | Dequeue(w: nat, wakesSubmitter: bool)
    | WakeWorker(w: nat)       // spurious
    | WakeSubmitter            // spurious

  predicate Enabled(s: State, e: Event) {
    match e
    case Submit(_) => s.sub.Idle? && s.current < |s.workers|
    case Signal(wakes) =>
      && s.sub.Signalling? && s.sub.w < |s.workers|
      && (wakes <==> s.workers[s.sub.w].pc.Asleep?)   // the signaller itself does not wait
    case StartWait => s.sub.Idle?
    case Check => s.sub.Checking? && s.sub.w < |s.workers|
    case Return => s.sub == Checking(|s.workers|)
    case Peek(w) => w < |s.workers| && s.workers[w].pc.Looking?
    case Finish(w) => w < |s.workers| && w < |s.completed| && s.workers[w].pc.Running? && s.workers[w].queue != []
    case Dequeue(w, wakes) =>
      && w < |s.workers| && s.workers[w].pc.Done? && s.workers[w].queue != []
      && (wakes <==> s.sub == Sleeping(w))            // the dequeuing worker itself does not wait
    case WakeWorker(w) => w < |s.workers| && s.workers[w].pc.Asleep?
    case WakeSubmitter => s.sub.Sleeping?
  }

  function SetWorker(s: State, w: nat, k: Worker): State
    requires w < |s.workers|
  {
    s.(workers := s.workers[w := k])
  }

  function Next(s: State, e: Event): State
    requires Enabled(s, e)
  {
    match e
    case Submit(j) =>
      var w := s.current;
      var k := s.workers[w];
      SetWorker(s, w, k.(queue := k.queue + [j])).(
        current := (w + 1) % |s.workers|,
        sub := if k.queue == [] then Signalling(w) else Idle,
        submitted := s.submitted + [j])
    case Signal(wakes) =>
      var w := s.sub.w;
      (if wakes then SetWorker(s, w, s.workers[w].(pc := Looking)) else s).(sub := Idle)
    case StartWait => s.(sub := Checking(0))
    case Check =>
      var w := s.sub.w;
      s.(sub := if s.workers[w].queue == [] then Checking(w + 1) else Sleeping(w))
    case Return => s.(sub := Idle)
    case Peek(w) =>
      var k := s.workers[w];
      SetWorker(s, w, k.(pc := if k.queue == [] then Asleep else Running))
    case Finish(w) =>
      var k := s.workers[w];
      SetWorker(s, w, k.(pc := Done)).(completed := s.completed[w := s.completed[w] + [k.queue[0]]])
    case Dequeue(w, wakes) =>
      var k := s.workers[w];
      SetWorker(s, w, Worker(k.queue[1..], Looking)).(sub := if wakes then Checking(w) else s.sub)
    case WakeWorker(w) => SetWorker(s, w, s.workers[w].(pc := Looking))
    case WakeSubmitter => s.(sub := Checking(s.sub.w))
  }

  // ------------------------------------------------ the invariant

  // The worker that gets the k-th job: current_worker steps round the workers.
  function Turn(k: nat, n: nat): (w: nat)
    requires n > 0
    ensures w < n
  {
    if k == 0 then 0 else (Turn(k - 1, n) + 1) % n
  }

  // The jobs that round robin gives to worker `w` of `n`.
  function Share(js: seq<Job>, n: nat, w: nat): seq<Job>
    requires n > 0
  {
    if js == [] then []
    else Share(js[..|js| - 1], n, w) + if Turn(|js| - 1, n) == w then [js[|js| - 1]] else []
  }

  // What a worker has still to run.
  function Waiting(k: Worker): seq<Job> {
    if k.pc.Done? && k.queue != [] then k.queue[1..] else k.queue
  }

  ghost predicate WorkerOk(s: State, w: nat)
    requires w < |s.workers| == |s.completed|
  {
    var k := s.workers[w];
    // every job given to the worker has run, in order, or waits, in order
    && Share(s.submitted, |s.workers|, w) == s.completed[w] + Waiting(k)
    && (k.pc.Running? || k.pc.Done? ==> k.queue != [])
    // no lost wakeup: a worker asleep on a non-empty queue is owed a signal
    && (k.pc.Asleep? && k.queue != [] ==> s.sub == Signalling(w))
  }

  ghost predicate SubmitterOk(s: State) {
    match s.sub
    case Idle => true
    case Signalling(w) => w < |s.workers|
    // the queues already found empty stay empty
    case Checking(w) => w <= |s.workers| && AllEmptyBelow(s, w)
    // no lost wakeup: the submitter only sleeps on a non-empty queue
    case Sleeping(w) => w < |s.workers| && AllEmptyBelow(s, w) && s.workers[w].queue != []
  }

  ghost predicate AllEmptyBelow(s: State, w: nat)
    requires w <= |s.workers|
  {
    forall i :: 0 <= i < w ==> s.workers[i].queue == []
  }

  ghost predicate Inv(s: State) {
    && |s.workers| == |s.completed| > 0
    && s.current == Turn(|s.submitted|, |s.workers|)
    && (forall w {:trigger s.workers[w]} :: 0 <= w < |s.workers| ==> WorkerOk(s, w))
    && SubmitterOk(s)
  }

  lemma InitialInv(n: nat)
    requires n > 0
    ensures Inv(Initial(n))
  {
    forall w | 0 <= w < n ensures WorkerOk(Initial(n), w) {
      assert Share([], n, w) == [];
    }
  }

  // A step leaves a worker alone, or is the submitter's or the worker's own.
  lemma StepKeepsWorker(s: State, e: Event, w: nat)
    requires Inv(s) && Enabled(s, e) && w < |s.workers|
    ensures |Next(s, e).workers| == |s.workers| == |Next(s, e).completed| && WorkerOk(Next(s, e), w)
  {
    assert WorkerOk(s, w);
    match e
    case Submit(j) => SubmitKeepsWorker(s, j, w);
    case Signal(_) =>
    case StartWait =>
    case Check =>
    case Return =>
    case Peek(_) =>
    case Finish(v) => FinishKeepsWorker(s, v, w);
    case Dequeue(v, wakes) => DequeueKeepsWorker(s, v, wakes, w);
    case WakeWorker(_) =>
    case WakeSubmitter =>
  }

  lemma SubmitKeepsWorker(s: State, j: Job, w: nat)
    requires |s.workers| == |s.completed| > 0 && s.current == Turn(|s.submitted|, |s.workers|)
    requires w < |s.workers| && WorkerOk(s, w) && Enabled(s, Submit(j))
    ensures |Next(s, Submit(j)).workers| == |s.workers| && WorkerOk(Next(s, Submit(j)), w)
  {
    var t := Next(s, Submit(j));
    assert t.submitted[..|t.submitted| - 1] == s.submitted;
    var n, k := |s.workers|, s.workers[w];
    if w == s.current {
      assert Share(t.submitted, n, w) == Share(s.submitted, n, w) + [j];
      assert Waiting(t.workers[w]) == Waiting(k) + [j];
    } else {
      assert Share(t.submitted, n, w) == Share(s.submitted, n, w);
    }
  }

  lemma FinishKeepsWorker(s: State, v: nat, w: nat)
    requires Inv(s) && Enabled(s, Finish(v)) && w < |s.workers|
    ensures WorkerOk(Next(s, Finish(v)), w)
  {
    hide Share;
    assert WorkerOk(s, w);
    if v == w {
      var q := s.workers[w].queue;
      assert q == [q[0]] + q[1..];
    }
  }

  lemma DequeueKeepsWorker(s: State, v: nat, wakes: bool, w: nat)
    requires Inv(s) && Enabled(s, Dequeue(v, wakes)) && w < |s.workers|
    ensures WorkerOk(Next(s, Dequeue(v, wakes)), w)
  {
    hide Share;
    assert WorkerOk(s, w);
  }

  lemma StepKeepsSubmitter(s: State, e: Event)
    requires Inv(s) && Enabled(s, e)
    ensures SubmitterOk(Next(s, e))
  {
    assert SubmitterOk(s);
    hide WorkerOk, Share, AllEmptyBelow;
    var t := Next(s, e);
    if !e.Submit? {
      EmptyStaysEmpty(s, e);
      match s.sub
      case Checking(w) =>
        EmptyBelowStays(s, t, w);
        if e.Check? && s.workers[w].queue == [] { OneMoreEmpty(t, w); }
      case Sleeping(w) => EmptyBelowStays(s, t, w);
      case Idle => NoneBelow(t);
      case Signalling(_) =>
    }
  }

  // Only the submitter fills a queue.
  ghost predicate NoneFilled(s: State, t: State) {
    |t.workers| == |s.workers|
    && forall i {:trigger s.workers[i]} {:trigger t.workers[i]} ::
         0 <= i < |s.workers| && s.workers[i].queue == [] ==> t.workers[i].queue == []
  }

  lemma EmptyStaysEmpty(s: State, e: Event)
    requires Enabled(s, e) && !e.Submit?
    ensures NoneFilled(s, Next(s, e))
  {
  }

  lemma EmptyBelowStays(s: State, t: State, w: nat)
    requires NoneFilled(s, t) && w <= |s.workers| && AllEmptyBelow(s, w)
    ensures AllEmptyBelow(t, w)
  {
  }

  lemma NoneBelow(s: State)
    ensures AllEmptyBelow(s, 0)
  {
  }

  lemma OneMoreEmpty(s: State, w: nat)
    requires w < |s.workers| && AllEmptyBelow(s, w) && s.workers[w].queue == []
    ensures AllEmptyBelow(s, w + 1)
  {
  }

  lemma StepKeepsInv(s: State, e: Event)
    requires Inv(s) && Enabled(s, e)
    ensures Inv(Next(s, e))
  {
    var t := Next(s, e);
    StepKeepsWorker(s, e, 0);
    StepKeepsSubmitter(s, e);
    hide WorkerOk, SubmitterOk, Share;
    forall w | 0 <= w < |t.workers| ensures WorkerOk(t, w) {
      StepKeepsWorker(s, e, w);
    }
  }

  // ------------------------------------------------ runs

  predicate IsRun(s: State, es: seq<Event>)
    decreases |es|
  {
    es == [] || (Enabled(s, es[0]) && IsRun(Next(s, es[0]), es[1..]))
  }

  function After(s: State, es: seq<Event>): State
    requires IsRun(s, es)
    decreases |es|
  {
    if es == [] then s else After(Next(s, es[0]), es[1..])
  }

  // The jobs submitted in a run, in order.
  function Submissions(es: seq<Event>): seq<Job> {
    if es == [] then []
    else (if es[0].Submit? then [es[0].j] else []) + Submissions(es[1..])
  }

  lemma {:induction false} SubmittedIs(s: State, es: seq<Event>)
    requires IsRun(s, es)
    ensures After(s, es).submitted == s.submitted + Submissions(es)
    decreases |es|
  {
    if es != [] {
      SubmittedIs(Next(s, es[0]), es[1..]);
      assert Next(s, es[0]).submitted == s.submitted + if es[0].Submit? then [es[0].j] else [];
    }
  }

  lemma {:induction false} RunKeepsInv(s: State, es: seq<Event>)
    requires Inv(s) && IsRun(s, es)
    ensures Inv(After(s, es)) && |After(s, es).workers| == |s.workers|
    decreases |es|
  {
    if es != [] {
      StepKeepsInv(s, es[0]);
      RunKeepsInv(Next(s, es[0]), es[1..]);
    }
  }

  // In no reachable state is a wakeup lost: whoever sleeps although it could go on is owed a
  // signal that has not been sent yet.
  lemma NoLostWakeup(n: nat, es: seq<Event>, w: nat)
    requires n > 0 && IsRun(Initial(n), es) && w < n
    ensures var s := After(Initial(n), es);
            && |s.workers| == n
            && (s.workers[w].pc.Asleep? && s.workers[w].queue != [] ==> s.sub == Signalling(w))
            && (s.sub == Sleeping(w) ==> s.workers[w].queue != [])
  {
    hide IsRun, After, Initial, Share;
    InitialInv(n);
    InitialWorkers(n);
    RunKeepsInv(Initial(n), es);
    var s := After(Initial(n), es);
    assert WorkerOk(s, w) && SubmitterOk(s);
  }

  lemma InitialWorkers(n: nat)
    ensures |Initial(n).workers| == n
  {
  }

  // ------------------------------------------------ round robin

  // Where the k-th job stands in the share of its worker.
  ghost function Position(js: seq<Job>, n: nat, v: nat, k: nat): nat
    requires n > 0 && k <= |js|
  {
    |Share(js[..k], n, v)|
  }

  lemma {:induction false} ShareAt(js: seq<Job>, n: nat, v: nat, k: nat)
    requires n > 0 && k < |js| && Turn(k, n) == v
    ensures Position(js, n, v, k) < |Share(js, n, v)| && Share(js, n, v)[Position(js, n, v, k)] == js[k]
    decreases |js|
  {
    hide Turn;
    var init := js[..|js| - 1];
    if k < |js| - 1 {
      assert js[..k] == init[..k] && init[k] == js[k];
      ShareAt(init, n, v, k);
    } else {
      assert js[..k] == init;
    }
  }

  lemma {:induction false} ShareGrows(js: seq<Job>, n: nat, v: nat, k: nat, l: nat)
    requires n > 0 && k <= l <= |js|
    ensures Position(js, n, v, k) <= Position(js, n, v, l)
    ensures k < l && Turn(k, n) == v ==> Position(js, n, v, k) < Position(js, n, v, l)
    decreases l - k
  {
    hide Turn;
    if k < l {
      ShareGrows(js, n, v, k, l - 1);
      assert js[..l][..l - 1] == js[..l - 1];
      assert |js[..l]| - 1 == l - 1;
    }
  }

  lemma {:induction false} ShareHas(js: seq<Job>, n: nat, v: nat, x: nat) returns (k: nat)
    requires n > 0 && x < |Share(js, n, v)|
    ensures k < |js| && Turn(k, n) == v && Position(js, n, v, k) == x && js[k] == Share(js, n, v)[x]
    decreases |js|
  {
    hide Turn;
    var init := js[..|js| - 1];
    if x < |Share(init, n, v)| {
      k := ShareHas(init, n, v, x);
      assert js[..k] == init[..k];
    } else {
      k := |js| - 1;
    }
  }

  // `d * n` is within `n` of zero only for `d == 0`.
  lemma NoMultiple(d: int, n: int)
    requires n > 0 && -n < d * n < n
    ensures d == 0
  {
    if d >= 1 { Multiples(1, d, n); }
    if d <= -1 { Multiples(d, -1, n); }
  }

  lemma {:induction false} Multiples(a: int, b: int, n: int)
    requires a <= b && n > 0
    ensures a * n <= b * n
    decreases b - a
  {
    if a < b {
      Multiples(a, b - 1, n);
      assert b * n == (b - 1) * n + n;
    }
  }

  lemma DivModParts(k: nat, n: nat)
    requires n > 0
    ensures k == (k / n) * n + k % n && k % n < n
  {
  }

  lemma DivModIs(k: nat, n: nat, q: nat, r: nat)
    requires r < n && k == q * n + r
    ensures k / n == q && k % n == r
  {
    DivModParts(k, n);
    var d := k / n - q;
    assert d * n == (k / n) * n - q * n;
    NoMultiple(d, n);
  }

  // Going `i` places on from place `m`, less than once round.
  lemma PlacesOn(m: nat, i: nat, n: nat)
    requires i < n
    ensures if m % n + i < n then (m + i) / n == m / n && (m + i) % n == m % n + i
            else (m + i) / n == m / n + 1 && (m + i) % n == m % n + i - n
  {
    DivModParts(m, n);
    PlacesFrom(m, i, n, m / n, m % n);
  }

  lemma PlacesFrom(m: nat, i: nat, n: nat, q: nat, r: nat)
    requires i < n && r < n && m == q * n + r
    ensures if r + i < n then (m + i) / n == q && (m + i) % n == r + i
            else (m + i) / n == q + 1 && (m + i) % n == r + i - n
  {
    if r + i < n {
      DivModIs(m + i, n, q, r + i);
    } else {
      assert (q + 1) * n == q * n + n;
      DivModIs(m + i, n, q + 1, r + i - n);
    }
  }

  lemma OneOn(k: nat, n: nat)
    requires n > 0
    ensures if k % n + 1 < n then (k + 1) / n == k / n && (k + 1) % n == k % n + 1
            else (k + 1) / n == k / n + 1 && (k + 1) % n == 0
  {
    if n > 1 {
      PlacesOn(k, 1, n);
    } else {
      DivModIs(k, n, k, 0);
      DivModIs(k + 1, n, k + 1, 0);
    }
  }

  // The k-th job goes to worker k modulo n.
  lemma {:induction false} TurnIs(k: nat, n: nat)
    requires n > 0
    ensures Turn(k, n) == k % n
  {
    if k == 0 {
      DivModIs(0, n, 0, 0);
    } else {
      TurnIs(k - 1, n);
      OneOn(k - 1, n);
      NextTurn(Turn(k - 1, n), n);
    }
  }

  lemma NextTurn(w: nat, n: nat)
    requires w < n
    ensures (w + 1) % n == if w + 1 < n then w + 1 else 0
  {
    if w + 1 < n {
      DivModIs(w + 1, n, 0, w + 1);
    } else {
      DivModIs(w + 1, n, 1, 0);
    }
  }

  // Of the first `|js|` jobs, a worker gets one in each full round, and one more if the last
  // round has come to it.
  lemma {:induction false} ShareSize(js: seq<Job>, n: nat, w: nat)
    requires w < n
    ensures |Share(js, n, w)| == |js| / n + if w < |js| % n then 1 else 0
    decreases |js|
  {
    if js != [] {
      var init := js[..|js| - 1];
      ShareSize(init, n, w);
      TurnIs(|init|, n);
      OneOn(|init|, n);
    }
  }

  // So job number k is number k / n of worker k % n.
  lemma ShareHasAt(js: seq<Job>, n: nat, k: nat)
    requires n > 0 && k < |js|
    ensures k / n < |Share(js, n, k % n)| && Share(js, n, k % n)[k / n] == js[k]
  {
    TurnIs(k, n);
    ShareAt(js, n, k % n, k);
    ShareSize(js[..k], n, k % n);
  }

  // ------------------------------------------------ the barrier

  // wait_all_finish returns only when every job submitted so far has run, each worker having
  // run exactly its share, in the order of submission.
  lemma BarrierMeansDone(n: nat, es: seq<Event>, w: nat)
    requires n > 0 && IsRun(Initial(n), es) && Enabled(After(Initial(n), es), Return) && w < n
    ensures var s := After(Initial(n), es);
            && |s.workers| == |s.completed| == n
            && s.workers[w].queue == [] && !s.workers[w].pc.Running?
            && s.completed[w] == Share(Submissions(es), n, w)
  {
    hide IsRun, After, Share, Submissions;
    InitialInv(n);
    InitialWorkers(n);
    RunKeepsInv(Initial(n), es);
    SubmittedIs(Initial(n), es);
    hide Initial;
    var s := After(Initial(n), es);
    assert WorkerOk(s, w) && SubmitterOk(s);
    assert s.completed[w] + [] == s.completed[w];
    assert [] + Submissions(es) == Submissions(es);
  }

  // In numbers: then the k-th job submitted is the one that worker k modulo n ran as its number
  // k / n, and no worker ran anything else.
  lemma BarrierInRounds(n: nat, es: seq<Event>, k: nat)
    requires n > 0 && IsRun(Initial(n), es) && Enabled(After(Initial(n), es), Return) && k < |Submissions(es)|
    ensures var done := After(Initial(n), es).completed;
            |done| == n && k / n < |done[k % n]| && done[k % n][k / n] == Submissions(es)[k]
  {
    hide IsRun, After, Initial, Share, Submissions;
    DivModParts(k, n);
    BarrierMeansDone(n, es, k % n);
    ShareHasAt(Submissions(es), n, k);
  }

  lemma BarrierCounts(n: nat, es: seq<Event>, w: nat)
    requires n > 0 && IsRun(Initial(n), es) && Enabled(After(Initial(n), es), Return) && w < n
    ensures var done, total := After(Initial(n), es).completed, |Submissions(es)|;
            |done| == n && |done[w]| == total / n + if w < total % n then 1 else 0
  {
    hide IsRun, After, Initial, Share, Submissions;
    BarrierMeansDone(n, es, w);
    ShareSize(Submissions(es), n, w);
  }

  // ------------------------------------------------ progress and termination

  // Steps the threads take on their own: no new call by the client and no spurious wakeup.
  predicate Internal(e: Event) {
    e.Signal? || e.Check? || e.Return? || e.Peek? || e.Finish? || e.Dequeue?
  }

  // A worker with a job that is not asleep has its next step, whatever the others do.
  lemma WorkerCanGoOn(s: State, w: nat) returns (e: Event)
    requires Inv(s) && w < |s.workers| && s.workers[w].queue != []
    requires s.workers[w].pc.Asleep? ==> !s.sub.Signalling?
    ensures (e.Peek? || e.Finish? || e.Dequeue?) && e.w == w && Enabled(s, e)
  {
    assert WorkerOk(s, w);
    match s.workers[w].pc
    case Looking => e := Peek(w);
    case Running => e := Finish(w);
    case Done => e := Dequeue(w, s.sub == Sleeping(w));
  }

  // No deadlock: while a job is queued or the submitter is inside a call, some thread can step.
  lemma Progress(s: State) returns (e: Event)
    requires Inv(s)
    requires s.sub != Idle || exists w :: 0 <= w < |s.workers| && s.workers[w].queue != []
    ensures Internal(e) && Enabled(s, e)
  {
    assert SubmitterOk(s);
    match s.sub
    case Signalling(w) => e := Signal(s.workers[w].pc.Asleep?);
    case Checking(w) => e := if w < |s.workers| then Check else Return;
    case Sleeping(w) => e := WorkerCanGoOn(s, w);
    case Idle =>
      var w :| 0 <= w < |s.workers| && s.workers[w].queue != [];
      e := WorkerCanGoOn(s, w);
  }

  function WorkerMeasure(k: Worker): nat {
    6 * |k.queue| + match k.pc case Looking => 2 case Running => 1 case Done => 0 case Asleep => 0
  }

  function WorkersMeasure(ks: seq<Worker>): nat {
    if ks == [] then 0 else WorkersMeasure(ks[..|ks| - 1]) + WorkerMeasure(ks[|ks| - 1])
  }

  // How many steps the threads can still take on their own.
  function Measure(s: State): int {
    WorkersMeasure(s.workers) +
    match s.sub
    case Idle => 0
    case Signalling(_) => 3
    case Checking(w) => 2 * (|s.workers| - w) + 1
    case Sleeping(w) => 2 * (|s.workers| - w)
  }

  lemma {:induction false} MeasureUpdate(ks: seq<Worker>, w: nat, k: Worker)
    requires w < |ks|
    ensures WorkersMeasure(ks[w := k]) == WorkersMeasure(ks) - WorkerMeasure(ks[w]) + WorkerMeasure(k)
  {
    var ks' := ks[w := k];
    var last := |ks| - 1;
    if w == last {
      assert ks'[..last] == ks[..last];
    } else {
      assert ks'[..last] == ks[..last][w := k];
      MeasureUpdate(ks[..last], w, k);
    }
  }

  lemma StepDecreases(s: State, e: Event)
    requires Inv(s) && Enabled(s, e) && Internal(e)
    ensures 0 <= Measure(Next(s, e)) < Measure(s)
  {
    StepKeepsInv(s, e);
    assert SubmitterOk(s) && SubmitterOk(Next(s, e));
    hide Inv, Measure;
    MeasureIsNat(Next(s, e));
    if e.Peek? || e.Finish? || e.Dequeue? {
      WorkerStepDecreases(s, e);
    } else {
      SubmitterStepDecreases(s, e);
    }
  }

  lemma MeasureIsNat(s: State)
    requires SubmitterOk(s)
    ensures Measure(s) >= 0
  {
  }

  lemma WorkerStepDecreases(s: State, e: Event)
    requires Enabled(s, e) && (e.Peek? || e.Finish? || e.Dequeue?)
    ensures Measure(Next(s, e)) < Measure(s)
  {
    hide WorkersMeasure;
    MeasureUpdate(s.workers, e.w, Next(s, e).workers[e.w]);
  }

  lemma SubmitterStepDecreases(s: State, e: Event)
    requires Enabled(s, e) && Internal(e) && !e.Peek? && !e.Finish? && !e.Dequeue?
    ensures Measure(Next(s, e)) < Measure(s)
  {
    hide WorkersMeasure;
    if e.Signal? && e.wakesWorker {
      MeasureUpdate(s.workers, s.sub.w, Next(s, e).workers[s.sub.w]);
    }
  }

  lemma {:induction false} InternalRunsAreShort(s: State, es: seq<Event>)
    requires Inv(s) && IsRun(s, es) && forall e :: e in es ==> Internal(e)
    ensures |es| <= Measure(s) - Measure(After(s, es))
    decreases |es|
  {
    if es != [] {
      assert es[0] in es;
      StepDecreases(s, es[0]);
      StepKeepsInv(s, es[0]);
      InternalRunsAreShort(Next(s, es[0]), es[1..]);
    }
  }

  // However the threads are scheduled, without a new call they come to rest after at most
  // `Measure(s)` steps, and then every queue is empty and the submitter's call has returned.
  lemma EveryCallReturns(s: State, es: seq<Event>)
    requires Inv(s) && IsRun(s, es) && forall e :: e in es ==> Internal(e)
    ensures |es| <= Measure(s)
    ensures (forall e :: Internal(e) ==> !Enabled(After(s, es), e)) ==>
              && After(s, es).sub == Idle
              && forall k :: k in After(s, es).workers ==> k.queue == []
  {
    InternalRunsAreShort(s, es);
    RunKeepsInv(s, es);
    var t := After(s, es);
    assert SubmitterOk(t);
    MeasureIsNat(t);
    if t.sub != Idle || exists w :: 0 <= w < |t.workers| && t.workers[w].queue != [] {
      var e := Progress(t);
    }
  }

  // ------------------------------------------------ the scheduler is a pool of jobs

  // What a client may rely on: jobs wait in no particular order, any waiting job may be the
  // next to run, and the barrier passes only when nothing waits.
  datatype Pool = Pool(waiting: multiset<Job>, ran: multiset<Job>)

  ghost predicate PoolStep(p: Pool, q: Pool, e: Event) {
    match e
    case Submit(j) => q == Pool(p.waiting + multiset{j}, p.ran)
    case Finish(_) => exists j :: j in p.waiting && q == Pool(p.waiting - multiset{j}, p.ran + multiset{j})
    case Return => q == p && p.waiting == multiset{}
    case _ => q == p
  }

  function Gather(qs: seq<seq<Job>>): multiset<Job> {
    if qs == [] then multiset{} else Gather(qs[..|qs| - 1]) + multiset(qs[|qs| - 1])
  }

  function Waitings(ks: seq<Worker>): seq<seq<Job>> {
    seq(|ks|, i requires 0 <= i < |ks| => Waiting(ks[i]))
  }

  function Abstract(s: State): Pool {
    Pool(Gather(Waitings(s.workers)), Gather(s.completed))
  }

  lemma {:induction false} GatherUpdate(qs: seq<seq<Job>>, w: nat, q: seq<Job>)
    requires w < |qs|
    ensures multiset(qs[w]) <= Gather(qs)
    ensures Gather(qs[w := q]) == Gather(qs) - multiset(qs[w]) + multiset(q)
  {
    var qs' := qs[w := q];
    var last := |qs| - 1;
    if w == last {
      assert qs'[..last] == qs[..last];
    } else {
      assert qs'[..last] == qs[..last][w := q];
      GatherUpdate(qs[..last], w, q);
    }
  }

  lemma {:induction false} GatherEmpty(qs: seq<seq<Job>>)
    requires forall i :: 0 <= i < |qs| ==> qs[i] == []
    ensures Gather(qs) == multiset{}
  {
    if qs != [] { GatherEmpty(qs[..|qs| - 1]); }
  }

  lemma WaitingsUpdate(ks: seq<Worker>, w: nat, k: Worker)
    requires w < |ks|
    ensures Waitings(ks[w := k]) == Waitings(ks)[w := Waiting(k)]
    ensures Waiting(k) == Waiting(ks[w]) ==> Waitings(ks[w := k]) == Waitings(ks)
  {
  }

  lemma RefinesSubmit(s: State, j: Job)
    requires Inv(s) && Enabled(s, Submit(j))
    ensures PoolStep(Abstract(s), Abstract(Next(s, Submit(j))), Submit(j))
  {
    hide Share, Gather;
    var t, w := Next(s, Submit(j)), s.current;
    var k, was := t.workers[w], s.workers[w];
    assert WorkerOk(s, w);
    assert Waiting(k) == Waiting(was) + [j];
    WaitingsUpdate(s.workers, w, k);
    GatherUpdate(Waitings(s.workers), w, Waiting(k));
  }

  lemma RefinesFinish(s: State, w: nat)
    requires Inv(s) && Enabled(s, Finish(w))
    ensures var j, p := s.workers[w].queue[0], Abstract(s);
            j in p.waiting && Abstract(Next(s, Finish(w))) == Pool(p.waiting - multiset{j}, p.ran + multiset{j})
    ensures PoolStep(Abstract(s), Abstract(Next(s, Finish(w))), Finish(w))
  {
    hide Share, Gather, Inv, SubmitterOk;
    var t := Next(s, Finish(w));
    var k, q := t.workers[w], s.workers[w].queue;
    assert Waiting(s.workers[w]) == q && Waiting(k) == q[1..];
    WaitingsUpdate(s.workers, w, k);
    GatherUpdate(Waitings(s.workers), w, q[1..]);
    GatherUpdate(s.completed, w, s.completed[w] + [q[0]]);
    MovesOne(q, s.completed[w], Abstract(s), Abstract(t));
  }

  lemma MovesOne(q: seq<Job>, c: seq<Job>, p: Pool, p': Pool)
    requires q != [] && multiset(q) <= p.waiting && multiset(c) <= p.ran
    requires p'.waiting == p.waiting - multiset(q) + multiset(q[1..])
    requires p'.ran == p.ran - multiset(c) + multiset(c + [q[0]])
    ensures q[0] in p.waiting && p' == Pool(p.waiting - multiset{q[0]}, p.ran + multiset{q[0]})
  {
    assert q == [q[0]] + q[1..];
    assert multiset(q) == multiset{q[0]} + multiset(q[1..]);
    assert multiset(c + [q[0]]) == multiset(c) + multiset{q[0]};
    assert q[0] in multiset(q);
    assert p'.waiting == p.waiting - multiset{q[0]};
    assert p'.ran == p.ran + multiset{q[0]};
  }

  lemma RefinesPool(s: State, e: Event)
    requires Inv(s) && Enabled(s, e)
    ensures PoolStep(Abstract(s), Abstract(Next(s, e)), e)
  {
    hide Share, Gather;
    var t := Next(s, e);
    match e
    case Submit(j) => RefinesSubmit(s, j);
    case Finish(w) => RefinesFinish(s, w);
    case Return =>
      assert SubmitterOk(s);
      GatherEmpty(Waitings(s.workers));
    case Signal(_) => if e.wakesWorker { WaitingsUpdate(s.workers, s.sub.w, t.workers[s.sub.w]); }
    case Peek(w) => WaitingsUpdate(s.workers, w, t.workers[w]);
    case Dequeue(w, _) => WaitingsUpdate(s.workers, w, t.workers[w]);
    case WakeWorker(w) => WaitingsUpdate(s.workers, w, t.workers[w]);
    case StartWait =>
    case Check =>
    case WakeSubmitter =>
  }

  // A job waits in the pool exactly if it waits at a worker.
  lemma PooledIffWaiting(s: State, j: Job)
    ensures j in Abstract(s).waiting <==> exists w :: 0 <= w < |s.workers| && j in Waiting(s.workers[w])
  {
    var qs := Waitings(s.workers);
    GatheredIff(qs, j);
    if exists w :: 0 <= w < |s.workers| && j in Waiting(s.workers[w]) {
      var w :| 0 <= w < |s.workers| && j in Waiting(s.workers[w]);
      assert j in qs[w];
    }
    if i :| 0 <= i < |qs| && j in qs[i] {
      assert j in Waiting(s.workers[i]);
    }
  }

  lemma {:induction false} GatheredIff(qs: seq<seq<Job>>, j: Job)
    ensures j in Gather(qs) <==> exists i :: 0 <= i < |qs| && j in qs[i]
  {
    if qs != [] {
      var init, last := qs[..|qs| - 1], qs[|qs| - 1];
      GatheredIff(init, j);
      if i :| 0 <= i < |init| && j in init[i] { assert qs[i] == init[i]; }
      if j in Gather(qs) && j !in Gather(init) { assert j in qs[|qs| - 1]; }
      if i :| 0 <= i < |qs| && j in qs[i] {
        assert i < |init| ==> init[i] == qs[i];
      }
    }
  }

  ghost predicate Balanced(s: State) {
    Abstract(s).waiting + Abstract(s).ran == multiset(s.submitted)
  }

  lemma StepKeepsBalance(s: State, e: Event)
    requires Inv(s) && Enabled(s, e) && Balanced(s)
    ensures Balanced(Next(s, e))
  {
    hide *;
    RefinesPool(s, e);
    SubmittedAfter(s, e);
    BalancedIs(s);
    BalancedIs(Next(s, e));
    PoolKeepsBalance(Abstract(s), Abstract(Next(s, e)), e, s.submitted);
  }

  lemma SubmittedAfter(s: State, e: Event)
    requires Enabled(s, e)
    ensures Next(s, e).submitted == s.submitted + if e.Submit? then [e.j] else []
  {
  }

  lemma BalancedIs(s: State)
    ensures Balanced(s) <==> Abstract(s).waiting + Abstract(s).ran == multiset(s.submitted)
  {
    hide Abstract;
  }

  lemma PoolKeepsBalance(p: Pool, q: Pool, e: Event, js: seq<Job>)
    requires PoolStep(p, q, e) && p.waiting + p.ran == multiset(js)
    ensures q.waiting + q.ran == multiset(js + if e.Submit? then [e.j] else [])
  {
    if e.Submit? {
      assert multiset(js + [e.j]) == multiset(js) + multiset{e.j};
    } else {
      assert js + [] == js;
    }
  }

  // Conservation over whole runs: every job submitted is waiting or has run, exactly once.
  lemma {:induction false} Conservation(s: State, es: seq<Event>)
    requires Inv(s) && IsRun(s, es) && Balanced(s)
    ensures var t := After(s, es); Abstract(t).waiting + Abstract(t).ran == multiset(s.submitted + Submissions(es))
    decreases |es|
  {
    hide Submissions, Enabled, Next, Inv, Abstract;
    SubmittedIs(s, es);
    if es != [] {
      StepKeepsInv(s, es[0]);
      StepKeepsBalance(s, es[0]);
      SubmittedIs(Next(s, es[0]), es[1..]);
      Conservation(Next(s, es[0]), es[1..]);
    }
  }

  // When wait_all_finish returns, the jobs that ran are exactly the jobs submitted.
  lemma BarrierRanAll(n: nat, es: seq<Event>)
    requires n > 0 && IsRun(Initial(n), es) && Enabled(After(Initial(n), es), Return)
    ensures Gather(After(Initial(n), es).completed) == multiset(Submissions(es))
  {
    SubmittedIs(Initial(n), es);
    assert [] + Submissions(es) == Submissions(es);
    InitialInv(n);
    RunKeepsInv(Initial(n), es);
    GatherEmpty(Initial(n).completed);
    GatherEmpty(Waitings(Initial(n).workers));
    Conservation(Initial(n), es);
    RefinesPool(After(Initial(n), es), Return);
  }
}
