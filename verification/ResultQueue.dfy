/** finished_results of src/core.cpp: a concurrent queue (include/qs/queue.hpp) with several
    producers, the threads that end documents, and one consumer, the client in GetNextAvailRes.

    As in Scheduling, a step is one section under the mutex or one signal.  A producer that finds
    the queue empty owes a signal once it has unlocked; several producers may owe one at a time. */
module ResultQueues {

  // Idle: between calls.  Looking: about to lock the queue in `peek`.  Asleep: waiting there.
  // Peeked: `peek` has returned the head, `dequeue` is to come.
  datatype ConsumerPc = Idle | Looking | Asleep | Peeked

  // `delivered` is history: what the calls have returned.
  datatype State<R> = State(queue: seq<R>, owing: set<nat>, pc: ConsumerPc, delivered: seq<R>)

  function Initial<R>(): State<R> {
    State([], {}, Idle, [])
  }

  datatype Event<R> =
    | Enqueue(producer: nat, r: R)
    | Signal(producer: nat, wakes: bool)
    | Call
    | Look
    | Take
    | WakeUp       // spurious

  predicate Enabled<R>(s: State<R>, e: Event<R>) {
    match e
    case Enqueue(p, _) => p !in s.owing
    case Signal(p, wakes) => p in s.owing && (wakes <==> s.pc.Asleep?)   // nobody else waits
    case Call => s.pc.Idle?
    case Look => s.pc.Looking?
    case Take => s.pc.Peeked? && s.queue != []
    case WakeUp => s.pc.Asleep?
  }

  function Next<R>(s: State<R>, e: Event<R>): State<R>
    requires Enabled(s, e)
  {
    match e
    case Enqueue(p, r) =>
      s.(queue := s.queue + [r],
         owing := if s.queue == [] then s.owing + {p} else s.owing)
    case Signal(p, wakes) => s.(owing := s.owing - {p}, pc := if wakes then Looking else s.pc)
    case Call => s.(pc := Looking)
    case Look => s.(pc := if s.queue == [] then Asleep else Peeked)
    case Take => s.(queue := s.queue[1..], pc := Idle, delivered := s.delivered + [s.queue[0]])
    case WakeUp => s.(pc := Looking)
  }

  // ------------------------------------------------ the invariant

  ghost predicate Inv<R>(s: State<R>) {
    && (s.pc.Peeked? ==> s.queue != [])
    // no lost wakeup: a consumer asleep on a non-empty queue is owed a signal
    && (s.pc.Asleep? && s.queue != [] ==> s.owing != {})
  }

  lemma StepKeepsInv<R>(s: State<R>, e: Event<R>)
    requires Inv(s) && Enabled(s, e)
    ensures Inv(Next(s, e))
  {
  }

  predicate IsRun<R>(s: State<R>, es: seq<Event<R>>)
    decreases |es|
  {
    es == [] || (Enabled(s, es[0]) && IsRun(Next(s, es[0]), es[1..]))
  }

  function After<R>(s: State<R>, es: seq<Event<R>>): State<R>
    requires IsRun(s, es)
    decreases |es|
  {
    if es == [] then s else After(Next(s, es[0]), es[1..])
  }

  lemma {:induction false} RunKeepsInv<R>(s: State<R>, es: seq<Event<R>>)
    requires Inv(s) && IsRun(s, es)
    ensures Inv(After(s, es))
    decreases |es|
  {
    hide Enabled, Next, Inv;
    if es != [] {
      StepKeepsInv(s, es[0]);
      RunKeepsInv(Next(s, es[0]), es[1..]);
    }
  }

  // The results that the producers put in during a run, in order.
  function Results<R>(es: seq<Event<R>>): seq<R> {
    if es == [] then []
    else (if es[0].Enqueue? then [es[0].r] else []) + Results(es[1..])
  }

  // They come out in the order they went in, each once.
  lemma {:induction false} ResultsInOrder<R>(s: State<R>, es: seq<Event<R>>)
    requires IsRun(s, es)
    ensures After(s, es).delivered + After(s, es).queue == s.delivered + s.queue + Results(es)
    decreases |es|
  {
    if es != [] {
      var t := Next(s, es[0]);
      StepInOrder(s, es[0]);
      hide Next, Enabled;
      ResultsInOrder(t, es[1..]);
    }
  }

  lemma StepInOrder<R>(s: State<R>, e: Event<R>)
    requires Enabled(s, e)
    ensures Next(s, e).delivered + Next(s, e).queue == s.delivered + s.queue + if e.Enqueue? then [e.r] else []
  {
    if e.Take? {
      assert s.queue == [s.queue[0]] + s.queue[1..];
    }
  }

  // In no reachable state does GetNextAvailRes sleep on a finished document without a producer
  // about to wake it; and what it has returned, followed by what is in the queue, is what the
  // producers put in.
  lemma NoResultIsSleptOn<R>(es: seq<Event<R>>)
    requires IsRun(Initial<R>(), es)
    ensures var s := After(Initial<R>(), es);
            && (s.pc.Asleep? && s.queue != [] ==> exists p :: p in s.owing && Enabled(s, Signal(p, true)))
            && s.delivered + s.queue == Results(es)
  {
    RunKeepsInv(Initial<R>(), es);
    ResultsInOrder(Initial<R>(), es);
    var s := After(Initial<R>(), es);
    hide IsRun, After, Results;
    assert [] + [] + Results(es) == Results(es);
    if s.pc.Asleep? && s.queue != [] {
      var p :| p in s.owing;
      assert Enabled(s, Signal(p, true));
    }
  }

  // ------------------------------------------------ every call returns

  // Steps taken without a new result, a new call or a spurious wakeup.
  predicate Internal<R>(e: Event<R>) {
    e.Signal? || e.Look? || e.Take?
  }

  lemma Progress<R>(s: State<R>) returns (e: Event<R>)
    requires Inv(s) && !s.pc.Idle? && s.queue != []
    ensures Internal(e) && Enabled(s, e)
  {
    match s.pc
    case Looking => e := Look;
    case Peeked => e := Take;
    case Asleep =>
      var p :| p in s.owing;
      e := Signal(p, true);
  }

  function Measure<R>(s: State<R>): nat {
    3 * |s.owing| + match s.pc case Looking => 2 case Peeked => 1 case Asleep => 0 case Idle => 0
  }

  lemma StepDecreases<R>(s: State<R>, e: Event<R>)
    requires Enabled(s, e) && Internal(e)
    ensures Measure(Next(s, e)) < Measure(s)
  {
    if e.Signal? {
      assert s.owing == Next(s, e).owing + {e.producer};
    }
  }

  // The call of the client is still open on the queue `q`, or has returned the head of it.
  ghost predicate Serving<R>(q: seq<R>, delivered: seq<R>, s: State<R>)
    requires q != []
  {
    || (!s.pc.Idle? && s.queue == q && s.delivered == delivered)
    || (s.pc.Idle? && s.queue == q[1..] && s.delivered == delivered + [q[0]])
  }

  lemma {:induction false} InternalRun<R>(s: State<R>, es: seq<Event<R>>, q: seq<R>, delivered: seq<R>)
    requires Inv(s) && IsRun(s, es) && forall e :: e in es ==> Internal(e)
    requires q != [] && Serving(q, delivered, s)
    ensures |es| <= Measure(s) && Inv(After(s, es)) && Serving(q, delivered, After(s, es))
    decreases |es|
  {
    if es != [] {
      assert es[0] in es;
      StepKeepsInv(s, es[0]);
      StepDecreases(s, es[0]);
      InternalRun(Next(s, es[0]), es[1..], q, delivered);
    }
  }

  // The threads have nothing more to do on their own.
  ghost predicate AtRest<R(!new)>(s: State<R>) {
    forall e :: Internal(e) ==> !Enabled(s, e)
  }

  ghost predicate RunsToRest<R(!new)>(s: State<R>, es: seq<Event<R>>) {
    IsRun(s, es) && (forall e :: e in es ==> Internal(e)) && AtRest(After(s, es))
  }

  // A call that finds a finished document in the queue returns it, however the threads are
  // scheduled: they come to rest after boundedly many steps, and then the call has returned.
  lemma EveryCallReturns<R(!new)>(s: State<R>, es: seq<Event<R>>)
    requires Inv(s) && !s.pc.Idle? && s.queue != []
    requires IsRun(s, es) && forall e :: e in es ==> Internal(e)
    ensures |es| <= Measure(s)
    ensures AtRest(After(s, es)) ==> After(s, es).pc.Idle? && After(s, es).delivered == s.delivered + [s.queue[0]]
  {
    InternalRun(s, es, s.queue, s.delivered);
    var t := After(s, es);
    hide After, IsRun;
    if !t.pc.Idle? {
      var e := Progress(t);
    }
  }

  // ------------------------------------------------ and when it does not

  // The threads do come to rest.
  lemma {:induction false} RunToRest<R(!new)>(s: State<R>) returns (es: seq<Event<R>>)
    ensures RunsToRest(s, es)
    decreases Measure(s)
  {
    if AtRest(s) {
      es := [];
    } else {
      var e :| Internal(e) && Enabled(s, e);
      StepDecreases(s, e);
      hide Next, Enabled, AtRest, Internal;
      es := RunToRest(Next(s, e));
      es := [e] + es;
    }
  }

  // A call on an empty queue stays open, whatever the threads do without a new result.
  lemma {:induction false} EmptyStaysOpen<R>(s: State<R>, es: seq<Event<R>>)
    requires Inv(s) && !s.pc.Idle? && s.queue == []
    requires IsRun(s, es) && forall e :: e in es ==> !e.Enqueue?
    ensures !After(s, es).pc.Idle?
    decreases |es|
  {
    if es != [] {
      assert es[0] in es;
      StepKeepsInv(s, es[0]);
      EmptyStaysOpen(Next(s, es[0]), es[1..]);
    }
  }

  // With no further result, a call returns under every schedule if and only if the queue is not
  // empty: include/core.h:216-218 promises an error when there is nothing to return, but the
  // code waits.
  lemma CallReturnsIff<R(!new)>(s: State<R>)
    requires Inv(s) && !s.pc.Idle?
    ensures (forall es :: RunsToRest(s, es) ==> After(s, es).pc.Idle?) <==> s.queue != []
  {
    if s.queue == [] {
      var es := RunToRest(s);
      EmptyStaysOpen(s, es);
    } else {
      forall es | RunsToRest(s, es) ensures After(s, es).pc.Idle? {
        EveryCallReturns(s, es);
      }
    }
  }
}
