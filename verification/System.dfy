/** The engine together with its scheduler: the client that calls the functions of src/core.cpp,
    the queues and workers of Scheduling, and the tables of EngineModel.

    The client is one thread.  A call of StartQuery changes the tables and then submits one job
    after the other; EndQuery, and MatchDocument after a start, go through wait_all_finish first.
    A worker takes the head of its queue; an insertion job changes an index when it ends, and a
    document is matched by its jobs while a worker runs it.  `SystemRunsEngine` says that all
    this, in every interleaving, is a run of EngineModel, and `EveryScheduleSettles` that under
    every schedule the calls return and the jobs get done. */
module Systems {
  import opened EngineModel
  import S = Scheduling

  type Job = S.Job

  // ------------------------------------------------ the jobs of the engine

  ghost function AddsOf(adds: set<AddJob>): set<Job> {
    set j | j in adds :: S.AddWord(j.id, j.word)
  }

  ghost function DocJobs(docs: set<DocID>): set<Job> {
    set d | d in docs :: S.MatchDoc(d)
  }

  // The jobs to be submitted to job_scheduler() or submitted and not run to their end.
  ghost function PendingJobs(s: State): set<Job> {
    AddsOf(s.adds) + DocJobs(s.docs.Keys)
  }

  ghost function NewAdds(e: Event): set<AddJob>
    requires e.StartQuery?
  {
    set w | w in TextWords(e.text) :: AddJob(e.id, w)
  }

  // The barrier of the engine: nothing is pending.
  lemma BarrierIff(s: State)
    ensures PendingJobs(s) == {} <==> AllFinished(s)
  {
    if j :| j in s.adds { assert S.AddWord(j.id, j.word) in PendingJobs(s); }
    if d :| d in s.docs { assert S.MatchDoc(d) in PendingJobs(s); }
  }

  lemma PendingIff(s: State, j: Job)
    ensures j in PendingJobs(s) <==> if j.AddWord? then AddJob(j.query, j.word) in s.adds else j.doc in s.docs
  {
  }

  // ------------------------------------------------ the states and steps

  // What the client is doing: sending the jobs that are left of a call, nothing if there are
  // none, or waiting at the barrier of a call.
  datatype Client = Sending(jobs: seq<Job>) | Waiting(call: Event)

  // What the client has seen: a call that got past its barrier, or the result of a document.
  datatype Seen = Called(e: Event) | Got(doc: DocID)

  // `trace`, the steps of the engine, and `seen` are history.
  datatype System = System(eng: State, sch: S.State, client: Client, trace: seq<Event>, seen: seq<Seen>)

  function Boot(n: nat): System {
    System(INITIAL, S.Initial(n), Sending([]), [], [])
  }

  datatype Step =
    | Call(e: Event, order: seq<Job>)     // `order` is that of the hash set of words
    | Send
    | Return
    | Work(q: S.Event)                    // a queue or a worker alone
    | EndAdd(w: nat)
    | EndDoc(w: nat, ids: seq<QueryID>)
    | Begin(w: nat, key: Key, hits: seq<Hit>)
    | Reread(w: nat, key: Key, hits: seq<Hit>)
    | Deliver(w: nat, stream: nat)

  predicate Free(s: System) {
    s.client == Sending([]) && s.sch.sub.Idle?
  }

  // The worker runs a document.
  predicate Matches(s: System, w: nat) {
    && w < |s.sch.workers| && s.sch.workers[w].pc.Running? && s.sch.workers[w].queue != []
    && s.sch.workers[w].queue[0].MatchDoc?
  }

  function Head(s: System, w: nat): Job
    requires w < |s.sch.workers| && s.sch.workers[w].queue != []
  {
    s.sch.workers[w].queue[0]
  }

  // MatchDocument waits after a start, EndQuery always.
  predicate Waits(s: State, e: Event) {
    e.EndQuery? || (e.MatchDocument? && s.started)
  }

  // What the code allows.  The client is polite; nothing is taken for granted of the tables but
  // what the step itself looks at.
  ghost predicate Can(s: System, a: Step) {
    match a
    case Call(e, order) =>
      && Free(s) && Polite(s.eng, e) && !Internal(e)
      && (e.StartQuery? ==> multiset(order) == multiset(AddsOf(NewAdds(e))))
      && (e.GetNextAvailRes? ==> s.eng.finished != [])
    case Send => s.client.Sending? && s.client.jobs != [] && S.Enabled(s.sch, S.Submit(s.client.jobs[0]))
    case Return => s.client.Waiting? && S.Enabled(s.sch, S.Return)
    case Work(q) =>
      && (q.Signal? || q.Check? || q.Peek? || q.Dequeue? || q.WakeWorker? || q.WakeSubmitter?)
      && S.Enabled(s.sch, q)
    case EndAdd(w) => S.Enabled(s.sch, S.Finish(w)) && Head(s, w).AddWord?
    case EndDoc(w, ids) =>
      && S.Enabled(s.sch, S.Finish(w)) && Head(s, w).MatchDoc?
      && (Head(s, w).doc in s.eng.docs ==> Done(s.eng.docs[Head(s, w).doc], ids))
    case Begin(w, key, hits) =>
      Matches(s, w) && (Head(s, w).doc in s.eng.docs ==> CanBegin(s.eng, s.eng.docs[Head(s, w).doc], key, hits))
    case Reread(w, key, hits) =>
      Matches(s, w) && (Head(s, w).doc in s.eng.docs ==> CanRead(s.eng, s.eng.docs[Head(s, w).doc], key, hits))
    case Deliver(w, i) =>
      Matches(s, w) && (Head(s, w).doc in s.eng.docs ==> CanDeliver(s.eng.docs[Head(s, w).doc], i))
  }

  // The jobs of the document have run: the barrier of the scheduler inside match_doc.
  ghost predicate Done(r: DocRun, ids: seq<QueryID>) {
    r.todo == {} && (forall st :: st in r.streams ==> st == []) && Lists(ids, Matched(r.results))
  }

  ghost predicate CanBegin(s: State, r: DocRun, key: Key, hits: seq<Hit>) {
    key in r.todo && forall h :: h in hits <==> h in Found(s, key)
  }

  // A job begun reads its index again and finds more.
  ghost predicate CanRead(s: State, r: DocRun, key: Key, hits: seq<Hit>) {
    && key in Jobs(r.words) && key !in r.todo
    && (forall h :: h in hits ==> h in Found(s, key)) && exists h :: h in hits && h !in Hits(r)
  }

  predicate CanDeliver(r: DocRun, i: nat) {
    i < |r.streams| && r.streams[i] != []
  }

  // The step of the engine, if there is one.
  function EngineSteps(s: System, a: Step): (es: seq<Event>)
    requires a.Return? ==> s.client.Waiting?
    requires a.EndAdd? ==> a.w < |s.sch.workers| && s.sch.workers[a.w].queue != [] && Head(s, a.w).AddWord?
    requires a.EndDoc? || a.Begin? || a.Reread? || a.Deliver? ==>
               a.w < |s.sch.workers| && s.sch.workers[a.w].queue != [] && Head(s, a.w).MatchDoc?
    ensures |es| <= 1
  {
    match a
    case Call(e, _) => if Waits(s.eng, e) then [] else [e]
    case Send => []
    case Return => [s.client.call]
    case Work(_) => []
    case EndAdd(w) => [RunAdd(AddJob(Head(s, w).query, Head(s, w).word))]
    case EndDoc(w, ids) => [FinishDoc(Head(s, w).doc, ids)]
    case Begin(w, key, hits) => [BeginJob(Head(s, w).doc, key, hits)]
    case Reread(w, key, hits) => [ReadAgain(Head(s, w).doc, key, hits)]
    case Deliver(w, i) => [ApplyHit(Head(s, w).doc, i)]
  }

  // The step of the scheduler, if there is one.
  function SchedulerSteps(s: System, a: Step): (qs: seq<S.Event>)
    requires a.Send? ==> s.client.Sending? && s.client.jobs != []
    ensures |qs| <= 1
  {
    match a
    case Call(e, _) => if Waits(s.eng, e) then [S.StartWait] else []
    case Send => [S.Submit(s.client.jobs[0])]
    case Return => [S.Return]
    case Work(q) => [q]
    case EndAdd(w) => [S.Finish(w)]
    case EndDoc(w, _) => [S.Finish(w)]
    case Begin(_, _, _) => []
    case Reread(_, _, _) => []
    case Deliver(_, _) => []
  }

  // Once a call is past its barrier, the jobs it submits.
  function JobsOf(e: Event, order: seq<Job>): seq<Job> {
    match e
    case StartQuery(_, _, _, _) => order
    case MatchDocument(doc, _) => [S.MatchDoc(doc)]
    case _ => []
  }

  function ClientAfter(s: System, a: Step): Client
    requires a.Send? ==> s.client.Sending? && s.client.jobs != []
    requires a.Return? ==> s.client.Waiting?
  {
    match a
    case Call(e, order) => if Waits(s.eng, e) then Waiting(e) else Sending(JobsOf(e, order))
    case Send => Sending(s.client.jobs[1..])
    case Return => Sending(JobsOf(s.client.call, []))
    case _ => s.client
  }

  function SeenBy(s: State, e: Event): seq<Seen> {
    if Internal(e) then []
    else if e.GetNextAvailRes? then (if s.finished != [] then [Got(s.finished[0].doc)] else [])
    else [Called(e)]
  }

  // A step the engine could not take would leave it unchanged.  `EngineAgrees` shows that there
  // is none.
  ghost function Taken(s: State, e: Event): State {
    if Enabled(s, e) then Next(s, e) else s
  }

  ghost function Then(s: System, a: Step): System
    requires Can(s, a)
  {
    var es, qs := EngineSteps(s, a), SchedulerSteps(s, a);
    System(if es == [] then s.eng else Taken(s.eng, es[0]),
           if qs == [] then s.sch else S.Next(s.sch, qs[0]),
           ClientAfter(s, a),
           s.trace + es,
           s.seen + if es == [] then [] else SeenBy(s.eng, es[0]))
  }

  ghost predicate Leads(s: System, steps: seq<Step>, t: System)
    decreases |steps|
  {
    if steps == [] then s == t else Can(s, steps[0]) && Leads(Then(s, steps[0]), steps[1..], t)
  }

  // `t` is attained from the start with `n` threads.
  ghost predicate Attained(n: nat, t: System) {
    exists steps :: Leads(Boot(n), steps, t)
  }

  lemma {:induction false} LeadsOn(s: System, steps: seq<Step>, t: System, more: seq<Step>, u: System)
    requires Leads(s, steps, t) && Leads(t, more, u)
    ensures Leads(s, steps + more, u)
    decreases |steps|
  {
    hide Can, Then;
    if steps == [] {
      assert steps + more == more;
    } else {
      assert (steps + more)[1..] == steps[1..] + more && (steps + more)[0] == steps[0];
      LeadsOn(Then(s, steps[0]), steps[1..], t, more, u);
    }
  }

  lemma OneStep(s: System, a: Step)
    requires Can(s, a)
    ensures Leads(s, [a], Then(s, a))
  {
    hide Can, Then;
    assert Leads(Then(s, a), [a][1..], Then(s, a));
  }

  // ------------------------------------------------ scheduler and engine agree

  function Unsent(s: System): seq<Job> {
    if s.client.Sending? then s.client.jobs else []
  }

  // The jobs that wait at a worker or at the client are the insertions and documents the engine
  // has open, each once.
  ghost predicate SameJobs(s: System) {
    S.Abstract(s.sch).waiting + multiset(Unsent(s)) == multiset(PendingJobs(s.eng))
  }

  ghost predicate ClientOk(s: System) {
    match s.client
    case Sending(_) => s.sch.sub.Idle? || s.sch.sub.Signalling?
    case Waiting(e) =>
      (s.sch.sub.Checking? || s.sch.sub.Sleeping?) && Polite(s.eng, e) && (e.EndQuery? || e.MatchDocument?)
  }

  ghost predicate Coupled(s: System) {
    S.Inv(s.sch) && SameJobs(s) && ClientOk(s) && Sound(s.eng) && Accounted(s.eng)
  }

  lemma BootIsCoupled(n: nat)
    requires n > 0
    ensures Coupled(Boot(n))
  {
    S.InitialInv(n);
    S.GatherEmpty(S.Waitings(S.Initial(n).workers));
    InitialInv();
    InvIsSound(INITIAL);
    NothingToAccount();
    assert PendingJobs(INITIAL) == {};
  }

  // Whatever job a worker runs is open in the engine.
  lemma HeadIsPending(s: System, w: nat)
    requires Coupled(s) && w < |s.sch.workers| && s.sch.workers[w].pc.Running? && s.sch.workers[w].queue != []
    ensures Head(s, w) in PendingJobs(s.eng)
  {
    hide S.Inv, Sound, Accounted, S.Abstract, PendingJobs;
    assert Head(s, w) in S.Waiting(s.sch.workers[w]);
    S.PooledIffWaiting(s.sch, Head(s, w));
    assert Head(s, w) in S.Abstract(s.sch).waiting + multiset(Unsent(s));
  }

  // wait_all_finish returns only when the engine has nothing open.
  lemma ReturnMeansFinished(s: System)
    requires Coupled(s) && Can(s, Return)
    ensures AllFinished(s.eng) && PendingJobs(s.eng) == {} && S.Abstract(s.sch).waiting == multiset{}
    ensures S.Abstract(S.Next(s.sch, S.Return)).waiting == multiset{}
  {
    S.RefinesPool(s.sch, S.Return);
    hide S.Inv, Sound, Accounted, PendingJobs;
    assert multiset(PendingJobs(s.eng)) == multiset{};
    assert forall j :: j in PendingJobs(s.eng) ==> j in multiset(PendingJobs(s.eng));
    BarrierIff(s.eng);
  }

  // Every step of the engine that the system takes is one the engine can take.
  lemma EngineAgrees(s: System, a: Step)
    requires Coupled(s) && Can(s, a)
    ensures forall e :: e in EngineSteps(s, a) ==> Enabled(s.eng, e) && Polite(s.eng, e)
  {
    hide S.Inv, Accounted, SameJobs, S.Abstract, Found, Matched, Lists, TextWords, GoodQuery, GoodDocument;
    match a
    case Call(e, _) =>
      hide Sound;
    case Return =>
      ReturnMeansFinished(s);
      hide Sound;
    case EndAdd(w) =>
      HeadIsPending(s, w);
      PendingIff(s.eng, Head(s, w));
      hide CountersOk, RunOk, QueriesOk;
    case EndDoc(w, _) =>
      HeadIsPending(s, w);
      PendingIff(s.eng, Head(s, w));
      hide Sound;
    case Begin(w, _, _) =>
      HeadIsPending(s, w);
      PendingIff(s.eng, Head(s, w));
      hide Sound;
    case Reread(w, _, _) =>
      HeadIsPending(s, w);
      PendingIff(s.eng, Head(s, w));
      hide Sound, Jobs, Hits;
    case Deliver(w, i) =>
      HeadIsPending(s, w);
      PendingIff(s.eng, Head(s, w));
      DeliveredIsKnown(s.eng, Head(s, w).doc, i);
      hide Sound;
    case Send =>
    case Work(_) =>
  }

  lemma DeliveredIsKnown(s: State, doc: DocID, i: nat)
    requires Sound(s) && doc in s.docs && CanDeliver(s.docs[doc], i)
    ensures s.docs[doc].streams[i][0].id in s.queries
  {
    hide IndexOk, CountersOk, QueriesOk, Summarises, NaiveAmong;
    var r := s.docs[doc];
    assert RunOk(s.queries, r);
    NaiveIsLegal(s.queries, r);
    var st := r.streams[i];
    assert st in r.streams && st[0] in st;
    assert st[0] in Hits(r);
  }

  // The step of the engine, and what becomes of it.
  ghost function Ev(s: System, a: Step): (es: seq<Event>)
    requires Can(s, a)
    ensures |es| <= 1
  {
    EngineSteps(s, a)
  }

  lemma Effect(s: System, a: Step)
    requires Coupled(s) && Can(s, a)
    ensures var es, t := Ev(s, a), Then(s, a);
            if es == [] then t.eng == s.eng && t.seen == s.seen && t.trace == s.trace
            else && Enabled(s.eng, es[0]) && Polite(s.eng, es[0])
                 && t.eng == Next(s.eng, es[0]) && t.seen == s.seen + SeenBy(s.eng, es[0]) && t.trace == s.trace + es
  {
    EngineAgrees(s, a);
    hide Coupled, S.Next, S.Enabled, Found, Polite, Enabled, Next, SeenBy, Done, CanBegin, CanRead, CanDeliver;
    var es := Ev(s, a);
    if es == [] {
      assert s.seen + [] == s.seen && s.trace + [] == s.trace;
    } else {
      assert es[0] in es;
    }
  }

  // ------------------------------------------------ every step keeps them in agreement

  lemma StartPends(s: State, e: Event)
    requires IndexOk(s) && e.StartQuery? && Polite(s, e)
    ensures Enabled(s, e) && PendingJobs(s) !! AddsOf(NewAdds(e))
    ensures PendingJobs(Next(s, e)) == PendingJobs(s) + AddsOf(NewAdds(e))
  {
    hide TextWords, Occurs, GoodQuery;
    var t := Next(s, e);
    assert t.adds == s.adds + NewAdds(e) && t.docs == s.docs;
    assert forall j :: j in s.adds ==> j.id != e.id;
  }

  lemma MatchPends(s: State, e: Event)
    requires Accounted(s) && e.MatchDocument? && Polite(s, e) && Enabled(s, e)
    ensures S.MatchDoc(e.doc) !in PendingJobs(s)
    ensures PendingJobs(Next(s, e)) == PendingJobs(s) + {S.MatchDoc(e.doc)}
  {
    hide TextWords, Matching, Jobs, GoodDocument, OneEach, DocsOf;
    var t := Next(s, e);
    assert e.doc !in s.docs.Keys;
    assert t.adds == s.adds && t.docs.Keys == s.docs.Keys + {e.doc};
  }

  lemma RunAddPends(s: State, job: AddJob)
    requires Enabled(s, RunAdd(job))
    ensures PendingJobs(Next(s, RunAdd(job))) == PendingJobs(s) - {S.AddWord(job.id, job.word)}
  {
  }

  lemma FinishPends(s: State, doc: DocID, ids: seq<QueryID>)
    requires Enabled(s, FinishDoc(doc, ids))
    ensures PendingJobs(Next(s, FinishDoc(doc, ids))) == PendingJobs(s) - {S.MatchDoc(doc)}
  {
    hide Lists, Matched;
  }

  lemma OthersPend(s: State, e: Event)
    requires Enabled(s, e) && (e.EndQuery? || e.GetNextAvailRes? || e.BeginJob? || e.ReadAgain? || e.ApplyHit?)
    ensures PendingJobs(Next(s, e)) == PendingJobs(s)
  {
    hide Found, AddResult, Bump;
    var t := Next(s, e);
    assert t.adds == s.adds && t.docs.Keys == s.docs.Keys;
  }

  // What the scheduler has waiting after a step of it.
  lemma WaitingAfter(s: System, a: Step)
    requires Coupled(s) && Can(s, a)
    ensures var p, q := S.Abstract(s.sch).waiting, S.Abstract(Then(s, a).sch).waiting;
            if a.Send? then q == p + multiset{s.client.jobs[0]}
            else if a.EndAdd? || a.EndDoc? then Head(s, a.w) in p && q == p - multiset{Head(s, a.w)}
            else q == p
  {
    hide Sound, Accounted, SameJobs, S.Abstract, Taken, SeenBy;
    if SchedulerSteps(s, a) != [] {
      S.RefinesPool(s.sch, SchedulerSteps(s, a)[0]);
      if a.EndAdd? || a.EndDoc? { S.RefinesFinish(s.sch, a.w); }
    }
    hide S.Inv;
  }

  lemma StepKeepsJobs(s: System, a: Step)
    requires Coupled(s) && Can(s, a)
    ensures SameJobs(Then(s, a))
  {
    hide Coupled, S.Abstract, PendingJobs, SameJobs, Can, Then;
    match a
    case Call(e, order) => CallKeepsJobs(s, e, order);
    case Return => ReturnKeepsJobs(s);
    case Send => SendKeepsJobs(s);
    case EndAdd(w) => EndKeepsJobs(s, a);
    case EndDoc(w, ids) => EndKeepsJobs(s, a);
    case Begin(_, _, _) => InsideKeepsJobs(s, a);
    case Reread(_, _, _) => InsideKeepsJobs(s, a);
    case Deliver(_, _) => InsideKeepsJobs(s, a);
    case Work(_) => InsideKeepsJobs(s, a);
  }

  lemma SameJobsIs(s: System)
    requires Coupled(s)
    ensures S.Abstract(s.sch).waiting + multiset(Unsent(s)) == multiset(PendingJobs(s.eng))
    ensures IndexOk(s.eng) && Accounted(s.eng)
  {
    hide S.Inv, S.Abstract, PendingJobs, Unsent, IndexOk, Accounted, CountersOk, QueriesOk, RunOk;
  }

  lemma SameJobsIf(s: System)
    requires S.Abstract(s.sch).waiting + multiset(Unsent(s)) == multiset(PendingJobs(s.eng))
    ensures SameJobs(s)
  {
    hide S.Abstract, PendingJobs, Unsent;
  }

  // What the client has to send after a step.
  lemma UnsentAfter(s: System, a: Step)
    requires Can(s, a)
    ensures Unsent(Then(s, a)) ==
            match a
            case Call(e, order) => if Waits(s.eng, e) then [] else JobsOf(e, order)
            case Send => s.client.jobs[1..]
            case Return => JobsOf(s.client.call, [])
            case _ => Unsent(s)
    ensures a.Call? ==> Unsent(s) == [] && !Internal(a.e)
    ensures a.Send? ==> Unsent(s) == [s.client.jobs[0]] + s.client.jobs[1..]
    ensures a.Return? ==> Unsent(s) == []
  {
    hide S.Enabled, S.Next, Polite, Waits, JobsOf, Taken, SeenBy, Done, CanBegin, CanRead, CanDeliver;
  }

  lemma InsideKeepsJobs(s: System, a: Step)
    requires Coupled(s) && Can(s, a) && (a.Begin? || a.Reread? || a.Deliver? || a.Work?)
    ensures SameJobs(Then(s, a))
  {
    hide *;
    Effect(s, a);
    UnsentAfter(s, a);
    WaitingAfter(s, a);
    SameJobsIs(s);
    InsideIs(s, a);
    if Ev(s, a) != [] { OthersPend(s.eng, Ev(s, a)[0]); }
    SameJobsIf(Then(s, a));
  }

  lemma InsideIs(s: System, a: Step)
    requires Can(s, a) && (a.Begin? || a.Reread? || a.Deliver? || a.Work?)
    ensures Ev(s, a) == [] || Ev(s, a)[0].BeginJob? || Ev(s, a)[0].ReadAgain? || Ev(s, a)[0].ApplyHit?
  {
    hide S.Enabled, CanBegin, CanRead, CanDeliver;
  }

  lemma EndKeepsJobs(s: System, a: Step)
    requires Coupled(s) && Can(s, a) && (a.EndAdd? || a.EndDoc?)
    ensures SameJobs(Then(s, a))
  {
    hide *;
    Effect(s, a);
    UnsentAfter(s, a);
    WaitingAfter(s, a);
    SameJobsIs(s);
    EndIs(s, a);
    var j := Head(s, a.w);
    if j.AddWord? {
      RunAddPends(s.eng, AddJob(j.query, j.word));
    } else {
      FinishPends(s.eng, j.doc, a.ids);
    }
    OneJobLess(S.Abstract(s.sch).waiting, multiset(Unsent(s)), PendingJobs(s.eng), j);
    SameJobsIf(Then(s, a));
  }

  lemma EndIs(s: System, a: Step)
    requires Can(s, a) && (a.EndAdd? || a.EndDoc?)
    ensures a.w < |s.sch.workers| && s.sch.workers[a.w].queue != []
    ensures var j := Head(s, a.w);
            if j.AddWord? then j == S.AddWord(j.query, j.word) && Ev(s, a) == [RunAdd(AddJob(j.query, j.word))]
            else a.EndDoc? && j == S.MatchDoc(j.doc) && Ev(s, a) == [FinishDoc(j.doc, a.ids)]
  {
    hide Done;
  }

  lemma OneJobLess(p: multiset<Job>, u: multiset<Job>, js: set<Job>, j: Job)
    requires p + u == multiset(js) && j in p
    ensures p - multiset{j} + u == multiset(js - {j})
  {
    assert j in p + u;
    assert multiset(js - {j}) == multiset(js) - multiset{j};
  }

  lemma SendKeepsJobs(s: System)
    requires Coupled(s) && Can(s, Send)
    ensures SameJobs(Then(s, Send))
  {
    hide *;
    Effect(s, Send);
    UnsentAfter(s, Send);
    WaitingAfter(s, Send);
    SameJobsIs(s);
    SendIs(s);
    SameJobsIf(Then(s, Send));
  }

  lemma SendIs(s: System)
    requires Can(s, Send)
    ensures Ev(s, Send) == []
  {
  }

  lemma CallKeepsJobs(s: System, e: Event, order: seq<Job>)
    requires Coupled(s) && Can(s, Call(e, order))
    ensures SameJobs(Then(s, Call(e, order)))
  {
    hide *;
    var a := Call(e, order);
    Effect(s, a);
    UnsentAfter(s, a);
    WaitingAfter(s, a);
    SameJobsIs(s);
    CallIs(s, e, order);
    if !Waits(s.eng, e) { JobsPend(s.eng, e, order); }
    SameJobsIf(Then(s, a));
  }

  lemma CallIs(s: System, e: Event, order: seq<Job>)
    requires Can(s, Call(e, order))
    ensures Ev(s, Call(e, order)) == if Waits(s.eng, e) then [] else [e]
    ensures e.StartQuery? ==> multiset(order) == multiset(AddsOf(NewAdds(e)))
  {
    hide Polite, AddsOf, NewAdds, Waits;
  }

  // The call opens the jobs that it submits.
  lemma JobsPend(s: State, e: Event, order: seq<Job>)
    requires IndexOk(s) && Accounted(s) && Enabled(s, e) && Polite(s, e) && !Internal(e)
    requires e.StartQuery? ==> multiset(order) == multiset(AddsOf(NewAdds(e)))
    ensures multiset(PendingJobs(Next(s, e))) == multiset(PendingJobs(s)) + multiset(JobsOf(e, order))
  {
    hide IndexOk, Accounted, Enabled, Polite, Next, PendingJobs, AddsOf, NewAdds;
    if e.StartQuery? {
      StartPends(s, e);
      MoreJobs(PendingJobs(s), AddsOf(NewAdds(e)));
    } else if e.MatchDocument? {
      MatchPends(s, e);
      MoreJobs(PendingJobs(s), {S.MatchDoc(e.doc)});
    } else {
      OthersPend(s, e);
    }
  }

  lemma MoreJobs(a: set<Job>, b: set<Job>)
    requires a !! b
    ensures multiset(a + b) == multiset(a) + multiset(b)
  {
  }

  lemma ReturnKeepsJobs(s: System)
    requires Coupled(s) && Can(s, Return)
    ensures SameJobs(Then(s, Return))
  {
    hide *;
    Effect(s, Return);
    UnsentAfter(s, Return);
    WaitingAfter(s, Return);
    SameJobsIs(s);
    ReturnIs(s);
    JobsPend(s.eng, s.client.call, []);
    SameJobsIf(Then(s, Return));
  }

  lemma ReturnIs(s: System)
    requires Coupled(s) && Can(s, Return)
    ensures s.client.Waiting? && Ev(s, Return) == [s.client.call]
    ensures s.client.call.EndQuery? || s.client.call.MatchDocument?
    ensures !Internal(s.client.call)
  {
    hide S.Inv, SameJobs, Sound, Accounted, Polite;
  }

  lemma PoliteStays(s: State, e: Event, d: Event)
    requires Polite(s, e) && (e.EndQuery? || e.MatchDocument?) && Internal(d) && Enabled(s, d)
    ensures Polite(Next(s, d), e)
  {
    hide GoodQuery, GoodDocument, Found, Matched, Lists, AddResult;
  }

  lemma StepKeepsClient(s: System, a: Step)
    requires Coupled(s) && Can(s, a)
    ensures ClientOk(Then(s, a))
  {
    Effect(s, a);
    CoupledClient(s);
    hide *;
    if s.client.Waiting? && !a.Return? {
      WaiterStays(s, a);
      var es := Ev(s, a);
      if es != [] { PoliteStays(s.eng, s.client.call, es[0]); }
      WaiterIf(s, Then(s, a));
    } else {
      SenderIf(s, a);
    }
  }

  lemma CoupledClient(s: System)
    requires Coupled(s)
    ensures ClientOk(s)
  {
    hide S.Inv, SameJobs, ClientOk, Sound, Accounted;
  }

  // While a call waits, only the threads take steps.
  lemma WaiterStays(s: System, a: Step)
    requires ClientOk(s) && Can(s, a) && s.client.Waiting? && !a.Return?
    ensures Then(s, a).client == s.client && (Then(s, a).sch.sub.Checking? || Then(s, a).sch.sub.Sleeping?)
    ensures forall e :: e in Ev(s, a) ==> Internal(e)
  {
    hide Polite, Taken, SeenBy, Done, CanBegin, CanRead, CanDeliver;
  }

  lemma WaiterIf(s: System, t: System)
    requires ClientOk(s) && s.client.Waiting? && t.client == s.client && (t.sch.sub.Checking? || t.sch.sub.Sleeping?)
    requires Polite(t.eng, s.client.call)
    ensures ClientOk(t)
  {
    hide Polite;
  }

  lemma SenderIf(s: System, a: Step)
    requires ClientOk(s) && Can(s, a) && (s.client.Waiting? ==> a.Return?)
    ensures ClientOk(Then(s, a))
  {
    hide Polite, Taken, SeenBy, Done, CanBegin, CanRead, CanDeliver;
  }

  lemma StepKeepsCoupled(s: System, a: Step)
    requires Coupled(s) && Can(s, a)
    ensures Coupled(Then(s, a))
  {
    Effect(s, a);
    StepKeepsJobs(s, a);
    StepKeepsClient(s, a);
    SchedulerGoesOn(s, a);
    var es := Ev(s, a);
    hide Can, Then, Ev, SameJobs, ClientOk, S.Inv, Sound, Accounted, Next, Enabled, Polite;
    if es != [] {
      StepKeepsSound(s.eng, es[0]);
      StepKeepsAccount(s.eng, es[0]);
    }
  }

  lemma SchedulerGoesOn(s: System, a: Step)
    requires S.Inv(s.sch) && Can(s, a)
    ensures S.Inv(Then(s, a).sch) && |Then(s, a).sch.workers| == |s.sch.workers|
  {
    var qs := SchedulerSteps(s, a);
    if qs != [] { S.StepKeepsInv(s.sch, qs[0]); }
    hide S.Inv, Found, Taken, SeenBy, TextWords, Polite;
  }

  lemma {:induction false} LeadsKeepsCoupled(s: System, steps: seq<Step>, t: System)
    requires Coupled(s) && Leads(s, steps, t)
    ensures Coupled(t) && |t.sch.workers| == |s.sch.workers|
    decreases |steps|
  {
    hide Can, Then, S.Inv, SameJobs, ClientOk, Sound, Accounted;
    if steps != [] {
      StepKeepsCoupled(s, steps[0]);
      SchedulerGoesOn(s, steps[0]);
      LeadsKeepsCoupled(Then(s, steps[0]), steps[1..], t);
    }
  }

  // ------------------------------------------------ no interleaving is left out

  // The job that a worker runs when a step is taken on its own.
  function JobOf(e: Event): Job
    requires Internal(e)
  {
    if e.RunAdd? then S.AddWord(e.job.id, e.job.word) else S.MatchDoc(e.doc)
  }

  // Conversely to EngineAgrees: whatever the engine can do for the job of a worker that runs it,
  // that worker can do next.
  lemma EngineIsOffered(s: System, w: nat, e: Event) returns (a: Step)
    requires S.Inv(s.sch) && w < |s.sch.workers| && s.sch.workers[w].pc.Running? && s.sch.workers[w].queue != []
    requires Internal(e) && Enabled(s.eng, e) && Head(s, w) == JobOf(e)
    ensures Can(s, a) && Ev(s, a) == [e] && (e.ReadAgain? ==> a.Reread?)
  {
    assert S.WorkerOk(s.sch, w);
    hide S.Inv, Found, Matched, Lists, Jobs, Hits, Polite;
    match e
    case RunAdd(_) => a := EndAdd(w);
    case BeginJob(_, key, hits) => a := Begin(w, key, hits);
    case ReadAgain(_, key, hits) => a := Reread(w, key, hits);
    case ApplyHit(_, i) => a := Deliver(w, i);
    case FinishDoc(_, ids) => a := EndDoc(w, ids);
  }

  // What the queues and workers can do on their own, and the return of a call, can be next.
  lemma SchedulerIsOffered(s: System, q: S.Event)
    requires Coupled(s) && S.Enabled(s.sch, q) && !q.Submit? && !q.StartWait? && !q.Finish?
    ensures if q.Return? then Can(s, Return) else Can(s, Work(q))
  {
    CoupledClient(s);
    hide Coupled, Polite;
  }

  // A client that is free can make any polite call, with the words of a query in any order; and
  // a client with jobs to send can send once the last signal is out.
  lemma ClientIsOffered(s: System, e: Event, order: seq<Job>)
    requires S.Inv(s.sch)
    ensures (&& Free(s) && Polite(s.eng, e) && !Internal(e) && (e.GetNextAvailRes? ==> s.eng.finished != [])
             && (e.StartQuery? ==> multiset(order) == multiset(AddsOf(NewAdds(e))))) ==> Can(s, Call(e, order))
    ensures s.client.Sending? && s.client.jobs != [] && s.sch.sub.Idle? ==> Can(s, Send)
  {
    hide S.WorkerOk, Polite, AddsOf, NewAdds;
  }

  // A worker that runs a document finds, with a job that has begun, what has become indexed since.
  lemma RereadFinds(s: System, w: nat, key: Key, h: Hit) returns (a: Step)
    requires Coupled(s) && Matches(s, w) && Head(s, w).doc in s.eng.docs
    requires var r := s.eng.docs[Head(s, w).doc];
             key in Jobs(r.words) && key !in r.todo && h !in Hits(r)
    requires NaiveHit(s.eng.queries, key, h) && AddJob(h.id, h.word) !in s.eng.adds
    ensures var doc := Head(s, w).doc;
            && Can(s, a) && doc in Then(s, a).eng.docs
            && h in Hits(Then(s, a).eng.docs[doc]) && Then(s, a).eng.docs[doc].todo == s.eng.docs[doc].todo
            && Then(s, a).sch == s.sch && Then(s, a).client == s.client
  {
    hide *;
    MatchesIs(s, w);
    CoupledScheduler(s);
    CoupledIsSound(s);
    var e := JobReadsOn(s.eng, Head(s, w).doc, key, h);
    JobOfDoc(e);
    a := EngineIsOffered(s, w, e);
    Effect(s, a);
    OnlyTables(s, a);
  }

  lemma MatchesIs(s: System, w: nat)
    requires Matches(s, w)
    ensures w < |s.sch.workers| && s.sch.workers[w].pc.Running? && s.sch.workers[w].queue != []
    ensures Head(s, w).MatchDoc? && Head(s, w) == S.MatchDoc(Head(s, w).doc)
  {
  }

  lemma JobOfDoc(e: Event)
    requires e.ReadAgain?
    ensures Internal(e) && JobOf(e) == S.MatchDoc(e.doc)
  {
  }

  lemma OnlyTables(s: System, a: Step)
    requires Can(s, a) && a.Reread?
    ensures Then(s, a).sch == s.sch && Then(s, a).client == s.client
  {
    hide Polite, S.Enabled, S.Next, Taken, SeenBy, Done, CanBegin, CanRead, CanDeliver;
  }

  // ------------------------------------------------ no call is lost

  // The calls made in a run, in order.
  function CallsOf(steps: seq<Step>): seq<Event> {
    if steps == [] then []
    else (if steps[0].Call? then [steps[0].e] else []) + CallsOf(steps[1..])
  }

  // The calls among the steps of the engine, and among what the client has seen.
  function ClientEvents(es: seq<Event>): seq<Event> {
    if es == [] then []
    else ClientEvents(es[..|es| - 1]) + if Internal(es[|es| - 1]) then [] else [es[|es| - 1]]
  }

  function Outline(seen: seq<Seen>): seq<Event> {
    if seen == [] then []
    else
      var last := seen[|seen| - 1];
      Outline(seen[..|seen| - 1]) + [if last.Called? then last.e else GetNextAvailRes]
  }

  function OpenCall(c: Client): seq<Event> {
    if c.Waiting? then [c.call] else []
  }

  // A call joins the calls that are past their barrier, or stays open.
  lemma StepTakesCalls(s: System, a: Step)
    requires Coupled(s) && Can(s, a)
    ensures Outline(Then(s, a).seen) + OpenCall(Then(s, a).client)
            == Outline(s.seen) + OpenCall(s.client) + if a.Call? then [a.e] else []
  {
    hide *;
    Effect(s, a);
    CallMoves(s, a);
    var es := Ev(s, a);
    var o, x := Outline(s.seen), if es == [] || Internal(es[0]) then [] else [es[0]];
    if es == [] {
      assert o == o + x;
    } else {
      OutlineMore(s.eng, s.seen, es[0]);
    }
    assert o + x + OpenCall(Then(s, a).client) == o + (x + OpenCall(Then(s, a).client));
    assert o + OpenCall(s.client) + (if a.Call? then [a.e] else []) ==
           o + (OpenCall(s.client) + if a.Call? then [a.e] else []);
  }

  // The call of the engine at a step, and the open call before and after.
  lemma CallMoves(s: System, a: Step)
    requires Coupled(s) && Can(s, a)
    ensures var es, open, made := Ev(s, a), OpenCall(s.client), if a.Call? then [a.e] else [];
            (if es == [] || Internal(es[0]) then [] else [es[0]]) + OpenCall(Then(s, a).client) == open + made
    ensures Ev(s, a) != [] && Ev(s, a)[0].GetNextAvailRes? ==> s.eng.finished != []
  {
    hide S.Inv, SameJobs, Sound, Accounted, S.Enabled, S.Next, Polite, Taken, SeenBy, JobsOf;
    hide Done, CanBegin, CanRead, CanDeliver, AddsOf, NewAdds;
  }

  lemma OutlineMore(s: State, seen: seq<Seen>, e: Event)
    requires e.GetNextAvailRes? ==> s.finished != []
    ensures Outline(seen + SeenBy(s, e)) == Outline(seen) + if Internal(e) then [] else [e]
  {
    var more := seen + SeenBy(s, e);
    if Internal(e) {
      assert more == seen;
    } else {
      assert more[..|more| - 1] == seen;
    }
  }

  // In every run, the calls of the client are taken in order, each once: those seen, and the one
  // that is still open.
  lemma {:induction false} CallsAreTaken(s: System, steps: seq<Step>, t: System)
    requires Coupled(s) && Leads(s, steps, t)
    ensures Outline(t.seen) + OpenCall(t.client) == Outline(s.seen) + OpenCall(s.client) + CallsOf(steps)
    decreases |steps|
  {
    hide Can, Then, Coupled, Outline, OpenCall;
    if steps != [] {
      StepTakesCalls(s, steps[0]);
      StepKeepsCoupled(s, steps[0]);
      CallsAreTaken(Then(s, steps[0]), steps[1..], t);
    }
  }

  // And they are the calls in the run of the engine.
  lemma {:induction false} TraceHasCalls(s: System, steps: seq<Step>, t: System)
    requires Coupled(s) && Leads(s, steps, t) && ClientEvents(s.trace) == Outline(s.seen)
    ensures ClientEvents(t.trace) == Outline(t.seen)
    decreases |steps|
  {
    hide Can, Then, Coupled, Outline, ClientEvents, Ev, Next, Enabled, Polite, SeenBy;
    if steps != [] {
      var a := steps[0];
      Effect(s, a);
      CallMoves(s, a);
      StepKeepsCoupled(s, a);
      var es := Ev(s, a);
      if es != [] {
        assert es == [es[0]];
        OutlineMore(s.eng, s.seen, es[0]);
        TraceMore(s.trace, es[0]);
      }
      TraceHasCalls(Then(s, a), steps[1..], t);
    }
  }

  lemma TraceMore(es: seq<Event>, e: Event)
    ensures ClientEvents(es + [e]) == ClientEvents(es) + if Internal(e) then [] else [e]
  {
    assert (es + [e])[..|es|] == es;
  }

  // ------------------------------------------------ every call returns

  // Steps without a new call and without a spurious wakeup.
  predicate Own(a: Step) {
    !a.Call? && (a.Work? ==> S.Internal(a.q))
  }

  // In lexicographic order: the barrier of the call, its submissions, the work of the engine,
  // the steps of the scheduler.
  ghost predicate LessToDo(t: System, s: System) {
    || (t.client.Sending? && s.client.Waiting?)
    || (t.client.Sending? == s.client.Sending? && |Unsent(t)| < |Unsent(s)|)
    || (t.client == s.client && LessLeft(t.eng, s.eng))
    || (t.client == s.client && t.eng == s.eng && 0 <= S.Measure(t.sch) < S.Measure(s.sch))
  }

  // Every step of the client's call, the queues or the workers leaves less to do, so no schedule
  // goes on for ever.
  lemma StepLeavesLess(s: System, a: Step)
    requires Coupled(s) && Can(s, a) && Own(a)
    ensures LessToDo(Then(s, a), s)
  {
    hide *;
    Effect(s, a);
    UnsentAfter(s, a);
    OwnKind(s, a);
    var es := Ev(s, a);
    if a.Work? {
      CoupledScheduler(s);
      S.StepDecreases(s.sch, a.q);
      WorkIsLess(s, Then(s, a));
    } else if a.Send? || a.Return? {
      ClientIsLess(s, Then(s, a));
    } else {
      InternalLeavesLess(s.eng, es[0]);
      EngineIsLess(s, Then(s, a));
    }
  }

  lemma OwnKind(s: System, a: Step)
    requires Coupled(s) && Can(s, a) && Own(a)
    ensures a.Return? ==> s.client.Waiting? && Then(s, a).client.Sending?
    ensures a.Send? ==> s.client.Sending? && Then(s, a).client.Sending?
    ensures !a.Return? && !a.Send? ==> Then(s, a).client == s.client
    ensures if a.Work? then
              && Ev(s, a) == [] && S.Enabled(s.sch, a.q) && S.Internal(a.q) && Then(s, a).sch == S.Next(s.sch, a.q)
            else a.Send? || a.Return? || (Ev(s, a) != [] && Internal(Ev(s, a)[0]))
  {
    hide Coupled, S.Enabled, S.Next, S.Internal, Polite, Taken, SeenBy, Done, CanBegin, CanRead, CanDeliver;
  }

  lemma CoupledScheduler(s: System)
    requires Coupled(s)
    ensures S.Inv(s.sch)
  {
  }

  lemma WorkIsLess(s: System, t: System)
    requires t.client == s.client && t.eng == s.eng
    requires 0 <= S.Measure(t.sch) < S.Measure(s.sch)
    ensures LessToDo(t, s)
  {
    hide S.Measure, LessLeft;
  }

  lemma ClientIsLess(s: System, t: System)
    requires (t.client.Sending? && s.client.Waiting?)
             || (t.client.Sending? == s.client.Sending? && |Unsent(t)| < |Unsent(s)|)
    ensures LessToDo(t, s)
  {
    hide S.Measure, LessLeft;
  }

  lemma EngineIsLess(s: System, t: System)
    requires t.client == s.client && LessLeft(t.eng, s.eng)
    ensures LessToDo(t, s)
  {
    hide S.Measure, LessLeft;
  }

  // And as long as a call is open or a job is left, something can step.  So under every schedule
  // all calls return and all jobs run.
  lemma SystemProgress(s: System) returns (a: Step)
    requires Coupled(s) && !(Free(s) && PendingJobs(s.eng) == {})
    ensures Own(a) && Can(s, a)
  {
    hide *;
    CoupledScheduler(s);
    if s.client.Sending? && s.client.jobs != [] && s.sch.sub.Idle? {
      a := Send;
      CanSend(s);
    } else {
      SomethingMoves(s);
      var q := S.Progress(s.sch);
      if q.Finish? {
        a := RunProgress(s, q.w);
      } else {
        a := if q.Return? then Return else Work(q);
        CanWork(s, q, a);
      }
    }
  }

  lemma CanSend(s: System)
    requires S.Inv(s.sch) && s.client.Sending? && s.client.jobs != [] && s.sch.sub.Idle?
    ensures Own(Send) && Can(s, Send)
  {
    hide S.WorkerOk;
  }

  lemma CanWork(s: System, q: S.Event, a: Step)
    requires Coupled(s) && S.Internal(q) && S.Enabled(s.sch, q) && !q.Finish?
    requires a == if q.Return? then Return else Work(q)
    ensures Own(a) && Can(s, a)
  {
    CoupledClient(s);
    hide Coupled, Polite;
  }

  lemma SomethingMoves(s: System)
    requires Coupled(s) && !(Free(s) && PendingJobs(s.eng) == {})
    requires !(s.client.Sending? && s.client.jobs != [] && s.sch.sub.Idle?)
    ensures s.sch.sub != S.Idle || exists w :: 0 <= w < |s.sch.workers| && s.sch.workers[w].queue != []
  {
    CoupledClient(s);
    SameJobsIs(s);
    hide Coupled, PendingJobs, S.Abstract, Polite;
    if s.sch.sub.Idle? {
      var j :| j in PendingJobs(s.eng);
      S.PooledIffWaiting(s.sch, j);
      assert j in multiset(PendingJobs(s.eng));
      assert Unsent(s) == [];
      var w :| 0 <= w < |s.sch.workers| && j in S.Waiting(s.sch.workers[w]);
      assert s.sch.workers[w].queue != [];
    }
  }

  // A worker that runs a job can go on with it: no job waits for another.
  lemma RunProgress(s: System, w: nat) returns (a: Step)
    requires Coupled(s) && S.Enabled(s.sch, S.Finish(w))
    ensures Own(a) && Can(s, a)
  {
    hide *;
    RunsHead(s, w);
    HeadIsPending(s, w);
    PendingIff(s.eng, Head(s, w));
    if Head(s, w).AddWord? {
      a := EndAdd(w);
      CanEndAdd(s, w);
    } else {
      CoupledIsSound(s);
      var e := DocProgress(s.eng, Head(s, w).doc);
      a := StepForDoc(s, w, e);
    }
  }

  lemma RunsHead(s: System, w: nat)
    requires S.Enabled(s.sch, S.Finish(w))
    ensures w < |s.sch.workers| && s.sch.workers[w].pc.Running? && s.sch.workers[w].queue != []
  {
  }

  lemma CoupledIsSound(s: System)
    requires Coupled(s)
    ensures Sound(s.eng) && Accounted(s.eng)
  {
    hide S.Inv, SameJobs, Sound, Accounted;
  }

  lemma CanEndAdd(s: System, w: nat)
    requires S.Enabled(s.sch, S.Finish(w)) && w < |s.sch.workers| && s.sch.workers[w].queue != [] && Head(s, w).AddWord?
    ensures Own(EndAdd(w)) && Can(s, EndAdd(w))
  {
  }

  lemma StepForDoc(s: System, w: nat, e: Event) returns (a: Step)
    requires S.Enabled(s.sch, S.Finish(w)) && w < |s.sch.workers| && s.sch.workers[w].queue != []
    requires Head(s, w).MatchDoc? && Enabled(s.eng, e)
    requires (e.BeginJob? || e.ApplyHit? || e.FinishDoc?) && e.doc == Head(s, w).doc
    ensures Own(a) && Can(s, a)
  {
    hide Found, Lists, Matched, Polite;
    match e
    case BeginJob(_, key, hits) => a := Begin(w, key, hits);
    case ApplyHit(_, i) => a := Deliver(w, i);
    case FinishDoc(_, ids) => a := EndDoc(w, ids);
  }

  // Whatever steps are taken without a new call, the client becomes free and no job is left.
  least predicate Settles(s: System) {
    AtRest(s) || ((exists a :: Own(a) && Can(s, a)) && forall a :: Own(a) && Can(s, a) ==> Settles(Then(s, a)))
  }

  ghost predicate AtRest(s: System) {
    Free(s) && PendingJobs(s.eng) == {}
  }

  // Under every schedule, all calls return and all jobs run.
  lemma {:induction false} EveryScheduleSettles(s: System)
    requires Coupled(s)
    ensures Settles(s)
    decreases s.client.Waiting?, |Unsent(s)|, s.eng.adds, s.eng.docs.Keys, TodoLeft(s.eng.docs),
              Unread(s.eng), HitsLeft(s.eng.docs), S.Measure(s.sch)
  {
    hide Can, Then, Coupled, Own, LessToDo, AtRest, TodoLeft, Unread, HitsLeft, Unsent, S.Measure;
    MeasureOk(s);
    if !AtRest(s) {
      NotAtRest(s);
      var _ := SystemProgress(s);
      forall a | Own(a) && Can(s, a) ensures Settles(Then(s, a)) {
        StepKeepsCoupled(s, a);
        StepLeavesLess(s, a);
        LessIsLess(Then(s, a), s);
        EveryScheduleSettles(Then(s, a));
      }
    }
  }

  lemma NotAtRest(s: System)
    requires !AtRest(s)
    ensures !(Free(s) && PendingJobs(s.eng) == {})
  {
    hide PendingJobs;
  }

  lemma MeasureOk(s: System)
    requires Coupled(s)
    ensures S.Measure(s.sch) >= 0
  {
    CoupledScheduler(s);
    hide Coupled;
    S.MeasureIsNat(s.sch);
  }

  lemma LessIsLess(t: System, s: System)
    requires LessToDo(t, s)
    ensures (s.client.Waiting?, |Unsent(s)|, s.eng.adds, s.eng.docs.Keys, TodoLeft(s.eng.docs),
            Unread(s.eng), HitsLeft(s.eng.docs), S.Measure(s.sch) decreases to
            t.client.Waiting?, |Unsent(t)|, t.eng.adds, t.eng.docs.Keys, TodoLeft(t.eng.docs),
            Unread(t.eng), HitsLeft(t.eng.docs), S.Measure(t.sch))
  {
    hide S.Measure, TodoLeft, Unread, HitsLeft;
  }

  // ------------------------------------------------ the system runs the engine

  // The client starts no query that matches a document being matched.
  ghost predicate Careful(s: System, a: Step) {
    a.Call? && a.e.StartQuery? ==> Harmless(s.eng, Started(a.e))
  }

  ghost predicate CarefullyLeads(s: System, steps: seq<Step>, t: System)
    decreases |steps|
  {
    if steps == [] then s == t
    else Can(s, steps[0]) && Careful(s, steps[0]) && CarefullyLeads(Then(s, steps[0]), steps[1..], t)
  }

  // `trace` is the run of the engine so far.
  ghost predicate Traced(s: System) {
    IsRun(s.trace) && After(s.trace) == s.eng
  }

  lemma StepKeepsTraced(s: System, a: Step)
    requires Coupled(s) && Can(s, a) && Careful(s, a) && Traced(s)
    ensures Traced(Then(s, a))
  {
    Effect(s, a);
    StartIsCalled(s, a);
    hide Coupled, Can, Then, Ev, IsRun, After, Harmless, Polite, Enabled, Next, SeenBy;
    var es := Ev(s, a);
    if es != [] {
      DisciplinedIf(s.eng, es[0]);
      OneMoreStep(s.trace, es[0]);
      assert es == [es[0]];
    }
  }

  lemma StartIsCalled(s: System, a: Step)
    requires Coupled(s) && Can(s, a)
    ensures forall e :: e in Ev(s, a) && e.StartQuery? ==> a.Call? && a.e == e
  {
    hide S.Inv, SameJobs, Sound, Accounted, S.Enabled, Found, Done, CanBegin, CanRead, CanDeliver, Polite;
  }

  lemma DisciplinedIf(s: State, e: Event)
    requires Polite(s, e) && (e.StartQuery? ==> Harmless(s, Started(e)))
    ensures Disciplined(s, e)
  {
  }

  lemma {:induction false} CarefulIsTraced(s: System, steps: seq<Step>, t: System)
    requires Coupled(s) && Traced(s) && CarefullyLeads(s, steps, t)
    ensures Coupled(t) && Traced(t)
    decreases |steps|
  {
    hide Can, Then, Coupled, Traced, Careful;
    if steps != [] {
      StepKeepsTraced(s, steps[0]);
      StepKeepsCoupled(s, steps[0]);
      CarefulIsTraced(Then(s, steps[0]), steps[1..], t);
    }
  }

  // In every interleaving of the client, the queues and the workers, what happens to the tables
  // is a run of the engine under a disciplined client.
  // The calls in that run are those the client has made, but for one still at its barrier.
  lemma SystemRunsEngine(n: nat, steps: seq<Step>, t: System)
    requires n > 0 && CarefullyLeads(Boot(n), steps, t)
    ensures IsRun(t.trace) && After(t.trace) == t.eng
    ensures ClientEvents(t.trace) + OpenCall(t.client) == CallsOf(steps)
  {
    hide CarefullyLeads, Leads, Coupled;
    BootIsCoupled(n);
    CarefulIsTraced(Boot(n), steps, t);
    CarefulLeads(Boot(n), steps, t);
    CallsAreTaken(Boot(n), steps, t);
    TraceHasCalls(Boot(n), steps, t);
    assert [] + [] + CallsOf(steps) == CallsOf(steps);
  }

  lemma {:induction false} CarefulLeads(s: System, steps: seq<Step>, t: System)
    requires CarefullyLeads(s, steps, t)
    ensures Leads(s, steps, t)
    decreases |steps|
  {
    hide Can, Then, Careful;
    if steps != [] { CarefulLeads(Then(s, steps[0]), steps[1..], t); }
  }

  // So every answer, delivered or waiting for delivery, is the naive one.
  lemma SystemAnswersAreNaive(n: nat, steps: seq<Step>, t: System, a: Answer) returns (call: nat)
    requires n > 0 && CarefullyLeads(Boot(n), steps, t) && (a in t.eng.delivered || a in t.eng.finished)
    ensures NaiveAnswer(t.trace, a, call)
  {
    SystemRunsEngine(n, steps, t);
    call := AnswersAreNaive(t.trace, a);
  }
}
