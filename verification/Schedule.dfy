/** Schedules of the system: where a job stands at its worker, and how a worker on its own runs
    what waits for it, while the client does nothing. */
module Schedules {
  import opened EngineModel
  import opened Systems
  import opened Histories
  import S = Scheduling

  // ------------------------------------------------ jobs and their places

  // Every submitted job stands in the share of its worker, ended or waiting.
  lemma ShareOf(s: System, v: nat)
    requires Coupled(s) && v < |s.sch.workers|
    ensures |s.sch.workers| == |s.sch.completed|
    ensures S.Share(s.sch.submitted, |s.sch.workers|, v) == s.sch.completed[v] + S.Waiting(s.sch.workers[v])
  {
    assert S.WorkerOk(s.sch, v);
  }

  // A job that waits at a worker, and the place at which it was submitted.
  lemma WaitsAt(s: System, v: nat, y: nat) returns (k: nat)
    requires Good(s) && v < |s.sch.workers| == |s.sch.completed| && y < |S.Waiting(s.sch.workers[v])|
    ensures k < |s.sch.submitted| <= |All(s)| && S.Turn(k, |s.sch.workers|) == v
    ensures s.sch.submitted[k] == S.Waiting(s.sch.workers[v])[y] == All(s)[k]
    ensures S.Position(s.sch.submitted, |s.sch.workers|, v, k) == |s.sch.completed[v]| + y
  {
    ShareOf(s, v);
    hide Good, S.Share, S.Turn, S.Waiting;
    k := S.ShareHas(s.sch.submitted, |s.sch.workers|, v, |s.sch.completed[v]| + y);
  }

  lemma EndedAt(s: System, v: nat, x: nat) returns (k: nat)
    requires Good(s) && v < |s.sch.workers| == |s.sch.completed| && x < |s.sch.completed[v]|
    ensures k < |s.sch.submitted| <= |All(s)| && S.Turn(k, |s.sch.workers|) == v
    ensures s.sch.submitted[k] == s.sch.completed[v][x] == All(s)[k]
    ensures S.Position(s.sch.submitted, |s.sch.workers|, v, k) == x
  {
    ShareOf(s, v);
    hide Good, S.Share, S.Turn, S.Waiting;
    k := S.ShareHas(s.sch.submitted, |s.sch.workers|, v, x);
  }

  lemma OnePlace(s: System, k: nat, l: nat)
    requires Good(s) && k < |All(s)| && l < |All(s)| && All(s)[k] == All(s)[l]
    ensures k == l
  {
    hide Coupled, Recorded, Block, InOrder, All;
  }

  // An open job that the client has submitted waits at a worker.
  lemma OpenWaits(s: System, j: Job) returns (v: nat, y: nat)
    requires Good(s) && j in PendingJobs(s.eng) && j !in Unsent(s)
    ensures v < |s.sch.workers| && y < |S.Waiting(s.sch.workers[v])| && S.Waiting(s.sch.workers[v])[y] == j
  {
    assert SameJobs(s);
    S.PooledIffWaiting(s.sch, j);
    hide Good, PendingJobs, S.Abstract, Unsent;
    assert j in multiset(PendingJobs(s.eng));
    assert j in S.Abstract(s.sch).waiting;
    v :| 0 <= v < |s.sch.workers| && j in S.Waiting(s.sch.workers[v]);
    y :| 0 <= y < |S.Waiting(s.sch.workers[v])| && S.Waiting(s.sch.workers[v])[y] == j;
  }

  // A job that has ended is no longer open.
  lemma EndedIsClosed(s: System, v: nat, x: nat)
    requires Good(s) && v < |s.sch.workers| == |s.sch.completed| && x < |s.sch.completed[v]|
    ensures s.sch.completed[v][x] !in PendingJobs(s.eng)
  {
    var j := s.sch.completed[v][x];
    var k := EndedAt(s, v, x);
    if j in PendingJobs(s.eng) {
      if j in Unsent(s) {
        UnsentPlace(s, j, k);
      } else {
        var u, y := OpenWaits(s, j);
        assert |s.sch.completed| == |s.sch.workers|;
        var l := WaitsAt(s, u, y);
        hide Good, PendingJobs, S.Waiting, S.Turn, S.Position;
        OnePlace(s, k, l);
      }
    }
  }

  lemma UnsentPlace(s: System, j: Job, k: nat)
    requires Good(s) && j in Unsent(s) && k < |s.sch.submitted|
    ensures s.sch.submitted[k] != j
  {
    hide Coupled, Recorded, Block, InOrder;
    var i :| 0 <= i < |Unsent(s)| && Unsent(s)[i] == j;
    assert All(s)[|s.sch.submitted| + i] == j && All(s)[k] == s.sch.submitted[k];
  }

  // First in, first out: when a worker has got to a job, the jobs submitted to it before are
  // closed.
  lemma EarlierIsClosed(s: System, v: nat, y: nat, a: nat, b: nat)
    requires Good(s) && v < |s.sch.workers| && y < |S.Waiting(s.sch.workers[v])| && y == 0
    requires a < b < |All(s)| && All(s)[b] == S.Waiting(s.sch.workers[v])[y]
    requires S.Turn(a, |s.sch.workers|) == S.Turn(b, |s.sch.workers|)
    ensures All(s)[a] !in PendingJobs(s.eng)
  {
    var n, js := |s.sch.workers|, s.sch.submitted;
    ShareOf(s, v);
    var k := WaitsAt(s, v, y);
    OnePlace(s, k, b);
    hide Good, PendingJobs, S.Waiting, S.Turn, S.Share;
    S.ShareGrows(js, n, v, a, b);
    S.ShareAt(js, n, v, a);
    var x := S.Position(js, n, v, a);
    assert s.sch.completed[v][x] == js[a] == All(s)[a];
    EndedIsClosed(s, v, x);
  }

  lemma GoodIsSound(s: System)
    requires Good(s)
    ensures Sound(s.eng) && Accounted(s.eng)
  {
  }

  lemma MatchedIffHit(queries: map<QueryID, Query>, r: DocRun, id: QueryID)
    requires QueriesOk(queries) && id in queries && Summarises(r.results, queries, r.applied)
    requires forall st :: st in r.streams ==> st == []
    ensures id in Matched(r.results) <==> forall w :: w in queries[id].words ==> Hit(id, w) in Hits(r)
  {
    hide Indexable;
    assert Streamed(r.streams) == {};
    assert SummaryAt(r.results, queries, id, WordsHit(r.applied, id));
    forall w ensures w in WordsHit(r.applied, id) <==> Hit(id, w) in r.applied {
      WordsHitHas(r.applied, id, w);
    }
    hide WordsHit, Streamed;
    var w0 :| w0 in queries[id].words;
  }

  // ------------------------------------------------ a worker can run what waits for it

  // Only one worker has gone on, and with it the indices, documents and results.
  ghost predicate OnlyWorker(s: System, t: System, v: nat) {
    && t.client == s.client && t.seen == s.seen && t.sch.sub == s.sch.sub && t.sch.submitted == s.sch.submitted
    && |t.sch.workers| == |s.sch.workers|
    && (forall u :: 0 <= u < |s.sch.workers| && u != v ==> t.sch.workers[u] == s.sch.workers[u])
    && SameTables(s.eng, t.eng)
  }

  ghost predicate SameTables(s: State, t: State) {
    && t.queries == s.queries && t.counters == s.counters && t.started == s.started
    && t.promised == s.promised && t.delivered == s.delivered
  }

  lemma OnlyWorkerTogether(s: System, t: System, u: System, v: nat)
    requires OnlyWorker(s, t, v) && OnlyWorker(t, u, v)
    ensures OnlyWorker(s, u, v)
  {
  }

  // The worker takes the next job out of its queue.
  lemma GetRunning(s: System, v: nat) returns (steps: seq<Step>, t: System)
    requires Good(s) && Free(s) && v < |s.sch.workers| && S.Waiting(s.sch.workers[v]) != []
    ensures Leads(s, steps, t) && OnlyWorker(s, t, v) && t.eng == s.eng
    ensures t.sch.workers[v].pc.Running? && t.sch.workers[v].queue == S.Waiting(s.sch.workers[v])
  {
    hide *;
    CanLook(s, v);
    match s.sch.workers[v].pc
    case Running =>
      steps, t := [], s;
      StaysRunning(s, v);
    case Looking =>
      steps, t := PeekStep(s, v);
    case Done =>
      var first, u := DequeueStep(s, v);
      WorkersSame(s, u, v);
      var more;
      more, t := PeekStep(u, v);
      LeadsOn(s, first, u, more, t);
      OnlyWorkerTogether(s, u, t, v);
      steps := first + more;
  }

  lemma CanLook(s: System, v: nat)
    requires Good(s) && Free(s) && v < |s.sch.workers| && S.Waiting(s.sch.workers[v]) != []
    ensures var k := s.sch.workers[v];
            && !k.pc.Asleep? && k.queue != []
            && S.Waiting(k) == if k.pc.Done? then k.queue[1..] else k.queue
  {
    assert S.WorkerOk(s.sch, v);
    hide Good, S.Share;
  }

  lemma StaysRunning(s: System, v: nat)
    ensures Leads(s, [], s) && OnlyWorker(s, s, v)
  {
  }

  lemma DequeueStep(s: System, v: nat) returns (steps: seq<Step>, t: System)
    requires Free(s) && v < |s.sch.workers| && s.sch.workers[v].pc.Done? && s.sch.workers[v].queue != []
    ensures Leads(s, steps, t) && OnlyWorker(s, t, v) && t.eng == s.eng && Free(t)
    ensures t.sch.workers[v] == S.Worker(s.sch.workers[v].queue[1..], S.Looking)
  {
    var a := Work(S.Dequeue(v, false));
    OneStep(s, a);
    assert s.trace + [] == s.trace && s.seen + [] == s.seen;
    hide Leads;
    steps, t := [a], Then(s, a);
  }

  lemma PeekStep(s: System, v: nat) returns (steps: seq<Step>, t: System)
    requires Free(s) && v < |s.sch.workers| && s.sch.workers[v].pc.Looking? && s.sch.workers[v].queue != []
    ensures Leads(s, steps, t) && OnlyWorker(s, t, v) && t.eng == s.eng
    ensures t.sch.workers[v].pc.Running? && t.sch.workers[v].queue == s.sch.workers[v].queue
  {
    var a := Work(S.Peek(v));
    OneStep(s, a);
    assert s.trace + [] == s.trace && s.seen + [] == s.seen;
    hide Leads;
    steps, t := [a], Then(s, a);
  }

  ghost predicate RunsAdd(s: System, v: nat, job: AddJob) {
    && S.Enabled(s.sch, S.Finish(v)) && Head(s, v) == S.AddWord(job.id, job.word)
    && job in s.eng.adds && job.id in s.eng.queries
  }

  ghost predicate Runs(s: System, v: nat, d: DocID) {
    S.Enabled(s.sch, S.Finish(v)) && Head(s, v) == S.MatchDoc(d) && d in s.eng.docs
  }

  lemma RunsWhich(s: System, v: nat)
    requires Good(s) && v < |s.sch.workers| && s.sch.workers[v].pc.Running? && s.sch.workers[v].queue != []
    ensures if Head(s, v).AddWord? then RunsAdd(s, v, AddJob(Head(s, v).query, Head(s, v).word))
            else Runs(s, v, Head(s, v).doc)
  {
    hide *;
    GoodIsCoupled(s);
    HeadIsPending(s, v);
    PendingIff(s.eng, Head(s, v));
    ShareOf(s, v);
    AddsKnown(s);
    RunsIf(s, v);
  }

  lemma RunsIf(s: System, v: nat)
    requires v < |s.sch.workers| == |s.sch.completed| && s.sch.workers[v].pc.Running? && s.sch.workers[v].queue != []
    requires Head(s, v) in PendingJobs(s.eng) && forall j :: j in s.eng.adds ==> j.id in s.eng.queries
    ensures if Head(s, v).AddWord? then RunsAdd(s, v, AddJob(Head(s, v).query, Head(s, v).word))
            else Runs(s, v, Head(s, v).doc)
  {
    PendingIff(s.eng, Head(s, v));
    hide PendingJobs;
  }

  lemma AddsKnown(s: System)
    requires Good(s)
    ensures forall j :: j in s.eng.adds ==> j.id in s.eng.queries
  {
    assert Sound(s.eng);
    hide Coupled, Recorded, LaidOut, InOrder;
  }

  // It runs an insertion.
  lemma RunInsertion(s: System, v: nat, job: AddJob) returns (steps: seq<Step>, t: System)
    requires RunsAdd(s, v, job)
    ensures v < |s.sch.workers| && s.sch.workers[v].queue != []
    ensures Leads(s, steps, t) && OnlyWorker(s, t, v)
    ensures S.Waiting(t.sch.workers[v]) == s.sch.workers[v].queue[1..]
    ensures t.eng.docs == s.eng.docs && t.eng.finished == s.eng.finished
  {
    var a := EndAdd(v);
    OneStep(s, a);
    hide Leads;
    steps, t := [a], Then(s, a);
    assert s.seen + [] == s.seen;
  }

  // What the jobs of a document not begun would find now.
  ghost predicate Left(s: State, jobs: set<Key>, h: Hit) {
    NaiveAmong(s.queries, jobs, h) && AddJob(h.id, h.word) !in s.adds
  }

  // Only the run of one document has gone on.
  ghost predicate OnlyRun(s: System, t: System, d: DocID) {
    && d in s.eng.docs && d in t.eng.docs && t.eng == s.eng.(docs := s.eng.docs[d := t.eng.docs[d]])
    && t.sch == s.sch && t.client == s.client && t.seen == s.seen
  }

  lemma OnlyRunTogether(s: System, t: System, u: System, d: DocID)
    requires OnlyRun(s, t, d) && OnlyRun(t, u, d)
    ensures OnlyRun(s, u, d)
  {
  }

  lemma OnlyRunRuns(s: System, t: System, v: nat, d: DocID)
    requires Runs(s, v, d) && OnlyRun(s, t, d)
    ensures Runs(t, v, d)
  {
  }

  lemma OneJobBegins(s: System, v: nat, d: DocID, key: Key, hits: seq<Hit>) returns (a: Step)
    requires Runs(s, v, d) && d in s.eng.docs && CanBegin(s.eng, s.eng.docs[d], key, hits)
    ensures Can(s, a) && OnlyRun(s, Then(s, a), d) && d in Then(s, a).eng.docs
    ensures Then(s, a).eng.docs[d] == s.eng.docs[d].(todo := s.eng.docs[d].todo - {key},
                                                     streams := s.eng.docs[d].streams + [hits])
  {
    a := Begin(v, key, hits);
    BeginStep(s.eng, d, key, hits);
    hide Found, Polite, Disciplined;
    assert s.seen + [] == s.seen;
  }

  ghost predicate RestFound(s: State, r: DocRun, q: DocRun) {
    q == r.(todo := {}, streams := q.streams) && forall h :: h in Hits(q) <==> h in Hits(r) || Left(s, r.todo, h)
  }

  lemma {:induction false} BeginRest(s: System, v: nat, d: DocID) returns (steps: seq<Step>, t: System)
    requires Good(s) && Runs(s, v, d) && d in s.eng.docs
    ensures Leads(s, steps, t) && OnlyRun(s, t, d) && d in t.eng.docs
    ensures RestFound(s.eng, s.eng.docs[d], t.eng.docs[d])
    decreases s.eng.docs[d].todo
  {
    hide *;
    var r := s.eng.docs[d];
    if r.todo == {} {
      steps, t := [], s;
      NoSteps(s, d);
      NothingRests(s.eng, r);
    } else {
      var key :| key in r.todo;
      var hits := AsSeq(Found(s.eng, key));
      BeginsRight(s.eng, r, key, hits);
      var a := OneJobBegins(s, v, d, key, hits);
      var u := Then(s, a);
      StepKeepsGood(s, a);
      OneStep(s, a);
      OnlyRunRuns(s, u, v, d);
      steps, t := BeginRest(u, v, d);
      LeadsOn(s, [a], u, steps, t);
      steps := [a] + steps;
      OnlyRunTogether(s, u, t, d);
      GoodIsSound(s);
      OnlyRunWorkers(s, u, d);
      MoreRestFound(s.eng, u.eng, d, key, hits, t.eng.docs[d]);
    }
  }

  lemma NoSteps(s: System, d: DocID)
    ensures Leads(s, [], s) && (d in s.eng.docs ==> OnlyRun(s, s, d))
  {
  }

  lemma NothingRests(s: State, r: DocRun)
    requires r.todo == {}
    ensures RestFound(s, r, r)
  {
    hide Hits;
  }

  lemma BeginsRight(s: State, r: DocRun, key: Key, hits: seq<Hit>)
    requires key in r.todo && forall h :: h in hits <==> h in Found(s, key)
    ensures CanBegin(s, r, key, hits)
  {
  }

  lemma MoreRestFound(s: State, u: State, d: DocID, key: Key, hits: seq<Hit>, q: DocRun)
    requires Sound(s) && d in s.docs && d in u.docs && key in s.docs[d].todo
    requires u.docs[d] == s.docs[d].(todo := s.docs[d].todo - {key}, streams := s.docs[d].streams + [hits])
    requires u == s.(docs := u.docs) && RestFound(u, u.docs[d], q) && forall h :: h in hits <==> h in Found(s, key)
    ensures RestFound(s, s.docs[d], q)
  {
    var r := s.docs[d];
    StreamAdds(r, r.todo - {key}, hits);
    forall h ensures Left(s, r.todo, h) <==> h in Found(s, key) || Left(s, r.todo - {key}, h) {
      OneJobLeft(s, r.todo, key, h);
    }
    hide Sound, Found, Hits, NaiveAmong;
  }

  lemma OneJobLeft(s: State, jobs: set<Key>, key: Key, h: Hit)
    requires Sound(s) && key in jobs
    ensures Left(s, jobs, h) <==> h in Found(s, key) || Left(s, jobs - {key}, h)
  {
    FoundIsNaive(s, key, h);
    hide Sound, Found, NaiveHit;
    forall job ensures job in jobs <==> job in jobs - {key} || job == key {}
  }

  lemma OneHitDelivers(s: System, v: nat, d: DocID, i: nat) returns (a: Step)
    requires Runs(s, v, d) && d in s.eng.docs && CanDeliver(s.eng.docs[d], i)
    requires s.eng.docs[d].streams[i][0].id in s.eng.queries
    ensures Can(s, a) && OnlyRun(s, Then(s, a), d) && d in Then(s, a).eng.docs
    ensures Then(s, a).eng.docs[d] == AfterHit(s.eng.queries, s.eng.docs[d], i)
  {
    a := Deliver(v, i);
    HitStep(s.eng, d, i);
    hide Polite, Disciplined, AddResult;
    assert s.seen + [] == s.seen;
  }

  // Only the delivery of hits already found.
  ghost predicate RestDelivered(r: DocRun, q: DocRun) {
    q.todo == r.todo && q.words == r.words && Hits(q) == Hits(r) && forall st :: st in q.streams ==> st == []
  }

  // All hits found are delivered.
  lemma {:induction false} DeliverRest(s: System, v: nat, d: DocID, i: nat) returns (steps: seq<Step>, t: System)
    requires Good(s) && Runs(s, v, d) && d in s.eng.docs && i <= |s.eng.docs[d].streams|
    requires forall j :: 0 <= j < i ==> s.eng.docs[d].streams[j] == []
    ensures Leads(s, steps, t) && OnlyRun(s, t, d) && d in t.eng.docs
    ensures RestDelivered(s.eng.docs[d], t.eng.docs[d])
    decreases |s.eng.docs[d].streams| - i, if i < |s.eng.docs[d].streams| then |s.eng.docs[d].streams[i]| else 0
  {
    hide *;
    var r := s.eng.docs[d];
    if i == |r.streams| {
      steps, t := [], s;
      NoSteps(s, d);
      AllDelivered(r);
    } else if r.streams[i] == [] {
      steps, t := DeliverRest(s, v, d, i + 1);
    } else {
      DeliverIsRight(r, i);
      GoodIsSound(s);
      DeliveredIsKnown(s.eng, d, i);
      var a := OneHitDelivers(s, v, d, i);
      var u := Then(s, a);
      HitStaysHit(s.eng, d, i);
      StepKeepsGood(s, a);
      OneStep(s, a);
      OnlyRunRuns(s, u, v, d);
      AfterHitStreams(s.eng.queries, r, i);
      steps, t := DeliverRest(u, v, d, i);
      LeadsOn(s, [a], u, steps, t);
      steps := [a] + steps;
      OnlyRunTogether(s, u, t, d);
      DeliveredTogether(r, u.eng.docs[d], t.eng.docs[d]);
    }
  }

  lemma AllDelivered(r: DocRun)
    requires forall j :: 0 <= j < |r.streams| ==> r.streams[j] == []
    ensures RestDelivered(r, r)
  {
  }

  lemma DeliverIsRight(r: DocRun, i: nat)
    requires i < |r.streams| && r.streams[i] != []
    ensures CanDeliver(r, i)
  {
  }

  lemma AfterHitStreams(queries: map<QueryID, Query>, r: DocRun, i: nat)
    requires i < |r.streams| && r.streams[i] != [] && r.streams[i][0].id in queries
    ensures var q := AfterHit(queries, r, i);
            q.streams == r.streams[i := r.streams[i][1..]] && q.todo == r.todo && q.words == r.words
  {
    hide AddResult;
  }

  lemma DeliveredTogether(r: DocRun, p: DocRun, q: DocRun)
    requires p.todo == r.todo && p.words == r.words && Hits(p) == Hits(r) && RestDelivered(p, q)
    ensures RestDelivered(r, q)
  {
  }

  lemma HitStaysHit(s: State, d: DocID, i: nat)
    requires Sound(s) && d in s.docs && i < |s.docs[d].streams| && s.docs[d].streams[i] != []
    requires s.docs[d].streams[i][0].id in s.queries
    ensures Hits(AfterHit(s.queries, s.docs[d], i)) == Hits(s.docs[d])
  {
    assert RunOk(s.queries, s.docs[d]);
    hide Sound, Hits, AddResult;
    NaiveIsLegal(s.queries, s.docs[d]);
    HitKeeps(s.queries, s.docs[d], i);
  }

  // All words of the query are among the hits of the document, found already or found now.
  ghost predicate Answered(s: State, r: DocRun, id: QueryID) {
    id in s.queries && forall w :: w in s.queries[id].words ==> Hit(id, w) in Hits(r) || Left(s, r.todo, Hit(id, w))
  }

  // The document has ended with the answer `a`.
  ghost predicate Ended(s: State, t: State, d: DocID, a: Answer) {
    && d in s.docs && a.doc == d && t.docs == s.docs - {d} && t.finished == s.finished + [a]
    && forall id :: id in s.queries ==> (id in a.ids <==> Answered(s, s.docs[d], id))
  }

  // It runs a document to its end.
  lemma RunDocument(s: System, v: nat, d: DocID) returns (steps: seq<Step>, t: System, a: Answer)
    requires Good(s) && Runs(s, v, d) && d in s.eng.docs && v < |s.sch.workers| && s.sch.workers[v].queue != []
    ensures Leads(s, steps, t) && OnlyWorker(s, t, v) && v < |t.sch.workers|
    ensures S.Waiting(t.sch.workers[v]) == s.sch.workers[v].queue[1..] && Ended(s.eng, t.eng, d, a)
  {
    hide *;
    var begin, u := BeginRest(s, v, d);
    LeadsKeepsGood(s, begin, u);
    OnlyRunRuns(s, u, v, d);
    var deliver, x := DeliverRest(u, v, d, 0);
    LeadsKeepsGood(u, deliver, x);
    OnlyRunRuns(u, x, v, d);
    OnlyRunTogether(s, u, x, d);
    LeadsOn(s, begin, u, deliver, x);
    OnlyRunWorkers(s, x, d);
    TodoDone(s.eng, s.eng.docs[d], u.eng.docs[d], x.eng.docs[d]);
    var end;
    end, t, a := EndDocument(x, v, d);
    LeadsOn(s, begin + deliver, x, end, t);
    steps := begin + deliver + end;
    OnlyRunThenWorker(s, x, t, v, d);
    GoodIsSound(x);
    EndedRight(s, x, t, d, a, u.eng.docs[d]);
  }

  lemma OnlyRunWorkers(s: System, t: System, d: DocID)
    requires OnlyRun(s, t, d)
    ensures t.sch == s.sch && d in s.eng.docs && d in t.eng.docs
    ensures t.eng == s.eng.(docs := s.eng.docs[d := t.eng.docs[d]])
  {
  }

  lemma OnlyRunThenWorker(s: System, x: System, t: System, v: nat, d: DocID)
    requires OnlyRun(s, x, d) && OnlyWorker(x, t, v)
    ensures OnlyWorker(s, t, v)
  {
  }

  lemma TodoDone(s: State, r: DocRun, p: DocRun, q: DocRun)
    requires RestFound(s, r, p) && RestDelivered(p, q)
    ensures q.todo == {} && (forall st :: st in q.streams ==> st == [])
  {
    hide Hits;
  }

  lemma EndedRight(s: System, x: System, t: System, d: DocID, a: Answer, p: DocRun)
    requires Sound(x.eng) && OnlyRun(s, x, d) && d in s.eng.docs && d in x.eng.docs
    requires RestFound(s.eng, s.eng.docs[d], p) && RestDelivered(p, x.eng.docs[d])
    requires a.doc == d && t.eng.docs == x.eng.docs - {d} && t.eng.finished == x.eng.finished + [a]
    requires forall id :: id in a.ids <==> id in Matched(x.eng.docs[d].results)
    ensures Ended(s.eng, t.eng, d, a)
  {
    hide Sound, Hits, Left, Matched;
    assert s.eng.docs[d := x.eng.docs[d]] - {d} == s.eng.docs - {d};
    forall id | id in s.eng.queries ensures id in a.ids <==> Answered(s.eng, s.eng.docs[d], id) {
      EndedIffHit(x.eng, d, id);
    }
  }

  lemma EndedIffHit(s: State, d: DocID, id: QueryID)
    requires Sound(s) && d in s.docs && id in s.queries && forall st :: st in s.docs[d].streams ==> st == []
    ensures id in Matched(s.docs[d].results) <==> forall w :: w in s.queries[id].words ==> Hit(id, w) in Hits(s.docs[d])
  {
    assert RunOk(s.queries, s.docs[d]);
    hide IndexOk, CountersOk, AllNaive, Summarises, Hits;
    MatchedIffHit(s.queries, s.docs[d], id);
  }

  lemma EndDocument(s: System, v: nat, d: DocID) returns (steps: seq<Step>, t: System, a: Answer)
    requires Runs(s, v, d) && d in s.eng.docs && v < |s.sch.workers| && s.sch.workers[v].queue != []
    requires s.eng.docs[d].todo == {} && forall st :: st in s.eng.docs[d].streams ==> st == []
    ensures Leads(s, steps, t) && OnlyWorker(s, t, v) && v < |t.sch.workers|
    ensures S.Waiting(t.sch.workers[v]) == s.sch.workers[v].queue[1..]
    ensures a.doc == d && t.eng.docs == s.eng.docs - {d} && t.eng.finished == s.eng.finished + [a]
    ensures forall id :: id in a.ids <==> id in Matched(s.eng.docs[d].results)
  {
    var ids := AsList(Matched(s.eng.docs[d].results));
    var e := EndDoc(v, ids);
    OneStep(s, e);
    hide Leads, Matched;
    assert s.seen + [] == s.seen;
    steps, t, a := [e], Then(s, e), Answer(d, ids);
  }

  // ------------------------------------------------ one job, and several

  ghost predicate Ready(s: System) {
    Good(s) && Free(s)
  }

  ghost predicate HeadRun(s: State, t: State, j: Job) {
    if j.AddWord? then t.docs == s.docs && t.finished == s.finished else exists a :: Ended(s, t, j.doc, a)
  }

  lemma RunHead(s: System, v: nat) returns (steps: seq<Step>, t: System)
    requires Ready(s) && v < |s.sch.workers| && S.Waiting(s.sch.workers[v]) != []
    ensures Leads(s, steps, t) && Ready(t) && OnlyWorker(s, t, v) && v < |t.sch.workers|
    ensures S.Waiting(t.sch.workers[v]) == S.Waiting(s.sch.workers[v])[1..]
    ensures HeadRun(s.eng, t.eng, S.Waiting(s.sch.workers[v])[0])
  {
    hide *;
    ReadyIs(s);
    var get, u := GetRunning(s, v);
    LeadsKeepsGood(s, get, u);
    WorkersSame(s, u, v);
    RunsWhich(u, v);
    var j := Head(u, v);
    HeadIs(u, v);
    var more;
    if j.AddWord? {
      more, t := RunInsertion(u, v, AddJob(j.query, j.word));
      InsertedRun(s.eng, t.eng, j);
    } else {
      RunsDoc(u, v, j.doc);
      var a;
      more, t, a := RunDocument(u, v, j.doc);
      EndedRun(s.eng, t.eng, j, a);
    }
    LeadsKeepsGood(u, more, t);
    LeadsOn(s, get, u, more, t);
    OnlyWorkerTogether(s, u, t, v);
    WorkersSame(u, t, v);
    ReadyStays(s, t, v);
    steps := get + more;
  }

  lemma ReadyIs(s: System)
    requires Ready(s)
    ensures Good(s) && Free(s) && s.client == Sending([]) && Unsent(s) == [] && All(s) == s.sch.submitted
  {
    hide Good;
  }

  lemma ReadyStays(s: System, t: System, v: nat)
    requires Ready(s) && Good(t) && OnlyWorker(s, t, v)
    ensures Ready(t)
  {
    hide Good;
  }

  lemma WorkersSame(s: System, t: System, v: nat)
    requires OnlyWorker(s, t, v)
    ensures |t.sch.workers| == |s.sch.workers| && t.seen == s.seen && t.sch.submitted == s.sch.submitted
    ensures SameTables(s.eng, t.eng)
    ensures forall u :: 0 <= u < |s.sch.workers| && u != v ==> t.sch.workers[u] == s.sch.workers[u]
  {
  }

  lemma HeadIs(s: System, v: nat)
    requires v < |s.sch.workers| && s.sch.workers[v].queue != []
    ensures Head(s, v) == s.sch.workers[v].queue[0]
  {
  }

  lemma RunsDoc(s: System, v: nat, d: DocID)
    requires Runs(s, v, d)
    ensures d in s.eng.docs
  {
  }

  lemma InsertedRun(s: State, t: State, j: Job)
    requires j.AddWord? && t.docs == s.docs && t.finished == s.finished
    ensures HeadRun(s, t, j)
  {
  }

  lemma EndedRun(s: State, t: State, j: Job, a: Answer)
    requires j.MatchDoc? && Ended(s, t, j.doc, a)
    ensures HeadRun(s, t, j)
  {
  }

  ghost predicate NoDocs(js: seq<Job>) {
    forall j :: j in js ==> j.AddWord?
  }

  // The documents not among the jobs are as before.
  ghost predicate ManyRun(s: State, t: State, js: seq<Job>) {
    && (forall d :: d in s.docs && S.MatchDoc(d) !in js ==> d in t.docs && t.docs[d] == s.docs[d])
    && (NoDocs(js) ==> t.docs == s.docs && t.finished == s.finished)
  }

  lemma OneRunMore(s: State, t: State, u: State, js: seq<Job>)
    requires js != [] && HeadRun(s, t, js[0]) && ManyRun(t, u, js[1..])
    ensures ManyRun(s, u, js)
  {
    assert js == [js[0]] + js[1..];
    assert js[0] in js && forall j :: j in js[1..] ==> j in js;
  }

  lemma {:induction false} RunMany(s: System, v: nat, c: nat) returns (steps: seq<Step>, t: System)
    requires Ready(s) && v < |s.sch.workers| && c <= |S.Waiting(s.sch.workers[v])|
    ensures Leads(s, steps, t) && Ready(t) && OnlyWorker(s, t, v) && v < |t.sch.workers|
    ensures S.Waiting(t.sch.workers[v]) == S.Waiting(s.sch.workers[v])[c..]
    ensures ManyRun(s.eng, t.eng, S.Waiting(s.sch.workers[v])[..c])
    decreases c
  {
    hide *;
    var js := S.Waiting(s.sch.workers[v]);
    if c == 0 {
      steps, t := [], s;
      NothingRun(s, v);
      assert js[..0] == [] && js[0..] == js;
    } else {
      var first, u := RunHead(s, v);
      steps, t := RunMany(u, v, c - 1);
      LeadsOn(s, first, u, steps, t);
      steps := first + steps;
      OnlyWorkerTogether(s, u, t, v);
      assert js[..c][0] == js[0] && js[..c][1..] == js[1..][..c - 1] && js[1..][c - 1..] == js[c..];
      OneRunMore(s.eng, u.eng, t.eng, js[..c]);
    }
  }

  lemma NothingRun(s: System, v: nat)
    ensures Leads(s, [], s) && OnlyWorker(s, s, v) && ManyRun(s.eng, s.eng, [])
  {
  }

  // ------------------------------------------------ a call and its submissions

  // The client sends what is left of a call.
  lemma {:induction false} Settle(s: System) returns (steps: seq<Step>, t: System)
    requires Good(s) && s.client.Sending?
    ensures Leads(s, steps, t) && Ready(t) && t.eng == s.eng && t.seen == s.seen
    ensures |t.sch.workers| == |s.sch.workers| && All(t) == All(s)
    decreases |s.client.jobs|, if s.sch.sub.Signalling? then 1 else 0
  {
    hide *;
    SendingMeans(s);
    if s.sch.sub.Signalling? {
      var a, u := SignalStep(s);
      StepKeepsGood(s, a);
      OneStep(s, a);
      steps, t := Settle(u);
      LeadsOn(s, [a], u, steps, t);
      steps := [a] + steps;
    } else if s.client.jobs != [] {
      var a, u := SendStep(s);
      StepKeepsGood(s, a);
      OneStep(s, a);
      steps, t := Settle(u);
      LeadsOn(s, [a], u, steps, t);
      steps := [a] + steps;
    } else {
      steps, t := [], s;
      NoMoves(s);
      ReadyNow(s);
    }
  }

  lemma NoMoves(s: System)
    ensures Leads(s, [], s)
  {
  }

  lemma ReadyNow(s: System)
    requires Good(s) && s.client == Sending([]) && s.sch.sub.Idle?
    ensures Ready(s)
  {
    hide Good;
  }

  lemma SendingMeans(s: System)
    requires Good(s) && s.client.Sending?
    ensures s.sch.sub.Idle? || s.sch.sub.Signalling?
    ensures s.sch.sub.Signalling? ==> s.sch.sub.w < |s.sch.workers|
    ensures s.sch.current < |s.sch.workers|
  {
    assert S.SubmitterOk(s.sch);
    hide Recorded, LaidOut, InOrder, SameJobs, Sound, Accounted;
  }

  lemma SignalStep(s: System) returns (a: Step, t: System)
    requires s.client.Sending? && s.sch.sub.Signalling? && s.sch.sub.w < |s.sch.workers|
    ensures Can(s, a) && t == Then(s, a) && t.eng == s.eng && t.seen == s.seen && t.client == s.client
    ensures |t.sch.workers| == |s.sch.workers| && All(t) == All(s) && t.sch.sub.Idle?
  {
    a := Work(S.Signal(s.sch.workers[s.sch.sub.w].pc.Asleep?));
    t := Then(s, a);
    assert s.seen + [] == s.seen;
  }

  lemma SendStep(s: System) returns (a: Step, t: System)
    requires s.client.Sending? && s.client.jobs != [] && s.sch.sub.Idle? && s.sch.current < |s.sch.workers|
    ensures Can(s, a) && t == Then(s, a) && t.eng == s.eng && t.seen == s.seen
    ensures t.client.Sending? && |t.client.jobs| < |s.client.jobs|
    ensures |t.sch.workers| == |s.sch.workers| && All(t) == All(s)
  {
    a := Send;
    t := Then(s, a);
    assert s.seen + [] == s.seen;
    assert s.client.jobs == [s.client.jobs[0]] + s.client.jobs[1..];
  }

  // A call without a barrier, with all its submissions.
  lemma CallThrough(s: System, e: Event) returns (steps: seq<Step>, t: System)
    requires Ready(s) && Polite(s.eng, e) && (e.StartQuery? || (e.MatchDocument? && !s.eng.started))
    ensures Leads(s, steps, t) && Ready(t) && |t.sch.workers| == |s.sch.workers|
    ensures Enabled(s.eng, e) && t.eng == Next(s.eng, e) && t.seen == s.seen + [Called(e)]
  {
    hide *;
    ReadyIs(s);
    var a := CallStep(s, e);
    StepKeepsGood(s, a);
    OneStep(s, a);
    var more;
    more, t := Settle(Then(s, a));
    LeadsOn(s, [a], Then(s, a), more, t);
    steps := [a] + more;
  }

  lemma {:induction false} AsOrder(js: set<Job>) returns (q: seq<Job>)
    ensures multiset(q) == multiset(js)
    decreases js
  {
    if js == {} {
      q := [];
    } else {
      var j :| j in js;
      q := AsOrder(js - {j});
      assert js == js - {j} + {j};
      q := q + [j];
    }
  }

  lemma CallStep(s: System, e: Event) returns (a: Step)
    requires Free(s) && Polite(s.eng, e) && (e.StartQuery? || (e.MatchDocument? && !s.eng.started))
    ensures Can(s, a) && Enabled(s.eng, e) && Then(s, a).eng == Next(s.eng, e) && Then(s, a).seen == s.seen + [Called(e)]
    ensures Then(s, a).client.Sending? && |Then(s, a).sch.workers| == |s.sch.workers|
  {
    hide Polite, AddsOf, NewAdds, TextWords, Matching, Jobs;
    var order: seq<Job> := [];
    if e.StartQuery? { order := AsOrder(AddsOf(NewAdds(e))); }
    a := Call(e, order);
  }

  // The next result is delivered.
  lemma GetThrough(s: System) returns (steps: seq<Step>, t: System)
    requires Ready(s) && s.eng.finished != []
    ensures Leads(s, steps, t) && Ready(t) && |t.sch.workers| == |s.sch.workers|
    ensures t.seen == s.seen + [Got(s.eng.finished[0].doc)]
    ensures t.eng.docs == s.eng.docs && Out(t.eng) == Out(s.eng)
  {
    hide *;
    ReadyIs(s);
    var a := GetStep(s);
    OneStep(s, a);
    StepKeepsGood(s, a);
    steps, t := [a], Then(s, a);
    ReadyNow(t);
    EngineOut(s.eng, GetNextAvailRes);
    NoFinish(s.eng);
  }

  lemma GetStep(s: System) returns (a: Step)
    requires Free(s) && s.eng.finished != []
    ensures Can(s, a) && Then(s, a).client == Sending([]) && Then(s, a).sch == s.sch && s.sch.sub.Idle?
    ensures Then(s, a).seen == s.seen + [Got(s.eng.finished[0].doc)]
    ensures Enabled(s.eng, GetNextAvailRes) && Then(s, a).eng == Next(s.eng, GetNextAvailRes)
  {
    a := Call(GetNextAvailRes, []);
  }

  lemma NoFinish(s: State)
    requires Enabled(s, GetNextAvailRes)
    ensures Next(s, GetNextAvailRes).docs == s.docs
    ensures Out(s) + [] == Out(s)
  {
  }
}
