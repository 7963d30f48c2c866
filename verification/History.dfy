/** What the calls of the client alone determine about the engine and its scheduler, in every
    interleaving: which identifiers are known, where each job stands in the order of submission,
    and in which order the jobs of one worker end. */
module Histories {
  import opened EngineModel
  import opened Systems
  import S = Scheduling

  // ------------------------------------------------ read off the calls

  ghost predicate IsStart(x: Seen) {
    x.Called? && x.e.StartQuery?
  }

  ghost predicate IsMatch(x: Seen) {
    x.Called? && x.e.MatchDocument?
  }

  // The number of jobs a call submits, and of all jobs submitted so far.
  ghost function Load(x: Seen): nat {
    if IsStart(x) then |TextWords(x.e.text)| else if IsMatch(x) then 1 else 0
  }

  ghost function Sent(seen: seq<Seen>): nat {
    if seen == [] then 0 else Sent(seen[..|seen| - 1]) + Load(seen[|seen| - 1])
  }

  // query_has_started
  ghost predicate HasStarted(seen: seq<Seen>) {
    seen != [] &&
    var last := seen[|seen| - 1];
    IsStart(last) || (!IsMatch(last) && HasStarted(seen[..|seen| - 1]))
  }

  // The call waits for all jobs first.
  ghost predicate IsBarrier(seen: seq<Seen>, i: nat)
    requires i < |seen|
  {
    seen[i].Called? && (seen[i].e.EndQuery? || (IsMatch(seen[i]) && HasStarted(seen[..i])))
  }

  ghost function StartedIds(seen: seq<Seen>): set<QueryID> {
    set i | 0 <= i < |seen| && IsStart(seen[i]) :: seen[i].e.id
  }

  ghost function SentDocs(seen: seq<Seen>): set<DocID> {
    set i | 0 <= i < |seen| && IsMatch(seen[i]) :: seen[i].e.doc
  }

  ghost function GotDocs(seen: seq<Seen>): seq<DocID> {
    if seen == [] then []
    else
      var init, last := GotDocs(seen[..|seen| - 1]), seen[|seen| - 1];
      if last.Got? then init + [last.doc] else init
  }

  // The call keeps what a polite client promises, and a result is of a document submitted.
  ghost predicate GoodCall(before: seq<Seen>, x: Seen) {
    && (IsStart(x) ==> GoodQuery(x.e.text, x.e.kind) && x.e.id !in StartedIds(before))
    && (IsMatch(x) ==> GoodDocument(x.e.text) && x.e.doc !in SentDocs(before))
    && (x.Called? ==> IsStart(x) || IsMatch(x) || x.e.EndQuery?)
    && (x.Got? ==> x.doc in SentDocs(before))
  }

  ghost predicate GoodCalls(seen: seq<Seen>) {
    forall i {:trigger seen[i]} :: 0 <= i < |seen| ==> GoodCall(seen[..i], seen[i])
  }

  lemma OneMoreSeen(seen: seq<Seen>, x: Seen)
    ensures Sent(seen + [x]) == Sent(seen) + Load(x)
    ensures HasStarted(seen + [x]) <==> IsStart(x) || (!IsMatch(x) && HasStarted(seen))
    ensures StartedIds(seen + [x]) == StartedIds(seen) + if IsStart(x) then {x.e.id} else {}
    ensures SentDocs(seen + [x]) == SentDocs(seen) + if IsMatch(x) then {x.e.doc} else {}
    ensures GotDocs(seen + [x]) == GotDocs(seen) + if x.Got? then [x.doc] else []
    ensures GoodCalls(seen) && GoodCall(seen, x) ==> GoodCalls(seen + [x])
  {
    hide Load, GoodCall;
    var more := seen + [x];
    assert more[..|more| - 1] == seen;
    assert forall i :: 0 <= i < |seen| ==> more[i] == seen[i] && more[..i] == seen[..i];
    IdsOfMore(seen, x);
  }

  lemma IdsOfMore(seen: seq<Seen>, x: Seen)
    ensures StartedIds(seen + [x]) == StartedIds(seen) + if IsStart(x) then {x.e.id} else {}
    ensures SentDocs(seen + [x]) == SentDocs(seen) + if IsMatch(x) then {x.e.doc} else {}
  {
    var more := seen + [x];
    assert more[|seen|] == x;
    forall id | id in StartedIds(more) ensures id in StartedIds(seen) + if IsStart(x) then {x.e.id} else {} {
      var i :| 0 <= i < |more| && IsStart(more[i]) && more[i].e.id == id;
      assert i < |seen| ==> more[i] == seen[i];
    }
    forall id | id in StartedIds(seen) ensures id in StartedIds(more) {
      var i :| 0 <= i < |seen| && IsStart(seen[i]) && seen[i].e.id == id;
      assert more[i] == seen[i];
    }
    forall d | d in SentDocs(more) ensures d in SentDocs(seen) + if IsMatch(x) then {x.e.doc} else {} {
      var i :| 0 <= i < |more| && IsMatch(more[i]) && more[i].e.doc == d;
      assert i < |seen| ==> more[i] == seen[i];
    }
    forall d | d in SentDocs(seen) ensures d in SentDocs(more) {
      var i :| 0 <= i < |seen| && IsMatch(seen[i]) && seen[i].e.doc == d;
      assert more[i] == seen[i];
    }
  }

  // ------------------------------------------------ the engine and the calls

  ghost function DocSeq(answers: seq<Answer>): (ds: seq<DocID>)
    ensures |ds| == |answers| && forall i :: 0 <= i < |answers| ==> ds[i] == answers[i].doc
  {
    seq(|answers|, i requires 0 <= i < |answers| => answers[i].doc)
  }

  // A document that is still matched has the words it was submitted with, and no call since
  // has waited.
  ghost predicate OpenDoc(s: State, seen: seq<Seen>, i: nat)
    requires i < |seen| && IsMatch(seen[i])
  {
    seen[i].e.doc in s.docs ==>
      && s.docs[seen[i].e.doc].words == TextWords(seen[i].e.text)
      && forall k :: i < k < |seen| ==> !IsBarrier(seen, k)
  }

  ghost predicate KnownIds(s: State, answers: seq<Answer>) {
    forall a, id :: a in answers && id in a.ids ==> id in s.queries
  }

  ghost predicate Recorded(s: State, seen: seq<Seen>) {
    && GoodCalls(seen)
    && (s.started <==> HasStarted(seen))
    && s.queries.Keys == StartedIds(seen) && s.promised.Keys == SentDocs(seen)
    && DocSeq(s.delivered) == GotDocs(seen)
    && (forall i {:trigger OpenDoc(s, seen, i)} :: 0 <= i < |seen| && IsMatch(seen[i]) ==> OpenDoc(s, seen, i))
    && KnownIds(s, s.delivered + s.finished)
  }

  lemma DocSeqMore(answers: seq<Answer>, a: Answer)
    ensures DocSeq(answers + [a]) == DocSeq(answers) + [a.doc]
  {
  }

  // The scalar part of the record.
  lemma StepCounts(s: State, e: Event, seen: seq<Seen>)
    requires Enabled(s, e) && Polite(s, e) && GoodCalls(seen) && Accounted(s)
    requires s.started <==> HasStarted(seen)
    requires s.queries.Keys == StartedIds(seen) && s.promised.Keys == SentDocs(seen)
    requires DocSeq(s.delivered) == GotDocs(seen)
    ensures var t, more := Next(s, e), seen + SeenBy(s, e);
            && GoodCalls(more) && (t.started <==> HasStarted(more))
            && t.queries.Keys == StartedIds(more) && t.promised.Keys == SentDocs(more)
            && DocSeq(t.delivered) == GotDocs(more)
  {
    hide *;
    if Internal(e) {
      InternalScalars(s, e);
      assert seen + [] == seen;
    } else {
      var x := CallScalars(s, e, seen);
      OneMoreSeen(seen, x);
    }
  }

  lemma InternalScalars(s: State, e: Event)
    requires Enabled(s, e) && Internal(e)
    ensures SeenBy(s, e) == [] && Next(s, e).started == s.started && Next(s, e).queries == s.queries
    ensures Next(s, e).promised == s.promised && Next(s, e).delivered == s.delivered
  {
    hide Found, AddResult, Lists, Matched;
  }

  lemma CallScalars(s: State, e: Event, seen: seq<Seen>) returns (x: Seen)
    requires Enabled(s, e) && Polite(s, e) && !Internal(e) && Accounted(s)
    requires s.queries.Keys == StartedIds(seen) && s.promised.Keys == SentDocs(seen)
    ensures SeenBy(s, e) == [x] && GoodCall(seen, x)
    ensures Next(s, e).started <==> IsStart(x) || (!IsMatch(x) && s.started)
    ensures Next(s, e).queries.Keys == s.queries.Keys + if IsStart(x) then {x.e.id} else {}
    ensures Next(s, e).promised.Keys == s.promised.Keys + if IsMatch(x) then {x.e.doc} else {}
    ensures DocSeq(Next(s, e).delivered) == DocSeq(s.delivered) + if x.Got? then [x.doc] else []
  {
    hide StartedIds, SentDocs, GoodQuery, GoodDocument, TextWords, Jobs, Matching, DocSeq, Accounted;
    x := SeenBy(s, e)[0];
    if e.GetNextAvailRes? {
      DocSeqMore(s.delivered, s.finished[0]);
      FirstIsSubmitted(s);
    }
    if e.EndQuery? && e.id in s.queries { assert Next(s, e).queries.Keys == s.queries.Keys; }
    assert DocSeq(s.delivered) + [] == DocSeq(s.delivered);
  }

  lemma FirstIsSubmitted(s: State)
    requires Accounted(s) && s.finished != []
    ensures s.finished[0].doc in s.promised
  {
    assert s.finished[0] in s.delivered + s.finished;
  }

  lemma StepDocsOpen(s: State, e: Event, seen: seq<Seen>, i: nat)
    requires Enabled(s, e) && Polite(s, e) && GoodCalls(seen) && s.promised.Keys == SentDocs(seen)
    requires s.started <==> HasStarted(seen)
    requires forall i {:trigger OpenDoc(s, seen, i)} :: 0 <= i < |seen| && IsMatch(seen[i]) ==> OpenDoc(s, seen, i)
    requires i < |seen + SeenBy(s, e)| && IsMatch((seen + SeenBy(s, e))[i])
    ensures OpenDoc(Next(s, e), seen + SeenBy(s, e), i)
  {
    hide GoodQuery, GoodDocument, Found, AddResult, Matching, Lists, Matched, GoodCalls, HasStarted;
    var t, more := Next(s, e), seen + SeenBy(s, e);
    if i < |seen| {
      assert more[i] == seen[i] && OpenDoc(s, seen, i);
      assert seen[i].e.doc in SentDocs(seen);
      hide SentDocs, TextWords, Jobs;
      forall k | i < k < |more| && seen[i].e.doc in t.docs ensures !IsBarrier(more, k) {
        assert k < |seen| ==> more[k] == seen[k] && more[..k] == seen[..k];
        if k < |seen| {
          assert !IsBarrier(seen, k);
        } else {
          assert more[..k] == seen;
        }
      }
    } else {
      hide TextWords, Jobs, SentDocs;
    }
  }

  lemma StepKnownIds(s: State, e: Event)
    requires Sound(s) && Enabled(s, e) && KnownIds(s, s.delivered + s.finished)
    ensures KnownIds(Next(s, e), Next(s, e).delivered + Next(s, e).finished)
  {
    hide IndexOk, CountersOk, QueriesOk, Found, AddResult, TextWords, Jobs, Matching, AllNaive;
    var t := Next(s, e);
    if e.FinishDoc? {
      assert RunOk(s.queries, s.docs[e.doc]);
      forall id | id in e.ids ensures id in s.queries {
        var r := s.docs[e.doc];
        assert SummaryAt(r.results, s.queries, id, WordsHit(r.applied, id));
      }
      assert t.delivered + t.finished == s.delivered + s.finished + [Answer(e.doc, e.ids)];
    } else if e.GetNextAvailRes? {
      SameAnswers(s);
    }
    hide RunOk;
  }

  lemma StepKeepsRecord(s: State, e: Event, seen: seq<Seen>)
    requires Sound(s) && Accounted(s) && Recorded(s, seen) && Enabled(s, e) && Polite(s, e)
    ensures Recorded(Next(s, e), seen + SeenBy(s, e))
  {
    hide Sound, Accounted, Enabled, Next, Polite, OpenDoc, KnownIds, GoodCalls, HasStarted;
    hide StartedIds, SentDocs, GotDocs, DocSeq;
    StepCounts(s, e, seen);
    StepKnownIds(s, e);
    var more := seen + SeenBy(s, e);
    forall i {:trigger OpenDoc(Next(s, e), more, i)} | 0 <= i < |more| && IsMatch(more[i])
      ensures OpenDoc(Next(s, e), more, i)
    {
      StepDocsOpen(s, e, seen, i);
    }
  }

  // A call waits at the barrier exactly if it is EndQuery, or MatchDocument after a start that no
  // MatchDocument has followed yet.
  lemma WaitsIff(s: System, e: Event, order: seq<Job>)
    requires Recorded(s.eng, s.seen) && Can(s, Call(e, order))
    ensures Then(s, Call(e, order)).client.Waiting? <==> e.EndQuery? || (e.MatchDocument? && HasStarted(s.seen))
  {
    hide GoodCalls, HasStarted, StartedIds, SentDocs, GotDocs, DocSeq, OpenDoc, KnownIds, Polite, Taken, SeenBy;
  }

  // ------------------------------------------------ the order of submission

  // All jobs the client has submitted or will before it is free again.
  ghost function All(s: System): seq<Job> {
    s.sch.submitted + Unsent(s)
  }

  // The jobs of one call stand together.
  ghost predicate Block(x: Seen, all: seq<Job>, at: nat) {
    && at + Load(x) <= |all|
    && (IsStart(x) ==> multiset(all[at..at + Load(x)]) == multiset(AddsOf(NewAdds(x.e))))
    && (IsMatch(x) ==> all[at] == S.MatchDoc(x.e.doc))
  }

  ghost predicate Known(s: State, j: Job) {
    if j.AddWord? then j.query in s.queries else j.doc in s.promised
  }

  ghost predicate NoneTwice<T>(q: seq<T>) {
    forall i, j :: 0 <= i < j < |q| ==> q[i] != q[j]
  }

  ghost predicate LaidOut(eng: State, seen: seq<Seen>, all: seq<Job>) {
    && |all| == Sent(seen)
    && (forall i {:trigger seen[i]} :: 0 <= i < |seen| ==> Block(seen[i], all, Sent(seen[..i])))
    && NoneTwice(all)
    && (forall j :: j in all ==> Known(eng, j))
  }

  lemma BlockStays(x: Seen, all: seq<Job>, more: seq<Job>, at: nat)
    requires Block(x, all, at)
    ensures Block(x, all + more, at)
  {
    hide AddsOf, NewAdds, TextWords;
    assert (all + more)[at..at + Load(x)] == all[at..at + Load(x)];
  }

  lemma NewAddsIff(e: Event, j: Job)
    requires e.StartQuery?
    ensures j in AddsOf(NewAdds(e)) <==> j.AddWord? && j.query == e.id && j.word in TextWords(e.text)
  {
    hide TextWords;
    if j.AddWord? { assert AddJob(j.query, j.word) in NewAdds(e) <==> j.query == e.id && j.word in TextWords(e.text); }
  }

  lemma AddsSize(e: Event)
    requires e.StartQuery?
    ensures |AddsOf(NewAdds(e))| == |TextWords(e.text)|
  {
    hide TextWords;
    forall j ensures j in AddsOf(NewAdds(e)) <==> j.AddWord? && j.query == e.id && j.word in TextWords(e.text) {
      NewAddsIff(e, j);
    }
    Images(TextWords(e.text), AddsOf(NewAdds(e)), e.id);
  }

  lemma {:induction false} Images(ws: set<string>, js: set<Job>, id: QueryID)
    requires forall j :: j in js <==> j.AddWord? && j.query == id && j.word in ws
    ensures |js| == |ws|
    decreases ws
  {
    if ws == {} {
      assert js == {};
    } else {
      var w :| w in ws;
      var j := S.AddWord(id, w);
      assert j in js;
      assert js == js - {j} + {j};
      Images(ws - {w}, js - {j}, id);
    }
  }

  // A call past its barrier lays its jobs behind the others.
  lemma CallLaysOut(s: State, e: Event, seen: seq<Seen>, all: seq<Job>, order: seq<Job>)
    requires LaidOut(s, seen, all) && Enabled(s, e) && Polite(s, e) && !Internal(e)
    requires e.StartQuery? ==> multiset(order) == multiset(AddsOf(NewAdds(e)))
    ensures LaidOut(Next(s, e), seen + SeenBy(s, e), all + JobsOf(e, order))
  {
    hide Sent, Polite, Enabled, Next, Block, AddsOf, NewAdds, Load, Known;
    var x := SeenIs(s, e, order);
    var more, jobs := seen + [x], JobsOf(e, order);
    OneMoreSeen(seen, x);
    NewJobs(s, e, order, x);
    BlocksLater(seen, all, x, jobs);
    assert forall j :: j in all + jobs ==> j in all || j in jobs;
    NoneTwiceTogether(all, jobs);
  }

  lemma SeenIs(s: State, e: Event, order: seq<Job>) returns (x: Seen)
    requires Enabled(s, e) && Polite(s, e) && !Internal(e)
    requires e.StartQuery? ==> multiset(order) == multiset(AddsOf(NewAdds(e)))
    ensures SeenBy(s, e) == [x] && Block(x, JobsOf(e, order), 0)
  {
    hide Polite, AddsOf, NewAdds, TextWords;
    x := SeenBy(s, e)[0];
    if e.StartQuery? {
      AddsSize(e);
      assert |order| == |multiset(order)| == |AddsOf(NewAdds(e))|;
      assert order[0..|order|] == order;
    }
  }

  lemma BlocksLater(seen: seq<Seen>, all: seq<Job>, x: Seen, jobs: seq<Job>)
    requires |all| == Sent(seen)
    requires forall i {:trigger seen[i]} :: 0 <= i < |seen| ==> Block(seen[i], all, Sent(seen[..i]))
    requires Block(x, jobs, 0)
    ensures var more := seen + [x];
            forall i {:trigger more[i]} :: 0 <= i < |more| ==> Block(more[i], all + jobs, Sent(more[..i]))
  {
    hide Sent, Block;
    var more := seen + [x];
    forall i {:trigger more[i]} | 0 <= i < |more| ensures Block(more[i], all + jobs, Sent(more[..i])) {
      if i < |seen| {
        assert more[i] == seen[i] && more[..i] == seen[..i];
        BlockStays(seen[i], all, jobs, Sent(seen[..i]));
      } else {
        assert more[i] == x && more[..i] == seen;
        BlockShifts(x, all, jobs);
      }
    }
  }

  lemma BlockShifts(x: Seen, all: seq<Job>, jobs: seq<Job>)
    requires Block(x, jobs, 0)
    ensures Block(x, all + jobs, |all|)
  {
    hide AddsOf, NewAdds, TextWords;
    assert (all + jobs)[|all|..|all| + Load(x)] == jobs[0..Load(x)];
  }

  lemma NoneTwiceTogether(a: seq<Job>, b: seq<Job>)
    requires NoneTwice(a) && NoneTwice(b) && forall x :: x in a ==> x !in b
    ensures NoneTwice(a + b)
  {
    var c := a + b;
    forall i, j | 0 <= i < j < |c| ensures c[i] != c[j] {
      assert i < |a| ==> c[i] == a[i] && a[i] in a;
      assert i >= |a| ==> c[i] == b[i - |a|];
      assert j < |a| ==> c[j] == a[j];
      assert j >= |a| ==> c[j] == b[j - |a|] && b[j - |a|] in b;
    }
  }

  lemma NewJobs(s: State, e: Event, order: seq<Job>, x: Seen)
    requires Enabled(s, e) && Polite(s, e) && !Internal(e) && SeenBy(s, e) == [x]
    requires e.StartQuery? ==> multiset(order) == multiset(AddsOf(NewAdds(e)))
    ensures var t, jobs := Next(s, e), JobsOf(e, order);
            && |jobs| == Load(x) && NoneTwice(jobs)
            && (forall j :: j in jobs ==> !Known(s, j) && Known(t, j))
            && (forall j :: Known(s, j) ==> Known(t, j))
  {
    hide TextWords, GoodQuery, GoodDocument, Jobs, Matching, Bump, Lists, Matched;
    if e.StartQuery? {
      var js := AddsOf(NewAdds(e));
      AddsSize(e);
      assert |order| == |multiset(order)| == |js|;
      Enumerated(order, js);
    }
  }

  lemma Enumerated(q: seq<Job>, s: set<Job>)
    requires multiset(q) == multiset(s)
    ensures NoneTwice(q) && forall x :: x in q <==> x in s
  {
    forall x ensures x in q <==> x in s {
      assert x in q <==> x in multiset(q);
    }
    forall i, j | 0 <= i < j < |q| ensures q[i] != q[j] {
      if q[i] == q[j] { Twice(q, i, j); }
    }
  }

  lemma Twice(q: seq<Job>, i: nat, j: nat)
    requires i < j < |q| && q[i] == q[j]
    ensures multiset(q)[q[i]] >= 2
  {
    assert q == q[..i] + [q[i]] + q[i + 1..j] + [q[j]] + q[j + 1..];
  }

  lemma InternalKnows(s: State, e: Event, seen: seq<Seen>, all: seq<Job>)
    requires LaidOut(s, seen, all) && Enabled(s, e) && Internal(e)
    ensures LaidOut(Next(s, e), seen, all)
  {
    hide Sent, Block, Found, AddResult, Lists, Matched;
    assert Next(s, e).queries == s.queries && Next(s, e).promised == s.promised;
    assert forall j :: Known(s, j) ==> Known(Next(s, e), j);
  }

  // ------------------------------------------------ documents end in the order of their worker

  ghost predicate Before(ds: seq<DocID>, a: DocID, b: DocID) {
    exists x, y :: 0 <= x < y < |ds| && ds[x] == a && ds[y] == b
  }

  // The documents a worker has ended stand in the same order among the answers.
  ghost predicate InOrder(completed: seq<seq<Job>>, ds: seq<DocID>) {
    && (forall v, j :: 0 <= v < |completed| && j in completed[v] && j.MatchDoc? ==> j.doc in ds)
    && (forall d :: d in ds ==> exists v :: 0 <= v < |completed| && S.MatchDoc(d) in completed[v])
    && (forall v {:trigger completed[v]} :: 0 <= v < |completed| ==> WorkerInOrder(completed[v], ds))
  }

  ghost predicate WorkerInOrder(done: seq<Job>, ds: seq<DocID>) {
    forall i, j :: 0 <= i < j < |done| && done[i].MatchDoc? && done[j].MatchDoc? ==> Before(ds, done[i].doc, done[j].doc)
  }

  ghost function Out(s: State): seq<DocID> {
    DocSeq(s.delivered + s.finished)
  }

  lemma BeforeLater(ds: seq<DocID>, more: seq<DocID>, a: DocID, b: DocID)
    requires Before(ds, a, b)
    ensures Before(ds + more, a, b)
  {
    var x, y :| 0 <= x < y < |ds| && ds[x] == a && ds[y] == b;
    assert (ds + more)[x] == a && (ds + more)[y] == b;
  }

  // A worker ends a job.
  lemma EndKeepsOrder(completed: seq<seq<Job>>, ds: seq<DocID>, w: nat, j: Job)
    requires InOrder(completed, ds) && w < |completed|
    ensures InOrder(completed[w := completed[w] + [j]], ds + if j.MatchDoc? then [j.doc] else [])
  {
    var more, es := completed[w := completed[w] + [j]], ds + if j.MatchDoc? then [j.doc] else [];
    forall d | d in es ensures exists v :: 0 <= v < |more| && S.MatchDoc(d) in more[v] {
      if d in ds {
        var v :| 0 <= v < |completed| && S.MatchDoc(d) in completed[v];
        assert S.MatchDoc(d) in more[v];
      } else {
        assert S.MatchDoc(d) in more[w];
      }
    }
    forall v {:trigger more[v]} | 0 <= v < |more| ensures WorkerInOrder(more[v], es) {
      assert WorkerInOrder(completed[v], ds);
      EndKeepsWorker(completed[v], ds, j, v == w);
    }
    forall v, i: Job | 0 <= v < |more| && i in more[v] && i.MatchDoc? ensures i.doc in es {
      assert i in completed[v] || i == j;
    }
  }

  lemma EndKeepsWorker(done: seq<Job>, ds: seq<DocID>, j: Job, here: bool)
    requires WorkerInOrder(done, ds) && forall i :: i in done && i.MatchDoc? ==> i.doc in ds
    ensures WorkerInOrder(if here then done + [j] else done, ds + if j.MatchDoc? then [j.doc] else [])
  {
    var more, added := if here then done + [j] else done, if j.MatchDoc? then [j.doc] else [];
    forall x, y | 0 <= x < y < |more| && more[x].MatchDoc? && more[y].MatchDoc?
      ensures Before(ds + added, more[x].doc, more[y].doc)
    {
      assert more[x] == done[x];
      if y < |done| {
        assert Before(ds, done[x].doc, done[y].doc);
        BeforeLater(ds, added, done[x].doc, done[y].doc);
      } else {
        assert done[x] in done;
        var z :| 0 <= z < |ds| && ds[z] == done[x].doc;
        assert (ds + added)[z] == ds[z] && (ds + added)[|ds|] == j.doc;
      }
    }
  }

  // ------------------------------------------------ all of it, kept by every step

  ghost predicate Good(s: System) {
    && Coupled(s) && Recorded(s.eng, s.seen) && LaidOut(s.eng, s.seen, All(s))
    && InOrder(s.sch.completed, Out(s.eng))
  }

  lemma BootIsGood(n: nat)
    requires n > 0
    ensures Good(Boot(n))
  {
    hide Coupled, Recorded, LaidOut, InOrder;
    BootIsCoupled(n);
    NothingRecorded();
    NothingLaidOut();
    NothingEnded(n);
  }

  lemma NothingRecorded()
    ensures Recorded(INITIAL, [])
  {
    assert DocSeq([]) == [];
  }

  lemma NothingLaidOut()
    ensures LaidOut(INITIAL, [], [])
  {
  }

  lemma NothingEnded(n: nat)
    ensures InOrder(S.Initial(n).completed, Out(INITIAL))
  {
    assert INITIAL.delivered + INITIAL.finished == [];
  }

  // The order of submission over a step.
  lemma StepKeepsLayout(s: System, a: Step)
    requires Coupled(s) && Can(s, a) && LaidOut(s.eng, s.seen, All(s))
    ensures LaidOut(Then(s, a).eng, Then(s, a).seen, All(Then(s, a)))
  {
    Effect(s, a);
    AllAfter(s, a);
    OrderIsRight(s, a);
    var es := Ev(s, a);
    hide Can, Then, Ev, Coupled, LaidOut, All, Next, Enabled, Polite, AddsOf, NewAdds;
    if es == [] {
      assert All(s) + [] == All(s);
    } else if Internal(es[0]) {
      InternalKnows(s.eng, es[0], s.seen, All(s));
      assert s.seen + [] == s.seen && All(s) + [] == All(s);
    } else {
      CallLaysOut(s.eng, es[0], s.seen, All(s), OrderOf(a));
    }
  }

  ghost function OrderOf(a: Step): seq<Job> {
    if a.Call? then a.order else []
  }

  lemma OrderIsRight(s: System, a: Step)
    requires Coupled(s) && Can(s, a)
    ensures forall e :: e in Ev(s, a) && e.StartQuery? ==> multiset(OrderOf(a)) == multiset(AddsOf(NewAdds(e)))
  {
    hide S.Inv, SameJobs, Sound, Accounted, S.Enabled, Found, Done, CanBegin, CanRead, CanDeliver;
    hide Polite, AddsOf, NewAdds;
  }

  lemma AllAfter(s: System, a: Step)
    requires Coupled(s) && Can(s, a)
    ensures var es := Ev(s, a);
            All(Then(s, a)) == All(s) + if es == [] || Internal(es[0]) then [] else JobsOf(es[0], OrderOf(a))
  {
    hide *;
    UnsentAfter(s, a);
    SubmittedAfter(s, a);
    StepIs(s, a);
    AllIs(s);
    AllIs(Then(s, a));
  }

  lemma AllIs(s: System)
    ensures All(s) == s.sch.submitted + Unsent(s)
  {
  }

  lemma SubmittedAfter(s: System, a: Step)
    requires Can(s, a)
    ensures Then(s, a).sch.submitted == s.sch.submitted + if a.Send? then [s.client.jobs[0]] else []
  {
    hide Taken, SeenBy, Polite, Waits, Done, CanBegin, CanRead, CanDeliver;
  }

  // The step of the engine, by kind.
  lemma StepIs(s: System, a: Step)
    requires Coupled(s) && Can(s, a)
    ensures Ev(s, a) == (match a
                         case Call(e, _) => if Waits(s.eng, e) then [] else [e]
                         case Return => [s.client.call]
                         case _ => Ev(s, a))
    ensures a.Call? ==> !Internal(a.e) && OrderOf(a) == a.order
    ensures a.Return? ==> !Internal(s.client.call) && !s.client.call.StartQuery? && OrderOf(a) == []
    ensures !a.Call? && !a.Return? ==> Ev(s, a) == [] || Internal(Ev(s, a)[0])
  {
    hide S.Inv, SameJobs, Sound, Accounted, S.Enabled, Polite, Waits, Done, CanBegin, CanRead, CanDeliver;
  }

  lemma StepKeepsOrder(s: System, a: Step)
    requires Coupled(s) && Can(s, a) && InOrder(s.sch.completed, Out(s.eng))
    ensures InOrder(Then(s, a).sch.completed, Out(Then(s, a).eng))
  {
    CompletedAfter(s, a);
    OutAfter(s, a);
    hide Can, Then, Coupled, InOrder, Out;
    if a.EndAdd? || a.EndDoc? {
      EndKeepsOrder(s.sch.completed, Out(s.eng), a.w, Head(s, a.w));
      HeadKind(s, a);
    } else {
      assert Out(s.eng) + [] == Out(s.eng);
    }
  }

  lemma HeadKind(s: System, a: Step)
    requires Can(s, a) && (a.EndAdd? || a.EndDoc?)
    ensures a.w < |s.sch.workers| && s.sch.workers[a.w].queue != [] && (a.EndDoc? <==> Head(s, a.w).MatchDoc?)
  {
    hide Done;
  }

  lemma CompletedAfter(s: System, a: Step)
    requires Coupled(s) && Can(s, a)
    ensures a.EndAdd? || a.EndDoc? ==> a.w < |s.sch.workers| && s.sch.workers[a.w].queue != [] && a.w < |s.sch.completed|
    ensures Then(s, a).sch.completed ==
            if a.EndAdd? || a.EndDoc? then s.sch.completed[a.w := s.sch.completed[a.w] + [Head(s, a.w)]]
            else s.sch.completed
  {
    hide S.Inv, SameJobs, Sound, Accounted, Taken, SeenBy, Found, Polite, Done, CanBegin, CanRead, CanDeliver;
  }

  lemma OutAfter(s: System, a: Step)
    requires Coupled(s) && Can(s, a)
    ensures a.EndDoc? ==> a.w < |s.sch.workers| && s.sch.workers[a.w].queue != [] && Head(s, a.w).MatchDoc?
    ensures Out(Then(s, a).eng) == Out(s.eng) + if a.EndDoc? then [Head(s, a.w).doc] else []
  {
    Effect(s, a);
    EndsAreFinishes(s, a);
    hide Can, Then, Ev, Coupled, Out, Enabled, Next, Polite, SeenBy;
    var es := Ev(s, a);
    if es == [] {
      assert Out(s.eng) + [] == Out(s.eng);
    } else {
      EngineOut(s.eng, es[0]);
    }
  }

  lemma EndsAreFinishes(s: System, a: Step)
    requires Coupled(s) && Can(s, a)
    ensures a.EndDoc? ==> a.w < |s.sch.workers| && s.sch.workers[a.w].queue != [] && Head(s, a.w).MatchDoc?
    ensures if a.EndDoc? then |Ev(s, a)| == 1 && Ev(s, a)[0] == FinishDoc(Head(s, a.w).doc, a.ids)
            else forall e :: e in Ev(s, a) ==> !e.FinishDoc?
  {
    hide S.Inv, SameJobs, Sound, Accounted, Found, Done, CanBegin, CanRead, CanDeliver, Polite;
  }

  lemma EngineOut(s: State, e: Event)
    requires Enabled(s, e)
    ensures Out(Next(s, e)) == Out(s) + if e.FinishDoc? then [e.doc] else []
  {
    hide Found, AddResult, Lists, Matched, TextWords, Jobs, DocSeq;
    if e.GetNextAvailRes? {
      SameAnswers(s);
      assert Out(s) + [] == Out(s);
    } else if e.FinishDoc? {
      DocSeqMore(s.delivered + s.finished, Answer(e.doc, e.ids));
      assert s.delivered + (s.finished + [Answer(e.doc, e.ids)]) == s.delivered + s.finished + [Answer(e.doc, e.ids)];
    } else {
      assert Out(s) + [] == Out(s);
    }
  }

  lemma StepKeepsGood(s: System, a: Step)
    requires Good(s) && Can(s, a)
    ensures Good(Then(s, a))
  {
    StepKeepsCoupled(s, a);
    StepKeepsLayout(s, a);
    StepKeepsOrder(s, a);
    Effect(s, a);
    assert Sound(s.eng) && Accounted(s.eng);
    var es := Ev(s, a);
    hide Can, Then, Ev, Coupled, LaidOut, Accounted, InOrder, Recorded, Next, Enabled, Polite, All, Out, Sound, SeenBy;
    if es != [] {
      StepKeepsRecord(s.eng, es[0], s.seen);
    }
  }

  lemma {:induction false} LeadsKeepsGood(s: System, steps: seq<Step>, t: System)
    requires Good(s) && Leads(s, steps, t)
    ensures Good(t) && |t.sch.workers| == |s.sch.workers|
    decreases |steps|
  {
    hide Can, Then, Good;
    if steps != [] {
      StepKeepsGood(s, steps[0]);
      assert Coupled(s) by { GoodIsCoupled(s); }
      assert S.Inv(s.sch) by { CoupledScheduler(s); }
      SchedulerGoesOn(s, steps[0]);
      LeadsKeepsGood(Then(s, steps[0]), steps[1..], t);
    }
  }

  lemma GoodIsCoupled(s: System)
    requires Good(s)
    ensures Coupled(s)
  {
  }

  // The calls seen and the answers only grow.
  lemma StepGrows(s: System, a: Step)
    requires Coupled(s) && Can(s, a)
    ensures s.seen <= Then(s, a).seen && |Then(s, a).seen| <= |s.seen| + 1 && Out(s.eng) <= Out(Then(s, a).eng)
  {
    OutAfter(s, a);
    Effect(s, a);
    hide Can, Then, Ev, Coupled, Out, Polite, Enabled, Next;
  }

  lemma {:induction false} LeadsGrows(s: System, steps: seq<Step>, t: System)
    requires Coupled(s) && Leads(s, steps, t)
    ensures s.seen <= t.seen && Out(s.eng) <= Out(t.eng)
    decreases |steps|
  {
    hide Can, Then, Coupled, Out;
    if steps != [] {
      StepKeepsCoupled(s, steps[0]);
      StepGrows(s, steps[0]);
      LeadsGrows(Then(s, steps[0]), steps[1..], t);
    }
  }

  // The step at which the `len`-th call was seen.
  lemma {:induction false} SplitAt(s: System, steps: seq<Step>, t: System, len: nat)
    returns (before: seq<Step>, u: System, a: Step, after: seq<Step>)
    requires Coupled(s) && Leads(s, steps, t) && |s.seen| < len <= |t.seen|
    ensures Leads(s, before, u) && Can(u, a) && Leads(Then(u, a), after, t)
    ensures |u.seen| == len - 1 && |Then(u, a).seen| == len
    decreases |steps|
  {
    hide Can, Then, Coupled, Out;
    var v := Then(s, steps[0]);
    StepKeepsCoupled(s, steps[0]);
    StepGrows(s, steps[0]);
    if |v.seen| == len {
      before, u, a, after := [], s, steps[0], steps[1..];
    } else {
      before, u, a, after := SplitAt(v, steps[1..], t, len);
      OneStep(s, steps[0]);
      LeadsOn(s, [steps[0]], v, before, u);
      before := [steps[0]] + before;
    }
  }
}
