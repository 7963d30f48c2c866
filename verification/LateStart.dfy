/** What happens to a document when a query is started before its answer is out.

    StartQuery has no barrier (src/core.cpp:173-222), so the answer may name a query started
    after the document was submitted, against include/core.h:194-195.  `LateStartEntersIff` says
    exactly when, by the calls the client has made and the results it has got: some interleaving
    names the query if and only if the answer is outstanding, no call since has waited for all
    jobs, the query matches the document, and none of its insertions is queued behind the
    document at the same worker. */
module LateStarts {
  import opened Parsing
  import opened EngineModel
  import opened Systems
  import opened Histories
  import opened Replays
  import opened Schedules
  import S = Scheduling

  // ------------------------------------------------ only matching queries, and not from behind

  // A query started while the document was being matched.  The words in `blocked` are to be
  // indexed by insertions queued behind the document.
  datatype Late = Late(doc: DocID, words: set<string>, id: QueryID, query: Query, blocked: set<string>)

  ghost predicate LateOk(s: State, l: Late) {
    && l.doc in s.promised && LateQuery(s, l) && LateAnswers(s, l)
    && (l.doc in s.docs ==> LateDoc(s, s.docs[l.doc], l))
  }

  ghost predicate LateQuery(s: State, l: Late) {
    l.id in s.queries && s.queries[l.id] == l.query.(active := s.queries[l.id].active) && l.blocked <= l.query.words
  }

  // The blocked words are not indexed before the document is done.
  ghost predicate LateDoc(s: State, r: DocRun, l: Late) {
    r.words == l.words && forall w :: w in l.blocked ==> AddJob(l.id, w) in s.adds && Hit(l.id, w) !in Hits(r)
  }

  ghost predicate LateAnswers(s: State, l: Late) {
    forall a :: a in s.delivered + s.finished && a.doc == l.doc && l.id in a.ids ==> MayEnter(l)
  }

  ghost predicate MayEnter(l: Late) {
    l.blocked == {} && DocMatches(l.query, l.words)
  }

  lemma CallKeepsLate(s: State, e: Event, l: Late)
    requires LateOk(s, l) && Enabled(s, e) && Polite(s, e) && !Internal(e)
    ensures LateOk(Next(s, e), l)
  {
    hide MayEnter, Hits, Bump, TextWords, Jobs, Matching, GoodQuery, GoodDocument;
    if e.GetNextAvailRes? { SameAnswers(s); }
  }

  lemma AddKeepsLate(s: State, job: AddJob, l: Late)
    requires LateOk(s, l) && Enabled(s, RunAdd(job))
    requires job.id == l.id && job.word in l.blocked ==> l.doc !in s.docs
    ensures LateOk(Next(s, RunAdd(job)), l)
  {
    hide MayEnter, Hits;
  }

  lemma BeginKeepsLate(s: State, doc: DocID, key: Key, hits: seq<Hit>, l: Late)
    requires IndexOk(s) && CountersOk(s) && QueriesOk(s.queries)
    requires LateOk(s, l) && Enabled(s, BeginJob(doc, key, hits))
    ensures LateOk(Next(s, BeginJob(doc, key, hits)), l)
  {
    BeginStep(s, doc, key, hits);
    StreamAdds(s.docs[doc], s.docs[doc].todo - {key}, hits);
    forall w | w in l.blocked && AddJob(l.id, w) in s.adds ensures Hit(l.id, w) !in hits {
      FoundIsNaive(s, key, Hit(l.id, w));
    }
    hide IndexOk, CountersOk, QueriesOk, MayEnter, Hits, Found, Enabled, Next;
  }

  lemma ReadKeepsLate(s: State, doc: DocID, key: Key, hits: seq<Hit>, l: Late)
    requires IndexOk(s) && CountersOk(s) && QueriesOk(s.queries)
    requires LateOk(s, l) && Enabled(s, ReadAgain(doc, key, hits))
    ensures LateOk(Next(s, ReadAgain(doc, key, hits)), l)
  {
    ReadStep(s, doc, key, hits);
    StreamAdds(s.docs[doc], s.docs[doc].todo, hits);
    forall w | w in l.blocked && AddJob(l.id, w) in s.adds ensures Hit(l.id, w) !in hits {
      FoundIsNaive(s, key, Hit(l.id, w));
    }
    hide IndexOk, CountersOk, QueriesOk, MayEnter, Hits, Found, Enabled, Next;
  }

  lemma HitKeepsLate(s: State, doc: DocID, i: nat, l: Late)
    requires LateOk(s, l) && Enabled(s, ApplyHit(doc, i)) && RunOk(s.queries, s.docs[doc])
    ensures LateOk(Next(s, ApplyHit(doc, i)), l)
  {
    HitStep(s, doc, i);
    NaiveIsLegal(s.queries, s.docs[doc]);
    HitKeeps(s.queries, s.docs[doc], i);
    hide RunOk, MayEnter, Hits, AddResult, Enabled, Next;
  }

  lemma FinishKeepsLate(s: State, doc: DocID, ids: seq<QueryID>, l: Late)
    requires QueriesOk(s.queries)
    requires LateOk(s, l) && Enabled(s, FinishDoc(doc, ids)) && RunOk(s.queries, s.docs[doc])
    ensures LateOk(Next(s, FinishDoc(doc, ids)), l)
  {
    if doc == l.doc && l.id in ids { EndKeepsLate(s, s.docs[doc], l); }
    hide QueriesOk, RunOk, MayEnter, Hits, Matched;
  }

  lemma EndKeepsLate(s: State, r: DocRun, l: Late)
    requires QueriesOk(s.queries) && RunOk(s.queries, r) && LateQuery(s, l) && LateDoc(s, r, l)
    requires (forall st :: st in r.streams ==> st == []) && l.id in Matched(r.results)
    ensures MayEnter(l)
  {
    MatchedIffHit(s.queries, r, l.id);
    hide Jobs, Hits, DocMatches, Indexable, Summarises;
    assert forall w :: w in l.query.words ==> NaiveAmong(s.queries, Jobs(r.words), Hit(l.id, w));
    NaiveIffMatches(s.queries, r.words, l.id);
    SameMatches(l.query, s.queries[l.id], r.words);
    assert forall w :: w in l.blocked ==> w in l.query.words && Hit(l.id, w) in Hits(r);
  }

  lemma SameMatches(p: Query, q: Query, doc: set<string>)
    requires q == p.(active := q.active)
    ensures DocMatches(p, doc) <==> DocMatches(q, doc)
  {
    hide WordMatch;
  }

  lemma StepKeepsLate(s: State, e: Event, l: Late)
    requires Sound(s) && LateOk(s, l) && Enabled(s, e) && Polite(s, e)
    requires e.RunAdd? && e.job.id == l.id && e.job.word in l.blocked ==> l.doc !in s.docs
    ensures LateOk(Next(s, e), l)
  {
    hide LateOk, IndexOk, CountersOk, QueriesOk, RunOk, Next, Polite, Found, Matched;
    match e
    case RunAdd(job) => AddKeepsLate(s, job, l);
    case BeginJob(doc, key, hits) => BeginKeepsLate(s, doc, key, hits, l);
    case ReadAgain(doc, key, hits) => ReadKeepsLate(s, doc, key, hits, l);
    case ApplyHit(doc, i) => HitKeepsLate(s, doc, i, l);
    case FinishDoc(doc, ids) => FinishKeepsLate(s, doc, ids, l);
    case _ => CallKeepsLate(s, e, l);
  }

  // The insertions of the blocked words stand behind the document, at its worker.
  ghost predicate Behind(all: seq<Job>, n: nat, k: nat, l: Late)
    requires n > 0
  {
    && k < |all| && all[k] == S.MatchDoc(l.doc)
    && forall w :: w in l.blocked ==>
         exists b :: k < b < |all| && all[b] == S.AddWord(l.id, w) && S.Turn(b, n) == S.Turn(k, n)
  }

  lemma BehindStays(all: seq<Job>, more: seq<Job>, n: nat, k: nat, l: Late)
    requires n > 0 && Behind(all, n, k, l) && all <= more
    ensures Behind(more, n, k, l)
  {
    hide S.Turn;
    forall w | w in l.blocked
      ensures exists b :: k < b < |more| && more[b] == S.AddWord(l.id, w) && S.Turn(b, n) == S.Turn(k, n)
    {
      var b :| k < b < |all| && all[b] == S.AddWord(l.id, w) && S.Turn(b, n) == S.Turn(k, n);
      assert more[b] == all[b];
    }
  }

  // A blocked insertion cannot end as long as the document is open.
  lemma BlockedWaits(s: System, a: Step, k: nat, l: Late)
    requires Good(s) && Can(s, a) && a.EndAdd? && |s.sch.workers| > 0 && Behind(All(s), |s.sch.workers|, k, l)
    requires a.w < |s.sch.workers| && s.sch.workers[a.w].queue != [] && Head(s, a.w).AddWord?
    requires Head(s, a.w).query == l.id && Head(s, a.w).word in l.blocked
    ensures l.doc !in s.eng.docs
  {
    var b :| k < b < |All(s)| && All(s)[b] == S.AddWord(l.id, Head(s, a.w).word)
              && S.Turn(b, |s.sch.workers|) == S.Turn(k, |s.sch.workers|);
    assert S.Waiting(s.sch.workers[a.w])[0] == Head(s, a.w);
    hide Good;
    EarlierIsClosed(s, a.w, 0, k, b);
    PendingIff(s.eng, S.MatchDoc(l.doc));
  }

  lemma EndAddIs(s: System, a: Step)
    requires Coupled(s) && Can(s, a)
    ensures forall e :: e in Ev(s, a) && e.RunAdd? ==>
              && a.EndAdd? && a.w < |s.sch.workers| && s.sch.workers[a.w].queue != [] && Head(s, a.w).AddWord?
              && e.job == AddJob(Head(s, a.w).query, Head(s, a.w).word)
  {
    hide S.Inv, SameJobs, Sound, Accounted, Found, Polite, Done, CanBegin, CanRead, CanDeliver;
  }

  lemma MoveKeepsLate(s: System, a: Step, k: nat, l: Late)
    requires Good(s) && Can(s, a) && LateOk(s.eng, l)
    requires |s.sch.workers| > 0 && Behind(All(s), |s.sch.workers|, k, l)
    ensures LateOk(Then(s, a).eng, l) && All(s) <= All(Then(s, a))
  {
    Effect(s, a);
    EndAddIs(s, a);
    AllAfter(s, a);
    GoodIsSound(s);
    hide *;
    var es := Ev(s, a);
    if es != [] {
      assert es[0] in es;
      if es[0].RunAdd? && es[0].job.id == l.id && es[0].job.word in l.blocked {
        BlockedWaits(s, a, k, l);
      }
      StepKeepsLate(s.eng, es[0], l);
    }
  }

  lemma {:induction false} LeadsKeepsLate(s: System, steps: seq<Step>, t: System, k: nat, l: Late)
    requires Good(s) && Leads(s, steps, t) && LateOk(s.eng, l)
    requires |s.sch.workers| > 0 && Behind(All(s), |s.sch.workers|, k, l)
    ensures LateOk(t.eng, l)
    decreases |steps|
  {
    hide Can, Then, Good, LateOk, Behind, All;
    if steps != [] {
      var a, u := steps[0], Then(s, steps[0]);
      StepKeepsGood(s, a);
      GoodIsCoupled(s);
      CoupledScheduler(s);
      SchedulerGoesOn(s, a);
      MoveKeepsLate(s, a, k, l);
      BehindStays(All(s), All(u), |s.sch.workers|, k, l);
      LeadsKeepsLate(u, steps[1..], t, k, l);
    }
  }

  // A closed document keeps its answer.
  ghost predicate Gone(s: State, doc: DocID, id: QueryID) {
    doc in s.promised && doc !in s.docs && forall a :: a in s.delivered + s.finished && a.doc == doc ==> id !in a.ids
  }

  lemma StepKeepsGone(s: State, e: Event, doc: DocID, id: QueryID)
    requires Gone(s, doc, id) && Enabled(s, e) && Polite(s, e)
    ensures Gone(Next(s, e), doc, id)
  {
    hide Found, AddResult, Lists, Matched, TextWords, Jobs, Matching, GoodQuery, GoodDocument, Bump;
    if e.GetNextAvailRes? { SameAnswers(s); }
  }

  lemma {:induction false} LeadsKeepsGone(s: System, steps: seq<Step>, t: System, doc: DocID, id: QueryID)
    requires Coupled(s) && Leads(s, steps, t) && Gone(s.eng, doc, id)
    ensures Gone(t.eng, doc, id)
    decreases |steps|
  {
    hide Can, Then, Coupled, Gone, Ev;
    if steps != [] {
      var a := steps[0];
      StepKeepsCoupled(s, a);
      Effect(s, a);
      if Ev(s, a) != [] { StepKeepsGone(s.eng, Ev(s, a)[0], doc, id); }
      LeadsKeepsGone(Then(s, a), steps[1..], t, doc, id);
    }
  }

  // ------------------------------------------------ the condition

  // The client can see `seen`.
  ghost predicate Possible(n: nat, seen: seq<Seen>) {
    exists t :: Attained(n, t) && t.seen == seen
  }

  ghost predicate Names(a: Answer, doc: DocID, id: QueryID) {
    a.doc == doc && id in a.ids
  }

  // Some run in which the client sees `seen`, then starts the query, then may go on in any way,
  // has the query in the answer of the document.
  ghost predicate CanEnter(n: nat, seen: seq<Seen>, e: Event, doc: DocID)
    requires e.StartQuery?
  {
    exists t, a :: && Attained(n, t) && seen + [Called(e)] <= t.seen
                   && a in t.eng.delivered + t.eng.finished && Names(a, doc, e.id)
  }

  // What the client can tell from its calls and results: the document submitted by the call
  // number `p` is outstanding, nothing has waited since, the query matches it, and no insertion
  // goes to the worker of the document.
  ghost predicate Exposed(n: nat, seen: seq<Seen>, p: nat, e: Event)
    requires n > 0 && p < |seen| && IsMatch(seen[p]) && e.StartQuery?
  {
    && (forall k :: p < k < |seen| ==> !IsBarrier(seen, k) && seen[k] != Got(seen[p].e.doc))
    && DocMatches(Started(e), TextWords(seen[p].e.text))
    && Apart(Sent(seen), |TextWords(e.text)|, Sent(seen[..p]), n)
  }

  // None of the `c` jobs submitted from number `m` on goes to the worker of job number `k`.
  predicate Apart(m: nat, c: nat, k: nat, n: nat)
    requires n > 0
  {
    forall l :: m <= l < m + c ==> S.Turn(l, n) != S.Turn(k, n)
  }

  // How many jobs can be submitted from number `m` on before one goes to the worker of job `k`.
  function Ahead(m: nat, k: nat, n: nat): nat
    requires n > 0
  {
    if m % n <= k % n then k % n - m % n else n + k % n - m % n
  }

  // In numbers: the worker of a job is its number modulo the number of threads.
  lemma ApartIff(m: nat, c: nat, k: nat, n: nat)
    requires n > 0
    ensures Apart(m, c, k, n) <==> c <= Ahead(m, k, n)
  {
    hide S.Turn;
    S.TurnIs(k, n);
    S.DivModParts(m, n);
    S.DivModParts(k, n);
    var g := Ahead(m, k, n);
    S.PlacesOn(m, g, n);
    S.TurnIs(m + g, n);
    forall l | m <= l < m + g ensures S.Turn(l, n) != S.Turn(k, n) {
      S.PlacesOn(m, l - m, n);
      S.TurnIs(l, n);
    }
  }

  // ------------------------------------------------ it suffices

  // A query just started has its insertions at consecutive places.
  lemma StartBlock(s: System, seen: seq<Seen>, e: Event)
    requires Good(s) && e.StartQuery? && s.seen == seen + [Called(e)]
    ensures Block(Called(e), All(s), Sent(seen)) && IsStart(Called(e))
  {
    hide Coupled, Recorded, InOrder, Sent, All, Block;
    assert s.seen[|seen|] == Called(e) && s.seen[..|seen|] == seen;
  }

  lemma AddPlace(s: System, seen: seq<Seen>, e: Event, w: string) returns (l: nat)
    requires Good(s) && e.StartQuery? && s.seen == seen + [Called(e)] && w in TextWords(e.text)
    ensures Sent(seen) <= l < Sent(seen) + |TextWords(e.text)| && l < |All(s)| && All(s)[l] == S.AddWord(e.id, w)
  {
    hide *;
    StartBlock(s, seen, e);
    NewAddsIff(e, S.AddWord(e.id, w));
    l := InBlock(All(s), Sent(seen), e, S.AddWord(e.id, w));
  }

  lemma InBlock(all: seq<Job>, m: nat, e: Event, j: Job) returns (l: nat)
    requires e.StartQuery? && Block(Called(e), all, m) && j in AddsOf(NewAdds(e))
    ensures m <= l < m + |TextWords(e.text)| && l < |all| && all[l] == j
  {
    hide AddsOf, NewAdds, TextWords;
    var part := all[m..m + Load(Called(e))];
    assert j in multiset(part);
    var i :| 0 <= i < |part| && part[i] == j;
    l := m + i;
  }

  // What stands there is one of its insertions.
  lemma PlaceAdds(s: System, seen: seq<Seen>, e: Event, i: nat) returns (w: string)
    requires Good(s) && e.StartQuery? && s.seen == seen + [Called(e)] && i < |TextWords(e.text)|
    ensures w in TextWords(e.text) && Sent(seen) + i < |All(s)| && All(s)[Sent(seen) + i] == S.AddWord(e.id, w)
  {
    hide *;
    StartBlock(s, seen, e);
    var j := OfBlock(All(s), Sent(seen), e, i);
    NewAddsIff(e, j);
    w := j.word;
  }

  lemma OfBlock(all: seq<Job>, m: nat, e: Event, i: nat) returns (j: Job)
    requires e.StartQuery? && Block(Called(e), all, m) && i < |TextWords(e.text)|
    ensures m + i < |all| && all[m + i] == j && j in AddsOf(NewAdds(e))
  {
    hide AddsOf, NewAdds, TextWords;
    var part := all[m..m + Load(Called(e))];
    j := part[i];
    assert part[i] == all[m + i] && part[i] in multiset(part);
  }

  // All workers below `c` but `w` have nothing to do.
  ghost predicate OthersIdle(s: System, w: nat, c: nat) {
    c <= |s.sch.workers| && forall u :: 0 <= u < c && u != w ==> S.Waiting(s.sch.workers[u]) == []
  }

  // Only workers other than `w` have gone on, and the document is as it was.
  ghost predicate OthersWent(s: System, t: System, w: nat, doc: DocID) {
    && |t.sch.workers| == |s.sch.workers| && t.seen == s.seen && t.sch.submitted == s.sch.submitted
    && w < |s.sch.workers| && t.sch.workers[w] == s.sch.workers[w] && SameTables(s.eng, t.eng)
    && doc in s.eng.docs && doc in t.eng.docs && t.eng.docs[doc] == s.eng.docs[doc]
  }

  lemma OthersTogether(s: System, t: System, u: System, w: nat, doc: DocID)
    requires OthersWent(s, t, w, doc) && OthersWent(t, u, w, doc)
    ensures OthersWent(s, u, w, doc)
  {
  }

  // The document stands at `k`, so it waits at no worker but that of `k`.
  lemma DocElsewhere(s: System, k: nat, u: nat, doc: DocID)
    requires Good(s) && k < |All(s)| && All(s)[k] == S.MatchDoc(doc) && u < |s.sch.workers|
    requires S.Turn(k, |s.sch.workers|) != u
    ensures S.MatchDoc(doc) !in S.Waiting(s.sch.workers[u])
  {
    GoodIsCoupled(s);
    ShareOf(s, u);
    var js := S.Waiting(s.sch.workers[u]);
    forall y | 0 <= y < |js| ensures js[y] != S.MatchDoc(doc) {
      var l := WaitsAt(s, u, y);
      hide Good, S.Waiting, S.Turn, All;
      if All(s)[l] == All(s)[k] { OnePlace(s, k, l); }
    }
  }

  // One worker other than that of the document runs all it has.
  lemma DrainOne(s: System, k: nat, u: nat, doc: DocID) returns (steps: seq<Step>, t: System)
    requires Ready(s) && k < |All(s)| && All(s)[k] == S.MatchDoc(doc) && doc in s.eng.docs
    requires u < |s.sch.workers| && S.Turn(k, |s.sch.workers|) != u
    ensures Leads(s, steps, t) && Ready(t) && OthersWent(s, t, S.Turn(k, |s.sch.workers|), doc) && All(t) == All(s)
    ensures OnlyWorker(s, t, u) && u < |t.sch.workers| && S.Waiting(t.sch.workers[u]) == []
  {
    hide *;
    ReadyIs(s);
    DocElsewhere(s, k, u, doc);
    var js := S.Waiting(s.sch.workers[u]);
    steps, t := RunMany(s, u, |js|);
    assert js[..|js|] == js && js[|js|..] == [];
    ReadyIs(t);
    WorkersSame(s, t, u);
    DocKept(s.eng, t.eng, js, doc);
    OthersWentIf(s, t, S.Turn(k, |s.sch.workers|), doc);
  }

  lemma DocKept(s: State, t: State, js: seq<Job>, doc: DocID)
    requires ManyRun(s, t, js) && doc in s.docs && S.MatchDoc(doc) !in js
    ensures doc in t.docs && t.docs[doc] == s.docs[doc]
  {
  }

  lemma OthersWentIf(s: System, t: System, w: nat, doc: DocID)
    requires |t.sch.workers| == |s.sch.workers| && t.seen == s.seen && t.sch.submitted == s.sch.submitted
    requires w < |s.sch.workers| && t.sch.workers[w] == s.sch.workers[w] && SameTables(s.eng, t.eng)
    requires doc in s.eng.docs && doc in t.eng.docs && t.eng.docs[doc] == s.eng.docs[doc]
    ensures OthersWent(s, t, w, doc)
  {
    hide SameTables;
  }

  lemma {:induction false} DrainOthers(s: System, k: nat, c: nat, doc: DocID) returns (steps: seq<Step>, t: System)
    requires Ready(s) && k < |All(s)| && All(s)[k] == S.MatchDoc(doc) && doc in s.eng.docs
    requires 0 < |s.sch.workers| && c <= |s.sch.workers|
    ensures Leads(s, steps, t) && Ready(t) && OthersWent(s, t, S.Turn(k, |s.sch.workers|), doc) && All(t) == All(s)
    ensures OthersIdle(t, S.Turn(k, |s.sch.workers|), c)
    decreases c
  {
    hide *;
    var w := S.Turn(k, |s.sch.workers|);
    if c == 0 {
      steps, t := [], s;
      NoMoves(s);
      NoneWent(s, w, doc);
    } else {
      var first, u := DrainOthers(s, k, c - 1, doc);
      OthersMeans(s, u, w, doc);
      if c - 1 == w {
        steps, t := first, u;
        OneMoreIdle(u, u, w, c - 1);
      } else {
        var more;
        more, t := DrainOne(u, k, c - 1, doc);
        OthersMeans(u, t, w, doc);
        OneMoreIdle(u, t, w, c - 1);
        OthersTogether(s, u, t, w, doc);
        LeadsOn(s, first, u, more, t);
        steps := first + more;
      }
    }
  }

  lemma OthersMeans(s: System, t: System, w: nat, doc: DocID)
    requires OthersWent(s, t, w, doc)
    ensures |t.sch.workers| == |s.sch.workers| && t.seen == s.seen && doc in t.eng.docs && doc in s.eng.docs
    ensures t.eng.docs[doc] == s.eng.docs[doc] && t.eng.queries == s.eng.queries
  {
  }

  lemma NoneWent(s: System, w: nat, doc: DocID)
    requires w < |s.sch.workers| && doc in s.eng.docs
    ensures OthersWent(s, s, w, doc) && OthersIdle(s, w, 0)
  {
  }

  lemma OneMoreIdle(s: System, t: System, w: nat, c: nat)
    requires OthersIdle(s, w, c) && c < |s.sch.workers| == |t.sch.workers|
    requires c != w ==> OnlyWorker(s, t, c) && S.Waiting(t.sch.workers[c]) == []
    requires c == w ==> s == t
    ensures OthersIdle(t, w, c + 1)
  {
    hide S.Waiting, SameTables;
  }

  // No insertion of the query is left: they went to workers that have drained.
  lemma NoneLeft(s: System, seen: seq<Seen>, e: Event, k: nat, w: string)
    requires Good(s) && Free(s) && e.StartQuery? && s.seen == seen + [Called(e)] && w in TextWords(e.text)
    requires |s.sch.workers| > 0 && OthersIdle(s, S.Turn(k, |s.sch.workers|), |s.sch.workers|)
    requires Apart(Sent(seen), |TextWords(e.text)|, k, |s.sch.workers|)
    ensures AddJob(e.id, w) !in s.eng.adds
  {
    hide *;
    var n, j := |s.sch.workers|, S.AddWord(e.id, w);
    PendingIff(s.eng, j);
    if j in PendingJobs(s.eng) {
      FreeSends(s);
      var v, y := OpenWaits(s, j);
      GoodIsCoupled(s);
      ShareOf(s, v);
      var l := WaitsAt(s, v, y);
      var b := AddPlace(s, seen, e, w);
      OnePlace(s, l, b);
      ApartAt(Sent(seen), |TextWords(e.text)|, k, n, l);
      OthersIdleAt(s, S.Turn(k, n), v);
    }
  }

  lemma FreeSends(s: System)
    requires Free(s)
    ensures Unsent(s) == []
  {
  }

  lemma OthersIdleAt(s: System, w: nat, v: nat)
    requires OthersIdle(s, w, |s.sch.workers|) && v < |s.sch.workers| && v != w
    ensures S.Waiting(s.sch.workers[v]) == []
  {
    hide S.Waiting;
  }

  lemma ApartAt(m: nat, c: nat, k: nat, n: nat, l: nat)
    requires n > 0 && Apart(m, c, k, n) && m <= l < m + c
    ensures S.Turn(l, n) != S.Turn(k, n)
  {
    hide S.Turn;
  }

  // Then a document not begun finds all words of the query, if it matches.
  lemma FindsAll(s: State, doc: DocID, id: QueryID, q: Query)
    requires Sound(s) && Fresh(s, doc) && id in s.queries && s.queries[id] == q && q.active
    requires DocMatches(q, s.docs[doc].words) && forall w :: w in q.words ==> AddJob(id, w) !in s.adds
    ensures doc in s.docs && Answered(s, s.docs[doc], id)
  {
    NaiveIffMatches(s.queries, s.docs[doc].words, id);
    hide Sound, DocMatches, Jobs, NaiveAmong, Hits;
  }

  // A job waits once.
  lemma WaitsOnce(s: System, v: nat, x: nat, y: nat)
    requires Good(s) && v < |s.sch.workers| && x < y < |S.Waiting(s.sch.workers[v])|
    ensures S.Waiting(s.sch.workers[v])[x] != S.Waiting(s.sch.workers[v])[y]
  {
    GoodIsCoupled(s);
    ShareOf(s, v);
    hide Good, S.Waiting, S.Turn, All, S.Position;
    var k := WaitsAt(s, v, x);
    var l := WaitsAt(s, v, y);
    if S.Waiting(s.sch.workers[v])[x] == S.Waiting(s.sch.workers[v])[y] { OnePlace(s, k, l); }
  }

  // The worker of the document runs what waits ahead of it.
  lemma RunUpTo(s: System, k: nat, doc: DocID) returns (steps: seq<Step>, t: System)
    requires Ready(s) && k < |All(s)| && All(s)[k] == S.MatchDoc(doc) && doc in s.eng.docs && |s.sch.workers| > 0
    ensures Leads(s, steps, t) && Ready(t) && OnlyWorker(s, t, S.Turn(k, |s.sch.workers|))
    ensures |t.sch.workers| == |s.sch.workers| && doc in t.eng.docs && t.eng.docs[doc] == s.eng.docs[doc]
    ensures var js := S.Waiting(t.sch.workers[S.Turn(k, |s.sch.workers|)]); js != [] && js[0] == S.MatchDoc(doc)
  {
    hide *;
    ReadyIs(s);
    PendingIff(s.eng, S.MatchDoc(doc));
    var v, y := OpenWaits(s, S.MatchDoc(doc));
    GoodIsCoupled(s);
    ShareOf(s, v);
    var l := WaitsAt(s, v, y);
    OnePlace(s, k, l);
    var js := S.Waiting(s.sch.workers[v]);
    forall x | 0 <= x < y ensures js[x] != S.MatchDoc(doc) {
      WaitsOnce(s, v, x, y);
    }
    assert js[y..] != [] && js[y..][0] == js[y];
    steps, t := RunMany(s, v, y);
    WorkersSame(s, t, v);
    DocKept(s.eng, t.eng, js[..y], doc);
  }

  lemma OthersStayIdle(s: System, t: System, w: nat)
    requires OnlyWorker(s, t, w) && OthersIdle(s, w, |s.sch.workers|)
    ensures OthersIdle(t, w, |t.sch.workers|)
  {
    hide S.Waiting, SameTables;
  }

  // From the start of the query to the end of the document.
  lemma EndsWith(s: System, seen: seq<Seen>, e: Event, k: nat, doc: DocID)
    returns (steps: seq<Step>, t: System, a: Answer)
    requires Ready(s) && Fresh(s.eng, doc) && e.StartQuery? && s.seen == seen + [Called(e)] && |s.sch.workers| > 0
    requires k < |All(s)| && All(s)[k] == S.MatchDoc(doc)
    requires Apart(Sent(seen), |TextWords(e.text)|, k, |s.sch.workers|)
    requires e.id in s.eng.queries && s.eng.queries[e.id] == Started(e)
    requires doc in s.eng.docs && DocMatches(Started(e), s.eng.docs[doc].words)
    ensures Leads(s, steps, t) && t.seen == s.seen && a in t.eng.delivered + t.eng.finished && Names(a, doc, e.id)
  {
    hide *;
    var w := S.Turn(k, |s.sch.workers|);
    var drain, u := DrainOthers(s, k, |s.sch.workers|, doc);
    OthersMeans(s, u, w, doc);
    var run, v := RunUpTo(u, k, doc);
    WorkersSame(u, v, w);
    OthersStayIdle(u, v, w);
    FreshStays(s.eng, v.eng, doc);
    SameQueries(u.eng, v.eng);
    ReadyIs(v);
    GoodIsSound(v);
    StartedIs(e);
    forall x | x in TextWords(e.text) ensures AddJob(e.id, x) !in v.eng.adds {
      NoneLeft(v, seen, e, k, x);
    }
    FindsAll(v.eng, doc, e.id, Started(e));
    var end;
    end, t := RunHead(v, w);
    WorkersSame(v, t, w);
    a := HeadEnded(v.eng, t.eng, doc);
    EndedNames(v.eng, t.eng, doc, a, e.id);
    LeadsOn(s, drain, u, run, v);
    LeadsOn(s, drain + run, v, end, t);
    steps := drain + run + end;
  }

  lemma SameQueries(s: State, t: State)
    requires SameTables(s, t)
    ensures t.queries == s.queries
  {
  }

  lemma StartedIs(e: Event)
    requires e.StartQuery?
    ensures Started(e).words == TextWords(e.text) && Started(e).active
  {
    hide TextWords;
  }

  lemma EndedNames(s: State, t: State, doc: DocID, a: Answer, id: QueryID)
    requires Ended(s, t, doc, a) && doc in s.docs && Answered(s, s.docs[doc], id)
    ensures a in t.delivered + t.finished && Names(a, doc, id)
  {
    assert a in t.finished;
  }

  lemma MatchIs(x: Seen)
    requires IsMatch(x)
    ensures x.Called? && x.e.MatchDocument? && x == Called(MatchDocument(x.e.doc, x.e.text))
  {
  }

  // What the record says of the whole of the calls.
  lemma RecordIs(s: System)
    requires Good(s)
    ensures s.eng.queries.Keys == StartedIds(s.seen) && s.eng.promised.Keys == SentDocs(s.seen)
    ensures DocSeq(s.eng.delivered) == GotDocs(s.seen)
    ensures forall i :: 0 <= i < |s.seen| && IsMatch(s.seen[i]) ==> OpenDoc(s.eng, s.seen, i)
    ensures KnownIds(s.eng, s.eng.delivered + s.eng.finished)
  {
    hide Coupled, LaidOut, InOrder, OpenDoc, KnownIds, GoodCalls, StartedIds, SentDocs, GotDocs, HasStarted;
  }

  lemma OpenDocIs(s: State, seen: seq<Seen>, p: nat)
    requires p < |seen| && IsMatch(seen[p]) && OpenDoc(s, seen, p) && seen[p].e.doc in s.docs
    ensures s.docs[seen[p].e.doc].words == TextWords(seen[p].e.text)
    ensures forall k :: p < k < |seen| ==> !IsBarrier(seen, k)
  {
    hide IsBarrier, TextWords;
  }

  lemma ExposedIs(n: nat, seen: seq<Seen>, p: nat, e: Event)
    requires n > 0 && p < |seen| && IsMatch(seen[p]) && e.StartQuery? && Exposed(n, seen, p, e)
    ensures forall k :: p < k < |seen| ==> !IsBarrier(seen, k) && seen[k] != Got(seen[p].e.doc)
    ensures DocMatches(Started(e), TextWords(seen[p].e.text))
    ensures Apart(Sent(seen), |TextWords(e.text)|, Sent(seen[..p]), n)
  {
    hide IsBarrier, TextWords, Apart, Sent, DocMatches;
  }

  lemma StartHas(s: State, e: Event)
    requires e.StartQuery?
    ensures Enabled(s, e) && e.id in Next(s, e).queries && Next(s, e).queries[e.id] == Started(e)
    ensures Next(s, e).docs == s.docs && Next(s, e).delivered == s.delivered && Next(s, e).finished == s.finished
  {
    hide TextWords;
  }

  lemma Enter(n: nat, z: System, p: nat, e: Event)
    requires n > 0 && Attained(n, z) && p < |z.seen| && IsMatch(z.seen[p]) && e.StartQuery?
    requires GoodCall(z.seen, Called(e)) && Exposed(n, z.seen, p, e)
    ensures CanEnter(n, z.seen, e, z.seen[p].e.doc)
  {
    hide *;
    var seen := z.seen;
    MatchIs(seen[p]);
    var doc, text := seen[p].e.doc, seen[p].e.text;
    ExposedIs(n, seen, p, e);
    var s := Follow(n, z, p, |seen|, doc, text);
    assert seen[..|seen|] == seen;
    FollowsIs(n, s, z, |seen|, doc);
    RecordIs(s);
    PoliteIf(s.eng, seen, e);
    FreshIs(s.eng, doc);
    OpenDocIs(s.eng, seen, p);
    OpenIsPromised(s, doc);
    var start, u := CallThrough(s, e);
    CallKeepsFresh(s.eng, e, doc);
    StartHas(s.eng, e);
    ReadyIs(u);
    assert u.seen[p] == seen[p] && u.seen[..p] == seen[..p];
    BlockAt(u, p);
    var steps, t, a := EndsWith(u, seen, e, Sent(seen[..p]), doc);
    AttainedOn(n, s, start, u);
    AttainedOn(n, u, steps, t);
    CanEnterIf(n, seen, e, doc, t, a);
  }

  lemma CanEnterIf(n: nat, seen: seq<Seen>, e: Event, doc: DocID, t: System, a: Answer)
    requires e.StartQuery? && Attained(n, t) && seen + [Called(e)] <= t.seen
    requires a in t.eng.delivered + t.eng.finished && Names(a, doc, e.id)
    ensures CanEnter(n, seen, e, doc)
  {
    hide Attained, Names;
  }

  // ------------------------------------------------ it is necessary

  lemma StartIsLate(s: State, e: Event, l: Late)
    requires Sound(s) && KnownIds(s, s.delivered + s.finished) && e.StartQuery? && e.id !in s.queries
    requires l.doc in s.promised && l.doc in s.docs && s.docs[l.doc].words == l.words
    requires l.id == e.id && l.query == Started(e) && l.blocked <= TextWords(e.text)
    ensures LateOk(Next(s, e), l)
  {
    StartHas(s, e);
    var r := s.docs[l.doc];
    assert RunOk(s.queries, r);
    assert forall w :: Hit(l.id, w) in Hits(r) ==> NaiveAmong(s.queries, Jobs(r.words), Hit(l.id, w));
    hide Sound, RunOk, Hits, Jobs, TextWords, MayEnter;
  }

  lemma StartIsGone(s: State, e: Event, doc: DocID)
    requires KnownIds(s, s.delivered + s.finished) && e.StartQuery? && e.id !in s.queries
    requires doc in s.promised && doc !in s.docs
    ensures Gone(Next(s, e), doc, e.id)
  {
    StartHas(s, e);
    hide TextWords;
  }

  lemma GoneNames(s: State, doc: DocID, id: QueryID, a: Answer)
    requires Gone(s, doc, id) && a in s.delivered + s.finished
    ensures !Names(a, doc, id)
  {
  }

  // The answer names the query only if it may.
  lemma NamedMayEnter(v: System, steps: seq<Step>, t: System, k: nat, l: Late, a: Answer)
    requires Good(v) && Leads(v, steps, t) && LateOk(v.eng, l)
    requires |v.sch.workers| > 0 && Behind(All(v), |v.sch.workers|, k, l)
    requires a in t.eng.delivered + t.eng.finished && Names(a, l.doc, l.id)
    ensures MayEnter(l)
  {
    LeadsKeepsLate(v, steps, t, k, l);
    hide Good, Leads, Behind, MayEnter, LateQuery, LateDoc;
  }

  lemma GotIsNotOpen(s: System, doc: DocID, k: nat)
    requires Good(s) && k < |s.seen| && s.seen[k] == Got(doc)
    ensures doc !in s.eng.docs
  {
    hide *;
    RecordIs(s);
    GoodIsSound(s);
    OutParts(s.eng);
    GotGrows(s.seen, k + 1);
    assert s.seen[..k + 1][..k] == s.seen[..k];
    GotOne(s.seen[..k + 1]);
    var g := |GotDocs(s.seen[..k])|;
    assert GotDocs(s.seen)[g] == doc;
    assert Out(s.eng)[g] == doc;
  }

  lemma BehindOne(all: seq<Job>, n: nat, k: nat, b: nat, l: Late, w: string)
    requires n > 0 && k < b < |all| && all[k] == S.MatchDoc(l.doc) && l.blocked == {w}
    requires all[b] == S.AddWord(l.id, w) && S.Turn(b, n) == S.Turn(k, n)
    ensures Behind(all, n, k, l)
  {
    hide S.Turn;
  }

  lemma NotBlocked(l: Late)
    requires MayEnter(l)
    ensures l.blocked == {} && DocMatches(l.query, l.words)
  {
    hide DocMatches;
  }

  lemma BehindNone(all: seq<Job>, n: nat, k: nat, l: Late)
    requires n > 0 && k < |all| && all[k] == S.MatchDoc(l.doc) && l.blocked == {}
    ensures Behind(all, n, k, l)
  {
    hide S.Turn;
  }

  lemma Entered(n: nat, t: System, seen: seq<Seen>, p: nat, e: Event, a: Answer)
    requires n > 0 && Attained(n, t) && seen + [Called(e)] <= t.seen && e.StartQuery? && p < |seen| && IsMatch(seen[p])
    requires a in t.eng.delivered + t.eng.finished && Names(a, seen[p].e.doc, e.id)
    ensures Exposed(n, seen, p, e)
  {
    hide *;
    MatchIs(seen[p]);
    var doc, words := seen[p].e.doc, TextWords(seen[p].e.text);
    var u, v, after := BeforeStart(n, t, seen, e);
    RecordIs(u);
    SubmittedDoc(seen, p);
    if doc !in u.eng.docs {
      StartIsGone(u.eng, e, doc);
      GoodIsCoupled(v);
      LeadsKeepsGone(v, after, t, doc, e.id);
      GoneNames(t.eng, doc, e.id, a);
    }
    OpenDocIs(u.eng, seen, p);
    forall k | p < k < |seen| ensures seen[k] != Got(doc) {
      if seen[k] == Got(doc) { GotIsNotOpen(u, doc, k); }
    }
    GoodIsSound(u);
    var k := Sent(seen[..p]);
    BlockAt(u, p);
    BlockAt(v, p);
    assert v.seen[p] == seen[p] && v.seen[..p] == seen[..p];
    var l := Late(doc, words, e.id, Started(e), {});
    StartIsLate(u.eng, e, l);
    BehindNone(All(v), n, k, l);
    NamedMayEnter(v, after, t, k, l, a);
    NotBlocked(l);
    forall i | Sent(seen) <= i < Sent(seen) + |TextWords(e.text)| ensures S.Turn(i, n) != S.Turn(k, n) {
      if S.Turn(i, n) == S.Turn(k, n) {
        AllSent(u);
        var w := PlaceAdds(v, seen, e, i - Sent(seen));
        var b := Late(doc, words, e.id, Started(e), {w});
        BehindOne(All(v), n, k, i, b, w);
        StartIsLate(u.eng, e, b);
        NamedMayEnter(v, after, t, k, b, a);
        NotBlocked(b);
      }
    }
    ExposedIf(n, seen, p, e);
  }

  lemma ExposedIf(n: nat, seen: seq<Seen>, p: nat, e: Event)
    requires n > 0 && p < |seen| && IsMatch(seen[p]) && e.StartQuery?
    requires forall k :: p < k < |seen| ==> !IsBarrier(seen, k)
    requires forall k :: p < k < |seen| ==> seen[k] != Got(seen[p].e.doc)
    requires DocMatches(Started(e), TextWords(seen[p].e.text))
    requires forall i :: Sent(seen) <= i < Sent(seen) + |TextWords(e.text)| ==> S.Turn(i, n) != S.Turn(Sent(seen[..p]), n)
    ensures Exposed(n, seen, p, e)
  {
    hide IsBarrier, TextWords, Sent, DocMatches, S.Turn;
  }

  lemma AllSent(s: System)
    requires Good(s)
    ensures |All(s)| == Sent(s.seen)
  {
    hide Coupled, Recorded, InOrder, All, Sent;
  }

  lemma SubmittedDoc(seen: seq<Seen>, p: nat)
    requires p < |seen| && IsMatch(seen[p])
    ensures seen[p].e.doc in SentDocs(seen)
  {
  }

  // The states round the start.
  lemma BeforeStart(n: nat, t: System, seen: seq<Seen>, e: Event) returns (u: System, v: System, after: seq<Step>)
    requires n > 0 && Attained(n, t) && seen + [Called(e)] <= t.seen && e.StartQuery?
    ensures Good(u) && Good(v) && |u.sch.workers| == |v.sch.workers| == n && Leads(v, after, t)
    ensures u.seen == seen && v.seen == seen + [Called(e)]
    ensures e.id !in u.eng.queries && Enabled(u.eng, e) && v.eng == Next(u.eng, e)
  {
    hide *;
    var before, a;
    before, u, a, after := AttainedSplit(n, t, |seen|);
    v := Then(u, a);
    var d := StepSees(u, a);
    SeenLast(u.eng, d, u.seen, v.seen, t.seen);
    assert (seen + [Called(e)])[|seen|] == Called(e) && t.seen[|seen|] == Called(e);
    assert t.seen[..|seen|] == seen && t.seen[..|seen| + 1] == seen + [Called(e)];
    FreshId(u.eng, e);
  }

  lemma FreshId(s: State, e: Event)
    requires Polite(s, e) && e.StartQuery?
    ensures e.id !in s.queries
  {
    hide GoodQuery;
  }

  // ------------------------------------------------ both

  // The client has seen `seen`, in which it submitted a document, and now starts a query.  The
  // query can enter the answer of that document, in some run that goes on from there, if and
  // only if the document is exposed to it.
  lemma LateStartEntersIff(n: nat, seen: seq<Seen>, p: nat, e: Event)
    requires n > 0 && Possible(n, seen) && p < |seen| && IsMatch(seen[p])
    requires e.StartQuery? && GoodCall(seen, Called(e))
    ensures CanEnter(n, seen, e, seen[p].e.doc) <==> Exposed(n, seen, p, e)
  {
    hide *;
    MatchIs(seen[p]);
    if Exposed(n, seen, p, e) {
      var z := PossibleIs(n, seen);
      Enter(n, z, p, e);
    }
    if CanEnter(n, seen, e, seen[p].e.doc) {
      var t, a := CanEnterIs(n, seen, e, seen[p].e.doc);
      Entered(n, t, seen, p, e, a);
    }
  }

  lemma PossibleIs(n: nat, seen: seq<Seen>) returns (z: System)
    requires Possible(n, seen)
    ensures Attained(n, z) && z.seen == seen
  {
    hide Attained;
    z :| Attained(n, z) && z.seen == seen;
  }

  lemma CanEnterIs(n: nat, seen: seq<Seen>, e: Event, doc: DocID) returns (t: System, a: Answer)
    requires e.StartQuery? && CanEnter(n, seen, e, doc)
    ensures Attained(n, t) && seen + [Called(e)] <= t.seen && a in t.eng.delivered + t.eng.finished && Names(a, doc, e.id)
  {
    hide Attained, Names;
    t, a :| Attained(n, t) && seen + [Called(e)] <= t.seen
            && a in t.eng.delivered + t.eng.finished && Names(a, doc, e.id);
  }

  // Two or more threads, and a document that is its only query's very word: the query, started
  // after the document, can enter its answer.
  lemma UndrainedStartCanLeak(n: nat)
    requires n >= 2
    ensures CanEnter(n, [Called(MatchDocument(1, "abcd"))], StartQuery(7, "abcd", Exact, 0), 1)
  {
    hide *;
    var d, e := MatchDocument(1, "abcd"), StartQuery(7, "abcd", Exact, 0);
    FirstCall(n);
    var steps, z := CallThrough(Boot(n), d);
    AttainedIf(n, steps, z);
    assert z.seen == [Called(d)];
    PossibleIf(n, z);
    SecondCall(n);
    LateStartEntersIff(n, [Called(d)], 0, e);
  }

  lemma FirstCall(n: nat)
    requires n > 0
    ensures Ready(Boot(n)) && Boot(n).seen == [] && !Boot(n).eng.started
    ensures Polite(Boot(n).eng, MatchDocument(1, "abcd"))
  {
    hide *;
    BootIsGood(n);
    OneWordText("abcd");
    BootIs(n);
    ReadyNow(Boot(n));
    FirstIsPolite(MatchDocument(1, "abcd"));
  }

  lemma BootIs(n: nat)
    ensures Boot(n).client == Sending([]) && Boot(n).sch.sub.Idle? && Boot(n).seen == [] && Boot(n).eng == INITIAL
    ensures !INITIAL.started
  {
  }

  lemma FirstIsPolite(e: Event)
    requires e.MatchDocument? && GoodDocument(e.text)
    ensures Polite(INITIAL, e)
  {
    hide GoodDocument;
  }

  lemma PossibleIf(n: nat, z: System)
    requires Attained(n, z)
    ensures Possible(n, z.seen)
  {
    hide Attained;
  }

  lemma SecondCall(n: nat)
    requires n >= 2
    ensures var seen, e := [Called(MatchDocument(1, "abcd"))], StartQuery(7, "abcd", Exact, 0);
            IsMatch(seen[0]) && GoodCall(seen, Called(e)) && Exposed(n, seen, 0, e)
  {
    hide *;
    var x, e := Called(MatchDocument(1, "abcd")), StartQuery(7, "abcd", Exact, 0);
    OneWordText("abcd");
    OnlySubmission(x, e);
    OneWordMatches(e, "abcd");
    NextWorker(n);
    assert [x][..0] == [];
    ExposedIf(n, [x], 0, e);
  }

  lemma OnlySubmission(x: Seen, e: Event)
    requires x.Called? && x.e.MatchDocument? && e.StartQuery? && GoodQuery(e.text, e.kind)
    ensures IsMatch(x) && Sent([]) == 0 && Sent([x]) == 1 && GoodCall([x], Called(e))
  {
    hide GoodQuery, GoodDocument, TextWords;
    assert [x][..0] == [];
  }

  lemma OneWordMatches(e: Event, w: string)
    requires e.StartQuery? && e.kind == Exact && TextWords(e.text) == {w}
    ensures DocMatches(Started(e), {w}) && |TextWords(e.text)| == 1
  {
    hide TextWords;
  }

  lemma NextWorker(n: nat)
    requires n >= 2
    ensures S.Turn(1, n) != S.Turn(0, n)
  {
    assert S.Turn(0, n) == 0;
  }

  // With one thread no query enters the answer of a document submitted before it.
  lemma OneThreadNeverLeaks(seen: seq<Seen>, p: nat, e: Event)
    requires Possible(1, seen) && p < |seen| && IsMatch(seen[p]) && e.StartQuery? && GoodCall(seen, Called(e))
    ensures !CanEnter(1, seen, e, seen[p].e.doc)
  {
    LateStartEntersIff(1, seen, p, e);
    GoodWords(e.text);
    hide CanEnter, Possible, IsBarrier, StartedIds, DocMatches, TextWords, Words;
    assert S.Turn(Sent(seen), 1) == S.Turn(Sent(seen[..p]), 1);
  }
}
