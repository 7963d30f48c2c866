/** A second run with the same client calls, lazier than the first: `Follow` lets the queues and
    workers do no more than the results the client got require, so that a document whose result
    it has not got is still in its queue, with no job of it begun. */
module Replays {
  import opened EngineModel
  import opened Systems
  import opened Histories
  import opened Schedules
  import S = Scheduling

  // The document is being matched and no job of it has begun.
  ghost predicate Fresh(s: State, doc: DocID) {
    doc in s.docs && s.docs[doc].todo == Jobs(s.docs[doc].words) && Hits(s.docs[doc]) == {}
  }

  // `s` has come as far as `q` calls of what the client saw on the way to `z`, without a step
  // for the document.
  ghost predicate Follows(n: nat, s: System, z: System, q: nat, doc: DocID) {
    && Attained(n, s) && Ready(s) && |s.sch.workers| == n && q <= |z.seen| && s.seen == z.seen[..q]
    && Fresh(s.eng, doc) && Out(s.eng) <= Out(z.eng)
  }

  lemma AttainedOn(n: nat, s: System, steps: seq<Step>, t: System)
    requires Attained(n, s) && Leads(s, steps, t)
    ensures Attained(n, t)
  {
    hide Leads, Can, Then;
    var before :| Leads(Boot(n), before, s);
    LeadsOn(Boot(n), before, s, steps, t);
  }

  lemma AttainedIsGood(n: nat, s: System)
    requires n > 0 && Attained(n, s)
    ensures Good(s) && |s.sch.workers| == n
  {
    hide Leads, Good, Can, Then;
    var steps :| Leads(Boot(n), steps, s);
    BootIsGood(n);
    LeadsKeepsGood(Boot(n), steps, s);
    S.InitialWorkers(n);
  }

  // What the record says of the client's next call.
  lemma NextCall(s: System, z: System, q: nat)
    requires Good(s) && Good(z) && q < |z.seen| && s.seen == z.seen[..q]
    ensures GoodCall(s.seen, z.seen[q]) && (s.eng.started <==> HasStarted(s.seen))
    ensures s.eng.queries.Keys == StartedIds(s.seen) && s.eng.promised.Keys == SentDocs(s.seen)
    ensures DocSeq(s.eng.delivered) == GotDocs(s.seen)
  {
    hide Coupled, LaidOut, InOrder, GoodCall, StartedIds, SentDocs, GotDocs, HasStarted;
  }

  lemma PoliteIf(s: State, seen: seq<Seen>, e: Event)
    requires GoodCall(seen, Called(e)) && (e.StartQuery? || e.MatchDocument?)
    requires s.queries.Keys == StartedIds(seen) && s.promised.Keys == SentDocs(seen)
    ensures Polite(s, e)
  {
    hide GoodQuery, GoodDocument, StartedIds, SentDocs;
  }

  lemma OpenIsPromised(s: System, doc: DocID)
    requires Good(s) && doc in s.eng.docs
    ensures doc in s.eng.promised
  {
    GoodIsSound(s);
    hide Good, Sound;
  }

  // The client's next call, if it does not wait.
  lemma FollowCall(n: nat, s: System, z: System, q: nat, doc: DocID) returns (t: System)
    requires n > 0 && Good(z) && Follows(n, s, z, q, doc) && q < |z.seen| && z.seen[q].Called? && !IsBarrier(z.seen, q)
    ensures Follows(n, t, z, q + 1, doc)
  {
    hide *;
    FollowsIs(n, s, z, q, doc);
    NextCall(s, z, q);
    var e := z.seen[q].e;
    CallKind(z.seen, s.seen, q);
    PoliteIf(s.eng, s.seen, e);
    var steps;
    steps, t := CallThrough(s, e);
    AttainedOn(n, s, steps, t);
    FreshIs(s.eng, doc);
    OpenIsPromised(s, doc);
    CallKeepsFresh(s.eng, e, doc);
    assert z.seen[..q + 1] == z.seen[..q] + [z.seen[q]];
    FollowsIf(n, t, z, q + 1, doc);
  }

  lemma FreshIs(s: State, doc: DocID)
    requires Fresh(s, doc)
    ensures doc in s.docs
  {
  }

  lemma CallKind(seen: seq<Seen>, before: seq<Seen>, q: nat)
    requires q < |seen| && before == seen[..q] && seen[q].Called? && GoodCall(before, seen[q]) && !IsBarrier(seen, q)
    ensures seen[q] == Called(seen[q].e)
    ensures seen[q].e.StartQuery? || (seen[q].e.MatchDocument? && !HasStarted(before))
  {
    hide HasStarted, StartedIds, SentDocs, GoodQuery, GoodDocument;
  }

  lemma CallKeepsFresh(s: State, e: Event, doc: DocID)
    requires Fresh(s, doc) && Enabled(s, e) && Polite(s, e) && (e.StartQuery? || e.MatchDocument?) && doc in s.promised
    ensures Fresh(Next(s, e), doc) && Out(Next(s, e)) == Out(s)
  {
    hide Hits, Jobs, TextWords, Matching, GoodQuery, GoodDocument, DocSeq;
  }

  lemma FollowsIs(n: nat, s: System, z: System, q: nat, doc: DocID)
    requires Follows(n, s, z, q, doc)
    ensures Attained(n, s) && Ready(s) && Good(s) && Free(s) && |s.sch.workers| == n && Unsent(s) == []
    ensures q <= |z.seen| && s.seen == z.seen[..q] && Fresh(s.eng, doc) && Out(s.eng) <= Out(z.eng)
  {
    ReadyIs(s);
    hide Ready, Good, Fresh, Out, Attained;
  }

  lemma FollowsIf(n: nat, s: System, z: System, q: nat, doc: DocID)
    requires Attained(n, s) && Ready(s) && |s.sch.workers| == n && q <= |z.seen| && s.seen == z.seen[..q]
    requires Fresh(s.eng, doc) && Out(s.eng) <= Out(z.eng)
    ensures Follows(n, s, z, q, doc)
  {
    hide Ready, Fresh, Out, Attained;
  }

  // ------------------------------------------------ following a delivery

  lemma {:induction false} GotGrows(seen: seq<Seen>, q: nat)
    requires q <= |seen|
    ensures GotDocs(seen[..q]) <= GotDocs(seen)
    decreases |seen| - q
  {
    if q == |seen| {
      assert seen[..q] == seen;
    } else {
      var init := seen[..|seen| - 1];
      assert init[..q] == seen[..q];
      GotGrows(init, q);
    }
  }

  // The result delivered next is the next one among all answers.
  lemma GotPlace(s: System, z: System, q: nat)
    requires Good(s) && Good(z) && q < |z.seen| && s.seen == z.seen[..q] && z.seen[q].Got? && Out(s.eng) <= Out(z.eng)
    ensures var g := |s.eng.delivered|;
            && g < |Out(z.eng)| && Out(z.eng)[g] == z.seen[q].doc
            && (s.eng.finished != [] ==> s.eng.finished[0].doc == z.seen[q].doc)
            && (forall d :: d in Out(z.eng)[..g] ==> d !in s.eng.docs)
  {
    hide *;
    NextCall(s, z, q);
    DeliveredIsGot(z);
    assert z.seen[..q + 1][..q] == z.seen[..q] && z.seen[..q + 1][q] == z.seen[q];
    GotOne(z.seen[..q + 1]);
    GotGrows(z.seen, q + 1);
    GoodIsSound(s);
    OutParts(s.eng);
    OutParts(z.eng);
  }

  lemma GotOne(seen: seq<Seen>)
    requires seen != [] && seen[|seen| - 1].Got?
    ensures GotDocs(seen) == GotDocs(seen[..|seen| - 1]) + [seen[|seen| - 1].doc]
  {
  }

  lemma DeliveredIsGot(z: System)
    requires Good(z)
    ensures DocSeq(z.eng.delivered) == GotDocs(z.seen) && Accounted(z.eng)
  {
    hide LaidOut, InOrder, GotDocs, S.Inv, SameJobs, Sound;
  }

  lemma OutParts(s: State)
    requires Accounted(s)
    ensures |Out(s)| == |s.delivered| + |s.finished| && |DocSeq(s.delivered)| == |s.delivered|
    ensures DocSeq(s.delivered) == Out(s)[..|s.delivered|]
    ensures s.finished != [] ==> Out(s)[|s.delivered|] == s.finished[0].doc
    ensures forall d :: d in Out(s) ==> d !in s.docs
    ensures forall i, j :: 0 <= i < j < |Out(s)| ==> Out(s)[i] != Out(s)[j]
  {
    var answers := s.delivered + s.finished;
    assert forall a :: a in answers ==> a.doc in DocsOf(answers);
    forall d | d in Out(s) ensures d !in s.docs {
      var i :| 0 <= i < |answers| && answers[i].doc == d;
      assert answers[i] in answers;
    }
  }

  // A document submitted, not among the answers, is being matched.
  lemma NotOutIsOpen(s: State, d: DocID)
    requires Accounted(s) && d in s.promised && d !in Out(s)
    ensures d in s.docs
  {
    var answers := s.delivered + s.finished;
    forall a | a in answers ensures a.doc in Out(s) {
      var i :| 0 <= i < |answers| && answers[i] == a;
      assert Out(s)[i] == a.doc;
    }
  }

  // The submission of a document stands at the same place for whoever follows the client.
  lemma SamePlace(s: System, z: System, q: nat, k: nat, d: DocID)
    requires Good(s) && Good(z) && q <= |z.seen| && s.seen == z.seen[..q]
    requires k < |All(s)| && All(s)[k] == S.MatchDoc(d)
    ensures k < |All(z)| && All(z)[k] == S.MatchDoc(d)
  {
    hide *;
    PlaceIsKnown(s, k);
    var i := SentAt(s, d);
    assert z.seen[i] == s.seen[i] && z.seen[..i] == s.seen[..i];
    BlockAt(s, i);
    BlockAt(z, i);
    OnePlace(s, k, Sent(s.seen[..i]));
  }

  lemma PlaceIsKnown(s: System, k: nat)
    requires Good(s) && k < |All(s)| && All(s)[k].MatchDoc?
    ensures All(s)[k].doc in SentDocs(s.seen)
  {
    assert All(s)[k] in All(s);
    hide Coupled, InOrder, SentDocs, Block, All;
  }

  lemma SentAt(s: System, d: DocID) returns (i: nat)
    requires d in SentDocs(s.seen)
    ensures i < |s.seen| && IsMatch(s.seen[i]) && s.seen[i].Called? && s.seen[i].e.MatchDocument? && s.seen[i].e.doc == d
  {
    i :| 0 <= i < |s.seen| && IsMatch(s.seen[i]) && s.seen[i].e.doc == d;
  }

  lemma BlockAt(s: System, i: nat)
    requires Good(s) && i < |s.seen| && s.seen[i].Called? && s.seen[i].e.MatchDocument?
    ensures Sent(s.seen[..i]) < |All(s)| && All(s)[Sent(s.seen[..i])] == S.MatchDoc(s.seen[i].e.doc)
  {
    assert Block(s.seen[i], All(s), Sent(s.seen[..i]));
    hide Good, Sent, All;
  }

  // Of two documents of one worker, the one submitted first is first among the answers.
  lemma FirstOut(z: System, k: nat, l: nat, c: DocID, d: DocID)
    requires Good(z) && k < l < |All(z)| && All(z)[k] == S.MatchDoc(c) && All(z)[l] == S.MatchDoc(d)
    requires |z.sch.workers| > 0 && S.Turn(k, |z.sch.workers|) == S.Turn(l, |z.sch.workers|) && d in Out(z.eng)
    ensures Before(Out(z.eng), c, d)
  {
    hide *;
    var n, js := |z.sch.workers|, z.sch.submitted;
    var v, y := OutEnded(z, d);
    var m := EndedAt(z, v, y);
    OnePlace(z, m, l);
    GoodIsCoupled(z);
    ShareOf(z, v);
    S.ShareGrows(js, n, v, k, l);
    S.ShareAt(js, n, v, k);
    SubmittedFirst(z, k, l);
    var x := S.Position(js, n, v, k);
    assert z.sch.completed[v][x] == js[k];
    InOrderAt(z, v, x, y);
  }

  lemma SubmittedFirst(z: System, k: nat, l: nat)
    requires k < l < |z.sch.submitted|
    ensures z.sch.submitted[k] == All(z)[k]
  {
  }

  lemma OutEnded(z: System, d: DocID) returns (v: nat, y: nat)
    requires Good(z) && d in Out(z.eng)
    ensures v < |z.sch.workers| == |z.sch.completed| && y < |z.sch.completed[v]| && z.sch.completed[v][y] == S.MatchDoc(d)
  {
    GoodIsCoupled(z);
    hide Coupled, Recorded, LaidOut, Out;
    v :| 0 <= v < |z.sch.completed| && S.MatchDoc(d) in z.sch.completed[v];
    y :| 0 <= y < |z.sch.completed[v]| && z.sch.completed[v][y] == S.MatchDoc(d);
    assert |z.sch.workers| == |z.sch.completed| by { SameNumber(z); }
  }

  lemma SameNumber(z: System)
    requires Coupled(z)
    ensures |z.sch.workers| == |z.sch.completed|
  {
    hide SameJobs, ClientOk, Sound, Accounted;
  }

  lemma InOrderAt(z: System, v: nat, x: nat, y: nat)
    requires Good(z) && v < |z.sch.completed| && x < y < |z.sch.completed[v]|
    requires z.sch.completed[v][x].MatchDoc? && z.sch.completed[v][y].MatchDoc?
    ensures Before(Out(z.eng), z.sch.completed[v][x].doc, z.sch.completed[v][y].doc)
  {
    hide Coupled, Recorded, LaidOut, Out, Before;
    assert WorkerInOrder(z.sch.completed[v], Out(z.eng));
  }

  // Ahead of the document that the client gets next, only insertions wait.
  lemma OnlyInsertionsAhead(s: System, z: System, q: nat, v: nat, y: nat)
    requires Good(s) && Good(z) && q < |z.seen| && s.seen == z.seen[..q] && z.seen[q].Got? && Out(s.eng) <= Out(z.eng)
    requires |z.sch.workers| == |s.sch.workers| && v < |s.sch.workers| && y < |S.Waiting(s.sch.workers[v])|
    requires S.Waiting(s.sch.workers[v])[y] == S.MatchDoc(z.seen[q].doc)
    ensures NoDocs(S.Waiting(s.sch.workers[v])[..y])
  {
    var js := S.Waiting(s.sch.workers[v]);
    forall i | 0 <= i < y ensures js[i].AddWord? {
      if js[i].MatchDoc? { NoDocAhead(s, z, q, v, i, y); }
    }
    hide Good, S.Waiting, Out;
  }

  lemma NoDocAhead(s: System, z: System, q: nat, v: nat, x: nat, y: nat)
    requires Good(s) && Good(z) && q < |z.seen| && s.seen == z.seen[..q] && z.seen[q].Got? && Out(s.eng) <= Out(z.eng)
    requires |z.sch.workers| == |s.sch.workers| && v < |s.sch.workers| && x < y < |S.Waiting(s.sch.workers[v])|
    requires S.Waiting(s.sch.workers[v])[y] == S.MatchDoc(z.seen[q].doc)
    ensures S.Waiting(s.sch.workers[v])[x].AddWord?
  {
    hide *;
    var js, n := S.Waiting(s.sch.workers[v]), |s.sch.workers|;
    if js[x].MatchDoc? {
      var c, d := js[x].doc, z.seen[q].doc;
      GoodIsCoupled(s);
      ShareOf(s, v);
      var k := WaitsAt(s, v, x);
      var l := WaitsAt(s, v, y);
      if l <= k { S.ShareGrows(s.sch.submitted, n, v, l, k); }
      SamePlace(s, z, q, k, c);
      SamePlace(s, z, q, l, d);
      GotPlace(s, z, q);
      FirstOut(z, k, l, c, d);
      DeliveredIsGot(z);
      OutParts(z.eng);
      BeforeAt(Out(z.eng), c, d, |s.eng.delivered|);
      WaitingIsOpen(s, v, x);
      PendingIff(s.eng, js[x]);
    }
  }

  lemma BeforeAt(ds: seq<DocID>, c: DocID, d: DocID, g: nat)
    requires Before(ds, c, d) && g < |ds| && ds[g] == d && forall i, j :: 0 <= i < j < |ds| ==> ds[i] != ds[j]
    ensures c in ds[..g]
  {
    var x, y :| 0 <= x < y < |ds| && ds[x] == c && ds[y] == d;
    assert y == g;
    assert ds[..g][x] == c;
  }

  lemma WaitingIsOpen(s: System, v: nat, y: nat)
    requires Good(s) && v < |s.sch.workers| && y < |S.Waiting(s.sch.workers[v])|
    ensures S.Waiting(s.sch.workers[v])[y] in PendingJobs(s.eng)
  {
    var j := S.Waiting(s.sch.workers[v])[y];
    S.PooledIffWaiting(s.sch, j);
    assert SameJobs(s);
    hide Good, PendingJobs, S.Abstract, Unsent, S.Waiting;
    assert j in S.Abstract(s.sch).waiting + multiset(Unsent(s));
    assert j in multiset(PendingJobs(s.eng));
  }

  // The document that the client gets next is still matched if no answer is ready.
  lemma NextIsOpen(s: System, z: System, q: nat)
    requires Good(s) && Good(z) && q < |z.seen| && s.seen == z.seen[..q] && z.seen[q].Got? && Out(s.eng) <= Out(z.eng)
    requires s.eng.finished == []
    ensures z.seen[q].doc in s.eng.docs
  {
    hide *;
    NextCall(s, z, q);
    GotPlace(s, z, q);
    GoodIsSound(s);
    OutParts(s.eng);
    GoodIsSound(z);
    OutParts(z.eng);
    GotSubmitted(s.seen, z.seen[q]);
    NotOutIsOpen(s.eng, z.seen[q].doc);
  }

  lemma GotSubmitted(before: seq<Seen>, x: Seen)
    requires GoodCall(before, x) && x.Got?
    ensures x.doc in SentDocs(before)
  {
    hide SentDocs;
  }

  // Its worker ends it, after the insertions that wait ahead of it.
  lemma FinishFor(n: nat, s: System, z: System, q: nat, doc: DocID) returns (t: System)
    requires n > 0 && Good(z) && |z.sch.workers| == n && Follows(n, s, z, q, doc)
    requires q < |z.seen| && z.seen[q].Got? && z.seen[q].doc != doc && s.eng.finished == []
    ensures Follows(n, t, z, q, doc) && t.eng.finished != []
  {
    hide *;
    FollowsIs(n, s, z, q, doc);
    var d := z.seen[q].doc;
    NextIsOpen(s, z, q);
    PendingIff(s.eng, S.MatchDoc(d));
    var v, y := OpenWaits(s, S.MatchDoc(d));
    var js := S.Waiting(s.sch.workers[v]);
    OnlyInsertionsAhead(s, z, q, v, y);
    var first, u := RunMany(s, v, y);
    OnlyInsertionsRun(s.eng, u.eng, js[..y]);
    WorkersSame(s, u, v);
    assert js[y..][0] == js[y];
    var more;
    more, t := RunHead(u, v);
    WorkersSame(u, t, v);
    var a := HeadEnded(u.eng, t.eng, d);
    LeadsOn(s, first, u, more, t);
    AttainedOn(n, s, first + more, t);
    FreshIs(s.eng, doc);
    FreshStays(s.eng, t.eng, doc);
    GotPlace(s, z, q);
    OneMoreOut(s.eng, t.eng, a);
    PrefixNext(Out(s.eng), Out(z.eng), d);
    FollowsIf(n, t, z, q, doc);
  }

  lemma OnlyInsertionsRun(s: State, t: State, js: seq<Job>)
    requires ManyRun(s, t, js) && NoDocs(js)
    ensures t.docs == s.docs && t.finished == s.finished
  {
  }

  lemma HeadEnded(s: State, t: State, d: DocID) returns (a: Answer)
    requires HeadRun(s, t, S.MatchDoc(d))
    ensures Ended(s, t, d, a) && a.doc == d && t.docs == s.docs - {d} && t.finished == s.finished + [a]
  {
    a :| Ended(s, t, d, a);
  }

  lemma OneMoreOut(s: State, t: State, a: Answer)
    requires SameTables(s, t) && t.finished == s.finished + [a]
    ensures Out(t) == Out(s) + [a.doc] && |Out(s)| == |s.delivered| + |s.finished|
  {
    assert t.delivered + t.finished == s.delivered + s.finished + [a];
    DocSeqMore(s.delivered + s.finished, a);
  }

  lemma PrefixNext(ds: seq<DocID>, all: seq<DocID>, d: DocID)
    requires ds <= all && |ds| < |all| && all[|ds|] == d
    ensures ds + [d] <= all
  {
  }

  // The next result is delivered, for which one worker goes on if need be.
  lemma FollowGot(n: nat, s: System, z: System, q: nat, doc: DocID) returns (t: System)
    requires n > 0 && Good(z) && |z.sch.workers| == n && Follows(n, s, z, q, doc)
    requires q < |z.seen| && z.seen[q].Got? && z.seen[q].doc != doc
    ensures Follows(n, t, z, q + 1, doc)
  {
    hide *;
    FollowsIs(n, s, z, q, doc);
    GotPlace(s, z, q);
    var u := s;
    if s.eng.finished == [] {
      u := FinishFor(n, s, z, q, doc);
    }
    FollowsIs(n, u, z, q, doc);
    GotPlace(u, z, q);
    var steps;
    steps, t := GetThrough(u);
    AttainedOn(n, u, steps, t);
    assert z.seen[..q + 1] == z.seen[..q] + [z.seen[q]];
    assert Got(z.seen[q].doc) == z.seen[q];
    FreshIs(u.eng, doc);
    FreshStays(u.eng, t.eng, doc);
    FollowsIf(n, t, z, q + 1, doc);
  }

  lemma FreshStays(s: State, t: State, doc: DocID)
    requires Fresh(s, doc) && doc in t.docs && t.docs[doc] == s.docs[doc]
    ensures Fresh(t, doc)
  {
    hide Hits, Jobs;
  }

  // ------------------------------------------------ the whole way

  // A step at which the client sees something.
  lemma StepSees(u: System, a: Step) returns (e: Event)
    requires Good(u) && Can(u, a) && |Then(u, a).seen| == |u.seen| + 1
    ensures Ev(u, a) == [e] && !Internal(e) && Enabled(u.eng, e) && Polite(u.eng, e) && Then(u, a).eng == Next(u.eng, e)
    ensures Then(u, a).seen == u.seen + SeenBy(u.eng, e) && |SeenBy(u.eng, e)| == 1
  {
    hide *;
    GoodIsCoupled(u);
    Effect(u, a);
    e := Ev(u, a)[0];
    InternalUnseen(u.eng, e);
  }

  lemma InternalUnseen(s: State, e: Event)
    ensures Internal(e) ==> SeenBy(s, e) == []
  {
  }

  lemma CallSends(u: System, a: Step)
    requires Can(u, a) && |Ev(u, a)| == 1 && !Internal(Ev(u, a)[0])
    ensures Then(u, a).client.Sending?
  {
    hide Polite, Found, Taken, SeenBy, Done, CanBegin, CanRead, CanDeliver;
  }

  // The client saw its `len`-th call.
  lemma SeenLast(s: State, e: Event, before: seq<Seen>, after: seq<Seen>, all: seq<Seen>)
    requires after == before + SeenBy(s, e) && |SeenBy(s, e)| == 1 && after <= all
    ensures |before| < |all| && before == all[..|before|] && after == all[..|before| + 1]
    ensures SeenBy(s, e) == [all[|before|]] && (all[|before|].Called? ==> all[|before|] == Called(e))
  {
    assert after[|before|] == all[|before|];
  }

  lemma NewIsFresh(s: State, doc: DocID, text: string)
    requires Enabled(s, MatchDocument(doc, text))
    ensures Fresh(Next(s, MatchDocument(doc, text)), doc)
  {
    hide Jobs, TextWords, Matching;
  }

  lemma FollowStart(n: nat, z: System, p: nat, doc: DocID, text: string) returns (t: System)
    requires n > 0 && Attained(n, z) && p < |z.seen| && z.seen[p] == Called(MatchDocument(doc, text))
    ensures Follows(n, t, z, p + 1, doc)
  {
    hide *;
    var before, u, a, after := AttainedSplit(n, z, p);
    var v := Then(u, a);
    var e := StepSees(u, a);
    SeenLast(u.eng, e, u.seen, v.seen, z.seen);
    CallSends(u, a);
    NewIsFresh(u.eng, doc, text);
    StepKeepsGood(u, a);
    var steps;
    steps, t := Settle(v);
    OneStep(u, a);
    LeadsOn(Boot(n), before, u, [a], v);
    LeadsOn(Boot(n), before + [a], v, steps, t);
    AttainedIf(n, before + [a] + steps, t);
    AttainedIsGood(n, t);
    FollowsIf(n, t, z, p + 1, doc);
  }

  lemma AttainedIf(n: nat, steps: seq<Step>, t: System)
    requires Leads(Boot(n), steps, t)
    ensures Attained(n, t)
  {
    hide Leads;
  }

  // The step at which the call number `p` was seen.
  lemma AttainedSplit(n: nat, z: System, p: nat)
    returns (before: seq<Step>, u: System, a: Step, after: seq<Step>)
    requires n > 0 && Attained(n, z) && p < |z.seen|
    ensures Leads(Boot(n), before, u) && Can(u, a) && Leads(Then(u, a), after, z)
    ensures Good(u) && Good(Then(u, a)) && |u.sch.workers| == |Then(u, a).sch.workers| == n
    ensures |u.seen| == p && |Then(u, a).seen| == p + 1 && Then(u, a).seen <= z.seen && Out(Then(u, a).eng) <= Out(z.eng)
  {
    hide Leads, Good, Can, Then, Coupled, Out;
    var steps :| Leads(Boot(n), steps, z);
    BootIsCoupled(n);
    before, u, a, after := SplitAt(Boot(n), steps, z, p + 1);
    AttainedIf(n, before, u);
    AttainedIsGood(n, u);
    OneStep(u, a);
    AttainedOn(n, u, [a], Then(u, a));
    AttainedIsGood(n, Then(u, a));
    GoodIsCoupled(Then(u, a));
    LeadsGrows(Then(u, a), after, z);
  }

  // All the way from the submission of the document to where `z` is.
  lemma {:induction false} Follow(n: nat, z: System, p: nat, q: nat, doc: DocID, text: string) returns (t: System)
    requires n > 0 && Attained(n, z) && p < q <= |z.seen| && z.seen[p] == Called(MatchDocument(doc, text))
    requires forall k :: p < k < q ==> !IsBarrier(z.seen, k) && z.seen[k] != Got(doc)
    ensures Follows(n, t, z, q, doc)
    decreases q
  {
    hide *;
    if q == p + 1 {
      t := FollowStart(n, z, p, doc, text);
    } else {
      var s := Follow(n, z, p, q - 1, doc, text);
      AttainedIsGood(n, z);
      if z.seen[q - 1].Called? {
        t := FollowCall(n, s, z, q - 1, doc);
      } else {
        GotIs(z.seen[q - 1]);
        t := FollowGot(n, s, z, q - 1, doc);
      }
    }
  }

  lemma GotIs(x: Seen)
    requires !x.Called?
    ensures x.Got? && x == Got(x.doc)
  {
  }
}
