/** What a second EndQuery for one query costs.  The header forbids it (include/core.h:161), and
    src/core.cpp does not check it: the counter of the query goes down once more. */
module EndedTwice {
  import opened Distances
  import opened Parsing
  import opened EngineModel

  // A run under a client that keeps all promises but one: it may start a query at any time.
  ghost predicate Leads(s: State, es: seq<Event>, t: State)
    decreases |es|
  {
    if es == [] then s == t
    else Enabled(s, es[0]) && Polite(s, es[0]) && Leads(Next(s, es[0]), es[1..], t)
  }

  lemma {:induction false} LeadsOn(s: State, es: seq<Event>, t: State, fs: seq<Event>, u: State)
    requires Leads(s, es, t) && Leads(t, fs, u)
    ensures Leads(s, es + fs, u)
    decreases |es|
  {
    hide Enabled, Next, Polite;
    if es == [] {
      assert es + fs == fs;
    } else {
      assert (es + fs)[1..] == es[1..] + fs;
      LeadsOn(Next(s, es[0]), es[1..], t, fs, u);
    }
  }

  lemma OneStep(s: State, e: Event)
    requires Enabled(s, e) && Polite(s, e)
    ensures Leads(s, [e], Next(s, e))
  {
    hide Enabled, Next, Polite;
    assert Leads(Next(s, e), [e][1..], Next(s, e));
  }

  // All pending insertions run.
  lemma {:induction false} DrainAdds(s: State) returns (es: seq<Event>, t: State)
    requires IndexOk(s) && CountersOk(s)
    ensures Leads(s, es, t) && IndexOk(t) && CountersOk(t) && t == s.(adds := {}, index := t.index)
    decreases s.adds
  {
    if s.adds == {} {
      es, t := [], s;
    } else {
      var job :| job in s.adds;
      var e := RunAdd(job);
      AddKeepsIndex(s, job);
      var u := Next(s, e);
      OneStep(s, e);
      assert CountersOk(u);
      hide IndexOk, CountersOk, Leads;
      es, t := DrainAdds(u);
      LeadsOn(s, [e], u, es, t);
      es := [e] + es;
    }
  }

  // Two edit queries with one word and one distance; `first` says whether query 1 is active.
  ghost function TwoQueries(first: bool): map<QueryID, Query> {
    map[1 := Query(Edit, 1, {"abcd"}, first), 2 := Query(Edit, 1, {"abcd"}, true)]
  }

  ghost predicate Idle(s: State, first: bool) {
    s.queries == TwoQueries(first) && s.adds == {} && s.docs == map[]
  }

  // Query 1 is ended, and then once more.  Afterwards a document with the very word does not hit
  // query 2, which is active.
  lemma EndTwiceCanLose() returns (es: seq<Event>, s: State, t: State)
    ensures Leads(INITIAL, es, s) && Enabled(s, EndQuery(1)) && t == Next(s, EndQuery(1))
    ensures Idle(s, false) && Idle(t, false)
    ensures NaiveHit(t.queries, Key(Edit, "abcd"), Hit(2, "abcd"))
    ensures Hit(2, "abcd") !in Found(t, Key(Edit, "abcd"))
  {
    hide Leads, Inv, Found, Idle, NaiveHit, IndexOk, CountersOk, TwoQueries, Polite;
    var u;
    es, u := TwoEditQueries();
    EndsOne(u, true);
    OneStep(u, EndQuery(1));
    s := Next(u, EndQuery(1));
    assert Inv(s) by { EndKeepsInv(u); }
    LeadsOn(INITIAL, es, u, [EndQuery(1)], s);
    es := es + [EndQuery(1)];
    EndsOne(s, false);
    t := Next(s, EndQuery(1));
    OneLeft(s);
    OneLeftDropped(s);
    OneNaive(t);
  }

  lemma EndsOne(s: State, first: bool)
    requires Idle(s, first)
    ensures Enabled(s, EndQuery(1)) && Idle(Next(s, EndQuery(1)), false) && (first ==> Polite(s, EndQuery(1)))
  {
    assert TwoQueries(first)[1 := TwoQueries(first)[1].(active := false)] == TwoQueries(false);
  }

  lemma EndKeepsInv(s: State)
    requires Inv(s) && Idle(s, true)
    ensures Enabled(s, EndQuery(1)) && Inv(Next(s, EndQuery(1)))
  {
    hide Inv, Next;
    StepKeepsInv(s, EndQuery(1));
  }

  lemma OneNaive(s: State)
    requires Idle(s, false)
    ensures NaiveHit(s.queries, Key(Edit, "abcd"), Hit(2, "abcd"))
  {
    hide Lev;
    LevSelf("abcd");
  }

  lemma OneLeft(s: State)
    requires Inv(s) && Idle(s, false)
    ensures Hit(2, "abcd") in Found(s, Key(Edit, "abcd")) && ActiveWith(s.queries, Edit, 1) == {2}
  {
    hide IndexOk, CountersOk, NaiveHit, Found, DocsOk, AnswersOk, QueriesOk;
    OneNaive(s);
    FoundIsNaive(s, Key(Edit, "abcd"), Hit(2, "abcd"));
  }

  lemma OneLeftDropped(s: State)
    requires Inv(s) && Idle(s, false)
    requires Hit(2, "abcd") in Found(s, Key(Edit, "abcd")) && ActiveWith(s.queries, Edit, 1) == {2}
    ensures Enabled(s, EndQuery(1)) && Hit(2, "abcd") !in Found(Next(s, EndQuery(1)), Key(Edit, "abcd"))
  {
    hide IndexOk, CountersOk, Found, DocsOk, AnswersOk, QueriesOk;
    EndTwiceDropsHitsIff(s, 1, Key(Edit, "abcd"), Hit(2, "abcd"));
  }

  // Both queries are started and indexed.
  lemma TwoEditQueries() returns (es: seq<Event>, t: State)
    ensures Leads(INITIAL, es, t) && Inv(t) && Idle(t, true)
  {
    hide Leads, Inv, Next, Enabled, Polite, IndexOk, CountersOk;
    var d, e := StartQuery(1, "abcd", Edit, 1), StartQuery(2, "abcd", Edit, 1);
    InitialInv();
    var s := StartsEdit(INITIAL, 1);
    var u := StartsEdit(s, 2);
    OneStep(INITIAL, d);
    OneStep(s, e);
    LeadsOn(INITIAL, [d], s, [e], u);
    assert IndexOk(u) && CountersOk(u) by { InvParts(u); }
    es, t := DrainAdds(u);
    assert t == u.(adds := {}, index := t.index);
    DrainedInv(u, t);
    LeadsOn(INITIAL, [d] + [e], u, es, t);
    es := [d] + [e] + es;
    assert t.queries == TwoQueries(true);
  }

  lemma InvParts(s: State)
    requires Inv(s)
    ensures IndexOk(s) && CountersOk(s)
  {
  }

  lemma DrainedInv(s: State, t: State)
    requires Inv(s) && s.docs == map[] && IndexOk(t) && CountersOk(t) && t == s.(adds := {}, index := t.index)
    ensures Inv(t)
  {
    hide IndexOk, CountersOk, AnswersOk;
  }

  lemma StartsEdit(s: State, id: QueryID) returns (t: State)
    requires Inv(s) && s.docs == map[] && id !in s.queries
    ensures var e := StartQuery(id, "abcd", Edit, 1);
            && Enabled(s, e) && Polite(s, e) && t == Next(s, e) && Inv(t)
            && t.docs == map[] && t.queries == s.queries[id := Query(Edit, 1, {"abcd"}, true)]
  {
    hide Inv, GoodQuery, DocMatches;
    var e := StartQuery(id, "abcd", Edit, 1);
    OneWordText("abcd");
    StepKeepsInv(s, e);
    t := Next(s, e);
  }
}
