/** The query engine of src/core.cpp as a transition system over the calls of its client and
    the jobs of its threads, and the proof that every answer is the naive one.

    A step is one call, one index insertion (they run under the lock of the index), the start
    of one match job of a document, a further reading of its index by a job, one call of
    add_query_to_doc_results (under the lock of the result table), or the end of one document.
    Insertions run in any order; the match jobs of all documents interleave at every hit.
    `promised`, `delivered` and `applied` are history: no step depends on the first two, and on
    the last only to tell whether a further reading finds anything new. */
module EngineModel {
  import opened Distances
  import opened Parsing

  type QueryID = nat
  type DocID = nat

  const MIN_WORD_LENGTH := 4
  const MAX_WORD_LENGTH := 31
  const HAMMING_BK_TREES := MAX_WORD_LENGTH - MIN_WORD_LENGTH

  // The Hamming tree of a word is number |w| - MIN_WORD_LENGTH.
  predicate HasTree(w: string) {
    0 <= |w| - MIN_WORD_LENGTH < HAMMING_BK_TREES
  }

  // The header allows words of MIN_WORD_LENGTH to MAX_WORD_LENGTH characters.  All of them have
  // a Hamming tree but the longest.
  lemma AllowedWordHasTreeIff(w: string)
    requires 4 <= |w| <= 31
    ensures HAMMING_BK_TREES == 27 && (HasTree(w) <==> |w| <= 30)
  {
  }

  datatype MatchType = Exact | Hamming | Edit

  // ------------------------------------------------ the naive definition

  // Two words match, as documented at include/core.h:61-79.
  predicate WordMatch(kind: MatchType, dist: nat, queryWord: string, docWord: string) {
    match kind
    case Exact => queryWord == docWord
    case Hamming => |queryWord| == |docWord| && Ham(queryWord, docWord) <= dist
    case Edit => Lev(queryWord, docWord) <= dist
  }

  // The same without the distance functions: at most `dist` single-character edits, or at most
  // `dist` positions that differ.
  ghost predicate Within(kind: MatchType, dist: nat, queryWord: string, docWord: string) {
    match kind
    case Exact => queryWord == docWord
    case Hamming => |queryWord| == |docWord| && |Mismatches(queryWord, docWord)| <= dist
    case Edit => EditsWithin(queryWord, docWord, dist)
  }

  lemma WordMatchIff(kind: MatchType, dist: nat, queryWord: string, docWord: string)
    ensures WordMatch(kind, dist, queryWord, docWord) <==> Within(kind, dist, queryWord, docWord)
  {
    hide Lev, Ham, EditsWithin;
    match kind
    case Exact =>
    case Hamming => if |queryWord| == |docWord| { HamCountsMismatches(queryWord, docWord); }
    case Edit => LevWithinIff(queryWord, docWord, dist);
  }

  // `active` is the only field that changes; `words` is unique_words.
  datatype Query = Query(kind: MatchType, dist: nat, words: set<string>, active: bool)

  ghost predicate DocMatches(q: Query, doc: set<string>) {
    forall w :: w in q.words ==> exists d :: d in doc && WordMatch(q.kind, q.dist, w, d)
  }

  ghost function Matching(queries: map<QueryID, Query>, doc: set<string>): set<QueryID> {
    set id | id in queries && queries[id].active && DocMatches(queries[id], doc)
  }

  // ------------------------------------------------ the state

  // The place of a word: the exact table, the edit tree or the Hamming tree of its length.
  datatype Key = Key(kind: MatchType, word: string)

  datatype AddJob = AddJob(id: QueryID, word: string)

  datatype Counters = Counters(hamming: int, edit: int)

  datatype QueryResult = QueryResult(matched: bool, words: set<string>)

  datatype Hit = Hit(id: QueryID, word: string)

  // A document being matched: the match jobs not begun, the hits the begun ones have still to
  // deliver, in order, and the table of query results.
  datatype DocRun = DocRun(words: set<string>, todo: set<Key>, streams: seq<seq<Hit>>,
                           results: map<QueryID, QueryResult>, applied: set<Hit>)

  datatype Answer = Answer(doc: DocID, ids: seq<QueryID>)

  datatype State = State(queries: map<QueryID, Query>, counters: map<nat, Counters>, index: map<Key, seq<QueryID>>,
                         adds: set<AddJob>, started: bool, docs: map<DocID, DocRun>, finished: seq<Answer>,
                         promised: map<DocID, set<QueryID>>, delivered: seq<Answer>)

  const INITIAL := State(map[], map[], map[], {}, false, map[], [], map[], [])

  // BeginJob: a job reports all it finds at its start.  ReadAgain: a job goes on to its next
  // threshold and finds something new, which it can only if an insertion has run meanwhile.
  datatype Event =
    | StartQuery(id: QueryID, text: string, kind: MatchType, dist: nat)
    | EndQuery(id: QueryID)
    | MatchDocument(doc: DocID, text: string)
    | GetNextAvailRes
    | RunAdd(job: AddJob)
    | BeginJob(doc: DocID, key: Key, hits: seq<Hit>)
    | ReadAgain(doc: DocID, key: Key, hits: seq<Hit>)
    | ApplyHit(doc: DocID, stream: nat)
    | FinishDoc(doc: DocID, ids: seq<QueryID>)

  // ------------------------------------------------ the steps

  ghost function TextWords(text: string): set<string> {
    set w | w in Tokens(text, ' ')
  }

  function Count(c: Counters, kind: MatchType): int {
    match kind
    case Exact => 0
    case Hamming => c.hamming
    case Edit => c.edit
  }

  function Bump(counters: map<nat, Counters>, kind: MatchType, dist: nat, delta: int): map<nat, Counters> {
    var c := if dist in counters then counters[dist] else Counters(0, 0);
    match kind
    case Exact => counters
    case Hamming => counters[dist := c.(hamming := c.hamming + delta)]
    case Edit => counters[dist := c.(edit := c.edit + delta)]
  }

  // A threshold with active queries of the kind lets the traversal of match_queries reach
  // `word`, and the query behind it asks for exactly that threshold.
  ghost predicate Reached(counters: map<nat, Counters>, kind: MatchType, dist: nat, word: string, docWord: string) {
    exists k :: k in counters && Count(counters[k], kind) != 0 && WordMatch(kind, k, word, docWord) && dist == k
  }

  // What the match job for one document word and one index reports.
  ghost function Found(s: State, job: Key): set<Hit> {
    set key, id | key in s.index && id in s.index[key] && Reports(s, job, key, id) :: Hit(id, key.word)
  }

  ghost predicate Reports(s: State, job: Key, key: Key, id: QueryID) {
    && key.kind == job.kind && id in s.queries && s.queries[id].active
    && if job.kind == Exact then key.word == job.word
       else Reached(s.counters, job.kind, s.queries[id].dist, key.word, job.word)
  }

  // add_query_to_doc_results
  function AddResult(results: map<QueryID, QueryResult>, q: Query, h: Hit): map<QueryID, QueryResult> {
    if h.id in results && results[h.id].matched then results
    else
      var words := (if h.id in results then results[h.id].words else {}) + {h.word};
      results[h.id := if |words| == |q.words| then QueryResult(true, {}) else QueryResult(false, words)]
  }

  ghost function Matched(results: map<QueryID, QueryResult>): set<QueryID> {
    set id | id in results && results[id].matched
  }

  predicate Ascending(ids: seq<QueryID>) {
    forall i, j :: 0 <= i < j < |ids| ==> ids[i] < ids[j]
  }

  ghost predicate Lists(ids: seq<QueryID>, s: set<QueryID>) {
    Ascending(ids) && forall id :: id in ids <==> id in s
  }

  function Kinds(): set<MatchType> {
    {Exact, Hamming, Edit}
  }

  // The three jobs per document word.
  ghost function Jobs(words: set<string>): set<Key> {
    set k, w | k in Kinds() && w in words :: Key(k, w)
  }

  // Every job submitted to the scheduler has run: what wait_all_finish waits for.
  predicate AllFinished(s: State) {
    s.adds == {} && s.docs == map[]
  }

  ghost predicate Enabled(s: State, e: Event) {
    match e
    case StartQuery(_, _, _, _) => true
    case EndQuery(_) => AllFinished(s)
    case MatchDocument(_, _) => s.started ==> AllFinished(s)
    case GetNextAvailRes => s.finished != []
    case RunAdd(job) => job in s.adds && job.id in s.queries
    case BeginJob(doc, key, hits) =>
      doc in s.docs && key in s.docs[doc].todo && forall h :: h in hits <==> h in Found(s, key)
    case ReadAgain(doc, key, hits) =>
      && doc in s.docs && key in Jobs(s.docs[doc].words) && key !in s.docs[doc].todo
      && (forall h :: h in hits ==> h in Found(s, key)) && exists h :: h in hits && h !in Hits(s.docs[doc])
    case ApplyHit(doc, i) =>
      && doc in s.docs && i < |s.docs[doc].streams| && s.docs[doc].streams[i] != []
      && s.docs[doc].streams[i][0].id in s.queries
    case FinishDoc(doc, ids) =>
      && doc in s.docs && s.docs[doc].todo == {} && (forall st :: st in s.docs[doc].streams ==> st == [])
      && Lists(ids, Matched(s.docs[doc].results))
  }

  ghost function Next(s: State, e: Event): State
    requires Enabled(s, e)
  {
    match e
    case StartQuery(id, text, kind, dist) =>
      s.(queries := s.queries[id := Query(kind, dist, TextWords(text), true)],
         counters := Bump(s.counters, kind, dist, 1),
         adds := s.adds + (set w | w in TextWords(text) :: AddJob(id, w)),
         started := true)
    case EndQuery(id) =>
      if id !in s.queries then s
      else
        var q := s.queries[id];
        s.(queries := s.queries[id := q.(active := false)], counters := Bump(s.counters, q.kind, q.dist, -1))
    case MatchDocument(doc, text) =>
      var words := TextWords(text);
      s.(started := false,
         docs := s.docs[doc := DocRun(words, Jobs(words), [], map[], {})],
         promised := s.promised[doc := Matching(s.queries, words)])
    case GetNextAvailRes => s.(finished := s.finished[1..], delivered := s.delivered + [s.finished[0]])
    case RunAdd(job) =>
      var key := Key(s.queries[job.id].kind, job.word);
      s.(adds := s.adds - {job}, index := s.index[key := Payload(s, key) + [job.id]])
    case BeginJob(doc, key, hits) =>
      var r := s.docs[doc];
      s.(docs := s.docs[doc := r.(todo := r.todo - {key}, streams := r.streams + [hits])])
    case ReadAgain(doc, key, hits) =>
      var r := s.docs[doc];
      s.(docs := s.docs[doc := r.(streams := r.streams + [hits])])
    case ApplyHit(doc, i) =>
      var r := s.docs[doc];
      var h := r.streams[i][0];
      s.(docs := s.docs[doc := r.(streams := r.streams[i := r.streams[i][1..]],
                                  results := AddResult(r.results, s.queries[h.id], h),
                                  applied := r.applied + {h})])
    case FinishDoc(doc, ids) =>
      s.(docs := s.docs - {doc}, finished := s.finished + [Answer(doc, ids)])
  }

  function Payload(s: State, key: Key): seq<QueryID> {
    if key in s.index then s.index[key] else []
  }

  // What the client promises, at a step that starts no query late.  Identifiers are not reused
  // (include/core.h:121, 161, 173); texts split into words of the lengths the header allows.
  // Document words and the words of Hamming queries need a Hamming tree.
  ghost predicate Polite(s: State, e: Event) {
    match e
    case StartQuery(id, text, kind, _) => id !in s.queries && GoodQuery(text, kind)
    case EndQuery(id) => id in s.queries ==> s.queries[id].active
    case MatchDocument(doc, text) => doc !in s.promised && GoodDocument(text)
    case _ => true
  }

  // A query may be started while documents are matched only if it matches none of them.  The
  // driver drains all results first (src/test/test_through.cpp:128-134), so that there are none.
  ghost predicate Disciplined(s: State, e: Event) {
    Polite(s, e) && (e.StartQuery? ==> Harmless(s, Started(e)))
  }

  ghost predicate Harmless(s: State, q: Query) {
    forall doc :: doc in s.docs ==> !DocMatches(q, s.docs[doc].words)
  }

  ghost function Started(e: Event): Query
    requires e.StartQuery?
  {
    Query(e.kind, e.dist, TextWords(e.text), true)
  }

  predicate Allowed(w: string) {
    MIN_WORD_LENGTH <= |w| <= MAX_WORD_LENGTH
  }

  // A query word has a place in the table or trees of its kind.
  predicate Indexable(key: Key) {
    Allowed(key.word) && (key.kind == Hamming ==> HasTree(key.word))
  }

  ghost predicate SplitsUp(text: string) {
    Parseable(text, ' ') && Words(text, ' ') != []
  }

  ghost predicate GoodQuery(text: string, kind: MatchType) {
    SplitsUp(text) && forall w :: w in Words(text, ' ') ==> Indexable(Key(kind, w))
  }

  ghost predicate GoodDocument(text: string) {
    SplitsUp(text) && forall w :: w in Words(text, ' ') ==> HasTree(w)
  }

  // The steps the threads take on their own.
  predicate Internal(e: Event) {
    e.RunAdd? || e.BeginJob? || e.ReadAgain? || e.ApplyHit? || e.FinishDoc?
  }

  lemma BeginStep(s: State, doc: DocID, key: Key, hits: seq<Hit>)
    requires doc in s.docs && key in s.docs[doc].todo && forall h :: h in hits <==> h in Found(s, key)
    ensures var e, r := BeginJob(doc, key, hits), s.docs[doc];
            && Enabled(s, e) && Disciplined(s, e)
            && Next(s, e) == s.(docs := s.docs[doc := r.(todo := r.todo - {key}, streams := r.streams + [hits])])
  {
  }

  lemma ReadStep(s: State, doc: DocID, key: Key, hits: seq<Hit>)
    requires Enabled(s, ReadAgain(doc, key, hits))
    ensures doc in s.docs && key in Jobs(s.docs[doc].words) && key !in s.docs[doc].todo
    ensures (forall h :: h in hits ==> h in Found(s, key)) && exists h :: h in hits && h !in Hits(s.docs[doc])
    ensures Next(s, ReadAgain(doc, key, hits)) ==
            s.(docs := s.docs[doc := s.docs[doc].(streams := s.docs[doc].streams + [hits])])
  {
    hide Found, Hits, Jobs;
  }

  lemma MatchStep(s: State, doc: DocID, text: string)
    requires Polite(s, MatchDocument(doc, text)) && (s.started ==> AllFinished(s))
    ensures var e, words := MatchDocument(doc, text), TextWords(text);
            && Enabled(s, e) && Disciplined(s, e)
            && Next(s, e) == s.(started := false, docs := s.docs[doc := DocRun(words, Jobs(words), [], map[], {})],
                                promised := s.promised[doc := Matching(s.queries, words)])
  {
    hide TextWords, Jobs, Matching, GoodDocument;
  }

  lemma HitStep(s: State, doc: DocID, i: nat)
    requires doc in s.docs && i < |s.docs[doc].streams| && s.docs[doc].streams[i] != []
    requires s.docs[doc].streams[i][0].id in s.queries
    ensures var e, r := ApplyHit(doc, i), s.docs[doc];
            var h := r.streams[i][0];
            && Enabled(s, e) && Disciplined(s, e)
            && Next(s, e) == s.(docs := s.docs[doc := DocRun(r.words, r.todo, r.streams[i := r.streams[i][1..]],
                                                             AddResult(r.results, s.queries[h.id], h), r.applied + {h})])
  {
  }

  // ------------------------------------------------ the invariant

  // An index holds a query under a word once, from the moment the insertion has run, exactly
  // when the query has the kind of the index and contains the word.
  ghost predicate IndexOk(s: State) {
    && (forall j :: j in s.adds ==> j.id in s.queries && j.word in s.queries[j.id].words)
    && (forall key, id :: Occurs(s, key, id) == if Belongs(s, key, id) && AddJob(id, key.word) !in s.adds then 1 else 0)
  }

  ghost function Occurs(s: State, key: Key, id: QueryID): nat {
    multiset(Payload(s, key))[id]
  }

  ghost predicate Belongs(s: State, key: Key, id: QueryID) {
    id in s.queries && s.queries[id].kind == key.kind && key.word in s.queries[id].words
  }

  ghost function ActiveWith(queries: map<QueryID, Query>, kind: MatchType, dist: nat): set<QueryID> {
    set id | id in queries && queries[id].active && queries[id].kind == kind && queries[id].dist == dist
  }

  // Each counter is the number of active queries of its kind and distance.
  ghost predicate CountersOk(s: State) {
    forall kind, k :: kind != Exact ==> |ActiveWith(s.queries, kind, k)| == CountAt(s.counters, kind, k)
  }

  function CountAt(counters: map<nat, Counters>, kind: MatchType, k: nat): int {
    if k in counters then Count(counters[k], kind) else 0
  }

  ghost predicate QueriesOk(queries: map<QueryID, Query>) {
    forall id :: id in queries ==>
      queries[id].words != {} && forall w :: w in queries[id].words ==> Indexable(Key(queries[id].kind, w))
  }

  // The words reported for a query.
  ghost function WordsHit(hits: set<Hit>, id: QueryID): set<string> {
    set h | h in hits && h.id == id :: h.word
  }

  // The result table, as a function of the hits applied so far and not of their order: it
  // knows every query hit, `matched` says that all its words are hit, and until then the
  // table holds the words hit.
  ghost predicate Summarises(results: map<QueryID, QueryResult>, queries: map<QueryID, Query>, hits: set<Hit>) {
    forall id :: SummaryAt(results, queries, id, WordsHit(hits, id))
  }

  ghost predicate SummaryAt(results: map<QueryID, QueryResult>, queries: map<QueryID, Query>, id: QueryID,
                            hit: set<string>)
  {
    && (id in results <==> hit != {})
    && (id in results ==>
          && id in queries
          && (results[id].matched <==> queries[id].words <= hit)
          && (!results[id].matched ==> results[id].words == hit))
  }

  ghost function Streamed(streams: seq<seq<Hit>>): set<Hit> {
    set st, h | st in streams && h in st :: h
  }

  // The hits the begun jobs of a document have found, delivered or not.
  ghost function Hits(r: DocRun): set<Hit> {
    r.applied + Streamed(r.streams)
  }

  // All hits of the jobs in `jobs`.
  ghost function FoundBy(s: State, jobs: set<Key>): set<Hit> {
    set key, h | key in jobs && h in Found(s, key) :: h
  }

  // The hit the naive definition asks of a job, and of one of several jobs.
  ghost predicate NaiveHit(queries: map<QueryID, Query>, job: Key, h: Hit) {
    && h.id in queries && queries[h.id].active && queries[h.id].kind == job.kind
    && h.word in queries[h.id].words
    && WordMatch(job.kind, queries[h.id].dist, h.word, job.word)
  }

  ghost predicate NaiveAmong(queries: map<QueryID, Query>, jobs: set<Key>, h: Hit) {
    exists job :: job in jobs && NaiveHit(queries, job, h)
  }

  // Only naive hits have been found; those of the queries in `goal` have all been found or will
  // be by the jobs not begun.
  ghost predicate DocOk(s: State, r: DocRun, goal: set<QueryID>) {
    && (forall w :: w in r.words ==> HasTree(w))
    && r.todo <= Jobs(r.words)
    && goal == Matching(s.queries, r.words)
    && (forall j :: j in s.adds ==> j.id !in goal)
    && AllNaive(s.queries, r)
    && (forall h :: NaiveAmong(s.queries, Jobs(r.words), h) && h.id in goal ==> FoundOrLeft(s.queries, r, h))
    && Summarises(r.results, s.queries, r.applied)
  }

  ghost predicate AllNaive(queries: map<QueryID, Query>, r: DocRun) {
    forall h :: h in Hits(r) ==> NaiveAmong(queries, Jobs(r.words), h)
  }

  ghost predicate FoundOrLeft(queries: map<QueryID, Query>, r: DocRun, h: Hit) {
    h in Hits(r) || NaiveAmong(queries, r.todo, h)
  }

  ghost predicate Inv(s: State) {
    && IndexOk(s) && CountersOk(s) && QueriesOk(s.queries)
    && (s.adds != {} ==> s.started)
    && DocsOk(s)
    && AnswersOk(s.delivered + s.finished, s.promised)
  }

  ghost predicate DocsOk(s: State) {
    forall doc {:trigger s.docs[doc]} :: doc in s.docs ==>
      doc in s.promised && DocOk(s, s.docs[doc], s.promised[doc])
  }

  ghost predicate AnswersOk(answers: seq<Answer>, promised: map<DocID, set<QueryID>>) {
    forall a :: a in answers ==> AnswerOk(promised, a)
  }

  ghost predicate AnswerOk(promised: map<DocID, set<QueryID>>, a: Answer) {
    a.doc in promised && Lists(a.ids, promised[a.doc])
  }

  lemma InitialInv()
    ensures Inv(INITIAL)
  {
    forall kind, k | kind != Exact ensures |ActiveWith(INITIAL.queries, kind, k)| == 0 {
      assert ActiveWith(INITIAL.queries, kind, k) == {};
    }
  }

  // ------------------------------------------------ the jobs report the naive matches

  lemma OccursInPayload(s: State, key: Key, id: QueryID)
    ensures Occurs(s, key, id) > 0 <==> key in s.index && id in s.index[key]
  {
  }

  lemma ActiveIsCounted(s: State, id: QueryID)
    requires CountersOk(s) && id in s.queries && s.queries[id].active && s.queries[id].kind != Exact
    ensures s.queries[id].dist in s.counters && Count(s.counters[s.queries[id].dist], s.queries[id].kind) != 0
  {
    assert id in ActiveWith(s.queries, s.queries[id].kind, s.queries[id].dist);
  }

  // The trees, tables and counters together report a hit exactly when an active query of the
  // kind has the word, the word matches the document word, and its insertion has run.
  lemma FoundIsNaive(s: State, job: Key, h: Hit)
    requires IndexOk(s) && CountersOk(s)
    ensures h in Found(s, job) <==> NaiveHit(s.queries, job, h) && AddJob(h.id, h.word) !in s.adds
  {
    hide Lev, Ham;
    var key := Key(job.kind, h.word);
    FoundHit(s, job, h);
    OccursInPayload(s, key, h.id);
    assert Occurs(s, key, h.id) == if Belongs(s, key, h.id) && AddJob(h.id, key.word) !in s.adds then 1 else 0;
    if Belongs(s, key, h.id) && s.queries[h.id].active && job.kind != Exact {
      ActiveIsCounted(s, h.id);
    }
  }

  lemma FoundHit(s: State, job: Key, h: Hit)
    ensures var key := Key(job.kind, h.word);
            h in Found(s, job) <==> key in s.index && h.id in s.index[key] && Reports(s, job, key, h.id)
  {
    hide Reached;
    if h in Found(s, job) {
      var key, id :| key in s.index && id in s.index[key] && Reports(s, job, key, id) && h == Hit(id, key.word);
      assert key == Key(job.kind, h.word);
    }
  }

  // With no insertion pending, some jobs find exactly the naive hits.
  lemma FoundByIsNaive(s: State, jobs: set<Key>, h: Hit)
    requires IndexOk(s) && CountersOk(s) && s.adds == {}
    ensures h in FoundBy(s, jobs) <==> NaiveAmong(s.queries, jobs, h)
  {
    hide Found, NaiveHit, IndexOk, CountersOk;
    forall job | job in jobs ensures h in Found(s, job) <==> NaiveHit(s.queries, job, h) {
      FoundIsNaive(s, job, h);
    }
  }

  // Hits name words of their query.
  ghost predicate Legal(queries: map<QueryID, Query>, hits: set<Hit>) {
    forall h :: h in hits ==> h.id in queries && h.word in queries[h.id].words
  }

  // All words of a query have naive hits for a document exactly when the query matches it.
  lemma NaiveIffMatches(queries: map<QueryID, Query>, doc: set<string>, id: QueryID)
    requires id in queries && queries[id].words != {}
    ensures (forall w :: w in queries[id].words ==> NaiveAmong(queries, Jobs(doc), Hit(id, w)))
            <==> queries[id].active && DocMatches(queries[id], doc)
  {
    hide WordMatch;
    var q := queries[id];
    forall w | w in q.words
      ensures NaiveAmong(queries, Jobs(doc), Hit(id, w))
              <==> q.active && exists d :: d in doc && WordMatch(q.kind, q.dist, w, d)
    {
      WordHitIff(queries, doc, id, w);
    }
    var w0 :| w0 in q.words;
  }

  lemma WordHitIff(queries: map<QueryID, Query>, doc: set<string>, id: QueryID, w: string)
    requires id in queries && w in queries[id].words
    ensures NaiveAmong(queries, Jobs(doc), Hit(id, w))
            <==> queries[id].active && exists d :: d in doc && WordMatch(queries[id].kind, queries[id].dist, w, d)
  {
    hide WordMatch;
    var q, h := queries[id], Hit(id, w);
    if NaiveAmong(queries, Jobs(doc), h) {
      var job :| job in Jobs(doc) && NaiveHit(queries, job, h);
      assert job.word in doc && WordMatch(q.kind, q.dist, w, job.word);
    }
    if q.active && exists d :: d in doc && WordMatch(q.kind, q.dist, w, d) {
      var d :| d in doc && WordMatch(q.kind, q.dist, w, d);
      assert q.kind.Exact? || q.kind.Hamming? || q.kind.Edit?;
      assert Key(q.kind, d) in Jobs(doc) && NaiveHit(queries, Key(q.kind, d), h);
    }
  }

  // All words of a query are hit by the jobs of a document exactly when the query matches it.
  lemma AllHitIffMatches(s: State, doc: set<string>, id: QueryID)
    requires IndexOk(s) && CountersOk(s) && s.adds == {} && id in s.queries && s.queries[id].words != {}
    ensures s.queries[id].words <= WordsHit(FoundBy(s, Jobs(doc)), id)
            <==> s.queries[id].active && DocMatches(s.queries[id], doc)
  {
    hide IndexOk, CountersOk, FoundBy, NaiveAmong, DocMatches, Jobs;
    var hits := FoundBy(s, Jobs(doc));
    forall w ensures w in WordsHit(hits, id) <==> NaiveAmong(s.queries, Jobs(doc), Hit(id, w)) {
      FoundByIsNaive(s, Jobs(doc), Hit(id, w));
      WordsHitHas(hits, id, w);
    }
    NaiveIffMatches(s.queries, doc, id);
  }

  lemma WordsHitHas(hits: set<Hit>, id: QueryID, w: string)
    ensures w in WordsHit(hits, id) <==> Hit(id, w) in hits
  {
  }

  // The table lists exactly the queries the naive definition asks for, once the hits are naive
  // and those of the matching queries are complete.
  lemma MatchedIsMatching(queries: map<QueryID, Query>, doc: set<string>, results: map<QueryID, QueryResult>,
                          hits: set<Hit>)
    requires QueriesOk(queries) && Summarises(results, queries, hits)
    requires forall h :: h in hits ==> NaiveAmong(queries, Jobs(doc), h)
    requires forall h :: NaiveAmong(queries, Jobs(doc), h) && h.id in Matching(queries, doc) ==> h in hits
    ensures Matched(results) == Matching(queries, doc)
  {
    hide NaiveAmong, DocMatches, Jobs;
    forall id ensures id in Matched(results) <==> id in Matching(queries, doc) {
      assert SummaryAt(results, queries, id, WordsHit(hits, id));
      if id in queries {
        NaiveIffMatches(queries, doc, id);
        forall w ensures w in WordsHit(hits, id) <==> Hit(id, w) in hits {
          WordsHitHas(hits, id, w);
        }
        hide WordsHit;
      }
    }
  }

  // ------------------------------------------------ the order of hits does not matter

  // One more hit, in whatever order it comes.
  lemma AddResultSummarises(results: map<QueryID, QueryResult>, queries: map<QueryID, Query>, hits: set<Hit>, h: Hit)
    requires Summarises(results, queries, hits) && Legal(queries, hits + {h})
    ensures Summarises(AddResult(results, queries[h.id], h), queries, hits + {h})
  {
    hide WordsHit;
    var results' := AddResult(results, queries[h.id], h);
    forall id ensures SummaryAt(results', queries, id, WordsHit(hits + {h}, id)) {
      WordsHitAdd(hits, h, id);
      assert SummaryAt(results, queries, id, WordsHit(hits, id));
      if id == h.id {
        LegalWords(queries, hits + {h}, id);
        AddResultAt(results, queries, h, WordsHit(hits, id));
      }
    }
  }

  lemma LegalWords(queries: map<QueryID, Query>, hits: set<Hit>, id: QueryID)
    requires Legal(queries, hits) && id in queries
    ensures WordsHit(hits, id) <= queries[id].words
  {
  }

  lemma AddResultAt(results: map<QueryID, QueryResult>, queries: map<QueryID, Query>, h: Hit, hit: set<string>)
    requires h.id in queries && SummaryAt(results, queries, h.id, hit) && hit + {h.word} <= queries[h.id].words
    ensures SummaryAt(AddResult(results, queries[h.id], h), queries, h.id, hit + {h.word})
  {
    FullWhenSizesAgree(hit + {h.word}, queries[h.id].words);
  }

  lemma WordsHitAdd(hits: set<Hit>, h: Hit, id: QueryID)
    ensures WordsHit(hits + {h}, id) == WordsHit(hits, id) + if id == h.id then {h.word} else {}
  {
    var a, b := WordsHit(hits + {h}, id), WordsHit(hits, id) + if id == h.id then {h.word} else {};
    forall w ensures w in a <==> w in b {
      assert w in a <==> Hit(id, w) in hits + {h};
      assert w in WordsHit(hits, id) <==> Hit(id, w) in hits;
    }
  }

  // Comparing the two set sizes decides that every word has been hit, since only words of the
  // query are ever hit.
  lemma FullWhenSizesAgree(hit: set<string>, words: set<string>)
    requires hit <= words
    ensures |hit| == |words| <==> words <= hit
  {
    assert words == hit + (words - hit);
    if |hit| == |words| {
      assert |words - hit| == 0;
    }
  }

  // Any sequence of calls of add_query_to_doc_results.
  function AddAll(results: map<QueryID, QueryResult>, queries: map<QueryID, Query>, hs: seq<Hit>)
    : map<QueryID, QueryResult>
    requires forall h :: h in hs ==> h.id in queries
    decreases |hs|
  {
    if hs == [] then results
    else AddResult(AddAll(results, queries, hs[..|hs| - 1]), queries[hs[|hs| - 1].id], hs[|hs| - 1])
  }

  lemma {:induction false} AddAllSummarises(queries: map<QueryID, Query>, hs: seq<Hit>)
    requires Legal(queries, set h | h in hs)
    ensures Summarises(AddAll(map[], queries, hs), queries, set h | h in hs)
    decreases |hs|
  {
    var hits := set h | h in hs;
    assert forall h :: h in hs ==> h in hits;
    if hs == [] {
      assert hits == {};
    } else {
      var init, h := hs[..|hs| - 1], hs[|hs| - 1];
      var before := set x | x in init;
      assert hits == before + {h};
      AddAllSummarises(queries, init);
      AddResultSummarises(AddAll(map[], queries, init), queries, before, h);
    }
  }

  // Two interleavings of the same hits, with or without repetitions, match the same queries.
  lemma OrderDoesNotMatter(queries: map<QueryID, Query>, hs: seq<Hit>, gs: seq<Hit>)
    requires Legal(queries, set h | h in hs)
    requires forall h :: h in hs <==> h in gs
    ensures (forall h :: h in gs ==> h.id in queries)
    ensures Matched(AddAll(map[], queries, hs)) == Matched(AddAll(map[], queries, gs))
  {
    var hits := set h | h in hs;
    assert hits == set h | h in gs;
    assert forall h :: h in hs ==> h in hits;
    AddAllSummarises(queries, hs);
    AddAllSummarises(queries, gs);
    var r, t := AddAll(map[], queries, hs), AddAll(map[], queries, gs);
    SummaryIsUnique(r, t, queries, hits);
  }

  lemma SummaryIsUnique(r: map<QueryID, QueryResult>, t: map<QueryID, QueryResult>, queries: map<QueryID, Query>,
                        hits: set<Hit>)
    requires Summarises(r, queries, hits) && Summarises(t, queries, hits)
    ensures Matched(r) == Matched(t)
  {
    forall id ensures id in Matched(r) <==> id in Matched(t) {
      assert SummaryAt(r, queries, id, WordsHit(hits, id)) && SummaryAt(t, queries, id, WordsHit(hits, id));
    }
  }

  // ------------------------------------------------ every step keeps the invariant

  lemma GoodWords(text: string)
    requires SplitsUp(text)
    ensures TextWords(text) != {} && TextWords(text) == set w | w in Words(text, ' ')
  {
    hide Tokens, Words, Parseable;
    TokensAreWordsIff(text, ' ');
    assert Words(text, ' ')[0] in TextWords(text);
  }

  // All texts that the header describes, in the spelling that parse_string reads, are good: words
  // of allowed lengths with one space between any two.
  lemma JoinedIsGood(ws: seq<string>, kind: MatchType)
    requires ws != [] && forall w :: w in ws ==> ' ' !in w && Indexable(Key(kind, w))
    ensures GoodQuery(Join(ws, ' '), kind) && TextWords(Join(ws, ' ')) == (set w | w in ws)
    ensures kind == Hamming ==> GoodDocument(Join(ws, ' '))
  {
    assert forall w :: w in ws ==> IsWord(w, ' ');
    TokensOfJoin(ws, ' ');
    WordsOfJoin(ws, ' ');
    TokensAreWordsIff(Join(ws, ' '), ' ');
    hide Parseable, Tokens, Words, Join;
  }

  lemma BumpedCount(counters: map<nat, Counters>, q: Query, delta: int, kind: MatchType, k: nat)
    requires kind != Exact
    ensures CountAt(Bump(counters, q.kind, q.dist, delta), kind, k)
            == CountAt(counters, kind, k) + if kind == q.kind && k == q.dist then delta else 0
  {
  }

  // Activating or deactivating one query.
  lemma BumpedActive(queries: map<QueryID, Query>, queries': map<QueryID, Query>, id: QueryID, q: Query, on: bool,
                     kind: MatchType, k: nat)
    requires if id in queries then queries[id] == q.(active := !on) else on
    requires queries' == queries[id := q.(active := on)]
    ensures |ActiveWith(queries', kind, k)|
            == |ActiveWith(queries, kind, k)| + if kind == q.kind && k == q.dist then (if on then 1 else -1) else 0
  {
    var a, b := ActiveWith(queries, kind, k), ActiveWith(queries', kind, k);
    var here := kind == q.kind && k == q.dist;
    ActiveElsewhere(queries, queries', id, q.(active := on), kind, k);
    OneMoreOrLess(a, b, id, here && !on, here && on);
  }

  lemma OneMoreOrLess<T>(a: set<T>, b: set<T>, x: T, inA: bool, inB: bool)
    requires forall y :: y != x ==> (y in a <==> y in b)
    requires (x in a <==> inA) && (x in b <==> inB)
    ensures |b| == |a| + (if inB then 1 else 0) - (if inA then 1 else 0)
  {
    var common := a - {x};
    assert common == b - {x};
    if inA { assert a == common + {x}; } else { assert a == common; }
    if inB { assert b == common + {x}; } else { assert b == common; }
  }

  lemma ActiveElsewhere(queries: map<QueryID, Query>, queries': map<QueryID, Query>, id: QueryID, q: Query,
                        kind: MatchType, k: nat)
    requires queries' == queries[id := q]
    ensures forall x :: x != id ==> (x in ActiveWith(queries, kind, k) <==> x in ActiveWith(queries', kind, k))
  {
  }

  lemma BumpKeepsCounters(s: State, t: State, id: QueryID, q: Query, on: bool)
    requires CountersOk(s)
    requires id in s.queries ==> s.queries[id] == q.(active := !on)
    requires id !in s.queries ==> on
    requires t.queries == s.queries[id := q.(active := on)]
    requires t.counters == Bump(s.counters, q.kind, q.dist, if on then 1 else -1)
    ensures CountersOk(t)
  {
    hide ActiveWith, CountAt, Bump;
    forall kind, k | kind != Exact ensures |ActiveWith(t.queries, kind, k)| == CountAt(t.counters, kind, k) {
      assert |ActiveWith(s.queries, kind, k)| == CountAt(s.counters, kind, k);
      BumpedActive(s.queries, t.queries, id, q, on, kind, k);
      BumpedCount(s.counters, q, if on then 1 else -1, kind, k);
    }
  }

  lemma StartKeepsIndex(s: State, id: QueryID, text: string, kind: MatchType, dist: nat)
    requires IndexOk(s) && id !in s.queries
    ensures IndexOk(Next(s, StartQuery(id, text, kind, dist)))
  {
    hide TextWords;
    var t := Next(s, StartQuery(id, text, kind, dist));
    forall key, x
      ensures Occurs(t, key, x) == if Belongs(t, key, x) && AddJob(x, key.word) !in t.adds then 1 else 0
    {
      assert Occurs(t, key, x) == Occurs(s, key, x);
    }
  }

  lemma AddKeepsIndex(s: State, job: AddJob)
    requires IndexOk(s) && Enabled(s, RunAdd(job))
    ensures IndexOk(Next(s, RunAdd(job)))
  {
    var t, target := Next(s, RunAdd(job)), Key(s.queries[job.id].kind, job.word);
    forall key, x
      ensures Occurs(t, key, x) == if Belongs(t, key, x) && AddJob(x, key.word) !in t.adds then 1 else 0
    {
      assert Occurs(s, key, x) == if Belongs(s, key, x) && AddJob(x, key.word) !in s.adds then 1 else 0;
      OccursAfterAdd(s, job, key, x);
      hide Occurs, Payload;
    }
  }

  lemma OccursAfterAdd(s: State, job: AddJob, key: Key, x: QueryID)
    requires Enabled(s, RunAdd(job))
    ensures Occurs(Next(s, RunAdd(job)), key, x)
            == Occurs(s, key, x) + if key == Key(s.queries[job.id].kind, job.word) && x == job.id then 1 else 0
  {
  }

  lemma EndKeepsIndex(s: State, id: QueryID)
    requires IndexOk(s) && Enabled(s, EndQuery(id))
    ensures IndexOk(Next(s, EndQuery(id)))
  {
    var t := Next(s, EndQuery(id));
    forall key, x
      ensures Occurs(t, key, x) == if Belongs(t, key, x) && AddJob(x, key.word) !in t.adds then 1 else 0
    {
      assert Occurs(t, key, x) == Occurs(s, key, x) && Belongs(t, key, x) == Belongs(s, key, x);
    }
  }

  // Documents depend on queries and pending insertions only.
  lemma SameDoc(s: State, t: State, r: DocRun, goal: set<QueryID>)
    requires t.queries == s.queries && t.adds <= s.adds && DocOk(s, r, goal)
    ensures DocOk(t, r, goal)
  {
    hide Matching, AllNaive, FoundOrLeft, NaiveAmong, Summarises, HasTree, Jobs;
  }

  lemma NewDocOk(s: State, words: set<string>)
    requires (forall w :: w in words ==> HasTree(w)) && s.adds == {}
    ensures DocOk(s, DocRun(words, Jobs(words), [], map[], {}), Matching(s.queries, words))
  {
    hide Matching, NaiveAmong;
  }

  lemma StreamAdds(r: DocRun, todo: set<Key>, hits: seq<Hit>)
    ensures Hits(r.(todo := todo, streams := r.streams + [hits])) == Hits(r) + set h | h in hits
  {
    var streams := r.streams + [hits];
    assert forall h :: h in Streamed(streams) <==> h in Streamed(r.streams) || h in hits by {
      assert forall st :: st in streams <==> st in r.streams || st == hits;
    }
  }

  lemma BeginKeepsDoc(s: State, r: DocRun, goal: set<QueryID>, key: Key, hits: seq<Hit>)
    requires IndexOk(s) && CountersOk(s) && DocOk(s, r, goal) && key in r.todo
    requires forall h :: h in hits <==> h in Found(s, key)
    ensures DocOk(s, r.(todo := r.todo - {key}, streams := r.streams + [hits]), goal)
  {
    var r' := r.(todo := r.todo - {key}, streams := r.streams + [hits]);
    StreamAdds(r, r.todo - {key}, hits);
    forall h ensures h in hits <==> NaiveHit(s.queries, key, h) && AddJob(h.id, h.word) !in s.adds {
      FoundIsNaive(s, key, h);
    }
    hide IndexOk, CountersOk, Found, Summarises, Hits, NaiveHit, Matching, Jobs, HasTree;
    forall h | NaiveAmong(s.queries, Jobs(r.words), h) && h.id in goal ensures FoundOrLeft(s.queries, r', h) {
      assert FoundOrLeft(s.queries, r, h);
      if NaiveAmong(s.queries, r.todo, h) {
        var job :| job in r.todo && NaiveHit(s.queries, job, h);
        assert job == key || job in r'.todo;
      }
    }
  }

  lemma StreamedStep(streams: seq<seq<Hit>>, i: nat)
    requires i < |streams| && streams[i] != []
    ensures Streamed(streams) == Streamed(streams[i := streams[i][1..]]) + {streams[i][0]}
  {
    var streams' := streams[i := streams[i][1..]];
    forall h | h in Streamed(streams) ensures h in Streamed(streams') + {streams[i][0]} {
      var st :| st in streams && h in st;
      var j :| 0 <= j < |streams| && streams[j] == st;
      if j == i {
        assert st == [st[0]] + st[1..];
        assert streams'[i] == st[1..];
      } else {
        assert streams'[j] == st;
      }
    }
    forall h | h in Streamed(streams') ensures h in Streamed(streams) {
      var st :| st in streams' && h in st;
      var j :| 0 <= j < |streams'| && streams'[j] == st;
      assert h in streams[j];
    }
    assert streams[i][0] in streams[i];
  }

  // The run of a document after one more call of add_query_to_doc_results.
  ghost function AfterHit(queries: map<QueryID, Query>, r: DocRun, i: nat): DocRun
    requires i < |r.streams| && r.streams[i] != [] && r.streams[i][0].id in queries
  {
    var h := r.streams[i][0];
    DocRun(r.words, r.todo, r.streams[i := r.streams[i][1..]], AddResult(r.results, queries[h.id], h), r.applied + {h})
  }

  lemma HitKeeps(queries: map<QueryID, Query>, r: DocRun, i: nat)
    requires Legal(queries, Hits(r)) && Summarises(r.results, queries, r.applied)
    requires i < |r.streams| && r.streams[i] != [] && r.streams[i][0].id in queries
    ensures Hits(AfterHit(queries, r, i)) == Hits(r)
    ensures Summarises(AfterHit(queries, r, i).results, queries, AfterHit(queries, r, i).applied)
  {
    hide Summarises, Streamed, AddResult;
    var h := r.streams[i][0];
    StreamedStep(r.streams, i);
    assert r.applied + {h} <= Hits(r);
    AddResultSummarises(r.results, queries, r.applied, h);
  }

  lemma NaiveIsLegal(queries: map<QueryID, Query>, r: DocRun)
    requires AllNaive(queries, r)
    ensures Legal(queries, Hits(r))
  {
    hide Hits, Jobs, WordMatch;
  }

  lemma HitKeepsDoc(s: State, r: DocRun, goal: set<QueryID>, i: nat)
    requires DocOk(s, r, goal) && i < |r.streams| && r.streams[i] != [] && r.streams[i][0].id in s.queries
    ensures DocOk(s, AfterHit(s.queries, r, i), goal)
  {
    hide Summarises, Hits, NaiveAmong, Jobs, HasTree, Matching, AddResult;
    NaiveIsLegal(s.queries, r);
    HitKeeps(s.queries, r, i);
    hide Legal;
  }

  // A finished document lists the queries it was promised.
  lemma FinishedIsGoal(s: State, r: DocRun, goal: set<QueryID>)
    requires QueriesOk(s.queries) && DocOk(s, r, goal) && r.todo == {} && forall st :: st in r.streams ==> st == []
    ensures Matched(r.results) == goal
  {
    assert Streamed(r.streams) == {};
    assert forall h :: !NaiveAmong(s.queries, {}, h);
    hide NaiveAmong, Streamed, Summarises, HasTree, Jobs, Matching, QueriesOk;
    MatchedIsMatching(s.queries, r.words, r.results, r.applied);
  }

  // A late start leaves documents alone that the new query does not match.
  lemma StartKeepsDoc(s: State, r: DocRun, goal: set<QueryID>, id: QueryID, q: Query, t: State)
    requires IndexOk(s) && DocOk(s, r, goal) && id !in s.queries && q.active && !DocMatches(q, r.words)
    requires t.queries == s.queries[id := q]
    requires forall j :: j in t.adds ==> j in s.adds || j.id == id
    ensures DocOk(t, r, goal)
  {
    hide DocMatches;
    assert Matching(t.queries, r.words) == Matching(s.queries, r.words);
    assert id !in goal;
    hide Matching, HasTree;
    forall jobs, h: Hit | h.id != id
      ensures NaiveAmong(t.queries, jobs, h) <==> NaiveAmong(s.queries, jobs, h)
    {
      OtherHits(s.queries, t.queries, id, q, jobs, h);
    }
    NaiveIsLegal(s.queries, r);
    hide NaiveAmong, Hits, Jobs, IndexOk;
    forall h | NaiveAmong(t.queries, Jobs(r.words), h) && h.id in goal ensures FoundOrLeft(t.queries, r, h) {
      assert FoundOrLeft(s.queries, r, h);
    }
    MoreQueriesSummarise(r, s.queries, t.queries);
  }

  lemma OtherHits(queries: map<QueryID, Query>, queries': map<QueryID, Query>, id: QueryID, q: Query, jobs: set<Key>,
                  h: Hit)
    requires queries' == queries[id := q] && h.id != id
    ensures NaiveAmong(queries', jobs, h) <==> NaiveAmong(queries, jobs, h)
  {
    hide WordMatch;
    forall job ensures NaiveHit(queries', job, h) <==> NaiveHit(queries, job, h) {}
    hide NaiveHit;
  }

  lemma MoreQueriesSummarise(r: DocRun, queries: map<QueryID, Query>, queries': map<QueryID, Query>)
    requires Summarises(r.results, queries, r.applied)
    requires forall id :: id in queries ==> id in queries' && queries'[id] == queries[id]
    ensures Summarises(r.results, queries', r.applied)
  {
    hide WordsHit;
    forall id ensures SummaryAt(r.results, queries', id, WordsHit(r.applied, id)) {
      assert SummaryAt(r.results, queries, id, WordsHit(r.applied, id));
    }
  }

  // Documents are untouched by a step that leaves queries alone and adds no insertion.
  lemma SameDocs(s: State, t: State)
    requires t.queries == s.queries && t.adds <= s.adds && t.docs == s.docs && t.promised == s.promised && DocsOk(s)
    ensures DocsOk(t)
  {
    hide DocOk;
    forall doc {:trigger t.docs[doc]} | doc in t.docs
      ensures doc in t.promised && DocOk(t, t.docs[doc], t.promised[doc])
    {
      SameDoc(s, t, s.docs[doc], s.promised[doc]);
    }
  }

  // A step that changes or adds one document.
  lemma OneDocChanges(s: State, t: State, doc: DocID)
    requires t.queries == s.queries && t.adds <= s.adds && DocsOk(s)
    requires doc in t.docs && t.docs == s.docs[doc := t.docs[doc]]
    requires doc in t.promised && t.promised == s.promised[doc := t.promised[doc]]
    requires DocOk(t, t.docs[doc], t.promised[doc])
    ensures DocsOk(t)
  {
    hide DocOk;
    forall d {:trigger t.docs[d]} | d in t.docs ensures d in t.promised && DocOk(t, t.docs[d], t.promised[d]) {
      if d != doc {
        SameDoc(s, t, s.docs[d], s.promised[d]);
      }
    }
  }

  lemma OneDocLess(s: State, t: State, doc: DocID)
    requires t.queries == s.queries && t.adds <= s.adds && t.promised == s.promised
    requires DocsOk(s) && t.docs == s.docs - {doc}
    ensures DocsOk(t)
  {
    hide DocOk;
    forall d {:trigger t.docs[d]} | d in t.docs ensures d in t.promised && DocOk(t, t.docs[d], t.promised[d]) {
      SameDoc(s, t, s.docs[d], s.promised[d]);
    }
  }

  // An invariant that depends on queries, counters, indices and pending insertions only.
  lemma IndexUntouched(s: State, t: State)
    requires t.queries == s.queries && t.counters == s.counters && t.index == s.index && t.adds == s.adds
    requires IndexOk(s) && CountersOk(s)
    ensures IndexOk(t) && CountersOk(t)
  {
    forall key, id ensures Occurs(t, key, id) == Occurs(s, key, id) && Belongs(t, key, id) == Belongs(s, key, id) {}
  }

  lemma StepStart(s: State, id: QueryID, text: string, kind: MatchType, dist: nat)
    requires Inv(s) && Disciplined(s, StartQuery(id, text, kind, dist))
    ensures Inv(Next(s, StartQuery(id, text, kind, dist)))
  {
    var t, q := Next(s, StartQuery(id, text, kind, dist)), Query(kind, dist, TextWords(text), true);
    hide DocMatches, DocsOk, AnswersOk, TextWords, IndexOk, CountersOk, Bump, Indexable;
    GoodWords(text);
    StartKeepsIndex(s, id, text, kind, dist);
    StartKeepsCounters(s, id, q, t);
    StartKeepsDocs(s, id, q, t);
  }

  lemma StartKeepsDocs(s: State, id: QueryID, q: Query, t: State)
    requires IndexOk(s) && DocsOk(s) && id !in s.queries && q.active && Harmless(s, q)
    requires t.docs == s.docs && t.promised == s.promised && t.queries == s.queries[id := q]
    requires forall j :: j in t.adds ==> j in s.adds || j.id == id
    ensures DocsOk(t)
  {
    hide IndexOk, DocMatches, DocOk;
    forall doc {:trigger t.docs[doc]} | doc in t.docs
      ensures doc in t.promised && DocOk(t, t.docs[doc], t.promised[doc])
    {
      StartKeepsDoc(s, s.docs[doc], s.promised[doc], id, q, t);
    }
  }

  lemma StartKeepsCounters(s: State, id: QueryID, q: Query, t: State)
    requires CountersOk(s) && id !in s.queries && q.active && t.queries == s.queries[id := q]
    requires t.counters == Bump(s.counters, q.kind, q.dist, 1)
    ensures CountersOk(t)
  {
    assert q == q.(active := true);
    BumpKeepsCounters(s, t, id, q, true);
  }

  lemma StepEnd(s: State, id: QueryID)
    requires Inv(s) && Enabled(s, EndQuery(id)) && Disciplined(s, EndQuery(id))
    ensures Inv(Next(s, EndQuery(id)))
  {
    if id in s.queries {
      var t, q := Next(s, EndQuery(id)), s.queries[id];
      EndKeepsIndex(s, id);
      BumpKeepsCounters(s, t, id, q, false);
      hide IndexOk, CountersOk, AnswersOk;
    }
  }

  lemma StepMatch(s: State, doc: DocID, text: string)
    requires Inv(s) && Enabled(s, MatchDocument(doc, text)) && Disciplined(s, MatchDocument(doc, text))
    ensures Inv(Next(s, MatchDocument(doc, text)))
  {
    hide IndexOk, CountersOk, QueriesOk, TextWords, DocOk, Matching, Jobs, AnswersOk, HasTree;
    var t := Next(s, MatchDocument(doc, text));
    GoodWords(text);
    NewDocOk(t, TextWords(text));
    IndexUntouched(s, t);
    OneDocChanges(s, t, doc);
    MorePromises(s.delivered + s.finished, s.promised, doc, t.promised[doc]);
  }

  lemma MorePromises(answers: seq<Answer>, promised: map<DocID, set<QueryID>>, doc: DocID, ids: set<QueryID>)
    requires AnswersOk(answers, promised) && doc !in promised
    ensures AnswersOk(answers, promised[doc := ids])
  {
    forall a | a in answers ensures AnswerOk(promised[doc := ids], a) {
      assert AnswerOk(promised, a);
    }
  }

  lemma StepGet(s: State)
    requires Inv(s) && Enabled(s, GetNextAvailRes)
    ensures Inv(Next(s, GetNextAvailRes))
  {
    var t := Next(s, GetNextAvailRes);
    IndexUntouched(s, t);
    hide IndexOk, CountersOk, DocOk, AnswersOk;
    SameDocs(s, t);
    SameAnswers(s);
  }

  // A delivery moves the first finished answer to the end of the delivered ones.
  lemma SameAnswers(s: State)
    requires s.finished != []
    ensures var t := Next(s, GetNextAvailRes); t.delivered + t.finished == s.delivered + s.finished
  {
  }

  lemma StepAdd(s: State, job: AddJob)
    requires Inv(s) && Enabled(s, RunAdd(job))
    ensures Inv(Next(s, RunAdd(job)))
  {
    AddKeepsIndex(s, job);
    assert CountersOk(Next(s, RunAdd(job)));
    hide IndexOk, CountersOk, AnswersOk, DocOk;
    SameDocs(s, Next(s, RunAdd(job)));
  }

  lemma StepBegin(s: State, doc: DocID, key: Key, hits: seq<Hit>)
    requires Inv(s) && Enabled(s, BeginJob(doc, key, hits))
    ensures Inv(Next(s, BeginJob(doc, key, hits)))
  {
    hide IndexOk, CountersOk, DocOk, Found, AnswersOk;
    var t, r := Next(s, BeginJob(doc, key, hits)), s.docs[doc];
    BeginKeepsDoc(s, r, s.promised[doc], key, hits);
    SameDoc(s, t, t.docs[doc], s.promised[doc]);
    IndexUntouched(s, t);
    OneDocChanges(s, t, doc);
  }

  lemma ReadKeepsDoc(s: State, r: DocRun, goal: set<QueryID>, key: Key, hits: seq<Hit>)
    requires IndexOk(s) && CountersOk(s) && DocOk(s, r, goal) && key in Jobs(r.words)
    requires forall h :: h in hits ==> h in Found(s, key)
    ensures DocOk(s, r.(streams := r.streams + [hits]), goal)
  {
    var r' := r.(streams := r.streams + [hits]);
    StreamAdds(r, r.todo, hits);
    forall h | h in hits ensures NaiveAmong(s.queries, Jobs(r.words), h) {
      FoundIsNaive(s, key, h);
    }
    hide IndexOk, CountersOk, Found, Summarises, Hits, NaiveAmong, Matching, Jobs, HasTree;
    forall h | NaiveAmong(s.queries, Jobs(r.words), h) && h.id in goal ensures FoundOrLeft(s.queries, r', h) {
      assert FoundOrLeft(s.queries, r, h);
    }
  }

  lemma StepRead(s: State, doc: DocID, key: Key, hits: seq<Hit>)
    requires Inv(s) && Enabled(s, ReadAgain(doc, key, hits))
    ensures Inv(Next(s, ReadAgain(doc, key, hits)))
  {
    hide IndexOk, CountersOk, DocOk, Found, AnswersOk, Jobs, Hits;
    var t, r := Next(s, ReadAgain(doc, key, hits)), s.docs[doc];
    ReadStep(s, doc, key, hits);
    hide Enabled, Next;
    ReadKeepsDoc(s, r, s.promised[doc], key, hits);
    SameDoc(s, t, t.docs[doc], s.promised[doc]);
    IndexUntouched(s, t);
    OneDocChanges(s, t, doc);
  }

  lemma StepHit(s: State, doc: DocID, i: nat)
    requires Inv(s) && Enabled(s, ApplyHit(doc, i))
    ensures Inv(Next(s, ApplyHit(doc, i)))
  {
    hide IndexOk, CountersOk, DocOk, AnswersOk, AddResult;
    var t, r := Next(s, ApplyHit(doc, i)), s.docs[doc];
    HitStep(s, doc, i);
    HitKeepsDoc(s, r, s.promised[doc], i);
    SameDoc(s, t, t.docs[doc], s.promised[doc]);
    IndexUntouched(s, t);
    OneDocChanges(s, t, doc);
  }

  lemma StepFinish(s: State, doc: DocID, ids: seq<QueryID>)
    requires Inv(s) && Enabled(s, FinishDoc(doc, ids))
    ensures Inv(Next(s, FinishDoc(doc, ids)))
  {
    var t := Next(s, FinishDoc(doc, ids));
    FinishedIsGoal(s, s.docs[doc], s.promised[doc]);
    IndexUntouched(s, t);
    hide IndexOk, CountersOk, DocOk, Matched;
    OneDocLess(s, t, doc);
    assert t.delivered + t.finished == s.delivered + s.finished + [Answer(doc, ids)];
    forall a | a in t.delivered + t.finished ensures AnswerOk(t.promised, a) {
      assert a == Answer(doc, ids) || a in s.delivered + s.finished;
    }
  }

  lemma StepKeepsInv(s: State, e: Event)
    requires Inv(s) && Enabled(s, e) && Disciplined(s, e)
    ensures Inv(Next(s, e))
  {
    match e
    case StartQuery(id, text, kind, dist) => StepStart(s, id, text, kind, dist);
    case EndQuery(id) => StepEnd(s, id);
    case MatchDocument(doc, text) => StepMatch(s, doc, text);
    case GetNextAvailRes => StepGet(s);
    case RunAdd(job) => StepAdd(s, job);
    case BeginJob(doc, key, hits) => StepBegin(s, doc, key, hits);
    case ReadAgain(doc, key, hits) => StepRead(s, doc, key, hits);
    case ApplyHit(doc, i) => StepHit(s, doc, i);
    case FinishDoc(doc, ids) => StepFinish(s, doc, ids);
  }

  // ------------------------------------------------ what holds under late starts as well

  ghost predicate RunOk(queries: map<QueryID, Query>, r: DocRun) {
    r.todo <= Jobs(r.words) && AllNaive(queries, r) && Summarises(r.results, queries, r.applied)
  }

  // The part of the invariant that a polite client keeps, whenever it starts its queries.
  ghost predicate Sound(s: State) {
    && IndexOk(s) && CountersOk(s) && QueriesOk(s.queries)
    && forall doc {:trigger s.docs[doc]} :: doc in s.docs ==> RunOk(s.queries, s.docs[doc])
  }

  lemma InvIsSound(s: State)
    requires Inv(s)
    ensures Sound(s)
  {
    hide IndexOk, CountersOk, QueriesOk, AllNaive, Summarises, Matching;
    forall doc {:trigger s.docs[doc]} | doc in s.docs ensures RunOk(s.queries, s.docs[doc]) {
      assert DocOk(s, s.docs[doc], s.promised[doc]);
    }
  }

  lemma NewRunOk(queries: map<QueryID, Query>, words: set<string>)
    ensures RunOk(queries, DocRun(words, Jobs(words), [], map[], {}))
  {
    hide Jobs, NaiveAmong;
  }

  lemma BeginKeepsRun(s: State, r: DocRun, key: Key, hits: seq<Hit>)
    requires IndexOk(s) && CountersOk(s) && RunOk(s.queries, r) && key in r.todo
    requires forall h :: h in hits <==> h in Found(s, key)
    ensures RunOk(s.queries, r.(todo := r.todo - {key}, streams := r.streams + [hits]))
  {
    StreamAdds(r, r.todo - {key}, hits);
    forall h | h in hits ensures NaiveAmong(s.queries, Jobs(r.words), h) {
      FoundIsNaive(s, key, h);
    }
    hide IndexOk, CountersOk, Found, Hits, NaiveAmong, Summarises, Jobs;
  }

  lemma ReadKeepsRun(s: State, r: DocRun, key: Key, hits: seq<Hit>)
    requires IndexOk(s) && CountersOk(s) && RunOk(s.queries, r) && key in Jobs(r.words)
    requires forall h :: h in hits ==> h in Found(s, key)
    ensures RunOk(s.queries, r.(streams := r.streams + [hits]))
  {
    StreamAdds(r, r.todo, hits);
    forall h | h in hits ensures NaiveAmong(s.queries, Jobs(r.words), h) {
      FoundIsNaive(s, key, h);
    }
    hide IndexOk, CountersOk, Found, Hits, NaiveAmong, Summarises, Jobs;
  }

  lemma HitKeepsRun(queries: map<QueryID, Query>, r: DocRun, i: nat)
    requires RunOk(queries, r) && i < |r.streams| && r.streams[i] != [] && r.streams[i][0].id in queries
    ensures RunOk(queries, AfterHit(queries, r, i))
  {
    hide Summarises, Hits, NaiveAmong, Jobs, AddResult;
    NaiveIsLegal(queries, r);
    HitKeeps(queries, r, i);
  }

  lemma MoreQueriesKeepRun(r: DocRun, queries: map<QueryID, Query>, id: QueryID, q: Query)
    requires RunOk(queries, r) && id !in queries
    ensures RunOk(queries[id := q], r)
  {
    hide Hits, Jobs;
    forall h | h in Hits(r) ensures NaiveAmong(queries[id := q], Jobs(r.words), h) {
      assert NaiveAmong(queries, Jobs(r.words), h) && h.id in queries;
      OtherHits(queries, queries[id := q], id, q, Jobs(r.words), h);
    }
    hide NaiveAmong;
    MoreQueriesSummarise(r, queries, queries[id := q]);
  }

  lemma StepKeepsSound(s: State, e: Event)
    requires Sound(s) && Enabled(s, e) && Polite(s, e)
    ensures Sound(Next(s, e))
  {
    var t := Next(s, e);
    match e
    case StartQuery(id, text, kind, dist) => SoundStart(s, e);
    case EndQuery(id) => SoundEnd(s, id);
    case RunAdd(job) =>
      AddKeepsIndex(s, job);
      assert CountersOk(t);
      hide IndexOk, CountersOk, RunOk, QueriesOk;
    case MatchDocument(doc, text) =>
      IndexUntouched(s, t);
      NewRunOk(s.queries, TextWords(text));
      hide IndexOk, CountersOk, RunOk, QueriesOk, TextWords, Jobs;
    case BeginJob(doc, key, hits) =>
      IndexUntouched(s, t);
      BeginKeepsRun(s, s.docs[doc], key, hits);
      hide IndexOk, CountersOk, RunOk, QueriesOk, Found;
    case ReadAgain(doc, key, hits) =>
      SoundRead(s, doc, key, hits);
    case ApplyHit(doc, i) =>
      IndexUntouched(s, t);
      HitStep(s, doc, i);
      HitKeepsRun(s.queries, s.docs[doc], i);
      hide IndexOk, CountersOk, RunOk, QueriesOk, AddResult;
    case FinishDoc(_, _) =>
      IndexUntouched(s, t);
      hide IndexOk, CountersOk, RunOk, QueriesOk;
    case GetNextAvailRes =>
      IndexUntouched(s, t);
      hide IndexOk, CountersOk, RunOk, QueriesOk;
  }

  lemma SoundRead(s: State, doc: DocID, key: Key, hits: seq<Hit>)
    requires Sound(s) && Enabled(s, ReadAgain(doc, key, hits))
    ensures Sound(Next(s, ReadAgain(doc, key, hits)))
  {
    ReadStep(s, doc, key, hits);
    hide Enabled, Next, IndexOk, CountersOk, RunOk, QueriesOk, Found, Hits, Jobs;
    IndexUntouched(s, Next(s, ReadAgain(doc, key, hits)));
    ReadKeepsRun(s, s.docs[doc], key, hits);
  }

  lemma SoundStart(s: State, e: Event)
    requires Sound(s) && e.StartQuery? && Polite(s, e)
    ensures Enabled(s, e) && Sound(Next(s, e))
  {
    var t := Next(s, e);
    GoodWords(e.text);
    StartKeepsIndex(s, e.id, e.text, e.kind, e.dist);
    StartKeepsCounters(s, e.id, Started(e), t);
    hide IndexOk, CountersOk, RunOk, TextWords, Indexable, Bump;
    forall doc {:trigger t.docs[doc]} | doc in t.docs ensures RunOk(t.queries, t.docs[doc]) {
      MoreQueriesKeepRun(s.docs[doc], s.queries, e.id, Started(e));
    }
  }

  lemma SoundEnd(s: State, id: QueryID)
    requires Sound(s) && Enabled(s, EndQuery(id)) && Polite(s, EndQuery(id))
    ensures Sound(Next(s, EndQuery(id)))
  {
    if id in s.queries {
      EndKeepsIndex(s, id);
      BumpKeepsCounters(s, Next(s, EndQuery(id)), id, s.queries[id], false);
      hide IndexOk, CountersOk, RunOk;
    }
  }

  // While a document is matched, what a job finds only grows.  So a job that goes through the
  // thresholds one after the other reports what BeginJob says and perhaps more: ReadAgain.
  lemma FoundGrows(s: State, e: Event, job: Key)
    requires Sound(s) && Enabled(s, e) && Polite(s, e) && s.docs != map[]
    ensures Found(s, job) <= Found(Next(s, e), job)
  {
    var t := Next(s, e);
    StepKeepsSound(s, e);
    forall h | h in Found(s, job) ensures h in Found(t, job) {
      FoundIsNaive(s, job, h);
      StaysNaive(s, e, job, h);
      FoundIsNaive(t, job, h);
    }
    hide Sound, Enabled, Next, Polite, Found;
  }

  lemma StaysNaive(s: State, e: Event, job: Key, h: Hit)
    requires Enabled(s, e) && Polite(s, e) && s.docs != map[]
    requires NaiveHit(s.queries, job, h) && AddJob(h.id, h.word) !in s.adds
    ensures NaiveHit(Next(s, e).queries, job, h) && AddJob(h.id, h.word) !in Next(s, e).adds
  {
    hide WordMatch, TextWords, GoodQuery, GoodDocument, Found, Matched, Lists, Hits, Jobs, Matching;
  }

  // A job that has begun can still find what has become indexed since: any naive hit whose
  // insertion has run and that the document does not have yet.
  lemma JobReadsOn(s: State, doc: DocID, key: Key, h: Hit) returns (e: Event)
    requires Sound(s) && doc in s.docs && key in Jobs(s.docs[doc].words) && key !in s.docs[doc].todo
    requires NaiveHit(s.queries, key, h) && AddJob(h.id, h.word) !in s.adds && h !in Hits(s.docs[doc])
    ensures Enabled(s, e) && Internal(e) && e.ReadAgain? && e.doc == doc && doc in Next(s, e).docs
    ensures h in Hits(Next(s, e).docs[doc]) && Next(s, e).docs[doc].todo == s.docs[doc].todo
  {
    e := ReadAgain(doc, key, [h]);
    FoundIsNaive(s, key, h);
    hide Sound, Found, NaiveHit, Hits, Jobs;
    assert h in [h];
    ReadStep(s, doc, key, [h]);
    StreamAdds(s.docs[doc], s.docs[doc].todo, [h]);
  }

  // No step of the threads waits for another: any insertion may be next, any job may begin, any
  // stream may deliver, and a document with nothing left may end.
  lemma AnyOrder(s: State, job: AddJob, doc: DocID, key: Key, i: nat)
    requires Sound(s)
    ensures job in s.adds ==> Enabled(s, RunAdd(job))
    ensures doc in s.docs && key in s.docs[doc].todo ==> exists hits :: Enabled(s, BeginJob(doc, key, hits))
    ensures doc in s.docs && i < |s.docs[doc].streams| && s.docs[doc].streams[i] != [] ==> Enabled(s, ApplyHit(doc, i))
    ensures doc in s.docs && s.docs[doc].todo == {} && (forall st :: st in s.docs[doc].streams ==> st == []) ==>
              exists ids :: Enabled(s, FinishDoc(doc, ids))
  {
    hide CountersOk, QueriesOk, Summarises, Found, Matched, Lists, NaiveAmong;
    if doc in s.docs {
      var r := s.docs[doc];
      assert RunOk(s.queries, r);
      var hits := AsSeq(Found(s, key));
      var ids := AsList(Matched(r.results));
      if key in r.todo { assert Enabled(s, BeginJob(doc, key, hits)); }
      if r.todo == {} && forall st :: st in r.streams ==> st == [] { assert Enabled(s, FinishDoc(doc, ids)); }
      if i < |r.streams| && r.streams[i] != [] {
        NaiveIsLegal(s.queries, r);
        var st := r.streams[i];
        assert st in r.streams && st[0] in st;
        assert st[0] in Hits(r);
      }
    }
  }

  // ------------------------------------------------ every schedule comes to an end

  ghost function TodoLeft(docs: map<DocID, DocRun>): set<(DocID, Key)> {
    set d, k | d in docs && k in docs[d].todo :: (d, k)
  }

  // One position per hit still to be delivered.
  ghost function HitsLeft(docs: map<DocID, DocRun>): set<(DocID, nat, nat)> {
    set d, i: nat, j: nat | d in docs && i < |docs[d].streams| && j < |docs[d].streams[i]| :: (d, i, j)
  }

  // What a job that reads again could still find.
  ghost function Unread(s: State): set<(DocID, Hit)> {
    set d, key, id | d in s.docs && key in s.index && id in s.index[key] && Hit(id, key.word) !in Hits(s.docs[d])
      :: (d, Hit(id, key.word))
  }

  // What is left to do, in lexicographic order: insertions, documents, jobs, hits not found, hits
  // not delivered.
  ghost predicate LessLeft(t: State, s: State) {
    || t.adds < s.adds
    || (t.adds == s.adds && t.docs.Keys < s.docs.Keys)
    || (t.adds == s.adds && t.docs.Keys == s.docs.Keys && TodoLeft(t.docs) < TodoLeft(s.docs))
    || (t.adds == s.adds && t.docs.Keys == s.docs.Keys && TodoLeft(t.docs) == TodoLeft(s.docs)
        && (Unread(t) < Unread(s) || (Unread(t) == Unread(s) && HitsLeft(t.docs) < HitsLeft(s.docs))))
  }

  // Every step of the threads leaves less to do, so no schedule goes on for ever.
  lemma InternalLeavesLess(s: State, e: Event)
    requires Enabled(s, e) && Internal(e)
    ensures LessLeft(Next(s, e), s)
  {
    var t := Next(s, e);
    match e
    case RunAdd(job) => assert job in s.adds && job !in t.adds;
    case BeginJob(doc, key, hits) => BeginLeavesLess(s, doc, key, hits);
    case ReadAgain(doc, key, hits) => ReadLeavesLess(s, doc, key, hits);
    case ApplyHit(doc, i) => HitLeavesLess(s, doc, i);
    case FinishDoc(doc, _) => assert doc in s.docs.Keys && t.docs.Keys == s.docs.Keys - {doc};
  }

  lemma BeginLeavesLess(s: State, doc: DocID, key: Key, hits: seq<Hit>)
    requires Enabled(s, BeginJob(doc, key, hits))
    ensures LessLeft(Next(s, BeginJob(doc, key, hits)), s)
  {
    hide Found;
    var t := Next(s, BeginJob(doc, key, hits));
    assert (doc, key) in TodoLeft(s.docs) && (doc, key) !in TodoLeft(t.docs);
    assert TodoLeft(t.docs) <= TodoLeft(s.docs);
    assert t.docs.Keys == s.docs.Keys;
  }

  lemma ReadLeavesLess(s: State, doc: DocID, key: Key, hits: seq<Hit>)
    requires Enabled(s, ReadAgain(doc, key, hits))
    ensures LessLeft(Next(s, ReadAgain(doc, key, hits)), s)
  {
    ReadStep(s, doc, key, hits);
    hide Enabled, Next, Jobs, Hits, Reports, Found;
    var t, r := Next(s, ReadAgain(doc, key, hits)), s.docs[doc];
    StreamAdds(r, r.todo, hits);
    var h :| h in hits && h !in Hits(r);
    FoundIndexed(s, key, h);
    assert (doc, h) in Unread(s) && (doc, h) !in Unread(t);
    assert Unread(t) <= Unread(s);
    assert t.docs.Keys == s.docs.Keys && TodoLeft(t.docs) == TodoLeft(s.docs);
  }

  lemma FoundIndexed(s: State, job: Key, h: Hit)
    requires h in Found(s, job)
    ensures exists key :: key in s.index && h.id in s.index[key] && h.word == key.word
  {
    hide Reports;
  }

  lemma HitLeavesLess(s: State, doc: DocID, i: nat)
    requires Enabled(s, ApplyHit(doc, i))
    ensures LessLeft(Next(s, ApplyHit(doc, i)), s)
  {
    HitStep(s, doc, i);
    var t, r := Next(s, ApplyHit(doc, i)), s.docs[doc];
    hide AddResult, Hits, Enabled, Next;
    HitsStay(s.queries, r, i);
    var last := |r.streams[i]| - 1;
    assert t.docs[doc].todo == r.todo && t.docs[doc].streams == r.streams[i := r.streams[i][1..]];
    assert (doc, i, last) in HitsLeft(s.docs) && (doc, i, last) !in HitsLeft(t.docs);
    assert HitsLeft(t.docs) <= HitsLeft(s.docs);
    SameUnread(s, t, doc);
    assert t.docs.Keys == s.docs.Keys && TodoLeft(t.docs) == TodoLeft(s.docs);
  }

  lemma HitsStay(queries: map<QueryID, Query>, r: DocRun, i: nat)
    requires i < |r.streams| && r.streams[i] != [] && r.streams[i][0].id in queries
    ensures Hits(AfterHit(queries, r, i)) == Hits(r)
  {
    hide Streamed, AddResult;
    StreamedStep(r.streams, i);
  }

  lemma SameUnread(s: State, t: State, doc: DocID)
    requires doc in s.docs && doc in t.docs && Hits(t.docs[doc]) == Hits(s.docs[doc])
    requires t == s.(docs := s.docs[doc := t.docs[doc]])
    ensures Unread(t) == Unread(s)
  {
    hide Hits;
    assert forall d :: d in s.docs ==> Hits(t.docs[d]) == Hits(s.docs[d]);
  }

  // A document that is being matched can go on.
  lemma DocProgress(s: State, doc: DocID) returns (e: Event)
    requires Sound(s) && doc in s.docs
    ensures Enabled(s, e) && (e.BeginJob? || e.ApplyHit? || e.FinishDoc?) && e.doc == doc
  {
    hide CountersOk, QueriesOk, Summarises, Found, Matched, Lists, NaiveAmong;
    var r := s.docs[doc];
    assert RunOk(s.queries, r);
    if r.todo != {} {
      var key :| key in r.todo;
      var hits := AsSeq(Found(s, key));
      e := BeginJob(doc, key, hits);
    } else if i :| 0 <= i < |r.streams| && r.streams[i] != [] {
      NaiveIsLegal(s.queries, r);
      var st := r.streams[i];
      assert st in r.streams && st[0] in st;
      assert st[0] in Hits(r);
      e := ApplyHit(doc, i);
    } else {
      var ids := AsList(Matched(r.results));
      e := FinishDoc(doc, ids);
    }
  }

  // As long as an insertion or a document is left, the threads can go on; so every schedule
  // ends with all insertions run and all documents finished.
  lemma InternalProgress(s: State) returns (e: Event)
    requires Sound(s) && (s.adds != {} || s.docs != map[])
    ensures Internal(e) && Enabled(s, e)
  {
    hide CountersOk, QueriesOk, RunOk, Found, Matched, Lists;
    if s.adds != {} {
      var job :| job in s.adds;
      e := RunAdd(job);
    } else {
      var doc :| doc in s.docs.Keys;
      e := DocProgress(s, doc);
    }
  }

  lemma {:induction false} AsSeq<T>(s: set<T>) returns (q: seq<T>)
    ensures forall x :: x in q <==> x in s
    decreases s
  {
    if s == {} {
      q := [];
    } else {
      var x :| x in s;
      q := AsSeq(s - {x});
      q := q + [x];
    }
  }

  lemma {:induction false} AsList(s: set<QueryID>) returns (ids: seq<QueryID>)
    ensures Lists(ids, s)
    decreases s
  {
    if s == {} {
      ids := [];
    } else {
      var m := Greatest(s);
      ids := AsList(s - {m});
      assert forall id :: id in ids ==> id < m;
      OneMoreId(ids, m);
      ids := ids + [m];
    }
  }

  lemma OneMoreId(ids: seq<QueryID>, m: QueryID)
    requires Ascending(ids) && forall id :: id in ids ==> id < m
    ensures Ascending(ids + [m]) && forall id :: id in ids + [m] <==> id in ids || id == m
  {
    assert forall i :: 0 <= i < |ids| ==> ids[i] in ids;
  }

  lemma {:induction false} Greatest(s: set<QueryID>) returns (m: QueryID)
    requires s != {}
    ensures m in s && forall x :: x in s ==> x <= m
    decreases s
  {
    m :| m in s;
    if s != {m} {
      var n := Greatest(s - {m});
      assert forall x :: x in s ==> x == m || x in s - {m};
      m := if m < n then n else m;
    }
  }

  // The counters still count, exactly if the query that ends was active or is of the kind
  // without counters: ending a query twice takes it from the counter twice.
  lemma EndKeepsCountersIff(s: State, id: QueryID)
    requires CountersOk(s) && id in s.queries
    requires Enabled(s, EndQuery(id))
    ensures CountersOk(Next(s, EndQuery(id))) <==> s.queries[id].active || s.queries[id].kind == Exact
  {
    var t, q := Next(s, EndQuery(id)), s.queries[id];
    if q.active {
      BumpKeepsCounters(s, t, id, q, false);
    } else {
      assert q.(active := false) == q && t.queries == s.queries;
      hide ActiveWith, Bump, CountAt;
      if q.kind != Exact {
        BumpedCount(s.counters, q, -1, q.kind, q.dist);
        assert |ActiveWith(t.queries, q.kind, q.dist)| == CountAt(s.counters, q.kind, q.dist);
      }
    }
  }

  // What ending a query twice costs.  The hits of an active query of the same kind and distance
  // are lost, exactly if it is the only one left.
  lemma EndTwiceDropsHitsIff(s: State, id: QueryID, job: Key, h: Hit)
    requires IndexOk(s) && CountersOk(s) && Enabled(s, EndQuery(id))
    requires id in s.queries && !s.queries[id].active && s.queries[id].kind == job.kind != Exact
    requires h in Found(s, job) && s.queries[h.id].dist == s.queries[id].dist
    ensures h in Found(Next(s, EndQuery(id)), job) <==> |ActiveWith(s.queries, job.kind, s.queries[id].dist)| != 1
  {
    hide Lev, Ham;
    var t, q := Next(s, EndQuery(id)), s.queries[id];
    FoundHit(s, job, h);
    FoundHit(t, job, h);
    BumpedCount(s.counters, q, -1, q.kind, q.dist);
    assert q.(active := false) == q && t.queries == s.queries;
    assert |ActiveWith(s.queries, q.kind, q.dist)| == CountAt(s.counters, q.kind, q.dist);
    assert CountAt(t.counters, q.kind, q.dist) == CountAt(s.counters, q.kind, q.dist) - 1;
  }

  lemma OneWordText(w: string)
    requires w == "abcd"
    ensures GoodDocument(w) && (forall kind :: GoodQuery(w, kind)) && TextWords(w) == {w}
  {
    TokensOfLast(w, ' ');
    UntilOfWord(w, [], ' ');
    assert w + [] == w && w[..4] == w && w[4..] == [];
    assert Words(w, ' ') == [w];
    TokensAreWordsIff(w, ' ');
    hide Parseable, Tokens, Words;
  }

  // ------------------------------------------------ whole runs

  // A run of the engine under a disciplined client, and the state it leads to.
  ghost predicate IsRun(es: seq<Event>)
    decreases |es|, 0
  {
    es == [] ||
    var init, e := es[..|es| - 1], es[|es| - 1];
    IsRun(init) && Enabled(After(init), e) && Disciplined(After(init), e)
  }

  ghost function After(es: seq<Event>): State
    requires IsRun(es)
    decreases |es|, 1
  {
    if es == [] then INITIAL else Next(After(es[..|es| - 1]), es[|es| - 1])
  }

  lemma Unfold(es: seq<Event>)
    requires IsRun(es)
    ensures es == [] ==> After(es) == INITIAL
    ensures es != [] ==>
              var init, e := es[..|es| - 1], es[|es| - 1];
              IsRun(init) && Enabled(After(init), e) && Disciplined(After(init), e) && After(es) == Next(After(init), e)
  {
    hide Enabled, Disciplined, Next;
  }

  lemma OneMoreStep(es: seq<Event>, e: Event)
    requires IsRun(es) && Enabled(After(es), e) && Disciplined(After(es), e)
    ensures IsRun(es + [e]) && After(es + [e]) == Next(After(es), e)
  {
    hide Enabled, Disciplined, Next;
    assert (es + [e])[..|es|] == es;
  }

  lemma {:induction false} RunKeepsInv(es: seq<Event>)
    requires IsRun(es)
    ensures Inv(After(es))
    decreases |es|
  {
    hide Enabled, Disciplined, Next, Inv;
    Unfold(es);
    if es == [] {
      InitialInv();
    } else {
      RunKeepsInv(es[..|es| - 1]);
      StepKeepsInv(After(es[..|es| - 1]), es[|es| - 1]);
    }
  }

  // The words of a text as a reader sees them.
  ghost function WordSet(text: string): set<string> {
    set w | w in Words(text, ' ')
  }

  // The queries started and not ended, straight from the client's calls.
  ghost function Live(es: seq<Event>): map<QueryID, Query>
    decreases |es|
  {
    if es == [] then map[]
    else
      var live := Live(es[..|es| - 1]);
      match es[|es| - 1]
      case StartQuery(id, text, kind, dist) => live[id := Query(kind, dist, WordSet(text), true)]
      case EndQuery(id) => live - {id}
      case _ => live
  }

  // What the client expects for a document: the live queries all of whose words match.
  ghost function Expected(es: seq<Event>, text: string): set<QueryID> {
    Matching(Live(es), WordSet(text))
  }

  lemma {:induction false} LiveIsActive(es: seq<Event>)
    requires IsRun(es)
    ensures forall id :: id in Live(es) <==> id in After(es).queries && After(es).queries[id].active
    ensures forall id :: id in Live(es) ==> Live(es)[id] == After(es).queries[id]
    decreases |es|
  {
    hide Enabled, Disciplined, Next;
    Unfold(es);
    if es != [] {
      var init, e := es[..|es| - 1], es[|es| - 1];
      LiveIsActive(init);
      StepQueries(After(init), e);
      if e.StartQuery? { GoodWords(e.text); }
      hide TextWords, SplitsUp;
    }
  }

  // The counters are the numbers of queries started and not ended, in every run.
  lemma CountersCountLive(es: seq<Event>, kind: MatchType, k: nat)
    requires IsRun(es) && kind != Exact
    ensures CountAt(After(es).counters, kind, k) == |ActiveWith(Live(es), kind, k)|
  {
    RunKeepsInv(es);
    LiveIsActive(es);
    hide Inv, Live, After, IsRun;
    assert CountersOk(After(es));
    assert ActiveWith(Live(es), kind, k) == ActiveWith(After(es).queries, kind, k);
  }

  // No query was started while a document was being matched.
  ghost predicate Drained(es: seq<Event>)
    requires IsRun(es)
    decreases |es|
  {
    es == [] ||
    var init, e := es[..|es| - 1], es[|es| - 1];
    Drained(init) && (e.StartQuery? ==> After(init).docs == map[])
  }

  // In such a run no insertion is pending while a document is matched: the match jobs read
  // indices that nobody writes.
  lemma {:induction false} NoInsertionWhileMatching(es: seq<Event>)
    requires IsRun(es) && Drained(es)
    ensures After(es).docs != map[] ==> After(es).adds == {}
    decreases |es|
  {
    hide Enabled, Disciplined, Next, Inv;
    Unfold(es);
    if es != [] {
      var init := es[..|es| - 1];
      NoInsertionWhileMatching(init);
      RunKeepsInv(init);
      StepApart(After(init), es[|es| - 1]);
    }
  }

  lemma StepApart(s: State, e: Event)
    requires Inv(s) && Enabled(s, e) && (e.StartQuery? ==> s.docs == map[])
    requires s.docs != map[] ==> s.adds == {}
    ensures Next(s, e).docs != map[] ==> Next(s, e).adds == {}
  {
    hide IndexOk, CountersOk, DocsOk, AnswersOk, Found, Matched, Lists;
  }

  // Once no insertion is pending, an index has a live query under a key once if it belongs
  // there, and not otherwise.
  lemma IndexIsComplete(es: seq<Event>, key: Key, id: QueryID)
    requires IsRun(es)
    ensures Drained(es) && After(es).docs != map[] ==> After(es).adds == {}
    ensures After(es).adds == {} && id in Live(es) ==>
              Occurs(After(es), key, id)
              == if Live(es)[id].kind == key.kind && key.word in Live(es)[id].words then 1 else 0
  {
    if Drained(es) { NoInsertionWhileMatching(es); }
    RunKeepsInv(es);
    LiveIsActive(es);
    var s := After(es);
    hide After, IsRun, Live, CountersOk, DocsOk, Occurs;
    assert Occurs(s, key, id) == if Belongs(s, key, id) && AddJob(id, key.word) !in s.adds then 1 else 0;
  }

  lemma StepQueries(s: State, e: Event)
    requires Enabled(s, e) && Disciplined(s, e)
    ensures Next(s, e).queries ==
            match e
            case StartQuery(id, text, kind, dist) => s.queries[id := Query(kind, dist, TextWords(text), true)]
            case EndQuery(id) => if id in s.queries then s.queries[id := s.queries[id].(active := false)] else s.queries
            case _ => s.queries
    ensures e.StartQuery? ==> SplitsUp(e.text)
  {
  }

  lemma PromisedIsExpected(es: seq<Event>, text: string)
    requires IsRun(es) && SplitsUp(text)
    ensures Matching(After(es).queries, TextWords(text)) == Expected(es, text)
  {
    hide DocMatches;
    LiveIsActive(es);
    GoodWords(text);
  }

  lemma StepPromise(s: State, e: Event, doc: DocID)
    requires Enabled(s, e) && Disciplined(s, e) && doc in Next(s, e).promised
    ensures if e.MatchDocument? && e.doc == doc
            then SplitsUp(e.text) && Next(s, e).promised[doc] == Matching(s.queries, TextWords(e.text))
            else doc in s.promised && Next(s, e).promised[doc] == s.promised[doc]
  {
  }

  // Every promise goes back to the one MatchDocument call of its document.
  lemma {:induction false} PromiseHasCall(es: seq<Event>, doc: DocID) returns (i: nat)
    requires IsRun(es) && doc in After(es).promised
    ensures i < |es| && es[i].MatchDocument? && es[i].doc == doc
    ensures After(es).promised[doc] == Expected(es[..i], es[i].text)
    decreases |es|
  {
    hide Enabled, Disciplined, Next, Matching;
    Unfold(es);
    var init, e := es[..|es| - 1], es[|es| - 1];
    StepPromise(After(init), e, doc);
    if e.MatchDocument? && e.doc == doc {
      i := |es| - 1;
      PromisedIsExpected(init, e.text);
    } else {
      i := PromiseHasCall(init, doc);
      assert es[..i] == init[..i];
    }
  }

  // The answer goes back to the `call`-th event, the submission of its document, and lists in
  // ascending order exactly the queries that were live then and all of whose words match a
  // document word.
  ghost predicate NaiveAnswer(es: seq<Event>, a: Answer, call: nat) {
    && call < |es| && es[call].MatchDocument? && es[call].doc == a.doc
    && Lists(a.ids, Expected(es[..call], es[call].text))
  }

  // The main theorem: whatever the interleaving, what GetNextAvailRes delivers is naive, and so
  // is all it has delivered.
  lemma AnswersAreNaive(es: seq<Event>, a: Answer) returns (call: nat)
    requires IsRun(es) && (a in After(es).delivered || a in After(es).finished)
    ensures NaiveAnswer(es, a, call)
  {
    RunKeepsInv(es);
    hide IsRun, After;
    assert a in After(es).delivered + After(es).finished;
    assert AnswerOk(After(es).promised, a);
    call := PromiseHasCall(es, a.doc);
  }

  lemma {:induction false} LiveOnlyActive(es: seq<Event>)
    ensures forall id :: id in Live(es) ==> Live(es)[id].active
    decreases |es|
  {
    hide WordSet;
    if es != [] { LiveOnlyActive(es[..|es| - 1]); }
  }

  // In terms of the texts alone: an answer names a query if and only if it was live at the call
  // and each of its words is within its distance of some word of the document.
  lemma AnswerNamesIff(es: seq<Event>, a: Answer, call: nat, id: QueryID)
    requires NaiveAnswer(es, a, call)
    ensures var live := Live(es[..call]);
            id in a.ids <==>
            id in live && forall w :: w in live[id].words ==>
              exists d :: d in Words(es[call].text, ' ') && Within(live[id].kind, live[id].dist, w, d)
  {
    var live, words := Live(es[..call]), WordSet(es[call].text);
    LiveOnlyActive(es[..call]);
    hide Live, WordMatch, Within, Words, Ascending;
    if id in live {
      var q := live[id];
      forall w | w in q.words
        ensures (exists d :: d in words && WordMatch(q.kind, q.dist, w, d))
                <==> exists d :: d in Words(es[call].text, ' ') && Within(q.kind, q.dist, w, d)
      {
        forall d ensures WordMatch(q.kind, q.dist, w, d) <==> Within(q.kind, q.dist, w, d) {
          WordMatchIff(q.kind, q.dist, w, d);
        }
      }
    }
  }

  ghost function Smaller(ids: seq<QueryID>, bound: QueryID): set<QueryID> {
    set id | id in ids && id < bound
  }

  // Each identifier stands behind exactly the smaller ones.
  lemma AscendingIff(ids: seq<QueryID>)
    ensures Ascending(ids) <==> forall i :: 0 <= i < |ids| ==> |Smaller(ids, ids[i])| == i
  {
    if Ascending(ids) {
      forall i | 0 <= i < |ids| ensures |Smaller(ids, ids[i])| == i {
        FirstOfAscending(ids, i);
      }
    }
    if forall i :: 0 <= i < |ids| ==> |Smaller(ids, ids[i])| == i {
      forall i, j | 0 <= i < j < |ids| ensures ids[i] < ids[j] {
        if ids[j] <= ids[i] { FewerSmaller(ids, ids[j], ids[i]); }
      }
    }
  }

  lemma {:induction false} FirstOfAscending(ids: seq<QueryID>, i: nat)
    requires Ascending(ids) && i < |ids|
    ensures |Smaller(ids, ids[i])| == i
    decreases i
  {
    if i == 0 {
      assert Smaller(ids, ids[0]) == {};
    } else {
      FirstOfAscending(ids, i - 1);
      assert Smaller(ids, ids[i]) == Smaller(ids, ids[i - 1]) + {ids[i - 1]};
    }
  }

  lemma FewerSmaller(ids: seq<QueryID>, a: QueryID, b: QueryID)
    requires a <= b
    ensures |Smaller(ids, a)| <= |Smaller(ids, b)|
  {
    var rest := Smaller(ids, b) - Smaller(ids, a);
    assert Smaller(ids, b) == Smaller(ids, a) + rest;
  }

  // An ascending list is determined by its members.
  lemma {:induction false} ListIsUnique(a: seq<QueryID>, b: seq<QueryID>, s: set<QueryID>)
    requires Lists(a, s) && Lists(b, s)
    ensures a == b
    decreases |a|
  {
    EmptyList(a, s);
    EmptyList(b, s);
    if a != [] {
      assert a[|a| - 1] in s && a[|a| - 1] in b;
      var x, y := a[|a| - 1], b[|b| - 1];
      assert y in s && y in a;
      assert x == y;
      Shorter(a, s);
      Shorter(b, s);
      ListIsUnique(a[..|a| - 1], b[..|b| - 1], s - {x});
    }
  }

  lemma EmptyList(a: seq<QueryID>, s: set<QueryID>)
    requires Lists(a, s)
    ensures a == [] <==> s == {}
  {
    if a != [] { assert a[0] in a; }
  }

  lemma Shorter(a: seq<QueryID>, s: set<QueryID>)
    requires Lists(a, s) && a != []
    ensures Lists(a[..|a| - 1], s - {a[|a| - 1]})
  {
    var b, x := a[..|a| - 1], a[|a| - 1];
    forall id | id in s - {x} ensures id in b {
      var i :| 0 <= i < |a| && a[i] == id;
      assert b[i] == id;
    }
  }

  // ------------------------------------------------ each document is answered once

  ghost function DocsOf(answers: seq<Answer>): set<DocID> {
    set a | a in answers :: a.doc
  }

  // Every submitted document is being matched, finished or delivered: exactly one of the three,
  // and in the last two with exactly one answer.
  ghost predicate Accounted(s: State) {
    var answers := s.delivered + s.finished;
    && s.promised.Keys == s.docs.Keys + DocsOf(answers)
    && s.docs.Keys !! DocsOf(answers)
    && OneEach(answers)
  }

  // No two answers for one document.
  ghost predicate OneEach(answers: seq<Answer>) {
    forall i, j :: 0 <= i < j < |answers| ==> answers[i].doc != answers[j].doc
  }

  lemma StepKeepsAccount(s: State, e: Event)
    requires Accounted(s) && Enabled(s, e) && Polite(s, e)
    ensures Accounted(Next(s, e))
  {
    hide GoodQuery, GoodDocument, Found, Matched, TextWords, Matching, Jobs, AddResult;
    match e
    case GetNextAvailRes => SameAnswers(s);
    case FinishDoc(doc, ids) => FinishAccounts(s, doc, ids);
    case MatchDocument(doc, _) =>
      assert s.promised.Keys + {doc} == s.docs.Keys + {doc} + DocsOf(s.delivered + s.finished);
    case _ =>
  }

  lemma FinishAccounts(s: State, doc: DocID, ids: seq<QueryID>)
    requires Accounted(s) && Enabled(s, FinishDoc(doc, ids))
    ensures Accounted(Next(s, FinishDoc(doc, ids)))
  {
    hide Lists, Matched, OneEach, DocsOf;
    var t, a := Next(s, FinishDoc(doc, ids)), Answer(doc, ids);
    assert t.delivered + t.finished == s.delivered + s.finished + [a];
    OneMoreAnswer(s.delivered + s.finished, a);
  }

  lemma OneMoreAnswer(answers: seq<Answer>, a: Answer)
    requires OneEach(answers) && a.doc !in DocsOf(answers)
    ensures OneEach(answers + [a]) && DocsOf(answers + [a]) == DocsOf(answers) + {a.doc}
  {
    assert forall b :: b in answers ==> b.doc in DocsOf(answers);
    assert forall b :: b in answers + [a] <==> b in answers || b == a;
    assert forall i :: 0 <= i < |answers| ==> answers[i] in answers;
  }

  lemma {:induction false} EveryDocumentOnce(es: seq<Event>)
    requires IsRun(es)
    ensures Accounted(After(es))
    decreases |es|
  {
    hide Enabled, Disciplined, Next, Accounted;
    Unfold(es);
    if es == [] {
      assert Accounted(INITIAL) by { NothingToAccount(); }
    } else {
      var init, e := es[..|es| - 1], es[|es| - 1];
      EveryDocumentOnce(init);
      DisciplinedIsPolite(After(init), e);
      StepKeepsAccount(After(init), e);
    }
  }

  // The answers of the documents that ended in a run, in order.
  ghost function EndedIn(es: seq<Event>): seq<Answer>
    decreases |es|
  {
    if es == [] then []
    else
      var e := es[|es| - 1];
      EndedIn(es[..|es| - 1]) + if e.FinishDoc? then [Answer(e.doc, e.ids)] else []
  }

  ghost function Gets(es: seq<Event>): nat
    decreases |es|
  {
    if es == [] then 0 else Gets(es[..|es| - 1]) + if es[|es| - 1].GetNextAvailRes? then 1 else 0
  }

  // First ended, first delivered: the calls of GetNextAvailRes have returned the first answers,
  // and the others wait in order.
  lemma {:induction false} AnswersInOrder(es: seq<Event>)
    requires IsRun(es)
    ensures Gets(es) <= |EndedIn(es)|
    ensures After(es).delivered == EndedIn(es)[..Gets(es)] && After(es).finished == EndedIn(es)[Gets(es)..]
    decreases |es|
  {
    hide Enabled, Next, Disciplined;
    Unfold(es);
    if es != [] {
      AnswersInOrder(es[..|es| - 1]);
      StepInOrder(After(es[..|es| - 1]), es[|es| - 1]);
    }
  }

  lemma StepInOrder(s: State, e: Event)
    requires Enabled(s, e)
    ensures var t := Next(s, e);
            if e.GetNextAvailRes? then
              s.finished != [] && t.delivered == s.delivered + [s.finished[0]] && t.finished == s.finished[1..]
            else
              t.delivered == s.delivered && t.finished == s.finished + if e.FinishDoc? then [Answer(e.doc, e.ids)] else []
  {
    hide Found, Matched, Lists, AddResult, TextWords, Jobs, Matching, Hits, Bump;
  }

  lemma NothingToAccount()
    ensures Accounted(INITIAL)
  {
  }

  lemma DisciplinedIsPolite(s: State, e: Event)
    requires Disciplined(s, e)
    ensures Polite(s, e)
  {
  }

  // No document is delivered a second time.
  lemma DeliveredOnce(es: seq<Event>)
    requires IsRun(es) && After(es).finished != []
    ensures After(es).finished[0].doc !in DocsOf(After(es).delivered)
    ensures forall i, j :: 0 <= i < j < |After(es).delivered| ==>
              After(es).delivered[i].doc != After(es).delivered[j].doc
  {
    EveryDocumentOnce(es);
    var s := After(es);
    hide After, IsRun;
    var answers, n := s.delivered + s.finished, |s.delivered|;
    assert answers[n] == s.finished[0];
    assert forall i :: 0 <= i < n ==> answers[i] == s.delivered[i];
  }

  // A client that has got an answer for each document it submitted knows the engine to be idle.
  lemma AllDeliveredMeansIdle(es: seq<Event>)
    requires IsRun(es)
    requires forall i :: 0 <= i < |es| && es[i].MatchDocument? ==> es[i].doc in DocsOf(After(es).delivered)
    ensures After(es).docs == map[] && After(es).finished == []
  {
    EveryDocumentOnce(es);
    var s := After(es);
    forall doc | doc in s.promised ensures doc in DocsOf(s.delivered) {
      var i := PromiseHasCall(es, doc);
    }
    hide IsRun, After;
    assert DocsOf(s.delivered) <= DocsOf(s.delivered + s.finished);
    assert s.docs.Keys == {};
    assert forall a :: a in s.finished ==> a in s.delivered + s.finished && a.doc in DocsOf(s.delivered);
    if s.finished != [] { DeliveredOnce(es); }
  }

  // ------------------------------------------------ the discipline in the client's terms

  ghost predicate StartedBefore(es: seq<Event>, id: QueryID) {
    exists i :: 0 <= i < |es| && es[i].StartQuery? && es[i].id == id
  }

  ghost predicate Submitted(es: seq<Event>, doc: DocID, text: string) {
    exists i :: 0 <= i < |es| && es[i] == MatchDocument(doc, text)
  }

  // What the client can check before a call, from its own calls and the answers it has got: a
  // query may be started when it matches no document whose answer is outstanding.
  ghost predicate ClientKeeps(es: seq<Event>, e: Event)
    requires IsRun(es)
  {
    match e
    case StartQuery(id, text, kind, dist) =>
      && !StartedBefore(es, id) && GoodQuery(text, kind)
      && (forall doc, t :: Submitted(es, doc, t) && doc !in DocsOf(After(es).delivered) ==>
            !DocMatches(Query(kind, dist, WordSet(text), true), WordSet(t)))
    case EndQuery(id) => StartedBefore(es, id) ==> id in Live(es)
    case MatchDocument(doc, text) => GoodDocument(text) && forall t :: !Submitted(es, doc, t)
    case _ => true
  }

  // A client that keeps its side is disciplined.
  lemma ClientKeepsDiscipline(es: seq<Event>, e: Event)
    requires IsRun(es) && ClientKeeps(es, e)
    ensures Disciplined(After(es), e)
  {
    hide IsRun, After, GoodQuery, GoodDocument, DocMatches, Live;
    match e
    case StartQuery(id, text, kind, dist) =>
      if id in After(es).queries { QueryHasStart(es, id); }
      GoodQuerySplits(text, kind);
      forall doc | doc in After(es).docs ensures !DocMatches(Started(e), After(es).docs[doc].words) {
        OutstandingDoc(es, doc);
      }
    case EndQuery(id) =>
      LiveIsActive(es);
      if id in After(es).queries { QueryHasStart(es, id); }
    case MatchDocument(doc, text) =>
      if doc in After(es).promised { PromisedWasSubmitted(es, doc); }
    case _ =>
  }

  // A query may be started while a document is matched, if it does not match it: this is a run,
  // so the theorems above are about it.
  lemma HarmlessStartIsRun(doc: DocID, ws: seq<string>, id: QueryID, vs: seq<string>, kind: MatchType, dist: nat)
    requires ws != [] && forall w :: w in ws ==> ' ' !in w && 4 <= |w| <= 30
    requires vs != [] && forall v :: v in vs ==> ' ' !in v && 4 <= |v| <= 30
    requires !DocMatches(Query(kind, dist, set v | v in vs, true), set w | w in ws)
    ensures IsRun([MatchDocument(doc, Join(ws, ' ')), StartQuery(id, Join(vs, ' '), kind, dist)])
  {
    var d, e := MatchDocument(doc, Join(ws, ' ')), StartQuery(id, Join(vs, ' '), kind, dist);
    JoinedIsGood(ws, Hamming);
    JoinedIsGood(vs, kind);
    assert IsRun([]) && After([]) == INITIAL;
    hide IsRun, After, GoodQuery, GoodDocument, TextWords, Join, DocMatches, Jobs, Matching;
    OneMoreStep([], d);
    assert [] + [d] == [d];
    OneMoreStep([d], e);
    assert [d] + [e] == [d, e];
  }

  lemma GoodQuerySplits(text: string, kind: MatchType)
    requires GoodQuery(text, kind)
    ensures TextWords(text) == WordSet(text)
  {
    GoodWords(text);
  }

  lemma {:induction false} QueryHasStart(es: seq<Event>, id: QueryID)
    requires IsRun(es) && id in After(es).queries
    ensures StartedBefore(es, id)
    decreases |es|
  {
    hide Enabled, Disciplined, Next;
    Unfold(es);
    var init, e := es[..|es| - 1], es[|es| - 1];
    StepQueries(After(init), e);
    if !(e.StartQuery? && e.id == id) {
      QueryHasStart(init, id);
      var i :| 0 <= i < |init| && init[i].StartQuery? && init[i].id == id;
      assert es[i] == init[i];
    }
  }

  lemma PromisedWasSubmitted(es: seq<Event>, doc: DocID)
    requires IsRun(es) && doc in After(es).promised
    ensures exists t :: Submitted(es, doc, t)
  {
    var i := PromiseHasCall(es, doc);
    assert Submitted(es, doc, es[i].text);
  }

  // A document being matched was submitted, with the words it is matched on, and its answer is
  // outstanding.
  lemma OutstandingDoc(es: seq<Event>, doc: DocID)
    requires IsRun(es) && doc in After(es).docs
    ensures exists t :: Submitted(es, doc, t) && After(es).docs[doc].words == WordSet(t)
    ensures doc !in DocsOf(After(es).delivered)
  {
    var i := DocHasCall(es, doc);
    assert Submitted(es, doc, es[i].text);
    EveryDocumentOnce(es);
    assert DocsOf(After(es).delivered) <= DocsOf(After(es).delivered + After(es).finished);
  }

  lemma {:induction false} DocHasCall(es: seq<Event>, doc: DocID) returns (i: nat)
    requires IsRun(es) && doc in After(es).docs
    ensures i < |es| && es[i].MatchDocument? && es[i].doc == doc
    ensures After(es).docs[doc].words == WordSet(es[i].text)
    decreases |es|
  {
    hide Enabled, Disciplined, Next;
    Unfold(es);
    var init, e := es[..|es| - 1], es[|es| - 1];
    StepDocs(After(init), e, doc);
    if e.MatchDocument? && e.doc == doc {
      i := |es| - 1;
      GoodWords(e.text);
    } else {
      i := DocHasCall(init, doc);
    }
  }

  lemma StepDocs(s: State, e: Event, doc: DocID)
    requires Enabled(s, e) && Disciplined(s, e) && doc in Next(s, e).docs
    ensures if e.MatchDocument? && e.doc == doc then SplitsUp(e.text) && Next(s, e).docs[doc].words == TextWords(e.text)
            else doc in s.docs && Next(s, e).docs[doc].words == s.docs[doc].words
  {
  }
}
