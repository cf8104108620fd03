/** The versioned catalog cache: a reader takes the version, looks under that version's key, and on
    a miss reads the database and stores what it found under the key it formed before; a writer
    commits and only then raises the version. Steps of any number of readers and writers interleave;
    entries may expire at any moment. `query` is the database query, any at all, on the query as
    normalised (no keyword is the empty keyword). */
module CatalogCache {
  import opened Options
  import opened CatalogKeys

  /** A cached payload, with the history of how it came about. */
  datatype Entry<P> = Entry(payload: P, version: nat, asked: Query, readAt: nat)

  datatype Phase<P> =
    | Starting
    | Keyed(version: nat)                         // version read, key formed
    | Missed(version: nat)                        // nothing under the key
    | Fetched(version: nat, payload: P, readAt: nat)
    | Answered(result: P, readAt: nat, hit: bool)
    | NotFound(missedAt: nat)

  /** `seen`: the writers whose bump was over when this reader read the version. */
  datatype Reader<P> = Reader(asked: Query, seen: set<nat>, phase: Phase<P>)

  /** Writer w made history[w + 1]; it bumped the version to `bumped`, if it has. */
  datatype State<D, P> = State(
    history: seq<D>,
    writers: seq<Option<nat>>,
    version: Option<nat>,         // absent until someone sets it
    cache: map<string, Entry<P>>,
    readers: seq<Reader<P>>)

  datatype Label<D> =
    | StartRead(asked: Query)
    | ReadVersion(r: nat)
    | InitVersion                 // SETNX by a reader that found no version
    | GetCached(r: nat)
    | Fetch(r: nat)
    | Store(r: nat)
    | Write(db: D)
    | Bump(w: nat)
    | Expire(key: string)

  function Current<D, P>(s: State<D, P>): nat { if s.version.Some? then s.version.value else 0 }

  function Ask<D, P>(query: (D, Query) -> Option<P>, db: D, q: Query): Option<P> { query(db, Normal(q)) }

  predicate Steps<D, P>(s: State<D, P>, l: Label<D>) {
    match l
    case StartRead(_) => true
    case ReadVersion(r) => r < |s.readers| && s.readers[r].phase.Starting?
    case InitVersion => true
    case GetCached(r) => r < |s.readers| && s.readers[r].phase.Keyed?
    case Fetch(r) => r < |s.readers| && s.readers[r].phase.Missed? && s.history != []
    case Store(r) => r < |s.readers| && s.readers[r].phase.Fetched?
    case Write(_) => true
    case Bump(w) => w < |s.writers| && s.writers[w].None?
    case Expire(_) => true
  }

  function BumpedWriters(writers: seq<Option<nat>>): set<nat> {
    set w: nat | w < |writers| && writers[w].Some?
  }

  function MoveReader<D, P>(s: State<D, P>, r: nat, phase: Phase<P>): State<D, P>
    requires r < |s.readers|
  {
    s.(readers := s.readers[r := s.readers[r].(phase := phase)])
  }

  function Step<D, P>(query: (D, Query) -> Option<P>, s: State<D, P>, l: Label<D>): State<D, P>
    requires Steps(s, l)
  {
    match l
    case StartRead(q) => s.(readers := s.readers + [Reader(q, {}, Starting)])
    case ReadVersion(r) =>
      s.(readers := s.readers[r := Reader(s.readers[r].asked, BumpedWriters(s.writers), Keyed(Current(s)))])
    case InitVersion => s.(version := Some(Current(s)))
    case GetCached(r) =>
      var key := Key(s.readers[r].phase.version, s.readers[r].asked);
      if key in s.cache then MoveReader(s, r, Answered(s.cache[key].payload, s.cache[key].readAt, true))
      else MoveReader(s, r, Missed(s.readers[r].phase.version))
    case Fetch(r) =>
      var now := |s.history| - 1;
      var found := Ask(query, s.history[now], s.readers[r].asked);
      MoveReader(s, r, if found.Some? then Fetched(s.readers[r].phase.version, found.value, now) else NotFound(now))
    case Store(r) =>
      var q, f := s.readers[r].asked, s.readers[r].phase;
      MoveReader(s, r, Answered(f.payload, f.readAt, false)).(
        cache := s.cache[Key(f.version, q) := Entry(f.payload, f.version, q, f.readAt)])
    case Write(db) => s.(history := s.history + [db], writers := s.writers + [None])
    case Bump(w) => s.(version := Some(Current(s) + 1), writers := s.writers[w := Some(Current(s) + 1)])
    case Expire(key) => s.(cache := s.cache - {key})
  }

  function Exec<D, P>(query: (D, Query) -> Option<P>, db: D, ls: seq<Label<D>>): Option<State<D, P>> {
    if ls == [] then Some(State([db], [], None, map[], []))
    else
      match Exec(query, db, ls[..|ls| - 1])
      case Some(s) => if Steps(s, ls[|ls| - 1]) then Some(Step(query, s, ls[|ls| - 1])) else None
      case None => None
  }

  // ---- what every step keeps ---------------------------------------------------------------------------

  /** A database read at history[readAt] came after every commit announced up to `version`. */
  ghost predicate Recent<D, P>(s: State<D, P>, version: nat, readAt: nat) {
    && readAt < |s.history|
    && forall w :: 0 <= w < |s.writers| && s.writers[w].Some? && s.writers[w].value <= version ==> w + 1 <= readAt
  }

  ghost predicate EntryOk<D, P>(query: (D, Query) -> Option<P>, s: State<D, P>, key: string, e: Entry<P>) {
    && key == Key(e.version, e.asked) && e.version <= Current(s)
    && Recent(s, e.version, e.readAt)
    && Ask(query, s.history[e.readAt], e.asked) == Some(e.payload)
  }

  ghost predicate Aware<D, P>(s: State<D, P>, r: Reader<P>, version: nat) {
    && version <= Current(s)
    && forall w :: 0 <= w < |s.writers| && w in r.seen ==> s.writers[w].Some? && s.writers[w].value <= version
  }

  ghost predicate ReaderOk<D, P>(query: (D, Query) -> Option<P>, s: State<D, P>, r: Reader<P>) {
    && (forall w :: w in r.seen ==> w < |s.writers|)
    && match r.phase
       case Starting => r.seen == {}
       case Keyed(v) => Aware(s, r, v)
       case Missed(v) => Aware(s, r, v)
       case Fetched(v, payload, readAt) =>
         && Aware(s, r, v) && Recent(s, v, readAt)
         && Ask(query, s.history[readAt], r.asked) == Some(payload)
       case Answered(result, readAt, _) =>
         && readAt < |s.history| && Ask(query, s.history[readAt], r.asked) == Some(result)
         && (forall w :: w in r.seen ==> w + 1 <= readAt)
       case NotFound(missedAt) =>
         && missedAt < |s.history| && Ask(query, s.history[missedAt], r.asked) == None
         && (forall w :: w in r.seen ==> w + 1 <= missedAt)
  }

  ghost predicate Inv<D, P>(query: (D, Query) -> Option<P>, s: State<D, P>) {
    && |s.history| == |s.writers| + 1
    && (forall w :: 0 <= w < |s.writers| && s.writers[w].Some? ==> s.writers[w].value <= Current(s))
    && (forall key :: key in s.cache ==> EntryOk(query, s, key, s.cache[key]))
    && (forall r :: 0 <= r < |s.readers| ==> ReaderOk(query, s, s.readers[r]))
  }

  /** Nothing but the readers and the cache may differ. */
  predicate SameDb<D(==), P>(s: State<D, P>, v: State<D, P>) {
    v.history == s.history && v.writers == s.writers && v.version == s.version
  }

  lemma ReaderUnmoved<D, P>(query: (D, Query) -> Option<P>, s: State<D, P>, v: State<D, P>, x: Reader<P>)
    requires SameDb(s, v) && ReaderOk(query, s, x)
    ensures ReaderOk(query, v, x)
  {
  }

  lemma EntryUnmoved<D, P>(query: (D, Query) -> Option<P>, s: State<D, P>, v: State<D, P>, key: string, e: Entry<P>)
    requires SameDb(s, v) && EntryOk(query, s, key, e)
    ensures EntryOk(query, v, key, e)
  {
  }

  /** A step that changes one reader, and perhaps one entry, rightly. */
  lemma ReaderMoves<D, P>(query: (D, Query) -> Option<P>, s: State<D, P>, v: State<D, P>, r: nat)
    requires Inv(query, s) && SameDb(s, v) && r < |s.readers| == |v.readers|
    requires v.readers == s.readers[r := v.readers[r]] && ReaderOk(query, s, v.readers[r])
    requires forall key :: key in v.cache ==> EntryOk(query, s, key, v.cache[key])
    ensures Inv(query, v)
  {
    forall key | key in v.cache ensures EntryOk(query, v, key, v.cache[key]) {
      EntryUnmoved(query, s, v, key, v.cache[key]);
    }
    forall q | 0 <= q < |v.readers| ensures ReaderOk(query, v, v.readers[q]) {
      if q != r { assert v.readers[q] == s.readers[q] && ReaderOk(query, s, s.readers[q]); }
      ReaderUnmoved(query, s, v, v.readers[q]);
    }
  }

  /** A hit: same key, so same version and same query, so the payload answers this reader too. */
  lemma HitAnswers<D, P>(query: (D, Query) -> Option<P>, s: State<D, P>, x: Reader<P>, e: Entry<P>)
    requires x.phase.Keyed? && ReaderOk(query, s, x) && EntryOk(query, s, Key(x.phase.version, x.asked), e)
    ensures ReaderOk(query, s, x.(phase := Answered(e.payload, e.readAt, true)))
  {
    KeysIdentify(e.version, x.phase.version, e.asked, x.asked);
  }

  lemma HitKeeps<D, P>(query: (D, Query) -> Option<P>, s: State<D, P>, r: nat)
    requires Inv(query, s) && Steps(s, GetCached(r))
    ensures Inv(query, Step(query, s, GetCached(r)))
  {
    var x := s.readers[r];
    assert ReaderOk(query, s, x);
    var key := Key(x.phase.version, x.asked);
    if key in s.cache { HitAnswers(query, s, x, s.cache[key]); }
    ReaderMoves(query, s, Step(query, s, GetCached(r)), r);
  }

  lemma ReadVersionKeeps<D, P>(query: (D, Query) -> Option<P>, s: State<D, P>, r: nat)
    requires Inv(query, s) && Steps(s, ReadVersion(r))
    ensures Inv(query, Step(query, s, ReadVersion(r)))
  {
    ReaderMoves(query, s, Step(query, s, ReadVersion(r)), r);
  }

  lemma FetchKeeps<D, P>(query: (D, Query) -> Option<P>, s: State<D, P>, r: nat)
    requires Inv(query, s) && Steps(s, Fetch(r))
    ensures Inv(query, Step(query, s, Fetch(r)))
  {
    assert ReaderOk(query, s, s.readers[r]);
    ReaderMoves(query, s, Step(query, s, Fetch(r)), r);
  }

  lemma StoreKeeps<D, P>(query: (D, Query) -> Option<P>, s: State<D, P>, r: nat)
    requires Inv(query, s) && Steps(s, Store(r))
    ensures Inv(query, Step(query, s, Store(r)))
  {
    assert ReaderOk(query, s, s.readers[r]);
    ReaderMoves(query, s, Step(query, s, Store(r)), r);
  }

  lemma NewReaderKeeps<D, P>(query: (D, Query) -> Option<P>, s: State<D, P>, asked: Query)
    requires Inv(query, s)
    ensures Inv(query, Step(query, s, StartRead(asked)))
  {
    var v := Step(query, s, StartRead(asked));
    forall key | key in v.cache ensures EntryOk(query, v, key, v.cache[key]) {
      EntryUnmoved(query, s, v, key, v.cache[key]);
    }
    forall q | 0 <= q < |v.readers| ensures ReaderOk(query, v, v.readers[q]) {
      if q < |s.readers| { ReaderUnmoved(query, s, v, v.readers[q]); }
    }
  }

  /** A write, a bump or the first version: what was read before stays what it was. */
  lemma ReaderSurvives<D, P>(query: (D, Query) -> Option<P>, s: State<D, P>, l: Label<D>, x: Reader<P>)
    requires Inv(query, s) && Steps(s, l) && (l.Write? || l.Bump? || l.InitVersion?) && ReaderOk(query, s, x)
    ensures ReaderOk(query, Step(query, s, l), x)
  {
  }

  lemma EntrySurvives<D, P>(query: (D, Query) -> Option<P>, s: State<D, P>, l: Label<D>, key: string, e: Entry<P>)
    requires Inv(query, s) && Steps(s, l) && (l.Write? || l.Bump? || l.InitVersion?) && EntryOk(query, s, key, e)
    ensures EntryOk(query, Step(query, s, l), key, e)
  {
  }

  lemma WriterStepKeeps<D, P>(query: (D, Query) -> Option<P>, s: State<D, P>, l: Label<D>)
    requires Inv(query, s) && Steps(s, l) && (l.Write? || l.Bump? || l.InitVersion?)
    ensures Inv(query, Step(query, s, l))
  {
    var v := Step(query, s, l);
    forall key | key in v.cache ensures EntryOk(query, v, key, v.cache[key]) {
      EntrySurvives(query, s, l, key, s.cache[key]);
    }
    forall q | 0 <= q < |v.readers| ensures ReaderOk(query, v, v.readers[q]) {
      ReaderSurvives(query, s, l, s.readers[q]);
    }
  }

  lemma ExpireKeeps<D, P>(query: (D, Query) -> Option<P>, s: State<D, P>, key: string)
    requires Inv(query, s)
    ensures Inv(query, Step(query, s, Expire(key)))
  {
    var v := Step(query, s, Expire(key));
    forall k | k in v.cache ensures EntryOk(query, v, k, v.cache[k]) {
      EntryUnmoved(query, s, v, k, s.cache[k]);
    }
    forall q | 0 <= q < |v.readers| ensures ReaderOk(query, v, v.readers[q]) {
      ReaderUnmoved(query, s, v, s.readers[q]);
    }
  }

  lemma StepKeeps<D, P>(query: (D, Query) -> Option<P>, s: State<D, P>, l: Label<D>)
    requires Inv(query, s) && Steps(s, l)
    ensures Inv(query, Step(query, s, l))
  {
    match l
    case StartRead(asked) => NewReaderKeeps(query, s, asked);
    case ReadVersion(r) => ReadVersionKeeps(query, s, r);
    case GetCached(r) => HitKeeps(query, s, r);
    case Fetch(r) => FetchKeeps(query, s, r);
    case Store(r) => StoreKeeps(query, s, r);
    case Expire(key) => ExpireKeeps(query, s, key);
    case _ => WriterStepKeeps(query, s, l);
  }

  lemma {:induction false} EveryRunKeeps<D, P>(query: (D, Query) -> Option<P>, db: D, ls: seq<Label<D>>)
    requires Exec(query, db, ls).Some?
    ensures Inv(query, Exec(query, db, ls).value)
  {
    if ls != [] {
      EveryRunKeeps(query, db, ls[..|ls| - 1]);
      StepKeeps(query, Exec(query, db, ls[..|ls| - 1]).value, ls[|ls| - 1]);
    }
  }

  // ---- theorems --------------------------------------------------------------------------------------------

  /** Freshness: an answer, from the cache or not, is what the database gave for this very query at
      some moment no earlier than any write whose bump was over when the reader read the version; and
      "not found" is answered only when, at such a moment, the database had nothing. */
  lemma AnswersAreFresh<D, P>(query: (D, Query) -> Option<P>, db: D, ls: seq<Label<D>>, r: nat)
    requires Exec(query, db, ls).Some? && r < |Exec(query, db, ls).value.readers|
    ensures var s := Exec(query, db, ls).value; var reader := s.readers[r];
      && (reader.phase.Answered? ==>
            && reader.phase.readAt < |s.history|
            && Ask(query, s.history[reader.phase.readAt], reader.asked) == Some(reader.phase.result)
            && (forall w :: w in reader.seen ==> w + 1 <= reader.phase.readAt))
      && (reader.phase.NotFound? ==>
            && reader.phase.missedAt < |s.history|
            && Ask(query, s.history[reader.phase.missedAt], reader.asked) == None
            && (forall w :: w in reader.seen ==> w + 1 <= reader.phase.missedAt))
  {
    EveryRunKeeps(query, db, ls);
    var s := Exec(query, db, ls).value;
    assert ReaderOk(query, s, s.readers[r]);
  }

  /** `seen` is what it should be: every writer whose bump is over when the reader reads the version. */
  lemma ReadVersionSees<D, P>(query: (D, Query) -> Option<P>, s: State<D, P>, r: nat)
    requires Steps(s, ReadVersion(r))
    ensures var x := Step(query, s, ReadVersion(r)).readers[r];
      && x.asked == s.readers[r].asked && x.phase == Keyed(if s.version.Some? then s.version.value else 0)
      && forall w: nat :: w in x.seen <==> w < |s.writers| && s.writers[w].Some?
  {
  }

  predicate CachedFor<D, P>(s: State<D, P>, key: string, version: nat, q: Query) {
    key in s.cache && s.cache[key].version == version && Normal(s.cache[key].asked) == Normal(q)
  }

  /** A reader hits exactly when an answer to its query, as normalised, is cached under its version. */
  lemma HitsExactlyWhen<D, P>(query: (D, Query) -> Option<P>, db: D, ls: seq<Label<D>>, r: nat)
    requires Exec(query, db, ls).Some? && Steps(Exec(query, db, ls).value, GetCached(r))
    ensures var s := Exec(query, db, ls).value; var x := s.readers[r];
      var y := Step(query, s, GetCached(r)).readers[r];
      && y.asked == x.asked && y.seen == x.seen
      && (y.phase.Answered? <==> exists key :: CachedFor(s, key, x.phase.version, x.asked))
      && (!y.phase.Answered? ==> y.phase == Missed(x.phase.version))
      && (forall key :: CachedFor(s, key, x.phase.version, x.asked) ==>
            y.phase == Answered(s.cache[key].payload, s.cache[key].readAt, true))
  {
    var s := Exec(query, db, ls).value;
    EveryRunKeeps(query, db, ls);
    var x := s.readers[r];
    forall key | key in s.cache
      ensures CachedFor(s, key, x.phase.version, x.asked) <==> key == Key(x.phase.version, x.asked)
    {
      assert EntryOk(query, s, key, s.cache[key]);
      KeysIdentify(s.cache[key].version, x.phase.version, s.cache[key].asked, x.asked);
    }
  }

  /** What a reader fetches it stores for the next one, and answers with. */
  lemma StoredIsCached<D, P>(query: (D, Query) -> Option<P>, s: State<D, P>, r: nat)
    requires Steps(s, Store(r))
    ensures var x, v := s.readers[r], Step(query, s, Store(r));
      && v.readers[r].phase == Answered(x.phase.payload, x.phase.readAt, false)
      && (exists key :: CachedFor(v, key, x.phase.version, x.asked) && v.cache[key].payload == x.phase.payload)
  {
    var x, v := s.readers[r], Step(query, s, Store(r));
    assert CachedFor(v, Key(x.phase.version, x.asked), x.phase.version, x.asked);
  }

  /** A reader that missed asks the database as it is now. */
  lemma FetchAsksNow<D, P>(query: (D, Query) -> Option<P>, s: State<D, P>, r: nat)
    requires Steps(s, Fetch(r))
    ensures var x, now := s.readers[r], |s.history| - 1;
      Step(query, s, Fetch(r)).readers[r].phase ==
      match query(s.history[now], Normal(x.asked))
      case Some(payload) => Fetched(x.phase.version, payload, now)
      case None => NotFound(now)
  {
  }

  /** Coherence: once the latest write has been announced, whatever is still in the cache under the
      current version is what the database would answer now. Earlier writers that never announced
      theirs do no harm. */
  lemma CurrentEntriesAgree<D, P>(query: (D, Query) -> Option<P>, db: D, ls: seq<Label<D>>, q: Query)
    requires Exec(query, db, ls).Some?
    requires var s := Exec(query, db, ls).value; s.writers == [] || s.writers[|s.writers| - 1].Some?
    requires var s := Exec(query, db, ls).value; Key(Current(s), q) in s.cache
    ensures var s := Exec(query, db, ls).value;
      s.history != [] && Ask(query, s.history[|s.history| - 1], q) == Some(s.cache[Key(Current(s), q)].payload)
  {
    EveryRunKeeps(query, db, ls);
    var s := Exec(query, db, ls).value;
    var key := Key(Current(s), q);
    var e := s.cache[key];
    assert EntryOk(query, s, key, e);
    KeysIdentify(e.version, Current(s), e.asked, q);
    assert e.readAt == |s.history| - 1;
  }

  // ---- when it falls behind ----------------------------------------------------------------------------------

  ghost predicate AgreesNow<D, P>(query: (D, Query) -> Option<P>, s: State<D, P>, e: Entry<P>) {
    s.history != [] && Ask(query, s.history[|s.history| - 1], e.asked) == Some(e.payload)
  }

  ghost predicate Coherent<D, P>(query: (D, Query) -> Option<P>, s: State<D, P>) {
    forall key :: key in s.cache && s.cache[key].version == Current(s) ==> AgreesNow(query, s, s.cache[key])
  }

  ghost predicate ChangesEntry<D, P>(query: (D, Query) -> Option<P>, s: State<D, P>, db: D, key: string) {
    key in s.cache && s.cache[key].version == Current(s) && Ask(query, db, s.cache[key].asked) != Some(s.cache[key].payload)
  }

  /** A commit that changes the answer to a query cached under the current version; or a reader that
      stores under the current version what is no longer the answer. */
  ghost predicate Outdates<D, P>(query: (D, Query) -> Option<P>, s: State<D, P>, l: Label<D>)
    requires Steps(s, l)
  {
    match l
    case Write(db) => exists key :: ChangesEntry(query, s, db, key)
    case Store(r) =>
      var f := s.readers[r].phase;
      && f.version == Current(s)
      && (s.history == [] || Ask(query, s.history[|s.history| - 1], s.readers[r].asked) != Some(f.payload))
    case _ => false
  }

  lemma WriteOutdates<D, P>(query: (D, Query) -> Option<P>, s: State<D, P>, db: D)
    requires Coherent(query, s)
    ensures Coherent(query, Step(query, s, Write(db))) <==> !Outdates(query, s, Write(db))
  {
    var v := Step(query, s, Write(db));
    forall key | key in s.cache && s.cache[key].version == Current(s)
      ensures AgreesNow(query, v, s.cache[key]) <==> !ChangesEntry(query, s, db, key)
    {
    }
  }

  lemma StoreOutdates<D, P>(query: (D, Query) -> Option<P>, s: State<D, P>, r: nat)
    requires Coherent(query, s) && Steps(s, Store(r))
    ensures Coherent(query, Step(query, s, Store(r))) <==> !Outdates(query, s, Store(r))
  {
    var v, f, q := Step(query, s, Store(r)), s.readers[r].phase, s.readers[r].asked;
    var key := Key(f.version, q);
    assert v.cache[key] == Entry(f.payload, f.version, q, f.readAt);
    assert forall k :: k in s.cache && k != key ==> v.cache[k] == s.cache[k];
  }

  /** No new entries, the same database, the same version or one that has no entries yet. */
  lemma FewerStayCoherent<D, P>(query: (D, Query) -> Option<P>, s: State<D, P>, v: State<D, P>)
    requires Coherent(query, s) && v.history == s.history && Current(v) >= Current(s)
    requires forall key :: key in v.cache ==> key in s.cache && v.cache[key] == s.cache[key]
    requires forall key :: key in s.cache ==> s.cache[key].version <= Current(s)
    ensures Coherent(query, v)
  {
  }

  lemma OtherStepsAddNothing<D, P>(query: (D, Query) -> Option<P>, s: State<D, P>, l: Label<D>)
    requires Steps(s, l) && !l.Write? && !l.Store?
    ensures var v := Step(query, s, l);
      && v.history == s.history && Current(v) >= Current(s)
      && (forall key :: key in v.cache ==> key in s.cache && v.cache[key] == s.cache[key])
  {
  }

  lemma OtherStepsStayCoherent<D, P>(query: (D, Query) -> Option<P>, s: State<D, P>, l: Label<D>)
    requires Inv(query, s) && Coherent(query, s) && Steps(s, l) && !l.Write? && !l.Store?
    ensures Coherent(query, Step(query, s, l))
  {
    forall key | key in s.cache ensures s.cache[key].version <= Current(s) {
      assert EntryOk(query, s, key, s.cache[key]);
    }
    OtherStepsAddNothing(query, s, l);
    FewerStayCoherent(query, s, Step(query, s, l));
  }

  /** In any reachable state in which the current entries agree with the database, the next step keeps
      them in agreement unless it is one of those two. A bump always does: nothing is cached under a
      version that is only now announced. */
  lemma WhatOutdates<D, P>(query: (D, Query) -> Option<P>, db: D, ls: seq<Label<D>>, l: Label<D>)
    requires Exec(query, db, ls).Some? && Steps(Exec(query, db, ls).value, l) && Coherent(query, Exec(query, db, ls).value)
    ensures Coherent(query, Step(query, Exec(query, db, ls).value, l)) <==> !Outdates(query, Exec(query, db, ls).value, l)
  {
    var s := Exec(query, db, ls).value;
    EveryRunKeeps(query, db, ls);
    if l.Write? {
      WriteOutdates(query, s, l.db);
    } else if l.Store? {
      StoreOutdates(query, s, l.r);
    } else {
      OtherStepsStayCoherent(query, s, l);
    }
  }

  // ---- between commit and bump the cache may be behind ---------------------------------------------------------

  function Whole(db: int, q: Query): Option<int> { Some(db) }

  lemma Ran<D, P>(query: (D, Query) -> Option<P>, db: D, ls: seq<Label<D>>, s: State<D, P>, l: Label<D>)
    returns (ms: seq<Label<D>>)
    requires Exec(query, db, ls) == Some(s) && Steps(s, l)
    ensures Exec(query, db, ms) == Some(Step(query, s, l))
  {
    ms := ls + [l];
    assert ms[..|ls|] == ls;
  }

  /** One reader, nothing cached, nothing written. */
  function Reading(q: Query, phase: Phase<int>): State<int, int> {
    State([1], [], None, map[], [Reader(q, {}, phase)])
  }

  lemma ReadingMoves(q: Query, phase: Phase<int>, next: Phase<int>)
    ensures MoveReader(Reading(q, phase), 0, next) == Reading(q, next)
  {
  }

  lemma ReadVersionStep(q: Query)
    ensures Step(Whole, Reading(q, Starting), ReadVersion(0)) == Reading(q, Keyed(0))
  {
    assert BumpedWriters([]) == {};
  }

  lemma FirstRead(q: Query) returns (ls: seq<Label<int>>)
    ensures Exec(Whole, 1, ls) == Some(Reading(q, Fetched(0, 1, 0)))
  {
    var start: State<int, int> := State([1], [], None, map[], []);
    ls := Ran(Whole, 1, [], start, StartRead(q));
    assert Step(Whole, start, StartRead(q)) == Reading(q, Starting);
    ReadVersionStep(q);
    ls := Ran(Whole, 1, ls, Reading(q, Starting), ReadVersion(0));
    ReadingMoves(q, Keyed(0), Missed(0));
    ls := Ran(Whole, 1, ls, Reading(q, Keyed(0)), GetCached(0));
    ReadingMoves(q, Missed(0), Fetched(0, 1, 0));
    ls := Ran(Whole, 1, ls, Reading(q, Missed(0)), Fetch(0));
  }

  /** The condition of CurrentEntriesAgree is needed: with the latest write still unannounced, an
      entry under the current version can differ from the database. */
  lemma UnannouncedWriteIsMissed(q: Query) returns (ls: seq<Label<int>>)
    ensures Exec(Whole, 1, ls).Some?
    ensures var s := Exec(Whole, 1, ls).value;
      && s.writers == [None] && Key(Current(s), q) in s.cache
      && s.history == [1, 2] && s.cache[Key(Current(s), q)].payload == 1
  {
    ls := FirstRead(q);
    var s := Reading(q, Fetched(0, 1, 0));
    ls := Ran(Whole, 1, ls, s, Store(0));
    ls := Ran(Whole, 1, ls, Step(Whole, s, Store(0)), Write(2));
  }
}
