/** Outbox relay and audit sink. Any number of relay instances read pages of pending rows, send
    them one by one and write their copies back; the broker redelivers at will; the consumer
    upserts by message id and acknowledges whatever happened. */
module OutboxRelay {
  import opened Options
  import opened Paging
  import opened OrderSaga

  datatype Row = Row(event: Event, published: bool, attempts: nat, publishedAt: Option<int>, failed: bool)

  predicate IsPending(r: Row) { !r.published }

  /** The smaller of fifty and the batch size, which is at least one. */
  function PageLimit(batchSize: int): (n: nat)
    ensures 1 <= n <= 50 && (n <= batchSize || n == 1) && (n >= batchSize || n == 50)
  {
    var b := if batchSize < 1 then 1 else batchSize;
    if b < 50 then b else 50
  }

  /** findTop50ByStatusOrderByIdAsc, cut to the batch size. */
  function Page(rows: seq<Row>, batchSize: int): (ids: seq<nat>)
    ensures Selects(IsPending, rows, ids)
    ensures |ids| == if Count(IsPending, rows) < PageLimit(batchSize) then Count(IsPending, rows) else PageLimit(batchSize)
    ensures forall i :: 0 <= i < |rows| && IsPending(rows[i]) ==> TakenOrLate(ids, PageLimit(batchSize), i)
  {
    FirstWhereMeans(IsPending, rows, PageLimit(batchSize));
    FirstWhere(IsPending, rows, PageLimit(batchSize))
  }

  /** publish(): a row after one attempt. */
  function Tried(r: Row, outcome: Outcome, now: int): Row {
    if outcome == Done then r.(published := true, publishedAt := Some(now), failed := false, attempts := r.attempts + 1)
    else r.(failed := true, attempts := r.attempts + 1)
  }

  function NewRow(e: Event): Row { Row(e, false, 0, None, false) }

  // ---- one pass, one instance ------------------------------------------------------------------------

  /** The rows after an uninterrupted, committed pass over the page. */
  function Passed(rows: seq<Row>, page: seq<nat>, reply: nat -> Outcome, now: int): seq<Row>
    requires forall k :: 0 <= k < |page| ==> page[k] < |rows|
  {
    if page == [] then rows
    else
      var last := page[|page| - 1];
      var before := Passed(rows, page[..|page| - 1], reply, now);
      if last < |before| then before[last := Tried(before[last], reply(last), now)] else before
  }

  function SentBy(rows: seq<Row>, page: seq<nat>, reply: nat -> Outcome): seq<Event>
    requires forall k :: 0 <= k < |page| ==> page[k] < |rows|
  {
    if page == [] then []
    else
      var last := page[|page| - 1];
      SentBy(rows, page[..|page| - 1], reply) + if reply(last) == Failed then [] else [rows[last].event]
  }

  /** A row after one attempt, column by column. */
  predicate Attempted(before: Row, after: Row, outcome: Outcome, now: int) {
    && after.event == before.event && after.attempts == before.attempts + 1
    && (outcome == Done ==> after.published && after.publishedAt == Some(now) && !after.failed)
    && (outcome != Done ==> after.published == before.published && after.publishedAt == before.publishedAt && after.failed)
  }

  /** Each row of the page is attempted once; every other row is left alone. */
  lemma {:induction false} PassedMeans(rows: seq<Row>, page: seq<nat>, reply: nat -> Outcome, now: int)
    requires forall k :: 0 <= k < |page| ==> page[k] < |rows|
    requires forall j, k :: 0 <= j < k < |page| ==> page[j] < page[k]
    ensures var after := Passed(rows, page, reply, now);
      && |after| == |rows|
      && (forall i :: 0 <= i < |rows| ==> after[i] == if i in page then Tried(rows[i], reply(i), now) else rows[i])
      && (forall i :: 0 <= i < |rows| && i in page ==> Attempted(rows[i], after[i], reply(i), now))
  {
    if page != [] {
      var front, last := page[..|page| - 1], page[|page| - 1];
      PassedMeans(rows, front, reply, now);
      assert page == front + [last];
    }
  }

  lemma PassedNext(rows: seq<Row>, page: seq<nat>, i: nat, reply: nat -> Outcome, now: int)
    requires Selects(IsPending, rows, page) && i < |page|
    ensures |Passed(rows, page[..i], reply, now)| == |rows| && Passed(rows, page[..i], reply, now)[page[i]] == rows[page[i]]
    ensures Passed(rows, page[..i + 1], reply, now)
         == Passed(rows, page[..i], reply, now)[page[i] := Tried(rows[page[i]], reply(page[i]), now)]
    ensures SentBy(rows, page[..i + 1], reply)
         == SentBy(rows, page[..i], reply) + if reply(page[i]) == Failed then [] else [rows[page[i]].event]
  {
    PassedMeans(rows, page[..i], reply, now);
    assert page[..i + 1][..i] == page[..i];
  }

  class OutboxTable {
    var rows: seq<Row>
    var sent: seq<Event>

    constructor ()
      ensures rows == [] && sent == []
    {
      rows, sent := [], [];
    }

    /** enqueue: a pending row, never attempted, at the end of the table. */
    method Enqueue(e: Event)
      modifies this
      ensures rows == old(rows) + [NewRow(e)] && sent == old(sent)
    {
      rows := rows + [Row(e, false, 0, None, false)];
    }

    /** publish() for each row of the page, on managed copies. */
    method PublishBatch(page: seq<nat>, reply: nat -> Outcome, now: int) returns (managed: seq<Row>)
      requires Selects(IsPending, rows, page)
      modifies this`sent
      ensures managed == Passed(rows, page, reply, now)
      ensures sent == old(sent) + SentBy(rows, page, reply)
    {
      managed := rows;
      var i := 0;
      while i < |page|
        invariant 0 <= i <= |page|
        invariant managed == Passed(rows, page[..i], reply, now)
        invariant sent == old(sent) + SentBy(rows, page[..i], reply)
      {
        PassedNext(rows, page, i, reply, now);
        var id := page[i];
        if reply(id) != Failed {
          sent := sent + [managed[id].event];
        }
        managed := managed[id := Tried(managed[id], reply(id), now)];
        i := i + 1;
      }
      assert page[..|page|] == page;
    }

    /** relayPendingEvents: the batch loop changes managed rows; they reach the table on commit. */
    method RelayPendingEvents(batchSize: int, reply: nat -> Outcome, now: int, commits: bool)
      modifies this
      ensures var page := Page(old(rows), batchSize);
        && sent == old(sent) + SentBy(old(rows), page, reply)
        && rows == if commits then Passed(old(rows), page, reply, now) else old(rows)
    {
      var page := Page(rows, batchSize);
      var managed := PublishBatch(page, reply, now);
      if commits {
        rows := managed;
      }
    }
  }

  /** A pass whose sends all work takes a full page off the pending rows. */
  lemma {:induction false} PassPublishes(rows: seq<Row>, page: seq<nat>, reply: nat -> Outcome, now: int)
    requires Selects(IsPending, rows, page)
    requires forall k :: 0 <= k < |page| ==> reply(page[k]) == Done
    ensures Count(IsPending, Passed(rows, page, reply, now)) == Count(IsPending, rows) - |page|
  {
    if page != [] {
      var front, last := page[..|page| - 1], page[|page| - 1];
      PassPublishes(rows, front, reply, now);
      PassedMeans(rows, front, reply, now);
      var before := Passed(rows, front, reply, now);
      assert before[last] == rows[last];
      CountUpdate(IsPending, before, last, Tried(before[last], reply(last), now));
    }
  }

  const ALWAYS: nat -> Outcome := (i: nat) => Done

  function Passes(rows: seq<Row>, batchSize: int, k: nat): seq<Row> {
    if k == 0 then rows
    else
      var before := Passes(rows, batchSize, k - 1);
      Passed(before, Page(before, batchSize), ALWAYS, 0)
  }

  /** Passes in which every send works take n pending rows off page by page: with BatchesDrain, all
      are published after ceil(n / page) passes. */
  lemma {:induction false} RelayDrains(rows: seq<Row>, batchSize: int, k: nat)
    ensures Count(IsPending, Passes(rows, batchSize, k)) == AfterBatches(Count(IsPending, rows), PageLimit(batchSize), k)
  {
    if k > 0 {
      RelayDrains(rows, batchSize, k - 1);
      var before := Passes(rows, batchSize, k - 1);
      PassPublishes(before, Page(before, batchSize), ALWAYS, 0);
    }
  }

  lemma NotTaken(rows: seq<Row>, batchSize: int, i: nat)
    requires i < |rows| && rows[i].published
    ensures i !in Page(rows, batchSize)
  {
  }

  lemma {:induction false} SamePending(a: seq<Row>, b: seq<Row>, limit: nat)
    requires |a| == |b| && forall i :: 0 <= i < |a| ==> a[i].published == b[i].published
    ensures FirstWhere(IsPending, a, limit) == FirstWhere(IsPending, b, limit)
  {
    if a != [] { SamePending(a[..|a| - 1], b[..|b| - 1], limit); }
  }

  /** Rows are taken strictly by id, so a page of rows that cannot be sent is taken again and again
      and nothing behind it is tried: the next page is the same one exactly when no send of this one
      worked. */
  lemma FailingPageBlocks(rows: seq<Row>, batchSize: int, reply: nat -> Outcome, now: int)
    ensures var page := Page(rows, batchSize);
      Page(Passed(rows, page, reply, now), batchSize) == page <==> forall i :: i in page ==> reply(i) != Done
  {
    var page := Page(rows, batchSize);
    var after := Passed(rows, page, reply, now);
    PassedMeans(rows, page, reply, now);
    if i :| i in page && reply(i) == Done {
      assert i !in Page(after, batchSize) by { NotTaken(after, batchSize, i); }
    } else {
      SamePending(rows, after, PageLimit(batchSize));
    }
  }

  // ---- many instances, redelivery, audit -----------------------------------------------------------------

  /** A relay transaction: the ids it read, its copies, how many it has tried. */
  datatype Relay = Relay(ids: seq<nat>, copies: seq<Row>, tried: nat, open: bool)

  datatype Doc = Doc(messageId: string, event: Event, consumedAt: int)

  datatype State = State(
    rows: seq<Row>,
    relays: seq<Relay>,
    sent: seq<Event>,      // accepted by the broker, in order
    docs: seq<Doc>,        // the audit collection
    writes: seq<Doc>)      // every upsert that reached the collection

  datatype Label =
    | Enqueue(event: Event)
    | Begin(batchSize: int)
    | Send(r: nat, outcome: Outcome, now: int)
    | End(r: nat, ok: bool)
    | Deliver(k: nat, stored: bool, at: int)

  const START := State([], [], [], [], [])

  predicate FreshId(rows: seq<Row>, message: string) {
    forall i :: 0 <= i < |rows| ==> rows[i].event.message != message
  }

  predicate Steps(s: State, l: Label) {
    match l
    case Enqueue(e) => FreshId(s.rows, e.message)
    case Begin(_) => true
    case Send(r, _, _) => r < |s.relays| && s.relays[r].open && s.relays[r].tried < |s.relays[r].copies|
    case End(r, ok) => r < |s.relays| && s.relays[r].open && (ok ==> s.relays[r].tried == |s.relays[r].copies|)
    case Deliver(k, _, _) => k < |s.sent|
  }

  function Copies(rows: seq<Row>, ids: seq<nat>): (c: seq<Row>)
    requires forall k :: 0 <= k < |ids| ==> ids[k] < |rows|
    ensures |c| == |ids| && forall k :: 0 <= k < |ids| ==> c[k] == rows[ids[k]]
  {
    if ids == [] then [] else Copies(rows, ids[..|ids| - 1]) + [rows[ids[|ids| - 1]]]
  }

  /** The commit updates each row it changed, whole, by id: the table has no version column. */
  function WriteBack(rows: seq<Row>, ids: seq<nat>, copies: seq<Row>): (after: seq<Row>)
    requires |ids| == |copies|
    ensures |after| == |rows|
    ensures forall i :: 0 <= i < |rows| ==>
      after[i] == rows[i] || exists k :: 0 <= k < |ids| && ids[k] == i && after[i] == copies[k]
  {
    if ids == [] then rows
    else
      var n := |ids| - 1;
      var before := WriteBack(rows, ids[..n], copies[..n]);
      if ids[n] < |before| then before[ids[n] := copies[n]] else before
  }

  function Upsert(docs: seq<Doc>, d: Doc): seq<Doc> {
    if exists i :: 0 <= i < |docs| && docs[i].messageId == d.messageId then docs else docs + [d]
  }

  function Step(s: State, l: Label): State
    requires Steps(s, l)
  {
    match l
    case Enqueue(e) => s.(rows := s.rows + [NewRow(e)])
    case Begin(batchSize) =>
      var ids := Page(s.rows, batchSize);
      s.(relays := s.relays + [Relay(ids, Copies(s.rows, ids), 0, true)])
    case Send(r, outcome, now) =>
      var t := s.relays[r];
      var row := t.copies[t.tried];
      var after := t.(copies := t.copies[t.tried := Tried(row, outcome, now)], tried := t.tried + 1);
      s.(relays := s.relays[r := after], sent := if outcome == Failed then s.sent else s.sent + [row.event])
    case End(r, ok) =>
      var t := s.relays[r];
      var closed := s.(relays := s.relays[r := t.(open := false)]);
      if ok && |t.ids| == |t.copies| then closed.(rows := WriteBack(s.rows, t.ids, t.copies)) else closed
    case Deliver(k, stored, at) =>
      var d := Doc(s.sent[k].message, s.sent[k], at);
      if stored then s.(docs := Upsert(s.docs, d), writes := s.writes + [d]) else s
  }

  function Exec(ls: seq<Label>): Option<State> {
    if ls == [] then Some(START)
    else
      match Exec(ls[..|ls| - 1])
      case Some(s) => if Steps(s, ls[|ls| - 1]) then Some(Step(s, ls[|ls| - 1])) else None
      case None => None
  }

  // ---- invariant -----------------------------------------------------------------------------------------

  ghost predicate RelayOk(s: State, t: Relay) {
    && |t.ids| == |t.copies| && t.tried <= |t.copies|
    && (forall j, k :: 0 <= j < k < |t.ids| ==> t.ids[j] < t.ids[k])
    && forall k :: 0 <= k < |t.ids| ==>
         && t.ids[k] < |s.rows| && t.copies[k].event == s.rows[t.ids[k]].event
         && (t.copies[k].published ==> t.copies[k].event in s.sent)
  }

  /** The document that a replay of the writes would keep for each id: the first. */
  function FirstWrites(writes: seq<Doc>): seq<Doc> {
    if writes == [] then [] else Upsert(FirstWrites(writes[..|writes| - 1]), writes[|writes| - 1])
  }

  ghost predicate Committed(rows: seq<Row>, e: Event) {
    exists i :: 0 <= i < |rows| && rows[i].event == e
  }

  ghost predicate Inv(s: State) {
    && (forall r :: 0 <= r < |s.relays| ==> RelayOk(s, s.relays[r]))
    && (forall i :: 0 <= i < |s.rows| && s.rows[i].published ==> s.rows[i].event in s.sent)
    && (forall e :: e in s.sent ==> Committed(s.rows, e))
    && (forall j :: 0 <= j < |s.writes| ==> s.writes[j].event in s.sent && s.writes[j].messageId == s.writes[j].event.message)
    && (forall i, j :: 0 <= i < j < |s.rows| ==> s.rows[i].event.message != s.rows[j].event.message)
    && s.docs == FirstWrites(s.writes)
  }

  lemma EnqueueKeeps(s: State, e: Event)
    requires Inv(s) && Steps(s, Enqueue(e))
    ensures Inv(Step(s, Enqueue(e)))
  {
    var v := Step(s, Enqueue(e));
    forall x | x in v.sent ensures Committed(v.rows, x) {
      var i :| 0 <= i < |s.rows| && s.rows[i].event == x;
      assert v.rows[i].event == x;
    }
    assert forall r :: 0 <= r < |v.relays| ==> RelayOk(s, v.relays[r]);
  }

  lemma BeginKeeps(s: State, batchSize: int)
    requires Inv(s)
    ensures Inv(Step(s, Begin(batchSize)))
  {
    var v := Step(s, Begin(batchSize));
    assert forall r :: 0 <= r < |s.relays| ==> RelayOk(s, s.relays[r]) && RelayOk(v, s.relays[r]);
  }

  lemma SendKeeps(s: State, r: nat, outcome: Outcome, now: int)
    requires Inv(s) && Steps(s, Send(r, outcome, now))
    ensures Inv(Step(s, Send(r, outcome, now)))
  {
    var v := Step(s, Send(r, outcome, now));
    var t := s.relays[r];
    assert RelayOk(s, t);
    assert forall e :: e in s.sent ==> e in v.sent;
    assert Committed(s.rows, t.copies[t.tried].event) by { assert s.rows[t.ids[t.tried]].event == t.copies[t.tried].event; }
    if outcome == Done { assert v.sent[|s.sent|] == t.copies[t.tried].event; }
    forall q | 0 <= q < |v.relays| ensures RelayOk(v, v.relays[q]) {
      assert RelayOk(s, s.relays[q]);
    }
  }

  lemma EndKeeps(s: State, r: nat, ok: bool)
    requires Inv(s) && Steps(s, End(r, ok))
    ensures Inv(Step(s, End(r, ok)))
  {
    var v := Step(s, End(r, ok));
    var t := s.relays[r];
    assert RelayOk(s, t);
    forall i | 0 <= i < |s.rows| ensures v.rows[i].event == s.rows[i].event {
      if v.rows[i] != s.rows[i] {
        var k :| 0 <= k < |t.ids| && t.ids[k] == i && v.rows[i] == t.copies[k];
      }
    }
    forall i | 0 <= i < |v.rows| && v.rows[i].published ensures v.rows[i].event in v.sent {
      if v.rows[i] != s.rows[i] {
        var k :| 0 <= k < |t.ids| && t.ids[k] == i && v.rows[i] == t.copies[k];
      }
    }
    forall e | e in v.sent ensures Committed(v.rows, e) {
      var i :| 0 <= i < |s.rows| && s.rows[i].event == e;
      assert v.rows[i].event == e;
    }
    forall q | 0 <= q < |v.relays| ensures RelayOk(v, v.relays[q]) {
      assert RelayOk(s, s.relays[q]);
    }
  }

  lemma DeliverKeeps(s: State, k: nat, stored: bool, at: int)
    requires Inv(s) && Steps(s, Deliver(k, stored, at))
    ensures Inv(Step(s, Deliver(k, stored, at)))
  {
    var v := Step(s, Deliver(k, stored, at));
    if stored {
      assert v.writes[..|s.writes|] == s.writes;
    }
    assert forall r :: 0 <= r < |v.relays| ==> RelayOk(s, v.relays[r]);
  }

  lemma {:induction false} EveryRunKeeps(ls: seq<Label>)
    requires Exec(ls).Some?
    ensures Inv(Exec(ls).value)
  {
    if ls != [] {
      EveryRunKeeps(ls[..|ls| - 1]);
      var s := Exec(ls[..|ls| - 1]).value;
      match ls[|ls| - 1]
      case Enqueue(e) => EnqueueKeeps(s, e);
      case Begin(b) => BeginKeeps(s, b);
      case Send(r, outcome, now) => SendKeeps(s, r, outcome, now);
      case End(r, ok) => EndKeeps(s, r, ok);
      case Deliver(k, stored, at) => DeliverKeeps(s, k, stored, at);
    }
  }

  // ---- end to end ------------------------------------------------------------------------------------------

  lemma {:induction false} FirstWritesCover(writes: seq<Doc>, j: nat) returns (i: nat)
    requires j < |writes|
    ensures i < |FirstWrites(writes)| && FirstWrites(writes)[i].messageId == writes[j].messageId
  {
    var n := |writes| - 1;
    var before := FirstWrites(writes[..n]);
    if j < n {
      i := FirstWritesCover(writes[..n], j);
    } else if exists k :: 0 <= k < |before| && before[k].messageId == writes[n].messageId {
      i :| 0 <= i < |before| && before[i].messageId == writes[n].messageId;
    } else {
      i := |before|;
    }
  }

  lemma {:induction false} FirstWritesDiffer(writes: seq<Doc>)
    ensures forall i, j :: 0 <= i < j < |FirstWrites(writes)| ==>
      FirstWrites(writes)[i].messageId != FirstWrites(writes)[j].messageId
  {
    if writes != [] { FirstWritesDiffer(writes[..|writes| - 1]); }
  }

  ghost predicate IsFirstWrite(writes: seq<Doc>, d: Doc) {
    exists j :: 0 <= j < |writes| && writes[j] == d && forall m :: 0 <= m < j ==> writes[m].messageId != d.messageId
  }

  lemma StillFirst(writes: seq<Doc>, d: Doc)
    requires writes != [] && IsFirstWrite(writes[..|writes| - 1], d)
    ensures IsFirstWrite(writes, d)
  {
    var front := writes[..|writes| - 1];
    var j :| 0 <= j < |front| && front[j] == d && forall m :: 0 <= m < j ==> front[m].messageId != d.messageId;
    assert writes[j] == d && forall m :: 0 <= m < j ==> writes[m] == front[m];
  }

  lemma {:induction false} FirstWritesAreFirst(writes: seq<Doc>, i: nat)
    requires i < |FirstWrites(writes)|
    ensures IsFirstWrite(writes, FirstWrites(writes)[i])
  {
    var n := |writes| - 1;
    var before := FirstWrites(writes[..n]);
    var d := FirstWrites(writes)[i];
    if i < |before| {
      FirstWritesAreFirst(writes[..n], i);
      StillFirst(writes, d);
    } else {
      forall m | 0 <= m < n ensures writes[m].messageId != d.messageId {
        var k := FirstWritesCover(writes[..n], m);
      }
    }
  }

  lemma SameMessageSameRow(rows: seq<Row>, a: nat, b: nat)
    requires forall i, j :: 0 <= i < j < |rows| ==> rows[i].event.message != rows[j].event.message
    requires a < |rows| && b < |rows| && rows[a].event.message == rows[b].event.message
    ensures a == b
  {
  }

  /** Across failed sends, lost replies, relay commits that abort after sending, several relay
      instances and arbitrary redelivery: a PUBLISHED row was sent at least once; an audit document
      tells of a committed outbox row, faithfully; one document per message id, and it is the first
      write that got through; nothing written is forgotten. */
  lemma AuditTrail(ls: seq<Label>)
    requires Exec(ls).Some?
    ensures var s := Exec(ls).value;
      && (forall i :: 0 <= i < |s.rows| && s.rows[i].published ==> s.rows[i].event in s.sent)
      && (forall i :: 0 <= i < |s.docs| ==> Committed(s.rows, s.docs[i].event))
      && (forall i :: 0 <= i < |s.docs| ==> s.docs[i].messageId == s.docs[i].event.message)
      && (forall i, j :: 0 <= i < j < |s.docs| ==> s.docs[i].messageId != s.docs[j].messageId)
      && (forall i :: 0 <= i < |s.docs| ==> IsFirstWrite(s.writes, s.docs[i]))
      && (forall j :: 0 <= j < |s.writes| ==> exists i :: 0 <= i < |s.docs| && s.docs[i].event == s.writes[j].event)
  {
    var s := Exec(ls).value;
    EveryRunKeeps(ls);
    FirstWritesDiffer(s.writes);
    forall i | 0 <= i < |s.docs|
      ensures IsFirstWrite(s.writes, s.docs[i])
      ensures s.docs[i].event in s.sent && s.docs[i].messageId == s.docs[i].event.message
    {
      FirstWritesAreFirst(s.writes, i);
    }
    forall j | 0 <= j < |s.writes| ensures exists i :: 0 <= i < |s.docs| && s.docs[i].event == s.writes[j].event {
      var i := FirstWritesCover(s.writes, j);
      assert Committed(s.rows, s.docs[i].event) && Committed(s.rows, s.writes[j].event);
      var a :| 0 <= a < |s.rows| && s.rows[a].event == s.docs[i].event;
      var b :| 0 <= b < |s.rows| && s.rows[b].event == s.writes[j].event;
      SameMessageSameRow(s.rows, a, b);
    }
  }
}
