/** Exactly-once aggregation of finished calls into daily summaries (internal/application/postcall): a dedup
    table and an additive summary changed in one transaction, fed by redelivered messages and by a
    reconciler that competes with them. */
module Cdr {
  import opened Options
  import opened Sums

  datatype Entry = Entry(callId: int, tenant: int, date: string, inbound: int, outbound: int,
                         answered: int, abandoned: int, talk: int, ring: int, queue: int)

  datatype Bucket = Bucket(tenant: int, date: string)

  datatype Counters = Counters(inbound: int, outbound: int, answered: int, abandoned: int,
                               talk: int, ring: int, queue: int)

  // processed is cdr_processed_calls; summary is daily_cdr_summary.
  datatype Tables = Tables(processed: set<int>, summary: map<Bucket, Counters>)

  const EMPTY: Tables := Tables({}, map[])

  // Where a transaction may fail, or the process may die: everything before the commit is rolled back.
  datatype Fault = NoFault | AtBegin | AtInsert | AtSummary | AtCommit

  datatype Delivery = Delivery(entry: Entry, fault: Fault)

  function BucketOf(e: Entry): Bucket {
    Bucket(e.tenant, e.date)
  }

  function CountersOf(e: Entry): Counters {
    Counters(e.inbound, e.outbound, e.answered, e.abandoned, e.talk, e.ring, e.queue)
  }

  function Plus(a: Counters, b: Counters): Counters {
    Counters(a.inbound + b.inbound, a.outbound + b.outbound, a.answered + b.answered, a.abandoned + b.abandoned,
             a.talk + b.talk, a.ring + b.ring, a.queue + b.queue)
  }

  // ---------------------------------------------------------------------------
  // The transaction
  // ---------------------------------------------------------------------------

  // Whether a delivery gets as far as adding its entry.
  predicate Commits(t: Tables, d: Delivery) {
    d.entry.callId != 0 && d.fault == NoFault && d.entry.callId !in t.processed
  }

  function Upsert(t: Tables, d: Delivery): Tables {
    if !Commits(t, d) then t
    else
      var b := BucketOf(d.entry);
      var c := CountersOf(d.entry);
      Tables(t.processed + {d.entry.callId},
             t.summary[b := if b in t.summary then Plus(t.summary[b], c) else c])
  }

  // Success is also what a duplicate reports, unless the transaction never began.
  predicate Succeeds(t: Tables, d: Delivery) {
    d.entry.callId != 0 && d.fault != AtBegin &&
    (d.fault == NoFault || (d.entry.callId in t.processed && d.fault != AtInsert))
  }

  function Run(t: Tables, ds: seq<Delivery>): Tables
    decreases |ds|
  {
    if ds == [] then t else Run(Upsert(t, ds[0]), ds[1..])
  }

  // ---------------------------------------------------------------------------
  // What the summary means
  // ---------------------------------------------------------------------------

  type Entries = map<int, Entry>

  // Every delivery of a call carries the call's one entry.
  ghost predicate Consistent(entries: Entries, ds: seq<Delivery>) {
    forall i :: 0 <= i < |ds| && ds[i].entry.callId != 0 ==>
      ds[i].entry.callId in entries && entries[ds[i].entry.callId] == ds[i].entry
  }

  datatype Field = Inbound | Outbound | Answered | Abandoned | Talk | Ring | Queue

  function Get(c: Counters, f: Field): int {
    match f
    case Inbound => c.inbound
    case Outbound => c.outbound
    case Answered => c.answered
    case Abandoned => c.abandoned
    case Talk => c.talk
    case Ring => c.ring
    case Queue => c.queue
  }

  function Share(entries: Entries, b: Bucket, f: Field): int -> int {
    id => if id in entries && BucketOf(entries[id]) == b then Get(CountersOf(entries[id]), f) else 0
  }

  ghost function InBucket(entries: Entries, processed: set<int>, b: Bucket): set<int> {
    set id | id in processed && id in entries && BucketOf(entries[id]) == b
  }

  ghost predicate SumsUp(entries: Entries, t: Tables, b: Bucket, f: Field) {
    (if b in t.summary then Get(t.summary[b], f) else 0) == Total(t.processed, Share(entries, b, f))
  }

  // Each daily summary is the sum over the processed calls of its bucket; a bucket without one has no row.
  ghost predicate Exact(entries: Entries, t: Tables) {
    && t.processed <= entries.Keys
    && (forall b, f :: SumsUp(entries, t, b, f))
    && (forall b :: b in t.summary <==> InBucket(entries, t.processed, b) != {})
  }

  lemma UpsertSumsUp(entries: Entries, t: Tables, d: Delivery, b: Bucket, f: Field)
    requires SumsUp(entries, t, b, f) && Commits(t, d)
    requires d.entry.callId in entries && entries[d.entry.callId] == d.entry
    ensures SumsUp(entries, Upsert(t, d), b, f)
  {
    AddElement(t.processed, Share(entries, b, f), d.entry.callId);
  }

  lemma UpsertFillsBucket(entries: Entries, t: Tables, d: Delivery, b: Bucket)
    requires b in t.summary <==> InBucket(entries, t.processed, b) != {}
    requires Commits(t, d) && d.entry.callId in entries && entries[d.entry.callId] == d.entry
    ensures b in Upsert(t, d).summary <==> InBucket(entries, Upsert(t, d).processed, b) != {}
  {
    var before, after := InBucket(entries, t.processed, b), InBucket(entries, Upsert(t, d).processed, b);
    assert after == if BucketOf(d.entry) == b then before + {d.entry.callId} else before;
  }

  lemma UpsertKeepsExact(entries: Entries, t: Tables, d: Delivery)
    requires Exact(entries, t) && Consistent(entries, [d])
    ensures Exact(entries, Upsert(t, d))
  {
    if Commits(t, d) {
      assert d.entry == [d][0].entry;
      var t' := Upsert(t, d);
      forall b, f
        ensures SumsUp(entries, t', b, f)
      {
        UpsertSumsUp(entries, t, d, b, f);
      }
      forall b
        ensures b in t'.summary <==> InBucket(entries, t'.processed, b) != {}
      {
        UpsertFillsBucket(entries, t, d, b);
      }
      hide Upsert, SumsUp, InBucket;
    }
  }

  /** Under every schedule of deliveries, redeliveries, rollbacks and reconciler upserts, each daily summary
      is the sum over the processed calls of its bucket. */
  lemma {:induction false} RunIsExact(entries: Entries, t: Tables, ds: seq<Delivery>)
    requires Exact(entries, t) && Consistent(entries, ds)
    ensures Exact(entries, Run(t, ds))
    decreases |ds|
  {
    if ds != [] {
      UpsertKeepsExact(entries, t, ds[0]);
      assert forall i :: 0 <= i < |ds[1..]| ==> ds[1..][i] == ds[i + 1];
      RunIsExact(entries, Upsert(t, ds[0]), ds[1..]);
    }
  }

  lemma EmptyIsExact(entries: Entries)
    ensures Exact(entries, EMPTY)
  {
    forall b, f
      ensures SumsUp(entries, EMPTY, b, f)
    {
      assert Total({}, Share(entries, b, f)) == 0;
    }
    forall b
      ensures InBucket(entries, {}, b) == {}
    {
    }
  }

  // The calls a schedule covers: those with at least one delivery that meets no fault.
  ghost function Covered(ds: seq<Delivery>): set<int> {
    set i | 0 <= i < |ds| && ds[i].fault == NoFault && ds[i].entry.callId != 0 :: ds[i].entry.callId
  }

  lemma {:induction false} RunProcessesCovered(t: Tables, ds: seq<Delivery>)
    ensures Run(t, ds).processed == t.processed + Covered(ds)
    decreases |ds|
  {
    if ds == [] {
      assert Covered(ds) == {};
    } else {
      RunProcessesCovered(Upsert(t, ds[0]), ds[1..]);
      CoveredStep(ds);
    }
  }

  lemma CoveredStep(ds: seq<Delivery>)
    requires ds != []
    ensures Covered(ds) == Covered(ds[1..])
      + (if ds[0].fault == NoFault && ds[0].entry.callId != 0 then {ds[0].entry.callId} else {})
  {
    var rest := ds[1..];
    assert ds == [ds[0]] + rest;
    forall id | id in Covered(rest)
      ensures id in Covered(ds)
    {
      var i :| 0 <= i < |rest| && rest[i].fault == NoFault && rest[i].entry.callId != 0 && rest[i].entry.callId == id;
      assert ds[i + 1] == rest[i];
    }
    forall id | id in Covered(ds)
      ensures id in Covered(rest) || id == ds[0].entry.callId
    {
      var i :| 0 <= i < |ds| && ds[i].fault == NoFault && ds[i].entry.callId != 0 && ds[i].entry.callId == id;
      if i > 0 {
        assert rest[i - 1] == ds[i];
      }
    }
  }

  // Exactness leaves one table for each processed set.
  lemma ExactTablesAgree(entries: Entries, t: Tables, u: Tables)
    requires Exact(entries, t) && Exact(entries, u) && t.processed == u.processed
    ensures t == u
  {
    forall b
      ensures b in t.summary <==> b in u.summary
      ensures b in t.summary ==> t.summary[b] == u.summary[b]
    {
      if b in t.summary {
        forall f
          ensures Get(t.summary[b], f) == Get(u.summary[b], f)
        {
          assert SumsUp(entries, t, b, f) && SumsUp(entries, u, b, f);
        }
        var x, y := t.summary[b], u.summary[b];
        assert Get(x, Inbound) == Get(y, Inbound) && Get(x, Outbound) == Get(y, Outbound);
        assert Get(x, Answered) == Get(y, Answered) && Get(x, Abandoned) == Get(y, Abandoned);
        assert Get(x, Talk) == Get(y, Talk) && Get(x, Ring) == Get(y, Ring) && Get(x, Queue) == Get(y, Queue);
      }
    }
    assert t.summary == u.summary;
  }

  /** Exactly once: two schedules that cover the same calls, with any duplicates, faults and order, leave
      the same tables. */
  lemma SameCallsSameTables(entries: Entries, ds: seq<Delivery>, es: seq<Delivery>)
    requires Consistent(entries, ds) && Consistent(entries, es) && Covered(ds) == Covered(es)
    ensures Run(EMPTY, ds) == Run(EMPTY, es)
    ensures Run(EMPTY, ds).processed == Covered(ds)
  {
    EmptyIsExact(entries);
    RunIsExact(entries, EMPTY, ds);
    RunIsExact(entries, EMPTY, es);
    RunProcessesCovered(EMPTY, ds);
    RunProcessesCovered(EMPTY, es);
    ExactTablesAgree(entries, Run(EMPTY, ds), Run(EMPTY, es));
  }

  const ZERO: Counters := Counters(0, 0, 0, 0, 0, 0, 0)

  lemma {:induction false} RunTwo(t: Tables, a: Delivery, b: Delivery)
    ensures Run(t, [a, b]) == Upsert(Upsert(t, a), b)
  {
    assert [a, b][1..] == [b] && [b][1..] == [];
    assert Run(Upsert(t, a), [b]) == Run(Upsert(Upsert(t, a), b), []);
  }

  // Two calls' deliveries add up in either order.
  lemma DifferentCallsCommute(t: Tables, a: Delivery, b: Delivery)
    requires a.entry.callId != b.entry.callId
    ensures Upsert(Upsert(t, a), b) == Upsert(Upsert(t, b), a)
  {
    if Commits(t, a) && Commits(t, b) {
      var x, y := BucketOf(a.entry), BucketOf(b.entry);
      var p, q := Upsert(Upsert(t, a), b), Upsert(Upsert(t, b), a);
      assert p.processed == q.processed;
      assert p.summary.Keys == q.summary.Keys;
      assert forall k :: k in p.summary ==> p.summary[k] == q.summary[k];
    }
  }

  lemma SameEffectIff(t: Tables, a: Delivery, b: Delivery)
    requires Commits(t, a) && Commits(t, b) && a.entry.callId == b.entry.callId
    ensures var x, y, c, d := BucketOf(a.entry), BucketOf(b.entry), CountersOf(a.entry), CountersOf(b.entry);
      Upsert(t, a) == Upsert(t, b) <==>
        (x == y && c == d) || (c == ZERO && d == ZERO && x in t.summary && y in t.summary)
  {
    var x, y := BucketOf(a.entry), BucketOf(b.entry);
    var p, q := Upsert(t, a), Upsert(t, b);
    if p == q {
      assert p.summary[x] == q.summary[x] && p.summary[y] == q.summary[y];
    }
    assert CountersOf(a.entry) == ZERO && x in t.summary ==> p.summary == t.summary;
    assert CountersOf(b.entry) == ZERO && y in t.summary ==> q.summary == t.summary;
  }

  /** Exactly when the order of two deliveries does not show: one of them meets a fault, they are of two calls,
      the call was already processed or has no id, or they add the same counters to the same bucket (or add
      nothing to rows that exist). */
  lemma DeliveriesCommuteIff(t: Tables, a: Delivery, b: Delivery)
    ensures var x, y, c, d := BucketOf(a.entry), BucketOf(b.entry), CountersOf(a.entry), CountersOf(b.entry);
      Run(t, [a, b]) == Run(t, [b, a]) <==>
        || a.fault != NoFault || b.fault != NoFault
        || a.entry.callId != b.entry.callId || a.entry.callId in t.processed || a.entry.callId == 0
        || (x == y && c == d) || (c == ZERO && d == ZERO && x in t.summary && y in t.summary)
  {
    RunTwo(t, a, b);
    RunTwo(t, b, a);
    hide Run;
    if a.entry.callId != b.entry.callId {
      DifferentCallsCommute(t, a, b);
    } else if Commits(t, a) && Commits(t, b) {
      assert Upsert(Upsert(t, a), b) == Upsert(t, a) && Upsert(Upsert(t, b), a) == Upsert(t, b);
      SameEffectIff(t, a, b);
    }
  }

  // ---------------------------------------------------------------------------
  // Producers
  // ---------------------------------------------------------------------------

  // A finished call. day is the calendar day it started on as the worker's message shows it, in the time
  // zone of the message; storedDay is the day the database gives it.
  datatype CallRecord = CallRecord(id: int, tenant: int, direction: string, day: string, storedDay: string,
                                   answered: bool, ended: bool, durationSec: int, ringSec: int, queueSec: int)

  function EntryOf(c: CallRecord, date: string): Entry {
    var inbound := c.direction == "inbound";
    Entry(c.id, c.tenant, date, if inbound then 1 else 0, if inbound then 0 else 1,
          if c.answered then 1 else 0, if c.answered then 0 else 1, c.durationSec, c.ringSec, c.queueSec)
  }

  ghost predicate OneEach(e: Entry) {
    e.inbound + e.outbound == 1 && e.answered + e.abandoned == 1
  }

  type Calls = map<int, CallRecord>

  // What the two producers deliver of the call with an id: the worker when its message arrives, the
  // reconciler when it runs for the day after the one given.
  datatype Production = FromWorker(id: int, fault: Fault) | FromReconciler(id: int, yesterday: string, fault: Fault)

  // The worker skips calls without a positive id; the reconciler's query selects ended calls of its day.
  predicate Produces(calls: Calls, p: Production) {
    && p.id in calls && calls[p.id].id == p.id
    && (p.FromWorker? ==> p.id > 0)
    && (p.FromReconciler? ==> calls[p.id].ended && calls[p.id].storedDay == p.yesterday)
  }

  ghost predicate AllProduce(calls: Calls, ps: seq<Production>) {
    forall p :: p in ps ==> Produces(calls, p)
  }

  function Delivered(calls: Calls, p: Production): Delivery
    requires p.id in calls
  {
    var c := calls[p.id];
    Delivery(EntryOf(c, if p.FromWorker? then c.day else p.yesterday), p.fault)
  }

  function AllDelivered(calls: Calls, ps: seq<Production>): seq<Delivery>
    requires AllProduce(calls, ps)
  {
    if ps == [] then []
    else
      assert ps[|ps| - 1] in ps;
      AllDelivered(calls, ps[..|ps| - 1]) + [Delivered(calls, ps[|ps| - 1])]
  }

  // Each call's entry: as its message shows it, or, when the worker skips its message, as the database does.
  function EntriesOf(calls: Calls): Entries {
    map id | id in calls :: EntryOf(calls[id], if id > 0 then calls[id].day else calls[id].storedDay)
  }

  // The ended calls both producers deliver started on the same day for both.
  ghost predicate SameDays(calls: Calls) {
    forall id :: id in calls && id > 0 && calls[id].id == id && calls[id].ended ==> calls[id].day == calls[id].storedDay
  }

  lemma {:induction false} ProducedConsistently(calls: Calls, ps: seq<Production>)
    requires SameDays(calls) && AllProduce(calls, ps)
    ensures Consistent(EntriesOf(calls), AllDelivered(calls, ps))
  {
    if ps != [] {
      var p := ps[|ps| - 1];
      assert p in ps;
      ProducedConsistently(calls, ps[..|ps| - 1]);
      assert p.id != 0 ==> Delivered(calls, p).entry == EntriesOf(calls)[p.id];
    }
  }

  lemma DeliverOne(calls: Calls, p: Production)
    requires Produces(calls, p) && p.fault == NoFault && p.id != 0
    ensures AllProduce(calls, [p]) && Covered(AllDelivered(calls, [p])) == {p.id}
    ensures var e := Delivered(calls, p).entry;
      Run(EMPTY, AllDelivered(calls, [p])).summary == map[BucketOf(e) := CountersOf(e)]
  {
    var d := Delivered(calls, p);
    assert [p][..0] == [];
    assert AllDelivered(calls, [p]) == [d] && [d][0] == d && [d][1..] == [];
    assert Run(EMPTY, [d]) == Run(Upsert(EMPTY, d), []);
  }

  // The call's summary row is the message's day when the worker delivers it, and the stored day otherwise.
  lemma DaysShow(calls: Calls, id: int)
    requires id in calls && id > 0 && calls[id].id == id && calls[id].ended && calls[id].day != calls[id].storedDay
    ensures var ps, qs := [FromWorker(id, NoFault)], [FromReconciler(id, calls[id].storedDay, NoFault)];
      && AllProduce(calls, ps) && AllProduce(calls, qs)
      && Covered(AllDelivered(calls, ps)) == Covered(AllDelivered(calls, qs))
      && Run(EMPTY, AllDelivered(calls, ps)) != Run(EMPTY, AllDelivered(calls, qs))
  {
    var p, q := FromWorker(id, NoFault), FromReconciler(id, calls[id].storedDay, NoFault);
    DeliverOne(calls, p);
    DeliverOne(calls, q);
    var t, u := Run(EMPTY, AllDelivered(calls, [p])), Run(EMPTY, AllDelivered(calls, [q]));
    var b := BucketOf(Delivered(calls, p).entry);
    assert b in t.summary && b !in u.summary;
  }

  // What two schedules of the producers leave depends only on the calls they cover.
  ghost predicate Agree(calls: Calls, ps: seq<Production>, qs: seq<Production>) {
    AllProduce(calls, ps) && AllProduce(calls, qs) && Covered(AllDelivered(calls, ps)) == Covered(AllDelivered(calls, qs)) ==>
      Run(EMPTY, AllDelivered(calls, ps)) == Run(EMPTY, AllDelivered(calls, qs))
  }

  /** Whichever of worker and reconciler delivers a call first, and whatever their faults and order, the same
      calls leave the same tables: exactly when the message's time zone gives every ended call both of them
      deliver the day the database gives it. */
  lemma ProducersAgreeIff(calls: Calls)
    ensures (forall ps, qs :: Agree(calls, ps, qs)) <==> SameDays(calls)
  {
    if SameDays(calls) {
      forall ps, qs
        ensures Agree(calls, ps, qs)
      {
        if AllProduce(calls, ps) && AllProduce(calls, qs)
           && Covered(AllDelivered(calls, ps)) == Covered(AllDelivered(calls, qs)) {
          ProducedConsistently(calls, ps);
          ProducedConsistently(calls, qs);
          SameCallsSameTables(EntriesOf(calls), AllDelivered(calls, ps), AllDelivered(calls, qs));
        }
      }
    } else {
      var id :| id in calls && id > 0 && calls[id].id == id && calls[id].ended && calls[id].day != calls[id].storedDay;
      DaysShow(calls, id);
      assert !Agree(calls, [FromWorker(id, NoFault)], [FromReconciler(id, calls[id].storedDay, NoFault)]);
    }
  }

  // The processed calls of a row: those of the tenant that started on the day.
  ghost function CallsOf(calls: Calls, processed: set<int>, b: Bucket): set<int> {
    set id | id in processed && id in calls && calls[id].tenant == b.tenant
             && (if id > 0 then calls[id].day else calls[id].storedDay) == b.date
  }

  // What is read of a stored call.
  function Of(calls: Calls, read: CallRecord -> int): int -> int {
    id => if id in calls then read(calls[id]) else 0
  }

  // A field of the row counts the calls for which it is one.
  lemma FieldCounts(calls: Calls, t: Tables, b: Bucket, f: Field, counted: set<int>)
    requires Exact(EntriesOf(calls), t) && b in t.summary && counted <= CallsOf(calls, t.processed, b)
    requires forall id :: id in CallsOf(calls, t.processed, b) ==>
      Get(CountersOf(EntriesOf(calls)[id]), f) == if id in counted then 1 else 0
    ensures Get(t.summary[b], f) == |counted|
  {
    assert SumsUp(EntriesOf(calls), t, b, f);
    SumCounts(t.processed, counted, Share(EntriesOf(calls), b, f));
  }

  // Another one sums what is read of them.
  lemma FieldSums(calls: Calls, t: Tables, b: Bucket, f: Field, g: int -> int)
    requires Exact(EntriesOf(calls), t) && b in t.summary
    requires forall id :: id in CallsOf(calls, t.processed, b) ==> Get(CountersOf(EntriesOf(calls)[id]), f) == g(id)
    ensures Get(t.summary[b], f) == Total(CallsOf(calls, t.processed, b), g)
  {
    assert SumsUp(EntriesOf(calls), t, b, f);
    OnlySome(t.processed, CallsOf(calls, t.processed, b), Share(EntriesOf(calls), b, f), g);
  }

  // A row that says of its calls what the call records say.
  ghost predicate Tells(calls: Calls, ids: set<int>, row: Counters) {
    && row.inbound == |set id | id in ids && id in calls && calls[id].direction == "inbound"|
    && row.outbound == |set id | id in ids && id in calls && calls[id].direction != "inbound"|
    && row.answered == |set id | id in ids && id in calls && calls[id].answered|
    && row.abandoned == |set id | id in ids && id in calls && !calls[id].answered|
    && row.talk == Total(ids, Of(calls, (c: CallRecord) => c.durationSec))
    && row.ring == Total(ids, Of(calls, (c: CallRecord) => c.ringSec))
    && row.queue == Total(ids, Of(calls, (c: CallRecord) => c.queueSec))
  }

  lemma RowCounts(calls: Calls, t: Tables, b: Bucket)
    requires Exact(EntriesOf(calls), t) && b in t.summary
    ensures var ids, row := CallsOf(calls, t.processed, b), t.summary[b];
      && row.inbound == |set id | id in ids && id in calls && calls[id].direction == "inbound"|
      && row.outbound == |set id | id in ids && id in calls && calls[id].direction != "inbound"|
      && row.answered == |set id | id in ids && id in calls && calls[id].answered|
      && row.abandoned == |set id | id in ids && id in calls && !calls[id].answered|
  {
    var ids, row := CallsOf(calls, t.processed, b), t.summary[b];
    assert Get(row, Inbound) == row.inbound && Get(row, Outbound) == row.outbound;
    assert Get(row, Answered) == row.answered && Get(row, Abandoned) == row.abandoned;
    FieldCounts(calls, t, b, Inbound, set id | id in ids && id in calls && calls[id].direction == "inbound");
    FieldCounts(calls, t, b, Outbound, set id | id in ids && id in calls && calls[id].direction != "inbound");
    FieldCounts(calls, t, b, Answered, set id | id in ids && id in calls && calls[id].answered);
    FieldCounts(calls, t, b, Abandoned, set id | id in ids && id in calls && !calls[id].answered);
    hide Exact;
  }

  lemma RowSums(calls: Calls, t: Tables, b: Bucket)
    requires Exact(EntriesOf(calls), t) && b in t.summary
    ensures var ids, row := CallsOf(calls, t.processed, b), t.summary[b];
      && row.talk == Total(ids, Of(calls, (c: CallRecord) => c.durationSec))
      && row.ring == Total(ids, Of(calls, (c: CallRecord) => c.ringSec))
      && row.queue == Total(ids, Of(calls, (c: CallRecord) => c.queueSec))
  {
    var row := t.summary[b];
    assert Get(row, Talk) == row.talk && Get(row, Ring) == row.ring && Get(row, Queue) == row.queue;
    FieldSums(calls, t, b, Talk, Of(calls, (c: CallRecord) => c.durationSec));
    FieldSums(calls, t, b, Ring, Of(calls, (c: CallRecord) => c.ringSec));
    FieldSums(calls, t, b, Queue, Of(calls, (c: CallRecord) => c.queueSec));
    hide Exact;
  }

  lemma ExactRowsTell(calls: Calls, t: Tables, b: Bucket)
    requires Exact(EntriesOf(calls), t) && b in t.summary
    ensures Tells(calls, CallsOf(calls, t.processed, b), t.summary[b])
  {
    hide Exact, CallsOf;
    RowCounts(calls, t, b);
    RowSums(calls, t, b);
  }

  /** Whatever the worker and the reconciler deliver of one set of calls, with any faults and in any order: every
      row tells of the tenant's processed calls of that day how many were inbound, outbound, answered and
      abandoned, and their talk, ring and queue seconds; a row exists exactly where there is such a call. */
  lemma ProducedSummaries(calls: Calls, ps: seq<Production>, b: Bucket)
    requires SameDays(calls) && AllProduce(calls, ps)
    ensures var t := Run(EMPTY, AllDelivered(calls, ps));
      && (b in t.summary <==> CallsOf(calls, t.processed, b) != {})
      && (b in t.summary ==> Tells(calls, CallsOf(calls, t.processed, b), t.summary[b]))
      && (b in t.summary ==>
            var n := |CallsOf(calls, t.processed, b)|;
            && t.summary[b].inbound + t.summary[b].outbound == n
            && t.summary[b].answered + t.summary[b].abandoned == n
            && n > 0)
  {
    var entries, t := EntriesOf(calls), Run(EMPTY, AllDelivered(calls, ps));
    ProducedConsistently(calls, ps);
    EmptyIsExact(entries);
    RunIsExact(entries, EMPTY, AllDelivered(calls, ps));
    assert InBucket(entries, t.processed, b) == CallsOf(calls, t.processed, b);
    if b in t.summary {
      BucketsBalance(entries, AllDelivered(calls, ps), b);
      ExactRowsTell(calls, t, b);
    }
    hide Run, Tells, AllDelivered;
  }

  // Two fields of which every entry of s has exactly one set count the calls of the bucket between them.
  lemma {:induction false} OnePerCall(entries: Entries, s: set<int>, b: Bucket, f: Field, g: Field)
    requires s <= entries.Keys
    requires forall id :: id in s ==> Get(CountersOf(entries[id]), f) + Get(CountersOf(entries[id]), g) == 1
    ensures Total(s, Share(entries, b, f)) + Total(s, Share(entries, b, g)) == |InBucket(entries, s, b)|
    decreases s
  {
    if s == {} {
      assert InBucket(entries, s, b) == {};
    } else {
      var x := Pick(s);
      TakeOut(s, Share(entries, b, f), x);
      TakeOut(s, Share(entries, b, g), x);
      OnePerCall(entries, s - {x}, b, f, g);
      BucketWithout(entries, s, b, x);
    }
  }

  lemma BucketWithout(entries: Entries, s: set<int>, b: Bucket, x: int)
    requires x in s && x in entries
    ensures |InBucket(entries, s, b)|
      == |InBucket(entries, s - {x}, b)| + if BucketOf(entries[x]) == b then 1 else 0
  {
    assert InBucket(entries, s, b)
      == if BucketOf(entries[x]) == b then InBucket(entries, s - {x}, b) + {x} else InBucket(entries, s - {x}, b);
  }

  /** In every daily summary the produced entries lead to, inbound and outbound calls together, and answered
      and abandoned calls together, are the calls processed for that bucket. */
  lemma BucketsBalance(entries: Entries, ds: seq<Delivery>, b: Bucket)
    requires Consistent(entries, ds) && forall id :: id in entries ==> OneEach(entries[id])
    requires b in Run(EMPTY, ds).summary
    ensures var t := Run(EMPTY, ds); var n := |InBucket(entries, t.processed, b)|;
      && t.summary[b].inbound + t.summary[b].outbound == n
      && t.summary[b].answered + t.summary[b].abandoned == n
      && n > 0
  {
    EmptyIsExact(entries);
    RunIsExact(entries, EMPTY, ds);
    var t := Run(EMPTY, ds);
    assert SumsUp(entries, t, b, Inbound) && SumsUp(entries, t, b, Outbound);
    assert SumsUp(entries, t, b, Answered) && SumsUp(entries, t, b, Abandoned);
    OnePerCall(entries, t.processed, b, Inbound, Outbound);
    OnePerCall(entries, t.processed, b, Answered, Abandoned);
  }

  // ---------------------------------------------------------------------------
  // The repository, the worker and the reconciler
  // ---------------------------------------------------------------------------

  lemma {:induction false} RunAppend(t: Tables, ds: seq<Delivery>, d: Delivery)
    ensures Run(t, ds + [d]) == Upsert(Run(t, ds), d)
    decreases |ds|
  {
    if ds == [] {
      assert ds + [d] == [d] && [d][1..] == [];
    } else {
      assert (ds + [d])[1..] == ds[1..] + [d];
      RunAppend(Upsert(t, ds[0]), ds[1..], d);
    }
  }

  // What happens to a row of the reconciler's query: whether it scans, and what its transaction meets.
  datatype Fate = Fate(scans: bool, fault: Fault)

  // The reconciler's query over the calls table.
  function Missing(calls: seq<CallRecord>, processed: set<int>, yesterday: string): seq<CallRecord> {
    if calls == [] then []
    else
      var c, rest := calls[|calls| - 1], Missing(calls[..|calls| - 1], processed, yesterday);
      if c.storedDay == yesterday && c.ended && c.id !in processed then rest + [c] else rest
  }

  lemma {:induction false} MissingIff(calls: seq<CallRecord>, processed: set<int>, yesterday: string, c: CallRecord)
    ensures c in Missing(calls, processed, yesterday) <==>
      c in calls && c.storedDay == yesterday && c.ended && c.id !in processed
  {
    if calls != [] {
      MissingIff(calls[..|calls| - 1], processed, yesterday, c);
      assert calls == calls[..|calls| - 1] + [calls[|calls| - 1]];
    }
  }

  function FateAt(fates: seq<Fate>, i: nat): Fate {
    if i < |fates| then fates[i] else Fate(true, NoFault)
  }

  function OthersAt(others: seq<seq<Delivery>>, i: nat): seq<Delivery> {
    if i < |others| then others[i] else []
  }

  // The deliveries of the first n rows, each after those other producers make while it is pending.
  function Schedule(rows: seq<CallRecord>, fates: seq<Fate>, others: seq<seq<Delivery>>, yesterday: string, n: nat)
    : seq<Delivery>
    requires n <= |rows|
  {
    if n == 0 then []
    else
      var before := Schedule(rows, fates, others, yesterday, n - 1) + OthersAt(others, n - 1);
      var fate := FateAt(fates, n - 1);
      if fate.scans then before + [Delivery(EntryOf(rows[n - 1], yesterday), fate.fault)] else before
  }

  /** With no one else delivering, a pass over stored calls is a schedule of the reconciler's productions for
      that day: one of each row that scans, with what its transaction meets. */
  lemma {:induction false} PassIsProduced(calls: Calls, rows: seq<CallRecord>, fates: seq<Fate>, yesterday: string, n: nat)
    returns (ps: seq<Production>)
    requires n <= |rows|
    requires forall c :: c in rows ==> c.id in calls && calls[c.id] == c && c.ended && c.storedDay == yesterday
    ensures AllProduce(calls, ps) && Schedule(rows, fates, [], yesterday, n) == AllDelivered(calls, ps)
    ensures forall p :: p in ps ==> p.FromReconciler? && p.yesterday == yesterday
  {
    ps := [];
    if n > 0 {
      ps := PassIsProduced(calls, rows, fates, yesterday, n - 1);
      var fate, c := FateAt(fates, n - 1), rows[n - 1];
      assert c in rows;
      assert Schedule(rows, fates, [], yesterday, n - 1) + [] == Schedule(rows, fates, [], yesterday, n - 1);
      if fate.scans {
        var p, before := FromReconciler(c.id, yesterday, fate.fault), ps;
        ps := before + [p];
        assert ps[..|ps| - 1] == before;
      }
    }
  }

  // How many of them succeed.
  function Repairs(t: Tables, rows: seq<CallRecord>, fates: seq<Fate>, others: seq<seq<Delivery>>, yesterday: string, n: nat): nat
    requires n <= |rows|
  {
    if n == 0 then 0
    else
      var before := Run(t, Schedule(rows, fates, others, yesterday, n - 1) + OthersAt(others, n - 1));
      var fate := FateAt(fates, n - 1);
      Repairs(t, rows, fates, others, yesterday, n - 1)
      + if fate.scans && Succeeds(before, Delivery(EntryOf(rows[n - 1], yesterday), fate.fault)) then 1 else 0
  }

  // The rows that scan and whose upsert succeeds.
  ghost function Repaired(t: Tables, rows: seq<CallRecord>, fates: seq<Fate>, others: seq<seq<Delivery>>, yesterday: string, n: nat)
    : set<nat>
    requires n <= |rows|
  {
    set i: nat | i < n && FateAt(fates, i).scans
      && Succeeds(Run(t, Schedule(rows, fates, others, yesterday, i) + OthersAt(others, i)),
                  Delivery(EntryOf(rows[i], yesterday), FateAt(fates, i).fault))
  }

  /** The number reported is that of the rows whose upsert succeeds. */
  lemma {:induction false} RepairsCount(t: Tables, rows: seq<CallRecord>, fates: seq<Fate>, others: seq<seq<Delivery>>,
                                        yesterday: string, n: nat)
    requires n <= |rows|
    ensures Repairs(t, rows, fates, others, yesterday, n) == |Repaired(t, rows, fates, others, yesterday, n)|
  {
    hide Run, Schedule, Succeeds, EntryOf;
    var now := Repaired(t, rows, fates, others, yesterday, n);
    if n > 0 {
      RepairsCount(t, rows, fates, others, yesterday, n - 1);
      var before := Repaired(t, rows, fates, others, yesterday, n - 1);
      assert now == if n - 1 in now then before + {n - 1} else before;
    } else {
      assert now == {};
    }
  }

  class CDRStore {
    var processed: set<int>
    var summary: map<Bucket, Counters>

    ghost function View(): Tables
      reads this
    {
      Tables(processed, summary)
    }

    constructor ()
      ensures View() == EMPTY
    {
      processed, summary := {}, map[];
    }

    /** UpsertDailyCDR: one transaction over both tables. */
    method UpsertDailyCDR(e: Entry, fault: Fault) returns (ok: bool)
      modifies this
      ensures View() == Upsert(old(View()), Delivery(e, fault))
      ensures ok <==> Succeeds(old(View()), Delivery(e, fault))
      ensures fault == NoFault && e.callId != 0 ==> ok
      ensures ok ==> e.callId in processed && e.callId != 0
      ensures e.callId in old(processed) || !ok ==> processed == old(processed) && summary == old(summary)
    {
      if e.callId == 0 || fault == AtBegin {
        return false;
      }
      // The transaction works on its own copies; only the commit stores them.
      var txProcessed, txSummary := processed, summary;
      if fault == AtInsert {
        return false;
      }
      if e.callId in txProcessed {
        return true;
      }
      txProcessed := txProcessed + {e.callId};
      if fault == AtSummary {
        return false;
      }
      var b := BucketOf(e);
      if b in txSummary {
        txSummary := txSummary[b := Plus(txSummary[b], CountersOf(e))];
      } else {
        txSummary := txSummary[b := CountersOf(e)];
      }
      if fault == AtCommit {
        return false;
      }
      processed, summary := txProcessed, txSummary;
      return true;
    }

    /** handleCallEnded; None is a payload that does not decode, and false asks for redelivery. */
    method HandleCallEnded(message: Option<CallRecord>, fault: Fault) returns (done: bool)
      modifies this
      ensures message.None? || message.value.id <= 0 ==> done && View() == old(View())
      ensures message.Some? && message.value.id > 0 ==>
        && View() == Upsert(old(View()), Delivery(EntryOf(message.value, message.value.day), fault))
        && (done <==> Succeeds(old(View()), Delivery(EntryOf(message.value, message.value.day), fault)))
        && (done ==> message.value.id in processed)
    {
      if message.None? {
        return true;
      }
      var c := message.value;
      if c.id > 0 {
        var inbound, outbound, answered, abandoned := 0, 0, 0, 0;
        if c.direction == "inbound" {
          inbound := 1;
        } else {
          outbound := 1;
        }
        if c.answered {
          answered := 1;
        } else {
          abandoned := 1;
        }
        done := UpsertDailyCDR(Entry(c.id, c.tenant, c.day, inbound, outbound, answered, abandoned,
                                     c.durationSec, c.ringSec, c.queueSec), fault);
        return;
      }
      return true;
    }

    /** reconcileYesterday over the calls table: others[i] are deliveries other producers make while row i is
        pending, fates what each row meets. Every missing call whose row scans and meets no fault ends up
        processed. */
    method ReconcileYesterday(calls: seq<CallRecord>, yesterday: string, fates: seq<Fate>, others: seq<seq<Delivery>>)
      returns (repaired: nat)
      modifies this
      ensures var rows := Missing(calls, old(processed), yesterday);
        && View() == Run(old(View()), Schedule(rows, fates, others, yesterday, |rows|))
        && repaired == Repairs(old(View()), rows, fates, others, yesterday, |rows|)
        && forall i :: 0 <= i < |rows| && FateAt(fates, i) == Fate(true, NoFault) && rows[i].id != 0 ==> rows[i].id in processed
    {
      repaired := 0;
      var rows := FindMissing(calls, yesterday);
      ghost var done: seq<Delivery> := [];
      assert Run(View(), []) == View();
      hide Upsert, Succeeds, EntryOf, Run, Missing;
      for i := 0 to |rows|
        invariant View() == Run(old(View()), done) && done == Schedule(rows, fates, others, yesterday, i)
        invariant repaired == Repairs(old(View()), rows, fates, others, yesterday, i)
        invariant forall k :: 0 <= k < i && FateAt(fates, k) == Fate(true, NoFault) && rows[k].id != 0 ==> rows[k].id in processed
      {
        var gap := if i < |others| then others[i] else [];
        done := ApplyOthers(gap, old(View()), done);
        var fate := if i < |fates| then fates[i] else Fate(true, NoFault);
        if !fate.scans {
          continue;
        }
        ghost var d := Delivery(EntryOf(rows[i], yesterday), fate.fault);
        RunAppend(old(View()), done, d);
        var ok := UpsertRow(rows[i], yesterday, fate.fault);
        done := done + [d];
        if ok {
          repaired := repaired + 1;
        }
      }
    }

    /** A missing call's row, dated by the day that is reconciled. */
    method UpsertRow(c: CallRecord, yesterday: string, fault: Fault) returns (ok: bool)
      modifies this
      ensures View() == Upsert(old(View()), Delivery(EntryOf(c, yesterday), fault))
      ensures ok <==> Succeeds(old(View()), Delivery(EntryOf(c, yesterday), fault))
      ensures old(processed) <= processed && (fault == NoFault && c.id != 0 ==> c.id in processed)
    {
      var inbound, outbound, answered, abandoned := 0, 0, 0, 0;
      if c.direction == "inbound" {
        inbound := 1;
      } else {
        outbound := 1;
      }
      if c.answered {
        answered := 1;
      } else {
        abandoned := 1;
      }
      ok := UpsertDailyCDR(Entry(c.id, c.tenant, yesterday, inbound, outbound, answered, abandoned,
                                 c.durationSec, c.ringSec, c.queueSec), fault);
    }

    method FindMissing(calls: seq<CallRecord>, yesterday: string) returns (rows: seq<CallRecord>)
      ensures rows == Missing(calls, processed, yesterday)
    {
      rows := [];
      for i := 0 to |calls|
        invariant rows == Missing(calls[..i], processed, yesterday)
      {
        assert calls[..i + 1][..i] == calls[..i];
        var c := calls[i];
        if c.storedDay == yesterday && c.ended && c.id !in processed {
          rows := rows + [c];
        }
      }
      assert calls[..|calls|] == calls;
    }

    method ApplyOthers(ds: seq<Delivery>, ghost before: Tables, ghost log: seq<Delivery>) returns (ghost log': seq<Delivery>)
      requires View() == Run(before, log)
      modifies this
      ensures View() == Run(before, log') && old(processed) <= processed
      ensures log' == log + ds
    {
      log' := log;
      for k := 0 to |ds|
        invariant View() == Run(before, log') && old(processed) <= processed
        invariant log' == log + ds[..k]
      {
        RunAppend(before, log', ds[k]);
        log' := log' + [ds[k]];
        var _ := UpsertDailyCDR(ds[k].entry, ds[k].fault);
      }
    }
  }
}
