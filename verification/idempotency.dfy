/** Idempotency keys: a unique insert that doubles as a lock, committed together with the work it guards. */
module Idempotency {
  import opened Money
  import opened Sorting
  import opened Sums
  import ZTotals

  /** Keys are unique per operation. */
  datatype Slot = Slot(operation: int, key: int)

  datatype Request<F, P> = Request(slot: Slot, fingerprint: F, resource: int, actor: int, body: P)

  datatype Record<F> = Record(fingerprint: F, resource: int, actor: int, completed: bool, result: Option<int>)

  datatype Refusal = OtherOwner | OtherRequest | NotCompleted

  datatype Answer = Done(result: Option<int>, replayed: bool) | Refused(why: Refusal) | Failed

  datatype Database<F, B> = Database(records: map<Slot, Record<F>>, business: B)

  /** The guarded work: the new business state and a result id, or `None` when it raises. */
  type Work<!F, !P, !B> = (B, Request<F, P>) -> Option<(B, Option<int>)>

  function Opened<F, P>(q: Request<F, P>): Record<F> {
    Record(q.fingerprint, q.resource, q.actor, false, None)
  }

  function Finished<F, P>(q: Request<F, P>, result: Option<int>): Record<F> {
    Record(q.fingerprint, q.resource, q.actor, true, result)
  }

  /** What a request that meets an existing record is told. */
  function Read<F(==), P>(r: Record<F>, q: Request<F, P>): Answer {
    if r.actor != q.actor || r.resource != q.resource then Refused(OtherOwner)
    else if r.fingerprint != q.fingerprint then Refused(OtherRequest)
    else if !r.completed then Refused(NotCompleted)
    else Done(r.result, true)
  }

  /** One request served alone. */
  function Serve<F(==), P, B>(work: Work<F, P, B>, db: Database<F, B>, q: Request<F, P>): (Database<F, B>, Answer) {
    if q.slot in db.records then (db, Read(db.records[q.slot], q))
    else match work(db.business, q)
      case None => (db, Failed)
      case Some((business, result)) =>
        (Database(db.records[q.slot := Finished(q, result)], business), Done(result, false))
  }

  function Run<F(==), P, B>(work: Work<F, P, B>, db: Database<F, B>, qs: seq<Request<F, P>>): Database<F, B> {
    if qs == [] then db else Serve(work, Run(work, db, qs[..|qs| - 1]), qs[|qs| - 1]).0
  }

  /** The table as the service writes it, inside one transaction at a time. */
  class Service<F(==), B> {
    var records: map<Slot, Record<F>>
    var business: B

    ghost function State(): Database<F, B> reads this { Database(records, business) }

    constructor (business: B)
      ensures State() == Database(map[], business)
    {
      records := map[];
      this.business := business;
    }

    /** `None` for the owner of a new key; otherwise what the stored record answers. */
    method Claim<P>(q: Request<F, P>) returns (stored: Option<Answer>)
      modifies this`records
      ensures q.slot !in old(records) ==> stored == None && records == old(records)[q.slot := Opened(q)]
      ensures q.slot in old(records) ==> stored == Some(Read(old(records)[q.slot], q)) && records == old(records)
    {
      if q.slot !in records {
        records := records[q.slot := Opened(q)];
        return None;
      }
      var record := records[q.slot];
      if record.actor != q.actor || record.resource != q.resource { return Some(Refused(OtherOwner)); }
      if record.fingerprint != q.fingerprint { return Some(Refused(OtherRequest)); }
      if !record.completed { return Some(Refused(NotCompleted)); }
      return Some(Done(record.result, true));
    }

    /** From now on the request is answered with this result, and no other record has changed. */
    method Complete<P>(q: Request<F, P>, result: Option<int>)
      requires q.slot in records && records[q.slot] == Opened(q)
      modifies this`records
      ensures q.slot in records && records[q.slot].completed && Read(records[q.slot], q) == Done(result, true)
      ensures forall slot :: slot != q.slot ==> (slot in records <==> slot in old(records))
      ensures forall slot :: slot != q.slot && slot in records ==> records[slot] == old(records)[slot]
      ensures records == old(records)[q.slot := Finished(q, result)]
    {
      var record := records[q.slot];
      records := records[q.slot := record.(result := result, completed := true)];
    }

    /** A whole request: claim, work and completion commit together or not at all. */
    method Handle<P>(work: Work<F, P, B>, q: Request<F, P>) returns (answer: Answer)
      modifies this
      ensures (State(), answer) == Serve(work, old(State()), q)
    {
      var before := records;
      var stored := Claim(q);
      if stored.Some? { return stored.value; }
      match work(business, q)
      case None =>
        records := before;
        assert State() == old(State());
        answer := Failed;
      case Some((after, result)) =>
        business := after;
        Complete(q, result);
        assert records == before[q.slot := Finished(q, result)];
        answer := Done(result, false);
    }

    method HandleAll<P>(work: Work<F, P, B>, qs: seq<Request<F, P>>)
      modifies this
      ensures State() == Run(work, old(State()), qs)
    {
      for i := 0 to |qs|
        invariant State() == Run(work, old(State()), qs[..i])
      {
        var answer := Handle(work, qs[i]);
        assert qs[..i + 1][..i] == qs[..i];
      }
      assert qs[..|qs|] == qs;
    }
  }

  // Exactly once.

  /** The work alone, with no keys at all. */
  function Performed<F, P, B>(work: Work<F, P, B>, business: B, qs: seq<Request<F, P>>): Option<B> {
    if qs == [] then Some(business)
    else match Performed(work, business, qs[..|qs| - 1])
      case None => None
      case Some(before) =>
        match work(before, qs[|qs| - 1])
        case None => None
        case Some((after, _)) => Some(after)
  }

  predicate Uses<F, P>(qs: seq<Request<F, P>>, slot: Slot) {
    exists i :: 0 <= i < |qs| && qs[i].slot == slot
  }

  /** Of a run of requests, the first one under each key whose work succeeds. */
  function Kept<F, P, B>(work: Work<F, P, B>, business: B, qs: seq<Request<F, P>>): seq<Request<F, P>> {
    if qs == [] then []
    else
      var before, q := Kept(work, business, qs[..|qs| - 1]), qs[|qs| - 1];
      if Uses(before, q.slot) || Performed(work, business, before + [q]).None? then before else before + [q]
  }

  ghost predicate OneEach<F, P>(qs: seq<Request<F, P>>) {
    forall i, j :: 0 <= i < j < |qs| ==> qs[i].slot != qs[j].slot
  }

  /** The record left by the i-th kept request. */
  ghost predicate Remembers<F, P, B>(work: Work<F, P, B>, business: B, kept: seq<Request<F, P>>,
                                     records: map<Slot, Record<F>>, i: nat)
    requires i < |kept|
  {
    match Performed(work, business, kept[..i])
    case None => false
    case Some(before) =>
      var done := work(before, kept[i]);
      done.Some? && kept[i].slot in records && records[kept[i].slot] == Finished(kept[i], done.value.1)
  }

  /** The database holds the effects of exactly the kept requests, and one completed record for each. */
  ghost predicate Reflects<F, P, B>(work: Work<F, P, B>, business: B, kept: seq<Request<F, P>>, db: Database<F, B>) {
    && Performed(work, business, kept) == Some(db.business)
    && OneEach(kept)
    && (forall slot :: slot in db.records <==> Uses(kept, slot))
    && (forall i: nat :: i < |kept| ==> Remembers(work, business, kept, db.records, i))
  }

  lemma {:induction false} KeepOneMore<F, P, B>(work: Work<F, P, B>, business: B, kept: seq<Request<F, P>>,
                                                db: Database<F, B>, q: Request<F, P>)
    requires Reflects(work, business, kept, db) && q.slot !in db.records && work(db.business, q).Some?
    ensures Reflects(work, business, kept + [q], Serve(work, db, q).0)
  {
    var more, after := kept + [q], Serve(work, db, q).0;
    assert more[..|kept|] == kept;
    assert !Uses(kept, q.slot);
    forall slot ensures slot in after.records <==> Uses(more, slot) {
      assert Uses(kept, slot) ==> Uses(more, slot) by {
        if Uses(kept, slot) {
          var i :| 0 <= i < |kept| && kept[i].slot == slot;
          assert more[i].slot == slot;
        }
      }
      assert more[|kept|].slot == q.slot;
    }
    forall i: nat | i < |more| ensures Remembers(work, business, more, after.records, i) {
      if i < |kept| {
        assert Remembers(work, business, kept, db.records, i);
        assert more[..i] == kept[..i];
        assert kept[i].slot != q.slot by { assert Uses(kept, kept[i].slot); }
      }
    }
  }

  /** Serving any requests with repeated keys does what the work alone does on the first success under each key. */
  lemma {:induction false} ExactlyOnce<F, P, B>(work: Work<F, P, B>, business: B, qs: seq<Request<F, P>>)
    ensures Reflects(work, business, Kept(work, business, qs), Run(work, Database(map[], business), qs))
  {
    if qs != [] {
      var front, q := qs[..|qs| - 1], qs[|qs| - 1];
      ExactlyOnce(work, business, front);
      var kept, db := Kept(work, business, front), Run(work, Database(map[], business), front);
      assert (kept + [q])[..|kept|] == kept;
      if q.slot !in db.records && work(db.business, q).Some? {
        KeepOneMore(work, business, kept, db, q);
      }
    }
  }

  /** No reader ever sees an unfinished record, so nobody is told that an operation has not completed. */
  lemma VisibleRecordsAreCompleted<F, P, B>(work: Work<F, P, B>, business: B, qs: seq<Request<F, P>>, q: Request<F, P>)
    ensures var db := Run(work, Database(map[], business), qs);
            && (forall slot :: slot in db.records ==> db.records[slot].completed)
            && Serve(work, db, q).1 != Refused(NotCompleted)
  {
    ExactlyOnce(work, business, qs);
    var kept, db := Kept(work, business, qs), Run(work, Database(map[], business), qs);
    forall slot | slot in db.records ensures db.records[slot].completed {
      var i: nat :| i < |kept| && kept[i].slot == slot;
      assert Remembers(work, business, kept, db.records, i);
    }
  }

  lemma {:induction false} RecordsStay<F, P, B>(work: Work<F, P, B>, db: Database<F, B>, qs: seq<Request<F, P>>, slot: Slot)
    requires slot in db.records
    ensures slot in Run(work, db, qs).records && Run(work, db, qs).records[slot] == db.records[slot]
  {
    if qs != [] {
      RecordsStay(work, db, qs[..|qs| - 1], slot);
    }
  }

  /** A request that once succeeded is answered with its first result for ever after, whatever came between, and
      changes nothing; the same key in other hands, or with another content, is refused and changes nothing. */
  lemma RetriesReplay<F, P, B>(work: Work<F, P, B>, db: Database<F, B>, q: Request<F, P>,
                               between: seq<Request<F, P>>, again: Request<F, P>)
    requires Serve(work, db, q).1.Done? && again.slot == q.slot
    ensures var now := Run(work, Serve(work, db, q).0, between);
            && Serve(work, now, again).0 == now
            && Serve(work, now, again).1
               == if again.actor != q.actor || again.resource != q.resource then Refused(OtherOwner)
                  else if again.fingerprint != q.fingerprint then Refused(OtherRequest)
                  else Done(Serve(work, db, q).1.result, true)
  {
    RecordsStay(work, Serve(work, db, q).0, between, q.slot);
  }

  /** A failed attempt leaves no trace: the key is as free as it was. */
  lemma FailureFreesTheKey<F, P, B>(work: Work<F, P, B>, db: Database<F, B>, q: Request<F, P>, retry: Request<F, P>)
    requires Serve(work, db, q).1 == Failed && retry.slot == q.slot
    ensures Serve(work, db, q).0 == db
    ensures Serve(work, Serve(work, db, q).0, retry).1 == match work(db.business, retry)
            case None => Failed
            case Some((_, result)) => Done(result, false)
  {}

  // Concurrent requests.

  datatype Phase = Arrived | Owner

  datatype Entry<F, P> = Entry(tx: nat, request: Request<F, P>, answer: Answer)

  /** Committed data, the uncommitted inserts that block others, and the requests in progress. `log` lists the
      answered requests in the order in which they took effect. */
  datatype World<F, P, B> = World(db: Database<F, B>, inserts: map<Slot, nat>, active: map<nat, (Request<F, P>, Phase)>,
                                  log: seq<Entry<F, P>>)

  datatype Event<F, P> = Arrive(tx: nat, request: Request<F, P>) | Step(tx: nat) | Abort(tx: nat)

  function Leave<F, P, B>(w: World<F, P, B>, t: nat): World<F, P, B> {
    w.(inserts := map slot | slot in w.inserts && w.inserts[slot] != t :: w.inserts[slot], active := w.active - {t})
  }

  /** An insert waits for an uncommitted one under the same key; a commit publishes record and work at once. */
  function Next<F(==), P, B>(work: Work<F, P, B>, w: World<F, P, B>, e: Event<F, P>): World<F, P, B> {
    match e
    case Arrive(t, q) => if t in w.active then w else w.(active := w.active[t := (q, Arrived)])
    case Abort(t) => Leave(w, t)
    case Step(t) =>
      if t !in w.active then w
      else match w.active[t]
        case (q, Arrived) =>
          if q.slot in w.inserts then w
          else if q.slot in w.db.records then
            Leave(w, t).(log := w.log + [Entry(t, q, Read(w.db.records[q.slot], q))])
          else w.(inserts := w.inserts[q.slot := t], active := w.active[t := (q, Owner)])
        case (q, Owner) =>
          match work(w.db.business, q)
          case None => Leave(w, t).(log := w.log + [Entry(t, q, Failed)])
          case Some((business, result)) =>
            Leave(w, t).(db := Database(w.db.records[q.slot := Finished(q, result)], business),
                         log := w.log + [Entry(t, q, Done(result, false))])
  }

  function Interleave<F(==), P, B>(work: Work<F, P, B>, w: World<F, P, B>, es: seq<Event<F, P>>): World<F, P, B> {
    if es == [] then w else Next(work, Interleave(work, w, es[..|es| - 1]), es[|es| - 1])
  }

  function Requests<F, P>(log: seq<Entry<F, P>>): seq<Request<F, P>> {
    seq(|log|, i requires 0 <= i < |log| => log[i].request)
  }

  /** Each insert belongs to one running owner, and its key is not in the committed table. */
  ghost predicate InsertsOwned<F(!new), P(!new), B(!new)>(w: World<F, P, B>) {
    && (forall slot :: slot in w.inserts ==>
          && slot !in w.db.records && w.inserts[slot] in w.active
          && w.active[w.inserts[slot]].0.slot == slot && w.active[w.inserts[slot]].1 == Owner)
    && (forall t :: t in w.active && w.active[t].1 == Owner ==>
          w.active[t].0.slot in w.inserts && w.inserts[w.active[t].0.slot] == t)
  }

  /** The log is a serial history: served one at a time in that order, it gives these answers and this database. */
  ghost predicate Serial<F(!new), P(!new), B(!new)>(work: Work<F, P, B>, start: Database<F, B>, w: World<F, P, B>) {
    && w.db == Run(work, start, Requests(w.log))
    && forall i :: 0 <= i < |w.log| ==>
         w.log[i].answer == Serve(work, Run(work, start, Requests(w.log[..i])), w.log[i].request).1
  }

  lemma LogOneMore<F(!new), P(!new), B(!new)>(work: Work<F, P, B>, start: Database<F, B>, w: World<F, P, B>,
                                              after: World<F, P, B>, entry: Entry<F, P>)
    requires Serial(work, start, w) && after.log == w.log + [entry]
    requires (after.db, entry.answer) == Serve(work, w.db, entry.request)
    ensures Serial(work, start, after)
  {
    assert Requests(after.log) == Requests(w.log) + [entry.request];
    assert Requests(after.log)[..|w.log|] == Requests(w.log);
    forall i | 0 <= i < |after.log|
      ensures after.log[i].answer == Serve(work, Run(work, start, Requests(after.log[..i])), after.log[i].request).1
    {
      assert after.log[..i] == w.log[..i];
      assert w.log[..|w.log|] == w.log;
    }
  }

  /** Nobody leaves unanswered but by a rollback: the step in which a request ends logs it with what it is told. */
  lemma AnswersAreLogged<F(!new), P(!new), B(!new)>(work: Work<F, P, B>, w: World<F, P, B>, t: nat)
    requires InsertsOwned(w) && t in w.active && t !in Next(work, w, Step(t)).active
    ensures var q, after := w.active[t].0, Next(work, w, Step(t));
            after.log == w.log + [Entry(t, q, Serve(work, w.db, q).1)] && after.db == Serve(work, w.db, q).0
  {}

  lemma LeaveKeepsOwned<F(!new), P(!new), B(!new)>(w: World<F, P, B>, t: nat)
    requires InsertsOwned(w)
    ensures InsertsOwned(Leave(w, t))
  {}

  lemma {:induction false} InsertsStayOwned<F(!new), P(!new), B(!new)>(work: Work<F, P, B>, w: World<F, P, B>,
                                                                       e: Event<F, P>)
    requires InsertsOwned(w)
    ensures InsertsOwned(Next(work, w, e))
  {
    hide Requests;
    match e
    case Arrive(t, q) =>
    case Abort(t) => LeaveKeepsOwned(w, t);
    case Step(t) =>
      LeaveKeepsOwned(w, t);
      if t in w.active && w.active[t].1 == Owner {
        var q, left := w.active[t].0, Leave(w, t);
        assert w.inserts[q.slot] == t && q.slot !in left.inserts;
        if work(w.db.business, q).Some? {
          CommitKeepsOwned(left, Next(work, w, e), q.slot);
        } else {
          CommitKeepsOwned(left, Next(work, w, e), q.slot);
        }
      }
  }

  /** A commit touches one key, and that is no longer being inserted. */
  lemma CommitKeepsOwned<F(!new), P(!new), B(!new)>(left: World<F, P, B>, after: World<F, P, B>, slot: Slot)
    requires InsertsOwned(left) && slot !in left.inserts
    requires after.inserts == left.inserts && after.active == left.active
    requires after.db.records.Keys <= left.db.records.Keys + {slot}
    ensures InsertsOwned(after)
  {}

  lemma SameHistory<F(!new), P(!new), B(!new)>(work: Work<F, P, B>, start: Database<F, B>, w: World<F, P, B>,
                                               after: World<F, P, B>)
    requires Serial(work, start, w) && after.db == w.db && after.log == w.log
    ensures Serial(work, start, after)
  {
    hide Run, Requests;
  }

  lemma NextKeepsSerial<F(!new), P(!new), B(!new)>(work: Work<F, P, B>, start: Database<F, B>, w: World<F, P, B>,
                                                   e: Event<F, P>)
    requires InsertsOwned(w) && Serial(work, start, w)
    ensures Serial(work, start, Next(work, w, e))
  {
    hide Run, Requests, Serial;
    var after := Next(work, w, e);
    if e.Step? && e.tx in w.active && after.log != w.log {
      LogOneMore(work, start, w, after, after.log[|w.log|]);
    } else {
      assert after.log == w.log && after.db == w.db;
      SameHistory(work, start, w, after);
    }
  }

  /** However requests interleave, wait and roll back, what is committed and what each caller was told is what some
      one-at-a-time order of the answered requests gives, so the exactly-once law holds of it. */
  lemma {:induction false} InterleavingsAreSerial<F(!new), P(!new), B(!new)>(work: Work<F, P, B>, business: B,
                                                                            es: seq<Event<F, P>>)
    ensures var start := Database(map[], business);
            var w := Interleave(work, World(start, map[], map[], []), es);
            && InsertsOwned(w) && Serial(work, start, w)
            && Reflects(work, business, Kept(work, business, Requests(w.log)), w.db)
  {
    var start := Database(map[], business);
    var w := Interleave(work, World(start, map[], map[], []), es);
    if es != [] {
      InterleavingsAreSerial(work, business, es[..|es| - 1]);
      var before := Interleave(work, World(start, map[], map[], []), es[..|es| - 1]);
      InsertsStayOwned(work, before, es[|es| - 1]);
      NextKeepsSerial(work, start, before, es[|es| - 1]);
    }
    ExactlyOnce(work, business, Requests(w.log));
  }

  /** A request that waits waits for a running owner, and an owner never waits here. */
  lemma WaitersHaveAnOwner<F(!new), P(!new), B(!new)>(work: Work<F, P, B>, w: World<F, P, B>, t: nat)
    requires InsertsOwned(w) && t in w.active && Next(work, w, Step(t)) == w
    ensures w.active[t].1 == Arrived && w.active[t].0.slot in w.inserts
    ensures var owner := w.inserts[w.active[t].0.slot];
            owner in w.active && owner != t && owner !in Next(work, w, Step(owner)).active
  {
    assert t in w.active && w.active[t].1 == Arrived by {
      assert t !in Leave(w, t).active;
    }
  }

  // The checkout's fingerprint.

  /** One tender as it is fingerprinted: its means and its amount at the storage scale. */
  datatype Tender = Tender(means: ZTotals.Method, amount: Micro)

  /** The canonical text of a checkout request; hashing it is taken to be injective. */
  datatype Checkout = Checkout(sale: int, payments: seq<Tender>)

  /** A tender as the browser sends it. */
  datatype Payment = Payment(means: ZTotals.Method, amount: Decimal)

  function Tenders(payments: seq<Payment>): seq<Tender> {
    seq(|payments|, i requires 0 <= i < |payments| => Tender(payments[i].means, Quantize(payments[i].amount)))
  }

  function CheckoutFingerprint(sale: int, payments: seq<Payment>, earlier: (Tender, Tender) -> bool): Checkout {
    Checkout(sale, Sort(Tenders(payments), earlier))
  }

  /** One for a payment by these means that comes to this many millionths. */
  function Paying(means: ZTotals.Method, amount: Micro): Payment -> int {
    (p: Payment) => if p.means == means && Quantize(p.amount) == amount then 1 else 0
  }

  lemma {:induction false} TendersCounted(payments: seq<Payment>, means: ZTotals.Method, amount: Micro)
    ensures multiset(Tenders(payments))[Tender(means, amount)] == Count(payments, Paying(means, amount))
  {
    hide Quantize;
    if payments != [] {
      var front, last := payments[..|payments| - 1], payments[|payments| - 1];
      TendersCounted(front, means, amount);
      assert Tenders(payments) == Tenders(front) + [Tender(last.means, Quantize(last.amount))];
    }
  }

  lemma SameTenders(payments: seq<Payment>, others: seq<Payment>)
    ensures multiset(Tenders(payments)) == multiset(Tenders(others))
       <==> forall means, amount :: Count(payments, Paying(means, amount)) == Count(others, Paying(means, amount))
  {
    hide Tenders, Paying, Count;
    var a, b := multiset(Tenders(payments)), multiset(Tenders(others));
    forall means, amount
      ensures a[Tender(means, amount)] == Count(payments, Paying(means, amount))
      ensures b[Tender(means, amount)] == Count(others, Paying(means, amount))
    {
      TendersCounted(payments, means, amount);
      TendersCounted(others, means, amount);
    }
    if forall means, amount :: Count(payments, Paying(means, amount)) == Count(others, Paying(means, amount)) {
      forall t: Tender ensures a[t] == b[t] {
        assert t == Tender(t.means, t.amount);
        assert Count(payments, Paying(t.means, t.amount)) == Count(others, Paying(t.means, t.amount));
      }
    }
  }

  /** Two checkouts have the same fingerprint exactly when they charge the same sale with as many payments of each amount,
      to the millionth, by each means: their order and the spelling of the amounts do not matter, and equal payments are
      not merged. */
  lemma CheckoutFingerprintsAgree(sale: int, payments: seq<Payment>, otherSale: int, others: seq<Payment>,
                                  earlier: (Tender, Tender) -> bool)
    requires TotalOrder(earlier) && Antisymmetric(earlier)
    ensures CheckoutFingerprint(sale, payments, earlier) == CheckoutFingerprint(otherSale, others, earlier)
       <==> && sale == otherSale
            && forall means, amount :: Count(payments, Paying(means, amount)) == Count(others, Paying(means, amount))
  {
    SortIsCanonical(Tenders(payments), Tenders(others), earlier);
    SameTenders(payments, others);
  }
}
