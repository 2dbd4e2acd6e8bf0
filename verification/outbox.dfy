/** The mail outbox: batches claimed with skip-locked reads, sent, marked and committed by any number of workers. */
module Outbox {

  const MAX_ATTEMPTS: nat := 5

  datatype Status = Pending | Sent | Failed

  datatype Message = Message(status: Status, attempts: nat)

  /** What SMTP answered, by message id. */
  type Answers = map<nat, bool>

  function Marked(m: Message, delivered: bool): Message {
    if delivered then Message(Sent, m.attempts + 1)
    else Message(if m.attempts + 1 >= MAX_ATTEMPTS then Failed else Pending, m.attempts + 1)
  }

  /** The oldest pending messages that nobody has locked. */
  function Claimable(queue: seq<Message>, locked: set<nat>, limit: nat): (ids: seq<nat>)
    ensures forall i :: 0 <= i < |ids| ==> ids[i] < |queue|
    ensures |ids| <= limit
  {
    if queue == [] then []
    else
      var last := |queue| - 1;
      var before := Claimable(queue[..last], locked, limit);
      if |before| < limit && queue[last].status == Pending && last !in locked then before + [last] else before
  }

  predicate Free(queue: seq<Message>, locked: set<nat>, id: nat) {
    id < |queue| && queue[id].status == Pending && id !in locked
  }

  /** Distinct free messages, in order. */
  ghost predicate AllFree(queue: seq<Message>, locked: set<nat>, ids: seq<nat>) {
    && (forall i :: 0 <= i < |ids| ==> ids[i] < |queue| && queue[ids[i]].status == Pending && ids[i] !in locked)
    && (forall i, j :: 0 <= i < j < |ids| ==> ids[i] < ids[j])
  }

  lemma {:induction false} ClaimableAreFree(queue: seq<Message>, locked: set<nat>, limit: nat)
    ensures AllFree(queue, locked, Claimable(queue, locked, limit))
  {
    if queue != [] {
      ClaimableAreFree(queue[..|queue| - 1], locked, limit);
    }
  }

  /** No free message is passed over: one that is left is later than all that are claimed, and the batch is full. */
  lemma {:induction false} ClaimableAreOldest(queue: seq<Message>, locked: set<nat>, limit: nat, id: nat)
    requires Free(queue, locked, id) && id !in Claimable(queue, locked, limit)
    ensures var ids := Claimable(queue, locked, limit);
            |ids| == limit && forall i :: 0 <= i < |ids| ==> ids[i] < id
  {
    var last := |queue| - 1;
    var before := Claimable(queue[..last], locked, limit);
    if id < last {
      assert id in before ==> id in Claimable(queue, locked, limit);
      ClaimableAreOldest(queue[..last], locked, limit, id);
    }
  }

  function Marking(queue: seq<Message>, answers: Answers): seq<Message> {
    seq(|queue|, i requires 0 <= i < |queue| => if i in answers then Marked(queue[i], answers[i]) else queue[i])
  }

  ghost predicate Sensible(m: Message) {
    && (m.status == Pending ==> m.attempts < MAX_ATTEMPTS)
    && (m.status == Failed ==> m.attempts == MAX_ATTEMPTS)
    && (m.status == Sent ==> 1 <= m.attempts <= MAX_ATTEMPTS)
  }

  ghost predicate AllSensible(queue: seq<Message>) {
    forall i :: 0 <= i < |queue| ==> Sensible(queue[i])
  }

  /** The attempts that the pending messages have left. */
  ghost function Remaining(queue: seq<Message>): nat {
    if queue == [] then 0
    else
      var m := queue[|queue| - 1];
      Remaining(queue[..|queue| - 1]) + (if m.status == Pending && m.attempts < MAX_ATTEMPTS then MAX_ATTEMPTS - m.attempts else 0)
  }

  lemma {:induction false} MarkingSpends(queue: seq<Message>, answers: Answers)
    requires AllSensible(queue) && forall id :: id in answers && id < |queue| ==> queue[id].status == Pending
    ensures Remaining(Marking(queue, answers)) <= Remaining(queue)
    ensures (exists id :: id in answers && id < |queue|) ==> Remaining(Marking(queue, answers)) < Remaining(queue)
  {
    if queue != [] {
      var front := queue[..|queue| - 1];
      MarkingSpends(front, answers);
      assert Marking(queue, answers)[..|front|] == Marking(front, answers);
      assert |front| in answers ==> Sensible(queue[|front|]);
    }
  }

  lemma {:induction false} NoneRemaining(queue: seq<Message>)
    requires AllSensible(queue)
    ensures Remaining(queue) == 0 <==> forall i :: 0 <= i < |queue| ==> queue[i].status != Pending
  {
    if queue != [] {
      var front := queue[..|queue| - 1];
      NoneRemaining(front);
      assert Sensible(queue[|front|]);
      if forall i :: 0 <= i < |front| ==> front[i].status != Pending {
        assert forall i :: 0 <= i < |front| ==> queue[i] == front[i];
      } else {
        var i :| 0 <= i < |front| && front[i].status == Pending;
        assert queue[i].status == Pending;
      }
    }
  }

  // Several workers at once.

  datatype Claim = Claim(ids: seq<nat>, answers: Answers)

  /** Committed rows, the claims in progress, and the history of what was committed, batch by batch. */
  datatype World = World(queue: seq<Message>, claims: map<nat, Claim>, log: seq<Answers>)

  /** `Crash` is anything that rolls a batch back, mail already sent included. */
  datatype Event = Enqueue | Poll(worker: nat, limit: nat) | Send(worker: nat, delivered: bool) | Commit(worker: nat) | Crash(worker: nat)

  function Locked(claims: map<nat, Claim>): set<nat> {
    set t, id | t in claims && id in claims[t].ids :: id
  }

  function Next(w: World, e: Event): World {
    match e
    case Enqueue => w.(queue := w.queue + [Message(Pending, 0)])
    case Poll(t, limit) =>
      if t in w.claims then w
      else w.(claims := w.claims[t := Claim(Claimable(w.queue, Locked(w.claims), limit), map[])])
    case Send(t, delivered) =>
      if t !in w.claims || |w.claims[t].answers| >= |w.claims[t].ids| then w
      else
        var c := w.claims[t];
        w.(claims := w.claims[t := c.(answers := c.answers[c.ids[|c.answers|] := delivered])])
    case Commit(t) =>
      if t !in w.claims || |w.claims[t].answers| < |w.claims[t].ids| then w
      else World(Marking(w.queue, w.claims[t].answers), w.claims - {t}, w.log + [w.claims[t].answers])
    case Crash(t) => w.(claims := w.claims - {t})
  }

  function Run(w: World, events: seq<Event>): World {
    if events == [] then w else Next(Run(w, events[..|events| - 1]), events[|events| - 1])
  }

  ghost function Tries(log: seq<Answers>, id: nat): nat {
    if log == [] then 0 else Tries(log[..|log| - 1], id) + (if id in log[|log| - 1] then 1 else 0)
  }

  ghost function Deliveries(log: seq<Answers>, id: nat): nat {
    if log == [] then 0
    else Deliveries(log[..|log| - 1], id) + (if id in log[|log| - 1] && log[|log| - 1][id] then 1 else 0)
  }

  /** A claim holds distinct pending messages and has answers for the first of them. */
  ghost predicate ClaimOk(queue: seq<Message>, c: Claim) {
    && (forall i :: 0 <= i < |c.ids| ==> c.ids[i] < |queue| && queue[c.ids[i]].status == Pending)
    && (forall i, j :: 0 <= i < j < |c.ids| ==> c.ids[i] != c.ids[j])
    && |c.answers| <= |c.ids|
    && (forall id :: id in c.answers <==> id in c.ids[..|c.answers|])
  }

  ghost predicate Disjoint(claims: map<nat, Claim>) {
    forall t, u, id :: t in claims && u in claims && t != u && id in claims[t].ids ==> id !in claims[u].ids
  }

  /** A message's row is what its committed attempts made of it. */
  ghost predicate MatchesLog(queue: seq<Message>, log: seq<Answers>) {
    && (forall id: nat :: id < |queue| ==>
          && queue[id].attempts == Tries(log, id)
          && Deliveries(log, id) == if queue[id].status == Sent then 1 else 0)
    && (forall id: nat :: id >= |queue| ==> Tries(log, id) == 0 && Deliveries(log, id) == 0)
  }

  ghost predicate Inv(w: World) {
    && AllSensible(w.queue) && MatchesLog(w.queue, w.log) && Disjoint(w.claims)
    && forall t :: t in w.claims ==> ClaimOk(w.queue, w.claims[t])
  }

  lemma LogOneMore(log: seq<Answers>, answers: Answers, id: nat)
    ensures Tries(log + [answers], id) == Tries(log, id) + (if id in answers then 1 else 0)
    ensures Deliveries(log + [answers], id) == Deliveries(log, id) + (if id in answers && answers[id] then 1 else 0)
  {
    assert (log + [answers])[..|log|] == log;
  }

  lemma ClaimedIsLocked(claims: map<nat, Claim>, t: nat, id: nat)
    requires t in claims && id in claims[t].ids
    ensures id in Locked(claims)
  {}

  lemma FreeClaimIsOk(queue: seq<Message>, locked: set<nat>, ids: seq<nat>)
    requires AllFree(queue, locked, ids)
    ensures ClaimOk(queue, Claim(ids, map[]))
  {}

  lemma PollKeeps(w: World, t: nat, limit: nat)
    requires Inv(w) && t !in w.claims
    ensures Inv(Next(w, Poll(t, limit)))
  {
    hide MatchesLog, AllSensible, Claimable, Locked, ClaimOk;
    var ids := Claimable(w.queue, Locked(w.claims), limit);
    ClaimableAreFree(w.queue, Locked(w.claims), limit);
    forall u, id | u in w.claims && id in w.claims[u].ids ensures id !in ids {
      ClaimedIsLocked(w.claims, u, id);
    }
    FreeClaimIsOk(w.queue, Locked(w.claims), ids);
  }

  lemma AnswerOneMore(queue: seq<Message>, c: Claim, delivered: bool)
    requires ClaimOk(queue, c) && |c.answers| < |c.ids|
    ensures ClaimOk(queue, c.(answers := c.answers[c.ids[|c.answers|] := delivered]))
  {
    var n := |c.answers|;
    var d := c.(answers := c.answers[c.ids[n] := delivered]);
    assert c.ids[n] !in c.ids[..n];
    assert c.ids[..n + 1] == c.ids[..n] + [c.ids[n]];
    assert |d.answers| == n + 1;
  }

  lemma SendKeeps(w: World, t: nat, delivered: bool)
    requires Inv(w)
    ensures Inv(Next(w, Send(t, delivered)))
  {
    hide MatchesLog, ClaimOk, AllSensible;
    if t in w.claims && |w.claims[t].answers| < |w.claims[t].ids| {
      AnswerOneMore(w.queue, w.claims[t], delivered);
    }
  }

  lemma NewMessage(queue: seq<Message>, log: seq<Answers>)
    requires AllSensible(queue) && MatchesLog(queue, log)
    ensures AllSensible(queue + [Message(Pending, 0)]) && MatchesLog(queue + [Message(Pending, 0)], log)
  {}

  lemma OlderClaim(queue: seq<Message>, m: Message, c: Claim)
    requires ClaimOk(queue, c)
    ensures ClaimOk(queue + [m], c)
  {}

  lemma EnqueueKeeps(w: World)
    requires Inv(w)
    ensures Inv(Next(w, Enqueue))
  {
    hide Disjoint, MatchesLog, AllSensible, ClaimOk;
    NewMessage(w.queue, w.log);
    forall t | t in w.claims ensures ClaimOk(w.queue + [Message(Pending, 0)], w.claims[t]) {
      OlderClaim(w.queue, Message(Pending, 0), w.claims[t]);
    }
  }

  lemma CrashKeeps(w: World, t: nat)
    requires Inv(w)
    ensures Inv(Next(w, Crash(t)))
  {
    hide MatchesLog, ClaimOk, AllSensible;
  }

  lemma OthersKeep(queue: seq<Message>, done: Claim, other: Claim)
    requires ClaimOk(queue, done) && ClaimOk(queue, other)
    requires forall id :: id in other.ids ==> id !in done.ids
    ensures ClaimOk(Marking(queue, done.answers), other)
  {
    forall i | 0 <= i < |other.ids| ensures other.ids[i] !in done.answers {
      assert other.ids[i] in other.ids;
    }
  }

  lemma CommitKeeps(w: World, t: nat)
    requires Inv(w)
    ensures Inv(Next(w, Commit(t)))
  {
    hide MatchesLog, ClaimOk, AllSensible, Marking;
    var after := Next(w, Commit(t));
    if after != w && t in w.claims {
      var c := w.claims[t];
      CommitMatches(w.queue, w.log, c);
      forall u | u in after.claims ensures ClaimOk(after.queue, after.claims[u]) {
        OthersKeep(w.queue, c, w.claims[u]);
      }
    }
  }

  lemma AnsweredArePending(queue: seq<Message>, c: Claim)
    requires ClaimOk(queue, c)
    ensures forall id :: id in c.answers ==> id < |queue| && queue[id].status == Pending
  {
    forall id | id in c.answers ensures id < |queue| && queue[id].status == Pending {
      assert id in c.ids[..|c.answers|];
    }
  }

  lemma MarkingIsSensible(queue: seq<Message>, answers: Answers)
    requires AllSensible(queue) && forall id :: id in answers && id < |queue| ==> queue[id].status == Pending
    ensures AllSensible(Marking(queue, answers))
  {}

  lemma MarkingMatches(queue: seq<Message>, log: seq<Answers>, answers: Answers)
    requires MatchesLog(queue, log) && forall id :: id in answers ==> id < |queue| && queue[id].status == Pending
    ensures MatchesLog(Marking(queue, answers), log + [answers])
  {
    forall id: nat
      ensures Tries(log + [answers], id) == Tries(log, id) + (if id in answers then 1 else 0)
      ensures Deliveries(log + [answers], id) == Deliveries(log, id) + (if id in answers && answers[id] then 1 else 0)
    {
      LogOneMore(log, answers, id);
    }
  }

  lemma CommitMatches(queue: seq<Message>, log: seq<Answers>, c: Claim)
    requires AllSensible(queue) && MatchesLog(queue, log) && ClaimOk(queue, c)
    ensures AllSensible(Marking(queue, c.answers)) && MatchesLog(Marking(queue, c.answers), log + [c.answers])
  {
    hide AllSensible, MatchesLog, Marking;
    AnsweredArePending(queue, c);
    MarkingIsSensible(queue, c.answers);
    MarkingMatches(queue, log, c.answers);
  }

  lemma {:induction false} NextKeeps(w: World, e: Event)
    requires Inv(w)
    ensures Inv(Next(w, e))
  {
    hide Inv;
    match e
    case Enqueue => EnqueueKeeps(w);
    case Poll(t, limit) => if t !in w.claims { PollKeeps(w, t, limit); }
    case Send(t, delivered) => SendKeeps(w, t, delivered);
    case Commit(t) => CommitKeeps(w, t);
    case Crash(t) => CrashKeeps(w, t);
  }

  lemma {:induction false} RunKeeps(w: World, events: seq<Event>)
    requires Inv(w)
    ensures Inv(Run(w, events))
  {
    hide Inv, Next;
    if events != [] {
      RunKeeps(w, events[..|events| - 1]);
      NextKeeps(Run(w, events[..|events| - 1]), events[|events| - 1]);
    }
  }

  /** In every interleaving of polls, sends, commits and crashes from an empty outbox: claims are disjoint; a pending
      message has fewer than five attempts, all failed; a failed one exactly five, all failed; and a sent one was
      committed as delivered exactly once. */
  lemma {:induction false} OutboxIsSafe(events: seq<Event>)
    ensures var w := Run(World([], map[], []), events);
            && Disjoint(w.claims)
            && forall id: nat :: id < |w.queue| ==>
                 && (w.queue[id].status == Pending ==> Tries(w.log, id) < MAX_ATTEMPTS && Deliveries(w.log, id) == 0)
                 && (w.queue[id].status == Failed ==> Tries(w.log, id) == MAX_ATTEMPTS && Deliveries(w.log, id) == 0)
                 && (w.queue[id].status == Sent ==> Deliveries(w.log, id) == 1)
  {
    RunKeeps(World([], map[], []), events);
  }

  predicate Commits(w: World, e: Event) {
    && e.Commit? && e.worker in w.claims && w.claims[e.worker].ids != []
    && |w.claims[e.worker].answers| == |w.claims[e.worker].ids|
  }

  /** How many non-empty batches were committed. */
  ghost function Batches(w: World, events: seq<Event>): nat {
    if events == [] then 0
    else
      var front, e := events[..|events| - 1], events[|events| - 1];
      Batches(w, front) + (if Commits(Run(w, front), e) then 1 else 0)
  }

  lemma {:induction false} NextSpends(w: World, e: Event)
    requires Inv(w) && !e.Enqueue?
    ensures Remaining(Next(w, e).queue) <= Remaining(w.queue)
    ensures Commits(w, e) ==> Remaining(Next(w, e).queue) < Remaining(w.queue)
  {
    if e.Commit? && e.worker in w.claims {
      var c := w.claims[e.worker];
      assert ClaimOk(w.queue, c);
      forall id | id in c.answers ensures id < |w.queue| && w.queue[id].status == Pending {
        assert id in c.ids[..|c.answers|];
      }
      MarkingSpends(w.queue, c.answers);
      if Commits(w, e) {
        assert c.ids[0] in c.ids[..|c.answers|];
        assert c.ids[0] in c.answers;
      }
    }
  }

  /** With nothing new queued, however many workers interleave and crash and whatever SMTP answers, every non-empty
      commit uses up some of the attempts that were left: there are at most that many. */
  lemma {:induction false} BatchesAreBounded(w: World, events: seq<Event>)
    requires Inv(w) && forall i :: 0 <= i < |events| ==> !events[i].Enqueue?
    ensures Batches(w, events) + Remaining(Run(w, events).queue) <= Remaining(w.queue)
  {
    hide Inv, Next, Remaining, Commits;
    if events != [] {
      var front := events[..|events| - 1];
      BatchesAreBounded(w, front);
      RunKeeps(w, front);
      NextSpends(Run(w, front), events[|events| - 1]);
    }
  }

  // Draining, whoever does it.

  /** A poll of an idle worker, with room in its batch, claims something whenever a message is pending and free. */
  lemma PollClaims(w: World, t: nat, limit: nat, id: nat)
    requires t !in w.claims && limit > 0 && Free(w.queue, Locked(w.claims), id)
    ensures Next(w, Poll(t, limit)).claims[t].ids != []
  {
    var ids := Claimable(w.queue, Locked(w.claims), limit);
    if id !in ids { ClaimableAreOldest(w.queue, Locked(w.claims), limit, id); }
  }

  /** One whole batch: some worker, some limit, and whatever SMTP answers. */
  datatype Round = Round(worker: nat, limit: nat, smtp: nat -> bool)

  /** A worker polls, sends all that it claimed, and commits. */
  function Batch(w: World, r: Round): seq<Event> {
    var ids := Claimable(w.queue, Locked(w.claims), r.limit);
    [Poll(r.worker, r.limit)] + Sends(r, ids) + [Commit(r.worker)]
  }

  function Sends(r: Round, ids: seq<nat>): seq<Event> {
    seq(|ids|, i requires 0 <= i < |ids| => Send(r.worker, r.smtp(ids[i])))
  }

  function Schedule(w: World, rounds: seq<Round>): seq<Event> {
    if rounds == [] then []
    else
      var before := Schedule(w, rounds[..|rounds| - 1]);
      before + Batch(Run(w, before), rounds[|rounds| - 1])
  }

  lemma {:induction false} RunAppend(w: World, a: seq<Event>, b: seq<Event>)
    ensures Run(w, a + b) == Run(Run(w, a), b)
  {
    hide Next;
    if b == [] {
      assert a + b == a;
    } else {
      RunAppend(w, a, b[..|b| - 1]);
      assert (a + b)[..|a + b| - 1] == a + b[..|b| - 1];
    }
  }

  lemma RunOne(w: World, e: Event)
    ensures Run(w, [e]) == Next(w, e)
  {
    assert [e][..0] == [];
    assert Run(w, []) == w;
  }

  /** A worker has answered the first `n` messages of its claim, and nothing else has moved. */
  ghost predicate Answered(w: World, after: World, r: Round, n: nat) {
    var t := r.worker;
    && t in w.claims && t in after.claims
    && after == w.(claims := w.claims[t := after.claims[t]])
    && ClaimOk(w.queue, after.claims[t])
    && after.claims[t].ids == w.claims[t].ids && |after.claims[t].answers| == n
    && forall id :: id in after.claims[t].answers ==> after.claims[t].answers[id] == r.smtp(id)
  }

  lemma OneMoreAnswer(w: World, before: World, r: Round, n: nat)
    requires Answered(w, before, r, n) && n < |w.claims[r.worker].ids|
    ensures Answered(w, Next(before, Send(r.worker, r.smtp(w.claims[r.worker].ids[n]))), r, n + 1)
  {
    hide ClaimOk;
    var t, delivered := r.worker, r.smtp(w.claims[r.worker].ids[n]);
    AnswerOneMore(before.queue, before.claims[t], delivered);
    AnswerCounts(before.queue, before.claims[t], delivered);
  }

  /** Sending answers the claim's messages one after another and touches nothing else. */
  lemma {:induction false} SendsAnswer(w: World, r: Round, n: nat)
    requires r.worker in w.claims && ClaimOk(w.queue, w.claims[r.worker]) && w.claims[r.worker].answers == map[]
    requires n <= |w.claims[r.worker].ids|
    ensures Answered(w, Run(w, Sends(r, w.claims[r.worker].ids[..n])), r, n)
  {
    hide ClaimOk;
    var ids := w.claims[r.worker].ids;
    if n == 0 {
      assert Sends(r, ids[..0]) == [];
      assert w.claims == w.claims[r.worker := w.claims[r.worker]];
    } else {
      hide Next, Answered;
      SendsAnswer(w, r, n - 1);
      var before := Run(w, Sends(r, ids[..n - 1]));
      var e := Send(r.worker, r.smtp(ids[n - 1]));
      assert Sends(r, ids[..n]) == Sends(r, ids[..n - 1]) + [e];
      RunAppend(w, Sends(r, ids[..n - 1]), [e]);
      RunOne(before, e);
      OneMoreAnswer(w, before, r, n - 1);
    }
  }

  lemma AnswerCounts(queue: seq<Message>, c: Claim, delivered: bool)
    requires ClaimOk(queue, c) && |c.answers| < |c.ids|
    ensures |c.answers[c.ids[|c.answers|] := delivered]| == |c.answers| + 1
  {
    assert c.ids[|c.answers|] !in c.ids[..|c.answers|];
  }

  /** The events of a batch, run one after another. */
  lemma BatchRuns(w: World, r: Round)
    ensures var polled := Next(w, Poll(r.worker, r.limit));
            var sent := Run(polled, Sends(r, Claimable(w.queue, Locked(w.claims), r.limit)));
            Run(w, Batch(w, r)) == Next(sent, Commit(r.worker))
  {
    hide Next, Sends, Claimable, Run;
    var ids := Claimable(w.queue, Locked(w.claims), r.limit);
    RunOne(w, Poll(r.worker, r.limit));
    RunAppend(w, [Poll(r.worker, r.limit)], Sends(r, ids));
    RunAppend(w, [Poll(r.worker, r.limit)] + Sends(r, ids), [Commit(r.worker)]);
    RunOne(Run(Next(w, Poll(r.worker, r.limit)), Sends(r, ids)), Commit(r.worker));
  }

  lemma CommitsAll(w: World, r: Round, ids: seq<nat>, sent: World) returns (answers: Answers)
    requires r.worker !in w.claims
    requires Answered(w.(claims := w.claims[r.worker := Claim(ids, map[])]), sent, r, |ids|)
    ensures Next(sent, Commit(r.worker)) == World(Marking(w.queue, answers), w.claims, w.log + [answers])
    ensures (forall id :: id in answers <==> id in ids) && (forall id :: id in answers ==> answers[id] == r.smtp(id))
  {
    hide Marking;
    answers := sent.claims[r.worker].answers;
    assert ids[..|ids|] == ids;
    assert sent.claims - {r.worker} == w.claims;
  }

  lemma BatchAnswers(w: World, r: Round) returns (answers: Answers)
    requires Inv(w) && r.worker !in w.claims
    ensures Run(w, Batch(w, r)) == World(Marking(w.queue, answers), w.claims, w.log + [answers])
    ensures forall id :: id in answers <==> id in Claimable(w.queue, Locked(w.claims), r.limit)
    ensures forall id :: id in answers ==> answers[id] == r.smtp(id)
  {
    hide MatchesLog, AllSensible, Disjoint, Claimable, Marking, Run, Sends, Batch, Locked, ClaimOk, Answered;
    var polled := Next(w, Poll(r.worker, r.limit));
    var ids := Claimable(w.queue, Locked(w.claims), r.limit);
    assert polled == w.(claims := w.claims[r.worker := Claim(ids, map[])]);
    NextKeeps(w, Poll(r.worker, r.limit));
    assert ClaimOk(polled.queue, polled.claims[r.worker]);
    hide Next, Inv;
    SendsAnswer(polled, r, |ids|);
    assert ids[..|ids|] == ids;
    BatchRuns(w, r);
    answers := CommitsAll(w, r, ids, Run(polled, Sends(r, ids)));
  }

  /** Whatever else is in progress, a worker's whole batch does what one worker's loop does: it marks the oldest free
      messages as SMTP answered, one attempt each, and nothing else. */
  lemma BatchMarks(w: World, r: Round)
    requires Inv(w) && r.worker !in w.claims
    ensures var ids, after := Claimable(w.queue, Locked(w.claims), r.limit), Run(w, Batch(w, r));
            && |after.queue| == |w.queue| && after.claims == w.claims && |after.log| == |w.log| + 1
            && forall id: nat :: id < |w.queue| ==>
                 var m, n := w.queue[id], after.queue[id];
                 if id !in ids then n == m
                 else && n.attempts == m.attempts + 1
                      && n.status == if r.smtp(id) then Sent else if n.attempts >= MAX_ATTEMPTS then Failed else Pending
  {
    hide Inv, Batch, Run, Claimable, Marking;
    var answers := BatchAnswers(w, r);
    MarkingAt(w.queue, answers);
  }

  /** With no batch open, a whole batch leaves none open and, if anything was pending, fewer attempts. */
  lemma BatchDrains(w: World, r: Round)
    requires Inv(w) && w.claims == map[] && r.limit > 0
    ensures var after := Run(w, Batch(w, r));
            && Inv(after) && after.claims == map[]
            && (Remaining(w.queue) == 0 || Remaining(after.queue) < Remaining(w.queue))
            && Remaining(after.queue) <= Remaining(w.queue)
  {
    hide Remaining, MatchesLog, AllSensible, ClaimOk, Disjoint;
    var polled := Next(w, Poll(r.worker, r.limit));
    var ids := Claimable(w.queue, Locked(w.claims), r.limit);
    assert polled.claims[r.worker].ids == ids && polled.claims.Keys == {r.worker};
    NextKeeps(w, Poll(r.worker, r.limit));
    SendsAnswer(polled, r, |ids|);
    assert ids[..|ids|] == ids;
    var sent := Run(polled, Sends(r, ids));
    BatchRuns(w, r);
    RunKeeps(polled, Sends(r, ids));
    NextKeeps(sent, Commit(r.worker));
    NextSpends(sent, Commit(r.worker));
    if Remaining(w.queue) > 0 {
      SomethingIsPending(w.queue);
      var id: nat :| id < |w.queue| && w.queue[id].status == Pending;
      assert Locked(w.claims) == {};
      PollClaims(w, r.worker, r.limit, id);
    }
  }

  lemma SomethingIsPending(queue: seq<Message>)
    requires AllSensible(queue) && Remaining(queue) > 0
    ensures exists id: nat :: id < |queue| && queue[id].status == Pending
  {
    NoneRemaining(queue);
    var i :| 0 <= i < |queue| && queue[i].status == Pending;
    var id: nat := i;
    assert queue[id].status == Pending;
  }

  /** The drain: once no batch is open and nothing new is queued, as many further batches as there are attempts left, by
      any workers, of any sizes, whatever SMTP answers, leave nothing pending. */
  lemma {:induction false} AnyWorkersDrain(w: World, rounds: seq<Round>)
    requires Inv(w) && w.claims == map[] && forall i :: 0 <= i < |rounds| ==> rounds[i].limit > 0
    ensures var after := Run(w, Schedule(w, rounds));
            && Inv(after) && after.claims == map[]
            && (Remaining(after.queue) == 0 || Remaining(after.queue) + |rounds| <= Remaining(w.queue))
            && (|rounds| >= Remaining(w.queue) ==>
                  forall i :: 0 <= i < |after.queue| ==> after.queue[i].status != Pending)
  {
    hide Remaining, Next, Batch;
    if rounds == [] {
      assert Schedule(w, rounds) == [] && Run(w, []) == w;
    } else {
      var front, r := rounds[..|rounds| - 1], rounds[|rounds| - 1];
      AnyWorkersDrain(w, front);
      var before := Schedule(w, front);
      RunAppend(w, before, Batch(Run(w, before), r));
      BatchDrains(Run(w, before), r);
    }
    NoneRemaining(Run(w, Schedule(w, rounds)).queue);
  }

  // One worker's loop.

  class Mailbox {
    var queue: seq<Message>

    constructor (queue: seq<Message>)
      ensures this.queue == queue
    {
      this.queue := queue;
    }

    /** Sent for good: the row is final and its remaining attempts are used up. */
    method MarkSent(id: nat)
      requires AllSensible(queue) && id < |queue| && queue[id].status == Pending
      modifies this
      ensures AllSensible(queue) && Remaining(queue) < Remaining(old(queue))
      ensures queue == old(queue)[id := Marked(old(queue)[id], true)] && queue[id].status == Sent
    {
      hide Remaining, AllSensible;
      MarkSpends(queue, id, true);
      var m := queue[id];
      queue := queue[id := m.(status := Sent, attempts := m.attempts + 1)];
    }

    /** One attempt fewer: the fifth failure is final, any other leaves the message pending. */
    method MarkFailed(id: nat)
      requires AllSensible(queue) && id < |queue| && queue[id].status == Pending
      modifies this
      ensures AllSensible(queue) && Remaining(queue) < Remaining(old(queue))
      ensures queue == old(queue)[id := Marked(old(queue)[id], false)]
      ensures queue[id].status == if queue[id].attempts == MAX_ATTEMPTS then Failed else Pending
    {
      hide Remaining;
      MarkSpends(queue, id, false);
      var m := queue[id];
      m := m.(attempts := m.attempts + 1);
      queue := queue[id := m.(status := if m.attempts >= MAX_ATTEMPTS then Failed else Pending)];
    }

    /** Claim up to `limit` messages, try each and mark it. */
    method ProcessBatch(limit: nat, smtp: nat -> bool) returns (processed: nat)
      requires AllSensible(queue)
      modifies this
      ensures AllSensible(queue) && |queue| == |old(queue)|
      ensures var ids := Claimable(old(queue), {}, limit);
              && processed == |ids|
              && forall id: nat :: id < |queue| ==>
                   queue[id] == if id in ids then Marked(old(queue)[id], smtp(id)) else old(queue)[id]
      ensures if processed == 0 then queue == old(queue) else Remaining(queue) < Remaining(old(queue))
    {
      hide Remaining, Claimable, Marking, Marked, AllSensible;
      var ids := Claimable(queue, {}, limit);
      ClaimableAreFree(queue, {}, limit);
      NothingMarked(queue);
      ghost var answers: Answers := map[];
      for i := 0 to |ids|
        invariant queue == Marking(old(queue), answers) && |queue| == |old(queue)| && AllSensible(queue)
        invariant answers.Keys == set j | 0 <= j < i :: ids[j]
        invariant forall id :: id in answers ==> answers[id] == smtp(id)
      {
        var id := ids[i];
        assert id !in answers;
        MarkOneMore(old(queue), answers, id, smtp(id));
        answers := answers[id := smtp(id)];
        if smtp(id) { MarkSent(id); } else { MarkFailed(id); }
      }
      BatchIsMarked(old(queue), ids, answers);
      MarkingAt(old(queue), answers);
      return |ids|;
    }

    /** The poll loop: a poll that raises is rolled back and tried again. `smtp` may answer anything, each time. */
    method RunForever(iterations: nat, limit: nat, smtp: (nat, nat) -> bool, raises: nat -> bool)
      requires AllSensible(queue) && limit > 0
      modifies this
      ensures AllSensible(queue) && |queue| == |old(queue)|
      ensures Polls(raises, iterations) >= Remaining(old(queue)) ==>
                forall i :: 0 <= i < |queue| ==> queue[i].status != Pending
    {
      hide Remaining, Claimable;
      var count := 0;
      while count < iterations
        invariant count <= iterations && AllSensible(queue) && |queue| == |old(queue)|
        invariant Remaining(queue) == 0 || Polls(raises, count) + Remaining(queue) <= Remaining(old(queue))
      {
        if !raises(count) {
          EmptyBatch(queue, limit);
          var processed := ProcessBatch(limit, (id: nat) => smtp(count, id));
        }
        count := count + 1;
      }
      NoneRemaining(queue);
    }
  }

  lemma MarkSpends(queue: seq<Message>, id: nat, delivered: bool)
    requires AllSensible(queue) && id < |queue| && queue[id].status == Pending
    ensures var after := queue[id := Marked(queue[id], delivered)];
            AllSensible(after) && Remaining(after) < Remaining(queue)
  {
    hide Remaining;
    var answers: Answers := map[id := delivered];
    MarkingSpends(queue, answers);
    assert id in answers;
    assert Marking(queue, answers) == queue[id := Marked(queue[id], delivered)];
  }

  lemma NothingMarked(queue: seq<Message>)
    ensures Marking(queue, map[]) == queue
  {}

  lemma MarkingAt(queue: seq<Message>, answers: Answers)
    ensures |Marking(queue, answers)| == |queue|
    ensures forall id: nat :: id < |queue| ==>
              Marking(queue, answers)[id] == if id in answers then Marked(queue[id], answers[id]) else queue[id]
  {}

  lemma MarkOneMore(queue: seq<Message>, answers: Answers, id: nat, delivered: bool)
    requires id < |queue| && id !in answers
    ensures |Marking(queue, answers)| == |queue| && Marking(queue, answers)[id] == queue[id]
    ensures Marking(queue, answers[id := delivered]) == Marking(queue, answers)[id := Marked(queue[id], delivered)]
  {}

  lemma BatchIsMarked(queue: seq<Message>, ids: seq<nat>, answers: Answers)
    requires AllSensible(queue) && answers.Keys == set j | 0 <= j < |ids| :: ids[j]
    requires forall i :: 0 <= i < |ids| ==> ids[i] < |queue| && queue[ids[i]].status == Pending
    ensures var after := Marking(queue, answers);
            && AllSensible(after)
            && (forall id: nat :: id in answers <==> id in ids)
            && (if ids == [] then after == queue else Remaining(after) < Remaining(queue))
  {
    forall id: nat ensures id in answers <==> id in ids {
      if id in answers { var j :| 0 <= j < |ids| && ids[j] == id; }
    }
    MarkingSpends(queue, answers);
    if ids != [] { assert ids[0] in answers; }
  }

  /** With nobody else at work, a batch is empty only when nothing is pending. */
  lemma EmptyBatch(queue: seq<Message>, limit: nat)
    requires AllSensible(queue) && limit > 0
    ensures Claimable(queue, {}, limit) == [] ==> Remaining(queue) == 0
  {
    if Claimable(queue, {}, limit) != [] { return; }
    forall i: nat | i < |queue| ensures queue[i].status != Pending {
      if queue[i].status == Pending { ClaimableAreOldest(queue, {}, limit, i); }
    }
    NoneRemaining(queue);
  }

  /** How many of the first polls did not raise. */
  ghost function Polls(raises: nat -> bool, n: nat): nat {
    if n == 0 then 0 else Polls(raises, n - 1) + (if raises(n - 1) then 0 else 1)
  }
}
