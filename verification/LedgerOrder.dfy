/** When the usage records keep the order they were offered in: a failed batch goes back
    behind whatever the buffer holds by then (internal/governance/governance.go). */
module LedgerOrder {
  import opened Wrappers
  import opened Ledger

  // ---- Order.

  ghost predicate Distinct(offered: seq<Record>) {
    forall i, j :: 0 <= i < j < |offered| ==> offered[i] != offered[j]
  }

  ghost predicate Before(offered: seq<Record>, a: Record, b: Record) {
    exists p, q :: 0 <= p < q < |offered| && offered[p] == a && offered[q] == b
  }

  /** Any two of the records stand as they were offered. */
  ghost predicate InOrder(held: seq<Record>, offered: seq<Record>) {
    && (forall i :: 0 <= i < |held| ==> held[i] in offered)
    && (forall i, j :: 0 <= i < j < |held| ==> Before(offered, held[i], held[j]))
  }

  /** What the ledger holds, oldest place first. A record that is being offered again has
      no place until the buffer takes it. */
  function Held(s: State): seq<Record> {
    s.table + (if s.job.Drained? then s.job.batch else []) + s.buffer
  }

  /** The records offered since the last drain. */
  function Since(run: Run): seq<Record> {
    match run
    case Start(_) => []
    case Then(prefix, Offer(r)) => Since(prefix) + [r]
    case Then(prefix, Drain) => []
    case Then(prefix, _) => Since(prefix)
  }

  ghost predicate InOrderAllAlong(run: Run)
    requires End(run).Some?
  {
    InOrder(Held(End(run).value), Offered(run)) && (run.Then? ==> InOrderAllAlong(run.prefix))
  }

  /** The buffer has room for the record offered again, and holds one offered since its
      batch was drained. */
  ghost predicate Overtaken(s: State, since: seq<Record>, e: Event) {
    e.Requeue? && |s.buffer| < s.capacity && exists x :: x in s.buffer && x in since
  }

  ghost predicate NeverOvertaken(run: Run)
    requires End(run).Some?
  {
    run.Then? ==>
      NeverOvertaken(run.prefix) && !Overtaken(End(run.prefix).value, Since(run.prefix), run.event)
  }

  // ---- Facts about order.

  lemma BeforeStays(offered: seq<Record>, r: Record, a: Record, b: Record)
    requires Before(offered, a, b)
    ensures Before(offered + [r], a, b)
  {
    var p, q :| 0 <= p < q < |offered| && offered[p] == a && offered[q] == b;
    assert (offered + [r])[p] == a && (offered + [r])[q] == b;
  }

  lemma BeforeTheLast(offered: seq<Record>, r: Record, a: Record)
    requires a in offered
    ensures Before(offered + [r], a, r)
  {
    var p :| 0 <= p < |offered| && offered[p] == a;
    assert (offered + [r])[p] == a && (offered + [r])[|offered|] == r;
  }

  lemma NotBothWays(offered: seq<Record>, a: Record, b: Record)
    requires Distinct(offered) && Before(offered, a, b)
    ensures !Before(offered, b, a)
  {
    var p, q :| 0 <= p < q < |offered| && offered[p] == a && offered[q] == b;
    assert forall i :: 0 <= i < |offered| && offered[i] == a ==> i == p;
    assert forall j :: 0 <= j < |offered| && offered[j] == b ==> j == q;
  }

  lemma OrderStays(held: seq<Record>, offered: seq<Record>, r: Record)
    requires InOrder(held, offered)
    ensures InOrder(held, offered + [r])
  {
    forall i, j | 0 <= i < j < |held| ensures Before(offered + [r], held[i], held[j]) {
      BeforeStays(offered, r, held[i], held[j]);
    }
  }

  lemma OrderOfOneMore(held: seq<Record>, offered: seq<Record>, r: Record)
    requires InOrder(held, offered) && r in offered
    requires forall i :: 0 <= i < |held| ==> Before(offered, held[i], r)
    ensures InOrder(held + [r], offered)
  {}

  lemma OrderOfPart(a: seq<Record>, b: seq<Record>, c: seq<Record>, offered: seq<Record>)
    requires InOrder(a + b + c, offered)
    ensures InOrder(a + c, offered) && InOrder(a + b, offered)
  {
    var all := a + b + c;
    forall i, j | 0 <= i < j < |a + c| ensures Before(offered, (a + c)[i], (a + c)[j]) {
      var k, l := if i < |a| then i else i + |b|, if j < |a| then j else j + |b|;
      assert all[k] == (a + c)[i] && all[l] == (a + c)[j];
    }
    forall i | 0 <= i < |a + c| ensures (a + c)[i] in offered {
      assert (a + c)[i] == all[if i < |a| then i else i + |b|];
    }
    forall i, j | 0 <= i < j < |a + b| ensures Before(offered, (a + b)[i], (a + b)[j]) {
      assert all[i] == (a + b)[i] && all[j] == (a + b)[j];
    }
    forall i | 0 <= i < |a + b| ensures (a + b)[i] in offered { assert (a + b)[i] == all[i]; }
  }

  // ---- What holds while nothing was overtaken.

  /** The order of what is held; what is left of a failed batch follows the table and
      whatever of it is buffered again; and the rest of the buffer was offered since. */
  ghost predicate Orderly(s: State, offered: seq<Record>, since: seq<Record>) {
    && InOrder(Held(s), offered)
    && |since| <= |offered| && offered[|offered| - |since|..] == since
    && (forall b :: b in InFlight(s.job) ==> b in offered[..|offered| - |since|])
    && (s.job.Drained? ==> forall x :: x in s.buffer ==> x in since)
    && (s.job.Requeueing? ==>
          && InOrder(s.table + s.job.batch, offered)
          && forall x, b :: x in s.buffer && x !in since && b in s.job.batch ==> Before(offered, x, b))
  }

  lemma SinceIsLater(offered: seq<Record>, since: seq<Record>, b: Record, x: Record)
    requires |since| <= |offered| && offered[|offered| - |since|..] == since
    requires b in offered[..|offered| - |since|] && x in since
    ensures Before(offered, b, x)
  {
    var n := |offered| - |since|;
    var p :| 0 <= p < n && offered[..n][p] == b;
    var q :| 0 <= q < |since| && since[q] == x;
    assert offered[p] == b && offered[n + q] == x;
  }

  lemma OfferIsOrderly(s: State, offered: seq<Record>, since: seq<Record>, r: Record)
    requires Orderly(s, offered, since)
    ensures Orderly(Step(s, Offer(r)), offered + [r], since + [r])
  {
    var t, o, n := Step(s, Offer(r)), offered + [r], since + [r];
    OrderStays(Held(s), offered, r);
    assert o[..|o| - |n|] == offered[..|offered| - |since|];
    if t.buffer != s.buffer {
      forall i | 0 <= i < |Held(s)| ensures Before(o, Held(s)[i], r) { BeforeTheLast(offered, r, Held(s)[i]); }
      OrderOfOneMore(Held(s), o, r);
      assert Held(t) == Held(s) + [r];
    }
    if s.job.Requeueing? {
      OrderStays(s.table + s.job.batch, offered, r);
      forall x, b | x in t.buffer && x !in n && b in s.job.batch ensures Before(o, x, b) {
        BeforeStays(offered, r, x, b);
      }
    }
  }

  lemma DrainIsOrderly(s: State, offered: seq<Record>, since: seq<Record>)
    requires Orderly(s, offered, since) && Enabled(s, Drain)
    ensures Orderly(Step(s, Drain), offered, [])
  {
    assert Held(Step(s, Drain)) == Held(s);
    assert offered[..|offered|] == offered && offered[|offered|..] == [];
    assert forall b :: b in s.buffer ==> b in Held(s);
  }

  lemma InsertIsOrderly(s: State, offered: seq<Record>, since: seq<Record>, ok: bool)
    requires Orderly(s, offered, since) && Enabled(s, Insert(ok))
    ensures Orderly(Step(s, Insert(ok)), offered, since)
  {
    var t := Step(s, Insert(ok));
    if ok {
      assert Held(t) == Held(s);
    } else {
      OrderOfPart(s.table, s.job.batch, s.buffer, offered);
      assert Held(t) == s.table + s.buffer && InFlight(t.job) == InFlight(s.job);
      assert forall x :: x in t.buffer ==> x in since;
    }
  }

  /** The record taken back comes last of what is held. */
  lemma TakenBackIsLast(s: State, offered: seq<Record>, since: seq<Record>, r: Record)
    requires Orderly(s, offered, since) && Enabled(s, Requeue(r)) && |s.buffer| < s.capacity
    requires !Overtaken(s, since, Requeue(r))
    ensures InOrder(Held(Step(s, Requeue(r))), offered)
  {
    var all := s.table + s.job.batch;
    assert all[|s.table|] == r;
    forall i | 0 <= i < |Held(s)| ensures Before(offered, Held(s)[i], r) {
      if i < |s.table| { assert all[i] == Held(s)[i]; } else { assert Held(s)[i] in s.buffer; }
    }
    OrderOfOneMore(Held(s), offered, r);
    assert Held(Step(s, Requeue(r))) == Held(s) + [r];
  }

  /** The rest of the batch still follows the table and the part that is back. */
  lemma RestFollows(s: State, offered: seq<Record>, since: seq<Record>, r: Record)
    requires Orderly(s, offered, since) && Enabled(s, Requeue(r))
    ensures InOrder(s.table + s.job.batch[1..], offered)
    ensures forall x, b :: x in s.buffer + [r] && x !in since && b in s.job.batch[1..] ==> Before(offered, x, b)
  {
    var batch := s.job.batch;
    var all := s.table + batch;
    assert all == s.table + [r] + batch[1..];
    OrderOfPart(s.table, [r], batch[1..], offered);
    assert all[|s.table|] == r;
    forall x, b | x in s.buffer + [r] && x !in since && b in batch[1..] ensures Before(offered, x, b) {
      var k :| 0 <= k < |batch| - 1 && batch[1..][k] == b;
      assert all[|s.table| + 1 + k] == b && b in batch;
    }
  }

  lemma RequeueIsOrderly(s: State, offered: seq<Record>, since: seq<Record>, r: Record)
    requires Orderly(s, offered, since) && Enabled(s, Requeue(r)) && !Overtaken(s, since, Requeue(r))
    ensures Orderly(Step(s, Requeue(r)), offered, since)
  {
    var t := Step(s, Requeue(r));
    RestFollows(s, offered, since, r);
    if |s.buffer| < s.capacity { TakenBackIsLast(s, offered, since, r); } else { assert Held(t) == Held(s); }
    assert forall x :: x in t.buffer ==> x in s.buffer + [r];
    forall b | b in InFlight(t.job) ensures b in offered[..|offered| - |since|] { assert b in InFlight(s.job); }
  }

  lemma {:induction false} RunIsOrderly(run: Run, capacity: nat, spent: map<string, int>)
    requires Origin(run) == Empty(capacity, spent) && End(run).Some? && NeverOvertaken(run)
    ensures Orderly(End(run).value, Offered(run), Since(run))
  {
    if run.Then? {
      RunIsOrderly(run.prefix, capacity, spent);
      var s, offered, since := End(run.prefix).value, Offered(run.prefix), Since(run.prefix);
      match run.event
      case Offer(r) => OfferIsOrderly(s, offered, since, r);
      case Requeue(r) => RequeueIsOrderly(s, offered, since, r);
      case Drain => DrainIsOrderly(s, offered, since);
      case Insert(ok) => InsertIsOrderly(s, offered, since, ok);
      case Settle(_, _) =>
    }
  }

  // ---- Exactly when the order is kept.

  lemma OvertakingReorders(s: State, offered: seq<Record>, since: seq<Record>, r: Record)
    requires Orderly(s, offered, since) && Distinct(offered)
    requires Enabled(s, Requeue(r)) && Overtaken(s, since, Requeue(r))
    ensures !InOrder(Held(Step(s, Requeue(r))), offered)
  {
    var x :| x in s.buffer && x in since;
    assert r in InFlight(s.job);
    SinceIsLater(offered, since, r, x);
    NotBothWays(offered, r, x);
    var held := Held(Step(s, Requeue(r)));
    var i :| 0 <= i < |s.buffer| && s.buffer[i] == x;
    assert held[|s.table| + i] == x && held[|held| - 1] == r;
  }

  lemma {:induction false} PrefixIsDistinct(run: Run)
    requires run.Then? && Distinct(Offered(run))
    ensures Distinct(Offered(run.prefix))
  {
    assert Offered(run.prefix) <= Offered(run);
  }

  /** Records that differ are held in the order of offering all along a run exactly when
      no record of a failed batch is taken back by a buffer that already holds one offered
      after that batch was drained. */
  lemma {:induction false} OrderIsKeptExactly(run: Run, capacity: nat, spent: map<string, int>)
    requires Origin(run) == Empty(capacity, spent) && End(run).Some? && Distinct(Offered(run))
    ensures InOrderAllAlong(run) <==> NeverOvertaken(run)
  {
    if run.Then? {
      PrefixIsDistinct(run);
      OrderIsKeptExactly(run.prefix, capacity, spent);
    }
    if NeverOvertaken(run) {
      RunIsOrderly(run, capacity, spent);
    } else if NeverOvertaken(run.prefix) {
      RunIsOrderly(run.prefix, capacity, spent);
      OvertakingReorders(End(run.prefix).value, Offered(run.prefix), Since(run.prefix), run.event.record);
    }
  }

  /** Then the table, in particular, holds the records in the order of offering. */
  lemma TableKeepsOrder(run: Run, capacity: nat, spent: map<string, int>)
    requires Origin(run) == Empty(capacity, spent) && End(run).Some? && NeverOvertaken(run)
    ensures InOrder(End(run).value.table, Offered(run))
  {
    RunIsOrderly(run, capacity, spent);
    var s := End(run).value;
    var rest := Held(s)[|s.table|..];
    assert Held(s) == s.table + [] + rest;
    OrderOfPart(s.table, [], rest, Offered(run));
    assert s.table + [] == s.table;
  }
}
