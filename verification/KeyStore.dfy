/** Virtual keys and the budgets they bind, as the database holds them
    (internal/dbstore/virtualkeys.go, budget.go). Every operation is one
    transaction: it applies as a whole or not at all. */
module KeyStore {
  import opened Wrappers
  import Dataplane

  datatype Balancer = RoundRobin | LeastConnection | LatencyBased

  /** What a key lets its holder do. */
  datatype Policy = Policy(client: string, mode: Dataplane.Mode, configs: seq<Dataplane.Stored>, balancer: Balancer)

  /** A routing update; what is not given stays. */
  datatype Change = Change(mode: Option<Dataplane.Mode>, configs: Option<seq<Dataplane.Stored>>,
    balancer: Option<Balancer>)

  /** The only provider of a direct key has weight one. */
  function Normal(p: Policy): Policy {
    if p.mode == Dataplane.Direct && p.configs != []
    then p.(configs := p.configs[0 := p.configs[0].(weight := 1.0)])
    else p
  }

  function Merged(p: Policy, c: Change): Policy {
    p.(mode := if c.mode.Some? then c.mode.value else p.mode,
       configs := if c.configs.Some? then c.configs.value else p.configs,
       balancer := if c.balancer.Some? then c.balancer.value else p.balancer)
  }

  predicate Compiles(p: Policy) { Dataplane.Acceptable(p.mode, p.configs) }

  lemma NormalCompiles(p: Policy)
    requires Compiles(p)
    ensures Compiles(Normal(p)) && Normal(Normal(p)) == Normal(p)
  {
    var q := Normal(p);
    if p.mode == Dataplane.Direct {
      assert q.configs[0].(weight := p.configs[0].weight) == p.configs[0];
      assert Dataplane.EntryOk(p.mode, p.configs[0]);
      assert forall i :: 0 <= i < |q.configs| ==> Dataplane.EntryOk(q.mode, q.configs[i]);
    }
  }

  /** The only provider of a direct key has weight one; nothing else is touched. */
  lemma NormalSetsTheDirectWeight(p: Policy)
    requires Compiles(p)
    ensures var q := Normal(p);
            && q == p.(configs := q.configs) && |q.configs| == |p.configs|
            && forall i :: 0 <= i < |q.configs| ==>
                 var weight := if p.mode == Dataplane.Direct then 1.0 else p.configs[i].weight;
                 q.configs[i] == p.configs[i].(weight := weight)
  {
    assert p.mode == Dataplane.Direct ==> |p.configs| == 1;
  }

  datatype KeyRow = KeyRow(apiKey: string, budget: string, active: bool, expiresAt: Option<int>, policy: Policy)

  datatype Status = Unbound | Bound | Released

  datatype Db = Db(keys: map<string, KeyRow>, budgets: map<string, Status>)

  datatype Op =
    | Create(id: string, row: KeyRow)
    | SetActive(id: string, active: bool)
    | Revoke(id: string)
    | Rotate(id: string, apiKey: string)
    | UpdateRouting(id: string, change: Change)
    | Delete(id: string)
    | CreateBudget(budget: string)
    | DeleteBudget(budget: string)

  /** Set a budget's status; a budget that no longer exists stays gone. */
  function WithStatus(budgets: map<string, Status>, budget: string, status: Status): map<string, Status> {
    if budget in budgets then budgets[budget := status] else budgets
  }

  ghost predicate KeyTaken(db: Db, apiKey: string) {
    exists id :: id in db.keys && db.keys[id].apiKey == apiKey
  }

  ghost predicate KeyTakenByOther(db: Db, id: string, apiKey: string) {
    exists other :: other in db.keys && other != id && db.keys[other].apiKey == apiKey
  }

  ghost predicate BoundByOther(db: Db, id: string, budget: string) {
    exists other :: other in db.keys && other != id && db.keys[other].active && db.keys[other].budget == budget
  }

  /** The checks a transaction makes before it writes. New identifiers are fresh. */
  ghost predicate Accepts(db: Db, op: Op) {
    match op
    case Create(id, row) =>
      && id !in db.keys && row.active && !KeyTaken(db, row.apiKey)
      && row.budget in db.budgets && db.budgets[row.budget] != Bound && Compiles(row.policy)
    case SetActive(id, active) =>
      && id in db.keys
      && (active && !db.keys[id].active ==> !BoundByOther(db, id, db.keys[id].budget))
    case Revoke(id) => id in db.keys
    case Rotate(id, apiKey) => id in db.keys && db.keys[id].active && !KeyTakenByOther(db, id, apiKey)
    case UpdateRouting(id, change) => id in db.keys && Compiles(Merged(db.keys[id].policy, change))
    case Delete(id) => id in db.keys
    case CreateBudget(b) => b !in db.budgets && forall id :: id in db.keys ==> db.keys[id].budget != b
    case DeleteBudget(b) => b in db.budgets && db.budgets[b] != Bound
  }

  /** What a committed transaction writes. */
  function Commit(db: Db, op: Op): Db
    requires op.SetActive? || op.Revoke? || op.Rotate? || op.UpdateRouting? || op.Delete? ==> op.id in db.keys
  {
    match op
    case Create(id, row) =>
      Db(db.keys[id := row.(policy := Normal(row.policy))], WithStatus(db.budgets, row.budget, Bound))
    case SetActive(id, active) =>
      var row := db.keys[id];
      if row.active == active then db
      else Db(db.keys[id := row.(active := active)],
              WithStatus(db.budgets, row.budget, if active then Bound else Released))
    case Revoke(id) =>
      var row := db.keys[id];
      Db(db.keys[id := row.(active := false)], WithStatus(db.budgets, row.budget, Released))
    case Rotate(id, apiKey) => db.(keys := db.keys[id := db.keys[id].(apiKey := apiKey)])
    case UpdateRouting(id, change) =>
      var row := db.keys[id];
      db.(keys := db.keys[id := row.(policy := Normal(Merged(row.policy, change)))])
    case Delete(id) => Db(db.keys - {id}, WithStatus(db.budgets, db.keys[id].budget, Released))
    case CreateBudget(b) => db.(budgets := db.budgets[b := Unbound])
    case DeleteBudget(b) => db.(budgets := db.budgets - {b})
  }

  // ---- The binding of budgets to keys.

  ghost predicate Names(db: Db, id: string, budget: string) {
    id in db.keys && db.keys[id].active && db.keys[id].budget == budget
  }

  /** No budget has two active keys, and an existing budget is bound exactly when
      one active key names it. */
  ghost predicate Binding(db: Db) {
    && (forall i, j, b :: Names(db, i, b) && Names(db, j, b) ==> i == j)
    && (forall b :: b in db.budgets ==> (db.budgets[b] == Bound <==> exists id :: Names(db, id, b)))
  }

  /** Revoking or deleting releases the key's budget without looking whether the key
      holds it. */
  ghost predicate ReleasesAnothersBudget(db: Db, op: Op) {
    && (op.Revoke? || op.Delete?) && op.id in db.keys && !db.keys[op.id].active
    && var b := db.keys[op.id].budget; b in db.budgets && exists id :: Names(db, id, b)
  }

  lemma CreateBinds(db: Db, op: Op)
    requires Binding(db) && Accepts(db, op) && op.Create?
    ensures Binding(Commit(db, op))
  {
    var t := Commit(db, op);
    assert Names(t, op.id, op.row.budget);
    forall i, b | i != op.id ensures Names(t, i, b) == Names(db, i, b) {}
    forall b | b in t.budgets ensures t.budgets[b] == Bound <==> exists id :: Names(t, id, b) {
      if b != op.row.budget && exists id :: Names(db, id, b) {
        var id :| Names(db, id, b);
        assert Names(t, id, b);
      }
    }
  }

  lemma ActivationBinds(db: Db, op: Op)
    requires Binding(db) && Accepts(db, op) && op.SetActive? && op.active
    ensures Binding(Commit(db, op))
  {
    var t := Commit(db, op);
    if !db.keys[op.id].active {
      var own := db.keys[op.id].budget;
      assert Names(t, op.id, own);
      forall i, b | i != op.id ensures Names(t, i, b) == Names(db, i, b) {}
      forall b | b in t.budgets ensures t.budgets[b] == Bound <==> exists id :: Names(t, id, b) {
        if b != own && exists id :: Names(db, id, b) {
          var id :| Names(db, id, b);
          assert Names(t, id, b);
        }
      }
    }
  }

  /** What the three operations that end a key's activity share: the key stops naming
      its budget, and that budget is released. */
  ghost predicate LetsGo(db: Db, t: Db, id: string) {
    && id in db.keys
    && t.budgets == WithStatus(db.budgets, db.keys[id].budget, Released)
    && (forall i, b :: Names(t, i, b) <==> i != id && Names(db, i, b))
  }

  lemma LettingGo(db: Db, t: Db, id: string)
    requires Binding(db) && LetsGo(db, t, id)
    ensures Binding(t) <==> db.keys[id].active || db.keys[id].budget !in db.budgets
                            || forall i :: !Names(db, i, db.keys[id].budget)
  {
    var own := db.keys[id].budget;
    assert db.keys[id].active ==> Names(db, id, own);
    if own in db.budgets && !db.keys[id].active && exists i :: Names(db, i, own) {
      var i :| Names(db, i, own);
      assert Names(t, i, own);
      assert t.budgets[own] == Released;
      assert !Binding(t);
    } else {
      forall b | b in t.budgets ensures t.budgets[b] == Bound <==> exists i :: Names(t, i, b) {
        if b != own && exists i :: Names(db, i, b) {
          var i :| Names(db, i, b);
          assert Names(t, i, b);
        }
      }
    }
  }

  /** Rotating a key or changing its routing touches no binding. */
  lemma EditingBinds(db: Db, op: Op)
    requires Binding(db) && Accepts(db, op) && (op.Rotate? || op.UpdateRouting?)
    ensures Binding(Commit(db, op))
  {
    var t := Commit(db, op);
    forall i, b ensures Names(t, i, b) == Names(db, i, b) {}
  }

  lemma BudgetsBind(db: Db, op: Op)
    requires Binding(db) && Accepts(db, op) && (op.CreateBudget? || op.DeleteBudget?)
    ensures Binding(Commit(db, op))
  {
    var t := Commit(db, op);
    forall i, b ensures Names(t, i, b) == Names(db, i, b) {}
  }

  /** One accepted operation keeps the binding exactly when it does not release a
      budget that another key holds. */
  lemma StepKeepsBinding(db: Db, op: Op)
    requires Binding(db) && Accepts(db, op)
    ensures Binding(Commit(db, op)) <==> !ReleasesAnothersBudget(db, op)
  {
    match op
    case Create(_, _) => CreateBinds(db, op);
    case SetActive(id, active) =>
      if active { ActivationBinds(db, op); }
      else if db.keys[id].active { LettingGo(db, Commit(db, op), id); }
    case Revoke(id) => LettingGo(db, Commit(db, op), id);
    case Delete(id) => LettingGo(db, Commit(db, op), id);
    case Rotate(_, _) => EditingBinds(db, op);
    case UpdateRouting(_, _) => EditingBinds(db, op);
    case CreateBudget(_) => BudgetsBind(db, op);
    case DeleteBudget(_) => BudgetsBind(db, op);
  }

  // ---- Whole runs.

  datatype Run = Start(db: Db) | Then(before: Run, op: Op)

  ghost function End(run: Run): Option<Db> {
    match run
    case Start(db) => if Binding(db) then Some(db) else None
    case Then(before, op) =>
      match End(before)
      case None => None
      case Some(db) => if Accepts(db, op) then Some(Commit(db, op)) else None
  }

  ghost predicate AlwaysBinding(run: Run)
    requires End(run).Some?
  {
    Binding(End(run).value) && (run.Then? ==> AlwaysBinding(run.before))
  }

  ghost predicate NeverReleasesAnothers(run: Run)
    requires End(run).Some?
  {
    run.Then? ==> NeverReleasesAnothers(run.before) && !ReleasesAnothersBudget(End(run.before).value, run.op)
  }

  /** Bindings hold all along a run exactly when no revocation or deletion in it hits
      an inactive key whose budget has gone to another key. */
  lemma {:induction false} BindingHoldsExactlyWhileReleasesAreOwn(run: Run)
    requires End(run).Some?
    ensures AlwaysBinding(run) <==> NeverReleasesAnothers(run)
  {
    if run.Then? {
      BindingHoldsExactlyWhileReleasesAreOwn(run.before);
      if AlwaysBinding(run.before) { StepKeepsBinding(End(run.before).value, run.op); }
    }
  }

  /** The half that no run can break: a bound budget has an active key. */
  ghost predicate BoundIsHeld(db: Db) {
    forall b :: b in db.budgets && db.budgets[b] == Bound ==> exists id :: Names(db, id, b)
  }

  lemma StepKeepsBoundHeld(db: Db, op: Op)
    requires BoundIsHeld(db) && Accepts(db, op)
    ensures BoundIsHeld(Commit(db, op))
  {
    var t := Commit(db, op);
    forall b | b in t.budgets && t.budgets[b] == Bound ensures exists id :: Names(t, id, b) {
      if op.Create? && b == op.row.budget {
        assert Names(t, op.id, b);
      } else if op.SetActive? && op.active && b == db.keys[op.id].budget {
        if db.keys[op.id].active {
          var id :| Names(db, id, b);
          assert Names(t, id, b);
        } else {
          assert Names(t, op.id, b);
        }
      } else {
        var id :| Names(db, id, b);
        assert Names(t, id, b);
      }
    }
  }

  lemma {:induction false} BoundBudgetsAreHeld(run: Run)
    requires End(run).Some?
    ensures BoundIsHeld(End(run).value)
  {
    if run.Then? {
      BoundBudgetsAreHeld(run.before);
      StepKeepsBoundHeld(End(run.before).value, run.op);
    }
  }

  // ---- What is stored can always be compiled again.

  ghost predicate RoutingsCompile(db: Db) {
    forall id :: id in db.keys ==> Compiles(db.keys[id].policy) && Normal(db.keys[id].policy) == db.keys[id].policy
  }

  lemma StepKeepsRoutings(db: Db, op: Op)
    requires RoutingsCompile(db) && Accepts(db, op)
    ensures RoutingsCompile(Commit(db, op))
  {
    if op.Create? { NormalCompiles(op.row.policy); }
    if op.UpdateRouting? { NormalCompiles(Merged(db.keys[op.id].policy, op.change)); }
  }

  /** So no stored row ever fails its conversion for its providers. */
  lemma {:induction false} StoredRoutingsCompile(run: Run, db: Db)
    requires End(run).Some? && Origin(run) == db && RoutingsCompile(db)
    ensures RoutingsCompile(End(run).value)
  {
    if run.Then? {
      StoredRoutingsCompile(run.before, db);
      StepKeepsRoutings(End(run.before).value, run.op);
    }
  }

  function Origin(run: Run): Db { if run.Start? then run.db else Origin(run.before) }

  // ---- The failing family, reached from an empty database.

  function SharedBudgetRun(b: string, first: KeyRow, second: KeyRow, third: KeyRow): Run {
    var a := Then(Then(Then(Start(Db(map[], map[])), CreateBudget(b)), Create("1", first)), SetActive("1", false));
    Then(Then(Then(a, Create("2", second)), Revoke("1")), Create("3", third))
  }

  /** Two active keys come to share a budget: the first key is deactivated, the second
      takes the budget, revoking the first releases it, and the third takes it too. */
  lemma RevokingAnInactiveKeySharesABudget(b: string, first: KeyRow, second: KeyRow, third: KeyRow)
    requires first.active && second.active && third.active
    requires first.budget == second.budget == third.budget == b
    requires forall row :: row in [first, second, third] ==> Compiles(row.policy) && Normal(row.policy) == row.policy
    requires first.apiKey != second.apiKey && first.apiKey != third.apiKey && second.apiKey != third.apiKey
    ensures var run := SharedBudgetRun(b, first, second, third);
            && End(run).Some? && Names(End(run).value, "2", b) && Names(End(run).value, "3", b)
  {
    var off := first.(active := false);
    assert forall row :: row in [first, second, third] ==> row.(policy := Normal(row.policy)) == row;
    var r0 := Start(Db(map[], map[]));
    assert Binding(r0.db);
    var r1 := Then(r0, CreateBudget(b));
    var r2 := Then(r1, Create("1", first));
    var r3 := Then(r2, SetActive("1", false));
    var r4 := Then(r3, Create("2", second));
    var r5 := Then(r4, Revoke("1"));
    var r6 := Then(r5, Create("3", third));
    Steps(r0, CreateBudget(b), Db(map[], map[b := Unbound]));
    Steps(r1, Create("1", first), Db(map["1" := first], map[b := Bound]));
    Steps(r2, SetActive("1", false), Db(map["1" := off], map[b := Released]));
    Steps(r3, Create("2", second), Db(map["1" := off, "2" := second], map[b := Bound]));
    Steps(r4, Revoke("1"), Db(map["1" := off, "2" := second], map[b := Released]));
    Steps(r5, Create("3", third), Db(map["1" := off, "2" := second, "3" := third], map[b := Bound]));
    assert r6 == SharedBudgetRun(b, first, second, third);
  }

  lemma Steps(run: Run, op: Op, t: Db)
    requires End(run).Some? && Accepts(End(run).value, op) && Commit(End(run).value, op) == t
    ensures End(Then(run, op)) == Some(t)
  {}

  // ---- The store itself.

  /** How a store call ends: refused or failed and rolled back, committed although the
      row could not be read back, or committed with the row. */
  datatype Outcome = Refused | Unread | Done(row: Option<KeyRow>)

  /** The one thing every store method promises about the rows. */
  ghost predicate Ran(before: Db, op: Op, outcome: Outcome, after: Db) {
    if outcome.Refused? then after == before
    else
      && Accepts(before, op) && after == Commit(before, op)
      && (outcome.Done? ==> outcome.row == if IdOf(op).Some?
        && IdOf(op).value in after.keys then Some(after.keys[IdOf(op).value]) else None)
  }

  function IdOf(op: Op): Option<string> {
    match op
    case CreateBudget(_) => None
    case DeleteBudget(_) => None
    case _ => Some(op.id)
  }

  class Store {
    var keys: map<string, KeyRow>
    var budgets: map<string, Status>

    ghost function Rows(): Db
      reads this
    {
      Db(keys, budgets)
    }

    constructor ()
      ensures Rows() == Db(map[], map[]) && Binding(Rows())
    {
      keys, budgets := map[], map[];
    }

    /** Count the other active keys of a budget. */
    predicate HeldByAnother(id: string, budget: string)
      reads this
    {
      exists other :: other in keys && other != id && keys[other].active && keys[other].budget == budget
    }

    /** Read a key back after its transaction; the read may fail. */
    method GetVirtualKey(id: string, readable: bool) returns (outcome: Outcome)
      requires id in keys
      ensures outcome == if readable then Done(Some(keys[id])) else Unread
    {
      outcome := if readable then Done(Some(keys[id])) else Unread;
    }

    /** The unique index on the keys. */
    predicate KeyInUse(id: string, apiKey: string)
      reads this
    {
      exists other :: other in keys && other != id && keys[other].apiKey == apiKey
    }

    // In each operation `written` says whether its transaction can be committed, and
    // `readable` whether the row can be read afterwards.

    /** `id` and the key of the request are drawn at random; the indexes refuse a draw that
        is already there. */
    method CreateVirtualKeyTx(id: string, request: KeyRow, written: bool, readable: bool) returns (outcome: Outcome)
      modifies this
      ensures outcome.Refused? <==>
        || id in old(keys) || (exists other :: other in old(keys) && old(keys)[other].apiKey == request.apiKey)
        || request.budget !in old(budgets) || old(budgets)[request.budget] == Bound
        || !Dataplane.Acceptable(request.policy.mode, request.policy.configs) || !written
      ensures !outcome.Refused? ==>
        && keys == old(keys)[id := request.(active := true, policy := Normal(request.policy))]
        && budgets == old(budgets)[request.budget := Bound]
        && outcome == if readable then Done(Some(keys[id])) else Unread
      ensures Ran(old(Rows()), Create(id, request.(active := true)), outcome, Rows())
    {
      var compiled := Dataplane.CompileProviderConfigs(request.policy.mode, request.policy.configs);
      if compiled.Err? { return Refused; }
      if request.budget !in budgets { return Refused; }
      if budgets[request.budget] == Bound { return Refused; }
      if id in keys || KeyInUse(id, request.apiKey) { return Refused; }
      if !written { return Refused; }
      budgets := budgets[request.budget := Bound];
      keys := keys[id := request.(active := true, policy := Normal(request.policy))];
      outcome := GetVirtualKey(id, readable);
    }

    method SetVirtualKeyActive(id: string, active: bool, written: bool, readable: bool) returns (outcome: Outcome)
      modifies this
      ensures outcome.Refused? <==>
        || id !in old(keys) || !written
        || (active && !old(keys)[id].active
            && exists other :: other in old(keys) && other != id && old(keys)[other].active
                               && old(keys)[other].budget == old(keys)[id].budget)
      ensures !outcome.Refused? ==>
        && keys == old(keys)[id := old(keys)[id].(active := active)]
        && budgets == (if old(keys)[id].active == active || old(keys)[id].budget !in old(budgets) then old(budgets)
                       else old(budgets)[old(keys)[id].budget := if active then Bound else Released])
        && outcome == if readable then Done(Some(keys[id])) else Unread
      ensures Ran(old(Rows()), SetActive(id, active), outcome, Rows())
    {
      if id !in keys { return Refused; }
      var row := keys[id];
      if row.active != active {
        if active && HeldByAnother(id, row.budget) {
          return Refused;
        }
        if !written { return Refused; }
        keys := keys[id := row.(active := active)];
        budgets := WithStatus(budgets, row.budget, if active then Bound else Released);
      }
      if !written { return Refused; }
      outcome := GetVirtualKey(id, readable);
    }

    method RevokeVirtualKey(id: string, written: bool) returns (outcome: Outcome)
      modifies this
      ensures outcome.Refused? <==> id !in old(keys) || !written
      ensures !outcome.Refused? ==>
        && keys == old(keys)[id := old(keys)[id].(active := false)]
        && budgets == (if old(keys)[id].budget !in old(budgets) then old(budgets)
                       else old(budgets)[old(keys)[id].budget := Released])
        && outcome == Done(Some(keys[id]))
      ensures Ran(old(Rows()), Revoke(id), outcome, Rows())
    {
      if id !in keys { return Refused; }
      var row := keys[id];
      if !written { return Refused; }
      keys := keys[id := row.(active := false)];
      budgets := WithStatus(budgets, row.budget, Released);
      outcome := Done(Some(keys[id]));
    }

    method RotateVirtualKey(id: string, apiKey: string, written: bool, readable: bool) returns (outcome: Outcome)
      modifies this
      ensures outcome.Refused? <==>
        || id !in old(keys) || !old(keys)[id].active || !written
        || exists other :: other in old(keys) && other != id && old(keys)[other].apiKey == apiKey
      ensures !outcome.Refused? ==>
        && keys == old(keys)[id := old(keys)[id].(apiKey := apiKey)] && budgets == old(budgets)
        && outcome == if readable then Done(Some(keys[id])) else Unread
      ensures Ran(old(Rows()), Rotate(id, apiKey), outcome, Rows())
    {
      if id !in keys { return Refused; }
      if !keys[id].active { return Refused; }
      if KeyInUse(id, apiKey) { return Refused; }
      if !written { return Refused; }
      keys := keys[id := keys[id].(apiKey := apiKey)];
      outcome := GetVirtualKey(id, readable);
    }

    /** The merged configuration must compile. What the change gives is taken, the
        rest of the row stays, and a direct key's one provider gets weight one. */
    method UpdateVirtualKeyRouting(id: string, change: Change, written: bool, readable: bool)
      returns (outcome: Outcome)
      modifies this
      ensures outcome.Refused? <==>
        || id !in old(keys) || !written
        || !Dataplane.Acceptable(change.mode.GetOr(old(keys)[id].policy.mode),
                                 change.configs.GetOr(old(keys)[id].policy.configs))
      ensures !outcome.Refused? ==>
        && keys.Keys == old(keys).Keys && budgets == old(budgets)
        && outcome == (if readable then Done(Some(keys[id])) else Unread)
        && var (was, now) := (old(keys)[id].policy, keys[id].policy);
           var configs := change.configs.GetOr(was.configs);
           && keys == old(keys)[id := old(keys)[id].(policy := now)]
           && now.client == was.client
           && now.mode == change.mode.GetOr(was.mode) && now.balancer == change.balancer.GetOr(was.balancer)
           && |now.configs| == |configs|
           && forall i :: 0 <= i < |configs| ==>
                var weight := if now.mode == Dataplane.Direct then 1.0 else configs[i].weight;
                now.configs[i] == configs[i].(weight := weight)
      ensures Ran(old(Rows()), UpdateRouting(id, change), outcome, Rows())
    {
      if id !in keys { return Refused; }
      var merged := Merged(keys[id].policy, change);
      var compiled := Dataplane.CompileProviderConfigs(merged.mode, merged.configs);
      if compiled.Err? { return Refused; }
      if !written { return Refused; }
      NormalSetsTheDirectWeight(merged);
      keys := keys[id := keys[id].(policy := Normal(merged))];
      outcome := GetVirtualKey(id, readable);
    }

    method DeleteVirtualKey(id: string, written: bool) returns (outcome: Outcome)
      modifies this
      ensures outcome.Refused? <==> id !in old(keys) || !written
      ensures !outcome.Refused? ==>
        && keys == old(keys) - {id} && outcome == Done(None)
        && budgets == (if old(keys)[id].budget !in old(budgets) then old(budgets)
                       else old(budgets)[old(keys)[id].budget := Released])
      ensures Ran(old(Rows()), Delete(id), outcome, Rows())
    {
      if id !in keys { return Refused; }
      var budget := keys[id].budget;
      if !written { return Refused; }
      keys := keys - {id};
      budgets := WithStatus(budgets, budget, Released);
      outcome := Done(None);
    }

    method CreateBudget(budget: string, written: bool) returns (outcome: Outcome)
      requires budget !in budgets && forall id :: id in keys ==> keys[id].budget != budget
      modifies this
      ensures outcome == if written then Done(None) else Refused
      ensures keys == old(keys) && budgets == if written then old(budgets)[budget := Unbound] else old(budgets)
      ensures Ran(old(Rows()), Op.CreateBudget(budget), outcome, Rows())
    {
      if !written { return Refused; }
      budgets := budgets[budget := Unbound];
      outcome := Done(None);
    }

    method DeleteBudget(budget: string, written: bool) returns (outcome: Outcome)
      modifies this
      ensures outcome.Refused? <==> budget !in old(budgets) || old(budgets)[budget] == Bound || !written
      ensures !outcome.Refused? ==> keys == old(keys) && budgets == old(budgets) - {budget} && outcome == Done(None)
      ensures Ran(old(Rows()), Op.DeleteBudget(budget), outcome, Rows())
    {
      if budget !in budgets { return Refused; }
      if budgets[budget] == Bound { return Refused; }
      if !written { return Refused; }
      budgets := budgets - {budget};
      outcome := Done(None);
    }
  }
}
