/** The in-memory virtual key cache and the admin handlers that keep it in step with
    the key rows (internal/governance/virtualkey.go, internal/server/admin-handlers.go). */
module AuthCache {
  import opened Wrappers
  import opened KeyStore

  datatype Entry = Entry(id: string, row: KeyRow)

  type Cache = map<string, Entry>

  // ---- Verdicts: what a presented key is granted at a given time.

  predicate Live(row: KeyRow, now: int) {
    row.active && (row.expiresAt.Some? ==> now <= row.expiresAt.value)
  }

  /** The request path: one lookup, then the activity and expiry check. */
  function Authenticate(cache: Cache, key: string, now: int): Option<Entry> {
    if key in cache && Live(cache[key].row, now) then Some(cache[key]) else None
  }

  ghost predicate Grants(db: Db, key: string, now: int, id: string) {
    id in db.keys && db.keys[id].apiKey == key && Live(db.keys[id], now)
  }

  /** The reference: a scan of the key rows. */
  ghost function Scan(db: Db, key: string, now: int): Option<Entry> {
    if id :| Grants(db, key, now, id) then Some(Entry(id, db.keys[id])) else None
  }

  ghost predicate Agree(db: Db, cache: Cache) {
    forall key, now :: Authenticate(cache, key, now) == Scan(db, key, now)
  }

  // ---- The relation the handlers keep.

  ghost predicate DistinctKeys(db: Db) {
    forall i, j :: i in db.keys && j in db.keys && db.keys[i].apiKey == db.keys[j].apiKey ==> i == j
  }

  /** The entry is the row under its key. An entry of an inactive row only has to be
      inactive too: nothing else of it ever shows. */
  ghost predicate Current(db: Db, key: string, e: Entry) {
    && e.id in db.keys && db.keys[e.id].apiKey == key && e.row.apiKey == key
    && (e.row == db.keys[e.id] || (!e.row.active && !db.keys[e.id].active))
  }

  /** Every entry is current, and every active row has its entry. */
  ghost predicate Mirrors(cache: Cache, db: Db) {
    && DistinctKeys(db)
    && (forall key :: key in cache ==> Current(db, key, cache[key]))
    && (forall id :: id in db.keys && db.keys[id].active ==> db.keys[id].apiKey in cache)
  }

  ghost predicate OneEntryPerId(cache: Cache) {
    forall k, l :: k in cache && l in cache && cache[k].id == cache[l].id ==> k == l
  }

  lemma MirrorsAgree(cache: Cache, db: Db)
    requires Mirrors(cache, db)
    ensures Agree(db, cache) && OneEntryPerId(cache)
  {
    forall key, now ensures Authenticate(cache, key, now) == Scan(db, key, now) {
      if key in cache && Live(cache[key].row, now) {
        assert Grants(db, key, now, cache[key].id);
      } else {
        forall id ensures !Grants(db, key, now, id) {
          assert key in cache ==> Current(db, key, cache[key]);
        }
      }
    }
    forall k, l | k in cache && l in cache && cache[k].id == cache[l].id ensures k == l {
      assert Current(db, k, cache[k]) && Current(db, l, cache[l]);
    }
  }

  // ---- What each handler does to the cache once its transaction is committed.

  function Drop(cache: Cache, id: string): Cache {
    map k | k in cache && cache[k].id != id :: cache[k]
  }

  function Upsert(cache: Cache, e: Entry): Cache {
    cache[e.row.apiKey := e]
  }

  function Served(cache: Cache, db: Db, op: Op): Cache {
    match op
    case Create(id, _) => if id in db.keys then Upsert(cache, Entry(id, db.keys[id])) else cache
    case UpdateRouting(id, _) => if id in db.keys then Upsert(cache, Entry(id, db.keys[id])) else cache
    case SetActive(id, active) =>
      if !active then Drop(cache, id) else if id in db.keys then Upsert(cache, Entry(id, db.keys[id])) else cache
    case Rotate(id, _) => if id in db.keys then Upsert(Drop(cache, id), Entry(id, db.keys[id])) else cache
    case Revoke(id) => Drop(cache, id)
    case _ => cache
  }

  /** No handler deletes a key row; every other operation can be asked for. */
  ghost predicate Handled(db: Db, op: Op) { !op.Delete? && Accepts(db, op) }

  lemma DropMirrors(cache: Cache, db: Db, t: Db, id: string)
    requires Mirrors(cache, db) && id in db.keys
    requires t.keys == db.keys[id := db.keys[id].(active := false)]
    ensures Mirrors(Drop(cache, id), t)
  {
    var next := Drop(cache, id);
    forall i, j | i in t.keys && j in t.keys && t.keys[i].apiKey == t.keys[j].apiKey ensures i == j {
      assert db.keys[i].apiKey == db.keys[j].apiKey;
    }
    forall key | key in next ensures Current(t, key, next[key]) { assert Current(db, key, cache[key]); }
    forall i | i in t.keys && t.keys[i].active ensures t.keys[i].apiKey in next {
      assert Current(db, db.keys[i].apiKey, cache[db.keys[i].apiKey]);
    }
  }

  /** Writing row `id` under its unchanged, or new, key and caching it. */
  lemma UpsertMirrors(cache: Cache, db: Db, t: Db, id: string, row: KeyRow)
    requires Mirrors(cache, db) && t.keys == db.keys[id := row]
    requires if id in db.keys then row.apiKey == db.keys[id].apiKey else !KeyTaken(db, row.apiKey)
    ensures Mirrors(Upsert(cache, Entry(id, row)), t)
  {
    var next := Upsert(cache, Entry(id, row));
    forall i, j | i in t.keys && j in t.keys && t.keys[i].apiKey == t.keys[j].apiKey ensures i == j {
      assert i in db.keys && j in db.keys ==> db.keys[i].apiKey == db.keys[j].apiKey;
    }
    forall key | key in next ensures Current(t, key, next[key]) {
      if key != row.apiKey { assert Current(db, key, cache[key]); }
    }
    forall i | i in t.keys && t.keys[i].active ensures t.keys[i].apiKey in next {}
  }

  lemma RotateMirrors(cache: Cache, db: Db, op: Op)
    requires Mirrors(cache, db) && Handled(db, op) && op.Rotate?
    ensures Mirrors(Served(cache, Commit(db, op), op), Commit(db, op))
  {
    var t := Commit(db, op);
    var next := Served(cache, t, op);
    forall i, j | i in t.keys && j in t.keys && t.keys[i].apiKey == t.keys[j].apiKey ensures i == j {
      assert i != op.id && j != op.id ==> db.keys[i].apiKey == db.keys[j].apiKey;
    }
    forall key | key in next ensures Current(t, key, next[key]) {
      if key != op.apiKey { assert Current(db, key, cache[key]); }
    }
    forall i | i in t.keys && t.keys[i].active ensures t.keys[i].apiKey in next {
      if i != op.id { assert Current(db, db.keys[i].apiKey, cache[db.keys[i].apiKey]); }
    }
  }

  lemma ServedMirrors(cache: Cache, db: Db, op: Op)
    requires Mirrors(cache, db) && Handled(db, op)
    ensures Mirrors(Served(cache, Commit(db, op), op), Commit(db, op))
  {
    var t := Commit(db, op);
    match op
    case Create(id, _) => UpsertMirrors(cache, db, t, id, t.keys[id]);
    case UpdateRouting(id, _) => UpsertMirrors(cache, db, t, id, t.keys[id]);
    case SetActive(id, active) =>
      assert t.keys == db.keys[id := db.keys[id].(active := active)];
      if active { UpsertMirrors(cache, db, t, id, t.keys[id]); } else { DropMirrors(cache, db, t, id); }
    case Revoke(id) => DropMirrors(cache, db, t, id);
    case Rotate(_, _) => RotateMirrors(cache, db, op);
    case _ =>
  }

  // ---- The full sync.

  predicate Implemented(balancer: Balancer) { balancer == RoundRobin }

  /** One unimplemented balancer anywhere refuses the whole sync. */
  ghost predicate Syncable(db: Db) {
    forall id :: id in db.keys ==> Implemented(db.keys[id].policy.balancer)
  }

  /** What a sync publishes: every row under its own key. */
  ghost predicate IsFullCache(cache: Cache, db: Db) {
    && (forall key :: key in cache ==>
         cache[key].id in db.keys && db.keys[cache[key].id] == cache[key].row && cache[key].row.apiKey == key)
    && (forall id :: id in db.keys ==> db.keys[id].apiKey in cache)
  }

  lemma SyncMirrors(cache: Cache, db: Db)
    requires DistinctKeys(db) && IsFullCache(cache, db)
    ensures Mirrors(cache, db)
  {}

  // ---- Runs: handlers and syncs, one at a time.

  datatype Event =
    | Serve(op: Op)          // committed, read back and cached
    | CommitUnread(op: Op)   // committed, but the row could not be read back
    | Sync(loaded: Cache)
    | Nothing                // a refused or failed transaction, a failed sync

  datatype System = System(db: Db, cache: Cache)

  ghost predicate Possible(s: System, e: Event) {
    match e
    case Serve(op) => Handled(s.db, op)
    case CommitUnread(op) => Handled(s.db, op) && ReadsBack(op)
    case Sync(loaded) => Syncable(s.db) && IsFullCache(loaded, s.db)
    case Nothing => true
  }

  predicate ReadsBack(op: Op) { op.Create? || op.SetActive? || op.Rotate? || op.UpdateRouting? }

  ghost function Step(s: System, e: Event): System
    requires Possible(s, e)
  {
    match e
    case Serve(op) => System(Commit(s.db, op), Served(s.cache, Commit(s.db, op), op))
    case CommitUnread(op) => s.(db := Commit(s.db, op))
    case Sync(loaded) => s.(cache := loaded)
    case Nothing => s
  }

  datatype Run = Start(s: System) | Then(before: Run, event: Event)

  ghost function End(run: Run): Option<System> {
    match run
    case Start(s) => if Mirrors(s.cache, s.db) then Some(s) else None
    case Then(before, e) =>
      match End(before)
      case None => None
      case Some(s) => if Possible(s, e) then Some(Step(s, e)) else None
  }

  lemma CommitKeepsDistinct(db: Db, op: Op)
    requires DistinctKeys(db) && Accepts(db, op)
    ensures DistinctKeys(Commit(db, op))
  {
    var t := Commit(db, op);
    forall i, j | i in t.keys && j in t.keys && t.keys[i].apiKey == t.keys[j].apiKey ensures i == j {
      if i in db.keys && j in db.keys && db.keys[i].apiKey == db.keys[j].apiKey {}
    }
  }

  lemma {:induction false} KeysStayDistinct(run: Run)
    requires End(run).Some?
    ensures DistinctKeys(End(run).value.db)
  {
    if run.Then? {
      KeysStayDistinct(run.before);
      var s := End(run.before).value;
      if run.event.Serve? || run.event.CommitUnread? { CommitKeepsDistinct(s.db, run.event.op); }
    }
  }

  // ---- A commit whose row could not be read back.

  /** Whether the committed change shows in any verdict. */
  predicate Visible(db: Db, op: Op)
    requires op.SetActive? || op.Rotate? || op.UpdateRouting? ==> op.id in db.keys
  {
    match op
    case Create(_, _) => true
    case Rotate(id, apiKey) => db.keys[id].apiKey != apiKey
    case SetActive(id, active) => db.keys[id].active != active
    case UpdateRouting(id, change) =>
      var row := db.keys[id];
      row.active && Normal(Merged(row.policy, change)) != row.policy
    case _ => false
  }

  function LastMoment(row: KeyRow): int { if row.expiresAt.Some? then row.expiresAt.value else 0 }

  /** An active row of the new database whose entry is missing or different. */
  lemma Missed(cache: Cache, t: Db, id: string)
    requires id in t.keys && t.keys[id].active && DistinctKeys(t)
    requires var key := t.keys[id].apiKey; key !in cache || cache[key] != Entry(id, t.keys[id])
    ensures !Agree(t, cache)
  {
    var key, now := t.keys[id].apiKey, LastMoment(t.keys[id]);
    assert Grants(t, key, now, id);
    assert Scan(t, key, now) == Some(Entry(id, t.keys[id]));
    assert Authenticate(cache, key, now) != Scan(t, key, now);
  }

  lemma DeactivationShows(cache: Cache, db: Db, op: Op)
    requires Mirrors(cache, db) && Handled(db, op) && op.SetActive? && !op.active && db.keys[op.id].active
    ensures !Agree(Commit(db, op), cache)
  {
    var t, row := Commit(db, op), db.keys[op.id];
    var now := LastMoment(row);
    assert Current(db, row.apiKey, cache[row.apiKey]);
    assert Authenticate(cache, row.apiKey, now).Some?;
    forall id ensures !Grants(t, row.apiKey, now, id) {
      assert id in db.keys && db.keys[id].apiKey == row.apiKey ==> id == op.id;
    }
    assert Scan(t, row.apiKey, now).None?;
  }

  /** Until the next sync the verdicts stay right exactly when the change was one no
      verdict can show. */
  lemma UnreadCommitAgreesIffInvisible(cache: Cache, db: Db, op: Op)
    requires Mirrors(cache, db) && Handled(db, op) && ReadsBack(op)
    ensures Agree(Commit(db, op), cache) <==> !Visible(db, op)
  {
    var t := Commit(db, op);
    CommitKeepsDistinct(db, op);
    match op
    case Create(id, row) =>
      UncachedKey(cache, db, row.apiKey);
      assert t.keys[id].apiKey == row.apiKey;
      Missed(cache, t, id);
    case Rotate(id, apiKey) =>
      if Visible(db, op) {
        UncachedKey(cache, db, apiKey);
        Missed(cache, t, id);
      } else {
        assert t.keys == db.keys;
        MirrorsAgree(cache, db);
        ScansAgree(db, t, id);
      }
    case SetActive(id, active) =>
      if db.keys[id].active == active { MirrorsAgree(cache, db); }
      else if active { StaleEntry(cache, db, t, id); }
      else { DeactivationShows(cache, db, op); }
    case UpdateRouting(id, _) =>
      if Visible(db, op) { StaleEntry(cache, db, t, id); }
      else if db.keys[id].active { assert t.keys == db.keys; MirrorsAgree(cache, db); ScansAgree(db, t, id); }
      else { ScansAgree(db, t, id); MirrorsAgree(cache, db); }
  }

  lemma UncachedKey(cache: Cache, db: Db, apiKey: string)
    requires Mirrors(cache, db) && !KeyTaken(db, apiKey)
    ensures apiKey !in cache
  {
    assert apiKey in cache ==> Current(db, apiKey, cache[apiKey]);
  }

  lemma StaleEntry(cache: Cache, db: Db, t: Db, id: string)
    requires Mirrors(cache, db) && DistinctKeys(t) && id in db.keys && id in t.keys
    requires t.keys[id].active && t.keys[id] != db.keys[id] && t.keys[id].apiKey == db.keys[id].apiKey
    ensures !Agree(t, cache)
  {
    var key := t.keys[id].apiKey;
    if key in cache { assert Current(db, key, cache[key]); }
    Missed(cache, t, id);
  }

  /** Editing an inactive row, or writing the same row again, changes no scan. */
  lemma ScansAgree(db: Db, t: Db, id: string)
    requires DistinctKeys(db) && DistinctKeys(t) && id in db.keys
    requires id in t.keys
    requires t.keys == db.keys || (t.keys == db.keys[id := t.keys[id]] && !db.keys[id].active && !t.keys[id].active)
    ensures forall key, now :: Scan(t, key, now) == Scan(db, key, now)
  {
    forall key, now ensures Scan(t, key, now) == Scan(db, key, now) {
      forall i ensures Grants(t, key, now, i) == Grants(db, key, now, i) {}
      if i :| Grants(db, key, now, i) {}
    }
  }

  /** And a change no verdict can show leaves the cache mirroring the rows. */
  lemma InvisibleCommitMirrors(cache: Cache, db: Db, op: Op)
    requires Mirrors(cache, db) && Handled(db, op) && ReadsBack(op) && !Visible(db, op)
    ensures Mirrors(cache, Commit(db, op))
  {
    var t := Commit(db, op);
    CommitKeepsDistinct(db, op);
    if op.SetActive? || op.Rotate? || db.keys[op.id].active {
      assert t.keys == db.keys;
    } else {
      forall key | key in cache ensures Current(t, key, cache[key]) { assert Current(db, key, cache[key]); }
    }
  }

  // ---- Whole runs: exactly when the cache refines the rows.

  /** Whether every commit since the last sync was cached, or changed no verdict. */
  ghost predicate InStep(run: Run)
    requires End(run).Some?
  {
    match run
    case Start(_) => true
    case Then(before, e) =>
      e.Sync? || (InStep(before) && (e.CommitUnread? ==> !Visible(End(before).value.db, e.op)))
  }

  /** The cache refines the rows at the end of every run that is in step: every key
      gets, at every time, the verdict and the policy a scan would give, and no key
      row has two entries. */
  lemma {:induction false} CacheRefinesRows(run: Run)
    requires End(run).Some? && InStep(run)
    ensures var s := End(run).value;
            Mirrors(s.cache, s.db) && Agree(s.db, s.cache) && OneEntryPerId(s.cache)
  {
    if run.Then? {
      var s := End(run.before).value;
      if run.event.Sync? {
        KeysStayDistinct(run.before);
        SyncMirrors(run.event.loaded, s.db);
      } else {
        CacheRefinesRows(run.before);
        if run.event.Serve? { ServedMirrors(s.cache, s.db, run.event.op); }
        if run.event.CommitUnread? { InvisibleCommitMirrors(s.cache, s.db, run.event.op); }
      }
    }
    MirrorsAgree(End(run).value.cache, End(run).value.db);
  }

  ghost predicate AgreesAllAlong(run: Run)
    requires End(run).Some?
  {
    Agree(End(run).value.db, End(run).value.cache) && (run.Then? ==> AgreesAllAlong(run.before))
  }

  ghost predicate NoVisibleChangeUnread(run: Run)
    requires End(run).Some?
  {
    run.Then? ==>
      && NoVisibleChangeUnread(run.before)
      && (run.event.CommitUnread? ==> !Visible(End(run.before).value.db, run.event.op))
  }

  lemma {:induction false} NoVisibleChangeIsInStep(run: Run)
    requires End(run).Some? && NoVisibleChangeUnread(run)
    ensures InStep(run)
  {
    if run.Then? { NoVisibleChangeIsInStep(run.before); }
  }

  /** The verdicts are right all along a run exactly when no commit that shows in a
      verdict went uncached. */
  lemma {:induction false} VerdictsAgreeExactly(run: Run)
    requires End(run).Some?
    ensures AgreesAllAlong(run) <==> NoVisibleChangeUnread(run)
  {
    if NoVisibleChangeUnread(run) {
      NoVisibleChangeIsInStep(run);
      CacheRefinesRows(run);
    }
    if run.Then? {
      VerdictsAgreeExactly(run.before);
      if NoVisibleChangeUnread(run.before) && !NoVisibleChangeUnread(run) {
        NoVisibleChangeIsInStep(run.before);
        CacheRefinesRows(run.before);
        var s := End(run.before).value;
        UnreadCommitAgreesIffInvisible(s.cache, s.db, run.event.op);
      }
    }
  }

  // ---- When syncs stop.

  ghost predicate Blocks(db: Db, id: string) {
    id in db.keys && !Implemented(db.keys[id].policy.balancer)
  }

  /** `run` continues `base` without changing the routing of `id`. */
  ghost predicate Continues(run: Run, base: Run, id: string) {
    || run == base
    || (run.Then? && Continues(run.before, base, id)
        && !((run.event.Serve? || run.event.CommitUnread?) && run.event.op.UpdateRouting? && run.event.op.id == id))
  }

  lemma OpKeepsBlock(db: Db, op: Op, id: string)
    requires Blocks(db, id) && Handled(db, op) && !(op.UpdateRouting? && op.id == id)
    ensures Blocks(Commit(db, op), id)
  {}

  /** One key stored with an unimplemented balancer stops every later sync, of all
      keys, until that key's own routing is changed. */
  lemma {:induction false} UnimplementedBalancerBlocksSync(run: Run, base: Run, id: string)
    requires End(base).Some? && Blocks(End(base).value.db, id)
    requires End(run).Some? && Continues(run, base, id)
    ensures Blocks(End(run).value.db, id) && forall loaded :: End(Run.Then(run, Sync(loaded))).None?
  {
    if run != base {
      UnimplementedBalancerBlocksSync(run.before, base, id);
      var db := End(run.before).value.db;
      if run.event.Serve? || run.event.CommitUnread? { OpKeepsBlock(db, run.event.op, id); }
    }
    assert !Syncable(End(run).value.db);
  }

  // ---- The cache and the handlers themselves.

  class VirtualkeyCache {
    var virtual: Option<Cache>

    function Entries(): Cache
      reads this
    {
      if virtual.Some? then virtual.value else map[]
    }

    constructor ()
      ensures virtual == None
    {
      virtual := None;
    }

    method LookupVkey(key: string) returns (entry: Option<Entry>)
      ensures entry == if key in Entries() then Some(Entries()[key]) else None
    {
      match virtual
      case None => return None;
      case Some(v) =>
        if key in v { return Some(v[key]); }
        return None;
    }

    /** The last entry under a key wins. */
    method LoadVirtualKeys(loaded: seq<Entry>)
      modifies this
      ensures virtual.Some?
      ensures forall key :: key in Entries() <==> exists i :: 0 <= i < |loaded| && loaded[i].row.apiKey == key
      ensures forall key :: key in Entries() ==>
        exists i :: 0 <= i < |loaded| && loaded[i] == Entries()[key] && key == loaded[i].row.apiKey
                    && forall j :: i < j < |loaded| ==> loaded[j].row.apiKey != key
    {
      var temp: Cache := map[];
      for n := 0 to |loaded|
        invariant forall key :: key in temp <==> exists i :: 0 <= i < n && loaded[i].row.apiKey == key
        invariant forall key :: key in temp ==>
          exists i :: 0 <= i < n && loaded[i] == temp[key] && key == loaded[i].row.apiKey
                      && forall j :: i < j < n ==> loaded[j].row.apiKey != key
      {
        temp := temp[loaded[n].row.apiKey := loaded[n]];
      }
      virtual := Some(temp);
    }

    method UpsertVirtualKey(e: Entry)
      modifies this
      ensures Entries() == Upsert(old(Entries()), e)
    {
      var next := Entries();
      next := next[e.row.apiKey := e];
      virtual := Some(next);
    }

    /** Only the first entry found is removed, so it matters that there is but one. */
    method DeleteVirtualKeyByID(id: string) returns (found: bool)
      modifies this
      ensures OneEntryPerId(old(Entries())) ==> Entries() == Drop(old(Entries()), id)
      ensures found <==> exists k :: k in old(Entries()) && old(Entries())[k].id == id
      ensures found ==>
          exists k :: k in old(Entries()) && old(Entries())[k].id == id && Entries() == old(Entries()) - {k}
    {
      var next := Entries();
      var left := next.Keys;
      while left != {}
        invariant left <= next.Keys && Entries() == old(Entries()) == next
        invariant forall k :: k in next && k !in left ==> next[k].id != id
      {
        var key :| key in left;
        if next[key].id == id {
          virtual := Some(next - {key});
          return true;
        }
        left := left - {key};
      }
      assert Drop(next, id) == next;
      return false;
    }
  }

  /** The admin handlers and the sync job over one store and one cache. */
  class Server {
    const store: Store
    const cache: VirtualkeyCache

    constructor (s: Store, c: VirtualkeyCache)
      ensures store == s && cache == c
    {
      store, cache := s, c;
    }

    ghost function Now(): System
      reads this, store, cache
    {
      System(store.Rows(), cache.Entries())
    }

    /** Authenticate one request: a single lookup, yet the scan's verdict. A key is granted
        while a row has it that is active and not expired, and gets that row. */
    method ValidateKey(key: string, now: int) returns (granted: Option<Entry>)
      ensures granted == Authenticate(cache.Entries(), key, now)
      ensures Mirrors(cache.Entries(), store.Rows()) ==>
        && granted == Scan(store.Rows(), key, now)
        && (granted.Some? <==>
              exists id :: id in store.keys && store.keys[id].apiKey == key && store.keys[id].active
                           && (store.keys[id].expiresAt.None? || now <= store.keys[id].expiresAt.value))
        && (granted.Some? ==> granted.value.id in store.keys && granted.value.row == store.keys[granted.value.id]
                              && granted.value.row.apiKey == key)
    {
      var entry := cache.LookupVkey(key);
      granted := if entry.Some? && Live(entry.value.row, now) then entry else None;
      if Mirrors(cache.Entries(), store.Rows()) { MirrorsAgree(cache.Entries(), store.Rows()); }
    }

    /** A handler call is one event of the run. */
    ghost predicate Handles(before: System, op: Op, outcome: Outcome, after: System) {
      exists e :: EventOf(e, op, outcome) && Possible(before, e) && after == Step(before, e)
    }

    ghost predicate EventOf(e: Event, op: Op, outcome: Outcome) {
      match outcome
      case Refused => e == Nothing
      case Unread => e == CommitUnread(op)
      case Done(_) => e == Serve(op)
    }

    method CreateVirtualKey(id: string, request: KeyRow, written: bool, readable: bool) returns (outcome: Outcome)
      modifies store, cache
      ensures Handles(old(Now()), Create(id, request.(active := true)), outcome, Now())
      ensures outcome.Refused? <==> !written || !Accepts(old(store.Rows()), Create(id, request.(active := true)))
      ensures outcome.Unread? <==> !outcome.Refused? && !readable
      ensures outcome.Done? ==> id in store.keys
      ensures outcome.Done? ==>
        cache.Entries() == old(cache.Entries())[request.apiKey := Entry(id, store.keys[id])]
    {
      ghost var op := Create(id, request.(active := true));
      outcome := store.CreateVirtualKeyTx(id, request, written, readable);
      ghost var e := if outcome.Refused? then Nothing else if outcome.Unread? then CommitUnread(op) else Serve(op);
      assert Possible(old(Now()), e);
      if outcome.Done? { cache.UpsertVirtualKey(Entry(id, outcome.row.value)); }
      assert EventOf(e, op, outcome) && Now() == Step(old(Now()), e);
    }

    method UpdateVirtualKeyRouting(id: string, change: Change, written: bool, readable: bool)
      returns (outcome: Outcome)
      modifies store, cache
      ensures Handles(old(Now()), UpdateRouting(id, change), outcome, Now())
      ensures outcome.Refused? <==> !written || !Accepts(old(store.Rows()), UpdateRouting(id, change))
      ensures outcome.Unread? <==> !outcome.Refused? && !readable
      ensures outcome.Done? ==> id in store.keys
      ensures outcome.Done? ==>
        cache.Entries() == old(cache.Entries())[store.keys[id].apiKey := Entry(id, store.keys[id])]
    {
      ghost var op := UpdateRouting(id, change);
      outcome := store.UpdateVirtualKeyRouting(id, change, written, readable);
      ghost var e := if outcome.Refused? then Nothing else if outcome.Unread? then CommitUnread(op) else Serve(op);
      assert Possible(old(Now()), e);
      if outcome.Done? { cache.UpsertVirtualKey(Entry(id, outcome.row.value)); }
      assert EventOf(e, op, outcome) && Now() == Step(old(Now()), e);
    }

    method SetVirtualKeyStatus(id: string, active: bool, written: bool, readable: bool) returns (outcome: Outcome)
      requires OneEntryPerId(cache.Entries())
      modifies store, cache
      ensures Handles(old(Now()), SetActive(id, active), outcome, Now())
      ensures outcome.Refused? <==> !written || !Accepts(old(store.Rows()), SetActive(id, active))
      ensures outcome.Unread? <==> !outcome.Refused? && !readable
      ensures outcome.Done? ==> id in store.keys
      ensures outcome.Done? ==>
        cache.Entries() == if active then old(cache.Entries())[store.keys[id].apiKey := Entry(id, store.keys[id])]
                           else Drop(old(cache.Entries()), id)
    {
      ghost var op := SetActive(id, active);
      outcome := store.SetVirtualKeyActive(id, active, written, readable);
      ghost var e := if outcome.Refused? then Nothing else if outcome.Unread? then CommitUnread(op) else Serve(op);
      assert Possible(old(Now()), e);
      if outcome.Done? {
        if active {
          cache.UpsertVirtualKey(Entry(id, outcome.row.value));
        } else {
          var _ := cache.DeleteVirtualKeyByID(id);
        }
      }
      assert EventOf(e, op, outcome) && Now() == Step(old(Now()), e);
    }

    method RevokeVirtualKey(id: string, written: bool) returns (outcome: Outcome)
      requires OneEntryPerId(cache.Entries())
      modifies store, cache
      ensures Handles(old(Now()), Revoke(id), outcome, Now())
      ensures outcome.Refused? <==> !written || !Accepts(old(store.Rows()), Revoke(id))
      ensures !outcome.Refused? ==> cache.Entries() == Drop(old(cache.Entries()), id)
    {
      ghost var op := Revoke(id);
      outcome := store.RevokeVirtualKey(id, written);
      ghost var e := if outcome.Refused? then Nothing else Serve(op);
      assert Possible(old(Now()), e);
      if !outcome.Refused? { var _ := cache.DeleteVirtualKeyByID(id); }
      assert EventOf(e, op, outcome) && Now() == Step(old(Now()), e);
    }

    method RotateVirtualKey(id: string, apiKey: string, written: bool, readable: bool) returns (outcome: Outcome)
      requires OneEntryPerId(cache.Entries())
      modifies store, cache
      ensures Handles(old(Now()), Rotate(id, apiKey), outcome, Now())
      ensures outcome.Refused? <==> !written || !Accepts(old(store.Rows()), Rotate(id, apiKey))
      ensures outcome.Unread? <==> !outcome.Refused? && !readable
      ensures outcome.Done? ==> id in store.keys
      ensures outcome.Done? ==>
        cache.Entries() == Drop(old(cache.Entries()), id)[apiKey := Entry(id, store.keys[id])]
    {
      ghost var op := Rotate(id, apiKey);
      outcome := store.RotateVirtualKey(id, apiKey, written, readable);
      ghost var e := if outcome.Refused? then Nothing else if outcome.Unread? then CommitUnread(op) else Serve(op);
      assert Possible(old(Now()), e);
      if outcome.Done? {
        var _ := cache.DeleteVirtualKeyByID(id);
        cache.UpsertVirtualKey(Entry(id, outcome.row.value));
      }
      assert EventOf(e, op, outcome) && Now() == Step(old(Now()), e);
    }

    /** Read the rows, convert and check each one, and publish all or nothing. */
    method SyncVirtualKeys(readable: bool) returns (ok: bool)
      requires DistinctKeys(store.Rows())
      modifies cache
      ensures ok <==> readable && forall id :: id in store.keys ==> store.keys[id].policy.balancer == RoundRobin
      ensures ok ==> Syncable(store.Rows()) && IsFullCache(cache.Entries(), store.Rows())
      ensures !ok ==> Now() == old(Now())
    {
      if !readable { return false; }
      var rows: seq<Entry> := [];
      var left := store.keys.Keys;
      while left != {}
        invariant left <= store.keys.Keys && Now() == old(Now())
        invariant forall i :: 0 <= i < |rows| ==> rows[i].id in store.keys && store.keys[rows[i].id] == rows[i].row
        invariant forall id :: id in store.keys && id !in left ==>
          Implemented(store.keys[id].policy.balancer) && Entry(id, store.keys[id]) in rows
      {
        var id :| id in left;
        if !Implemented(store.keys[id].policy.balancer) { return false; }
        rows := rows + [Entry(id, store.keys[id])];
        left := left - {id};
      }
      cache.LoadVirtualKeys(rows);
      forall id | id in store.keys ensures store.keys[id].apiKey in cache.Entries() {
        var i :| 0 <= i < |rows| && rows[i] == Entry(id, store.keys[id]);
      }
      return true;
    }
  }
}
