/**
  Offline-first registration (web_register_api.go:187-274, 555-752, 851-1049): every registration is stored
  in SQLite first and copied to PostgreSQL by the request itself or, later, by the sync worker.

  Only the columns that decide what happens are kept: ids, idempotency keys, emails and the sync state.
 */
module Registration {
  import opened Common
  import opened Order

  /** A row of local_tenants.  `id`, `key` and `email` are unique. */
  datatype LocalRow = LocalRow(key: string, email: string, createdAt: int, synced: bool, error: Option<string>)

  type Local = map<string, LocalRow>

  /** client_business_register (id to email; both unique) and api_idempotency_keys. */
  datatype Cloud = Cloud(rows: map<string, string>, keys: map<string, string>)

  /** The way to the cloud: there, not there, or lost between the commit and its answer. */
  datatype Link = Up | Down | AnswerLost

  /**
    What an attempt to sync meets: the way to the cloud, and whether the mark in SQLite afterwards is stored.  The
    worker marks a row over a second connection while its own query is still open, and drops the error of doing so.
   */
  datatype Luck = Luck(link: Link, marked: bool)

  const THROUGH := Luck(Up, true)

  datatype SyncError = Unreachable | DuplicateEmail | DuplicateId

  function ErrorText(e: SyncError): string {
    match e
    case Unreachable => "unreachable"
    case DuplicateEmail => "duplicate_email"
    case DuplicateId => "duplicate key value violates unique constraint"
  }

  // ---------------------------------------------------------------- local save

  predicate Conflicts(local: Local, newId: string, key: string, email: string) {
    newId in local || exists id :: id in local && (local[id].key == key || local[id].email == email)
  }

  /** What `WHERE idempotency_key = ? OR email = ? ORDER BY created_at DESC LIMIT 1` may return. */
  predicate NewestMatch(local: Local, key: string, email: string, id: string) {
    && id in local && (local[id].key == key || local[id].email == email)
    && forall other :: other in local && (local[other].key == key || local[other].email == email) ==>
         local[other].createdAt <= local[id].createdAt
  }

  predicate HasMatch(local: Local, key: string, email: string) {
    exists id :: id in local && (local[id].key == key || local[id].email == email)
  }

  function Saved(local: Local, newId: string, key: string, email: string, now: int): Local {
    if Conflicts(local, newId, key, email) then local
    else local[newId := LocalRow(key, email, now, false, None)]
  }

  /** The id the request goes on with: the new row's, or that of the newest row that was in the way. */
  function SavedId(local: Local, newId: string, key: string, email: string, match_: string): string {
    if Conflicts(local, newId, key, email) then match_ else newId
  }

  // ---------------------------------------------------------------- cloud transaction

  function CloudSync(cloud: Cloud, id: string, key: string, email: string): (r: (Cloud, Result<string, SyncError>))
    ensures r.1.Err? ==> r.0 == cloud
  {
    if key in cloud.keys then (cloud, Ok(cloud.keys[key]))
    else if email in cloud.rows.Values then (cloud, Err(DuplicateEmail))
    else if id in cloud.rows then (cloud, Err(DuplicateId))
    else (Cloud(cloud.rows[id := email], cloud.keys[key := id]), Ok(id))
  }

  function Attempt(cloud: Cloud, link: Link, id: string, key: string, email: string)
      : (Cloud, Result<string, SyncError>) {
    match link
    case Up => CloudSync(cloud, id, key, email)
    case Down => (cloud, Err(Unreachable))
    case AnswerLost => (CloudSync(cloud, id, key, email).0, Err(Unreachable))
  }

  /** The log keeps the first 500 bytes of an error. */
  function Logged(error: string): string {
    if |error| > 500 then error[..500] else error
  }

  function Marked(local: Local, id: string, r: Result<string, SyncError>): Local {
    if id !in local then local
    else if r.Ok? then local[id := local[id].(synced := true, error := None)]
    else local[id := local[id].(synced := false, error := Some(Logged(ErrorText(r.error))))]
  }

  /** The error of a mark that is not stored is dropped. */
  function Noted(local: Local, id: string, r: Result<string, SyncError>, marked: bool): Local {
    if marked then Marked(local, id, r) else local
  }

  // ---------------------------------------------------------------- the worker

  function Pending(local: Local): set<string> {
    set id | id in local && !local[id].synced
  }

  /** An answer of `WHERE is_synced = 0 ORDER BY created_at ASC LIMIT ?`. */
  predicate OldestPending(local: Local, limit: nat, batch: seq<string>) {
    && (forall i :: 0 <= i < |batch| ==> batch[i] in Pending(local))
    && (forall i, j :: 0 <= i < j < |batch| ==>
          batch[i] != batch[j] && local[batch[i]].createdAt <= local[batch[j]].createdAt)
    && |batch| == (if limit <= |Pending(local)| then limit else |Pending(local)|)
    && (forall i, id :: 0 <= i < |batch| && id in Pending(local) && id !in batch ==>
          local[batch[i]].createdAt <= local[id].createdAt)
  }

  datatype Tables = Tables(local: Local, cloud: Cloud)

  /** One pending row: `row` is its content as the worker's query read it. */
  function SyncOne(t: Tables, id: string, row: LocalRow, luck: Luck): Tables {
    var (cloud, r) := Attempt(t.cloud, luck.link, id, row.key, row.email);
    Tables(Noted(t.local, id, r, luck.marked), cloud)
  }

  function SyncAll(t: Tables, read: Local, batch: seq<string>, luck: string -> Luck): Tables
    requires forall i :: 0 <= i < |batch| ==> batch[i] in read
  {
    if batch == [] then t
    else
      var id := batch[|batch| - 1];
      SyncOne(SyncAll(t, read, batch[..|batch| - 1], luck), id, read[id], luck(id))
  }

  /** handleRegister after validation, when something could be saved locally. */
  function Requested(t: Tables, newId: string, key: string, email: string, now: int, match_: string, luck: Luck)
      : (r: (Tables, string, bool))
  {
    var id := SavedId(t.local, newId, key, email, match_);
    var (cloud, r) := Attempt(t.cloud, luck.link, id, key, email);
    (Tables(Noted(Saved(t.local, newId, key, email, now), id, r, luck.marked), cloud),
     if r.Ok? then r.value else id, r.Ok?)
  }

  // ---------------------------------------------------------------- the running service

  class Service {
    var local: Local
    var cloud: Cloud

    function Now(): Tables
      reads this
    {
      Tables(local, cloud)
    }

    constructor ()
      ensures Now() == Tables(map[], Cloud(map[], map[]))
    {
      local, cloud := map[], Cloud(map[], map[]);
    }

    /** `match_` is the answer of the query for the row in the way; there may be none. */
    method SaveToSQLiteFirst(newId: string, key: string, email: string, now: int, match_: string)
      returns (r: Option<string>)
      requires HasMatch(local, key, email) ==> NewestMatch(local, key, email, match_)
      modifies this`local
      ensures local == Saved(old(local), newId, key, email, now)
      ensures r.None? <==> newId in old(local) && !HasMatch(old(local), key, email)
      ensures r.Some? ==> r.value == SavedId(old(local), newId, key, email, match_) && r.value in local
      ensures newId !in old(local) && !HasMatch(old(local), key, email) ==>
                r == Some(newId) && local == old(local)[newId := LocalRow(key, email, now, false, None)]
      ensures HasMatch(old(local), key, email) ==> r == Some(match_) && local == old(local)
    {
      if !Conflicts(local, newId, key, email) {
        local := local[newId := LocalRow(key, email, now, false, None)];
        return Some(newId);
      }
      if !HasMatch(local, key, email) {
        return None;
      }
      return Some(match_);
    }

    method SyncToPostgres(id: string, key: string, email: string, link: Link)
      returns (r: Result<string, SyncError>)
      modifies this`cloud
      ensures (cloud, r) == Attempt(old(cloud), link, id, key, email)
      ensures link.Down? ==> cloud == old(cloud)
      ensures !link.Up? ==> r == Err(Unreachable)
      ensures link.Up? && key in old(cloud).keys ==> r == Ok(old(cloud).keys[key]) && cloud == old(cloud)
      ensures link.Up? && key !in old(cloud).keys && email in old(cloud).rows.Values ==>
                r == Err(DuplicateEmail) && cloud == old(cloud)
      ensures link.Up? && key !in old(cloud).keys && email !in old(cloud).rows.Values && id !in old(cloud).rows ==>
                r == Ok(id) && cloud == Cloud(old(cloud).rows[id := email], old(cloud).keys[key := id])
    {
      if link.Down? {
        return Err(Unreachable);
      }
      if key in cloud.keys {
        return if link.Up? then Ok(cloud.keys[key]) else Err(Unreachable);
      }
      var rows, keys := cloud.rows, cloud.keys;
      if email in rows.Values {
        return if link.Up? then Err(DuplicateEmail) else Err(Unreachable);
      }
      if id in rows {
        return if link.Up? then Err(DuplicateId) else Err(Unreachable);
      }
      rows := rows[id := email];
      keys := keys[key := id];
      cloud := Cloud(rows, keys);
      return if link.Up? then Ok(id) else Err(Unreachable);
    }

    /** `stored` says whether the UPDATE takes effect. */
    method MarkSynced(id: string, stored: bool)
      modifies this`local
      ensures local == if stored && id in old(local)
                       then old(local)[id := old(local)[id].(synced := true, error := None)]
                       else old(local)
    {
      if stored && id in local {
        local := local[id := local[id].(synced := true, error := None)];
      }
    }

    method MarkPending(id: string, error: string, stored: bool)
      modifies this`local
      ensures local == if stored && id in old(local)
                       then old(local)[id := old(local)[id].(synced := false,
                                             error := Some(if |error| > 500 then error[..500] else error))]
                       else old(local)
    {
      var text := error;
      if |text| > 500 {
        text := text[..500];
      }
      if stored && id in local {
        local := local[id := local[id].(synced := false, error := Some(text))];
      }
    }

    /** handleRegister after validation: None if nothing could be saved locally, else (id replied, synced). */
    method Register(newId: string, key: string, email: string, now: int, match_: string, luck: Luck)
      returns (reply: Option<(string, bool)>)
      requires HasMatch(local, key, email) ==> NewestMatch(local, key, email, match_)
      modifies this
      ensures reply.None? <==> newId in old(local) && !HasMatch(old(local), key, email)
      ensures reply.None? ==> Now() == old(Now())
      ensures reply.Some? ==>
                (Now(), reply.value.0, reply.value.1)
                == Requested(old(Now()), newId, key, email, now, match_, luck)
    {
      var saved := SaveToSQLiteFirst(newId, key, email, now, match_);
      if saved.None? {
        return None;
      }
      var id := saved.value;
      var r := SyncToPostgres(id, key, email, luck.link);
      if r.Ok? {
        MarkSynced(id, luck.marked);
        return Some((r.value, true));
      }
      MarkPending(id, ErrorText(r.error), luck.marked);
      return Some((id, false));
    }

    /** One worker tick over the rows its query returned. */
    method SyncPending(limit: nat, batch: seq<string>, luck: string -> Luck)
      requires OldestPending(local, limit, batch)
      modifies this
      ensures Now() == SyncAll(old(Now()), old(local), batch, luck)
    {
      ghost var start := Now();
      var read := local;
      var i := 0;
      while i < |batch|
        invariant 0 <= i <= |batch|
        invariant forall k :: 0 <= k < |batch| ==> batch[k] in read
        invariant Now() == SyncAll(start, read, batch[..i], luck)
      {
        var id := batch[i];
        assert batch[..i + 1][..i] == batch[..i];
        var r := SyncToPostgres(id, read[id].key, read[id].email, luck(id).link);
        if r.Ok? {
          MarkSynced(id, luck(id).marked);
        } else {
          MarkPending(id, ErrorText(r.error), luck(id).marked);
        }
        i := i + 1;
      }
      assert batch[..|batch|] == batch;
    }
  }

  // ---------------------------------------------------------------- what a sync answers

  /**
    An attempt that gets through: an answer is the id bound to the key from then on, the one it was bound to before if
    there was one, and otherwise the row's own id, now stored with its email.  It fails exactly when the key is free and
    the email or the id is taken.
   */
  lemma AnswerIsBound(cloud: Cloud, id: string, key: string, email: string)
    ensures var (after, r) := CloudSync(cloud, id, key, email);
            && (r.Ok? ==> key in after.keys && after.keys[key] == r.value)
            && (key in cloud.keys ==> r == Ok(cloud.keys[key]) && after == cloud)
            && (r.Ok? && key !in cloud.keys ==>
                  r.value == id && after == Cloud(cloud.rows[id := email], cloud.keys[key := id]))
            && (r.Err? <==> key !in cloud.keys && (email in cloud.rows.Values || id in cloud.rows))
            && (r.Err? ==> after == cloud)
  {
  }

  // ---------------------------------------------------------------- draining the queue

  /** The (key, email) pairs that clients submit: an email always comes under the same key. */
  predicate OneKeyPerEmail(requests: set<(string, string)>) {
    forall p, q :: p in requests && q in requests && p.1 == q.1 ==> p.0 == q.0
  }

  ghost predicate UniqueLocally(local: Local) {
    forall i, j :: i in local && j in local && i != j ==>
      local[i].key != local[j].key && local[i].email != local[j].email
  }

  /** The binding that came with a cloud row: its key was submitted with the row's email. */
  predicate BoundBy(t: Tables, requests: set<(string, string)>, id: string, key: string) {
    && key in t.cloud.keys && t.cloud.keys[key] == id
    && id in t.cloud.rows && (key, t.cloud.rows[id]) in requests
    && id in t.local && (t.local[id].key == key || t.local[id].email == t.cloud.rows[id])
  }

  ghost predicate Consistent(t: Tables, requests: set<(string, string)>) {
    && UniqueLocally(t.local)
    && (forall id :: id in t.local ==> (t.local[id].key, t.local[id].email) in requests)
    && (forall id :: id in t.cloud.rows ==> exists key :: BoundBy(t, requests, id, key))
  }

  /** Storing a request locally keeps the tables consistent. */
  lemma SaveKeepsConsistent(t: Tables, requests: set<(string, string)>, newId: string, key: string, email: string,
                            now: int)
    requires Consistent(t, requests) && (key, email) in requests
    ensures Consistent(t.(local := Saved(t.local, newId, key, email, now)), requests)
  {
    var t' := t.(local := Saved(t.local, newId, key, email, now));
    forall id | id in t'.cloud.rows
      ensures exists key :: BoundBy(t', requests, id, key)
    {
      var k :| BoundBy(t, requests, id, k);
      assert BoundBy(t', requests, id, k);
    }
  }

  /** The only thing an attempt can do to the cloud: bind a free key to a new row. */
  predicate CloudGrown(cloud: Cloud, cloud': Cloud, id: string, key: string, email: string) {
    cloud' == cloud || (id !in cloud.rows && key !in cloud.keys
                        && cloud' == Cloud(cloud.rows[id := email], cloud.keys[key := id]))
  }

  lemma AttemptGrows(cloud: Cloud, link: Link, id: string, key: string, email: string)
    ensures CloudGrown(cloud, Attempt(cloud, link, id, key, email).0, id, key, email)
  {
  }

  predicate SameButSync(a: Local, b: Local) {
    a.Keys == b.Keys
    && forall id :: id in a ==>
         a[id].key == b[id].key && a[id].email == b[id].email && a[id].createdAt == b[id].createdAt
  }

  lemma NotedIsSame(local: Local, id: string, r: Result<string, SyncError>, marked: bool)
    ensures SameButSync(local, Noted(local, id, r, marked))
  {
  }

  lemma GrownIsConsistent(t: Tables, t': Tables, requests: set<(string, string)>, id: string, key: string,
                          email: string)
    requires Consistent(t, requests) && (key, email) in requests
    requires id in t.local && (t.local[id].key == key || t.local[id].email == email)
    requires SameButSync(t.local, t'.local) && CloudGrown(t.cloud, t'.cloud, id, key, email)
    ensures Consistent(t', requests)
  {
    forall x | x in t'.cloud.rows
      ensures exists k :: BoundBy(t', requests, x, k)
    {
      if x in t.cloud.rows {
        var k :| BoundBy(t, requests, x, k);
        assert BoundBy(t', requests, x, k);
      } else {
        assert BoundBy(t', requests, x, key);
      }
    }
  }

  /**
    So does a cloud transaction for a local row that shares its key or its email, whatever its outcome and its luck.
   */
  lemma SyncKeepsConsistent(t: Tables, requests: set<(string, string)>, id: string, key: string, email: string,
                            luck: Luck)
    requires Consistent(t, requests) && (key, email) in requests
    requires id in t.local && (t.local[id].key == key || t.local[id].email == email)
    ensures var (cloud, r) := Attempt(t.cloud, luck.link, id, key, email);
            Consistent(Tables(Noted(t.local, id, r, luck.marked), cloud), requests)
  {
    var (cloud, r) := Attempt(t.cloud, luck.link, id, key, email);
    hide Consistent, Attempt, Noted, CloudGrown, SameButSync;
    AttemptGrows(t.cloud, luck.link, id, key, email);
    NotedIsSame(t.local, id, r, luck.marked);
    GrownIsConsistent(t, Tables(Noted(t.local, id, r, luck.marked), cloud), requests, id, key, email);
  }

  /** With one key per email, an email that is taken in the cloud is taken under this row's own key. */
  lemma TakenEmailIsBound(t: Tables, requests: set<(string, string)>, id: string)
    requires Consistent(t, requests) && OneKeyPerEmail(requests) && id in t.local
    requires t.local[id].email in t.cloud.rows.Values
    ensures t.local[id].key in t.cloud.keys
  {
    var z :| z in t.cloud.rows && t.cloud.rows[z] == t.local[id].email;
    var k :| BoundBy(t, requests, z, k);
    assert (k, t.local[id].email) in requests && (t.local[id].key, t.local[id].email) in requests;
  }

  lemma TakenIdIsBound(t: Tables, requests: set<(string, string)>, id: string)
    requires Consistent(t, requests) && id in t.local && id in t.cloud.rows
    ensures t.local[id].key in t.cloud.keys || t.local[id].email in t.cloud.rows.Values
  {
    var k :| BoundBy(t, requests, id, k);
    assert t.cloud.rows[id] in t.cloud.rows.Values;
  }

  /** So a pending row's transaction cannot fail once the cloud is reachable. */
  lemma PendingRowSyncs(t: Tables, requests: set<(string, string)>, id: string)
    requires Consistent(t, requests) && OneKeyPerEmail(requests) && id in t.local
    ensures CloudSync(t.cloud, id, t.local[id].key, t.local[id].email).1.Ok?
  {
    if t.local[id].email in t.cloud.rows.Values {
      TakenEmailIsBound(t, requests, id);
    }
    if id in t.cloud.rows {
      TakenIdIsBound(t, requests, id);
    }
  }

  /** What one attempt does to a row: it is synced if it got through, and otherwise not turned synced. */
  predicate RowTried(a: LocalRow, b: LocalRow, luck: Luck) {
    if luck == THROUGH then b.synced && b.error == None else b.synced ==> a.synced
  }

  /** `id` was tried and no other row was touched. */
  predicate OnlyTried(a: Local, b: Local, id: string, luck: Luck) {
    && SameButSync(a, b) && id in a && id in b && RowTried(a[id], b[id], luck)
    && forall other :: other in a && other != id ==> b[other] == a[other]
  }

  lemma RowIsTried(t: Tables, requests: set<(string, string)>, id: string, luck: Luck)
    requires Consistent(t, requests) && OneKeyPerEmail(requests) && id in t.local
    ensures var t' := SyncOne(t, id, t.local[id], luck);
            Consistent(t', requests) && OnlyTried(t.local, t'.local, id, luck)
  {
    hide *;
    PendingRowSyncs(t, requests, id);
    SyncOneKeepsConsistent(t, requests, id, t.local[id], luck);
    RowOutcome(t, id, luck);
  }

  lemma SyncOneKeepsConsistent(t: Tables, requests: set<(string, string)>, id: string, row: LocalRow, luck: Luck)
    requires Consistent(t, requests) && id in t.local && row.key == t.local[id].key && row.email == t.local[id].email
    ensures Consistent(SyncOne(t, id, row, luck), requests)
  {
    assert (row.key, row.email) in requests;
    hide Consistent, Attempt, Noted;
    SyncKeepsConsistent(t, requests, id, row.key, row.email, luck);
  }

  lemma RowOutcome(t: Tables, id: string, luck: Luck)
    requires id in t.local && CloudSync(t.cloud, id, t.local[id].key, t.local[id].email).1.Ok?
    ensures OnlyTried(t.local, SyncOne(t, id, t.local[id], luck).local, id, luck)
  {
    hide CloudSync;
  }

  /** Which rows a tick turned: those of its batch that got through, and no others. */
  predicate BatchTried(a: Local, b: Local, batch: seq<string>, luck: string -> Luck) {
    && SameButSync(a, b)
    && forall id :: id in a ==> if id in batch then RowTried(a[id], b[id], luck(id)) else b[id] == a[id]
  }

  lemma BatchGrows(a: Local, b: Local, c: Local, batch: seq<string>, id: string, luck: string -> Luck)
    requires BatchTried(a, b, batch, luck) && OnlyTried(b, c, id, luck(id))
    ensures BatchTried(a, c, batch + [id], luck)
  {
  }

  /** The worker passes on the row as it read it; only its sync state can have changed since. */
  lemma SyncOneIgnoresSyncState(t: Tables, id: string, row: LocalRow, luck: Luck)
    requires id in t.local && row.key == t.local[id].key && row.email == t.local[id].email
    ensures SyncOne(t, id, row, luck) == SyncOne(t, id, t.local[id], luck)
  {
  }

  lemma TickStep(t: Tables, mid: Tables, requests: set<(string, string)>, before: seq<string>, id: string,
                 luck: string -> Luck)
    requires Consistent(mid, requests) && OneKeyPerEmail(requests)
    requires BatchTried(t.local, mid.local, before, luck) && id in t.local
    ensures var t' := SyncOne(mid, id, t.local[id], luck(id));
            Consistent(t', requests) && BatchTried(t.local, t'.local, before + [id], luck)
  {
    SyncOneIgnoresSyncState(mid, id, t.local[id], luck(id));
    RowIsTried(mid, requests, id, luck(id));
    BatchGrows(t.local, mid.local, SyncOne(mid, id, mid.local[id], luck(id)).local, before, id, luck);
  }

  /** A tick turns exactly those rows of its batch synced that get through, and leaves every other row as it was. */
  lemma {:induction false} TickSyncsBatch(t: Tables, requests: set<(string, string)>, batch: seq<string>,
                          luck: string -> Luck)
    requires Consistent(t, requests) && OneKeyPerEmail(requests)
    requires forall i :: 0 <= i < |batch| ==> batch[i] in t.local
    ensures var t' := SyncAll(t, t.local, batch, luck);
            Consistent(t', requests) && BatchTried(t.local, t'.local, batch, luck)
  {
    if batch != [] {
      var n := |batch| - 1;
      var before := batch[..n];
      TickSyncsBatch(t, requests, before, luck);
      TickStep(t, SyncAll(t, t.local, before, luck), requests, before, batch[n], luck);
      assert batch == before + [batch[n]];
    }
  }

  /** Whoever clients are, a tick keeps the tables consistent. */
  lemma {:induction false} TickKeepsConsistent(t: Tables, requests: set<(string, string)>, batch: seq<string>,
                          luck: string -> Luck)
    requires Consistent(t, requests) && forall i :: 0 <= i < |batch| ==> batch[i] in t.local
    ensures var t' := SyncAll(t, t.local, batch, luck);
            Consistent(t', requests) && SameButSync(t.local, t'.local)
  {
    if batch != [] {
      var n := |batch| - 1;
      TickKeepsConsistent(t, requests, batch[..n], luck);
      var mid, id := SyncAll(t, t.local, batch[..n], luck), batch[n];
      SyncOneKeepsConsistent(mid, requests, id, t.local[id], luck(id));
    }
  }

  /** The rows of a batch that get through. */
  function Through(batch: seq<string>, luck: string -> Luck): set<string> {
    set id | id in batch && luck(id) == THROUGH
  }

  /** A tick takes exactly the rows off the queue that get through: min(limit, pending) of them when all do. */
  lemma TickShrinksQueue(t: Tables, requests: set<(string, string)>, limit: nat, batch: seq<string>,
                         luck: string -> Luck)
    requires Consistent(t, requests) && OneKeyPerEmail(requests) && OldestPending(t.local, limit, batch)
    ensures var t' := SyncAll(t, t.local, batch, luck);
            && Pending(t'.local) == Pending(t.local) - Through(batch, luck)
            && |Pending(t'.local)| == |Pending(t.local)| - |Through(batch, luck)|
            && (Through(batch, luck) == ToSet(batch) ==> |Pending(t'.local)| == |Pending(t.local)| - |batch|)
            && Consistent(t', requests)
  {
    hide Consistent, SyncAll, BatchTried, OneKeyPerEmail;
    TickSyncsBatch(t, requests, batch, luck);
    PendingAfter(t.local, SyncAll(t, t.local, batch, luck).local, batch, luck);
    DistinctSize(batch);
  }

  lemma PendingAfter(a: Local, b: Local, batch: seq<string>, luck: string -> Luck)
    requires BatchTried(a, b, batch, luck) && forall i :: 0 <= i < |batch| ==> batch[i] in Pending(a)
    ensures Through(batch, luck) <= Pending(a) && Pending(b) == Pending(a) - Through(batch, luck)
  {
    forall id | id in a
      ensures id in Pending(b) <==> id in Pending(a) && id !in Through(batch, luck)
    {
      assert id in batch ==> id in Pending(a);
      assert id in batch ==> RowTried(a[id], b[id], luck(id));
    }
  }

  // ---------------------------------------------------------------- histories

  const EMPTY := Tables(map[], Cloud(map[], map[]))

  /** What happens to the service: a request of a client, or a tick of the worker. */
  datatype Happening =
    | Request(newId: string, key: string, email: string, now: int, match_: string, luck: Luck)
    | Tick(limit: nat, batch: seq<string>, lucks: string -> Luck)

  predicate CanHappen(requests: set<(string, string)>, t: Tables, h: Happening) {
    match h
    case Request(newId, key, email, _, match_, _) =>
      (key, email) in requests && (HasMatch(t.local, key, email) ==> NewestMatch(t.local, key, email, match_))
    case Tick(limit, batch, _) => OldestPending(t.local, limit, batch)
  }

  function Next(requests: set<(string, string)>, t: Tables, h: Happening): Tables
    requires CanHappen(requests, t, h)
  {
    match h
    case Request(newId, key, email, now, match_, luck) =>
      if newId in t.local && !HasMatch(t.local, key, email) then t
      else Requested(t, newId, key, email, now, match_, luck).0
    case Tick(_, batch, lucks) => SyncAll(t, t.local, batch, lucks)
  }

  function History(requests: set<(string, string)>, t: Tables, hs: seq<Happening>): Option<Tables>
    decreases hs
  {
    if hs == [] then Some(t)
    else if CanHappen(requests, t, hs[0]) then History(requests, Next(requests, t, hs[0]), hs[1..])
    else None
  }

  lemma HappeningKeepsConsistent(requests: set<(string, string)>, t: Tables, h: Happening)
    requires Consistent(t, requests) && CanHappen(requests, t, h)
    ensures Consistent(Next(requests, t, h), requests)
  {
    match h
    case Request(newId, key, email, now, match_, luck) =>
      if newId !in t.local || HasMatch(t.local, key, email) {
        SaveKeepsConsistent(t, requests, newId, key, email, now);
        var id := SavedId(t.local, newId, key, email, match_);
        SyncKeepsConsistent(t.(local := Saved(t.local, newId, key, email, now)), requests, id, key, email, luck);
      }
    case Tick(_, batch, lucks) => TickKeepsConsistent(t, requests, batch, lucks);
  }

  /** Every history of requests and ticks, whatever luck they have, leaves consistent tables. */
  lemma {:induction false} HistoryIsConsistent(requests: set<(string, string)>, t: Tables, hs: seq<Happening>)
    requires Consistent(t, requests) && History(requests, t, hs).Some?
    ensures Consistent(History(requests, t, hs).value, requests)
    decreases hs
  {
    hide Consistent, CanHappen, Next;
    if hs != [] {
      HappeningKeepsConsistent(requests, t, hs[0]);
      HistoryIsConsistent(requests, Next(requests, t, hs[0]), hs[1..]);
    }
  }

  lemma EmptyIsConsistent(requests: set<(string, string)>)
    ensures Consistent(EMPTY, requests)
  {
  }

  /** Every pending row turns synced as soon as its attempt gets through. */
  predicate AllSync(t: Tables) {
    forall id :: id in Pending(t.local) ==> id !in Pending(SyncOne(t, id, t.local[id], THROUGH).local)
  }

  /** On every history every pending row can be synced, if and only if no email is submitted under two keys. */
  lemma DrainsIffOneKeyPerEmail(requests: set<(string, string)>)
    ensures (forall hs :: History(requests, EMPTY, hs).Some? ==> AllSync(History(requests, EMPTY, hs).value))
            <==> OneKeyPerEmail(requests)
  {
    hide *;
    if OneKeyPerEmail(requests) {
      forall hs | History(requests, EMPTY, hs).Some?
        ensures AllSync(History(requests, EMPTY, hs).value)
      {
        EmptyIsConsistent(requests);
        HistoryIsConsistent(requests, EMPTY, hs);
        ConsistentSyncs(History(requests, EMPTY, hs).value, requests);
      }
    } else {
      var hs := StuckHistory(requests);
    }
  }

  /** A history that leaves a row no attempt can sync. */
  lemma StuckHistory(requests: set<(string, string)>) returns (hs: seq<Happening>)
    requires !OneKeyPerEmail(requests)
    ensures History(requests, EMPTY, hs).Some? && !AllSync(History(requests, EMPTY, hs).value)
  {
    hide History, SyncOne, TwoKeys;
    var p, q :| p in requests && q in requests && p.1 == q.1 && p.0 != q.0;
    hs := TwoKeysIsAHistory(requests, "1", p.0, q.0, p.1);
    EmailUnderTwoKeysNeverDrains("1", p.0, q.0, p.1);
    StuckRow(TwoKeys("1", p.0, q.0, p.1), "1");
  }

  lemma StuckRow(t: Tables, id: string)
    requires id in Pending(t.local) && id in Pending(SyncOne(t, id, t.local[id], THROUGH).local)
    ensures !AllSync(t)
  {
    hide SyncOne;
  }

  lemma ConsistentSyncs(t: Tables, requests: set<(string, string)>)
    requires Consistent(t, requests) && OneKeyPerEmail(requests)
    ensures AllSync(t)
  {
    forall id | id in Pending(t.local)
      ensures id !in Pending(SyncOne(t, id, t.local[id], THROUGH).local)
    {
      RowIsTried(t, requests, id, THROUGH);
    }
  }

  /** A run of worker ticks, each over what its query returns at that moment, in which every row gets through. */
  ghost predicate Ticks(t: Tables, limit: nat, batches: seq<seq<string>>, luck: string -> Luck, end: Tables)
    decreases batches
  {
    if batches == [] then t == end
    else
      && OldestPending(t.local, limit, batches[0]) && Through(batches[0], luck) == ToSet(batches[0])
      && Ticks(SyncAll(t, t.local, batches[0], luck), limit, batches[1..], luck, end)
  }

  /** What is left of a queue of `pending` rows after `ticks` ticks of `limit` rows. */
  function Left(pending: nat, ticks: nat, limit: nat): nat {
    if ticks == 0 then pending
    else Left(if limit <= pending then pending - limit else 0, ticks - 1, limit)
  }

  lemma {:induction false} LeftIs(pending: nat, ticks: nat, limit: nat)
    ensures Left(pending, ticks, limit) == if ticks * limit <= pending then pending - ticks * limit else 0
    decreases ticks
  {
    if ticks > 0 {
      assert ticks * limit == (ticks - 1) * limit + limit;
      LeftIs(if limit <= pending then pending - limit else 0, ticks - 1, limit);
      assert (ticks - 1) * limit >= 0;
    }
  }

  lemma {:induction false} TicksDrain(t: Tables, requests: set<(string, string)>, limit: nat, batches: seq<seq<string>>,
                                      luck: string -> Luck, end: Tables)
    requires Consistent(t, requests) && OneKeyPerEmail(requests)
    requires Ticks(t, limit, batches, luck, end)
    ensures |Pending(end.local)| == Left(|Pending(t.local)|, |batches|, limit)
    decreases batches
  {
    if batches != [] {
      TickShrinksQueue(t, requests, limit, batches[0], luck);
      TicksDrain(SyncAll(t, t.local, batches[0], luck), requests, limit, batches[1..], luck, end);
    }
  }

  /** After every history, n ticks in which every row gets through leave pending - n * limit rows, or none. */
  lemma QueueDrains(requests: set<(string, string)>, hs: seq<Happening>, limit: nat, batches: seq<seq<string>>,
                    luck: string -> Luck, end: Tables)
    requires OneKeyPerEmail(requests) && History(requests, EMPTY, hs).Some?
    requires Ticks(History(requests, EMPTY, hs).value, limit, batches, luck, end)
    ensures var pending := |Pending(History(requests, EMPTY, hs).value.local)|;
            |Pending(end.local)| == if |batches| * limit <= pending then pending - |batches| * limit else 0
  {
    EmptyIsConsistent(requests);
    HistoryIsConsistent(requests, EMPTY, hs);
    var t := History(requests, EMPTY, hs).value;
    TicksDrain(t, requests, limit, batches, luck, end);
    LeftIs(|Pending(t.local)|, |batches|, limit);
  }

  /** The query always has an answer. */
  lemma {:induction false} OldestPendingExists(local: Local, limit: nat) returns (batch: seq<string>)
    ensures OldestPending(local, limit, batch)
  {
    batch := [];
    var rest := Pending(local);
    while |batch| < limit && rest != {}
      invariant rest <= Pending(local) && |batch| <= limit
      invariant forall id :: id in Pending(local) <==> id in rest || id in batch
      invariant forall i :: 0 <= i < |batch| ==> batch[i] in Pending(local) && batch[i] !in rest
      invariant forall i, j :: 0 <= i < j < |batch| ==>
                  batch[i] != batch[j] && local[batch[i]].createdAt <= local[batch[j]].createdAt
      invariant forall i, id :: 0 <= i < |batch| && id in rest ==> local[batch[i]].createdAt <= local[id].createdAt
      invariant |Pending(local)| == |batch| + |rest|
      decreases |rest|
    {
      var next := Oldest(local, rest);
      batch := batch + [next];
      rest := rest - {next};
    }
  }

  lemma {:induction false} Oldest(local: Local, ids: set<string>) returns (id: string)
    requires ids != {} && ids <= local.Keys
    ensures id in ids && forall other :: other in ids ==> local[id].createdAt <= local[other].createdAt
    decreases |ids|
  {
    id :| id in ids;
    if ids != {id} {
      var rest := Oldest(local, ids - {id});
      if local[rest].createdAt < local[id].createdAt {
        id := rest;
      }
    }
  }

  // ---------------------------------------------------------------- an email under two keys

  const OFFLINE := Luck(Down, true)

  /** The same email under a second key, then the first key again once the cloud is back. */
  function TwoKeys(id: string, k1: string, k2: string, email: string): Tables {
    var t1 := Requested(EMPTY, id, k1, email, 0, "", OFFLINE).0;
    var t2 := Requested(t1, id + "'", k2, email, 1, id, THROUGH).0;
    Requested(t2, id + "''", k1, email, 2, id, THROUGH).0
  }

  /** The row was synced, is pending again, and no later attempt of the worker can change that. */
  lemma EmailUnderTwoKeysNeverDrains(id: string, k1: string, k2: string, email: string)
    requires k1 != k2
    ensures var t := TwoKeys(id, k1, k2, email);
            && t.cloud.rows == map[id := email] && Pending(t.local) == {id}
            && t.local[id].error == Some("duplicate_email")
            && forall luck :: id in Pending(SyncOne(t, id, t.local[id], luck).local)
  {
    var t1, t2 := TwoKeysSteps(id, k1, k2, email);
    assert t2.cloud.rows[id] in t2.cloud.rows.Values;
  }

  /** What is stored after the first and after the second request. */
  lemma TwoKeysSteps(id: string, k1: string, k2: string, email: string) returns (t1: Tables, t2: Tables)
    requires k1 != k2
    ensures t1 == Requested(EMPTY, id, k1, email, 0, "", OFFLINE).0
    ensures t1.local == map[id := LocalRow(k1, email, 0, false, Some(ErrorText(Unreachable)))]
    ensures t2 == Requested(t1, id + "'", k2, email, 1, id, THROUGH).0
    ensures t2 == Tables(map[id := LocalRow(k1, email, 0, true, None)], Cloud(map[id := email], map[k2 := id]))
    ensures Conflicts(t2.local, id + "''", k1, email)
  {
    assert !Conflicts(EMPTY.local, id, k1, email);
    t1 := Requested(EMPTY, id, k1, email, 0, "", OFFLINE).0;
    assert t1.local == map[id := LocalRow(k1, email, 0, false, Some(ErrorText(Unreachable)))];
    assert t1.local[id].email == email;
    assert Conflicts(t1.local, id + "'", k2, email);
    t2 := Requested(t1, id + "'", k2, email, 1, id, THROUGH).0;
    assert t2 == Tables(map[id := LocalRow(k1, email, 0, true, None)], Cloud(map[id := email], map[k2 := id]));
    assert t2.local[id].email == email;
  }

  lemma TwoKeysIsAHistory(requests: set<(string, string)>, id: string, k1: string, k2: string, email: string)
      returns (hs: seq<Happening>)
    requires k1 != k2 && (k1, email) in requests && (k2, email) in requests
    ensures hs == [Request(id, k1, email, 0, "", OFFLINE), Request(id + "'", k2, email, 1, id, THROUGH),
                   Request(id + "''", k1, email, 2, id, THROUGH)]
    ensures History(requests, EMPTY, hs) == Some(TwoKeys(id, k1, k2, email))
  {
    var t1, t2 := TwoKeysSteps(id, k1, k2, email);
    var h1, h2, h3 := Request(id, k1, email, 0, "", OFFLINE), Request(id + "'", k2, email, 1, id, THROUGH),
        Request(id + "''", k1, email, 2, id, THROUGH);
    assert NewestMatch(t1.local, k2, email, id) && NewestMatch(t2.local, k1, email, id);
    assert HasMatch(t1.local, k2, email) && HasMatch(t2.local, k1, email);
    assert Next(requests, EMPTY, h1) == t1 && Next(requests, t1, h2) == t2;
    var t3 := Next(requests, t2, h3);
    assert [h1, h2, h3][1..] == [h2, h3] && [h2, h3][1..] == [h3] && [h3][1..] == [];
    assert History(requests, t3, []) == Some(t3);
    assert History(requests, t2, [h3]) == Some(t3);
    assert History(requests, t1, [h2, h3]) == Some(t3);
    hs := [h1, h2, h3];
  }
}
