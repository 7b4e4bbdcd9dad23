/**
  Registrations running at the same time: every SQL statement of every request and worker item is its own
  step, and a process can stop between any two of them.

  PostgreSQL runs at its default isolation level.  A statement sees what is committed, and an insert that
  meets another transaction's uncommitted row with the same unique value waits until that one ends; a
  waiting statement is a step that is not enabled yet.
 */
module RegistrationRaces {
  import opened Common
  import opened Registration

  /** Where a request or worker item stands; Inserted and Bound hold an uncommitted transaction. */
  datatype Phase =
    | Stored
    | KeyFree
    | Inserted
    | Bound(keyInserted: bool)
    | Replied(cloudId: string)
    | Failed(error: SyncError)

  datatype Job = Job(id: string, key: string, email: string, phase: Phase)

  datatype State = State(local: Local, cloud: Cloud, jobs: map<nat, Job>)

  datatype Step =
    | Submit(j: nat, key: string, email: string, newId: string, now: int, match_: string)
    | Pick(j: nat, id: string)
    | ReadKey(j: nat)
    | InsertRow(j: nat)
    | InsertKey(j: nat)
    | Commit(j: nat, heard: bool)
    | Abort(j: nat)
    | Mark(j: nat, stored: bool)
    | Stop(j: nat)

  const Start := State(map[], Cloud(map[], map[]), map[])

  /** The transaction has inserted its row and has not ended. */
  predicate Open(s: State, j: nat) {
    j in s.jobs && (s.jobs[j].phase.Inserted? || s.jobs[j].phase.Bound?)
  }

  predicate InPhase(s: State, j: nat, p: Phase) {
    j in s.jobs && s.jobs[j].phase == p
  }

  /** `requests` are the (key, email) pairs clients submit. */
  predicate Enabled(requests: set<(string, string)>, s: State, e: Step) {
    match e
    case Submit(j, key, email, newId, now, match_) =>
      && j !in s.jobs && (key, email) in requests
      && (HasMatch(s.local, key, email) ==> NewestMatch(s.local, key, email, match_))
      && (!HasMatch(s.local, key, email) ==> newId !in s.local)
    case Pick(j, id) => j !in s.jobs && id in Pending(s.local)
    case ReadKey(j) => InPhase(s, j, Stored)
    case InsertRow(j) =>
      InPhase(s, j, KeyFree)
      && forall k :: k in s.jobs && Open(s, k) ==> s.jobs[k].id != s.jobs[j].id && s.jobs[k].email != s.jobs[j].email
    case InsertKey(j) =>
      InPhase(s, j, Inserted)
      && forall k :: k in s.jobs && s.jobs[k].phase == Bound(true) ==> s.jobs[k].key != s.jobs[j].key
    case Commit(j, heard) => j in s.jobs && s.jobs[j].phase.Bound?
    case Abort(j) => j in s.jobs && (s.jobs[j].phase.Stored? || s.jobs[j].phase.KeyFree? || Open(s, j))
    case Mark(j, stored) => j in s.jobs && (s.jobs[j].phase.Replied? || s.jobs[j].phase.Failed?)
    case Stop(j) => j in s.jobs
  }

  function At(s: State, j: nat, p: Phase): State
    requires j in s.jobs
  {
    s.(jobs := s.jobs[j := s.jobs[j].(phase := p)])
  }

  function Apply(requests: set<(string, string)>, s: State, e: Step): State
    requires Enabled(requests, s, e)
  {
    match e
    case Submit(j, key, email, newId, now, match_) =>
      var id := SavedId(s.local, newId, key, email, match_);
      State(Saved(s.local, newId, key, email, now), s.cloud, s.jobs[j := Job(id, key, email, Stored)])
    case Pick(j, id) =>
      s.(jobs := s.jobs[j := Job(id, s.local[id].key, s.local[id].email, Stored)])
    case ReadKey(j) =>
      var key := s.jobs[j].key;
      At(s, j, if key in s.cloud.keys then Replied(s.cloud.keys[key]) else KeyFree)
    case InsertRow(j) =>
      var job := s.jobs[j];
      At(s, j, if job.email in s.cloud.rows.Values then Failed(DuplicateEmail)
               else if job.id in s.cloud.rows then Failed(DuplicateId)
               else Inserted)
    case InsertKey(j) =>
      At(s, j, Bound(s.jobs[j].key !in s.cloud.keys))
    case Commit(j, heard) =>
      var job := s.jobs[j];
      var rows := s.cloud.rows[job.id := job.email];
      var keys := if job.phase.keyInserted then s.cloud.keys[job.key := job.id] else s.cloud.keys;
      At(s.(cloud := Cloud(rows, keys)), j, if heard then Replied(job.id) else Failed(Unreachable))
    case Abort(j) => At(s, j, Failed(Unreachable))
    case Mark(j, stored) =>
      var job := s.jobs[j];
      var r := if job.phase.Replied? then Ok(job.phase.cloudId) else Err(job.phase.error);
      State(if stored then Marked(s.local, job.id, r) else s.local, s.cloud, s.jobs - {j})
    case Stop(j) => s.(jobs := s.jobs - {j})
  }

  function Run(requests: set<(string, string)>, s: State, steps: seq<Step>): Option<State>
    decreases steps
  {
    if steps == [] then Some(s)
    else if Enabled(requests, s, steps[0]) then Run(requests, Apply(requests, s, steps[0]), steps[1..])
    else None
  }

  // ---------------------------------------------------------------- what holds for all clients

  predicate UniqueEmails(cloud: Cloud) {
    forall i, j :: i in cloud.rows && j in cloud.rows && cloud.rows[i] == cloud.rows[j] ==> i == j
  }

  predicate KeysNameRows(cloud: Cloud) {
    forall k :: k in cloud.keys ==> cloud.keys[k] in cloud.rows
  }

  predicate EmailFree(cloud: Cloud, email: string) {
    forall id :: id in cloud.rows ==> cloud.rows[id] != email
  }

  /** An open transaction's row and key meet nothing committed. */
  predicate JobFree(cloud: Cloud, job: Job) {
    && (job.phase.Inserted? || job.phase.Bound? ==> job.id !in cloud.rows && EmailFree(cloud, job.email))
    && (job.phase == Bound(true) ==> job.key !in cloud.keys)
  }

  /** Two open transactions share neither row id nor email nor key. */
  predicate Apart(a: Job, b: Job) {
    && ((a.phase.Inserted? || a.phase.Bound?) && (b.phase.Inserted? || b.phase.Bound?) ==>
          a.id != b.id && a.email != b.email)
    && (a.phase == Bound(true) == b.phase ==> a.key != b.key)
  }

  predicate JobsApart(jobs: map<nat, Job>) {
    forall j, k :: j in jobs && k in jobs && j != k ==> Apart(jobs[j], jobs[k])
  }

  predicate Sound(s: State) {
    && UniqueEmails(s.cloud) && KeysNameRows(s.cloud)
    && (forall j :: j in s.jobs ==> JobFree(s.cloud, s.jobs[j]))
    && JobsApart(s.jobs)
  }

  lemma FreeEmail(cloud: Cloud, email: string)
    ensures email !in cloud.rows.Values <==> EmailFree(cloud, email)
  {
    if email !in cloud.rows.Values {
      forall id | id in cloud.rows
        ensures cloud.rows[id] != email
      {
        assert cloud.rows[id] in cloud.rows.Values;
      }
    }
  }

  /** Replacing one job by one that is free and apart from the others. */
  lemma SoundJob(s: State, j: nat, job: Job)
    requires Sound(s) && JobFree(s.cloud, job)
    requires forall k :: k in s.jobs && k != j ==> Apart(job, s.jobs[k])
    ensures Sound(s.(jobs := s.jobs[j := job]))
  {
    var jobs := s.jobs[j := job];
    forall a, b | a in jobs && b in jobs && a != b
      ensures Apart(jobs[a], jobs[b])
    {
      assert a != j && b != j ==> Apart(s.jobs[a], s.jobs[b]);
      assert a == j ==> Apart(job, s.jobs[b]);
      assert b == j ==> Apart(job, s.jobs[a]);
    }
  }

  lemma SoundIdle(s: State, j: nat, job: Job)
    requires Sound(s) && !job.phase.Inserted? && !job.phase.Bound?
    ensures Sound(s.(jobs := s.jobs[j := job]))
  {
    SoundJob(s, j, job);
  }

  lemma SoundWithout(s: State, j: nat)
    requires Sound(s)
    ensures Sound(s.(jobs := s.jobs - {j}))
  {
  }

  lemma SoundInsertRow(requests: set<(string, string)>, s: State, j: nat)
    requires Sound(s) && Enabled(requests, s, InsertRow(j))
    ensures Sound(Apply(requests, s, InsertRow(j)))
  {
    var job := s.jobs[j];
    FreeEmail(s.cloud, job.email);
    if job.email !in s.cloud.rows.Values && job.id !in s.cloud.rows {
      forall k | k in s.jobs && k != j
        ensures Apart(job.(phase := Inserted), s.jobs[k])
      {
        assert Open(s, k) ==> s.jobs[k].id != job.id && s.jobs[k].email != job.email;
      }
      SoundJob(s, j, job.(phase := Inserted));
    } else {
      SoundIdle(s, j, Apply(requests, s, InsertRow(j)).jobs[j]);
    }
  }

  lemma SoundInsertKey(requests: set<(string, string)>, s: State, j: nat)
    requires Sound(s) && Enabled(requests, s, InsertKey(j))
    ensures Sound(Apply(requests, s, InsertKey(j)))
  {
    var job, job' := s.jobs[j], Apply(requests, s, InsertKey(j)).jobs[j];
    forall k | k in s.jobs && k != j
      ensures Apart(job', s.jobs[k])
    {
      assert Apart(job, s.jobs[k]);
      assert s.jobs[k].phase == Bound(true) ==> s.jobs[k].key != job.key;
    }
    SoundJob(s, j, job');
  }

  lemma SoundCommit(requests: set<(string, string)>, s: State, j: nat, heard: bool)
    requires Sound(s) && Enabled(requests, s, Commit(j, heard))
    ensures Sound(Apply(requests, s, Commit(j, heard)))
  {
    var job := s.jobs[j];
    var s' := Apply(requests, s, Commit(j, heard));
    assert JobFree(s.cloud, job);
    forall a, b | a in s'.cloud.rows && b in s'.cloud.rows && s'.cloud.rows[a] == s'.cloud.rows[b]
      ensures a == b
    {
    }
    forall k | k in s'.jobs
      ensures JobFree(s'.cloud, s'.jobs[k])
    {
      if k != j {
        assert Apart(job, s.jobs[k]) && JobFree(s.cloud, s.jobs[k]);
      }
    }
    forall a, b | a in s'.jobs && b in s'.jobs && a != b
      ensures Apart(s'.jobs[a], s'.jobs[b])
    {
      assert Apart(s.jobs[a], s.jobs[b]);
    }
  }

  lemma SoundStep(requests: set<(string, string)>, s: State, e: Step)
    requires Sound(s) && Enabled(requests, s, e)
    ensures Sound(Apply(requests, s, e))
  {
    var s' := Apply(requests, s, e);
    match e
    case Submit(j, _, _, _, _, _) => SoundIdle(s, j, s'.jobs[j]);
    case Pick(j, _) => SoundIdle(s, j, s'.jobs[j]);
    case ReadKey(j) => SoundIdle(s, j, s'.jobs[j]);
    case InsertRow(j) => SoundInsertRow(requests, s, j);
    case InsertKey(j) => SoundInsertKey(requests, s, j);
    case Commit(j, heard) => SoundCommit(requests, s, j, heard);
    case Abort(j) => SoundIdle(s, j, s'.jobs[j]);
    case Mark(j, _) => SoundWithout(s, j);
    case Stop(j) => SoundWithout(s, j);
  }

  predicate Extends(cloud: Cloud, cloud': Cloud) {
    && (forall k :: k in cloud.keys ==> k in cloud'.keys && cloud'.keys[k] == cloud.keys[k])
    && (forall id :: id in cloud.rows ==> id in cloud'.rows && cloud'.rows[id] == cloud.rows[id])
  }

  /** No step takes a committed row or a committed key away or changes it. */
  lemma CloudOnlyGrows(requests: set<(string, string)>, s: State, e: Step)
    requires Sound(s) && Enabled(requests, s, e)
    ensures Extends(s.cloud, Apply(requests, s, e).cloud)
  {
    if e.Commit? {
      assert JobFree(s.cloud, s.jobs[e.j]);
    }
  }

  lemma {:induction false} SoundRun(requests: set<(string, string)>, s: State, steps: seq<Step>)
    requires Sound(s) && Run(requests, s, steps).Some?
    ensures var s' := Run(requests, s, steps).value; Sound(s') && Extends(s.cloud, s'.cloud)
    decreases steps
  {
    if steps != [] {
      SoundStep(requests, s, steps[0]);
      CloudOnlyGrows(requests, s, steps[0]);
      SoundRun(requests, Apply(requests, s, steps[0]), steps[1..]);
    }
  }

  lemma StartIsSound()
    ensures Sound(Start)
  {
  }

  /**
    At every point of every run, whatever the clients send: cloud emails are unique, every key names a stored row, and
    from that point on a key that is bound stays bound to the same id for ever.
   */
  lemma BindingsAreForEver(requests: set<(string, string)>, before: seq<Step>, after: seq<Step>)
    requires Run(requests, Start, before).Some? && Run(requests, Start, before + after).Some?
    ensures var s, s' := Run(requests, Start, before).value, Run(requests, Start, before + after).value;
            UniqueEmails(s.cloud) && KeysNameRows(s.cloud) && Extends(s.cloud, s'.cloud)
  {
    StartIsSound();
    SoundRun(requests, Start, before);
    RunConcat(requests, Start, before, after);
    SoundRun(requests, Run(requests, Start, before).value, after);
  }

  // ---------------------------------------------------------------- what needs keys used for one email

  /** No key is submitted with two different emails. */
  predicate OneEmailPerKey(requests: set<(string, string)>) {
    forall p, q :: p in requests && q in requests && p.0 == q.0 ==> p.1 == q.1
  }

  /** A local row marked synced is in the cloud under its own id with its own email. */
  predicate SyncedIsStored(s: State) {
    forall id :: id in s.local && s.local[id].synced ==>
      id in s.cloud.rows && s.cloud.rows[id] == s.local[id].email
  }

  /** Every answer a caller gets for a key is the id the cloud has bound to that key. */
  predicate RepliesAreBindings(s: State) {
    forall j :: j in s.jobs && s.jobs[j].phase.Replied? ==>
      s.jobs[j].key in s.cloud.keys && s.cloud.keys[s.jobs[j].key] == s.jobs[j].phase.cloudId
  }

  predicate LocalUnique(local: Local) {
    forall i, j :: i in local && j in local && local[i].email == local[j].email ==> i == j
  }

  predicate RowAgrees(requests: set<(string, string)>, cloud: Cloud, id: string, row: LocalRow) {
    && (row.key, row.email) in requests
    && (row.synced ==> id in cloud.rows && cloud.rows[id] == row.email)
  }

  /** The job's email is its local row's, and its answer is its own row, bound to its key. */
  predicate JobAgrees(requests: set<(string, string)>, local: Local, cloud: Cloud, job: Job) {
    && (job.key, job.email) in requests
    && job.id in local && local[job.id].email == job.email
    && job.phase != Bound(false)
    && (job.phase.Replied? ==>
          job.phase.cloudId == job.id && job.key in cloud.keys && cloud.keys[job.key] == job.id
          && job.id in cloud.rows && cloud.rows[job.id] == job.email)
  }

  predicate CloudAgrees(requests: set<(string, string)>, local: Local, cloud: Cloud) {
    && (forall id :: id in cloud.rows ==> id in local && local[id].email == cloud.rows[id])
    && (forall k :: k in cloud.keys ==> cloud.keys[k] in cloud.rows && (k, cloud.rows[cloud.keys[k]]) in requests)
  }

  predicate Exact(requests: set<(string, string)>, s: State) {
    && Sound(s) && LocalUnique(s.local) && CloudAgrees(requests, s.local, s.cloud)
    && (forall id :: id in s.local ==> RowAgrees(requests, s.cloud, id, s.local[id]))
    && (forall j :: j in s.jobs ==> JobAgrees(requests, s.local, s.cloud, s.jobs[j]))
  }

  lemma ExactMeans(requests: set<(string, string)>, s: State)
    requires Exact(requests, s)
    ensures SyncedIsStored(s) && RepliesAreBindings(s)
  {
    forall id | id in s.local && s.local[id].synced
      ensures id in s.cloud.rows && s.cloud.rows[id] == s.local[id].email
    {
      assert RowAgrees(requests, s.cloud, id, s.local[id]);
    }
    forall j | j in s.jobs && s.jobs[j].phase.Replied?
      ensures s.jobs[j].key in s.cloud.keys && s.cloud.keys[s.jobs[j].key] == s.jobs[j].phase.cloudId
    {
      assert JobAgrees(requests, s.local, s.cloud, s.jobs[j]);
    }
  }

  /** A key that is bound is bound to the row of the job that carries it. */
  lemma BoundKeyNamesOwnRow(requests: set<(string, string)>, s: State, job: Job)
    requires OneEmailPerKey(requests) && Exact(requests, s) && JobAgrees(requests, s.local, s.cloud, job)
    requires job.key in s.cloud.keys
    ensures s.cloud.keys[job.key] == job.id && job.id in s.cloud.rows && s.cloud.rows[job.id] == job.email
  {
    var z := s.cloud.keys[job.key];
    assert (job.key, s.cloud.rows[z]) in requests && (job.key, job.email) in requests;
    assert s.local[z].email == s.local[job.id].email;
  }

  /** Steps that change one job and nothing else. */
  lemma ExactJob(requests: set<(string, string)>, s: State, j: nat, job: Job)
    requires Exact(requests, s) && Sound(s.(jobs := s.jobs[j := job]))
    requires JobAgrees(requests, s.local, s.cloud, job)
    ensures Exact(requests, s.(jobs := s.jobs[j := job]))
  {
  }

  /** Storing a submission: whatever row was in the way carries the submitted email. */
  lemma ExactSubmit(requests: set<(string, string)>, s: State, j: nat, key: string, email: string, newId: string,
                    now: int, match_: string)
    requires OneEmailPerKey(requests) && Exact(requests, s)
    requires Enabled(requests, s, Submit(j, key, email, newId, now, match_))
    ensures Exact(requests, Apply(requests, s, Submit(j, key, email, newId, now, match_)))
  {
    if HasMatch(s.local, key, email) {
      assert Conflicts(s.local, newId, key, email);
      assert RowAgrees(requests, s.cloud, match_, s.local[match_]);
      assert s.local[match_].email == email;
      SoundIdle(s, j, Job(match_, key, email, Stored));
      ExactJob(requests, s, j, Job(match_, key, email, Stored));
    } else {
      ExactStore(requests, s, newId, LocalRow(key, email, now, false, None));
      var s1 := s.(local := s.local[newId := LocalRow(key, email, now, false, None)]);
      SoundIdle(s1, j, Job(newId, key, email, Stored));
      ExactJob(requests, s1, j, Job(newId, key, email, Stored));
    }
  }

  lemma ExactStore(requests: set<(string, string)>, s: State, id: string, row: LocalRow)
    requires Exact(requests, s) && id !in s.local && !HasMatch(s.local, row.key, row.email)
    requires (row.key, row.email) in requests && !row.synced
    ensures Exact(requests, s.(local := s.local[id := row]))
  {
    var local := s.local[id := row];
    forall j | j in s.jobs
      ensures JobAgrees(requests, local, s.cloud, s.jobs[j])
    {
      assert JobAgrees(requests, s.local, s.cloud, s.jobs[j]);
    }
    forall x | x in local
      ensures RowAgrees(requests, s.cloud, x, local[x])
    {
      assert x != id ==> RowAgrees(requests, s.cloud, x, s.local[x]);
    }
  }

  function Committed(cloud: Cloud, job: Job): Cloud {
    Cloud(cloud.rows[job.id := job.email], cloud.keys[job.key := job.id])
  }

  lemma CommitCloudAgrees(requests: set<(string, string)>, s: State, job: Job)
    requires CloudAgrees(requests, s.local, s.cloud) && JobAgrees(requests, s.local, s.cloud, job)
    requires JobFree(s.cloud, job) && job.phase == Bound(true)
    ensures CloudAgrees(requests, s.local, Committed(s.cloud, job))
  {
    hide EmailFree;
  }

  lemma CommitRowAgrees(requests: set<(string, string)>, s: State, job: Job, id: string, row: LocalRow)
    requires RowAgrees(requests, s.cloud, id, row) && job.id !in s.cloud.rows
    ensures RowAgrees(requests, Committed(s.cloud, job), id, row)
  {
  }

  lemma CommitJobAgrees(requests: set<(string, string)>, s: State, job: Job, other: Job)
    requires JobAgrees(requests, s.local, s.cloud, other) && job.id !in s.cloud.rows && job.key !in s.cloud.keys
    ensures JobAgrees(requests, s.local, Committed(s.cloud, job), other)
  {
  }

  /** The committing job afterwards, whether its process heard of the commit or not. */
  lemma CommitterAgrees(requests: set<(string, string)>, s: State, job: Job, heard: bool)
    requires JobAgrees(requests, s.local, s.cloud, job) && job.phase == Bound(true)
    ensures JobAgrees(requests, s.local, Committed(s.cloud, job),
            job.(phase := if heard then Replied(job.id) else Failed(Unreachable)))
  {
  }

  lemma CommitFacts(requests: set<(string, string)>, s: State, j: nat, heard: bool)
    requires Exact(requests, s) && Enabled(requests, s, Commit(j, heard))
    ensures var job, s' := s.jobs[j], Apply(requests, s, Commit(j, heard));
            && JobAgrees(requests, s.local, s.cloud, job) && JobFree(s.cloud, job)
            && CloudAgrees(requests, s.local, s.cloud)
            && job.phase == Bound(true) && job.id !in s.cloud.rows && job.key !in s.cloud.keys
            && s'.local == s.local && s'.cloud == Committed(s.cloud, job)
            && s'.jobs == s.jobs[j := job.(phase := if heard then Replied(job.id) else Failed(Unreachable))]
  {
    hide CloudAgrees, EmailFree;
    assert JobAgrees(requests, s.local, s.cloud, s.jobs[j]) && JobFree(s.cloud, s.jobs[j]);
  }

  lemma ExactCommit(requests: set<(string, string)>, s: State, j: nat, heard: bool)
    requires OneEmailPerKey(requests) && Exact(requests, s) && Enabled(requests, s, Commit(j, heard))
    ensures Exact(requests, Apply(requests, s, Commit(j, heard)))
  {
    SoundCommit(requests, s, j, heard);
    CommitFacts(requests, s, j, heard);
    hide Sound, OneEmailPerKey, CloudAgrees, JobAgrees, RowAgrees, JobFree, Committed, Apply, Enabled;
    var job, s' := s.jobs[j], Apply(requests, s, Commit(j, heard));
    CommitCloudAgrees(requests, s, job);
    CommitterAgrees(requests, s, job, heard);
    forall x | x in s'.local
      ensures RowAgrees(requests, s'.cloud, x, s'.local[x])
    {
      CommitRowAgrees(requests, s, job, x, s.local[x]);
    }
    forall k | k in s'.jobs
      ensures JobAgrees(requests, s'.local, s'.cloud, s'.jobs[k])
    {
      if k != j {
        CommitJobAgrees(requests, s, job, s.jobs[k]);
      }
    }
  }

  lemma ExactMark(requests: set<(string, string)>, s: State, j: nat, stored: bool)
    requires Exact(requests, s) && Enabled(requests, s, Mark(j, stored))
    ensures Exact(requests, Apply(requests, s, Mark(j, stored)))
  {
    SoundWithout(s, j);
    var job, s' := s.jobs[j], Apply(requests, s, Mark(j, stored));
    assert JobAgrees(requests, s.local, s.cloud, job);
    forall x | x in s'.local
      ensures RowAgrees(requests, s'.cloud, x, s'.local[x])
    {
      assert RowAgrees(requests, s.cloud, x, s.local[x]);
    }
    forall k | k in s'.jobs
      ensures JobAgrees(requests, s'.local, s'.cloud, s'.jobs[k])
    {
      assert JobAgrees(requests, s.local, s.cloud, s.jobs[k]);
    }
  }

  lemma ExactStep(requests: set<(string, string)>, s: State, e: Step)
    requires OneEmailPerKey(requests) && Exact(requests, s) && Enabled(requests, s, e)
    ensures Exact(requests, Apply(requests, s, e))
  {
    SoundStep(requests, s, e);
    var s' := Apply(requests, s, e);
    match e
    case Submit(j, key, email, newId, now, match_) => ExactSubmit(requests, s, j, key, email, newId, now, match_);
    case Pick(j, id) =>
      assert RowAgrees(requests, s.cloud, id, s.local[id]);
      ExactJob(requests, s, j, s'.jobs[j]);
    case ReadKey(j) =>
      assert JobAgrees(requests, s.local, s.cloud, s.jobs[j]);
      if s.jobs[j].key in s.cloud.keys {
        BoundKeyNamesOwnRow(requests, s, s.jobs[j]);
      }
      ExactJob(requests, s, j, s'.jobs[j]);
    case InsertRow(j) =>
      assert JobAgrees(requests, s.local, s.cloud, s.jobs[j]);
      ExactJob(requests, s, j, s'.jobs[j]);
    case InsertKey(j) =>
      assert JobAgrees(requests, s.local, s.cloud, s.jobs[j]) && JobFree(s.cloud, s.jobs[j]);
      if s.jobs[j].key in s.cloud.keys {
        BoundKeyNamesOwnRow(requests, s, s.jobs[j]);
      }
      ExactJob(requests, s, j, s'.jobs[j]);
    case Commit(j, heard) => ExactCommit(requests, s, j, heard);
    case Abort(j) =>
      assert JobAgrees(requests, s.local, s.cloud, s.jobs[j]);
      ExactJob(requests, s, j, s'.jobs[j]);
    case Mark(j, stored) => ExactMark(requests, s, j, stored);
    case Stop(j) =>
  }

  lemma {:induction false} ExactRun(requests: set<(string, string)>, s: State, steps: seq<Step>)
    requires OneEmailPerKey(requests) && Exact(requests, s) && Run(requests, s, steps).Some?
    ensures Exact(requests, Run(requests, s, steps).value)
    decreases steps
  {
    if steps != [] {
      ExactStep(requests, s, steps[0]);
      ExactRun(requests, Apply(requests, s, steps[0]), steps[1..]);
    }
  }

  // ---------------------------------------------------------------- when every answer is the bound id

  /**
    Two keys and two emails linked by three pairs: one key comes under both emails, and one of these under another key
    as well.
   */
  predicate Crossed(requests: set<(string, string)>) {
    exists p, q, r :: p in requests && q in requests && r in requests && Cross(p, q, r)
  }

  predicate Cross(p: (string, string), q: (string, string), r: (string, string)) {
    p.0 == q.0 && q.1 == r.1 && p.1 != q.1 && q.0 != r.0
  }

  /** Two submissions share their key or their email. */
  predicate Linked(p: (string, string), q: (string, string)) {
    p.0 == q.0 || p.1 == q.1
  }

  lemma LinkedTransitive(requests: set<(string, string)>, p: (string, string), q: (string, string), r: (string, string))
    requires !Crossed(requests) && p in requests && q in requests && r in requests
    requires Linked(p, q) && Linked(q, r)
    ensures Linked(p, r)
  {
    assert !Cross(p, q, r) && !Cross(r, q, p);
  }

  function PairOf(row: LocalRow): (string, string) {
    (row.key, row.email)
  }

  /** No two local rows are linked. */
  predicate RowsApart(local: Local) {
    forall i, j :: i in local && j in local && Linked(PairOf(local[i]), PairOf(local[j])) ==> i == j
  }

  predicate RowsSubmitted(requests: set<(string, string)>, local: Local) {
    forall id :: id in local ==> PairOf(local[id]) in requests
  }

  /** The job goes on with the one local row it is linked to, and was told what its key is bound to. */
  predicate JobGrouped(requests: set<(string, string)>, local: Local, cloud: Cloud, job: Job) {
    && (job.key, job.email) in requests
    && job.id in local && Linked((job.key, job.email), PairOf(local[job.id]))
    && job.phase != Bound(false)
    && (job.phase.Replied? ==> job.key in cloud.keys && cloud.keys[job.key] == job.phase.cloudId)
  }

  /** Every bound key was submitted with the email of the local row it is bound to. */
  predicate KeysGrouped(requests: set<(string, string)>, local: Local, cloud: Cloud) {
    forall k :: k in cloud.keys ==> cloud.keys[k] in local && (k, local[cloud.keys[k]].email) in requests
  }

  predicate Grouped(requests: set<(string, string)>, s: State) {
    && Sound(s) && RowsApart(s.local) && RowsSubmitted(requests, s.local) && KeysGrouped(requests, s.local, s.cloud)
    && forall j :: j in s.jobs ==> JobGrouped(requests, s.local, s.cloud, s.jobs[j])
  }

  /** A job that has inserted its row does not find its key bound. */
  lemma InsertedKeyIsFree(requests: set<(string, string)>, s: State, j: nat)
    requires !Crossed(requests) && Grouped(requests, s) && InPhase(s, j, Inserted)
    ensures s.jobs[j].key !in s.cloud.keys
  {
    var job := s.jobs[j];
    assert JobFree(s.cloud, job) && JobGrouped(requests, s.local, s.cloud, job);
    if job.key in s.cloud.keys {
      var z := s.cloud.keys[job.key];
      var mine, own, bound := (job.key, job.email), PairOf(s.local[job.id]), (job.key, s.local[z].email);
      assert PairOf(s.local[z]) in requests && own in requests;
      LinkedTransitive(requests, PairOf(s.local[z]), bound, mine);
      LinkedTransitive(requests, PairOf(s.local[z]), mine, own);
    }
  }

  lemma GroupedJob(requests: set<(string, string)>, s: State, j: nat, job: Job)
    requires Grouped(requests, s) && Sound(s.(jobs := s.jobs[j := job]))
    requires JobGrouped(requests, s.local, s.cloud, job)
    ensures Grouped(requests, s.(jobs := s.jobs[j := job]))
  {
    hide Sound, RowsApart, RowsSubmitted, KeysGrouped, JobGrouped;
  }

  lemma GroupedStore(requests: set<(string, string)>, s: State, id: string, row: LocalRow)
    requires Grouped(requests, s) && id !in s.local && !HasMatch(s.local, row.key, row.email) && PairOf(row) in requests
    ensures Grouped(requests, s.(local := s.local[id := row]))
  {
    var local := s.local[id := row];
    assert RowsApart(local);
    forall j | j in s.jobs
      ensures JobGrouped(requests, local, s.cloud, s.jobs[j])
    {
      assert JobGrouped(requests, s.local, s.cloud, s.jobs[j]);
    }
  }

  lemma GroupedSubmit(requests: set<(string, string)>, s: State, j: nat, key: string, email: string, newId: string,
                      now: int, match_: string)
    requires Grouped(requests, s) && Enabled(requests, s, Submit(j, key, email, newId, now, match_))
    ensures Grouped(requests, Apply(requests, s, Submit(j, key, email, newId, now, match_)))
  {
    if HasMatch(s.local, key, email) {
      assert Conflicts(s.local, newId, key, email);
      SoundIdle(s, j, Job(match_, key, email, Stored));
      GroupedJob(requests, s, j, Job(match_, key, email, Stored));
    } else {
      var row := LocalRow(key, email, now, false, None);
      GroupedStore(requests, s, newId, row);
      var s1 := s.(local := s.local[newId := row]);
      SoundIdle(s1, j, Job(newId, key, email, Stored));
      GroupedJob(requests, s1, j, Job(newId, key, email, Stored));
    }
  }

  lemma BindingKeepsJob(requests: set<(string, string)>, local: Local, cloud: Cloud, cloud': Cloud, key: string,
                        id: string, job: Job)
    requires JobGrouped(requests, local, cloud, job) && key !in cloud.keys && cloud'.keys == cloud.keys[key := id]
    ensures JobGrouped(requests, local, cloud', job)
  {
  }

  lemma BindingKeepsKeys(requests: set<(string, string)>, local: Local, cloud: Cloud, cloud': Cloud, job: Job)
    requires KeysGrouped(requests, local, cloud) && JobGrouped(requests, local, cloud, job)
    requires RowsSubmitted(requests, local) && cloud'.keys == cloud.keys[job.key := job.id]
    ensures KeysGrouped(requests, local, cloud')
  {
    assert PairOf(local[job.id]) in requests;
  }

  lemma CommitterIsGrouped(requests: set<(string, string)>, local: Local, cloud: Cloud, cloud': Cloud, job: Job,
                           heard: bool)
    requires JobGrouped(requests, local, cloud, job) && cloud'.keys == cloud.keys[job.key := job.id]
    ensures JobGrouped(requests, local, cloud', job.(phase := if heard then Replied(job.id) else Failed(Unreachable)))
  {
  }

  lemma CommitIs(requests: set<(string, string)>, s: State, j: nat, heard: bool)
    requires Grouped(requests, s) && Enabled(requests, s, Commit(j, heard))
    ensures var job, s' := s.jobs[j], Apply(requests, s, Commit(j, heard));
            && JobGrouped(requests, s.local, s.cloud, job) && job.key !in s.cloud.keys
            && s'.local == s.local && s'.cloud.keys == s.cloud.keys[job.key := job.id]
            && s'.jobs == s.jobs[j := job.(phase := if heard then Replied(job.id) else Failed(Unreachable))]
  {
    hide RowsApart, RowsSubmitted, KeysGrouped, Linked, EmailFree;
    assert JobGrouped(requests, s.local, s.cloud, s.jobs[j]) && JobFree(s.cloud, s.jobs[j]);
  }

  lemma GroupedCommit(requests: set<(string, string)>, s: State, j: nat, heard: bool)
    requires Grouped(requests, s) && Enabled(requests, s, Commit(j, heard))
    ensures Grouped(requests, Apply(requests, s, Commit(j, heard)))
  {
    SoundCommit(requests, s, j, heard);
    CommitIs(requests, s, j, heard);
    hide Sound, RowsApart, RowsSubmitted, KeysGrouped, JobGrouped, Apply, Enabled;
    var job, s' := s.jobs[j], Apply(requests, s, Commit(j, heard));
    BindingKeepsKeys(requests, s.local, s.cloud, s'.cloud, job);
    CommitterIsGrouped(requests, s.local, s.cloud, s'.cloud, job, heard);
    forall k | k in s'.jobs
      ensures JobGrouped(requests, s'.local, s'.cloud, s'.jobs[k])
    {
      if k != j {
        BindingKeepsJob(requests, s.local, s.cloud, s'.cloud, job.key, job.id, s.jobs[k]);
      }
    }
  }

  /** The same rows up to their sync state. */
  predicate SameRows(a: Local, b: Local) {
    a.Keys == b.Keys && forall id :: id in a ==> PairOf(b[id]) == PairOf(a[id])
  }

  lemma SameRowsKeepJob(requests: set<(string, string)>, a: Local, b: Local, cloud: Cloud, job: Job)
    requires JobGrouped(requests, a, cloud, job) && SameRows(a, b)
    ensures JobGrouped(requests, b, cloud, job)
  {
  }

  lemma SameRowsKeepRows(requests: set<(string, string)>, a: Local, b: Local, cloud: Cloud)
    requires RowsApart(a) && RowsSubmitted(requests, a) && KeysGrouped(requests, a, cloud) && SameRows(a, b)
    ensures RowsApart(b) && RowsSubmitted(requests, b) && KeysGrouped(requests, b, cloud)
  {
  }

  lemma MarkKeepsRows(requests: set<(string, string)>, s: State, j: nat, stored: bool)
    requires Enabled(requests, s, Mark(j, stored))
    ensures SameRows(s.local, Apply(requests, s, Mark(j, stored)).local)
  {
  }

  lemma GroupedMark(requests: set<(string, string)>, s: State, j: nat, stored: bool)
    requires Grouped(requests, s) && Enabled(requests, s, Mark(j, stored))
    ensures Grouped(requests, Apply(requests, s, Mark(j, stored)))
  {
    SoundStep(requests, s, Mark(j, stored));
    MarkKeepsRows(requests, s, j, stored);
    var s' := Apply(requests, s, Mark(j, stored));
    assert s'.cloud == s.cloud && s'.jobs == s.jobs - {j};
    hide Sound, RowsApart, RowsSubmitted, KeysGrouped, JobGrouped, Apply, Enabled, SameRows;
    SameRowsKeepRows(requests, s.local, s'.local, s.cloud);
    forall k | k in s'.jobs
      ensures JobGrouped(requests, s'.local, s'.cloud, s'.jobs[k])
    {
      SameRowsKeepJob(requests, s.local, s'.local, s.cloud, s.jobs[k]);
    }
  }

  lemma GroupedStep(requests: set<(string, string)>, s: State, e: Step)
    requires !Crossed(requests) && Grouped(requests, s) && Enabled(requests, s, e)
    ensures Grouped(requests, Apply(requests, s, e))
  {
    SoundStep(requests, s, e);
    var s' := Apply(requests, s, e);
    hide Sound;
    match e
    case Submit(j, key, email, newId, now, match_) => GroupedSubmit(requests, s, j, key, email, newId, now, match_);
    case Pick(j, id) => GroupedJob(requests, s, j, s'.jobs[j]);
    case ReadKey(j) => GroupedJob(requests, s, j, s'.jobs[j]);
    case InsertRow(j) => GroupedJob(requests, s, j, s'.jobs[j]);
    case InsertKey(j) =>
      InsertedKeyIsFree(requests, s, j);
      GroupedJob(requests, s, j, s'.jobs[j]);
    case Commit(j, heard) => GroupedCommit(requests, s, j, heard);
    case Abort(j) => GroupedJob(requests, s, j, s'.jobs[j]);
    case Mark(j, stored) => GroupedMark(requests, s, j, stored);
    case Stop(j) =>
  }

  lemma {:induction false} GroupedRun(requests: set<(string, string)>, s: State, steps: seq<Step>)
    requires !Crossed(requests) && Grouped(requests, s) && Run(requests, s, steps).Some?
    ensures Grouped(requests, Run(requests, s, steps).value)
    decreases steps
  {
    hide Crossed, Grouped, Enabled, Apply;
    if steps != [] {
      GroupedStep(requests, s, steps[0]);
      GroupedRun(requests, Apply(requests, s, steps[0]), steps[1..]);
    }
  }

  lemma StartIsGrouped(requests: set<(string, string)>)
    ensures Grouped(requests, Start)
  {
  }

  lemma GroupedReplies(requests: set<(string, string)>, s: State)
    requires Grouped(requests, s)
    ensures RepliesAreBindings(s)
  {
    forall j | j in s.jobs && s.jobs[j].phase.Replied?
      ensures s.jobs[j].key in s.cloud.keys && s.cloud.keys[s.jobs[j].key] == s.jobs[j].phase.cloudId
    {
      assert JobGrouped(requests, s.local, s.cloud, s.jobs[j]);
    }
  }

  // ---------------------------------------------------------------- what a reused key breaks

  lemma RunCons(requests: set<(string, string)>, s: State, e: Step, rest: seq<Step>)
    requires Enabled(requests, s, e)
    ensures Run(requests, s, [e] + rest) == Run(requests, Apply(requests, s, e), rest)
  {
    assert ([e] + rest)[0] == e && ([e] + rest)[1..] == rest;
  }

  /** The steps of one job from its first statement to its answer, with nobody in between. */
  function Undisturbed(j: nat): seq<Step> {
    [ReadKey(j)] + ([InsertRow(j)] + ([InsertKey(j)] + ([Commit(j, true)] + [])))
  }

  /** Alone, and with nothing in its way, the transaction is the atomic step CloudSync. */
  lemma UndisturbedIsCloudSync(requests: set<(string, string)>, s: State, j: nat)
    requires Sound(s) && InPhase(s, j, Stored) && (forall k :: k in s.jobs ==> !Open(s, k))
    requires var job := s.jobs[j]; CloudSync(s.cloud, job.id, job.key, job.email).1.Ok? && job.key !in s.cloud.keys
    ensures var job := s.jobs[j];
            var (cloud, r) := CloudSync(s.cloud, job.id, job.key, job.email);
            Run(requests, s, Undisturbed(j)) == Some(At(s.(cloud := cloud), j, Replied(r.value)))
  {
    var s1, s2, s3 := At(s, j, KeyFree), At(At(s, j, KeyFree), j, Inserted),
        At(At(At(s, j, KeyFree), j, Inserted), j, Bound(true));
    assert Enabled(requests, s, ReadKey(j)) && Apply(requests, s, ReadKey(j)) == s1;
    RunCons(requests, s, ReadKey(j), [InsertRow(j)] + ([InsertKey(j)] + ([Commit(j, true)] + [])));
    assert Enabled(requests, s1, InsertRow(j)) && Apply(requests, s1, InsertRow(j)) == s2;
    RunCons(requests, s1, InsertRow(j), [InsertKey(j)] + ([Commit(j, true)] + []));
    assert Enabled(requests, s2, InsertKey(j)) && Apply(requests, s2, InsertKey(j)) == s3;
    RunCons(requests, s2, InsertKey(j), [Commit(j, true)] + []);
    RunCons(requests, s3, Commit(j, true), []);
    assert Apply(requests, s3, Commit(j, true)).jobs == s.jobs[j := s.jobs[j].(phase := Replied(s.jobs[j].id))];
  }

  /** A key that is bound is answered by the first statement, as by the atomic step. */
  lemma BoundKeyIsAnswered(requests: set<(string, string)>, s: State, j: nat)
    requires InPhase(s, j, Stored) && s.jobs[j].key in s.cloud.keys
    ensures var job := s.jobs[j];
            var (cloud, r) := CloudSync(s.cloud, job.id, job.key, job.email);
            && cloud == s.cloud && r == Ok(s.cloud.keys[job.key])
            && Run(requests, s, [ReadKey(j)]) == Some(At(s, j, Replied(s.cloud.keys[job.key])))
  {
    assert [ReadKey(j)] + [] == [ReadKey(j)];
    RunCons(requests, s, ReadKey(j), []);
  }

  /** A first submission that never reaches the cloud, then the same key with another email. */
  function ReusedKey(key: string, email: string, email': string): seq<Step> {
    [Submit(0, key, email, "1", 0, "")] + ([Stop(0)] + ([Submit(1, key, email', "2", 1, "1")]
    + (Undisturbed(1) + [Mark(1, true)])))
  }

  lemma {:induction false} RunConcat(requests: set<(string, string)>, s: State, a: seq<Step>, b: seq<Step>)
    requires Run(requests, s, a).Some?
    ensures Run(requests, s, a + b) == Run(requests, Run(requests, s, a).value, b)
    decreases a
  {
    if a == [] {
      assert a + b == b;
    } else {
      assert (a + b)[1..] == a[1..] + b;
      RunConcat(requests, Apply(requests, s, a[0]), a[1..], b);
    }
  }

  /** After the first submission was stored and its process stopped. */
  function StoredOnly(key: string, email: string): State {
    State(map["1" := LocalRow(key, email, 0, false, None)], Cloud(map[], map[]), map[])
  }

  lemma FirstSubmissionIsStored(requests: set<(string, string)>, key: string, email: string, rest: seq<Step>)
    requires (key, email) in requests
    ensures Run(requests, Start, [Submit(0, key, email, "1", 0, "")] + ([Stop(0)] + rest))
         == Run(requests, StoredOnly(key, email), rest)
  {
    var e1 := Submit(0, key, email, "1", 0, "");
    assert !Conflicts(Start.local, "1", key, email);
    RunCons(requests, Start, e1, [Stop(0)] + rest);
    var s1 := Apply(requests, Start, e1);
    RunCons(requests, s1, Stop(0), rest);
    assert s1.local == StoredOnly(key, email).local;
    assert Apply(requests, s1, Stop(0)) == StoredOnly(key, email);
  }

  lemma SecondSubmissionMeetsFirst(requests: set<(string, string)>, key: string, email: string, email': string,
                          rest: seq<Step>)
    requires (key, email') in requests
    ensures var s := StoredOnly(key, email);
            Run(requests, s, [Submit(1, key, email', "2", 1, "1")] + rest)
            == Run(requests, s.(jobs := map[1 := Job("1", key, email', Stored)]), rest)
  {
    var s, e := StoredOnly(key, email), Submit(1, key, email', "2", 1, "1");
    assert s.local["1"].key == key;
    assert HasMatch(s.local, key, email') && Conflicts(s.local, "2", key, email');
    assert NewestMatch(s.local, key, email', "1");
    RunCons(requests, s, e, rest);
    assert Apply(requests, s, e).jobs == map[1 := Job("1", key, email', Stored)];
  }

  lemma SecondSubmissionIsAccepted(requests: set<(string, string)>, key: string, email: string, email': string)
    ensures var s := StoredOnly(key, email).(jobs := map[1 := Job("1", key, email', Stored)]);
            Run(requests, s, Undisturbed(1) + [Mark(1, true)])
            == Some(State(map["1" := LocalRow(key, email, 0, true, None)],
                          Cloud(map["1" := email'], map[key := "1"]), map[]))
  {
    var s := StoredOnly(key, email).(jobs := map[1 := Job("1", key, email', Stored)]);
    UndisturbedIsCloudSync(requests, s, 1);
    RunConcat(requests, s, Undisturbed(1), [Mark(1, true)]);
    var s4 := Run(requests, s, Undisturbed(1)).value;
    assert [Mark(1, true)] + [] == [Mark(1, true)];
    RunCons(requests, s4, Mark(1, true), []);
    assert s4.local["1"] == LocalRow(key, email, 0, false, None);
    var s5 := Apply(requests, s4, Mark(1, true));
    assert s5.jobs == map[];
    assert s5.local == map["1" := LocalRow(key, email, 0, true, None)];
    assert s5.cloud == Cloud(map["1" := email'], map[key := "1"]);
  }

  /** The first email's row ends up marked synced while the cloud holds the other email under its id. */
  lemma ReusedKeyLosesARegistration(requests: set<(string, string)>, key: string, email: string, email': string)
    requires (key, email) in requests && (key, email') in requests && email != email'
    ensures Run(requests, Start, ReusedKey(key, email, email'))
         == Some(State(map["1" := LocalRow(key, email, 0, true, None)],
                       Cloud(map["1" := email'], map[key := "1"]), map[]))
    ensures !SyncedIsStored(Run(requests, Start, ReusedKey(key, email, email')).value)
  {
    var rest := Undisturbed(1) + [Mark(1, true)];
    var e3 := Submit(1, key, email', "2", 1, "1");
    assert ReusedKey(key, email, email') == [Submit(0, key, email, "1", 0, "")] + ([Stop(0)] + ([e3] + rest));
    FirstSubmissionIsStored(requests, key, email, [Submit(1, key, email', "2", 1, "1")] + rest);
    SecondSubmissionMeetsFirst(requests, key, email, email', rest);
    SecondSubmissionIsAccepted(requests, key, email, email');
    var s := State(map["1" := LocalRow(key, email, 0, true, None)], Cloud(map["1" := email'], map[key := "1"]), map[]);
    assert s.local["1"].synced && s.cloud.rows["1"] == email';
  }

  /**
    On every run every synced row is in the cloud as it is locally, if and only if no key is submitted with
    two different emails.
   */
  lemma SyncedIsStoredIffOneEmailPerKey(requests: set<(string, string)>)
    ensures (forall steps :: Run(requests, Start, steps).Some? ==> SyncedIsStored(Run(requests, Start, steps).value))
            <==> OneEmailPerKey(requests)
  {
    if OneEmailPerKey(requests) {
      forall steps | Run(requests, Start, steps).Some?
        ensures SyncedIsStored(Run(requests, Start, steps).value)
      {
        RepliesAndRowsAreExact(requests, steps);
      }
    } else {
      var p, q :| p in requests && q in requests && p.0 == q.0 && p.1 != q.1;
      ReusedKeyLosesARegistration(requests, p.0, p.1, q.1);
    }
  }

  /** Then also every answer for a key, first or repeated, is the id bound to that key. */
  lemma RepliesAndRowsAreExact(requests: set<(string, string)>, steps: seq<Step>)
    requires OneEmailPerKey(requests) && Run(requests, Start, steps).Some?
    ensures var s := Run(requests, Start, steps).value;
            SyncedIsStored(s) && RepliesAreBindings(s)
  {
    ExactRun(requests, Start, steps);
    ExactMeans(requests, Run(requests, Start, steps).value);
  }

  /** Two open requests for one key, interleaved so that both find the key free. */
  function Interleaved(j: nat, k: nat): seq<Step> {
    [ReadKey(j)] + ([ReadKey(k)] + ([InsertRow(j)] + ([InsertRow(k)] + ([InsertKey(j)] + ([Commit(j, true)]
    + ([InsertKey(k)] + ([Commit(k, true)] + [])))))))
  }

  /** Both transactions succeed, but only the first binds the key. */
  lemma InterleavedRequestsBothSucceed(requests: set<(string, string)>, s: State, j: nat, k: nat)
    requires Sound(s) && s.cloud == Cloud(map[], map[]) && j != k
    requires InPhase(s, j, Stored) && InPhase(s, k, Stored) && (forall x :: x in s.jobs ==> !Open(s, x))
    requires s.jobs[j].key == s.jobs[k].key && s.jobs[j].id != s.jobs[k].id && s.jobs[j].email != s.jobs[k].email
    ensures Run(requests, s, Interleaved(j, k)).Some?
    ensures var s' := Run(requests, s, Interleaved(j, k)).value;
            && InPhase(s', j, Replied(s.jobs[j].id)) && InPhase(s', k, Replied(s.jobs[k].id))
            && s'.cloud.keys == map[s.jobs[j].key := s.jobs[j].id]
            && !RepliesAreBindings(s')
  {
    var s4 := At(At(At(At(s, j, KeyFree), k, KeyFree), j, Inserted), k, Inserted);
    assert Interleaved(j, k)
        == [ReadKey(j)] + ([ReadKey(k)] + ([InsertRow(j)] + ([InsertRow(k)]
           + ([InsertKey(j)] + ([Commit(j, true)] + ([InsertKey(k)] + ([Commit(k, true)] + [])))))));
    ReadsThenInserts(requests, s, j, k,
      [InsertKey(j)] + ([Commit(j, true)] + ([InsertKey(k)] + ([Commit(k, true)] + []))));
    assert forall x :: x in s4.jobs && x != j && x != k ==> s4.jobs[x] == s.jobs[x] && !Open(s, x);
    hide Sound, Run;
    KeysThenCommits(requests, s4, j, k);
  }

  /**
    From two inserted rows on: the first transaction binds the key, the second finds it bound and commits all the same.
   */
  lemma KeysThenCommits(requests: set<(string, string)>, s: State, j: nat, k: nat)
    requires s.cloud == Cloud(map[], map[]) && j != k && InPhase(s, j, Inserted) && InPhase(s, k, Inserted)
    requires forall x :: x in s.jobs && x != j && x != k ==> !Open(s, x)
    requires s.jobs[j].key == s.jobs[k].key && s.jobs[j].id != s.jobs[k].id
    ensures var rest := [InsertKey(j)] + ([Commit(j, true)] + ([InsertKey(k)] + ([Commit(k, true)] + [])));
            && Run(requests, s, rest).Some?
            && var s' := Run(requests, s, rest).value;
               && InPhase(s', j, Replied(s.jobs[j].id)) && InPhase(s', k, Replied(s.jobs[k].id))
               && s'.cloud.keys == map[s.jobs[j].key := s.jobs[j].id]
               && !RepliesAreBindings(s')
  {
    var a, b := s.jobs[j], s.jobs[k];
    var s5 := At(s, j, Bound(true));
    assert Apply(requests, s, InsertKey(j)) == s5;
    RunCons(requests, s, InsertKey(j), [Commit(j, true)] + ([InsertKey(k)] + ([Commit(k, true)] + [])));
    var s6 := At(s5.(cloud := Cloud(map[a.id := a.email], map[a.key := a.id])), j, Replied(a.id));
    assert Apply(requests, s5, Commit(j, true)) == s6;
    RunCons(requests, s5, Commit(j, true), [InsertKey(k)] + ([Commit(k, true)] + []));
    assert Enabled(requests, s6, InsertKey(k)) by {
      assert forall x :: x in s6.jobs && x != j && x != k ==> s6.jobs[x] == s.jobs[x] && !Open(s, x);
    }
    LastCommit(requests, s6, j, k, a.id);
    RunCons(requests, s6, InsertKey(k), [Commit(k, true)] + []);
  }

  lemma LastCommit(requests: set<(string, string)>, s: State, j: nat, k: nat, id: string)
    requires j != k && InPhase(s, j, Replied(id)) && InPhase(s, k, Inserted) && Enabled(requests, s, InsertKey(k))
    requires s.cloud.keys == map[s.jobs[k].key := id] && s.jobs[k].id != id
    ensures var rest := [Commit(k, true)] + [];
            var s7 := Apply(requests, s, InsertKey(k));
            && Run(requests, s7, rest).Some?
            && var s' := Run(requests, s7, rest).value;
               && InPhase(s', j, Replied(id)) && InPhase(s', k, Replied(s.jobs[k].id))
               && s'.cloud.keys == s.cloud.keys && !RepliesAreBindings(s')
  {
    var s7 := At(s, k, Bound(false));
    assert Apply(requests, s, InsertKey(k)) == s7;
    RunCons(requests, s7, Commit(k, true), []);
    var s8 := Apply(requests, s7, Commit(k, true));
    assert s8.jobs[k].phase == Replied(s.jobs[k].id) && s8.cloud.keys[s.jobs[k].key] == id;
  }

  lemma ReadsThenInserts(requests: set<(string, string)>, s: State, j: nat, k: nat, rest: seq<Step>)
    requires s.cloud == Cloud(map[], map[]) && j != k
    requires InPhase(s, j, Stored) && InPhase(s, k, Stored) && (forall x :: x in s.jobs ==> !Open(s, x))
    requires s.jobs[j].id != s.jobs[k].id && s.jobs[j].email != s.jobs[k].email
    ensures Run(requests, s, [ReadKey(j)] + ([ReadKey(k)] + ([InsertRow(j)] + ([InsertRow(k)] + rest))))
         == Run(requests, At(At(At(At(s, j, KeyFree), k, KeyFree), j, Inserted), k, Inserted), rest)
  {
    var s1 := At(s, j, KeyFree);
    var s2 := At(s1, k, KeyFree);
    var s3 := At(s2, j, Inserted);
    RunCons(requests, s, ReadKey(j), [ReadKey(k)] + ([InsertRow(j)] + ([InsertRow(k)] + rest)));
    RunCons(requests, s1, ReadKey(k), [InsertRow(j)] + ([InsertRow(k)] + rest));
    assert forall x :: x in s2.jobs && x != j && x != k ==> s2.jobs[x] == s.jobs[x] && !Open(s, x);
    assert Enabled(requests, s2, InsertRow(j));
    RunCons(requests, s2, InsertRow(j), [InsertRow(k)] + rest);
    assert Enabled(requests, s3, InsertRow(k));
    RunCons(requests, s3, InsertRow(k), rest);
  }

  /** A request for each email, then the first key again with the second email. */
  function ThreeSubmissions(key: string, key': string, email: string, email': string): seq<Step> {
    [Submit(0, key, email, "1", 0, "")] + ([Submit(1, key', email', "2", 1, "")]
    + ([Submit(2, key, email', "3", 2, "2")] + []))
  }

  lemma ThreeSubmissionsAreStored(requests: set<(string, string)>, key: string, key': string, email: string,
                                  email': string)
    requires (key, email) in requests && (key', email') in requests && (key, email') in requests
    requires key != key' && email != email'
    ensures Run(requests, Start, ThreeSubmissions(key, key', email, email'))
         == Some(State(map["1" := LocalRow(key, email, 0, false, None), "2" := LocalRow(key', email', 1, false, None)],
                       Cloud(map[], map[]),
                       map[0 := Job("1", key, email, Stored), 1 := Job("2", key', email', Stored),
                           2 := Job("2", key, email', Stored)]))
  {
    var e1, e2, e3 := Submit(0, key, email, "1", 0, ""), Submit(1, key', email', "2", 1, ""),
        Submit(2, key, email', "3", 2, "2");
    assert !Conflicts(Start.local, "1", key, email);
    RunCons(requests, Start, e1, [e2] + ([e3] + []));
    var s1 := Apply(requests, Start, e1);
    assert s1.local == map["1" := LocalRow(key, email, 0, false, None)];
    assert !Conflicts(s1.local, "2", key', email');
    RunCons(requests, s1, e2, [e3] + []);
    var s2 := Apply(requests, s1, e2);
    assert s2.local == map["1" := LocalRow(key, email, 0, false, None), "2" := LocalRow(key', email', 1, false, None)];
    assert s2.local["2"].email == email';
    assert Conflicts(s2.local, "3", key, email') && HasMatch(s2.local, key, email');
    assert NewestMatch(s2.local, key, email', "2");
    RunCons(requests, s2, e3, []);
    assert Apply(requests, s2, e3).jobs == map[0 := Job("1", key, email, Stored), 1 := Job("2", key', email', Stored),
                                               2 := Job("2", key, email', Stored)];
  }

  /** So, with a reused key, two requests for the same key can be told different ids. */
  lemma ReusedKeyGetsTwoAnswers(requests: set<(string, string)>, key: string, key': string, email: string,
                                email': string)
    requires (key, email) in requests && (key', email') in requests && (key, email') in requests
    requires key != key' && email != email'
    ensures var steps := ThreeSubmissions(key, key', email, email') + Interleaved(0, 2);
            && Run(requests, Start, steps).Some?
            && !RepliesAreBindings(Run(requests, Start, steps).value)
  {
    hide Run, Sound, RepliesAreBindings, ThreeSubmissions, Interleaved, Start;
    ThreeSubmissionsAreStored(requests, key, key', email, email');
    var s := Run(requests, Start, ThreeSubmissions(key, key', email, email')).value;
    IdleIsSound(s);
    RunConcat(requests, Start, ThreeSubmissions(key, key', email, email'), Interleaved(0, 2));
    InterleavedRequestsBothSucceed(requests, s, 0, 2);
  }

  lemma IdleIsSound(s: State)
    requires s.cloud == Cloud(map[], map[]) && forall j :: j in s.jobs ==> s.jobs[j].phase == Stored
    ensures Sound(s)
  {
  }

  /**
    On every run every answer for a key, first or repeated, is the id the cloud has bound to it, if and only if no key
    is submitted with two emails of which one is submitted under another key as well.
   */
  lemma RepliesAreBindingsIffNotCrossed(requests: set<(string, string)>)
    ensures (forall steps :: Run(requests, Start, steps).Some? ==>
               RepliesAreBindings(Run(requests, Start, steps).value))
            <==> !Crossed(requests)
  {
    hide Run, RepliesAreBindings, Grouped, ThreeSubmissions, Interleaved, Start;
    if Crossed(requests) {
      var p, q, r :| p in requests && q in requests && r in requests && Cross(p, q, r);
      ReusedKeyGetsTwoAnswers(requests, p.0, r.0, p.1, q.1);
    } else {
      forall steps | Run(requests, Start, steps).Some?
        ensures RepliesAreBindings(Run(requests, Start, steps).value)
      {
        StartIsGrouped(requests);
        GroupedRun(requests, Start, steps);
        GroupedReplies(requests, Run(requests, Start, steps).value);
      }
    }
  }
}
