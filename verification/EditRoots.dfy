/** Finding the upload an edit comes from (app/repositories/jobs.py:
    `resolve_edit_roots`): many jobs at once, one query a hop, against walking one
    job's own chain. */
module EditRoots {
  import opened Prelude

  /** What the lookup reads of a job; `upload` when it has no operations. */
  datatype Job = Job(id: nat, owner: nat, upload: bool, sourceKey: string, outputKey: Option<string>)

  const MAX_EDIT_CHAIN := 8

  predicate HasOutput(row: Job) { row.outputKey.Some? && row.outputKey.value != "" }

  predicate Matches(row: Job, keys: set<string>, owners: set<nat>) {
    row.owner in owners
    && ((row.upload && row.sourceKey in keys) || (row.outputKey.Some? && row.outputKey.value in keys))
  }

  /** The hop's query; the rows come in whatever order the table has them. */
  function Query(table: seq<Job>, keys: set<string>, owners: set<nat>): seq<Job> {
    if table == [] then []
    else (if Matches(table[0], keys, owners) then [table[0]] else []) + Query(table[1..], keys, owners)
  }

  /** `{row.source_key: row ...}` of the uploads; a later row replaces an earlier one. */
  function UploadsOf(rows: seq<Job>): map<string, Job> {
    if rows == [] then map[]
    else
      var row, rest := rows[|rows| - 1], UploadsOf(rows[..|rows| - 1]);
      if row.upload then rest[row.sourceKey := row] else rest
  }

  function OutputsOf(rows: seq<Job>): map<string, Job> {
    if rows == [] then map[]
    else
      var row, rest := rows[|rows| - 1], OutputsOf(rows[..|rows| - 1]);
      if HasOutput(row) then rest[row.outputKey.value := row] else rest
  }

  /** The parent these rows give `current`, if it is another job of the same owner. */
  function ParentIn(rows: seq<Job>, current: Job): Option<Job> {
    var uploads, outputs, key := UploadsOf(rows), OutputsOf(rows), current.sourceKey;
    var parent := if key in uploads then Some(uploads[key]) else if key in outputs then Some(outputs[key]) else None;
    if parent.None? || parent.value.owner != current.owner || parent.value.id == current.id then None else parent
  }

  /** One hop of one job alone: its own query. */
  function Parent(table: seq<Job>, current: Job): Option<Job> {
    ParentIn(Query(table, {current.sourceKey}, {current.owner}), current)
  }

  /** Walking one job's chain alone, at most so many hops. */
  function Walk(table: seq<Job>, job: Job, hops: nat): Job
    decreases hops
  {
    if hops == 0 || job.upload then job
    else
      var parent := Parent(table, job);
      if parent.None? then job else Walk(table, parent.value, hops - 1)
  }

  predicate Ended(table: seq<Job>, job: Job) { job.upload || Parent(table, job).None? }

  /** No two jobs share a key: no two uploads a source, no two jobs an output, and no
      output is another job's upload. */
  predicate UniqueKeys(table: seq<Job>) {
    forall i, j :: 0 <= i < |table| && 0 <= j < |table| ==> SameKeySameRow(table[i], table[j])
  }

  predicate SameKeySameRow(a: Job, b: Job) {
    && (a.upload && b.upload && a.sourceKey == b.sourceKey ==> a == b)
    && (HasOutput(a) && HasOutput(b) && a.outputKey == b.outputKey ==> a == b)
    && (a.upload && HasOutput(b) && Some(a.sourceKey) == b.outputKey ==> a == b)
  }

  // --- The dictionaries -------------------------------------------------------------

  lemma {:induction false} QueryIs(table: seq<Job>, keys: set<string>, owners: set<nat>)
    ensures forall row :: row in Query(table, keys, owners) <==> row in table && Matches(row, keys, owners)
  {
    if table != [] {
      QueryIs(table[1..], keys, owners);
      assert table == [table[0]] + table[1..];
    }
  }

  lemma {:induction false} UploadsAre(rows: seq<Job>, key: string)
    ensures key in UploadsOf(rows) <==> exists row :: row in rows && row.upload && row.sourceKey == key
    ensures key in UploadsOf(rows) ==> var row := UploadsOf(rows)[key]; row in rows && row.upload && row.sourceKey == key
  {
    if rows != [] {
      UploadsAre(rows[..|rows| - 1], key);
      assert rows == rows[..|rows| - 1] + [rows[|rows| - 1]];
    }
  }

  lemma {:induction false} OutputsAre(rows: seq<Job>, key: string)
    ensures key in OutputsOf(rows) <==> exists row :: row in rows && HasOutput(row) && row.outputKey == Some(key)
    ensures key in OutputsOf(rows) ==> var row := OutputsOf(rows)[key]; row in rows && HasOutput(row) && row.outputKey == Some(key)
  {
    if rows != [] {
      OutputsAre(rows[..|rows| - 1], key);
      assert rows == rows[..|rows| - 1] + [rows[|rows| - 1]];
    }
  }

  /** With unique keys, a row that has the key in the table is the one that is found. */
  lemma ParentIs(table: seq<Job>, keys: set<string>, owners: set<nat>, current: Job, parent: Job)
    requires UniqueKeys(table) && current.sourceKey in keys && current.owner in owners
    ensures ParentIn(Query(table, keys, owners), current) == Some(parent) <==>
              && parent in table && parent.owner == current.owner && parent.id != current.id
              && ((parent.upload && parent.sourceKey == current.sourceKey)
                  || (HasOutput(parent) && parent.outputKey == Some(current.sourceKey)))
  {
    var rows, key := Query(table, keys, owners), current.sourceKey;
    QueryIs(table, keys, owners);
    UploadsAre(rows, key);
    OutputsAre(rows, key);
    forall a, b | a in table && b in table ensures SameKeySameRow(a, b) {
      var i :| 0 <= i < |table| && table[i] == a;
      var j :| 0 <= j < |table| && table[j] == b;
    }
  }

  /** Row `i` has this key as an upload's source, or as an output. */
  predicate UploadAt(table: seq<Job>, i: nat, owner: nat, key: string) {
    i < |table| && table[i].owner == owner && table[i].upload && table[i].sourceKey == key
  }

  predicate OutputAt(table: seq<Job>, i: nat, owner: nat, key: string) {
    i < |table| && table[i].owner == owner && HasOutput(table[i]) && table[i].outputKey.value == key
  }

  lemma {:induction false} LastUpload(table: seq<Job>, owner: nat, key: string, i: nat)
    requires UploadAt(table, i, owner, key) && forall j: nat :: i < j ==> !UploadAt(table, j, owner, key)
    ensures var uploads := UploadsOf(Query(table, {key}, {owner})); key in uploads && uploads[key] == table[i]
  {
    var rest := Query(table[1..], {key}, {owner});
    forall j: nat | i <= j ensures !UploadAt(table[1..], j, owner, key) {
      assert UploadAt(table[1..], j, owner, key) ==> UploadAt(table, j + 1, owner, key);
    }
    if i == 0 {
      NoUpload(table[1..], owner, key);
      UploadsCons(table[0], rest, key);
    } else {
      assert UploadAt(table[1..], i - 1, owner, key);
      LastUpload(table[1..], owner, key, i - 1);
      if Matches(table[0], {key}, {owner}) {
        UploadsCons(table[0], rest, key);
      } else {
        assert [] + rest == rest;
      }
    }
  }

  lemma NoUpload(table: seq<Job>, owner: nat, key: string)
    requires forall j: nat :: !UploadAt(table, j, owner, key)
    ensures key !in UploadsOf(Query(table, {key}, {owner}))
  {
    QueryIs(table, {key}, {owner});
    UploadsAre(Query(table, {key}, {owner}), key);
    if key in UploadsOf(Query(table, {key}, {owner})) {
      var row :| row in Query(table, {key}, {owner}) && row.upload && row.sourceKey == key;
      var j: nat :| j < |table| && table[j] == row;
      assert UploadAt(table, j, owner, key);
    }
  }

  lemma {:induction false} LastOutput(table: seq<Job>, owner: nat, key: string, i: nat)
    requires OutputAt(table, i, owner, key) && forall j: nat :: i < j ==> !OutputAt(table, j, owner, key)
    ensures var outputs := OutputsOf(Query(table, {key}, {owner})); key in outputs && outputs[key] == table[i]
  {
    var rest := Query(table[1..], {key}, {owner});
    forall j: nat | i <= j ensures !OutputAt(table[1..], j, owner, key) {
      assert OutputAt(table[1..], j, owner, key) ==> OutputAt(table, j + 1, owner, key);
    }
    if i == 0 {
      NoOutput(table[1..], owner, key);
      OutputsCons(table[0], rest, key);
    } else {
      assert OutputAt(table[1..], i - 1, owner, key);
      LastOutput(table[1..], owner, key, i - 1);
      if Matches(table[0], {key}, {owner}) {
        OutputsCons(table[0], rest, key);
      } else {
        assert [] + rest == rest;
      }
    }
  }

  lemma NoOutput(table: seq<Job>, owner: nat, key: string)
    requires forall j: nat :: !OutputAt(table, j, owner, key)
    ensures key !in OutputsOf(Query(table, {key}, {owner}))
  {
    QueryIs(table, {key}, {owner});
    OutputsAre(Query(table, {key}, {owner}), key);
    if key in OutputsOf(Query(table, {key}, {owner})) {
      var row :| row in Query(table, {key}, {owner}) && HasOutput(row) && row.outputKey == Some(key);
      var j: nat :| j < |table| && table[j] == row;
      assert OutputAt(table, j, owner, key);
    }
  }

  /** What a hop finds, whether or not keys are unique: of the owner's own rows the last
      upload with the key, else the last output with it, unless it is the job itself. */
  lemma ParentSays(table: seq<Job>, current: Job, i: nat)
    ensures var owner, key := current.owner, current.sourceKey;
            && (UploadAt(table, i, owner, key) && (forall j: nat :: i < j ==> !UploadAt(table, j, owner, key)) ==>
                  Parent(table, current) == if table[i].id != current.id then Some(table[i]) else None)
            && (OutputAt(table, i, owner, key) && (forall j: nat :: i < j ==> !OutputAt(table, j, owner, key))
                && (forall j: nat :: !UploadAt(table, j, owner, key)) ==>
                  Parent(table, current) == if table[i].id != current.id then Some(table[i]) else None)
            && ((forall j: nat :: !UploadAt(table, j, owner, key) && !OutputAt(table, j, owner, key)) ==>
                  Parent(table, current) == None)
  {
    var owner, key := current.owner, current.sourceKey;
    hide UploadsOf, OutputsOf, Query;
    if UploadAt(table, i, owner, key) && forall j: nat :: i < j ==> !UploadAt(table, j, owner, key) {
      LastUpload(table, owner, key, i);
    }
    if OutputAt(table, i, owner, key) && forall j: nat :: i < j ==> !OutputAt(table, j, owner, key) {
      LastOutput(table, owner, key, i);
    }
    if forall j: nat :: !UploadAt(table, j, owner, key) {
      NoUpload(table, owner, key);
    }
    if forall j: nat :: !OutputAt(table, j, owner, key) {
      NoOutput(table, owner, key);
    }
  }

  // --- When a batch agrees with a lookup of the one job -----------------------------------

  /** A row that a lookup of the key can find. */
  predicate Carries(row: Job, key: string) {
    (row.upload && row.sourceKey == key) || (HasOutput(row) && row.outputKey == Some(key))
  }

  /** No key is carried by rows of two owners. Rows of one owner may share one. */
  ghost predicate OneOwnerPerKey(table: seq<Job>) {
    forall a, b, key :: a in table && b in table && Carries(a, key) && Carries(b, key) ==> a.owner == b.owner
  }

  lemma {:induction false} UploadsCons(row: Job, rest: seq<Job>, key: string)
    ensures key in UploadsOf([row] + rest) <==> key in UploadsOf(rest) || (row.upload && row.sourceKey == key)
    ensures key in UploadsOf([row] + rest) ==>
              UploadsOf([row] + rest)[key] == if key in UploadsOf(rest) then UploadsOf(rest)[key] else row
  {
    var rows := [row] + rest;
    if rest == [] {
      assert rows[..0] == [];
    } else {
      assert rows[..|rows| - 1] == [row] + rest[..|rest| - 1];
      UploadsCons(row, rest[..|rest| - 1], key);
    }
  }

  lemma {:induction false} OutputsCons(row: Job, rest: seq<Job>, key: string)
    ensures key in OutputsOf([row] + rest) <==> key in OutputsOf(rest) || (HasOutput(row) && row.outputKey == Some(key))
    ensures key in OutputsOf([row] + rest) ==>
              OutputsOf([row] + rest)[key] == if key in OutputsOf(rest) then OutputsOf(rest)[key] else row
  {
    var rows := [row] + rest;
    if rest == [] {
      assert rows[..0] == [];
    } else {
      assert rows[..|rows| - 1] == [row] + rest[..|rest| - 1];
      OutputsCons(row, rest[..|rest| - 1], key);
    }
  }

  /** Whoever carries the key is among the owners asked for. */
  ghost predicate Asked(table: seq<Job>, key: string, owners: set<nat>) {
    forall row :: row in table && Carries(row, key) ==> row.owner in owners
  }

  /** Then the query finds for that key what the whole table would. */
  lemma {:induction false} QueryKeeps(table: seq<Job>, keys: set<string>, owners: set<nat>, key: string)
    requires key in keys && Asked(table, key, owners)
    ensures key in UploadsOf(Query(table, keys, owners)) <==> key in UploadsOf(table)
    ensures key in UploadsOf(table) ==> UploadsOf(Query(table, keys, owners))[key] == UploadsOf(table)[key]
    ensures key in OutputsOf(Query(table, keys, owners)) <==> key in OutputsOf(table)
    ensures key in OutputsOf(table) ==> OutputsOf(Query(table, keys, owners))[key] == OutputsOf(table)[key]
  {
    if table != [] {
      var row, rest := table[0], table[1..];
      assert table == [row] + rest;
      QueryKeeps(rest, keys, owners, key);
      UploadsCons(row, rest, key);
      OutputsCons(row, rest, key);
      UploadsCons(row, Query(rest, keys, owners), key);
      OutputsCons(row, Query(rest, keys, owners), key);
      hide UploadsOf, OutputsOf;
      assert Query(table, keys, owners) == (if Matches(row, keys, owners) then [row] else []) + Query(rest, keys, owners);
      assert [] + Query(rest, keys, owners) == Query(rest, keys, owners);
    }
  }

  /** What is found carries the key, and is a row of the table. */
  lemma FoundCarries(table: seq<Job>, keys: set<string>, owners: set<nat>, current: Job)
    ensures var r := ParentIn(Query(table, keys, owners), current);
            r.Some? ==> r.value in table && Carries(r.value, current.sourceKey) && r.value.owner == current.owner
  {
    var rows := Query(table, keys, owners);
    QueryIs(table, keys, owners);
    UploadsAre(rows, current.sourceKey);
    OutputsAre(rows, current.sourceKey);
  }

  /** If every carrier of the key is asked for, all of them of this owner, the batch
      finds what the whole table has. */
  lemma AskedFinds(table: seq<Job>, keys: set<string>, owners: set<nat>, current: Job)
    requires current.sourceKey in keys && Asked(table, current.sourceKey, owners)
    ensures ParentIn(Query(table, keys, owners), current) == ParentIn(table, current)
  {
    QueryKeeps(table, keys, owners, current.sourceKey);
  }

  /** With one owner to a key, the batch's query gives each of its jobs the parent its
      own query would. */
  lemma BatchFindsParent(table: seq<Job>, keys: set<string>, owners: set<nat>, current: Job)
    requires OneOwnerPerKey(table) && current.sourceKey in keys && current.owner in owners
    ensures ParentIn(Query(table, keys, owners), current) == Parent(table, current)
  {
    var key := current.sourceKey;
    hide ParentIn, Query;
    if row :| row in table && Carries(row, key) && row.owner == current.owner {
      assert Asked(table, key, owners) && Asked(table, key, {current.owner});
      AskedFinds(table, keys, owners, current);
      AskedFinds(table, {key}, {current.owner}, current);
    } else {
      FoundCarries(table, keys, owners, current);
      FoundCarries(table, {key}, {current.owner}, current);
    }
  }

  /** Every lookup in a batch, of whatever keys and owners, agrees with its own. */
  ghost predicate BatchesAgree(table: seq<Job>) {
    forall keys: set<string>, owners: set<nat>, current: Job ::
      current.sourceKey in keys && current.owner in owners ==>
        ParentIn(Query(table, keys, owners), current) == Parent(table, current)
  }

  /** A row that carries the key is found for another job of its owner, alone or in a
      table that asks for all its owners. */
  lemma CarriedIsFound(table: seq<Job>, keys: set<string>, owners: set<nat>, row: Job)
    ensures forall key :: row in table && Carries(row, key) && key in keys && row.owner in owners ==>
              key in UploadsOf(Query(table, keys, owners)) || key in OutputsOf(Query(table, keys, owners))
  {
    var rows := Query(table, keys, owners);
    QueryIs(table, keys, owners);
    forall key | row in table && Carries(row, key) && key in keys && row.owner in owners
      ensures key in UploadsOf(rows) || key in OutputsOf(rows)
    {
      UploadsAre(rows, key);
      OutputsAre(rows, key);
      assert row in rows;
    }
  }

  /** The first row a batch's dictionaries give for a key. */
  function Found(rows: seq<Job>, key: string): Option<Job> {
    if key in UploadsOf(rows) then Some(UploadsOf(rows)[key])
    else if key in OutputsOf(rows) then Some(OutputsOf(rows)[key]) else None
  }

  /** With a key in two owners' hands, some batch of the two loses a parent that one of
      them has. */
  lemma TwoOwnersDisagree(table: seq<Job>, a: Job, b: Job, key: string)
    requires a in table && b in table && Carries(a, key) && Carries(b, key) && a.owner != b.owner
    ensures exists current: Job :: current.sourceKey == key && current.owner in {a.owner, b.owner}
              && ParentIn(Query(table, {key}, {a.owner, b.owner}), current) != Parent(table, current)
  {
    var owners := {a.owner, b.owner};
    CarriedIsFound(table, {key}, owners, a);
    var batch := Found(Query(table, {key}, owners), key).value;
    var loser := if batch.owner == a.owner then b else a;
    CarriedIsFound(table, {key}, {loser.owner}, loser);
    var own := Found(Query(table, {key}, {loser.owner}), key).value;
    var current := Job(own.id + 1, loser.owner, false, key, None);
    OwnRows(table, key, loser.owner);
    assert Parent(table, current) == Some(own);
    assert ParentIn(Query(table, {key}, owners), current) == None;
  }

  lemma OwnRows(table: seq<Job>, key: string, owner: nat)
    ensures var f := Found(Query(table, {key}, {owner}), key); f.Some? ==> f.value.owner == owner
  {
    var rows := Query(table, {key}, {owner});
    QueryIs(table, {key}, {owner});
    UploadsAre(rows, key);
    OutputsAre(rows, key);
  }

  /** The batched lookup agrees with the one-job lookup for all keys and owners exactly
      when no key is carried by rows of two owners. */
  lemma BatchesAgreeIff(table: seq<Job>)
    ensures BatchesAgree(table) <==> OneOwnerPerKey(table)
  {
    hide ParentIn, Query, Carries;
    if OneOwnerPerKey(table) {
      forall keys: set<string>, owners: set<nat>, current: Job | current.sourceKey in keys && current.owner in owners
        ensures ParentIn(Query(table, keys, owners), current) == Parent(table, current)
      {
        BatchFindsParent(table, keys, owners, current);
      }
    } else {
      var a, b, key :| a in table && b in table && Carries(a, key) && Carries(b, key) && a.owner != b.owner;
      TwoOwnersDisagree(table, a, b, key);
      var current: Job :| current.sourceKey == key && current.owner in {a.owner, b.owner}
        && ParentIn(Query(table, {key}, {a.owner, b.owner}), current) != Parent(table, current);
      assert current.sourceKey in {key};
    }
  }

  /** Keys that no two rows share have one owner each. */
  lemma UniqueIsOneOwner(table: seq<Job>)
    requires UniqueKeys(table)
    ensures OneOwnerPerKey(table)
  {
    forall a, b, key | a in table && b in table && Carries(a, key) && Carries(b, key) ensures a.owner == b.owner {
      var i :| 0 <= i < |table| && table[i] == a;
      var j :| 0 <= j < |table| && table[j] == b;
      assert SameKeySameRow(table[i], table[j]) && SameKeySameRow(table[j], table[i]);
    }
  }

  lemma {:induction false} WalkOneMore(table: seq<Job>, job: Job, hops: nat)
    ensures var at := Walk(table, job, hops);
            Walk(table, job, hops + 1) == if Ended(table, at) then at else Parent(table, at).value
    decreases hops
  {
    hide Parent;
    if hops > 0 && !job.upload && Parent(table, job).Some? {
      WalkOneMore(table, Parent(table, job).value, hops - 1);
    }
  }

  lemma {:induction false} EndedStays(table: seq<Job>, job: Job, hops: nat, more: nat)
    requires hops <= more && Ended(table, Walk(table, job, hops))
    ensures Walk(table, job, more) == Walk(table, job, hops)
    decreases more
  {
    hide Parent;
    if hops < more {
      EndedStays(table, job, hops, more - 1);
      WalkOneMore(table, job, more - 1);
    }
  }

  /** The walk stays with one owner. */
  lemma {:induction false} WalkKeepsOwner(table: seq<Job>, job: Job, hops: nat)
    ensures Walk(table, job, hops).owner == job.owner
    decreases hops
  {
    if hops > 0 && !job.upload && Parent(table, job).Some? {
      WalkKeepsOwner(table, Parent(table, job).value, hops - 1);
    }
  }

  // --- The batched lookup -------------------------------------------------------------

  /** A job being looked up, and the ancestor it has got to. */
  datatype Pending = Pending(job: Job, current: Job)

  function Keys(pending: seq<Pending>): set<string> {
    set i | 0 <= i < |pending| :: pending[i].current.sourceKey
  }

  function Owners(pending: seq<Pending>): set<nat> {
    set i | 0 <= i < |pending| :: pending[i].current.owner
  }

  predicate Waits(job: Job, pending: seq<Pending>) {
    exists k :: 0 <= k < |pending| && pending[k].job == job
  }

  /** What is pending: edits that a walk alone has got to. */
  ghost predicate PendingOk(table: seq<Job>, jobs: seq<Job>, pending: seq<Pending>, hops: nat) {
    forall k :: 0 <= k < |pending| ==>
      && pending[k].job in jobs && !pending[k].current.upload
      && pending[k].current == Walk(table, pending[k].job, hops)
  }

  /** A job's root is where its walk has got to, and if it is not pending it stays there. */
  ghost predicate At(table: seq<Job>, job: Job, roots: map<nat, Job>, pending: seq<Pending>, hops: nat) {
    && job.id in roots && roots[job.id] == Walk(table, job, hops)
    && (Ended(table, Walk(table, job, hops)) || Waits(job, pending))
  }

  ghost predicate SoFar(table: seq<Job>, jobs: seq<Job>, roots: map<nat, Job>, pending: seq<Pending>, hops: nat) {
    PendingOk(table, jobs, pending, hops) && forall job :: job in jobs ==> At(table, job, roots, pending, hops)
  }

  /** In the middle of a hop: the jobs of the first `k` pending ones have made it. */
  ghost predicate Halfway(table: seq<Job>, jobs: seq<Job>, roots: map<nat, Job>, pending: seq<Pending>, k: nat,
                          still: seq<Pending>, hops: nat)
    requires k <= |pending|
  {
    && PendingOk(table, jobs, still, hops + 1)
    && (forall job :: job in jobs ==>
          if Waits(job, pending[..k]) then At(table, job, roots, still, hops + 1) else At(table, job, roots, pending, hops))
  }

  predicate SameIdSameJob(jobs: seq<Job>) {
    forall a, b :: a in jobs && b in jobs && a.id == b.id ==> a == b
  }

  /** The root and the list after one pending job's look at its parent. */
  function Rooted(roots: map<nat, Job>, job: Job, parent: Option<Job>): map<nat, Job> {
    if parent.Some? then roots[job.id := parent.value] else roots
  }

  function Listed(still: seq<Pending>, job: Job, parent: Option<Job>): seq<Pending> {
    if parent.Some? && !parent.value.upload then still + [Pending(job, parent.value)] else still
  }

  lemma WaitsOneMore(job: Job, pending: seq<Pending>, k: nat)
    requires k < |pending|
    ensures Waits(job, pending[..k + 1]) <==> Waits(job, pending[..k]) || pending[k].job == job
  {
    if Waits(job, pending[..k + 1]) {
      var q :| 0 <= q < k + 1 && pending[..k + 1][q].job == job;
      assert q < k ==> pending[..k][q].job == job;
    }
    if Waits(job, pending[..k]) {
      var q :| 0 <= q < k && pending[..k][q].job == job;
      assert pending[..k + 1][q].job == job;
    }
    assert pending[..k + 1][k].job == pending[k].job;
  }

  lemma WaitsLonger(job: Job, still: seq<Pending>, more: Pending)
    ensures Waits(job, still) || more.job == job <==> Waits(job, still + [more])
  {
    if Waits(job, still) {
      var q :| 0 <= q < |still| && still[q].job == job;
      assert (still + [more])[q].job == job;
    }
    assert (still + [more])[|still|].job == more.job;
    if Waits(job, still + [more]) {
      var q :| 0 <= q < |still| + 1 && (still + [more])[q].job == job;
      assert q < |still| ==> still[q].job == job;
    }
  }

  lemma HopStep(table: seq<Job>, jobs: seq<Job>, roots: map<nat, Job>, pending: seq<Pending>, k: nat, still: seq<Pending>, hops: nat)
    requires k < |pending| && PendingOk(table, jobs, pending, hops) && SameIdSameJob(jobs)
    requires Halfway(table, jobs, roots, pending, k, still, hops)
    ensures var parent := Parent(table, pending[k].current);
            Halfway(table, jobs, Rooted(roots, pending[k].job, parent), pending, k + 1, Listed(still, pending[k].job, parent), hops)
  {
    var it := pending[k].job;
    var parent := Parent(table, pending[k].current);
    WalkOneMore(table, it, hops);
    hide Parent, Walk;
    var r, s := Rooted(roots, it, parent), Listed(still, it, parent);
    assert PendingOk(table, jobs, s, hops + 1);
    forall job | job in jobs
      ensures if Waits(job, pending[..k + 1]) then At(table, job, r, s, hops + 1) else At(table, job, r, pending, hops)
    {
      WaitsOneMore(job, pending, k);
      if parent.Some? { WaitsLonger(job, still, Pending(it, parent.value)); }
      hide Waits;
      assert job.id == it.id ==> job == it;
    }
  }

  lemma HopEnds(table: seq<Job>, jobs: seq<Job>, roots: map<nat, Job>, pending: seq<Pending>, still: seq<Pending>, hops: nat)
    requires Halfway(table, jobs, roots, pending, |pending|, still, hops)
    ensures SoFar(table, jobs, roots, still, hops + 1)
  {
    hide Parent, Walk, Waits;
    assert pending[..|pending|] == pending;
    forall job | job in jobs ensures At(table, job, roots, still, hops + 1) {
      WalkOneMore(table, job, hops);
    }
  }

  lemma HopStarts(table: seq<Job>, jobs: seq<Job>, roots: map<nat, Job>, pending: seq<Pending>, hops: nat)
    requires SoFar(table, jobs, roots, pending, hops)
    ensures Halfway(table, jobs, roots, pending, 0, [], hops)
  {
    hide Parent, Walk;
  }

  method Dictionaries(rows: seq<Job>) returns (uploads: map<string, Job>, outputs: map<string, Job>)
    ensures uploads == UploadsOf(rows) && outputs == OutputsOf(rows)
  {
    uploads, outputs := map[], map[];
    var k := 0;
    while k < |rows|
      invariant 0 <= k <= |rows|
      invariant uploads == UploadsOf(rows[..k]) && outputs == OutputsOf(rows[..k])
    {
      assert rows[..k + 1][..k] == rows[..k];
      if rows[k].upload {
        uploads := uploads[rows[k].sourceKey := rows[k]];
      }
      if HasOutput(rows[k]) {
        outputs := outputs[rows[k].outputKey.value := rows[k]];
      }
      k := k + 1;
    }
    assert rows[..k] == rows;
  }

  /** One query's hop for everything pending. */
  method Hop(table: seq<Job>, jobs: seq<Job>, before: map<nat, Job>, pending: seq<Pending>, ghost hops: nat)
    returns (roots: map<nat, Job>, still: seq<Pending>)
    requires OneOwnerPerKey(table) && SameIdSameJob(jobs) && SoFar(table, jobs, before, pending, hops)
    ensures SoFar(table, jobs, roots, still, hops + 1)
  {
    hide OneOwnerPerKey, SameIdSameJob, PendingOk, Halfway, Query, Keys, Owners, Walk;
    var rows := Query(table, Keys(pending), Owners(pending));
    var uploads, outputs := Dictionaries(rows);
    roots, still := before, [];
    HopStarts(table, jobs, roots, pending, hops);
    var k := 0;
    while k < |pending|
      invariant 0 <= k <= |pending|
      invariant Halfway(table, jobs, roots, pending, k, still, hops)
    {
      var job, current := pending[k].job, pending[k].current;
      var key := current.sourceKey;
      var parent := if key in uploads then Some(uploads[key]) else if key in outputs then Some(outputs[key]) else None;
      HopStep(table, jobs, roots, pending, k, still, hops);
      KeysAndOwners(pending, k);
      BatchFindsParent(table, Keys(pending), Owners(pending), current);
      if parent != None && parent.value.owner == current.owner && parent.value.id != current.id {
        roots := roots[job.id := parent.value];
        if !parent.value.upload {
          still := still + [Pending(job, parent.value)];
        }
      }
      k := k + 1;
    }
    HopEnds(table, jobs, roots, pending, still, hops);
  }

  lemma KeysAndOwners(pending: seq<Pending>, k: nat)
    requires k < |pending|
    ensures pending[k].current.sourceKey in Keys(pending) && pending[k].current.owner in Owners(pending)
  {
  }

  /** `resolve_edit_roots`: every job gets the ancestor that walking its own chain alone
      gives, for at most eight hops, whatever else is looked up with it. */
  method ResolveEditRoots(table: seq<Job>, jobs: seq<Job>) returns (roots: map<nat, Job>)
    requires OneOwnerPerKey(table) && SameIdSameJob(jobs)
    ensures forall job :: job in jobs ==> job.id in roots && roots[job.id] == Walk(table, job, 8)
  {
    roots := map[];
    var pending: seq<Pending> := [];
    var k := 0;
    NothingStarted(table, jobs);
    hide OneOwnerPerKey, SameIdSameJob, SoFar, Walk;
    while k < |jobs|
      invariant 0 <= k <= |jobs|
      invariant SoFar(table, jobs[..k], roots, pending, 0)
    {
      StartStep(table, jobs, roots, pending, k);
      roots := roots[jobs[k].id := jobs[k]];
      if !jobs[k].upload {
        pending := pending + [Pending(jobs[k], jobs[k])];
      }
      k := k + 1;
    }
    assert jobs[..k] == jobs;
    var hops := 0;
    while hops < MAX_EDIT_CHAIN && pending != []
      invariant 0 <= hops <= MAX_EDIT_CHAIN
      invariant SoFar(table, jobs, roots, pending, hops)
    {
      roots, pending := Hop(table, jobs, roots, pending, hops);
      hops := hops + 1;
    }
    LookupEnds(table, jobs, roots, pending, hops);
  }

  lemma NothingStarted(table: seq<Job>, jobs: seq<Job>)
    ensures SoFar(table, jobs[..0], map[], [], 0)
  {
  }

  lemma StartStep(table: seq<Job>, jobs: seq<Job>, roots: map<nat, Job>, pending: seq<Pending>, k: nat)
    requires k < |jobs| && SameIdSameJob(jobs) && SoFar(table, jobs[..k], roots, pending, 0)
    ensures SoFar(table, jobs[..k + 1], roots[jobs[k].id := jobs[k]],
                  if jobs[k].upload then pending else pending + [Pending(jobs[k], jobs[k])], 0)
  {
    var it := jobs[k];
    var r, p := roots[it.id := it], if it.upload then pending else pending + [Pending(it, it)];
    assert jobs[..k + 1] == jobs[..k] + [it];
    assert forall job :: Walk(table, job, 0) == job;
    hide Walk, Parent;
    forall job | job in jobs[..k + 1] ensures At(table, job, r, p, 0) {
      WaitsLonger(job, pending, Pending(it, it));
      hide Waits;
      assert job in jobs && it in jobs;
    }
  }

  lemma LookupEnds(table: seq<Job>, jobs: seq<Job>, roots: map<nat, Job>, pending: seq<Pending>, hops: nat)
    requires SoFar(table, jobs, roots, pending, hops) && hops <= MAX_EDIT_CHAIN
    requires hops == MAX_EDIT_CHAIN || pending == []
    ensures forall job :: job in jobs ==> job.id in roots && roots[job.id] == Walk(table, job, MAX_EDIT_CHAIN)
  {
    forall job | job in jobs ensures job.id in roots && roots[job.id] == Walk(table, job, MAX_EDIT_CHAIN) {
      assert At(table, job, roots, pending, hops);
      hide Walk, Parent;
      if pending == [] {
        EndedStays(table, job, hops, MAX_EDIT_CHAIN);
      }
    }
  }

  /** With a key in two owners' hands a batch can lose an ancestor that a lookup of the
      one job finds: the other owner's upload stands before it. */
  lemma SharedKeyMisleads(key: string)
    requires key != ""
    ensures var edit := Job(1, 1, false, key, None);
            var parent := Job(2, 1, false, "older", Some(key));
            var other := Job(3, 2, true, key, None);
            var table := [parent, other];
            && Parent(table, edit) == Some(parent)
            && ParentIn(Query(table, {key}, {1, 2}), edit) == None
            && !OneOwnerPerKey(table)
  {
    var edit, parent, other := Job(1, 1, false, key, None), Job(2, 1, false, "older", Some(key)), Job(3, 2, true, key, None);
    var table := [parent, other];
    assert table[1..] == [other] && [other][1..] == [];
    assert Query([other], {key}, {1, 2}) == [other] && Query([other], {key}, {1}) == [];
    assert Query(table, {key}, {1, 2}) == table && Query(table, {key}, {1}) == [parent];
    assert table[..1] == [parent] && [parent][..0] == [];
    assert UploadsOf([parent]) == map[] && OutputsOf([parent]) == map[key := parent];
    assert UploadsOf(table) == map[key := other];
    assert Carries(table[0], key) && Carries(table[1], key);
  }
}
