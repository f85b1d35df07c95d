// Enqueueing a source file: dedupe, conflict, spool copy and the ambiguous
// commit.  A digest stands for the bytes it was computed from.
module RelayEnqueue {
  import opened Common
  import opened Receipts

  type RelayId = string
  type Bytes = string

  // The fields that identify a source; all are compared after normalisation, and
  // rows are looked up by the exact relative path first.
  datatype SourceId = SourceId(installId: string, hostId: string, relativePath: string)

  // The fingerprinted metadata of a queued file.
  datatype Meta = Meta(source: SourceId, manifestHash: string, idempotencyKey: string, rowCount: nat, content: Bytes)

  // A queue row: its metadata column may be unreadable, its content column is
  // kept beside it.
  datatype Entry = Entry(id: RelayId, relativePath: string, content: Bytes, meta: Option<Meta>, status: Status)

  datatype EnqueueError = Conflict | ContentChanged | RepairMismatch | CommitFailed

  // How the commit of the insert ends, and whether the recovery read succeeds.
  datatype Commit = Durable | RaisedAfterCommit | RaisedBeforeCommit

  predicate SameSource(e: Entry, m: Meta) {
    e.relativePath == m.source.relativePath && e.meta.Some? && e.meta.value.source == m.source
  }

  predicate Conflicts(e: Entry, m: Meta) {
    SameSource(e, m) && e.meta != Some(m)
  }

  predicate Duplicates(e: Entry, m: Meta) {
    e.relativePath == m.source.relativePath && e.content == m.content && e.meta == Some(m)
  }

  // The row columns repeat what its metadata says.
  predicate ColumnsAgree(e: Entry) {
    e.meta.Some? ==> e.relativePath == e.meta.value.source.relativePath && e.content == e.meta.value.content
  }

  ghost predicate OneRowPerSource(entries: seq<Entry>) {
    forall i, j | 0 <= i < j < |entries| && entries[i].meta.Some? && entries[j].meta.Some? ::
      entries[i].meta.value.source != entries[j].meta.value.source
  }

  // What enqueueing a file without a row answers: the source must still hold what was
  // measured, and a commit that raised counts only when a row is found behind it.
  function NewAnswer(id: RelayId, m: Meta, sourceNow: Bytes, commit: Commit, recoveryReadable: bool): Result<RelayId, EnqueueError> {
    if sourceNow != m.content then Err(ContentChanged)
    else if commit.Durable? || (commit.RaisedAfterCommit? && recoveryReadable) then Ok(id)
    else Err(CommitFailed)
  }

  class RelaySpool {
    var entries: seq<Entry>
    var files: map<RelayId, Bytes>

    // Rows have distinct ids and honest columns, one row stands for a source,
    // and every row still has a spool file.
    ghost predicate Valid()
      reads this
    {
      && (forall i, j | 0 <= i < j < |entries| :: entries[i].id != entries[j].id)
      && (forall i | 0 <= i < |entries| :: ColumnsAgree(entries[i]) && entries[i].id in files)
      && OneRowPerSource(entries)
    }

    constructor ()
      ensures Valid() && entries == []
    {
      entries, files := [], map[];
    }

    method FindConflicting(m: Meta) returns (found: bool)
      ensures found <==> exists e :: e in entries && Conflicts(e, m)
    {
      var i := 0;
      while i < |entries|
        invariant i <= |entries|
        invariant forall k | 0 <= k < i :: !Conflicts(entries[k], m)
      {
        if Conflicts(entries[i], m) {
          assert entries[i] in entries;
          return true;
        }
        i := i + 1;
      }
      return false;
    }

    method FindExisting(m: Meta) returns (index: Option<nat>)
      ensures index.Some? ==> index.value < |entries| && Duplicates(entries[index.value], m)
      ensures index.None? ==> forall k | 0 <= k < |entries| :: !Duplicates(entries[k], m)
    {
      var i := 0;
      while i < |entries|
        invariant i <= |entries|
        invariant forall k | 0 <= k < i :: !Duplicates(entries[k], m)
      {
        if Duplicates(entries[i], m) {
          return Some(i);
        }
        i := i + 1;
      }
      return None;
    }

    method HasRow(id: RelayId) returns (found: bool)
      ensures found <==> exists k :: 0 <= k < |entries| && entries[k].id == id
    {
      found := false;
      var i := 0;
      while i < |entries|
        invariant i <= |entries|
        invariant found <==> exists k :: 0 <= k < i && entries[k].id == id
      {
        if entries[i].id == id {
          found := true;
        }
        i := i + 1;
      }
    }

    // A duplicate of a waiting row repairs that row's spool copy when it is bad.
    method ReuseExisting(index: nat, sourceNow: Bytes) returns (r: Result<RelayId, EnqueueError>)
      requires Valid() && index < |entries|
      modifies this`files
      ensures Valid() && files.Keys == old(files).Keys
      ensures forall k | k in old(files) && files[k] != old(files)[k] ::
                k == entries[index].id && files[k] == sourceNow && old(files)[k] != entries[index].content && Claimable(entries[index].status)
      ensures r.Ok? ==> r.value == entries[index].id && (Claimable(entries[index].status) ==> files[r.value] == entries[index].content)
      ensures r.Err? ==> r.error == RepairMismatch
      ensures r.Err? <==> Claimable(entries[index].status) && old(files)[entries[index].id] != entries[index].content
                          && sourceNow != entries[index].content
    {
      var e := entries[index];
      if Claimable(e.status) && files[e.id] != e.content {
        files := files[e.id := sourceNow];
        if sourceNow != e.content {
          return Err(RepairMismatch);
        }
      }
      return Ok(e.id);
    }

    // Only the copy of one row changed, and that one was bad.
    lemma GoodCopiesSurvive(before: map<RelayId, Bytes>, index: nat)
      requires Valid() && index < |entries| && before.Keys == files.Keys
      requires forall k | k in before && files[k] != before[k] :: k == entries[index].id && before[k] != entries[index].content
      ensures forall e | e in entries && before[e.id] == e.content :: e.id in files && files[e.id] == e.content
    {
    }

    // A source none of whose rows conflicts or duplicates has no row.
    lemma SourceIsNew(m: Meta)
      requires Valid() && (forall e | e in entries :: !Conflicts(e, m)) && forall k | 0 <= k < |entries| :: !Duplicates(entries[k], m)
      ensures forall k | 0 <= k < |entries| && entries[k].meta.Some? :: entries[k].meta.value.source != m.source
    {
      forall k | 0 <= k < |entries| && entries[k].meta.Some?
        ensures entries[k].meta.value.source != m.source
      {
        assert entries[k] in entries;
      }
    }

    // One enqueue with dedupe on.  `sourceNow` is what the source file holds when
    // it is copied; it may differ from what the plan measured.
    method Enqueue(id: RelayId, m: Meta, sourceNow: Bytes, commit: Commit, recoveryReadable: bool)
      returns (r: Result<RelayId, EnqueueError>)
      requires Valid() && (forall e | e in entries :: e.id != id) && id !in files
      modifies this
      ensures Valid()
      // a differing fingerprint is refused without change
      ensures old(exists e :: e in entries && Conflicts(e, m)) ==>
                r == Err(Conflict) && entries == old(entries) && files == old(files)
      ensures r == Err(Conflict) <==>
                old(exists e :: e in entries && e.meta.Some? && e.meta.value.source == m.source && e.meta.value != m)
      // rows only grow, by at most this one, and only with their bytes on the spool
      ensures entries == old(entries) || entries == old(entries) + [Entry(id, m.source.relativePath, m.content, Some(m), Pending)]
      ensures |entries| > |old(entries)| ==> id in files && files[id] == m.content
      // no spool copy goes, a good copy of any row survives, and at most one is rewritten
      ensures old(files).Keys <= files.Keys
      ensures forall e | e in old(entries) && old(files)[e.id] == e.content :: e.id in files && files[e.id] == e.content
      ensures forall j, k | j in old(files) && k in old(files) && files[j] != old(files)[j] && files[k] != old(files)[k] :: j == k
      // success means a row stands for the source
      ensures r.Ok? ==> exists e :: e in entries && e.id == r.value && e.meta == Some(m)
      ensures commit == RaisedBeforeCommit ==> entries == old(entries)
      // the answer: a new file is queued, a queued one is reused
      ensures old((forall e | e in entries :: !Conflicts(e, m)) && forall e | e in entries :: !Duplicates(e, m)) ==>
                r == NewAnswer(id, m, sourceNow, commit, recoveryReadable)
      ensures old((forall e | e in entries :: !Conflicts(e, m)) && exists e :: e in entries && Duplicates(e, m)) ==>
                entries == old(entries) && (sourceNow == m.content ==> r.Ok?) && (r.Err? ==> r.error == RepairMismatch)
    {
      var conflict := FindConflicting(m);
      if conflict {
        return Err(Conflict);
      }
      var existing := FindExisting(m);
      if existing.Some? {
        ghost var before := files;
        r := ReuseExisting(existing.value, sourceNow);
        GoodCopiesSurvive(before, existing.value);
        assert entries[existing.value] in entries;
      } else {
        r := EnqueueNew(id, m, sourceNow, commit, recoveryReadable);
      }
    }

    // A file with no row yet: copy it, insert the row, and find out what an
    // ambiguous commit did before touching the copy.
    method EnqueueNew(id: RelayId, m: Meta, sourceNow: Bytes, commit: Commit, recoveryReadable: bool)
      returns (r: Result<RelayId, EnqueueError>)
      requires Valid() && (forall e | e in entries :: e.id != id) && id !in files
      requires (forall e | e in entries :: !Conflicts(e, m)) && forall k | 0 <= k < |entries| :: !Duplicates(entries[k], m)
      modifies this
      ensures Valid()
      ensures var row := Entry(id, m.source.relativePath, m.content, Some(m), Pending);
              entries == if sourceNow == m.content && commit != RaisedBeforeCommit then old(entries) + [row] else old(entries)
      ensures |entries| > |old(entries)| ==> id in files && files[id] == m.content
      ensures forall k | k in old(files) :: k in files && files[k] == old(files)[k]
      ensures files.Keys <= old(files).Keys + {id}
      ensures r == NewAnswer(id, m, sourceNow, commit, recoveryReadable)
      ensures r.Ok? ==> |entries| > |old(entries)|
      // the copy goes exactly when no row can stand for it
      ensures id in files <==> sourceNow == m.content && (commit != RaisedBeforeCommit || !recoveryReadable)
    {
      SourceIsNew(m);
      files := files[id := sourceNow];
      if sourceNow != m.content {
        files := files - {id};
        return Err(ContentChanged);
      }
      var row := Entry(id, m.source.relativePath, m.content, Some(m), Pending);
      if commit != RaisedBeforeCommit {
        entries := entries + [row];
        assert entries[|entries| - 1].id == id;
      }
      if commit == Durable {
        return Ok(id);
      }
      if recoveryReadable {
        var committed := HasRow(id);
        if committed {
          return Ok(id);
        }
        files := files - {id};
      }
      return Err(CommitFailed);
    }
  }
}
