// The event outbox: payloads are staged as numbered files, then projected into a
// CSV log once each, by event and idempotency key.  An append is not torn.
module Outbox {
  import opened Common
  import opened Ordering

  // Event and key are the stripped texts of the entry.
  datatype Ident = Ident(log: string, event: string, key: string)

  datatype Payload = Payload(log: string, event: string, key: string, details: string, stamp: string)

  datatype Row = Row(id: Ident, details: string, stamp: string)

  datatype File = File(number: int, payload: Payload)

  function IdOf(p: Payload): Ident { Ident(p.log, Strip(p.event), Strip(p.key)) }

  function RowOf(p: Payload): Row { Row(IdOf(p), p.details, p.stamp) }

  predicate Keyed(p: Payload) { Strip(p.event) != "" && Strip(p.key) != "" }

  // ------------------------------------------------------------ the projection

  predicate Has(csv: seq<Row>, id: Ident) {
    exists i :: 0 <= i < |csv| && csv[i].id == id
  }

  // A row with the same identity and the same details.
  predicate Covers(csv: seq<Row>, p: Payload) {
    exists i :: 0 <= i < |csv| && csv[i].id == IdOf(p) && csv[i].details == p.details
  }

  function Extend(csv: seq<Row>, ps: seq<Payload>): seq<Row> {
    if ps == [] then csv
    else
      var before := Extend(csv, ps[..|ps| - 1]);
      if Has(before, IdOf(ps[|ps| - 1])) then before else before + [RowOf(ps[|ps| - 1])]
  }

  ghost predicate Unique(csv: seq<Row>) {
    forall i, j | 0 <= i < j < |csv| :: csv[i].id != csv[j].id
  }

  // Reference: which payloads leave a row, decided without a log.
  predicate First(csv: seq<Row>, ps: seq<Payload>, n: nat)
    requires n < |ps|
  {
    !Has(csv, IdOf(ps[n])) && forall m | 0 <= m < n :: IdOf(ps[m]) != IdOf(ps[n])
  }

  function Firsts(csv: seq<Row>, ps: seq<Payload>, n: nat): seq<Row>
    requires n <= |ps|
  {
    if n == 0 then []
    else Firsts(csv, ps, n - 1) + (if First(csv, ps, n - 1) then [RowOf(ps[n - 1])] else [])
  }

  ghost predicate Among(ps: seq<Payload>, id: Ident) {
    exists m :: 0 <= m < |ps| && IdOf(ps[m]) == id
  }

  lemma HasMore(csv: seq<Row>, row: Row, id: Ident)
    ensures Has(csv + [row], id) <==> Has(csv, id) || row.id == id
  {
    if Has(csv, id) {
      var i :| 0 <= i < |csv| && csv[i].id == id;
      assert (csv + [row])[i].id == id;
    }
    if row.id == id {
      assert (csv + [row])[|csv|].id == id;
    }
  }

  lemma AmongMore(ps: seq<Payload>, id: Ident)
    requires ps != []
    ensures Among(ps, id) <==> Among(ps[..|ps| - 1], id) || IdOf(ps[|ps| - 1]) == id
  {
    var n := |ps| - 1;
    if Among(ps[..n], id) {
      var m :| 0 <= m < n && IdOf(ps[..n][m]) == id;
      assert IdOf(ps[m]) == id;
    }
    if Among(ps, id) && IdOf(ps[n]) != id {
      var m :| 0 <= m < |ps| && IdOf(ps[m]) == id;
      assert IdOf(ps[..n][m]) == id;
    }
  }

  lemma {:induction false} ExtendHas(csv: seq<Row>, ps: seq<Payload>, id: Ident)
    ensures Has(Extend(csv, ps), id) <==> Has(csv, id) || Among(ps, id)
  {
    if ps != [] {
      var n := |ps| - 1;
      ExtendHas(csv, ps[..n], id);
      AmongMore(ps, id);
      HasMore(Extend(csv, ps[..n]), RowOf(ps[n]), id);
    }
  }

  // A payload is first exactly when the projection so far lacks its identity.
  lemma FirstIsNew(csv: seq<Row>, ps: seq<Payload>, n: nat)
    requires n < |ps|
    ensures First(csv, ps, n) <==> !Has(Extend(csv, ps[..n]), IdOf(ps[n]))
  {
    ExtendHas(csv, ps[..n], IdOf(ps[n]));
    if Among(ps[..n], IdOf(ps[n])) {
      var m :| 0 <= m < n && IdOf(ps[..n][m]) == IdOf(ps[n]);
      assert IdOf(ps[m]) == IdOf(ps[n]);
    } else {
      assert forall m | 0 <= m < n :: IdOf(ps[..n][m]) != IdOf(ps[n]);
    }
  }

  // The incremental projection yields exactly the first payload of each new
  // identity, in staging order.
  lemma {:induction false} ProjectsFirstsInOrder(csv: seq<Row>, ps: seq<Payload>)
    ensures Extend(csv, ps) == csv + Firsts(csv, ps, |ps|)
  {
    if ps != [] {
      var n := |ps| - 1;
      ProjectsFirstsInOrder(csv, ps[..n]);
      FirstsPrefix(csv, ps, n, n);
      FirstIsNew(csv, ps, n);
      var firsts := Firsts(csv, ps, n);
      assert Extend(csv, ps[..n]) == csv + firsts;
      assert csv + firsts + [RowOf(ps[n])] == csv + (firsts + [RowOf(ps[n])]);
    }
  }

  lemma {:induction false} FirstsPrefix(csv: seq<Row>, ps: seq<Payload>, n: nat, k: nat)
    requires k <= n <= |ps|
    ensures Firsts(csv, ps[..n], k) == Firsts(csv, ps, k)
  {
    if k > 0 {
      FirstsPrefix(csv, ps, n, k - 1);
    }
  }

  lemma {:induction false} ExtendUnique(csv: seq<Row>, ps: seq<Payload>)
    requires Unique(csv)
    ensures Unique(Extend(csv, ps))
  {
    if ps != [] {
      ExtendUnique(csv, ps[..|ps| - 1]);
    }
  }

  lemma ExtendMore(csv: seq<Row>, ps: seq<Payload>, p: Payload)
    ensures Extend(csv, ps + [p]) == Extend(Extend(csv, ps), [p])
  {
  }

  lemma CoversMore(csv: seq<Row>, p: Payload, row: Row)
    requires Covers(csv, p)
    ensures Covers(csv + [row], p)
  {
    var i :| 0 <= i < |csv| && csv[i].id == IdOf(p) && csv[i].details == p.details;
    assert (csv + [row])[i] == csv[i];
  }

  // ------------------------------------------------------------ staged files

  function Payloads(files: seq<File>): (r: seq<Payload>)
    ensures |r| == |files|
    ensures forall i | 0 <= i < |files| :: r[i] == files[i].payload
  {
    seq(|files|, i requires 0 <= i < |files| => files[i].payload)
  }

  ghost predicate Ascends(files: seq<File>) {
    forall i, j | 0 <= i < j < |files| :: files[i].number < files[j].number
  }

  datatype Drained = AllProjected | Refused | Faulted

  // What fails during a call: the write or projection number `at` raises;
  // `reached` says whether its effect was in place by then.
  datatype Fault = NoFault | FaultAt(at: nat, reached: bool)

  predicate Strikes(f: Fault, n: nat) { f.FaultAt? && f.at == n }

  lemma HeadMoves(done: seq<Payload>, files: seq<File>)
    requires files != []
    ensures done + Payloads(files) == (done + [files[0].payload]) + Payloads(files[1..])
  {
  }

  class EventOutbox {
    var unstaged: seq<Payload>
    var sequence: int
    var staged: seq<File>
    var csv: seq<Row>

    ghost const base: seq<Row>      // the log before the outbox
    ghost var written: seq<Payload> // every staged file ever written, in order
    ghost var done: seq<Payload>    // those whose file was deleted
    ghost var returned: seq<Payload> // entries whose stage call returned

    // Where the projection stands: after the deleted files, or one row further
    // when the head file is projected and not deleted yet.
    ghost predicate Projected()
      reads this
    {
      || csv == Extend(base, done)
      || (staged != [] && csv == Extend(base, done + [staged[0].payload]) && Covers(csv, staged[0].payload))
    }

    ghost predicate Valid()
      reads this
    {
      && Ascends(staged) && (forall i | 0 <= i < |staged| :: staged[i].number <= sequence)
      && written == done + Payloads(staged)
      && Unique(base) && Projected()
      && (forall p | p in done :: Covers(csv, p))
      && (forall p | p in returned :: p in written)
    }

    constructor (log: seq<Row>)
      requires Unique(log)
      ensures Valid() && csv == base == log && staged == [] && unstaged == [] && written == [] && returned == []
    {
      unstaged, sequence, staged, csv := [], 0, [], log;
      base, written, done, returned := log, [], [], [];
    }

    // A payload stays in memory until its file is written; a write that raises
    // after the file is in place leaves both.
    method PersistUnstaged(clock: nat -> int, fault: Fault) returns (ok: bool)
      requires Valid()
      modifies this
      ensures Valid() && csv == old(csv) && done == old(done) && returned == old(returned)
      ensures ok == !(fault.FaultAt? && fault.at < |old(unstaged)|)
      ensures var n := if ok then |old(unstaged)| else fault.at;
              && unstaged == old(unstaged)[n..]
              && written == old(written) + old(unstaged)[..n] + (if !ok && fault.reached then [old(unstaged)[n]] else [])
    {
      var n := 0;
      ghost var all := unstaged;
      while unstaged != []
        invariant n <= |all| && unstaged == all[n..]
        invariant fault.FaultAt? ==> n <= fault.at || |all| <= fault.at
        invariant Valid() && csv == old(csv) && done == old(done) && returned == old(returned)
        invariant written == old(written) + all[..n]
        decreases |unstaged|
      {
        ok := PersistHead(clock(n), Strikes(fault, n), fault.FaultAt? && fault.reached);
        if !ok {
          return false;
        }
        assert all[..n + 1] == all[..n] + [all[n]];
        n := n + 1;
      }
      return true;
    }

    // One payload: number, file, then out of memory.
    method PersistHead(now: int, strikes: bool, reached: bool) returns (ok: bool)
      requires Valid() && unstaged != []
      modifies this
      ensures Valid() && csv == old(csv) && done == old(done) && returned == old(returned) && ok == !strikes
      ensures unstaged == if ok then old(unstaged)[1..] else old(unstaged)
      ensures written == if ok || reached then old(written) + [old(unstaged)[0]] else old(written)
    {
      TakeNumber(now);
      if strikes && !reached {
        return false;
      }
      WriteFile(unstaged[0]);
      if strikes {
        return false;
      }
      unstaged := unstaged[1..];
      return true;
    }

    method TakeNumber(now: int)
      requires Valid()
      modifies this`sequence
      ensures Valid() && sequence >= now && sequence > old(sequence)
      ensures forall i | 0 <= i < |staged| :: staged[i].number < sequence
    {
      sequence := if sequence + 1 > now then sequence + 1 else now;
    }

    // One atomic file write under a number above every staged one.
    method WriteFile(p: Payload)
      requires Valid() && forall i | 0 <= i < |staged| :: staged[i].number < sequence
      modifies this`staged, this`written
      ensures Valid() && written == old(written) + [p]
      ensures staged == old(staged) + [File(sequence, p)]
    {
      staged := staged + [File(sequence, p)];
      written := written + [p];
      assert Payloads(staged) == Payloads(old(staged)) + [p];
      assert old(staged) != [] ==> staged[0] == old(staged[0]);
    }

    method Stage(p: Payload, clock: nat -> int, fault: Fault) returns (ok: bool)
      requires Valid()
      modifies this
      ensures Valid() && csv == old(csv)
      ensures ok ==> unstaged == [] && returned == old(returned) + [p] && p in written
      ensures !ok ==> p in unstaged
    {
      unstaged := unstaged + [p];
      ghost var all := unstaged;
      ok := PersistUnstaged(clock, fault);
      if ok {
        assert all[..|all|] == all;
        assert p == all[|all| - 1];
        returned := returned + [p];
      } else {
        assert unstaged[|unstaged| - 1] == p;
      }
    }

    // Append the row unless its identity is there; refuse other details under the
    // same identity.
    method AppendIdempotent(p: Payload) returns (ok: bool)
      requires Valid() && staged != [] && p == staged[0].payload
      modifies this`csv
      ensures ok == (Keyed(p) && (Has(old(csv), IdOf(p)) ==> Covers(old(csv), p)))
      ensures csv == if ok then Extend(old(csv), [p]) else old(csv)
      ensures Valid() && (ok ==> Covers(csv, p) && csv == Extend(base, done + [p]))
    {
      if !Keyed(p) || (Has(csv, IdOf(p)) && !Covers(csv, p)) {
        return false;
      }
      ExtendMore(base, done, p);
      ExtendTwice(csv, p);
      assert [p][..0] == [];
      if !Has(csv, IdOf(p)) {
        forall q | q in done
          ensures Covers(csv + [RowOf(p)], q)
        {
          CoversMore(csv, q, RowOf(p));
        }
        csv := csv + [RowOf(p)];
        assert csv[|csv| - 1].id == IdOf(p) && csv[|csv| - 1].details == p.details;
      }
      return true;
    }

    // Project the staged files in order, deleting each after its row is there.
    method Drain(clock: nat -> int, stageFault: Fault, fault: Fault) returns (r: Drained)
      requires Valid()
      modifies this
      ensures Valid() && returned == old(returned)
      ensures r.AllProjected? ==> staged == [] && unstaged == [] && csv == Extend(base, written)
      ensures r.AllProjected? ==> forall p | p in returned :: Covers(csv, p)
      ensures r.Refused? ==> staged != [] && !(Keyed(staged[0].payload) && (Has(csv, IdOf(staged[0].payload)) ==> Covers(csv, staged[0].payload)))
    {
      var ok := PersistUnstaged(clock, stageFault);
      if !ok {
        return Faulted;
      }
      var n := 0;
      while staged != []
        invariant Valid() && returned == old(returned) && unstaged == []
        decreases |staged|
      {
        if Strikes(fault, n) && !fault.reached {
          return Faulted;
        }
        var appended := AppendIdempotent(staged[0].payload);
        if !appended {
          return Refused;
        }
        if Strikes(fault, n) {
          return Faulted;
        }
        DeleteHead();
        n := n + 1;
      }
      assert written == done;
      return AllProjected;
    }

    // Unlink the head file; only reached with its row in the log.
    method DeleteHead()
      requires Valid() && staged != [] && Covers(csv, staged[0].payload) && csv == Extend(base, done + [staged[0].payload])
      modifies this`staged, this`done
      ensures Valid() && staged == old(staged)[1..] && done == old(done) + [old(staged)[0].payload]
    {
      HeadMoves(done, staged);
      done := done + [staged[0].payload];
      staged := staged[1..];
    }

    // A new process: memory is lost, the number restarts from the files left.
    method Restart()
      requires Valid()
      modifies this
      ensures Valid() && unstaged == [] && staged == old(staged) && csv == old(csv)
      ensures written == old(written) && returned == old(returned)
      ensures staged == [] ==> sequence == 0
      ensures staged != [] ==> sequence == staged[|staged| - 1].number
    {
      unstaged := [];
      sequence := if staged == [] then 0 else staged[|staged| - 1].number;
    }
  }

  // At any point of any run: one row per identity, and every entry whose stage
  // call returned is still staged or has its row.
  lemma OutboxGuarantee(o: EventOutbox, p: Payload)
    requires o.Valid()
    ensures Unique(o.csv)
    ensures p in o.returned ==> p in Payloads(o.staged) || Covers(o.csv, p)
  {
    ExtendUnique(o.base, o.done);
    if o.staged != [] {
      ExtendUnique(o.base, o.done + [o.staged[0].payload]);
    }
  }

  lemma ExtendOne(csv: seq<Row>, p: Payload)
    ensures Extend(csv, [p]) == if Has(csv, IdOf(p)) then csv else csv + [RowOf(p)]
  {
  }

  lemma ExtendTwice(csv: seq<Row>, p: Payload)
    ensures Extend(Extend(csv, [p]), [p]) == Extend(csv, [p])
  {
    ExtendOne(csv, p);
    ExtendOne(Extend(csv, [p]), p);
    if !Has(csv, IdOf(p)) {
      assert (csv + [RowOf(p)])[|csv|].id == IdOf(p);
    }
  }
}
