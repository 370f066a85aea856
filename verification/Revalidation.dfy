/**
 FCR revalidation (`fcr_checker.rs`): one lookup and one bulk update per distinct pending block,
 against the plain rule that looks at every row by itself.
 */
module Revalidation {
  import opened Prelude
  import opened EventLogs
  import opened SafeBlocks

  datatype Verdict = Survived | ReorgedOut(canonical: Hash) | Unavailable

  /** `verdict_for`: a failed lookup and a missing block are the same non-verdict. */
  function VerdictFor(lookup: Result<Option<Hash>, LookupError>, block: PendingBlock): Verdict {
    match lookup
    case Err(_) => Unavailable
    case Ok(None) => Unavailable
    case Ok(Some(canonical)) =>
      if EqIgnoreCase(canonical, block.hash) then Survived else ReorgedOut(canonical)
  }

  /** The outcome of one database write per verdict. */
  function TableWith(t: Table, net: Net, block: PendingBlock, v: Verdict): (t': Table)
    ensures |t'| == |t|
  {
    match v
    case Survived => SetStatus(t, net, block, Confirmed)
    case ReorgedOut(_) => SetStatus(t, net, block, Reverted)
    case Unavailable => t
  }

  function AuditWith(t: Table, net: Net, block: PendingBlock, v: Verdict, finalized: int): seq<AuditRow> {
    match v
    case ReorgedOut(canonical) => AuditRows(t, net, block, canonical, finalized)
    case _ => []
  }

  // ----- the listing of pending blocks -----

  ghost predicate ListedBlock(t: Table, net: Net, finalized: int, b: PendingBlock) {
    exists i :: 0 <= i < |t| && Adjudicable(t[i], net, finalized) && BlockOf(t[i].row) == b
  }

  /** SELECT DISTINCT block_number, block_hash ... ORDER BY block_number ASC. */
  ghost predicate IsListing(t: Table, net: Net, finalized: int, todo: seq<PendingBlock>) {
    (forall i, j :: 0 <= i < j < |todo| ==> todo[i] != todo[j] && todo[i].number <= todo[j].number) &&
    (forall b :: b in todo <==> ListedBlock(t, net, finalized, b))
  }

  function InsertSorted(bs: seq<PendingBlock>, b: PendingBlock): seq<PendingBlock> {
    if bs == [] then [b]
    else if bs[0] == b then bs
    else if bs[0].number <= b.number then [bs[0]] + InsertSorted(bs[1..], b)
    else [b] + bs
  }

  predicate Ordered(bs: seq<PendingBlock>) {
    forall i, j :: 0 <= i < j < |bs| ==> bs[i] != bs[j] && bs[i].number <= bs[j].number
  }

  lemma OrderedCons(b: PendingBlock, bs: seq<PendingBlock>)
    requires Ordered(bs) && forall x :: x in bs ==> x != b && b.number <= x.number
    ensures Ordered([b] + bs)
  {
    var all := [b] + bs;
    forall i, j | 0 <= i < j < |all| ensures all[i] != all[j] && all[i].number <= all[j].number {
      assert all[j] == bs[j - 1] && bs[j - 1] in bs;
      if i > 0 { assert all[i] == bs[i - 1]; }
    }
  }

  lemma {:induction false} InsertSortedKeeps(bs: seq<PendingBlock>, b: PendingBlock)
    requires Ordered(bs)
    ensures Ordered(InsertSorted(bs, b))
    ensures forall x :: x in InsertSorted(bs, b) <==> x in bs || x == b
  {
    if bs == [] {
    } else if bs[0] != b && bs[0].number <= b.number {
      InsertSortedKeeps(bs[1..], b);
      assert bs == [bs[0]] + bs[1..];
      OrderedCons(bs[0], InsertSorted(bs[1..], b)) by {
        assert forall x :: x in bs[1..] ==> x != bs[0] && bs[0].number <= x.number;
      }
    }
  }

  function ListBlocks(t: Table, n: nat, net: Net, finalized: int): seq<PendingBlock>
    requires n <= |t|
  {
    if n == 0 then [] else
      var bs := ListBlocks(t, n - 1, net, finalized);
      if Adjudicable(t[n - 1], net, finalized) then InsertSorted(bs, BlockOf(t[n - 1].row)) else bs
  }

  lemma {:induction false} ListBlocksLists(t: Table, n: nat, net: Net, finalized: int)
    requires n <= |t|
    ensures Ordered(ListBlocks(t, n, net, finalized))
    ensures forall b :: b in ListBlocks(t, n, net, finalized) <==>
              exists i :: 0 <= i < n && Adjudicable(t[i], net, finalized) && BlockOf(t[i].row) == b
  {
    if n == 0 {
    } else {
      ListBlocksLists(t, n - 1, net, finalized);
      if Adjudicable(t[n - 1], net, finalized) {
        InsertSortedKeeps(ListBlocks(t, n - 1, net, finalized), BlockOf(t[n - 1].row));
      }
    }
  }

  /** `pending_blocks` returns a listing, so one exists for every table. */
  function PendingBlocks(t: Table, net: Net, finalized: int): (todo: seq<PendingBlock>)
    ensures IsListing(t, net, finalized, todo)
  {
    ListBlocksLists(t, |t|, net, finalized);
    ListBlocks(t, |t|, net, finalized)
  }

  // ----- batched against row by row -----

  type Lookup = int -> Result<Option<Hash>, LookupError>

  function Lookups(answers: int -> seq<HashAnswer>): Lookup { n => CanonicalHash(answers(n)) }

  /** The reference: look at one row by itself. */
  function Adjudicate(s: Slot, net: Net, finalized: int, lookup: Lookup): Slot {
    if !Adjudicable(s, net, finalized) then s else
      match VerdictFor(lookup(s.row.blockNumber.value), BlockOf(s.row))
      case Survived => s.(row := s.row.(fcr := Some(Confirmed)))
      case ReorgedOut(_) => s.(row := s.row.(fcr := Some(Reverted)))
      case Unavailable => s
  }

  /** Exactly the rows of the first `k` listed blocks have been adjudicated; every other row is as it was. */
  ghost predicate Processed(t0: Table, t: Table, net: Net, finalized: int, todo: seq<PendingBlock>, k: nat, lookup: Lookup)
    requires k <= |todo|
  {
    |t| == |t0| &&
    forall i :: 0 <= i < |t0| ==>
      t[i] == if Adjudicable(t0[i], net, finalized) && BlockOf(t0[i].row) in todo[..k]
              then Adjudicate(t0[i], net, finalized, lookup) else t0[i]
  }

  lemma OneMoreBlock(t0: Table, t: Table, net: Net, finalized: int, todo: seq<PendingBlock>, k: nat, lookup: Lookup)
    requires IsListing(t0, net, finalized, todo) && k < |todo|
    requires Processed(t0, t, net, finalized, todo, k, lookup)
    ensures Processed(t0, TableWith(t, net, todo[k], VerdictFor(lookup(todo[k].number), todo[k])),
                      net, finalized, todo, k + 1, lookup)
  {
    assert todo[..k + 1] == todo[..k] + [todo[k]];
    assert todo[k] in todo && todo[k] !in todo[..k];
    assert ListedBlock(t0, net, finalized, todo[k]);
    forall i | 0 <= i < |t0| ensures Affected(t[i], net, todo[k]) <==>
        Adjudicable(t0[i], net, finalized) && BlockOf(t0[i].row) == todo[k]
    {
    }
  }

  /** When every listed block has been processed, each row has been adjudicated as if alone. */
  lemma BatchRefinesPerRow(t0: Table, t: Table, net: Net, finalized: int, todo: seq<PendingBlock>, lookup: Lookup)
    requires IsListing(t0, net, finalized, todo)
    requires Processed(t0, t, net, finalized, todo, |todo|, lookup)
    ensures |t| == |t0| && forall i :: 0 <= i < |t0| ==> t[i] == Adjudicate(t0[i], net, finalized, lookup)
  {
    assert todo[..|todo|] == todo;
    forall i | 0 <= i < |t0| ensures t[i] == Adjudicate(t0[i], net, finalized, lookup) {
      if Adjudicable(t0[i], net, finalized) {
        assert ListedBlock(t0, net, finalized, BlockOf(t0[i].row));
      }
    }
  }

  /** A row a cycle should have decided: of this chain, numbered at or below the finalized block, hashed, and still pending. */
  predicate LeftPending(s: Slot, net: Net, finalized: int) {
    && s.live && s.row.fcr == Some(Pending) && s.row.blockHash.Some? && s.row.blockNumber.Some? && s.row.blockNumber.value <= finalized
    && (if net == Eth then s.row.mode == AmbEth || s.row.mode == XdaiEth else s.row.mode == AmbGc || s.row.mode == XdaiGc)
  }

  /** Row by row, what is left pending is what no provider had a hash for. */
  lemma NothingElseLeft(t0: Table, t: Table, net: Net, finalized: int, answers: int -> seq<HashAnswer>)
    requires |t| == |t0| && forall i :: 0 <= i < |t0| ==> t[i] == Adjudicate(t0[i], net, finalized, Lookups(answers))
    ensures forall i :: 0 <= i < |t| && LeftPending(t[i], net, finalized) ==>
              forall a :: a in answers(t[i].row.blockNumber.value) ==> !a.HashOf?
  {
    forall i | 0 <= i < |t| && LeftPending(t[i], net, finalized)
      ensures forall a :: a in answers(t[i].row.blockNumber.value) ==> !a.HashOf?
    {
      assert t[i] == Adjudicate(t0[i], net, finalized, Lookups(answers));
      CanonicalMeaning(answers(t[i].row.blockNumber.value));
    }
  }

  /** The audit rows written so far: one per row that went from pending to reverted, with that row's data. */
  ghost predicate AuditedBy(t0: Table, rows: seq<AuditRow>, net: Net, finalized: int, done: seq<PendingBlock>, lookup: Lookup) {
    && DistinctRows(rows)
    && (forall a :: a in rows ==> ReversalOf(t0, a, net, finalized, done, lookup))
    && (forall i :: 0 <= i < |t0| && Reverses(t0[i], net, finalized, done, lookup) ==> Mentions(rows, i))
  }

  ghost predicate DistinctRows(rows: seq<AuditRow>) {
    forall a, b :: 0 <= a < b < |rows| ==> rows[a].logId != rows[b].logId
  }

  ghost predicate Mentions(rows: seq<AuditRow>, id: nat) {
    exists a :: a in rows && a.logId == id
  }

  /** The row is in one of these blocks and the row-by-row rule reverts it. */
  ghost predicate Reverses(s: Slot, net: Net, finalized: int, done: seq<PendingBlock>, lookup: Lookup) {
    Adjudicable(s, net, finalized) && BlockOf(s.row) in done &&
    Adjudicate(s, net, finalized, lookup).row.fcr == Some(Reverted)
  }

  ghost predicate ReversalOf(t0: Table, a: AuditRow, net: Net, finalized: int, done: seq<PendingBlock>, lookup: Lookup) {
    a.logId < |t0| && Reverses(t0[a.logId], net, finalized, done, lookup) &&
    var r := t0[a.logId].row;
    VerdictFor(lookup(a.number), BlockOf(r)) == ReorgedOut(a.canonicalHash) &&
    a == AuditRowFor(r, a.logId, net, BlockOf(r), a.canonicalHash, finalized)
  }

  /** What one listed block finds: exactly the still untouched rows of that block. */
  lemma BlockFinds(t0: Table, t: Table, net: Net, finalized: int, todo: seq<PendingBlock>, k: nat, lookup: Lookup, i: nat)
    requires IsListing(t0, net, finalized, todo) && k < |todo| && i < |t0|
    requires Processed(t0, t, net, finalized, todo, k, lookup)
    ensures Affected(t[i], net, todo[k]) <==> Adjudicable(t0[i], net, finalized) && BlockOf(t0[i].row) == todo[k]
    ensures Affected(t[i], net, todo[k]) ==> t[i] == t0[i] && BlockOf(t0[i].row) !in todo[..k]
  {
    assert todo[k] in todo && todo[k] !in todo[..k];
    assert ListedBlock(t0, net, finalized, todo[k]);
  }

  lemma NewAuditRow(t0: Table, t: Table, net: Net, finalized: int, todo: seq<PendingBlock>, k: nat, lookup: Lookup, m: nat)
    requires IsListing(t0, net, finalized, todo) && k < |todo|
    requires Processed(t0, t, net, finalized, todo, k, lookup)
    requires m < |AuditWith(t, net, todo[k], VerdictFor(lookup(todo[k].number), todo[k]), finalized)|
    ensures var a := AuditWith(t, net, todo[k], VerdictFor(lookup(todo[k].number), todo[k]), finalized)[m];
            && a.logId == AffectedIds(t, |t|, net, todo[k])[m] && a.logId < |t0|
            && BlockOf(t0[a.logId].row) == todo[k]
            && ReversalOf(t0, a, net, finalized, todo[..k + 1], lookup)
  {
    var id := AffectedIds(t, |t|, net, todo[k])[m];
    BlockFinds(t0, t, net, finalized, todo, k, lookup, id);
    assert todo[..k + 1] == todo[..k] + [todo[k]];
  }

  lemma NewRowIsAudited(t0: Table, t: Table, net: Net, finalized: int, todo: seq<PendingBlock>, k: nat, lookup: Lookup, i: nat)
    requires IsListing(t0, net, finalized, todo) && k < |todo| && i < |t0|
    requires Processed(t0, t, net, finalized, todo, k, lookup)
    requires Reverses(t0[i], net, finalized, todo[..k + 1], lookup) && BlockOf(t0[i].row) == todo[k]
    ensures Mentions(AuditWith(t, net, todo[k], VerdictFor(lookup(todo[k].number), todo[k]), finalized), i)
  {
    BlockFinds(t0, t, net, finalized, todo, k, lookup, i);
    var ids := AffectedIds(t, |t|, net, todo[k]);
    var m :| 0 <= m < |ids| && ids[m] == i;
    NewAuditRow(t0, t, net, finalized, todo, k, lookup, m);
  }

  lemma NewRowsAreNew(t0: Table, t: Table, rows: seq<AuditRow>, net: Net, finalized: int, todo: seq<PendingBlock>,
                      k: nat, lookup: Lookup)
    requires IsListing(t0, net, finalized, todo) && k < |todo|
    requires Processed(t0, t, net, finalized, todo, k, lookup)
    requires DistinctRows(rows) && forall a :: a in rows ==> ReversalOf(t0, a, net, finalized, todo[..k], lookup)
    ensures DistinctRows(rows + AuditWith(t, net, todo[k], VerdictFor(lookup(todo[k].number), todo[k]), finalized))
  {
    var more := AuditWith(t, net, todo[k], VerdictFor(lookup(todo[k].number), todo[k]), finalized);
    var all := rows + more;
    forall a, b | 0 <= a < b < |all| ensures all[a].logId != all[b].logId {
      if b >= |rows| {
        NewAuditRow(t0, t, net, finalized, todo, k, lookup, b - |rows|);
        if a >= |rows| {
          NewAuditRow(t0, t, net, finalized, todo, k, lookup, a - |rows|);
        } else {
          assert rows[a] in rows;
          assert todo[k] !in todo[..k];
        }
      }
    }
  }

  lemma OneMoreAudit(t0: Table, t: Table, rows: seq<AuditRow>, net: Net, finalized: int, todo: seq<PendingBlock>,
                     k: nat, lookup: Lookup)
    requires IsListing(t0, net, finalized, todo) && k < |todo|
    requires Processed(t0, t, net, finalized, todo, k, lookup)
    requires AuditedBy(t0, rows, net, finalized, todo[..k], lookup)
    ensures AuditedBy(t0, rows + AuditWith(t, net, todo[k], VerdictFor(lookup(todo[k].number), todo[k]), finalized),
                      net, finalized, todo[..k + 1], lookup)
  {
    var more := AuditWith(t, net, todo[k], VerdictFor(lookup(todo[k].number), todo[k]), finalized);
    var done := todo[..k + 1];
    assert done == todo[..k] + [todo[k]];
    NewRowsAreNew(t0, t, rows, net, finalized, todo, k, lookup);
    forall a | a in rows + more ensures ReversalOf(t0, a, net, finalized, done, lookup) {
      if a !in rows {
        var m :| 0 <= m < |more| && more[m] == a;
        NewAuditRow(t0, t, net, finalized, todo, k, lookup, m);
      }
    }
    forall i | 0 <= i < |t0| && Reverses(t0[i], net, finalized, done, lookup) ensures Mentions(rows + more, i) {
      if BlockOf(t0[i].row) == todo[k] {
        NewRowIsAudited(t0, t, net, finalized, todo, k, lookup, i);
      } else {
        assert Reverses(t0[i], net, finalized, todo[..k], lookup);
      }
    }
  }

  /** The tables once the first `k` listed blocks have been dealt with. */
  ghost predicate InProgress(t0: Table, audit0: seq<AuditRow>, t: Table, audit: seq<AuditRow>, net: Net, finalized: int,
                             todo: seq<PendingBlock>, k: nat, lookup: Lookup)
  {
    && k <= |todo| && IsListing(t0, net, finalized, todo)
    && Processed(t0, t, net, finalized, todo, k, lookup)
    && audit0 <= audit && AuditedBy(t0, audit[|audit0|..], net, finalized, todo[..k], lookup)
  }

  /** Writing the verdict on one more block. */
  lemma BlockDone(t0: Table, audit0: seq<AuditRow>, t: Table, audit: seq<AuditRow>, net: Net, finalized: int,
                  todo: seq<PendingBlock>, k: nat, lookup: Lookup)
    requires InProgress(t0, audit0, t, audit, net, finalized, todo, k, lookup) && k < |todo|
    ensures var v := VerdictFor(lookup(todo[k].number), todo[k]);
            InProgress(t0, audit0, TableWith(t, net, todo[k], v), audit + AuditWith(t, net, todo[k], v, finalized),
                       net, finalized, todo, k + 1, lookup)
  {
    OneMoreBlock(t0, t, net, finalized, todo, k, lookup);
    AuditDone(t0, audit0, t, audit, net, finalized, todo, k, lookup,
              AuditWith(t, net, todo[k], VerdictFor(lookup(todo[k].number), todo[k]), finalized));
  }

  lemma AuditDone(t0: Table, audit0: seq<AuditRow>, t: Table, audit: seq<AuditRow>, net: Net, finalized: int,
                  todo: seq<PendingBlock>, k: nat, lookup: Lookup, more: seq<AuditRow>)
    requires InProgress(t0, audit0, t, audit, net, finalized, todo, k, lookup) && k < |todo|
    requires more == AuditWith(t, net, todo[k], VerdictFor(lookup(todo[k].number), todo[k]), finalized)
    ensures audit0 <= audit + more && AuditedBy(t0, (audit + more)[|audit0|..], net, finalized, todo[..k + 1], lookup)
  {
    OneMoreAudit(t0, t, audit[|audit0|..], net, finalized, todo, k, lookup);
    assert (audit + more)[|audit0|..] == audit[|audit0|..] + more;
  }

  // ----- the checker -----

  datatype DbError = DbError

  /** Each pending row of the block gets the status, every other row is as it was, and none is left pending. */
  ghost predicate Marks(t: Table, t': Table, net: Net, block: PendingBlock, status: FcrStatus) {
    |t'| == |t| &&
    forall i :: 0 <= i < |t| ==>
      && !Affected(t'[i], net, block)
      && (Affected(t[i], net, block) ==> t'[i] == t[i].(row := t[i].row.(fcr := Some(status))))
      && (!Affected(t[i], net, block) ==> t'[i] == t[i])
  }

  lemma BulkUpdateMarks(t: Table, net: Net, block: PendingBlock, status: FcrStatus)
    requires status != Pending
    ensures Marks(t, SetStatus(t, net, block, status), net, block, status)
  {
  }

  /** Only the bulk update does that. */
  lemma MarksIsBulkUpdate(t: Table, t': Table, net: Net, block: PendingBlock, status: FcrStatus)
    requires Marks(t, t', net, block, status)
    ensures t' == SetStatus(t, net, block, status)
  {
  }

  class FcrChecker {
    var table: Table
    var audit: seq<AuditRow>

    constructor (table: Table, audit: seq<AuditRow>)
      ensures this.table == table && this.audit == audit
    {
      this.table, this.audit := table, audit;
    }

    /** Every pending row of that chain, number and hash becomes confirmed, no other row changes, and none is left to do. */
    method MarkConfirmed(net: Net, block: PendingBlock, ok: bool) returns (r: Result<nat, DbError>)
      modifies this`table
      ensures r.Ok? <==> ok
      ensures r.Err? ==> table == old(table)
      ensures r.Ok? ==> r.value == |AffectedIds(old(table), |old(table)|, net, block)|
      ensures r.Ok? ==> Marks(old(table), table, net, block, Confirmed)
    {
      if !ok { return Err(DbError); }
      var affected: nat := |AffectedIds(table, |table|, net, block)|;
      BulkUpdateMarks(table, net, block, Confirmed);
      table := SetStatus(table, net, block, Confirmed);
      r := Ok(affected);
    }

    /** The INSERTs of the transaction, one per affected row. */
    static method AuditInserts(t: Table, ids: seq<nat>, net: Net, block: PendingBlock, canonical: Hash, finalized: int,
                               statementOk: nat -> bool) returns (r: Result<seq<AuditRow>, DbError>)
      requires forall k :: 0 <= k < |ids| ==> ids[k] < |t|
      ensures r.Ok? ==> |r.value| == |ids| && forall k :: 0 <= k < |ids| ==>
                r.value[k] == AuditRowFor(t[ids[k]].row, ids[k], net, block, canonical, finalized)
      ensures (forall n :: statementOk(n)) ==> r.Ok?
    {
      var rows := [];
      for k := 0 to |ids|
        invariant |rows| == k
        invariant forall j :: 0 <= j < k ==> rows[j] == AuditRowFor(t[ids[j]].row, ids[j], net, block, canonical, finalized)
      {
        if !statementOk(2 + k) { return Err(DbError); }
        rows := rows + [AuditRowFor(t[ids[k]].row, ids[k], net, block, canonical, finalized)];
      }
      r := Ok(rows);
    }

    /** One transaction: the audit rows and the status update are applied together or not at all. */
    method RecordFalsePositive(net: Net, block: PendingBlock, canonical: Hash, finalized: int, statementOk: nat -> bool)
      returns (r: Result<(), DbError>)
      modifies this
      ensures r.Ok? ==> Marks(old(table), table, net, block, Reverted)
      ensures r.Ok? ==> audit == old(audit) + AuditRows(old(table), net, block, canonical, finalized)
      ensures r.Ok? ==> forall a :: a in audit[|old(audit)|..] ==>
                && a.net == net && a.number == block.number && a.storedHash == block.hash && a.canonicalHash == canonical
                && a.detectedAt == finalized && a.logId < |old(table)| && old(table)[a.logId].row.blockHash == Some(block.hash)
                && a.txHash == old(table)[a.logId].row.txHash && a.logIndex == old(table)[a.logId].row.logIndex
      ensures r.Err? ==> table == old(table) && audit == old(audit)
      ensures (forall n :: statementOk(n)) ==> r.Ok?
    {
      if !statementOk(0) { return Err(DbError); }
      var txTable, txAudit := table, audit;
      if !statementOk(1) { return Err(DbError); }
      var affected := AffectedIds(txTable, |txTable|, net, block);
      var inserted := AuditInserts(txTable, affected, net, block, canonical, finalized, statementOk);
      if inserted.Err? { return Err(DbError); }
      txAudit := txAudit + inserted.value;
      if !statementOk(2 + |affected|) { return Err(DbError); }
      BulkUpdateMarks(txTable, net, block, Reverted);
      txTable := SetStatus(txTable, net, block, Reverted);
      if !statementOk(3 + |affected|) { return Err(DbError); }
      assert inserted.value == AuditRows(table, net, block, canonical, finalized);
      table, audit := txTable, txAudit;
      r := Ok(());
    }

    /** `verdict_for` and the match on its verdict, for one block. */
    method CheckBlock(net: Net, block: PendingBlock, finalized: int, answers: seq<HashAnswer>, writeOk: nat -> bool)
      returns (r: Result<(), DbError>)
      modifies this
      ensures var v := VerdictFor(CanonicalHash(answers), block);
              r.Ok? ==> table == TableWith(old(table), net, block, v)
                        && audit == old(audit) + AuditWith(old(table), net, block, v, finalized)
      ensures r.Err? ==> table == old(table) && audit == old(audit)
      ensures (forall n :: writeOk(n)) ==> r.Ok?
    {
      var canonical := GetCanonicalBlockHash(answers);
      match VerdictFor(canonical, block) {
        case Survived =>
          var confirmed := MarkConfirmed(net, block, writeOk(0));
          if confirmed.Err? { return Err(DbError); }
          MarksIsBulkUpdate(old(table), table, net, block, Confirmed);
        case ReorgedOut(hash) =>
          var recorded := RecordFalsePositive(net, block, hash, finalized, writeOk);
          if recorded.Err? { return Err(DbError); }
          MarksIsBulkUpdate(old(table), table, net, block, Reverted);
        case Unavailable =>
      }
      r := Ok(());
    }

    /**
     One revalidation cycle. `processed` blocks of the listing `todo` were dealt with; anything the cycle
     did not get to stays exactly as it was.
     */
    method CheckChain(net: Net, finalized: Option<int>, readsOk: bool, answers: int -> seq<HashAnswer>,
                      writeOk: (nat, nat) -> bool)
      returns (r: Result<(), DbError>, ghost todo: seq<PendingBlock>, ghost processed: nat)
      modifies this
      ensures finalized.None? || !readsOk ==> r.Err? && table == old(table) && audit == old(audit)
      ensures finalized.Some? && readsOk ==>
                && IsListing(old(table), net, finalized.value, todo) && processed <= |todo|
                && Processed(old(table), table, net, finalized.value, todo, processed, Lookups(answers))
                && old(audit) <= audit
                && AuditedBy(old(table), audit[|old(audit)|..], net, finalized.value, todo[..processed], Lookups(answers))
                && (r.Ok? <==> processed == |todo|)
      ensures r.Ok? ==> |table| == |old(table)| && forall i :: 0 <= i < |table| ==>
                table[i] == Adjudicate(old(table)[i], net, finalized.value, Lookups(answers))
      ensures r.Ok? ==> forall i :: 0 <= i < |table| && LeftPending(table[i], net, finalized.value) ==>
                forall a :: a in answers(table[i].row.blockNumber.value) ==> !a.HashOf?
      ensures finalized.Some? && readsOk && (forall k, n :: writeOk(k, n)) ==> r.Ok?
    {
      todo, processed := [], 0;
      if finalized.None? || !readsOk { return Err(DbError), todo, processed; }
      var lookup := Lookups(answers);
      var pending := PendingBlocks(table, net, finalized.value);
      todo := pending;
      assert audit[|old(audit)|..] == [];
      for k := 0 to |pending|
        invariant processed == k
        invariant InProgress(old(table), old(audit), table, audit, net, finalized.value, pending, k, lookup)
      {
        BlockDone(old(table), old(audit), table, audit, net, finalized.value, pending, k, lookup);
        var written := CheckBlock(net, pending[k], finalized.value, answers(pending[k].number), (n: nat) => writeOk(k, n));
        if written.Err? { return Err(DbError), todo, processed; }
        processed := processed + 1;
      }
      BatchRefinesPerRow(old(table), table, net, finalized.value, pending, lookup);
      NothingElseLeft(old(table), table, net, finalized.value, answers);
      r := Ok(());
    }
  }
}
