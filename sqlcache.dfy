/** The SQLite side of the customer bulk import, reduced to what the import
    observes: the two tuned pragmas, the kunde table, the open transaction,
    and a log of the statements executed. Whether a statement succeeds is
    decided by the database: each database fixes the statements that fail
    and how far each bulkImport call gets. */
module SqlCache {
  import opened Qt

  datatype JournalMode = JournalDelete | JournalMemory | JournalOther
  datatype SyncMode = SyncOff | SyncFull | SyncOther

  /** The statements of saveKundeToSqlCache; laps number the chunk transactions. */
  datatype Step =
    | DropTable
    | CreateTable
    | BeginTransaction(lap: nat)
    | InsertBatch(lap: nat)
    | EndTransaction(lap: nat)
  {
    /** The statements that belong to a lap. */
    predicate InLap()
    {
      BeginTransaction? || InsertBatch? || EndTransaction?
    }
  }

  /** What the log records: a call of bulkImport, or a statement and whether it succeeded. */
  datatype Event = BulkImportCalled(tune: bool) | Ran(step: Step, ok: bool)

  /** One row of the kunde table, in column order nr, name, ort. */
  datatype Row = Row(nr: Variant, name: Variant, ort: Variant)

  /** The pragma statements of bulkImport run in order and the first failure
      ends it: journal_mode is set by the 5th, synchronous by the 8th. */
  const JournalSetBy := 5
  const SyncSetBy := 8

  /** The pragmas a bulkImport(tune) leaves when its first steps statements
      succeed: tuned (MEMORY, OFF) or restored (DELETE, FULL) as far as it got. */
  function PragmaEffect(tune: bool, steps: nat, p: (JournalMode, SyncMode)): (q: (JournalMode, SyncMode))
    ensures steps >= SyncSetBy ==> q == if tune then (JournalMemory, SyncOff) else (JournalDelete, SyncFull)
    ensures steps < JournalSetBy ==> q == p
  {
    (if steps >= JournalSetBy then (if tune then JournalMemory else JournalDelete) else p.0,
     if steps >= SyncSetBy then (if tune then SyncOff else SyncFull) else p.1)
  }

  /** The pragmas after bulkImport(true) and then bulkImport(false). */
  function AfterImport(tuneSteps: nat, restoreSteps: nat, p: (JournalMode, SyncMode)): (JournalMode, SyncMode)
  {
    PragmaEffect(false, restoreSteps, PragmaEffect(true, tuneSteps, p))
  }

  /** When the closing bulkImport(false) gets through, the import leaves
      SQLite's defaults behind, whatever the tuning call achieved. */
  lemma ImportRestoresDefaults(tuneSteps: nat, restoreSteps: nat, p: (JournalMode, SyncMode))
    requires restoreSteps >= SyncSetBy
    ensures AfterImport(tuneSteps, restoreSteps, p) == (JournalDelete, SyncFull)
  {
  }

  /** execBatch binds the i-th entries of the three column lists as one row. */
  function Zip(nrs: seq<Variant>, names: seq<Variant>, orts: seq<Variant>): (rows: seq<Row>)
    requires |nrs| == |names| == |orts|
    ensures |rows| == |nrs|
    ensures forall i :: 0 <= i < |rows| ==> rows[i] == Row(nrs[i], names[i], orts[i])
  {
    if |nrs| == 0 then [] else [Row(nrs[0], names[0], orts[0])] + Zip(nrs[1..], names[1..], orts[1..])
  }

  /** Binding one more row appends one more zipped row. */
  lemma ZipAppend(nrs: seq<Variant>, names: seq<Variant>, orts: seq<Variant>, nr: Variant, name: Variant, ort: Variant)
    requires |nrs| == |names| == |orts|
    ensures Zip(nrs + [nr], names + [name], orts + [ort]) == Zip(nrs, names, orts) + [Row(nr, name, ort)]
  {
    var l, r := Zip(nrs + [nr], names + [name], orts + [ort]), Zip(nrs, names, orts) + [Row(nr, name, ort)];
    assert forall i :: 0 <= i < |l| ==> l[i] == r[i];
  }

  /** What the database decides about the import: the statements that fail,
      and how many leading pragma statements of bulkImport(true) and of
      bulkImport(false) succeed. */
  datatype Server = Server(failing: set<Step>, tuneSteps: nat, restoreSteps: nat)
  {
    /** How many leading pragma statements of bulkImport(tune) succeed. */
    function PragmaSteps(tune: bool): nat
    {
      if tune then tuneSteps else restoreSteps
    }
  }

  /** The database as the import sees it. Every statement returns whether it
      succeeded together with the database it leaves. */
  datatype Database = Database(
    journal: JournalMode,
    synchronous: SyncMode,
    table: Option<seq<Row>>,   // the kunde table; None when it does not exist
    pending: seq<Row>,         // rows inserted by the open transaction
    inTransaction: bool,
    log: seq<Event>,
    server: Server)
  {
    /** The rows the table holds; a missing table holds none. */
    function Stored(): seq<Row>
    {
      if table.Some? then table.value else []
    }

    /** The database after bulkImport(tune): the pragmas its leading
        successful statements set, and nothing else but the log changes. */
    function AfterBulkImport(tune: bool): (r: Database)
      ensures (r.journal, r.synchronous) == PragmaEffect(tune, server.PragmaSteps(tune), (journal, synchronous))
      ensures r.table == table && r.pending == pending && r.inTransaction == inTransaction && r.server == server
      ensures r.log == log + [BulkImportCalled(tune)]
    {
      var p := PragmaEffect(tune, server.PragmaSteps(tune), (journal, synchronous));
      this.(journal := p.0, synchronous := p.1, log := log + [BulkImportCalled(tune)])
    }

    /** The database after DROP TABLE IF EXISTS kunde: no table, when it succeeds. */
    function AfterDrop(): (r: Database)
      ensures r.journal == journal && r.synchronous == synchronous && r.server == server
      ensures r.table == if DropTable in server.failing then table else None
      ensures r.log == log + [Ran(DropTable, DropTable !in server.failing)]
    {
      var ok := DropTable !in server.failing;
      this.(table := if ok then None else table, log := log + [Ran(DropTable, ok)])
    }

    /** The database after the CREATE TABLE command: a new, empty table, when it succeeds. */
    function AfterCreate(): (r: Database)
      ensures r.journal == journal && r.synchronous == synchronous && r.server == server
      ensures r.table == if CreateTable in server.failing then table else Some([])
      ensures r.log == log + [Ran(CreateTable, CreateTable !in server.failing)]
    {
      var ok := CreateTable !in server.failing;
      this.(table := if ok then Some([]) else table, log := log + [Ran(CreateTable, ok)])
    }

    /** The database after BEGIN TRANSACTION: an open transaction with nothing pending, when it succeeds. */
    function AfterBegin(lap: nat): Database
    {
      var ok := BeginTransaction(lap) !in server.failing;
      this.(pending := if ok then [] else pending, inTransaction := ok || inTransaction,
            log := log + [Ran(BeginTransaction(lap), ok)])
    }

    /** The database after a batch insert of rows: they join the open transaction, when it succeeds. */
    function AfterBatch(lap: nat, rows: seq<Row>): Database
    {
      var ok := InsertBatch(lap) !in server.failing;
      this.(pending := if ok then pending + rows else pending, log := log + [Ran(InsertBatch(lap), ok)])
    }

    /** The database after END TRANSACTION: the pending rows are committed, when it succeeds. */
    function AfterEnd(lap: nat): Database
    {
      var ok := EndTransaction(lap) !in server.failing;
      this.(table := if ok then Some(Stored() + pending) else table, pending := if ok then [] else pending,
            inTransaction := !ok && inTransaction, log := log + [Ran(EndTransaction(lap), ok)])
    }

    /** QSqlQuery::exec of DROP TABLE IF EXISTS kunde. */
    method ExecDrop() returns (ok: bool, after: Database)
      ensures ok == (DropTable !in server.failing) && after == AfterDrop()
    {
      ok, after := DropTable !in server.failing, AfterDrop();
    }

    /** QSqlQuery::exec of the CREATE TABLE command. */
    method ExecCreate() returns (ok: bool, after: Database)
      ensures ok == (CreateTable !in server.failing) && after == AfterCreate()
    {
      ok, after := CreateTable !in server.failing, AfterCreate();
    }

    /** QSqlQuery::exec of BEGIN TRANSACTION. */
    method ExecBegin(lap: nat) returns (ok: bool, after: Database)
      ensures ok == (BeginTransaction(lap) !in server.failing) && after == AfterBegin(lap)
    {
      ok, after := BeginTransaction(lap) !in server.failing, AfterBegin(lap);
    }

    /** QSqlQuery::execBatch of the insert with three bound column lists:
        the i-th entries of the lists make one row, and lists of different
        lengths make the batch fail. */
    method ExecBatch(lap: nat, nrs: seq<Variant>, names: seq<Variant>, orts: seq<Variant>) returns (ok: bool, after: Database)
      ensures ok <==> (InsertBatch(lap) !in server.failing) && |nrs| == |names| == |orts|
      ensures |nrs| == |names| == |orts| ==> after == AfterBatch(lap, Zip(nrs, names, orts))
      ensures !(|nrs| == |names| == |orts|) ==> after == this.(log := log + [Ran(InsertBatch(lap), false)])
    {
      if |nrs| == |names| == |orts| {
        ok, after := InsertBatch(lap) !in server.failing, AfterBatch(lap, Zip(nrs, names, orts));
      } else {
        ok, after := false, this.(log := log + [Ran(InsertBatch(lap), false)]);
      }
    }

    /** QSqlQuery::exec of END TRANSACTION. */
    method ExecEnd(lap: nat) returns (ok: bool, after: Database)
      ensures ok == (EndTransaction(lap) !in server.failing) && after == AfterEnd(lap)
    {
      ok, after := EndTransaction(lap) !in server.failing, AfterEnd(lap);
    }
  }

  /** A lap whose begin, insert and end statements all succeed. */
  predicate LapOk(failing: set<Step>, k: nat)
  {
    (BeginTransaction(k) !in failing) && (InsertBatch(k) !in failing) && (EndTransaction(k) !in failing)
  }

  /** The statements lap k executes: begin, insert and end, until one fails. */
  function LapEvents(failing: set<Step>, k: nat): (log: seq<Event>)
    ensures LapOk(failing, k) ==>
      log == [Ran(BeginTransaction(k), true), Ran(InsertBatch(k), true), Ran(EndTransaction(k), true)]
    ensures forall e :: e in log ==> e.Ran? && e.step.InLap() && e.step.lap == k
  {
    if BeginTransaction(k) in failing then [Ran(BeginTransaction(k), false)]
    else if InsertBatch(k) in failing then [Ran(BeginTransaction(k), true), Ran(InsertBatch(k), false)]
    else [Ran(BeginTransaction(k), true), Ran(InsertBatch(k), true), Ran(EndTransaction(k), (EndTransaction(k) !in failing))]
  }

  /** The database after lap k: begin, insert the batch, end, up to the
      first failing statement. Only a lap whose three statements succeed
      commits its batch, after the rows committed before. */
  function RunLap(d: Database, k: nat, batch: seq<Row>): (r: Database)
    ensures r.log == d.log + LapEvents(d.server.failing, k)
    ensures r.table == if LapOk(d.server.failing, k) then Some(d.Stored() + batch) else d.table
    ensures r.journal == d.journal && r.synchronous == d.synchronous && r.server == d.server
  {
    var begun := d.AfterBegin(k);
    if BeginTransaction(k) in d.server.failing then begun
    else
      var inserted := begun.AfterBatch(k, batch);
      if InsertBatch(k) in d.server.failing then inserted
      else
        assert inserted.pending == [] + batch == batch;
        inserted.AfterEnd(k)
  }

  /** The statements laps k, k+1, ... execute: each lap runs its statements
      until one fails, and a failure ends the import. */
  function LapLog(failing: set<Step>, laps: int, k: nat): (log: seq<Event>)
    decreases laps - k
  {
    if k >= laps then []
    else LapEvents(failing, k) + (if LapOk(failing, k) then LapLog(failing, laps, k + 1) else [])
  }

  lemma LogAssoc(a: seq<Event>, b: seq<Event>, c: seq<Event>)
    ensures (a + b) + c == a + (b + c)
  {
  }

  /** The lap the import stops at, looking from lap k on: the first lap that
      fails, or laps when none does; the laps before it complete. */
  function StopLap(failing: set<Step>, laps: int, k: nat): (n: nat)
    ensures k <= n && (n <= laps || n == k)
    decreases laps - k
  {
    if k >= laps || !LapOk(failing, k) then k else StopLap(failing, laps, k + 1)
  }

  /** The whole log of one saveKundeToSqlCache: bulkImport(true), then drop,
      create and the laps until the first failure, then bulkImport(false). */
  function SaveLog(failing: set<Step>, laps: int): seq<Event>
  {
    [BulkImportCalled(true)] + ImportLog(failing, laps) + [BulkImportCalled(false)]
  }

  /** The statements between the two bulkImport calls: drop, create and the
      laps, until the first failure. */
  function ImportLog(failing: set<Step>, laps: int): seq<Event>
  {
    if DropTable in failing then [Ran(DropTable, false)]
    else if CreateTable in failing then [Ran(DropTable, true), Ran(CreateTable, false)]
    else [Ran(DropTable, true), Ran(CreateTable, true)] + LapLog(failing, laps, 0)
  }

  /** The laps never call bulkImport. */
  lemma {:induction false} LapLogHasNoBulkImport(failing: set<Step>, laps: int, k: nat)
    ensures forall e :: e in LapLog(failing, laps, k) ==> e.Ran?
    decreases laps - k
  {
    if k < laps && LapOk(failing, k) {
      LapLogHasNoBulkImport(failing, laps, k + 1);
    }
  }

  /** Every run, on every exit path, tunes for the import first and restores
      the pragmas last, and calls bulkImport nowhere else. */
  lemma SaveLogBracketed(failing: set<Step>, laps: int)
    ensures var log := SaveLog(failing, laps);
      |log| >= 3 && log[0] == BulkImportCalled(true) && log[|log| - 1] == BulkImportCalled(false)
      && forall j :: 0 < j < |log| - 1 ==> log[j].Ran?
  {
    LapLogHasNoBulkImport(failing, laps, 0);
  }

  /** A failed lap is the last one: no statement of a later lap is executed,
      and every statement of the laps before it succeeded. */
  lemma {:induction false} LapLogStopsAtFailure(failing: set<Step>, laps: int, k: nat)
    ensures forall e :: e in LapLog(failing, laps, k) ==>
      e.Ran? && e.step.InLap() && k <= e.step.lap <= StopLap(failing, laps, k)
    ensures forall e :: e in LapLog(failing, laps, k) && e.Ran? && e.step.InLap() && e.step.lap < StopLap(failing, laps, k) ==> e.ok
    decreases laps - k
  {
    if k < laps && LapOk(failing, k) {
      LapLogStopsAtFailure(failing, laps, k + 1);
    }
  }

  /** When every lap succeeds, all laps complete. */
  lemma {:induction false} AllLapsComplete(failing: set<Step>, laps: int, k: nat)
    requires forall j: nat :: LapOk(failing, j)
    ensures StopLap(failing, laps, k) == if k < laps then laps else k
    decreases laps - k
  {
    if k < laps {
      AllLapsComplete(failing, laps, k + 1);
    }
  }
}
