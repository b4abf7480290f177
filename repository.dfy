/**
 * The read/write-split access layer of article/repository/repository.go: one
 * writer pool and an ordered list of reader pools, opened once and closed at
 * shutdown, a reader picked per read call, and thin wrappers that pass the
 * driver's error through unchanged and log the failing query when debugging.
 *
 * Every call into database/sql is a function parameter (an oracle) of the
 * operation that makes it: the model's caller decides what the driver answers.
 */
module Repository {
  import opened Wrappers
  import opened Driver
  import opened Format
  import opened Config

  /**
   * The error sql.Open(driverName, dataSourceName) returns, None for nil. Each
   * call that succeeds returns a new pool; the model numbers the pools by the
   * call that opened them, so no two calls share one.
   */
  type Opener = (string, string) -> Option<Error>

  /** (*sql.DB).Close; None is a nil error. */
  type Closer = Handle -> Option<Error>

  // ---------------------------------------------------------------------------
  // Opening the writer and the readers
  // ---------------------------------------------------------------------------

  /**
   * openWriteDatabase: open the writer's own data source name; a success is
   * the pool of sql.Open call number `call`.
   */
  function OpenWriteDatabase(cfg: DatabaseCluster, open: Opener, call: nat): (r: Result<Handle, Error>)
    ensures var e := open(cfg.driver, DataSourceName(EffectiveCredentials(cfg, cfg.write),
                                                     cfg.write.host, cfg.write.port, cfg.database, cfg.charset));
      && (r.Success? <==> e == None)
      && (r.Success? ==> r.value == Handle(call))
      && (r.Failure? ==> e == Some(r.error))
  {
    match open(cfg.driver, EndpointDsn(cfg, cfg.write))
    case None => Success(Handle(call))
    case Some(e) => Failure(e)
  }

  /** The data source names of a list of reader endpoints, in list order. */
  function ReaderDsns(cfg: DatabaseCluster, eps: seq<Endpoint>): (dsns: seq<string>)
    ensures |dsns| == |eps|
    decreases |eps|
  {
    if eps == [] then [] else ReaderDsns(cfg, eps[..|eps| - 1]) + [EndpointDsn(cfg, eps[|eps| - 1])]
  }

  /** Each reader is opened with its own host and port and its own resolved credentials. */
  lemma {:induction false} ReaderDsnsAt(cfg: DatabaseCluster, eps: seq<Endpoint>, i: nat)
    requires i < |eps|
    ensures ReaderDsns(cfg, eps)[i] == EndpointDsn(cfg, eps[i])
    decreases |eps|
  {
    if i < |eps| - 1 {
      ReaderDsnsAt(cfg, eps[..|eps| - 1], i);
    }
  }

  /** The index of the first name whose open fails, or |dsns| if none does. */
  function FirstFailure(open: Opener, driver: string, dsns: seq<string>): (k: nat)
    ensures k <= |dsns|
    ensures forall j :: 0 <= j < k ==> open(driver, dsns[j]).None?
    ensures k < |dsns| ==> open(driver, dsns[k]).Some?
    decreases |dsns|
  {
    if dsns == [] then 0
    else if open(driver, dsns[0]).Some? then 0
    else 1 + FirstFailure(open, driver, dsns[1..])
  }

  /**
   * What opening the readers named dsns yields, the first of them with sql.Open
   * call number `call`: one new pool per name, in order, when every open
   * succeeds; otherwise the error of the first failure.
   */
  function OpenEach(open: Opener, driver: string, dsns: seq<string>, call: nat): Result<seq<DB>, Error> {
    var k := FirstFailure(open, driver, dsns);
    if k == |dsns| then Success(Pools(call, |dsns|)) else Failure(open(driver, dsns[k]).value)
  }

  /** The n pools that sql.Open calls number call, call + 1, ... return. */
  function Pools(call: nat, n: nat): seq<DB>
    decreases n
  {
    if n == 0 then [] else Pools(call, n - 1) + [Some(Handle(call + n - 1))]
  }

  lemma {:induction false} PoolsAt(call: nat, n: nat)
    ensures |Pools(call, n)| == n
    ensures forall i :: 0 <= i < n ==> Pools(call, n)[i] == Some(Handle(call + i))
    decreases n
  {
    if n > 0 {
      PoolsAt(call, n - 1);
    }
  }

  /**
   * The names passed to sql.Open while opening the readers named dsns: a prefix
   * of dsns that ends at the first failure.
   */
  function Attempted(open: Opener, driver: string, dsns: seq<string>): seq<string> {
    var k := FirstFailure(open, driver, dsns);
    if k == |dsns| then dsns else dsns[..k + 1]
  }

  /**
   * The reader set is all-or-nothing: a list with one handle per name, in order,
   * exactly when every open succeeds, and otherwise the error of the first open
   * that failed and no list.
   */
  lemma OpenEachAllOrNothing(open: Opener, driver: string, dsns: seq<string>, call: nat)
    ensures OpenEach(open, driver, dsns, call).Success? <==> forall i :: 0 <= i < |dsns| ==> open(driver, dsns[i]) == None
    ensures OpenEach(open, driver, dsns, call).Success? ==>
      && |OpenEach(open, driver, dsns, call).value| == |dsns|
      && forall i :: 0 <= i < |dsns| ==> OpenEach(open, driver, dsns, call).value[i] == Some(Handle(call + i))
    ensures OpenEach(open, driver, dsns, call).Failure? ==>
      exists k :: && 0 <= k < |dsns|
                  && (forall j :: 0 <= j < k ==> open(driver, dsns[j]) == None)
                  && open(driver, dsns[k]) == Some(OpenEach(open, driver, dsns, call).error)
  {
    PoolsAt(call, |dsns|);
    var k := FirstFailure(open, driver, dsns);
    if k < |dsns| {
      assert open(driver, dsns[k]) != None;
    }
  }

  /** Every pool of the reader list is new: distinct from each other and from the pools of earlier calls. */
  lemma OpenEachDistinct(open: Opener, driver: string, dsns: seq<string>, call: nat)
    requires OpenEach(open, driver, dsns, call).Success?
    ensures var dbs := OpenEach(open, driver, dsns, call).value;
      && (forall i, j :: 0 <= i < j < |dbs| ==> dbs[i] != dbs[j])
      && (forall i, c :: 0 <= i < |dbs| && 0 <= c < call ==> dbs[i] != Some(Handle(c)))
  {
    var dbs := OpenEach(open, driver, dsns, call).value;
    OpenEachAllOrNothing(open, driver, dsns, call);
    assert forall i :: 0 <= i < |dbs| ==> dbs[i] == Some(Handle(call + i));
  }

  /**
   * Opening stops at the first failure: every name attempted before the last
   * one opened, and unless all opened, the last one attempted is the failure.
   */
  lemma AttemptedStopsAtFirstFailure(open: Opener, driver: string, dsns: seq<string>, call: nat)
    ensures var a := Attempted(open, driver, dsns);
      && |a| <= |dsns| && a == dsns[..|a|]
      && (forall j :: 0 <= j < |a| - 1 ==> open(driver, a[j]) == None)
      && (OpenEach(open, driver, dsns, call).Success? <==> |a| == |dsns| && forall j :: 0 <= j < |a| ==> open(driver, a[j]) == None)
      && (OpenEach(open, driver, dsns, call).Failure? ==> |a| >= 1 && open(driver, a[|a| - 1]) == Some(OpenEach(open, driver, dsns, call).error))
  {
    var k := FirstFailure(open, driver, dsns);
    assert dsns[..|dsns|] == dsns;
    if k < |dsns| {
      assert open(driver, dsns[k]) != None;
    }
  }

  lemma FirstFailureLater(open: Opener, driver: string, dsns: seq<string>, i: nat)
    requires i < |dsns| && i <= FirstFailure(open, driver, dsns)
    requires open(driver, dsns[i]) == None
    ensures i + 1 <= FirstFailure(open, driver, dsns)
  {
  }

  lemma OpenEachWhenAllOpen(open: Opener, driver: string, dsns: seq<string>, call: nat)
    requires |dsns| <= FirstFailure(open, driver, dsns)
    ensures OpenEach(open, driver, dsns, call) == Success(Pools(call, |dsns|))
    ensures Attempted(open, driver, dsns) == dsns
  {
  }

  lemma OpenEachWhenOneFails(open: Opener, driver: string, dsns: seq<string>, call: nat, i: nat)
    requires i < |dsns| && i <= FirstFailure(open, driver, dsns)
    requires open(driver, dsns[i]).Some?
    ensures OpenEach(open, driver, dsns, call) == Failure(open(driver, dsns[i]).value)
    ensures Attempted(open, driver, dsns) == dsns[..i] + [dsns[i]]
  {
    assert i == FirstFailure(open, driver, dsns);
    assert dsns[..i + 1] == dsns[..i] + [dsns[i]];
  }

  /**
   * The loop of openReadDatabases: open the names in order, giving up at the
   * first failure; the first name is opened by sql.Open call number `call`.
   */
  method OpenInOrder(open: Opener, driver: string, dsns: seq<string>, call: nat)
    returns (dbs: seq<DB>, err: Option<Error>, ghost attempts: seq<string>)
    ensures match OpenEach(open, driver, dsns, call)
            case Success(hs) => dbs == hs && err == None
            case Failure(e) => dbs == [] && err == Some(e)
    ensures attempts == Attempted(open, driver, dsns)
  {
    dbs, attempts := [], [];
    for i := 0 to |dsns|
      invariant i <= FirstFailure(open, driver, dsns)
      invariant dbs == Pools(call, i)
      invariant attempts == dsns[..i]
    {
      var e := open(driver, dsns[i]);
      if e.Some? {
        OpenEachWhenOneFails(open, driver, dsns, call, i);
        dbs, err, attempts := [], e, attempts + [dsns[i]];
        return;
      }
      FirstFailureLater(open, driver, dsns, i);
      assert dsns[..i + 1] == attempts + [dsns[i]];
      dbs, attempts := dbs + [Some(Handle(call + i))], attempts + [dsns[i]];
    }
    assert dsns[..|dsns|] == dsns;
    OpenEachWhenAllOpen(open, driver, dsns, call);
    err := None;
  }

  /**
   * openReadDatabases: each reader's connection string, in configuration
   * order, opened in that order until the first failure. Building a name calls
   * nothing, so building them all before the first sql.Open call leaves the
   * sequence of sql.Open calls as it is in the interleaved loop.
   */
  method OpenReadDatabases(cfg: DatabaseCluster, open: Opener, call: nat)
    returns (dbs: seq<DB>, err: Option<Error>, ghost attempts: seq<string>)
    ensures match OpenEach(open, cfg.driver, ReaderDsns(cfg, cfg.read), call)
            case Success(hs) => dbs == hs && err == None
            case Failure(e) => dbs == [] && err == Some(e)
    ensures forall j :: 0 <= j < |dbs| ==> dbs[j] == Some(Handle(call + j))
    ensures attempts == Attempted(open, cfg.driver, ReaderDsns(cfg, cfg.read))
  {
    var dsns := ReaderDsns(cfg, cfg.read);
    dbs, err, attempts := OpenInOrder(open, cfg.driver, dsns, call);
    OpenEachAllOrNothing(open, cfg.driver, dsns, call);
  }

  // ---------------------------------------------------------------------------
  // Closing
  // ---------------------------------------------------------------------------

  /** The non-nil entries of a list of pools, in list order. */
  function Present(dbs: seq<DB>): seq<Handle>
    decreases |dbs|
  {
    if dbs == [] then []
    else
      var last := dbs[|dbs| - 1];
      Present(dbs[..|dbs| - 1]) + (if last.Some? then [last.value] else [])
  }

  lemma {:induction false} PresentMembers(dbs: seq<DB>)
    ensures forall h :: h in Present(dbs) <==> Some(h) in dbs
    decreases |dbs|
  {
    if dbs != [] {
      PresentMembers(dbs[..|dbs| - 1]);
      assert dbs == dbs[..|dbs| - 1] + [dbs[|dbs| - 1]];
    }
  }

  lemma {:induction false} PresentWhenNoneNil(dbs: seq<DB>)
    requires forall i :: 0 <= i < |dbs| ==> dbs[i].Some?
    ensures |Present(dbs)| == |dbs|
    ensures forall i :: 0 <= i < |dbs| ==> Some(Present(dbs)[i]) == dbs[i]
    decreases |dbs|
  {
    if dbs != [] {
      PresentWhenNoneNil(dbs[..|dbs| - 1]);
    }
  }

  /** The pools Close calls Close on: the writer if set, then every non-nil reader. */
  function CloseTargets(writer: DB, readers: seq<DB>): seq<Handle> {
    (if writer.Some? then [writer.value] else []) + Present(readers)
  }

  /**
   * Close attempts every stored pool: the writer if set, first, then each
   * non-nil reader; with no nil reader, all of them in list order.
   */
  lemma CloseTargetsCoverAll(writer: DB, readers: seq<DB>)
    ensures forall h :: h in CloseTargets(writer, readers) <==> writer == Some(h) || Some(h) in readers
    ensures writer.Some? ==> |CloseTargets(writer, readers)| >= 1 && CloseTargets(writer, readers)[0] == writer.value
    ensures writer.Some? && (forall i :: 0 <= i < |readers| ==> readers[i].Some?) ==>
      |CloseTargets(writer, readers)| == |readers| + 1 &&
      forall i :: 0 <= i < |readers| ==> Some(CloseTargets(writer, readers)[i + 1]) == readers[i]
  {
    PresentMembers(readers);
    if forall i :: 0 <= i < |readers| ==> readers[i].Some? {
      PresentWhenNoneNil(readers);
    }
  }

  /**
   * When no reader is nil or the writer, and no two readers are the same pool,
   * Close closes every pool exactly once.
   */
  lemma CloseTargetsDistinct(writer: DB, readers: seq<DB>)
    requires forall i :: 0 <= i < |readers| ==> readers[i].Some? && readers[i] != writer
    requires forall i, j :: 0 <= i < j < |readers| ==> readers[i] != readers[j]
    ensures forall i, j :: 0 <= i < j < |CloseTargets(writer, readers)| ==>
      CloseTargets(writer, readers)[i] != CloseTargets(writer, readers)[j]
  {
    var ct := CloseTargets(writer, readers);
    PresentWhenNoneNil(readers);
    if writer.Some? {
      CloseTargetsCoverAll(writer, readers);
      assert forall i :: 1 <= i < |ct| ==> Some(ct[i]) == readers[i - 1];
    } else {
      assert ct == Present(readers);
    }
  }

  /**
   * The error of the last failing close, in the order hs are closed, or None
   * when every close succeeds.
   */
  function LastError(close: Closer, hs: seq<Handle>): Option<Error>
    decreases |hs|
  {
    if hs == [] then None
    else if close(hs[|hs| - 1]).Some? then close(hs[|hs| - 1])
    else LastError(close, hs[..|hs| - 1])
  }

  /** No failure is swallowed and none is invented: the last one in close order wins. */
  lemma {:induction false} LastErrorIsLastFailure(close: Closer, hs: seq<Handle>)
    ensures LastError(close, hs).None? <==> forall i :: 0 <= i < |hs| ==> close(hs[i]).None?
    ensures LastError(close, hs).Some? ==>
      exists k :: && 0 <= k < |hs| && close(hs[k]) == LastError(close, hs)
                  && forall j :: k < j < |hs| ==> close(hs[j]).None?
    decreases |hs|
  {
    if hs != [] {
      LastErrorIsLastFailure(close, hs[..|hs| - 1]);
    }
  }

  /** A writer and three readers, the second of which fails to close. */
  lemma ShutdownAggregation(close: Closer, w: Handle, r1: Handle, r2: Handle, r3: Handle, e: Error)
    requires close(w) == None && close(r1) == None && close(r2) == Some(e) && close(r3) == None
    ensures CloseTargets(Some(w), [Some(r1), Some(r2), Some(r3)]) == [w, r1, r2, r3]
    ensures LastError(close, [w, r1, r2, r3]) == Some(e)
  {
    var rs := [Some(r1), Some(r2), Some(r3)];
    assert rs[..2][..1] == [Some(r1)] && rs[..2] == [Some(r1), Some(r2)] && rs[..1] == [Some(r1)];
    assert Present([Some(r1)]) == [r1] by {
      assert [Some(r1)][..0] == [];
    }
    assert Present(rs[..2]) == [r1, r2];
    assert Present(rs) == [r1, r2, r3];
    assert [w, r1, r2, r3][..3] == [w, r1, r2];
  }

  // ---------------------------------------------------------------------------
  // Replica selection
  // ---------------------------------------------------------------------------

  /** selectDB: r is the value helper.RandMax drew from [0, |dbs|). */
  function SelectDB(dbs: seq<DB>, r: int): (d: DB)
    requires 0 <= r < |dbs|
    ensures d in dbs && d == dbs[r]
  {
    dbs[r]
  }

  // ---------------------------------------------------------------------------
  // Executors
  // ---------------------------------------------------------------------------

  /**
   * What a wrapper returns: Go's (result, error) pair, with None standing for
   * nil, and the diagnostic lines it appended to the log.
   */
  datatype Outcome<T> = Outcome(value: Option<T>, err: Option<Error>, logged: seq<string>)

  /** The wrapper returns the driver's result, or a nil result and exactly the driver's error. */
  ghost predicate PassesThrough<T>(d: Result<T, Error>, o: Outcome<T>) {
    match d
    case Success(v) => o.value == Some(v) && o.err == None
    case Failure(e) => o.value == None && o.err == Some(e)
  }

  /** A diagnostic line as log.Printf("<tag>: %s\n", text) formats it. */
  function LogLine(tag: string, text: string): (line: string)
    ensures |line| == |tag| + |text| + 3
    ensures line[..|tag| + 2] == tag + ": " && line[|line| - 1] == '\n'
    ensures line[|tag| + 2..|line| - 1] == text
  {
    tag + ": " + text + "\n"
  }

  /**
   * The shared error contract: pass the driver's answer through, and log the
   * diagnostics only when the call failed and debugging is on.
   */
  function Report<T>(d: Result<T, Error>, debug: bool, diagnostics: seq<string>): (o: Outcome<T>)
    ensures PassesThrough(d, o)
    ensures o.logged == if debug && d.Failure? then diagnostics else []
  {
    match d
    case Success(v) => Outcome(Some(v), None, [])
    case Failure(e) => Outcome(None, Some(e), if debug then diagnostics else [])
  }

  /** txPrepare: prepare a statement inside an open transaction. */
  function TxPrepare(debug: bool, tx: Tx, query: string, driver: (Tx, string) -> Result<Stmt, Error>): (o: Outcome<Stmt>)
    ensures PassesThrough(driver(tx, query), o)
    ensures o.logged == if debug && driver(tx, query).Failure? then [LogLine("txPrepare", query)] else []
  {
    Report(driver(tx, query), debug, [LogLine("txPrepare", query)])
  }

  /** stmtExec: execute a prepared statement; it never logs. */
  function StmtExec(stmt: Stmt, args: seq<Value>, driver: (Stmt, seq<Value>) -> Result<ExecResult, Error>): (o: Outcome<ExecResult>)
    ensures PassesThrough(driver(stmt, args), o)
    ensures o.logged == []
  {
    Report(driver(stmt, args), false, [])
  }

  /** txExec: execute a statement inside a transaction; logs the query and its arguments. */
  function TxExec(debug: bool, tx: Tx, query: string, args: seq<Value>,
                  driver: (Tx, string, seq<Value>) -> Result<ExecResult, Error>): (o: Outcome<ExecResult>)
    ensures PassesThrough(driver(tx, query, args), o)
    ensures o.logged == if debug && driver(tx, query, args).Failure?
                        then [LogLine("txExec", query), LogLine("args", FormatArgs(args))] else []
  {
    Report(driver(tx, query, args), debug, [LogLine("txExec", query), LogLine("args", FormatArgs(args))])
  }

  /** rollback: the driver's error, unchanged; nothing is logged. */
  function Rollback(tx: Tx, driver: Tx -> Option<Error>): (err: Option<Error>)
    ensures err == driver(tx)
  {
    driver(tx)
  }

  /** commit: the driver's error, unchanged; nothing is logged. */
  function Commit(tx: Tx, driver: Tx -> Option<Error>): (err: Option<Error>)
    ensures err == driver(tx)
  {
    driver(tx)
  }

  /** The query text of max: the identifiers are spliced in, the shard values are `?` placeholders. */
  function MaxQuery(tableName: string, key: string): string {
    "SELECT MAX(`" + key + "`) FROM `" + tableName + "` WHERE `" + key + "` % ? = ? "
  }

  /** The arguments max binds, in placeholder order: the modulus, then the remainder. */
  function MaxArgs(appID: uint64, appNum: uint64): (args: seq<Value>)
    ensures |args| == 2 && args[0] == Uint(appNum) && args[1] == Uint(appID)
  {
    [Uint(appNum), Uint(appID)]
  }

  /**
   * With identifiers free of `?`, the query text of max has exactly as many
   * placeholders as max binds arguments.
   */
  lemma MaxQueryPlaceholders(tableName: string, key: string, appID: uint64, appNum: uint64)
    requires '?' !in tableName && '?' !in key
    ensures Occurrences('?', MaxQuery(tableName, key)) == |MaxArgs(appID, appNum)|
  {
    var q1 := "SELECT MAX(`" + key;
    var q2 := q1 + "`) FROM `";
    var q3 := q2 + tableName;
    var q4 := q3 + "` WHERE `";
    var q5 := q4 + key;
    var q6 := q5 + "` % ";
    var q7 := q6 + "?";
    var q8 := q7 + " = ";
    var q9 := q8 + "?";
    assert MaxQuery(tableName, key) == q9 + " ";
    OccurrencesAbsent('?', "SELECT MAX(`");
    OccurrencesAbsent('?', key);
    OccurrencesAppend('?', "SELECT MAX(`", key);
    OccurrencesAbsent('?', "`) FROM `");
    OccurrencesAppend('?', q1, "`) FROM `");
    OccurrencesAbsent('?', tableName);
    OccurrencesAppend('?', q2, tableName);
    OccurrencesAbsent('?', "` WHERE `");
    OccurrencesAppend('?', q3, "` WHERE `");
    OccurrencesAppend('?', q4, key);
    OccurrencesAbsent('?', "` % ");
    OccurrencesAppend('?', q5, "` % ");
    OccurrencesAppend('?', q6, "?");
    OccurrencesAbsent('?', " = ");
    OccurrencesAppend('?', q7, " = ");
    OccurrencesAppend('?', q8, "?");
    OccurrencesAbsent('?', " ");
    OccurrencesAppend('?', q9, " ");
  }

  /**
   * Where the placeholders of max's query sit: the first right after `` ` % ``,
   * so it binds the modulus, and the second right after ` = `, so it binds the
   * remainder; the text ends with one space after the second.
   */
  lemma MaxQueryPlaceholderPositions(tableName: string, key: string)
    ensures var q, p := MaxQuery(tableName, key), 12 + |key| + 9 + |tableName| + 9 + |key|;
      && |q| == p + 10
      && q[p..p + 4] == "` % " && q[p + 4] == '?'
      && q[p + 5..p + 8] == " = " && q[p + 8] == '?' && q[p + 9] == ' '
  {
    var head := "SELECT MAX(`" + key + "`) FROM `" + tableName + "` WHERE `" + key;
    var tail := "` % ? = ? ";
    assert MaxQuery(tableName, key) == head + tail;
    assert |head| == 12 + |key| + 9 + |tableName| + 9 + |key|;
    SliceAfter(head, tail, 0, 4);
    SliceAfter(head, tail, 5, 8);
  }

  /** The error half of a (value, error) pair: Some(e) on failure, None on success. */
  function ErrorOf<T>(r: Result<T, Error>): Option<Error> {
    if r.Failure? then Some(r.error) else None
  }

  // ---------------------------------------------------------------------------
  // The package state
  // ---------------------------------------------------------------------------

  /** The package globals _writeDatabase, _readDatabases and _once. */
  class Cluster {
    var writer: DB
    var readers: seq<DB>
    /** Whether _once has run its body. */
    var initialised: bool

    /**
     * Before Init nothing is open; every reader Init stores is non-nil, and
     * every stored pool is a pool of its own: no reader is the writer or
     * another reader.
     */
    ghost predicate Valid()
      reads this
    {
      && (!initialised ==> writer == None && readers == [])
      && (forall i :: 0 <= i < |readers| ==> readers[i].Some? && readers[i] != writer)
      && (forall i, j :: 0 <= i < j < |readers| ==> readers[i] != readers[j])
    }

    /** The zero values of the globals. */
    constructor ()
      ensures Valid() && !initialised && writer == None && readers == []
    {
      writer, readers, initialised := None, [], false;
    }

    /**
     * The error the first Init reports: the writer's, else the readers'. The
     * writer is the pool of the process's first sql.Open call, the readers
     * those of the calls after it.
     */
    static function InitError(cfg: DatabaseCluster, open: Opener): (err: Option<Error>)
      ensures OpenWriteDatabase(cfg, open, 0).Failure? ==> err == Some(OpenWriteDatabase(cfg, open, 0).error)
      ensures OpenWriteDatabase(cfg, open, 0).Success? ==> err == ErrorOf(OpenEach(open, cfg.driver, ReaderDsns(cfg, cfg.read), 1))
      ensures err == None <==>
        && open(cfg.driver, EndpointDsn(cfg, cfg.write)) == None
        && forall i :: 0 <= i < |cfg.read| ==> open(cfg.driver, ReaderDsns(cfg, cfg.read)[i]) == None
    {
      match OpenWriteDatabase(cfg, open, 0)
      case Failure(e) => Some(e)
      case Success(_) => ErrorOf(OpenEach(open, cfg.driver, ReaderDsns(cfg, cfg.read), 1))
    }

    /**
     * Init: the first call opens the writer and, only if that worked, the
     * readers. Later calls skip the once-body, so they change nothing and
     * return nil whatever the first call returned.
     */
    method Init(cfg: DatabaseCluster, open: Opener) returns (err: Option<Error>, ghost attempts: seq<string>)
      requires Valid()
      modifies this
      ensures Valid() && initialised
      ensures old(initialised) ==>
        writer == old(writer) && readers == old(readers) && err == None && attempts == []
      ensures !old(initialised) ==> err == InitError(cfg, open)
      ensures !old(initialised) ==>
        match OpenWriteDatabase(cfg, open, 0)
        case Failure(_) =>
          writer == None && readers == old(readers) && attempts == [EndpointDsn(cfg, cfg.write)]
        case Success(w) =>
          && writer == Some(w)
          && attempts == [EndpointDsn(cfg, cfg.write)] + Attempted(open, cfg.driver, ReaderDsns(cfg, cfg.read))
          && readers == match OpenEach(open, cfg.driver, ReaderDsns(cfg, cfg.read), 1) case Success(dbs) => dbs case Failure(_) => []
    {
      err, attempts := None, [];
      if !initialised {
        initialised := true;
        var w := OpenWriteDatabase(cfg, open, 0);
        attempts := [EndpointDsn(cfg, cfg.write)];
        if w.Failure? {
          writer, err := None, Some(w.error);
        } else {
          writer := Some(w.value);
          ghost var readerAttempts;
          readers, err, readerAttempts := OpenReadDatabases(cfg, open, 1);
          attempts := attempts + readerAttempts;
        }
      }
    }

    /**
     * Close: close the writer if set, then every non-nil reader in order,
     * never stopping early; report the last error. The handles stay stored.
     */
    method Close(close: Closer) returns (err: Option<Error>, ghost attempted: seq<Handle>)
      ensures attempted == CloseTargets(writer, readers)
      ensures err == LastError(close, CloseTargets(writer, readers))
    {
      err, attempted := None, [];
      if writer.Some? {
        attempted := [writer.value];
        var e := close(writer.value);
        if e.Some? {
          err := e;
        }
      }
      for i := 0 to |readers|
        invariant attempted == CloseTargets(writer, readers[..i])
        invariant err == LastError(close, attempted)
      {
        assert readers[..i + 1][..i] == readers[..i];
        if readers[i].Some? {
          assert (attempted + [readers[i].value])[..|attempted|] == attempted;
          attempted := attempted + [readers[i].value];
          var e := close(readers[i].value);
          if e.Some? {
            err := e;
          }
        }
        assert attempted == CloseTargets(writer, readers[..i + 1]);
      }
      assert readers[..|readers|] == readers;
    }

    /** query: run a read query on the selected reader; logs the query text on failure. */
    function Query(debug: bool, r: int, query: string, args: seq<Value>,
                   driver: (Handle, string, seq<Value>) -> Result<Rows, Error>): (o: Outcome<Rows>)
      reads this
      requires Valid() && 0 <= r < |readers|
      ensures PassesThrough(driver(readers[r].value, query, args), o)
      ensures o.logged == if debug && driver(readers[r].value, query, args).Failure?
                          then [LogLine("query", query)] else []
    {
      Report(driver(SelectDB(readers, r).value, query, args), debug, [LogLine("query", query)])
    }

    /** queryRow: the lazily evaluated row of the selected reader; nothing is logged. */
    function QueryRow(r: int, query: string, args: seq<Value>, driver: (Handle, string, seq<Value>) -> Row): (row: Row)
      reads this
      requires Valid() && 0 <= r < |readers|
      ensures row == driver(readers[r].value, query, args)
    {
      driver(SelectDB(readers, r).value, query, args)
    }

    /** prepare: prepare a statement on the writer; logs the query text on failure. */
    function Prepare(debug: bool, query: string, driver: (Handle, string) -> Result<Stmt, Error>): (o: Outcome<Stmt>)
      reads this
      requires writer.Some?
      ensures PassesThrough(driver(writer.value, query), o)
      ensures o.logged == if debug && driver(writer.value, query).Failure? then [LogLine("prepare", query)] else []
    {
      Report(driver(writer.value, query), debug, [LogLine("prepare", query)])
    }

    /** exec: execute a statement on the writer; logs the query and its arguments on failure. */
    function Exec(debug: bool, query: string, args: seq<Value>,
                  driver: (Handle, string, seq<Value>) -> Result<ExecResult, Error>): (o: Outcome<ExecResult>)
      reads this
      requires writer.Some?
      ensures PassesThrough(driver(writer.value, query, args), o)
      ensures o.logged == if debug && driver(writer.value, query, args).Failure?
                          then [LogLine("exec", query), LogLine("args", FormatArgs(args))] else []
    {
      Report(driver(writer.value, query, args), debug, [LogLine("exec", query), LogLine("args", FormatArgs(args))])
    }

    /** begin: start a transaction on the writer; nothing is logged. */
    function Begin(driver: Handle -> Result<Tx, Error>): (o: Outcome<Tx>)
      reads this
      requires writer.Some?
      ensures PassesThrough(driver(writer.value), o)
      ensures o.logged == []
    {
      Report(driver(writer.value), false, [])
    }

    /**
     * max: the largest key in the shard `key % appNum == appID`, read from the
     * selected reader. A scan error gives 0 and that error; a NULL aggregate
     * (no matching row) gives 0 and no error.
     */
    function Max(tableName: string, key: string, appID: uint64, appNum: uint64, r: int,
                 driver: (Handle, string, seq<Value>) -> Row, scan: Row -> Result<Option<uint64>, Error>): (res: (uint64, Option<Error>))
      reads this
      requires Valid() && 0 <= r < |readers|
      ensures var s := scan(driver(readers[r].value, MaxQuery(tableName, key), [Uint(appNum), Uint(appID)]));
        && res.1 == ErrorOf(s)
        && (s.Failure? ==> res.0 == 0)
        && (s == Success(None) ==> res.0 == 0)
        && (s.Success? && s.value.Some? ==> res.0 == s.value.value)
    {
      var row := QueryRow(r, MaxQuery(tableName, key), MaxArgs(appID, appNum), driver);
      match scan(row)
      case Failure(e) => (0, Some(e))
      case Success(None) => (0, None)
      case Success(Some(v)) => (v, None)
    }
  }

  /**
   * After a successful first Init, Close has one distinct pool per endpoint to
   * close, the writer first, even when several endpoints have the same settings.
   */
  lemma InitPoolsDistinct(cfg: DatabaseCluster, open: Opener)
    requires Cluster.InitError(cfg, open) == None
    ensures OpenWriteDatabase(cfg, open, 0).Success?
    ensures OpenEach(open, cfg.driver, ReaderDsns(cfg, cfg.read), 1).Success?
    ensures var ct := CloseTargets(Some(OpenWriteDatabase(cfg, open, 0).value),
                                   OpenEach(open, cfg.driver, ReaderDsns(cfg, cfg.read), 1).value);
      && |ct| == |cfg.read| + 1
      && forall i, j :: 0 <= i < j < |ct| ==> ct[i] != ct[j]
  {
    var dsns := ReaderDsns(cfg, cfg.read);
    var w := OpenWriteDatabase(cfg, open, 0).value;
    OpenEachAllOrNothing(open, cfg.driver, dsns, 1);
    OpenEachDistinct(open, cfg.driver, dsns, 1);
    var rs := OpenEach(open, cfg.driver, dsns, 1).value;
    assert forall i :: 0 <= i < |rs| ==> rs[i].Some? && rs[i] != Some(w);
    CloseTargetsCoverAll(Some(w), rs);
    CloseTargetsDistinct(Some(w), rs);
  }

  /**
   * Two calls of Init on fresh state: the first reports the outcome of opening,
   * the second reports nil even when the first failed.
   */
  method InitTwice(cfg: DatabaseCluster, open: Opener) returns (first: Option<Error>, second: Option<Error>)
    ensures first == Cluster.InitError(cfg, open)
    ensures second == None
  {
    var c := new Cluster();
    ghost var a1, a2;
    first, a1 := c.Init(cfg, open);
    second, a2 := c.Init(cfg, open);
  }
}
