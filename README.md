# Read/write-split database access layer, modelled in Dafny

This project models `article/repository/repository.go`: a thin layer over Go's
`database/sql` that keeps one writer connection pool and an ordered list of
reader pools as package globals. It opens them once (`Init`, guarded by a
`sync.Once`) and closes them at shutdown (`Close`). It picks a reader at random
for each read (`selectDB`). It wraps the driver's query, prepare, exec and
transaction calls so that a failure returns the driver's error unchanged, and
logs the failing query only when the application's debug flag is set. It also
offers `max`, the largest key of one shard of a table.

The driver is an oracle. Every call into `database/sql` (`sql.Open`,
`(*sql.DB).Close`, `Query`, `Prepare`, `Exec`, `Begin`, `Scan`, ...) is a
function parameter of the operation that makes the call, and it returns either
a value or an error that the model's caller picks. Pools, statements,
transactions and rows are opaque tokens (`driver.dfy`). A nil `*sql.DB` is
`None`; a nil slice is the empty sequence, since Go's `len` and `range` do not
tell the two apart.

- `config.dfy`: the cluster configuration, credential fallback and the data
  source name `user:pass@tcp(host:port)/db?charset=cs&parseTime=true`.
- `format.dfy`: Go's `%d` (with its read-back), `%v` on an argument list (with
  where each argument's text lies in it), and counting a character in a string.
- `repository.dfy`: opening the writer and the readers, the `Cluster` class
  (the package globals: `writer`, `readers` and the once-flag `initialised`)
  with `Init` and `Close`, replica selection, the executors and `max`.

The executors are pure functions. Each returns an `Outcome`: Go's
`(result, error)` pair plus the log lines the call appends. `rollback` and
`commit` return only an error, and `queryRow` returns only a row, so they
produce no log lines by construction. Which connection strings were opened
and which pools were closed are recorded as ghost out-parameters, so the
order of driver calls can be stated.

A call of `Init` after the first returns nil even when the first failed:
`err` is local to `Init` and the `sync.Once` body does not run again
(`Cluster.Init`, `InitTwice`).

`sql.Open` returns a new pool at every call that succeeds, even for a data
source name opened before. The opener oracle therefore decides only whether a
call fails and with which error; the pool a successful call returns is
`Handle(n)` for the n-th `sql.Open` call of the process (the writer is call 0,
reader i is call i + 1). Two endpoints with the same settings thus get two
pools, and `Close` may see one of them fail and the other succeed.

## Model

| member | source | states |
|---|---|---|
| `Config.EffectiveCredentials` | article/repository/repository.go:80-86 | an endpoint missing its user name or password gets both defaults; an endpoint with both set keeps both; the result is never a mix, and an empty effective field means the defaults were used |
| `Config.CredentialExamples` | article/repository/repository.go:116-122 | reader `ro`/`y` keeps `ro`; a reader without a password gets `root`; one with neither gets `root`/`x` |
| `Config.DataSourceName` | article/repository/repository.go:88-94 | the `Sprintf` of the connection string; characterised by `DataSourceNameLayout` and `DataSourceNameDeterminesPort` |
| `Config.EndpointDsn` | article/repository/repository.go:124-130 | the connection string of one endpoint with its resolved credentials; characterised through `EffectiveCredentials` and `ReaderDsnsAt` |
| `Config.DataSourceNameLayout` | article/repository/repository.go:88-94 | every connection string starts with `user:` and ends with `&parseTime=true` |
| `Config.DataSourceNameDeterminesPort` | article/repository/repository.go:88-94 | two connection strings equal in all else are equal only if their ports are equal |
| `Format.FormatNat` | article/repository/repository.go:88 | the decimal digits of a natural number, as `%d` prints a non-negative value and `%v` an unsigned argument; characterised by `FormatNatDenotes` |
| `Format.FormatInt` | article/repository/repository.go:88 | `%d` on the port; characterised by `FormatNatDenotes`, `ParseFormatInt` and `FormatIntInjective` |
| `Format.FormatNatDenotes` | article/repository/repository.go:88 | the `%d` digits of a natural number are non-empty decimal digits, have no leading zero, and denote that number |
| `Format.ParseFormatInt` | article/repository/repository.go:88 | `%d` text reads back as the same integer, sign included |
| `Format.FormatIntInjective` | article/repository/repository.go:88 | distinct integers get distinct `%d` texts |
| `Format.FormatValue` | article/repository/repository.go:212 | `%v` on one argument; its place in the `args:` line is given by `FormatArgsShowsEach` |
| `Format.Texts` | article/repository/repository.go:212 | the `%v` texts of the arguments, in order; used by `FormatArgsShowsEach` |
| `Format.Join` | article/repository/repository.go:212 | the texts separated by single spaces; characterised by `JoinLayout` and `JoinLength` |
| `Format.JoinLayout` | article/repository/repository.go:212 | every text appears in the joined text, in order, at its offset, followed by one space unless it is the last |
| `Format.JoinLength` | article/repository/repository.go:212 | the joined text holds nothing but the texts and the spaces between them |
| `Format.FormatArgs` | article/repository/repository.go:212 | `%v` on an argument slice is `[`, the joined argument texts and `]`; an empty slice prints `[]` |
| `Format.FormatArgsShowsEach` | article/repository/repository.go:212 | each argument's `%v` text appears in the `args:` text, in order, one space after the previous one, the last one just before `]` |
| `Repository.OpenWriteDatabase` | article/repository/repository.go:74-103 | the writer is opened with the writer's own host and port and its resolved credentials; it succeeds exactly when `sql.Open` returns nil, with the pool of that call, and otherwise returns that error |
| `Repository.ReaderDsns` | article/repository/repository.go:114-130 | the readers' connection strings in configuration order, one per reader; characterised by `ReaderDsnsAt` |
| `Repository.ReaderDsnsAt` | article/repository/repository.go:114-130 | reader i is opened with reader i's own host, port and resolved credentials |
| `Repository.FirstFailure` | article/repository/repository.go:114-134 | the index where reader opening stops: every earlier open succeeds, and this one fails unless all succeeded |
| `Repository.OpenEach` | article/repository/repository.go:114-141 | the outcome of opening the readers; characterised by `OpenEachAllOrNothing` and `OpenEachDistinct` |
| `Repository.Attempted` | article/repository/repository.go:114-134 | the names `sql.Open` is called with; characterised by `AttemptedStopsAtFirstFailure` |
| `Repository.Pools` | article/repository/repository.go:124-138 | the pools of consecutive `sql.Open` calls; characterised by `PoolsAt` |
| `Repository.PoolsAt` | article/repository/repository.go:124-138 | the i-th pool appended is the pool of the i-th call |
| `Repository.OpenEachAllOrNothing` | article/repository/repository.go:114-141 | the reader list exists exactly when every open succeeds, and then has one new pool per reader in configuration order; otherwise the error is that of the first failing open and there is no list |
| `Repository.OpenEachDistinct` | article/repository/repository.go:124-138 | the reader pools are pairwise distinct and distinct from the pools of earlier `sql.Open` calls |
| `Repository.AttemptedStopsAtFirstFailure` | article/repository/repository.go:132-134 | the opens attempted are a prefix of the readers that ends at the first failure: no later reader is attempted |
| `Repository.OpenInOrder` | article/repository/repository.go:114-141 | the loop returns the all-or-nothing reader list and error above, and attempts exactly that prefix |
| `Repository.OpenReadDatabases` | article/repository/repository.go:106-142 | the same for the readers' connection strings in configuration order; the i-th pool is that of the i-th call |
| `Repository.Present` | article/repository/repository.go:60-68 | the non-nil readers in list order; characterised by `PresentMembers` and `PresentWhenNoneNil` |
| `Repository.PresentMembers` | article/repository/repository.go:60-68 | the readers Close reaches are exactly the non-nil entries |
| `Repository.PresentWhenNoneNil` | article/repository/repository.go:60-68 | with no nil entry, Close reaches every reader, in list order |
| `Repository.CloseTargets` | article/repository/repository.go:49-71 | the pools Close closes, in order; characterised by `CloseTargetsCoverAll` and `CloseTargetsDistinct` |
| `Repository.CloseTargetsCoverAll` | article/repository/repository.go:49-71 | Close attempts the writer, if set, first, and then every non-nil reader; after a successful Init that is the writer and every reader in order |
| `Repository.CloseTargetsDistinct` | article/repository/repository.go:49-71 | when every reader is set and no stored pool repeats, Close closes each pool exactly once |
| `Repository.LastError` | article/repository/repository.go:51-70 | the error Close returns; characterised by `LastErrorIsLastFailure` |
| `Repository.LastErrorIsLastFailure` | article/repository/repository.go:51-70 | Close reports nil exactly when every close succeeds; otherwise it reports the error of a failing close after which all closes succeeded |
| `Repository.ShutdownAggregation` | article/repository/repository.go:49-71 | with a writer and three readers where only the second reader fails, all four are closed and that failure is returned |
| `Repository.SelectDB` | article/repository/repository.go:144-146 | given an index in `[0, len)`, the chosen pool is the entry at that index and so a member of the list |
| `Repository.LogLine` | article/repository/repository.go:154 | a diagnostic line is its tag, `: `, exactly the text, and a newline |
| `Repository.Report` | article/repository/repository.go:152-159 | the shared wrapper contract: success passes the driver's value through with no log; failure gives a nil result, exactly the driver's error, and the diagnostics only when debugging |
| `Repository.TxPrepare` | article/repository/repository.go:180-192 | the transaction's prepare result or error passes through unchanged; one `txPrepare:` line is logged only on failure and only with debug on |
| `Repository.StmtExec` | article/repository/repository.go:194-203 | the statement's result or error passes through unchanged; nothing is logged |
| `Repository.TxExec` | article/repository/repository.go:224-237 | the result or error passes through unchanged; on a failure with debug on, a `txExec:` line and then an `args:` line are logged, otherwise nothing |
| `Repository.Rollback` | article/repository/repository.go:239-241 | the driver's error, unchanged |
| `Repository.Commit` | article/repository/repository.go:243-245 | the driver's error, unchanged |
| `Repository.MaxQuery` | article/repository/repository.go:254 | the query text of max; its placeholders are counted by `MaxQueryPlaceholders` |
| `Repository.MaxArgs` | article/repository/repository.go:256 | max binds two arguments, `appNum` then `appID`, which `MaxQueryPlaceholderPositions` places as the modulus and the remainder |
| `Repository.MaxQueryPlaceholderPositions` | article/repository/repository.go:254-256 | the first `?` of max's query comes right after `` ` % `` and so is the modulus, the second right after ` = ` and so is the remainder, and one space ends the text |
| `Repository.MaxQueryPlaceholders` | article/repository/repository.go:254-256 | with identifiers free of `?`, the query text of max has exactly as many `?` placeholders as max binds arguments |
| `Repository.Cluster.constructor` | article/repository/repository.go:25-29 | the globals start nil, empty and not yet initialised |
| `Repository.Cluster.InitError` | article/repository/repository.go:36-43 | the first Init reports the writer's error, else the readers' error; it reports nil exactly when the writer and every reader open |
| `Repository.Cluster.Init` | article/repository/repository.go:32-46 | a writer failure clears the writer, skips the readers and returns the error; a reader failure keeps the writer, leaves no reader list and returns the error; success stores the writer and every reader; any later call changes nothing and returns nil; the stored pools never repeat |
| `Repository.InitPoolsDistinct` | article/repository/repository.go:36-43 | after a successful first Init, Close has one distinct pool per endpoint, the writer first, even when endpoints share settings |
| `Repository.InitTwice` | article/repository/repository.go:32-46 | a second Init returns nil whatever the first one returned |
| `Repository.Cluster.Close` | article/repository/repository.go:49-71 | closes exactly the writer-then-non-nil-readers sequence, never stopping early, and returns the last failure in that order; the stored pools are not modified |
| `Repository.Cluster.Query` | article/repository/repository.go:148-160 | runs on the selected reader; the rows or error pass through unchanged; one `query:` line is logged only on failure and only with debug on |
| `Repository.Cluster.QueryRow` | article/repository/repository.go:162-164 | the row comes from the selected reader; nothing is logged |
| `Repository.Cluster.Prepare` | article/repository/repository.go:166-178 | runs on the writer; the statement or error passes through unchanged; one `prepare:` line is logged only on failure and only with debug on |
| `Repository.Cluster.Exec` | article/repository/repository.go:205-218 | runs on the writer; the result or error passes through unchanged; on a failure with debug on, an `exec:` line and then an `args:` line are logged, otherwise nothing |
| `Repository.Cluster.Begin` | article/repository/repository.go:220-222 | runs on the writer; the transaction or error passes through unchanged; nothing is logged |
| `Repository.Cluster.Max` | article/repository/repository.go:252-271 | reads the row for `MaxQuery` with `(appNum, appID)` from the selected reader; a scan error gives `(0, err)`, a NULL aggregate gives `(0, nil)`, a value v gives `(v, nil)`; there is an error exactly when the scan failed |

## Left out

- `sql.Open`, pooling and `SetMaxIdleConns(0)` (lines 100 and 136): these are library calls. Only the success or error of opening is modelled. Whether a call fails is a function of the driver name and the connection string, which holds for `sql.Open` because it does not connect.
- `Repository.OpenReadDatabases` builds all reader connection strings before the first `sql.Open` call. The Go loop builds each one just before its call. Building a string calls nothing, so the sequence of `sql.Open` calls is the same.
- Concurrency: `sync.Once` becomes a sequential `initialised` flag. Callers blocking on a concurrent first call are not modelled.
- `helper.RandMax` is not part of this model, so uniform selection is not stated. The drawn index is a parameter with a range precondition. On an empty reader list the Go code panics; the executors here require an index in range instead.
- Calls on a nil `*sql.DB` panic in Go. `Prepare`, `Exec` and `Begin` require a set writer, and the reader executors require an initialised state whose readers are all non-nil (`Valid`). A nil `cfg.Read` pointer, which `openReadDatabases` dereferences, is not modelled.
- The `log` sink, its timestamp prefix and `config.App().AppDebug`: debug is a boolean parameter, and the log is the sequence of formatted lines each call appends.
- `%v` is modelled only for null, boolean, integer, unsigned and text arguments. Floating point, time and byte-slice arguments are left out.
- SQL semantics on the server (what `MAX` and `%` compute): the scanned value is the oracle's.
- `queryRow`'s lazy errors, beyond what `max` does with its scan result.
- `now()` (the wall clock) and the unused constants `_pageSize` and `_maxPageSize`.
- `Repository.Rollback`, `Repository.Commit`, `Repository.Cluster.QueryRow`: these three return the driver's answer unchanged. Their contracts can say no more, and "never logs" holds by their result types.
