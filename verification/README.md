# phpmig PDO SQL adapter, modelled in Dafny

phpmig records which database migrations have been applied in a tracking
table. Its PDO adapter (`Phpmig\Adapter\PDO\Sql`) turns the runner's five
requests into SQL and sends that SQL to a PDO connection:

- list the applied versions (`fetchAll`);
- mark a version applied (`up`);
- mark a version reverted (`down`);
- ask whether the tracking table exists (`hasSchema`);
- create the tracking table (`createSchema`).

This project models the two pieces of that adapter that hold logic, plus the
object around them:

- `SqlQueries` is the dialect table, `getQuery` with `quotedTableName`. It is
  a pure function of the driver name, the table name and the query type. The
  result is the SQL text, or the invalid-argument error for an unknown query
  type. The PHP `switch` has the case labels `'sqlite'`, `'mysql'` and
  `'pgsql'` and a `default`; `mysql` and `pgsql` share the default body, so
  only `"sqlite"` changes the result. The switch compares with loose `==`,
  but `"sqlite"` is not a numeric string, so that comparison is exact string
  equality, and the model writes it that way.
- `TableScan` is the loop in `hasSchema`. The cursor is a `seq<string>`
  read by position. Each read yields a column value, or `false` once the rows
  run out. The loop stops at the first value PHP treats as false: `false`,
  `""` or `"0"`. So the answer is "the table name occurs before the first
  falsy entry", not plain membership. `Scan` is proved against the
  specification predicate `TableListed`. It also reports how many fetches it
  made, which shows that it stops at the first match.
- `PdoSql` holds the class `Sql`, whose fields are `const`: the connection,
  the table name and the driver name. Each method takes its statement from
  `GetQuery` and sends it to a `Connection`. `up`, `down` and `createSchema`
  return the adapter itself. `Connection` stands in for PDO. It holds the
  reported driver name and the requests the adapter has sent, in order.
  Prepared statements carry their parameters separately from the text.

The loop at src/Phpmig/Adapter/PDO/Sql.php:125 stops at the first falsy
value, not at the end of the rows, although the comment at lines 133-134
speaks of going all the way through the list. The model follows the loop
(`TableScan.ZeroNamedTableHidesLaterTables`). The switch in `getQuery` runs
on every call; because the adapter's fields are `const`, the dialect it
picks stays the same for the adapter's whole life.

## Model

| member | source | states |
|---|---|---|
| `SqlQueries.QuotedTableName` | src/Phpmig/Adapter/PDO/Sql.php:46-49 | the quoted name is the table name with one backtick before it and one after it, two characters longer |
| `SqlQueries.QuotedTableNameInjective` | src/Phpmig/Adapter/PDO/Sql.php:46-49 | two table names are quoted alike exactly when they are equal |
| `SqlQueries.QuotedTableNameKeepsBackticks` | src/Phpmig/Adapter/PDO/Sql.php:46-49 | quoting adds exactly two backticks; backticks inside the name are not escaped |
| `SqlQueries.SqliteQueries` | src/Phpmig/Adapter/PDO/Sql.php:178-192 | the sqlite set defines exactly the five query types |
| `SqlQueries.DefaultQueries` | src/Phpmig/Adapter/PDO/Sql.php:194-210 | the mysql/pgsql/default set defines exactly the same five query types |
| `SqlQueries.Queries` | src/Phpmig/Adapter/PDO/Sql.php:174-211 | whichever driver is reported, the chosen set has exactly the five keys |
| `SqlQueries.GetQuery` | src/Phpmig/Adapter/PDO/Sql.php:170-221 | fails exactly when the query type is not one of the five, for every driver; the error is the invalid-argument error naming the type |
| `SqlQueries.NonSqliteDriversShareQueries` | src/Phpmig/Adapter/PDO/Sql.php:176-211 | any two driver names other than "sqlite" (mysql, pgsql, unknown) get identical answers for every query type |
| `SqlQueries.TableQueriesEmbedQuotedName` | src/Phpmig/Adapter/PDO/Sql.php:179-209 | fetchAll, up, down and createSchema succeed in both dialects, and their text contains the quoted table name |
| `SqlQueries.FetchAllIsShared` | src/Phpmig/Adapter/PDO/Sql.php:181-199 | the fetchAll text is the same for every driver; it starts with the select of `version` from the quoted table and ends with the ascending ORDER BY on `version` |
| `SqlQueries.VersionQueriesUsePlaceholder` | src/Phpmig/Adapter/PDO/Sql.php:183-203 | up and down succeed in both dialects and their text contains the `:version` placeholder |
| `SqlQueries.HasSchemaProbe` | src/Phpmig/Adapter/PDO/Sql.php:187-205 | the probe does not depend on the table name; it starts with SHOW TABLES exactly when the driver is not sqlite, and reads `sqlite_master` exactly when it is |
| `SqlQueries.CreateSchemaColumnType` | src/Phpmig/Adapter/PDO/Sql.php:189-207 | createSchema ends with the untyped `version` NOT NULL column exactly when the driver is sqlite, and with the VARCHAR(255) NOT NULL column exactly when it is not |
| `TableScan.FetchColumn` | src/Phpmig/Adapter/PDO/Sql.php:125 | a fetch yields the entry at its position while rows remain, and false after the last row |
| `TableScan.LiveLength` | src/Phpmig/Adapter/PDO/Sql.php:125 | every entry before the live length is truthy, and the fetch at the live length is falsy (an empty or "0" value, or the end of the rows) |
| `TableScan.Scan` | src/Phpmig/Adapter/PDO/Sql.php:123-136 | finds the table exactly when it occurs before the first falsy entry; on a match, the last fetch is its first occurrence; otherwise it fetched every live entry plus the falsy one |
| `TableScan.AllTruthyIsMembership` | src/Phpmig/Adapter/PDO/Sql.php:125-131 | when no entry is "" or "0", the scan answers plain membership |
| `TableScan.EmptyCursorNotListed` | src/Phpmig/Adapter/PDO/Sql.php:133-136 | an empty cursor gives false |
| `TableScan.ListedImpliesPresent` | src/Phpmig/Adapter/PDO/Sql.php:125-130 | the scan never reports a table that the cursor does not contain |
| `TableScan.FalsyTableNameNeverListed` | src/Phpmig/Adapter/PDO/Sql.php:125-130 | a configured table name of "" or "0" is never found |
| `TableScan.ZeroNamedTableHidesLaterTables` | src/Phpmig/Adapter/PDO/Sql.php:125 | a table named "0" at the head of the cursor hides every table after it |
| `PdoSql.Sql.constructor` | src/Phpmig/Adapter/PDO/Sql.php:39-44 | keeps the connection and table name and takes the driver name the connection reports; all three are constant afterwards |
| `PdoSql.Sql.FetchAll` | src/Phpmig/Adapter/PDO/Sql.php:56-65 | sends exactly one query, the dialect's fetchAll text in column-0 fetch mode, and returns the fetched column unchanged |
| `PdoSql.Sql.Up` | src/Phpmig/Adapter/PDO/Sql.php:73-85 | sends exactly one prepared statement, the dialect's up text, with the version bound to `:version` only; returns the same adapter |
| `PdoSql.Sql.Down` | src/Phpmig/Adapter/PDO/Sql.php:93-105 | sends exactly one prepared statement, the dialect's down text, with the version bound to `:version` only; returns the same adapter |
| `PdoSql.Sql.HasSchema` | src/Phpmig/Adapter/PDO/Sql.php:113-137 | sends exactly the dialect's probe query; the answer is true exactly when the table name occurs before the first falsy entry of the returned names |
| `PdoSql.Sql.CreateSchema` | src/Phpmig/Adapter/PDO/Sql.php:145-156 | executes exactly the dialect's createSchema text; returns the same adapter |

## Left out

- What the database does with the statements is not modelled: inserted and deleted rows, result ordering, duplicate rows, and errors such as a missing or already existing table. The rows that `fetchAll` and `hasSchema` read back are parameters of `Sql.FetchAll` and `Sql.HasSchema`.
- `PDOException` and the PDO error mode are not modelled. A failing statement is not represented.
- The migration object is not part of this model. `Migration::getVersion()` becomes the version string passed to `Up` and `Down`.
- `prepare` followed by `execute` is one request, `PreparedExecute`, in the model.
- `TableScan.Scan`: compares with exact string equality, not PHP's loose `==`. Under loose `==`, two numeric strings compare as numbers, so `"1e3"` matches `"1000"`.
- `TableScan.FalsyTableNameNeverListed`: its `"0"` half holds only under the model's exact equality. Under PHP's loose `==`, `"00" == "0"`, and `"00"` is truthy, so the source finds a table name `"0"` in the rows `["00"]`. The `""` half holds in both.
- `TableScan.Scan`: the cursor holds strings only, so a NULL column value is not modelled. PHP treats it as falsy, like `""`.
- The driver name is a string; a non-string attribute value from `getAttribute` is not modelled.
