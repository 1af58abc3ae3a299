/**
 * The PDO adapter object: it keeps the connection, the table name and the
 * driver name fixed from construction on, and each operation picks its
 * statement from the dialect table and hands it to the connection.
 */
module PdoSql {
  import opened SqlQueries
  import TableScan

  /** How a query's rows are fetched: PDO's default mode, or one column by index. */
  datatype FetchMode = DefaultMode | ColumnMode(column: nat)

  /** One call the adapter makes on the PDO connection. */
  datatype Request =
    | Query(sql: string, mode: FetchMode)                       // query($sql[, $mode, $column])
    | PreparedExecute(sql: string, params: map<string, string>) // prepare($sql)->execute($params)
    | Exec(sql: string)                                         // exec($sql)

  /**
   * The PDO connection as far as the adapter can see it: the driver name it
   * reports and the requests sent to it, in order. What the database does
   * with them is not modelled.
   */
  class Connection {
    const driverName: string
    var requests: seq<Request>

    constructor (driverName: string)
      ensures this.driverName == driverName && requests == []
    {
      this.driverName := driverName;
      requests := [];
    }

    /** Hands one request to the database. */
    method Send(request: Request)
      modifies this
      ensures requests == old(requests) + [request]
    {
      requests := requests + [request];
    }
  }

  class Sql {
    const connection: Connection
    const tableName: string
    const pdoDriverName: string

    /** Keeps the connection and table name and reads the driver name once. */
    constructor (connection: Connection, tableName: string)
      ensures this.connection == connection && this.tableName == tableName
      ensures pdoDriverName == connection.driverName
    {
      this.connection := connection;
      this.tableName := tableName;
      this.pdoDriverName := connection.driverName;
    }

    /**
     * Lists the applied versions. `rows` is the version column the database
     * returns for the query; the adapter passes it on unchanged.
     */
    method FetchAll(rows: seq<string>) returns (versions: seq<string>)
      modifies connection
      ensures connection.requests
              == old(connection.requests) + [Query(GetQuery(pdoDriverName, tableName, "fetchAll").value, ColumnMode(0))]
      ensures versions == rows
    {
      var sql := GetQuery(pdoDriverName, tableName, "fetchAll").value;
      connection.Send(Query(sql, ColumnMode(0)));
      versions := rows;
    }

    /** Records a migration as applied; the version travels only as a bound parameter. */
    method Up(version: string) returns (self: Sql)
      modifies connection
      ensures self == this
      ensures connection.requests == old(connection.requests)
              + [PreparedExecute(GetQuery(pdoDriverName, tableName, "up").value, map[VersionPlaceholder := version])]
    {
      var sql := GetQuery(pdoDriverName, tableName, "up").value;
      connection.Send(PreparedExecute(sql, map[VersionPlaceholder := version]));
      self := this;
    }

    /** Records a migration as reverted; the version travels only as a bound parameter. */
    method Down(version: string) returns (self: Sql)
      modifies connection
      ensures self == this
      ensures connection.requests == old(connection.requests)
              + [PreparedExecute(GetQuery(pdoDriverName, tableName, "down").value, map[VersionPlaceholder := version])]
    {
      var sql := GetQuery(pdoDriverName, tableName, "down").value;
      connection.Send(PreparedExecute(sql, map[VersionPlaceholder := version]));
      self := this;
    }

    /**
     * Asks whether the migrations table exists. `tables` is the name column
     * the database returns for the probe query.
     */
    method HasSchema(tables: seq<string>) returns (found: bool)
      modifies connection
      ensures connection.requests
              == old(connection.requests) + [Query(GetQuery(pdoDriverName, tableName, "hasSchema").value, DefaultMode)]
      ensures found <==> TableScan.TableListed(tables, tableName)
    {
      var sql := GetQuery(pdoDriverName, tableName, "hasSchema").value;
      connection.Send(Query(sql, DefaultMode));
      var fetches;
      found, fetches := TableScan.Scan(tables, tableName);
    }

    /** Creates the migrations table. */
    method CreateSchema() returns (self: Sql)
      modifies connection
      ensures self == this
      ensures connection.requests
              == old(connection.requests) + [Exec(GetQuery(pdoDriverName, tableName, "createSchema").value)]
    {
      var sql := GetQuery(pdoDriverName, tableName, "createSchema").value;
      connection.Send(Exec(sql));
      self := this;
    }
  }
}
