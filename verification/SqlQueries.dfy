/**
 * The adapter's SQL dialect table: which statement text it uses for each
 * logical query, given the driver name the connection reported and the
 * configured migrations table name.
 */
module SqlQueries {
  import opened Wrappers
  import opened Strings

  /** The exception getQuery throws for a query type it does not know. */
  datatype QueryError = InvalidArgument(message: string)

  /** The five query types both dialects define. */
  const QueryTypes: set<string> := {"fetchAll", "up", "down", "hasSchema", "createSchema"}

  /** The query types whose text names the migrations table. */
  const TableQueryTypes: set<string> := {"fetchAll", "up", "down", "createSchema"}

  /** The query types that write one version through the `:version` parameter. */
  const VersionQueryTypes: set<string> := {"up", "down"}

  /** The named parameter through which up and down receive the version. */
  const VersionPlaceholder: string := ":version"

  /** The only driver name with a dialect of its own. */
  const SqliteDriver: string := "sqlite"

  /** The table name wrapped in backticks; characters inside it are not escaped. */
  function QuotedTableName(tableName: string): (q: string)
    ensures |q| == |tableName| + 2
    ensures q[0] == '`' && q[|q| - 1] == '`'
    ensures q[1..|q| - 1] == tableName
  {
    "`" + tableName + "`"
  }

  /** Two table names are quoted alike only when they are the same name. */
  lemma QuotedTableNameInjective(a: string, b: string)
    ensures QuotedTableName(a) == QuotedTableName(b) <==> a == b
  {
  }

  /** Quoting adds exactly two backticks and leaves those of the name unescaped. */
  lemma QuotedTableNameKeepsBackticks(tableName: string)
    ensures multiset(QuotedTableName(tableName))['`'] == multiset(tableName)['`'] + 2
  {
  }

  /** The statements used when the driver is sqlite. */
  function SqliteQueries(quoted: string): (queries: map<string, string>)
    ensures queries.Keys == QueryTypes
  {
    map[
      "fetchAll" := "SELECT `version` FROM " + quoted + " ORDER BY `version` ASC",
      "up" := "INSERT INTO " + quoted + " VALUES (:version);",
      "down" := "DELETE FROM " + quoted + " WHERE version = :version",
      "hasSchema" := "SELECT `name` FROM `sqlite_master` WHERE `type`='table';",
      "createSchema" := "CREATE table " + quoted + " (`version` NOT NULL);"
    ]
  }

  /** The statements used for mysql, pgsql and every other driver. */
  function DefaultQueries(quoted: string): (queries: map<string, string>)
    ensures queries.Keys == QueryTypes
  {
    map[
      "fetchAll" := "SELECT `version` FROM " + quoted + " ORDER BY `version` ASC",
      "up" := "INSERT into " + quoted + " set version = :version",
      "down" := "DELETE from " + quoted + " where version = :version",
      "hasSchema" := "SHOW TABLES;",
      "createSchema" := "CREATE TABLE " + quoted + " (`version` VARCHAR(255) NOT NULL);"
    ]
  }

  /** The switch on the driver name: exactly "sqlite" picks the sqlite set. */
  function Queries(driverName: string, tableName: string): (queries: map<string, string>)
    ensures queries.Keys == QueryTypes
  {
    if driverName == SqliteDriver then SqliteQueries(QuotedTableName(tableName))
    else DefaultQueries(QuotedTableName(tableName))
  }

  /** The statement for one query type, or the invalid-argument error. */
  function GetQuery(driverName: string, tableName: string, queryType: string): (r: Result<string, QueryError>)
    ensures r.Failure? <==> queryType !in QueryTypes
    ensures r.Failure? ==> r.error == InvalidArgument("Query type not found: '" + queryType + "'")
  {
    var queries := Queries(driverName, tableName);
    if queryType !in queries then Failure(InvalidArgument("Query type not found: '" + queryType + "'"))
    else Success(queries[queryType])
  }

  /** mysql, pgsql and unknown drivers are not told apart: they share every statement. */
  lemma NonSqliteDriversShareQueries(driver1: string, driver2: string, tableName: string, queryType: string)
    requires driver1 != SqliteDriver && driver2 != SqliteDriver
    ensures GetQuery(driver1, tableName, queryType) == GetQuery(driver2, tableName, queryType)
  {
  }

  /** Every statement that names the migrations table contains its quoted name. */
  lemma TableQueriesEmbedQuotedName(driverName: string, tableName: string, queryType: string)
    requires queryType in TableQueryTypes
    ensures GetQuery(driverName, tableName, queryType).Success?
    ensures Contains(GetQuery(driverName, tableName, queryType).value, QuotedTableName(tableName))
  {
    var q := QuotedTableName(tableName);
    var sql := GetQuery(driverName, tableName, queryType).value;
    var pre, post;
    match queryType {
      case "fetchAll" =>
        pre, post := "SELECT `version` FROM ", " ORDER BY `version` ASC";
      case "up" =>
        if driverName == SqliteDriver {
          pre, post := "INSERT INTO ", " VALUES (:version);";
        } else {
          pre, post := "INSERT into ", " set version = :version";
        }
      case "down" =>
        if driverName == SqliteDriver {
          pre, post := "DELETE FROM ", " WHERE version = :version";
        } else {
          pre, post := "DELETE from ", " where version = :version";
        }
      case "createSchema" =>
        if driverName == SqliteDriver {
          pre, post := "CREATE table ", " (`version` NOT NULL);";
        } else {
          pre, post := "CREATE TABLE ", " (`version` VARCHAR(255) NOT NULL);";
        }
    }
    assert sql == pre + q + post;
    InfixAt(pre, q, post);
  }

  /** The fetchAll statement is the same in both dialects and sorts by version ascending. */
  lemma FetchAllIsShared(driverName: string, tableName: string)
    ensures GetQuery(driverName, tableName, "fetchAll") == GetQuery(SqliteDriver, tableName, "fetchAll")
    ensures StartsWith(GetQuery(driverName, tableName, "fetchAll").value,
                       "SELECT `version` FROM " + QuotedTableName(tableName))
    ensures EndsWith(GetQuery(driverName, tableName, "fetchAll").value, " ORDER BY `version` ASC")
  {
  }

  /** Where the placeholder sits in the text after the table name of each up and down statement. */
  lemma PlaceholderInTails()
    ensures ContainsAt(" VALUES (:version);", VersionPlaceholder, 9)
    ensures ContainsAt(" set version = :version", VersionPlaceholder, 15)
    ensures ContainsAt(" WHERE version = :version", VersionPlaceholder, 17)
    ensures ContainsAt(" where version = :version", VersionPlaceholder, 17)
  {
  }

  /** The up and down statements take the version through the `:version` placeholder. */
  lemma VersionQueriesUsePlaceholder(driverName: string, tableName: string, queryType: string)
    requires queryType in VersionQueryTypes
    ensures GetQuery(driverName, tableName, queryType).Success?
    ensures Contains(GetQuery(driverName, tableName, queryType).value, VersionPlaceholder)
  {
    var q := QuotedTableName(tableName);
    var sql := GetQuery(driverName, tableName, queryType).value;
    var head, tail, at;
    if queryType == "up" {
      if driverName == SqliteDriver {
        head, tail, at := "INSERT INTO " + q, " VALUES (:version);", 9;
      } else {
        head, tail, at := "INSERT into " + q, " set version = :version", 15;
      }
    } else {
      if driverName == SqliteDriver {
        head, tail, at := "DELETE FROM " + q, " WHERE version = :version", 17;
      } else {
        head, tail, at := "DELETE from " + q, " where version = :version", 17;
      }
    }
    assert sql == head + tail;
    PlaceholderInTails();
    ContainsAtShift(head, tail, VersionPlaceholder, at);
  }

  /** How the sqlite probe text begins. */
  lemma SqliteProbeHead()
    ensures StartsWith("SELECT `name` FROM `sqlite_master` WHERE `type`='table';", "SELECT `name` FROM `sqlite_master`")
    ensures !StartsWith("SELECT `name` FROM `sqlite_master` WHERE `type`='table';", "SHOW TABLES")
  {
    var head := "SELECT `name` FROM `sqlite_master`";
    var catalog := "SELECT `name` FROM `sqlite_master` WHERE `type`='table';";
    assert catalog == head + " WHERE `type`='table';";
    assert catalog[..11][1] == head[1] == 'E';
  }

  /** How the default probe text begins. */
  lemma DefaultProbeHead()
    ensures StartsWith("SHOW TABLES;", "SHOW TABLES")
    ensures !StartsWith("SHOW TABLES;", "SELECT `name` FROM `sqlite_master`")
  {
  }

  /** The probe text of each dialect. */
  lemma ProbeText(driverName: string, tableName: string)
    ensures GetQuery(driverName, tableName, "hasSchema")
            == Success(if driverName == SqliteDriver then "SELECT `name` FROM `sqlite_master` WHERE `type`='table';"
                       else "SHOW TABLES;")
  {
  }

  /**
   * The table-existence probe does not depend on the table name; sqlite reads
   * its catalog, every other driver issues SHOW TABLES.
   */
  lemma HasSchemaProbe(driverName: string, tableName: string, otherTableName: string)
    ensures GetQuery(driverName, tableName, "hasSchema") == GetQuery(driverName, otherTableName, "hasSchema")
    ensures StartsWith(GetQuery(driverName, tableName, "hasSchema").value, "SHOW TABLES") <==> driverName != SqliteDriver
    ensures StartsWith(GetQuery(driverName, tableName, "hasSchema").value, "SELECT `name` FROM `sqlite_master`")
            <==> driverName == SqliteDriver
  {
    ProbeText(driverName, tableName);
    ProbeText(driverName, otherTableName);
    SqliteProbeHead();
    DefaultProbeHead();
  }

  /**
   * sqlite creates the version column without a type; every other driver
   * declares it VARCHAR(255).
   */
  lemma CreateSchemaColumnType(driverName: string, tableName: string)
    ensures GetQuery(driverName, tableName, "createSchema").Success?
    ensures EndsWith(GetQuery(driverName, tableName, "createSchema").value, " (`version` NOT NULL);")
            <==> driverName == SqliteDriver
    ensures EndsWith(GetQuery(driverName, tableName, "createSchema").value, " (`version` VARCHAR(255) NOT NULL);")
            <==> driverName != SqliteDriver
  {
    var untyped := " (`version` NOT NULL);";
    var typed := " (`version` VARCHAR(255) NOT NULL);";
    var q := QuotedTableName(tableName);
    var sql := GetQuery(driverName, tableName, "createSchema").value;
    if driverName == SqliteDriver {
      var head := "CREATE table " + q;
      assert sql == head + untyped;
      EndsWithAfterPrefix(head, untyped, untyped);
      assert sql[|sql| - |untyped|] == untyped[0] == ' ';
      NotEndsWith(sql, typed, |typed| - |untyped|);
    } else {
      var head := "CREATE TABLE " + q;
      assert sql == head + typed;
      EndsWithAfterPrefix(head, typed, typed);
      EndsWithAfterPrefix(head, typed, untyped);
      assert typed[|typed| - |untyped|] == 'A' != untyped[0];
    }
  }
}
