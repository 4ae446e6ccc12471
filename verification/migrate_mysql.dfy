/**
 * The SQLite-to-MySQL migration script (migrate_to_mysql.py): the fixed
 * table creation list, the migration order built from it and the tables
 * found in SQLite, the drops in reverse order, the column-type mapping and
 * the insert statement's placeholders. The two connections, the SQL they
 * run and the copied rows are left out; the table names SQLite lists and
 * each table's declared columns are parameters.
 */
module MigrateMysql {
  import opened Text
  import opened Seqs

  /** `get_table_creation_order`. */
  const CreationOrder: seq<string> := [
    "categories", "users", "products", "addresses", "tickets", "carts", "orders",
    "order_items", "cart_items", "ticket_messages", "order_status_history",
    "delivery_tracking", "order_notifications", "tasks"]

  /** The tables the comment beside each entry of the list names as its dependencies. */
  function Dependencies(table: string): seq<string> {
    match table
    case "products" => ["categories"]
    case "addresses" => ["users"]
    case "tickets" => ["users"]
    case "carts" => ["users"]
    case "orders" => ["users", "addresses"]
    case "order_items" => ["orders", "products"]
    case "cart_items" => ["carts", "products"]
    case "ticket_messages" => ["tickets"]
    case "order_status_history" => ["orders"]
    case "delivery_tracking" => ["orders"]
    case "order_notifications" => ["orders"]
    case _ => []
  }

  /** Every table of `order` comes after each of its dependencies. */
  predicate DependenciesFirst(order: seq<string>) {
    forall i :: 0 <= i < |order| ==> forall d :: d in Dependencies(order[i]) ==> d in order[..i]
  }

  predicate Distinct(s: seq<string>) {
    forall i, j :: 0 <= i < j < |s| ==> s[i] != s[j]
  }

  /** The creation list names each table once and creates it after the tables it depends on. */
  lemma CreationOrderRespectsDependencies()
    ensures DependenciesFirst(CreationOrder)
    ensures Distinct(CreationOrder)
    ensures "sqlite_sequence" !in CreationOrder
  {
    forall i | 0 <= i < |CreationOrder|
      ensures forall d :: d in Dependencies(CreationOrder[i]) ==> d in CreationOrder[..i]
    {
      if i == 0 {
        assert CreationOrder[0] == "categories";
      } else if i == 1 {
        assert CreationOrder[1] == "users";
      } else if i == 2 {
        assert CreationOrder[2] == "products";
        assert CreationOrder[..2][0] == "categories";
      } else if i == 3 {
        assert CreationOrder[3] == "addresses";
        assert CreationOrder[..3][1] == "users";
      } else if i == 4 {
        assert CreationOrder[4] == "tickets";
        assert CreationOrder[..4][1] == "users";
      } else if i == 5 {
        assert CreationOrder[5] == "carts";
        assert CreationOrder[..5][1] == "users";
      } else if i == 6 {
        assert CreationOrder[6] == "orders";
        assert CreationOrder[..6][1] == "users";
        assert CreationOrder[..6][3] == "addresses";
      } else if i == 7 {
        assert CreationOrder[7] == "order_items";
        assert CreationOrder[..7][6] == "orders";
        assert CreationOrder[..7][2] == "products";
      } else if i == 8 {
        assert CreationOrder[8] == "cart_items";
        assert CreationOrder[..8][5] == "carts";
        assert CreationOrder[..8][2] == "products";
      } else if i == 9 {
        assert CreationOrder[9] == "ticket_messages";
        assert CreationOrder[..9][4] == "tickets";
      } else if i == 10 {
        assert CreationOrder[10] == "order_status_history";
        assert CreationOrder[..10][6] == "orders";
      } else if i == 11 {
        assert CreationOrder[11] == "delivery_tracking";
        assert CreationOrder[..11][6] == "orders";
      } else if i == 12 {
        assert CreationOrder[12] == "order_notifications";
        assert CreationOrder[..12][6] == "orders";
      } else if i == 13 {
        assert CreationOrder[13] == "tasks";
      }
    }
  }

  // ----- the migration order -----

  function NotSequence(t: string): bool {
    t != "sqlite_sequence"
  }

  /** `all_tables`: what `sqlite_master` lists, without SQLite's own `sqlite_sequence`. */
  function ExistingTables(master: seq<string>): (all: seq<string>)
    ensures "sqlite_sequence" !in all
    ensures forall t :: t in master && t != "sqlite_sequence" ==> t in all
    ensures forall t :: t in all ==> t in master
  {
    var all := Filter(master, NotSequence);
    assert forall i :: 0 <= i < |all| ==> NotSequence(all[i]);
    forall t | t in master && t != "sqlite_sequence"
      ensures t in all
    {
      var i :| 0 <= i < |master| && master[i] == t;
      assert NotSequence(master[i]);
    }
    all
  }

  function In(all: seq<string>): string -> bool {
    (t: string) => t in all
  }

  /** The list comprehension: the creation list, kept in its order, restricted to the existing tables. */
  function Listed(all: seq<string>): (r: seq<string>)
    ensures forall t :: t in r <==> t in CreationOrder && t in all
  {
    var r := Filter(CreationOrder, In(all));
    forall t | t in CreationOrder && t in all
      ensures t in r
    {
      var i :| 0 <= i < |CreationOrder| && CreationOrder[i] == t;
      assert In(all)(CreationOrder[i]);
    }
    forall t | t in r
      ensures t in all
    {
      var i :| 0 <= i < |r| && r[i] == t;
      assert In(all)(r[i]);
    }
    r
  }

  /** The `append` loop: each table not yet in the order goes at its end. */
  function AppendMissing(order: seq<string>, tables: seq<string>): seq<string> {
    if tables == [] then order
    else
      var o := AppendMissing(order, tables[..|tables| - 1]);
      var t := tables[|tables| - 1];
      if t in o then o else o + [t]
  }

  /** The migration order of the tables found. */
  function MigrationOrder(all: seq<string>): seq<string> {
    AppendMissing(Listed(all), all)
  }

  /** The loop keeps what it had and holds exactly the tables seen. */
  lemma {:induction false} AppendMissingKeeps(order: seq<string>, tables: seq<string>)
    ensures |AppendMissing(order, tables)| >= |order|
    ensures AppendMissing(order, tables)[..|order|] == order
    ensures forall t :: t in AppendMissing(order, tables) <==> t in order || t in tables
    ensures Distinct(order) ==> Distinct(AppendMissing(order, tables))
    decreases |tables|
  {
    if tables != [] {
      var init := tables[..|tables| - 1];
      AppendMissingKeeps(order, init);
      var o := AppendMissing(order, init);
      var t := tables[|tables| - 1];
      assert forall u :: u in tables <==> u in init || u == t;
      if t !in o {
        assert (o + [t])[..|order|] == o[..|order|];
      }
    }
  }

  /** Filtering a list that names each table once names each table once. */
  lemma {:induction false} FilterDistinct(s: seq<string>, keep: string -> bool)
    requires Distinct(s)
    ensures Distinct(Filter(s, keep))
    decreases |s|
  {
    if s != [] {
      var init := s[..|s| - 1];
      assert Distinct(init);
      FilterDistinct(init, keep);
    }
  }

  /**
   * The migration order starts with the listed tables that exist, in the
   * creation list's order, contains exactly the tables found, names each
   * once, and never holds `sqlite_sequence`.
   */
  lemma MigrationOrderRule(master: seq<string>)
    ensures var all := ExistingTables(master); var order := MigrationOrder(all);
      && |order| >= |Listed(all)| && order[..|Listed(all)|] == Listed(all)
      && (forall t :: t in order <==> t in all)
      && Distinct(order)
      && "sqlite_sequence" !in order
  {
    var all := ExistingTables(master);
    CreationOrderRespectsDependencies();
    FilterDistinct(CreationOrder, In(all));
    AppendMissingKeeps(Listed(all), all);
  }

  /** A list naming each element once holds each of them once. */
  lemma {:induction false} DistinctMultiset(s: seq<string>)
    requires Distinct(s)
    ensures forall t :: multiset(s)[t] == if t in s then 1 else 0
    decreases |s|
  {
    if s != [] {
      var init := s[..|s| - 1];
      assert s == init + [s[|s| - 1]];
      DistinctMultiset(init);
    }
  }

  /** For tables that SQLite lists once each, the migration order is a permutation of them. */
  lemma MigrationOrderIsPermutation(master: seq<string>)
    requires Distinct(master)
    ensures multiset(MigrationOrder(ExistingTables(master))) == multiset(ExistingTables(master))
  {
    var all := ExistingTables(master);
    var order := MigrationOrder(all);
    MigrationOrderRule(master);
    FilterDistinct(master, NotSequence);
    DistinctMultiset(order);
    DistinctMultiset(all);
    assert forall t :: multiset(order)[t] == multiset(all)[t];
  }

  /** One more table of the loop. */
  lemma AppendMissingStep(order: seq<string>, tables: seq<string>, i: nat)
    requires i < |tables|
    ensures AppendMissing(order, tables[..i + 1]) ==
              var o := AppendMissing(order, tables[..i]);
              if tables[i] in o then o else o + [tables[i]]
  {
    assert tables[..i + 1][..i] == tables[..i];
  }

  /** The script's construction: the comprehension, then the `append` loop over the tables found. */
  method BuildMigrationOrder(master: seq<string>) returns (order: seq<string>)
    ensures order == MigrationOrder(ExistingTables(master))
  {
    var all := ExistingTables(master);
    order := Listed(all);
    ghost var base := order;
    for i := 0 to |all|
      invariant order == AppendMissing(base, all[..i])
    {
      AppendMissingStep(base, all, i);
      if all[i] !in order {
        order := order + [all[i]];
      }
    }
    assert all[..|all|] == all;
  }

  // ----- drops -----

  function Reversed(s: seq<string>): (r: seq<string>)
    ensures |r| == |s|
    ensures forall i :: 0 <= i < |s| ==> r[i] == s[|s| - 1 - i]
  {
    if s == [] then [] else Reversed(s[1..]) + [s[0]]
  }

  /** The drop loop: `DROP TABLE IF EXISTS` for each table, last migrated first. */
  method DropTables(order: seq<string>) returns (dropped: seq<string>)
    ensures dropped == Reversed(order)
  {
    dropped := [];
    var i := |order|;
    while i > 0
      invariant 0 <= i <= |order|
      invariant |dropped| == |order| - i
      invariant forall k :: 0 <= k < |dropped| ==> dropped[k] == order[|order| - 1 - k]
    {
      i := i - 1;
      dropped := dropped + [order[i]];
    }
  }

  /** Every table of `order` comes after each of the tables `deps` names for it. */
  predicate DependenciesFirstBy(order: seq<string>, deps: string -> seq<string>) {
    forall i :: 0 <= i < |order| ==> forall d :: d in deps(order[i]) ==> d in order[..i]
  }

  /**
   * Dropping an order that creates dependencies first, last table first,
   * drops every table before each of the tables it depends on; the creation
   * list is such an order.
   */
  lemma DropsDependentsFirst(order: seq<string>)
    requires DependenciesFirst(order)
    ensures forall i, d :: 0 <= i < |order| && d in Dependencies(Reversed(order)[i]) ==>
              d in Reversed(order)[i + 1..]
  {
    assert DependenciesFirstBy(order, Dependencies);
    DropsAfterDependencies(order, Dependencies);
  }

  lemma DropsAfterDependencies(order: seq<string>, deps: string -> seq<string>)
    requires DependenciesFirstBy(order, deps)
    ensures forall i, d :: 0 <= i < |order| && d in deps(Reversed(order)[i]) ==> d in Reversed(order)[i + 1..]
  {
    var r, n := Reversed(order), |order|;
    forall i, d | 0 <= i < n && d in deps(r[i])
      ensures d in r[i + 1..]
    {
      assert r[i] == order[n - 1 - i];
      assert d in order[..n - 1 - i];
      var k :| 0 <= k < n - 1 - i && order[..n - 1 - i][k] == d;
      assert r[n - 1 - k] == d;
      assert r[i + 1..][n - 2 - k - i] == d;
    }
  }

  // ----- columns -----

  /** The MySQL type of a column declared with SQLite type `declared`; the first match wins. */
  function MysqlType(declared: string): (r: string)
    ensures Contains(Upper(declared), "INT") ==> r == "INT"
    ensures !Contains(Upper(declared), "INT") && Contains(Upper(declared), "VARCHAR") ==> r == "VARCHAR(255)"
    ensures r in {"INT", "VARCHAR(255)", "TEXT", "DATETIME", "FLOAT", "BOOLEAN"} || r == Upper(declared)
  {
    var t := Upper(declared);
    if Contains(t, "INT") then "INT"
    else if Contains(t, "VARCHAR") then "VARCHAR(255)"
    else if Contains(t, "TEXT") then "TEXT"
    else if Contains(t, "DATETIME") then "DATETIME"
    else if Contains(t, "FLOAT") then "FLOAT"
    else if Contains(t, "BOOLEAN") then "BOOLEAN"
    else t
  }

  /** 'INT' is looked for first and as a substring, so a geometric 'point' column becomes an integer. */
  lemma PointBecomesInt()
    ensures MysqlType("point") == "INT"
  {
    assert Upper("point") == "POINT";
    assert OccursAt("INT", "POINT", 2);
  }

  /** A column as `PRAGMA table_info` reports it: name and declared type. */
  datatype Column = Column(name: string, declared: string)

  /** The column definitions of `CREATE TABLE`: each name in backquotes with its MySQL type. */
  function ColumnDefinitions(columns: seq<Column>): (defs: seq<string>)
    ensures |defs| == |columns|
    ensures forall i :: 0 <= i < |columns| ==> defs[i] == "`" + columns[i].name + "` " + MysqlType(columns[i].declared)
  {
    seq(|columns|, i requires 0 <= i < |columns| => "`" + columns[i].name + "` " + MysqlType(columns[i].declared))
  }

  function CreateTableSql(table: string, columns: seq<Column>): string {
    "CREATE TABLE IF NOT EXISTS " + table + " (" + Join(ColumnDefinitions(columns), ", ") + ")"
  }

  /** `['%s'] * n`. */
  function PlaceholderList(n: nat): (r: seq<string>)
    ensures |r| == n && forall i :: 0 <= i < n ==> r[i] == "%s"
  {
    if n == 0 then [] else PlaceholderList(n - 1) + ["%s"]
  }

  /** `", ".join(['%s'] * n)`. */
  function Placeholders(n: nat): string {
    Join(PlaceholderList(n), ", ")
  }

  /** There are exactly `n` placeholders: `n` percent signs, the separators having none. */
  lemma {:induction false} PlaceholdersCount(n: nat)
    ensures CountChar(Placeholders(n), '%') == n
    decreases n
  {
    if n == 1 {
      assert Placeholders(1) == "%s";
    } else if n >= 2 {
      var parts := PlaceholderList(n);
      assert parts[..n - 1] == PlaceholderList(n - 1);
      assert Placeholders(n) == Placeholders(n - 1) + ", " + "%s";
      PlaceholdersCount(n - 1);
      CountCharAppend(Placeholders(n - 1) + ", ", "%s", '%');
      CountCharAppend(Placeholders(n - 1), ", ", '%');
      assert CountChar(", ", '%') == 0;
      assert CountChar("%s", '%') == 1;
    }
  }

  function QuotedName(c: Column): string {
    "`" + c.name + "`"
  }

  /** The insert statement of a table: its quoted column names, and one placeholder for each column. */
  function InsertQuery(table: string, columns: seq<Column>): (q: string)
  {
    "INSERT INTO " + table + " (" + Join(seq(|columns|, i requires 0 <= i < |columns| => QuotedName(columns[i])), ", ")
      + ") VALUES (" + Placeholders(|columns|) + ")"
  }

  /** The values part of an insert holds as many placeholders as the table has columns. */
  lemma InsertMatchesColumns(columns: seq<Column>)
    ensures CountChar(Placeholders(|columns|), '%') == |columns|
    ensures |seq(|columns|, i requires 0 <= i < |columns| => QuotedName(columns[i]))| == |columns|
  {
    PlaceholdersCount(|columns|);
  }
}
