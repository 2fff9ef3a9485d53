/** The statements the builders' documentation and unit tests expect, for a
    table `my_tbl`. Each operation is run through its method, whose contract
    fixes the text; the small lemmas below only evaluate that text. Expected
    statements are written as a few short literal pieces. */
module Examples {
  import opened Db
  import opened Text
  import opened Builder
  import Sqlx

  lemma JoinTwo(sep: string, a: string, b: string)
    ensures Join(sep, [a, b]) == a + sep + b
  {
    assert [a, b][1..] == [b];
  }

  lemma JoinThree(sep: string, a: string, b: string, c: string)
    ensures Join(sep, [a, b, c]) == a + sep + b + sep + c
  {
    assert [a, b, c][1..] == [b, c];
    JoinTwo(sep, b, c);
  }

  // The `...Pieces`, `...Regroup`, `TwoConds` and `SmallNumbers` lemmas below
  // are solver aids only: they merge short string literals and regroup
  // concatenations, so that each expected statement is checked in small steps.

  lemma SmallNumbers()
    ensures "$" + NatToString(1) == "$1" && "$" + NatToString(2) == "$2" && "$" + NatToString(3) == "$3"
  {
    assert NatToString(1) == "1" && NatToString(2) == "2" && NatToString(3) == "3";
  }

  /** A condition clause of two items, regrouped at the item boundaries. */
  lemma TwoConds(w: string, d: string, n: string, e: string)
    ensures w + (d + n + e) == (w + d) + (n + e)
  {
  }

  // ----- stmt_builder.rs, build_update_stmt documentation (PostgreSQL) -----

  /** The SET values are numbered `$1`, `$2`, and two markers are used. */
  lemma SetValuesNumbered()
    ensures Rendered(PostgreSQL, 1, ["?", "?", "NOW()"]) == ["$1", "$2", "NOW()"]
    ensures CountMarkers(["?", "?", "NOW()"]) == 2
  {
    var b := StmtBuilder("my_tbl", PostgreSQL);
    SmallNumbers();
    assert b.ConvertPlaceholder(1, "?") == ("$1", 2);
    assert b.ConvertPlaceholder(2, "?") == ("$2", 3);
    assert b.ConvertPlaceholder(3, "NOW()") == ("NOW()", 3);
    assert ["?", "?", "NOW()"] == ["?"] + ["?", "NOW()"];
    assert ["?", "NOW()"] == ["?"] + ["NOW()"];
    assert ["NOW()"] == ["NOW()"] + [];
    b.RenderedStep(3, "NOW()", []);
    b.RenderedStep(2, "?", ["NOW()"]);
    b.RenderedStep(1, "?", ["?", "NOW()"]);
    assert ["?", "?", "NOW()"][..2] == ["?", "?"];
    assert ["?", "?"][..1] == ["?"];
    assert ["?"][..0] == [];
  }

  /** The condition values go on from `$3`. */
  lemma WhereValuesNumbered()
    ensures Rendered(PostgreSQL, 3, ["?", "'male'"]) == ["$3", "'male'"]
  {
    var b := StmtBuilder("my_tbl", PostgreSQL);
    SmallNumbers();
    assert b.ConvertPlaceholder(3, "?") == ("$3", 4);
    assert b.ConvertPlaceholder(4, "'male'") == ("'male'", 4);
    assert ["?", "'male'"] == ["?"] + ["'male'"];
    assert ["'male'"] == ["'male'"] + [];
    b.RenderedStep(4, "'male'", []);
    b.RenderedStep(3, "?", ["'male'"]);
  }

  lemma QuotedColumns(b: StmtBuilder)
    requires b.typ != MySQL
    ensures b.EscapeCol("username") == "\"username\""
    ensures b.EscapeCol("nickname") == "\"nickname\""
    ensures b.EscapeCol("update_at") == "\"update_at\""
  {
  }

  lemma SetItemPieces()
    ensures "\"username\"" + " = " + "$1" == "\"username\" = $1"
    ensures "\"nickname\"" + " = " + "$2" == "\"nickname\" = $2"
    ensures "\"update_at\"" + " = " + "NOW()" == "\"update_at\" = NOW()"
  {
  }

  lemma UpdateSetItems(b: StmtBuilder, cols: seq<KV>)
    requires b.typ != MySQL
    requires cols == [KV("username", PLACEHOLDER), KV("nickname", PLACEHOLDER), KV("update_at", "NOW()")]
    ensures Join(", ", Assignments(b.EscapeAll(Keys(cols)), ["$1", "$2", "NOW()"]))
         == "\"username\" = $1" + ", " + "\"nickname\" = $2" + ", " + "\"update_at\" = NOW()"
  {
    QuotedColumns(b);
    SetItemPieces();
    var items := Assignments(b.EscapeAll(Keys(cols)), ["$1", "$2", "NOW()"]);
    assert items[0] == "\"username\" = $1";
    assert items[1] == "\"nickname\" = $2";
    assert items[2] == "\"update_at\" = NOW()";
    assert items == ["\"username\" = $1", "\"nickname\" = $2", "\"update_at\" = NOW()"];
    JoinThree(", ", "\"username\" = $1", "\"nickname\" = $2", "\"update_at\" = NOW()");
  }

  lemma WherePieces()
    ensures "age" + " = " + "$3" == "age = $3"
    ensures "gender" + " = " + "'male'" == "gender = 'male'"
  {
  }

  lemma UpdateWhereItems(conds: seq<KV>)
    requires conds == [KV("age", PLACEHOLDER), KV("gender", "'male'")]
    ensures WhereClause(Assignments(Keys(conds), ["$3", "'male'"]))
         == " WHERE " + ("age = $3" + " AND " + "gender = 'male'")
  {
    var items := Assignments(Keys(conds), ["$3", "'male'"]);
    WherePieces();
    assert items[0] == "age = $3";
    assert items[1] == "gender = 'male'";
    assert items == ["age = $3", "gender = 'male'"];
    JoinTwo(" AND ", "age = $3", "gender = 'male'");
  }

  lemma UpdateRegroup(x: string, a: string, s: string, b: string, c: string, w: string)
    ensures x + (a + s + b + s + c) + w == x + (a + s) + (b + s) + c + w
  {
  }

  lemma UpdatePieces()
    ensures "UPDATE " + "my_tbl" + " SET " == "UPDATE my_tbl SET "
    ensures "\"username\" = $1" + ", " == "\"username\" = $1, "
    ensures "\"nickname\" = $2" + ", " == "\"nickname\" = $2, "
    ensures " WHERE " + "age = $3" == " WHERE age = $3"
    ensures " AND " + "gender = 'male'" == " AND gender = 'male'"
  {
  }

  method UpdatePostgresDocExample() returns (s: string)
    ensures s == "UPDATE my_tbl SET " + "\"username\" = $1, " + "\"nickname\" = $2, " + "\"update_at\" = NOW()"
                 + " WHERE age = $3" + " AND gender = 'male'"
  {
    var b := StmtBuilder.New("my_tbl", PostgreSQL);
    var cols := [KV("username", PLACEHOLDER), KV("nickname", PLACEHOLDER), KV("update_at", "NOW()")];
    var conds := [KV("age", PLACEHOLDER), KV("gender", "'male'")];
    s := b.BuildUpdateStmt(cols, conds);
    assert Vals(cols) == ["?", "?", "NOW()"] && Vals(conds) == ["?", "'male'"];
    SetValuesNumbered();
    WhereValuesNumbered();
    UpdateSetItems(b, cols);
    UpdateWhereItems(conds);
    UpdatePieces();
    TwoConds(" WHERE ", "age = $3", " AND ", "gender = 'male'");
    UpdateRegroup("UPDATE " + "my_tbl" + " SET ", "\"username\" = $1", ", ", "\"nickname\" = $2",
                  "\"update_at\" = NOW()", " WHERE " + ("age = $3" + " AND " + "gender = 'male'"));
  }

  // ----- stmt_builder.rs, build_query_stmt documentation (PostgreSQL) -----

  lemma QueryValuesNumbered()
    ensures Rendered(PostgreSQL, 1, ["?", "?"]) == ["$1", "$2"]
  {
    var b := StmtBuilder("my_tbl", PostgreSQL);
    SmallNumbers();
    assert b.ConvertPlaceholder(1, "?") == ("$1", 2);
    assert b.ConvertPlaceholder(2, "?") == ("$2", 3);
    assert ["?", "?"] == ["?"] + ["?"];
    assert ["?"] == ["?"] + [];
    b.RenderedStep(2, "?", []);
    b.RenderedStep(1, "?", ["?"]);
  }

  lemma QueryPieces()
    ensures "SELECT " + "\"username\"" == "SELECT \"username\""
    ensures "SELECT \"username\"" + ", " == "SELECT \"username\", "
    ensures "SELECT \"username\", " + "\"nickname\"" == "SELECT \"username\", \"nickname\""
    ensures " FROM " + "my_tbl" == " FROM my_tbl"
    ensures "age" + " = " + "$1" == "age = $1"
    ensures "gender" + " = " + "$2" == "gender = $2"
    ensures " WHERE " + "age = $1" == " WHERE age = $1"
    ensures " AND " + "gender = $2" == " AND gender = $2"
  {
  }

  lemma QueryRegroup(p: string, a: string, s: string, b: string, f: string, t: string, w: string)
    ensures p + (a + s + b) + f + t + w == (p + a + s + b) + (f + t) + w
  {
  }

  method QueryPostgresDocExample() returns (s: string)
    ensures s == "SELECT \"username\", \"nickname\"" + " FROM my_tbl" + " WHERE age = $1" + " AND gender = $2"
  {
    var b := StmtBuilder.New("my_tbl", PostgreSQL);
    var cols := ["username", "nickname"];
    var conds := [KV("age", PLACEHOLDER), KV("gender", PLACEHOLDER)];
    s := b.BuildQueryStmt(cols, conds);
    assert Vals(conds) == ["?", "?"];
    QueryValuesNumbered();
    QuotedColumns(b);
    QueryPieces();
    assert b.EscapeAll(cols) == ["\"username\"", "\"nickname\""];
    JoinTwo(", ", "\"username\"", "\"nickname\"");
    assert Assignments(Keys(conds), ["$1", "$2"]) == ["age = $1", "gender = $2"];
    JoinTwo(" AND ", "age = $1", "gender = $2");
    TwoConds(" WHERE ", "age = $1", " AND ", "gender = $2");
    QueryRegroup("SELECT ", "\"username\"", ", ", "\"nickname\"", " FROM ", "my_tbl",
                 " WHERE " + ("age = $1" + " AND " + "gender = $2"));
  }

  // ----- stmt_builder.rs, build_delete_stmt documentation (SQLite) -----

  lemma DeletePieces()
    ensures "DELETE FROM " + "my_tbl" == "DELETE FROM my_tbl"
    ensures "username" + " = " + "?" == "username = ?"
    ensures "age" + " = " + "25" == "age = 25"
    ensures " WHERE " + "username = ?" == " WHERE username = ?"
    ensures " AND " + "age = 25" == " AND age = 25"
  {
  }

  method DeleteSqliteDocExample() returns (s: string)
    ensures s == "DELETE FROM my_tbl" + " WHERE username = ?" + " AND age = 25"
  {
    var b := StmtBuilder.New("my_tbl", SQLite);
    var conds := [KV("username", PLACEHOLDER), KV("age", "25")];
    s := b.BuildDeleteStmt(conds);
    RenderedVerbatim(SQLite, PG_PLACEHOLDER_BEGIN_IDX, Vals(conds));
    DeletePieces();
    assert Assignments(Keys(conds), Vals(conds)) == ["username = ?", "age = 25"];
    JoinTwo(" AND ", "username = ?", "age = 25");
    TwoConds(" WHERE ", "username = ?", " AND ", "age = 25");
  }

  // ----- stmt_builder.rs, unit tests with no columns -----

  /** With no columns and no conditions every database selects everything. */
  method QueryEverythingExample(typ: Type) returns (s: string)
    ensures s == "SELECT * FROM my_tbl"
  {
    var b := StmtBuilder.New("my_tbl", typ);
    s := b.BuildQueryStmt([], []);
  }

  /** With no columns there is nothing to insert. */
  method InsertNothingExample(typ: Type) returns (s: string)
    ensures s == ""
  {
    var b := StmtBuilder.New("my_tbl", typ);
    s := b.BuildInsertStmt([]);
  }

  /** With no columns there is nothing to update, whatever the conditions. */
  method UpdateNothingExample(typ: Type) returns (s: string)
    ensures s == ""
  {
    var b := StmtBuilder.New("my_tbl", typ);
    s := b.BuildUpdateStmt([], [KV("id", PLACEHOLDER), KV("status", "'active'")]);
  }

  // ----- sqlx.rs, build_query_stmt documentation: values stay verbatim -----

  lemma LegacyQueryPieces()
    ensures "SELECT " + "age" + ", " + "gender" == "SELECT age, gender"
    ensures " FROM " + "my_tbl" == " FROM my_tbl"
    ensures "username" + " = " + "$1" == "username = $1"
    ensures "nickname" + " = " + "'foo'" == "nickname = 'foo'"
    ensures " WHERE " + "username = $1" == " WHERE username = $1"
    ensures " AND " + "nickname = 'foo'" == " AND nickname = 'foo'"
  {
  }

  lemma LegacyQueryDocExample()
    ensures Sqlx.StmtBuilder.New("my_tbl").BuildQueryStmt(
              ["age", "gender"], [Sqlx.KV("username", "$1"), Sqlx.KV("nickname", "'foo'")])
         == "SELECT age, gender" + " FROM my_tbl" + " WHERE username = $1" + " AND nickname = 'foo'"
  {
    var conds := [Sqlx.KV("username", "$1"), Sqlx.KV("nickname", "'foo'")];
    LegacyQueryPieces();
    assert Sqlx.Pairs(conds) == ["username = $1", "nickname = 'foo'"];
    JoinTwo(" AND ", "username = $1", "nickname = 'foo'");
    JoinTwo(", ", "age", "gender");
    TwoConds(" WHERE ", "username = $1", " AND ", "nickname = 'foo'");
    QueryRegroup("SELECT ", "age", ", ", "gender", " FROM ", "my_tbl",
                 " WHERE " + ("username = $1" + " AND " + "nickname = 'foo'"));
  }
}
