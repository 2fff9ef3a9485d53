/** The older statement builder: the same four statement shapes, with column
    names and values copied into the text as they are (no identifier quoting,
    no placeholder numbering). */
module Sqlx {
  import opened Text

  /** A column (or condition key) and the value text that goes with it. */
  datatype KV = KV(key: string, val: string)

  function Keys(kvs: seq<KV>): (r: seq<string>)
    ensures |r| == |kvs|
  {
    seq(|kvs|, i requires 0 <= i < |kvs| => kvs[i].key)
  }

  function Vals(kvs: seq<KV>): (r: seq<string>)
    ensures |r| == |kvs|
  {
    seq(|kvs|, i requires 0 <= i < |kvs| => kvs[i].val)
  }

  /** `key = val` for every pair, both verbatim. */
  function Pairs(kvs: seq<KV>): (r: seq<string>)
    ensures |r| == |kvs|
  {
    seq(|kvs|, i requires 0 <= i < |kvs| => kvs[i].key + " = " + kvs[i].val)
  }

  /** A table name, fixed for the builder's life. */
  datatype StmtBuilder = StmtBuilder(tbl: string) {

    static function New(tbl: string): (b: StmtBuilder)
      ensures b.GetTbl() == tbl
    {
      StmtBuilder(tbl)
    }

    function GetTbl(): string
    {
      tbl
    }

    function BuildConds(conds: seq<KV>): (r: string)
      ensures |conds| == 0 ==> r == ""
    {
      if |conds| == 0 then "" else " WHERE " + Join(" AND ", Pairs(conds))
    }

    function BuildInsertStmt(cols: seq<KV>): (r: string)
      ensures r == "" <==> |cols| == 0
    {
      if |cols| == 0 then ""
      else "INSERT INTO " + tbl + " (" + Join(", ", Keys(cols)) + ") VALUES ("
           + Join(", ", Vals(cols)) + ")"
    }

    function BuildQueryStmt(cols: seq<string>, conds: seq<KV>): (r: string)
      ensures |cols| == 0 && |conds| == 0 ==> r == "SELECT * FROM " + tbl
    {
      var colsStr := if |cols| == 0 then "*" else Join(", ", cols);
      "SELECT " + colsStr + " FROM " + tbl + BuildConds(conds)
    }

    function BuildUpdateStmt(cols: seq<KV>, conds: seq<KV>): (r: string)
      ensures r == "" <==> |cols| == 0
    {
      if |cols| == 0 then ""
      else "UPDATE " + tbl + " SET " + Join(", ", Pairs(cols)) + BuildConds(conds)
    }

    function BuildDeleteStmt(conds: seq<KV>): (r: string)
      ensures r != ""
    {
      "DELETE FROM " + tbl + BuildConds(conds)
    }

    /** A non-empty condition list gives a clause that starts with ` WHERE `. */
    lemma CondsShape(conds: seq<KV>)
      requires |conds| > 0
      ensures " WHERE " <= BuildConds(conds)
    {
    }

    /** An insert with columns starts with `INSERT INTO tbl (` and ends with `)`. */
    lemma InsertShape(cols: seq<KV>)
      requires |cols| > 0
      ensures var r := BuildInsertStmt(cols);
              "INSERT INTO " + tbl + " (" <= r && r[|r| - 1] == ')'
    {
    }

    /** A query starts with `SELECT `, selects `*` without columns, and ends
        at the table name without conditions. */
    lemma QueryShape(cols: seq<string>, conds: seq<KV>)
      ensures "SELECT " <= BuildQueryStmt(cols, conds)
      ensures |cols| == 0 ==> "SELECT * FROM " + tbl <= BuildQueryStmt(cols, conds)
      ensures |cols| == 0 && |conds| == 0 ==> BuildQueryStmt(cols, conds) == "SELECT * FROM " + tbl
    {
    }

    /** An update with columns starts with `UPDATE tbl SET `; without
        conditions nothing follows the SET list. */
    lemma UpdateShape(cols: seq<KV>, conds: seq<KV>)
      requires |cols| > 0
      ensures "UPDATE " + tbl + " SET " <= BuildUpdateStmt(cols, conds)
      ensures |conds| == 0 ==> BuildUpdateStmt(cols, conds) == "UPDATE " + tbl + " SET " + Join(", ", Pairs(cols))
    {
    }

    /** A delete starts with `DELETE FROM tbl`, and is exactly that without
        conditions. */
    lemma DeleteShape(conds: seq<KV>)
      ensures "DELETE FROM " + tbl <= BuildDeleteStmt(conds)
      ensures |conds| == 0 ==> BuildDeleteStmt(conds) == "DELETE FROM " + tbl
    {
    }

    /** Condition `k` appears verbatim as `key = val` at the place of item
        `k` after ` WHERE `. */
    lemma CondItemAt(conds: seq<KV>, k: nat)
      requires k < |conds|
      ensures var at := 7 + ItemOffset(" AND ", Pairs(conds), k);
              var item := conds[k].key + " = " + conds[k].val;
              at + |item| <= |BuildConds(conds)| && BuildConds(conds)[at..at + |item|] == item
    {
      JoinItemWithin(" WHERE ", " AND ", Pairs(conds), "", k);
      assert BuildConds(conds) == " WHERE " + Join(" AND ", Pairs(conds)) + "";
    }

    /** Key `k` of an insert sits, verbatim, at place `k` of the column list. */
    lemma InsertKeyAt(cols: seq<KV>, k: nat)
      requires k < |cols|
      ensures var at := |tbl| + 14 + ItemOffset(", ", Keys(cols), k);
              var r := BuildInsertStmt(cols);
              at + |cols[k].key| <= |r| && r[at..at + |cols[k].key|] == cols[k].key
    {
      var p1 := "INSERT INTO " + tbl + " (";
      var rest := ") VALUES (" + Join(", ", Vals(cols)) + ")";
      assert |p1| == |tbl| + 14;
      assert BuildInsertStmt(cols) == p1 + Join(", ", Keys(cols)) + rest;
      JoinItemWithin(p1, ", ", Keys(cols), rest, k);
    }

    /** Value `k` of an insert sits, verbatim, at place `k` of the value list. */
    lemma InsertValueAt(cols: seq<KV>, k: nat)
      requires k < |cols|
      ensures var at := |tbl| + 24 + |Join(", ", Keys(cols))| + ItemOffset(", ", Vals(cols), k);
              var r := BuildInsertStmt(cols);
              at + |cols[k].val| <= |r| && r[at..at + |cols[k].val|] == cols[k].val
    {
      var p2 := "INSERT INTO " + tbl + " (" + Join(", ", Keys(cols)) + ") VALUES (";
      JoinItemWithin(p2, ", ", Vals(cols), ")", k);
      assert BuildInsertStmt(cols) == p2 + Join(", ", Vals(cols)) + ")";
    }
  }
}
