/** The dialect-aware statement builder: identifier quoting per database type,
    and, for PostgreSQL, numbering of the `?` placeholder markers as `$1`,
    `$2`, ... with one counter per statement, threaded left to right through
    the column list and then the condition list. */
module Builder {
  import opened Db
  import opened Text

  /** A column (or condition key) and the value text that goes with it. */
  datatype KV = KV(key: string, val: string)

  /** The neutral placeholder marker for a bound parameter. */
  const PLACEHOLDER: string := "?"

  /** The number the first PostgreSQL placeholder of a statement gets. */
  const PG_PLACEHOLDER_BEGIN_IDX: nat := 1

  // The source declares its own `KV` struct in each builder file, so the
  // pair type and its two projections below mirror those in `Sqlx`.

  function Keys(kvs: seq<KV>): (r: seq<string>)
    ensures |r| == |kvs|
  {
    seq(|kvs|, i requires 0 <= i < |kvs| => kvs[i].key)
  }

  function Vals(kvs: seq<KV>): (r: seq<string>)
    ensures |r| == |kvs|
  {
    seq(|kvs|, i requires 0 <= i < |kvs| => kvs[i].val)
  }

  // ---------------------------------------------------------------------
  // Reference numbering: what every value of a statement is rendered as,
  // stated without a running counter.
  // ---------------------------------------------------------------------

  /** How many values are exactly the placeholder marker. */
  function CountMarkers(vals: seq<string>): nat
    decreases |vals|
  {
    if |vals| == 0 then 0
    else CountMarkers(vals[..|vals| - 1]) + (if vals[|vals| - 1] == PLACEHOLDER then 1 else 0)
  }

  /** How far a statement's placeholder counter advances over `vals`:
      only PostgreSQL numbers its placeholders. */
  function Consumed(typ: Type, vals: seq<string>): nat
  {
    if typ == PostgreSQL then CountMarkers(vals) else 0
  }

  /** The text value `i` becomes when numbering starts at `start`: under
      PostgreSQL a marker becomes `$` and its position among the markers,
      counted from `start`; every other value stays as it is. */
  function RenderedValue(typ: Type, start: nat, vals: seq<string>, i: nat): string
    requires i < |vals|
  {
    if typ == PostgreSQL && vals[i] == PLACEHOLDER
    then "$" + NatToString(start + CountMarkers(vals[..i]))
    else vals[i]
  }

  function Rendered(typ: Type, start: nat, vals: seq<string>): (r: seq<string>)
    ensures |r| == |vals|
  {
    seq(|vals|, i requires 0 <= i < |vals| => RenderedValue(typ, start, vals, i))
  }

  /** `lhs[i] = rhs[i]` for every i. */
  function Assignments(lhs: seq<string>, rhs: seq<string>): (r: seq<string>)
    requires |lhs| == |rhs|
    ensures |r| == |lhs|
  {
    seq(|lhs|, i requires 0 <= i < |lhs| => lhs[i] + " = " + rhs[i])
  }

  /** A condition clause from its rendered items; none means no clause. */
  function WhereClause(items: seq<string>): string
  {
    if |items| == 0 then "" else " WHERE " + Join(" AND ", items)
  }

  lemma {:induction false} CountMarkersConcat(a: seq<string>, b: seq<string>)
    ensures CountMarkers(a + b) == CountMarkers(a) + CountMarkers(b)
    decreases |b|
  {
    if |b| == 0 {
      assert a + b == a;
    } else {
      var b' := b[..|b| - 1];
      assert (a + b)[..|a + b| - 1] == a + b';
      CountMarkersConcat(a, b');
    }
  }

  lemma {:induction false} CountMarkersBound(vals: seq<string>)
    ensures CountMarkers(vals) <= |vals|
    decreases |vals|
  {
    if |vals| > 0 {
      CountMarkersBound(vals[..|vals| - 1]);
    }
  }

  /** A marker at `i` counts once more than the markers before it. */
  lemma CountMarkersStep(vals: seq<string>, i: nat)
    requires i < |vals|
    ensures CountMarkers(vals[..i + 1])
         == CountMarkers(vals[..i]) + (if vals[i] == PLACEHOLDER then 1 else 0)
  {
    assert vals[..i + 1][..i] == vals[..i];
  }

  /** Extending a prefix never lowers its marker count, and passing a marker
      raises it. */
  lemma {:induction false} CountMarkersMonotone(vals: seq<string>, i: nat, j: nat)
    requires i < j <= |vals|
    ensures CountMarkers(vals[..j]) >= CountMarkers(vals[..i])
              + (if vals[i] == PLACEHOLDER then 1 else 0)
    decreases j - i
  {
    CountMarkersStep(vals, i);
    if i + 1 < j {
      CountMarkersMonotone(vals, i + 1, j);
    }
  }

  /** Numbering of a concatenation: the second part continues where the
      first part left the counter. */
  lemma RenderedConcat(typ: Type, start: nat, a: seq<string>, b: seq<string>)
    ensures Rendered(typ, start, a + b)
         == Rendered(typ, start, a) + Rendered(typ, start + Consumed(typ, a), b)
  {
    var ab := a + b;
    var lhs := Rendered(typ, start, ab);
    var rhs := Rendered(typ, start, a) + Rendered(typ, start + Consumed(typ, a), b);
    forall i | 0 <= i < |ab| ensures lhs[i] == rhs[i] {
      if i < |a| {
        assert ab[..i] == a[..i];
      } else {
        var j := i - |a|;
        assert ab[..i] == a + b[..j];
        CountMarkersConcat(a, b[..j]);
      }
    }
  }

  /** Outside PostgreSQL no value is rewritten. */
  lemma RenderedVerbatim(typ: Type, start: nat, vals: seq<string>)
    requires typ != PostgreSQL
    ensures Rendered(typ, start, vals) == vals
  {
  }

  /** Under PostgreSQL two different markers get different, increasing
      numbers, so no two placeholders of a statement share a position. */
  lemma MarkerNumbersIncrease(start: nat, vals: seq<string>, i: nat, j: nat)
    requires i < j < |vals|
    requires vals[i] == PLACEHOLDER && vals[j] == PLACEHOLDER
    ensures start + CountMarkers(vals[..i]) < start + CountMarkers(vals[..j])
    ensures Rendered(PostgreSQL, start, vals)[i] != Rendered(PostgreSQL, start, vals)[j]
  {
    CountMarkersMonotone(vals, i, j);
    var r := Rendered(PostgreSQL, start, vals);
    if r[i] == r[j] {
      assert r[i][1..] == NatToString(start + CountMarkers(vals[..i]));
      assert r[j][1..] == NatToString(start + CountMarkers(vals[..j]));
      NatToStringInjective(start + CountMarkers(vals[..i]), start + CountMarkers(vals[..j]));
    }
  }

  /** Under PostgreSQL every number from `start` up to the final counter is
      given to some marker: with numbering from 1 the markers are exactly
      `$1` ... `$n`. */
  lemma {:induction false} MarkerNumbersCover(start: nat, vals: seq<string>, k: nat)
    requires start <= k < start + CountMarkers(vals)
    ensures exists i :: 0 <= i < |vals| && vals[i] == PLACEHOLDER
                       && Rendered(PostgreSQL, start, vals)[i] == "$" + NatToString(k)
    decreases |vals|
  {
    var n := |vals| - 1;
    var init := vals[..n];
    assert vals[..n] == init;
    if k < start + CountMarkers(init) {
      MarkerNumbersCover(start, init, k);
      var i :| 0 <= i < |init| && init[i] == PLACEHOLDER
               && Rendered(PostgreSQL, start, init)[i] == "$" + NatToString(k);
      assert vals[..i] == init[..i];
      assert Rendered(PostgreSQL, start, vals)[i] == "$" + NatToString(k);
    } else {
      assert vals[n] == PLACEHOLDER;
      assert Rendered(PostgreSQL, start, vals)[n] == "$" + NatToString(k);
    }
  }

  // ---------------------------------------------------------------------
  // The builder.
  // ---------------------------------------------------------------------

  /** A table name and a database type, both fixed for the builder's life. */
  datatype StmtBuilder = StmtBuilder(tbl: string, typ: Type) {

    static function New(tbl: string, typ: Type): (b: StmtBuilder)
      ensures b.GetTbl() == tbl && b.GetTyp() == typ
    {
      StmtBuilder(tbl, typ)
    }

    function GetTbl(): string
    {
      tbl
    }

    function GetTyp(): Type
    {
      typ
    }

    /** The quote character this database type wraps identifiers in. */
    function Quote(): char
    {
      match typ
      case MySQL => '`'
      case PostgreSQL => '"'
      case SQLite => '"'
    }

    /** `*` passes through; every other column name is wrapped, unchanged,
        in the quote character of the database type. */
    function EscapeCol(col: string): (r: string)
      ensures r == "*" <==> col == "*"
    {
      if col == "*" then col else [Quote()] + col + [Quote()]
    }

    function EscapeAll(cols: seq<string>): (r: seq<string>)
      ensures |r| == |cols|
    {
      seq(|cols|, i requires 0 <= i < |cols| => EscapeCol(cols[i]))
    }

    /** Every column name other than `*` comes back wrapped, unchanged, in
        the quote character of the database type: a backtick exactly for
        MySQL. */
    lemma EscapeColQuotes(col: string)
      requires col != "*"
      ensures var r := EscapeCol(col);
              |r| == |col| + 2 && r[0] == Quote() && r[|r| - 1] == Quote() && r[1..|r| - 1] == col
              && (typ == MySQL <==> r[0] == '`')
    {
    }

    /** One placeholder translation step. Returns the text to emit for `val`
        and the counter afterwards: under PostgreSQL a marker becomes `$`
        followed by the current counter, which then moves on by one. */
    function ConvertPlaceholder(beginIdx: nat, val: string): (r: (string, nat))
      ensures typ != PostgreSQL || val != PLACEHOLDER ==> r == (val, beginIdx)
      ensures typ == PostgreSQL && val == PLACEHOLDER ==>
        r.1 == beginIdx + 1 && |r.0| >= 2 && r.0[0] == '$'
    {
      match typ
      case MySQL => (val, beginIdx)
      case SQLite => (val, beginIdx)
      case PostgreSQL =>
        if val == PLACEHOLDER then ("$" + NatToString(beginIdx), beginIdx + 1)
        else (val, beginIdx)
    }

    /** Under PostgreSQL the digits after the `$` of a translated marker read
        back as the counter the marker was given. */
    lemma PlaceholderReadsBack(beginIdx: nat)
      requires typ == PostgreSQL
      ensures var t := ConvertPlaceholder(beginIdx, PLACEHOLDER).0;
              t[1..] == NatToString(beginIdx) && IsDigits(t[1..]) && DecimalValue(t[1..]) == beginIdx
    {
      DecimalRoundTrip(beginIdx);
      assert ("$" + NatToString(beginIdx))[1..] == NatToString(beginIdx);
    }

    /** The reference numbering is the translator applied value by value,
        left to right, each step starting from the counter the previous one
        left. */
    lemma RenderedStep(start: nat, v: string, rest: seq<string>)
      ensures Rendered(typ, start, [v] + rest)
           == [ConvertPlaceholder(start, v).0] + Rendered(typ, ConvertPlaceholder(start, v).1, rest)
    {
      RenderedConcat(typ, start, [v], rest);
      assert [v][..0] == [];
      assert Rendered(typ, start, [v]) == [ConvertPlaceholder(start, v).0];
    }

    // Specification of each statement, in terms of the reference numbering.

    ghost function WhereText(start: nat, conds: seq<KV>): (r: string)
      ensures |conds| == 0 ==> r == ""
    {
      WhereClause(Assignments(Keys(conds), Rendered(typ, start, Vals(conds))))
    }

    ghost function InsertText(cols: seq<KV>): (r: string)
      ensures r == "" <==> |cols| == 0
    {
      if |cols| == 0 then ""
      else "INSERT INTO " + tbl + " (" + Join(", ", EscapeAll(Keys(cols))) + ") VALUES ("
           + Join(", ", Rendered(typ, PG_PLACEHOLDER_BEGIN_IDX, Vals(cols))) + ")"
    }

    ghost function ColumnList(cols: seq<string>): string
    {
      if |cols| == 0 then "*" else Join(", ", EscapeAll(cols))
    }

    ghost function QueryText(cols: seq<string>, conds: seq<KV>): string
    {
      "SELECT " + ColumnList(cols) + " FROM " + tbl
      + WhereText(PG_PLACEHOLDER_BEGIN_IDX, conds)
    }

    /** The SET values are numbered from the first number, and the condition
        values go on from the counter the SET list left. */
    ghost function UpdateText(cols: seq<KV>, conds: seq<KV>): (r: string)
      ensures r == "" <==> |cols| == 0
    {
      if |cols| == 0 then ""
      else
        "UPDATE " + tbl + " SET "
        + Join(", ", Assignments(EscapeAll(Keys(cols)), Rendered(typ, PG_PLACEHOLDER_BEGIN_IDX, Vals(cols))))
        + WhereText(PG_PLACEHOLDER_BEGIN_IDX + Consumed(typ, Vals(cols)), conds)
    }

    ghost function DeleteText(conds: seq<KV>): string
    {
      "DELETE FROM " + tbl + WhereText(PG_PLACEHOLDER_BEGIN_IDX, conds)
    }

    /** A non-empty condition list gives a clause that starts with ` WHERE `. */
    lemma WhereShape(start: nat, conds: seq<KV>)
      requires |conds| > 0
      ensures " WHERE " <= WhereText(start, conds)
    {
    }

    /** An insert with columns starts with `INSERT INTO tbl (` and ends with `)`. */
    lemma InsertShape(cols: seq<KV>)
      requires |cols| > 0
      ensures var r := InsertText(cols);
              "INSERT INTO " + tbl + " (" <= r && r[|r| - 1] == ')'
    {
    }

    /** A query starts with `SELECT `, selects `*` without columns, and ends
        at the table name without conditions. */
    lemma QueryShape(cols: seq<string>, conds: seq<KV>)
      ensures "SELECT " <= QueryText(cols, conds)
      ensures |cols| == 0 ==> "SELECT * FROM " + tbl <= QueryText(cols, conds)
      ensures |conds| == 0 ==> QueryText(cols, conds) == "SELECT " + ColumnList(cols) + " FROM " + tbl
      ensures |cols| == 0 && |conds| == 0 ==> QueryText(cols, conds) == "SELECT * FROM " + tbl
    {
    }

    /** An update with columns starts with `UPDATE tbl SET `; without
        conditions nothing follows the SET list. */
    lemma UpdateShape(cols: seq<KV>, conds: seq<KV>)
      requires |cols| > 0
      ensures "UPDATE " + tbl + " SET " <= UpdateText(cols, conds)
      ensures |conds| == 0 ==>
        UpdateText(cols, conds)
          == "UPDATE " + tbl + " SET "
             + Join(", ", Assignments(EscapeAll(Keys(cols)), Rendered(typ, PG_PLACEHOLDER_BEGIN_IDX, Vals(cols))))
    {
    }

    /** A delete starts with `DELETE FROM tbl`, and is exactly that without
        conditions. */
    lemma DeleteShape(conds: seq<KV>)
      ensures "DELETE FROM " + tbl <= DeleteText(conds)
      ensures |conds| == 0 ==> DeleteText(conds) == "DELETE FROM " + tbl
    {
    }

    // The operations, threading the placeholder counter as the source does.

    /** The condition clause for `conds`, numbering from `beginIdx`; returns
        the counter as the last condition left it. */
    method BuildConds(beginIdx: nat, conds: seq<KV>) returns (s: string, idx: nat)
      ensures s == WhereText(beginIdx, conds)
      ensures idx == beginIdx + Consumed(typ, Vals(conds))
    {
      idx := beginIdx;
      if |conds| == 0 {
        s := "";
        return;
      }
      ghost var vals := Vals(conds);
      var items: seq<string> := [];
      var i := 0;
      while i < |conds|
        invariant 0 <= i <= |conds|
        invariant idx == beginIdx + Consumed(typ, vals[..i])
        invariant |items| == i
        invariant forall j :: 0 <= j < i ==>
          items[j] == conds[j].key + " = " + RenderedValue(typ, beginIdx, vals, j)
      {
        var step := ConvertPlaceholder(idx, conds[i].val);
        items := items + [conds[i].key + " = " + step.0];
        idx := step.1;
        CountMarkersStep(vals, i);
        i := i + 1;
      }
      assert vals[..|conds|] == vals;
      CondItems(beginIdx, conds, items);
      s := " WHERE " + Join(" AND ", items);
    }
  
    /** The quoted keys and the translated values of an insert, built in one
        pass over the columns with a counter starting at the first number. */
    method InsertLists(cols: seq<KV>) returns (keys: seq<string>, values: seq<string>)
      ensures keys == EscapeAll(Keys(cols))
      ensures values == Rendered(typ, PG_PLACEHOLDER_BEGIN_IDX, Vals(cols))
    {
      ghost var vals := Vals(cols);
      var beginIdx := PG_PLACEHOLDER_BEGIN_IDX;
      keys, values := [], [];
      var i := 0;
      while i < |cols|
        invariant 0 <= i <= |cols|
        invariant beginIdx == PG_PLACEHOLDER_BEGIN_IDX + Consumed(typ, vals[..i])
        invariant |keys| == i && |values| == i
        invariant forall j :: 0 <= j < i ==> keys[j] == EscapeCol(cols[j].key)
        invariant forall j :: 0 <= j < i ==>
          values[j] == RenderedValue(typ, PG_PLACEHOLDER_BEGIN_IDX, vals, j)
      {
        var step := ConvertPlaceholder(beginIdx, cols[i].val);
        keys := keys + [EscapeCol(cols[i].key)];
        values := values + [step.0];
        beginIdx := step.1;
        CountMarkersStep(vals, i);
        i := i + 1;
      }
      InsertParts(cols, keys, values);
    }

    /** `INSERT INTO tbl (cols) VALUES (vals)`, or nothing without columns. */
    method BuildInsertStmt(cols: seq<KV>) returns (s: string)
      ensures s == InsertText(cols)
    {
      if |cols| == 0 {
        return "";
      }
      var keys, values := InsertLists(cols);
      s := "INSERT INTO " + tbl + " (" + Join(", ", keys) + ") VALUES (" + Join(", ", values) + ")";
    }

    /** `SELECT cols FROM tbl` and the condition clause; `*` without columns. */
    method BuildQueryStmt(cols: seq<string>, conds: seq<KV>) returns (s: string)
      ensures s == QueryText(cols, conds)
    {
      var colsStr := if |cols| == 0 then "*" else Join(", ", EscapeAll(cols));
      var beginIdx := PG_PLACEHOLDER_BEGIN_IDX;
      var where;
      where, beginIdx := BuildConds(beginIdx, conds);
      s := "SELECT " + colsStr + " FROM " + tbl + where;
    }

    /** The `col = val` items of an update's SET list, built in one pass
        with a counter starting at the first number; returns the counter the
        list leaves. */
    method SetList(cols: seq<KV>) returns (items: seq<string>, idx: nat)
      ensures items == Assignments(EscapeAll(Keys(cols)), Rendered(typ, PG_PLACEHOLDER_BEGIN_IDX, Vals(cols)))
      ensures idx == PG_PLACEHOLDER_BEGIN_IDX + Consumed(typ, Vals(cols))
    {
      ghost var vals := Vals(cols);
      idx := PG_PLACEHOLDER_BEGIN_IDX;
      items := [];
      var i := 0;
      while i < |cols|
        invariant 0 <= i <= |cols|
        invariant idx == PG_PLACEHOLDER_BEGIN_IDX + Consumed(typ, vals[..i])
        invariant |items| == i
        invariant forall j :: 0 <= j < i ==>
          items[j] == EscapeCol(cols[j].key) + " = "
                      + RenderedValue(typ, PG_PLACEHOLDER_BEGIN_IDX, vals, j)
      {
        var step := ConvertPlaceholder(idx, cols[i].val);
        items := items + [EscapeCol(cols[i].key) + " = " + step.0];
        idx := step.1;
        CountMarkersStep(vals, i);
        i := i + 1;
      }
      assert vals[..|cols|] == vals;
      SetItems(cols, items);
    }

    /** `UPDATE tbl SET col = val, ...` and the condition clause, whose
        placeholders continue the numbering of the SET list; nothing without
        columns. */
    method BuildUpdateStmt(cols: seq<KV>, conds: seq<KV>) returns (s: string)
      ensures s == UpdateText(cols, conds)
    {
      if |cols| == 0 {
        return "";
      }
      var items, beginIdx := SetList(cols);
      var where;
      where, beginIdx := BuildConds(beginIdx, conds);
      s := "UPDATE " + tbl + " SET " + Join(", ", items) + where;
    }

    /** The condition items built one by one are the keys paired with the
        values numbered from `start`. */
    lemma CondItems(start: nat, conds: seq<KV>, items: seq<string>)
      requires |items| == |conds|
      requires forall j :: 0 <= j < |conds| ==>
        items[j] == conds[j].key + " = " + RenderedValue(typ, start, Vals(conds), j)
      ensures items == Assignments(Keys(conds), Rendered(typ, start, Vals(conds)))
    {
    }

    /** The keys and values of an insert built one by one are the quoted
        keys and the values numbered from the first number. */
    lemma InsertParts(cols: seq<KV>, keys: seq<string>, values: seq<string>)
      requires |keys| == |cols| && |values| == |cols|
      requires forall j :: 0 <= j < |cols| ==> keys[j] == EscapeCol(cols[j].key)
      requires forall j :: 0 <= j < |cols| ==>
        values[j] == RenderedValue(typ, PG_PLACEHOLDER_BEGIN_IDX, Vals(cols), j)
      ensures keys == EscapeAll(Keys(cols))
      ensures values == Rendered(typ, PG_PLACEHOLDER_BEGIN_IDX, Vals(cols))
    {
    }

    /** The SET items built one by one are the quoted keys paired with the
        values numbered from the first number. */
    lemma SetItems(cols: seq<KV>, items: seq<string>)
      requires |items| == |cols|
      requires forall j :: 0 <= j < |cols| ==>
        items[j] == EscapeCol(cols[j].key) + " = "
                    + RenderedValue(typ, PG_PLACEHOLDER_BEGIN_IDX, Vals(cols), j)
      ensures items == Assignments(EscapeAll(Keys(cols)), Rendered(typ, PG_PLACEHOLDER_BEGIN_IDX, Vals(cols)))
    {
    }

    /** `DELETE FROM tbl` and the condition clause. */
    method BuildDeleteStmt(conds: seq<KV>) returns (s: string)
      ensures s == DeleteText(conds)
    {
      var beginIdx := PG_PLACEHOLDER_BEGIN_IDX;
      var where;
      where, beginIdx := BuildConds(beginIdx, conds);
      s := "DELETE FROM " + tbl + where;
    }
  
    /** Condition `k` appears in the clause as `key = value`, key verbatim and
        value rendered, at the place of item `k` after ` WHERE `. */
    lemma WhereItemAt(start: nat, conds: seq<KV>, k: nat)
      requires k < |conds|
      ensures var items := Assignments(Keys(conds), Rendered(typ, start, Vals(conds)));
              var at := 7 + ItemOffset(" AND ", items, k);
              var item := conds[k].key + " = " + RenderedValue(typ, start, Vals(conds), k);
              at + |item| <= |WhereText(start, conds)| &&
              WhereText(start, conds)[at..at + |item|] == item
    {
      var items := Assignments(Keys(conds), Rendered(typ, start, Vals(conds)));
      JoinItemWithin(" WHERE ", " AND ", items, "", k);
      assert WhereText(start, conds) == " WHERE " + Join(" AND ", items) + "";
    }

    /** The SET values and the condition values of an update are numbered
        as one list, in the order they appear in the statement: the first
        `|cols|` numbered values go to the SET list, the rest to the
        conditions. */
    lemma UpdateNumbersOneList(cols: seq<KV>, conds: seq<KV>)
      requires |cols| > 0
      ensures var all := Rendered(typ, PG_PLACEHOLDER_BEGIN_IDX, Vals(cols) + Vals(conds));
              UpdateText(cols, conds)
                == "UPDATE " + tbl + " SET "
                   + Join(", ", Assignments(EscapeAll(Keys(cols)), all[..|cols|]))
                   + WhereClause(Assignments(Keys(conds), all[|cols|..]))
    {
      var vals := Vals(cols);
      RenderedConcat(typ, PG_PLACEHOLDER_BEGIN_IDX, vals, Vals(conds));
      var all := Rendered(typ, PG_PLACEHOLDER_BEGIN_IDX, vals + Vals(conds));
      assert all[..|cols|] == Rendered(typ, PG_PLACEHOLDER_BEGIN_IDX, vals);
      assert all[|cols|..] == Rendered(typ, PG_PLACEHOLDER_BEGIN_IDX + Consumed(typ, vals), Vals(conds));
    }

    /** Column `k` of an insert sits, quoted, at place `k` of the column list. */
    lemma InsertKeyAt(cols: seq<KV>, k: nat)
      requires k < |cols|
      ensures var keys := EscapeAll(Keys(cols));
              var at := |tbl| + 14 + ItemOffset(", ", keys, k);
              at + |keys[k]| <= |InsertText(cols)| &&
              InsertText(cols)[at..at + |keys[k]|] == EscapeCol(cols[k].key)
    {
      var keys := EscapeAll(Keys(cols));
      var p1 := "INSERT INTO " + tbl + " (";
      var rest := ") VALUES (" + Join(", ", Rendered(typ, PG_PLACEHOLDER_BEGIN_IDX, Vals(cols))) + ")";
      InsertSplit(cols);
      JoinItemWithin(p1, ", ", keys, rest, k);
      assert keys[k] == EscapeCol(cols[k].key);
    }

    /** An insert with columns is its column list between two fixed texts. */
    lemma InsertSplit(cols: seq<KV>)
      requires |cols| > 0
      ensures InsertText(cols) == "INSERT INTO " + tbl + " (" + Join(", ", EscapeAll(Keys(cols)))
                                  + (") VALUES (" + Join(", ", Rendered(typ, PG_PLACEHOLDER_BEGIN_IDX, Vals(cols))) + ")")
    {
    }

    /** Value `k` of an insert sits, rendered, at place `k` of the value list. */
    lemma InsertValueAt(cols: seq<KV>, k: nat)
      requires k < |cols|
      ensures var vals := Rendered(typ, PG_PLACEHOLDER_BEGIN_IDX, Vals(cols));
              var at := |tbl| + 24 + |Join(", ", EscapeAll(Keys(cols)))| + ItemOffset(", ", vals, k);
              at + |vals[k]| <= |InsertText(cols)| &&
              InsertText(cols)[at..at + |vals[k]|]
                == RenderedValue(typ, PG_PLACEHOLDER_BEGIN_IDX, Vals(cols), k)
    {
      var vals := Rendered(typ, PG_PLACEHOLDER_BEGIN_IDX, Vals(cols));
      var p2 := "INSERT INTO " + tbl + " (" + Join(", ", EscapeAll(Keys(cols))) + ") VALUES (";
      JoinItemWithin(p2, ", ", vals, ")", k);
      assert InsertText(cols) == p2 + Join(", ", vals) + ")";
    }
  }
}
