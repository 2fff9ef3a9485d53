# SQL statement builders, modelled in Dafny

The repository's `db` module builds the text of `INSERT`, `SELECT`, `UPDATE`
and `DELETE` statements for one table. Two builders are modelled:

- `src/db/stmt_builder.rs` is the live, dialect-aware builder. It is
  configured with a table name and a database `Type` (MySQL, PostgreSQL or
  SQLite). It wraps column names in the dialect's quote character: backticks
  for MySQL, double quotes otherwise; `*` is left alone. Under PostgreSQL it
  rewrites every value equal to the neutral marker `?` into `$N`. One counter,
  reset to 1 on each public call, numbers the markers left to right: first the
  VALUES or SET list, then the WHERE list. Condition keys are never quoted.
- `src/db/sqlx.rs` is an older builder with the same four statement shapes.
  It copies keys and values into the text verbatim.

Modules:

- `Db`: the database `Type`.
- `Text`: the slice `join` both builders use, plus decimal rendering of a
  counter value. Decimal rendering comes with its inverse and a round-trip
  proof.
- `Builder`: the live builder. Its `StmtBuilder` is a datatype, because the
  source never changes a builder after `new`.
  - `escape_col`, `convert_placeholder` and the getters are functions.
  - `build_conds`, `build_insert_stmt` and `build_update_stmt` are methods
    whose loops thread the placeholder counter the way the source's `map`
    closures do. `build_query_stmt` and `build_delete_stmt` are methods too,
    because they call `build_conds`.
  - Each method is proved equal to a specification function. That function
    numbers the markers in closed form: a marker at position `i` of a
    statement's values becomes `$` followed by 1 plus the number of markers
    before `i`. Lemmas about that numbering show three things: numbers
    strictly increase, they cover `1..n` without gaps, and the WHERE list
    continues where the SET list stopped.
- `Sqlx`: the older builder, as functions.
- `Agreement`: relates the two builders. Every statement of the live builder
  is the older builder's statement over quoted column names and numbered
  values. Outside PostgreSQL, the condition clause and the DELETE statement
  of the two builders are identical.
- `Examples`: a selection of the statements the source documentation and unit tests expect, derived from the
  methods' contracts.

`convert_placeholder` takes the counter as `&mut i32`. In the model, the
counter goes in as a value, and the updated counter comes back as the second
component of the result. `build_conds` likewise returns the counter it leaves
alongside the clause.

Every method's result is fixed by its inputs, because each `ensures` equates
it with a function of the builder and the arguments. Repeated calls with
equal inputs therefore give the same text.

## Model

| member | source | states |
|---|---|---|
| Builder.StmtBuilder.New | src/db/stmt_builder.rs:42-54 | the builder made from a table name and a type reports exactly that table and that type through its getters |
| Builder.StmtBuilder.EscapeCol | src/db/stmt_builder.rs:56-59 | a column name comes back as `*` exactly when it is `*` |
| Builder.StmtBuilder.EscapeColQuotes | src/db/stmt_builder.rs:60-63 | Any name other than `*` comes back two characters longer. The name sits unchanged between two copies of the dialect's quote character, and that quote is a backtick exactly when the type is MySQL |
| Builder.StmtBuilder.ConvertPlaceholder | src/db/stmt_builder.rs:66-78 | Outside PostgreSQL, and for any value other than `?`, the value comes back unchanged and the counter is untouched. Under PostgreSQL a `?` becomes a text of at least two characters starting with `$`, and the counter goes up by one |
| Builder.StmtBuilder.PlaceholderReadsBack | src/db/stmt_builder.rs:71-72 | under PostgreSQL the characters after the `$` of a translated `?` are exactly the decimal text of the counter before the step, with no leading zero, and read back as that counter |
| Builder.StmtBuilder.RenderedStep | src/db/stmt_builder.rs:66-78 | the closed-form numbering of a value list is `convert_placeholder` applied to the first value, followed by the numbering of the rest from the counter that step left |
| Builder.StmtBuilder.BuildConds | src/db/stmt_builder.rs:80-97 | The clause is the condition text: ` WHERE ` and `key = value` items joined by ` AND `, keys verbatim and values numbered from the given counter. The returned counter is the start plus the number of `?` values under PostgreSQL, and the start otherwise |
| Builder.StmtBuilder.WhereText | src/db/stmt_builder.rs:81-82 | no conditions give the empty condition text |
| Builder.StmtBuilder.WhereShape | src/db/stmt_builder.rs:83-96 | a non-empty condition list gives a text that starts with ` WHERE ` |
| Builder.StmtBuilder.WhereItemAt | src/db/stmt_builder.rs:84-95 | condition `k` appears, as its verbatim key, ` = ` and its numbered value, at the place of item `k` of the ` AND `-joined list |
| Builder.StmtBuilder.InsertLists | src/db/stmt_builder.rs:140-149 | one pass over the columns with a counter from 1 yields the quoted keys and the values numbered from 1 |
| Builder.StmtBuilder.BuildInsertStmt | src/db/stmt_builder.rs:136-156 | the statement equals the insert text, which quotes the keys and numbers the values from 1 in one pass over the columns |
| Builder.StmtBuilder.InsertText | src/db/stmt_builder.rs:137-139 | the insert text is empty exactly when there are no columns |
| Builder.StmtBuilder.InsertShape | src/db/stmt_builder.rs:150-155 | an insert with columns starts with `INSERT INTO tbl (` and ends with `)` |
| Builder.StmtBuilder.InsertKeyAt | src/db/stmt_builder.rs:141-154 | column `k`, quoted, sits at place `k` of the column list |
| Builder.StmtBuilder.InsertValueAt | src/db/stmt_builder.rs:141-154 | value `k`, numbered, sits at place `k` of the value list, so there are as many values as keys and they stay in order |
| Builder.StmtBuilder.BuildQueryStmt | src/db/stmt_builder.rs:192-208 | the statement equals the query text: `*` without columns, otherwise quoted columns joined by `, `, then the condition text numbered from 1 |
| Builder.StmtBuilder.QueryShape | src/db/stmt_builder.rs:192-208 | The query starts with `SELECT `, and without columns with `SELECT * FROM tbl`. Without conditions nothing follows the table name, so no columns and no conditions give exactly `SELECT * FROM tbl` |
| Builder.StmtBuilder.SetList | src/db/stmt_builder.rs:261-272 | one pass over the columns with a counter from 1 yields `quoted key = value` items with the values numbered from 1, and leaves the counter at 1 plus the number of `?` values under PostgreSQL |
| Builder.StmtBuilder.BuildUpdateStmt | src/db/stmt_builder.rs:257-275 | the statement equals the update text: SET values numbered from 1, condition values numbered on from the counter the SET list left |
| Builder.StmtBuilder.UpdateText | src/db/stmt_builder.rs:258-260 | the update text is empty exactly when there are no columns, whatever the conditions |
| Builder.StmtBuilder.UpdateShape | src/db/stmt_builder.rs:262-274 | An update with columns starts with `UPDATE tbl SET `. Without conditions nothing follows the SET list |
| Builder.StmtBuilder.UpdateNumbersOneList | src/db/stmt_builder.rs:257-275 | the SET values and the condition values are numbered as one list in statement order: the first numbers, one per column, go to the SET list, the rest to the conditions |
| Builder.StmtBuilder.BuildDeleteStmt | src/db/stmt_builder.rs:309-316 | the statement equals the delete text: `DELETE FROM tbl` and the condition text numbered from 1 |
| Builder.StmtBuilder.DeleteShape | src/db/stmt_builder.rs:309-316 | the delete starts with `DELETE FROM tbl`, and is exactly that without conditions |
| Builder.RenderedConcat | src/db/stmt_builder.rs:261-273 | numbering two value lists in a row equals numbering the first one and then the second one from where the first left the counter |
| Builder.RenderedVerbatim | src/db/stmt_builder.rs:67-68 | outside PostgreSQL every value is emitted as given |
| Builder.MarkerNumbersIncrease | src/db/stmt_builder.rs:69-73 | a later `?` gets a strictly larger number than an earlier one, and the two rendered placeholders differ |
| Builder.MarkerNumbersCover | src/db/stmt_builder.rs:69-73 | every number from the start up to the final counter is given to some `?` value |
| Builder.CountMarkersMonotone | src/db/stmt_builder.rs:71 | the counter never goes down along the values and goes up at each `?` |
| Builder.CountMarkersConcat | src/db/stmt_builder.rs:261-273 | the markers of two lists in a row are the markers of each, added |
| Builder.CountMarkersBound | src/db/stmt_builder.rs:71 | the counter grows by at most the number of values |
| Text.JoinItemAt | src/db/stmt_builder.rs:94 | in a `join`, item `k` sits unchanged at its offset, followed by the separator unless it is the last |
| Text.JoinItemWithin | src/db/stmt_builder.rs:150-154 | the same, with fixed text before and after the joined items |
| Text.JoinLength | src/db/stmt_builder.rs:153-154 | a `join` is as long as its items plus one separator between each pair of neighbours |
| Text.NatToString | src/db/stmt_builder.rs:72 | the decimal text of a counter has at least one digit, all digits, and no leading zero unless it is 0 |
| Text.DecimalRoundTrip | src/db/stmt_builder.rs:72 | reading back the decimal text of a number gives that number |
| Text.NatToStringInjective | src/db/stmt_builder.rs:72 | two different counters never print the same text |
| Sqlx.StmtBuilder.New | src/db/sqlx.rs:33-40 | `get_tbl` returns the table name given to `new` |
| Sqlx.StmtBuilder.BuildConds | src/db/sqlx.rs:42-55 | no conditions give the empty text |
| Sqlx.StmtBuilder.CondsShape | src/db/sqlx.rs:42-55 | a non-empty condition list gives a text that starts with ` WHERE ` |
| Sqlx.StmtBuilder.CondItemAt | src/db/sqlx.rs:46-53 | condition `k` appears as `key = val`, both verbatim, at the place of item `k` after ` WHERE ` |
| Sqlx.StmtBuilder.BuildInsertStmt | src/db/sqlx.rs:94-105 | the statement is empty exactly when there are no columns |
| Sqlx.StmtBuilder.InsertShape | src/db/sqlx.rs:94-105 | an insert with columns starts with `INSERT INTO tbl (` and ends with `)` |
| Sqlx.StmtBuilder.InsertKeyAt | src/db/sqlx.rs:98-104 | key `k` sits verbatim at place `k` of the column list |
| Sqlx.StmtBuilder.InsertValueAt | src/db/sqlx.rs:98-104 | value `k` sits verbatim at place `k` of the value list |
| Sqlx.StmtBuilder.BuildQueryStmt | src/db/sqlx.rs:141-153 | no columns and no conditions give exactly `SELECT * FROM tbl` |
| Sqlx.StmtBuilder.QueryShape | src/db/sqlx.rs:141-153 | The query starts with `SELECT `, and without columns with `SELECT * FROM tbl`. No columns and no conditions give exactly `SELECT * FROM tbl` |
| Sqlx.StmtBuilder.BuildUpdateStmt | src/db/sqlx.rs:202-215 | the statement is empty exactly when there are no columns, whatever the conditions |
| Sqlx.StmtBuilder.UpdateShape | src/db/sqlx.rs:202-215 | An update with columns starts with `UPDATE tbl SET `. Without conditions nothing follows the verbatim `key = val` list |
| Sqlx.StmtBuilder.BuildDeleteStmt | src/db/sqlx.rs:249-251 | the statement is never empty |
| Sqlx.StmtBuilder.DeleteShape | src/db/sqlx.rs:249-251 | the delete starts with `DELETE FROM tbl`, and is exactly that without conditions |
| Agreement.WhereAgrees | src/db/stmt_builder.rs:80-97 | the live condition clause is the older one applied to the verbatim keys and the numbered values |
| Agreement.CondsAgreeOutsidePostgres | src/db/sqlx.rs:42-55 | for MySQL and SQLite the live and the older builder write the same condition clause |
| Agreement.DeleteAgreesOutsidePostgres | src/db/sqlx.rs:249-251 | for MySQL and SQLite the two builders write the same DELETE statement |
| Agreement.InsertAgrees | src/db/stmt_builder.rs:136-156 | the live insert is the older one applied to the quoted keys and the numbered values |
| Agreement.QueryAgrees | src/db/stmt_builder.rs:192-208 | the live query is the older one applied to the quoted columns and the numbered condition values |
| Agreement.UpdateAgrees | src/db/stmt_builder.rs:257-275 | the live update is the older one applied to quoted SET keys, with the first values of one numbering for SET and the rest for the conditions |
| Agreement.DeleteAgrees | src/db/stmt_builder.rs:309-316 | the live delete is the older one applied to the numbered condition values |
| Examples.SetValuesNumbered | src/db/stmt_builder.rs:226-253 | under PostgreSQL the SET values `?, ?, NOW()` become `$1, $2, NOW()` and use two numbers |
| Examples.WhereValuesNumbered | src/db/stmt_builder.rs:226-253 | the condition values `?, 'male'` numbered from 3 become `$3, 'male'` |
| Examples.UpdatePostgresDocExample | src/db/stmt_builder.rs:226-253 | the documented PostgreSQL update, with `$3` continuing into the WHERE list |
| Examples.QueryPostgresDocExample | src/db/stmt_builder.rs:174-188 | the documented PostgreSQL query: quoted columns, and conditions `$1` and `$2` |
| Examples.DeleteSqliteDocExample | src/db/stmt_builder.rs:292-305 | the documented SQLite delete, with `?` kept |
| Examples.QueryEverythingExample | src/db/stmt_builder.rs:478-485 | no columns and no conditions give `SELECT * FROM my_tbl` for every type |
| Examples.InsertNothingExample | src/db/stmt_builder.rs:381-387 | no columns give an empty insert for every type |
| Examples.UpdateNothingExample | src/db/stmt_builder.rs:553-560 | no columns give an empty update for every type, even with conditions |
| Examples.LegacyQueryDocExample | src/db/sqlx.rs:123-137 | the older builder's documented query, where `$1` stays as written |

## Left out

- Builder.StmtBuilder.ConvertPlaceholder: the counter is an unbounded `nat`, so the overflow of the source's `i32` counter after 2^31 - 1 markers is not modelled (a panic under debug overflow checks, wrap-around in release builds).
- The `&mut i32` counter is passed in and returned as a value. The model does not capture the caller's variable being updated in place.
- Lifetimes, `&str`/`String` ownership, allocation, and the `Vec`, `collect` and `unzip` mechanics are left out: every list is a `seq<string>`.
- The traits derived on `KV` (`PartialEq`, `Eq`, `Clone`, `Copy`, `Hash`, `Debug`) are left out: they are generated by the compiler and carry no logic.
- Binding and running the statements against a database is left out: that library is not part of this model.
- The table and column names are not checked for SQL injection, because the source does not check them either.
- `src/db/mod.rs` does not declare `sqlx.rs` as a module, so the older builder is not compiled into the crate. It is modelled anyway, as the reference the live builder is related to.
- The unit tests' loops over their cases are left out. Their expected strings appear only in the `Examples` module, for a few cases.
