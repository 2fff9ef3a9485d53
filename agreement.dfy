/** How the two statement builders relate: the dialect-aware builder emits
    exactly what the older builder emits once its column names have been
    quoted and its values numbered; its condition clause, whose keys are not
    quoted, is the older one's unchanged outside PostgreSQL. */
module Agreement {
  import opened Db
  import opened Text
  import Builder
  import Sqlx

  /** Pairs `keys[i] = vals[i]` of the older builder. */
  function Zip(keys: seq<string>, vals: seq<string>): (r: seq<Sqlx.KV>)
    requires |keys| == |vals|
    ensures |r| == |keys|
  {
    seq(|keys|, i requires 0 <= i < |keys| => Sqlx.KV(keys[i], vals[i]))
  }

  /** The same pairs, as the older builder's type. */
  function ToLegacy(kvs: seq<Builder.KV>): (r: seq<Sqlx.KV>)
    ensures |r| == |kvs|
  {
    Zip(Builder.Keys(kvs), Builder.Vals(kvs))
  }

  function Legacy(b: Builder.StmtBuilder): Sqlx.StmtBuilder
  {
    Sqlx.StmtBuilder(b.tbl)
  }

  /** The pieces of both builders agree on zipped pairs. */
  lemma ZipParts(keys: seq<string>, vals: seq<string>)
    requires |keys| == |vals|
    ensures Sqlx.Keys(Zip(keys, vals)) == keys
    ensures Sqlx.Vals(Zip(keys, vals)) == vals
    ensures Sqlx.Pairs(Zip(keys, vals)) == Builder.Assignments(keys, vals)
  {
  }

  /** The condition clause is the older one over the rendered values. */
  lemma WhereAgrees(b: Builder.StmtBuilder, start: nat, conds: seq<Builder.KV>)
    ensures b.WhereText(start, conds)
         == Legacy(b).BuildConds(Zip(Builder.Keys(conds), Builder.Rendered(b.typ, start, Builder.Vals(conds))))
  {
    ZipParts(Builder.Keys(conds), Builder.Rendered(b.typ, start, Builder.Vals(conds)));
  }

  /** Outside PostgreSQL both builders write the same condition clause. */
  lemma CondsAgreeOutsidePostgres(b: Builder.StmtBuilder, start: nat, conds: seq<Builder.KV>)
    requires b.typ != PostgreSQL
    ensures b.WhereText(start, conds) == Legacy(b).BuildConds(ToLegacy(conds))
  {
    Builder.RenderedVerbatim(b.typ, start, Builder.Vals(conds));
    WhereAgrees(b, start, conds);
  }

  /** Outside PostgreSQL both builders write the same DELETE statement. */
  lemma DeleteAgreesOutsidePostgres(b: Builder.StmtBuilder, conds: seq<Builder.KV>)
    requires b.typ != PostgreSQL
    ensures b.DeleteText(conds) == Legacy(b).BuildDeleteStmt(ToLegacy(conds))
  {
    CondsAgreeOutsidePostgres(b, Builder.PG_PLACEHOLDER_BEGIN_IDX, conds);
  }

  lemma InsertAgrees(b: Builder.StmtBuilder, cols: seq<Builder.KV>)
    ensures b.InsertText(cols)
         == Legacy(b).BuildInsertStmt(Zip(b.EscapeAll(Builder.Keys(cols)),
                                          Builder.Rendered(b.typ, Builder.PG_PLACEHOLDER_BEGIN_IDX, Builder.Vals(cols))))
  {
    ZipParts(b.EscapeAll(Builder.Keys(cols)),
             Builder.Rendered(b.typ, Builder.PG_PLACEHOLDER_BEGIN_IDX, Builder.Vals(cols)));
  }

  lemma QueryAgrees(b: Builder.StmtBuilder, cols: seq<string>, conds: seq<Builder.KV>)
    ensures b.QueryText(cols, conds)
         == Legacy(b).BuildQueryStmt(b.EscapeAll(cols),
                                     Zip(Builder.Keys(conds),
                                         Builder.Rendered(b.typ, Builder.PG_PLACEHOLDER_BEGIN_IDX, Builder.Vals(conds))))
  {
    WhereAgrees(b, Builder.PG_PLACEHOLDER_BEGIN_IDX, conds);
  }

  /** The SET pairs take the first rendered values of the whole statement,
      the conditions the rest. */
  lemma UpdateAgrees(b: Builder.StmtBuilder, cols: seq<Builder.KV>, conds: seq<Builder.KV>)
    ensures var all := Builder.Rendered(b.typ, Builder.PG_PLACEHOLDER_BEGIN_IDX,
                                        Builder.Vals(cols) + Builder.Vals(conds));
            b.UpdateText(cols, conds)
              == Legacy(b).BuildUpdateStmt(Zip(b.EscapeAll(Builder.Keys(cols)), all[..|cols|]),
                                           Zip(Builder.Keys(conds), all[|cols|..]))
  {
    var all := Builder.Rendered(b.typ, Builder.PG_PLACEHOLDER_BEGIN_IDX,
                                Builder.Vals(cols) + Builder.Vals(conds));
    ZipParts(b.EscapeAll(Builder.Keys(cols)), all[..|cols|]);
    ZipParts(Builder.Keys(conds), all[|cols|..]);
    if |cols| > 0 {
      b.UpdateNumbersOneList(cols, conds);
    }
  }

  lemma DeleteAgrees(b: Builder.StmtBuilder, conds: seq<Builder.KV>)
    ensures b.DeleteText(conds)
         == Legacy(b).BuildDeleteStmt(Zip(Builder.Keys(conds),
                                          Builder.Rendered(b.typ, Builder.PG_PLACEHOLDER_BEGIN_IDX, Builder.Vals(conds))))
  {
    WhereAgrees(b, Builder.PG_PLACEHOLDER_BEGIN_IDX, conds);
  }
}
