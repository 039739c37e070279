/** The `db` helpers: statements with a fixed layout in which the signed-in user's
    id is always bound, and `query`, which runs a statement and wraps its outcome in
    `{ data, error }`. Table and column names are spliced into the text as given. */
module Database {
  import opened Common
  import opened JsValues
  import opened SqlText
  import Supabase

  /** `db.query(text, params)`: without a connection it fails before running
      anything; otherwise it yields the driver's rows or the driver's error. */
  function Query(configured: bool, driver: Driver, st: Statement): (r: Response)
    ensures !configured ==> r == Response(None, Some(NotConfigured))
    ensures r.data.Some? <==> r.error.None?
    ensures r.error.None? <==> configured && driver(st).Ok?
    ensures r.error.None? ==> r.data == Some(AllRows(driver(st).value))
    ensures configured && driver(st).Err? ==> r.error == Some(driver(st).error)
  {
    if !configured then Response(None, Some(NotConfigured))
    else match driver(st)
      case Err(e) => Response(None, Some(e))
      case Ok(rows) => Response(Some(AllRows(rows)), None)
  }

  /** `db.query` answers exactly as the query builder's `execute` does without `single()`. */
  lemma QueryLikeExecute(configured: bool, driver: Driver, st: Statement)
    ensures Query(configured, driver, st) == Supabase.Respond(configured, false, Ok(st), driver)
  {
  }

  const InsertTail := ")\n      RETURNING *\n    "

  function InsertHead(table: string, data: Row): string {
    "\n      INSERT INTO " + table + " (" + Join(Keys(data), ", ") + ", user_id)\n      VALUES ("
  }

  /** `db.insert`: one placeholder per value, then one more for `user_id`. */
  function InsertTemplate(table: string, data: Row): seq<Piece> {
    Framed(InsertHead(table, data), Items(Blanks(|data|), ", ", 1) + [Text(", "), Slot(|data| + 1)], InsertTail)
  }

  function InsertInline(table: string, data: Row, userId: Value): seq<Bound> {
    FramedInline(InsertHead(table, data),
                 InlineItems(Blanks(|data|), Values(data), ", ") + [Lit(", "), Arg(userId)], InsertTail)
  }

  /** `db.insert`: the data's keys and `user_id` as columns, `$1 .. $n+1` as values, and
      the owner as the last parameter. */
  function InsertStatement(table: string, data: Row, userId: Value): (st: Statement)
    ensures st.text == InsertHead(table, data)
                       + (Join(ItemTexts(Blanks(|data|), 1), ", ") + (", " + "$" + NatStr(|data| + 1)))
                       + InsertTail
    ensures |st.params| == |data| + 1 && st.params[|data|] == userId
    ensures LinesUp(InsertTemplate(table, data), st.params, InsertInline(table, data, userId))
  {
    InsertText(table, data);
    InsertLinesUp(table, data, userId);
    Statement(Render(InsertTemplate(table, data)), Values(data) + [userId])
  }

  /** The data values go to `$1 .. $n` in key order and `user_id` to `$n+1`. */
  lemma InsertLinesUp(table: string, data: Row, userId: Value)
    ensures LinesUp(InsertTemplate(table, data), Values(data) + [userId], InsertInline(table, data, userId))
  {
    InsertBind(table, data, userId);
    InsertNumbered(table, data);
  }

  lemma InsertBind(table: string, data: Row, userId: Value)
    ensures Bind(InsertTemplate(table, data), Values(data) + [userId]) == InsertInline(table, data, userId)
  {
    var n := |data|;
    var ps := Values(data) + [userId];
    var items := Items(Blanks(n), ", ", 1);
    var last := [Text(", "), Slot(n + 1)];
    ConcatSlices(Values(data), [userId]);
    BindItems(Blanks(n), Values(data), ", ", 1, ps);
    FirstItemBind(", ", n + 1, ps);
    BindConcat(items, last, ps);
    BindFramed(InsertHead(table, data), items + last, InsertTail, ps);
  }

  lemma InsertNumbered(table: string, data: Row)
    ensures Numbered(InsertTemplate(table, data), 1) == Some(|data| + 2)
  {
    var n := |data|;
    var items := Items(Blanks(n), ", ", 1);
    var last := [Text(", "), Slot(n + 1)];
    ItemsNumbered(Blanks(n), ", ", 1);
    FirstItemNumbered(", ", n + 1);
    NumberedConcat(items, last, 1, n + 1, n + 2);
    NumberedFramed(InsertHead(table, data), items + last, InsertTail, 1, n + 2);
  }

  /** The insert text: the keys and `user_id` as columns, `$1 .. $n+1` as values. */
  lemma InsertText(table: string, data: Row)
    ensures Render(InsertTemplate(table, data)) ==
      InsertHead(table, data) + (Join(ItemTexts(Blanks(|data|), 1), ", ") + (", " + "$" + NatStr(|data| + 1)))
        + InsertTail
  {
    var n := |data|;
    var items := Items(Blanks(n), ", ", 1);
    var last := [Text(", "), Slot(n + 1)];
    RenderItems(Blanks(n), ", ", 1);
    FirstItemRender(", ", n + 1);
    RenderConcat(items, last);
    RenderFramed(InsertHead(table, data), items + last, InsertTail);
  }

  const SelectHead := "SELECT * FROM "

  /** The filter of `db.select`: `user_id = $1`, then `key = $i+2` for the i-th
      condition, joined by AND. */
  function SelectPrefixes(conditions: Row): seq<string> {
    ["user_id = "] + KeyPrefixes(conditions)
  }

  function SelectTemplate(table: string, conditions: Row): seq<Piece> {
    [Text(SelectHead + table + " WHERE ")] + Items(SelectPrefixes(conditions), " AND ", 1)
  }

  function SelectInline(table: string, userId: Value, conditions: Row): seq<Bound> {
    [Lit(SelectHead + table + " WHERE ")]
      + InlineItems(SelectPrefixes(conditions), [userId] + Values(conditions), " AND ")
  }

  /** `user_id` goes to `$1` and the i-th condition's value to `$i+2`. */
  lemma SelectLinesUp(table: string, userId: Value, conditions: Row)
    ensures LinesUp(SelectTemplate(table, conditions), [userId] + Values(conditions),
                    SelectInline(table, userId, conditions))
  {
    var ps := [userId] + Values(conditions);
    var prefixes := SelectPrefixes(conditions);
    var head := Text(SelectHead + table + " WHERE ");
    assert ps[0 .. |ps|] == ps;
    BindItems(prefixes, ps, " AND ", 1, ps);
    SinglePiece(head, ps);
    BindConcat([head], Items(prefixes, " AND ", 1), ps);
    ItemsNumbered(prefixes, " AND ", 1);
    NumberedText(head.s, 1);
    NumberedConcat([head], Items(prefixes, " AND ", 1), 1, 1, 1 + |prefixes|);
  }

  /** The select text: the user filter and one `AND key = $k` per condition. */
  lemma SelectText(table: string, conditions: Row)
    ensures Render(SelectTemplate(table, conditions))
         == SelectHead + table + " WHERE " + Join(ItemTexts(SelectPrefixes(conditions), 1), " AND ")
  {
    var prefixes := SelectPrefixes(conditions);
    var head := Text(SelectHead + table + " WHERE ");
    RenderItems(prefixes, " AND ", 1);
    SinglePiece(head, []);
    RenderConcat([head], Items(prefixes, " AND ", 1));
  }

  /** One pass of the `db.select` loop on the text: the clause grows by the next
      condition and keeps rendering the conditions seen so far. */
  lemma SelectClauseStep(conditions: Row, index: nat, head: string, clause: string, queryText: string)
    requires index < |conditions|
    requires clause == Join(ItemTexts(SelectPrefixes(conditions)[..index + 1], 1), " AND ")
    requires queryText == head + clause
    ensures clause + " AND " + ItemText(conditions[index].0 + " = ", index + 2)
         == Join(ItemTexts(SelectPrefixes(conditions)[..index + 2], 1), " AND ")
    ensures queryText + " AND " + ItemText(conditions[index].0 + " = ", index + 2)
         == head + (clause + " AND " + ItemText(conditions[index].0 + " = ", index + 2))
  {
    var item := ItemText(conditions[index].0 + " = ", index + 2);
    KeyPrefixesAt(conditions, index);
    JoinNextItem(SelectPrefixes(conditions), " AND ", 1, index + 1, clause, item);
    ConcatAssoc(head, clause, " AND ");
    ConcatAssoc(head, clause + " AND ", item);
  }

  /** One pass of the `db.select` loop on the parameters: the next condition's value
      is pushed after the ones seen so far. */
  lemma SelectParamsStep(conditions: Row, index: nat, userId: Value, params: seq<Value>)
    requires index < |conditions|
    requires params == [userId] + Values(conditions)[..index]
    ensures params + [conditions[index].1] == [userId] + Values(conditions)[..index + 1]
  {
    ValuesAt(conditions, index);
    TakeSnoc(Values(conditions), index);
  }

  /** `db.select`: starts from the user filter and appends one condition per entry. */
  method Select(table: string, userId: Value, conditions: Row) returns (st: Statement)
    ensures st == Statement(Render(SelectTemplate(table, conditions)), [userId] + Values(conditions))
  {
    ghost var head := SelectHead + table + " WHERE ";
    var queryText := SelectHead + table + " WHERE " + ItemText("user_id = ", 1);
    ghost var clause := ItemText("user_id = ", 1);
    JoinItemTextsSnoc(SelectPrefixes(conditions), " AND ", 1, 0);
    var params := [userId];
    var index := 0;
    while index < |conditions|
      invariant 0 <= index <= |conditions|
      invariant params == [userId] + Values(conditions)[..index]
      invariant clause == Join(ItemTexts(SelectPrefixes(conditions)[..index + 1], 1), " AND ")
      invariant queryText == head + clause
    {
      SelectClauseStep(conditions, index, head, clause, queryText);
      SelectParamsStep(conditions, index, userId, params);
      var item := ItemText(conditions[index].0 + " = ", index + 2);
      queryText := queryText + " AND " + item;
      clause := clause + " AND " + item;
      params := params + [conditions[index].1];
      index := index + 1;
    }
    assert queryText == Render(SelectTemplate(table, conditions)) by {
      assert SelectPrefixes(conditions)[..index + 1] == SelectPrefixes(conditions);
      SelectText(table, conditions);
    }
    assert params == [userId] + Values(conditions) by {
      assert Values(conditions)[..index] == Values(conditions);
    }
    st := Statement(queryText, params);
  }

  const UpdateTail := "\n      RETURNING *\n    "

  function UpdateHead(table: string): string {
    "\n      UPDATE " + table + "\n      SET "
  }

  /** `db.update` sets the i-th key to `$i+2`: `$1` is the row id. */
  function UpdateItems(data: Row): seq<Piece> {
    Items(KeyPrefixes(data), ", ", 2)
  }

  /** The end of the SET list and the filter on the row id and the owner. */
  function UpdateWhere(n: nat): seq<Piece> {
    [Text(", updated_at = NOW()\n      WHERE id = "), Slot(1)] + [Text(" AND user_id = "), Slot(n + 2)]
  }

  function UpdateTemplate(table: string, data: Row): seq<Piece> {
    Framed(UpdateHead(table), UpdateItems(data) + UpdateWhere(|data|), UpdateTail)
  }

  function UpdateParams(id: Value, data: Row, userId: Value): seq<Value> {
    [id] + Values(data) + [userId]
  }

  function UpdateInline(table: string, id: Value, data: Row, userId: Value): seq<Bound> {
    FramedInline(UpdateHead(table),
                 InlineItems(KeyPrefixes(data), Values(data), ", ")
                   + [Lit(", updated_at = NOW()\n      WHERE id = "), Arg(id), Lit(" AND user_id = "), Arg(userId)],
                 UpdateTail)
  }

  /** `db.update`: `$1` picks the row, `$2 .. $n+1` carry the data and `$n+2` the owner;
      each placeholder occurs once, though `$1` follows the SET list in the text. */
  function UpdateStatement(table: string, id: Value, data: Row, userId: Value): (st: Statement)
    ensures st.text == UpdateHead(table)
                       + (Join(ItemTexts(KeyPrefixes(data), 2), ", ")
                          + (ItemText(", updated_at = NOW()\n      WHERE id = ", 1)
                             + ItemText(" AND user_id = ", |data| + 2)))
                       + UpdateTail
    ensures |st.params| == |data| + 2 && st.params[0] == id && st.params[|data| + 1] == userId
    ensures Bind(UpdateTemplate(table, data), st.params) == UpdateInline(table, id, data, userId)
    ensures forall k: nat :: SlotCount(UpdateTemplate(table, data), k) == if 1 <= k <= |data| + 2 then 1 else 0
  {
    UpdateText(table, data);
    UpdateBind(table, id, data, userId);
    assert forall k: nat :: SlotCount(UpdateTemplate(table, data), k) == if 1 <= k <= |data| + 2 then 1 else 0 by {
      forall k: nat ensures SlotCount(UpdateTemplate(table, data), k) == if 1 <= k <= |data| + 2 then 1 else 0 {
        UpdateSlotCount(table, data, k);
      }
    }
    Statement(Render(UpdateTemplate(table, data)), UpdateParams(id, data, userId))
  }

  /** Each key is set to its own value, the row is picked by `id` and the owner by `user_id`. */
  lemma UpdateBind(table: string, id: Value, data: Row, userId: Value)
    ensures Bind(UpdateTemplate(table, data), UpdateParams(id, data, userId))
         == UpdateInline(table, id, data, userId)
  {
    var n := |data|;
    var ps := UpdateParams(id, data, userId);
    var w1, w2 := ", updated_at = NOW()\n      WHERE id = ", " AND user_id = ";
    MiddleSlice([id], Values(data), [userId]);
    BindItems(KeyPrefixes(data), Values(data), ", ", 2, ps);
    FirstItemBind(w1, 1, ps);
    FirstItemBind(w2, n + 2, ps);
    BindConcat([Text(w1), Slot(1)], [Text(w2), Slot(n + 2)], ps);
    BindFramedConcat(UpdateHead(table), UpdateItems(data), UpdateWhere(n), UpdateTail, ps,
                     InlineItems(KeyPrefixes(data), Values(data), ", "),
                     [Lit(w1), Arg(id), Lit(w2), Arg(userId)]);
  }

  /** The SET list numbers its placeholders `$2 .. $n+1` in key order. */
  lemma UpdateItemsNumbered(data: Row)
    ensures Numbered(UpdateItems(data), 2) == Some(|data| + 2)
  {
    ItemsNumbered(KeyPrefixes(data), ", ", 2);
  }

  /** Out of textual order, the update still uses each of `$1 .. $n+2` exactly once,
      matching its `n + 2` parameters. */
  lemma UpdateSlotCount(table: string, data: Row, k: nat)
    ensures SlotCount(UpdateTemplate(table, data), k) == if 1 <= k <= |data| + 2 then 1 else 0
  {
    var n := |data|;
    var w1, w2 := ", updated_at = NOW()\n      WHERE id = ", " AND user_id = ";
    UpdateItemsNumbered(data);
    NumberedSlotCount(UpdateItems(data), 2, n + 2, k);
    FirstItemNumbered(w1, 1);
    NumberedSlotCount([Text(w1), Slot(1)], 1, 2, k);
    FirstItemNumbered(w2, n + 2);
    NumberedSlotCount([Text(w2), Slot(n + 2)], n + 2, n + 3, k);
    SlotCountConcat([Text(w1), Slot(1)], [Text(w2), Slot(n + 2)], k);
    SlotCountConcat(UpdateItems(data), UpdateWhere(n), k);
    FramedSlotCount(UpdateHead(table), UpdateItems(data) + UpdateWhere(n), UpdateTail, k);
  }

  /** The update text: `key = $i+2` joined by commas, then the `updated_at` stamp and
      the filter `id = $1 AND user_id = $n+2`. */
  lemma UpdateText(table: string, data: Row)
    ensures Render(UpdateTemplate(table, data))
         == UpdateHead(table) + (Join(ItemTexts(KeyPrefixes(data), 2), ", ")
              + (ItemText(", updated_at = NOW()\n      WHERE id = ", 1)
                 + ItemText(" AND user_id = ", |data| + 2)))
            + UpdateTail
  {
    var n := |data|;
    var w1, w2 := ", updated_at = NOW()\n      WHERE id = ", " AND user_id = ";
    RenderItems(KeyPrefixes(data), ", ", 2);
    FirstItemRender(w1, 1);
    FirstItemRender(w2, n + 2);
    RenderConcat([Text(w1), Slot(1)], [Text(w2), Slot(n + 2)]);
    RenderConcat(UpdateItems(data), UpdateWhere(n));
    RenderFramed(UpdateHead(table), UpdateItems(data) + UpdateWhere(n), UpdateTail);
  }

  const DeleteTail := "\n      RETURNING *\n    "

  function DeleteHead(table: string): string {
    "\n      DELETE FROM " + table + "\n      WHERE id = "
  }

  function DeleteTemplate(table: string): seq<Piece> {
    Framed(DeleteHead(table), [Slot(1)] + [Text(" AND user_id = "), Slot(2)], DeleteTail)
  }

  function DeleteInline(table: string, id: Value, userId: Value): seq<Bound> {
    FramedInline(DeleteHead(table), [Arg(id)] + [Lit(" AND user_id = "), Arg(userId)], DeleteTail)
  }

  /** `db.delete`: the row by `$1 = id` and the owner by `$2 = userId`. */
  function DeleteStatement(table: string, id: Value, userId: Value): (st: Statement)
    ensures st.text == DeleteHead(table) + ("$1" + " AND user_id = $2") + DeleteTail
    ensures |st.params| == 2 && st.params[0] == id && st.params[1] == userId
    ensures LinesUp(DeleteTemplate(table), st.params, DeleteInline(table, id, userId))
  {
    DeleteText(table);
    DeleteLinesUp(table, id, userId);
    Statement(Render(DeleteTemplate(table)), [id, userId])
  }

  /** `db.delete` picks the row by `$1 = id` and the owner by `$2 = userId`. */
  lemma DeleteLinesUp(table: string, id: Value, userId: Value)
    ensures LinesUp(DeleteTemplate(table), [id, userId], DeleteInline(table, id, userId))
  {
    var ps := [id, userId];
    var rest := [Text(" AND user_id = "), Slot(2)];
    SinglePiece(Slot(1), ps);
    FirstItemBind(" AND user_id = ", 2, ps);
    BindFramedConcat(DeleteHead(table), [Slot(1)], rest, DeleteTail, ps, [Arg(id)],
                     [Lit(" AND user_id = "), Arg(userId)]);
    assert [Slot(1)][1..] == [];
    assert Numbered([Slot(1)], 1) == Some(2);
    FirstItemNumbered(" AND user_id = ", 2);
    NumberedFramedConcat(DeleteHead(table), [Slot(1)], rest, DeleteTail, 1, 2, 3);
  }

  lemma DeleteText(table: string)
    ensures Render(DeleteTemplate(table)) == DeleteHead(table) + ("$1" + " AND user_id = $2") + DeleteTail
  {
    var rest := [Text(" AND user_id = "), Slot(2)];
    SinglePiece(Slot(1), []);
    FirstItemRender(" AND user_id = ", 2);
    RenderConcat([Slot(1)], rest);
    RenderFramed(DeleteHead(table), [Slot(1)] + rest, DeleteTail);
  }
}
