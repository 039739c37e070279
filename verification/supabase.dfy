/** The chainable query builder that stands in for a Supabase client: chained calls
    record a query type, columns, WHERE conditions, an ORDER BY clause, a LIMIT and
    the insert/update payload in the builder's fields; `execute` turns them into one
    SQL text with `$n` placeholders and the matching parameter array, and runs it. */
module Supabase {
  import opened Common
  import opened JsValues
  import opened SqlText

  datatype QueryType = SelectQuery | InsertQuery | UpdateQuery | DeleteQuery

  datatype Operator = Equal | AtLeast | AtMost | ILike

  function OperatorText(op: Operator): string {
    match op
    case Equal => "="
    case AtLeast => ">="
    case AtMost => "<="
    case ILike => "ILIKE"
  }

  datatype Condition = Condition(column: string, op: Operator, value: Value)

  /** `insert` accepts one object or an array of objects. */
  datatype InsertData = OneRow(row: Row) | RowArray(rows: seq<Row>)

  /** A snapshot of a builder's fields. */
  datatype BuilderState = BuilderState(
    table: string,
    queryType: QueryType,
    columns: string,
    whereConditions: seq<Condition>,
    orderByClause: Option<string>,
    limitValue: Option<nat>,
    insertData: Option<InsertData>,
    updateData: Option<Row>,
    singleRow: bool)

  /** The fields of a new builder. */
  function Fresh(table: string): BuilderState {
    BuilderState(table, SelectQuery, "*", [], None, None, None, None, false)
  }

  /** The text before the placeholder of each condition: `column operator `. */
  function ConditionPrefixes(conds: seq<Condition>): (r: seq<string>)
    ensures |r| == |conds|
  {
    if conds == [] then []
    else [conds[0].column + " " + OperatorText(conds[0].op) + " "] + ConditionPrefixes(conds[1..])
  }

  lemma {:induction false} ConditionPrefixesAt(conds: seq<Condition>, i: nat)
    requires i < |conds|
    ensures ConditionPrefixes(conds)[i] == conds[i].column + " " + OperatorText(conds[i].op) + " "
  {
    if i > 0 {
      ConditionPrefixesAt(conds[1..], i - 1);
    }
  }

  /** The value of each condition, in insertion order. */
  function ConditionValues(conds: seq<Condition>): (r: seq<Value>)
    ensures |r| == |conds|
  {
    if conds == [] then [] else [conds[0].value] + ConditionValues(conds[1..])
  }

  lemma {:induction false} ConditionValuesAt(conds: seq<Condition>, i: nat)
    requires i < |conds|
    ensures ConditionValues(conds)[i] == conds[i].value
  {
    if i > 0 {
      ConditionValuesAt(conds[1..], i - 1);
    }
  }

  /** ` WHERE c1 op1 $first AND c2 op2 $first+1 ...`, or nothing without conditions. */
  function WhereTemplate(conds: seq<Condition>, first: nat): seq<Piece> {
    if conds == [] then [] else [Text(" WHERE ")] + Items(ConditionPrefixes(conds), " AND ", first)
  }

  function WhereInline(conds: seq<Condition>): seq<Bound> {
    if conds == [] then []
    else [Lit(" WHERE ")] + InlineItems(ConditionPrefixes(conds), ConditionValues(conds), " AND ")
  }

  /** The ORDER BY and LIMIT tail of a select; LIMIT only for a truthy limit. */
  function SelectTail(s: BuilderState): string {
    (match s.orderByClause case None => "" case Some(c) => " ORDER BY " + c)
    + (match s.limitValue case Some(n) => if n != 0 then " LIMIT " + NatStr(n) else "" case None => "")
  }

  /** The object an insert writes: the payload, or the first element of an array. */
  function InsertRow(d: Option<InsertData>): Option<Row> {
    match d
    case None => None
    case Some(OneRow(row)) => Some(row)
    case Some(RowArray(rows)) => if rows == [] then None else Some(rows[0])
  }

  /** The TypeError that `Object.keys(undefined)` raises. */
  const MissingObject := DbError("Cannot convert undefined or null to object")

  function SelectHead(s: BuilderState): string {
    "SELECT " + s.columns + " FROM " + s.table
  }

  function InsertHead(table: string, row: Row): string {
    "INSERT INTO " + table + " (" + Join(Keys(row), ", ") + ") VALUES ("
  }

  function SelectTemplate(s: BuilderState): seq<Piece> {
    Framed(SelectHead(s), WhereTemplate(s.whereConditions, 1), SelectTail(s))
  }

  function SelectInline(s: BuilderState): seq<Bound> {
    FramedInline(SelectHead(s), WhereInline(s.whereConditions), SelectTail(s))
  }

  function InsertTemplate(table: string, row: Row): seq<Piece> {
    Framed(InsertHead(table, row), Items(Blanks(|row|), ", ", 1), ") RETURNING *")
  }

  function InsertInline(table: string, row: Row): seq<Bound> {
    FramedInline(InsertHead(table, row), InlineItems(Blanks(|row|), Values(row), ", "), ") RETURNING *")
  }

  /** The SET list numbers from 1 and the WHERE list goes on from `|row| + 1`. */
  function UpdateTemplate(table: string, row: Row, conds: seq<Condition>): seq<Piece> {
    Framed("UPDATE " + table + " SET ",
           Items(KeyPrefixes(row), ", ", 1) + WhereTemplate(conds, |row| + 1), " RETURNING *")
  }

  function UpdateInline(table: string, row: Row, conds: seq<Condition>): seq<Bound> {
    FramedInline("UPDATE " + table + " SET ",
                 InlineItems(KeyPrefixes(row), Values(row), ", ") + WhereInline(conds), " RETURNING *")
  }

  function DeleteTemplate(table: string, conds: seq<Condition>): seq<Piece> {
    Framed("DELETE FROM " + table, WhereTemplate(conds, 1), " RETURNING *")
  }

  function DeleteInline(table: string, conds: seq<Condition>): seq<Bound> {
    FramedInline("DELETE FROM " + table, WhereInline(conds), " RETURNING *")
  }

  /** The template and the parameter array that `execute` builds from the fields;
      an insert or update without a payload fails as `Object.keys(undefined)` does. */
  function TemplateOf(s: BuilderState): (r: Result<(seq<Piece>, seq<Value>), DbError>)
    ensures r.Err? <==>
      (s.queryType == InsertQuery && InsertRow(s.insertData).None?)
      || (s.queryType == UpdateQuery && s.updateData.None?)
    ensures r.Err? ==> r.error == MissingObject
  {
    match s.queryType
    case SelectQuery => Ok((SelectTemplate(s), ConditionValues(s.whereConditions)))
    case InsertQuery =>
      (match InsertRow(s.insertData)
       case None => Err(MissingObject)
       case Some(row) => Ok((InsertTemplate(s.table, row), Values(row))))
    case UpdateQuery =>
      (match s.updateData
       case None => Err(MissingObject)
       case Some(row) =>
         Ok((UpdateTemplate(s.table, row, s.whereConditions), Values(row) + ConditionValues(s.whereConditions))))
    case DeleteQuery => Ok((DeleteTemplate(s.table, s.whereConditions), ConditionValues(s.whereConditions)))
  }

  /** The statement the database would see if every value were written in place. */
  function InlineOf(s: BuilderState): Result<seq<Bound>, DbError> {
    match s.queryType
    case SelectQuery => Ok(SelectInline(s))
    case InsertQuery =>
      (match InsertRow(s.insertData)
       case None => Err(MissingObject)
       case Some(row) => Ok(InsertInline(s.table, row)))
    case UpdateQuery =>
      (match s.updateData
       case None => Err(MissingObject)
       case Some(row) => Ok(UpdateInline(s.table, row, s.whereConditions)))
    case DeleteQuery => Ok(DeleteInline(s.table, s.whereConditions))
  }

  /** The SQL text and parameters that `execute` hands to the driver. */
  function StatementOf(s: BuilderState): (r: Result<Statement, DbError>)
    ensures r.Err? <==>
      (s.queryType == InsertQuery && InsertRow(s.insertData).None?)
      || (s.queryType == UpdateQuery && s.updateData.None?)
    ensures r.Err? ==> r.error == MissingObject
    ensures r.Ok? ==> TemplateOf(s).Ok? && InlineOf(s).Ok?
                      && r.value.text == Render(TemplateOf(s).value.0)
                      && LinesUp(TemplateOf(s).value.0, r.value.params, InlineOf(s).value)
  {
    PlaceholdersLineUp(s);
    match TemplateOf(s)
    case Err(e) => Err(e)
    case Ok((t, ps)) => Ok(Statement(Render(t), ps))
  }

  /** The statement of each kind of query, one kind at a time. */
  lemma SelectStatement(s: BuilderState)
    requires s.queryType == SelectQuery
    ensures StatementOf(s) == Ok(Statement(Render(SelectTemplate(s)), ConditionValues(s.whereConditions)))
  {
  }

  lemma InsertStatement(s: BuilderState)
    requires s.queryType == InsertQuery
    ensures StatementOf(s) == match InsertRow(s.insertData)
      case None => Err(MissingObject)
      case Some(row) => Ok(Statement(Render(InsertTemplate(s.table, row)), Values(row)))
  {
  }

  lemma UpdateStatement(s: BuilderState)
    requires s.queryType == UpdateQuery
    ensures StatementOf(s) == match s.updateData
      case None => Err(MissingObject)
      case Some(row) =>
        Ok(Statement(Render(UpdateTemplate(s.table, row, s.whereConditions)),
                     Values(row) + ConditionValues(s.whereConditions)))
  {
  }

  lemma DeleteStatement(s: BuilderState)
    requires s.queryType == DeleteQuery
    ensures StatementOf(s) == Ok(Statement(Render(DeleteTemplate(s.table, s.whereConditions)),
                                           ConditionValues(s.whereConditions)))
  {
  }

  /** The outcome of `execute`: no connection, a failed build and a failed driver call
      all give `data: null` with the error; `single()` keeps the first row or null. */
  function Respond(configured: bool, single: bool, built: Result<Statement, DbError>,
                   driver: Driver): (r: Response)
    ensures r.error.Some? ==> r.data.None?
    ensures r.error.None? ==> configured && built.Ok? && driver(built.value).Ok?
    ensures !configured ==> r == Response(None, Some(NotConfigured))
    ensures configured && built.Err? ==> r == Response(None, Some(built.error))
    ensures configured && built.Ok? && driver(built.value).Err? ==>
      r == Response(None, Some(driver(built.value).error))
    ensures configured && built.Ok? && driver(built.value).Ok? && single ==>
      r.data == (if driver(built.value).value == [] then None
                 else Some(FirstRow(driver(built.value).value[0])))
    ensures configured && built.Ok? && driver(built.value).Ok? && !single ==>
      r.data == Some(AllRows(driver(built.value).value))
  {
    if !configured then Response(None, Some(NotConfigured))
    else match built
      case Err(e) => Response(None, Some(e))
      case Ok(st) =>
        match driver(st)
        case Err(e) => Response(None, Some(e))
        case Ok(rows) =>
          if single then Response(if rows == [] then None else Some(FirstRow(rows[0])), None)
          else Response(Some(AllRows(rows)), None)
  }

  /** The WHERE list binds to its inline form when the condition values sit in the
      parameters from position `first` on. */
  lemma WhereBind(conds: seq<Condition>, first: nat, params: seq<Value>)
    requires 1 <= first && first - 1 + |conds| <= |params|
    requires params[first - 1 .. first - 1 + |conds|] == ConditionValues(conds)
    ensures Bind(WhereTemplate(conds, first), params) == WhereInline(conds)
  {
    if conds == [] {
      assert WhereTemplate(conds, first) == [];
    } else {
      var prefixes := ConditionPrefixes(conds);
      BindItems(prefixes, ConditionValues(conds), " AND ", first, params);
      SinglePiece(Text(" WHERE "), params);
      BindConcat([Text(" WHERE ")], Items(prefixes, " AND ", first), params);
    }
  }

  /** The WHERE list uses the placeholders from `first` on, one per condition, in order. */
  lemma WhereNumbered(conds: seq<Condition>, first: nat)
    ensures Numbered(WhereTemplate(conds, first), first) == Some(first + |conds|)
  {
    if conds == [] {
      assert WhereTemplate(conds, first) == [];
    } else {
      var items := Items(ConditionPrefixes(conds), " AND ", first);
      ItemsNumbered(ConditionPrefixes(conds), " AND ", first);
      NumberedText(" WHERE ", first);
      NumberedConcat([Text(" WHERE ")], items, first, first, first + |conds|);
    }
  }

  lemma WhereText(conds: seq<Condition>, first: nat)
    ensures Render(WhereTemplate(conds, first)) ==
      if conds == [] then "" else " WHERE " + Join(ItemTexts(ConditionPrefixes(conds), first), " AND ")
  {
    if conds == [] {
      assert WhereTemplate(conds, first) == [];
    } else {
      var prefixes := ConditionPrefixes(conds);
      RenderItems(prefixes, " AND ", first);
      SinglePiece(Text(" WHERE "), []);
      RenderConcat([Text(" WHERE ")], Items(prefixes, " AND ", first));
    }
  }

  /** A select binds its conditions' values to `$1 ..` in condition order. */
  lemma SelectLinesUp(s: BuilderState)
    ensures LinesUp(SelectTemplate(s), ConditionValues(s.whereConditions), SelectInline(s))
  {
    var conds := s.whereConditions;
    var ps := ConditionValues(conds);
    assert ps[0 .. |conds|] == ps;
    WhereBind(conds, 1, ps);
    WhereNumbered(conds, 1);
    BindFramed(SelectHead(s), WhereTemplate(conds, 1), SelectTail(s), ps);
    NumberedFramed(SelectHead(s), WhereTemplate(conds, 1), SelectTail(s), 1, 1 + |conds|);
  }

  /** An insert binds the row's values to `$1 ..` in key order. */
  lemma InsertLinesUp(table: string, row: Row)
    ensures LinesUp(InsertTemplate(table, row), Values(row), InsertInline(table, row))
  {
    var items := Items(Blanks(|row|), ", ", 1);
    assert Values(row)[0 .. |row|] == Values(row);
    BindItems(Blanks(|row|), Values(row), ", ", 1, Values(row));
    ItemsNumbered(Blanks(|row|), ", ", 1);
    BindFramed(InsertHead(table, row), items, ") RETURNING *", Values(row));
    NumberedFramed(InsertHead(table, row), items, ") RETURNING *", 1, 1 + |row|);
  }

  /** The SET items bind to the row's values at the front of the parameters. */
  lemma SetItemsBind(row: Row, rest: seq<Value>, ps: seq<Value>)
    requires ps == Values(row) + rest
    ensures Bind(Items(KeyPrefixes(row), ", ", 1), ps) == InlineItems(KeyPrefixes(row), Values(row), ", ")
  {
    ConcatSlices(Values(row), rest);
    BindItems(KeyPrefixes(row), Values(row), ", ", 1, ps);
  }

  /** The WHERE list binds to the condition values at the end of the parameters. */
  lemma WhereAfterBind(front: seq<Value>, conds: seq<Condition>, ps: seq<Value>, first: nat)
    requires ps == front + ConditionValues(conds) && first == |front| + 1
    ensures Bind(WhereTemplate(conds, first), ps) == WhereInline(conds)
  {
    ConcatSlices(front, ConditionValues(conds));
    WhereBind(conds, first, ps);
  }

  /** An update numbers its SET items `$1 .. $|row|` and its conditions on from there. */
  lemma UpdateNumbered(table: string, row: Row, conds: seq<Condition>)
    ensures Numbered(UpdateTemplate(table, row, conds), 1) == Some(|row| + |conds| + 1)
  {
    var items, where := Items(KeyPrefixes(row), ", ", 1), WhereTemplate(conds, |row| + 1);
    ItemsNumbered(KeyPrefixes(row), ", ", 1);
    WhereNumbered(conds, |row| + 1);
    NumberedFramedConcat("UPDATE " + table + " SET ", items, where, " RETURNING *", 1, |row| + 1, |row| + 1 + |conds|);
  }

  /** An update binds `$1 .. $|row|` to the row's values and the placeholders after them
      to the condition values. */
  lemma UpdateLinesUp(table: string, row: Row, conds: seq<Condition>)
    ensures LinesUp(UpdateTemplate(table, row, conds), Values(row) + ConditionValues(conds),
                    UpdateInline(table, row, conds))
  {
    var ps := Values(row) + ConditionValues(conds);
    var head := "UPDATE " + table + " SET ";
    var items, where := Items(KeyPrefixes(row), ", ", 1), WhereTemplate(conds, |row| + 1);
    var boundItems, boundWhere := InlineItems(KeyPrefixes(row), Values(row), ", "), WhereInline(conds);
    SetItemsBind(row, ConditionValues(conds), ps);
    WhereAfterBind(Values(row), conds, ps, |row| + 1);
    BindFramedConcat(head, items, where, " RETURNING *", ps, boundItems, boundWhere);
    assert Bind(UpdateTemplate(table, row, conds), ps) == UpdateInline(table, row, conds);
    UpdateNumbered(table, row, conds);
    assert |ps| == |row| + |conds|;
  }

  /** A delete binds its conditions' values to `$1 ..` in condition order. */
  lemma DeleteLinesUp(table: string, conds: seq<Condition>)
    ensures LinesUp(DeleteTemplate(table, conds), ConditionValues(conds), DeleteInline(table, conds))
  {
    var ps := ConditionValues(conds);
    assert ps[0 .. |conds|] == ps;
    WhereBind(conds, 1, ps);
    WhereNumbered(conds, 1);
    BindFramed("DELETE FROM " + table, WhereTemplate(conds, 1), " RETURNING *", ps);
    NumberedFramed("DELETE FROM " + table, WhereTemplate(conds, 1), " RETURNING *", 1, 1 + |conds|);
  }

  /** The placeholders of every statement line up with its parameters: binding `$n`
      to `params[n - 1]` gives exactly the statement with the values in place, and
      the placeholders are `$1 .. $|params|`, each once, in textual order. The build
      fails exactly when an insert or update has no payload. */
  lemma PlaceholdersLineUp(s: BuilderState)
    ensures TemplateOf(s).Ok? <==> InlineOf(s).Ok?
    ensures TemplateOf(s).Ok? ==> LinesUp(TemplateOf(s).value.0, TemplateOf(s).value.1, InlineOf(s).value)
  {
    match s.queryType
    case SelectQuery =>
      SelectLinesUp(s);
    case InsertQuery =>
      if InsertRow(s.insertData).Some? { InsertLinesUp(s.table, InsertRow(s.insertData).value); }
    case UpdateQuery =>
      if s.updateData.Some? { UpdateLinesUp(s.table, s.updateData.value, s.whereConditions); }
    case DeleteQuery => DeleteLinesUp(s.table, s.whereConditions);
  }

  /** The select text in the order `execute` appends it. */
  lemma SelectAssembly(s: BuilderState, order: string, limit: string, query: string)
    requires order == if s.orderByClause.Some? then " ORDER BY " + s.orderByClause.value else ""
    requires limit == if s.limitValue.Some? && s.limitValue.value != 0 then " LIMIT " + NatStr(s.limitValue.value) else ""
    requires query == "SELECT " + s.columns + " FROM " + s.table + Render(WhereTemplate(s.whereConditions, 1)) + order + limit
    ensures Render(SelectTemplate(s)) == query
  {
    var w := Render(WhereTemplate(s.whereConditions, 1));
    RenderFramed(SelectHead(s), WhereTemplate(s.whereConditions, 1), SelectTail(s));
    assert SelectTail(s) == order + limit;
    ConcatAssoc(SelectHead(s) + w, order, limit);
  }

  /** The insert text as `execute` joins it: the keys as columns, `$1 .. $n` as values. */
  lemma InsertText(table: string, row: Row)
    ensures Render(InsertTemplate(table, row)) ==
      "INSERT INTO " + table + " (" + Join(Keys(row), ", ") + ") VALUES ("
        + Join(ItemTexts(Blanks(|row|), 1), ", ") + ") RETURNING *"
  {
    RenderItems(Blanks(|row|), ", ", 1);
    RenderFramed(InsertHead(table, row), Items(Blanks(|row|), ", ", 1), ") RETURNING *");
  }

  /** The update text in the order `execute` appends it. */
  lemma UpdateAssembly(table: string, row: Row, conds: seq<Condition>)
    ensures Render(UpdateTemplate(table, row, conds)) ==
      "UPDATE " + table + " SET " + ("" + Render(Items(KeyPrefixes(row), ", ", 1)))
        + Render(WhereTemplate(conds, |row| + 1)) + " RETURNING *"
  {
    var items := Items(KeyPrefixes(row), ", ", 1);
    var where := WhereTemplate(conds, |row| + 1);
    var head := "UPDATE " + table + " SET ";
    RenderConcat(items, where);
    RenderFramed(head, items + where, " RETURNING *");
    assert "" + Render(items) == Render(items);
    ConcatAssoc(head, Render(items), Render(where));
  }

  /** The delete text in the order `execute` appends it. */
  lemma DeleteAssembly(table: string, conds: seq<Condition>)
    ensures Render(DeleteTemplate(table, conds)) ==
      "DELETE FROM " + table + Render(WhereTemplate(conds, 1)) + " RETURNING *"
  {
    RenderFramed("DELETE FROM " + table, WhereTemplate(conds, 1), " RETURNING *");
  }

  /** A fresh builder selects every column of its table, unfiltered. */
  lemma FreshSelectsAll(table: string)
    ensures StatementOf(Fresh(table)) == Ok(Statement("SELECT * FROM " + table, []))
  {
    var s := Fresh(table);
    assert WhereTemplate([], 1) == [];
    RenderFramed(SelectHead(s), [], SelectTail(s));
    assert Render([]) == "" && SelectTail(s) == "";
    assert "SELECT " + "*" + " FROM " == "SELECT * FROM ";
    assert SelectHead(s) + "" + "" == "SELECT * FROM " + table;
  }

  /** The select text: WHERE only when there are conditions, ORDER BY when an order
      was set, LIMIT only for a truthy limit. */
  lemma SelectText(s: BuilderState)
    ensures var conds := s.whereConditions;
      Render(SelectTemplate(s)) ==
        "SELECT " + s.columns + " FROM " + s.table
          + (if conds == [] then "" else " WHERE " + Join(ItemTexts(ConditionPrefixes(conds), 1), " AND "))
          + (if s.orderByClause.Some? then " ORDER BY " + s.orderByClause.value else "")
          + (if s.limitValue.Some? && s.limitValue.value != 0 then " LIMIT " + NatStr(s.limitValue.value) else "")
  {
    var order := if s.orderByClause.Some? then " ORDER BY " + s.orderByClause.value else "";
    var limit := if s.limitValue.Some? && s.limitValue.value != 0 then " LIMIT " + NatStr(s.limitValue.value) else "";
    WhereText(s.whereConditions, 1);
    SelectAssembly(s, order, limit,
                   "SELECT " + s.columns + " FROM " + s.table + Render(WhereTemplate(s.whereConditions, 1)) + order + limit);
  }

  /** The update text: SET items numbered from `$1`, the conditions after them. */
  lemma UpdateText(table: string, row: Row, conds: seq<Condition>)
    ensures Render(UpdateTemplate(table, row, conds)) ==
      "UPDATE " + table + " SET " + Join(ItemTexts(KeyPrefixes(row), 1), ", ")
        + (if conds == [] then "" else " WHERE " + Join(ItemTexts(ConditionPrefixes(conds), |row| + 1), " AND "))
        + " RETURNING *"
  {
    UpdateAssembly(table, row, conds);
    RenderItems(KeyPrefixes(row), ", ", 1);
    WhereText(conds, |row| + 1);
    assert "" + Join(ItemTexts(KeyPrefixes(row), 1), ", ") == Join(ItemTexts(KeyPrefixes(row), 1), ", ");
  }

  /** The delete text: the table, WHERE only when there are conditions, RETURNING *. */
  lemma DeleteText(table: string, conds: seq<Condition>)
    ensures Render(DeleteTemplate(table, conds)) ==
      "DELETE FROM " + table
        + (if conds == [] then "" else " WHERE " + Join(ItemTexts(ConditionPrefixes(conds), 1), " AND "))
        + " RETURNING *"
  {
    DeleteAssembly(table, conds);
    WhereText(conds, 1);
  }

  /** Inserting an array writes its first element and nothing else. */
  lemma InsertUsesFirstRow(s: BuilderState, rows: seq<Row>)
    requires s.queryType == InsertQuery && s.insertData == Some(RowArray(rows))
    ensures rows == [] ==> StatementOf(s) == Err(MissingObject)
    ensures rows != [] ==>
      StatementOf(s) == StatementOf(s.(insertData := Some(OneRow(rows[0]))))
      && StatementOf(s).value.params == Values(rows[0])
  {
  }

  /** Appends `prefixes[i] $n` items, joined by `sep`, pushing each value onto the
      parameters and numbering it by the new parameter count (the `map` callbacks of
      `execute`). */
  method AppendItems(query: string, params: seq<Value>, prefixes: seq<string>,
                     values: seq<Value>, sep: string)
    returns (q: string, ps: seq<Value>)
    requires |prefixes| == |values|
    ensures q == query + Render(Items(prefixes, sep, |params| + 1))
    ensures ps == params + values
  {
    var first := |params| + 1;
    var clause := "";
    ps := params;
    var i := 0;
    while i < |prefixes|
      invariant 0 <= i <= |prefixes|
      invariant ps == params + values[..i] && |ps| == |params| + i
      invariant clause == Join(ItemTexts(prefixes[..i], first), sep)
    {
      ps := ps + [values[i]];
      var item := ItemText(prefixes[i], |ps|);
      var next := if i == 0 then item else clause + sep + item;
      assert next == Join(ItemTexts(prefixes[..i + 1], first), sep) by {
        JoinNextItem(prefixes, sep, first, i, clause, item);
      }
      clause := next;
      assert ps == params + values[..i + 1] by {
        TakeSnoc(values, i);
      }
      i := i + 1;
    }
    assert clause == Render(Items(prefixes, sep, first)) by {
      assert prefixes[..i] == prefixes;
      RenderItems(prefixes, sep, first);
    }
    assert values[..i] == values;
    q := query + clause;
  }

  /** Appends ` WHERE ...` for the conditions, numbering from the next parameter. */
  method AppendWhere(query: string, params: seq<Value>, conds: seq<Condition>, first: nat)
    returns (q: string, ps: seq<Value>)
    requires first == |params| + 1
    ensures q == query + Render(WhereTemplate(conds, first))
    ensures ps == params + ConditionValues(conds)
  {
    if conds == [] {
      q, ps := query, params;
      assert ConditionValues(conds) == [];
      return;
    }
    var clause;
    clause, ps := AppendItems("", params, ConditionPrefixes(conds), ConditionValues(conds), " AND ");
    q := query + " WHERE " + clause;
    SinglePiece(Text(" WHERE "), []);
    RenderConcat([Text(" WHERE ")], Items(ConditionPrefixes(conds), " AND ", first));
  }

  /** The select branch of `execute`, on a snapshot of the builder's fields. */
  method SelectStatementFor(s: BuilderState) returns (st: Statement)
    ensures st == Statement(Render(SelectTemplate(s)), ConditionValues(s.whereConditions))
  {
    var head := "SELECT " + s.columns + " FROM " + s.table;
    var query, params := AppendWhere(head, [], s.whereConditions, 1);
    var order := if s.orderByClause.Some? then " ORDER BY " + s.orderByClause.value else "";
    var limit := if s.limitValue.Some? && s.limitValue.value != 0 then " LIMIT " + NatStr(s.limitValue.value) else "";
    query := query + order + limit;
    SelectAssembly(s, order, limit, query);
    assert [] + ConditionValues(s.whereConditions) == ConditionValues(s.whereConditions);
    st := Statement(query, params);
  }

  class QueryBuilder {
    var table: string
    var queryType: QueryType
    var columns: string
    var whereConditions: seq<Condition>
    var orderByClause: Option<string>
    var limitValue: Option<nat>
    var insertData: Option<InsertData>
    var updateData: Option<Row>
    var singleRow: bool

    function State(): BuilderState
      reads this
    {
      BuilderState(table, queryType, columns, whereConditions, orderByClause, limitValue,
                   insertData, updateData, singleRow)
    }

    /** A select of `*` with no conditions, order, limit or payload. */
    constructor(table: string)
      ensures State() == Fresh(table)
    {
      this.table := table;
      queryType := SelectQuery;
      columns := "*";
      whereConditions := [];
      orderByClause := None;
      limitValue := None;
      insertData := None;
      updateData := None;
      singleRow := false;
    }

    method Select(cols: string := "*") returns (self: QueryBuilder)
      modifies this`queryType, this`columns
      ensures self == this && queryType == SelectQuery && columns == cols
    {
      queryType := SelectQuery;
      columns := cols;
      self := this;
    }

    method AddCondition(column: string, op: Operator, value: Value) returns (self: QueryBuilder)
      modifies this`whereConditions
      ensures self == this
      ensures whereConditions == old(whereConditions) + [Condition(column, op, value)]
    {
      whereConditions := whereConditions + [Condition(column, op, value)];
      self := this;
    }

    method Eq(column: string, value: Value) returns (self: QueryBuilder)
      modifies this`whereConditions
      ensures self == this
      ensures whereConditions == old(whereConditions) + [Condition(column, Equal, value)]
    {
      self := AddCondition(column, Equal, value);
    }

    method Gte(column: string, value: Value) returns (self: QueryBuilder)
      modifies this`whereConditions
      ensures self == this
      ensures whereConditions == old(whereConditions) + [Condition(column, AtLeast, value)]
    {
      self := AddCondition(column, AtLeast, value);
    }

    method Lte(column: string, value: Value) returns (self: QueryBuilder)
      modifies this`whereConditions
      ensures self == this
      ensures whereConditions == old(whereConditions) + [Condition(column, AtMost, value)]
    {
      self := AddCondition(column, AtMost, value);
    }

    method Ilike(column: string, value: Value) returns (self: QueryBuilder)
      modifies this`whereConditions
      ensures self == this
      ensures whereConditions == old(whereConditions) + [Condition(column, ILike, value)]
    {
      self := AddCondition(column, ILike, value);
    }

    /** `order(column, { ascending })`: ascending only for a truthy option (an omitted
        option is `Undefined`); replaces any earlier order. */
    method Order(column: string, ascending: Value) returns (self: QueryBuilder)
      modifies this`orderByClause
      ensures self == this
      ensures orderByClause == Some(column + " " + if Truthy(ascending) then "ASC" else "DESC")
    {
      var direction := if Truthy(ascending) then "ASC" else "DESC";
      orderByClause := Some(column + " " + direction);
      self := this;
    }

    method Limit(count: nat) returns (self: QueryBuilder)
      modifies this`limitValue
      ensures self == this && limitValue == Some(count)
    {
      limitValue := Some(count);
      self := this;
    }

    method Single() returns (self: QueryBuilder)
      modifies this`singleRow
      ensures self == this && singleRow
    {
      singleRow := true;
      self := this;
    }

    /** Builds the SQL text and the parameters from the fields, as `execute` does
        before calling the driver. */
    method Build() returns (r: Result<Statement, DbError>)
      ensures r == StatementOf(State())
    {
      match queryType
      case SelectQuery =>
        r := BuildSelect();
        SelectStatement(State());
      case InsertQuery =>
        r := BuildInsert();
        InsertStatement(State());
      case UpdateQuery =>
        r := BuildUpdate();
        UpdateStatement(State());
      case DeleteQuery =>
        r := BuildDelete();
        DeleteStatement(State());
    }

    /** `SELECT columns FROM table`, the WHERE list, then ORDER BY and LIMIT. */
    method BuildSelect() returns (r: Result<Statement, DbError>)
      requires queryType == SelectQuery
      ensures r == Ok(Statement(Render(SelectTemplate(State())), ConditionValues(whereConditions)))
    {
      var st := SelectStatementFor(State());
      r := Ok(st);
    }

    /** The columns from the first row's keys and one placeholder per value. */
    method BuildInsert() returns (r: Result<Statement, DbError>)
      requires queryType == InsertQuery
      ensures r == match InsertRow(insertData)
        case None => Err(MissingObject)
        case Some(row) => Ok(Statement(Render(InsertTemplate(table, row)), Values(row)))
    {
      var row := InsertRow(insertData);
      if row.None? {
        return Err(MissingObject);
      }
      var cols := Keys(row.value);
      var params := Values(row.value);
      var columnNames := Join(cols, ", ");
      var placeholders := Join(ItemTexts(Blanks(|cols|), 1), ", ");
      var query := "INSERT INTO " + table + " (" + columnNames + ") VALUES (" + placeholders + ") RETURNING *";
      InsertText(table, row.value);
      r := Ok(Statement(query, params));
    }

    /** The SET list numbered from `$1`, then the WHERE list numbered after it. */
    method BuildUpdate() returns (r: Result<Statement, DbError>)
      requires queryType == UpdateQuery
      ensures r == match updateData
        case None => Err(MissingObject)
        case Some(row) =>
          Ok(Statement(Render(UpdateTemplate(table, row, whereConditions)), Values(row) + ConditionValues(whereConditions)))
    {
      if updateData.None? {
        return Err(MissingObject);
      }
      var data := updateData.value;
      var updates, params := AppendItems("", [], KeyPrefixes(data), Values(data), ", ");
      var query := "UPDATE " + table + " SET " + updates;
      query, params := AppendWhere(query, params, whereConditions, |data| + 1);
      query := query + " RETURNING *";
      UpdateAssembly(table, data, whereConditions);
      assert [] + Values(data) == Values(data);
      r := Ok(Statement(query, params));
    }

    /** `DELETE FROM table` and the WHERE list. */
    method BuildDelete() returns (r: Result<Statement, DbError>)
      requires queryType == DeleteQuery
      ensures r == Ok(Statement(Render(DeleteTemplate(table, whereConditions)), ConditionValues(whereConditions)))
    {
      var query := "DELETE FROM " + table;
      var params: seq<Value>;
      query, params := AppendWhere(query, [], whereConditions, 1);
      query := query + " RETURNING *";
      DeleteAssembly(table, whereConditions);
      assert [] + ConditionValues(whereConditions) == ConditionValues(whereConditions);
      r := Ok(Statement(query, params));
    }

    /** `execute()`: fails with "Database not configured" before building when there is
        no connection; otherwise builds the statement and runs it on the driver. */
    method Execute(configured: bool, driver: Driver) returns (resp: Response)
      ensures resp == Respond(configured, singleRow, StatementOf(State()), driver)
    {
      if !configured {
        return Response(None, Some(NotConfigured));
      }
      var built := Build();
      match built
      case Err(e) =>
        resp := Response(None, Some(e));
      case Ok(st) =>
        var result := driver(st);
        match result
        case Err(e) =>
          resp := Response(None, Some(e));
        case Ok(rows) =>
          if singleRow {
            resp := Response(if rows == [] then None else Some(FirstRow(rows[0])), None);
          } else {
            resp := Response(Some(AllRows(rows)), None);
          }
    }
  }

  /** The object `supabase.from(table)` answers: a new builder for the table, reachable
      only through the four entry calls, each of which sets the builder up and hands it
      on. Filters, order, limit and `single` exist only on the builder. */
  class TableEntry {
    const builder: QueryBuilder

    constructor(table: string)
      ensures fresh(builder) && builder.State() == Fresh(table)
    {
      builder := new QueryBuilder(table);
    }

    method Select(cols: string := "*") returns (b: QueryBuilder)
      modifies builder`queryType, builder`columns
      ensures b == builder && b.queryType == SelectQuery && b.columns == cols
    {
      builder.queryType := SelectQuery;
      builder.columns := cols;
      b := builder;
    }

    method Insert(data: InsertData) returns (b: QueryBuilder)
      modifies builder`queryType, builder`insertData
      ensures b == builder && b.queryType == InsertQuery && b.insertData == Some(data)
    {
      builder.queryType := InsertQuery;
      builder.insertData := Some(data);
      b := builder;
    }

    method Update(data: Row) returns (b: QueryBuilder)
      modifies builder`queryType, builder`updateData
      ensures b == builder && b.queryType == UpdateQuery && b.updateData == Some(data)
    {
      builder.queryType := UpdateQuery;
      builder.updateData := Some(data);
      b := builder;
    }

    method Delete() returns (b: QueryBuilder)
      modifies builder`queryType
      ensures b == builder && b.queryType == DeleteQuery
    {
      builder.queryType := DeleteQuery;
      b := builder;
    }
  }

  /** `supabase.from(table)`. */
  method From(table: string) returns (e: TableEntry)
    ensures fresh(e) && fresh(e.builder) && e.builder.State() == Fresh(table)
  {
    e := new TableEntry(table);
  }

  /** `supabase.from(table).select()`: every column of the table, without parameters. */
  method SelectAllFrom(table: string) returns (st: Result<Statement, DbError>)
    ensures st == Ok(Statement("SELECT * FROM " + table, []))
  {
    var e := From(table);
    var b := e.Select();
    FreshSelectsAll(table);
    st := b.Build();
  }
}
