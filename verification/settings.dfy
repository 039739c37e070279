/** The settings page: the profile form filled from the user's unsafe metadata, the
    metadata it saves, and the JSON backup of the user's rows in every table. */
module Settings {
  import opened Common
  import opened JsValues
  import opened SqlText
  import opened Supabase
  import opened Admin

  // ---------------------------------------------------------------- profile form

  datatype Form = Form(businessName: Value, ownerName: Value, gstNumber: Value, email: Value,
                       phone: Value, address: Value, financialYearStart: Value)

  /** The form before any user is known. */
  const InitialForm := Form(Str(""), Str(""), Str(""), Str(""), Str(""), Str(""), Str("April"))

  /** The form after the effect that runs when `user` changes: each field from the
      unsafe metadata when truthy, else its fallback; nothing changes without a user. */
  function LoadForm(user: Option<User>, form: Form): (f: Form)
    ensures user.None? ==> f == form
    ensures user.Some? ==>
              var meta := user.value.unsafeMetadata;
              f.businessName == (if Truthy(Get(meta, "business_name")) then Get(meta, "business_name") else Str(""))
              && f.ownerName == (if Truthy(Get(meta, "owner_name")) then Get(meta, "owner_name")
                                 else if Truthy(user.value.fullName) then user.value.fullName else Str(""))
              && f.gstNumber == (if Truthy(Get(meta, "gst_number")) then Get(meta, "gst_number") else Str(""))
              && f.email == (if Truthy(PrimaryEmail(user)) then PrimaryEmail(user) else Str(""))
              && f.phone == (if Truthy(Get(meta, "phone")) then Get(meta, "phone") else Str(""))
              && f.address == (if Truthy(Get(meta, "address")) then Get(meta, "address") else Str(""))
              && f.financialYearStart == (if Truthy(Get(meta, "financial_year_start"))
                                          then Get(meta, "financial_year_start") else Str("April"))
  {
    if user.None? then form
    else
      var u := user.value;
      var meta := u.unsafeMetadata;
      Form(Or(Get(meta, "business_name"), Str("")),
           Or(Or(Get(meta, "owner_name"), u.fullName), Str("")),
           Or(Get(meta, "gst_number"), Str("")),
           Or(PrimaryEmail(user), Str("")),
           Or(Get(meta, "phone"), Str("")),
           Or(Get(meta, "address"), Str("")),
           Or(Get(meta, "financial_year_start"), Str("April")))
  }

  /** A user with no metadata, no name and no address gets the initial form: every field
      empty except the financial year start, April. */
  lemma BareUserDefaults(u: User, form: Form)
    requires u.unsafeMetadata.None? && !Truthy(u.fullName) && u.emailAddresses == []
    ensures LoadForm(Some(u), form) == InitialForm
  {
  }

  /** The metadata `handleSubmit` saves: the six profile fields, never the email. */
  function SavePayload(form: Form): (meta: Metadata)
    ensures meta.Keys == {"business_name", "owner_name", "gst_number", "phone", "address", "financial_year_start"}
    ensures "email" !in meta
  {
    map["business_name" := form.businessName, "owner_name" := form.ownerName,
        "gst_number" := form.gstNumber, "phone" := form.phone, "address" := form.address,
        "financial_year_start" := form.financialYearStart]
  }

  /** `user.update({unsafeMetadata: ...})`: the saved payload replaces the unsafe metadata. */
  function Submit(u: User, form: Form): (v: User)
    ensures v.unsafeMetadata == Some(SavePayload(form))
    ensures v.(unsafeMetadata := u.unsafeMetadata) == u
  {
    u.(unsafeMetadata := Some(SavePayload(form)))
  }

  /** A field that reloads as itself: a truthy value, or the empty string. */
  predicate Reloads(v: Value) {
    Truthy(v) || v == Str("")
  }

  /** Saving a form and loading it back gives the same form, except the email, which
      always comes from the account. The owner name and the financial year start must
      be non-empty, as they have fallbacks of their own. */
  lemma SaveThenLoad(u: User, form: Form, before: Form)
    requires Reloads(form.businessName) && Reloads(form.gstNumber)
    requires Reloads(form.phone) && Reloads(form.address)
    requires Truthy(form.ownerName) && Truthy(form.financialYearStart)
    ensures LoadForm(Some(Submit(u, form)), before)
         == form.(email := LoadForm(Some(u), before).email)
  {
    var meta := Some(SavePayload(form));
    assert Get(meta, "business_name") == form.businessName;
    assert Get(meta, "owner_name") == form.ownerName;
    assert Get(meta, "gst_number") == form.gstNumber;
    assert Get(meta, "phone") == form.phone;
    assert Get(meta, "address") == form.address;
    assert Get(meta, "financial_year_start") == form.financialYearStart;
  }

  // ---------------------------------------------------------------- backup

  /** The tables a backup holds, in the order they are read and written. */
  const Tables: seq<string> := ["sales", "purchases", "expenses", "assets", "inventory",
                                "sales_returns", "stock_movements", "expense_categories"]

  /** `supabase.from(table).select('*').eq('user_id', userId)`. */
  function BackupQuery(table: string, userId: Value): BuilderState {
    Fresh(table).(whereConditions := [Condition("user_id", Equal, userId)])
  }

  /** The WHERE clause of an `eq` filter on one column. */
  lemma EqFilterText(column: string, value: Value)
    ensures Render(WhereTemplate([Condition(column, Equal, value)], 1)) == " WHERE " + (column + " = " + "$" + NatStr(1))
  {
    var conds := [Condition(column, Equal, value)];
    var prefix := column + " " + OperatorText(Equal) + " ";
    ConditionPrefixesAt(conds, 0);
    assert ConditionPrefixes(conds) == [prefix];
    ItemsOne([prefix], " AND ", 1);
    FirstItemRender(prefix, 1);
    SinglePiece(Text(" WHERE "), []);
    RenderConcat([Text(" WHERE ")], [Text(prefix), Slot(1)]);
    assert prefix == column + " = ";
  }

  /** The WHERE clause and the parameters of one `eq` filter. */
  lemma EqFilter(column: string, value: Value)
    ensures Render(WhereTemplate([Condition(column, Equal, value)], 1)) == " WHERE " + (column + " = " + "$1")
    ensures ConditionValues([Condition(column, Equal, value)]) == [value]
  {
    EqFilterText(column, value);
    assert "$" + NatStr(1) == "$1";
    assert column + " = " + "$" + NatStr(1) == column + " = " + "$1";
    ConditionValuesAt([Condition(column, Equal, value)], 0);
  }

  /** The select head with `*` spelled out, kept apart from the statement proof so that
      the literal is evaluated in a small context. */
  lemma StarText(table: string, w: string)
    ensures "SELECT " + "*" + " FROM " + table + w + "" + "" == "SELECT * FROM " + table + w
  {
    assert "SELECT " + "*" + " FROM " == "SELECT * FROM ";
  }

  /** A select of every column filtered by one `eq`. */
  lemma EqSelectStatement(table: string, column: string, value: Value)
    ensures StatementOf(Fresh(table).(whereConditions := [Condition(column, Equal, value)]))
         == Ok(Statement("SELECT * FROM " + table + (" WHERE " + (column + " = " + "$1")), [value]))
  {
    var s := Fresh(table).(whereConditions := [Condition(column, Equal, value)]);
    var w := " WHERE " + (column + " = " + "$1");
    SelectStatement(s);
    EqFilter(column, value);
    SelectAssembly(s, "", "", "SELECT " + s.columns + " FROM " + s.table + w + "" + "");
    StarText(table, w);
  }

  /** Each backup read is one parameterised select of the user's rows. */
  lemma BackupQueryStatement(table: string, userId: Value)
    ensures StatementOf(BackupQuery(table, userId))
         == Ok(Statement("SELECT * FROM " + table + " WHERE user_id = $1", [userId]))
  {
    EqSelectStatement(table, "user_id", userId);
    assert " WHERE " + ("user_id" + " = " + "$1") == " WHERE user_id = $1";
  }

  /** The responses of the reads, in table order (`Promise.all(tables.map(...))`). */
  function BackupResults(tables: seq<string>, userId: Value, configured: bool, driver: Driver): (rs: seq<Response>)
    ensures |rs| == |tables|
    ensures forall i :: 0 <= i < |tables| ==>
              rs[i] == Respond(configured, false, StatementOf(BackupQuery(tables[i], userId)), driver)
  {
    seq(|tables|, i requires 0 <= i < |tables| =>
      Respond(configured, false, StatementOf(BackupQuery(tables[i], userId)), driver))
  }

  /** `res.data || []`. */
  function TableData(data: Option<Payload>): (p: Payload)
    ensures data.None? ==> p == AllRows([])
    ensures data.Some? ==> p == data.value
  {
    if data.Some? then data.value else AllRows([])
  }

  /** The backup object: `generated_at`, `user_id`, then one entry per table in order. */
  datatype Backup = Backup(generatedAt: string, userId: Value, tables: seq<(string, Payload)>)

  /** The backup object's keys, in order. */
  function BackupKeys(b: Backup): (keys: seq<string>)
    ensures |keys| == |b.tables| + 2
    ensures keys[..2] == ["generated_at", "user_id"]
    ensures forall i :: 0 <= i < |b.tables| ==> keys[i + 2] == b.tables[i].0
  {
    ["generated_at", "user_id"] + seq(|b.tables|, i requires 0 <= i < |b.tables| => b.tables[i].0)
  }

  /** The message thrown for the first table whose read failed. */
  function FetchError(table: string, e: DbError): string {
    "Error fetching " + table + ": " + e.message
  }

  /** The index of the first response carrying an error. */
  function FirstError(results: seq<Response>): (r: Option<nat>)
    ensures r.Some? ==> r.value < |results| && results[r.value].error.Some?
                        && forall j :: 0 <= j < r.value ==> results[j].error.None?
    ensures r.None? ==> forall j :: 0 <= j < |results| ==> results[j].error.None?
    decreases |results|
  {
    if results == [] then None
    else if results[0].error.Some? then Some(0)
    else match FirstError(results[1..])
      case Some(k) => Some(k + 1)
      case None => None
  }

  /** One entry per table, in order: the table's name and its rows. */
  function Filled(tables: seq<string>, results: seq<Response>): (es: seq<(string, Payload)>)
    requires |results| == |tables|
    ensures |es| == |tables|
    ensures forall i :: 0 <= i < |tables| ==> es[i] == (tables[i], TableData(results[i].data))
  {
    seq(|tables|, i requires 0 <= i < |tables| => (tables[i], TableData(results[i].data)))
  }

  /** The backup the `forEach` loop builds, or the message of the error it throws. */
  function BackupOf(tables: seq<string>, results: seq<Response>, generatedAt: string, userId: Value)
    : (r: Result<Backup, string>)
    requires |results| == |tables|
    ensures r.Ok? <==> forall j :: 0 <= j < |results| ==> results[j].error.None?
    ensures r.Ok? ==> r.value.generatedAt == generatedAt && r.value.userId == userId
                      && |r.value.tables| == |tables|
                      && forall i :: 0 <= i < |tables| ==> r.value.tables[i] == (tables[i], TableData(results[i].data))
  {
    match FirstError(results)
    case Some(i) => Err(FetchError(tables[i], results[i].error.value))
    case None =>
      Ok(Backup(generatedAt, userId, Filled(tables, results)))
  }

  /** The `forEach` loop over the tables: stop at the first failed read, otherwise store
      each table's rows (null as an empty list) under its name. */
  method AssembleBackup(tables: seq<string>, results: seq<Response>, generatedAt: string, userId: Value)
    returns (r: Result<Backup, string>)
    requires |results| == |tables|
    ensures r == BackupOf(tables, results, generatedAt, userId)
  {
    var backup := Backup(generatedAt, userId, []);
    var index := 0;
    while index < |tables|
      invariant 0 <= index <= |tables|
      invariant forall j :: 0 <= j < index ==> results[j].error.None?
      invariant backup.generatedAt == generatedAt && backup.userId == userId
      invariant |backup.tables| == index
      invariant forall j :: 0 <= j < index ==> backup.tables[j] == (tables[j], TableData(results[j].data))
    {
      var res := results[index];
      if res.error.Some? {
        return Err(FetchError(tables[index], res.error.value));
      }
      backup := backup.(tables := backup.tables + [(tables[index], TableData(res.data))]);
      index := index + 1;
    }
    assert FirstError(results).None?;
    assert backup.tables == Filled(tables, results);
    return Ok(backup);
  }

  /** A backup fails exactly when some read failed, and then names the first such table
      and its error. */
  lemma BackupFailsOnFirstError(tables: seq<string>, results: seq<Response>, generatedAt: string, userId: Value)
    requires |results| == |tables|
    ensures BackupOf(tables, results, generatedAt, userId).Err? <==>
              exists j :: 0 <= j < |results| && results[j].error.Some?
    ensures BackupOf(tables, results, generatedAt, userId).Err? ==>
              exists i :: 0 <= i < |tables| && results[i].error.Some?
                && (forall j :: 0 <= j < i ==> results[j].error.None?)
                && BackupOf(tables, results, generatedAt, userId).error == FetchError(tables[i], results[i].error.value)
  {
  }

  /** A successful backup has `generated_at`, `user_id` and one key per table, in order. */
  lemma BackupHoldsEveryTable(tables: seq<string>, results: seq<Response>, generatedAt: string, userId: Value)
    requires |results| == |tables|
    requires BackupOf(tables, results, generatedAt, userId).Ok?
    ensures var b := BackupOf(tables, results, generatedAt, userId).value;
            BackupKeys(b) == ["generated_at", "user_id"] + tables
            && b.generatedAt == generatedAt && b.userId == userId
  {
    var b := BackupOf(tables, results, generatedAt, userId).value;
    assert b.tables == Filled(tables, results);
    var keys := BackupKeys(b);
    forall i | 0 <= i < |keys| ensures keys[i] == (["generated_at", "user_id"] + tables)[i] {
      if i >= 2 {
        assert keys[(i - 2) + 2] == b.tables[i - 2].0;
      }
    }
  }

  /** A table whose read returned null data holds an empty list in the backup. */
  lemma NullDataStoredEmpty(tables: seq<string>, results: seq<Response>, generatedAt: string, userId: Value, i: nat)
    requires |results| == |tables| && i < |tables|
    requires BackupOf(tables, results, generatedAt, userId).Ok?
    requires results[i].data.None?
    ensures BackupOf(tables, results, generatedAt, userId).value.tables[i] == (tables[i], AllRows([]))
  {
  }

  /** The eight table names are distinct, so the backup has ten distinct keys. */
  lemma TablesDistinct()
    ensures |Tables| == 8
    ensures forall i, j :: 0 <= i < j < |Tables| ==> Tables[i] != Tables[j]
    ensures "generated_at" !in Tables && "user_id" !in Tables
  {
  }

  /** What the download button leads to: a message shown in an alert, or the backup file. */
  datatype Outcome = Alert(message: string) | Download(backup: Backup)

  const NotLoggedIn := "You must be logged in to download a backup"

  function BackupFailed(message: string): string {
    "Error generating backup: " + message
  }

  /** `handleDownloadBackup` up to the file download. `configured` says whether a database
      connection exists and `driver` runs a statement; `now` is `new Date().toISOString()`. */
  function DownloadOf(user: Option<User>, configured: bool, driver: Driver, now: string): (o: Outcome)
    ensures user.None? ==> o == Alert(NotLoggedIn)
    ensures user.Some? && o.Alert? ==> exists m :: o.message == BackupFailed(m)
    ensures o.Download? ==> user.Some? && o.backup.userId == user.value.id && o.backup.generatedAt == now
                            && BackupKeys(o.backup) == ["generated_at", "user_id"] + Tables
  {
    if user.None? then Alert(NotLoggedIn)
    else
      var userId := user.value.id;
      var results := BackupResults(Tables, userId, configured, driver);
      match BackupOf(Tables, results, now, userId)
      case Ok(b) =>
        BackupHoldsEveryTable(Tables, results, now, userId);
        Download(b)
      case Err(m) => Alert(BackupFailed(m))
  }

  method DownloadBackup(user: Option<User>, configured: bool, driver: Driver, now: string)
    returns (o: Outcome)
    ensures o == DownloadOf(user, configured, driver, now)
  {
    if user.None? {
      return Alert(NotLoggedIn);
    }
    var userId := user.value.id;
    var results := BackupResults(Tables, userId, configured, driver);
    var r := AssembleBackup(Tables, results, now, userId);
    match r
    case Ok(b) => o := Download(b);
    case Err(m) => o := Alert(BackupFailed(m));
  }

  /** Without a user nothing is read: the outcome does not depend on the database. */
  lemma NoUserNoRead(configured1: bool, driver1: Driver, now1: string,
                     configured2: bool, driver2: Driver, now2: string)
    ensures DownloadOf(None, configured1, driver1, now1) == DownloadOf(None, configured2, driver2, now2)
    ensures DownloadOf(None, configured1, driver1, now1) == Alert(NotLoggedIn)
  {
  }

  /** Without a database connection the first table fails, and the alert names it. */
  lemma UnconfiguredNamesSales(u: User, driver: Driver, now: string)
    ensures DownloadOf(Some(u), false, driver, now)
         == Alert(BackupFailed(FetchError("sales", NotConfigured)))
  {
    var results := BackupResults(Tables, u.id, false, driver);
    assert results[0].error == Some(NotConfigured);
    assert FirstError(results) == Some(0);
  }
}
