/** `getNotionDbConfig`: fetch a database's schema and list the option names
    of its category (select) and department (multi-select) properties. */
module NotionConfig {
  import opened Wrappers
  import opened Http
  import Credentials
  import Decimal

  const CategoryProperty: string := "カテゴリ"
  const DepartmentProperty: string := "部門"
  const DatabasesUrl: string := "https://api.notion.com/v1/databases/"

  datatype SelectOption = SelectOption(name: string)

  /** The `select` or `multi_select` object of a property schema. */
  datatype OptionList = OptionList(options: Option<seq<SelectOption>>)

  datatype PropertySchema = PropertySchema(select: Option<OptionList>, multiSelect: Option<OptionList>)

  datatype Database = Database(properties: map<string, PropertySchema>)

  datatype DbConfig = DbConfig(categories: seq<string>, departments: seq<string>, dataSourceId: Option<string>)

  /** `options.map(opt => opt.name)`: one name per option, in order. */
  function Names(options: seq<SelectOption>): (r: seq<string>)
    ensures |r| == |options|
    ensures forall i :: 0 <= i < |options| ==> r[i] == options[i].name
  {
    if options == [] then [] else [options[0].name] + Names(options[1..])
  }

  /** `?.options?.map(...) || []` for a list that may be missing. */
  function OptionNames(list: Option<OptionList>): (r: seq<string>)
    ensures list.None? || list.value.options.None? ==> r == []
    ensures list.Some? && list.value.options.Some? ==>
      |r| == |list.value.options.value|
      && forall i :: 0 <= i < |r| ==> r[i] == list.value.options.value[i].name
  {
    if list.Some? && list.value.options.Some? then Names(list.value.options.value) else []
  }

  /** The configuration read off a fetched schema. */
  function ExtractConfig(db: Database, dbId: Option<string>): (c: DbConfig)
    ensures c.dataSourceId == dbId
    ensures CategoryProperty !in db.properties ==> c.categories == []
    ensures DepartmentProperty !in db.properties ==> c.departments == []
  {
    var categories :=
      if CategoryProperty in db.properties then OptionNames(db.properties[CategoryProperty].select) else [];
    var departments :=
      if DepartmentProperty in db.properties then OptionNames(db.properties[DepartmentProperty].multiSelect) else [];
    DbConfig(categories, departments, dbId)
  }

  /** The schema request: a GET with the Bearer credential and the version
      header, and no content type. */
  function SchemaCall(dbId: Option<string>, token: string): (c: Call)
    ensures c.httpMethod == Some("GET") && c.payload == NoPayload && !FetchRefuses(c)
    ensures c.url == DatabasesUrl + Interpolate(dbId)
    ensures c.headers == Credentials.OutboundHeaders(Some(Credentials.NotionTokenKey), token).value - {"Content-Type"}
  {
    Call(Some("GET"), DatabasesUrl + Interpolate(dbId),
         map["Authorization" := Credentials.BearerValue(token), "Notion-Version" := Credentials.NotionVersion],
         NoPayload)
  }

  function SchemaError(status: int, text: string): string {
    "Notion API Error (" + Decimal.IntToString(status) + "): " + text
  }

  /** One schema call; a non-ok response throws with its status and text. */
  function GetNotionDbConfig(dbId: Option<string>, token: string, response: Fetched<Database>): (r: Run<DbConfig>)
    ensures r.calls == [SchemaCall(dbId, token)]
    ensures r.result.Ok? <==> response.Responded? && IsOk(response.status) && response.json.Ok?
    ensures r.result.Ok? ==> r.result.value == ExtractConfig(response.json.value, dbId)
    ensures response.Responded? && !IsOk(response.status) ==>
      r.result == Err(SchemaError(response.status, response.text))
  {
    var result :=
      match response
      case Threw(message) => Err(message)
      case Responded(status, text, json) =>
        if !IsOk(status) then Err(SchemaError(status, text))
        else match json
          case Err(message) => Err(message)
          case Ok(db) => Ok(ExtractConfig(db, dbId));
    Run([SchemaCall(dbId, token)], result)
  }

  /** The categories are the names of the category property's `select`
      options and the departments those of the department property's
      `multi_select` options, each in the schema's order. */
  lemma ConfigListsOptionNames(db: Database, dbId: Option<string>)
    ensures var c := ExtractConfig(db, dbId);
      && (CategoryProperty in db.properties
          && db.properties[CategoryProperty].select.Some?
          && db.properties[CategoryProperty].select.value.options.Some?
          ==> var opts := db.properties[CategoryProperty].select.value.options.value;
              |c.categories| == |opts| && forall i :: 0 <= i < |opts| ==> c.categories[i] == opts[i].name)
      && (DepartmentProperty in db.properties
          && db.properties[DepartmentProperty].multiSelect.Some?
          && db.properties[DepartmentProperty].multiSelect.value.options.Some?
          ==> var opts := db.properties[DepartmentProperty].multiSelect.value.options.value;
              |c.departments| == |opts| && forall i :: 0 <= i < |opts| ==> c.departments[i] == opts[i].name)
  {
  }

  /** A schema without the two properties gives two empty lists. */
  lemma MissingPropertiesGiveEmptyLists(db: Database, dbId: Option<string>)
    requires CategoryProperty !in db.properties && DepartmentProperty !in db.properties
    ensures ExtractConfig(db, dbId) == DbConfig([], [], dbId)
  {
  }

  /** A category property that is a multi-select (or has no option list)
      contributes nothing: only its `select` options are read. */
  lemma CategoryNeedsSelect(db: Database, dbId: Option<string>)
    requires CategoryProperty in db.properties
    requires db.properties[CategoryProperty].select.None?
    ensures ExtractConfig(db, dbId).categories == []
  {
  }

  /** Two options with the same name both appear. */
  lemma DuplicateOptionsKept()
    ensures var db := Database(map[CategoryProperty := PropertySchema(
        Some(OptionList(Some([SelectOption("A"), SelectOption("A")]))), None)]);
      ExtractConfig(db, Some("db")).categories == ["A", "A"]
  {
  }
}
