/** `buildQuery`: renders the upsert statement and, when revisions are
    tracked, the revision statement. The template engine, whose templates
    are not part of this model, is an oracle that can fail. */
module QueryBuilder {
  import opened Wrappers

  /** The data the templates are executed against (`upsertInfo`). */
  datatype UpsertInfo = UpsertInfo(
    table: string,
    tempTable: string,
    idColumn: string,
    hasRevisions: bool,
    columns: seq<string>)

  /** A template engine over parsed templates of type `T`: `parse(name, path)`
      is `template.New(name).Funcs(fns).ParseFiles(path)`, and
      `execute(t, info)` is the text `t.Execute` writes into an empty buffer. */
  datatype Engine<!T> = Engine(
    parse: (string, string) -> Result<T>,
    execute: (T, UpsertInfo) -> Result<string>)

  const UPSERT_TEMPLATE_NAME: string := "upsert.sql.template"
  const UPSERT_TEMPLATE_PATH: string := "sql/upsert.sql.template"
  const REVISION_TEMPLATE_NAME: string := "updaterevisions.sql.template"
  const REVISION_TEMPLATE_PATH: string := "sql/updaterevisions.sql.template"

  /** The three results of `buildQuery`. */
  datatype Built = Built(query: string, revisionQuery: string, err: Option<Error>)

  /** Parsing and then executing one template. */
  function Render<T>(engine: Engine<T>, name: string, path: string, info: UpsertInfo): Result<string> {
    match engine.parse(name, path)
    case Fail(e) => Fail(e)
    case Ok(t) => engine.execute(t, info)
  }

  function UpsertText<T>(engine: Engine<T>, info: UpsertInfo): Result<string> {
    Render(engine, UPSERT_TEMPLATE_NAME, UPSERT_TEMPLATE_PATH, info)
  }

  function RevisionText<T>(engine: Engine<T>, info: UpsertInfo): Result<string> {
    Render(engine, REVISION_TEMPLATE_NAME, REVISION_TEMPLATE_PATH, info)
  }

  function BuildQuery<T>(engine: Engine<T>, table: string, tempTable: string, idColumn: string,
                         columns: seq<string>, hasRevisions: bool): (r: Built)
    // no revision statement unless revisions are tracked
    ensures !hasRevisions ==> r.revisionQuery == ""
    // no partial statements on error
    ensures r.err.Some? ==> r.query == "" && r.revisionQuery == ""
    // it fails exactly when a template it needs fails, with the first such error
    ensures var info := UpsertInfo(table, tempTable, idColumn, hasRevisions, columns);
      var up, rev := UpsertText(engine, info), RevisionText(engine, info);
      && (r.err.None? <==> up.Ok? && (hasRevisions ==> rev.Ok?))
      && (up.Fail? ==> r.err == Some(up.error))
      && (up.Ok? && hasRevisions && rev.Fail? ==> r.err == Some(rev.error))
      && (r.err.None? ==> r.query == up.value && (hasRevisions ==> r.revisionQuery == rev.value))
  {
    var info := UpsertInfo(table, tempTable, idColumn, hasRevisions, columns);
    match UpsertText(engine, info)
    case Fail(e) => Built("", "", Some(e))
    case Ok(query) =>
      if !hasRevisions then Built(query, "", None)
      else
        match RevisionText(engine, info)
        case Fail(e) => Built("", "", Some(e))
        case Ok(revisionQuery) => Built(query, revisionQuery, None)
  }

  /** Without revisions the revision template is never consulted: two engines
      that render the upsert template alike build the same result. */
  lemma RevisionTemplateUnusedWithoutRevisions<T>(e1: Engine<T>, e2: Engine<T>, table: string,
                                                 tempTable: string, idColumn: string, columns: seq<string>)
    requires UpsertText(e1, UpsertInfo(table, tempTable, idColumn, false, columns))
          == UpsertText(e2, UpsertInfo(table, tempTable, idColumn, false, columns))
    ensures BuildQuery(e1, table, tempTable, idColumn, columns, false)
         == BuildQuery(e2, table, tempTable, idColumn, columns, false)
  {
  }
}
