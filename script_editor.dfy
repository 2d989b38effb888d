/**
 * The script editor (src/components/dashboard/ScriptEditor.jsx): validate the
 * script, send it with the column name, and report either the result data to
 * the page or an error message; `loading` is cleared on every path.
 */
module ScriptEditor {
  import opened Common
  import opened ScriptService

  /** The JSON the execute endpoint answers with. */
  datatype ExecResponse = ExecResponse(code: int, data: Json, message: Option<string>)

  const DefaultColumn: string := "Custom Column"
  const ExecFailed: string := "Script execution failed"

  /** `columnName || 'Custom Column'`. */
  function ColumnOrDefault(columnName: string): (r: string)
    ensures r != ""
    ensures columnName != "" ==> r == columnName
  {
    if columnName != "" then columnName else DefaultColumn
  }

  /** The configuration the editor passes to `executeScript`. */
  function EditorConfig(script: string, columnName: string): ScriptConfig {
    ScriptConfig(Some(script), None, Some(ColumnOrDefault(columnName)), Some([]))
  }

  /** The editor always sends the script text, never an id, and no stock symbols. */
  lemma EditorSendsInline(script: string, columnName: string)
    ensures BodyOf(EditorConfig(script, columnName)) ==
      Inline(Some(script), Some(ColumnOrDefault(columnName)), Some([]))
  {
  }

  class Editor {
    var script: string
    var columnName: string
    var error: Option<string>
    var loading: bool
    /** The arguments of every `onScriptExecuted` call so far. */
    var delivered: seq<Json>

    constructor ()
      ensures script == "" && columnName == "" && error == None && !loading && delivered == []
    {
      script := "";
      columnName := "";
      error := None;
      loading := false;
      delivered := [];
    }

    /**
     * `handleExecute`: returns the body it sends, or `None` when validation
     * stops it; `response` is the outcome of that request.
     */
    method HandleExecute(response: CallOutcome<ExecResponse>) returns (sent: Option<RequestBody>)
      modifies this`error, this`loading, this`delivered
      ensures !loading
      ensures ValidateScript(Some(script)).Invalid? ==>
        sent == None && error == Some(ValidateScript(Some(script)).error) && delivered == old(delivered)
      ensures ValidateScript(Some(script)).Valid? ==>
        sent == Some(BodyOf(EditorConfig(script, columnName)))
      ensures ValidateScript(Some(script)).Valid? && response.Returned? && response.value.code == 200 ==>
        error == None && delivered == old(delivered) + [response.value.data]
      ensures ValidateScript(Some(script)).Valid? && response.Returned? && response.value.code != 200 ==>
        error == Some(OrElse(response.value.message, ExecFailed)) && delivered == old(delivered)
      ensures ValidateScript(Some(script)).Valid? && response.Threw? ==>
        error == response.message && delivered == old(delivered)
    {
      error := None;
      loading := true;
      var validation := ValidateScript(Some(script));
      if validation.Invalid? {
        error := Some(validation.error);
        loading := false;
        return None;
      }
      sent := Some(BodyOf(EditorConfig(script, columnName)));
      match response {
        case Returned(resp) =>
          if resp.code == 200 {
            delivered := delivered + [resp.data];
          } else {
            error := Some(OrElse(resp.message, ExecFailed));
          }
        case Threw(message) =>
          error := message;
      }
      loading := false;
    }
  }
}
