/**
 * The custom-script client (src/services/scriptService.js): the two-rule
 * script validator and the choice of request body for an execution. The
 * request itself is not modelled.
 */
module ScriptService {
  import opened Common
  import opened Records

  datatype Validation = Valid | Invalid(error: string)

  const EmptyScript: string := "Script cannot be empty"
  const NoReturn: string := "Script must include a return statement"
  const ReturnWord: string := "return"

  /**
   * `validateScript(script)`: a missing or whitespace-only script is refused
   * first; a script without the substring `return` (case-sensitive) next;
   * anything else is valid.
   */
  function ValidateScript(script: Option<string>): (r: Validation)
    ensures r == Invalid(EmptyScript) <==> script.None? || IsBlank(script.value)
    ensures r == Invalid(NoReturn) <==>
      script.Some? && !IsBlank(script.value) && !Occurs(ReturnWord, script.value)
    ensures r == Valid <==> script.Some? && !IsBlank(script.value) && Occurs(ReturnWord, script.value)
  {
    if !Truthy(script) then Invalid(EmptyScript)
    else
      TrimEmptyIffBlank(script.value);
      ContainsIffOccurs(script.value, ReturnWord);
      if |Trim(script.value)| == 0 then Invalid(EmptyScript)
      else if !Contains(script.value, ReturnWord) then Invalid(NoReturn)
      else Valid
  }

  /** The `return` test is case-sensitive: an upper-case keyword does not count. */
  lemma UpperCaseReturnIsRefused()
    ensures ValidateScript(Some("RETURN 1")) == Invalid(NoReturn)
  {
    var s := "RETURN 1";
    assert !IsBlank(s) by { assert !IsWhitespace(s[0]); }
    forall i | 0 <= i <= |s| - |ReturnWord| ensures !OccursAt(ReturnWord, s, i) {
      assert s[i] != 'r';
    }
  }

  /** The argument of `executeScript`; every field may be undefined. */
  datatype ScriptConfig = ScriptConfig(
    script: Option<string>,
    scriptId: Option<ScriptId>,
    columnName: Option<string>,
    stockSymbols: Option<seq<string>>)

  /** The JSON body sent: by saved-script id, or with the script text. */
  datatype RequestBody =
    | ById(scriptId: ScriptId, columnName: Option<string>, stockSymbols: Option<seq<string>>)
    | Inline(script: Option<string>, columnName: Option<string>, stockSymbols: Option<seq<string>>)

  predicate HasScriptId(config: ScriptConfig) {
    config.scriptId.Some? && IdTruthy(config.scriptId.value)
  }

  /** The body of `executeScript`: a truthy id wins over the script text. */
  function BodyOf(config: ScriptConfig): (r: RequestBody)
    ensures r.ById? <==> HasScriptId(config)
    ensures r.ById? ==> r.scriptId == config.scriptId.value
    ensures r.Inline? ==> r.script == config.script
    ensures r.columnName == config.columnName && r.stockSymbols == config.stockSymbols
  {
    if HasScriptId(config) then ById(config.scriptId.value, config.columnName, config.stockSymbols)
    else Inline(config.script, config.columnName, config.stockSymbols)
  }

  /** A falsy id (0 or the empty string) sends the script text instead. */
  lemma FalsyIdSendsScript(config: ScriptConfig)
    requires config.scriptId == Some(NumId(0)) || config.scriptId == Some(StrId(""))
    ensures BodyOf(config) == Inline(config.script, config.columnName, config.stockSymbols)
  {
  }
}
