/**
 * The saved-script library (src/components/dashboard/ScriptManager.jsx): the
 * list load with its reload rule, deletion followed by a reload, and the
 * loading / error / list precedence of what it shows.
 */
module ScriptManager {
  import opened Common
  import opened Records

  /** `response.data` of the list request, when present. */
  datatype ScriptsData = ScriptsData(items: Option<seq<Script>>)

  datatype ScriptsResponse = ScriptsResponse(code: int, data: Option<ScriptsData>)

  /**
   * Reading `items` of a missing `data` throws inside the `try`; the catch
   * stores the engine's message (V8's wording for an undefined `data`).
   */
  const MissingDataMessage: string := "Cannot read properties of undefined (reading 'items')"

  /** What `loadScripts` does with one outcome of the list request. */
  datatype LoadEffect = Replace(scripts: seq<Script>) | Keep | Fail(message: Option<string>)

  function LoadEffectOf(response: CallOutcome<ScriptsResponse>): (r: LoadEffect)
    ensures r.Replace? <==>
      response.Returned? && response.value.code == 200 && response.value.data.Some?
      && response.value.data.value.items.Some?
    ensures r.Replace? ==> r.scripts == response.value.data.value.items.value
    ensures response.Returned? && response.value.code != 200 ==> r == Keep
    ensures response.Returned? && response.value.code == 200 && response.value.data.None? ==>
      r == Fail(Some(MissingDataMessage))
    ensures response.Returned? && response.value.code == 200 && response.value.data.Some? &&
            response.value.data.value.items.None? ==>
      r == Keep
    ensures response.Threw? ==> r == Fail(response.message)
  {
    match response
    case Threw(message) => Fail(message)
    case Returned(resp) =>
      if resp.code != 200 then Keep
      else if resp.data.None? then Fail(Some(MissingDataMessage))
      else if resp.data.value.items.Some? then Replace(resp.data.value.items.value)
      else Keep
  }

  /** An empty list of items is truthy in JavaScript, so it still replaces the scripts. */
  lemma EmptyItemsReplace()
    ensures LoadEffectOf(Returned(ScriptsResponse(200, Some(ScriptsData(Some([])))))) == Replace([])
  {
  }

  datatype Screen = LoadingScreen | ErrorScreen(message: string) | NoScripts | ScriptList(scripts: seq<Script>)

  class Manager {
    var scripts: seq<Script>
    var loading: bool
    var error: Option<string>

    constructor ()
      ensures scripts == [] && loading && error == None
    {
      scripts := [];
      loading := true;
      error := None;
    }

    /** `loadScripts`. */
    method LoadScripts(response: CallOutcome<ScriptsResponse>)
      modifies this
      ensures !loading
      ensures LoadEffectOf(response).Replace? ==> scripts == LoadEffectOf(response).scripts && error == None
      ensures LoadEffectOf(response).Keep? ==> scripts == old(scripts) && error == None
      ensures LoadEffectOf(response).Fail? ==> scripts == old(scripts) && error == LoadEffectOf(response).message
    {
      loading := true;
      error := None;
      match response {
        case Returned(resp) =>
          if resp.code == 200 {
            if resp.data.None? {
              error := Some(MissingDataMessage);
            } else if resp.data.value.items.Some? {
              scripts := resp.data.value.items.value;
            }
          }
        case Threw(message) =>
          error := message;
      }
      loading := false;
    }

    /**
     * `handleDelete(id)`: a successful delete reloads the list with the outcome
     * `reload`; a failed one records its message and does not reload.
     */
    method HandleDelete(deleted: CallOutcome<Json>, reload: CallOutcome<ScriptsResponse>) returns (reloaded: bool)
      modifies this
      ensures reloaded <==> deleted.Returned?
      ensures deleted.Threw? ==>
        error == deleted.message && scripts == old(scripts) && loading == old(loading)
      ensures deleted.Returned? ==> !loading
      ensures deleted.Returned? && LoadEffectOf(reload).Replace? ==> scripts == LoadEffectOf(reload).scripts
      ensures deleted.Returned? && !LoadEffectOf(reload).Replace? ==> scripts == old(scripts)
      ensures deleted.Returned? ==>
        error == (if LoadEffectOf(reload).Fail? then LoadEffectOf(reload).message else None)
    {
      match deleted {
        case Threw(message) =>
          error := message;
          reloaded := false;
        case Returned(_) =>
          LoadScripts(reload);
          reloaded := true;
      }
    }

    /** What the library shows: loading first, then a truthy error, then the list. */
    function View(): (s: Screen)
      reads this
      ensures loading ==> s == LoadingScreen
      ensures !loading && Truthy(error) ==> s == ErrorScreen(error.value)
      ensures !loading && !Truthy(error) ==> s == (if scripts == [] then NoScripts else ScriptList(scripts))
    {
      if loading then LoadingScreen
      else if Truthy(error) then ErrorScreen(error.value)
      else if |scripts| == 0 then NoScripts
      else ScriptList(scripts)
    }
  }
}
