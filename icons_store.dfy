/**
 * The client's icons store: a local mirror of the signed-in user's icons, a loading flag
 * and one error slot per action. Each action clears its own slot on entry and, when its
 * request fails, stores the extracted message there and rethrows.
 */
module IconsStore {
  import opened Wrappers
  import opened Json
  import opened Model
  import opened Fetch
  import opened ListMirror
  import opened ClientHelpers

  function IconId(v: IconView): string { v.id }

  /** The slot an action's failure goes to: its own entry of `errors`, cleared on entry. */
  function AfterAction<T>(errors: map<string, Option<Json>>, action: string, response: Fetched<T>,
      fallback: string): (r: map<string, Option<Json>>)
    ensures r.Keys == errors.Keys + {action}
    ensures forall k :: k in errors && k != action ==> r[k] == errors[k]
    ensures response.Fetched? ==> r[action] == None
    ensures response.FetchFailed? ==> r[action] == Some(GetErrorMessage(response.error, fallback))
  {
    errors[action := if response.Fetched? then None else Some(GetErrorMessage(response.error, fallback))]
  }

  class IconsStore {
    var icons: seq<IconView>
    var loading: bool
    var errors: map<string, Option<Json>>

    constructor ()
      ensures icons == [] && !loading
      ensures errors == map["getIcons" := None, "createIcon" := None, "updateIcon" := None, "deleteIcon" := None]
    {
      icons := [];
      loading := false;
      errors := map["getIcons" := None, "createIcon" := None, "updateIcon" := None, "deleteIcon" := None];
    }

    /** `getIcons`: the mirror becomes the fetched list. */
    method GetIcons(response: Fetched<seq<IconView>>) returns (r: Result<seq<IconView>, Option<Json>>)
      modifies this
      ensures !loading
      ensures errors == AfterAction(old(errors), "getIcons", response, "Failed to get icons")
      ensures response.Fetched? ==> r == Ok(response.value) && icons == response.value
      ensures response.FetchFailed? ==> r == Err(response.error) && icons == old(icons)
    {
      loading := true;
      errors := errors["getIcons" := None];
      match response {
      case Fetched(fetched) =>
        icons := fetched;
        r := Ok(fetched);
      case FetchFailed(err) =>
        errors := errors["getIcons" := Some(GetErrorMessage(err, "Failed to get icons"))];
        r := Err(err);
      }
      loading := false;
    }

    /** `createIcon`: the created icon is pushed at the end. */
    method CreateIcon(response: Fetched<IconView>) returns (r: Result<IconView, Option<Json>>)
      modifies this
      ensures !loading
      ensures errors == AfterAction(old(errors), "createIcon", response, "Failed to create icon")
      ensures response.Fetched? ==> r == Ok(response.value) && icons == old(icons) + [response.value]
      ensures response.FetchFailed? ==> r == Err(response.error) && icons == old(icons)
    {
      loading := true;
      errors := errors["createIcon" := None];
      match response {
      case Fetched(icon) =>
        icons := icons + [icon];
        r := Ok(icon);
      case FetchFailed(err) =>
        errors := errors["createIcon" := Some(GetErrorMessage(err, "Failed to create icon"))];
        r := Err(err);
      }
      loading := false;
    }

    /** `updateIcon(id, ...)`: the first icon with the id, if any, becomes the response's. */
    method UpdateIcon(id: Id, response: Fetched<IconView>) returns (r: Result<IconView, Option<Json>>)
      modifies this
      ensures !loading
      ensures errors == AfterAction(old(errors), "updateIcon", response, "Failed to update icon")
      ensures response.Fetched? ==> r == Ok(response.value) && icons == ReplaceFirst(old(icons), IconId, id, response.value)
      ensures response.FetchFailed? ==> r == Err(response.error) && icons == old(icons)
    {
      loading := true;
      errors := errors["updateIcon" := None];
      match response {
      case Fetched(icon) =>
        var index := Seqs.FindIndex(icons, IconId, id);
        if index != -1 {
          icons := icons[index := icon];
        }
        r := Ok(icon);
      case FetchFailed(err) =>
        errors := errors["updateIcon" := Some(GetErrorMessage(err, "Failed to update icon"))];
        r := Err(err);
      }
      loading := false;
    }

    /** `deleteIcon(id)`: every icon with the id is dropped. */
    method DeleteIcon(id: Id, response: Fetched<()>) returns (r: Result<(), Option<Json>>)
      modifies this
      ensures !loading
      ensures errors == AfterAction(old(errors), "deleteIcon", response, "Failed to delete icon")
      ensures response.Fetched? ==> r == Ok(()) && icons == Remove(old(icons), IconId, id)
      ensures response.FetchFailed? ==> r == Err(response.error) && icons == old(icons)
    {
      loading := true;
      errors := errors["deleteIcon" := None];
      match response {
      case Fetched(_) =>
        icons := Remove(icons, IconId, id);
        r := Ok(());
      case FetchFailed(err) =>
        errors := errors["deleteIcon" := Some(GetErrorMessage(err, "Failed to delete icon"))];
        r := Err(err);
      }
      loading := false;
    }
  }
}
