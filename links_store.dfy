/**
 * The client's links store: a local mirror of the signed-in user's links and a loading
 * flag. Each action awaits one request (its outcome is an input here), updates the
 * mirror only when the request succeeds, rethrows a failure, and always clears `loading`.
 */
module LinksStore {
  import opened Wrappers
  import opened Json
  import opened Model
  import opened Fetch
  import opened ListMirror

  function LinkId(v: LinkView): string { v.id }

  class LinksStore {
    var links: seq<LinkView>
    var loading: bool

    constructor ()
      ensures links == [] && !loading
    {
      links := [];
      loading := false;
    }

    /** `getLinks`: the mirror becomes the fetched list. */
    method GetLinks(response: Fetched<seq<LinkView>>) returns (r: Result<seq<LinkView>, Option<Json>>)
      modifies this
      ensures !loading
      ensures response.Fetched? ==> r == Ok(response.value) && links == response.value
      ensures response.FetchFailed? ==> r == Err(response.error) && links == old(links)
    {
      loading := true;
      match response {
      case Fetched(fetched) =>
        links := fetched;
        r := Ok(fetched);
      case FetchFailed(err) =>
        r := Err(err);
      }
      loading := false;
    }

    /** `createLink`: the created link is pushed at the end. */
    method CreateLink(response: Fetched<LinkView>) returns (r: Result<LinkView, Option<Json>>)
      modifies this
      ensures !loading
      ensures response.Fetched? ==> r == Ok(response.value) && links == old(links) + [response.value]
      ensures response.FetchFailed? ==> r == Err(response.error) && links == old(links)
    {
      loading := true;
      match response {
      case Fetched(link) =>
        links := links + [link];
        r := Ok(link);
      case FetchFailed(err) =>
        r := Err(err);
      }
      loading := false;
    }

    /** `updateLink(id, ...)`: the first link with the id, if any, becomes the response's. */
    method UpdateLink(id: Id, response: Fetched<LinkView>) returns (r: Result<LinkView, Option<Json>>)
      modifies this
      ensures !loading
      ensures response.Fetched? ==> r == Ok(response.value) && links == ReplaceFirst(old(links), LinkId, id, response.value)
      ensures response.FetchFailed? ==> r == Err(response.error) && links == old(links)
    {
      loading := true;
      match response {
      case Fetched(link) =>
        var index := Seqs.FindIndex(links, LinkId, id);
        if index != -1 {
          links := links[index := link];
        }
        r := Ok(link);
      case FetchFailed(err) =>
        r := Err(err);
      }
      loading := false;
    }

    /** `deleteLink(id)`: every link with the id is dropped. */
    method DeleteLink(id: Id, response: Fetched<()>) returns (r: Result<(), Option<Json>>)
      modifies this
      ensures !loading
      ensures response.Fetched? ==> r == Ok(()) && links == Remove(old(links), LinkId, id)
      ensures response.FetchFailed? ==> r == Err(response.error) && links == old(links)
    {
      loading := true;
      match response {
      case Fetched(_) =>
        links := Remove(links, LinkId, id);
        r := Ok(());
      case FetchFailed(err) =>
        r := Err(err);
      }
      loading := false;
    }
  }
}
