/**
 * The home timeline source (paging/HomeTimelinePagingSource.kt): a paging
 * source that ignores the key it is asked for and keeps its own cursor,
 * `nextPageId`, the id of the last status it delivered. The API call is a
 * parameter: a function from the `maxId` sent to what the call did.
 */
module HomeTimeline {
  import opened Wrappers

  /** A home timeline status; `content` stands for every field other than `id`. */
  datatype TimelineStatus = TimelineStatus(id: Id, content: string)

  /** The exceptions `getHomeTimeline` can throw, as `load` tells them apart. */
  datatype ApiException = IOException | HttpException | OtherException

  /** What `apiRepository.getHomeTimeline` did. */
  datatype ApiResponse = Statuses(data: seq<TimelineStatus>) | Threw(exception: ApiException)

  /** Why `load` returned `LoadResult.Error`. */
  datatype LoadErrorCause = EmptyPage | Io | Http

  /** What `load` produced: a `LoadResult`, or an exception it does not catch. */
  datatype LoadResult =
    | Page(data: seq<TimelineStatus>, prevKey: Option<Id>, nextKey: Option<Id>)
    | Error(cause: LoadErrorCause)
    | Uncaught(exception: ApiException)

  /**
   * One `load` on the cursor `cursor` given what the API call did: the
   * result and the new cursor. The cursor moves only on a delivered page,
   * and then to that page's `nextKey`; a page's `prevKey` is the old cursor.
   */
  function LoadStep(cursor: Option<Id>, response: ApiResponse): (step: (LoadResult, Option<Id>))
    ensures step.0.Page? <==> response.Statuses? && response.data != []
    ensures step.0.Page? ==>
              step.0.data == response.data && step.0.prevKey == cursor &&
              step.0.nextKey == step.1 == Some(response.data[|response.data| - 1].id)
    ensures !step.0.Page? ==> step.1 == cursor
    ensures response == Statuses([]) ==> step.0 == Error(EmptyPage)
    ensures response == Threw(IOException) ==> step.0 == Error(Io)
    ensures response == Threw(HttpException) ==> step.0 == Error(Http)
    ensures response == Threw(OtherException) ==> step.0 == Uncaught(OtherException)
  {
    match response
    case Threw(e) =>
      (match e
       case IOException => Error(Io)
       case HttpException => Error(Http)
       case OtherException => Uncaught(e), cursor)
    case Statuses(data) =>
      if data != [] then (Page(data, cursor, Some(data[|data| - 1].id)), Some(data[|data| - 1].id))
      else (Error(EmptyPage), cursor)
  }

  /** Consecutive loads starting from `cursor`, the i-th API call doing
      `responses[i]`: their results and the final cursor. */
  function Loads(cursor: Option<Id>, responses: seq<ApiResponse>): (run: (seq<LoadResult>, Option<Id>))
    ensures |run.0| == |responses|
    // the i-th result is a page exactly when the i-th call returned statuses, and it carries them unchanged
    ensures forall i :: 0 <= i < |responses| ==>
              (run.0[i].Page? <==> responses[i].Statuses? && responses[i].data != [])
    ensures forall i :: 0 <= i < |responses| && run.0[i].Page? ==> run.0[i].data == responses[i].data
    // a run that delivers no page leaves the cursor where it started
    ensures (forall i :: 0 <= i < |run.0| ==> !run.0[i].Page?) ==> run.1 == cursor
    decreases |responses|
  {
    if responses == [] then ([], cursor)
    else
      var step := LoadStep(cursor, responses[0]);
      var rest := Loads(step.1, responses[1..]);
      ([step.0] + rest.0, rest.1)
  }

  /** The `nextKey` of the last page among `results`, or `cursor` when there is none. */
  function LastNextKey(cursor: Option<Id>, results: seq<LoadResult>): Option<Id>
    decreases |results|
  {
    if results == [] then cursor
    else if results[|results| - 1].Page? then results[|results| - 1].nextKey
    else LastNextKey(cursor, results[..|results| - 1])
  }

  lemma {:induction false} LastNextKeyCons(cursor: Option<Id>, first: LoadResult, rest: seq<LoadResult>)
    ensures LastNextKey(cursor, [first] + rest) ==
            LastNextKey(if first.Page? then first.nextKey else cursor, rest)
    decreases |rest|
  {
    if rest == [] {
      assert [first] + rest == [first];
      assert [first][..0] == [];
    } else {
      var s := [first] + rest;
      assert s[..|s| - 1] == [first] + rest[..|rest| - 1];
      assert s[|s| - 1] == rest[|rest| - 1];
      LastNextKeyCons(cursor, first, rest[..|rest| - 1]);
    }
  }

  /**
   * Over any run of loads the cursor is the `nextKey` of the last page
   * delivered, or the starting cursor when no page was: errors never move
   * the cursor.
   */
  lemma {:induction false} CursorFollowsLastPage(cursor: Option<Id>, responses: seq<ApiResponse>)
    ensures Loads(cursor, responses).1 == LastNextKey(cursor, Loads(cursor, responses).0)
    decreases |responses|
  {
    if responses != [] {
      var step := LoadStep(cursor, responses[0]);
      CursorFollowsLastPage(step.1, responses[1..]);
      LastNextKeyCons(cursor, step.0, Loads(step.1, responses[1..]).0);
    }
  }

  class HomeTimelinePagingSource {
    var nextPageId: Option<Id>

    constructor ()
      ensures nextPageId == None
    {
      nextPageId := None;
    }

    /** `getRefreshKey`: the cursor, whatever the paging state. */
    function GetRefreshKey(): (key: Option<Id>)
      reads this
      ensures key == nextPageId
    {
      if nextPageId.None? then None else nextPageId
    }

    /**
     * `load`: asks the API for the page older than the cursor (`maxId` is
     * the cursor) and does what `LoadStep` says: a non-empty page moves the
     * cursor to its last id; an empty page, an I/O failure or an HTTP failure
     * is an error that leaves the cursor alone; any other exception escapes.
     */
    method Load(getHomeTimeline: Option<Id> -> ApiResponse) returns (r: LoadResult)
      modifies this`nextPageId
      ensures (r, nextPageId) == LoadStep(old(nextPageId), getHomeTimeline(old(nextPageId)))
    {
      var response := getHomeTimeline(if nextPageId.Some? then nextPageId else None);
      match response {
        case Threw(e) =>
          match e {
            case IOException => return Error(Io);
            case HttpException => return Error(Http);
            case OtherException => return Uncaught(e);
          }
        case Statuses(data) =>
          if data != [] {
            r := Page(data, nextPageId, Some(data[|data| - 1].id));
            nextPageId := Some(data[|data| - 1].id);
          } else {
            return Error(EmptyPage);
          }
      }
    }
  }
}
