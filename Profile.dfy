/**
 * The three status lists of a profile screen (viewModel/ProfileViewModel.kt):
 * how each list consumes its `Paginator` (the append key, the merge done by
 * `onSuccess`, the state copied by `onLoadUpdated`) and the tab selection
 * `syncProfileTab`. `toUiData` is not part of this model: a fetched batch is
 * taken to be the list items themselves.
 */
module Profile {
  import opened Wrappers
  import opened Paging

  /** A list item; `content` stands for every field other than `id`. */
  datatype StatusUiData = StatusUiData(id: Id, content: string)

  /** `StatusCommonListData`: what one profile list shows. */
  datatype StatusCommonListData = StatusCommonListData(timeline: seq<StatusUiData>, loadState: LoadState, endReached: bool)

  /** `ProfileKind`, in declaration order. */
  datatype ProfileKind = Status | StatusWithReply | StatusWithMedia

  type ProfilePager = Paginator<Option<Id>, StatusUiData>
  type ProfileCall = HookCall<Option<Id>, StatusUiData>
  type ProfileResponse = Response<StatusUiData>

  /** The list a view model starts with. */
  const EmptyList := StatusCommonListData([], NotLoading, false)

  /** The ids occurring in `s`. */
  function Ids(s: seq<StatusUiData>): set<Id>
  {
    set x | x in s :: x.id
  }

  /** No two entries of `s` share an id. */
  predicate DistinctIds(s: seq<StatusUiData>)
  {
    forall i, j :: 0 <= i < j < |s| ==> s[i].id != s[j].id
  }

  /** The ids of a concatenation are the ids of its parts. */
  lemma IdsConcat(a: seq<StatusUiData>, b: seq<StatusUiData>)
    ensures Ids(a + b) == Ids(a) + Ids(b)
  {
  }

  /** The ids of a non-empty sequence: its head's id and its tail's ids. */
  lemma IdsCons(s: seq<StatusUiData>)
    requires s != []
    ensures Ids(s) == {s[0].id} + Ids(s[1..])
  {
  }

  /** Dropping the head of a repeat-free sequence leaves one without its id. */
  lemma DistinctTail(t: seq<StatusUiData>)
    requires t != [] && DistinctIds(t)
    ensures DistinctIds(t[1..]) && t[0].id !in Ids(t[1..])
  {
  }

  /** `getAppendKey`: `timeline.lastOrNull()?.id`. */
  function AppendKey(timeline: seq<StatusUiData>): (key: Option<Id>)
    ensures key.None? <==> timeline == []
    ensures key.Some? ==> key.value == timeline[|timeline| - 1].id
  {
    if timeline == [] then None else Some(timeline[|timeline| - 1].id)
  }

  /**
   * `distinctBy { it.id }` continued with the ids in `seen` already taken:
   * walks `s` from the front and keeps an entry when its id is new.
   */
  function DistinctFrom(s: seq<StatusUiData>, seen: set<Id>): (r: seq<StatusUiData>)
    ensures DistinctIds(r)
    ensures Ids(r) == Ids(s) - seen
    ensures forall x :: x in r ==> x in s
    decreases |s|
  {
    if s == [] then []
    else if s[0].id in seen then IdsCons(s); DistinctFrom(s[1..], seen)
    else
      var rest := DistinctFrom(s[1..], seen + {s[0].id});
      IdsCons(s);
      IdsConcat([s[0]], rest);
      [s[0]] + rest
  }

  /** `distinctBy { it.id }`. */
  function DistinctById(s: seq<StatusUiData>): (r: seq<StatusUiData>)
    ensures DistinctIds(r) && Ids(r) == Ids(s)
    ensures forall x :: x in r ==> x in s
  {
    DistinctFrom(s, {})
  }

  /**
   * An independent reference for `distinctBy`: an entry is kept exactly when
   * no earlier entry has its id.
   */
  function FirstOccurrences(s: seq<StatusUiData>): seq<StatusUiData>
  {
    if s == [] then []
    else
      var init := s[..|s| - 1];
      FirstOccurrences(init) + (if s[|s| - 1].id in Ids(init) then [] else [s[|s| - 1]])
  }

  lemma {:induction false} DistinctFromSnoc(s: seq<StatusUiData>, x: StatusUiData, seen: set<Id>)
    ensures DistinctFrom(s + [x], seen) == DistinctFrom(s, seen) + (if x.id in seen + Ids(s) then [] else [x])
    decreases |s|
  {
    if s == [] {
      assert [] + [x] == [x];
      assert [x][1..] == [];
    } else {
      assert (s + [x])[0] == s[0];
      assert (s + [x])[1..] == s[1..] + [x];
      IdsCons(s);
      if s[0].id in seen {
        DistinctFromSnoc(s[1..], x, seen);
      } else {
        DistinctFromSnoc(s[1..], x, seen + {s[0].id});
      }
    }
  }

  /** `distinctBy` keeps the first entry of each id, in the original order. */
  lemma {:induction false} DistinctByIdIsFirstOccurrences(s: seq<StatusUiData>)
    ensures DistinctById(s) == FirstOccurrences(s)
    decreases |s|
  {
    if s != [] {
      var init, x := s[..|s| - 1], s[|s| - 1];
      assert s == init + [x];
      DistinctFromSnoc(init, x, {});
      DistinctByIdIsFirstOccurrences(init);
    }
  }

  /** Entries of a timeline without repeats all survive a later
      `distinctBy`, in place, ahead of the new ones. */
  lemma {:induction false} DistinctFromKeepsPrefix(t: seq<StatusUiData>, b: seq<StatusUiData>, seen: set<Id>)
    requires DistinctIds(t) && Ids(t) !! seen
    ensures DistinctFrom(t + b, seen) == t + DistinctFrom(b, seen + Ids(t))
    decreases |t|
  {
    if t == [] {
      assert [] + b == b;
      assert Ids(t) == {};
      assert seen + Ids(t) == seen;
    } else {
      assert (t + b)[0] == t[0];
      assert (t + b)[1..] == t[1..] + b;
      IdsCons(t);
      DistinctTail(t);
      DistinctFromKeepsPrefix(t[1..], b, seen + {t[0].id});
      assert seen + {t[0].id} + Ids(t[1..]) == seen + Ids(t);
    }
  }

  /** The timeline a pager of `kind` keeps: only the replies list drops
      entries whose id it already has. */
  function Normalize(kind: ProfileKind, s: seq<StatusUiData>): seq<StatusUiData>
  {
    if kind == StatusWithReply then DistinctById(s) else s
  }

  /** The `onSuccess` closure of the pager of `kind`. */
  function OnSuccessData(kind: ProfileKind, data: StatusCommonListData, state: LoadState,
                         items: seq<StatusUiData>): (r: StatusCommonListData)
    // onSuccess never touches the load state; the paginator reports it through onLoadUpdated
    ensures r.loadState == data.loadState
    ensures (state == Append || state == Refresh) ==> r.endReached == (items == [])
    // a state other than Append or Refresh matches no branch of the `when`
    ensures state != Append && state != Refresh ==> r == data
  {
    match state
    case Append => data.(timeline := Normalize(kind, data.timeline + items), endReached := items == [])
    case Refresh => data.(timeline := Normalize(kind, items), endReached := items == [])
    case _ => data
  }

  /** The effect of one paginator hook call on the list data of `kind`;
      `onRequest` and `onError` leave the list data alone. */
  function AfterHook(kind: ProfileKind, data: StatusCommonListData, call: ProfileCall): (r: StatusCommonListData)
    // only onLoadUpdated changes what the list shows as its state
    ensures r.loadState == (if call.OnLoadUpdated? then call.state else data.loadState)
    // only onSuccess changes the timeline and endReached
    ensures !call.OnSuccess? ==> r.timeline == data.timeline && r.endReached == data.endReached
  {
    match call
    case OnLoadUpdated(state) => data.(loadState := state)
    case OnSuccess(state, items) => OnSuccessData(kind, data, state, items)
    case OnRequest(_) => data
    case OnError(_) => data
  }

  /** The hook calls applied in order. */
  function Replay(kind: ProfileKind, data: StatusCommonListData, calls: seq<ProfileCall>): StatusCommonListData
    decreases |calls|
  {
    if calls == [] then data else Replay(kind, AfterHook(kind, data, calls[0]), calls[1..])
  }

  /** An append on the post list or the media list keeps the timeline and
      adds the batch after it; the next append key is then the batch's last id. */
  lemma AppendConcatenates(kind: ProfileKind, data: StatusCommonListData, items: seq<StatusUiData>)
    requires kind != StatusWithReply
    ensures var r := OnSuccessData(kind, data, Append, items);
            r.timeline == data.timeline + items && r.endReached == (items == []) && r.loadState == data.loadState
    ensures items != [] ==> AppendKey(OnSuccessData(kind, data, Append, items).timeline) == Some(items[|items| - 1].id)
  {
  }

  /** A refresh replaces the timeline with the batch (without repeats on the
      replies list); `endReached` records whether the batch was empty. */
  lemma RefreshReplaces(kind: ProfileKind, data: StatusCommonListData, items: seq<StatusUiData>)
    ensures var r := OnSuccessData(kind, data, Refresh, items);
            r.timeline == Normalize(kind, items) && r.endReached == (items == []) && r.loadState == data.loadState
    ensures kind != StatusWithReply ==> OnSuccessData(kind, data, Refresh, items).timeline == items
  {
  }

  /**
   * The replies list never holds two entries with one id after an append or
   * a refresh, loses no id, and an append keeps a repeat-free timeline as it
   * was, followed by the batch's entries with new ids.
   */
  lemma ReplyTimelineUnique(data: StatusCommonListData, state: LoadState, items: seq<StatusUiData>)
    requires state == Append || state == Refresh
    ensures var r := OnSuccessData(StatusWithReply, data, state, items);
            DistinctIds(r.timeline) &&
            Ids(r.timeline) == (if state == Append then Ids(data.timeline) else {}) + Ids(items)
    ensures state == Append && DistinctIds(data.timeline) ==>
              OnSuccessData(StatusWithReply, data, state, items).timeline
              == data.timeline + DistinctFrom(items, Ids(data.timeline))
  {
    var t := data.timeline;
    IdsConcat(t, items);
    if state == Append && DistinctIds(t) {
      DistinctFromKeepsPrefix(t, items, {});
      assert {} + Ids(t) == Ids(t);
    }
  }

  /** `onRequest` threw a JVM `Error`, which passes the paginator's catch clause. */
  predicate Escaping(response: ProfileResponse)
  {
    response.Raised? && response.fault.JvmError?
  }

  /** The list of `kind` after one unguarded operation `op` that was answered with `response`. */
  function ListAfter(kind: ProfileKind, data: StatusCommonListData, op: LoadState,
                     response: ProfileResponse): StatusCommonListData
  {
    if response.Fetched? then OnSuccessData(kind, data, op, response.items).(loadState := NotLoading)
    else if Escaping(response) then data.(loadState := op)
    else data.(loadState := Error)
  }

  /**
   * A whole unguarded operation, seen by the list: after a fetched batch the
   * list holds the merge and shows `NotLoading`; after a caught failure the
   * timeline and `endReached` are as before and the list shows `Error`; after
   * an escaping JVM `Error` the list is left showing the active state.
   */
  lemma {:induction false} ReplayTransition(kind: ProfileKind, data: StatusCommonListData, op: LoadState,
                                            key: Option<Id>, onRequest: Option<Id> -> ProfileResponse, endReached: bool)
    requires op == Append || op == Refresh
    ensures Replay(kind, data, Transition(op, Returned(key), onRequest, None, endReached).calls)
            == ListAfter(kind, data, op, onRequest(key))
  {
    var calls := Transition(op, Returned(key), onRequest, None, endReached).calls;
    match onRequest(key)
    case Fetched(items) =>
      ReplayFour(kind, data, calls);
    case Failed(f) =>
      ReplayFour(kind, data, calls);
    case Raised(f) =>
      if f.JvmError? {
        ReplayTwo(kind, data, calls);
      } else {
        ReplayFour(kind, data, calls);
      }
  }

  /** Replaying two calls applies them in order. */
  lemma ReplayTwo(kind: ProfileKind, data: StatusCommonListData, calls: seq<ProfileCall>)
    requires |calls| == 2
    ensures Replay(kind, data, calls) == AfterHook(kind, AfterHook(kind, data, calls[0]), calls[1])
  {
    var d1 := AfterHook(kind, data, calls[0]);
    assert calls[1..][0] == calls[1] && calls[1..][1..] == [];
    assert Replay(kind, data, calls) == Replay(kind, d1, calls[1..]);
  }

  /** Replaying four calls applies them in order. */
  lemma ReplayFour(kind: ProfileKind, data: StatusCommonListData, calls: seq<ProfileCall>)
    requires |calls| == 4
    ensures Replay(kind, data, calls) ==
            AfterHook(kind, AfterHook(kind, AfterHook(kind, AfterHook(kind, data, calls[0]), calls[1]), calls[2]), calls[3])
  {
    var d1 := AfterHook(kind, data, calls[0]);
    var d2 := AfterHook(kind, d1, calls[1]);
    ReplayTwo(kind, d2, calls[2..]);
    assert calls[1..][0] == calls[1] && calls[1..][1..] == calls[2..];
    assert Replay(kind, data, calls) == Replay(kind, d1, calls[1..]);
    assert Replay(kind, d1, calls[1..]) == Replay(kind, d2, calls[2..]);
  }

  /** The position of `kind` in `ProfileKind.entries`. */
  function Ordinal(kind: ProfileKind): nat
  {
    match kind
    case Status => 0
    case StatusWithReply => 1
    case StatusWithMedia => 2
  }

  /** `ProfileKind.entries.toTypedArray()[page]`; `None` where the index
      is out of bounds and the access throws. */
  function ProfileKindAt(page: int): (kind: Option<ProfileKind>)
    ensures kind.Some? <==> 0 <= page < 3
    ensures kind.Some? ==> Ordinal(kind.value) == page
  {
    if page == 0 then Some(Status)
    else if page == 1 then Some(StatusWithReply)
    else if page == 2 then Some(StatusWithMedia)
    else None
  }

  /** Every kind is found again at its own position. */
  lemma ProfileKindAtOrdinal(kind: ProfileKind)
    ensures ProfileKindAt(Ordinal(kind)) == Some(kind)
  {
  }

  /** `ProfileViewModel`, reduced to its three lists, their pagers and the selected tab. */
  class ProfileViewModel {
    var profileStatus: StatusCommonListData
    var profileStatusWithReply: StatusCommonListData
    var profileStatusWithMedia: StatusCommonListData
    var currentProfileKind: ProfileKind
    const statusPager: ProfilePager
    const statusWithReplyPager: ProfilePager
    const statusWithMediaPager: ProfilePager

    /** Three separate pagers, each refreshing from the first page (`refreshKey = null`). */
    ghost predicate Valid()
    {
      && statusPager != statusWithReplyPager
      && statusPager != statusWithMediaPager
      && statusWithReplyPager != statusWithMediaPager
      && statusPager.refreshKey == None
      && statusWithReplyPager.refreshKey == None
      && statusWithMediaPager.refreshKey == None
    }

    constructor ()
      ensures Valid()
      ensures fresh(statusPager) && fresh(statusWithReplyPager) && fresh(statusWithMediaPager)
      ensures profileStatus == EmptyList && profileStatusWithReply == EmptyList && profileStatusWithMedia == EmptyList
      ensures currentProfileKind == Status
      ensures statusPager.loadState == NotLoading && !statusPager.endReached
      ensures statusWithReplyPager.loadState == NotLoading && !statusWithReplyPager.endReached
      ensures statusWithMediaPager.loadState == NotLoading && !statusWithMediaPager.endReached
    {
      profileStatus := EmptyList;
      profileStatusWithReply := EmptyList;
      profileStatusWithMedia := EmptyList;
      currentProfileKind := Status;
      statusPager := new Paginator(None);
      statusWithReplyPager := new Paginator(None);
      statusWithMediaPager := new Paginator(None);
    }

    /** The list of `kind`. */
    function Data(kind: ProfileKind): StatusCommonListData
      reads this
    {
      match kind
      case Status => profileStatus
      case StatusWithReply => profileStatusWithReply
      case StatusWithMedia => profileStatusWithMedia
    }

    /** The pager of `kind`. */
    function Pager(kind: ProfileKind): ProfilePager
    {
      match kind
      case Status => statusPager
      case StatusWithReply => statusWithReplyPager
      case StatusWithMedia => statusWithMediaPager
    }

    /** Assigns the flow of `kind`. */
    method SetData(kind: ProfileKind, data: StatusCommonListData)
      modifies this
      ensures Data(kind) == data
      ensures forall k :: k != kind ==> Data(k) == old(Data(k))
      ensures currentProfileKind == old(currentProfileKind)
    {
      match kind
      case Status => profileStatus := data;
      case StatusWithReply => profileStatusWithReply := data;
      case StatusWithMedia => profileStatusWithMedia := data;
    }

    /**
     * `appendProfileKind`: the pager of `kind` appends from the id of the
     * list's last entry; `onRequest` stands for the repository call.
     */
    method AppendProfileKind(kind: ProfileKind, onRequest: Option<Id> -> ProfileResponse)
      requires Valid()
      modifies this, Pager(kind)
      ensures Valid()
      ensures forall k :: k != kind ==> Data(k) == old(Data(k))
      ensures currentProfileKind == old(currentProfileKind)
      ensures old(Pager(kind).loadState) == Append ==>
                Data(kind) == old(Data(kind)) && Pager(kind).loadState == Append &&
                Pager(kind).endReached == old(Pager(kind).endReached)
      ensures old(Pager(kind).loadState) != Append ==>
                var response := onRequest(AppendKey(old(Data(kind)).timeline));
                && Pager(kind).loadState == (if response.Fetched? then NotLoading
                                             else if Escaping(response) then Append else Error)
                && Pager(kind).endReached == (old(Pager(kind).endReached) || response == Fetched([]))
                && Data(kind) == ListAfter(kind, old(Data(kind)), Append, response)
    {
      var pager := Pager(kind);
      var key := AppendKey(Data(kind).timeline);
      var calls, escaped := pager.Append(Returned(key), onRequest, None);
      if old(pager.loadState) != Append {
        ReplayTransition(kind, Data(kind), Append, key, onRequest, old(pager.endReached));
      }
      SetData(kind, Replay(kind, Data(kind), calls));
    }

    /** `refreshProfileKind`: the pager of `kind` reloads from the first page. */
    method RefreshProfileKind(kind: ProfileKind, onRequest: Option<Id> -> ProfileResponse)
      requires Valid()
      modifies this, Pager(kind)
      ensures Valid()
      ensures forall k :: k != kind ==> Data(k) == old(Data(k))
      ensures currentProfileKind == old(currentProfileKind)
      ensures old(Pager(kind).loadState) == Refresh ==>
                Data(kind) == old(Data(kind)) && Pager(kind).loadState == Refresh &&
                Pager(kind).endReached == old(Pager(kind).endReached)
      ensures old(Pager(kind).loadState) != Refresh ==>
                var response := onRequest(None);
                && Pager(kind).loadState == (if response.Fetched? then NotLoading
                                             else if Escaping(response) then Refresh else Error)
                && Pager(kind).endReached == (old(Pager(kind).endReached) || response == Fetched([]))
                && Data(kind) == ListAfter(kind, old(Data(kind)), Refresh, response)
    {
      var pager := Pager(kind);
      var calls, escaped := pager.Refresh(onRequest, None);
      if old(pager.loadState) != Refresh {
        ReplayTransition(kind, Data(kind), Refresh, None, onRequest, old(pager.endReached));
      }
      SetData(kind, Replay(kind, Data(kind), calls));
    }

    /** `syncProfileTab`: selects the tab at `page`; an index outside the
        three kinds throws and changes nothing. */
    method SyncProfileTab(page: int) returns (outOfBounds: bool)
      modifies this`currentProfileKind
      ensures outOfBounds <==> !(0 <= page < 3)
      ensures !outOfBounds ==> Ordinal(currentProfileKind) == page
      ensures outOfBounds ==> currentProfileKind == old(currentProfileKind)
    {
      var kind := ProfileKindAt(page);
      outOfBounds := kind.None?;
      if kind.Some? {
        currentProfileKind := kind.value;
      }
    }
  }
}
