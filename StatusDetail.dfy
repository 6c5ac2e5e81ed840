/**
 * Reply-chain tagging of a conversation (viewModel/StatusDetailViewModel.kt,
 * `markAncestors` and `markDescendants`). Each status gets a hint telling the
 * thread view where to draw a connector line. `toUiData` is not part of this
 * model: the result is given as the tagged statuses themselves.
 */
module StatusDetail {
  import opened Wrappers

  /** `Status.ReplyChainType`; `Null` is the untagged value. */
  datatype ReplyChainType = Start | Continue | End | Null

  /** The fields of a status the tagging reads or writes. */
  datatype Status = Status(id: Id, inReplyToId: Option<Id>, replyChainType: ReplyChainType)

  /** `child.inReplyToId == parent.id`; a null `inReplyToId` matches no id. */
  predicate RepliesTo(child: Status, parent: Status)
  {
    child.inReplyToId == Some(parent.id)
  }

  /** The tag `markAncestors` gives position `i`. */
  function AncestorTag(i: nat): ReplyChainType
  {
    if i == 0 then Start else Continue
  }

  /**
   * The tag `markDescendants` gives position `i` of `s`: the first and last
   * positions look at their one neighbour, interior positions at both, and a
   * position matching no case keeps the tag it came with.
   */
  function DescendantTag(s: seq<Status>, i: nat): ReplyChainType
    requires i < |s|
  {
    if |s| <= 1 then s[i].replyChainType
    else if i == 0 then
      if RepliesTo(s[1], s[0]) then Start else s[0].replyChainType
    else if i == |s| - 1 then
      if RepliesTo(s[i], s[i - 1]) then End else s[i].replyChainType
    else if RepliesTo(s[i + 1], s[i]) && !RepliesTo(s[i], s[i - 1]) then Start
    else if RepliesTo(s[i], s[i - 1]) && RepliesTo(s[i + 1], s[i]) then Continue
    else if RepliesTo(s[i], s[i - 1]) && !RepliesTo(s[i + 1], s[i]) then End
    else s[i].replyChainType
  }

  /** `markAncestors`: the oldest ancestor starts the chain and every later
      one continues it; nothing but the tag changes. */
  method MarkAncestors(ancestors: seq<Status>) returns (r: seq<Status>)
    ensures |r| == |ancestors|
    ensures forall i :: 0 <= i < |r| ==> r[i] == ancestors[i].(replyChainType := AncestorTag(i))
  {
    if ancestors == [] { return []; }
    var result := new Status[|ancestors|](i requires 0 <= i < |ancestors| => ancestors[i]);
    for index := 0 to |ancestors|
      invariant forall k :: 0 <= k < index ==> result[k] == ancestors[k].(replyChainType := AncestorTag(k))
      invariant forall k :: index <= k < |ancestors| ==> result[k] == ancestors[k]
    {
      var status := ancestors[index];
      if index == 0 {
        result[index] := status.(replyChainType := Start);
      } else if 1 <= index <= |ancestors| - 1 {
        result[index] := status.(replyChainType := Continue);
      }
    }
    r := result[..];
  }

  /** `markDescendants`: every position gets `DescendantTag`, and nothing
      but the tag changes. */
  method MarkDescendants(descendants: seq<Status>) returns (r: seq<Status>)
    ensures |r| == |descendants|
    ensures forall i :: 0 <= i < |r| ==> r[i] == descendants[i].(replyChainType := DescendantTag(descendants, i))
  {
    if |descendants| == 0 || |descendants| == 1 { return descendants; }
    var last := |descendants| - 1;
    var result := new Status[|descendants|](i requires 0 <= i < |descendants| => descendants[i]);
    for index := 0 to |descendants|
      invariant forall k :: 0 <= k < index ==>
                  result[k] == descendants[k].(replyChainType := DescendantTag(descendants, k))
      invariant forall k :: index <= k < |descendants| ==> result[k] == descendants[k]
    {
      var status := descendants[index];
      if index == 0 && descendants[1].inReplyToId == Some(status.id) {
        result[index] := status.(replyChainType := Start);
      } else if index == last && status.inReplyToId == Some(descendants[index - 1].id) {
        result[index] := status.(replyChainType := End);
      }
      if 0 < index < last {
        if descendants[index + 1].inReplyToId == Some(status.id)
           && status.inReplyToId != Some(descendants[index - 1].id) {
          result[index] := status.(replyChainType := Start);
        } else if status.inReplyToId == Some(descendants[index - 1].id)
                  && descendants[index + 1].inReplyToId == Some(status.id) {
          result[index] := status.(replyChainType := Continue);
        } else if status.inReplyToId == Some(descendants[index - 1].id)
                  && descendants[index + 1].inReplyToId != Some(status.id) {
          result[index] := status.(replyChainType := End);
        }
      }
    }
    r := result[..];
  }

  /** Every status from `i` to `j` replies to the one before it. */
  predicate LinkedRun(s: seq<Status>, i: nat, j: nat)
    requires i <= j < |s|
  {
    forall k :: i < k <= j ==> RepliesTo(s[k], s[k - 1])
  }

  /**
   * What the tags mean: a maximal run of two or more statuses, each replying
   * to the one before, is drawn as one connector: its first status is tagged
   * `Start`, its interior ones `Continue` and its last one `End`.
   */
  lemma MaximalRunTagged(s: seq<Status>, i: nat, j: nat)
    requires i < j < |s|
    requires LinkedRun(s, i, j)
    requires i == 0 || !RepliesTo(s[i], s[i - 1])
    requires j == |s| - 1 || !RepliesTo(s[j + 1], s[j])
    ensures DescendantTag(s, i) == Start
    ensures forall k :: i < k < j ==> DescendantTag(s, k) == Continue
    ensures DescendantTag(s, j) == End
  {
  }

  /**
   * A status linked to neither neighbour keeps the tag it came with, and
   * conversely a status whose tag changes is linked to a neighbour.
   */
  lemma UnlinkedKeepsTag(s: seq<Status>, i: nat)
    requires i < |s|
    ensures DescendantTag(s, i) != s[i].replyChainType ==>
              (i > 0 && RepliesTo(s[i], s[i - 1])) || (i + 1 < |s| && RepliesTo(s[i + 1], s[i]))
  {
  }

  /**
   * An ancestor list is one unbroken chain ending at the focal status. On
   * such a chain the descendant rules agree with `markAncestors` everywhere
   * except the last position, which the descendant rules close with `End`
   * while `markAncestors` continues it into the focal status.
   */
  lemma ChainTagsAgree(s: seq<Status>)
    requires |s| >= 2 && LinkedRun(s, 0, |s| - 1)
    ensures forall i :: 0 <= i < |s| - 1 ==> DescendantTag(s, i) == AncestorTag(i)
    ensures DescendantTag(s, |s| - 1) == End && AncestorTag(|s| - 1) == Continue
  {
  }

  /** Two replies in a row: `[A replying to the root, B replying to A]`. */
  lemma TwoStatusChain(root: Id, a: Id, b: Id)
    ensures var s := [Status(a, Some(root), Null), Status(b, Some(a), Null)];
            DescendantTag(s, 0) == Start && DescendantTag(s, 1) == End
  {
  }

  /** `[A and B both replying to the root, C replying to B]`: A stays
      untagged, B starts a chain that C ends. */
  lemma IsolatedThenChain(root: Id, a: Id, b: Id, c: Id)
    requires a != root
    ensures var s := [Status(a, Some(root), Null), Status(b, Some(root), Null), Status(c, Some(b), Null)];
            DescendantTag(s, 0) == Null && DescendantTag(s, 1) == Start && DescendantTag(s, 2) == End
  {
  }
}
