/** `MyPage.tsx`: the user's own page, listing their posts; a post can be
    deleted, and each post shows how long ago it was made. */
module MyPage {
  import opened Wrappers
  import opened Text
  import opened PostModel

  /** The posts without the ones whose id is `postId`, in their order. */
  function WithoutPost(posts: seq<Post>, postId: string): (r: seq<Post>)
    ensures forall p :: p in r <==> p in posts && p.id != Some(postId)
    ensures |r| + CountWithId(posts, postId) == |posts|
  {
    if posts == [] then []
    else if posts[0].id == Some(postId) then WithoutPost(posts[1..], postId)
    else [posts[0]] + WithoutPost(posts[1..], postId)
  }

  /** How many posts have id `postId`. */
  function CountWithId(posts: seq<Post>, postId: string): nat {
    if posts == [] then 0
    else (if posts[0].id == Some(postId) then 1 else 0) + CountWithId(posts[1..], postId)
  }

  /** Filtering a concatenation filters each part: the kept posts stay in
      their original order. */
  lemma {:induction false} WithoutPostKeepsOrder(a: seq<Post>, b: seq<Post>, postId: string)
    ensures WithoutPost(a + b, postId) == WithoutPost(a, postId) + WithoutPost(b, postId)
  {
    if a == [] {
      assert a + b == b;
    } else {
      assert (a + b)[0] == a[0];
      assert (a + b)[1..] == a[1..] + b;
      WithoutPostKeepsOrder(a[1..], b, postId);
      if a[0].id != Some(postId) {
        assert [a[0]] + (WithoutPost(a[1..], postId) + WithoutPost(b, postId))
            == ([a[0]] + WithoutPost(a[1..], postId)) + WithoutPost(b, postId);
      }
    }
  }

  /** A list with no post of that id is left as it is. */
  lemma {:induction false} WithoutAbsentPost(posts: seq<Post>, postId: string)
    requires forall k :: 0 <= k < |posts| ==> posts[k].id != Some(postId)
    ensures WithoutPost(posts, postId) == posts
  {
    if posts != [] {
      WithoutAbsentPost(posts[1..], postId);
    }
  }

  /** Deleting twice is deleting once. */
  lemma DeleteIdempotent(posts: seq<Post>, postId: string)
    ensures WithoutPost(WithoutPost(posts, postId), postId) == WithoutPost(posts, postId)
  {
    var r := WithoutPost(posts, postId);
    assert forall k :: 0 <= k < |r| ==> r[k] in r;
    WithoutAbsentPost(r, postId);
  }

  class MyPageState {
    var posts: seq<Post>

    constructor (posts: seq<Post>)
      ensures this.posts == posts
    {
      this.posts := posts;
    }

    /** `onDelete(postId)`: nothing happens without an id or without the
        user's confirmation; otherwise `postService.remove` is called and,
        when it succeeds (`removeSucceeded`), every post with that id leaves
        the list. A failed remove throws before the list changes. Returns
        whether remove was called. */
    method OnDelete(postId: Option<string>, confirmed: bool, removeSucceeded: bool) returns (removeCalled: bool)
      modifies this`posts
      ensures removeCalled <==> postId.Some? && postId.value != "" && confirmed
      ensures removeCalled && removeSucceeded ==> posts == WithoutPost(old(posts), postId.value)
      ensures !(removeCalled && removeSucceeded) ==> posts == old(posts)
    {
      if postId.None? || postId.value == "" {
        return false;
      }
      if !confirmed {
        return false;
      }
      removeCalled := true;
      if removeSucceeded {
        posts := WithoutPost(posts, postId.value);
      }
    }
  }

  // ----- timeAgo -----

  const MS_PER_HOUR := 1000 * 60 * 60

  /** `Math.floor(diff / (1000 * 60 * 60))`: the whole hours in `diff`
      milliseconds, rounded down also for a negative `diff`. */
  function HoursIn(diff: int): (h: int)
    ensures h * MS_PER_HOUR <= diff < (h + 1) * MS_PER_HOUR
  {
    diff / MS_PER_HOUR
  }

  /** `timeAgo(iso)`, with `elapsed` the milliseconds from the timestamp to
      now: "" without a timestamp, whole hours below a day, whole days from a
      day on. */
  function TimeAgo(iso: Option<string>, elapsed: int): (text: string)
    ensures iso.None? || iso.value == "" ==> text == ""
    ensures iso.Some? && iso.value != "" && HoursIn(elapsed) < 24 ==>
              text == IntToString(HoursIn(elapsed)) + " hours ago"
    ensures iso.Some? && iso.value != "" && HoursIn(elapsed) >= 24 ==>
              exists d: nat :: d >= 1 && d * 24 <= HoursIn(elapsed) < (d + 1) * 24 &&
                               text == NatToString(d) + " days ago"
  {
    if iso.None? || iso.value == "" then ""
    else
      var h := HoursIn(elapsed);
      if h < 24 then IntToString(h) + " hours ago"
      else
        var d := h / 24;
        assert d * 24 <= h < (d + 1) * 24;
        NatToString(d) + " days ago"
  }

  /** Below a day, elapsed times in different hours print differently. */
  lemma HoursReadDistinctly(e1: int, e2: int)
    requires 0 <= HoursIn(e1) < 24 && 0 <= HoursIn(e2) < 24 && HoursIn(e1) != HoursIn(e2)
    ensures TimeAgo(Some("t"), e1) != TimeAgo(Some("t"), e2)
  {
    var s1 := NatToString(HoursIn(e1));
    var s2 := NatToString(HoursIn(e2));
    if s1 + " hours ago" == s2 + " hours ago" {
      assert |s1| == |s2|;
      assert s1 == (s1 + " hours ago")[..|s1|];
      assert s2 == (s2 + " hours ago")[..|s2|];
      NatToStringInjective(HoursIn(e1), HoursIn(e2));
    }
  }
}
