/**
 * The post page (BlogDetails): compact rendering of reaction counts, the
 * optimistic like/dislike counters kept beside the server's lists, and the
 * review form's gate.
 */
module BlogDetails {
  import opened Common
  import opened Models
  import opened BlockRoutes

  // ---------------------------------------------------------------------
  // formatCount

  /**
   * `formatCount`: below a thousand the number itself; then whole thousands
   * with "K"; from a million on, whole millions with "M". The digits never
   * carry a leading zero, as `String(n)` renders them.
   */
  function FormatCount(n: nat): (r: string)
    ensures n < 1000 ==> AllDigits(r) && ParseNat(r) == n && |r| >= 1 && (|r| == 1 || r[0] != '0')
    ensures 1000 <= n < 1000000 ==>
      && |r| >= 2 && r[|r| - 1] == 'K' && AllDigits(r[..|r| - 1]) && r[0] != '0'
      && var q := ParseNat(r[..|r| - 1]); 1 <= q <= 999 && q * 1000 <= n < (q + 1) * 1000
    ensures 1000000 <= n ==>
      && |r| >= 2 && r[|r| - 1] == 'M' && AllDigits(r[..|r| - 1]) && r[0] != '0'
      && var q := ParseNat(r[..|r| - 1]); 1 <= q && q * 1000000 <= n < (q + 1) * 1000000
  {
    if n >= 1000000 then
      var digits := NatToString(n / 1000000);
      ParseNatToString(n / 1000000);
      assert (digits + "M")[..|digits|] == digits;
      digits + "M"
    else if n >= 1000 then
      var digits := NatToString(n / 1000);
      ParseNatToString(n / 1000);
      assert (digits + "K")[..|digits|] == digits;
      digits + "K"
    else
      ParseNatToString(n);
      NatToString(n)
  }

  // ---------------------------------------------------------------------
  // Optimistic reactions

  /** What the page shows: both counters and the viewer's own reaction ("", "like" or "dislike"). */
  datatype View = View(likes: int, dislikes: int, reaction: string)

  function Max0(x: int): (m: nat)
    ensures m >= x && (x >= 0 ==> m == x)
  {
    if x < 0 then 0 else x
  }

  /** The reactions the page can record. */
  predicate KnownReaction(s: string) {
    s == "" || s == "like" || s == "dislike"
  }

  /** `handleLike`: a second like withdraws it; otherwise the like is counted and a dislike is withdrawn. */
  function AfterLike(v: View): (w: View)
    ensures w.reaction == if v.reaction == "like" then "" else "like"
    ensures w.likes == if v.reaction == "like" then Max0(v.likes - 1) else v.likes + 1
    ensures w.dislikes == if v.reaction == "dislike" then Max0(v.dislikes - 1) else v.dislikes
    ensures v.likes >= 0 && v.dislikes >= 0 ==> w.likes >= 0 && w.dislikes >= 0
  {
    if v.reaction == "like" then View(Max0(v.likes - 1), v.dislikes, "")
    else View(v.likes + 1, if v.reaction == "dislike" then Max0(v.dislikes - 1) else v.dislikes, "like")
  }

  /** `handleDislike`: a second dislike withdraws it; otherwise the dislike is counted and a like is withdrawn. */
  function AfterDislike(v: View): (w: View)
    ensures w.reaction == if v.reaction == "dislike" then "" else "dislike"
    ensures v.likes >= 0 && v.dislikes >= 0 ==> w.likes >= 0 && w.dislikes >= 0
  {
    if v.reaction == "dislike" then View(v.likes, Max0(v.dislikes - 1), "")
    else View(if v.reaction == "like" then Max0(v.likes - 1) else v.likes, v.dislikes + 1, "dislike")
  }

  /** The view with likes and dislikes exchanged. */
  function Swap(v: View): View {
    View(v.dislikes, v.likes, if v.reaction == "like" then "dislike" else if v.reaction == "dislike" then "like" else v.reaction)
  }

  /** Disliking is liking seen in the mirror. */
  lemma DislikeMirrorsLike(v: View)
    ensures AfterDislike(v) == Swap(AfterLike(Swap(v)))
  {
  }

  /** Every handler leaves a known reaction; liking twice from no reaction gives back the view. */
  lemma ReactionsStayKnown(v: View)
    ensures KnownReaction(AfterLike(v).reaction) && KnownReaction(AfterDislike(v).reaction)
    ensures v.reaction == "" && v.likes >= 0 ==> AfterLike(AfterLike(v)) == v
    ensures v.reaction == "" && v.dislikes >= 0 ==> AfterDislike(AfterDislike(v)) == v
  {
  }

  /** Removing every occurrence of `u` shortens a list by the number of those occurrences. */
  lemma {:induction false} WithoutLength(s: seq<ObjectId>, u: ObjectId)
    ensures |Without(s, u)| + Occurrences(s, u) == |s|
  {
    if s != [] {
      WithoutLength(s[1..], u);
      assert s == [s[0]] + s[1..];
      FilterConcat([s[0]], s[1..], NotUser(u));
    }
  }

  /** The page agrees with the server: its counters are the list lengths and its reaction is where the viewer stands. */
  ghost predicate Agrees(v: View, r: Reactions, u: ObjectId) {
    && v.likes == |r.likes| && v.dislikes == |r.dislikes|
    && v.reaction == (match StanceOf(r, u) case Liking => "like" case Disliking => "dislike" case Neutral => "")
  }

  /** The list state after one toggle (of any action) with a like or a dislike, as its counts go. */
  lemma ToggledLengths(r: Reactions, u: ObjectId, action: string)
    requires ReactionsExclusive(r.likes, r.dislikes)
    ensures var t := Toggled(r, u, action);
      && |t.likes| == |r.likes| - Occurrences(r.likes, u) + (if action == "like" && u !in r.likes then 1 else 0)
      && |t.dislikes| == |r.dislikes| - Occurrences(r.dislikes, u) + (if action == "dislike" && u !in r.dislikes then 1 else 0)
  {
    WithoutLength(r.likes, u);
    WithoutLength(r.dislikes, u);
  }

  /** When the page starts in agreement with the server, the optimistic update predicts the server's toggle exactly. */
  lemma OptimisticUpdateAgrees(v: View, r: Reactions, u: ObjectId)
    requires ReactionsExclusive(r.likes, r.dislikes) && Agrees(v, r, u)
    ensures Agrees(AfterLike(v), Toggled(r, u, "like"), u)
    ensures Agrees(AfterDislike(v), Toggled(r, u, "dislike"), u)
  {
    assert Occurrences(r.likes, u) + Occurrences(r.dislikes, u) <= 1;
    assert u in r.likes <==> Occurrences(r.likes, u) > 0;
    assert u in r.dislikes <==> Occurrences(r.dislikes, u) > 0;
    ToggledLengths(r, u, "like");
    ToggledLengths(r, u, "dislike");
    ToggleFollowsStance(r, u, "like");
    ToggleFollowsStance(r, u, "dislike");
  }

  // ---------------------------------------------------------------------
  // The page state

  class DetailsPage {
    var likes: int
    var dislikes: int
    var reaction: string
    /** The star rating: null when the rating control is cleared. */
    var rating: Option<int>
    var comment: string
    var submitting: bool

    function ViewOf(): View
      reads this
    {
      View(likes, dislikes, reaction)
    }

    /** The page after the post is loaded: the list lengths, the remembered reaction (or none), an empty review form. */
    constructor (post: Post, remembered: Option<string>)
      ensures likes == |post.likes| && dislikes == |post.dislikes|
      ensures reaction == (if Truthy(remembered) then remembered.value else "")
      ensures rating == Some(0) && comment == "" && !submitting
    {
      likes, dislikes := |post.likes|, |post.dislikes|;
      reaction := if Truthy(remembered) then remembered.value else "";
      rating, comment, submitting := Some(0), "", false;
    }

    /** `handleLike`; the server call's outcome does not change what the page shows. */
    method HandleLike()
      modifies this
      ensures ViewOf() == AfterLike(old(ViewOf()))
      ensures rating == old(rating) && comment == old(comment) && submitting == old(submitting)
    {
      if reaction == "like" {
        likes := Max0(likes - 1);
        reaction := "";
      } else {
        likes := likes + 1;
        if reaction == "dislike" {
          dislikes := Max0(dislikes - 1);
        }
        reaction := "like";
      }
    }

    /** `handleDislike`, the mirror of `HandleLike`. */
    method HandleDislike()
      modifies this
      ensures ViewOf() == AfterDislike(old(ViewOf()))
      ensures rating == old(rating) && comment == old(comment) && submitting == old(submitting)
    {
      if reaction == "dislike" {
        dislikes := Max0(dislikes - 1);
        reaction := "";
      } else {
        dislikes := dislikes + 1;
        if reaction == "like" {
          likes := Max0(likes - 1);
        }
        reaction := "dislike";
      }
    }

    /**
     * `handleCommentSubmit`, reached only through the enabled button. The
     * store's `hendleReview` catches every failure, so the form is cleared
     * whatever the server answers. Answers the review that was sent.
     */
    method SubmitReview() returns (sentRating: Option<int>, sentComment: string)
      requires !SubmitDisabled(submitting, comment, rating)
      modifies this
      ensures sentRating == old(rating) && sentComment == old(comment)
      ensures comment == "" && rating == Some(0) && !submitting
      ensures ViewOf() == old(ViewOf())
    {
      submitting := true;
      sentRating, sentComment := rating, comment;
      comment := "";
      rating := Some(0);
      submitting := false;
    }
  }

  /** `disabled={submitLoading || (!comment.trim() && rating === 0)}` */
  predicate SubmitDisabled(submitting: bool, comment: string, rating: Option<int>) {
    submitting || (IsBlank(comment) && rating == Some(0))
  }

  /** The button is enabled exactly when nothing is in flight and there is some text or a rating other than 0 (a cleared rating counts). */
  lemma SubmitEnabledIff(submitting: bool, comment: string, rating: Option<int>)
    ensures !SubmitDisabled(submitting, comment, rating) <==>
      !submitting && ((exists i :: 0 <= i < |comment| && !IsJsWhitespace(comment[i])) || rating != Some(0))
  {
  }
}
