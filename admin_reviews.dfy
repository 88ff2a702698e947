/** `client/src/pages/admin/AdminReviews.tsx`: the review search and approval filter,
    approving and deleting a review in the local list. */
module AdminReviews {
  import opened Types
  import opened Seqs
  import opened Text

  /** Search on title, comment or reviewer name, ignoring case; "" matches all. */
  predicate MatchesSearch(r: Review, searchTerm: string) {
    searchTerm == ""
    || MatchesIgnoringCase(r.title, searchTerm)
    || MatchesIgnoringCase(r.comment, searchTerm)
    || MatchesIgnoringCase(r.userName, searchTerm)
  }

  /** "approved" and "pending" narrow by approval; any other value ("all") does not. */
  predicate ReviewMatches(r: Review, searchTerm: string, filterApproved: string) {
    if filterApproved == "approved" then MatchesSearch(r, searchTerm) && r.isApproved
    else if filterApproved == "pending" then MatchesSearch(r, searchTerm) && !r.isApproved
    else MatchesSearch(r, searchTerm)
  }

  function MatcherOf(searchTerm: string, filterApproved: string): Review -> bool {
    (r: Review) => ReviewMatches(r, searchTerm, filterApproved)
  }

  /** `filteredReviews`: exactly the matching reviews, in their order. */
  function FilteredReviews(reviews: seq<Review>, searchTerm: string, filterApproved: string): (r: seq<Review>)
    ensures forall x :: x in r <==> x in reviews && ReviewMatches(x, searchTerm, filterApproved)
  {
    Filter(reviews, MatcherOf(searchTerm, filterApproved))
  }

  /** An empty search with "all" shows every review, and the filter keeps their order. */
  lemma AllShownByDefault(reviews: seq<Review>, searchTerm: string, filterApproved: string)
    ensures FilteredReviews(reviews, "", "all") == reviews
    ensures IsSubsequence(FilteredReviews(reviews, searchTerm, filterApproved), reviews)
  {
    FilterKeepsAll(reviews, MatcherOf("", "all"));
    FilterIsSubsequence(reviews, MatcherOf(searchTerm, filterApproved));
  }

  /** Every review found by a search is either approved or pending, never both. */
  lemma ApprovedPendingPartition(x: Review, searchTerm: string)
    ensures ReviewMatches(x, searchTerm, "all")
            <==> (ReviewMatches(x, searchTerm, "approved") || ReviewMatches(x, searchTerm, "pending"))
    ensures !(ReviewMatches(x, searchTerm, "approved") && ReviewMatches(x, searchTerm, "pending"))
  {
  }

  /** `handleApprove`'s update: the review with that id takes the server's `isApproved`. */
  function Approve(reviews: seq<Review>, id: string, approved: bool): (r: seq<Review>)
    ensures |r| == |reviews|
    ensures forall i :: 0 <= i < |r| && reviews[i].id == id ==> r[i].isApproved == approved
    ensures forall i :: 0 <= i < |r| ==> r[i].(isApproved := reviews[i].isApproved) == reviews[i]
    ensures forall i :: 0 <= i < |r| && reviews[i].id != id ==> r[i] == reviews[i]
  {
    seq(|reviews|, i requires 0 <= i < |reviews| =>
      if reviews[i].id == id then reviews[i].(isApproved := approved) else reviews[i])
  }

  /** The approve action is offered only for reviews not yet approved. */
  predicate ApproveOffered(r: Review) {
    !r.isApproved
  }

  /** Once the server approves it, the review drops out of "pending" and loses its approve
      button, and the search still finds it. */
  lemma ApprovedLeavesPending(reviews: seq<Review>, id: string, searchTerm: string, i: nat)
    requires i < |reviews| && reviews[i].id == id
    ensures var r := Approve(reviews, id, true);
            !ApproveOffered(r[i]) && !ReviewMatches(r[i], searchTerm, "pending")
            && MatchesSearch(r[i], searchTerm) == MatchesSearch(reviews[i], searchTerm)
  {
  }

  /** The key of `reviews.filter((review) => review._id !== id)`. */
  function ReviewId(r: Review): string {
    r.id
  }

  /** `handleDelete`: after confirmation and a successful call the review leaves the list. */
  function AfterDelete(reviews: seq<Review>, id: string, confirmed: bool, apiOk: bool): (r: seq<Review>)
    ensures confirmed && apiOk ==> forall x :: x in r <==> x in reviews && x.id != id
    ensures !(confirmed && apiOk) ==> r == reviews
  {
    if confirmed && apiOk then WithoutKey(reviews, ReviewId, id) else reviews
  }
}
