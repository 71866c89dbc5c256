/** The reviews table (components/ReviewsDashboard.tsx): paged loading and the rating badge. */
module ReviewsPage {
  import opened Common
  import opened Entities
  import Paging

  datatype ReviewsQuery = ReviewsQuery(userId: int, skip: int, limit: int, customerId: Option<int>)

  datatype Colour = Danger | Warning | Success

  /** The rating badge colour: red below 3, yellow from 3 up to 4, green from 4. */
  function RatingColour(rating: real): (c: Colour)
    ensures c == Danger <==> rating < 3.0
    ensures c == Warning <==> 3.0 <= rating < 4.0
    ensures c == Success <==> 4.0 <= rating
  {
    if rating < 3.0 then Danger
    else if rating < 4.0 then Warning
    else Success
  }

  /** The rating column sorts by `a.rating - b.rating`. */
  function RatingCompare(a: Review, b: Review): (c: real)
    ensures c < 0.0 <==> a.rating < b.rating
    ensures c == 0.0 <==> a.rating == b.rating
    ensures c > 0.0 <==> a.rating > b.rating
  {
    a.rating - b.rating
  }

  class ReviewsDashboard {
    const userId: int
    const customerId: Option<int>
    var reviews: seq<Review>
    var loading: bool
    var currentPage: int

    ghost predicate Valid()
      reads this
    {
      currentPage >= 1
    }

    constructor (userId: int, customerId: Option<int>)
      ensures Valid()
      ensures this.userId == userId && this.customerId == customerId
      ensures reviews == [] && loading && currentPage == 1
    {
      this.userId, this.customerId := userId, customerId;
      reviews, loading, currentPage := [], true, 1;
    }

    function Request(): (q: ReviewsQuery)
      reads this
      requires Valid()
      ensures q.userId == userId && q.customerId == customerId
      ensures q.skip == Paging.Offset(currentPage) >= 0 && q.limit == Paging.PageSize
    {
      ReviewsQuery(userId, Paging.Offset(currentPage), Paging.PageSize, customerId)
    }

    /** The fetch effect, run when the user or page changes: nothing for a falsy user id;
        otherwise one request whose rows replace the list on page 1 and are appended later, and
        whose failure leaves the list alone; the spinner goes off either way. */
    method FetchReviews(response: Outcome<seq<Review>>) returns (issued: Option<ReviewsQuery>)
      requires Valid()
      modifies this`reviews, this`loading
      ensures userId == 0 ==> issued == None && reviews == old(reviews) && loading == old(loading)
      ensures userId != 0 ==> issued == Some(Request()) && !loading
      ensures userId != 0 && response.Resolved? ==> reviews == Paging.Merge(currentPage, old(reviews), response.value)
      ensures userId != 0 && response.Rejected? ==> reviews == old(reviews)
    {
      issued := None;
      if userId != 0 {
        issued := Some(Request());
        if response.Resolved? {
          reviews := Paging.Merge(currentPage, reviews, response.value);
        }
        loading := false;
      }
    }

    method LoadNextPage()
      requires Valid()
      modifies this`currentPage
      ensures Valid() && currentPage == old(currentPage) + 1
    {
      currentPage := currentPage + 1;
    }
  }
}
