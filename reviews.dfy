/**
 * The review section of a product page: the reviews left for one product,
 * kept in component state and mirrored to `localStorage` under
 * `product_reviews_<productId>`. Submitting needs a signed-in user;
 * deleting is allowed only to the review's author.
 */
module Reviews {
  import opened Prelude
  import opened LocalStorage

  datatype UserReview = UserReview(
    stars: int,
    feedback: string,
    timestamp: string,
    userId: string,
    username: string,
    email: string)

  /** The signed-in user as the authentication service reports it; a missing name or email is `None`. */
  datatype CurrentUser = CurrentUser(uid: string, displayName: Option<string>, email: Option<string>)

  /** The key holding a product's reviews. */
  function ReviewsKey(productId: string): string
  {
    "product_reviews_" + productId
  }

  /** `value || fallback` for an optional string: a missing or empty string gives the fallback. */
  function OrElse(value: Option<string>, fallback: string): (r: string)
    ensures r == fallback || (value.Some? && r == value.value && r != "")
    ensures value.Some? && value.value != "" ==> r == value.value
  {
    if value.Some? && value.value != "" then value.value else fallback
  }

  /** The review `submitReview` builds from the form and the signed-in user. */
  function NewReview(user: CurrentUser, stars: int, feedback: string, timestamp: string): (r: UserReview)
    ensures r.stars == stars && r.feedback == feedback && r.timestamp == timestamp && r.userId == user.uid
    ensures r.username != "" && r.email != ""
    ensures r.username == OrElse(user.displayName, "Anonymous") && r.email == OrElse(user.email, "No email")
  {
    UserReview(stars, feedback, timestamp, user.uid, OrElse(user.displayName, "Anonymous"), OrElse(user.email, "No email"))
  }

  /** `reviews.filter((_, i) => i !== index)`. */
  function RemoveAt(reviews: seq<UserReview>, index: int): (r: seq<UserReview>)
    ensures !(0 <= index < |reviews|) ==> r == reviews
    ensures 0 <= index < |reviews| ==> |r| == |reviews| - 1
    ensures 0 <= index < |reviews| ==> forall i :: 0 <= i < index ==> r[i] == reviews[i]
    ensures 0 <= index < |reviews| ==> forall i :: index < i < |reviews| ==> r[i - 1] == reviews[i]
  {
    if reviews == [] then []
    else if index == 0 then RemoveAt(reviews[1..], index - 1)
    else [reviews[0]] + RemoveAt(reviews[1..], index - 1)
  }

  /** Deleting the review just appended gives back the list from before. */
  lemma RemoveAppended(reviews: seq<UserReview>, review: UserReview)
    ensures RemoveAt(reviews + [review], |reviews|) == reviews
  {
  }

  /** Removing the review at an index in range is cutting the list around it. */
  lemma {:induction false} RemoveAtSplits(reviews: seq<UserReview>, index: int)
    requires 0 <= index < |reviews|
    ensures RemoveAt(reviews, index) == reviews[..index] + reviews[index + 1..]
  {
    if index > 0 {
      var front := reviews[1..];
      RemoveAtSplits(front, index - 1);
      assert front[..index - 1] == reviews[1..index] && front[index..] == reviews[index + 1..];
      assert reviews[..index] == [reviews[0]] + reviews[1..index];
    }
  }

  /** Cutting one element out of a list and putting it back gives the same multiset. */
  lemma MultisetAround<T>(s: seq<T>, i: int)
    requires 0 <= i < |s|
    ensures multiset(s[..i] + s[i + 1..]) + multiset{s[i]} == multiset(s)
  {
    assert s == s[..i] + [s[i]] + s[i + 1..];
  }

  /** A delete drops exactly the one review at `index`: what remains, plus that review, is the old list as a multiset. */
  lemma RemoveAtKeepsOthers(reviews: seq<UserReview>, index: int)
    requires 0 <= index < |reviews|
    ensures multiset(RemoveAt(reviews, index)) + multiset{reviews[index]} == multiset(reviews)
  {
    RemoveAtSplits(reviews, index);
    MultisetAround(reviews, index);
  }


  /**
   * The component's state: the product shown, the form fields, the
   * reviews on screen, the signed-in user and the browser store.
   */
  class ReviewSection {
    const productId: string
    var selectedStars: int
    var feedback: string
    var userReviews: seq<UserReview>
    var currentUser: Option<CurrentUser>
    var storage: Store<UserReview>

    /** Mounting: an empty form, and the stored reviews if the key exists. */
    constructor (productId: string, currentUser: Option<CurrentUser>, storage: Store<UserReview>)
      ensures this.productId == productId && this.currentUser == currentUser && this.storage == storage
      ensures selectedStars == 0 && feedback == ""
      ensures userReviews == GetOrEmpty(storage, ReviewsKey(productId))
    {
      this.productId := productId;
      this.currentUser := currentUser;
      this.storage := storage;
      selectedStars := 0;
      feedback := "";
      var savedReviews := GetItem(storage, ReviewsKey(productId));
      userReviews := [];
      if savedReviews.Some? {
        userReviews := savedReviews.value;
      }
    }

    /** `handleStarClick(stars)`: no range check. */
    method HandleStarClick(stars: int)
      modifies this`selectedStars
      ensures selectedStars == stars
    {
      selectedStars := stars;
    }

    /** Typing in the feedback box. */
    method SetFeedback(text: string)
      modifies this`feedback
      ensures feedback == text
    {
      feedback := text;
    }

    /**
     * `submitReview`, with the clock reading passed in. Without a user the
     * review is refused (`ok` is false) and nothing changes.
     */
    method SubmitReview(timestamp: string) returns (ok: bool)
      modifies this
      ensures currentUser == old(currentUser)
      ensures ok <==> currentUser.Some?
      ensures !ok ==> userReviews == old(userReviews) && storage == old(storage)
                      && selectedStars == old(selectedStars) && feedback == old(feedback)
      ensures ok ==> userReviews == old(userReviews)
                       + [NewReview(currentUser.value, old(selectedStars), old(feedback), timestamp)]
      ensures ok ==> storage == SetItem(old(storage), ReviewsKey(productId), userReviews)
      ensures ok ==> selectedStars == 0 && feedback == ""
    {
      if currentUser.None? {
        return false;
      }
      var newReview := NewReview(currentUser.value, selectedStars, feedback, timestamp);
      var updatedReviews := userReviews + [newReview];
      userReviews := updatedReviews;
      storage := SetItem(storage, ReviewsKey(productId), updatedReviews);
      selectedStars := 0;
      feedback := "";
      ok := true;
    }

    /**
     * `deleteReview(index)`. The source reads `userReviews[index].userId`
     * first, which throws for an index out of range. Anyone but the
     * author is refused (`ok` is false) and nothing changes.
     */
    method DeleteReview(index: int) returns (ok: bool)
      requires 0 <= index < |userReviews|
      modifies this
      ensures currentUser == old(currentUser)
      ensures ok <==> currentUser.Some? && old(userReviews)[index].userId == currentUser.value.uid
      ensures !ok ==> userReviews == old(userReviews) && storage == old(storage)
      ensures ok ==> userReviews == RemoveAt(old(userReviews), index)
      ensures ok ==> storage == SetItem(old(storage), ReviewsKey(productId), userReviews)
      ensures selectedStars == old(selectedStars) && feedback == old(feedback)
    {
      var review := userReviews[index];
      if currentUser.None? || review.userId != currentUser.value.uid {
        return false;
      }
      var updatedReviews := RemoveAt(userReviews, index);
      userReviews := updatedReviews;
      storage := SetItem(storage, ReviewsKey(productId), updatedReviews);
      ok := true;
    }
  }
}
