/**
 * The testimonials section: the review form's validator, the star rows drawn
 * for a stored testimonial and for the rating picker, and the review dialog.
 */
module TestimonialsSection {
  import opened Wrappers
  import opened Schema

  /** The review form's values; the form's rating is any number, as its schema says. */
  datatype ReviewForm = ReviewForm(name: string, company: string, rating: real, comment: string)

  const DefaultReview := ReviewForm("", "", 5.0, "")

  // ---------- reviewFormSchema ----------

  /** What the schema demands: two-character name and company, a rating in 1..5, a ten-character comment. */
  predicate ReviewValid(f: ReviewForm) {
    |f.name| >= 2 && |f.company| >= 2 && 1.0 <= f.rating <= 5.0 && |f.comment| >= 10
  }

  /** The fields the schema reports, in declaration order. */
  function ReviewIssues(f: ReviewForm): seq<string> {
    (if |f.name| < 2 then ["name"] else [])
    + (if |f.company| < 2 then ["company"] else [])
    + (if f.rating < 1.0 || f.rating > 5.0 then ["rating"] else [])
    + (if |f.comment| < 10 then ["comment"] else [])
  }

  /** The schema reports nothing exactly when the form is valid, and it names each failing field. */
  lemma ReviewIssuesIffInvalid(f: ReviewForm)
    ensures ReviewIssues(f) == [] <==> ReviewValid(f)
    ensures ("name" in ReviewIssues(f) <==> |f.name| < 2) && ("company" in ReviewIssues(f) <==> |f.company| < 2)
    ensures "comment" in ReviewIssues(f) <==> |f.comment| < 10
    ensures "rating" in ReviewIssues(f) <==> !(1.0 <= f.rating <= 5.0)
  {
  }

  /** The empty form is refused for its name, company and comment; its rating of 5 is fine. */
  lemma DefaultReviewInvalid()
    ensures !ReviewValid(DefaultReview)
    ensures ReviewIssues(DefaultReview) == ["name", "company", "comment"]
  {
  }

  /** The body posted for a review. */
  function ReviewBody(f: ReviewForm): Json {
    JObj(map["name" := JStr(f.name), "company" := JStr(f.company), "rating" := JNum(f.rating),
      "comment" := JStr(f.comment)])
  }

  /** `form.handleSubmit(onSubmit)`: the body is posted only when the validator passes. */
  function Submission(f: ReviewForm): (posted: Option<Json>)
    ensures posted.Some? <==> ReviewValid(f)
    ensures posted.Some? ==> posted.value == ReviewBody(f)
  {
    if ReviewValid(f) then Some(ReviewBody(f)) else None
  }

  /** A valid review with a whole rating is accepted by the server's schema as the same record. */
  lemma ValidReviewAccepted(f: ReviewForm)
    requires ReviewValid(f) && IsInteger(f.rating)
    ensures ParseTestimonial(ReviewBody(f)) == Ok(InsertTestimonial(f.name, f.company, f.rating.Floor, f.comment))
  {
    var t := InsertTestimonial(f.name, f.company, f.rating.Floor, f.comment);
    assert ReviewBody(f) == TestimonialToJson(t);
  }

  /** The 1..5 bound lives only in the client: the server stores a rating of 7 that the form refuses. */
  lemma RatingBoundOnlyInClient()
    ensures var f := ReviewForm("Ann", "Acme", 7.0, "Fast and reliable");
      && !ReviewValid(f)
      && ParseTestimonial(ReviewBody(f)) == Ok(InsertTestimonial("Ann", "Acme", 7, "Fast and reliable"))
  {
    var f := ReviewForm("Ann", "Acme", 7.0, "Fast and reliable");
    var t := InsertTestimonial("Ann", "Acme", 7, "Fast and reliable");
    assert ReviewBody(f) == TestimonialToJson(t);
  }

  // ---------- stars ----------

  const StarCount := 5

  /** `renderStars(rating)`: five stars, star `i` (from 0) filled when `i < rating`. */
  function RenderStars(rating: int): (stars: seq<bool>)
    ensures |stars| == StarCount
  {
    seq(StarCount, i => i < rating)
  }

  /** The rating picker: star `r` (from 1) filled when `r <= value`. */
  function PickerStars(value: real): (stars: seq<bool>)
    ensures |stars| == StarCount
  {
    seq(StarCount, i => (i + 1) as real <= value)
  }

  function CountFilled(stars: seq<bool>): (n: nat)
    ensures n <= |stars|
  {
    if stars == [] then 0 else CountFilled(stars[..|stars| - 1]) + (if stars[|stars| - 1] then 1 else 0)
  }

  function Clamp(x: int, lo: int, hi: int): int
    requires lo <= hi
  {
    if x < lo then lo else if x > hi then hi else x
  }

  /** A row in which exactly the stars before position `r` are filled shows `r` stars, capped to the row. */
  lemma {:induction false} CountFilledPrefix(stars: seq<bool>, r: int)
    requires forall i :: 0 <= i < |stars| ==> stars[i] == (i < r)
    ensures CountFilled(stars) == Clamp(r, 0, |stars|)
  {
    if stars != [] {
      var init := stars[..|stars| - 1];
      assert forall i :: 0 <= i < |init| ==> init[i] == stars[i];
      CountFilledPrefix(init, r);
    }
  }

  /** A testimonial's row fills the first `rating` stars: `min(max(rating, 0), 5)` of them, never a gap. */
  lemma RenderStarsFilled(rating: int)
    ensures CountFilled(RenderStars(rating)) == Clamp(rating, 0, StarCount)
    ensures forall i, j :: 0 <= i <= j < StarCount && RenderStars(rating)[j] ==> RenderStars(rating)[i]
  {
    CountFilledPrefix(RenderStars(rating), rating);
  }

  /** Clicking star `r` of the picker sets a rating the schema accepts, and the picker then shows `r` stars. */
  lemma PickStar(f: ReviewForm, r: int)
    requires 1 <= r <= StarCount
    ensures 1.0 <= f.(rating := r as real).rating <= 5.0
    ensures ReviewValid(f.(rating := r as real)) <==> |f.name| >= 2 && |f.company| >= 2 && |f.comment| >= 10
    ensures CountFilled(PickerStars(r as real)) == r
  {
    PickerMatchesRow(r);
    RenderStarsFilled(r);
  }

  /** For a whole rating the picker and a testimonial's row light the same stars. */
  lemma PickerMatchesRow(rating: int)
    ensures PickerStars(rating as real) == RenderStars(rating)
  {
    assert forall i :: 0 <= i < StarCount ==> PickerStars(rating as real)[i] == RenderStars(rating)[i];
  }

  // ---------- the review dialog ----------

  class ReviewDialog {
    var isReviewOpen: bool
    var form: ReviewForm

    constructor()
      ensures !isReviewOpen && form == DefaultReview
    {
      isReviewOpen := false;
      form := DefaultReview;
    }

    /** `onOpenChange`: the dialog's trigger and close button set the flag; the form keeps its values. */
    method SetOpen(open: bool)
      modifies this
      ensures isReviewOpen == open && form == old(form)
    {
      isReviewOpen := open;
    }

    /** An edit of the form's fields while the dialog is open. */
    method Edit(values: ReviewForm)
      modifies this
      ensures form == values && isReviewOpen == old(isReviewOpen)
    {
      form := values;
    }

    /** `onSuccess`: the dialog closes and the form is back to its defaults. */
    method SubmitSucceeded()
      modifies this
      ensures !isReviewOpen && form == DefaultReview
    {
      isReviewOpen := false;
      form := DefaultReview;
    }
  }
}
