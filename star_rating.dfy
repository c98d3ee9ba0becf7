/**
 * The five-star rating widget: a clicked rating, a hover preview that takes
 * precedence while it is non-zero, and the rule that fills star v exactly
 * when v is at most the displayed rating.
 */
module StarRating {
  import opened Results

  /** The values of the five star buttons. */
  const StarCount := 5

  /**
   * `currentRating`: the hover preview when non-zero, the stored rating otherwise.
   * The choice is what the source promises; `Widget.Displayed` states what it
   * means for the widget's state.
   */
  function CurrentRating(hoverRating: int, rating: int): (r: int)
    ensures hoverRating != 0 ==> r == hoverRating
    ensures hoverRating == 0 ==> r == rating
  {
    if hoverRating != 0 then hoverRating else rating
  }

  /** Star `value` is drawn filled iff it does not exceed the displayed rating. */
  predicate Filled(value: int, current: int)
  {
    value <= current
  }

  /** How many of the stars 1..n are filled for a displayed rating. */
  function FilledAmong(n: nat, current: int): (c: nat)
    ensures c <= n
  {
    if n == 0 then 0 else FilledAmong(n - 1, current) + (if Filled(n, current) then 1 else 0)
  }

  /** Among stars 1..n, exactly min(n, r) are filled for a rating r >= 0. */
  lemma {:induction false} FilledAmongIsMin(n: nat, r: int)
    requires r >= 0
    ensures FilledAmong(n, r) == if r < n then r else n
  {
    if n > 0 {
      FilledAmongIsMin(n - 1, r);
    }
  }

  /** For a displayed rating r in 0..5, exactly r of the five stars are filled. */
  lemma FilledCountIsRating(r: int)
    requires 0 <= r <= StarCount
    ensures FilledAmong(StarCount, r) == r
  {
    FilledAmongIsMin(StarCount, r);
  }

  /** The filled stars are a prefix: if star v is filled, so is every lower star. */
  lemma FilledIsPrefix(v: int, w: int, current: int)
    requires 1 <= w <= v && Filled(v, current)
    ensures Filled(w, current)
  {
  }

  /** One mounted rating widget. */
  class Widget {
    const readonly: bool
    /** Whether the parent passed `onRatingChange`. */
    const hasOnRatingChange: bool
    var rating: int
    var hoverRating: int

    /** A readonly widget never starts a hover preview. */
    ghost predicate Valid()
      reads this
    {
      readonly ==> hoverRating == 0
    }

    /** Mounting: the rating starts at the given initial rating (0 when none is passed), no hover. */
    constructor(initialRating: Option<int>, readonly: bool, hasOnRatingChange: bool)
      ensures this.readonly == readonly && this.hasOnRatingChange == hasOnRatingChange
      ensures rating == initialRating.GetOr(0) && hoverRating == 0
      ensures Valid()
    {
      this.readonly := readonly;
      this.hasOnRatingChange := hasOnRatingChange;
      rating := initialRating.GetOr(0);
      hoverRating := 0;
    }

    /** The rating the stars currently show. */
    function Displayed(): (r: int)
      reads this
      ensures hoverRating == 0 ==> r == rating
      ensures Valid() && readonly ==> r == rating
    {
      CurrentRating(hoverRating, rating)
    }

    /** Whether star `value` is drawn filled. */
    predicate StarFilled(value: int)
      reads this
    {
      Filled(value, Displayed())
    }

    /** `handleClick`: nothing on a readonly widget; otherwise store the value and report it. */
    method Click(value: int) returns (reported: Option<int>)
      requires 1 <= value <= StarCount
      requires Valid()
      modifies this
      ensures Valid()
      ensures readonly ==> rating == old(rating) && reported == None
      ensures !readonly ==> rating == value
      ensures !readonly && hasOnRatingChange ==> reported == Some(value)
      ensures !hasOnRatingChange ==> reported == None
      ensures hoverRating == old(hoverRating)
    {
      if readonly {
        return None;
      }
      rating := value;
      reported := if hasOnRatingChange then Some(value) else None;
    }

    /** Pointer entering star `value`: previews it, unless readonly. */
    method MouseEnter(value: int)
      requires 1 <= value <= StarCount
      requires Valid()
      modifies this
      ensures Valid()
      ensures readonly ==> hoverRating == old(hoverRating)
      ensures !readonly ==> hoverRating == value && Displayed() == value
      ensures rating == old(rating)
    {
      if !readonly {
        hoverRating := value;
      }
    }

    /** Pointer leaving a star: the preview ends and the stored rating shows again, unless readonly. */
    method MouseLeave()
      requires Valid()
      modifies this
      ensures Valid()
      ensures readonly ==> hoverRating == old(hoverRating)
      ensures !readonly ==> hoverRating == 0 && Displayed() == rating
      ensures rating == old(rating)
    {
      if !readonly {
        hoverRating := 0;
      }
    }
  }
}
