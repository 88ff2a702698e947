/** `client/src/components/Rating.tsx`: five stars filled from a rating value, and an
    optional caption. */
module Rating {
  import opened Wrappers
  import opened Types

  datatype Star = Filled | Empty

  /** The class chosen for star `r` (1..5): filled when the value reaches it, filled when
      it reaches half of it, empty otherwise. */
  function StarFor(value: real, r: int): Star {
    if value >= r as real then Filled
    else if value >= r as real - 0.5 then Filled
    else Empty
  }

  /** `[1, 2, 3, 4, 5].map(...)`. */
  function Stars(value: real): (r: seq<Star>)
    ensures |r| == 5
    ensures forall i :: 0 <= i < 5 ==> r[i] == StarFor(value, i + 1)
  {
    seq(5, i requires 0 <= i < 5 => StarFor(value, i + 1))
  }

  /** Star `r` is filled exactly when the value is at least `r - 1/2`. */
  lemma FilledIffHalfReached(value: real, r: int)
    ensures StarFor(value, r) == Filled <==> value >= r as real - 0.5
  {
  }

  /** The filled stars come first: a filled star has only filled stars before it. */
  lemma FillingIsMonotone(value: real, i: int, j: int)
    requires 0 <= i <= j < 5
    ensures Stars(value)[j] == Filled ==> Stars(value)[i] == Filled
  {
  }

  /** The number of filled stars. */
  function FilledCount(stars: seq<Star>): (n: nat)
    ensures n <= |stars|
  {
    if stars == [] then 0 else (if stars[0] == Filled then 1 else 0) + FilledCount(stars[1..])
  }

  /** 4.5 and above fills all five stars; below 0.5 none. */
  lemma Extremes(value: real)
    ensures value >= 4.5 ==> FilledCount(Stars(value)) == 5
    ensures value < 0.5 ==> FilledCount(Stars(value)) == 0
  {
    if value >= 4.5 {
      AllFilled(Stars(value));
    }
    if value < 0.5 {
      NoneFilled(Stars(value));
    }
  }

  lemma {:induction false} AllFilled(stars: seq<Star>)
    requires forall i :: 0 <= i < |stars| ==> stars[i] == Filled
    ensures FilledCount(stars) == |stars|
  {
    if stars != [] {
      AllFilled(stars[1..]);
    }
  }

  lemma {:induction false} NoneFilled(stars: seq<Star>)
    requires forall i :: 0 <= i < |stars| ==> stars[i] == Empty
    ensures FilledCount(stars) == 0
  {
    if stars != [] {
      NoneFilled(stars[1..]);
    }
  }

  /** Filled stars followed by empty ones: the count is the length of the filled run. */
  lemma {:induction false} FilledRun(stars: seq<Star>, k: nat)
    requires k <= |stars|
    requires forall i :: 0 <= i < k ==> stars[i] == Filled
    requires forall i :: k <= i < |stars| ==> stars[i] == Empty
    ensures FilledCount(stars) == k
  {
    if stars != [] {
      if k == 0 {
        NoneFilled(stars);
      } else {
        FilledRun(stars[1..], k - 1);
      }
    }
  }

  /** The number of filled stars is the value rounded half up, kept within 0..5: star
      `i + 1` is filled exactly when `value >= i + 1/2`. */
  lemma FilledCountIsRounded(value: real)
    ensures FilledCount(Stars(value)) ==
              if value < 0.5 then 0 else if value >= 4.5 then 5 else (value + 0.5).Floor
  {
    if value < 0.5 || value >= 4.5 {
      Extremes(value);
    } else {
      var k := (value + 0.5).Floor;
      assert 1 <= k <= 4;
      var stars := Stars(value);
      forall i | 0 <= i < 5
        ensures stars[i] == Filled <==> i < k
      {
        FilledIffHalfReached(value, i + 1);
      }
      FilledRun(stars, k);
    }
  }

  /** `{text && <span>{text}</span>}`: the caption appears only for a non-empty text. */
  function Caption(text: Option<string>): (r: Option<string>)
    ensures r.Some? <==> TruthyText(text)
    ensures r.Some? ==> r == text
  {
    if TruthyText(text) then text else None
  }
}
