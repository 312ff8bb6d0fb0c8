# wrangle: the Bayesian book rating

The `wrangle` package keeps Goodreads users, books, authors and reviews in a
relational schema. Its one piece of behaviour is `Book.average_rating`, which
turns the integer ratings on a book's reviews into a smoothed (Bayesian
average) score:

- `stars` is the sum of every review's rating, zero and negative ones included;
- `rates` is the number of reviews rated strictly above 0;
- when `rates < 1` the method returns `rates` itself, the integer 0;
- otherwise it returns `(C * m + stars) / (C + rates)` as a float, with the
  confidence weight `C` defaulting to 5 and the prior mean `m` to 3.

The second, smaller piece is `User.get_profile_url`, which appends the user's
id, formatted with `"%i"`, to the fixed Goodreads profile prefix.

The model has three modules:

- `Ratings` (`ratings.dfy`): `Stars`, `Positives` (the list comprehension),
  `Rates`, `Smooth` (the branch and the formula on `stars` and `rates`),
  `AverageRatingOf` (the whole method) and `DefaultAverageRating`, with
  lemmas on order independence, the degenerate branch, the formula, the
  weighted-average bounds and how one more review moves the score. The result
  is a datatype: `Degenerate(rates)` for the integer fallback,
  `Smoothed(score)` for the float, and `ZeroDivisionError` for the one input
  on which the division raises (a caller-chosen `C` equal to `-rates`).
- `Profiles` (`profiles.dfy`): `"%i"` formatting (`IntToDecimal`) with its
  parser partner `ParseDecimal`, and `ProfileUrl` with `IdFromProfileUrl`.
  A user whose id is still `None` (not yet flushed) makes `"%i" % None` raise
  `TypeError`, modelled as `Failure(TypeError)`.
- `Wrappers` (`wrappers.dfy`): `Option` and `Result`.

Arithmetic is exact: Python's unbounded integers are `int` and the float
division is `real` division.

The score is not, in general, strictly between the prior `m` and the top of
the scale: ratings that all equal `m` give exactly `m`, and ratings below `m`
give a score below `m`. `WithinRatingScale` states what the code does
guarantee: for a book with at least one review, on a scale `[lo, hi]` with
`lo > 0` and `m` on it, the score stays
on the scale, and strictly below `hi` while `C > 0` and `m < hi`.

## Model

| member | source | states |
|---|---|---|
| `Ratings.Stars` | wrangle/models.py:75 | `stars` sums every rating, zero and negative ones included: ratings all non-negative give a non-negative sum, ratings all non-positive a non-positive one (its other properties: `StarsAppend`, `StarsPermutation`, `StarsBounds`, `AppendReview`) |
| `Ratings.Positives` | wrangle/models.py:76 | the comprehension keeps exactly the strictly positive ratings: each kept one is positive and every positive value occurs as often as in the reviews |
| `Ratings.Rates` | wrangle/models.py:76 | `rates` is a count between 0 and the number of reviews |
| `Ratings.Smooth` | wrangle/models.py:77-78 | the fallback is taken exactly when `rates < 1` and returns `rates`; division raises exactly when `C + rates == 0`; otherwise the score solves `score * (C + rates) == C * m + stars` |
| `Ratings.AverageRatingOf` | wrangle/models.py:68-78 | the result is the integer fallback exactly when no rating is above 0, and that fallback is 0; division by zero needs a negative `C` equal to `-rates` |
| `Ratings.DefaultAverageRating` | wrangle/models.py:68 | with the defaults `C = 5`, `m = 3` the method never divides by zero |
| `Ratings.NoPositiveRatingIff` | wrangle/models.py:76-77 | `rates == 0` if and only if no rating is strictly positive |
| `Ratings.AllPositiveRatesAll` | wrangle/models.py:76 | when every rating is positive, the comprehension keeps them all and `rates` is the number of reviews |
| `Ratings.StarsAppend` | wrangle/models.py:75 | `stars` of two groups of reviews is the sum of their `stars` |
| `Ratings.PositivesAppend` | wrangle/models.py:76 | filtering two groups of reviews is filtering each and concatenating |
| `Ratings.AppendReview` | wrangle/models.py:75-76 | one more review adds its rating to `stars` whatever its sign, and adds 1 to `rates` only when it is positive |
| `Ratings.StarsPermutation` | wrangle/models.py:75 | `stars` depends only on the multiset of ratings |
| `Ratings.RatesPermutation` | wrangle/models.py:76 | `rates` depends only on the multiset of ratings |
| `Ratings.Permutation` | wrangle/models.py:75-78 | reordering the reviews changes neither `stars`, `rates` nor the result |
| `Ratings.StarsBounds` | wrangle/models.py:75 | ratings all within `[lo, hi]` give `stars` within `[n * lo, n * hi]` for `n` reviews |
| `Ratings.NoReviews` | wrangle/models.py:75-77 | a book with no reviews is rated the integer 0 |
| `Ratings.NothingRatedIsZero` | wrangle/models.py:76-77 | if no rating is above 0 the result is the integer 0, whatever `stars` is and however many reviews there are |
| `Ratings.SmoothedFormula` | wrangle/models.py:78 | with `rates >= 1` and `C + rates != 0` the result is exactly `(C * m + stars) / (C + rates)` |
| `Ratings.NoPriorIsRawMean` | wrangle/models.py:68-78 | with `C = 0` the result is the raw `stars / rates` |
| `Ratings.AllPositiveStraightAverage` | wrangle/models.py:70-78 | with `C = 0` and every rating positive the result is the straight average of all reviews |
| `Ratings.ZeroRatingIgnored` | wrangle/models.py:75-78 | a review rated 0 leaves the result unchanged |
| `Ratings.NegativeRatingOnlyLowersNumerator` | wrangle/models.py:75-78 | a negative rating `x` counts in the numerator only: the score changes by exactly `x / (C + rates)`, a drop of `-x / (C + rates)` whenever `C + rates > 0` |
| `Ratings.WeightedAverage` | wrangle/models.py:70-78 | with `C >= 0` the score lies between the prior `m` and the raw mean `stars / rates` |
| `Ratings.WithinRatingScale` | wrangle/models.py:68-78 | for a book with at least one review, on a positive scale `[lo, hi]` holding every rating and `m`, the score stays within `[lo, hi]`; with `C > 0` it is strictly below `hi` when `m < hi` and strictly above `lo` when `lo < m` |
| `Ratings.OneMoreRatingMovesToward` | wrangle/models.py:75-78 | for any `C` with `C + rates > 0`, one more positive rating `x` moves the score towards `x` and never past it |
| `Ratings.OneFiveStarReview` | wrangle/models.py:68-78 | one 5-star review with the defaults scores `20 / 6` |
| `Ratings.FourAndTwo` | wrangle/models.py:68-78 | ratings 4 and 2 with the defaults score `3.0` |
| `Ratings.SmoothExtraStars` | wrangle/models.py:78 | extra stars `x` at the same `rates` shift the score by exactly `x / (C + rates)`, for any `C` with `C + rates != 0`, and a negative `x` lowers it when `C + rates > 0` |
| `Ratings.SmoothBetween` | wrangle/models.py:78 | with `C >= 0` the formula's value lies between `m` and `stars / rates` |
| `Ratings.SmoothOnScale` | wrangle/models.py:78 | with `stars` within `[rates * lo, rates * hi]` and `m` within `[lo, hi]` the formula's value lies within `[lo, hi]` |
| `Ratings.SmoothOneMore` | wrangle/models.py:78 | for any `C` with `C + rates > 0`, one more rated review `x` puts the formula's value between the old value and `x` |
| `Profiles.NatToDecimal` | wrangle/models.py:49-50 | the digits of a natural number: non-empty, all decimal digits, no leading zero |
| `Profiles.IntToDecimal` | wrangle/models.py:49-50 | `"%i"` writes a leading `-` exactly for a negative id |
| `Profiles.NatToDecimalRoundTrip` | wrangle/models.py:49-50 | reading the written digits back gives the number |
| `Profiles.IntToDecimalRoundTrip` | wrangle/models.py:49-50 | `ParseDecimal` reads back every id `"%i"` writes |
| `Profiles.IntToDecimalInjective` | wrangle/models.py:49-50 | different ids are written differently |
| `Profiles.ProfileUrl` | wrangle/models.py:45-50 | the link fails exactly for a user without an id, and otherwise starts with the Goodreads profile prefix followed by more text |
| `Profiles.ProfileUrlRoundTrip` | wrangle/models.py:45-50 | the link of a saved user names that user's id |
| `Profiles.ProfileUrlIdentifiesUser` | wrangle/models.py:45-50 | two saved users get the same link if and only if they have the same id |
| `Profiles.ProfileUrlExample` | wrangle/models.py:45-50 | user 42's link is `https://www.goodreads.com/user/show/42` |

## Left out

- The SQLAlchemy declarative schema, column declarations and table names (wrangle/models.py:32-106): configuration, not behaviour. `Review.rating` is declared non-null (wrangle/models.py:104), but that is checked only when the row is inserted.
- The uniqueness of (book, user) and (book, author) pairs (wrangle/models.py:95-96, 102-103): enforced by the database engine.
- The relationships and backrefs (wrangle/models.py:66, 89, 105-106): the reviews of a book arrive as an explicit sequence of ratings; loading them from the store is not part of this model.
- `get_engine`, `create_session`, `syncdb` and the `__main__` block (wrangle/models.py:112-128): database I/O through a foreign library.
- Pending reviews: a `Review` not yet flushed is already in `book.reviews` through the backref (wrangle/models.py:105) and may still have `rating` equal to `None`; the `sum` at wrangle/models.py:75 then raises `TypeError`. This is not modelled: every rating here is an `int`.
- `User.__str__` and `Book.__str__` (wrangle/models.py:52-53, 80-81): display formatting.
- Float representation: the division at wrangle/models.py:78 is exact `real` division here, so rounding and overflow of very large sums to float are not modelled.
- `C` and `m` are integers, as their defaults are; a caller passing floats for them is not modelled.
