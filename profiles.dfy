/** User.get_profile_url: the link to a user's Goodreads profile, the fixed
    prefix followed by the user's id written the way Python's "%i" writes an
    integer (an optional '-', then decimal digits with no leading zero). */
module Profiles {
  import opened Wrappers

  /** A row of the users table. The id is None on a User that has not been
      flushed to the database yet. */
  datatype User = User(id: Option<int>, name: string)

  /** The exception "%i" % None raises. */
  datatype FormatError = TypeError

  const ProfilePrefix: string := "https://www.goodreads.com/user/show/"

  predicate IsDigit(c: char)
  {
    '0' <= c <= '9'
  }

  predicate AllDigits(s: string)
  {
    forall i :: 0 <= i < |s| ==> IsDigit(s[i])
  }

  function DigitChar(d: int): (c: char)
    requires 0 <= d < 10
    ensures IsDigit(c) && DigitValue(c) == d
  {
    ('0' as int + d) as char
  }

  function DigitValue(c: char): (d: int)
    requires IsDigit(c)
    ensures 0 <= d < 10
  {
    c as int - '0' as int
  }

  // ---------------------------------------------------------------------
  // "%i" and its inverse

  /** The decimal digits of n: at least one digit, and no leading zero
      unless n is 0 itself. */
  function NatToDecimal(n: nat): (s: string)
    ensures |s| >= 1 && AllDigits(s)
    ensures s[0] == '0' ==> s == "0"
  {
    if n < 10 then [DigitChar(n)]
    else NatToDecimal(n / 10) + [DigitChar(n % 10)]
  }

  /** "%i" % i: a '-' exactly for a negative i, then the digits of |i|. */
  function IntToDecimal(i: int): (s: string)
    ensures |s| >= 1
    ensures s[0] == '-' <==> i < 0
  {
    if i < 0 then "-" + NatToDecimal(-i) else NatToDecimal(i)
  }

  /** The value of a string of decimal digits. */
  function DigitsValue(s: string): (n: nat)
    requires AllDigits(s)
  {
    if s == [] then 0
    else DigitsValue(s[..|s| - 1]) * 10 + DigitValue(s[|s| - 1])
  }

  /** Reads back what "%i" writes: an optional '-', then one or more digits. */
  function ParseDecimal(s: string): Option<int>
  {
    if |s| >= 2 && s[0] == '-' && AllDigits(s[1..]) then Some(-(DigitsValue(s[1..]) as int))
    else if |s| >= 1 && AllDigits(s) then Some(DigitsValue(s))
    else None
  }

  /** The digits of n read back as n. */
  lemma {:induction false} NatToDecimalRoundTrip(n: nat)
    ensures DigitsValue(NatToDecimal(n)) == n
  {
    var s := NatToDecimal(n);
    if n >= 10 {
      var front := NatToDecimal(n / 10);
      assert s[..|s| - 1] == front;
      NatToDecimalRoundTrip(n / 10);
    }
  }

  /** Whatever "%i" writes for i is read back as i. */
  lemma IntToDecimalRoundTrip(i: int)
    ensures ParseDecimal(IntToDecimal(i)) == Some(i)
  {
    var s := IntToDecimal(i);
    if i < 0 {
      assert s[1..] == NatToDecimal(-i);
      NatToDecimalRoundTrip(-i);
    } else {
      NatToDecimalRoundTrip(i);
    }
  }

  /** Different integers are written differently. */
  lemma IntToDecimalInjective(i: int, j: int)
    requires IntToDecimal(i) == IntToDecimal(j)
    ensures i == j
  {
    IntToDecimalRoundTrip(i);
    IntToDecimalRoundTrip(j);
  }

  // ---------------------------------------------------------------------
  // The profile link

  /** get_profile_url(): the prefix followed by "%i" of the id; formatting
      a missing id raises. */
  function ProfileUrl(u: User): (r: Result<string, FormatError>)
    ensures r.Failure? <==> u.id.None?
    ensures r.Success? ==> |r.value| > |ProfilePrefix| && r.value[..|ProfilePrefix|] == ProfilePrefix
  {
    match u.id
    case None => Failure(TypeError)
    case Some(i) => Success(ProfilePrefix + IntToDecimal(i))
  }

  /** The id a profile link names, if it is one. */
  function IdFromProfileUrl(url: string): Option<int>
  {
    if |url| >= |ProfilePrefix| && url[..|ProfilePrefix|] == ProfilePrefix
    then ParseDecimal(url[|ProfilePrefix|..])
    else None
  }

  /** The link of a saved user names that user's id. */
  lemma ProfileUrlRoundTrip(u: User)
    requires u.id.Some?
    ensures ProfileUrl(u).Success?
    ensures IdFromProfileUrl(ProfileUrl(u).value) == u.id
  {
    var url := ProfileUrl(u).value;
    assert url[|ProfilePrefix|..] == IntToDecimal(u.id.value);
    IntToDecimalRoundTrip(u.id.value);
  }

  /** Two saved users get the same link only when they have the same id;
      the name plays no part. */
  lemma ProfileUrlIdentifiesUser(u: User, v: User)
    requires u.id.Some? && v.id.Some?
    ensures ProfileUrl(u) == ProfileUrl(v) <==> u.id == v.id
  {
    if ProfileUrl(u) == ProfileUrl(v) {
      ProfileUrlRoundTrip(u);
      ProfileUrlRoundTrip(v);
    }
  }

  /** User 42's link. */
  lemma ProfileUrlExample()
    ensures ProfileUrl(User(Some(42), "ann")) == Success("https://www.goodreads.com/user/show/42")
  {
    assert NatToDecimal(4) == "4" && DigitChar(2) == '2';
    assert IntToDecimal(42) == NatToDecimal(4) + [DigitChar(2)] == "42";
    assert ProfilePrefix + "42" == "https://www.goodreads.com/user/show/42";
  }
}
