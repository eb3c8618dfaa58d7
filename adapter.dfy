/** The result row of the account search (SearchAdapter.UserViewHolder):
    the count labels and the statistics line. */
module Adapter {
  import opened Common
  import opened Users

  const Thousand := 1_000
  const Million := 1_000_000

  /** The number part of a count label: plain decimal text below a thousand,
      otherwise the count scaled down with a suffix letter. How the scaled
      value is printed ("%.1f") is left to a parameter. */
  datatype CountText = Plain(digits: string) | Scaled(value: real, suffix: char)

  /** The `when` of formatCount. */
  function CountNumber(count: Long): (t: CountText)
    ensures count >= Million ==> t == Scaled(count as real / Million as real, 'M')
    ensures Thousand <= count < Million ==> t == Scaled(count as real / Thousand as real, 'K')
    ensures count < Thousand ==> t == Plain(IntToString(count))
  {
    if count >= Million then Scaled(count as real / Million as real, 'M')
    else if count >= Thousand then Scaled(count as real / Thousand as real, 'K')
    else Plain(IntToString(count))
  }

  /** `oneDecimal` stands for String.format("%.1f", value). */
  function Render(t: CountText, oneDecimal: real -> string): string {
    match t
    case Plain(d) => d
    case Scaled(v, s) => oneDecimal(v) + [s]
  }

  /** formatCount(count, singular, plural). */
  function FormatCount(count: Long, singular: string, plural: string, oneDecimal: real -> string): string {
    var formattedCount := Render(CountNumber(count), oneDecimal);
    if count == 1 then formattedCount + " " + singular else formattedCount + " " + plural
  }

  /** Below a thousand a count prints as its own decimal numeral, the
      suffix never appears, and a non-negative one prints at most three
      digits. */
  lemma SmallCountsArePlainDigits(count: Long)
    requires count < Thousand
    ensures CountNumber(count).Plain?
    ensures ParseNumeral(CountNumber(count).digits) == count
    ensures 0 <= count ==> IsDigits(CountNumber(count).digits) && |CountNumber(count).digits| <= 3
  {
    IntToStringRoundTrip(count);
    if 0 <= count {
      NatDigitsAtMostThree(count);
    }
  }

  lemma NatDigitsAtMostThree(n: nat)
    requires n < Thousand
    ensures |NatToString(n)| <= 3
  {
    if n >= 10 {
      assert NatToString(n) == NatToString(n / 10) + [DigitChar(n % 10)];
      if n / 10 >= 10 {
        assert NatToString(n / 10) == NatToString(n / 100) + [DigitChar(n / 10 % 10)];
      }
    }
  }

  /** The suffix shows which range a scaled count fell in. */
  lemma SuffixByRange(count: Long)
    ensures CountNumber(count).Scaled? <==> count >= Thousand
    ensures CountNumber(count).Scaled? ==> (CountNumber(count).suffix == 'M' <==> count >= Million)
  {
  }

  /** With different words, the singular word is used exactly for a count
      of one. */
  lemma SingularIffOne(count: Long, singular: string, plural: string, oneDecimal: real -> string)
    requires singular != plural
    ensures var text := FormatCount(count, singular, plural, oneDecimal);
      var prefix := Render(CountNumber(count), oneDecimal) + " ";
      text == prefix + singular <==> count == 1
  {
    var text := FormatCount(count, singular, plural, oneDecimal);
    var prefix := Render(CountNumber(count), oneDecimal) + " ";
    if count != 1 {
      assert text[|prefix|..] == plural;
    }
  }

  /** The statistics line of bind: the followers label, a bullet, then the
      following label. */
  function StatsLine(u: User, oneDecimal: real -> string): string {
    var followersText := FormatCount(u.followersCount, "follower", "followers", oneDecimal);
    var followingText := FormatCount(u.followingCount, "following", "following", oneDecimal);
    followersText + " • " + followingText
  }

  /** For everyday counts the line reads "<n> follower(s) • <m> following":
      only the followers word depends on the count. */
  lemma StatsLineForSmallCounts(u: User, oneDecimal: real -> string)
    requires 0 <= u.followersCount < Thousand && 0 <= u.followingCount < Thousand
    ensures StatsLine(u, oneDecimal) ==
      IntToString(u.followersCount) + " " + (if u.followersCount == 1 then "follower" else "followers")
      + " • " + IntToString(u.followingCount) + " following"
  {
  }
}
