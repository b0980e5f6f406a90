/** The two pure helpers of the contact form: the colour of the average rating
    and the random suffix of the helper tag. The random draws are an input:
    draws[k] is the alphabet index picked for the k-th character. */
module ContactForm {

  /** The average of the three ratings, as a mathematical real. */
  function AverageRating(r1: int, r2: int, r3: int): (avg: real)
    ensures avg * 3.0 == (r1 + r2 + r3) as real
  {
    (r1 + r2 + r3) as real / 3.0
  }

  /** getAverageColor: the three-tier classifier. */
  function GetAverageColor(avg: real): (color: string)
    ensures color == "red" <==> avg < 4.0
    ensures color == "orange" <==> 4.0 <= avg < 7.0
    ensures color == "green" <==> 7.0 <= avg
  {
    if avg < 4.0 then "red"
    else if avg < 7.0 then "orange"
    else "green"
  }

  /** On whole-number ratings the tiers are cut by the rating sum: below 12 red,
      below 21 orange, green from 21 on. */
  lemma RatingColorBySum(r1: int, r2: int, r3: int)
    ensures GetAverageColor(AverageRating(r1, r2, r3)) == "red" <==> r1 + r2 + r3 < 12
    ensures GetAverageColor(AverageRating(r1, r2, r3)) == "orange" <==> 12 <= r1 + r2 + r3 < 21
    ensures GetAverageColor(AverageRating(r1, r2, r3)) == "green" <==> 21 <= r1 + r2 + r3
  {
  }

  /** Ratings (10, 10, 10) average 10 and are green; (2, 2, 2) average 2 and are red. */
  lemma RatingScenarios()
    ensures AverageRating(10, 10, 10) == 10.0 && GetAverageColor(AverageRating(10, 10, 10)) == "green"
    ensures AverageRating(2, 2, 2) == 2.0 && GetAverageColor(AverageRating(2, 2, 2)) == "red"
  {
  }

  /** The 36-character alphabet of generateRandomCode. */
  const Chars: string := "ABCDEFGHIJKLMNOPQRSTUVWXYZ0123456789"

  /** Upper-case Latin letter or decimal digit. */
  predicate IsCodeChar(c: char) {
    'A' <= c <= 'Z' || '0' <= c <= '9'
  }

  /** The alphabet has 36 characters and holds exactly the upper-case letters and digits. */
  lemma CharsAreCodeChars()
    ensures |Chars| == 36
    ensures forall c :: c in Chars <==> IsCodeChar(c)
  {
  }

  /** The draws fit the alphabet: each one is an index into Chars. */
  predicate DrawsFitChars(draws: seq<nat>) {
    forall k :: 0 <= k < |draws| ==> draws[k] < |Chars|
  }

  /** generateRandomCode: append one alphabet character per draw, length times. */
  method GenerateRandomCode(length: nat, draws: seq<nat>) returns (out: string)
    requires |draws| == length && DrawsFitChars(draws)
    ensures |out| == length
    ensures forall k :: 0 <= k < length ==> out[k] == Chars[draws[k]]
    ensures forall k :: 0 <= k < |out| ==> IsCodeChar(out[k])
  {
    CharsAreCodeChars();
    out := "";
    var i := 0;
    while i < length
      invariant 0 <= i <= length
      invariant |out| == i
      invariant forall k :: 0 <= k < i ==> out[k] == Chars[draws[k]]
    {
      out := out + [Chars[draws[i]]];
      i := i + 1;
    }
  }

  const TagPrefix: string := "FE24-JS-CF-"

  /** The helper tag: the prefix followed by a five-character random code. */
  method MakeHelperTag(draws: seq<nat>) returns (tag: string)
    requires |draws| == 5 && DrawsFitChars(draws)
    ensures |tag| == 16
    ensures tag[..11] == TagPrefix
    ensures forall k :: 11 <= k < 16 ==> IsCodeChar(tag[k]) && tag[k] == Chars[draws[k - 11]]
  {
    var code := GenerateRandomCode(5, draws);
    tag := TagPrefix + code;
  }
}
