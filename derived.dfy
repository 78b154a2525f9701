/** Values the list view derives from an entry: the "expiring soon" test
    of `checkExpirationStatus`, the five star icons of `generateStarRating`
    and the category emoji of `getCategoryEmoji`. */
module Derived {
  import opened Common

  /** `1000 * 60 * 60 * 24`: milliseconds per day. */
  const DayMs: int := 86_400_000

  /** `Math.ceil(x / d)` for a positive divisor. */
  function CeilDiv(x: int, d: int): (q: int)
    requires d > 0
    ensures d * (q - 1) < x <= d * q
  {
    if x % d == 0 then x / d else x / d + 1
  }

  /** A ceiling quotient is at most `k` exactly when the dividend is at most `k * d`. */
  lemma CeilDivAtMost(x: int, d: int, k: int)
    requires d > 0
    ensures CeilDiv(x, d) <= k <==> x <= k * d
  {
    var q := CeilDiv(x, d);
    if q <= k {
      assert d * q <= d * k;
    } else {
      assert d * k <= d * (q - 1);
    }
  }

  /** `checkExpirationStatus(nextBillingDate)` at time `now` (milliseconds);
      `parseDate` stands for `new Date(...)`, `None` being an invalid date,
      whose `NaN` difference makes the comparison false. */
  function CheckExpirationStatus(nextBillingDate: Option<string>, now: int,
                                 parseDate: string -> Option<int>): (expiring: bool)
    ensures expiring ==> Truthy(nextBillingDate) && parseDate(nextBillingDate.value).Some?
    ensures expiring ==> parseDate(nextBillingDate.value).value - now <= 7 * DayMs
  {
    if !Truthy(nextBillingDate) then false
    else
      match parseDate(nextBillingDate.value)
      case None => false
      case Some(billing) => CeilDiv(billing - now, DayMs) <= 7
  }

  /** An entry is expiring exactly when it has a billing date that is at most
      seven whole days ahead, which includes every date in the past. */
  lemma {:induction false} ExpiringIff(nextBillingDate: Option<string>, now: int, parseDate: string -> Option<int>)
    ensures CheckExpirationStatus(nextBillingDate, now, parseDate)
        <==> && Truthy(nextBillingDate)
             && parseDate(nextBillingDate.value).Some?
             && parseDate(nextBillingDate.value).value - now <= 7 * DayMs
  {
    if Truthy(nextBillingDate) && parseDate(nextBillingDate.value).Some? {
      CeilDivAtMost(parseDate(nextBillingDate.value).value - now, DayMs, 7);
    }
  }

  /** Five days ahead warns, eight days ahead does not, no date never does. */
  lemma ExpirationExamples(date: string, now: int, parseDate: string -> Option<int>)
    requires date != ""
    ensures parseDate(date) == Some(now + 5 * DayMs) ==> CheckExpirationStatus(Some(date), now, parseDate)
    ensures parseDate(date) == Some(now + 8 * DayMs) ==> !CheckExpirationStatus(Some(date), now, parseDate)
    ensures parseDate(date) == Some(now - 3 * DayMs) ==> CheckExpirationStatus(Some(date), now, parseDate)
    ensures !CheckExpirationStatus(None, now, parseDate)
  {
    ExpiringIff(Some(date), now, parseDate);
  }

  datatype Star = FullStar | EmptyStar

  const FullStarHtml := "<i class=\"fas fa-star text-yellow-400 text-sm\"></i>"
  const EmptyStarHtml := "<i class=\"far fa-star text-gray-300 text-sm\"></i>"

  function StarHtml(s: Star): string
  {
    match s
    case FullStar => FullStarHtml
    case EmptyStar => EmptyStarHtml
  }

  function Repeat(s: Star, n: nat): (r: seq<Star>)
    ensures |r| == n && forall k :: 0 <= k < n ==> r[k] == s
  {
    if n == 0 then [] else [s] + Repeat(s, n - 1)
  }

  /** The number of full stars: the rating held into 0..5. */
  function FullCount(rating: int): (n: nat)
    ensures n <= 5
  {
    if rating < 0 then 0 else if rating > 5 then 5 else rating
  }

  /** The icons in display order: the full ones, then the empty ones. */
  function StarIcons(rating: int): (icons: seq<Star>)
    ensures |icons| == 5
    ensures forall k :: 0 <= k < 5 ==> (icons[k] == FullStar <==> k < rating)
  {
    Repeat(FullStar, FullCount(rating)) + Repeat(EmptyStar, 5 - FullCount(rating))
  }

  /** The icons' markup concatenated. */
  function RenderStars(icons: seq<Star>): string
  {
    if icons == [] then "" else RenderStars(icons[..|icons| - 1]) + StarHtml(icons[|icons| - 1])
  }

  /** `generateStarRating(rating)` for an integer rating (`Math.floor` does
      nothing to one): five icons, the first `rating` of them full. */
  method GenerateStarRating(rating: int) returns (stars: string)
    ensures stars == RenderStars(StarIcons(rating))
  {
    ghost var icons := StarIcons(rating);
    var fullStars := rating;
    stars := "";
    for i := 0 to 5
      invariant stars == RenderStars(icons[..i])
    {
      assert icons[..i + 1][..i] == icons[..i];
      if i < fullStars {
        stars := stars + FullStarHtml;
      } else {
        stars := stars + EmptyStarHtml;
      }
    }
    assert icons[..5] == icons;
  }

  /** The label the emoji table knows. */
  const CategoryEmojis: map<string, string> := map[
    "텍스트 & 언어" := "📝",
    "이미지 & 비주얼" := "🎨",
    "음성 & 오디오" := "🎵",
    "개발 & 코딩" := "💻",
    "비즈니스 & 생산성" := "📊",
    "교육 & 학습" := "📚",
    "마케팅 & SEO" := "📈"]

  const DefaultEmoji := "🤖"

  /** `getCategoryEmoji(category)`: the table's emoji, `🤖` otherwise. */
  function GetCategoryEmoji(category: string): (emoji: string)
    ensures category in CategoryEmojis ==> emoji == CategoryEmojis[category]
    ensures category !in CategoryEmojis ==> emoji == DefaultEmoji
  {
    if category in CategoryEmojis then CategoryEmojis[category] else DefaultEmoji
  }

  /** The fallback marks exactly the unknown categories, and the known ones
      have pairwise different emoji, so the emoji names the category. */
  lemma EmojiIdentifiesCategory(a: string, b: string)
    ensures GetCategoryEmoji(a) == DefaultEmoji <==> a !in CategoryEmojis
    ensures a in CategoryEmojis && b in CategoryEmojis && GetCategoryEmoji(a) == GetCategoryEmoji(b) ==> a == b
  {
  }
}
