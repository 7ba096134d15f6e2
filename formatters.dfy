/** Display helpers (`utils/formatters.ts`). */
module Formatters {
  import opened Wrappers
  import opened Js
  import opened Domain

  // ------------------------------------------------------------ formatAmount

  /** What `formatAmount` produces: fixed text, or the locale rendering of a number. */
  datatype AmountText = Text(text: string) | Localized(amount: int)

  /** `formatAmount`: a missing amount reads "0 FCFA"; numbers go to the locale formatter. */
  function FormatAmount(amount: Option<int>): (r: AmountText)
    ensures r.Text? <==> amount.None?
    ensures r.Text? ==> r.text == "0 FCFA"
    ensures r.Localized? ==> r.amount == amount.value
  {
    if amount.None? then Text("0 FCFA") else Localized(amount.value)
  }

  // ----------------------------------------------------------------- timeAgo

  /** `Math.floor((now - date) / 1000)`: whole seconds elapsed, rounded down (also for dates in the future). */
  function ElapsedSeconds(nowMs: int, dateMs: int): (d: int)
    ensures d * 1000 <= nowMs - dateMs < (d + 1) * 1000
  {
    (nowMs - dateMs) / 1000
  }

  /** The unit `timeAgo` reports an elapsed time in. */
  datatype Bucket = JustNow | Minutes | Hours | Days | Months | Years

  function BucketOf(secs: int): Bucket {
    if secs < 60 then JustNow
    else if secs < 3600 then Minutes
    else if secs < 86400 then Hours
    else if secs < 2592000 then Days
    else if secs < 31536000 then Months
    else Years
  }

  /** The order of the buckets, shortest first. */
  function Rank(b: Bucket): nat {
    match b
    case JustNow => 0
    case Minutes => 1
    case Hours => 2
    case Days => 3
    case Months => 4
    case Years => 5
  }

  /** Seconds per unit of a bucket. */
  function UnitSeconds(b: Bucket): nat {
    match b
    case JustNow => 1
    case Minutes => 60
    case Hours => 3600
    case Days => 86400
    case Months => 2592000
    case Years => 31536000
  }

  function Suffix(b: Bucket): string {
    match b
    case JustNow => ""
    case Minutes => " min"
    case Hours => " h"
    case Days => " j"
    case Months => " mois"
    case Years => " ans"
  }

  /** `timeAgo(date)` evaluated at time `nowMs`. */
  function TimeAgo(nowMs: int, dateMs: int): string {
    var secs := ElapsedSeconds(nowMs, dateMs);
    var b := BucketOf(secs);
    if b == JustNow then "À l'instant"
    else "Il y a " + IntToString(secs / UnitSeconds(b)) + Suffix(b)
  }

  /** A longer elapsed time never falls into an earlier bucket. */
  lemma BucketMonotone(d1: int, d2: int)
    requires d1 <= d2
    ensures Rank(BucketOf(d1)) <= Rank(BucketOf(d2))
  {
  }

  /** A date in the future (or less than a minute ago) reads "À l'instant". */
  lemma FutureIsJustNow(nowMs: int, dateMs: int)
    requires nowMs - dateMs < 60000
    ensures TimeAgo(nowMs, dateMs) == "À l'instant"
  {
  }

  /**
   * Outside the first bucket the reported count is at least 1 and stays below
   * the size of the next unit: 1-59 min, 1-23 h, 1-29 j, 1-12 mois, 1 an or more.
   */
  lemma BucketCountRange(secs: int)
    requires secs >= 60
    ensures var b := BucketOf(secs); var n := secs / UnitSeconds(b);
      n >= 1
      && (b == Minutes ==> n < 60)
      && (b == Hours ==> n < 24)
      && (b == Days ==> n < 30)
      && (b == Months ==> n <= 12)
  {
  }

  /** The text is "Il y a <count><unit>" with the floor of the elapsed time in that unit. */
  lemma TimeAgoText(nowMs: int, dateMs: int)
    requires nowMs - dateMs >= 60000
    ensures var secs := ElapsedSeconds(nowMs, dateMs); var b := BucketOf(secs);
      b != JustNow
      && TimeAgo(nowMs, dateMs) == "Il y a " + NatToString(secs / UnitSeconds(b)) + Suffix(b)
  {
  }

  // ------------------------------------------------------------ truncateText

  /** `String.prototype.substring(start, end)`: bounds clamped to the text, swapped when reversed. */
  function Substring(s: string, start: int, end: int): string {
    var a := if start < 0 then 0 else if start > |s| then |s| else start;
    var b := if end < 0 then 0 else if end > |s| then |s| else end;
    if a <= b then s[a..b] else s[b..a]
  }

  /** `truncateText(text, length)` */
  function TruncateText(text: string, limit: int): (r: string)
    ensures |text| <= limit ==> r == text
    ensures |text| > limit ==> var kept := if limit < 0 then 0 else limit;
      r == text[..kept] + "..."
  {
    if |text| <= limit then text else Substring(text, 0, limit) + "..."
  }

  /** A truncated text is never longer than the limit plus the three dots, and starts like the original. */
  lemma TruncateBound(text: string, limit: int)
    requires limit >= 0
    ensures |TruncateText(text, limit)| <= limit + 3
    ensures |text| > limit ==> TruncateText(text, limit)[..limit] == text[..limit]
  {
  }

  // --------------------------------------------------------- capitalizeFirst

  /** `text.charAt(0).toUpperCase() + text.slice(1)` */
  function CapitalizeFirst(text: string): (r: string)
    ensures |r| == |text|
    ensures text != "" ==> r[0] == UpperChar(text[0]) && r[1..] == text[1..]
  {
    if text == "" then "" else [UpperChar(text[0])] + text[1..]
  }

  lemma UpperCharIdempotent(c: char)
    ensures UpperChar(UpperChar(c)) == UpperChar(c)
  {
  }

  /** Capitalising twice is capitalising once. */
  lemma CapitalizeIdempotent(text: string)
    ensures CapitalizeFirst(CapitalizeFirst(text)) == CapitalizeFirst(text)
  {
    if text != "" {
      UpperCharIdempotent(text[0]);
    }
  }

  // -------------------------------------------------------- generateAvatarUrl

  const DefaultAvatarUrl: string := "https://ui-avatars.com/api/?name=U&background=random&color=fff&size=40"

  /** An avatar address: the fixed default, or the one built from an encoded seed. */
  datatype AvatarUrl = Fixed(url: string) | ForSeed(seed: string)

  /** `generateAvatarUrl`: a null or empty seed gives the "U" avatar. */
  function GenerateAvatarUrl(seed: Option<string>): (r: AvatarUrl)
    ensures r.Fixed? <==> !Present(seed)
    ensures r.Fixed? ==> r.url == DefaultAvatarUrl
    ensures r.ForSeed? ==> r.seed == seed.value
  {
    if !Present(seed) then Fixed(DefaultAvatarUrl) else ForSeed(seed.value)
  }
}
