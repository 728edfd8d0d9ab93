/**
 * The greeting banner of Greeting.jsx: the greeting for the current hour,
 * the heading built from it and the fixed user name, and the motivational
 * quote picked once from a fixed list.
 *
 * `new Date().getHours()` is taken as the `hour` parameter. `Math.random()`
 * is taken as an exact fraction `num / den` in [0, 1), so the pick
 * `Math.floor(Math.random() * quotes.length)` is integer arithmetic.
 */
module Greeting {

  /** `userName`, fixed in the component. */
  const UserName := "Friend"

  /** The three greetings, in the order the day runs through them. */
  const Greetings := ["Good Morning", "Good Afternoon", "Good Evening"]

  /** `getGreeting`: before noon, before six in the evening, and the rest. */
  function GetGreeting(hour: int): (g: string)
    ensures g == "Good Morning" <==> hour < 12
    ensures g == "Good Afternoon" <==> 12 <= hour < 18
    ensures g == "Good Evening" <==> 18 <= hour
  {
    if hour < 12 then "Good Morning"
    else if hour < 18 then "Good Afternoon"
    else "Good Evening"
  }

  /** Where a greeting sits in the day: its index in `Greetings`. */
  function Band(g: string): (k: nat)
    requires g in Greetings
    ensures k < |Greetings| && Greetings[k] == g
  {
    if g == Greetings[0] then 0 else if g == Greetings[1] then 1 else 2
  }

  /** Every hour of the day gets one of the three greetings. */
  lemma EveryHourGreeted(hour: int)
    requires 0 <= hour < 24
    ensures GetGreeting(hour) in Greetings
  {
    assert GetGreeting(hour) == Greetings[0] || GetGreeting(hour) == Greetings[1] || GetGreeting(hour) == Greetings[2];
  }

  /** The greeting never goes back as the hour advances. */
  lemma BandNeverGoesBack(h1: int, h2: int)
    requires h1 <= h2
    ensures GetGreeting(h1) in Greetings && GetGreeting(h2) in Greetings
    ensures Band(GetGreeting(h1)) <= Band(GetGreeting(h2))
  {
    EveryHourGreeted(0);
    assert GetGreeting(h1) == Greetings[0] || GetGreeting(h1) == Greetings[1] || GetGreeting(h1) == Greetings[2];
    assert GetGreeting(h2) == Greetings[0] || GetGreeting(h2) == Greetings[1] || GetGreeting(h2) == Greetings[2];
  }

  /** Between two consecutive hours the greeting changes exactly at noon and at six. */
  lemma ChangesOnlyAtBoundaries(hour: int)
    ensures GetGreeting(hour) != GetGreeting(hour + 1) <==> hour + 1 == 12 || hour + 1 == 18
  {
  }

  /** The heading: `{getGreeting()}, {userName}!`. */
  function Heading(hour: int): (h: string)
    ensures |h| == |GetGreeting(hour)| + |UserName| + 3
    ensures h[..|GetGreeting(hour)|] == GetGreeting(hour)
    ensures h[|GetGreeting(hour)|..] == ", " + UserName + "!"
  {
    var g := GetGreeting(hour);
    assert (g + ", " + UserName + "!")[..|g|] == g;
    assert (g + ", " + UserName + "!")[|g|..] == ", " + UserName + "!";
    g + ", " + UserName + "!"
  }

  /** Reads the greeting back out of a heading, if it has the heading's shape. */
  function GreetingOf(heading: string): (g: string)
    ensures |g| <= |heading|
  {
    var tail := ", " + UserName + "!";
    if |heading| >= |tail| && heading[|heading| - |tail|..] == tail then heading[..|heading| - |tail|]
    else heading
  }

  /** The heading shows the hour's greeting and nothing else of it: reading it back gives the greeting. */
  lemma HeadingShowsGreeting(hour: int)
    ensures GreetingOf(Heading(hour)) == GetGreeting(hour)
  {
    var g, h := GetGreeting(hour), Heading(hour);
    assert h[|h| - |", " + UserName + "!"|..] == h[|g|..];
  }

  /** Two hours get the same heading exactly when they get the same greeting. */
  lemma HeadingsAgreeIffGreetingsAgree(h1: int, h2: int)
    ensures Heading(h1) == Heading(h2) <==> GetGreeting(h1) == GetGreeting(h2)
  {
    if Heading(h1) == Heading(h2) {
      HeadingShowsGreeting(h1);
      HeadingShowsGreeting(h2);
    }
  }

  /** The five motivational quotes. */
  const Quotes := [
    "Start your day with purpose and intention.",
    "Every day is a new opportunity to build better habits.",
    "Small steps lead to big changes.",
    "Consistency is the key to success.",
    "You're doing great! Keep going!"
  ]

  /**
   * `Math.floor(Math.random() * quotes.length)` for a draw of `num / den`:
   * the one index i with i <= draw * 5 < i + 1.
   */
  function QuoteIndex(num: nat, den: nat): (i: nat)
    requires num < den
    ensures i < |Quotes|
    ensures i * den <= num * |Quotes| < (i + 1) * den
  {
    FloorBelow(num * |Quotes|, den, |Quotes|);
    (num * |Quotes|) / den
  }

  /** Integer division by den stays below k when the dividend does below k * den. */
  lemma FloorBelow(a: nat, den: nat, k: nat)
    requires den > 0 && a < k * den
    ensures a / den < k
  {
    MultiplyLeq(k, a / den, den);
  }

  lemma MultiplyLeq(x: nat, y: nat, d: nat)
    ensures x <= y ==> x * d <= y * d
  {
    if x <= y {
      assert y * d == x * d + (y - x) * d;
    }
  }

  /** The quote shown: the one at the drawn index, always one of the five. */
  function Quote(num: nat, den: nat): (q: string)
    requires num < den
    ensures q in Quotes
    ensures q == Quotes[QuoteIndex(num, den)]
  {
    Quotes[QuoteIndex(num, den)]
  }

  /** Each quote is drawn for exactly the draws in its fifth of [0, 1). */
  lemma QuoteIndexUnique(num: nat, den: nat, i: nat)
    requires num < den
    requires i * den <= num * |Quotes| < (i + 1) * den
    ensures QuoteIndex(num, den) == i
  {
    var j := QuoteIndex(num, den);
    MultiplyLeq(j + 1, i, den);
    MultiplyLeq(i + 1, j, den);
  }
}
