/** The older `getTitle(list, rating)` kept beside the session code: sixteen
    `dl` tiers from `C` to `LGM`, inclusive lower thresholds tried from the
    top, and nothing for any other list. */
module LegacyTitles {
  import opened TitleTypes

  function GetTitle(list: string, rating: real): (r: TitleResult)
    ensures r == Undefined <==> list != "dl"
    ensures r == Null <==> list == "dl" && rating <= 0.0
    ensures r.Found? ==> r.entry.Title?
  {
    if list == "dl" then
      if rating >= 4200.0 then Found(Title("LGM", "Legendary Grandmaster", "darkred"))
      else if rating >= 3600.0 then Found(Title("GM", "Grandmaster", "red"))
      else if rating >= 3000.0 then Found(Title("M", "Master", "blue"))
      else if rating >= 2800.0 then Found(Title("CM", "Candidate Master", "darkorange"))
      else if rating >= 2500.0 then Found(Title("EX", "Expert", "purple"))
      else if rating >= 2350.0 then Found(Title("S+", "S+", "gold"))
      else if rating >= 2200.0 then Found(Title("S", "S", "gold"))
      else if rating >= 2000.0 then Found(Title("S-", "S-", "gold"))
      else if rating >= 1800.0 then Found(Title("A+", "A+", "green"))
      else if rating >= 1600.0 then Found(Title("A", "A", "green"))
      else if rating >= 1400.0 then Found(Title("A-", "A-", "green"))
      else if rating >= 1200.0 then Found(Title("B+", "B+", "#413cde"))
      else if rating >= 1000.0 then Found(Title("B", "B", "#413cde"))
      else if rating >= 800.0 then Found(Title("B-", "B-", "#413cde"))
      else if rating >= 600.0 then Found(Title("C+", "C+", "gray"))
      else if rating > 0.0 then Found(Title("C", "C", "gray"))
      else Null
    else
      Undefined
  }

  /** The place of a title in the ladder, 1 for `C` up to 16 for `LGM`;
      0 for anything else. */
  function Rank(r: TitleResult): nat
  {
    if !(r.Found? && r.entry.Title?) then 0
    else
      var t := r.entry.title;
      if t == "LGM" then 16
      else if t == "GM" then 15
      else if t == "M" then 14
      else if t == "CM" then 13
      else if t == "EX" then 12
      else if t == "S+" then 11
      else if t == "S" then 10
      else if t == "S-" then 9
      else if t == "A+" then 8
      else if t == "A" then 7
      else if t == "A-" then 6
      else if t == "B+" then 5
      else if t == "B" then 4
      else if t == "B-" then 3
      else if t == "C+" then 2
      else if t == "C" then 1
      else 0
  }

  /** How many thresholds a rating reaches, the bottom one being "above
      zero". */
  function ThresholdsReached(rating: real): nat
  {
    (if rating > 0.0 then 1 else 0) + (if rating >= 600.0 then 1 else 0)
    + (if rating >= 800.0 then 1 else 0) + (if rating >= 1000.0 then 1 else 0)
    + (if rating >= 1200.0 then 1 else 0) + (if rating >= 1400.0 then 1 else 0)
    + (if rating >= 1600.0 then 1 else 0) + (if rating >= 1800.0 then 1 else 0)
    + (if rating >= 2000.0 then 1 else 0) + (if rating >= 2200.0 then 1 else 0)
    + (if rating >= 2350.0 then 1 else 0) + (if rating >= 2500.0 then 1 else 0)
    + (if rating >= 2800.0 then 1 else 0) + (if rating >= 3000.0 then 1 else 0)
    + (if rating >= 3600.0 then 1 else 0) + (if rating >= 4200.0 then 1 else 0)
  }

  /** The title is the one whose place in the ladder is the number of
      thresholds the rating reaches. */
  lemma RankByThresholds(x: real)
    ensures Rank(GetTitle("dl", x)) == ThresholdsReached(x)
  {
    if x >= 4200.0 {
    } else if x >= 3600.0 {
    } else if x >= 3000.0 {
    } else if x >= 2800.0 {
    } else if x >= 2500.0 {
    } else if x >= 2350.0 {
    } else if x >= 2200.0 {
    } else if x >= 2000.0 {
    } else if x >= 1800.0 {
    } else if x >= 1600.0 {
    } else if x >= 1400.0 {
    } else if x >= 1200.0 {
    } else if x >= 1000.0 {
    } else if x >= 800.0 {
    } else if x >= 600.0 {
    } else if x > 0.0 {
    }
  }

  /** Every positive rating has a title; a higher rating never has a lower
      one. */
  lemma Monotone(a: real, b: real)
    requires a <= b
    ensures a > 0.0 ==> Rank(GetTitle("dl", a)) >= 1
    ensures Rank(GetTitle("dl", a)) <= Rank(GetTitle("dl", b))
  {
    RankByThresholds(a);
    RankByThresholds(b);
  }

  /** The top and bottom of the table, and its inclusive thresholds. */
  lemma Boundaries(rating: real)
    ensures rating >= 4200.0 ==> GetTitle("dl", rating) == Found(Title("LGM", "Legendary Grandmaster", "darkred"))
    ensures 0.0 < rating < 600.0 ==> GetTitle("dl", rating).entry.title == "C"
    ensures rating == 600.0 ==> GetTitle("dl", rating).entry.title == "C+"
    ensures rating == 599.0 ==> GetTitle("dl", rating).entry.title == "C"
  {
  }

  /** From `S+` down to `C` the short and the full title are the same. */
  lemma LetterGradesSelfNamed(rating: real)
    requires 0.0 < rating < 2500.0
    ensures GetTitle("dl", rating).entry.title == GetTitle("dl", rating).entry.fullTitle
  {
  }
}
