/** `getTitle(list, player)`: the title shown next to a player, from the
    player's rating on the `dl` list or from the player's elo and number
    of contests on the `elo` list. Both are chains of inclusive lower
    thresholds tried from the top. */
module Titles {
  import opened TitleTypes

  /** The fields of the player object the lookup reads. */
  datatype Player = Player(rating: real, matchCount: int, elo: real)

  /** The message for a player who has not played enough contests. */
  function NeedMore(matchCount: int): string
    requires matchCount < 10
  {
    "Need " + Decimal(10 - matchCount) + " more contest to be ranked"
  }

  function GetTitle(list: string, player: Player): (r: TitleResult)
    ensures r == Undefined <==> list != "dl" && list != "elo"
    ensures r == Null <==> list == "dl" && player.rating <= 0.0
    ensures r.Found? && r.entry.Pending? <==> list == "elo" && player.matchCount < 10
  {
    if list == "dl" then
      if player.rating >= 6000.0 then
        Found(Title("AGM", "Ascended Grandmaster", "white;background: linear-gradient(to right, #ff00cc, #333399);"))
      else if player.rating >= 5000.0 then Found(Title("LGM", "Legendary Grandmaster", "darkred"))
      else if player.rating >= 4000.0 then Found(Title("GM", "Grandmaster", "red"))
      else if player.rating >= 3000.0 then Found(Title("M", "Master", "hsla(321, 100%, 50%, 1)"))
      else if player.rating >= 2500.0 then Found(Title("CM", "Candidate Master", "purple"))
      else if player.rating >= 2000.0 then Found(Title("EX", "Expert", "blue"))
      else if player.rating >= 1500.0 then Found(Title("SP", "Specialist", "darkcyan"))
      else if player.rating >= 1000.0 then Found(Title("A", "A", "green"))
      else if player.rating >= 500.0 then Found(Title("B", "B", "#413cde"))
      else if player.rating > 0.0 then Found(Title("C", "C", "gray"))
      else Null
    else if list == "elo" then
      if player.matchCount < 10 then Found(Pending(NeedMore(player.matchCount)))
      else if player.elo >= 3500.0 then Found(Title("Global Elite", "GE", "darkred"))
      else if player.elo >= 3000.0 then Found(Title("Elite", "E", "red"))
      else if player.elo >= 2500.0 then Found(Title("Challenger First Class", "CFE", "hsla(321, 100%, 50%, 1)"))
      else if player.elo >= 2000.0 then Found(Title("Challenger", "CH", "purple"))
      else if player.elo >= 1500.0 then Found(Title("Diamond", "DM", "darkcyan"))
      else if player.elo >= 1000.0 then Found(Title("Gold", "AU", "darkyellow"))
      else if player.elo >= 500.0 then Found(Title("Silver", "AG", "gray"))
      else if player.elo >= 200.0 then Found(Title("Iron", "FE", "gray"))
      else Found(Title("P", "Plastic", "P"))
    else
      Undefined
  }

  /** The place of a `dl` title in the ladder, 1 for `C` up to 10 for
      `AGM`; 0 for anything else. */
  function DlRank(r: TitleResult): nat
  {
    if !(r.Found? && r.entry.Title?) then 0
    else
      var t := r.entry.title;
      if t == "AGM" then 10
      else if t == "LGM" then 9
      else if t == "GM" then 8
      else if t == "M" then 7
      else if t == "CM" then 6
      else if t == "EX" then 5
      else if t == "SP" then 4
      else if t == "A" then 3
      else if t == "B" then 2
      else if t == "C" then 1
      else 0
  }

  /** The place of a ranked `elo` title in the ladder, 1 for Plastic up to
      9 for Global Elite; 0 for anything else. */
  function EloRank(r: TitleResult): nat
  {
    if !(r.Found? && r.entry.Title?) then 0
    else
      var t := r.entry.title;
      if t == "Global Elite" then 9
      else if t == "Elite" then 8
      else if t == "Challenger First Class" then 7
      else if t == "Challenger" then 6
      else if t == "Diamond" then 5
      else if t == "Gold" then 4
      else if t == "Silver" then 3
      else if t == "Iron" then 2
      else if t == "P" then 1
      else 0
  }

  /** How many `dl` thresholds a rating reaches, the bottom one being
      "above zero". */
  function DlThresholdsReached(rating: real): nat
  {
    (if rating > 0.0 then 1 else 0) + (if rating >= 500.0 then 1 else 0)
    + (if rating >= 1000.0 then 1 else 0) + (if rating >= 1500.0 then 1 else 0)
    + (if rating >= 2000.0 then 1 else 0) + (if rating >= 2500.0 then 1 else 0)
    + (if rating >= 3000.0 then 1 else 0) + (if rating >= 4000.0 then 1 else 0)
    + (if rating >= 5000.0 then 1 else 0) + (if rating >= 6000.0 then 1 else 0)
  }

  /** The `dl` title is the one whose place in the ladder is the number of
      thresholds the rating reaches. */
  lemma DlRankByThresholds(p: Player)
    ensures DlRank(GetTitle("dl", p)) == DlThresholdsReached(p.rating)
  {
    var x := p.rating;
    if x >= 6000.0 {
    } else if x >= 5000.0 {
    } else if x >= 4000.0 {
    } else if x >= 3000.0 {
    } else if x >= 2500.0 {
    } else if x >= 2000.0 {
    } else if x >= 1500.0 {
    } else if x >= 1000.0 {
    } else if x >= 500.0 {
    } else if x > 0.0 {
    }
  }

  /** Every positive rating has a `dl` title; a higher rating never has a
      lower one. */
  lemma DlMonotone(p: Player, q: Player)
    requires p.rating <= q.rating
    ensures p.rating > 0.0 ==> DlRank(GetTitle("dl", p)) >= 1
    ensures DlRank(GetTitle("dl", p)) <= DlRank(GetTitle("dl", q))
  {
    DlRankByThresholds(p);
    DlRankByThresholds(q);
  }

  /** The `dl` thresholds are inclusive lower bounds. */
  lemma DlBoundaries(p: Player)
    ensures p.rating >= 6000.0 ==> GetTitle("dl", p).entry.title == "AGM"
    ensures p.rating == 5000.0 ==> GetTitle("dl", p).entry.title == "LGM"
    ensures p.rating == 4999.0 ==> GetTitle("dl", p).entry.title == "GM"
    ensures p.rating == 500.0 ==> GetTitle("dl", p).entry.title == "B"
    ensures 0.0 < p.rating < 500.0 ==> GetTitle("dl", p).entry.title == "C"
  {
  }

  /** Below ten contests the answer is only the count still needed,
      whatever the elo. */
  lemma EloGate(p: Player)
    requires p.matchCount < 10
    ensures GetTitle("elo", p) == Found(Pending(NeedMore(p.matchCount)))
    ensures GetTitle("elo", p) == GetTitle("elo", Player(p.rating, p.matchCount, 0.0))
    ensures p.matchCount == 7 ==> GetTitle("elo", p).entry.fullTitle == "Need 3 more contest to be ranked"
  {
  }

  /** How many ranked `elo` thresholds an elo reaches, Plastic counting
      as the first. */
  function EloThresholdsReached(elo: real): nat
  {
    1 + (if elo >= 200.0 then 1 else 0) + (if elo >= 500.0 then 1 else 0)
    + (if elo >= 1000.0 then 1 else 0) + (if elo >= 1500.0 then 1 else 0)
    + (if elo >= 2000.0 then 1 else 0) + (if elo >= 2500.0 then 1 else 0)
    + (if elo >= 3000.0 then 1 else 0) + (if elo >= 3500.0 then 1 else 0)
  }

  /** A ranked player's title is the one whose place in the ladder is the
      number of thresholds the elo reaches. */
  lemma EloRankByThresholds(p: Player)
    requires p.matchCount >= 10
    ensures EloRank(GetTitle("elo", p)) == EloThresholdsReached(p.elo)
  {
    var x := p.elo;
    if x >= 3500.0 {
    } else if x >= 3000.0 {
    } else if x >= 2500.0 {
    } else if x >= 2000.0 {
    } else if x >= 1500.0 {
    } else if x >= 1000.0 {
    } else if x >= 500.0 {
    } else if x >= 200.0 {
    }
  }

  /** Among ranked players a higher elo never has a lower title, and an elo
      under 200 is Plastic. */
  lemma EloMonotone(p: Player, q: Player)
    requires 10 <= p.matchCount && 10 <= q.matchCount
    requires p.elo <= q.elo
    ensures 1 <= EloRank(GetTitle("elo", p)) <= EloRank(GetTitle("elo", q))
    ensures p.elo < 200.0 ==> GetTitle("elo", p) == Found(Title("P", "Plastic", "P"))
  {
    EloRankByThresholds(p);
    EloRankByThresholds(q);
  }
}
