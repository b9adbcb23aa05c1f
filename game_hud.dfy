/** The heads-up display: rank badge, experience bar and mission bar. */
module GameHUD {
  import opened Units
  import Text

  const GrayBadge: string := "bg-gray-100 text-gray-800 border-gray-200"

  const KnownRanks: set<string> := {"decanus", "optio", "centurion", "tribune"}

  /** The switch of `getRankBadgeColor`, on an already lower-cased rank. */
  function BadgeForRank(lowered: string): (r: string)
    ensures lowered !in KnownRanks ==> r == GrayBadge
    ensures lowered in KnownRanks ==> r != GrayBadge
  {
    match lowered
    case "decanus" => "bg-brown-100 text-brown-800 border-brown-200"
    case "optio" => "bg-blue-100 text-blue-800 border-blue-200"
    case "centurion" => "bg-purple-100 text-purple-800 border-purple-200"
    case "tribune" => "bg-gold-100 text-gold-800 border-gold-200"
    case _ => GrayBadge
  }

  /** `getRankBadgeColor`: a switch on the lower-cased rank. */
  function RankBadgeColor(rank: string): (r: string)
    ensures Text.ToLower(rank) !in KnownRanks ==> r == GrayBadge
    ensures Text.ToLower(rank) in KnownRanks ==> r != GrayBadge
  {
    BadgeForRank(Text.ToLower(rank))
  }

  /** The badge ignores case: a rank and its lower-cased spelling look alike. */
  lemma RankBadgeIgnoresCase(rank: string)
    ensures RankBadgeColor(rank) == RankBadgeColor(Text.ToLower(rank))
  {
    Text.ToLowerIdempotent(rank);
  }

  /** `getExperienceColor`: the experience percentage at least 80, 60, 40, or less. */
  function ExperienceColor(experience: int, maxExperience: int): (r: string)
    ensures r == "bg-purple-500" <==> QuotientAtLeast(experience, maxExperience, 0.8)
    ensures r == "bg-blue-500" <==>
              !QuotientAtLeast(experience, maxExperience, 0.8) && QuotientAtLeast(experience, maxExperience, 0.6)
    ensures r == "bg-green-500" <==>
              !QuotientAtLeast(experience, maxExperience, 0.6) && QuotientAtLeast(experience, maxExperience, 0.4)
    ensures r == "bg-gray-500" <==> !QuotientAtLeast(experience, maxExperience, 0.4)
  {
    if QuotientAtLeast(experience, maxExperience, 0.8) then "bg-purple-500"
    else if QuotientAtLeast(experience, maxExperience, 0.6) then "bg-blue-500"
    else if QuotientAtLeast(experience, maxExperience, 0.4) then "bg-green-500"
    else "bg-gray-500"
  }

  /** The XP bar's width in percent: `experience / maxExperience * 100`. */
  function ExperienceBarWidth(experience: int, maxExperience: int): (w: real)
    requires maxExperience != 0
    ensures w * (maxExperience as real) == 100.0 * (experience as real)
    ensures 0 <= experience <= maxExperience ==> 0.0 <= w <= 100.0
    ensures w == 100.0 <==> experience == maxExperience
  {
    Percentage(experience, maxExperience)
  }

  /** The mission bar's width is the progress itself, in percent. */
  function MissionBarWidth(missionProgress: int): (w: real)
    ensures 0 <= missionProgress <= 100 ==> 0.0 <= w <= 100.0
    ensures w == missionProgress as real
  {
    missionProgress as real
  }
}
