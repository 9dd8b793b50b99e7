/** The labels of a category card (client/src/components/CategoryCard.tsx):
    the icon and palette looked up by name with their fallbacks, and the
    performance label of the score. */
module CategoryCard {
  datatype Icon = Shield | Factory | Zap | Users | Gavel | Truck

  /** `iconMap`: lower-case names only. */
  const IconMap: map<string, Icon> := map[
    "shield" := Shield, "factory" := Factory, "zap" := Zap,
    "users" := Users, "gavel" := Gavel, "truck" := Truck]

  /** The three classes a palette supplies. */
  datatype Palette = Palette(bg: string, text: string, progress: string)

  const Blue := Palette("bg-blue-100", "text-blue-600", "bg-blue-600")

  /** `colorMap`. */
  const ColorMap: map<string, Palette> := map[
    "blue" := Blue,
    "orange" := Palette("bg-orange-100", "text-orange-600", "bg-orange-600"),
    "green" := Palette("bg-green-100", "text-green-600", "bg-green-600"),
    "purple" := Palette("bg-purple-100", "text-purple-600", "bg-purple-600"),
    "indigo" := Palette("bg-indigo-100", "text-indigo-600", "bg-indigo-600"),
    "red" := Palette("bg-red-100", "text-red-600", "bg-red-600")]

  /** `iconMap[icon] || Shield`. */
  function IconFor(icon: string): (r: Icon)
    ensures icon !in IconMap ==> r == Shield
    ensures icon in IconMap ==> r == IconMap[icon]
  {
    if icon in IconMap then IconMap[icon] else Shield
  }

  /** `colorMap[color] || colorMap.blue`. */
  function PaletteFor(color: string): (r: Palette)
    ensures color !in ColorMap ==> r == Blue
    ensures color in ColorMap ==> r == ColorMap[color]
  {
    if color in ColorMap then ColorMap[color] else Blue
  }

  /** The icon and colour names the dashboard passes to its six cards, in
      its order (client/src/pages/dashboard.tsx). */
  const DashboardCards: seq<(string, string)> := [
    ("shield", "blue"), ("factory", "orange"), ("zap", "green"),
    ("users", "purple"), ("gavel", "indigo"), ("truck", "red")]

  /** Every dashboard card names an entry of both tables, so no card falls
      back to the shield or the blue palette unless it names them; and no
      two cards share an icon or a palette. */
  lemma DashboardCardsUseOwnEntries(i: nat, j: nat)
    requires i < j < |DashboardCards|
    ensures DashboardCards[i].0 in IconMap && DashboardCards[i].1 in ColorMap
    ensures DashboardCards[j].0 in IconMap && DashboardCards[j].1 in ColorMap
    ensures IconFor(DashboardCards[i].0) != IconFor(DashboardCards[j].0)
    ensures PaletteFor(DashboardCards[i].1) != PaletteFor(DashboardCards[j].1)
  {
  }

  datatype Performance = Excellent | Good | Moderate | NeedsAttention

  /** The label under the progress bar: 80, 60 and 40 are the thresholds. */
  function PerformanceOf(score: real): (r: Performance)
    ensures r == Excellent <==> score >= 80.0
    ensures r == Good <==> 60.0 <= score < 80.0
    ensures r == Moderate <==> 40.0 <= score < 60.0
    ensures r == NeedsAttention <==> score < 40.0
  {
    if score >= 80.0 then Excellent
    else if score >= 60.0 then Good
    else if score >= 40.0 then Moderate
    else NeedsAttention
  }

  /** The rank of a label, best first. */
  function Rank(p: Performance): nat {
    match p
    case Excellent => 3
    case Good => 2
    case Moderate => 1
    case NeedsAttention => 0
  }

  /** A higher score never gets a worse label. */
  lemma PerformanceMonotone(a: real, b: real)
    requires a <= b
    ensures Rank(PerformanceOf(a)) <= Rank(PerformanceOf(b))
  {
  }
}
