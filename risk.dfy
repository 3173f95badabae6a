/**
 * The flood risk card: per risk level, two colour classes, a risk score out of
 * ten and a probability.
 */
module Risk {

  datatype RiskLevel = Low | Medium | High

  /** Position in the order low < medium < high. */
  function Rank(l: RiskLevel): nat
  {
    match l
    case Low => 0
    case Medium => 1
    case High => 2
  }

  /** `getRiskColor`: the gradient of the badge text and the confidence bar. */
  function RiskColor(l: RiskLevel): string
  {
    match l
    case Low => "from-green-500 to-emerald-500"
    case Medium => "from-yellow-500 to-orange-500"
    case High => "from-red-500 to-rose-600"
  }

  /** `getRiskBgColor`: the badge's background and border. */
  function RiskBgColor(l: RiskLevel): string
  {
    match l
    case Low => "bg-green-500/10 border-green-500/30"
    case Medium => "bg-yellow-500/10 border-yellow-500/30"
    case High => "bg-red-500/10 border-red-500/30"
  }

  /** Different levels never share a colour. */
  lemma ColorsDistinguishLevels(a: RiskLevel, b: RiskLevel)
    requires a != b
    ensures RiskColor(a) != RiskColor(b) && RiskBgColor(a) != RiskBgColor(b)
  {
  }

  /** The displayed risk score, in tenths: 8.5, 5.2 and 2.1. */
  function ScoreTenths(l: RiskLevel): nat
  {
    if l == High then 85 else if l == Medium then 52 else 21
  }

  /** The score text exactly as shown before "/10". */
  function ScoreText(l: RiskLevel): string
  {
    if l == High then "8.5" else if l == Medium then "5.2" else "2.1"
  }

  /** The displayed probability in percent. */
  function ProbabilityPercent(l: RiskLevel): nat
  {
    if l == High then 75 else if l == Medium then 45 else 15
  }

  function ProbabilityText(l: RiskLevel): string
  {
    if l == High then "75%" else if l == Medium then "45%" else "15%"
  }

  function Digit(d: nat): char
    requires d < 10
  {
    "0123456789"[d]
  }

  /** A value in tenths below 10.0 written with one decimal. */
  function TenthsText(n: nat): (s: string)
    requires n < 100
    ensures |s| == 3 && s[1] == '.'
  {
    [Digit(n / 10), '.', Digit(n % 10)]
  }

  /** A percentage below 100 written with two digits and "%". */
  function PercentText(n: nat): (s: string)
    requires 10 <= n < 100
    ensures |s| == 3 && s[2] == '%'
  {
    [Digit(n / 10), Digit(n % 10), '%']
  }

  /** The texts are the numbers: score and probability shown are exactly the tabled values. */
  lemma TextsShowNumbers(l: RiskLevel)
    ensures ScoreTenths(l) < 100 && ScoreText(l) == TenthsText(ScoreTenths(l))
    ensures 10 <= ProbabilityPercent(l) < 100 && ProbabilityText(l) == PercentText(ProbabilityPercent(l))
  {
  }

  /** Score and probability both strictly increase from low to medium to high. */
  lemma RiskTablesMonotone(a: RiskLevel, b: RiskLevel)
    requires Rank(a) < Rank(b)
    ensures ScoreTenths(a) < ScoreTenths(b)
    ensures ProbabilityPercent(a) < ProbabilityPercent(b)
  {
  }
}
