/** The fascism-index panel: two fixed 14-point checklists (Lawrence Britt's and
    Umberto Eco's), a table of per-country scores for each checklist, the rounded
    averages of a country's two score rows, their rounded mean as the overall
    index, and the colour and label classifiers applied to those numbers. */
module FascismIndicators {
  import opened Js
  import Bands

  /** One point of a checklist. */
  datatype Indicator = Indicator(id: nat, name: string, description: string)

  /** A score of the table: an integer percentage. */
  type Percent = x: int | 0 <= x <= 100

  /** A country's scores, one per checklist point, in checklist order. */
  datatype ScoreRow = ScoreRow(britt: seq<Percent>, eco: seq<Percent>)

  /** One line of a checklist as displayed: the point, its score and the score's colour. */
  datatype IndicatorLine = IndicatorLine(indicator: Indicator, score: int, color: string)

  const IndicatorCount: nat := 14

  const BrittIndicators: seq<Indicator> := [
    Indicator(1, "Мощный национализм", "Использование патриотических лозунгов, символов, песен"),
    Indicator(2, "Пренебрежение правами человека", "Оправдание нарушений прав ради безопасности"),
    Indicator(3, "Определение врагов/козлов отпущения", "Единство через создание образа врага"),
    Indicator(4, "Превосходство военных", "Милитаризация общества, большие военные бюджеты"),
    Indicator(5, "Сексизм", "Ограничение прав женщин, традиционные гендерные роли"),
    Indicator(6, "Контроль СМИ", "Цензура, пропаганда, государственные медиа"),
    Indicator(7, "Одержимость нацбезопасностью", "Страх перед внешними угрозами"),
    Indicator(8, "Религия и правительство", "Использование религии для манипуляции"),
    Indicator(9, "Защита корпоративных интересов", "Слияние бизнеса и власти"),
    Indicator(10, "Подавление рабочего движения", "Запрет профсоюзов, протестов"),
    Indicator(11, "Пренебрежение к интеллектуалам", "Антиинтеллектуализм, нападки на науку"),
    Indicator(12, "Одержимость преступностью", "Жёсткие законы, полицейское государство"),
    Indicator(13, "Кумовство и коррупция", "Назначение лояльных, безнаказанность элиты"),
    Indicator(14, "Фальсификация выборов", "Манипуляции с голосованием")
  ]

  const EcoIndicators: seq<Indicator> := [
    Indicator(1, "Культ традиции", "Апелляция к древним ценностям"),
    Indicator(2, "Отрицание модернизма", "Рационализм как источник зла"),
    Indicator(3, "Культ действия", "Действие ради действия, недоверие к интеллекту"),
    Indicator(4, "Несогласие - предательство", "Критическое мышление как измена"),
    Indicator(5, "Страх перед различием", "Ксенофобия, расизм"),
    Indicator(6, "Апелляция к фрустрированным", "Обращение к среднему классу"),
    Indicator(7, "Одержимость заговорами", "Враги внутри и снаружи"),
    Indicator(8, "Враги одновременно сильны и слабы", "Противоречивый образ врага"),
    Indicator(9, "Жизнь - постоянная борьба", "Пацифизм как предательство"),
    Indicator(10, "Элитизм", "Презрение к слабым"),
    Indicator(11, "Культ героической смерти", "Героизация жертвенности"),
    Indicator(12, "Мачизм и оружие", "Культ мужественности, милитаризм"),
    Indicator(13, "Селективный популизм", "Народ един, вождь его выразитель"),
    Indicator(14, "Новояз", "Упрощённый язык для ограничения мысли")
  ]

  const RussiaBritt: seq<Percent> := [85, 75, 90, 80, 60, 95, 85, 70, 80, 85, 75, 80, 90, 70]
  const RussiaEco: seq<Percent> := [80, 70, 85, 90, 75, 80, 95, 85, 90, 75, 70, 80, 90, 85]
  const ChinaBritt: seq<Percent> := [90, 80, 85, 75, 55, 98, 90, 60, 85, 90, 70, 85, 88, 75]
  const ChinaEco: seq<Percent> := [75, 65, 80, 95, 70, 75, 90, 80, 85, 70, 65, 75, 95, 90]
  const BelarusBritt: seq<Percent> := [88, 85, 92, 70, 65, 97, 88, 75, 82, 90, 78, 85, 93, 80]
  const BelarusEco: seq<Percent> := [82, 75, 88, 93, 80, 85, 93, 88, 92, 78, 75, 82, 93, 88]
  const UnitedStatesBritt: seq<Percent> := [60, 40, 55, 65, 45, 35, 70, 50, 70, 40, 35, 65, 60, 45]
  const UnitedStatesEco: seq<Percent> := [50, 40, 45, 40, 55, 50, 60, 50, 55, 45, 40, 55, 50, 40]
  const GermanyBritt: seq<Percent> := [30, 20, 25, 20, 15, 25, 35, 20, 40, 15, 20, 30, 35, 20]
  const GermanyEco: seq<Percent> := [25, 20, 30, 20, 20, 25, 30, 25, 25, 20, 18, 25, 25, 28]
  const NorwayBritt: seq<Percent> := [20, 15, 18, 15, 10, 20, 25, 15, 35, 10, 15, 25, 28, 15]
  const NorwayEco: seq<Percent> := [18, 15, 22, 15, 15, 20, 22, 20, 20, 15, 12, 20, 20, 22]
  const FranceBritt: seq<Percent> := [35, 25, 30, 25, 20, 28, 40, 25, 45, 20, 22, 35, 40, 25]
  const FranceEco: seq<Percent> := [30, 25, 32, 25, 25, 28, 35, 28, 30, 22, 20, 28, 28, 30]
  const JapanBritt: seq<Percent> := [45, 25, 35, 50, 40, 30, 35, 35, 55, 30, 25, 30, 40, 28]
  const JapanEco: seq<Percent> := [40, 30, 38, 30, 30, 35, 38, 35, 40, 28, 30, 35, 35, 35]

  /** `mockScores`: country code to score row. */
  const MockScores: map<string, ScoreRow> := map[
    "RU" := ScoreRow(RussiaBritt, RussiaEco),
    "CN" := ScoreRow(ChinaBritt, ChinaEco),
    "BY" := ScoreRow(BelarusBritt, BelarusEco),
    "US" := ScoreRow(UnitedStatesBritt, UnitedStatesEco),
    "DE" := ScoreRow(GermanyBritt, GermanyEco),
    "NO" := ScoreRow(NorwayBritt, NorwayEco),
    "FR" := ScoreRow(FranceBritt, FranceEco),
    "JP" := ScoreRow(JapanBritt, JapanEco)
  ]

  const FallbackCode: string := "US"

  // ---------------------------------------------------------------------------
  // Invariants of the constant tables

  /** A score row has one score per checklist point (each in 0..100 by its type). */
  predicate RowWellFormed(r: ScoreRow)
  {
    |r.britt| == IndicatorCount && |r.eco| == IndicatorCount
  }

  /** A checklist has 14 points numbered 1..14 in order. */
  predicate ChecklistWellFormed(indicators: seq<Indicator>)
  {
    |indicators| == IndicatorCount &&
    forall i :: 0 <= i < |indicators| ==> indicators[i].id == i + 1
  }

  lemma ChecklistsWellFormed()
    ensures ChecklistWellFormed(BrittIndicators)
    ensures ChecklistWellFormed(EcoIndicators)
  {
  }

  /** Every row of the table has 14 + 14 scores. */
  lemma TableWellFormed()
    ensures FallbackCode in MockScores
    ensures forall code :: code in MockScores ==> RowWellFormed(MockScores[code])
  {
  }

  // ---------------------------------------------------------------------------
  // Lookup with fallback

  /** `mockScores[countryCode] || mockScores['US']`: a known code gives its own row,
      any other code the row of the United States. */
  function ScoresFor(code: string): (r: ScoreRow)
    ensures RowWellFormed(r)
    ensures code in MockScores ==> r == MockScores[code]
    ensures code !in MockScores ==> r == MockScores[FallbackCode]
  {
    TableWellFormed();
    if code in MockScores then MockScores[code] else MockScores[FallbackCode]
  }

  // ---------------------------------------------------------------------------
  // Averages

  /** `xs.reduce((a, b) => a + b, acc)`: the running total, from the left. */
  function ReduceAdd(acc: int, xs: seq<int>): int
    decreases |xs|
  {
    if xs == [] then acc else ReduceAdd(acc + xs[0], xs[1..])
  }

  /** A left fold from `acc` adds `acc` to the fold from 0. */
  lemma {:induction false} ReduceAddShift(acc: int, xs: seq<int>)
    ensures ReduceAdd(acc, xs) == acc + ReduceAdd(0, xs)
    decreases |xs|
  {
    if xs != [] {
      ReduceAddShift(acc + xs[0], xs[1..]);
      ReduceAddShift(xs[0], xs[1..]);
    }
  }

  /** The sum of the scores, with the first element split off. */
  function Sum(xs: seq<int>): int
  {
    if xs == [] then 0 else xs[0] + Sum(xs[1..])
  }

  /** `Sum` is what `FascismIndicators` computes with `reduce`, folding from the left. */
  lemma {:induction false} SumIsReduce(xs: seq<int>)
    ensures Sum(xs) == ReduceAdd(0, xs)
  {
    if xs != [] {
      SumIsReduce(xs[1..]);
      ReduceAddShift(xs[0], xs[1..]);
    }
  }

  function Min(xs: seq<int>): (m: int)
    requires |xs| > 0
    ensures m in xs
    ensures forall i :: 0 <= i < |xs| ==> m <= xs[i]
  {
    if |xs| == 1 then xs[0]
    else
      var m := Min(xs[1..]);
      if xs[0] <= m then xs[0] else m
  }

  function Max(xs: seq<int>): (m: int)
    requires |xs| > 0
    ensures m in xs
    ensures forall i :: 0 <= i < |xs| ==> xs[i] <= m
  {
    if |xs| == 1 then xs[0]
    else
      var m := Max(xs[1..]);
      if xs[0] >= m then xs[0] else m
  }

  /** A sum of values lying in lo..hi lies in n*lo..n*hi. */
  lemma {:induction false} SumBounds(xs: seq<int>, lo: int, hi: int)
    requires forall i :: 0 <= i < |xs| ==> lo <= xs[i] <= hi
    ensures |xs| * lo <= Sum(xs) <= |xs| * hi
  {
    if xs != [] {
      var tail := xs[1..];
      SumBounds(tail, lo, hi);
      assert |xs| * lo == |tail| * lo + lo;
      assert |xs| * hi == |tail| * hi + hi;
    }
  }

  /** A value rounded from a quotient s/n with n*lo <= s <= n*hi lies in lo..hi. */
  lemma RoundedBetween(s: int, n: int, r: int, lo: int, hi: int)
    requires n > 0 && n * lo <= s <= n * hi
    requires n * (2 * r - 1) <= 2 * s < n * (2 * r + 1)
    ensures lo <= r <= hi
  {
    assert n * (2 * hi + 1) == 2 * (n * hi) + n;
    assert n * (2 * lo - 1) == 2 * (n * lo) - n;
    if r > hi {
      MulMonotone(n, 2 * hi + 1, 2 * r - 1);
    }
    if r < lo {
      MulMonotone(n, 2 * r + 1, 2 * lo - 1);
    }
  }

  /** `Math.round(sum / length)`: the integer nearest the mean, halves rounded up.
      It lies between the least and the greatest value. `FascismIndicators` never averages
      an empty array (it would give NaN). */
  function RoundedMean(xs: seq<int>): (r: int)
    requires |xs| > 0
    ensures |xs| * (2 * r - 1) <= 2 * Sum(xs) < |xs| * (2 * r + 1)
    ensures Min(xs) <= r <= Max(xs)
  {
    var r := RoundQuotient(Sum(xs), |xs|);
    SumBounds(xs, Min(xs), Max(xs));
    RoundedBetween(Sum(xs), |xs|, r, Min(xs), Max(xs));
    r
  }

  /** The Britt average of a country (after the fallback lookup). */
  function BrittAverage(code: string): (a: int)
    ensures 0 <= a <= 100
    ensures a == RoundedMean(ScoresFor(code).britt)
  {
    var xs := ScoresFor(code).britt;
    assert 0 <= Min(xs) && Max(xs) <= 100;
    RoundedMean(xs)
  }

  /** The Eco average of a country (after the fallback lookup). */
  function EcoAverage(code: string): (a: int)
    ensures 0 <= a <= 100
    ensures a == RoundedMean(ScoresFor(code).eco)
  {
    var xs := ScoresFor(code).eco;
    assert 0 <= Min(xs) && Max(xs) <= 100;
    RoundedMean(xs)
  }

  /** `Math.round((brittAverage + ecoAverage) / 2)`: the rounded mean of the two
      averages; it lies between them. */
  function CombinedScore(brittAverage: int, ecoAverage: int): (t: int)
    ensures 2 * t - 1 <= brittAverage + ecoAverage < 2 * t + 1
    ensures brittAverage <= ecoAverage ==> brittAverage <= t <= ecoAverage
    ensures ecoAverage <= brittAverage ==> ecoAverage <= t <= brittAverage
  {
    RoundQuotient(brittAverage + ecoAverage, 2)
  }

  /** The overall fascism index of a country. */
  function TotalFascismScore(code: string): (t: int)
    ensures 0 <= t <= 100
    ensures t == CombinedScore(BrittAverage(code), EcoAverage(code))
  {
    CombinedScore(BrittAverage(code), EcoAverage(code))
  }

  /** An unknown code is scored as the United States. */
  lemma UnknownCodeFallsBack(code: string)
    requires code !in MockScores
    ensures BrittAverage(code) == BrittAverage(FallbackCode)
    ensures EcoAverage(code) == EcoAverage(FallbackCode)
    ensures TotalFascismScore(code) == TotalFascismScore(FallbackCode)
  {
  }

  // A worked example of the averages, one small step per lemma.

  lemma UnitedStatesBrittSum()
    ensures Sum(UnitedStatesBritt) == 735
  {
  }

  lemma UnitedStatesEcoSum()
    ensures Sum(UnitedStatesEco) == 675
  {
  }

  lemma UnitedStatesBrittMean()
    ensures RoundedMean(UnitedStatesBritt) == 53
  {
    UnitedStatesBrittSum();
    RoundQuotientUnique(735, 14, 53);
  }

  lemma UnitedStatesEcoMean()
    ensures RoundedMean(UnitedStatesEco) == 48
  {
    UnitedStatesEcoSum();
    RoundQuotientUnique(675, 14, 48);
  }

  lemma UnitedStatesBrittLookup()
    ensures BrittAverage("US") == RoundedMean(UnitedStatesBritt)
  {
  }

  lemma UnitedStatesEcoLookup()
    ensures EcoAverage("US") == RoundedMean(UnitedStatesEco)
  {
  }

  /** The United States row exercises the half-up rule twice: 735/14 = 52.5 rounds
      to 53, and (53 + 48)/2 = 50.5 rounds to 51. */
  lemma UnitedStatesIndex()
    ensures BrittAverage("US") == 53
    ensures EcoAverage("US") == 48
    ensures TotalFascismScore("US") == 51
  {
    UnitedStatesBrittLookup();
    UnitedStatesEcoLookup();
    UnitedStatesBrittMean();
    UnitedStatesEcoMean();
    RoundQuotientUnique(101, 2, 51);
  }

  // ---------------------------------------------------------------------------
  // Classifiers

  /** `getScoreColor` of the panel: a high score is red, a middle one yellow, a low
      one green (the opposite colours of the democracy scores). */
  function ScoreColor(score: int): (c: string)
    ensures c == "text-red-500" <==> score >= 70
    ensures c == "text-yellow-500" <==> 40 <= score < 70
    ensures c == "text-green-500" <==> score < 40
    ensures c == match Bands.BandOf(score)
                 case High => "text-red-500"
                 case Medium => "text-yellow-500"
                 case Low => "text-green-500"
  {
    if score >= 70 then "text-red-500"
    else if score >= 40 then "text-yellow-500"
    else "text-green-500"
  }

  /** `getScoreLabel`: four severity levels with cut points 80, 60 and 40. */
  function ScoreLabel(score: int): (l: string)
    ensures l == "Критический" <==> score >= 80
    ensures l == "Высокий" <==> 60 <= score < 80
    ensures l == "Средний" <==> 40 <= score < 60
    ensures l == "Низкий" <==> score < 40
  {
    if score >= 80 then "Критический"
    else if score >= 60 then "Высокий"
    else if score >= 40 then "Средний"
    else "Низкий"
  }

  /** The severity order of the labels: Низкий < Средний < Высокий < Критический. */
  function LabelRank(l: string): int
  {
    if l == "Критический" then 3
    else if l == "Высокий" then 2
    else if l == "Средний" then 1
    else 0
  }

  /** A higher score never gets a less severe label. */
  lemma LabelMonotone(a: int, b: int)
    requires a <= b
    ensures LabelRank(ScoreLabel(a)) <= LabelRank(ScoreLabel(b))
  {
  }

  // ---------------------------------------------------------------------------
  // Checklist lines

  /** `indicators.map((indicator, idx) => ... scores[idx] ...)`: each point with the
      score at the same position. */
  function Lines(indicators: seq<Indicator>, scores: seq<int>): (ls: seq<IndicatorLine>)
    requires |scores| == |indicators|
    ensures |ls| == |indicators|
    ensures forall i :: 0 <= i < |ls| ==>
      ls[i].indicator == indicators[i] && ls[i].score == scores[i] && ls[i].color == ScoreColor(scores[i])
  {
    seq(|indicators|, i requires 0 <= i < |indicators| => IndicatorLine(indicators[i], scores[i], ScoreColor(scores[i])))
  }

  function BrittLines(code: string): (ls: seq<IndicatorLine>)
    ensures |ls| == IndicatorCount
  {
    Lines(BrittIndicators, ScoresFor(code).britt)
  }

  function EcoLines(code: string): (ls: seq<IndicatorLine>)
    ensures |ls| == IndicatorCount
  {
    Lines(EcoIndicators, ScoresFor(code).eco)
  }

  /** Point number `id` of either checklist is shown with score `id - 1` of the row,
      so the positional pairing is the pairing by point number. */
  lemma LinesPairById(code: string, i: int)
    requires 0 <= i < IndicatorCount
    ensures BrittLines(code)[i].score == ScoresFor(code).britt[BrittLines(code)[i].indicator.id - 1]
    ensures EcoLines(code)[i].score == ScoresFor(code).eco[EcoLines(code)[i].indicator.id - 1]
    ensures 0 <= BrittLines(code)[i].score <= 100 && 0 <= EcoLines(code)[i].score <= 100
  {
    ChecklistsWellFormed();
  }
}
