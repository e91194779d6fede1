# political-situation-analyzer, modelled in Dafny

The dashboard shows mock political indicators for a fixed set of countries. This
project models its computing core:

- **The fascism panel** (`FascismIndicators.tsx`). It looks up a country's two
  14-point checklists (Britt and Eco), falling back to the United States row. It
  averages each checklist with `Math.round`, combines the two averages into an
  overall index, and maps scores to a colour and a severity label.
- **The dashboard page** (`Index.tsx`). Its state is the selected country and the
  chart period. It has a country selector that looks a code up in the mock table.
  It shows four coloured score cards (the authoritarianism card is coloured by
  `100 - score`), a trend badge and a five-row comparison panel. Its news panel
  has three tabs: all sources, government and opposition.
- **The three maps** (`WorldMapRealistic.tsx`, `RealisticWorldMap.tsx`,
  `WorldMap.tsx`). Each map does the following:
  - fills every country by the 70/40 colour rule, with a default score of 50
    when the score is missing or 0;
  - draws a country selected, hovered or idle;
  - keeps a hover state that the mouse sets and clears;
  - labels the selected and the hovered country.

  `RealisticWorldMap` computes its label position by reading the path text back
  with `split(' ')` and `parseInt`. The model carries those two JavaScript
  built-ins exactly far enough to show what they yield.

Modules:
- `Js`: the JavaScript built-ins the core relies on:
  - `Math.round` of a quotient, `find`/`findIndex`, `filter`, `slice`,
    `split`, `xs[i]`;
  - `parseInt`, with NaN as a value;
  - `x || d` on a number that may be `undefined`.
- `Bands`: the 70/40 three-band rule, defined once. Every colour classifier is
  proved to agree with it.
- `FascismIndicators`, `IndexPage`: the panel and the page.
- `MapCommon`: what the three map components repeat word for word. That is the
  colour rule, the score default, the name lookup, the selected/hovered/idle
  choice, the hover state (a class whose field the handlers update) and the
  legend check.
- `WorldMapRealistic`, `RealisticWorldMap`, `WorldMap`: one module per map.

Notes on the modelling:
- Decimal constants are integers in hundredths (opacity 0.85 is 85, stroke
  width 2.5 is 250, `scale(1.1)` is 110).
- `Math.round(s / n)` is the integer `r` with `n(2r-1) <= 2s < n(2r+1)`, that
  is, halves round up.
- `parseInt`'s NaN is the `Num.NaN` value.

## Model

| member | source | states |
|---|---|---|
| Js.RoundQuotient | src/components/FascismIndicators.tsx:82-84 | `Math.round(s/n)` for `n > 0`: the nearest integer to the quotient, halves rounded up |
| Js.RoundQuotientUnique | src/components/FascismIndicators.tsx:82-84 | any integer within half a step of `s/n` (half-up) is the rounded quotient, so worked values can be checked |
| Js.FindIndex | src/pages/Index.tsx:98 | the index of the first element satisfying the predicate, or -1 exactly when none does |
| Js.Find | src/pages/Index.tsx:98 | `find` gives the first element satisfying the predicate, or undefined exactly when none does |
| Js.FindUnique | src/pages/Index.tsx:98 | when only element `k` satisfies the predicate, `find` gives element `k` |
| Js.Filter | src/pages/Index.tsx:292 | `filter` keeps exactly the elements satisfying the predicate, each from the input |
| Js.FilterAppend | src/pages/Index.tsx:292 | filtering a concatenation is the concatenation of the filtered parts, so order is kept |
| Js.FilterAll | src/pages/Index.tsx:292 | filtering with a predicate every element satisfies returns the input |
| Js.FilterPartition | src/pages/Index.tsx:292-315 | with two predicates that split the input, the two filtered lists together are a permutation of it |
| Js.RelativeIndex | src/pages/Index.tsx:238 | `slice` bounds: a negative index counts from the end, and the result is clamped to `0..len` |
| Js.Slice | src/pages/Index.tsx:238 | `slice(start, end)` is the subsequence between the clamped bounds |
| Js.SliceFromStart | src/pages/Index.tsx:238 | `slice(0, n)` is a prefix of the input, of length `n` or the whole length when that is shorter |
| Js.Split | src/components/RealisticWorldMap.tsx:78-79 | `split(sep)` gives at least one piece, none containing `sep`, whose join with `sep` is the input |
| Js.SplitWithoutSeparator | src/components/RealisticWorldMap.tsx:78-79 | a string without the separator splits into itself alone |
| Js.SplitAtFirstSeparator | src/components/RealisticWorldMap.tsx:78-79 | splitting `a + sep + b`, where `a` has no separator, gives `a` followed by the split of `b` |
| Js.SplitJoin | src/components/RealisticWorldMap.tsx:78-79 | split undoes join for pieces without the separator |
| Js.At | src/components/RealisticWorldMap.tsx:78-79 | `xs[i]` is the element when `i` is in range and undefined otherwise |
| Js.TrimStart | src/components/RealisticWorldMap.tsx:78 | `parseInt` skips leading white space: the result is the suffix left after removing exactly the leading white-space characters |
| Js.DigitValue | src/components/RealisticWorldMap.tsx:78 | a decimal digit has its numeric value and a letter its value from 10 up (a or A is 10, z or Z is 35); -1 exactly for a character that is neither |
| Js.DigitRun | src/components/RealisticWorldMap.tsx:78 | the longest prefix of digits of the radix |
| Js.ParseInt | src/components/RealisticWorldMap.tsx:78-79 | `parseInt` of an empty or all-blank string is NaN, and a negative result needs a leading minus sign once blanks are skipped |
| Js.ParseIntNoDigit | src/components/RealisticWorldMap.tsx:79 | `parseInt` of a string not starting with a sign, a digit or white space (such as "L" or "undefined") is NaN |
| Js.DigitRunAppend | src/components/RealisticWorldMap.tsx:78 | the digit run of digits followed by a non-digit is exactly those digits |
| Js.ParseIntFromDigit | src/components/RealisticWorldMap.tsx:78 | a string starting with a decimal digit and not with "0x" is read in radix 10 from its first character |
| Js.ParseIntNumeral | src/components/RealisticWorldMap.tsx:78 | `parseInt` of digits followed by a non-digit such as "," is the value of the digits, as in "500,100" giving 500 |
| Js.ParseIntOrUndefined | src/components/RealisticWorldMap.tsx:78-79 | `parseInt(undefined)` is NaN; otherwise it is `parseInt` of the string |
| Js.AddNum | src/components/RealisticWorldMap.tsx:78-79 | adding to NaN stays NaN; adding to a number adds |
| Js.OrDefault | src/components/WorldMap.tsx:43 | `x \|\| d` is `d` exactly when `x` is undefined or 0, and `x` otherwise |
| Bands.Rank | src/components/WorldMap.tsx:12-16 | ranks the bands Low, Medium, High within 0..2 |
| Bands.BandOf | src/components/WorldMap.tsx:12-16 | high iff the score is at least 70, medium iff 40..69, low iff below 40 |
| Bands.BandMonotone | src/components/WorldMap.tsx:12-16 | a higher score never falls in a lower band |
| Bands.BandBoundaries | src/components/WorldMap.tsx:12-16 | 39/40 and 69/70 fall on different sides of the cut points |
| FascismIndicators.ChecklistsWellFormed | src/components/FascismIndicators.tsx:10-42 | both checklists have 14 points numbered 1..14 in order |
| FascismIndicators.TableWellFormed | src/components/FascismIndicators.tsx:44-77 | the United States row exists, and every row holds 14 Britt and 14 Eco scores in `0..100` |
| FascismIndicators.ScoresFor | src/components/FascismIndicators.tsx:80 | a known code gives its own row; any other code gives the United States row |
| FascismIndicators.Min | src/components/FascismIndicators.tsx:82-83 | the least element of a non-empty list |
| FascismIndicators.Max | src/components/FascismIndicators.tsx:82-83 | the greatest element of a non-empty list |
| FascismIndicators.ReduceAddShift | src/components/FascismIndicators.tsx:82-83 | folding from the left from a start value adds that start value to the fold from 0 |
| FascismIndicators.SumIsReduce | src/components/FascismIndicators.tsx:82-83 | `Sum`, the sum with the first element split off, equals `reduce((a, b) => a + b, 0)` folded from the left |
| FascismIndicators.SumBounds | src/components/FascismIndicators.tsx:82-83 | the sum of `n` values in `lo..hi` is in `n*lo..n*hi` |
| FascismIndicators.RoundedBetween | src/components/FascismIndicators.tsx:82-83 | a rounded quotient of a sum in `n*lo..n*hi` lies in `lo..hi` |
| FascismIndicators.RoundedMean | src/components/FascismIndicators.tsx:82-83 | the rounded mean is the half-up nearest integer to `sum/length` and lies between the least and greatest value |
| FascismIndicators.BrittAverage | src/components/FascismIndicators.tsx:82 | the Britt average is the rounded mean of the looked-up row and lies in `0..100` |
| FascismIndicators.EcoAverage | src/components/FascismIndicators.tsx:83 | the Eco average is the rounded mean of the looked-up row and lies in `0..100` |
| FascismIndicators.CombinedScore | src/components/FascismIndicators.tsx:84 | the overall index is the half-up rounding of the mean of the two averages and lies between them |
| FascismIndicators.TotalFascismScore | src/components/FascismIndicators.tsx:80-84 | the overall index of a country lies in `0..100` and combines its two averages |
| FascismIndicators.UnknownCodeFallsBack | src/components/FascismIndicators.tsx:80-84 | an unknown code gets the United States averages and index |
| FascismIndicators.UnitedStatesBrittSum | src/components/FascismIndicators.tsx:58 | the United States Britt scores sum to 735 |
| FascismIndicators.UnitedStatesEcoSum | src/components/FascismIndicators.tsx:59 | the United States Eco scores sum to 675 |
| FascismIndicators.UnitedStatesBrittMean | src/components/FascismIndicators.tsx:82 | 735/14 = 52.5 rounds to 53 |
| FascismIndicators.UnitedStatesEcoMean | src/components/FascismIndicators.tsx:83 | 675/14 = 48.2 rounds to 48 |
| FascismIndicators.UnitedStatesBrittLookup | src/components/FascismIndicators.tsx:80-82 | the Britt average of "US" is the rounded mean of its own row |
| FascismIndicators.UnitedStatesEcoLookup | src/components/FascismIndicators.tsx:80-83 | the Eco average of "US" is the rounded mean of its own row |
| FascismIndicators.UnitedStatesIndex | src/components/FascismIndicators.tsx:80-84 | the United States scores 53 and 48, and (53+48)/2 = 50.5 rounds to an index of 51 |
| FascismIndicators.ScoreColor | src/components/FascismIndicators.tsx:86-90 | red iff the score is at least 70, yellow iff 40..69, green iff below 40: the reverse of the `Bands` order |
| FascismIndicators.ScoreLabel | src/components/FascismIndicators.tsx:92-97 | Критический iff at least 80, Высокий iff 60..79, Средний iff 40..59, Низкий iff below 40 |
| FascismIndicators.LabelMonotone | src/components/FascismIndicators.tsx:92-97 | a higher score never gets a less severe label |
| FascismIndicators.Lines | src/components/FascismIndicators.tsx:134-140 | line `i` of a checklist shows point `i` with score `i` and that score's colour |
| FascismIndicators.BrittLines | src/components/FascismIndicators.tsx:134-147 | the Britt checklist shows 14 lines |
| FascismIndicators.EcoLines | src/components/FascismIndicators.tsx:170-183 | the Eco checklist shows 14 lines |
| FascismIndicators.LinesPairById | src/components/FascismIndicators.tsx:134-176 | point number `id` is shown with score `id - 1` of the row, which lies in `0..100` |
| IndexPage.MockCodesUnique | src/pages/Index.tsx:19-28 | no two rows of the country table share a code |
| IndexPage.FindCountry | src/pages/Index.tsx:98 | the lookup finds a row iff some row has the code, and the row found has that code |
| IndexPage.FindCountryRow | src/pages/Index.tsx:97-99 | looking up the code of a row gives exactly that row |
| IndexPage.Dashboard.constructor | src/pages/Index.tsx:66-67 | the page starts on the first row (Russia) with period "6m" |
| IndexPage.Dashboard.SelectCountry | src/pages/Index.tsx:97-100 | a known code selects its row; an unknown code leaves the selection; the period is unchanged; the selection stays a row of the table |
| IndexPage.Dashboard.SetChartPeriod | src/pages/Index.tsx:186 | the period becomes the value chosen; the selection is unchanged |
| IndexPage.Dashboard.SelectedCode | src/pages/Index.tsx:97 | the selector always shows the code of some table row |
| IndexPage.SelectRow | src/pages/Index.tsx:97-109 | choosing any row in the selector selects that row, whatever was selected before, and leaves the chart period as it was |
| IndexPage.ScoreColor | src/pages/Index.tsx:69-73 | green iff the band is high, yellow iff medium, red iff low |
| IndexPage.ScoreBg | src/pages/Index.tsx:75-79 | the green, yellow and red card backgrounds iff the band is high, medium or low |
| IndexPage.Card | src/pages/Index.tsx:125-173 | a card shows its number, and its number colour and background are both those of the band of the score it is coloured by |
| IndexPage.Cards | src/pages/Index.tsx:124-173 | four cards show the four scores; the democracy, freedom and press freedom cards are coloured and backed by `getScoreColor`/`getScoreBg` of their own score, the authoritarianism card by those of `100 - score`; each card's colour and background agree; the authoritarianism card is green iff the score is at most 30, yellow iff 31..60, red iff above 60 |
| IndexPage.AuthoritarianBandAntitone | src/pages/Index.tsx:151-155 | a higher authoritarian score never gives its card a better band |
| IndexPage.TrendIcon | src/pages/Index.tsx:115 | TrendingUp iff up, TrendingDown iff down, Minus iff stable |
| IndexPage.TrendColor | src/pages/Index.tsx:117 | green iff up, red iff down, yellow iff stable |
| IndexPage.TrendLabel | src/pages/Index.tsx:119 | Улучшение iff up, Ухудшение iff down, Стабильно iff stable |
| IndexPage.TrendBadgeInjective | src/pages/Index.tsx:115-119 | distinct trends get distinct icons and distinct labels |
| IndexPage.ComparisonRows | src/pages/Index.tsx:238-246 | the comparison panel shows the first five rows in table order, each with its democracy score and that score's colour |
| IndexPage.TabItems | src/pages/Index.tsx:266-315 | "all" lists every item; each typed tab lists exactly the items of its type, all from the feed |
| IndexPage.TabItemsAppend | src/pages/Index.tsx:292-315 | a tab of a concatenated feed is the concatenation of the tabs, so feed order is kept |
| IndexPage.MockNewsKinds | src/pages/Index.tsx:30-63 | items 1 and 3 are government items; items 2 and 4 are opposition items |
| IndexPage.TabsPartition | src/pages/Index.tsx:292-315 | when every item is gov or opposition, the two typed tabs together list every item exactly once |
| IndexPage.AlternatingTabs | src/pages/Index.tsx:292-315 | a gov, opposition, gov, opposition feed splits into the first and third items and the second and fourth |
| IndexPage.PairTabs | src/pages/Index.tsx:292-315 | a government item followed by an opposition item puts one on each typed tab |
| IndexPage.MockNewsTabs | src/pages/Index.tsx:291-315 | the government tab lists items 1 and 3, the opposition tab items 2 and 4, and together they list the feed once |
| IndexPage.SentimentIcon | src/pages/Index.tsx:280-282 | a green thumb up iff the sentiment is "positive", and a red thumb down otherwise |
| IndexPage.SourceBadgeVariant | src/pages/Index.tsx:273-321 | on "all" the badge is default iff the item is a government item; the government tab always uses default and the opposition tab always uses secondary |
| IndexPage.BadgeMarksGovernmentItems | src/pages/Index.tsx:273-321 | on every tab an item listed there gets the default badge exactly when it is a government item |
| MapCommon.ColorByScore | src/components/WorldMap.tsx:12-16 | green, yellow, red iff the band is high, medium or low |
| MapCommon.EffectiveScore | src/components/WorldMap.tsx:42-43 | no entry for the code gives 50; otherwise the first entry's score, with a score of 0 giving 50 |
| MapCommon.DefaultPaintsMedium | src/components/WorldMap.tsx:42-43 | a country with no entry or a zero score is painted yellow |
| MapCommon.FindName | src/components/WorldMapRealistic.tsx:109 | no name iff no country has the code; otherwise the name of the first country with it |
| MapCommon.EmphasisOf | src/components/WorldMap.tsx:55 | selected iff selected; hovered iff hovered and not selected; idle otherwise |
| MapCommon.EmphasisRank | src/components/WorldMap.tsx:55 | ranks idle, hovered, selected within 0..2, with 0 exactly for idle |
| MapCommon.HoverState.constructor | src/components/WorldMap.tsx:10 | nothing is hovered at first |
| MapCommon.HoverState.MouseEnter | src/components/WorldMap.tsx:65 | the shape entered becomes the only hovered one |
| MapCommon.HoverState.MouseLeave | src/components/WorldMap.tsx:66 | no shape is hovered afterwards |
| MapCommon.ThreeBandLegendAgrees | src/components/WorldMapRealistic.tsx:147-161 | a legend 70+, 40-69, below 40 says exactly which scores get each colour |
| WorldMapRealistic.Style | src/components/WorldMapRealistic.tsx:116-121 | only a selected shape has the secondary 2.5 stroke and the drop shadow; opacity is 1, 0.85 or 0.7 iff selected, hovered or idle; brightened iff hovered |
| WorldMapRealistic.StyleFollowsEmphasis | src/components/WorldMapRealistic.tsx:116-121 | more emphasis is never fainter or thinner, and the opacity tells the three emphases apart |
| WorldMapRealistic.SelectedTakesPrecedence | src/components/WorldMapRealistic.tsx:116-121 | a selected shape looks the same whether hovered or not |
| WorldMapRealistic.ShapeViewOf | src/components/WorldMapRealistic.tsx:104-142 | a shape is filled by its effective score and styled by its emphasis; it is labelled iff selected or hovered and its name is known, at the table's label position with that name |
| WorldMapRealistic.View | src/components/WorldMapRealistic.tsx:104 | one view per table entry, in table order |
| WorldMapRealistic.ClickSelectsOwnShape | src/components/WorldMapRealistic.tsx:107-123 | once the code a shape reports on click is selected, that shape is selected, and so is exactly every shape with that code |
| WorldMapRealistic.LabelsOnlyWhereEmphasised | src/components/WorldMapRealistic.tsx:127 | a labelled shape is selected or hovered, and never idle |
| WorldMapRealistic.EnterShape | src/components/WorldMapRealistic.tsx:124 | entering shape `i` hovers it: unless selected it is drawn as hovered, and it is labelled when its name is known |
| WorldMapRealistic.LeaveShape | src/components/WorldMapRealistic.tsx:125 | leaving clears the hover: every shape but the selected one is idle and unlabelled |
| WorldMapRealistic.LegendMatchesColors | src/components/WorldMapRealistic.tsx:147-161 | each legend range is exactly the set of scores painted in its colour |
| RealisticWorldMap.RectPathNested | src/components/RealisticWorldMap.tsx:20-35 | the path text `M x1,y1 L x2,y1 L x2,y2 L x1,y2 Z` with its spaces grouped from the right |
| RealisticWorldMap.SplitThree | src/components/RealisticWorldMap.tsx:78-79 | splitting off three space-free tokens |
| RealisticWorldMap.TokensWithoutSpace | src/components/RealisticWorldMap.tsx:20-35 | no token of a rectangle path contains a space |
| RealisticWorldMap.RectPathTokens | src/components/RealisticWorldMap.tsx:20-35 | `split(' ')` of every rectangle path gives back its nine tokens M, x1,y1, L, x2,y1, L, x2,y2, L, x1,y2, Z |
| RealisticWorldMap.RussiaEntry | src/components/RealisticWorldMap.tsx:20 | the first entry is Russia, corners 500,100 and 700,200 |
| RealisticWorldMap.PathTextRU | src/components/RealisticWorldMap.tsx:20 | the table entry for Russia draws exactly the literal path text of this line |
| RealisticWorldMap.PathTextUS | src/components/RealisticWorldMap.tsx:21 | the table entry for the United States draws exactly the literal path text of this line |
| RealisticWorldMap.PathTextCN | src/components/RealisticWorldMap.tsx:22 | the table entry for China draws exactly the literal path text of this line |
| RealisticWorldMap.PathTextDE | src/components/RealisticWorldMap.tsx:23 | the table entry for Germany draws exactly the literal path text of this line |
| RealisticWorldMap.PathTextGB | src/components/RealisticWorldMap.tsx:24 | the table entry for the United Kingdom draws exactly the literal path text of this line |
| RealisticWorldMap.PathTextFR | src/components/RealisticWorldMap.tsx:25 | the table entry for France draws exactly the literal path text of this line |
| RealisticWorldMap.PathTextIT | src/components/RealisticWorldMap.tsx:26 | the table entry for Italy draws exactly the literal path text of this line |
| RealisticWorldMap.PathTextES | src/components/RealisticWorldMap.tsx:27 | the table entry for Spain draws exactly the literal path text of this line |
| RealisticWorldMap.PathTextCA | src/components/RealisticWorldMap.tsx:28 | the table entry for Canada draws exactly the literal path text of this line |
| RealisticWorldMap.PathTextBR | src/components/RealisticWorldMap.tsx:29 | the table entry for Brazil draws exactly the literal path text of this line |
| RealisticWorldMap.PathTextJP | src/components/RealisticWorldMap.tsx:30 | the table entry for Japan draws exactly the literal path text of this line |
| RealisticWorldMap.PathTextIN | src/components/RealisticWorldMap.tsx:31 | the table entry for India draws exactly the literal path text of this line |
| RealisticWorldMap.PathTextAU | src/components/RealisticWorldMap.tsx:32 | the table entry for Australia draws exactly the literal path text of this line |
| RealisticWorldMap.PathTextNO | src/components/RealisticWorldMap.tsx:33 | the table entry for Norway draws exactly the literal path text of this line |
| RealisticWorldMap.PathTextSE | src/components/RealisticWorldMap.tsx:34 | the table entry for Sweden draws exactly the literal path text of this line |
| RealisticWorldMap.PathTextBY | src/components/RealisticWorldMap.tsx:35 | the table entry for Belarus draws exactly the literal path text of this line |
| RealisticWorldMap.ThreeDigitValue | src/components/RealisticWorldMap.tsx:78 | the value of a three-digit numeral, digit by digit |
| RealisticWorldMap.Token | src/components/RealisticWorldMap.tsx:78-79 | `path.split(' ')[i]` is present exactly for an index of a piece, and never contains a space |
| RealisticWorldMap.LabelXReadsToken | src/components/RealisticWorldMap.tsx:78 | `LabelX`, the drawn label x, is NaN without a token 1 and otherwise `parseInt` of token 1 plus 15 |
| RealisticWorldMap.LabelYAsWrittenReadsToken | src/components/RealisticWorldMap.tsx:79 | `LabelYAsWritten`, the drawn label y, is NaN without a token 2 and otherwise `parseInt` of token 2 minus 10 |
| RealisticWorldMap.LetterMinus10 | src/components/RealisticWorldMap.tsx:79 | `parseInt("L") - 10` is NaN |
| RealisticWorldMap.ParseCorner | src/components/RealisticWorldMap.tsx:78 | `parseInt("x,y")` reads `x`, stopping at the comma |
| RealisticWorldMap.SplitCorner | src/components/RealisticWorldMap.tsx:79 | splitting "x,y" on its comma gives the two numerals |
| RealisticWorldMap.ParseNumeral | src/components/RealisticWorldMap.tsx:79 | `parseInt` of a numeral is its value |
| RealisticWorldMap.CornerXOfParsed | src/components/RealisticWorldMap.tsx:78 | a token that `parseInt` reads as `v` gives the label x `v + 15` |
| RealisticWorldMap.CornerYOfParsed | src/components/RealisticWorldMap.tsx:79 | a token whose part after the comma `parseInt` reads as `v` gives the corrected label y `v - 10` |
| RealisticWorldMap.CornerXOfCorner | src/components/RealisticWorldMap.tsx:78 | the corner token "x,y" gives the label x `x + 15` |
| RealisticWorldMap.CornerYOfCorner | src/components/RealisticWorldMap.tsx:79 | the corner token "x,y" gives the corrected label y `y - 10` |
| RealisticWorldMap.LabelXOfCornerToken | src/components/RealisticWorldMap.tsx:78 | when token 1 of a path is a corner "x,y", the label x is `x + 15` |
| RealisticWorldMap.LabelYOfCornerToken | src/components/RealisticWorldMap.tsx:79 | when token 1 of a path is a corner "x,y", the corrected label y is `y - 10` |
| RealisticWorldMap.LabelXOfRect | src/components/RealisticWorldMap.tsx:78 | the label x of every rectangle is 15 right of its first corner |
| RealisticWorldMap.LabelYAsWrittenIsNaN | src/components/RealisticWorldMap.tsx:79 | token 2 of every rectangle path is "L", so the label y as written is NaN |
| RealisticWorldMap.LabelYOfRect | src/components/RealisticWorldMap.tsx:79 | the corrected label y of every rectangle is 10 above its first corner |
| RealisticWorldMap.EveryLabelYIsNaN | src/components/RealisticWorldMap.tsx:79 | no entry of the table gets a numeric label y as written |
| RealisticWorldMap.RussiaCornerValues | src/components/RealisticWorldMap.tsx:20 | the numerals "500" and "100" have the values 500 and 100 |
| RealisticWorldMap.RussiaLabel | src/components/RealisticWorldMap.tsx:78-79 | Russia's label x is 515; its y is NaN as written and 90 as corrected |
| RealisticWorldMap.Style | src/components/RealisticWorldMap.tsx:65-71 | only a selected rectangle has the secondary 3 stroke and the drop shadow; opacity is 0.9, 0.8 or 0.6 iff selected, hovered or idle |
| RealisticWorldMap.StyleFollowsEmphasis | src/components/RealisticWorldMap.tsx:65-67 | more emphasis is never fainter or thinner, and the opacity tells the three emphases apart |
| RealisticWorldMap.LabelOf | src/components/RealisticWorldMap.tsx:77-86 | the drawn label sits 15 right of the first corner, its y is NaN for every entry, and its text is the name the country list gives, if any |
| RealisticWorldMap.IntendedLabelOf | src/components/RealisticWorldMap.tsx:77-86 | the corrected label sits 15 right of and 10 above the first corner, with the same text |
| RealisticWorldMap.DrawnLabelLosesY | src/components/RealisticWorldMap.tsx:77-86 | the drawn and the corrected label agree in x and text; only the corrected one has a numeric y |
| RealisticWorldMap.ShapeViewOf | src/components/RealisticWorldMap.tsx:53-87 | a rectangle is filled by its effective score and styled by its emphasis; it is labelled iff selected or hovered, whether a name is known or not, and the label is the drawn `LabelOf` |
| RealisticWorldMap.View | src/components/RealisticWorldMap.tsx:53 | one view per table entry, in table order |
| RealisticWorldMap.LeaveShape | src/components/RealisticWorldMap.tsx:74 | leaving clears the hover: exactly the selected rectangles stay labelled |
| RealisticWorldMap.EnterShape | src/components/RealisticWorldMap.tsx:73 | entering rectangle `i` labels it whatever the country list holds, and draws it as hovered unless selected |
| RealisticWorldMap.LegendAsWrittenOverlaps | src/components/RealisticWorldMap.tsx:92-106 | as written, 70 falls in both the "70+" and the "40-70" range but is painted only green, so the legend does not describe the colours |
| RealisticWorldMap.LegendMatchesColors | src/components/RealisticWorldMap.tsx:92-106 | in the corrected legend (40-69), each range is exactly the set of scores painted in its colour |
| WorldMap.CodesUnique | src/components/WorldMap.tsx:18-27 | no two map countries share a code |
| WorldMap.DashboardRowPairs | src/components/WorldMap.tsx:18-27 | a one-to-one pairing matches each map country with a dashboard row of the same code and name |
| WorldMap.MapCountryOnDashboard | src/components/WorldMap.tsx:18-27 | every map country is a dashboard row with the same code and name |
| WorldMap.DashboardCountryOnMap | src/components/WorldMap.tsx:18-27 | every dashboard row is a map country with the same code and name |
| WorldMap.Style | src/components/WorldMap.tsx:55-63 | opacity is 1, 0.8 or 0.6 iff selected, hovered or idle; the stroke, its width and the shadow appear iff selected; the 1.1 scale applies iff hovered, even when selected |
| WorldMap.OpacityFollowsEmphasis | src/components/WorldMap.tsx:55 | more emphasis never makes an ellipse fainter |
| WorldMap.EllipseViewOf | src/components/WorldMap.tsx:41-80 | an ellipse is centred on the country's point with radii `width/2` and `width/3`; it is filled by its effective score and styled by selection and hover; it is labelled iff selected or hovered, with its name, centred and two units above its top |
| WorldMap.View | src/components/WorldMap.tsx:41 | one view per map country, in table order |
| WorldMap.ClickSelectsOnlyOwnEllipse | src/components/WorldMap.tsx:44-64 | once the code an ellipse reports on click is selected, exactly that ellipse has the stroke |
| WorldMap.LabelsOnlyWhereEmphasised | src/components/WorldMap.tsx:68 | a labelled ellipse is selected or hovered, and is drawn at opacity 0.8 or more |
| WorldMap.EnterEllipse | src/components/WorldMap.tsx:65 | entering ellipse `i` enlarges and labels it, and draws it at 0.8 unless selected; every other ellipse keeps scale 1 |
| WorldMap.LeaveEllipse | src/components/WorldMap.tsx:66 | leaving clears the hover: nothing is enlarged, and every ellipse but the selected one is idle and unlabelled |
| WorldMap.LegendCoversColors | src/components/WorldMap.tsx:85-97 | the three swatches are exactly the colours a country can be filled with, from the highest band to the lowest |

## Left out

- The backend handlers (news collection, news analysis, article scoring) are not
  part of this model. They consist of database access, HTTP calls and language
  model calls.
- React rendering, layout, CSS classes other than the colour classes, animation
  delays and progress bars are not modelled. A view is the value a component
  renders for its props and state.
- The chart on the page (`Index.tsx:199-226`) shows constants only. It computes
  nothing and is not modelled; its period selector is (`SetChartPeriod`).
- The active news tab is internal state of the tabs widget and not of the page.
  It is modelled as a parameter (`Tab`).
- `allCountries` comes from `src/data/countries`, which is not part of this
  model. It is a parameter of the two maps that use it.
- The outline of each `WorldMapRealistic` shape (its path text) is geometry only
  and is left out. Its key and label position are kept.
- The 53 codes of `WorldMapRealistic` are not proved pairwise distinct. The
  lemmas about it hold without that (`ClickSelectsOwnShape` speaks of every
  shape with the selected code).
- `WorldMap`'s ellipse radii `width/2` and `width/3` and its label y are kept
  exactly, as whole numbers of halves and thirds; the JavaScript floating-point
  value is not modelled. The `transformOrigin` percentages are not modelled.
- JavaScript numbers are modelled as unbounded integers. Every value in the core
  is a small integer, so no rounding or overflow of doubles arises.
- `mockScores[code]` for a code such as "constructor" would find an inherited
  object property. The model treats every code absent from the table as unknown.
- `FascismIndicators.RoundedMean` requires a non-empty list. The source only
  averages the 14-element rows, and an empty one would give NaN.
- The dashboard row type calls its fourth score `pressFreedомScore`, with two
  Cyrillic letters, in every use. The model names the field
  `pressFreedomScore`; the spelling changes nothing, since every use agrees.
- `Js.ParseInt` models `parseInt` without a radix argument: leading white space, a
  sign, a "0x" prefix and the leading digit run. Its own contract states only the
  blank and sign cases; the lemmas beside it state what it yields on the strings
  the core parses (a numeral followed by a comma, the letter "L", "undefined").

## Findings

| source | as written | input that shows it | evidently intended | confidence | as-written member | corrected member |
|---|---|---|---|---|---|---|
| src/components/RealisticWorldMap.tsx:79 | the label y is `parseInt(path.split(' ')[2]) - 10`, and token 2 of every path is "L" | the Russia path "M 500,100 L 700,100 L 700,200 L 500,200 Z": token 2 is "L", so y is NaN | y is the first corner's y minus 10 (the part of token 1 after the comma), 90 for Russia | not executed | RealisticWorldMap.LabelYAsWrittenIsNaN | RealisticWorldMap.IntendedLabelOf |
| src/components/RealisticWorldMap.tsx:100 | the medium legend entry reads "40-70" | score 70: painted green (`>= 70`) yet inside both "70+" and "40-70" | the medium range is 40-69, as in WorldMapRealistic.tsx:155 | not executed | RealisticWorldMap.LegendAsWrittenOverlaps | RealisticWorldMap.LegendMatchesColors |

The rendered map (`RealisticWorldMap.View`) follows the code as written: every
label it draws has a NaN y (`LabelOf`). The corrected placement is
`IntendedLabelOf`, which no view draws.
