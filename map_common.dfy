/** What the three map components share: the fill colour of a score, the score a
    country is painted with, the selected/hovered/idle emphasis of a shape, the
    hover state and the colour legend. Each component keeps its own copy of this
    code; the copies are identical, so each is defined here once. */
module MapCommon {
  import opened Js
  import Bands

  // ---------------------------------------------------------------------------
  // Fill colour

  /** `getColorByScore`: green from 70, yellow from 40, red below. */
  function ColorByScore(score: int): (c: string)
    ensures c == "#22c55e" <==> Bands.BandOf(score) == Bands.High
    ensures c == "#eab308" <==> Bands.BandOf(score) == Bands.Medium
    ensures c == "#ef4444" <==> Bands.BandOf(score) == Bands.Low
  {
    if score >= 70 then "#22c55e"
    else if score >= 40 then "#eab308"
    else "#ef4444"
  }

  // ---------------------------------------------------------------------------
  // The score a country is painted with

  /** An element of the `countriesData` prop. */
  datatype ScoreEntry = ScoreEntry(code: string, democracyScore: int)

  /** The score used when a country has no entry, or a falsy one. */
  const DefaultScore: int := 50

  function EntryHasCode(code: string): ScoreEntry -> bool
  {
    (e: ScoreEntry) => e.code == code
  }

  /** `countriesData.find(c => c.code === code)?.democracyScore || 50`: the score
      of the first entry with the code; 50 when there is none, and also when that
      score is 0. */
  function EffectiveScore(countriesData: seq<ScoreEntry>, code: string): (s: int)
    ensures (forall i :: 0 <= i < |countriesData| ==> countriesData[i].code != code) ==> s == DefaultScore
    ensures forall i :: 0 <= i < |countriesData| && countriesData[i].code == code &&
                        (forall j :: 0 <= j < i ==> countriesData[j].code != code) ==>
                          s == (if countriesData[i].democracyScore == 0 then DefaultScore else countriesData[i].democracyScore)
  {
    var found := Find(countriesData, EntryHasCode(code));
    assert forall i :: 0 <= i < |countriesData| ==> (EntryHasCode(code)(countriesData[i]) <==> countriesData[i].code == code);
    OrDefault(if found.Some? then Some(found.value.democracyScore) else None, DefaultScore)
  }

  /** A country without a score, or with a score of 0, is painted yellow. */
  lemma DefaultPaintsMedium(countriesData: seq<ScoreEntry>, code: string)
    requires forall i :: 0 <= i < |countriesData| && countriesData[i].code == code ==> countriesData[i].democracyScore == 0
    ensures ColorByScore(EffectiveScore(countriesData, code)) == "#eab308"
  {
    var k := FindIndex(countriesData, EntryHasCode(code));
    if k >= 0 {
      assert countriesData[k].code == code;
      assert forall j :: 0 <= j < k ==> !EntryHasCode(code)(countriesData[j]);
    }
  }

  // ---------------------------------------------------------------------------
  // Country names

  /** An element of `allCountries`, the list of every country's code and name. */
  datatype NamedCountry = NamedCountry(code: string, name: string)

  function NamedHasCode(code: string): NamedCountry -> bool
  {
    (c: NamedCountry) => c.code == code
  }

  /** `allCountries.find(c => c.code === code)?.name`: the name of the first
      country with the code, or none when no country has it. */
  function FindName(allCountries: seq<NamedCountry>, code: string): (r: Option<string>)
    ensures r.None? <==> forall i :: 0 <= i < |allCountries| ==> allCountries[i].code != code
    ensures r.Some? ==> exists i :: 0 <= i < |allCountries| && allCountries[i].code == code &&
                                     allCountries[i].name == r.value &&
                                     forall j :: 0 <= j < i ==> allCountries[j].code != code
  {
    var found := Find(allCountries, NamedHasCode(code));
    assert forall i :: 0 <= i < |allCountries| ==> (NamedHasCode(code)(allCountries[i]) <==> allCountries[i].code == code);
    if found.Some? then
      var k := FindIndex(allCountries, NamedHasCode(code));
      assert allCountries[k] == found.value;
      Some(found.value.name)
    else None
  }

  // ---------------------------------------------------------------------------
  // Emphasis of a shape

  /** How a shape is drawn: selected wins over hovered, hovered over idle. */
  datatype Emphasis = Idle | Hovered | Selected

  function EmphasisOf(isSelected: bool, isHovered: bool): (e: Emphasis)
    ensures e == Selected <==> isSelected
    ensures e == Hovered <==> !isSelected && isHovered
    ensures e == Idle <==> !isSelected && !isHovered
  {
    if isSelected then Selected else if isHovered then Hovered else Idle
  }

  /** The order of emphasis: Idle < Hovered < Selected. */
  function EmphasisRank(e: Emphasis): (r: nat)
    ensures r <= 2
    ensures e == Idle <==> r == 0
  {
    match e
    case Idle => 0
    case Hovered => 1
    case Selected => 2
  }

  /** Whether the code of a shape is the hovered one (`hoveredCountry === code`). */
  predicate IsHovered(hovered: Option<string>, code: string)
  {
    hovered == Some(code)
  }

  // ---------------------------------------------------------------------------
  // Hover state

  /** The `hoveredCountry` state of a map: the code under the mouse, or none. */
  class HoverState {
    var hoveredCountry: Option<string>

    /** `useState<string | null>(null)`. */
    constructor ()
      ensures hoveredCountry == None
    {
      hoveredCountry := None;
    }

    /** `onMouseEnter`: the shape entered becomes the only hovered one. */
    method MouseEnter(code: string)
      modifies this
      ensures hoveredCountry == Some(code)
      ensures forall other :: IsHovered(hoveredCountry, other) <==> other == code
    {
      hoveredCountry := Some(code);
    }

    /** `onMouseLeave`: no shape is hovered any more. */
    method MouseLeave()
      modifies this
      ensures hoveredCountry == None
      ensures forall code :: !IsHovered(hoveredCountry, code)
    {
      hoveredCountry := None;
    }
  }

  // ---------------------------------------------------------------------------
  // Legend

  /** An entry of a colour legend: its swatch colour, its text and the score range
      the text states, as inclusive bounds (none: unbounded on that side). */
  datatype LegendEntry = LegendEntry(color: string, text: string, lo: Option<int>, hi: Option<int>)

  predicate InRange(e: LegendEntry, score: int)
  {
    (e.lo.None? || e.lo.value <= score) && (e.hi.None? || score <= e.hi.value)
  }

  /** The legend describes the colour rule: a score is in the range an entry
      states exactly when it is painted in that entry's colour. */
  ghost predicate LegendAgrees(legend: seq<LegendEntry>)
  {
    forall i, score :: 0 <= i < |legend| ==> (InRange(legend[i], score) <==> ColorByScore(score) == legend[i].color)
  }

  /** The three entries a legend with cut points 70 and 40 needs. */
  lemma ThreeBandLegendAgrees(high: string, medium: string, low: string)
    ensures LegendAgrees([LegendEntry("#22c55e", high, Some(70), None),
                          LegendEntry("#eab308", medium, Some(40), Some(69)),
                          LegendEntry("#ef4444", low, None, Some(39))])
  {
  }
}
