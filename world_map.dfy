/** The schematic map: eight countries drawn as ellipses, filled by their score,
    emphasised when selected or hovered, and named when selected or hovered. */
module WorldMap {
  import opened Js
  import opened MapCommon
  import IndexPage

  /** An element of the `countries` table: code, name, centre and width, in the
      units of the 100 x 60 view box. */
  datatype MapCountry = MapCountry(code: string, name: string, x: int, y: int, width: nat)

  const Countries: seq<MapCountry> := [
    MapCountry("RU", "Россия", 65, 25, 20),
    MapCountry("US", "США", 15, 30, 12),
    MapCountry("CN", "Китай", 70, 35, 12),
    MapCountry("DE", "Германия", 48, 28, 4),
    MapCountry("NO", "Норвегия", 48, 20, 4),
    MapCountry("BY", "Беларусь", 52, 26, 3),
    MapCountry("FR", "Франция", 46, 32, 4),
    MapCountry("JP", "Япония", 82, 35, 5)
  ]

  /** No two countries of the map share a code. */
  lemma CodesUnique()
    ensures forall i, j :: 0 <= i < j < |Countries| ==> Countries[i].code != Countries[j].code
  {
  }

  /** The position in the dashboard's `mockCountries` of each map country. */
  const DashboardRow: seq<nat> := [0, 1, 3, 2, 4, 5, 6, 7]

  /** `pair` matches up the rows of two tables one to one (it is its own
      inverse), and matched rows have the same code and name. */
  predicate PairedBy(map_: seq<MapCountry>, rows: seq<IndexPage.Country>, pair: seq<nat>)
  {
    |pair| == |map_| == |rows| &&
    forall i :: 0 <= i < |map_| ==>
      pair[i] < |rows| && pair[pair[i]] == i &&
      rows[pair[i]].code == map_[i].code && rows[pair[i]].name == map_[i].name
  }

  /** `DashboardRow` pairs the map with the dashboard's table. */
  lemma DashboardRowPairs()
    ensures PairedBy(Countries, IndexPage.MockCountries, DashboardRow)
  {
    forall i | 0 <= i < |Countries|
      ensures DashboardRow[i] < |IndexPage.MockCountries| && DashboardRow[DashboardRow[i]] == i &&
              IndexPage.MockCountries[DashboardRow[i]].code == Countries[i].code &&
              IndexPage.MockCountries[DashboardRow[i]].name == Countries[i].name
    {
      assert i == 0 || i == 1 || i == 2 || i == 3 || i == 4 || i == 5 || i == 6 || i == 7;
    }
  }

  /** Every map country is a row of the dashboard, with the same code and name. */
  lemma MapCountryOnDashboard(i: int)
    requires 0 <= i < |Countries|
    ensures exists j :: 0 <= j < |IndexPage.MockCountries| &&
                        IndexPage.MockCountries[j].code == Countries[i].code &&
                        IndexPage.MockCountries[j].name == Countries[i].name
  {
    DashboardRowPairs();
    var j := DashboardRow[i];
    assert IndexPage.MockCountries[j].code == Countries[i].code;
  }

  /** Every row of the dashboard is a map country, with the same code and name. */
  lemma DashboardCountryOnMap(j: int)
    requires 0 <= j < |IndexPage.MockCountries|
    ensures exists i :: 0 <= i < |Countries| &&
                        Countries[i].code == IndexPage.MockCountries[j].code &&
                        Countries[i].name == IndexPage.MockCountries[j].name
  {
    DashboardRowPairs();
    var i := DashboardRow[j];
    assert DashboardRow[i] == j;
    assert Countries[i].code == IndexPage.MockCountries[j].code;
  }

  // ---------------------------------------------------------------------------
  // Styling

  /** The look of an ellipse. Opacity, stroke width and scale are in hundredths
      (1 is 100, 0.8 is 80, 0.5 is 50, `scale(1.1)` is 110). */
  datatype EllipseStyle = EllipseStyle(opacity: nat, stroke: string, strokeWidth: nat, filter: string, scale: nat)

  /** The styling of one ellipse. Opacity follows the emphasis; stroke and
      shadow appear only on the selected ellipse; the 1.1 enlargement follows
      the hover alone, so a selected ellipse under the mouse is enlarged too. */
  function Style(isSelected: bool, isHovered: bool): (st: EllipseStyle)
    ensures st.opacity == 100 <==> EmphasisOf(isSelected, isHovered) == Selected
    ensures st.opacity == 80 <==> EmphasisOf(isSelected, isHovered) == Hovered
    ensures st.opacity == 60 <==> EmphasisOf(isSelected, isHovered) == Idle
    ensures st.stroke == "#8b5cf6" <==> isSelected
    ensures st.stroke == "transparent" <==> !isSelected
    ensures st.strokeWidth > 0 <==> isSelected
    ensures st.filter != "none" <==> isSelected
    ensures st.scale == (if isHovered then 110 else 100)
  {
    EllipseStyle(if isSelected then 100 else if isHovered then 80 else 60,
                 if isSelected then "#8b5cf6" else "transparent",
                 if isSelected then 50 else 0,
                 if isSelected then "drop-shadow(0 0 8px rgba(139, 92, 246, 0.6))" else "none",
                 if isHovered then 110 else 100)
  }

  /** More emphasis never makes an ellipse fainter. */
  lemma OpacityFollowsEmphasis(s1: bool, h1: bool, s2: bool, h2: bool)
    requires EmphasisRank(EmphasisOf(s1, h1)) <= EmphasisRank(EmphasisOf(s2, h2))
    ensures Style(s1, h1).opacity <= Style(s2, h2).opacity
  {
  }

  // ---------------------------------------------------------------------------
  // Rendering

  /** The name label above an ellipse. Its y position is `y - width/3 - 2`; it is
      kept in thirds of a unit so that it is exact. */
  datatype NameLabel = NameLabel(x: int, yThirds: int, text: string)

  /** One rendered country: its centre, its radii, its fill, its style and its
      label, if shown. The horizontal radius `width/2` is kept in halves and the
      vertical radius `width/3` in thirds. */
  datatype EllipseView = EllipseView(code: string, cx: int, cy: int, rxHalves: int, ryThirds: int,
                                     fill: string, style: EllipseStyle, nameLabel: Option<NameLabel>)

  /** One ellipse as rendered for the props and the hover state. */
  function EllipseViewOf(country: MapCountry, selectedCountry: string, hovered: Option<string>,
                         countriesData: seq<ScoreEntry>): (v: EllipseView)
    ensures v.code == country.code
    ensures v.fill == ColorByScore(EffectiveScore(countriesData, country.code))
    ensures v.style == Style(selectedCountry == country.code, IsHovered(hovered, country.code))
    ensures v.cx == country.x && v.cy == country.y
    // rx is width/2 and ry is width/3: the ellipse is 1.5 times as wide as tall
    ensures v.rxHalves == country.width && v.ryThirds == country.width
    ensures v.nameLabel.Some? <==> selectedCountry == country.code || IsHovered(hovered, country.code)
    ensures v.nameLabel.Some? ==>
              v.nameLabel.value.text == country.name &&
              v.nameLabel.value.x == country.x &&
              // the label sits two units above the top of the ellipse
              v.nameLabel.value.yThirds + 6 == 3 * country.y - v.ryThirds
  {
    var isSelected := selectedCountry == country.code;
    var isHovered := IsHovered(hovered, country.code);
    EllipseView(country.code, country.x, country.y, country.width, country.width,
                ColorByScore(EffectiveScore(countriesData, country.code)),
                Style(isSelected, isHovered),
                if isSelected || isHovered then Some(NameLabel(country.x, 3 * country.y - country.width - 6, country.name)) else None)
  }

  /** The whole map, ellipse by ellipse in table order. */
  function View(selectedCountry: string, hovered: Option<string>, countriesData: seq<ScoreEntry>): (vs: seq<EllipseView>)
    ensures |vs| == |Countries|
    ensures forall i :: 0 <= i < |vs| ==> vs[i] == EllipseViewOf(Countries[i], selectedCountry, hovered, countriesData)
  {
    seq(|Countries|, i requires 0 <= i < |Countries| => EllipseViewOf(Countries[i], selectedCountry, hovered, countriesData))
  }

  /** Once the code of ellipse `i` is selected (its click handler reports that
      code), ellipse `i` is the only one drawn with the stroke. */
  lemma ClickSelectsOnlyOwnEllipse(i: int, hovered: Option<string>, countriesData: seq<ScoreEntry>)
    requires 0 <= i < |Countries|
    ensures forall j :: 0 <= j < |Countries| ==>
              (View(Countries[i].code, hovered, countriesData)[j].style.stroke == "#8b5cf6" <==> j == i)
  {
    CodesUnique();
    var vs := View(Countries[i].code, hovered, countriesData);
    forall j | 0 <= j < |Countries|
      ensures vs[j].style.stroke == "#8b5cf6" <==> j == i
    {
      if j < i {
        assert Countries[j].code != Countries[i].code;
      } else if j > i {
        assert Countries[i].code != Countries[j].code;
      }
    }
  }

  /** At most two ellipses are labelled: the selected one and the hovered one. */
  lemma LabelsOnlyWhereEmphasised(selectedCountry: string, hovered: Option<string>,
                                  countriesData: seq<ScoreEntry>, i: int)
    requires 0 <= i < |Countries|
    requires View(selectedCountry, hovered, countriesData)[i].nameLabel.Some?
    ensures Countries[i].code == selectedCountry || hovered == Some(Countries[i].code)
    ensures View(selectedCountry, hovered, countriesData)[i].style.opacity >= 80
  {
  }

  /** Moving the mouse onto ellipse `i` hovers it: it is enlarged, labelled and,
      unless selected, drawn at 0.8; every other ellipse keeps scale 1. */
  method EnterEllipse(h: HoverState, i: int, selectedCountry: string, countriesData: seq<ScoreEntry>)
    returns (vs: seq<EllipseView>)
    requires 0 <= i < |Countries|
    modifies h
    ensures h.hoveredCountry == Some(Countries[i].code)
    ensures vs == View(selectedCountry, h.hoveredCountry, countriesData)
    ensures vs[i].style.scale == 110 && vs[i].nameLabel.Some?
    ensures selectedCountry != Countries[i].code ==> vs[i].style.opacity == 80
    ensures forall j :: 0 <= j < |vs| && j != i ==> vs[j].style.scale == 100
  {
    CodesUnique();
    h.MouseEnter(Countries[i].code);
    vs := View(selectedCountry, h.hoveredCountry, countriesData);
    forall j | 0 <= j < |vs| && j != i
      ensures vs[j].style.scale == 100
    {
      if j < i {
        assert Countries[j].code != Countries[i].code;
      } else {
        assert Countries[i].code != Countries[j].code;
      }
    }
  }

  /** Moving the mouse off an ellipse clears the hover: nothing is enlarged,
      and every ellipse but the selected one is idle and unlabelled. */
  method LeaveEllipse(h: HoverState, selectedCountry: string, countriesData: seq<ScoreEntry>)
    returns (vs: seq<EllipseView>)
    modifies h
    ensures h.hoveredCountry == None
    ensures vs == View(selectedCountry, h.hoveredCountry, countriesData)
    ensures forall j :: 0 <= j < |vs| ==> vs[j].style.scale == 100
    ensures forall j :: 0 <= j < |vs| && Countries[j].code != selectedCountry ==>
              vs[j].style.opacity == 60 && vs[j].nameLabel.None?
  {
    h.MouseLeave();
    vs := View(selectedCountry, h.hoveredCountry, countriesData);
  }

  // ---------------------------------------------------------------------------
  // Legend

  /** The three swatches at the bottom of the map, with their captions. The
      captions name no score range. */
  const LegendSwatches: seq<(string, string)> := [
    ("#22c55e", "Высокая демократия"),
    ("#eab308", "Средний уровень"),
    ("#ef4444", "Низкая демократия")
  ]

  /** The swatches are exactly the colours an ellipse can be filled with, from
      the highest band to the lowest. */
  lemma LegendCoversColors()
    ensures forall score: int :: ColorByScore(score) == LegendSwatches[0].0 || ColorByScore(score) == LegendSwatches[1].0 ||
                                 ColorByScore(score) == LegendSwatches[2].0
    ensures ColorByScore(70) == LegendSwatches[0].0
    ensures ColorByScore(40) == LegendSwatches[1].0
    ensures ColorByScore(39) == LegendSwatches[2].0
  {
  }
}
