/** The map of 53 country shapes: each shape is filled by its country's score,
    drawn with the emphasis of the selected or hovered country, and labelled with
    the country's name when it is selected or hovered and the name is known. */
module WorldMapRealistic {
  import opened Js
  import opened MapCommon

  /** A key of `countryPaths`, with its label position. The outline itself is
      geometry only and is not part of this model. */
  datatype MapShape = MapShape(code: string, labelX: int, labelY: int)

  /** The shapes in the order `Object.entries` yields them. */
  const CountryPaths: seq<MapShape> := [
    MapShape("US", 130, 160),
    MapShape("CA", 140, 95),
    MapShape("MX", 125, 218),
    MapShape("BR", 250, 305),
    MapShape("AR", 228, 408),
    MapShape("CL", 198, 415),
    MapShape("CO", 213, 260),
    MapShape("PE", 207, 304),
    MapShape("VE", 233, 248),
    MapShape("RU", 590, 130),
    MapShape("DE", 463, 160),
    MapShape("FR", 448, 175),
    MapShape("GB", 428, 143),
    MapShape("IT", 459, 198),
    MapShape("ES", 431, 194),
    MapShape("PL", 480, 144),
    MapShape("UA", 511, 163),
    MapShape("BY", 493, 132),
    MapShape("NO", 465, 100),
    MapShape("SE", 482, 106),
    MapShape("FI", 503, 96),
    MapShape("TR", 509, 210),
    MapShape("GR", 477, 213),
    MapShape("CN", 688, 210),
    MapShape("IN", 620, 268),
    MapShape("JP", 792, 205),
    MapShape("KR", 765, 198),
    MapShape("KP", 763, 188),
    MapShape("TH", 659, 294),
    MapShape("VN", 672, 292),
    MapShape("ID", 676, 333),
    MapShape("MY", 659, 310),
    MapShape("PH", 740, 275),
    MapShape("PK", 573, 219),
    MapShape("BD", 623, 260),
    MapShape("IR", 543, 214),
    MapShape("IQ", 518, 221),
    MapShape("SA", 514, 249),
    MapShape("AE", 552, 256),
    MapShape("IL", 483, 220),
    MapShape("SG", 674, 325),
    MapShape("KZ", 590, 158),
    MapShape("EG", 492, 249),
    MapShape("ZA", 510, 420),
    MapShape("NG", 461, 299),
    MapShape("KE", 521, 314),
    MapShape("ET", 516, 294),
    MapShape("GH", 443, 311),
    MapShape("AU", 755, 425),
    MapShape("NZ", 846, 467),
    MapShape("XK", 468, 189),
    MapShape("TW", 740, 246),
    MapShape("PS", 478, 229)
  ]

  // ---------------------------------------------------------------------------
  // Styling

  /** The presentation attributes of a shape; stroke widths and opacities in
      hundredths. */
  datatype PathStyle = PathStyle(stroke: string, strokeWidth: nat, opacity: nat, filter: string)

  /** Selected: opacity 1, a 2.5 wide secondary stroke and a drop shadow; hovered:
      opacity 0.85, brightened; idle: opacity 0.7. Both unselected cases keep the
      0.8 wide border stroke. */
  function Style(e: Emphasis): (st: PathStyle)
    ensures st.stroke == "hsl(var(--secondary))" <==> e == Selected
    ensures st.stroke == "hsl(var(--border))" <==> e != Selected
    ensures st.strokeWidth == 250 <==> e == Selected
    ensures st.strokeWidth == 80 <==> e != Selected
    ensures st.opacity == 100 <==> e == Selected
    ensures st.opacity == 85 <==> e == Hovered
    ensures st.opacity == 70 <==> e == Idle
    ensures st.filter == "drop-shadow(0 0 8px hsl(var(--secondary)))" <==> e == Selected
    ensures st.filter == "brightness(1.2)" <==> e == Hovered
    ensures st.filter == "none" <==> e == Idle
  {
    match e
    case Selected => PathStyle("hsl(var(--secondary))", 250, 100, "drop-shadow(0 0 8px hsl(var(--secondary)))")
    case Hovered => PathStyle("hsl(var(--border))", 80, 85, "brightness(1.2)")
    case Idle => PathStyle("hsl(var(--border))", 80, 70, "none")
  }

  /** More emphasis never draws a shape fainter or thinner, and the three
      emphases are told apart by opacity alone. */
  lemma StyleFollowsEmphasis(e1: Emphasis, e2: Emphasis)
    ensures EmphasisRank(e1) <= EmphasisRank(e2) ==>
              Style(e1).opacity <= Style(e2).opacity && Style(e1).strokeWidth <= Style(e2).strokeWidth
    ensures Style(e1).opacity == Style(e2).opacity ==> e1 == e2
  {
  }

  /** Selection takes precedence: a selected shape looks the same hovered or not. */
  lemma SelectedTakesPrecedence(isHovered: bool)
    ensures Style(EmphasisOf(true, isHovered)) == Style(Selected)
  {
  }

  // ---------------------------------------------------------------------------
  // Rendering

  /** A name label: its position and its text. */
  datatype Label = Label(x: int, y: int, text: string)

  /** What one `<g>` of the map draws: the shape's code (its click target), fill,
      style and, optionally, its label. */
  datatype ShapeView = ShapeView(code: string, fill: string, style: PathStyle, nameLabel: Option<Label>)

  /** One shape as rendered for the props and the hover state. The label is drawn
      when the shape is selected or hovered and `allCountries` knows its code. */
  function ShapeViewOf(shape: MapShape, selectedCountry: string, hovered: Option<string>,
                       countriesData: seq<ScoreEntry>, allCountries: seq<NamedCountry>): (v: ShapeView)
    ensures v.code == shape.code
    ensures v.fill == ColorByScore(EffectiveScore(countriesData, shape.code))
    ensures v.style == Style(EmphasisOf(selectedCountry == shape.code, IsHovered(hovered, shape.code)))
    ensures v.nameLabel.Some? <==>
              (selectedCountry == shape.code || IsHovered(hovered, shape.code)) &&
              exists i :: 0 <= i < |allCountries| && allCountries[i].code == shape.code
    ensures v.nameLabel.Some? ==>
              v.nameLabel.value.x == shape.labelX && v.nameLabel.value.y == shape.labelY &&
              Some(v.nameLabel.value.text) == FindName(allCountries, shape.code)
  {
    var isSelected := selectedCountry == shape.code;
    var isHovered := IsHovered(hovered, shape.code);
    var country := FindName(allCountries, shape.code);
    ShapeView(shape.code,
              ColorByScore(EffectiveScore(countriesData, shape.code)),
              Style(EmphasisOf(isSelected, isHovered)),
              if (isSelected || isHovered) && country.Some? then Some(Label(shape.labelX, shape.labelY, country.value)) else None)
  }

  /** The whole map, shape by shape in table order. */
  function View(selectedCountry: string, hovered: Option<string>,
                countriesData: seq<ScoreEntry>, allCountries: seq<NamedCountry>): (vs: seq<ShapeView>)
    ensures |vs| == |CountryPaths|
    ensures forall i :: 0 <= i < |vs| ==> vs[i] == ShapeViewOf(CountryPaths[i], selectedCountry, hovered, countriesData, allCountries)
  {
    seq(|CountryPaths|, i requires 0 <= i < |CountryPaths| =>
      ShapeViewOf(CountryPaths[i], selectedCountry, hovered, countriesData, allCountries))
  }

  /** Clicking shape `i` reports its own code; once that code is selected, the
      shapes drawn as selected are exactly the shapes with that code, shape `i`
      among them. */
  lemma ClickSelectsOwnShape(i: int, hovered: Option<string>, countriesData: seq<ScoreEntry>, allCountries: seq<NamedCountry>)
    requires 0 <= i < |CountryPaths|
    ensures View(CountryPaths[i].code, hovered, countriesData, allCountries)[i].style == Style(Selected)
    ensures forall j :: 0 <= j < |CountryPaths| ==>
              (View(CountryPaths[i].code, hovered, countriesData, allCountries)[j].style == Style(Selected) <==>
               CountryPaths[j].code == CountryPaths[i].code)
  {
    var vs := View(CountryPaths[i].code, hovered, countriesData, allCountries);
    forall j | 0 <= j < |CountryPaths|
      ensures vs[j].style == Style(Selected) <==> CountryPaths[j].code == CountryPaths[i].code
    {
      StyleFollowsEmphasis(EmphasisOf(CountryPaths[i].code == CountryPaths[j].code, IsHovered(hovered, CountryPaths[j].code)), Selected);
    }
  }

  /** Labels appear only on the selected and the hovered shapes. */
  lemma LabelsOnlyWhereEmphasised(selectedCountry: string, hovered: Option<string>,
                                  countriesData: seq<ScoreEntry>, allCountries: seq<NamedCountry>, i: int)
    requires 0 <= i < |CountryPaths|
    requires View(selectedCountry, hovered, countriesData, allCountries)[i].nameLabel.Some?
    ensures CountryPaths[i].code == selectedCountry || hovered == Some(CountryPaths[i].code)
    ensures View(selectedCountry, hovered, countriesData, allCountries)[i].style != Style(Idle)
  {
  }

  /** Moving the mouse onto shape `i` hovers it: unless it is the selected
      shape it is drawn as hovered, and it is labelled when its name is known. */
  method EnterShape(h: HoverState, i: int, selectedCountry: string,
                    countriesData: seq<ScoreEntry>, allCountries: seq<NamedCountry>) returns (vs: seq<ShapeView>)
    requires 0 <= i < |CountryPaths|
    modifies h
    ensures h.hoveredCountry == Some(CountryPaths[i].code)
    ensures vs == View(selectedCountry, h.hoveredCountry, countriesData, allCountries)
    ensures selectedCountry != CountryPaths[i].code ==> vs[i].style == Style(Hovered)
    ensures FindName(allCountries, CountryPaths[i].code).Some? ==> vs[i].nameLabel.Some?
  {
    h.MouseEnter(CountryPaths[i].code);
    vs := View(selectedCountry, h.hoveredCountry, countriesData, allCountries);
  }

  /** Moving the mouse off a shape clears the hover: every shape but the
      selected one is idle and unlabelled. */
  method LeaveShape(h: HoverState, selectedCountry: string,
                    countriesData: seq<ScoreEntry>, allCountries: seq<NamedCountry>) returns (vs: seq<ShapeView>)
    modifies h
    ensures h.hoveredCountry == None
    ensures vs == View(selectedCountry, h.hoveredCountry, countriesData, allCountries)
    ensures forall j :: 0 <= j < |vs| && CountryPaths[j].code != selectedCountry ==>
              vs[j].style == Style(Idle) && vs[j].nameLabel.None?
  {
    h.MouseLeave();
    vs := View(selectedCountry, h.hoveredCountry, countriesData, allCountries);
  }

  // ---------------------------------------------------------------------------
  // Legend

  /** The legend at the bottom of the map: 70+, 40-69, <40. */
  const Legend: seq<LegendEntry> := [
    LegendEntry("#22c55e", "Высокая (70+)", Some(70), None),
    LegendEntry("#eab308", "Средняя (40-69)", Some(40), Some(69)),
    LegendEntry("#ef4444", "Низкая (<40)", None, Some(39))
  ]

  /** Each legend range is exactly the set of scores painted in its colour. */
  lemma LegendMatchesColors()
    ensures LegendAgrees(Legend)
  {
    ThreeBandLegendAgrees("Высокая (70+)", "Средняя (40-69)", "Низкая (<40)");
  }
}
