/** The map of 16 rectangles. Each is filled by its country's score and drawn with
    the emphasis of the selected or hovered country. Its label sits near its first
    corner, and the label position is read back out of the path text with
    `split(' ')` and `parseInt`. */
module RealisticWorldMap {
  import opened Js
  import opened MapCommon

  // ---------------------------------------------------------------------------
  // Path table

  /** A non-empty run of decimal digits. */
  type Numeral = s: string | |s| >= 1 && forall i :: 0 <= i < |s| ==> IsDigit(s[i], 10) witness "0"

  /** The corners of a rectangle, as the numerals its path text writes them. */
  datatype Outline = Outline(x1: Numeral, y1: Numeral, x2: Numeral, y2: Numeral)

  /** The value of a numeral. */
  function Value(s: Numeral): nat
  {
    DigitsValue(s, 10)
  }

  /** A corner as the path writes it, "x,y". */
  function Corner(x: Numeral, y: Numeral): string
  {
    x + "," + y
  }

  /** The space-separated tokens of a rectangle's path. */
  function RectTokens(o: Outline): seq<string>
  {
    ["M", Corner(o.x1, o.y1), "L", Corner(o.x2, o.y1), "L", Corner(o.x2, o.y2), "L", Corner(o.x1, o.y2), "Z"]
  }

  /** The path text of a rectangle: `M x1,y1 L x2,y1 L x2,y2 L x1,y2 Z`. */
  function RectPath(o: Outline): string
  {
    "M " + Corner(o.x1, o.y1) + " L " + Corner(o.x2, o.y1) + " L " + Corner(o.x2, o.y2) + " L " + Corner(o.x1, o.y2) + " Z"
  }

  /** The path text, with its spaces grouped from the right. */
  lemma RectPathNested(o: Outline)
    ensures RectPath(o) ==
      "M" + [' '] + (Corner(o.x1, o.y1) + [' '] + ("L" + [' '] + (
      Corner(o.x2, o.y1) + [' '] + ("L" + [' '] + (Corner(o.x2, o.y2) + [' '] + (
      "L" + [' '] + (Corner(o.x1, o.y2) + [' '] + "Z")))))))
  {
  }

  /** Splitting off three space-free pieces. */
  lemma SplitThree(a: string, b: string, c: string, rest: string)
    requires ' ' !in a && ' ' !in b && ' ' !in c
    ensures Split(a + [' '] + (b + [' '] + (c + [' '] + rest)), ' ') == [a, b, c] + Split(rest, ' ')
  {
    SplitAtFirstSeparator(c, rest, ' ');
    SplitAtFirstSeparator(b, c + [' '] + rest, ' ');
    SplitAtFirstSeparator(a, b + [' '] + (c + [' '] + rest), ' ');
  }

  /** No token of a rectangle's path contains a space. */
  lemma TokensWithoutSpace(o: Outline)
    ensures forall i :: 0 <= i < |RectTokens(o)| ==> ' ' !in RectTokens(o)[i]
  {
    var ts := RectTokens(o);
    forall i | 0 <= i < |ts|
      ensures ' ' !in ts[i]
    {
      if i % 2 == 1 {
        assert forall c :: c in ts[i] ==> IsDigit(c, 10) || c == ',';
      }
    }
  }

  /** Splitting the path text of a rectangle on spaces gives back its tokens. */
  lemma RectPathTokens(o: Outline)
    ensures Split(RectPath(o), ' ') == RectTokens(o)
  {
    var ts := RectTokens(o);
    TokensWithoutSpace(o);
    RectPathNested(o);
    var last := ts[6] + [' '] + (ts[7] + [' '] + ts[8]);
    SplitWithoutSeparator(ts[8], ' ');
    SplitAtFirstSeparator(ts[7], ts[8], ' ');
    SplitAtFirstSeparator(ts[6], ts[7] + [' '] + ts[8], ' ');
    SplitThree(ts[3], ts[4], ts[5], last);
    SplitThree(ts[0], ts[1], ts[2], ts[3] + [' '] + (ts[4] + [' '] + (ts[5] + [' '] + last)));
    assert ts == [ts[0], ts[1], ts[2]] + [ts[3], ts[4], ts[5]] + [ts[6], ts[7], ts[8]];
  }

  /** A key of `countryPaths` and the rectangle its path draws. */
  datatype CountryPath = CountryPath(code: string, outline: Outline)

  /** The path text of an entry. */
  function PathOf(c: CountryPath): string
  {
    RectPath(c.outline)
  }

  /** The entries in the order `Object.entries` yields them. */
  const CountryPaths: seq<CountryPath> := [
    CountryPath("RU", Outline("500", "100", "700", "200")),
    CountryPath("US", Outline("100", "200", "250", "300")),
    CountryPath("CN", Outline("600", "250", "700", "350")),
    CountryPath("DE", Outline("420", "180", "450", "210")),
    CountryPath("GB", Outline("380", "160", "410", "190")),
    CountryPath("FR", Outline("390", "210", "420", "240")),
    CountryPath("IT", Outline("430", "230", "460", "280")),
    CountryPath("ES", Outline("360", "240", "390", "270")),
    CountryPath("CA", Outline("100", "100", "250", "180")),
    CountryPath("BR", Outline("280", "350", "360", "450")),
    CountryPath("JP", Outline("730", "260", "760", "320")),
    CountryPath("IN", Outline("570", "280", "620", "350")),
    CountryPath("AU", Outline("650", "450", "750", "520")),
    CountryPath("NO", Outline("430", "120", "460", "160")),
    CountryPath("SE", Outline("440", "130", "470", "170")),
    CountryPath("BY", Outline("480", "170", "510", "190"))
  ]

  /** The table stores each path by its corners; the first entry is Russia's. */
  lemma RussiaEntry()
    ensures CountryPaths[0] == CountryPath("RU", Outline("500", "100", "700", "200"))
  {
  }

  /** The path text of entry `k` is the path of its outline. */
  lemma EntryPath(k: int, o: Outline)
    requires 0 <= k < |CountryPaths| && CountryPaths[k].outline == o
    ensures PathOf(CountryPaths[k]) == RectPath(o)
  {
  }

  // The corners of each outline give back the literal path text written for it.

  lemma OutlineTextRU()
    ensures RectPath(Outline("500", "100", "700", "200")) == "M 500,100 L 700,100 L 700,200 L 500,200 Z"
  {
  }

  lemma OutlineTextUS()
    ensures RectPath(Outline("100", "200", "250", "300")) == "M 100,200 L 250,200 L 250,300 L 100,300 Z"
  {
  }

  lemma OutlineTextCN()
    ensures RectPath(Outline("600", "250", "700", "350")) == "M 600,250 L 700,250 L 700,350 L 600,350 Z"
  {
  }

  lemma OutlineTextDE()
    ensures RectPath(Outline("420", "180", "450", "210")) == "M 420,180 L 450,180 L 450,210 L 420,210 Z"
  {
  }

  lemma OutlineTextGB()
    ensures RectPath(Outline("380", "160", "410", "190")) == "M 380,160 L 410,160 L 410,190 L 380,190 Z"
  {
  }

  lemma OutlineTextFR()
    ensures RectPath(Outline("390", "210", "420", "240")) == "M 390,210 L 420,210 L 420,240 L 390,240 Z"
  {
  }

  lemma OutlineTextIT()
    ensures RectPath(Outline("430", "230", "460", "280")) == "M 430,230 L 460,230 L 460,280 L 430,280 Z"
  {
  }

  lemma OutlineTextES()
    ensures RectPath(Outline("360", "240", "390", "270")) == "M 360,240 L 390,240 L 390,270 L 360,270 Z"
  {
  }

  lemma OutlineTextCA()
    ensures RectPath(Outline("100", "100", "250", "180")) == "M 100,100 L 250,100 L 250,180 L 100,180 Z"
  {
  }

  lemma OutlineTextBR()
    ensures RectPath(Outline("280", "350", "360", "450")) == "M 280,350 L 360,350 L 360,450 L 280,450 Z"
  {
  }

  lemma OutlineTextJP()
    ensures RectPath(Outline("730", "260", "760", "320")) == "M 730,260 L 760,260 L 760,320 L 730,320 Z"
  {
  }

  lemma OutlineTextIN()
    ensures RectPath(Outline("570", "280", "620", "350")) == "M 570,280 L 620,280 L 620,350 L 570,350 Z"
  {
  }

  lemma OutlineTextAU()
    ensures RectPath(Outline("650", "450", "750", "520")) == "M 650,450 L 750,450 L 750,520 L 650,520 Z"
  {
  }

  lemma OutlineTextNO()
    ensures RectPath(Outline("430", "120", "460", "160")) == "M 430,120 L 460,120 L 460,160 L 430,160 Z"
  {
  }

  lemma OutlineTextSE()
    ensures RectPath(Outline("440", "130", "470", "170")) == "M 440,130 L 470,130 L 470,170 L 440,170 Z"
  {
  }

  lemma OutlineTextBY()
    ensures RectPath(Outline("480", "170", "510", "190")) == "M 480,170 L 510,170 L 510,190 L 480,190 Z"
  {
  }

  // The path text of each entry of the table is the literal the map draws,
  // one lemma per entry in table order.

  lemma PathTextRU()
    ensures PathOf(CountryPaths[0]) == "M 500,100 L 700,100 L 700,200 L 500,200 Z"
  {
    EntryPath(0, Outline("500", "100", "700", "200"));
    OutlineTextRU();
  }

  lemma PathTextUS()
    ensures PathOf(CountryPaths[1]) == "M 100,200 L 250,200 L 250,300 L 100,300 Z"
  {
    EntryPath(1, Outline("100", "200", "250", "300"));
    OutlineTextUS();
  }

  lemma PathTextCN()
    ensures PathOf(CountryPaths[2]) == "M 600,250 L 700,250 L 700,350 L 600,350 Z"
  {
    EntryPath(2, Outline("600", "250", "700", "350"));
    OutlineTextCN();
  }

  lemma PathTextDE()
    ensures PathOf(CountryPaths[3]) == "M 420,180 L 450,180 L 450,210 L 420,210 Z"
  {
    EntryPath(3, Outline("420", "180", "450", "210"));
    OutlineTextDE();
  }

  lemma PathTextGB()
    ensures PathOf(CountryPaths[4]) == "M 380,160 L 410,160 L 410,190 L 380,190 Z"
  {
    EntryPath(4, Outline("380", "160", "410", "190"));
    OutlineTextGB();
  }

  lemma PathTextFR()
    ensures PathOf(CountryPaths[5]) == "M 390,210 L 420,210 L 420,240 L 390,240 Z"
  {
    EntryPath(5, Outline("390", "210", "420", "240"));
    OutlineTextFR();
  }

  lemma PathTextIT()
    ensures PathOf(CountryPaths[6]) == "M 430,230 L 460,230 L 460,280 L 430,280 Z"
  {
    EntryPath(6, Outline("430", "230", "460", "280"));
    OutlineTextIT();
  }

  lemma PathTextES()
    ensures PathOf(CountryPaths[7]) == "M 360,240 L 390,240 L 390,270 L 360,270 Z"
  {
    EntryPath(7, Outline("360", "240", "390", "270"));
    OutlineTextES();
  }

  lemma PathTextCA()
    ensures PathOf(CountryPaths[8]) == "M 100,100 L 250,100 L 250,180 L 100,180 Z"
  {
    EntryPath(8, Outline("100", "100", "250", "180"));
    OutlineTextCA();
  }

  lemma PathTextBR()
    ensures PathOf(CountryPaths[9]) == "M 280,350 L 360,350 L 360,450 L 280,450 Z"
  {
    EntryPath(9, Outline("280", "350", "360", "450"));
    OutlineTextBR();
  }

  lemma PathTextJP()
    ensures PathOf(CountryPaths[10]) == "M 730,260 L 760,260 L 760,320 L 730,320 Z"
  {
    EntryPath(10, Outline("730", "260", "760", "320"));
    OutlineTextJP();
  }

  lemma PathTextIN()
    ensures PathOf(CountryPaths[11]) == "M 570,280 L 620,280 L 620,350 L 570,350 Z"
  {
    EntryPath(11, Outline("570", "280", "620", "350"));
    OutlineTextIN();
  }

  lemma PathTextAU()
    ensures PathOf(CountryPaths[12]) == "M 650,450 L 750,450 L 750,520 L 650,520 Z"
  {
    EntryPath(12, Outline("650", "450", "750", "520"));
    OutlineTextAU();
  }

  lemma PathTextNO()
    ensures PathOf(CountryPaths[13]) == "M 430,120 L 460,120 L 460,160 L 430,160 Z"
  {
    EntryPath(13, Outline("430", "120", "460", "160"));
    OutlineTextNO();
  }

  lemma PathTextSE()
    ensures PathOf(CountryPaths[14]) == "M 440,130 L 470,130 L 470,170 L 440,170 Z"
  {
    EntryPath(14, Outline("440", "130", "470", "170"));
    OutlineTextSE();
  }

  lemma PathTextBY()
    ensures PathOf(CountryPaths[15]) == "M 480,170 L 510,170 L 510,190 L 480,190 Z"
  {
    EntryPath(15, Outline("480", "170", "510", "190"));
    OutlineTextBY();
  }

  /** The value of a three-digit numeral, digit by digit. */
  lemma ThreeDigitValue(s: Numeral)
    requires |s| == 3
    ensures Value(s) == 100 * DigitValue(s[0]) + 10 * DigitValue(s[1]) + DigitValue(s[2])
  {
    assert s[..2][..1] == s[..1] && s[..1][..0] == [];
    assert DigitsValue(s[..1], 10) == DigitValue(s[0]);
    assert DigitsValue(s[..2], 10) == 10 * DigitValue(s[0]) + DigitValue(s[1]);
  }

  // ---------------------------------------------------------------------------
  // Label position

  /** `path.split(' ')[i]`: `undefined` past the last token. */
  function Token(path: string, i: int): (t: Option<string>)
    ensures t.Some? <==> 0 <= i < |Split(path, ' ')|
    ensures t.Some? ==> ' ' !in t.value
  {
    At(Split(path, ' '), i)
  }

  /** The label's x: `parseInt(path.split(' ')[1]) + 15`. */
  function LabelX(path: string): Num
  {
    CornerX(Token(path, 1))
  }

  /** The label's x is NaN when the path has no token 1, and otherwise what
      `parseInt` reads from token 1, plus 15. */
  lemma LabelXReadsToken(path: string)
    ensures Token(path, 1).None? ==> LabelX(path) == NaN
    ensures Token(path, 1).Some? ==> LabelX(path) == AddNum(ParseInt(Token(path, 1).value), 15)
  {
  }

  /** `parseInt(token) + 15` for the token the label x is read from. */
  function CornerX(token: Option<string>): Num
  {
    AddNum(ParseIntOrUndefined(token), 15)
  }

  /** The label's y as the map computes it: `parseInt(path.split(' ')[2]) - 10`. */
  function LabelYAsWritten(path: string): Num
  {
    TokenMinus10(Token(path, 2))
  }

  /** The label's y as written is NaN when the path has no token 2, and
      otherwise what `parseInt` reads from token 2, minus 10. */
  lemma LabelYAsWrittenReadsToken(path: string)
    ensures Token(path, 2).None? ==> LabelYAsWritten(path) == NaN
    ensures Token(path, 2).Some? ==> LabelYAsWritten(path) == AddNum(ParseInt(Token(path, 2).value), -10)
  {
  }

  /** `parseInt(token) - 10` for the token the label y is read from. */
  function TokenMinus10(token: Option<string>): Num
  {
    AddNum(ParseIntOrUndefined(token), -10)
  }

  /** The label's y as intended: the y of the first corner, the part of token 1
      after the comma, minus 10. */
  function LabelY(path: string): Num
  {
    CornerY(Token(path, 1))
  }

  /** The part of a corner token after its comma, parsed, minus 10. */
  function CornerY(token: Option<string>): Num
  {
    AddNum(ParseIntOrUndefined(if token.Some? then At(Split(token.value, ','), 1) else None), -10)
  }

  /** `parseInt` of a corner reads its x, up to the comma. */
  lemma ParseCorner(x: Numeral, y: Numeral)
    ensures ParseInt(Corner(x, y)) == Int(Value(x))
  {
    assert Corner(x, y) == x + ("," + y);
    ParseIntNumeral(x, "," + y);
  }

  /** `parseInt` of a numeral is its value. */
  lemma ParseNumeral(y: Numeral)
    ensures ParseInt(y) == Int(Value(y))
  {
    ParseIntNumeral(y, []);
    assert y + [] == y;
  }

  /** Splitting a corner on its comma gives its two numerals. */
  lemma SplitCorner(x: Numeral, y: Numeral)
    ensures Split(Corner(x, y), ',') == [x, y]
  {
    assert ',' !in x && ',' !in y by {
      assert forall c :: c in x ==> IsDigit(c, 10);
      assert forall c :: c in y ==> IsDigit(c, 10);
    }
    SplitWithoutSeparator(y, ',');
    SplitAtFirstSeparator(x, y, ',');
  }

  /** The label x read from a token that `parseInt` reads as `v` is `v + 15`. */
  lemma CornerXOfParsed(token: string, v: int)
    requires ParseInt(token) == Int(v)
    ensures CornerX(Some(token)) == Int(v + 15)
  {
  }

  /** The intended label y read from a token whose second comma-separated part
      `parseInt` reads as `v` is `v - 10`. */
  lemma CornerYOfParsed(token: string, second: string, v: int)
    requires At(Split(token, ','), 1) == Some(second)
    requires ParseInt(second) == Int(v)
    ensures CornerY(Some(token)) == Int(v - 10)
  {
  }

  /** The label x read from a corner token "x,y" is `x + 15`. */
  lemma CornerXOfCorner(x: Numeral, y: Numeral)
    ensures CornerX(Some(Corner(x, y))) == Int(Value(x) + 15)
  {
    ParseCorner(x, y);
    CornerXOfParsed(Corner(x, y), Value(x));
  }

  /** The intended label y read from a corner token "x,y" is `y - 10`. */
  lemma CornerYOfCorner(x: Numeral, y: Numeral)
    ensures CornerY(Some(Corner(x, y))) == Int(Value(y) - 10)
  {
    SplitCorner(x, y);
    ParseNumeral(y);
    CornerYOfParsed(Corner(x, y), y, Value(y));
  }

  /** The label x of any path whose token 1 is a corner "x,y". */
  lemma LabelXOfCornerToken(path: string, x: Numeral, y: Numeral)
    requires Token(path, 1) == Some(Corner(x, y))
    ensures LabelX(path) == Int(Value(x) + 15)
  {
    CornerXOfCorner(x, y);
  }

  /** The intended label y of any path whose token 1 is a corner "x,y". */
  lemma LabelYOfCornerToken(path: string, x: Numeral, y: Numeral)
    requires Token(path, 1) == Some(Corner(x, y))
    ensures LabelY(path) == Int(Value(y) - 10)
  {
    CornerYOfCorner(x, y);
  }

  /** Token 1 of a rectangle's path is its first corner, "x1,y1"; `parseInt`
      reads it up to the comma, so the label is 15 right of that corner. */
  lemma LabelXOfRect(o: Outline)
    ensures LabelX(RectPath(o)) == Int(Value(o.x1) + 15)
  {
    RectPathTokens(o);
    LabelXOfCornerToken(RectPath(o), o.x1, o.y1);
  }

  /** Token 2 of every rectangle's path is "L", so the label's y is NaN. */
  lemma LabelYAsWrittenIsNaN(o: Outline)
    ensures LabelYAsWritten(RectPath(o)) == NaN
  {
    RectPathTokens(o);
    assert Token(RectPath(o), 2) == Some("L");
    LetterMinus10();
  }

  /** `parseInt("L") - 10` is NaN. */
  lemma LetterMinus10()
    ensures TokenMinus10(Some("L")) == NaN
  {
    ParseIntNoDigit("L");
  }

  /** The intended rule puts the label 10 above the first corner. */
  lemma LabelYOfRect(o: Outline)
    ensures LabelY(RectPath(o)) == Int(Value(o.y1) - 10)
  {
    RectPathTokens(o);
    LabelYOfCornerToken(RectPath(o), o.x1, o.y1);
  }

  /** No country of the table gets a numeric label y. */
  lemma EveryLabelYIsNaN()
    ensures forall k :: 0 <= k < |CountryPaths| ==> LabelYAsWritten(PathOf(CountryPaths[k])) == NaN
  {
    forall k | 0 <= k < |CountryPaths|
      ensures LabelYAsWritten(PathOf(CountryPaths[k])) == NaN
    {
      LabelYAsWrittenIsNaN(CountryPaths[k].outline);
    }
  }

  /** The numerals of Russia's first corner. */
  lemma RussiaCornerValues()
    ensures Value("500") == 500 && Value("100") == 100
  {
    ThreeDigitValue("500");
    ThreeDigitValue("100");
  }

  /** Russia's label: x is 515; y is NaN as written and 90 as intended. */
  lemma RussiaLabel()
    ensures LabelX(PathOf(CountryPaths[0])) == Int(515)
    ensures LabelYAsWritten(PathOf(CountryPaths[0])) == NaN
    ensures LabelY(PathOf(CountryPaths[0])) == Int(90)
  {
    RussiaEntry();
    RussiaCornerValues();
    var o := CountryPaths[0].outline;
    LabelXOfRect(o);
    LabelYAsWrittenIsNaN(o);
    LabelYOfRect(o);
  }

  // ---------------------------------------------------------------------------
  // Styling

  /** The presentation attributes of a rectangle; stroke widths and opacities in
      hundredths. */
  datatype PathStyle = PathStyle(stroke: string, strokeWidth: nat, opacity: nat, filter: string)

  /** Selected: opacity 0.9, a 3 wide secondary stroke and a drop shadow; hovered:
      opacity 0.8; idle: opacity 0.6. Both unselected cases keep the 1 wide border
      stroke and no filter. */
  function Style(e: Emphasis): (st: PathStyle)
    ensures st.stroke == "hsl(var(--secondary))" <==> e == Selected
    ensures st.stroke == "hsl(var(--border))" <==> e != Selected
    ensures st.strokeWidth == 300 <==> e == Selected
    ensures st.strokeWidth == 100 <==> e != Selected
    ensures st.opacity == 90 <==> e == Selected
    ensures st.opacity == 80 <==> e == Hovered
    ensures st.opacity == 60 <==> e == Idle
    ensures st.filter == "drop-shadow(0 0 12px hsl(var(--secondary)))" <==> e == Selected
    ensures st.filter == "none" <==> e != Selected
  {
    match e
    case Selected => PathStyle("hsl(var(--secondary))", 300, 90, "drop-shadow(0 0 12px hsl(var(--secondary)))")
    case Hovered => PathStyle("hsl(var(--border))", 100, 80, "none")
    case Idle => PathStyle("hsl(var(--border))", 100, 60, "none")
  }

  /** More emphasis never draws a rectangle fainter or thinner, and the three
      emphases are told apart by opacity alone. */
  lemma StyleFollowsEmphasis(e1: Emphasis, e2: Emphasis)
    ensures EmphasisRank(e1) <= EmphasisRank(e2) ==>
              Style(e1).opacity <= Style(e2).opacity && Style(e1).strokeWidth <= Style(e2).strokeWidth
    ensures Style(e1).opacity == Style(e2).opacity ==> e1 == e2
  {
  }

  // ---------------------------------------------------------------------------
  // Rendering

  /** A name label: its position (either may be NaN) and its text (`country?.name`,
      none when `allCountries` lacks the code). */
  datatype Label = Label(x: Num, y: Num, text: Option<string>)

  /** What one `<g>` of the map draws. */
  datatype ShapeView = ShapeView(code: string, fill: string, style: PathStyle, nameLabel: Option<Label>)

  /** The label of an entry as the map draws it: placed by `LabelX` and
      `LabelYAsWritten`, so 15 right of the first corner, with a NaN y. */
  function LabelOf(entry: CountryPath, allCountries: seq<NamedCountry>): (l: Label)
    ensures l.x == Int(Value(entry.outline.x1) + 15)
    ensures l.y == NaN
    ensures l.text == FindName(allCountries, entry.code)
  {
    LabelXOfRect(entry.outline);
    LabelYAsWrittenIsNaN(entry.outline);
    Label(LabelX(PathOf(entry)), LabelYAsWritten(PathOf(entry)), FindName(allCountries, entry.code))
  }

  /** The label of an entry as intended: placed by `LabelX` and `LabelY`, 15
      right of and 10 above the first corner. */
  function IntendedLabelOf(entry: CountryPath, allCountries: seq<NamedCountry>): (l: Label)
    ensures l.x == Int(Value(entry.outline.x1) + 15)
    ensures l.y == Int(Value(entry.outline.y1) - 10)
    ensures l.text == FindName(allCountries, entry.code)
  {
    LabelXOfRect(entry.outline);
    LabelYOfRect(entry.outline);
    Label(LabelX(PathOf(entry)), LabelY(PathOf(entry)), FindName(allCountries, entry.code))
  }

  /** The drawn label and the intended one differ only in y, which the map
      loses for every entry. */
  lemma DrawnLabelLosesY(entry: CountryPath, allCountries: seq<NamedCountry>)
    ensures LabelOf(entry, allCountries).x == IntendedLabelOf(entry, allCountries).x
    ensures LabelOf(entry, allCountries).text == IntendedLabelOf(entry, allCountries).text
    ensures LabelOf(entry, allCountries).y.NaN? && IntendedLabelOf(entry, allCountries).y.Int?
  {
  }

  /** One rectangle as rendered for the props and the hover state. The label is
      drawn exactly when the rectangle is selected or hovered. */
  function ShapeViewOf(entry: CountryPath, selectedCountry: string, hovered: Option<string>,
                       countriesData: seq<ScoreEntry>, allCountries: seq<NamedCountry>): (v: ShapeView)
    ensures v.code == entry.code
    ensures v.fill == ColorByScore(EffectiveScore(countriesData, entry.code))
    ensures v.style == Style(EmphasisOf(selectedCountry == entry.code, IsHovered(hovered, entry.code)))
    ensures v.nameLabel.Some? <==> selectedCountry == entry.code || IsHovered(hovered, entry.code)
    ensures v.nameLabel.Some? ==> v.nameLabel.value == LabelOf(entry, allCountries)
  {
    var isSelected := selectedCountry == entry.code;
    var isHovered := IsHovered(hovered, entry.code);
    ShapeView(entry.code,
              ColorByScore(EffectiveScore(countriesData, entry.code)),
              Style(EmphasisOf(isSelected, isHovered)),
              if isSelected || isHovered then Some(LabelOf(entry, allCountries)) else None)
  }

  /** The whole map, rectangle by rectangle in table order. */
  function View(selectedCountry: string, hovered: Option<string>,
                countriesData: seq<ScoreEntry>, allCountries: seq<NamedCountry>): (vs: seq<ShapeView>)
    ensures |vs| == |CountryPaths|
    ensures forall i :: 0 <= i < |vs| ==> vs[i] == ShapeViewOf(CountryPaths[i], selectedCountry, hovered, countriesData, allCountries)
  {
    seq(|CountryPaths|, i requires 0 <= i < |CountryPaths| =>
      ShapeViewOf(CountryPaths[i], selectedCountry, hovered, countriesData, allCountries))
  }

  /** After the mouse leaves, only the selected rectangle keeps a label. */
  method LeaveShape(h: HoverState, selectedCountry: string,
                    countriesData: seq<ScoreEntry>, allCountries: seq<NamedCountry>) returns (vs: seq<ShapeView>)
    modifies h
    ensures h.hoveredCountry == None
    ensures vs == View(selectedCountry, h.hoveredCountry, countriesData, allCountries)
    ensures forall j :: 0 <= j < |vs| ==> (vs[j].nameLabel.Some? <==> CountryPaths[j].code == selectedCountry)
  {
    h.MouseLeave();
    vs := View(selectedCountry, h.hoveredCountry, countriesData, allCountries);
  }

  /** Moving the mouse onto rectangle `i` labels it, whatever `allCountries` holds. */
  method EnterShape(h: HoverState, i: int, selectedCountry: string,
                    countriesData: seq<ScoreEntry>, allCountries: seq<NamedCountry>) returns (vs: seq<ShapeView>)
    requires 0 <= i < |CountryPaths|
    modifies h
    ensures h.hoveredCountry == Some(CountryPaths[i].code)
    ensures vs == View(selectedCountry, h.hoveredCountry, countriesData, allCountries)
    ensures vs[i].nameLabel.Some?
    ensures selectedCountry != CountryPaths[i].code ==> vs[i].style == Style(Hovered)
  {
    h.MouseEnter(CountryPaths[i].code);
    vs := View(selectedCountry, h.hoveredCountry, countriesData, allCountries);
  }

  // ---------------------------------------------------------------------------
  // Legend

  /** The legend at the bottom of the map as written: its middle entry reads
      "40-70", although a score of 70 is painted green. */
  const LegendAsWritten: seq<LegendEntry> := [
    LegendEntry("#22c55e", "Высокая демократия (70+)", Some(70), None),
    LegendEntry("#eab308", "Средний уровень (40-70)", Some(40), Some(70)),
    LegendEntry("#ef4444", "Низкая демократия (<40)", None, Some(39))
  ]

  /** A score of 70 falls in two legend ranges but is painted only green. */
  lemma LegendAsWrittenOverlaps()
    ensures InRange(LegendAsWritten[0], 70) && InRange(LegendAsWritten[1], 70)
    ensures ColorByScore(70) == LegendAsWritten[0].color != LegendAsWritten[1].color
    ensures !LegendAgrees(LegendAsWritten)
  {
  }

  /** The legend with its middle range ending at 69, as the colour rule draws it. */
  const Legend: seq<LegendEntry> := [
    LegendEntry("#22c55e", "Высокая демократия (70+)", Some(70), None),
    LegendEntry("#eab308", "Средний уровень (40-69)", Some(40), Some(69)),
    LegendEntry("#ef4444", "Низкая демократия (<40)", None, Some(39))
  ]

  /** Each corrected legend range is exactly the set of scores painted in its colour. */
  lemma LegendMatchesColors()
    ensures LegendAgrees(Legend)
  {
    ThreeBandLegendAgrees("Высокая демократия (70+)", "Средний уровень (40-69)", "Низкая демократия (<40)");
  }
}
