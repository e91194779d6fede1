/** The dashboard page: a table of countries with four scores and a trend, the
    selected country as the page's state, the banded score cards, the trend badge,
    the comparison panel and the news tabs. */
module IndexPage {
  import opened Js
  import Bands

  datatype Trend = Up | Down | Stable

  /** A row of `mockCountries`. */
  datatype Country = Country(
    name: string,
    code: string,
    democracyScore: int,
    freedomScore: int,
    authoritarianScore: int,
    pressFreedomScore: int,
    trend: Trend)

  const MockCountries: seq<Country> := [
    Country("Россия", "RU", 35, 28, 72, 20, Down),
    Country("США", "US", 78, 82, 22, 75, Stable),
    Country("Германия", "DE", 85, 88, 12, 82, Up),
    Country("Китай", "CN", 25, 18, 82, 10, Down),
    Country("Норвегия", "NO", 95, 97, 5, 95, Stable),
    Country("Беларусь", "BY", 22, 15, 85, 12, Down),
    Country("Франция", "FR", 82, 85, 15, 78, Stable),
    Country("Япония", "JP", 88, 90, 10, 85, Up)
  ]

  // ---------------------------------------------------------------------------
  // Looking a country up by code

  /** The predicate `c => c.code === code`. */
  function HasCode(code: string): Country -> bool
  {
    (c: Country) => c.code == code
  }

  predicate CodesUnique(cs: seq<Country>)
  {
    forall i, j :: 0 <= i < j < |cs| ==> cs[i].code != cs[j].code
  }

  /** No two rows of the table share a code. */
  lemma MockCodesUnique()
    ensures CodesUnique(MockCountries)
  {
  }

  /** `mockCountries.find(c => c.code === code)`. */
  function FindCountry(code: string): (r: Option<Country>)
    ensures r.Some? <==> exists i :: 0 <= i < |MockCountries| && MockCountries[i].code == code
    ensures r.Some? ==> r.value in MockCountries && r.value.code == code
  {
    var r := Find(MockCountries, HasCode(code));
    assert forall i :: 0 <= i < |MockCountries| ==> (HasCode(code)(MockCountries[i]) <==> MockCountries[i].code == code);
    r
  }

  /** Because the codes are unique, looking up the code of a row finds exactly that row. */
  lemma FindCountryRow(i: int)
    requires 0 <= i < |MockCountries|
    ensures FindCountry(MockCountries[i].code) == Some(MockCountries[i])
  {
    var code := MockCountries[i].code;
    MockCodesUnique();
    forall j | 0 <= j < |MockCountries| && j != i
      ensures !HasCode(code)(MockCountries[j])
    {
      if j < i {
        assert MockCountries[j].code != MockCountries[i].code;
      } else {
        assert MockCountries[i].code != MockCountries[j].code;
      }
    }
    FindUnique(MockCountries, HasCode(code), i);
  }

  // ---------------------------------------------------------------------------
  // The page's state

  /** The state of the page: the selected country and the chart period. */
  class Dashboard {
    var selectedCountry: Country
    var chartPeriod: string

    /** The selected country is always a row of the table. */
    ghost predicate Valid()
      reads this
    {
      selectedCountry in MockCountries
    }

    /** `useState(mockCountries[0])` and `useState('6m')`. */
    constructor ()
      ensures Valid()
      ensures selectedCountry == MockCountries[0] && selectedCountry.code == "RU"
      ensures chartPeriod == "6m"
    {
      selectedCountry := MockCountries[0];
      chartPeriod := "6m";
    }

    /** The country selector's handler: look the code up and select the row found;
        a code with no row leaves the selection as it was. */
    method SelectCountry(code: string)
      requires Valid()
      modifies this
      ensures Valid()
      ensures FindCountry(code).Some? ==> selectedCountry == FindCountry(code).value && selectedCountry.code == code
      ensures FindCountry(code).None? ==> selectedCountry == old(selectedCountry)
      ensures chartPeriod == old(chartPeriod)
    {
      var country := FindCountry(code);
      if country.Some? {
        selectedCountry := country.value;
      }
    }

    /** The chart period selector's handler. */
    method SetChartPeriod(period: string)
      modifies this
      ensures chartPeriod == period
      ensures selectedCountry == old(selectedCountry)
    {
      chartPeriod := period;
    }

    /** The value shown in the country selector. */
    function SelectedCode(): (code: string)
      reads this
      requires Valid()
      ensures exists i :: 0 <= i < |MockCountries| && MockCountries[i].code == code
    {
      selectedCountry.code
    }
  }

  /** Selecting the code of any row selects that row, whatever was selected before. */
  method SelectRow(d: Dashboard, i: int)
    requires d.Valid() && 0 <= i < |MockCountries|
    modifies d
    ensures d.Valid() && d.selectedCountry == MockCountries[i]
    ensures d.chartPeriod == old(d.chartPeriod)
  {
    FindCountryRow(i);
    d.SelectCountry(MockCountries[i].code);
  }

  // ---------------------------------------------------------------------------
  // Score colours

  /** `getScoreColor` of the page: green from 70, yellow from 40, red below. */
  function ScoreColor(score: int): (c: string)
    ensures c == "text-green-400" <==> Bands.BandOf(score) == Bands.High
    ensures c == "text-yellow-400" <==> Bands.BandOf(score) == Bands.Medium
    ensures c == "text-red-400" <==> Bands.BandOf(score) == Bands.Low
  {
    if score >= 70 then "text-green-400"
    else if score >= 40 then "text-yellow-400"
    else "text-red-400"
  }

  /** `getScoreBg`: the background of a score card, with the same cut points. */
  function ScoreBg(score: int): (c: string)
    ensures c == "bg-green-500/20 border-green-500/50" <==> Bands.BandOf(score) == Bands.High
    ensures c == "bg-yellow-500/20 border-yellow-500/50" <==> Bands.BandOf(score) == Bands.Medium
    ensures c == "bg-red-500/20 border-red-500/50" <==> Bands.BandOf(score) == Bands.Low
  {
    if score >= 70 then "bg-green-500/20 border-green-500/50"
    else if score >= 40 then "bg-yellow-500/20 border-yellow-500/50"
    else "bg-red-500/20 border-red-500/50"
  }

  /** A score card: the number shown, its background and the number's colour. */
  datatype ScoreCard = ScoreCard(value: int, background: string, color: string)

  /** A card whose colours come from `bandScore` while it shows `shown`: both
      are those of the band of `bandScore`. */
  function Card(shown: int, bandScore: int): (card: ScoreCard)
    ensures card.value == shown
    ensures CardConsistent(card)
    ensures card.color == "text-green-400" <==> Bands.BandOf(bandScore) == Bands.High
    ensures card.color == "text-yellow-400" <==> Bands.BandOf(bandScore) == Bands.Medium
    ensures card.color == "text-red-400" <==> Bands.BandOf(bandScore) == Bands.Low
  {
    ScoreCard(shown, ScoreBg(bandScore), ScoreColor(bandScore))
  }

  /** The background and the number of a card are coloured in the same band. */
  predicate CardConsistent(card: ScoreCard)
  {
    (card.background == "bg-green-500/20 border-green-500/50" <==> card.color == "text-green-400") &&
    (card.background == "bg-yellow-500/20 border-yellow-500/50" <==> card.color == "text-yellow-400") &&
    (card.background == "bg-red-500/20 border-red-500/50" <==> card.color == "text-red-400")
  }

  /** The four cards of the selected country: democracy, freedom, authoritarianism
      (shown as is, coloured by 100 minus it) and press freedom. */
  function Cards(c: Country): (cards: seq<ScoreCard>)
    ensures |cards| == 4
    ensures cards[0].value == c.democracyScore && cards[1].value == c.freedomScore
    ensures cards[2].value == c.authoritarianScore && cards[3].value == c.pressFreedomScore
    ensures forall i :: 0 <= i < 4 ==> CardConsistent(cards[i])
    // democracy, freedom and press freedom are coloured by their own score
    ensures forall k :: 0 <= k < 4 && k != 2 ==>
              cards[k].color == ScoreColor(cards[k].value) && cards[k].background == ScoreBg(cards[k].value)
    // authoritarianism is coloured as the complementary score
    ensures cards[2].color == ScoreColor(100 - cards[2].value) && cards[2].background == ScoreBg(100 - cards[2].value)
    ensures cards[2].color == "text-green-400" <==> c.authoritarianScore <= 30
    ensures cards[2].color == "text-yellow-400" <==> 30 < c.authoritarianScore <= 60
    ensures cards[2].color == "text-red-400" <==> 60 < c.authoritarianScore
  {
    [Card(c.democracyScore, c.democracyScore),
     Card(c.freedomScore, c.freedomScore),
     Card(c.authoritarianScore, 100 - c.authoritarianScore),
     Card(c.pressFreedomScore, c.pressFreedomScore)]
  }

  /** A higher authoritarian score never gives its card a better band. */
  lemma AuthoritarianBandAntitone(a1: int, a2: int)
    requires a1 <= a2
    ensures Bands.Rank(Bands.BandOf(100 - a2)) <= Bands.Rank(Bands.BandOf(100 - a1))
  {
    Bands.BandMonotone(100 - a2, 100 - a1);
  }

  // ---------------------------------------------------------------------------
  // Trend badge

  function TrendIcon(t: Trend): (icon: string)
    ensures icon == "TrendingUp" <==> t == Up
    ensures icon == "TrendingDown" <==> t == Down
    ensures icon == "Minus" <==> t == Stable
  {
    match t
    case Up => "TrendingUp"
    case Down => "TrendingDown"
    case Stable => "Minus"
  }

  function TrendColor(t: Trend): (color: string)
    ensures color == "text-green-400" <==> t == Up
    ensures color == "text-red-400" <==> t == Down
    ensures color == "text-yellow-400" <==> t == Stable
  {
    match t
    case Up => "text-green-400"
    case Down => "text-red-400"
    case Stable => "text-yellow-400"
  }

  function TrendLabel(t: Trend): (text: string)
    ensures text == "Улучшение" <==> t == Up
    ensures text == "Ухудшение" <==> t == Down
    ensures text == "Стабильно" <==> t == Stable
  {
    match t
    case Up => "Улучшение"
    case Down => "Ухудшение"
    case Stable => "Стабильно"
  }

  /** Distinct trends are shown with distinct icons and labels. */
  lemma TrendBadgeInjective(t1: Trend, t2: Trend)
    requires TrendIcon(t1) == TrendIcon(t2) || TrendLabel(t1) == TrendLabel(t2)
    ensures t1 == t2
  {
  }

  // ---------------------------------------------------------------------------
  // Comparison panel

  datatype ComparisonRow = ComparisonRow(name: string, democracyScore: int, color: string)

  /** `mockCountries.slice(0, 5).map(...)`: the first five rows, in table order,
      each with its democracy score and that score's colour. */
  function ComparisonRows(): (rows: seq<ComparisonRow>)
    ensures |rows| == 5
    ensures forall i :: 0 <= i < 5 ==>
      rows[i].name == MockCountries[i].name &&
      rows[i].democracyScore == MockCountries[i].democracyScore &&
      rows[i].color == ScoreColor(MockCountries[i].democracyScore)
  {
    var shown := Slice(MockCountries, 0, 5);
    assert shown == MockCountries[..5];
    seq(|shown|, i requires 0 <= i < |shown| =>
      ComparisonRow(shown[i].name, shown[i].democracyScore, ScoreColor(shown[i].democracyScore)))
  }

  // ---------------------------------------------------------------------------
  // News tabs

  datatype NewsItem = NewsItem(id: nat, title: string, source: string, kind: string, sentiment: string, date: string)

  const MockNews: seq<NewsItem> := [
    NewsItem(1, "Новый законопроект о свободе СМИ принят парламентом", "Государственный источник", "gov", "positive", "2025-12-23"),
    NewsItem(2, "Оппозиция заявляет о нарушениях избирательного процесса", "Независимый медиа", "opposition", "negative", "2025-12-22"),
    NewsItem(3, "Экономические реформы показывают положительную динамику", "Государственный источник", "gov", "positive", "2025-12-21"),
    NewsItem(4, "Правозащитники обеспокоены новым законом о протестах", "Международная организация", "opposition", "negative", "2025-12-20")
  ]

  datatype Tab = All | Gov | Opposition

  function IsGov(n: NewsItem): bool { n.kind == "gov" }

  function IsOpposition(n: NewsItem): bool { n.kind == "opposition" }

  /** The items a tab lists: every item on "all", otherwise `filter` by type. */
  function TabItems(news: seq<NewsItem>, tab: Tab): (items: seq<NewsItem>)
    ensures tab == All ==> items == news
    ensures tab != All ==> |items| <= |news|
    ensures tab == Gov ==> forall i :: 0 <= i < |news| ==> (news[i] in items <==> news[i].kind == "gov")
    ensures tab == Gov ==> forall i :: 0 <= i < |items| ==> items[i] in news && items[i].kind == "gov"
    ensures tab == Opposition ==> forall i :: 0 <= i < |news| ==> (news[i] in items <==> news[i].kind == "opposition")
    ensures tab == Opposition ==> forall i :: 0 <= i < |items| ==> items[i] in news && items[i].kind == "opposition"
  {
    match tab
    case All => news
    case Gov => Filter(news, IsGov)
    case Opposition => Filter(news, IsOpposition)
  }

  /** A tab keeps the original order: the tab of a concatenation is the
      concatenation of the tabs. */
  lemma TabItemsAppend(a: seq<NewsItem>, b: seq<NewsItem>, tab: Tab)
    ensures TabItems(a + b, tab) == TabItems(a, tab) + TabItems(b, tab)
  {
    match tab
    case All =>
    case Gov => FilterAppend(a, b, IsGov);
    case Opposition => FilterAppend(a, b, IsOpposition);
  }

  /** Each mock item is of one of the two types: items 1 and 3 are government
      items, items 2 and 4 opposition items. */
  lemma MockNewsKinds()
    ensures MockNews[0].kind == "gov" && MockNews[2].kind == "gov"
    ensures MockNews[1].kind == "opposition" && MockNews[3].kind == "opposition"
  {
  }

  /** When every item is of one of the two types, each is on exactly one of the
      two typed tabs. */
  lemma TabsPartition(news: seq<NewsItem>)
    requires forall i :: 0 <= i < |news| ==> news[i].kind == "gov" || news[i].kind == "opposition"
    ensures multiset(TabItems(news, Gov)) + multiset(TabItems(news, Opposition)) == multiset(TabItems(news, All))
  {
    FilterPartition(news, IsGov, IsOpposition);
  }

  /** With items of the types gov, opposition, gov, opposition, the government tab
      lists the first and third and the opposition tab the second and fourth. */
  lemma AlternatingTabs(a: NewsItem, b: NewsItem, c: NewsItem, d: NewsItem)
    requires a.kind == "gov" && b.kind == "opposition" && c.kind == "gov" && d.kind == "opposition"
    ensures TabItems([a, b, c, d], Gov) == [a, c]
    ensures TabItems([a, b, c, d], Opposition) == [b, d]
  {
    assert [a, b, c, d] == [a, b] + [c, d];
    TabItemsAppend([a, b], [c, d], Gov);
    TabItemsAppend([a, b], [c, d], Opposition);
    PairTabs(a, b);
    PairTabs(c, d);
  }

  /** A government item followed by an opposition item splits between the tabs. */
  lemma PairTabs(g: NewsItem, o: NewsItem)
    requires g.kind == "gov" && o.kind == "opposition"
    ensures TabItems([g, o], Gov) == [g]
    ensures TabItems([g, o], Opposition) == [o]
  {
    assert [g, o] == [g] + [o];
    FilterAppend([g], [o], IsGov);
    FilterAppend([g], [o], IsOpposition);
  }


  /** The government tab lists items 1 and 3, the opposition tab items 2 and 4,
      and together they list every item once. */
  lemma MockNewsTabs()
    ensures TabItems(MockNews, Gov) == [MockNews[0], MockNews[2]]
    ensures TabItems(MockNews, Opposition) == [MockNews[1], MockNews[3]]
    ensures multiset(TabItems(MockNews, Gov)) + multiset(TabItems(MockNews, Opposition)) == multiset(MockNews)
  {
    MockNewsKinds();
    assert MockNews == [MockNews[0], MockNews[1], MockNews[2], MockNews[3]];
    AlternatingTabs(MockNews[0], MockNews[1], MockNews[2], MockNews[3]);
    TabsPartition(MockNews);
  }

  /** The sentiment icon: a green thumb up exactly for "positive", a red thumb down otherwise. */
  function SentimentIcon(sentiment: string): (icon: (string, string))
    ensures icon.0 == "ThumbsUp" <==> sentiment == "positive"
    ensures icon.0 == "ThumbsDown" <==> sentiment != "positive"
    ensures icon.1 == "text-green-400" <==> sentiment == "positive"
    ensures icon.1 == "text-red-400" <==> sentiment != "positive"
  {
    if sentiment == "positive" then ("ThumbsUp", "text-green-400") else ("ThumbsDown", "text-red-400")
  }

  /** The source badge: on "all" it depends on the item's type, on the two typed
      tabs it is fixed. */
  function SourceBadgeVariant(tab: Tab, kind: string): (variant: string)
    ensures tab == All ==> (variant == "default" <==> kind == "gov")
    ensures tab == Gov ==> variant == "default"
    ensures tab == Opposition ==> variant == "secondary"
    ensures variant == "default" || variant == "secondary"
  {
    match tab
    case All => if kind == "gov" then "default" else "secondary"
    case Gov => "default"
    case Opposition => "secondary"
  }

  /** On every tab an item gets the default badge exactly when it is a
      government item, so the three tabs show each source alike. */
  lemma BadgeMarksGovernmentItems(news: seq<NewsItem>, tab: Tab, i: int)
    requires 0 <= i < |TabItems(news, tab)|
    ensures SourceBadgeVariant(tab, TabItems(news, tab)[i].kind) == "default" <==> TabItems(news, tab)[i].kind == "gov"
  {
  }
}
