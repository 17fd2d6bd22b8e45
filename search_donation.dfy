/** src/screens/SearchDonation.tsx: the campaign search list, with its availability
    pre-filter, its text/type/radius filter, the radius tiers and the slider ceiling. */
module SearchDonation {
  import opened Wrappers
  import opened Text
  import opened Seqs
  import opened Campaigns

  /** The three radius tiers of the segment control. */
  datatype FilterType = Regional | Nacional | Mundial

  /** The great-circle distance in km; the haversine formula itself is not modelled. */
  type DistanceKm = (Coord, Coord) -> real

  /** A campaign is still open when its goal exceeds what it has raised (null and 0 read as 0). */
  predicate IsActive(c: Campaign) {
    OrDefault(c.metaDoacoes, 0.0) > OrDefault(c.valorLevantado, 0.0)
  }

  /** The availability pre-filter applied to the fetched list. */
  function ActiveCampaigns(fetched: seq<Campaign>): (r: seq<Campaign>)
    ensures Subsequence(r, fetched)
    ensures forall c :: c in r <==> c in fetched && OrDefault(c.metaDoacoes, 0.0) > OrDefault(c.valorLevantado, 0.0)
  {
    Filter(IsActive, fetched)
  }

  /** Fully funded campaigns never reach the list, and neither do campaigns with a zero or
      missing goal whose raised amount is missing or not negative. */
  lemma FundedCampaignsDropped(fetched: seq<Campaign>, c: Campaign)
    requires OrDefault(c.valorLevantado, 0.0) >= OrDefault(c.metaDoacoes, 0.0)
    ensures c !in ActiveCampaigns(fetched)
  {
  }

  /** The card shown for a campaign; `types` is derived from the flags. */
  datatype Card = Card(
    id: string,
    title: string,
    subtitle: Option<string>,
    raised: Option<real>,
    goal: Option<real>,
    imageUri: string,
    types: seq<string>,
    apiData: Campaign)

  /** The `map` step of `filteredCampaigns`. */
  function ToCard(c: Campaign): Card {
    Card(c.id, c.titulo, c.subtitulo, c.valorLevantado, c.metaDoacoes, c.imagemBase64,
         TagsOf(FlagsOfCampaign(c), SearchVocabulary), c)
  }

  function Cards(cs: seq<Campaign>): (r: seq<Card>)
    ensures |r| == |cs| && forall i :: 0 <= i < |cs| ==> r[i] == ToCard(cs[i])
  {
    seq(|cs|, i requires 0 <= i < |cs| => ToCard(cs[i]))
  }

  /** A card's tags are exactly its true flags, labelled 'Dinheiro', 'Alimentação', 'Utensílio', in that order. */
  lemma CardTypesFollowFlags(c: Campaign)
    ensures forall t :: t in ToCard(c).types <==>
      (c.fgDinheiro && t == "Dinheiro") || (c.fgAlimentacao && t == "Alimentação") || (c.fgVestuario && t == "Utensílio")
    ensures Subsequence(ToCard(c).types, ["Dinheiro", "Alimentação", "Utensílio"])
  {
    TagsOfSpec(FlagsOfCampaign(c), SearchVocabulary);
  }

  /** The search-box match: lower-cased title or subtitle (a missing subtitle reads as '') includes the lower-cased query. */
  predicate MatchesSearch(card: Card, search: string) {
    Includes(Lower(card.title), Lower(search)) || Includes(Lower(card.subtitle.GetOr("")), Lower(search))
  }

  /** An empty query matches every card. */
  lemma EmptySearchMatchesAll(card: Card)
    ensures MatchesSearch(card, "")
  {
    IncludesEmpty(Lower(card.title));
  }

  /** The type match: no selection, or some selected tag among the card's tags. */
  predicate MatchesType(card: Card, selectedTypes: seq<string>) {
    |selectedTypes| == 0 || exists t :: t in selectedTypes && t in card.types
  }

  /** `getDistanceKm(...)` or `Infinity`. */
  datatype Distance = Km(km: real) | Infinity

  /** The distance of a campaign as the filter computes it. With a known user location and
      no campaign location, `localizacao!.latitude` throws a TypeError. */
  function CampaignDistance(user: Option<Coord>, c: Campaign, dist: DistanceKm): (r: Result<Distance, string>)
    ensures r.Failure? <==> user.Some? && c.localizacao.None?
    ensures r == Success(Infinity) <==> user.None? || (c.localizacao.Some? && c.localizacao.value.latitude == 0.0)
    ensures r.Success? && r.value.Km? ==> r.value.km == dist(user.value, c.localizacao.value)
  {
    if user.Some? && (c.localizacao.None? || c.localizacao.value.latitude != 0.0) then
      if c.localizacao.None? then Failure(MissingLocationError)
      else Success(Km(dist(user.value, c.localizacao.value)))
    else Success(Infinity)
  }

  /** `distance <= distanceFilter`: Infinity is within no finite radius. */
  predicate WithinDistance(d: Distance, limit: real) {
    d.Km? && d.km <= limit
  }

  /** The inputs of `filteredCampaigns` besides the list. */
  datatype Filters = Filters(search: string, distanceFilter: real, selectedTypes: seq<string>, userLocation: Option<Coord>)

  /** The `filter` predicate: text AND distance AND type. */
  predicate Passes(card: Card, f: Filters, dist: DistanceKm) {
    match CampaignDistance(f.userLocation, card.apiData, dist)
    case Failure(_) => false
    case Success(d) => MatchesSearch(card, f.search) && WithinDistance(d, f.distanceFilter) && MatchesType(card, f.selectedTypes)
  }

  /** The `filter` step: throws when some card's distance throws, else keeps the passing cards in order. */
  function FilterCards(cards: seq<Card>, f: Filters, dist: DistanceKm): (r: Result<seq<Card>, string>)
    ensures r.Failure? <==> f.userLocation.Some? && exists i :: 0 <= i < |cards| && cards[i].apiData.localizacao.None?
    ensures r.Success? ==> Subsequence(r.value, cards)
    ensures r.Success? ==> forall x :: x in r.value <==> x in cards && Passes(x, f, dist)
    decreases |cards|
  {
    if |cards| == 0 then Success([])
    else
      assert forall i :: 1 <= i < |cards| ==> cards[i] == cards[1..][i - 1];
      assert cards == [cards[0]] + cards[1..];
      match CampaignDistance(f.userLocation, cards[0].apiData, dist)
      case Failure(e) => Failure(e)
      case Success(_) =>
        match FilterCards(cards[1..], f, dist)
        case Failure(e) => Failure(e)
        case Success(rest) =>
          if Passes(cards[0], f, dist) then
            assert ([cards[0]] + rest)[1..] == rest;
            Success([cards[0]] + rest)
          else Success(rest)
  }

  /** `filteredCampaigns` over the availability-filtered list. */
  function FilteredCampaigns(allCampaigns: seq<Campaign>, f: Filters, dist: DistanceKm): (r: Result<seq<Card>, string>)
    ensures r.Failure? <==> f.userLocation.Some? && exists c :: c in allCampaigns && c.localizacao.None?
    ensures r.Success? ==> Subsequence(r.value, Cards(allCampaigns))
    ensures r.Success? ==> forall x :: x in r.value <==> x in Cards(allCampaigns) && Passes(x, f, dist)
  {
    var cards := Cards(allCampaigns);
    assert forall i :: 0 <= i < |cards| ==> cards[i].apiData == allCampaigns[i];
    FilterCards(cards, f, dist)
  }

  /** Without a user location every distance is Infinity, so the list is empty. */
  lemma {:induction false} NoLocationShowsNothing(allCampaigns: seq<Campaign>, f: Filters, dist: DistanceKm)
    requires f.userLocation.None?
    ensures FilteredCampaigns(allCampaigns, f, dist) == Success([])
  {
    NoLocationKeepsNoCard(Cards(allCampaigns), f, dist);
  }

  lemma {:induction false} NoLocationKeepsNoCard(cards: seq<Card>, f: Filters, dist: DistanceKm)
    requires f.userLocation.None?
    ensures FilterCards(cards, f, dist) == Success([])
    decreases |cards|
  {
    if |cards| > 0 {
      NoLocationKeepsNoCard(cards[1..], f, dist);
    }
  }

  /** A campaign at latitude 0 is never shown. */
  lemma ZeroLatitudeNeverShown(allCampaigns: seq<Campaign>, f: Filters, dist: DistanceKm, c: Campaign)
    requires c.localizacao.Some? && c.localizacao.value.latitude == 0.0
    requires FilteredCampaigns(allCampaigns, f, dist).Success?
    ensures ToCard(c) !in FilteredCampaigns(allCampaigns, f, dist).value
  {
  }

  /** With an empty query and no type selected, a located campaign is shown exactly when it
      lies within the radius. */
  lemma OnlyRadiusWhenUnfiltered(allCampaigns: seq<Campaign>, f: Filters, dist: DistanceKm, c: Campaign)
    requires f.search == "" && f.selectedTypes == [] && f.userLocation.Some?
    requires c in allCampaigns && c.localizacao.Some? && c.localizacao.value.latitude != 0.0
    requires FilteredCampaigns(allCampaigns, f, dist).Success?
    ensures ToCard(c) in FilteredCampaigns(allCampaigns, f, dist).value <==>
      dist(f.userLocation.value, c.localizacao.value) <= f.distanceFilter
  {
    EmptySearchMatchesAll(ToCard(c));
    var i :| 0 <= i < |allCampaigns| && allCampaigns[i] == c;
    assert Cards(allCampaigns)[i] == ToCard(c);
  }

  /** `Math.ceil` */
  function Ceil(x: real): (n: int)
    ensures n as real >= x && (n - 1) as real < x
  {
    -((-x).Floor)
  }

  /** The distances the slider effect takes its maximum over: campaigns with a location whose latitude is not 0. */
  function QualifyingDistances(cs: seq<Campaign>, user: Coord, dist: DistanceKm): (ds: seq<real>)
    ensures forall c :: c in cs && c.localizacao.Some? && c.localizacao.value.latitude != 0.0 ==> dist(user, c.localizacao.value) in ds
    ensures forall d :: d in ds ==> exists c :: c in cs && c.localizacao.Some? && c.localizacao.value.latitude != 0.0 && d == dist(user, c.localizacao.value)
    ensures |ds| == 0 <==> forall c :: c in cs ==> c.localizacao.None? || c.localizacao.value.latitude == 0.0
    decreases |cs|
  {
    if |cs| == 0 then []
    else
      var rest := QualifyingDistances(cs[1..], user, dist);
      assert forall c :: c in cs ==> c == cs[0] || c in cs[1..];
      var c := cs[0];
      if c.localizacao.Some? && c.localizacao.value.latitude != 0.0 then [dist(user, c.localizacao.value)] + rest
      else rest
  }

  /** The slider ceiling: the furthest distance rounded up to a multiple of 100, but at least 50. */
  function SliderCeiling(ds: seq<real>): (m: real)
    requires |ds| > 0
    ensures m >= 50.0
    ensures forall i :: 0 <= i < |ds| ==> ds[i] <= m
    ensures m > 50.0 ==> m - 100.0 < MaxOf(ds) && m == m.Floor as real && m.Floor % 100 == 0
    ensures m == 50.0 <==> MaxOf(ds) <= 0.0
  {
    var newMax := (Ceil(MaxOf(ds) / 100.0) * 100) as real;
    if newMax > 50.0 then newMax else 50.0
  }

  /** With the radius at the slider ceiling, an empty query and no type selected, every located
      campaign whose latitude is not 0 is shown: MUNDIAL reaches all of them. */
  lemma CeilingReachesEveryLocatedCampaign(allCampaigns: seq<Campaign>, search: string, user: Coord, dist: DistanceKm, c: Campaign)
    requires forall x :: x in allCampaigns ==> x.localizacao.Some?
    requires c in allCampaigns && c.localizacao.value.latitude != 0.0
    ensures |QualifyingDistances(allCampaigns, user, dist)| > 0
    ensures var f := Filters("", SliderCeiling(QualifyingDistances(allCampaigns, user, dist)), [], Some(user));
      FilteredCampaigns(allCampaigns, f, dist).Success? && ToCard(c) in FilteredCampaigns(allCampaigns, f, dist).value
  {
    var ds := QualifyingDistances(allCampaigns, user, dist);
    assert dist(user, c.localizacao.value) in ds;
    var f := Filters("", SliderCeiling(ds), [], Some(user));
    OnlyRadiusWhenUnfiltered(allCampaigns, f, dist, c);
  }

  /** The filter state of the screen: tier, radius, slider maximum and selected types. */
  class SearchFilters {
    var activeFilter: FilterType
    var distanceFilter: real
    var sliderMaximumValue: real
    var selectedTypes: seq<string>

    constructor ()
      ensures activeFilter == Mundial && distanceFilter == 5000.0 && sliderMaximumValue == 5000.0
      ensures selectedTypes == []
    {
      activeFilter := Mundial;
      distanceFilter := 5000.0;
      sliderMaximumValue := 5000.0;
      selectedTypes := [];
    }

    /** The current filter inputs. */
    function Current(search: string, userLocation: Option<Coord>): Filters
      reads this
    {
      Filters(search, distanceFilter, selectedTypes, userLocation)
    }

    /** `handleFilterChange`: REGIONAL is 50 km, NACIONAL 2000 km, MUNDIAL the slider maximum. */
    method HandleFilterChange(value: FilterType)
      modifies this`activeFilter, this`distanceFilter
      ensures activeFilter == value
      ensures value == Regional ==> distanceFilter == 50.0
      ensures value == Nacional ==> distanceFilter == 2000.0
      ensures value == Mundial ==> distanceFilter == sliderMaximumValue
    {
      activeFilter := value;
      if value == Regional {
        distanceFilter := 50.0;
      } else if value == Nacional {
        distanceFilter := 2000.0;
      } else if value == Mundial {
        distanceFilter := sliderMaximumValue;
      }
    }

    /** The slider's `onValueChange`. */
    method SetDistanceFilter(value: real)
      modifies this`distanceFilter
      ensures distanceFilter == value
    {
      distanceFilter := value;
    }

    /** A type button of the modal: removes the type if selected, else appends it. */
    method ToggleType(t: string)
      modifies this`selectedTypes
      ensures selectedTypes == Toggle(old(selectedTypes), t)
      ensures t in selectedTypes <==> t !in old(selectedTypes)
      ensures forall u :: u != t ==> (u in selectedTypes <==> u in old(selectedTypes))
    {
      selectedTypes := Toggle(selectedTypes, t);
    }

    /** The slider effect: with campaigns and a user location, and at least one located
        campaign off latitude 0, both the slider maximum and the radius move to the ceiling;
        otherwise nothing changes. */
    method AdjustSliderMaximum(allCampaigns: seq<Campaign>, userLocation: Option<Coord>, dist: DistanceKm)
      modifies this`sliderMaximumValue, this`distanceFilter
      ensures var applies := |allCampaigns| > 0 && userLocation.Some? && |QualifyingDistances(allCampaigns, userLocation.value, dist)| > 0;
        if applies then
          && sliderMaximumValue == SliderCeiling(QualifyingDistances(allCampaigns, userLocation.value, dist))
          && distanceFilter == sliderMaximumValue
          && (forall c :: c in allCampaigns && c.localizacao.Some? && c.localizacao.value.latitude != 0.0 ==>
                dist(userLocation.value, c.localizacao.value) <= sliderMaximumValue)
        else sliderMaximumValue == old(sliderMaximumValue) && distanceFilter == old(distanceFilter)
    {
      if |allCampaigns| > 0 && userLocation.Some? {
        var distances := QualifyingDistances(allCampaigns, userLocation.value, dist);
        if |distances| > 0 {
          var finalMax := SliderCeiling(distances);
          sliderMaximumValue := finalMax;
          distanceFilter := finalMax;
        }
      }
    }
  }
}
