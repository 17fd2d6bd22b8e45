/** src/screens/Map.tsx: campaign pins with a distance list sorted nearest first, and the route toggle. */
module MapScreen {
  import opened Wrappers
  import opened Alerts
  import opened Seqs
  import opened Campaigns

  /** `CampanhaNoMapa`; `distance` is the label once distances are known. */
  datatype MapCampaign = MapCampaign(id: string, titulo: string, localizacao: Coord, distance: Option<string>)

  /** The great-circle distance in km; the formula itself is not modelled. */
  type DistanceKm = (Coord, Coord) -> real

  predicate HasLocation(c: Campaign) {
    c.localizacao.Some?
  }

  /** Step 2: only campaigns with a location; latitude 0 is kept here. */
  function WithLocation(cs: seq<Campaign>): (r: seq<Campaign>)
    ensures Subsequence(r, cs)
    ensures forall c :: c in r <==> c in cs && c.localizacao.Some?
  {
    Filter(HasLocation, cs)
  }

  /** Step 3 for one campaign. */
  function Format(c: Campaign): MapCampaign
    requires c.localizacao.Some?
  {
    MapCampaign(c.id, c.titulo, Coord(c.localizacao.value.latitude, c.localizacao.value.longitude), None)
  }

  /** Steps 2 and 3: the located campaigns, in order, as map entries. */
  function Formatted(cs: seq<Campaign>): (r: seq<MapCampaign>)
    ensures |r| == |WithLocation(cs)|
    ensures forall i :: 0 <= i < |r| ==> WithLocation(cs)[i].localizacao.Some? && r[i] == Format(WithLocation(cs)[i])
  {
    var located := WithLocation(cs);
    assert forall i :: 0 <= i < |located| ==> located[i] in located;
    seq(|located|, i requires 0 <= i < |located| => Format(located[i]))
  }

  /** Every located campaign gets a pin with its id, title and coordinates, even at latitude 0. */
  lemma EveryLocatedCampaignPinned(cs: seq<Campaign>, c: Campaign)
    requires c in cs && c.localizacao.Some?
    ensures MapCampaign(c.id, c.titulo, c.localizacao.value, None) in Formatted(cs)
  {
    var located := WithLocation(cs);
    var i :| 0 <= i < |located| && located[i] == c;
    assert Formatted(cs)[i] == Format(c);
  }

  /** `toFixed(2)` and `parseFloat`, both foreign. */
  type ToFixed2 = real -> string
  type ParseFloat = string -> real

  /** The label `${distKm.toFixed(2)} km`. */
  function Label(km: real, toFixed2: ToFixed2): string {
    toFixed2(km) + " km"
  }

  function Annotate(c: MapCampaign, user: Coord, dist: DistanceKm, toFixed2: ToFixed2): MapCampaign {
    c.(distance := Some(Label(dist(user, c.localizacao), toFixed2)))
  }

  /** The sort key: `parseFloat` of the label. */
  function LabelKey(parseFloat: ParseFloat): MapCampaign -> real {
    (c: MapCampaign) => parseFloat(c.distance.GetOr(""))
  }

  /** The annotated list before sorting. */
  function AnnotateAll(cs: seq<MapCampaign>, user: Coord, dist: DistanceKm, toFixed2: ToFixed2): (r: seq<MapCampaign>)
    ensures |r| == |cs|
    ensures forall i :: 0 <= i < |cs| ==> r[i] == Annotate(cs[i], user, dist, toFixed2)
  {
    seq(|cs|, i requires 0 <= i < |cs| => Annotate(cs[i], user, dist, toFixed2))
  }

  /** The distance list: every entry annotated, then sorted ascending by the parsed label. */
  function WithDistances(cs: seq<MapCampaign>, user: Coord, dist: DistanceKm, toFixed2: ToFixed2, parseFloat: ParseFloat): seq<MapCampaign> {
    SortBy(AnnotateAll(cs, user, dist, toFixed2), LabelKey(parseFloat))
  }

  /** The list is a permutation of the annotated entries, sorted ascending by parsed distance,
      each entry carrying the two-decimal label of its own distance; entries with the same
      parsed label stay in the order the campaigns were fetched. */
  lemma WithDistancesSpec(cs: seq<MapCampaign>, user: Coord, dist: DistanceKm, toFixed2: ToFixed2, parseFloat: ParseFloat)
    ensures var r := WithDistances(cs, user, dist, toFixed2, parseFloat);
      && multiset(r) == multiset(AnnotateAll(cs, user, dist, toFixed2))
      && |r| == |cs|
      && (forall i, j :: 0 <= i < j < |r| ==>
            parseFloat(r[i].distance.GetOr("")) <= parseFloat(r[j].distance.GetOr("")))
      && (forall x :: x in r ==>
            x.distance == Some(Label(dist(user, x.localizacao), toFixed2)))
      && (forall k :: WithKey(r, LabelKey(parseFloat), k) == WithKey(AnnotateAll(cs, user, dist, toFixed2), LabelKey(parseFloat), k))
  {
    var annotated := AnnotateAll(cs, user, dist, toFixed2);
    var r := WithDistances(cs, user, dist, toFixed2, parseFloat);
    forall x | x in r
      ensures x.distance == Some(Label(dist(user, x.localizacao), toFixed2))
    {
      assert x in multiset(r);
      assert x in annotated;
    }
  }

  /** Each entry of the list comes from a pin of the input: the same pin with its label added. */
  lemma WithDistancesComeFromPins(cs: seq<MapCampaign>, user: Coord, dist: DistanceKm, toFixed2: ToFixed2, parseFloat: ParseFloat, x: MapCampaign)
    requires x in WithDistances(cs, user, dist, toFixed2, parseFloat)
    ensures exists c :: c in cs && x == Annotate(c, user, dist, toFixed2)
  {
    var annotated := AnnotateAll(cs, user, dist, toFixed2);
    assert x in multiset(WithDistances(cs, user, dist, toFixed2, parseFloat));
    assert x in annotated;
    var i :| 0 <= i < |annotated| && annotated[i] == x;
    assert cs[i] in cs;
  }

  /** A route as the routing service returns it: `[longitude, latitude]` pairs. */
  type GeoJsonLine = seq<(real, real)>

  /** The routing reply: the routes found, or a failed request. */
  datatype OsrmReply = Routes(routes: seq<GeoJsonLine>) | RequestFailed

  /** The `[lng, lat] -> {latitude, longitude}` swap. */
  function RouteCoords(line: GeoJsonLine): (r: seq<Coord>)
    ensures |r| == |line|
    ensures forall i :: 0 <= i < |line| ==> r[i].latitude == line[i].1 && r[i].longitude == line[i].0
  {
    seq(|line|, i requires 0 <= i < |line| => Coord(line[i].1, line[i].0))
  }

  /** The swap back, for the round trip. */
  function ToGeoJson(coords: seq<Coord>): GeoJsonLine {
    seq(|coords|, i requires 0 <= i < |coords| => (coords[i].longitude, coords[i].latitude))
  }

  /** No coordinate is lost or reordered by the swap. */
  lemma RouteCoordsRoundTrip(line: GeoJsonLine)
    ensures ToGeoJson(RouteCoords(line)) == line
  {
  }

  /** The map screen's state. */
  class MapState {
    var location: Option<Coord>
    var apiCampaigns: seq<MapCampaign>
    var campaignsWithDistance: seq<MapCampaign>
    var routeCoords: seq<Coord>
    var activeRouteDonationId: Option<string>

    constructor ()
      ensures location.None? && apiCampaigns == [] && campaignsWithDistance == [] && routeCoords == []
      ensures activeRouteDonationId.None?
    {
      location := None;
      apiCampaigns := [];
      campaignsWithDistance := [];
      routeCoords := [];
      activeRouteDonationId := None;
    }

    /** `fetchCampaigns`, which runs only outside selection mode. */
    method LoadCampaigns(isSelectionMode: bool, response: Result<seq<Campaign>, string>) returns (alert: Option<Alert>)
      modifies this`apiCampaigns
      ensures !isSelectionMode && response.Success? ==> apiCampaigns == Formatted(response.value) && alert.None?
      ensures !isSelectionMode && response.Failure? ==>
        apiCampaigns == old(apiCampaigns) && alert == Some(Alert("Erro", "Não foi possível carregar as campanhas no mapa."))
      ensures isSelectionMode ==> apiCampaigns == old(apiCampaigns) && alert.None?
    {
      alert := None;
      if !isSelectionMode {
        match response {
          case Success(data) =>
            apiCampaigns := Formatted(data);
          case Failure(_) =>
            alert := Some(Alert("Erro", "Não foi possível carregar as campanhas no mapa."));
        }
      }
    }

    /** The distance effect: recomputed only with a known location and a non-empty list. */
    method RefreshDistances(dist: DistanceKm, toFixed2: ToFixed2, parseFloat: ParseFloat)
      modifies this`campaignsWithDistance
      ensures location.Some? && |apiCampaigns| > 0 ==>
        campaignsWithDistance == WithDistances(apiCampaigns, location.value, dist, toFixed2, parseFloat)
      ensures !(location.Some? && |apiCampaigns| > 0) ==> campaignsWithDistance == old(campaignsWithDistance)
    {
      if location.Some? && |apiCampaigns| > 0 {
        campaignsWithDistance := WithDistances(apiCampaigns, location.value, dist, toFixed2, parseFloat);
      }
    }

    /** `handleDrawRoute`: without a location nothing happens; tapping the campaign whose route
        is shown clears it; otherwise the first route found is shown for this campaign. */
    method HandleDrawRoute(c: MapCampaign, reply: OsrmReply) returns (alert: Option<Alert>)
      modifies this`routeCoords, this`activeRouteDonationId
      ensures location.None? ==>
        alert.None? && routeCoords == old(routeCoords) && activeRouteDonationId == old(activeRouteDonationId)
      ensures location.Some? && old(activeRouteDonationId) == Some(c.id) ==>
        alert.None? && routeCoords == [] && activeRouteDonationId.None?
      ensures location.Some? && old(activeRouteDonationId) != Some(c.id) ==>
        if reply.Routes? && |reply.routes| > 0 then
          alert.None? && routeCoords == RouteCoords(reply.routes[0]) && activeRouteDonationId == Some(c.id)
        else
          alert.Some? && alert.value.title == "Erro de Rota" &&
          routeCoords == old(routeCoords) && activeRouteDonationId == old(activeRouteDonationId)
    {
      alert := None;
      if location.None? {
        return;
      }
      if activeRouteDonationId == Some(c.id) {
        routeCoords := [];
        activeRouteDonationId := None;
        return;
      }
      match reply {
        case RequestFailed =>
          alert := Some(Alert("Erro de Rota", "Não foi possível conectar ao serviço de rotas."));
        case Routes(routes) =>
          if |routes| > 0 {
            routeCoords := RouteCoords(routes[0]);
            activeRouteDonationId := Some(c.id);
          } else {
            alert := Some(Alert("Erro de Rota", "Não foi possível calcular a rota para este destino."));
          }
      }
    }
  }
}
