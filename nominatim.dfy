/**
 The Nominatim search connector: merging the plugin configuration over its
 defaults, assembling the request parameters of a search, mapping the
 provider's response to result items, and serialising the configuration back.

 The extent is the type parameter `E`, standing for the extent's options
 object: constructing an `Extent` from it and calling `toJSON` on that extent
 are both taken as the identity. Its WGS84 coordinates, already rendered as
 the strings `Array.prototype.join` would write, are a function parameter.
 */
module NominatimSearch {
  import opened Js

  const DEFAULT_URL: string := "https://nominatim.openstreetmap.org/search"
  const DEFAULT_COUNTRYCODE: string := "de"
  const DEFAULT_LIMIT: int := 20
  const DEFAULT_ICON: string := "mdi-circle-double"

  /**
   NominatimSearchOptions: the configuration the host passes to the
   constructor, and the object `toJSON` hands back. A property that the
   object does not have reads as `Undefined`.
   */
  datatype Options<E> = Options(
    url: Nullish<string>,
    city: Nullish<string>,
    state: Nullish<string>,
    countrycode: Nullish<string>,
    extent: Nullish<E>,
    limit: Nullish<int>,
    icon: Nullish<string>)

  /** `{}`: an options object with no property set. */
  function NoOptions<E>(): Options<E> {
    Options(Undefined, Undefined, Undefined, Undefined, Undefined, Undefined, Undefined)
  }

  /** `Nominatim.getDefaultOptions()` */
  function DefaultOptions<E>(): (d: Options<E>)
    ensures d.url == Value("https://nominatim.openstreetmap.org/search")
    ensures d.countrycode == Value("de") && d.limit == Value(20) && d.icon == Value("mdi-circle-double")
    ensures d.city.Undefined? && d.state.Undefined? && d.extent.Undefined?
  {
    Options(
      url := Value(DEFAULT_URL),
      city := Undefined,
      state := Undefined,
      countrycode := Value(DEFAULT_COUNTRYCODE),
      extent := Undefined,
      limit := Value(DEFAULT_LIMIT),
      icon := Value(DEFAULT_ICON))
  }

  /** The fields of a constructed connector. */
  datatype Settings<E> = Settings(
    url: string,
    city: Nullish<string>,
    state: Nullish<string>,
    countrycode: string,
    extent: Nullish<E>,
    limit: int,
    icon: string)
  {
    /** The constructor stores `null`, never `undefined`, in city, state and extent. */
    predicate WellFormed() {
      !city.Undefined? && !state.Undefined? && !extent.Undefined?
    }
  }

  /** The fields the constructor derives from `options`. */
  function Merged<E>(options: Options<E>): (s: Settings<E>)
    ensures s.WellFormed()
  {
    Settings(
      url := options.url.OrElse(DEFAULT_URL),
      city := options.city.OrNull(),
      state := options.state.OrNull(),
      countrycode := options.countrycode.OrElse(DEFAULT_COUNTRYCODE),
      // an options object is truthy; undefined and null are not
      extent := if options.extent.Value? then options.extent else Null,
      limit := options.limit.OrElse(DEFAULT_LIMIT),
      icon := options.icon.OrElse(DEFAULT_ICON))
  }

  /**
   Each field takes the supplied value unless that is `undefined` or `null`,
   so an empty string or a zero is kept; otherwise url, countrycode, limit and
   icon take their default and city and state take `null`. The extent is
   `null` exactly when none was supplied.
   */
  lemma MergedTakesSuppliedValues<E>(options: Options<E>)
    ensures var s := Merged(options);
      && (options.url.Value? ==> s.url == options.url.value)
      && (options.url.Value? || s.url == DEFAULT_URL)
      && (options.countrycode.Value? ==> s.countrycode == options.countrycode.value)
      && (options.countrycode.Value? || s.countrycode == DEFAULT_COUNTRYCODE)
      && (options.limit.Value? ==> s.limit == options.limit.value)
      && (options.limit.Value? || s.limit == DEFAULT_LIMIT)
      && (options.icon.Value? ==> s.icon == options.icon.value)
      && (options.icon.Value? || s.icon == DEFAULT_ICON)
      && (options.city.Value? ==> s.city == options.city)
      && (options.city.Value? || s.city == Null)
      && (options.state.Value? ==> s.state == options.state)
      && (options.state.Value? || s.state == Null)
      && (s.extent.Null? <==> !options.extent.Value?)
      && (options.extent.Value? ==> s.extent == options.extent)
  {
  }

  /** Supplied empty strings and a zero limit survive the merge: `??` is not `||`. */
  lemma MergedKeepsEmptyAndZero<E>(options: Options<E>)
    requires options.url == Value("") && options.countrycode == Value("")
    requires options.limit == Value(0) && options.icon == Value("")
    requires options.city == Value("") && options.state == Value("")
    ensures Merged(options).url == "" && Merged(options).countrycode == ""
    ensures Merged(options).limit == 0 && Merged(options).icon == ""
    ensures Merged(options).city == Value("") && Merged(options).state == Value("")
  {
  }

  /** `,<value>` when the value is truthy, and nothing otherwise. */
  function Refinement(x: Nullish<string>): string {
    if TruthyString(x) then "," + x.value else ""
  }

  /** The `q` parameter: the query text, then the city, then the state, each only when non-empty. */
  function QueryText(q: string, city: Nullish<string>, state: Nullish<string>): string {
    q + Refinement(city) + Refinement(state)
  }

  /** The non-empty values among city and state, in that order. */
  function Refinements(city: Nullish<string>, state: Nullish<string>): seq<string> {
    (if TruthyString(city) then [city.value] else [])
    + (if TruthyString(state) then [state.value] else [])
  }

  /**
   The query text is the comma-joined list of the text, the city and the
   state, where a missing or empty city or state is skipped rather than left
   as an empty piece.
   */
  lemma QueryTextIsJoin(q: string, city: Nullish<string>, state: Nullish<string>)
    ensures QueryText(q, city, state) == Join([q] + Refinements(city, state), ",")
  {
    var rs := Refinements(city, state);
    if |rs| > 0 {
      assert ([q] + rs)[1..] == rs;
      assert Join([q] + rs, ",") == q + "," + Join(rs, ",");
    }
    if |rs| == 2 {
      assert rs[1..] == [state.value];
      assert Join(rs, ",") == city.value + "," + state.value;
    }
  }

  /**
   When neither the text nor the city nor the state contains a comma, the
   pieces can be read back from the query text.
   */
  lemma QueryTextSplits(q: string, city: Nullish<string>, state: Nullish<string>)
    requires ',' !in q
    requires city.Value? ==> ',' !in city.value
    requires state.Value? ==> ',' !in state.value
    ensures Split(QueryText(q, city, state), ',') == [q] + Refinements(city, state)
  {
    QueryTextIsJoin(q, city, state);
    SplitJoin([q] + Refinements(city, state), ',');
  }

  lemma QueryTextExamples()
    ensures QueryText("Berlin", Value("Mitte"), Null) == "Berlin,Mitte"
    ensures QueryText("Berlin", Null, Value("Brandenburg")) == "Berlin,Brandenburg"
    ensures QueryText("Berlin", Value("Mitte"), Value("Brandenburg")) == "Berlin,Mitte,Brandenburg"
    ensures QueryText("Berlin", Value(""), Null) == "Berlin"
  {
  }

  /** The properties every search request carries, before the optional bounding box. */
  const FIXED_KEYS: seq<string> := ["q", "countrycodes", "format", "polygon_geojson", "addressdetails", "limit"]

  /** The request parameters of a search for `q`, in insertion order. */
  function SearchParams<E>(s: Settings<E>, q: string, coordinates: E -> seq<string>): Params {
    FixedParams(s, q) + BoxParams(s, coordinates)
  }

  /** The parameters every search sends. */
  function FixedParams<E>(s: Settings<E>, q: string): Params {
    [ ("q", QueryText(q, s.city, s.state)),
      ("countrycodes", s.countrycode),
      ("format", "json"),
      ("polygon_geojson", "1"),
      ("addressdetails", "1"),
      ("limit", DecimalString(s.limit)) ]
  }

  /** The bounding-box parameters, sent only when an extent is set. */
  function BoxParams<E>(s: Settings<E>, coordinates: E -> seq<string>): Params {
    if s.extent.Value? then [("viewbox", Join(coordinates(s.extent.value), ",")), ("bounded", "1")] else []
  }

  /**
   The six fixed parameters come first and in their fixed order; `viewbox`
   and `bounded` follow exactly when an extent is set.
   */
  lemma SearchParamsKeys<E>(s: Settings<E>, q: string, coordinates: E -> seq<string>)
    ensures Keys(SearchParams(s, q, coordinates))
      == FIXED_KEYS + if s.extent.Value? then ["viewbox", "bounded"] else []
    ensures "viewbox" in Keys(SearchParams(s, q, coordinates)) <==> s.extent.Value?
    ensures "bounded" in Keys(SearchParams(s, q, coordinates)) <==> s.extent.Value?
  {
  }

  /** What each of the six fixed parameters carries; `limit` reads back as the configured limit. */
  lemma SearchParamsValues<E>(s: Settings<E>, q: string, coordinates: E -> seq<string>)
    ensures var p := SearchParams(s, q, coordinates);
      && Lookup(p, "q") == Some(QueryText(q, s.city, s.state))
      && Lookup(p, "countrycodes") == Some(s.countrycode)
      && Lookup(p, "format") == Some("json")
      && Lookup(p, "polygon_geojson") == Some("1")
      && Lookup(p, "addressdetails") == Some("1")
      && Lookup(p, "limit").Some?
      && ParseInt(Lookup(p, "limit").value) == Some(s.limit)
  {
    var p := SearchParams(s, q, coordinates);
    assert Lookup(p, "q") == Some(QueryText(q, s.city, s.state)) by { LookupFirst(p, "q", 0); }
    assert Lookup(p, "countrycodes") == Some(s.countrycode) by { LookupFirst(p, "countrycodes", 1); }
    assert Lookup(p, "format") == Some("json") by { LookupFirst(p, "format", 2); }
    assert Lookup(p, "polygon_geojson") == Some("1") by { LookupFirst(p, "polygon_geojson", 3); }
    assert Lookup(p, "addressdetails") == Some("1") by { LookupFirst(p, "addressdetails", 4); }
    assert Lookup(p, "limit") == Some(DecimalString(s.limit)) by { LookupFirst(p, "limit", 5); }
    ParseDecimalString(s.limit);
  }

  /** With an extent, `viewbox` is its coordinate list joined with commas and `bounded` is 1. */
  lemma SearchParamsBox<E>(s: Settings<E>, q: string, coordinates: E -> seq<string>)
    requires s.extent.Value?
    ensures Lookup(SearchParams(s, q, coordinates), "viewbox") == Some(Join(coordinates(s.extent.value), ","))
    ensures Lookup(SearchParams(s, q, coordinates), "bounded") == Some("1")
  {
    var p := SearchParams(s, q, coordinates);
    LookupFirst(p, "viewbox", 6);
    LookupFirst(p, "bounded", 7);
  }

  /**
   The bounding box can be read back from `viewbox`: it is the extent's
   coordinate list, in the order the extent yields it.
   */
  lemma ViewboxSplits<E>(s: Settings<E>, q: string, coordinates: E -> seq<string>)
    requires s.extent.Value? && |coordinates(s.extent.value)| > 0
    requires forall i :: 0 <= i < |coordinates(s.extent.value)| ==> ',' !in coordinates(s.extent.value)[i]
    ensures Lookup(SearchParams(s, q, coordinates), "viewbox").Some?
    ensures Split(Lookup(SearchParams(s, q, coordinates), "viewbox").value, ',') == coordinates(s.extent.value)
  {
    SearchParamsBox(s, q, coordinates);
    SplitJoin(coordinates(s.extent.value), ',');
  }

  /**
   The configuration `toJSON` writes: a field only when it differs from its
   default. City and state are compared against the default `undefined`, so
   any value the constructor stores there, `null` included, is written.
   */
  function ToConfig<E>(s: Settings<E>): Options<E> {
    Options(
      url := if s.url != DEFAULT_URL then Value(s.url) else Undefined,
      city := s.city,
      state := s.state,
      countrycode := if s.countrycode != DEFAULT_COUNTRYCODE then Value(s.countrycode) else Undefined,
      extent := if s.extent.Value? then s.extent else Undefined,
      limit := if s.limit != DEFAULT_LIMIT then Value(s.limit) else Undefined,
      icon := if s.icon != DEFAULT_ICON then Value(s.icon) else Undefined)
  }

  /**
   A field is written exactly when it differs from its default; the extent
   exactly when one is set; city and state always, once constructed.
   */
  lemma ToConfigOmitsDefaults<E>(s: Settings<E>)
    ensures var c := ToConfig(s);
      && (c.url.Value? <==> s.url != DEFAULT_URL)
      && (c.countrycode.Value? <==> s.countrycode != DEFAULT_COUNTRYCODE)
      && (c.limit.Value? <==> s.limit != DEFAULT_LIMIT)
      && (c.icon.Value? <==> s.icon != DEFAULT_ICON)
      && (c.extent.Value? <==> s.extent.Value?)
      && (s.WellFormed() ==> !c.city.Undefined? && !c.state.Undefined?)
  {
  }

  /** Constructing from the serialised configuration reproduces every field. */
  lemma ConfigRoundTrip<E>(s: Settings<E>)
    requires s.WellFormed()
    ensures Merged(ToConfig(s)) == s
  {
  }

  /** Serialising is idempotent: what `toJSON` writes is already in normal form. */
  lemma {:induction false} ConfigNormalForm<E>(options: Options<E>)
    ensures ToConfig(Merged(ToConfig(Merged(options)))) == ToConfig(Merged(options))
  {
    ConfigRoundTrip(Merged(options));
  }

  /**
   A connector built from the defaults serialises to `{city: null, state: null}`,
   not to `{}`: the unset city and state are stored as `null` and written out.
   */
  lemma DefaultConfigKeepsCityAndState<E>()
    ensures ToConfig(Merged(DefaultOptions<E>())) == NoOptions<E>().(city := Null, state := Null)
    ensures ToConfig(Merged(DefaultOptions<E>())) != NoOptions<E>()
    ensures ToConfig(Merged(NoOptions<E>())) == NoOptions<E>().(city := Null, state := Null)
  {
  }

  /** One element of the provider's JSON response. */
  datatype ResponseItem<G, A> = ResponseItem(geojson: G, address: A, displayName: Nullish<string>)

  /** The options of the address balloon attached to every result feature. */
  datatype BalloonOptions = BalloonOptions(
    kind: string,
    name: string,
    balloonSubtitle: string,
    addressName: string,
    street: string,
    number: string,
    city: string,
    zip: string,
    country: string)

  const NOMINATIM_BALLOON: BalloonOptions := BalloonOptions(
    kind := "AddressBalloonFeatureInfoView",
    name := "NominatimSearchBalloon",
    balloonSubtitle := "",
    addressName := "building",
    street := "road",
    number := "house_number",
    city := "city",
    zip := "postcode",
    country := "country")

  /** A parsed feature with the response's address set as its properties and its balloon attached. */
  datatype Feature<F, A> = Feature(geometry: F, properties: A, balloon: BalloonOptions)

  datatype ResultItem<F, A> = ResultItem(title: Nullish<string>, feature: Feature<F, A>, icon: string)

  /** `features[0]` was `undefined`, so calling `setProperties` on it threw a TypeError. */
  datatype SearchError = NoFeature

  datatype Result<+T> = Ok(value: T) | Err(error: SearchError)

  /**
   `createResultItem`; `parse(g)` stands for `parseGeoJSON(g).features`, and
   the first parsed feature carries the result.
   */
  function CreateResultItem<G, A, F>(item: ResponseItem<G, A>, icon: string, parse: G -> seq<F>)
    : (r: Result<ResultItem<F, A>>)
    ensures r.Ok? <==> |parse(item.geojson)| > 0
    ensures r.Ok? ==> r.value.title == item.displayName && r.value.icon == icon
    ensures r.Ok? ==> r.value.feature == Feature(parse(item.geojson)[0], item.address, NOMINATIM_BALLOON)
  {
    var features := parse(item.geojson);
    if |features| == 0 then Err(NoFeature)
    else Ok(ResultItem(item.displayName, Feature(features[0], item.address, NOMINATIM_BALLOON), icon))
  }

  /**
   `results.map((result) => createResultItem(result, icon))`: one result per
   response element, in order; the whole mapping fails when one element does.
   */
  function MapResults<G, A, F>(items: seq<ResponseItem<G, A>>, icon: string, parse: G -> seq<F>)
    : (r: Result<seq<ResultItem<F, A>>>)
    ensures r.Ok? <==> forall i :: 0 <= i < |items| ==> |parse(items[i].geojson)| > 0
    ensures r.Ok? ==> |r.value| == |items|
    ensures r.Ok? ==> forall i :: 0 <= i < |items| ==> Ok(r.value[i]) == CreateResultItem(items[i], icon, parse)
  {
    if items == [] then Ok([])
    else
      match CreateResultItem(items[0], icon, parse)
      case Err(e) => Err(e)
      case Ok(first) =>
        match MapResults(items[1..], icon, parse)
        case Err(e) => Err(e)
        case Ok(rest) =>
          assert forall i :: 0 < i < |items| ==> items[i] == items[1..][i - 1];
          Ok([first] + rest)
  }

  /**
   The i-th result is titled by the i-th `display_name`, carries the
   configured icon, and has the i-th address as its feature's properties.
   */
  lemma MapResultsTitlesAndIcons<G, A, F>(items: seq<ResponseItem<G, A>>, icon: string, parse: G -> seq<F>)
    requires MapResults(items, icon, parse).Ok?
    ensures var rs := MapResults(items, icon, parse).value;
      forall i :: 0 <= i < |items| ==>
        && rs[i].title == items[i].displayName
        && rs[i].icon == icon
        && rs[i].feature.properties == items[i].address
        && rs[i].feature.balloon == NOMINATIM_BALLOON
  {
  }

  /**
   The connector object. `url` is the endpoint, `extent` the bounding box
   (`null` when none is set).
   */
  class Nominatim<E(==)> {
    var url: string
    var city: Nullish<string>
    var state: Nullish<string>
    var countrycode: string
    var extent: Nullish<E>
    var limit: int
    var icon: string

    ghost predicate Valid()
      reads this
    {
      Current().WellFormed()
    }

    /** The connector's fields as one value. */
    function Current(): Settings<E>
      reads this
    {
      Settings(url, city, state, countrycode, extent, limit, icon)
    }

    constructor(options: Options<E>)
      ensures Valid()
      ensures Current() == Merged(options)
    {
      url := options.url.OrElse(DEFAULT_URL);
      city := options.city.OrNull();
      state := options.state.OrNull();
      countrycode := options.countrycode.OrElse(DEFAULT_COUNTRYCODE);
      extent := if options.extent.Value? then options.extent else Null;
      limit := options.limit.OrElse(DEFAULT_LIMIT);
      icon := options.icon.OrElse(DEFAULT_ICON);
    }

    /**
     A search for `q`: the request parameters it sends and the results it
     returns for the provider's `response`. No field of the connector changes.
     */
    method Search<G, A, F>(q: string, coordinates: E -> seq<string>, response: seq<ResponseItem<G, A>>, parse: G -> seq<F>)
      returns (params: Params, results: Result<seq<ResultItem<F, A>>>)
      ensures params == SearchParams(Current(), q, coordinates)
      ensures results == MapResults(response, icon, parse)
      ensures unchanged(this)
    {
      params := [
        ("q", q),
        ("countrycodes", countrycode),
        ("format", "json"),
        ("polygon_geojson", "1"),
        ("addressdetails", "1"),
        ("limit", DecimalString(limit))];
      ghost var rest := params[1..];
      if TruthyString(city) {
        assert Put(params, "q", Lookup(params, "q").value + "," + city.value) == [("q", q + Refinement(city))] + rest by {
          LookupFirst(params, "q", 0);
          PutExisting(params, "q", q + "," + city.value, 0);
          assert q + "," + city.value == q + Refinement(city);
        }
        params := Put(params, "q", Lookup(params, "q").value + "," + city.value);
      } else {
        assert params == [("q", q + Refinement(city))] + rest by {
          assert q + Refinement(city) == q;
        }
      }
      ghost var q1 := q + Refinement(city);
      if TruthyString(state) {
        assert Put(params, "q", Lookup(params, "q").value + "," + state.value) == [("q", QueryText(q, city, state))] + rest by {
          LookupFirst(params, "q", 0);
          PutExisting(params, "q", q1 + "," + state.value, 0);
          assert q1 + "," + state.value == QueryText(q, city, state);
        }
        params := Put(params, "q", Lookup(params, "q").value + "," + state.value);
      } else {
        assert params == [("q", QueryText(q, city, state))] + rest by {
          assert q1 + Refinement(state) == q1;
        }
      }
      assert params == FixedParams(Current(), q);
      if extent.Value? {
        assert Put(Put(params, "viewbox", Join(coordinates(extent.value), ",")), "bounded", "1")
            == FixedParams(Current(), q) + BoxParams(Current(), coordinates) by {
          assert forall j :: 0 <= j < |params| ==> params[j].0 in FIXED_KEYS;
          PutTwoNew(params, "viewbox", Join(coordinates(extent.value), ","), "bounded", "1");
        }
        params := Put(params, "viewbox", Join(coordinates(extent.value), ","));
        params := Put(params, "bounded", "1");
      }
      results := MapResults(response, icon, parse);
    }

    /** `toJSON`: starts from `{}` and adds each field that differs from its default. */
    method ToJSON() returns (config: Options<E>)
      ensures config == ToConfig(Current())
      ensures Valid() ==> Merged(config) == Current()
    {
      var defaults := DefaultOptions<E>();
      config := NoOptions();
      if Value(url) != defaults.url {
        config := config.(url := Value(url));
      }
      if city != defaults.city {
        config := config.(city := city);
      }
      if state != defaults.state {
        config := config.(state := state);
      }
      if Value(countrycode) != defaults.countrycode {
        config := config.(countrycode := Value(countrycode));
      }
      if extent.Value? && extent != defaults.extent {
        config := config.(extent := extent);
      }
      if Value(limit) != defaults.limit {
        config := config.(limit := Value(limit));
      }
      if Value(icon) != defaults.icon {
        config := config.(icon := Value(icon));
      }
      if Valid() {
        ConfigRoundTrip(Current());
      }
    }
  }
}
