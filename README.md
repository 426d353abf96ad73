# Nominatim search connector — a Dafny model

This project models the `Nominatim` search implementation of the
map-search-nominatim plugin (`src/nominatim.js`). The plugin adds geocoding
search against the Nominatim API to a VC Map application. The connector
merges the plugin configuration over its defaults. For each search it
assembles the request parameters, and it maps the provider's JSON response
to result items. It can also serialise its configuration back, leaving out
the defaults.

Two modules:

- `Js` (`js.dfy`) models the JavaScript semantics the connector depends on:
  - `Nullish<T>` is a value that may be `undefined` or `null`. `OrElse` models `??`.
  - Plain objects are insertion-ordered dictionaries. `Put` models property assignment and `Lookup` models reading a property.
  - `Join` models `Array.prototype.join`, and `Split` is its inverse.
  - `DecimalString` models `String(n)` for integral numbers below 1e21 in magnitude, and `ParseInt` is its inverse.
- `NominatimSearch` (`nominatim.dfy`) models the connector:
  - `Options` is the plugin configuration. A property that is absent reads as `Undefined`.
  - `Settings` holds the connector's fields, and `Merged` is the constructor's merge.
  - `QueryText`, `FixedParams`, `BoxParams` and `SearchParams` give the request parameters.
  - `ToConfig` is what `toJSON` writes.
  - `CreateResultItem` and `MapResults` map the response to result items.
  - The class `Nominatim` has the fields the source assigns. Its constructor, `Search` and `ToJSON` are proved against the functions above.

Opaque collaborators become parameters:

- The extent is the type parameter `E`, standing for the extent's options object. Constructing an `Extent` from it and calling its `toJSON` are both treated as the identity.
- Its WGS84 coordinates are the function parameter `coordinates: E -> seq<string>`. They are already rendered as the strings `join` would write.
- `parseGeoJSON(g).features` is the function parameter `parse: G -> seq<F>`.
- The already-parsed JSON response is the parameter `response`.

Three behaviours of the code a reader might not expect:

- `toJSON` compares `city` and `state` against `undefined`, but the constructor stores `null` there. An unset city or state is therefore always written as `null`, and a default-constructed connector serialises to `{city: null, state: null}`, not to `{}`. `DefaultConfigKeepsCityAndState` states this.
- A response element without `display_name` does not raise an error. Its result's title is `undefined`, modelled as `Undefined`. The only failure modelled is an element whose GeoJSON parses to no feature. In that case `features[0].setProperties` throws a TypeError, modelled as `Err(NoFeature)`.
- `search` never ties the request to the abort controller. At `src/nominatim.js:149`, `signal` is destructured from `this._controller.signal`, so it is `undefined`. `abort()` therefore cancels nothing.

## Model

| member | source | states |
|---|---|---|
| `NominatimSearch.DefaultOptions` | src/nominatim.js:58-67 | url is `https://nominatim.openstreetmap.org/search`, countrycode `"de"`, limit 20, icon `"mdi-circle-double"`; city, state and extent are `undefined` |
| `NominatimSearch.Merged` | src/nominatim.js:83-101 | the merged fields never hold `undefined` in city, state or extent |
| `NominatimSearch.MergedTakesSuppliedValues` | src/nominatim.js:83-101 | url, countrycode, limit and icon are the supplied value when it is not `undefined`/`null`, else the default; city and state are the supplied value or `null`; the extent is `null` exactly when none was supplied, and otherwise the supplied one |
| `NominatimSearch.MergedKeepsEmptyAndZero` | src/nominatim.js:83-101 | supplied empty strings and a zero limit are kept, not replaced by defaults |
| `NominatimSearch.Nominatim.constructor` | src/nominatim.js:73-107 | the new connector's fields are `Merged(options)`, and city, state and extent are never `undefined` |
| `NominatimSearch.QueryTextIsJoin` | src/nominatim.js:122-137 | `q` is the query text, the city and the state joined with `,`; an empty or missing city or state is skipped, not left as an empty piece, and the city comes before the state |
| `NominatimSearch.QueryTextSplits` | src/nominatim.js:131-137 | when no piece contains a comma, splitting `q` at commas gives back the text, then the city if non-empty, then the state if non-empty |
| `NominatimSearch.QueryTextExamples` | src/nominatim.js:131-137 | `"Berlin"` with city `"Mitte"` gives `"Berlin,Mitte"`; with only state `"Brandenburg"` it gives `"Berlin,Brandenburg"`; with both, `"Berlin,Mitte,Brandenburg"`; an empty city adds nothing |
| `NominatimSearch.SearchParamsKeys` | src/nominatim.js:122-144 | the parameter names are `q, countrycodes, format, polygon_geojson, addressdetails, limit` in that order, followed by `viewbox, bounded` exactly when an extent is set; `viewbox` and `bounded` are each present if and only if there is an extent |
| `NominatimSearch.SearchParamsValues` | src/nominatim.js:122-129 | `q` carries the assembled query text, `countrycodes` the country code, `format` is `json`, `polygon_geojson` and `addressdetails` are `1`, and `limit` reads back as the configured limit |
| `NominatimSearch.SearchParamsBox` | src/nominatim.js:139-144 | with an extent, `viewbox` is its WGS84 coordinate list joined with `,` and `bounded` is `1` |
| `NominatimSearch.ViewboxSplits` | src/nominatim.js:139-143 | splitting `viewbox` at commas gives back the extent's coordinates in the order the extent yields them |
| `NominatimSearch.Nominatim.Search` | src/nominatim.js:121-153 | the parameters sent are `SearchParams` of the connector's fields, built by in-place assignments on the params object; the results are `MapResults` of the response with the configured icon; no field of the connector changes |
| `NominatimSearch.CreateResultItem` | src/nominatim.js:14-35 | a result exists exactly when the GeoJSON parses to at least one feature; its title is the element's `display_name`, its icon the given icon, and its feature the first parsed feature with the address as properties and the Nominatim address balloon attached |
| `NominatimSearch.MapResults` | src/nominatim.js:152 | the mapping succeeds exactly when every element yields a feature; it then has one result per response element, the i-th made from the i-th element |
| `NominatimSearch.MapResultsTitlesAndIcons` | src/nominatim.js:14-35 | the i-th result is titled by the i-th `display_name`, carries the configured icon, and has the i-th address as its feature's properties |
| `NominatimSearch.Nominatim.ToJSON` | src/nominatim.js:159-189 | the object built step by step from `{}` equals `ToConfig` of the connector's fields, and constructing a connector from it gives back the current fields |
| `NominatimSearch.ToConfigOmitsDefaults` | src/nominatim.js:166-186 | url, countrycode, limit and icon are written exactly when they differ from the default; the extent exactly when one is set; city and state are always written for a constructed connector |
| `NominatimSearch.ConfigRoundTrip` | src/nominatim.js:159-189 | constructing from the serialised configuration reproduces every field of the connector |
| `NominatimSearch.ConfigNormalForm` | src/nominatim.js:159-189 | serialising a connector rebuilt from a serialised configuration gives the same configuration again |
| `NominatimSearch.DefaultConfigKeepsCityAndState` | src/nominatim.js:169-174 | a connector built from the defaults, or from `{}`, serialises to `{city: null, state: null}`, which is not `{}` |
| `Js.PutExisting` | src/nominatim.js:132 | assigning a property the params object already has overwrites that entry in place, keeping its position |
| `Js.PutNew` | src/nominatim.js:140-143 | assigning a property the params object lacks appends it at the end |
| `Js.PutThenLookup` | src/nominatim.js:132 | after an assignment, the property reads as the new value, every other property reads as before, and the names keep their order |
| `Js.LookupFirst` | src/nominatim.js:132 | reading a property gives the value of its first entry |
| `Js.LookupPresent` | src/nominatim.js:132 | a property reads as a value exactly when the object has it |
| `Js.SplitJoin` | src/nominatim.js:140-142 | splitting a comma-join at commas gives back the pieces when none contains a comma |
| `Js.NatString` | src/nominatim.js:128 | the rendering of a non-negative limit is a non-empty string of digits without a leading zero |
| `Js.ParseDecimalString` | src/nominatim.js:128 | the decimal rendering of the limit reads back as the limit |

## Left out

- Network I/O and asynchrony (`fetch`, `response.json()`, `await`): the response comes in as a parameter, already parsed, and it is assumed to be an array. Transport failures and a non-array body are not modelled.
- `abort()` and the `AbortController`: this is cancellation plumbing, and as written the controller's signal never reaches `fetch`.
- `new URL(this.url)` and the `URLSearchParams` encoding: the model stops at the ordered list of parameters. An invalid URL, which would throw, is not modelled.
- Parameter values are held as strings from the start, whereas the source converts numbers when the query string is encoded. `limit`, `polygon_geojson`, `addressdetails` and `bounded` are rendered with `DecimalString`, or as `"1"`.
- The extent's coordinates are supplied already rendered. Their projection to WGS84 (`getCoordinatesInProjection`) and the rendering of floating-point numbers are not modelled.
- JavaScript numbers are doubles. `limit` is modelled as an unbounded integer, so fractional limits, `NaN` and `-0` are not covered. Integers above 2^53 cannot be represented exactly, and `String` writes magnitudes of 1e21 and more in exponent notation (`"1e+21"`); `DecimalString` always writes plain digits.
- Option values are typed by the documented option types: a string, or an extent options object. A value of another type, such as `false` or `0` given as the extent, is not modelled.
- `url` may also be a URL object according to its type annotation; only strings are modelled.
- `Extent`, `parseGeoJSON`, `AddressBalloonFeatureInfoView` and `featureInfoViewSymbol` are foreign library calls:
  - the extent and the parsed features are opaque type parameters;
  - the balloon is represented by the options it is constructed with;
  - `setProperties` is represented by keeping the address as the feature's properties.
- `parse` is total: a throwing `parseGeoJSON` and a non-object response element (reading `item.geojson` of `null` throws) are not modelled. The first can be read as `parse` returning no feature.
- The `name` getter returns the package name from `package.json`, and `package.json` is not part of this model.
- `src/index.js` is left out. It holds the host plugin lifecycle, the config-editor hookup and the i18n tables, with no logic beyond delegation.
