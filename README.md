# Valhalla route-request builder, modelled in Dafny

This project models the request side of the on-the-road Android client for the Valhalla
routing service:

- `ValhallaRouter`, a mutable builder. It holds a travel mode, distance units, an optional
  language, a maximum hiking difficulty and an ordered list of waypoints. Setters overwrite
  single fields. The three `setLocation` overloads append one waypoint. `clearLocations`
  empties the list. `getJSONRequest` turns the builder into a request document, or throws
  when fewer than two waypoints are held.
- The request document `JSON`, with its `Location`, `DirectionOptions` and `CostingOptions`
  parts, and the heading check of the `Location` constructor.
- The decision `fetch` makes when the transport hands back a reply: exactly one `success`
  or exactly one `failure(code)` per non-null reply, none for a null reply.

Files (one module each):

- `wrappers.dfy` (`Wrappers`): `Option` stands for Java null. `Result` and `Outcome` stand for
  a thrown exception. `Error` names the three exceptions the code throws.
- `numbers.dfy` (`Numbers`): Kotlin `Int` as `int32`. `Int.toString` as `DecimalString`, with
  `ParseDecimal` and a round-trip lemma as its partner.
- `router_types.dfy` (`RouterTypes`): the travel modes and distance units. Their strings are
  the ones the library tests pin.
- `json.dfy` (`Json`): `JSON.java`. `Location` is a datatype built by three constructor
  functions. The request and its two option records are classes with mutable fields, as in
  Java.
- `valhalla_router.dfy` (`Valhalla`): `ValhallaRouter.kt`. The builder is a class whose methods
  have field-level `modifies` frames, so each setter provably changes only its own field. The
  reply handling of `fetch` is a pair of pure functions.
- `scenarios.dfy` (`Scenarios`): client methods shaped like the library's router tests. Each
  builds its own router and states what the resulting request holds, for every input.

Lat/lon are `double`s in the source but are only stored and copied. They are modelled as
`real`. A Kotlin `DoubleArray` point is a `seq<real>`: the source reads `point[0]` and
`point[1]`, so a shorter array throws `ArrayIndexOutOfBoundsException`, modelled as
`Fail(IndexOutOfBounds)`. For the heading overload, that index check comes before the
heading check.

The JVM default language (`getDefaultLanguage`) is a `defaultLanguage` parameter of
`GetJSONRequest`. `getJSONRequest` throws before it reaches the language code. So a failed
call leaves the language as it was. The first successful call with no language stores the
default, and later calls keep it even if the default has changed.

The presence of an HTTP handler and of a callback are modelled as booleans. `Fetch` returns
the request that would be handed to the handler. It returns `None` when there is no handler;
in that case Kotlin's `?.` does not even evaluate `getJSONRequest()`.

A 2xx reply with a non-null body goes to `success` even when the body reports that no route
was found (library/src/main/java/com/mapzen/valhalla/ValhallaRouter.kt:96-97); `Route`, which is
not part of this model, reads that status later. A route-not-found reply with HTTP 400 is a
failure on the status alone.

## Model

| member | source | states |
|---|---|---|
| `Numbers.Digits` | library/src/main/java/com/mapzen/valhalla/ValhallaRouter.kt:126 | The digits of a natural number are non-empty, all decimal, and have no leading zero (the first digit is '0' exactly for 0). |
| `Numbers.ParseDigitsOfDigits` | library/src/main/java/com/mapzen/valhalla/ValhallaRouter.kt:126 | Reading back the digits of n gives n. |
| `Numbers.DecimalRoundTrip` | library/src/main/java/com/mapzen/valhalla/ValhallaRouter.kt:126 | `Int.toString` loses nothing: `ParseDecimal(DecimalString(n)) == Some(n)` for every integer, negatives included. |
| `Numbers.DecimalStringInjective` | library/src/main/java/com/mapzen/valhalla/ValhallaRouter.kt:126 | Two integers have the same decimal string exactly when they are equal. |
| `RouterTypes.CostingStringInjective` | library/src/test/java/com/mapzen/valhalla/RouterTest.java:47-74 | The costing strings "auto", "pedestrian", "bicycle" and "multimodal" identify the travel mode: they are equal exactly when the modes are. |
| `RouterTypes.UnitsStringInjective` | library/src/test/java/com/mapzen/valhalla/RouterTest.java:190-199 | "miles" and "kilometers" identify the distance unit. |
| `Json.HeadingNoneIsInvalid` | library/src/main/java/com/mapzen/valhalla/JSON.java:10 | The sentinel -1 is outside [0, 360), so for a well-formed location "has a heading" is the same as "has a valid heading". |
| `Json.NewLocation` | library/src/main/java/com/mapzen/valhalla/JSON.java:35-38 | Stores lat and lon, leaves the name, street, city and state null, and reads as having no heading. |
| `Json.NewHeadingLocation` | library/src/main/java/com/mapzen/valhalla/JSON.java:40-48 | Throws IllegalArgumentException exactly when heading < 0 or heading >= 360. Otherwise it stores lat, lon and the heading exactly, with the address fields null. |
| `Json.NewAddressLocation` | library/src/main/java/com/mapzen/valhalla/JSON.java:50-58 | Stores lat, lon, name, street, city and state exactly as given (nulls stay null), with no heading. |
| `Json.DirectionOptions.constructor` | library/src/main/java/com/mapzen/valhalla/JSON.java:61-64 | A fresh record has units and language unset. |
| `Json.CostingOptions.constructor` | library/src/main/java/com/mapzen/valhalla/JSON.java:21-24 | A fresh record has the maximum hiking difficulty unset. |
| `Json.JSON.constructor` | library/src/main/java/com/mapzen/valhalla/JSON.java:12-19 | A fresh request has no locations, no costing, and fresh option records whose fields are unset. |
| `Valhalla.ValhallaRouter.constructor` | library/src/main/java/com/mapzen/valhalla/ValhallaRouter.kt:12-19 | A new builder: driving, kilometres, difficulty 1, no language, no locations, no handler, no callback. |
| `Valhalla.ValhallaRouter.SetHttpHandler` | library/src/main/java/com/mapzen/valhalla/ValhallaRouter.kt:21-24 | A handler is set; no other field changes. |
| `Valhalla.ValhallaRouter.SetLanguage` | library/src/main/java/com/mapzen/valhalla/ValhallaRouter.kt:26-29 | The language becomes the given one; no other field changes. |
| `Valhalla.ValhallaRouter.SetWalking` | library/src/main/java/com/mapzen/valhalla/ValhallaRouter.kt:31-34 | The mode becomes walking; no other field changes. |
| `Valhalla.ValhallaRouter.SetDriving` | library/src/main/java/com/mapzen/valhalla/ValhallaRouter.kt:36-39 | The mode becomes driving; no other field changes. |
| `Valhalla.ValhallaRouter.SetBiking` | library/src/main/java/com/mapzen/valhalla/ValhallaRouter.kt:41-44 | The mode becomes biking; no other field changes. |
| `Valhalla.ValhallaRouter.SetMultimodal` | library/src/main/java/com/mapzen/valhalla/ValhallaRouter.kt:46-49 | The mode becomes multimodal; no other field changes. |
| `Valhalla.ValhallaRouter.SetLocation` | library/src/main/java/com/mapzen/valhalla/ValhallaRouter.kt:51-54 | Appends exactly the bare location (point[0], point[1]) at the end, or throws on a point shorter than two with the list unchanged. Earlier locations and all other fields are unchanged, and every held location stays well-formed. |
| `Valhalla.ValhallaRouter.SetLocationWithHeading` | library/src/main/java/com/mapzen/valhalla/ValhallaRouter.kt:56-59 | Fails exactly for a short point (index error first) or an invalid heading (IllegalArgumentException), and leaves the list unchanged then. Otherwise it appends one location with that heading and earlier locations are unchanged. |
| `Valhalla.ValhallaRouter.SetLocationWithAddress` | library/src/main/java/com/mapzen/valhalla/ValhallaRouter.kt:61-70 | Appends exactly the addressed location at the end, or throws on a short point with the list unchanged. |
| `Valhalla.ValhallaRouter.SetDistanceUnits` | library/src/main/java/com/mapzen/valhalla/ValhallaRouter.kt:72-75 | The units become the given ones; no other field changes. |
| `Valhalla.ValhallaRouter.SetMaxHikingDifficulty` | library/src/main/java/com/mapzen/valhalla/ValhallaRouter.kt:77-80 | The difficulty becomes the given one; no other field changes. |
| `Valhalla.ValhallaRouter.ClearLocations` | library/src/main/java/com/mapzen/valhalla/ValhallaRouter.kt:82-85 | The list becomes empty; no other field changes. |
| `Valhalla.ValhallaRouter.SetCallback` | library/src/main/java/com/mapzen/valhalla/ValhallaRouter.kt:87-90 | A callback is set; no other field changes. |
| `Valhalla.ValhallaRouter.Fetch` | library/src/main/java/com/mapzen/valhalla/ValhallaRouter.kt:92-93 | Without a handler nothing is built and the language is untouched. With a handler it fails with MalformedURLException exactly when fewer than two locations are held, and otherwise hands over a request. That request is fresh and carries the builder's locations in order, the mode's costing, the units, the decimal difficulty and the explicit or once-stored default language. |
| `Valhalla.ValhallaRouter.GetJSONRequest` | library/src/main/java/com/mapzen/valhalla/ValhallaRouter.kt:110-128 | Throws MalformedURLException exactly when fewer than two locations are held, storing nothing. Otherwise it returns a fresh request holding the builder's locations element for element in order, the current mode's costing, units and decimal difficulty, and the explicit language, or the default stored on first use. Only the language field of the builder can change. |
| `Valhalla.Classify` | library/src/main/java/com/mapzen/valhalla/ValhallaRouter.kt:96-100 | A reply is a success exactly when it is successful and has a body, and then carries that body; any other reply is a failure carrying its HTTP code. |
| `Valhalla.OnResponse` | library/src/main/java/com/mapzen/valhalla/ValhallaRouter.kt:94-102 | At most one callback invocation per reply. There is none exactly when the reply is null or no callback is set; otherwise it is the classified outcome. |
| `Scenarios.DefaultRequest` | library/src/test/java/com/mapzen/valhalla/RouterTest.java:47-50 | With no setter called, the request's costing is "auto", its units "kilometers" and its difficulty "1". |
| `Scenarios.LastModeWins` | library/src/test/java/com/mapzen/valhalla/RouterTest.java:52-74 | After two travel-mode setters, the costing is that of the second, with the strings the tests pin. |
| `Scenarios.ClearThenAdd` | library/src/test/java/com/mapzen/valhalla/RouterTest.java:76-91 | Clear, then add b and c: the request holds exactly [b, c]. |
| `Scenarios.TooFewLocations` | library/src/test/java/com/mapzen/valhalla/RouterTest.java:93-101 | Building with zero or with one location fails with MalformedURLException. |
| `Scenarios.LanguageIsStable` | library/src/main/java/com/mapzen/valhalla/ValhallaRouter.kt:119-124 | Two requests return the default stored by the first, even if the default changes in between. An explicitly set language is used unchanged. |
| `Scenarios.UnitsFollowSetter` | library/src/test/java/com/mapzen/valhalla/RouterTest.java:190-199 | Setting miles, then kilometres, gives "miles" and then "kilometers". |
| `Scenarios.DifficultyFollowsSetter` | library/src/main/java/com/mapzen/valhalla/ValhallaRouter.kt:77-80 | After two difficulty setters, the request carries a decimal string that reads back to the second. |
| `Scenarios.HeadingAndAddress` | library/src/test/java/com/mapzen/valhalla/RouterTest.java:201-235 | A headed point followed by an addressed point is sent, in that order, as exactly the locations their constructors build: lat, lon and heading with null address fields, then lat, lon and the given address fields. The headed point is rejected exactly when its heading is invalid. |
| `Scenarios.FetchReplies` | library/src/test/java/com/mapzen/valhalla/RouterTest.java:117-172 | A route body gives one success carrying the body. HTTP 500, 404, and 400 with an error body each give one failure with that code. A null reply gives nothing. |

## Left out

- Transport: `HttpHandler`, Retrofit's `Call` and `Callback`, asynchronous delivery, and the `Call` that `fetch` returns. Only the request handed over and the reply classification are modelled.
- `onFailure` only prints a stack trace, so it is left out.
- Gson serialisation and its field names (`directions_options`, `costing_options`, `max_hiking_difficulty`) are a foreign library. The model keeps the fields, not the JSON text.
- `getDefaultLanguage` reads the JVM `Locale`, so it is a parameter. It is taken as never null, because it returns either a locale string or `Locale.getDefault().language`.
- `Router.Language`, `Router.Type` and `Router.DistanceUnits` are not part of this model. Languages are their strings. Mode and unit strings are those the library tests pin, and only the units MILES and KILOMETERS are modelled.
- `Route`: parsing the body, `foundRoute` and `getRawRoute` are not part of this model. A success carries the raw body.
- Callback and handler objects are modelled only by whether they are set.
- `HttpResponse.isSuccessful` is a free flag beside `code`. Retrofit, which is not part of this model, sets it exactly for codes 200-299, so the model also admits replies the transport cannot produce; no property depends on that relation.
- Object identity of `Location`: Java shares the same mutable `Location` objects between the builder's list and the request. `Location` is a value here, so aliasing through later writes to a location's public fields is not modelled.
- Setters return `this` for chaining. The model's methods return nothing, or the thrown error.
- Floating point: lat/lon are stored values (`real`), with no IEEE behaviour.
- The older tests under src/test target an API that this code no longer has, so they are not modelled.
