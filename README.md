# AirLytics core, modelled in Dafny

AirLytics predicts the Air Quality Index (AQI) of an Indian city from six pollutant readings. It has two parts.

- The **backend** (FastAPI) asks an ML model for a prediction. It labels the prediction with one of six bands, and it also serves the live temperature of a city from Open-Meteo.
- The **frontend** (React) has the following pieces:
  - a form that shows a temperature badge for the selected city;
  - a request lifecycle with a loading, error, result and idle panel, and a cycling loading message;
  - a result card and health advice, each of which recomputes the band locally;
  - a chart that compares the submitted pollutants with fixed safe limits;
  - a persisted light/dark theme switch.

The band rule is written three times in the system. The model defines a reference rule, `Bands.Classify`: the band is the number of thresholds 50/100/200/300/400 that the AQI strictly exceeds. Each of the three copies is proved equal to it:

1. the `<=` chain of `getStatusInfo`;
2. the `<=` chain of `getHealthAdvice`;
3. the overwrite cascade of `predict_aqi`.

Pure code is modelled as functions and lemmas:
- the status and advice chains;
- the payload;
- the chart series;
- the theme value.

Code that changes state is modelled as classes and methods:
- the `App` component state under `handlePredict` and the message interval (`App.App`);
- the form's `temp` reading (`AqiForm.Form`);
- the theme state with its local storage and root `dark` class (`ThemeToggle.Toggle`);
- the loop of `get_weather` and the status cascade (`Backend.FindCityKey`, `Backend.PredictionStatus`).

JavaScript comparisons on a missing field are modelled as they behave: `undefined <= c` is false. An `{"error": …}` body, which the API sends with status 200, therefore renders in the Severe band with an undefined badge text.

Modules:

| Module | File | Contents |
|---|---|---|
| Wire | wire.dfy | The JSON bodies, plus the JavaScript truthiness and undefined-field reads the frontend applies to them |
| Bands | bands.dfy | The reference band rule, its ranges, boundaries, monotonicity and labels |
| ResultCard | result_card.dfy | `getStatusInfo` and the card |
| App | app.dfy | `getHealthAdvice`, the payload, the reference card, and the lifecycle class with its render guards |
| Backend | backend.dfy | `CITY_COORDS`, `get_weather` and `predict_aqi` |
| CityTable | city_table.dfy | Facts about the two fixed city tables |
| PollutionChart | pollution_chart.dfy | Safe limits and the chart series |
| AqiForm | aqi_form.dfy | `cities`, the temperature badge and the submit guard |
| ThemeToggle | theme_toggle.dfy | The theme switch |

## Model

| member | source | states |
|---|---|---|
| Bands.ClassifyRanges | frontend/src/components/ResultCard.jsx:9-15 | The bands are right-closed intervals in both directions: Good iff aqi ≤ 50, Satisfactory iff 50 < aqi ≤ 100, Moderate iff 100 < aqi ≤ 200, Poor iff 200 < aqi ≤ 300, Very Poor iff 300 < aqi ≤ 400, Severe iff aqi > 400 |
| Bands.BoundariesBelongBelow | frontend/src/components/ResultCard.jsx:10-14 | 50, 100, 200, 300 and 400 fall in the lower band; 51, 101, 201, 301 and 401 fall in the next band |
| Bands.ClassifyFieldRanges | frontend/src/components/ResultCard.jsx:9-15 | The band of a possibly undefined reading is the first `aqi <= c` test that passes, and Severe when none does (an undefined reading passes none); each case is an iff |
| Bands.ClassifyMonotone | frontend/src/components/ResultCard.jsx:9-15 | a ≤ b implies that the band index of a is at most that of b |
| Bands.LabelsDistinct | frontend/src/components/ResultCard.jsx:10-15 | The six labels are pairwise distinct: two bands have the same label iff they are the same band |
| ResultCard.GetStatusInfo | frontend/src/components/ResultCard.jsx:9-15 | The label the `<=` chain picks is the label of the reference band of the reading; an undefined reading gets "Severe" |
| ResultCard.StatusInfoSameIffSameBand | frontend/src/components/ResultCard.jsx:9-15 | Two AQIs get the same colour, background, border, icon and label iff they have the same reference band |
| ResultCard.Render | frontend/src/components/ResultCard.jsx:6-54 | No data renders nothing, and data always renders a card; the badge is the server's `air_quality_status` and the city line is `input_city` |
| ResultCard.CardStyleFollowsBand | frontend/src/components/ResultCard.jsx:17-46 | Two bodies get the same card styling iff their `predicted_aqi` fall in the same band, whatever their status text |
| ResultCard.ErrorBodyRendersAsSevere | frontend/src/components/ResultCard.jsx:9-17 | An `{"error": …}` body has an undefined badge and is styled like an AQI above 400 |
| App.GetHealthAdvice | frontend/src/App.jsx:80-86 | The `<=` chain returns the advice entry at the position of the reference band; an undefined reading gets the last entry |
| App.AdviceEntriesDistinct | frontend/src/App.jsx:81-86 | The six advice entries are pairwise distinct |
| App.AdviceSameIffSameBand | frontend/src/App.jsx:80-86 | Two AQIs get the same advice iff they have the same reference band |
| App.AdviceAgreesWithStatus | frontend/src/App.jsx:80-86 | Two AQIs share their advice iff they share their result-card status, and the card's label is the band label |
| App.ThreeRulesAgree | backend/main.py:157-162 | For every prediction, the backend cascade's status, the card's label and the band of the advice are the same band |
| App.CardAgreesWithBadgeIffSameBand | backend/main.py:157-167 | For a body the API builds from prediction p and reported value r, the card's colour, background, border and icon are those a card for p would get iff p and r have the same band; likewise the locally computed label equals the badge iff p and r share a band |
| App.BuildPayload | frontend/src/App.jsx:47-56 | `state` is copied verbatim; `month` is the month index plus one, in [1,12]; the six pollutants are the parsed form fields, in order |
| App.ChartShowsSubmittedValues | frontend/src/App.jsx:47-58 | The chart of the submitted `inputData` shows the six parsed form values in chart order |
| App.ReferenceCardMatchesChart | frontend/src/App.jsx:137-142 | The "Optimal Safe Limits" card lists the chart's six safe limits in the chart's order |
| App.App.constructor | frontend/src/App.jsx:10-14 | Initial state: no result, input, error or loading, the message "Connecting to server...", and the idle panel showing |
| App.App.Submit | frontend/src/App.jsx:38-58 | Loading becomes true; error and result are cleared; `inputData` is the payload; the interval counter is not restarted; only the loading panel shows; overlap is recorded when a request is still pending |
| App.App.Complete | frontend/src/App.jsx:60-76 | An ok status with a parsed body makes the body `result` and leaves `error` alone. Any other outcome sets the fixed failure message and leaves `result` alone. Loading always ends. Without overlap, exactly one of results and error shows |
| App.App.Tick | frontend/src/App.jsx:26-36 | While loading, firing n shows `funnyMessages[n mod 5]` and advances the counter; while not loading nothing changes; the invariant is kept |
| App.SubmitThenComplete | frontend/src/App.jsx:166-218 | After one submit and its reply, the results show iff the reply succeeded, the error shows otherwise, the chart comes with the results, and the idle panel never shows again |
| App.OverlappingSubmissions | frontend/src/App.jsx:38-76 | Two overlapping submissions, the first succeeding and the second failing, leave both the results and the error banner showing |
| App.LoadingMessagesCycle | frontend/src/App.jsx:26-36 | The sixth firing of a phase wraps round to the first message; ticks after loading ends change nothing; a new phase starts over at the first message |
| App.ErrorBodyShownAsResult | frontend/src/App.jsx:68-70 | A 200 reply carrying `{"error": …}` becomes the result with no error banner, and its advice is the Severe one |
| App.App.PanelsAgree | frontend/src/App.jsx:166-218 | Under the state invariant: the loading panel hides the results, chart and idle placeholder. The idle placeholder never comes with an error or results. The chart shows exactly with the results. Without overlapping submissions, the error banner never shows beside the loading panel or the results |
| App.App.ShowsLoading | frontend/src/App.jsx:166 | The loading panel's guard `loading`; related to the other panels by `App.App.PanelsAgree` |
| App.App.ShowsError | frontend/src/App.jsx:176 | The error banner's guard: `error` is a non-empty string; related to the other panels by `App.App.PanelsAgree` |
| App.App.ShowsResults | frontend/src/App.jsx:187 | The results guard `result && !loading`; related to the other panels by `App.App.PanelsAgree` |
| App.App.ShowsChart | frontend/src/App.jsx:206 | The chart guard `inputData` inside the results panel; shown exactly with the results by `App.App.PanelsAgree` |
| App.App.ShowsIdle | frontend/src/App.jsx:211 | The idle guard `!result && !inputData && !loading`; `App.SubmitThenComplete` shows it never returns after a submission |
| Backend.FirstMatch | backend/main.py:101-105 | None iff no key matches case-insensitively; otherwise the key at the first matching index |
| Backend.FindCityKey | backend/main.py:101-105 | The loop with early `break` returns the first case-insensitively matching key, or None |
| Backend.LowerFoldsCase | backend/main.py:103 | Lower-casing leaves no upper-case ASCII letter, maps each one to its lower-case partner, keeps every other character, and is idempotent |
| Backend.Get | backend/main.py:110 | The coordinates of a key that is present; None iff the key is absent |
| Backend.UniqueMatch | backend/main.py:101-105 | With case-distinct keys, any matching key is the one the search returns |
| Backend.ExactKeyFound | backend/main.py:101-105 | With case-distinct keys, a name written exactly as a key finds that key |
| Backend.LookupIgnoresOrder | backend/main.py:61-105 | With case-distinct keys, two orderings of the same keys give the same lookup result |
| Backend.GetWeather | backend/main.py:99-124 | Not found: "Coordinates not found for <name>" and no request. Found: the request asks for that key's coordinates. An exception gives its message as `error`. Status 200 gives the temperature, or "N/A" when absent. Any other status gives "Weather API failed" |
| Backend.FeaturesOf | backend/main.py:142-151 | The feature row holds the six pollutants in request order, the month, and the state code of the encoder |
| Backend.FeaturesSeeStateOnlyAsCode | backend/main.py:133-151 | Two requests that differ only in `state` give the same feature row iff their state codes agree, and they always do when there is no encoder or it raises on both |
| Backend.PredictionStatus | backend/main.py:157-162 | The overwrite cascade yields the reference band's label |
| Backend.PredictAqi | backend/main.py:127-170 | No model: HTTP 500 with "Model missing. Git LFS issue?". Otherwise status 200, and the model is called on the feature row whose state code is the encoder's code, or 0 when there is no encoder or it raises. A raising model gives `{"error": msg}`; a prediction p gives `round(p, 2)`, p's band label, and `input_city` equal to `state` |
| Backend.StateIgnoredWithoutEncoder | backend/main.py:127-170 | Without an encoder, two requests that differ only in `state` get the same status code, predicted AQI and status label, and differ only in `input_city` |
| CityTable.CityKeysLowerDistinct | backend/main.py:61-95 | The 30 keys of `CITY_COORDS` are pairwise distinct after lower-casing |
| CityTable.CitiesAreDistinctKeys | frontend/src/components/AQIForm.jsx:8-14 | `cities` has 26 pairwise distinct entries, each a key of `CITY_COORDS` |
| CityTable.SelectableCityFound | backend/main.py:101-108 | The weather lookup for each selectable city finds exactly that city, so it never answers "not found" |
| PollutionChart.Chart | frontend/src/components/PollutionChart.jsx:5-27 | No input gives nothing. Otherwise six points in the order PM2.5, PM10, NO2, CO, SO2, O3. Each user value is the input field unchanged, and each limit is 40/75/30/1/15/40 |
| PollutionChart.Unsafe | frontend/src/components/PollutionChart.jsx:97 | The footer's reading of a bar pair: unsafe when the user value is above the safe limit; `PollutionChart.UnsafeIffAboveLimit` states it on the chart |
| PollutionChart.UnsafeIffAboveLimit | frontend/src/components/PollutionChart.jsx:97 | A point is unsafe iff its submitted value exceeds its limit; the limits do not depend on the input |
| AqiForm.Form.constructor | frontend/src/components/AQIForm.jsx:6 | `temp` starts as null |
| AqiForm.Form.HandleCityChange | frontend/src/components/AQIForm.jsx:16-24 | An empty city makes no request and leaves `temp` unchanged; any other city requests that city's weather. A failed fetch or decode sets `temp` to null. A truthy temperature replaces it. A missing or falsy one leaves it unchanged |
| AqiForm.StaleReadingPersists | frontend/src/components/AQIForm.jsx:22-37 | After a non-zero reading, a later reply with no truthy temperature leaves the earlier reading on the badge |
| AqiForm.ZeroDegreesHidesBadge | frontend/src/components/AQIForm.jsx:22-37 | A reading of exactly 0 shows no badge |
| AqiForm.Form.ShowsBadge | frontend/src/components/AQIForm.jsx:37 | The badge guard: `temp` is truthy; `AqiForm.StaleReadingPersists` and `AqiForm.ZeroDegreesHidesBadge` show when it holds |
| AqiForm.SubmitDisabled | frontend/src/components/AQIForm.jsx:97 | The submit button is disabled exactly while loading; `App.App.Submit` states that an enabled submit from a non-overlapped state leaves no overlap |
| ThemeToggle.InitialTheme | frontend/src/components/ThemeToggle.jsx:7 | The stored theme when non-empty, otherwise "dark"; never empty |
| ThemeToggle.Toggled | frontend/src/components/ThemeToggle.jsx:19 | Always "dark" or "light"; "light" exactly when the theme was "dark" |
| ThemeToggle.ToggleTwice | frontend/src/components/ThemeToggle.jsx:18-20 | Two toggles restore "dark" and "light". From any other value they end at "light". A toggle always changes the theme |
| ThemeToggle.KnobMovesOnClick | frontend/src/components/ThemeToggle.jsx:19-40 | A click always swaps the knob icon and moves the knob, and afterwards the knob sits at one of the two ends |
| ThemeToggle.KnobMatchesRootClass | frontend/src/components/ThemeToggle.jsx:9-40 | Once the effect has run, the moon shows, and the knob sits right, exactly when the root element carries the `dark` class |
| ThemeToggle.Toggle.constructor | frontend/src/components/ThemeToggle.jsx:7-16 | After mounting, the theme is the initial theme, storage holds it under "theme", and the root has `dark` iff the theme is "dark" |
| ThemeToggle.Toggle.ApplyEffect | frontend/src/components/ThemeToggle.jsx:9-16 | The root has the `dark` class iff the theme is "dark", and storage maps "theme" to the theme; nothing else in storage changes |
| ThemeToggle.Toggle.Click | frontend/src/components/ThemeToggle.jsx:18-20 | The theme becomes the toggled value, and the effect keeps storage and class in step |
| ThemeToggle.ChoiceSurvivesReload | frontend/src/components/ThemeToggle.jsx:7-16 | A first visit is dark, a click makes it light, and a reload restores light without the `dark` class |

## Left out

- Backend.PredictAqi: `round(float(prediction), 2)` is a parameter `round2`, and the model says nothing about rounding itself. The API labels the unrounded value, so the card can colour a rounded value across a boundary from the badge; `App.CardAgreesWithBadgeIffSameBand` states exactly when they agree.
- The displayed `Math.round(data.predicted_aqi)` on the result card is not modelled; it affects only the number shown.
- App.BuildPayload: `parseFloat` is a parameter from strings to reals. NaN and partial parses are not modelled, and `new Date().getMonth()` is an input in [0,11].
- Backend.Lower: lower-casing covers ASCII letters only, while Python's `str.lower` is Unicode-wide. The keys of `CITY_COORDS` are ASCII, but `state_name` is arbitrary path text. For example, Python lower-cases U+212A KELVIN SIGN to `k`, so `get_weather("\u212Aochi")` finds Kochi (likewise Karnataka and Kolkata), whereas the model answers "Coordinates not found".
- Backend.GetWeather: the Open-Meteo exchange is an input (`WeatherReply`) and the URL string is not built. Open-Meteo's JSON body is reduced to the `current_weather.temperature` value.
- Backend.FindCityKey: the result is an `Option`, so the `not city_key` test is modelled as "no key found". This is the same test, because no key is empty.
- The ML model and the label encoder are function parameters (`Option` for "not loaded"). Loading them with joblib, the pandas DataFrame, and `model.predict` itself are foreign library calls.
- backend/train_model.py is not part of this model: it is offline training and file I/O with no logic of its own.
- AqiForm.Form.HandleCityChange: a request and its reply are one step. Replies to two quick selections can arrive out of order, so an earlier city's reading can show for the later city; this is not modelled.
- The `fetch` calls and JSON decoding on the frontend are inputs (`PredictReply`, `Option<WeatherBody>`). CORS and server start-up are not modelled.
- The 3000 ms interval is modelled as discrete `Tick` steps. Cancelling the interval when loading ends is modelled as "a tick while not loading changes nothing".
- App.App.Complete: replies to overlapping requests may arrive in any order, and the model lets the caller choose the order. The invariant that result and error never show together is claimed only when no submission overlapped. In the interface, overlap cannot arise, because the submit button is disabled while loading; `App.OverlappingSubmissions` shows what happens without that guard.
- These are not modelled: rendering, animation, icon components, the Tailwind classes except as the literal strings of `getStatusInfo`, and frontend/tailwind.config.js.
- The latitude and longitude values of `CITY_COORDS` are carried in the table but used only as the request's coordinates.
