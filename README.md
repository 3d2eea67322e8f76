# Commute map: cost estimate and synthetic houses

This project models the two self-contained pieces of logic in a small browser
application that shows an office on a map, scatters synthetic "house" markers
around it, and estimates what commuting from a house would cost.

- `distance.dfy`, module `Distance`: the distance presenter. From one route
  leg it derives the whole days per year spent commuting (260 working days,
  two trips a day) and the yearly fuel cost (10 litres per 100 km at 1.5 per
  litre). When the leg lacks its distance or its duration object it produces
  nothing (`None`). The functions compute what the source writes: the exact
  ratio, then its floor. Their contracts state the same numbers as
  natural-number divisions, `520 * t / 86400` days and `78 * d / 1000` cost.
- `map.dfy`, module `Map`: `generateHouses` as a method whose loop appends
  one house per iteration to a sequence, for 100 houses. The houses are
  specified by the function `HouseAt`. The three ring styles (close, middle,
  far) are constants built from the shared default stroke settings.
  `Math.random` is an explicit sequence of draws, each in [0, 1), taken three
  per house in call order: direction, latitude offset, longitude offset.
- `wrappers.dfy`, module `Wrappers`: the `Option` type, which stands for a
  property that may be `undefined`.

Over exact reals, each house lies strictly within half a degree of the
reference position on both axes. A looser bound of one degree is sometimes
quoted for this generator. The code's formula gives the tighter bound, and
the model follows the code.

## Model

| member | source | states |
|---|---|---|
| `Distance.AnnualDays` | components/distance.tsx:14-16 | the floor of 520·t/86400 computed over exact reals equals the natural-number division `520 * t / 86400` |
| `Distance.AnnualCost` | components/distance.tsx:18-20 | the floor of (d/1000)·(10/100·1.5)·520 computed over exact reals equals `78 * d / 1000` |
| `Distance.Commute` | components/distance.tsx:12-20 | the result is absent exactly when the distance or the duration object is absent; otherwise days is `520 * t / 86400` and cost is `78 * d / 1000` |
| `Distance.ZeroLegIsShown` | components/distance.tsx:12-20 | the guard tests presence, not value: a leg with distance 0 and duration 0 yields days 0 and cost 0 |
| `Distance.WorkedExample` | components/distance.tsx:14-20 | 20000 m and 1800 s give 10 days and a cost of 1560 |
| `Distance.EstimatesAreIndependent` | components/distance.tsx:14-20 | days depends only on the duration value, cost only on the distance value |
| `Distance.DaysAreMonotone` | components/distance.tsx:14-16 | a longer duration never gives fewer days |
| `Distance.CostIsMonotone` | components/distance.tsx:18-20 | a longer distance never gives a smaller cost |
| `Map.GenerateHouses` | components/map.tsx:103-113 | returns exactly 100 houses in loop order; house i is `HouseAt(position, random, i)`, built from draws 3i, 3i+1 and 3i+2; every house is strictly within half a degree of the position |
| `Map.HouseIsNearPosition` | components/map.tsx:106-109 | a house's latitude and longitude are each strictly within 0.5 of the reference position's |
| `Map.HouseOffsetsShareDirection` | components/map.tsx:106-109 | a direction draw below 0.5 makes both offsets non-positive, otherwise both are non-negative |
| `Map.HouseDependsOnItsOwnDraws` | components/map.tsx:105-110 | two draw sequences that agree on draws 3i..3i+2 give the same house i |
| `Map.RingTiers` | components/map.tsx:79-101 | zIndex strictly decreases close, middle, far (3, 2, 1); each ring's stroke colour equals its fill colour; the three colours differ; every fill opacity is 0.05 |
| `Map.RingsInheritDefaults` | components/map.tsx:70-101 | every ring carries the default stroke settings unchanged: opacity 0.5, weight 2, not clickable, draggable or editable, visible |

## Left out

- Floating point: values and arithmetic are exact (natural numbers and reals). IEEE-754 effects are not modelled; for example, `10 / 100 * 1.5` is not exactly 0.15 in the source.
- GenerateHouses, HouseIsNearPosition: the strict half-degree bound holds over exact reals only. With IEEE-754 doubles the sum `position.lat + Math.random() / direction` can round to exactly the position plus or minus 0.5 (latitude 43 with a draw of 1 - 2^-52 gives exactly 43.5), but never beyond it, so a one-degree bound is loose either way.
- `Math.random` itself: it is replaced by the sequence of draws the generator consumes, each in [0, 1).
- Display: the pass-through of the distance and duration texts, the locale formatting of the cost (`Intl.NumberFormat`), the `console.log` of the leg, and all JSX output (components/distance.tsx:22-33).
- The `Map` component's React state and rendering: `useState` for the office, `useRef` for the map handle, `useMemo` for the centre and options, `useCallback` for `onLoad`, the `Places` widget and the `panTo` call (components/map.tsx:18-67). These are UI and mapping-SDK plumbing with no logic of their own.
- Routing, radius circles and marker clustering: the component as written renders no route, circle or cluster and never calls `generateHouses`, so only the ring style records and the generator are modelled.
- Script loading in pages/index.tsx: it only waits for the mapping SDK to load with an API key from the environment.
