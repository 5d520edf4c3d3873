# Travel UI decision logic in Dafny

This project models the decision logic of four pages of a React travel
interface and proves properties about them. The network, timers, randomness
and rendering are taken out.

- **Route planner** (`aimaps.dfy`, module `AIMaps`). The user gives two place
  names, and each is geocoded to a coordinate. Three simulated routes are
  built between the two points. Each route has the start and end points and
  one waypoint: the midpoint shifted by `offset × 0.1`, with offsets 0.2,
  -0.2 and 0.5. The routes are listed as cards from a fixed three-entry
  catalogue and drawn as polylines. The selected route is drawn emphasised
  (weight 6, opacity 1, no dash) and the others faded (weight 3, opacity 0.4,
  dash `10, 10`). The page state is the class `RoutePlanner`. The geocoder is
  a parameter `geocode: string -> Option<Coord>`. The click handler is split
  at its awaits into `BeginAnalyze` and `FinishAnalyze`, and `Analyze`
  composes the two.
- **Booking configurator** (`bookings.dfy`, module `Bookings`). It holds a
  40-seat map whose tier and price follow the seat's position, car and stay
  catalogues, and a stays filter. `getSeatColor` is modelled as a category,
  with occupancy tested first. The total is the base price times a party
  factor (family 1.1, friends 0.95), rounded as `Math.round` rounds. The class
  `Configurator` holds the selection and its switch handlers. A switch of
  transport mode clears the seat and the car. A switch of stay type clears
  the room. A switch of booking type clears nothing.
- **Trip wizard** (`plan_trip.dfy`, module `PlanTrip`). `ToggleVibe` updates
  the vibe list as a set. The class `TripWizard` holds the step machine:
  steps 1 to 3, generation, the plan at step 4, and restart.
- **Sign-in identity** (`login.dfy`, module `Login`). The display name is
  derived from the e-mail's local part: it is split at `@`, `.` and `_`
  become spaces, and each word is capitalised. The handle is `@` plus the
  local part, and the redirect target defaults to `/home`. JavaScript's
  `split` and `join` are modelled as written. A per-character
  characterisation of the capitalisation is proved about them.

`wrappers.dfy` holds the `Option` type used for JavaScript's `null`-or-value.

Behaviour of the page a reader might not expect (the model follows the
code):

- Place names are not trimmed. Only the empty string is refused.
- The two lookups run one after the other, and nothing discards a late
  answer from an earlier click; overlapping runs are prevented only by
  disabling the button while `isAnalyzing`.
- An analysis does not clear the previous routes, points or selection. A
  failed lookup leaves them in place, hidden because `showRoutes` is false.
- A successful analysis does not reset the selection to 0. The selection
  changes only on a card click, so it stays within {0, 1, 2}.
- Editing a place name does not reset the session.

## Model

| member | source | states |
|---|---|---|
| `AIMaps.CurvedRoute` | src/pages/AIMaps.jsx:51-60 | three points, first `start`, last `end`; with the offset shift undone, the waypoint is equidistant from both ends in each coordinate |
| `AIMaps.DefaultRouteBendsNowhere` | src/pages/AIMaps.jsx:51-57 | with the default offset 0 the waypoint is the exact midpoint and lies between the endpoints in both coordinates |
| `AIMaps.SamePlaceRoute` | src/pages/AIMaps.jsx:51-59 | `start == end` is no error: the route is `[p, p shifted by offset/10, p]` |
| `AIMaps.RoutesBetween` | src/pages/AIMaps.jsx:82-90 | three routes, route `i` built with offset `[0.2, -0.2, 0.5][i]`; no two routes share a waypoint |
| `AIMaps.MumbaiToPune` | src/pages/AIMaps.jsx:84 | Mumbai (19.076, 72.877) to Pune (18.520, 73.856) with offset 0.2 gives waypoint (18.818, 73.3865) |
| `AIMaps.CatalogueIdsArePositions` | src/pages/AIMaps.jsx:97-128 | three catalogue entries, as many as offsets, each `id` equal to its position |
| `AIMaps.Polylines` | src/pages/AIMaps.jsx:265-276 | one polyline per catalogue entry in order, drawing `routePaths[id]` or no points when missing, in the card's colour; emphasised iff selected, faded iff not |
| `AIMaps.ExactlyOneEmphasised` | src/pages/AIMaps.jsx:270-273 | for a selection in the catalogue, exactly one polyline is emphasised |
| `AIMaps.RoutePlanner.constructor` | src/pages/AIMaps.jsx:22-33 | selection 0, not analysing, routes hidden, no error, empty names, no points, no routes |
| `AIMaps.RoutePlanner.SetSource` | src/pages/AIMaps.jsx:170 | typing sets `source` and nothing else |
| `AIMaps.RoutePlanner.SetDestination` | src/pages/AIMaps.jsx:180 | typing sets `destination` and nothing else |
| `AIMaps.RoutePlanner.AnalyzeEnabled` | src/pages/AIMaps.jsx:193 | the button is enabled only when nothing is being analysed and both names are non-empty, so an enabled click never meets the handler's empty-name guard |
| `AIMaps.RoutePlanner.BeginAnalyze` | src/pages/AIMaps.jsx:63-67 | an empty name returns with nothing changed; otherwise analysing, error cleared, routes hidden; a click on the enabled button always starts; invariant kept |
| `AIMaps.RoutePlanner.FinishAnalyze` | src/pages/AIMaps.jsx:73-94 | a missing point sets the fixed message, stops analysing, keeps routes hidden and the old points and routes; otherwise stores both points, builds the three routes, clears the error and shows routes |
| `AIMaps.RoutePlanner.Analyze` | src/pages/AIMaps.jsx:62-95 | the whole handler with the lookup as an oracle: guard, failure and success outcomes as above; selection and names never change |
| `AIMaps.RoutePlanner.SelectRoute` | src/pages/AIMaps.jsx:210-213 | a card click sets the selection to that card's catalogue id; the selection stays in {0,1,2} |
| `AIMaps.RoutePlanner.MapOverlay` | src/pages/AIMaps.jsx:250-276 | overlays exist iff routes are shown and both points are known; two markers labelled with the names and the catalogue polylines |
| `AIMaps.RoutePlanner.ShownRoutesAreDrawn` | src/pages/AIMaps.jsx:250-276 | in a consistent state, shown routes always have overlays: the three routes between the stored points, only the selected one emphasised |
| `Bookings.TierByPosition` | src/pages/Bookings.jsx:27-28 | premium iff `i % 4 == 0`, standard iff `i % 4 == 2`, eco iff `i` odd; the price always equals the tier's price |
| `Bookings.SeatMap` | src/pages/Bookings.jsx:24-29 | 40 seats, the seat at position `i` has id `i + 1`, the given occupancy, tier by position and its tier's price |
| `Bookings.StaysShown` | src/pages/Bookings.jsx:256-257 | the stays listed are exactly the catalogue stays whose type is the selected stay type; a single stay is listed iff it has that type |
| `Bookings.StaysShownAppend` | src/pages/Bookings.jsx:256-257 | filtering two consecutive parts of the catalogue lists the first part's matches before the second's, so catalogue order and repetitions are kept |
| `Bookings.StaysByType` | src/pages/Bookings.jsx:39-43 | hotels list the Grand Mercure only; hostels list the two hostels |
| `Bookings.SeatColor` | src/pages/Bookings.jsx:47-57 | unavailable iff occupied, even when selected; chosen iff available and selected; otherwise the seat's tier colour |
| `Bookings.Round` | src/pages/Bookings.jsx:72 | the result is within half a unit of the input, halves going up |
| `Bookings.SoloPaysBase` | src/pages/Bookings.jsx:59-72 | a solo total equals the base price; with nothing chosen the total is 0 for every party |
| `Bookings.PartyAdjustmentBounds` | src/pages/Bookings.jsx:68-72 | family totals are at least the base and at most 110% plus one half; friends' totals are at most the base and above 95% minus one half |
| `Bookings.SeatTotals` | src/pages/Bookings.jsx:69-72 | family pays 935/715/495 and friends 808/618/428 for the three seat prices |
| `Bookings.Configurator.constructor` | src/pages/Bookings.jsx:11-19 | transport, bus, hotel, solo, nothing chosen |
| `Bookings.Configurator.SetTravellerType` | src/pages/Bookings.jsx:97 | changes the party only |
| `Bookings.Configurator.SetBookingType` | src/pages/Bookings.jsx:115-125 | changes the booking type and clears no selection |
| `Bookings.Configurator.SetTransportMode` | src/pages/Bookings.jsx:147-151 | changes the mode, clears seat and car, keeps the room |
| `Bookings.Configurator.SetStayType` | src/pages/Bookings.jsx:170-173 | changes the stay type and clears the room only |
| `Bookings.Configurator.ClickSeat` | src/pages/Bookings.jsx:207-210 | an available seat becomes the selection; an occupied one's button is disabled and nothing changes |
| `Bookings.Configurator.ClickCar` | src/pages/Bookings.jsx:230 | the car becomes the selected car, nothing else changes |
| `Bookings.Configurator.ClickStay` | src/pages/Bookings.jsx:261 | the listed stay becomes the selected room, nothing else changes |
| `Bookings.Configurator.CalculateTotal` | src/pages/Bookings.jsx:59-73 | the total is the base price for the current state times the party factor, rounded |
| `Bookings.Configurator.TransportTotalIsChosenItem` | src/pages/Bookings.jsx:59-66 | in a consistent state seat and car are never both chosen; the transport base is the car's price or the chosen seat's listed price; confirm is enabled iff something is chosen |
| `Bookings.Configurator.StaysWithOnlyASeat` | src/pages/Bookings.jsx:331-348 | on the stays tab with any seat chosen and no room, confirm is enabled and the total is 0 |
| `PlanTrip.InitialChoicesNotOffered` | src/pages/PlanTrip.jsx:10-15 | the initial duration and budget are not among the offered options |
| `PlanTrip.Without` | src/pages/PlanTrip.jsx:41 | removes every occurrence of the id and keeps membership of every other id |
| `PlanTrip.ToggleVibe` | src/pages/PlanTrip.jsx:37-44 | flips membership of the id only; an absent id is appended at the end; destination, duration and budget unchanged |
| `PlanTrip.ToggleTwiceRestores` | src/pages/PlanTrip.jsx:40-42 | toggling an absent id twice gives back the original form |
| `PlanTrip.ToggleKeepsDistinct` | src/pages/PlanTrip.jsx:40-42 | a vibe list without repeats stays without repeats |
| `PlanTrip.TripWizard.constructor` | src/pages/PlanTrip.jsx:6-15 | step 1, not loading, the initial form |
| `PlanTrip.TripWizard.Next` | src/pages/PlanTrip.jsx:24-35 | steps 1 and 2 advance by one; step 3 starts loading; the step stays in 1..4 |
| `PlanTrip.TripWizard.GenerationDone` | src/pages/PlanTrip.jsx:30-33 | loading ends on step 4 |
| `PlanTrip.TripWizard.Restart` | src/pages/PlanTrip.jsx:225 | back to step 1; the form is kept |
| `PlanTrip.TripWizard.SetDestination` | src/pages/PlanTrip.jsx:83 | sets the destination only |
| `PlanTrip.TripWizard.SetDuration` | src/pages/PlanTrip.jsx:93 | sets the duration only |
| `PlanTrip.TripWizard.ClickVibe` | src/pages/PlanTrip.jsx:127 | the form becomes its vibe-toggled form |
| `PlanTrip.TripWizard.ChooseBudget` | src/pages/PlanTrip.jsx:169-172 | records the budget and, on step 3, starts loading |
| `Login.Split` | src/pages/Login.jsx:33 | at least one piece; no piece contains the separator; the first piece is the text before the first separator |
| `Login.JoinSplit` | src/pages/Login.jsx:33-37 | joining the pieces of a split on the same separator gives the text back |
| `Login.LocalPart` | src/pages/Login.jsx:33 | the text before the first `@`, or the whole address without one; it contains no `@` |
| `Login.CapitalizeAt` | src/pages/Login.jsx:35-37 | capitalisation keeps the length, upper-cases exactly the word-initial characters and keeps empty words |
| `Login.CapitalizeIdempotent` | src/pages/Login.jsx:36 | capitalising twice is capitalising once |
| `Login.Handle` | src/pages/Login.jsx:39 | `@` followed by the local part |
| `Login.DisplayNameShape` | src/pages/Login.jsx:33-37 | the name has the local part's length; separators become spaces, word-initial letters upper-case, all else unchanged; no `.`, `_` or `@` |
| `Login.DisplayNameIsCapitalized` | src/pages/Login.jsx:36 | capitalising the derived name again changes nothing |
| `Login.MakeUser` | src/pages/Login.jsx:41-45 | the user record carries the raw e-mail with the derived name and handle |
| `Login.RedirectTarget` | src/pages/Login.jsx:18 | the originating path, or `/home` when it is missing or empty |

## Left out

- Geocoding (src/pages/AIMaps.jsx:36-48) is a network call. It is the
  `geocode` parameter. A lookup that parses to `NaN` is not modelled.
- Leaflet interop is not modelled: the marker-icon patch, `FitBounds` with
  its padded `flyToBounds`, the tile URL chosen by theme, and the map
  container.
- Floating point is not modelled. Coordinates are `real`, and the party
  factors are the exact rationals 11/10 and 19/20. For the catalogue prices
  the rounded totals coincide with double arithmetic: the half-way friends'
  seat products, such as 807.5, round to the same double.
- Seat occupancy comes from `Math.random`. It is an input, one status per
  seat. The page redraws it on every render, so a selected seat can look
  occupied on a later render.
- Timers are not modelled. The delayed wizard update is the separate
  transition `GenerationDone`. The sign-in's two delays and its animations
  are left out.
- The auth context, `login`, `navigate`, the effect that redirects a
  signed-in user, framer-motion and all class strings are left out. Seat
  colours are categories. The tier colour's `default` branch cannot be
  reached because tiers are an enumeration.
- `Login.CapitalizeAt`, `Login.DisplayNameShape` and `Login.Upper` use ASCII
  upper-casing only. JavaScript's `toUpperCase` also maps non-ASCII letters
  and can lengthen a string (`ß` becomes `SS`).
- The profile, hidden-gems, home, hero, features, trending, navigation bar
  and routing files hold no decision logic. They are not part of this model.
