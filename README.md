# Gate quote engine — a verified model

Ancora-portas prices roll-up gates. For each order the calculator reads the gate's width,
height and roll allowance, the quantity and the profile. It also reads the motor and axle
mode (automatic or manual) and the ticked optional items. From these it computes:

- the curtain area of one gate and of the whole order;
- the weight of one gate;
- the motor and the axle (the cheapest one that fits, or the one picked by id);
- the base, hardware and optional prices, the total and the price per gate;
- whether the quote can be saved.

The data service keeps the catalog (profiles, motors, axles, optionals) and the saved
quotes. Without a backend, these live in in-memory arrays that its operations change in
place. With a backend, saving a quote takes three inserts in a row: the client, then the
quote, then the quote–optional links.

The project has four modules:

- `Types` (`types.dfy`): the records of `types.ts` and its two closed string unions.
  - `Profile`, `Motor`, `Axle` and `OptionalItem` (types.ts:1-27) are plain records.
  - `unit_type` (`'fixed' | 'per_m2'`) and `status` (`'pending' | 'approved'`) become the
    enumerations `UnitType` and `Status`; `UnitTypeName` and `StatusName` give back their strings.
  - `Client` (types.ts:29-36) has an optional `id` and `created_at`, which the store fills in (`Stamped`).
  - `Quote` (types.ts:38-61): fields marked `?` are `Option`s, and so are the nullable `motor_id` and
    `axle_id`. The display-only joined fields are dropped.
  - `QuoteData` is the record the calculator builds at components/QuoteCalculator.tsx:167-176.
- `ArrayOps` (`array_ops.dfy`): the `Array.prototype` operations the code relies on, as
  functions on sequences. These are `findIndex`, `find`, `filter`, a stable comparator
  `sort` and `splice(i, 1)`.
- `QuoteCalculator` (`quote_calculator.dfy`): the `calculationResult` computation and
  `toggleOptional`.
  - Selection and pricing are functions.
  - The optionals `forEach` pass is a loop method, proved equal to its recursive definition.
  - `CalculateQuote` is the whole computation as a method, proved equal to `Calculation`.
- `SupabaseService` (`supabase_service.dfy`): two classes.
  - `MockDataService` is the in-memory store. Its sequence fields are the module-level
    arrays, and its methods are the `get*`, `add*`, `delete*`, `updateQuoteStatus`,
    `deleteQuote` and `saveQuote` branches.
  - `SupabaseStore` is a backend whose inserts may fail, with the three-step `saveQuote`.

Modelling choices:

- Money, lengths and weights are `real`; the quantity is an `int`.
- Identifiers (`Math.random`) and timestamps (`new Date()`) are parameters.
- The sort comparator `cmp` becomes `le(a, b)`, meaning `cmp(a, b) <= 0`. The sort is an
  insertion sort that keeps tied elements in their original order, as `Array.prototype.sort` does.

Where the code guarantees less than one might expect, the model states what the code does:

- The backend save is not all-or-nothing. A failed step leaves the rows written before it.
- `updateQuoteStatus` accepts `pending` as well as `approved`, so an approval can be undone.
- Out-of-range dimensions are not rejected before pricing. A width, height or quantity that is
  not positive only makes `isValid` false. The roll is never checked, so a negative roll, even
  one with `height + roll < 0`, still gives a valid quote with a negative area and price.
- The in-memory `deleteQuote` removes the quote alone. That store never keeps optional links.

## Model

| member | source | states |
|---|---|---|
| Types.UnitTypeName | types.ts:26 | the string each `UnitType` stands for: `fixed` or `per_m2` |
| Types.ParseUnitType | types.ts:26 | a `unit_type` string is read back exactly when it is `fixed` or `per_m2` |
| Types.UnitTypeNameRoundTrip | types.ts:26 | the enumeration and the string union are the same two values: each name reads back as its member, and each accepted string is a member's name |
| Types.StatusName | types.ts:52 | the string each `Status` stands for: `pending` or `approved` |
| Types.ParseStatus | types.ts:52 | a `status` string is read back exactly when it is `pending` or `approved` |
| Types.StatusNameRoundTrip | types.ts:52 | the enumeration and the string union are the same two values, both ways |
| Types.Stamped | types.ts:29-36 | a client given an id and a timestamp has both present and keeps its name, email, phone and address; used for `{ ...client, id, created_at }` at services/supabaseService.ts:195 and for the row the backend returns |
| Types.DataOf | types.ts:42-51 | the eight fields a stored quote shares with `quoteData`; MockQuote and QuoteRow state that they are stored unchanged |
| Types.ProfileHasId | components/QuoteCalculator.tsx:69 | the `p => p.id === id` callback: a profile matches exactly when its id is the given one (also at services/supabaseService.ts:140) |
| Types.MotorHasId | components/QuoteCalculator.tsx:88 | the `m => m.id === id` callback: a motor matches exactly when its id is the given one (also at services/supabaseService.ts:149) |
| Types.AxleHasId | components/QuoteCalculator.tsx:101 | the `a => a.id === id` callback: an axle matches exactly when its id is the given one (also at services/supabaseService.ts:158) |
| Types.OptionalHasId | services/supabaseService.ts:167 | the `p => p.id === id` callback over optionals |
| Types.QuoteHasId | services/supabaseService.ts:173-184 | the `q => q.id === id` callback: a quote without an id never matches |
| ArrayOps.FindIndex | services/supabaseService.ts:140 | -1 exactly when no element matches; otherwise the index of a matching element with no match before it |
| ArrayOps.Find | components/QuoteCalculator.tsx:69 | none exactly when no element matches; otherwise the earliest matching element |
| ArrayOps.Filter | components/QuoteCalculator.tsx:83-84 | the result holds exactly the input's elements that satisfy the predicate, and is no longer than the input |
| ArrayOps.FilterSnoc | components/QuoteCalculator.tsx:83-84 | filtering keeps the input order: filtering `s + [x]` is filtering `s`, then `x` if it satisfies the predicate |
| ArrayOps.RemoveFirst | services/supabaseService.ts:140 | the sequence is unchanged exactly when no element matches; otherwise the first match is cut out and the others keep their order |
| ArrayOps.RemoveFirstOfUnique | services/supabaseService.ts:183-184 | when at most one element matches, no match is left after the removal |
| ArrayOps.InsertInOrder | components/QuoteCalculator.tsx:85 | inserting `x` gives a permutation of the input plus `x`, one element longer, headed by `x` exactly when `x` may precede the old head |
| ArrayOps.StableSort | components/QuoteCalculator.tsx:85 | the sorted copy is a permutation of the input |
| ArrayOps.InsertInOrderSorted | components/QuoteCalculator.tsx:85 | for a consistent comparator, inserting into an ordered sequence keeps it ordered |
| ArrayOps.StableSortSorted | components/QuoteCalculator.tsx:85 | for a consistent comparator (a total preorder) the sorted copy is ordered |
| ArrayOps.TiesWith | components/QuoteCalculator.tsx:85 | the elements the comparator ties with `x`: each may be placed ahead of the other |
| ArrayOps.FilterCons | components/QuoteCalculator.tsx:83-84 | filtering a sequence headed by `a` keeps `a` exactly when it satisfies the predicate, ahead of the filtered rest |
| ArrayOps.InsertInOrderKeepsTies | components/QuoteCalculator.tsx:85 | for a consistent comparator, inserting `y` leaves the elements tied with any `x` in the order they have in `[y] + u` |
| ArrayOps.StableSortKeepsTies | components/QuoteCalculator.tsx:85 | for a consistent comparator, the sort is stable: the elements tied with any `x` come out in their input order |
| QuoteCalculator.CheapestFit | components/QuoteCalculator.tsx:81-86 | reference for automatic choice: -1 exactly when nothing fits; otherwise an element that fits, costs no more than any fitting element and is strictly cheaper than every fitting element before it |
| QuoteCalculator.ByPrice | components/QuoteCalculator.tsx:85 | the comparator `(a, b) => a.price - b.price` read as an ordering: `a` may stay ahead of `b` exactly when its price is no greater (the same comparator sorts the axles at line 97) |
| QuoteCalculator.Carries | components/QuoteCalculator.tsx:84 | a motor fits exactly when its `max_weight` is at least the weight of one gate |
| QuoteCalculator.Spans | components/QuoteCalculator.tsx:96 | an axle fits exactly when its `max_width` is at least the gate width |
| QuoteCalculator.MotorPrice | components/QuoteCalculator.tsx:85 | the key `ByPrice` compares motors by: the motor's `price` |
| QuoteCalculator.AxlePrice | components/QuoteCalculator.tsx:97 | the key `ByPrice` compares axles by: the axle's `price` |
| QuoteCalculator.AutoSelect | components/QuoteCalculator.tsx:83-86 | `filter(fits)`, a stable sort by price and `[0]`: none exactly when no element fits; otherwise an element of the input that fits (which one is stated by AutoSelectIsCheapestFit) |
| QuoteCalculator.AutoSelectIsCheapestFit | components/QuoteCalculator.tsx:83-86 | `filter(fits)`, then a stable sort by price, then the head picks exactly the reference's element (none when nothing fits) |
| QuoteCalculator.SelectMotor | components/QuoteCalculator.tsx:80-89 | the motor for one gate's weight is a catalog motor; in automatic mode it can lift that weight, in manual mode it has the manual id |
| QuoteCalculator.SelectAxle | components/QuoteCalculator.tsx:92-102 | the axle is a catalog axle; in automatic mode it spans the width, in manual mode it has the manual id |
| QuoteCalculator.AutoMotorIsCheapestFit | components/QuoteCalculator.tsx:81-86 | automatic motor: none exactly when no motor has `max_weight >= gateWeight`; otherwise a catalog motor that can lift the gate, costs no more than any motor that can, and is the earliest of the equally cheap |
| QuoteCalculator.ManualMotorIsFirstWithId | components/QuoteCalculator.tsx:87-88 | manual motor: the first catalog motor with the id, whatever its capacity; none when the id is absent |
| QuoteCalculator.AutoAxleIsCheapestFit | components/QuoteCalculator.tsx:93-98 | automatic axle: none exactly when no axle has `max_width >= width`; otherwise a fitting catalog axle, no dearer than any fitting one, the earliest of the equally cheap |
| QuoteCalculator.ManualAxleIsFirstWithId | components/QuoteCalculator.tsx:99-101 | manual axle: the first catalog axle with the id, whatever its width; none when absent |
| QuoteCalculator.PriceOptionals | components/QuoteCalculator.tsx:110-124 | the `forEach` loop ends with the itemised list of the recursive definition, and with a running total equal to the sum of its prices |
| QuoteCalculator.OptionalDetails | components/QuoteCalculator.tsx:110-124 | the itemised list as a recursive definition over the catalog optionals; its content is stated by OptionalDetailsFollowCatalog |
| QuoteCalculator.OptionalCharge | components/QuoteCalculator.tsx:115-120 | the charge of one ticked optional: `price * totalArea` for a `per_m2` item, `price * quantity` for any other |
| QuoteCalculator.Ticked | components/QuoteCalculator.tsx:114 | `selectedOptionalIds.has(opt.id)`: an optional is priced exactly when its id is in the selected set |
| QuoteCalculator.SumPrices | components/QuoteCalculator.tsx:111-121 | the sum of the itemised prices, which is what the loop accumulates into `optionalsTotal` |
| QuoteCalculator.OptionalDetailsFollowCatalog | components/QuoteCalculator.tsx:113-123 | the itemised list has one entry per ticked catalog optional, in catalog order, named after it and priced `price * totalArea` for `per_m2`, `price * quantity` otherwise |
| QuoteCalculator.OptionalsTotalIsSelectedCharges | components/QuoteCalculator.tsx:110-124 | `optionalsTotal` equals the independent sum over the catalog in which unticked optionals contribute nothing |
| QuoteCalculator.SelectedChargesScale | components/QuoteCalculator.tsx:116-120 | for the same gate size, the optionals' charges for `quantity` gates are `quantity` times those for one gate, for `per_m2` and fixed items alike |
| QuoteCalculator.PerGate | components/QuoteCalculator.tsx:127 | the per-gate price is absent exactly when the quantity is 0 (where the division gives no finite number) |
| QuoteCalculator.PerGateShare | components/QuoteCalculator.tsx:127 | a per-gate price, when present, times the quantity gives back the total |
| QuoteCalculator.AreaPerGate | components/QuoteCalculator.tsx:73 | the curtain area of one gate, `(height + roll) * width`; Calculation states it of the result |
| QuoteCalculator.TotalArea | components/QuoteCalculator.tsx:74 | the area per gate times the quantity; CalculationPricesAddUp states it of the result |
| QuoteCalculator.GateWeight | components/QuoteCalculator.tsx:77 | the weight of one gate, the area per gate times the profile's `weight_per_m2`; SelectionIgnoresQuantity shows it does not depend on the quantity |
| QuoteCalculator.Assemble | components/QuoteCalculator.tsx:105-144 | the price fields and the record for given selections and optionals pass; AssemblePricesAddUp states how its figures add up |
| QuoteCalculator.AssemblePricesAddUp | components/QuoteCalculator.tsx:105-127 | every assembled record satisfies `PricesAddUp`: hardware at unit price times quantity (0 when unresolved), the total as the sum of the four parts, the per-gate price present exactly for a non-zero quantity |
| QuoteCalculator.Priced | components/QuoteCalculator.tsx:72-144 | the result for a found profile: hardware selected for that profile's gate weight and the width, the optionals pass on the total area, then Assemble |
| QuoteCalculator.PricedIsPricedWith | components/QuoteCalculator.tsx:73-124 | the result for a profile satisfies `PricedWith`: the area, weight and base-price formulas, the motor and axle selections, the optionals pass and the validity predicate |
| QuoteCalculator.Calculation | components/QuoteCalculator.tsx:68-143 | the result is null exactly when no catalog profile has the selected id; otherwise, for the first profile with that id: area per gate `(height + roll) * width`, total area that times the quantity, gate weight `areaPerGate * weight_per_m2`, base price `totalArea * price_per_m2`, the motor `SelectMotor` picks for that weight, the axle `SelectAxle` picks for the width, the optionals pass on the total area, the profile's name, and `isValid` as at line 143 |
| QuoteCalculator.PricedWithDetermines | components/QuoteCalculator.tsx:72-144 | the formulas of Calculation and PricesAddUp fix every field: a record satisfying both for a profile is exactly the calculator's result for it |
| QuoteCalculator.CalculateQuote | components/QuoteCalculator.tsx:68-145 | the step-by-step computation (find the profile, select hardware, run the optionals pass, assemble) yields `Calculation`'s result |
| QuoteCalculator.SelectionIgnoresQuantity | components/QuoteCalculator.tsx:73-101 | the area per gate, the gate weight, the motor and the axle are the same whatever the quantity |
| QuoteCalculator.WeightIgnoresQuantity | components/QuoteCalculator.tsx:73-77 | the area per gate and the gate weight are the same for any quantity |
| QuoteCalculator.AreaScales | components/QuoteCalculator.tsx:73-74 | the total area is the quantity times the total area of a single gate |
| QuoteCalculator.ChargeScales | components/QuoteCalculator.tsx:116-120 | one optional's charge on `quantity` gates is `quantity` times its charge on one gate, for both unit types |
| QuoteCalculator.CalculationPricesAddUp | components/QuoteCalculator.tsx:74-127 | total area is area per gate times quantity; motor and axle cost their price times quantity, or 0 when unresolved; the total is base + motor + axle + optionals; the per-gate price exists exactly for a non-zero quantity and times the quantity gives the total |
| QuoteCalculator.TotalPriceLinearInQuantity | components/QuoteCalculator.tsx:105-126 | with every other input fixed, the total for `quantity` gates is `quantity` times the total for one gate |
| QuoteCalculator.PricePerGateIsSingleGateTotal | components/QuoteCalculator.tsx:126-127 | for a non-zero quantity, the price per gate is exactly the total of the same order for a single gate |
| QuoteCalculator.ValidityMeansResolvable | components/QuoteCalculator.tsx:143 | `isValid` holds exactly when width, height and quantity are positive, and a motor and an axle can be resolved (by capacity in automatic mode, by id in manual mode) |
| QuoteCalculator.ToggleOptional | components/QuoteCalculator.tsx:147-152 | the toggled id's membership flips and every other id's membership is kept |
| QuoteCalculator.ToggleTwiceRestores | components/QuoteCalculator.tsx:147-152 | toggling the same id twice gives back the original selection |
| QuoteCalculator.StoredId | components/QuoteCalculator.tsx:173-174 | the id stored for a selection: null exactly when nothing was selected or its id is the empty string (which JavaScript treats as false), otherwise that id |
| QuoteCalculator.QuoteDataFor | components/QuoteCalculator.tsx:167-176 | the `quoteData` record: the dimensions, quantity and profile id as entered, the stored motor and axle ids, and the computed total |
| QuoteCalculator.StoredMotorIdRoundTrip | components/QuoteCalculator.tsx:167-176 | the saved `motor_id` is null exactly when no motor is resolved (or its id is empty); otherwise, with distinct catalog ids, looking it up gives back the priced motor; the saved `total_price` is the computed total |
| QuoteCalculator.StoredAxleIdRoundTrip | components/QuoteCalculator.tsx:167-176 | the same for `axle_id` and the priced axle |
| QuoteCalculator.ExampleSingleGate | components/QuoteCalculator.tsx:73-143 | 2 m × (2 m + 0.4 m roll), profile at 250/m² and 10 kg/m²: the gate weighs 48 kg, the 200 kg motor at 1200 is chosen, the base is 1200, the total 2400, and with no axle the quote is not valid |
| QuoteCalculator.ExampleThreeGates | components/QuoteCalculator.tsx:73-127 | the same gate three times: total area 14.4, base 3600, motors 3600, total 7200, 2400 per gate |
| QuoteCalculator.ExamplePerAreaOptional | components/QuoteCalculator.tsx:110-126 | painting at 50 per m² on those three gates is itemised at 720 and makes the total 7920 |
| QuoteCalculator.ExampleNegativeRoll | components/QuoteCalculator.tsx:73-143 | the roll is never checked: 2 m wide, 1 m high, roll -2 m gives an area of -2 m², a base of -500, a total of -300, and `isValid` is still true |
| SupabaseService.NewestFirstIsTotalPreorder | services/supabaseService.ts:122 | the listing comparator is consistent: any two quotes compare, and the order is transitive |
| SupabaseService.CreatedAtKey | services/supabaseService.ts:122 | the sort key of a quote: its timestamp, or the empty string when it has none |
| SupabaseService.LexLeq | services/supabaseService.ts:122 | the string order `localeCompare` is modelled by: character-code order, a prefix first |
| SupabaseService.LexLeqTotal | services/supabaseService.ts:122 | any two strings compare one way or the other |
| SupabaseService.LexLeqTransitive | services/supabaseService.ts:122 | the string order is transitive |
| SupabaseService.NewestFirst | services/supabaseService.ts:122 | the listing comparator: `a` may stay ahead of `b` when `b`'s key does not sort after `a`'s |
| SupabaseService.SortedForListing | services/supabaseService.ts:122 | the sorted copy holds exactly the stored quotes; its order is stated by ListingIsNewestFirst |
| SupabaseService.ListingIsNewestFirst | services/supabaseService.ts:119-123 | the listing is a permutation of the stored quotes, ordered by `created_at` descending, with a missing timestamp read as the empty string |
| SupabaseService.ListingKeepsTies | services/supabaseService.ts:122 | quotes whose timestamps sort equal keep, in the listing, the order in which they are stored |
| SupabaseService.MockQuote | services/supabaseService.ts:194-206 | the pushed quote carries every `quoteData` field unchanged (the total as given), the new quote and client ids, the client's name, a pending status and the quote timestamp; its embedded client is the given client with the new id and the client timestamp, every other client field unchanged; `auto_motor` and the optional ids are not set |
| SupabaseService.SetStatusOfFirst | services/supabaseService.ts:172-177 | the quote list keeps its length; an unknown id changes nothing; otherwise only the first quote with the id changes, and only in its status |
| SupabaseService.SetStatusLastWins | services/supabaseService.ts:172-177 | the last status written wins: approving twice equals approving once, and setting a quote back to pending after approval is accepted |
| SupabaseService.DeletedQuoteNotListed | services/supabaseService.ts:181-186 | with distinct quote ids, the listing after `deleteQuote(id)` shows no quote with that id |
| SupabaseService.MockDataService.constructor | services/supabaseService.ts:16-42 | the store starts with the seed catalog (3 profiles, 4 motors, 3 axles, 4 optionals) and no quotes |
| SupabaseService.MockDataService.GetProfiles | services/supabaseService.ts:91-92 | returns the stored profiles as a value that later store changes do not affect |
| SupabaseService.MockDataService.GetMotors | services/supabaseService.ts:98-99 | returns the stored motors as a value |
| SupabaseService.MockDataService.GetAxles | services/supabaseService.ts:105-106 | returns the stored axles as a value |
| SupabaseService.MockDataService.GetOptionals | services/supabaseService.ts:112-113 | returns the stored optionals as a value |
| SupabaseService.MockDataService.GetQuotes | services/supabaseService.ts:119-123 | returns a permutation of the stored quotes, newest first, each with an id, a client link and a status; the store itself is not reordered |
| SupabaseService.MockDataService.AddProfile | services/supabaseService.ts:135-136 | appends exactly one profile: the given fields with the new id |
| SupabaseService.MockDataService.DeleteProfile | services/supabaseService.ts:139-140 | removes only the first profile with the id, or nothing when absent |
| SupabaseService.MockDataService.AddMotor | services/supabaseService.ts:144-145 | appends exactly one motor with the new id |
| SupabaseService.MockDataService.DeleteMotor | services/supabaseService.ts:148-149 | removes only the first motor with the id, or nothing |
| SupabaseService.MockDataService.AddAxle | services/supabaseService.ts:153-154 | appends exactly one axle with the new id |
| SupabaseService.MockDataService.DeleteAxle | services/supabaseService.ts:157-158 | removes only the first axle with the id, or nothing |
| SupabaseService.MockDataService.AddOptional | services/supabaseService.ts:162-163 | appends exactly one optional with the new id |
| SupabaseService.MockDataService.DeleteOptional | services/supabaseService.ts:166-167 | removes only the first optional with the id, or nothing |
| SupabaseService.MockDataService.UpdateQuoteStatus | services/supabaseService.ts:172-177 | the quotes become `SetStatusOfFirst` of the old quotes; every stored quote still has an id, a client link and a status |
| SupabaseService.MockDataService.DeleteQuote | services/supabaseService.ts:181-186 | splices out only the first quote with the id, the rest in order; an unknown id changes nothing; stored quotes stay well-formed |
| SupabaseService.MockDataService.SaveQuote | services/supabaseService.ts:191-210 | the quote list grows by exactly the one quote `MockQuote` describes; the call reports success with the new quote's id |
| SupabaseService.LinkRows | services/supabaseService.ts:239-243 | one junction row per optional id, in order, each pointing at the quote |
| SupabaseService.QuoteRow | services/supabaseService.ts:227-231 | the quote row sent to the backend carries every `quoteData` field with the total as given, the client link and a pending status; it has no id, timestamp or embedded client yet, and `customer_name`, `auto_motor` and the optional ids are not sent |
| SupabaseService.SupabaseStore.constructor | services/supabaseService.ts:213-257 | an empty backend whose inserts into the `rejecting` tables fail |
| SupabaseService.SupabaseStore.InsertClient | services/supabaseService.ts:215-222 | a rejected insert returns the error and stores nothing; otherwise it stores and returns the client with its assigned id and timestamp |
| SupabaseService.SupabaseStore.InsertQuote | services/supabaseService.ts:225-236 | a rejected insert returns the error and stores nothing; otherwise it stores and returns the row with its assigned id and timestamp |
| SupabaseService.SupabaseStore.InsertQuoteOptionals | services/supabaseService.ts:245-249 | a rejected multi-row insert stores none of the rows; otherwise it stores all of them |
| SupabaseService.SupabaseStore.SaveQuote | services/supabaseService.ts:213-257 | client, then quote, then links (only when optionals were ticked), each stamped by its own insert; the first failure is the result and no later step runs; rows already written stay (an orphan client when the quote fails; client and quote when the links fail); on success all three are stored and the new quote id is returned |

## Left out

- The React screens, the JSX and `generatePDF`: layout and text formatting, no pricing logic.
- Authentication (`signIn`, `signUp`, `signOut`, `getSession`, `resetPassword`): `localStorage` and backend calls.
- The backend branches of `get*`, `add*`, `delete*`, `updateQuoteStatus` and `deleteQuote`. Each is one foreign query. Only the three-step save is modelled, over an abstract store.
- `await delay(...)`, `Promise`s and the `useEffect` loading: asynchrony, not logic.
- IEEE floating point, rounding, and the `NaN` that `parseFloat`/`parseInt` give on empty input. Numbers are exact reals and well formed.
- A quantity of 0 makes JavaScript's `totalPrice / quantity` not finite. The model returns no per-gate price there.
- `localeCompare`'s locale collation: timestamps are compared by character code. ISO timestamps order the same way under both.
- Fresh identifiers: `Math.random` ids are parameters and are not assumed fresh. Lemmas that need distinct ids state that as a precondition.
- The in-memory `saveQuote` calls `new Date()` twice, once for the client and once for the quote. Both timestamps are parameters.
- Aliasing: `[...MOCK_QUOTES]` copies the array, not the quote objects. `updateQuoteStatus` then changes an object that a listing taken earlier also shows. The model stores quotes as values, so an earlier listing keeps its old status.
- The quote's display-only fields (`total_area`, `total_weight`, `calculated_motor`, `calculated_axle`): the core never writes them.
- `quoteData` is typed `any`. It is modelled as the eight fields the calculator passes.
- Fields a save never sets are modelled as empty:
  - `auto_motor` and `selected_optionals` are absent from the in-memory quote and are not sent with the backend quote row; in both the model uses `false` and no ids.
  - `customer_name` is not sent with the backend quote row; the model uses the empty string.
- The backend's own ordering and client join in `getQuotes`: these are database behaviour.
