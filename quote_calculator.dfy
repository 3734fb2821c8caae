/**
 * The quote engine of components/QuoteCalculator.tsx: hardware selection, pricing,
 * the validity predicate, the optional-set toggle and the record handed to `saveQuote`.
 */
module QuoteCalculator {
  import opened Types
  import opened ArrayOps

  // ---------------------------------------------------------------------------
  // Hardware selection
  // ---------------------------------------------------------------------------

  /** The comparator `(a, b) => a.price - b.price`, as "a may stay ahead of b". */
  function ByPrice<T>(price: T -> real): (T, T) -> bool
  {
    (a: T, b: T) => price(a) <= price(b)
  }

  /** Automatic selection: `s.filter(fits).sort(byPrice)[0]`, none when nothing fits. */
  function AutoSelect<T(!new)>(s: seq<T>, fits: T -> bool, price: T -> real): (r: Option<T>)
    ensures r.None? <==> forall x :: x in s ==> !fits(x)
    ensures r.Some? ==> r.value in s && fits(r.value)
  {
    var f := Filter(s, fits);
    var v := StableSort(f, ByPrice(price));
    assert |v| > 0 ==> v[0] in multiset(f);
    assert forall x :: x in s && fits(x) ==> x in f;
    assert |v| == |f|;
    assert |v| == 0 ==> forall x :: x in s ==> !fits(x);
    assert |v| > 0 ==> v[0] in s && fits(v[0]);
    if |v| > 0 then Some(v[0]) else None
  }

  /**
   * Reference for automatic selection, written independently of sorting: the index of
   * the cheapest element that fits, the earliest among equally cheap ones, or -1.
   */
  function CheapestFit<T>(s: seq<T>, fits: T -> bool, price: T -> real): (r: int)
    ensures -1 <= r < |s|
    ensures r == -1 <==> forall k :: 0 <= k < |s| ==> !fits(s[k])
    ensures 0 <= r ==> fits(s[r])
    ensures 0 <= r ==> forall k :: 0 <= k < |s| && fits(s[k]) ==> price(s[r]) <= price(s[k])
    ensures 0 <= r ==> forall k :: 0 <= k < r && fits(s[k]) ==> price(s[r]) < price(s[k])
  {
    if s == [] then -1
    else
      var i := CheapestFit(s[1..], fits, price);
      if !fits(s[0]) then (if i == -1 then -1 else i + 1)
      else if i == -1 || price(s[0]) <= price(s[i + 1]) then 0
      else i + 1
  }

  /** Filtering and then stable-sorting by price picks exactly the reference's element. */
  lemma {:induction false} AutoSelectIsCheapestFit<T(!new)>(s: seq<T>, fits: T -> bool, price: T -> real)
    ensures AutoSelect(s, fits, price) ==
            var i := CheapestFit(s, fits, price); if i == -1 then None else Some(s[i])
  {
    if s != [] {
      AutoSelectIsCheapestFit(s[1..], fits, price);
      AutoSelectCons(s, fits, price);
    }
  }

  /** One step of automatic selection: a fitting head is kept unless a strictly cheaper one follows. */
  lemma AutoSelectCons<T(!new)>(s: seq<T>, fits: T -> bool, price: T -> real)
    requires s != []
    ensures var tail := AutoSelect(s[1..], fits, price);
            AutoSelect(s, fits, price) ==
              if !fits(s[0]) then tail
              else if tail.None? || price(s[0]) <= price(tail.value) then Some(s[0])
              else tail
  {
    var rest := Filter(s[1..], fits);
    if fits(s[0]) {
      assert Filter(s, fits) == [s[0]] + rest;
      assert ([s[0]] + rest)[1..] == rest;
    } else {
      assert Filter(s, fits) == rest;
    }
  }

  /** The sort key of `(a, b) => a.price - b.price` over motors. */
  function MotorPrice(m: Motor): real { m.price }

  /** The same key over axles. */
  function AxlePrice(a: Axle): real { a.price }

  /** `m.max_weight >= gateWeight`: the motor can lift one gate. */
  function Carries(gateWeight: real): Motor -> bool
  {
    (m: Motor) => m.max_weight >= gateWeight
  }

  /** `a.max_width >= width`: the axle spans the gate. */
  function Spans(width: real): Axle -> bool
  {
    (a: Axle) => a.max_width >= width
  }

  /** The motor for one gate of weight `gateWeight`: automatic, or by manual id without a capacity check. */
  function SelectMotor(motors: seq<Motor>, gateWeight: real, auto: bool, manualId: string): (r: Option<Motor>)
    ensures r.Some? ==> r.value in motors
    ensures r.Some? && auto ==> r.value.max_weight >= gateWeight
    ensures r.Some? && !auto ==> r.value.id == manualId
  {
    if auto then AutoSelect(motors, Carries(gateWeight), MotorPrice) else Find(motors, MotorHasId(manualId))
  }

  /**
   * Automatic motor choice: none exactly when no motor can lift the gate; otherwise a motor
   * that can, priced no higher than any other that can, and the first such in catalog order.
   */
  lemma AutoMotorIsCheapestFit(motors: seq<Motor>, gateWeight: real, manualId: string)
    ensures var r := SelectMotor(motors, gateWeight, true, manualId);
            r.None? <==> forall k :: 0 <= k < |motors| ==> motors[k].max_weight < gateWeight
    ensures var r := SelectMotor(motors, gateWeight, true, manualId);
            r.Some? ==>
              && r.value.max_weight >= gateWeight
              && (forall k :: 0 <= k < |motors| && motors[k].max_weight >= gateWeight ==>
                                r.value.price <= motors[k].price)
              && exists j :: 0 <= j < |motors| && motors[j] == r.value &&
                             forall k :: 0 <= k < j && motors[k].max_weight >= gateWeight ==>
                                           r.value.price < motors[k].price
  {
    AutoSelectIsCheapestFit(motors, Carries(gateWeight), MotorPrice);
    var i := CheapestFit(motors, Carries(gateWeight), MotorPrice);
    assert SelectMotor(motors, gateWeight, true, manualId) == if i == -1 then None else Some(motors[i]);
  }

  /** Manual motor choice: the first motor with the given id, whatever its capacity, or none. */
  lemma ManualMotorIsFirstWithId(motors: seq<Motor>, gateWeight: real, manualId: string)
    ensures var r := SelectMotor(motors, gateWeight, false, manualId);
            r.None? <==> forall k :: 0 <= k < |motors| ==> motors[k].id != manualId
    ensures var r := SelectMotor(motors, gateWeight, false, manualId);
            r.Some? ==> exists j :: 0 <= j < |motors| && motors[j] == r.value && r.value.id == manualId &&
                                    forall k :: 0 <= k < j ==> motors[k].id != manualId
  {
  }

  /** The axle for a gate of width `width`: automatic, or by manual id without a capacity check. */
  function SelectAxle(axles: seq<Axle>, width: real, auto: bool, manualId: string): (r: Option<Axle>)
    ensures r.Some? ==> r.value in axles
    ensures r.Some? && auto ==> r.value.max_width >= width
    ensures r.Some? && !auto ==> r.value.id == manualId
  {
    if auto then AutoSelect(axles, Spans(width), AxlePrice) else Find(axles, AxleHasId(manualId))
  }

  /**
   * Automatic axle choice: none exactly when no axle spans the width; otherwise an axle
   * that does, priced no higher than any other that does, and the first such in catalog order.
   */
  lemma AutoAxleIsCheapestFit(axles: seq<Axle>, width: real, manualId: string)
    ensures var r := SelectAxle(axles, width, true, manualId);
            r.None? <==> forall k :: 0 <= k < |axles| ==> axles[k].max_width < width
    ensures var r := SelectAxle(axles, width, true, manualId);
            r.Some? ==>
              && r.value.max_width >= width
              && (forall k :: 0 <= k < |axles| && axles[k].max_width >= width ==>
                                r.value.price <= axles[k].price)
              && exists j :: 0 <= j < |axles| && axles[j] == r.value &&
                             forall k :: 0 <= k < j && axles[k].max_width >= width ==>
                                           r.value.price < axles[k].price
  {
    AutoSelectIsCheapestFit(axles, Spans(width), AxlePrice);
    var i := CheapestFit(axles, Spans(width), AxlePrice);
    assert SelectAxle(axles, width, true, manualId) == if i == -1 then None else Some(axles[i]);
  }

  /** Manual axle choice: the first axle with the given id, whatever its width, or none. */
  lemma ManualAxleIsFirstWithId(axles: seq<Axle>, width: real, manualId: string)
    ensures var r := SelectAxle(axles, width, false, manualId);
            r.None? <==> forall k :: 0 <= k < |axles| ==> axles[k].id != manualId
    ensures var r := SelectAxle(axles, width, false, manualId);
            r.Some? ==> exists j :: 0 <= j < |axles| && axles[j] == r.value && r.value.id == manualId &&
                                    forall k :: 0 <= k < j ==> axles[k].id != manualId
  {
  }

  // ---------------------------------------------------------------------------
  // Pricing
  // ---------------------------------------------------------------------------

  /** The calculator's inputs: dimensions, chosen profile, motor and axle modes, selected optionals. */
  datatype Inputs = Inputs(
    width: real,
    height: real,
    roll: real,
    quantity: int,
    profileId: string,
    autoMotor: bool,
    manualMotorId: string,
    autoAxle: bool,
    manualAxleId: string,
    selectedOptionalIds: set<string>)

  /** The catalog snapshot loaded once per session. */
  datatype Catalog = Catalog(
    profiles: seq<Profile>,
    motors: seq<Motor>,
    axles: seq<Axle>,
    optionals: seq<OptionalItem>)

  /** One line of the itemised optionals list. */
  datatype OptionalDetail = OptionalDetail(name: string, price: real)

  /** The `calculationResult` record; `pricePerGate` is none where `quantity` is 0 (JS: not finite). */
  datatype CalculationResult = CalculationResult(
    areaPerGate: real,
    totalArea: real,
    gateWeight: real,
    selectedMotor: Option<Motor>,
    selectedAxle: Option<Axle>,
    basePrice: real,
    motorPrice: real,
    axlePrice: real,
    optionalsTotal: real,
    optionalDetails: seq<OptionalDetail>,
    totalPrice: real,
    pricePerGate: Option<real>,
    profileName: string,
    isValid: bool)

  /** What one selected optional costs: per square metre of the total area, otherwise per gate. */
  function OptionalCharge(opt: OptionalItem, totalArea: real, quantity: int): real
  {
    if opt.unit_type == PerM2 then opt.price * totalArea else opt.price * quantity as real
  }

  /** The `optionalDetails` list the `forEach` pass builds over the catalog optionals `opts`. */
  function OptionalDetails(opts: seq<OptionalItem>, selected: set<string>, totalArea: real, quantity: int)
    : seq<OptionalDetail>
  {
    if opts == [] then []
    else
      var last := opts[|opts| - 1];
      OptionalDetails(opts[..|opts| - 1], selected, totalArea, quantity) +
        if last.id in selected then [OptionalDetail(last.name, OptionalCharge(last, totalArea, quantity))] else []
  }

  function SumPrices(ds: seq<OptionalDetail>): real
  {
    if ds == [] then 0.0 else SumPrices(ds[..|ds| - 1]) + ds[|ds| - 1].price
  }

  /**
   * Reference for `optionalsTotal`: each catalog optional adds its charge when its id is
   * selected and nothing otherwise.
   */
  function SelectedCharges(opts: seq<OptionalItem>, selected: set<string>, totalArea: real, quantity: int): real
  {
    if opts == [] then 0.0
    else
      (if opts[0].id in selected then OptionalCharge(opts[0], totalArea, quantity) else 0.0) +
        SelectedCharges(opts[1..], selected, totalArea, quantity)
  }

  /** The `optionals.forEach` pass (lines 110-124): accumulates `optionalsTotal` and pushes each detail. */
  method PriceOptionals(opts: seq<OptionalItem>, selected: set<string>, totalArea: real, quantity: int)
    returns (optionalsTotal: real, optionalDetails: seq<OptionalDetail>)
    ensures optionalDetails == OptionalDetails(opts, selected, totalArea, quantity)
    ensures optionalsTotal == SumPrices(optionalDetails)
  {
    optionalsTotal := 0.0;
    optionalDetails := [];
    var i := 0;
    while i < |opts|
      invariant 0 <= i <= |opts|
      invariant optionalDetails == OptionalDetails(opts[..i], selected, totalArea, quantity)
      invariant optionalsTotal == SumPrices(optionalDetails)
    {
      var opt := opts[i];
      assert opts[..i + 1][..i] == opts[..i] && opts[..i + 1][i] == opt;
      if opt.id in selected {
        var price := opt.price;
        if opt.unit_type == PerM2 {
          price := opt.price * totalArea;
        } else {
          price := opt.price * quantity as real;
        }
        assert price == OptionalCharge(opt, totalArea, quantity);
        optionalsTotal := optionalsTotal + price;
        optionalDetails := optionalDetails + [OptionalDetail(opt.name, price)];
      }
      i := i + 1;
    }
    assert opts[..|opts|] == opts;
  }

  /** `totalPrice / quantity`; none where JavaScript's division yields Infinity or NaN. */
  function PerGate(totalPrice: real, quantity: int): (r: Option<real>)
    ensures r.None? <==> quantity == 0
  {
    if quantity == 0 then None else Some(totalPrice / quantity as real)
  }

  /** The per-gate price exists exactly for a non-zero quantity and times the quantity gives the total. */
  lemma PerGateShare(totalPrice: real, quantity: int)
    ensures PerGate(totalPrice, quantity).Some? ==> PerGate(totalPrice, quantity).value * quantity as real == totalPrice
  {
  }

  /** `(height + roll) * width`: the curtain area of one gate, the roll allowance included. */
  function AreaPerGate(input: Inputs): real
  {
    (input.height + input.roll) * input.width
  }

  /** The weight of ONE gate, which is what the motor must lift. */
  function GateWeight(input: Inputs, profile: Profile): real
  {
    AreaPerGate(input) * profile.weight_per_m2
  }

  /** The area of all `quantity` gates, on which `per_m2` items and the profile are charged. */
  function TotalArea(input: Inputs): real
  {
    AreaPerGate(input) * input.quantity as real
  }

  /** The prices and the record of lines 105-107 and 126-144, given the selections and the optionals pass. */
  function Assemble(input: Inputs, profile: Profile, motor: Option<Motor>, axle: Option<Axle>,
                    optionalsTotal: real, details: seq<OptionalDetail>): CalculationResult
  {
    var basePrice := TotalArea(input) * profile.price_per_m2;
    var motorPrice := if motor.Some? then motor.value.price * input.quantity as real else 0.0;
    var axlePrice := if axle.Some? then axle.value.price * input.quantity as real else 0.0;
    var totalPrice := basePrice + motorPrice + axlePrice + optionalsTotal;
    CalculationResult(
      AreaPerGate(input), TotalArea(input), GateWeight(input, profile), motor, axle,
      basePrice, motorPrice, axlePrice, optionalsTotal, details, totalPrice,
      PerGate(totalPrice, input.quantity),
      profile.name,
      input.width > 0.0 && input.height > 0.0 && input.quantity > 0 && motor.Some? && axle.Some?)
  }

  /** The result for a found profile (lines 72-144). */
  function Priced(input: Inputs, cat: Catalog, profile: Profile): CalculationResult
  {
    var motor := SelectMotor(cat.motors, GateWeight(input, profile), input.autoMotor, input.manualMotorId);
    var axle := SelectAxle(cat.axles, input.width, input.autoAxle, input.manualAxleId);
    var details := OptionalDetails(cat.optionals, input.selectedOptionalIds, TotalArea(input), input.quantity);
    Assemble(input, profile, motor, axle, SumPrices(details), details)
  }

  /**
   * The figures of lines 73-124 and 143 for `profile`: the per-gate area with its roll
   * allowance, the total area, the weight of one gate and the base price charged on the
   * total area; the motor selected for that weight and the axle for the width; the optionals
   * pass over the total area; and the validity predicate. `PricesAddUp` states the rest.
   */
  ghost predicate PricedWith(input: Inputs, cat: Catalog, profile: Profile, r: CalculationResult)
  {
    && r.profileName == profile.name
    && r.areaPerGate == (input.height + input.roll) * input.width
    && r.totalArea == r.areaPerGate * input.quantity as real
    && r.gateWeight == r.areaPerGate * profile.weight_per_m2
    && r.basePrice == r.totalArea * profile.price_per_m2
    && r.selectedMotor == SelectMotor(cat.motors, r.gateWeight, input.autoMotor, input.manualMotorId)
    && r.selectedAxle == SelectAxle(cat.axles, input.width, input.autoAxle, input.manualAxleId)
    && r.optionalDetails == OptionalDetails(cat.optionals, input.selectedOptionalIds, r.totalArea, input.quantity)
    && r.optionalsTotal == SumPrices(r.optionalDetails)
    && (r.isValid <==> input.width > 0.0 && input.height > 0.0 && input.quantity > 0 &&
                       r.selectedMotor.Some? && r.selectedAxle.Some?)
  }

  /** `calculationResult`: null when no catalog profile has the selected id, else priced with the first one that has it. */
  function Calculation(input: Inputs, cat: Catalog): (r: Option<CalculationResult>)
    ensures r.None? <==> forall k :: 0 <= k < |cat.profiles| ==> cat.profiles[k].id != input.profileId
    ensures r.Some? ==> exists j :: 0 <= j < |cat.profiles| && cat.profiles[j].id == input.profileId &&
                                    PricedWith(input, cat, cat.profiles[j], r.value) &&
                                    forall k :: 0 <= k < j ==> cat.profiles[k].id != input.profileId
  {
    match Find(cat.profiles, ProfileHasId(input.profileId))
    case None => None
    case Some(profile) => PricedIsPricedWith(input, cat, profile); Some(Priced(input, cat, profile))
  }

  lemma PricedIsPricedWith(input: Inputs, cat: Catalog, profile: Profile)
    ensures PricedWith(input, cat, profile, Priced(input, cat, profile))
  {
  }

  /**
   * `PricedWith` and `PricesAddUp` together leave no freedom: a record that satisfies both
   * is the calculator's own result for that profile.
   */
  lemma PricedWithDetermines(input: Inputs, cat: Catalog, profile: Profile, r: CalculationResult)
    requires PricedWith(input, cat, profile, r) && PricesAddUp(r, input.quantity)
    ensures r == Priced(input, cat, profile)
  {
    var p := Assemble(input, profile, r.selectedMotor, r.selectedAxle, r.optionalsTotal, r.optionalDetails);
    assert r.areaPerGate == p.areaPerGate;
    assert r.totalArea == p.totalArea;
    assert r.gateWeight == p.gateWeight;
    assert r.basePrice == p.basePrice;
    assert r.motorPrice == p.motorPrice && r.axlePrice == p.axlePrice;
    assert r.totalPrice == p.totalPrice;
    assert r.pricePerGate == p.pricePerGate;
    assert r == p;
  }

  /** The `useMemo` computation: find the profile, select hardware, run the optionals pass, assemble. */
  method CalculateQuote(input: Inputs, cat: Catalog) returns (r: Option<CalculationResult>)
    ensures r == Calculation(input, cat)
  {
    var found := Find(cat.profiles, ProfileHasId(input.profileId));
    if found.None? {
      return None;
    }
    var profile := found.value;
    var motor := SelectMotor(cat.motors, GateWeight(input, profile), input.autoMotor, input.manualMotorId);
    var axle := SelectAxle(cat.axles, input.width, input.autoAxle, input.manualAxleId);
    var optionalsTotal, optionalDetails :=
      PriceOptionals(cat.optionals, input.selectedOptionalIds, TotalArea(input), input.quantity);
    r := Some(Assemble(input, profile, motor, axle, optionalsTotal, optionalDetails));
  }

  // ---------------------------------------------------------------------------
  // Properties of the pricing
  // ---------------------------------------------------------------------------

  /** `opt.id in selected`: the optional is ticked. */
  function Ticked(selected: set<string>): OptionalItem -> bool
  {
    (o: OptionalItem) => o.id in selected
  }

  /**
   * The itemised list holds one entry per ticked catalog optional, in catalog order,
   * each priced by its unit type; unticked optionals contribute nothing.
   */
  lemma {:induction false} OptionalDetailsFollowCatalog(opts: seq<OptionalItem>, selected: set<string>,
                                                        totalArea: real, quantity: int)
    ensures var ticked := Filter(opts, Ticked(selected));
            var ds := OptionalDetails(opts, selected, totalArea, quantity);
            && |ds| == |ticked|
            && forall k :: 0 <= k < |ds| ==>
                 ds[k] == OptionalDetail(ticked[k].name, OptionalCharge(ticked[k], totalArea, quantity))
  {
    if opts != [] {
      var init, last := opts[..|opts| - 1], opts[|opts| - 1];
      assert opts == init + [last];
      OptionalDetailsFollowCatalog(init, selected, totalArea, quantity);
      FilterSnoc(init, last, Ticked(selected));
    }
  }

  lemma {:induction false} SelectedChargesSnoc(opts: seq<OptionalItem>, x: OptionalItem, selected: set<string>,
                                               totalArea: real, quantity: int)
    ensures SelectedCharges(opts + [x], selected, totalArea, quantity) ==
            SelectedCharges(opts, selected, totalArea, quantity) +
            if x.id in selected then OptionalCharge(x, totalArea, quantity) else 0.0
  {
    if opts == [] {
      assert [x][1..] == [];
    } else {
      assert (opts + [x])[0] == opts[0] && (opts + [x])[1..] == opts[1..] + [x];
      SelectedChargesSnoc(opts[1..], x, selected, totalArea, quantity);
    }
  }

  /** `optionalsTotal` is the sum over the catalog of the charges of the ticked optionals. */
  lemma {:induction false} OptionalsTotalIsSelectedCharges(opts: seq<OptionalItem>, selected: set<string>,
                                                           totalArea: real, quantity: int)
    ensures SumPrices(OptionalDetails(opts, selected, totalArea, quantity)) ==
            SelectedCharges(opts, selected, totalArea, quantity)
  {
    if opts != [] {
      var init, last := opts[..|opts| - 1], opts[|opts| - 1];
      assert opts == init + [last];
      OptionalsTotalIsSelectedCharges(init, selected, totalArea, quantity);
      SelectedChargesSnoc(init, last, selected, totalArea, quantity);
      var ds := OptionalDetails(init, selected, totalArea, quantity);
      if last.id in selected {
        var d := OptionalDetail(last.name, OptionalCharge(last, totalArea, quantity));
        assert (ds + [d])[..|ds + [d]| - 1] == ds;
      } else {
        assert ds + [] == ds;
      }
    }
  }

  /** `x` is `quantity` times `y`. */
  ghost predicate Proportional(x: real, y: real, quantity: int)
  {
    x == quantity as real * y
  }

  /** Every optional's charge is linear in the quantity: `per_m2` through the total area, `fixed` directly. */
  lemma ChargeScales(o: OptionalItem, unitArea: real, totalArea: real, quantity: int)
    requires totalArea == unitArea * quantity as real
    ensures OptionalCharge(o, totalArea, quantity) == quantity as real * OptionalCharge(o, unitArea, 1)
  {
    var q := quantity as real;
    if o.unit_type == PerM2 {
      calc {
        o.price * (unitArea * q);
        q * (o.price * unitArea);
      }
    }
  }

  /** The sum of the ticked charges for `quantity` gates is `quantity` times the sum for one gate. */
  lemma {:induction false} SelectedChargesScale(opts: seq<OptionalItem>, selected: set<string>,
                                                unitArea: real, totalArea: real, quantity: int)
    requires totalArea == unitArea * quantity as real
    ensures Proportional(SelectedCharges(opts, selected, totalArea, quantity),
                         SelectedCharges(opts, selected, unitArea, 1), quantity)
  {
    if opts != [] {
      SelectedChargesScale(opts[1..], selected, unitArea, totalArea, quantity);
      ChargeScales(opts[0], unitArea, totalArea, quantity);
    }
  }

  /**
   * The weight, and so the motor and the axle, do not depend on the quantity: one motor and
   * one axle are chosen for a single gate; only the total area grows with the quantity.
   */
  lemma SelectionIgnoresQuantity(input: Inputs, cat: Catalog, quantity: int)
    requires Calculation(input, cat).Some?
    ensures Calculation(input.(quantity := quantity), cat).Some?
    ensures var r, r' := Calculation(input, cat).value, Calculation(input.(quantity := quantity), cat).value;
            && r'.areaPerGate == r.areaPerGate
            && r'.gateWeight == r.gateWeight
            && r'.selectedMotor == r.selectedMotor
            && r'.selectedAxle == r.selectedAxle
  {
    var profile := Find(cat.profiles, ProfileHasId(input.profileId)).value;
    WeightIgnoresQuantity(input, profile, quantity);
  }

  lemma WeightIgnoresQuantity(input: Inputs, profile: Profile, quantity: int)
    ensures AreaPerGate(input.(quantity := quantity)) == AreaPerGate(input)
    ensures GateWeight(input.(quantity := quantity), profile) == GateWeight(input, profile)
  {
  }

  /**
   * The total for `quantity` gates is `quantity` times the total for one gate: the base
   * price, the motors, the axles and every optional all scale with the quantity.
   */
  lemma TotalPriceLinearInQuantity(input: Inputs, cat: Catalog)
    requires Calculation(input, cat).Some?
    ensures Calculation(input.(quantity := 1), cat).Some?
    ensures Proportional(Calculation(input, cat).value.totalPrice,
                         Calculation(input.(quantity := 1), cat).value.totalPrice, input.quantity)
  {
    var profile := Find(cat.profiles, ProfileHasId(input.profileId)).value;
    PricedScales(input, cat, profile);
  }

  lemma PricedScales(input: Inputs, cat: Catalog, profile: Profile)
    ensures Proportional(Priced(input, cat, profile).totalPrice,
                         Priced(input.(quantity := 1), cat, profile).totalPrice, input.quantity)
  {
    var one := input.(quantity := 1);
    var sel := input.selectedOptionalIds;
    AreaScales(input);
    WeightIgnoresQuantity(input, profile, 1);
    OptionalsTotalScales(cat.optionals, sel, TotalArea(one), TotalArea(input), input.quantity);
    var d := OptionalDetails(cat.optionals, sel, TotalArea(input), input.quantity);
    var d1 := OptionalDetails(cat.optionals, sel, TotalArea(one), 1);
    AssembleScales(input, profile,
                   SelectMotor(cat.motors, GateWeight(input, profile), input.autoMotor, input.manualMotorId),
                   SelectAxle(cat.axles, input.width, input.autoAxle, input.manualAxleId),
                   SumPrices(d), d, SumPrices(d1), d1);
  }

  lemma AreaScales(input: Inputs)
    ensures TotalArea(input) == TotalArea(input.(quantity := 1)) * input.quantity as real
  {
  }

  /** `optionalsTotal` for `quantity` gates is `quantity` times the total for one gate. */
  lemma OptionalsTotalScales(opts: seq<OptionalItem>, selected: set<string>,
                             unitArea: real, totalArea: real, quantity: int)
    requires totalArea == unitArea * quantity as real
    ensures Proportional(SumPrices(OptionalDetails(opts, selected, totalArea, quantity)),
                         SumPrices(OptionalDetails(opts, selected, unitArea, 1)), quantity)
  {
    OptionalsTotalIsSelectedCharges(opts, selected, totalArea, quantity);
    OptionalsTotalIsSelectedCharges(opts, selected, unitArea, 1);
    SelectedChargesScale(opts, selected, unitArea, totalArea, quantity);
  }

  /** Given optionals that scale, every term of the total scales with the quantity. */
  lemma AssembleScales(input: Inputs, profile: Profile, motor: Option<Motor>, axle: Option<Axle>,
                       optionalsTotal: real, details: seq<OptionalDetail>,
                       optionalsTotal1: real, details1: seq<OptionalDetail>)
    requires Proportional(optionalsTotal, optionalsTotal1, input.quantity)
    ensures Proportional(Assemble(input, profile, motor, axle, optionalsTotal, details).totalPrice,
                         Assemble(input.(quantity := 1), profile, motor, axle, optionalsTotal1, details1).totalPrice,
                         input.quantity)
  {
    var q := input.quantity as real;
    var a := AreaPerGate(input);
    assert AreaPerGate(input.(quantity := 1)) == a;
    calc {
      (a * q) * profile.price_per_m2;
      q * ((a * 1 as real) * profile.price_per_m2);
    }
  }

  /** Dividing a total proportional to a single-gate total by the quantity gives that single-gate total. */
  lemma PerGateOfProportional(totalPrice: real, singleGate: real, quantity: int)
    requires quantity != 0
    requires Proportional(totalPrice, singleGate, quantity)
    ensures PerGate(totalPrice, quantity) == Some(singleGate)
  {
    var q := quantity as real;
    assert totalPrice / q == singleGate by {
      assert totalPrice == q * singleGate;
    }
  }

  /** For a non-zero quantity, the per-gate price is the total of the same order for a single gate. */
  lemma PricePerGateIsSingleGateTotal(input: Inputs, cat: Catalog)
    requires Calculation(input, cat).Some?
    requires input.quantity != 0
    ensures Calculation(input.(quantity := 1), cat).Some?
    ensures Calculation(input, cat).value.pricePerGate ==
            Some(Calculation(input.(quantity := 1), cat).value.totalPrice)
  {
    TotalPriceLinearInQuantity(input, cat);
    CalculationPricesAddUp(input, cat);
    PerGateOfProportional(Calculation(input, cat).value.totalPrice,
                          Calculation(input.(quantity := 1), cat).value.totalPrice, input.quantity);
  }

  /**
   * How the figures of a result hang together: the total area is the per-gate area times the
   * quantity, motor and axle cost their unit price per gate (nothing when unresolved), the total
   * is the sum of the four parts, and the per-gate price exists exactly for a non-zero quantity
   * and multiplies back to the total.
   */
  ghost predicate PricesAddUp(r: CalculationResult, quantity: int)
  {
    && r.totalArea == r.areaPerGate * quantity as real
    && r.motorPrice == (if r.selectedMotor.Some? then r.selectedMotor.value.price * quantity as real else 0.0)
    && r.axlePrice == (if r.selectedAxle.Some? then r.selectedAxle.value.price * quantity as real else 0.0)
    && r.totalPrice == r.basePrice + r.motorPrice + r.axlePrice + r.optionalsTotal
    && r.pricePerGate == PerGate(r.totalPrice, quantity)
    && (r.pricePerGate.Some? <==> quantity != 0)
    && (r.pricePerGate.Some? ==> r.pricePerGate.value * quantity as real == r.totalPrice)
  }

  lemma AssemblePricesAddUp(input: Inputs, profile: Profile, motor: Option<Motor>, axle: Option<Axle>,
                            optionalsTotal: real, details: seq<OptionalDetail>)
    ensures PricesAddUp(Assemble(input, profile, motor, axle, optionalsTotal, details), input.quantity)
  {
    var r := Assemble(input, profile, motor, axle, optionalsTotal, details);
    PerGateShare(r.totalPrice, input.quantity);
  }

  /** Every result the calculator produces is internally consistent in the sense of `PricesAddUp`. */
  lemma CalculationPricesAddUp(input: Inputs, cat: Catalog)
    requires Calculation(input, cat).Some?
    ensures PricesAddUp(Calculation(input, cat).value, input.quantity)
  {
    var profile := Find(cat.profiles, ProfileHasId(input.profileId)).value;
    var d := OptionalDetails(cat.optionals, input.selectedOptionalIds, TotalArea(input), input.quantity);
    AssemblePricesAddUp(input, profile,
                        SelectMotor(cat.motors, GateWeight(input, profile), input.autoMotor, input.manualMotorId),
                        SelectAxle(cat.axles, input.width, input.autoAxle, input.manualAxleId), SumPrices(d), d);
  }

  /** Whether hardware of each kind can be resolved for a gate: by capacity in automatic mode, by id in manual mode. */
  ghost predicate MotorResolvable(motors: seq<Motor>, gateWeight: real, auto: bool, manualId: string)
  {
    if auto then exists k :: 0 <= k < |motors| && motors[k].max_weight >= gateWeight
    else exists k :: 0 <= k < |motors| && motors[k].id == manualId
  }

  ghost predicate AxleResolvable(axles: seq<Axle>, width: real, auto: bool, manualId: string)
  {
    if auto then exists k :: 0 <= k < |axles| && axles[k].max_width >= width
    else exists k :: 0 <= k < |axles| && axles[k].id == manualId
  }

  /**
   * `isValid` holds exactly when the dimensions and the quantity are positive and a motor
   * and an axle can be resolved from the catalog.
   */
  lemma ValidityMeansResolvable(input: Inputs, cat: Catalog)
    requires Calculation(input, cat).Some?
    ensures var r := Calculation(input, cat).value;
            r.isValid <==>
              && input.width > 0.0 && input.height > 0.0 && input.quantity > 0
              && MotorResolvable(cat.motors, r.gateWeight, input.autoMotor, input.manualMotorId)
              && AxleResolvable(cat.axles, input.width, input.autoAxle, input.manualAxleId)
  {
    var r := Calculation(input, cat).value;
    if input.autoMotor {
      AutoMotorIsCheapestFit(cat.motors, r.gateWeight, input.manualMotorId);
    } else {
      ManualMotorIsFirstWithId(cat.motors, r.gateWeight, input.manualMotorId);
    }
    if input.autoAxle {
      AutoAxleIsCheapestFit(cat.axles, input.width, input.manualAxleId);
    } else {
      ManualAxleIsFirstWithId(cat.axles, input.width, input.manualAxleId);
    }
  }

  // ---------------------------------------------------------------------------
  // The optional toggle and the record handed to saveQuote
  // ---------------------------------------------------------------------------

  /** `toggleOptional`: a copy of the selected set with `id`'s membership flipped. */
  function ToggleOptional(selected: set<string>, id: string): (next: set<string>)
    ensures id in next <==> id !in selected
    ensures forall x :: x != id ==> (x in next <==> x in selected)
  {
    if id in selected then selected - {id} else selected + {id}
  }

  /** Toggling the same optional twice restores the selection. */
  lemma ToggleTwiceRestores(selected: set<string>, id: string)
    ensures ToggleOptional(ToggleOptional(selected, id), id) == selected
  {
  }

  /** `selected?.id || null`: an unresolved selection, and also an empty id, is stored as null. */
  function StoredId(id: Option<string>): (r: Option<string>)
    ensures r.None? <==> id.None? || id.value == ""
    ensures r.Some? ==> r == id
  {
    if id.Some? && id.value != "" then id else None
  }

  /** The `quoteData` record built in `handleSaveAndPDF` (lines 167-176). */
  function QuoteDataFor(input: Inputs, r: CalculationResult): QuoteData
  {
    QuoteData(
      input.width, input.height, input.roll, input.quantity, input.profileId,
      StoredId(if r.selectedMotor.Some? then Some(r.selectedMotor.value.id) else None),
      StoredId(if r.selectedAxle.Some? then Some(r.selectedAxle.value.id) else None),
      r.totalPrice)
  }

  ghost predicate UniqueMotorIds(motors: seq<Motor>)
  {
    forall i, j :: 0 <= i < j < |motors| ==> motors[i].id != motors[j].id
  }

  ghost predicate UniqueAxleIds(axles: seq<Axle>)
  {
    forall i, j :: 0 <= i < j < |axles| ==> axles[i].id != axles[j].id
  }

  /**
   * The stored `motor_id` is null exactly when no motor is resolved (or its id is empty);
   * otherwise, in a catalog with distinct ids, a manual lookup of the stored id gives back
   * the very motor that was priced. The stored total is the computed total.
   */
  lemma StoredMotorIdRoundTrip(input: Inputs, cat: Catalog)
    requires Calculation(input, cat).Some?
    requires UniqueMotorIds(cat.motors)
    ensures var r := Calculation(input, cat).value;
            var data := QuoteDataFor(input, r);
            && (data.motor_id.None? <==> r.selectedMotor.None? || r.selectedMotor.value.id == "")
            && (data.motor_id.Some? ==> Find(cat.motors, MotorHasId(data.motor_id.value)) == r.selectedMotor)
            && data.total_price == r.totalPrice
  {
    var r := Calculation(input, cat).value;
    if r.selectedMotor.Some? {
      if input.autoMotor {
        AutoMotorIsCheapestFit(cat.motors, r.gateWeight, input.manualMotorId);
      } else {
        ManualMotorIsFirstWithId(cat.motors, r.gateWeight, input.manualMotorId);
      }
      var m := r.selectedMotor.value;
      var j :| 0 <= j < |cat.motors| && cat.motors[j] == m;
      FindOnlyMatch(cat.motors, MotorHasId(m.id), j);
    }
  }

  /** The same for the stored `axle_id`. */
  lemma StoredAxleIdRoundTrip(input: Inputs, cat: Catalog)
    requires Calculation(input, cat).Some?
    requires UniqueAxleIds(cat.axles)
    ensures var r := Calculation(input, cat).value;
            var data := QuoteDataFor(input, r);
            && (data.axle_id.None? <==> r.selectedAxle.None? || r.selectedAxle.value.id == "")
            && (data.axle_id.Some? ==> Find(cat.axles, AxleHasId(data.axle_id.value)) == r.selectedAxle)
  {
    var r := Calculation(input, cat).value;
    if r.selectedAxle.Some? {
      if input.autoAxle {
        AutoAxleIsCheapestFit(cat.axles, input.width, input.manualAxleId);
      } else {
        ManualAxleIsFirstWithId(cat.axles, input.width, input.manualAxleId);
      }
      var a := r.selectedAxle.value;
      var j :| 0 <= j < |cat.axles| && cat.axles[j] == a;
      FindOnlyMatch(cat.axles, AxleHasId(a.id), j);
    }
  }

  // ---------------------------------------------------------------------------
  // Worked examples
  // ---------------------------------------------------------------------------

  /** A 2 m wide, 2 m high gate with 0.4 m of roll, automatic motor and axle, profile "p". */
  function ExampleInput(quantity: int, selected: set<string>): Inputs
  {
    Inputs(2.0, 2.0, 0.4, quantity, "p", true, "", true, "", selected)
  }

  /** One profile at 250 per m² and 10 kg per m², a 200 kg and a 400 kg motor, no axles, one `per_m2` optional. */
  function ExampleCatalog(): Catalog
  {
    Catalog(
      [Profile("p", "Perfil", 250.0, 10.0)],
      [Motor("m200", "Motor 200kg", 200.0, 1200.0), Motor("m400", "Motor 400kg", 400.0, 1800.0)],
      [],
      [OptionalItem("paint", "Pintura", 50.0, PerM2)])
  }

  /** For a 48 kg gate both motors qualify and the cheaper one is chosen. */
  lemma ExampleMotorChoice()
    ensures SelectMotor(ExampleCatalog().motors, 48.0, true, "") == Some(Motor("m200", "Motor 200kg", 200.0, 1200.0))
  {
    AutoMotorIsCheapestFit(ExampleCatalog().motors, 48.0, "");
  }

  /** Whatever the quantity, the example prices the 200 kg motor, no axle and the ticked optionals. */
  lemma ExampleResult(quantity: int, selected: set<string>)
    ensures var input, cat := ExampleInput(quantity, selected), ExampleCatalog();
            var d := OptionalDetails(cat.optionals, selected, TotalArea(input), quantity);
            Calculation(input, cat) ==
              Some(Assemble(input, cat.profiles[0], Some(cat.motors[0]), None, SumPrices(d), d))
  {
    var input, cat := ExampleInput(quantity, selected), ExampleCatalog();
    assert GateWeight(input, cat.profiles[0]) == 48.0;
    ExampleMotorChoice();
  }

  /**
   * One gate weighs 2.4 * 2 * 10 = 48 kg, so the cheaper 200 kg motor is chosen; the base
   * price is 2.4 * 2 * 250 = 1200 and the total 2400; with no axle the result is not valid.
   */
  lemma ExampleSingleGate()
    ensures var r := Calculation(ExampleInput(1, {}), ExampleCatalog());
            && r.Some?
            && r.value.gateWeight == 48.0
            && r.value.selectedMotor == Some(Motor("m200", "Motor 200kg", 200.0, 1200.0))
            && r.value.selectedAxle.None?
            && r.value.basePrice == 1200.0
            && r.value.totalPrice == 2400.0
            && !r.value.isValid
  {
    ExampleResult(1, {});
  }

  /** Three gates: total area 14.4, base and motors 3600 each, total 7200, 2400 per gate. */
  lemma ExampleThreeGates()
    ensures var r := Calculation(ExampleInput(3, {}), ExampleCatalog());
            && r.Some?
            && r.value.totalArea == 14.4
            && r.value.basePrice == 3600.0
            && r.value.motorPrice == 3600.0
            && r.value.totalPrice == 7200.0
            && r.value.pricePerGate == Some(2400.0)
  {
    ExampleResult(3, {});
  }

  /** Painting at 50 per m² over the 14.4 m² of three gates adds 720, for a total of 7920. */
  lemma ExamplePerAreaOptional()
    ensures var r := Calculation(ExampleInput(3, {"paint"}), ExampleCatalog());
            && r.Some?
            && r.value.optionalsTotal == 720.0
            && r.value.optionalDetails == [OptionalDetail("Pintura", 720.0)]
            && r.value.totalPrice == 7920.0
  {
    ExampleResult(3, {"paint"});
  }

  /**
   * Nothing checks the roll: a 2 m wide, 1 m high gate with a roll of -2 m has an area of
   * -2 m², a base price of -500 and a negative total, and the quote is still valid.
   */
  lemma ExampleNegativeRoll()
    ensures var input := Inputs(2.0, 1.0, -2.0, 1, "p", true, "", true, "", {});
            var cat := Catalog([Profile("p", "Perfil", 250.0, 10.0)], [Motor("m0", "Motor", 0.0, 100.0)],
                               [Axle("a2", "Eixo", 2.0, 100.0)], []);
            var r := Calculation(input, cat);
            && r.Some?
            && r.value.areaPerGate == -2.0
            && r.value.basePrice == -500.0
            && r.value.totalPrice == -300.0
            && r.value.isValid
  {
    var motors := [Motor("m0", "Motor", 0.0, 100.0)];
    var axles := [Axle("a2", "Eixo", 2.0, 100.0)];
    AutoMotorIsCheapestFit(motors, -20.0, "");
    AutoAxleIsCheapestFit(axles, 2.0, "");
  }
}
