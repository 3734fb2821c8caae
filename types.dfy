/** Records and closed enumerations of the quote engine (types.ts). */
module Types {

  /** An optional value: a TypeScript field marked `?`, a `T | null`, or the `undefined` of `find`. */
  datatype Option<+T> = None | Some(value: T)

  /** A step that either produces a value or fails with an error (a thrown exception). */
  datatype Result<+T, +E> = Ok(value: T) | Err(error: E)

  /** Material profile of the gate curtain. */
  datatype Profile = Profile(id: string, name: string, price_per_m2: real, weight_per_m2: real)

  /** Motor; `max_weight` is the heaviest single gate it can lift. */
  datatype Motor = Motor(id: string, name: string, max_weight: real, price: real)

  /** Axle; `max_width` is the widest gate it supports. */
  datatype Axle = Axle(id: string, name: string, max_width: real, price: real)

  /** The closed union `'fixed' | 'per_m2'`. */
  datatype UnitType = Fixed | PerM2

  datatype OptionalItem = OptionalItem(id: string, name: string, price: real, unit_type: UnitType)

  /** The string an `OptionalItem`'s `unit_type` field holds. */
  function UnitTypeName(u: UnitType): string
  {
    match u
    case Fixed => "fixed"
    case PerM2 => "per_m2"
  }

  /** Reading a `unit_type` string: only the two members of the union are accepted. */
  function ParseUnitType(s: string): (r: Option<UnitType>)
    ensures r.Some? <==> s == "fixed" || s == "per_m2"
  {
    if s == "fixed" then Some(Fixed) else if s == "per_m2" then Some(PerM2) else None
  }

  /** The enumeration and the string union are the same set of values. */
  lemma UnitTypeNameRoundTrip(u: UnitType, s: string)
    ensures ParseUnitType(UnitTypeName(u)) == Some(u)
    ensures ParseUnitType(s).Some? ==> UnitTypeName(ParseUnitType(s).value) == s
  {
  }

  /** A client; `id` and `created_at` stay absent until the store assigns them. */
  datatype Client = Client(
    id: Option<string>,
    name: string,
    email: string,
    phone: string,
    address: string,
    created_at: Option<string>)

  /** `{ ...client, id, created_at }`: the client as stored, given the id and timestamp it lacked. */
  function Stamped(c: Client, id: string, stamp: string): (r: Client)
    ensures r.id == Some(id) && r.created_at == Some(stamp)
    ensures r.name == c.name && r.email == c.email && r.phone == c.phone && r.address == c.address
  {
    c.(id := Some(id), created_at := Some(stamp))
  }

  /** The closed union `'pending' | 'approved'`; a quote's `status` field may also be absent. */
  datatype Status = Pending | Approved

  /** The string a quote's `status` field holds. */
  function StatusName(st: Status): string
  {
    match st
    case Pending => "pending"
    case Approved => "approved"
  }

  /** Reading a `status` string: only the two members of the union are accepted. */
  function ParseStatus(s: string): (r: Option<Status>)
    ensures r.Some? <==> s == "pending" || s == "approved"
  {
    if s == "pending" then Some(Pending) else if s == "approved" then Some(Approved) else None
  }

  /** The enumeration and the string union are the same set of values. */
  lemma StatusNameRoundTrip(st: Status, s: string)
    ensures ParseStatus(StatusName(st)) == Some(st)
    ensures ParseStatus(s).Some? ==> StatusName(ParseStatus(s).value) == s
  {
  }

  /**
   * A stored quote. `motor_id` and `axle_id` are `string | null`; the fields marked `?`
   * are `Option`s. The display-only joined fields (`total_area`, `total_weight`,
   * `calculated_motor`, `calculated_axle`) are never written by the core and are not modelled.
   */
  datatype Quote = Quote(
    id: Option<string>,
    client_id: Option<string>,
    customer_name: string,
    width: real,
    height: real,
    roll: real,
    quantity: int,
    profile_id: string,
    motor_id: Option<string>,
    axle_id: Option<string>,
    auto_motor: bool,
    selected_optionals: seq<string>,
    total_price: Option<real>,
    status: Option<Status>,
    created_at: Option<string>,
    client: Option<Client>)

  /** The `quoteData` record the calculator hands to `saveQuote`. */
  datatype QuoteData = QuoteData(
    width: real,
    height: real,
    roll: real,
    quantity: int,
    profile_id: string,
    motor_id: Option<string>,
    axle_id: Option<string>,
    total_price: real)

  /** The `quoteData` fields of a stored quote (`total_price` read as 0 when absent). */
  function DataOf(q: Quote): QuoteData
  {
    QuoteData(q.width, q.height, q.roll, q.quantity, q.profile_id, q.motor_id, q.axle_id,
              if q.total_price.Some? then q.total_price.value else 0.0)
  }

  // The `x => x.id === id` callbacks handed to `find` and `findIndex`.

  function ProfileHasId(id: string): Profile -> bool { (p: Profile) => p.id == id }

  function MotorHasId(id: string): Motor -> bool { (m: Motor) => m.id == id }

  function AxleHasId(id: string): Axle -> bool { (a: Axle) => a.id == id }

  function OptionalHasId(id: string): OptionalItem -> bool { (o: OptionalItem) => o.id == id }

  function QuoteHasId(id: string): Quote -> bool { (q: Quote) => q.id == Some(id) }
}
