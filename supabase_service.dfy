/**
 * The data service (services/supabaseService.ts): the in-memory store used when no backend
 * is configured, with its seeded catalog, its quote list and the operations that change
 * them in place; and the three-step `saveQuote` sequence run against the real backend,
 * over a store whose inserts may fail.
 *
 * Identifiers (`Math.random`) and timestamps (`new Date()`) are passed in as parameters.
 */
module SupabaseService {
  import opened Types
  import opened ArrayOps

  // ---------------------------------------------------------------------------
  // Seed catalog (lines 16-40)
  // ---------------------------------------------------------------------------

  const SeedProfiles: seq<Profile> := [
    Profile("1", "Perfil Meia Cana Fechada", 250.0, 10.0),
    Profile("2", "Perfil Transvision", 300.0, 8.0),
    Profile("3", "Perfil Lâmina Vazada", 280.0, 9.0)
  ]

  const SeedMotors: seq<Motor> := [
    Motor("1", "Motor AC 200kg", 200.0, 1200.0),
    Motor("2", "Motor AC 400kg", 400.0, 1800.0),
    Motor("3", "Motor DC 600kg (Alto Fluxo)", 600.0, 2500.0),
    Motor("4", "Motor Industrial 1000kg", 1000.0, 4000.0)
  ]

  const SeedAxles: seq<Axle> := [
    Axle("1", "Eixo 4.5\" (até 4m)", 4.0, 400.0),
    Axle("2", "Eixo 6\" (até 8m)", 8.0, 800.0),
    Axle("3", "Eixo 8\" Industrial (até 12m)", 12.0, 1500.0)
  ]

  const SeedOptionals: seq<OptionalItem> := [
    OptionalItem("1", "Pintura Eletrostática", 50.0, PerM2),
    OptionalItem("2", "Controle Remoto Extra", 80.0, Fixed),
    OptionalItem("3", "Nobreak", 600.0, Fixed),
    OptionalItem("4", "Sensor de Barreira", 150.0, Fixed)
  ]

  // ---------------------------------------------------------------------------
  // Listing order of `getQuotes`
  // ---------------------------------------------------------------------------

  /** `q.created_at || ''`. */
  function CreatedAtKey(q: Quote): string
  {
    if q.created_at.Some? then q.created_at.value else ""
  }

  /** String order used for `localeCompare`: lexicographic by character code. */
  predicate LexLeq(a: string, b: string)
  {
    if a == [] then true
    else if b == [] then false
    else if a[0] != b[0] then a[0] < b[0]
    else LexLeq(a[1..], b[1..])
  }

  lemma {:induction false} LexLeqTotal(a: string, b: string)
    ensures LexLeq(a, b) || LexLeq(b, a)
  {
    if a != [] && b != [] && a[0] == b[0] {
      LexLeqTotal(a[1..], b[1..]);
    }
  }

  lemma {:induction false} LexLeqTransitive(a: string, b: string, c: string)
    requires LexLeq(a, b) && LexLeq(b, c)
    ensures LexLeq(a, c)
  {
    if a != [] && b != [] && c != [] && a[0] == b[0] && b[0] == c[0] {
      LexLeqTransitive(a[1..], b[1..], c[1..]);
    }
  }

  /**
   * The comparator `(a, b) => (b.created_at || '').localeCompare(a.created_at || '')`:
   * `a` may stay ahead of `b` when `b`'s timestamp does not sort after `a`'s.
   */
  function NewestFirst(): (Quote, Quote) -> bool
  {
    (a: Quote, b: Quote) => LexLeq(CreatedAtKey(b), CreatedAtKey(a))
  }

  lemma NewestFirstIsTotalPreorder()
    ensures TotalPreorder(NewestFirst())
  {
    forall a: Quote, b: Quote ensures NewestFirst()(a, b) || NewestFirst()(b, a) {
      LexLeqTotal(CreatedAtKey(a), CreatedAtKey(b));
    }
    forall a: Quote, b: Quote, c: Quote | NewestFirst()(a, b) && NewestFirst()(b, c)
      ensures NewestFirst()(a, c)
    {
      LexLeqTransitive(CreatedAtKey(c), CreatedAtKey(b), CreatedAtKey(a));
    }
  }

  /** `[...MOCK_QUOTES].sort(newestFirst)`: a sorted copy of the stored quotes. */
  function SortedForListing(qs: seq<Quote>): (r: seq<Quote>)
    ensures multiset(r) == multiset(qs)
  {
    StableSort(qs, NewestFirst())
  }

  /**
   * The listing holds exactly the stored quotes, newest first: no quote's timestamp
   * (a missing one read as the empty string) sorts after the timestamp of any quote listed ahead of it.
   */
  lemma ListingIsNewestFirst(qs: seq<Quote>)
    ensures var r := SortedForListing(qs);
            && multiset(r) == multiset(qs)
            && forall i, j :: 0 <= i < j < |r| ==> LexLeq(CreatedAtKey(r[j]), CreatedAtKey(r[i]))
  {
    NewestFirstIsTotalPreorder();
    StableSortSorted(qs, NewestFirst());
  }

  /** Quotes whose timestamps sort equal keep, in the listing, the order in which they were stored. */
  lemma ListingKeepsTies(qs: seq<Quote>, x: Quote)
    ensures Filter(SortedForListing(qs), TiesWith(NewestFirst(), x)) == Filter(qs, TiesWith(NewestFirst(), x))
  {
    NewestFirstIsTotalPreorder();
    StableSortKeepsTies(qs, NewestFirst(), x);
  }

  // ---------------------------------------------------------------------------
  // Quote records written by the in-memory store
  // ---------------------------------------------------------------------------

  /**
   * The quote the in-memory `saveQuote` pushes (lines 194-206): the `quoteData` fields,
   * the new ids, the client copied with its id and timestamp, the client's name, and a
   * pending status. `auto_motor` and `selected_optionals` are not part of `quoteData`;
   * they are absent on the stored object and are modelled as `false` and no ids.
   */
  function MockQuote(client: Client, data: QuoteData, clientId: string, quoteId: string,
                     clientStamp: string, quoteStamp: string): (q: Quote)
    ensures DataOf(q) == data
    ensures q.id == Some(quoteId) && q.client_id == Some(clientId) && q.status == Some(Pending)
    ensures q.customer_name == client.name && q.created_at == Some(quoteStamp)
    ensures q.client == Some(Stamped(client, clientId, clientStamp))
    ensures q.total_price == Some(data.total_price) && !q.auto_motor && q.selected_optionals == []
  {
    var newClient := Stamped(client, clientId, clientStamp);
    Quote(Some(quoteId), Some(clientId), client.name,
          data.width, data.height, data.roll, data.quantity, data.profile_id, data.motor_id, data.axle_id,
          false, [], Some(data.total_price), Some(Pending), Some(quoteStamp), Some(newClient))
  }

  /** `find(q => q.id === id)` followed by `q.status = status`: only the first match is touched. */
  function SetStatusOfFirst(qs: seq<Quote>, id: string, status: Status): (r: seq<Quote>)
    ensures |r| == |qs|
    ensures (forall k :: 0 <= k < |qs| ==> qs[k].id != Some(id)) ==> r == qs
    ensures forall i :: 0 <= i < |qs| && qs[i].id == Some(id) && (forall k :: 0 <= k < i ==> qs[k].id != Some(id)) ==>
                        r == qs[i := qs[i].(status := Some(status))]
  {
    var i := FindIndex(qs, QuoteHasId(id));
    if i == -1 then qs else qs[i := qs[i].(status := Some(status))]
  }

  /**
   * The last status written wins: approving twice is approving once, and a quote set back
   * to pending after approval is pending again (the store does not enforce pending before approved).
   */
  lemma SetStatusLastWins(qs: seq<Quote>, id: string, first: Status, second: Status)
    ensures SetStatusOfFirst(SetStatusOfFirst(qs, id, first), id, second) == SetStatusOfFirst(qs, id, second)
  {
    var i := FindIndex(qs, QuoteHasId(id));
    if i != -1 {
      var once := SetStatusOfFirst(qs, id, first);
      assert once == qs[i := qs[i].(status := Some(first))];
      assert once[i].id == Some(id);
      assert forall k :: 0 <= k < i ==> once[k].id != Some(id);
      assert once[i := once[i].(status := Some(second))] == qs[i := qs[i].(status := Some(second))];
    }
  }

  /** Every quote the in-memory store holds carries an id, a client link and a status. */
  ghost predicate WellFormedQuotes(qs: seq<Quote>)
  {
    forall k :: 0 <= k < |qs| ==> qs[k].id.Some? && qs[k].client_id.Some? && qs[k].status.Some?
  }

  lemma SetStatusKeepsWellFormed(qs: seq<Quote>, id: string, status: Status)
    requires WellFormedQuotes(qs)
    ensures WellFormedQuotes(SetStatusOfFirst(qs, id, status))
  {
  }

  lemma {:induction false} RemoveKeepsWellFormed(qs: seq<Quote>, id: string)
    requires WellFormedQuotes(qs)
    ensures WellFormedQuotes(RemoveFirst(qs, QuoteHasId(id)))
  {
    var i := FindIndex(qs, QuoteHasId(id));
    if i != -1 {
      var r := RemoveFirst(qs, QuoteHasId(id));
      assert r == qs[..i] + qs[i + 1..];
      forall k | 0 <= k < |r| ensures r[k].id.Some? && r[k].client_id.Some? && r[k].status.Some? {
        if k < i {
          assert r[k] == qs[k];
        } else {
          assert r[k] == qs[k + 1];
        }
      }
    }
  }

  /** No two stored quotes share an id. */
  ghost predicate UniqueQuoteIds(qs: seq<Quote>)
  {
    forall i, j :: 0 <= i < j < |qs| && qs[i].id.Some? ==> qs[i].id != qs[j].id
  }

  /** With distinct ids, once a quote is deleted the listing no longer shows its id. */
  lemma DeletedQuoteNotListed(qs: seq<Quote>, id: string)
    requires UniqueQuoteIds(qs)
    ensures forall q :: q in SortedForListing(RemoveFirst(qs, QuoteHasId(id))) ==> q.id != Some(id)
  {
    var rest := RemoveFirst(qs, QuoteHasId(id));
    RemoveFirstOfUnique(qs, QuoteHasId(id));
    forall q | q in SortedForListing(rest) ensures q.id != Some(id) {
      assert q in multiset(SortedForListing(rest));
      assert q in rest;
    }
  }

  // ---------------------------------------------------------------------------
  // The in-memory store
  // ---------------------------------------------------------------------------

  /** The module-level arrays `MOCK_PROFILES`, `MOCK_MOTORS`, `MOCK_AXLES`, `MOCK_OPTIONALS`, `MOCK_QUOTES`. */
  class MockDataService {
    var profiles: seq<Profile>
    var motors: seq<Motor>
    var axles: seq<Axle>
    var optionals: seq<OptionalItem>
    var quotes: seq<Quote>

    ghost predicate Valid()
      reads this
    {
      WellFormedQuotes(quotes)
    }

    /** The state at module load: the seed catalog and no quotes. */
    constructor ()
      ensures profiles == SeedProfiles && motors == SeedMotors && axles == SeedAxles
      ensures optionals == SeedOptionals && quotes == []
      ensures Valid()
    {
      profiles := SeedProfiles;
      motors := SeedMotors;
      axles := SeedAxles;
      optionals := SeedOptionals;
      quotes := [];
    }

    // `get*` return `[...array]`: a sequence value, which later pushes and splices do not affect.

    method GetProfiles() returns (r: seq<Profile>)
      ensures r == profiles
    {
      r := profiles;
    }

    method GetMotors() returns (r: seq<Motor>)
      ensures r == motors
    {
      r := motors;
    }

    method GetAxles() returns (r: seq<Axle>)
      ensures r == axles
    {
      r := axles;
    }

    method GetOptionals() returns (r: seq<OptionalItem>)
      ensures r == optionals
    {
      r := optionals;
    }

    /** A newest-first copy of the stored quotes; the stored order is left as it is. */
    method GetQuotes() returns (r: seq<Quote>)
      requires Valid()
      ensures multiset(r) == multiset(quotes)
      ensures forall i, j :: 0 <= i < j < |r| ==> LexLeq(CreatedAtKey(r[j]), CreatedAtKey(r[i]))
      ensures WellFormedQuotes(r)
    {
      r := SortedForListing(quotes);
      ListingIsNewestFirst(quotes);
      forall k | 0 <= k < |r| ensures r[k].id.Some? && r[k].client_id.Some? && r[k].status.Some? {
        assert r[k] in multiset(quotes);
        var i :| 0 <= i < |quotes| && quotes[i] == r[k];
      }
    }

    // `add*` push the given fields with a fresh id; `delete*` splice out the first item with the id.

    method AddProfile(p: Profile, newId: string)
      modifies this`profiles
      ensures profiles == old(profiles) + [p.(id := newId)]
    {
      profiles := profiles + [p.(id := newId)];
    }

    method DeleteProfile(id: string)
      modifies this`profiles
      ensures profiles == RemoveFirst(old(profiles), ProfileHasId(id))
    {
      var idx := FindIndex(profiles, ProfileHasId(id));
      if idx > -1 {
        profiles := profiles[..idx] + profiles[idx + 1..];
      }
    }

    method AddMotor(m: Motor, newId: string)
      modifies this`motors
      ensures motors == old(motors) + [m.(id := newId)]
    {
      motors := motors + [m.(id := newId)];
    }

    method DeleteMotor(id: string)
      modifies this`motors
      ensures motors == RemoveFirst(old(motors), MotorHasId(id))
    {
      var idx := FindIndex(motors, MotorHasId(id));
      if idx > -1 {
        motors := motors[..idx] + motors[idx + 1..];
      }
    }

    method AddAxle(a: Axle, newId: string)
      modifies this`axles
      ensures axles == old(axles) + [a.(id := newId)]
    {
      axles := axles + [a.(id := newId)];
    }

    method DeleteAxle(id: string)
      modifies this`axles
      ensures axles == RemoveFirst(old(axles), AxleHasId(id))
    {
      var idx := FindIndex(axles, AxleHasId(id));
      if idx > -1 {
        axles := axles[..idx] + axles[idx + 1..];
      }
    }

    method AddOptional(o: OptionalItem, newId: string)
      modifies this`optionals
      ensures optionals == old(optionals) + [o.(id := newId)]
    {
      optionals := optionals + [o.(id := newId)];
    }

    method DeleteOptional(id: string)
      modifies this`optionals
      ensures optionals == RemoveFirst(old(optionals), OptionalHasId(id))
    {
      var idx := FindIndex(optionals, OptionalHasId(id));
      if idx > -1 {
        optionals := optionals[..idx] + optionals[idx + 1..];
      }
    }

    /** `updateQuoteStatus`: either status is accepted; an unknown id changes nothing. */
    method UpdateQuoteStatus(id: string, status: Status)
      requires Valid()
      modifies this`quotes
      ensures quotes == SetStatusOfFirst(old(quotes), id, status)
      ensures Valid()
    {
      var idx := FindIndex(quotes, QuoteHasId(id));
      if idx > -1 {
        quotes := quotes[idx := quotes[idx].(status := Some(status))];
      }
      SetStatusKeepsWellFormed(old(quotes), id, status);
    }

    /** `deleteQuote`: splices out the first quote with the id; an unknown id changes nothing. */
    method DeleteQuote(id: string)
      requires Valid()
      modifies this`quotes
      ensures quotes == RemoveFirst(old(quotes), QuoteHasId(id))
      ensures Valid()
    {
      var idx := FindIndex(quotes, QuoteHasId(id));
      if idx > -1 {
        quotes := quotes[..idx] + quotes[idx + 1..];
      }
      RemoveKeepsWellFormed(old(quotes), id);
    }

    /**
     * `saveQuote` on the in-memory store: pushes one pending quote linked to a new client and
     * reports success with the new quote's id. The optional ids are only logged, never stored.
     */
    method SaveQuote(client: Client, data: QuoteData, optionalIds: seq<string>,
                     clientId: string, quoteId: string, clientStamp: string, quoteStamp: string)
      returns (success: bool, savedId: string)
      requires Valid()
      modifies this`quotes
      ensures quotes == old(quotes) + [MockQuote(client, data, clientId, quoteId, clientStamp, quoteStamp)]
      ensures success && savedId == quoteId
      ensures Valid()
    {
      var newQuote := MockQuote(client, data, clientId, quoteId, clientStamp, quoteStamp);
      quotes := quotes + [newQuote];
      success, savedId := true, quoteId;
    }
  }

  // ---------------------------------------------------------------------------
  // The backend `saveQuote` sequence (lines 213-257)
  // ---------------------------------------------------------------------------

  /** The backend tables `saveQuote` writes to. */
  datatype Table = Clients | Quotes | QuoteOptionals

  /** A row of the `tab_quote_optionals` junction table. */
  datatype QuoteOptionalRow = QuoteOptionalRow(quote_id: string, optional_id: string)

  /** `optionals.map(optId => ({ quote_id: quoteId, optional_id: optId }))`. */
  function LinkRows(quoteId: string, optionalIds: seq<string>): (r: seq<QuoteOptionalRow>)
    ensures |r| == |optionalIds|
    ensures forall k :: 0 <= k < |r| ==> r[k].quote_id == quoteId && r[k].optional_id == optionalIds[k]
  {
    if optionalIds == [] then []
    else [QuoteOptionalRow(quoteId, optionalIds[0])] + LinkRows(quoteId, optionalIds[1..])
  }

  /**
   * The quote row sent to `tab_quotes`: the `quoteData` fields, the client link and a
   * pending status. `customer_name`, `auto_motor` and `selected_optionals` are not sent
   * and read as empty; the backend assigns `id` and `created_at` on insert.
   */
  function QuoteRow(data: QuoteData, clientId: string): (q: Quote)
    ensures DataOf(q) == data
    ensures q.client_id == Some(clientId) && q.status == Some(Pending)
    ensures q.id.None? && q.created_at.None? && q.client.None?
    ensures q.total_price == Some(data.total_price) && !q.auto_motor && q.selected_optionals == []
    ensures q.customer_name == ""
  {
    Quote(None, Some(clientId), "",
          data.width, data.height, data.roll, data.quantity, data.profile_id, data.motor_id, data.axle_id,
          false, [], Some(data.total_price), Some(Pending), None, None)
  }

  /**
   * The three backend tables, with the inserts that fail at the moment: `rejecting` stands
   * for whatever makes the backend answer with an error (constraint, network, permissions).
   */
  class SupabaseStore {
    var clients: seq<Client>
    var quotes: seq<Quote>
    var quoteOptionals: seq<QuoteOptionalRow>
    var rejecting: set<Table>

    constructor (rejecting: set<Table>)
      ensures clients == [] && quotes == [] && quoteOptionals == [] && this.rejecting == rejecting
    {
      clients := [];
      quotes := [];
      quoteOptionals := [];
      this.rejecting := rejecting;
    }

    /** `insert(client).select().single()`: the stored row, with the id and timestamp the backend assigns. */
    method InsertClient(client: Client, newId: string, stamp: string) returns (r: Result<Client, Table>)
      modifies this`clients
      ensures Clients in rejecting ==> r == Err(Clients) && clients == old(clients)
      ensures Clients !in rejecting ==>
                r == Ok(Stamped(client, newId, stamp)) && clients == old(clients) + [r.value]
    {
      if Clients in rejecting {
        return Err(Clients);
      }
      var row := Stamped(client, newId, stamp);
      clients := clients + [row];
      return Ok(row);
    }

    method InsertQuote(row: Quote, newId: string, stamp: string) returns (r: Result<Quote, Table>)
      modifies this`quotes
      ensures Quotes in rejecting ==> r == Err(Quotes) && quotes == old(quotes)
      ensures Quotes !in rejecting ==>
                r == Ok(row.(id := Some(newId), created_at := Some(stamp))) && quotes == old(quotes) + [r.value]
    {
      if Quotes in rejecting {
        return Err(Quotes);
      }
      var stored := row.(id := Some(newId), created_at := Some(stamp));
      quotes := quotes + [stored];
      return Ok(stored);
    }

    /** A multi-row insert: all rows are stored or, on error, none. */
    method InsertQuoteOptionals(rows: seq<QuoteOptionalRow>) returns (r: Result<(), Table>)
      modifies this`quoteOptionals
      ensures QuoteOptionals in rejecting ==> r == Err(QuoteOptionals) && quoteOptionals == old(quoteOptionals)
      ensures QuoteOptionals !in rejecting ==> r == Ok(()) && quoteOptionals == old(quoteOptionals) + rows
    {
      if QuoteOptionals in rejecting {
        return Err(QuoteOptionals);
      }
      quoteOptionals := quoteOptionals + rows;
      return Ok(());
    }

    /**
     * `saveQuote` against the backend: client, then quote, then the junction rows (only when
     * optionals were selected). The first failing step ends the sequence with its error and
     * nothing after it runs; what earlier steps stored is not undone.
     */
    method SaveQuote(client: Client, data: QuoteData, optionalIds: seq<string>,
                     clientId: string, quoteId: string, clientStamp: string, quoteStamp: string)
      returns (r: Result<string, Table>)
      modifies this`clients, this`quotes, this`quoteOptionals
      ensures var newClient := Stamped(client, clientId, clientStamp);
              var newQuote := QuoteRow(data, clientId).(id := Some(quoteId), created_at := Some(quoteStamp));
              if Clients in rejecting then
                && r == Err(Clients)
                && clients == old(clients) && quotes == old(quotes) && quoteOptionals == old(quoteOptionals)
              else if Quotes in rejecting then
                && r == Err(Quotes)
                && clients == old(clients) + [newClient]
                && quotes == old(quotes) && quoteOptionals == old(quoteOptionals)
              else if |optionalIds| > 0 && QuoteOptionals in rejecting then
                && r == Err(QuoteOptionals)
                && clients == old(clients) + [newClient]
                && quotes == old(quotes) + [newQuote]
                && quoteOptionals == old(quoteOptionals)
              else
                && r == Ok(quoteId)
                && clients == old(clients) + [newClient]
                && quotes == old(quotes) + [newQuote]
                && quoteOptionals == old(quoteOptionals) + LinkRows(quoteId, optionalIds)
    {
      var clientResult := InsertClient(client, clientId, clientStamp);
      if clientResult.Err? {
        return Err(clientResult.error);
      }
      var storedClientId := clientResult.value.id.value;
      var quoteResult := InsertQuote(QuoteRow(data, storedClientId), quoteId, quoteStamp);
      if quoteResult.Err? {
        return Err(quoteResult.error);
      }
      var storedQuoteId := quoteResult.value.id.value;
      if |optionalIds| > 0 {
        var linkResult := InsertQuoteOptionals(LinkRows(storedQuoteId, optionalIds));
        if linkResult.Err? {
          return Err(linkResult.error);
        }
      }
      return Ok(storedQuoteId);
    }
  }
}
