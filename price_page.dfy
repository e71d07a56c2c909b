/**
 * The page (app/page.tsx): the refresh state machine driven by `loadPrices`
 * completions and the effect's teardown, and the choice of what to render.
 * Timers and overlapping requests are replaced by a sequence of discrete events.
 */
module PricePage {
  import opened Wrappers
  import opened Currencies
  import opened JsValues
  import opened PriceProxy

  /**
   * A success body as `response.json()` gives it back to the page (the
   * `PricesResponse` cast): each price is the JSON value read back, a number or
   * `null`.
   */
  datatype PricesResponse = PricesResponse(coin: string, lastUpdated: string, prices: map<CurrencyCode, Json>)

  /** How one `loadPrices` cycle ended, as the page sees it. */
  datatype CycleResult =
    | ProxyUnreachable          // `fetch('/api/prices')` rejected
    | NotOk(status: int)        // `!response.ok`
    | BodyRejected              // `response.json()` rejected
    | Received(snapshot: PricesResponse)  // the body, cast to `PricesResponse`

  /** The three state cells `data`, `loading` and `error`. */
  datatype UiState = UiState(data: Option<PricesResponse>, loading: bool, error: bool)

  /** The cells' initial values. */
  const INITIAL: UiState := UiState(None, true, false)

  /** What a cycle that completes while the effect is active does to the cells. */
  function Settle(s: UiState, r: CycleResult): UiState
  {
    match r
    case Received(snapshot) => UiState(Some(snapshot), false, false)
    case _ => s.(error := true, loading := false)
  }

  /** The events that reach the page: a cycle completes, or the effect is torn down. */
  datatype Event = Completed(result: CycleResult) | TornDown

  /** The cells together with the effect's liveness flag `active`. */
  datatype Session = Session(ui: UiState, active: bool)

  /** Mounting: initial cells, and an active effect. */
  const MOUNTED: Session := Session(INITIAL, true)

  /** One event: a completion is applied only while active; teardown clears `active`. */
  function Step(s: Session, e: Event): Session
  {
    match e
    case TornDown => s.(active := false)
    case Completed(r) => if s.active then s.(ui := Settle(s.ui, r)) else s
  }

  /** A sequence of events, in order. */
  function Run(s: Session, events: seq<Event>): Session
    decreases events
  {
    if events == [] then s else Run(Step(s, events[0]), events[1..])
  }

  /** Running one more event is one more step. */
  lemma {:induction false} RunAppend(s: Session, events: seq<Event>, e: Event)
    ensures Run(s, events + [e]) == Step(Run(s, events), e)
    decreases events
  {
    if events != [] {
      assert (events + [e])[1..] == events[1..] + [e];
      RunAppend(Step(s, events[0]), events[1..], e);
    }
  }

  /** After teardown nothing changes, whatever completes. */
  lemma {:induction false} FrozenAfterTeardown(s: Session, events: seq<Event>)
    requires !s.active
    ensures Run(s, events) == s
    decreases events
  {
    if events != [] {
      FrozenAfterTeardown(Step(s, events[0]), events[1..]);
    }
  }

  /** `loading` is never set back to true: once false, it stays false. */
  lemma {:induction false} LoadingNeverReentered(s: Session, events: seq<Event>)
    requires !s.ui.loading
    ensures !Run(s, events).ui.loading
    decreases events
  {
    if events != [] {
      LoadingNeverReentered(Step(s, events[0]), events[1..]);
    }
  }

  /** The results of the cycles that complete before the first teardown, in order. */
  function LiveResults(events: seq<Event>): seq<CycleResult>
  {
    if events == [] then []
    else match events[0]
      case TornDown => []
      case Completed(r) => [r] + LiveResults(events[1..])
  }

  /** The snapshot of the last `Received` result, if there is one. */
  function LastSnapshot(results: seq<CycleResult>): Option<PricesResponse>
  {
    if results == [] then None
    else
      var later := LastSnapshot(results[1..]);
      if later.Some? then later
      else if results[0].Received? then Some(results[0].snapshot)
      else None
  }

  /**
   * From an active session, the cells reflect the live results only: `loading`
   * stays as it was only if none arrived, `error` is whether the last one failed,
   * and `data` is the last snapshot received (or what it was before).
   */
  lemma {:induction false} RunReflectsLiveResults(s: Session, events: seq<Event>)
    requires s.active
    ensures var t, rs := Run(s, events), LiveResults(events);
      && t.ui.loading == (s.ui.loading && rs == [])
      && t.ui.error == (if rs == [] then s.ui.error else !rs[|rs| - 1].Received?)
      && t.ui.data == (if LastSnapshot(rs).Some? then LastSnapshot(rs) else s.ui.data)
    decreases events
  {
    if events != [] {
      match events[0]
      case TornDown =>
        FrozenAfterTeardown(Step(s, events[0]), events[1..]);
      case Completed(r) =>
        RunReflectsLiveResults(Step(s, events[0]), events[1..]);
        var rest := LiveResults(events[1..]);
        assert LiveResults(events) == [r] + rest;
        assert ([r] + rest)[1..] == rest;
    }
  }

  /**
   * After mounting: the loading message lasts until the first live completion;
   * afterwards `error` says whether the latest live cycle failed and `data` is the
   * latest snapshot received.
   */
  lemma MountedRun(events: seq<Event>)
    ensures var t, rs := Run(MOUNTED, events), LiveResults(events);
      && t.ui.loading == (rs == [])
      && t.ui.error == (rs != [] && !rs[|rs| - 1].Received?)
      && t.ui.data == LastSnapshot(rs)
  {
    RunReflectsLiveResults(MOUNTED, events);
  }

  // ---- Rendering ----

  /** One row of the price list: code, name and formatted amount. */
  datatype Row = Row(code: string, name: string, amount: string)

  /** What the page shows. */
  datatype Screen = LoadingMessage | ErrorMessage | PriceList(rows: seq<Row>)

  /**
   * The per-currency `Intl.NumberFormat` formatters, left uninterpreted: the
   * amount shown for a code depends on the code and on `data.prices[code]`
   * (`None` stands for `undefined`, `Some(JNull)` for `null`).
   */
  type Formatter = (CurrencyCode, Option<Json>) -> string

  /** `prices[code]` in JavaScript: `undefined` for a missing key. */
  function Lookup(prices: map<CurrencyCode, Json>, c: CurrencyCode): Option<Json>
  {
    if c in prices then Some(prices[c]) else None
  }

  /** `table.map(…)`: one row per entry, in table order. */
  function Rows(table: seq<Currency>, prices: map<CurrencyCode, Json>, format: Formatter): (rows: seq<Row>)
    ensures |rows| == |table|
    ensures forall i :: 0 <= i < |table| ==>
      rows[i] == Row(Code(table[i].code), table[i].name, format(table[i].code, Lookup(prices, table[i].code)))
  {
    if table == [] then []
    else
      [Row(Code(table[0].code), table[0].name, format(table[0].code, Lookup(prices, table[0].code)))]
      + Rows(table[1..], prices, format)
  }

  /** The render branch: loading first, then error or no data, then the list. */
  function Render(s: UiState, format: Formatter): Screen
  {
    if s.loading then LoadingMessage
    else if s.error || s.data.None? then ErrorMessage
    else PriceList(Rows(CURRENCIES, s.data.value.prices, format))
  }

  /**
   * A cycle that completes live shows its own outcome: the list for a received
   * snapshot, the error message for any failure, never a snapshot retained from
   * an earlier cycle.
   */
  lemma ShowsLatestOutcome(s: UiState, r: CycleResult, format: Formatter)
    ensures Render(Settle(s, r), format) ==
      if r.Received? then PriceList(Rows(CURRENCIES, r.snapshot.prices, format)) else ErrorMessage
  {
  }

  /**
   * For a snapshot with every table code priced (as the proxy sends), the list has
   * one row per currency in table order, each with its own price, and the row
   * keys (the codes) are distinct.
   */
  lemma PriceListRows(prices: map<CurrencyCode, Json>, format: Formatter)
    requires prices.Keys == TableCodes()
    ensures var rows := Rows(CURRENCIES, prices, format);
      && |rows| == 10
      && (forall i :: 0 <= i < 10 ==>
            rows[i] == Row(Code(CURRENCIES[i].code), CURRENCIES[i].name, format(CURRENCIES[i].code, Some(prices[CURRENCIES[i].code]))))
      && (forall i, j :: 0 <= i < j < 10 ==> rows[i].code != rows[j].code)
  {
    var rows := Rows(CURRENCIES, prices, format);
    TableIsTheUnion();
    CodesDistinct();
    forall i | 0 <= i < 10 ensures CURRENCIES[i].code in prices {
      assert CURRENCIES[i].code in TableCodes();
    }
    forall i, j | 0 <= i < j < 10 ensures rows[i].code != rows[j].code {
      CodeInjective(CURRENCIES[i].code, CURRENCIES[j].code);
    }
  }

  // ---- The page and the proxy together ----

  /**
   * A price after `NextResponse.json` has written it with `JSON.stringify` and
   * `response.json()` has read it back: NaN and the infinities are written as
   * `null`, and -0 is written as `0`. Any other number is written as the shortest
   * decimal that reads back to the same value, so it comes back as itself.
   */
  function OverTheWire(n: Number): (v: Json)
    ensures v.JNull? || v.JNumber?
    ensures v.JNull? <==> !n.IsFinite()
    ensures v.JNumber? ==> v.n.StrictEquals(n) && !v.n.IsNegativeZero()
    ensures !n.IsNegativeZero() && v.JNumber? ==> v.n == n
  {
    if !n.IsFinite() then JNull
    else if n.IsZero() then JNumber(Binary64(0))
    else JNumber(n)
  }

  /** The proxy's snapshot as the page reads it back from the response body. */
  function ReadBack(snapshot: Snapshot): PricesResponse
  {
    PricesResponse(snapshot.coin, snapshot.lastUpdated,
      map c | c in snapshot.prices :: OverTheWire(snapshot.prices[c]))
  }

  /**
   * How a proxy response reaches `loadPrices`: a non-2xx status is `NotOk`; a 2xx
   * body is the snapshot read back. (The proxy sends a 2xx status only with a
   * snapshot.)
   */
  function Receive(resp: ProxyResponse): CycleResult
    requires IsOk(resp.status) ==> resp.payload.PricesPayload?
  {
    if !IsOk(resp.status) then NotOk(resp.status) else Received(ReadBack(resp.payload.snapshot))
  }

  /**
   * End to end: a live cycle over the proxy shows one row per currency, each
   * formatting the upstream price as read back, exactly when the upstream answer
   * is accepted, and the error message otherwise.
   */
  lemma EndToEnd(s: UiState, u: Upstream, now: string, format: Formatter)
    ensures IsOk(Get(u, now).status) ==> Get(u, now).payload.PricesPayload?
    ensures var screen := Render(Settle(s, Receive(Get(u, now))), format);
      && (Accepted(u) ==>
            && screen.PriceList? && |screen.rows| == |CURRENCIES|
            && forall i :: 0 <= i < |CURRENCIES| ==>
                 screen.rows[i] == Row(Code(CURRENCIES[i].code), CURRENCIES[i].name,
                                       format(CURRENCIES[i].code, Some(OverTheWire(Field(u, CURRENCIES[i].code))))))
      && (!Accepted(u) ==> screen == ErrorMessage)
  {
  }

  /**
   * A finite upstream price other than -0 reaches the row formatter as that very
   * number; -0 reaches it as 0, and NaN or an infinity as `null`.
   */
  lemma PriceSurvivesTheWire(u: Upstream, now: string, c: CurrencyCode)
    requires Accepted(u)
    ensures var back := ReadBack(Get(u, now).payload.snapshot);
      && c in back.prices
      && (Field(u, c).IsFinite() && !Field(u, c).IsNegativeZero() ==> back.prices[c] == JNumber(Field(u, c)))
      && (Field(u, c).IsNegativeZero() ==> back.prices[c] == JNumber(Binary64(0)))
      && (!Field(u, c).IsFinite() ==> back.prices[c] == JNull)
  {
  }

  // ---- The component ----

  /**
   * The component's state cells and its effect's liveness flag. `events` records
   * what has happened since mounting; `Valid` ties the cells to `Run`.
   */
  class Page {
    var data: Option<PricesResponse>
    var loading: bool
    var error: bool
    var active: bool
    ghost var events: seq<Event>

    function State(): UiState
      reads this
    {
      UiState(data, loading, error)
    }

    ghost predicate Valid()
      reads this
    {
      Session(State(), active) == Run(MOUNTED, events)
    }

    /** Mounting: `data = null`, `loading = true`, `error = false`, and an active effect. */
    constructor ()
      ensures Valid() && events == []
      ensures data == None && loading && !error && active
    {
      data, loading, error, active := None, true, false, true;
      events := [];
    }

    /** A `loadPrices` cycle completes: its try, catch and finally blocks, each guarded by `active`. */
    method Complete(r: CycleResult)
      requires Valid()
      modifies this
      ensures Valid() && events == old(events) + [Completed(r)]
      ensures active == old(active)
      ensures State() == if old(active) then Settle(old(State()), r) else old(State())
    {
      match r {
        case Received(snapshot) =>
          if active {
            data := Some(snapshot);
            error := false;
          }
        case _ =>
          if active {
            error := true;
          }
      }
      if active {
        loading := false;
      }
      RunAppend(MOUNTED, events, Completed(r));
      events := events + [Completed(r)];
    }

    /** The effect's cleanup: `active = false` (and the interval is cleared). */
    method Teardown()
      requires Valid()
      modifies this
      ensures Valid() && events == old(events) + [TornDown]
      ensures !active && State() == old(State())
    {
      active := false;
      RunAppend(MOUNTED, events, TornDown);
      events := events + [TornDown];
    }

    /** What the component renders now. */
    function View(format: Formatter): Screen
      reads this
    {
      Render(State(), format)
    }
  }
}
