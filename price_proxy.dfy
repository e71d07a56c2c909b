/**
 * The price proxy's `GET` handler (app/api/prices/route.ts) with the outbound
 * request replaced by its outcome: it validates the upstream payload and either
 * reshapes it into a price snapshot (status 200) or answers with the fixed error
 * payload (status 503), both under the same Cache-Control header.
 */
module PriceProxy {
  import opened Wrappers
  import opened Currencies
  import opened JsValues

  /** The currencies the upstream request asks for (the `vs_currencies` query parameter). */
  const VS_CURRENCIES: string := "usd,eur,jpy,gbp,aud,cad,chf,cny,hkd,idr"

  /** The upstream request URL. */
  const COINGECKO_URL: string :=
    "https://api.coingecko.com/api/v3/simple/price?ids=bitcoin&vs_currencies=" + VS_CURRENCIES

  const CACHE_CONTROL: string := "s-maxage=30, stale-while-revalidate=120"
  const FAILURE_MESSAGE: string := "Failed to fetch Bitcoin price data."
  const COIN: string := "bitcoin"

  /** `response.ok`: the status is in the range 200 to 299. */
  predicate IsOk(status: int)
  {
    200 <= status <= 299
  }

  /** What `response.json()` gives: a parsed value, or a rejection. */
  datatype Body = Unparseable | Parsed(json: Json)

  /** The outcome of the upstream `fetch`. */
  datatype Upstream = Unreachable | Answered(status: int, body: Body)

  /** The errors the handler's `try` block can raise; its `catch` treats them alike. */
  datatype Thrown =
    | FetchRejected            // `fetch` itself rejected
    | RequestFailed(status: int)  // `!response.ok`
    | JsonRejected             // `response.json()` rejected
    | NullDereference          // `data.bitcoin` with `data === null`
    | InvalidPayload           // the shape check failed

  /** The success payload: the coin, the time stamp and the ten prices. */
  datatype Snapshot = Snapshot(coin: string, lastUpdated: string, prices: map<CurrencyCode, Number>)

  datatype Payload = PricesPayload(snapshot: Snapshot) | ErrorPayload(error: string)

  datatype ProxyResponse = ProxyResponse(status: int, cacheControl: string, payload: Payload)

  /** The property names the handler reads. */
  const READ_NAMES: set<string> :=
    {"bitcoin", "usd", "eur", "jpy", "gbp", "aud", "cad", "chf", "cny", "hkd", "idr"}

  /**
   * `v[name]` on a non-null value, for the names the handler reads: only an
   * object that has the member yields a value; every other value, and an object
   * without it, yields `undefined`. (None of these names is `length`, an index,
   * or inherited from a prototype.)
   */
  function PropertyOf(v: Json, name: string): Option<Json>
    requires !v.JNull? && name in READ_NAMES
  {
    match v
    case JObject(m) => if name in m then Some(m[name]) else None
    case _ => None
  }

  /** The number under `name`, once `typeof` has said there is one. */
  function NumberAt(v: Json, name: string): Number
    requires !v.JNull? && name in READ_NAMES && IsNumber(PropertyOf(v, name))
  {
    PropertyOf(v, name).value.n
  }

  // ---- The reference definition of an acceptable payload ----

  /** `btc` is an object holding a number under the upstream name of every code. */
  predicate Complete(btc: Json)
  {
    btc.JObject? &&
    forall c: CurrencyCode ::
      UpstreamKey(c) in btc.members && btc.members[UpstreamKey(c)].JNumber?
  }

  /** The upstream answered 2xx with a JSON object whose `bitcoin` member is complete. */
  predicate Accepted(u: Upstream)
  {
    && u.Answered? && IsOk(u.status) && u.body.Parsed?
    && u.body.json.JObject? && COIN in u.body.json.members
    && Complete(u.body.json.members[COIN])
  }

  /** The upstream price of currency `c` in an accepted answer. */
  function Field(u: Upstream, c: CurrencyCode): Number
    requires Accepted(u)
  {
    u.body.json.members[COIN].members[UpstreamKey(c)].n
  }

  // ---- The handler ----

  /** The handler's shape check: `btc` is truthy and each of the ten fields is a number. */
  predicate PassesCheck(btc: Option<Json>)
  {
    && Truthy(btc)
    && IsNumber(PropertyOf(btc.value, "usd"))
    && IsNumber(PropertyOf(btc.value, "eur"))
    && IsNumber(PropertyOf(btc.value, "jpy"))
    && IsNumber(PropertyOf(btc.value, "gbp"))
    && IsNumber(PropertyOf(btc.value, "aud"))
    && IsNumber(PropertyOf(btc.value, "cad"))
    && IsNumber(PropertyOf(btc.value, "chf"))
    && IsNumber(PropertyOf(btc.value, "cny"))
    && IsNumber(PropertyOf(btc.value, "hkd"))
    && IsNumber(PropertyOf(btc.value, "idr"))
  }

  /** A payload that passes the chain is complete. */
  lemma PassesCheckIsCompleteForward(btc: Option<Json>)
    requires PassesCheck(btc)
    ensures btc.Some? && Complete(btc.value)
  {
  }

  /** A complete payload passes the chain. */
  lemma PassesCheckIsCompleteBackward(btc: Option<Json>)
    requires btc.Some? && Complete(btc.value)
    ensures PassesCheck(btc)
  {
    var m := btc.value.members;
    assert UpstreamKey(USD) in m && m[UpstreamKey(USD)].JNumber?;
    assert UpstreamKey(EUR) in m && m[UpstreamKey(EUR)].JNumber?;
    assert UpstreamKey(JPY) in m && m[UpstreamKey(JPY)].JNumber?;
    assert UpstreamKey(GBP) in m && m[UpstreamKey(GBP)].JNumber?;
    assert UpstreamKey(AUD) in m && m[UpstreamKey(AUD)].JNumber?;
    assert UpstreamKey(CAD) in m && m[UpstreamKey(CAD)].JNumber?;
    assert UpstreamKey(CHF) in m && m[UpstreamKey(CHF)].JNumber?;
    assert UpstreamKey(CNY) in m && m[UpstreamKey(CNY)].JNumber?;
    assert UpstreamKey(HKD) in m && m[UpstreamKey(HKD)].JNumber?;
    assert UpstreamKey(IDR) in m && m[UpstreamKey(IDR)].JNumber?;
  }

  /** The hand-written chain of ten field checks is exactly the reference `Complete`. */
  lemma PassesCheckIsComplete(btc: Option<Json>)
    ensures PassesCheck(btc) <==> btc.Some? && Complete(btc.value)
  {
    if PassesCheck(btc) {
      PassesCheckIsCompleteForward(btc);
    }
    if btc.Some? && Complete(btc.value) {
      PassesCheckIsCompleteBackward(btc);
    }
  }

  /** The object literal of the success payload (`prices: { USD: btc.usd, … }`). */
  function PricesLiteral(b: Json): map<CurrencyCode, Number>
    requires PassesCheck(Some(b))
  {
    map[
      USD := NumberAt(b, "usd"),
      EUR := NumberAt(b, "eur"),
      JPY := NumberAt(b, "jpy"),
      GBP := NumberAt(b, "gbp"),
      AUD := NumberAt(b, "aud"),
      CAD := NumberAt(b, "cad"),
      CHF := NumberAt(b, "chf"),
      CNY := NumberAt(b, "cny"),
      HKD := NumberAt(b, "hkd"),
      IDR := NumberAt(b, "idr")
    ]
  }

  /** One entry of the literal: code `c` takes the number under its upstream name. */
  lemma PricesLiteralAt(b: Json, c: CurrencyCode)
    requires PassesCheck(Some(b))
    ensures UpstreamKey(c) in b.members && b.members[UpstreamKey(c)].JNumber?
    ensures c in PricesLiteral(b) && PricesLiteral(b)[c] == b.members[UpstreamKey(c)].n
  {
  }

  /**
   * The reshaped prices: each upper-case key takes the number under its
   * lower-case upstream name, and there are no other keys.
   */
  function Reshape(b: Json): (prices: map<CurrencyCode, Number>)
    requires PassesCheck(Some(b))
    ensures prices.Keys == TableCodes()
    ensures forall c: CurrencyCode ::
      && UpstreamKey(c) in b.members && b.members[UpstreamKey(c)].JNumber?
      && c in prices && prices[c] == b.members[UpstreamKey(c)].n
  {
    TableIsTheUnion();
    forall c: CurrencyCode
      ensures && UpstreamKey(c) in b.members && b.members[UpstreamKey(c)].JNumber?
              && c in PricesLiteral(b) && PricesLiteral(b)[c] == b.members[UpstreamKey(c)].n
    {
      PricesLiteralAt(b, c);
    }
    assert PricesLiteral(b).Keys == ALL_CODES;
    PricesLiteral(b)
  }

  /**
   * The `try` block of `GET`: the status check, the shape check and the object
   * literal. It succeeds exactly on accepted answers, and then copies each
   * upstream field, unchanged, to its upper-case key.
   */
  function Load(u: Upstream, now: string): (r: Result<Snapshot, Thrown>)
    ensures r.Success? <==> Accepted(u)
    ensures r.Success? ==>
      && r.value.coin == COIN
      && r.value.lastUpdated == now
      && r.value.prices.Keys == TableCodes()
      && forall c: CurrencyCode :: c in r.value.prices && r.value.prices[c] == Field(u, c)
  {
    match u
    case Unreachable => Failure(FetchRejected)
    case Answered(status, body) =>
      if !IsOk(status) then Failure(RequestFailed(status))
      else
        match body
        case Unparseable => Failure(JsonRejected)
        case Parsed(data) =>
          if data.JNull? then Failure(NullDereference)
          else
            var btc := PropertyOf(data, "bitcoin");
            PassesCheckIsComplete(btc);
            if !PassesCheck(btc) then Failure(InvalidPayload)
            else Success(Snapshot(COIN, now, Reshape(btc.value)))
  }

  /**
   * `GET`: the `try` block's snapshot with the default status 200, or, for
   * anything it throws, the fixed error payload with status 503; both carry
   * the same Cache-Control header.
   */
  function Get(u: Upstream, now: string): (r: ProxyResponse)
    ensures r.cacheControl == CACHE_CONTROL
    ensures r.payload.PricesPayload? <==> Accepted(u)
    ensures r.payload.PricesPayload? <==> r.status == 200
    ensures r.payload.ErrorPayload? <==> r.status == 503
    ensures r.payload.ErrorPayload? ==> r.payload.error == FAILURE_MESSAGE
    ensures r.payload.PricesPayload? ==>
      && r.payload.snapshot.coin == COIN
      && r.payload.snapshot.lastUpdated == now
      && r.payload.snapshot.prices.Keys == TableCodes()
      && forall c: CurrencyCode :: c in r.payload.snapshot.prices && r.payload.snapshot.prices[c] == Field(u, c)
  {
    match Load(u, now)
    case Success(snapshot) => ProxyResponse(200, CACHE_CONTROL, PricesPayload(snapshot))
    case Failure(_) => ProxyResponse(503, CACHE_CONTROL, ErrorPayload(FAILURE_MESSAGE))
  }

  // ---- Properties of the handler ----

  /** Every failure, whatever its cause, is the same response. */
  lemma FailureIsFixed(u: Upstream, now: string)
    requires !Accepted(u)
    ensures Get(u, now) == ProxyResponse(503, CACHE_CONTROL, ErrorPayload(FAILURE_MESSAGE))
  {
  }

  /**
   * No partial success: a payload whose `bitcoin` object lacks one field, or has
   * something other than a number there, is refused as a whole.
   */
  lemma OneBadFieldFails(status: int, m: map<string, Json>, btc: map<string, Json>, c: CurrencyCode, now: string)
    requires COIN in m && m[COIN] == JObject(btc)
    requires UpstreamKey(c) !in btc || !btc[UpstreamKey(c)].JNumber?
    ensures Get(Answered(status, Parsed(JObject(m))), now) == ProxyResponse(503, CACHE_CONTROL, ErrorPayload(FAILURE_MESSAGE))
  {
  }

  /** Two accepted answers that agree on the ten fields give the same response. */
  lemma DependsOnlyOnFields(u1: Upstream, u2: Upstream, now: string)
    requires Accepted(u1) && Accepted(u2)
    requires forall c: CurrencyCode :: Field(u1, c) == Field(u2, c)
    ensures Get(u1, now) == Get(u2, now)
  {
  }

  /** A top-level member other than `bitcoin` has no effect on the response. */
  lemma OtherTopLevelMembersIgnored(status: int, m: map<string, Json>, k: string, v: Json, now: string)
    requires k != COIN
    ensures Get(Answered(status, Parsed(JObject(m[k := v]))), now) == Get(Answered(status, Parsed(JObject(m))), now)
  {
  }

  /** A member of the `bitcoin` object other than the ten fields has no effect on the response. */
  lemma OtherCoinMembersIgnored(status: int, m: map<string, Json>, btc: map<string, Json>, k: string, v: Json, now: string)
    requires forall c: CurrencyCode :: k != UpstreamKey(c)
    ensures Get(Answered(status, Parsed(JObject(m[COIN := JObject(btc[k := v])]))), now)
         == Get(Answered(status, Parsed(JObject(m[COIN := JObject(btc)]))), now)
  {
    var u1 := Answered(status, Parsed(JObject(m[COIN := JObject(btc[k := v])])));
    var u2 := Answered(status, Parsed(JObject(m[COIN := JObject(btc)])));
    assert Complete(JObject(btc[k := v])) <==> Complete(JObject(btc));
    if Accepted(u1) {
      DependsOnlyOnFields(u1, u2, now);
    }
  }

  // ---- Scenarios ----

  /** 65000 as an IEEE 754 binary64 value. */
  const SIXTY_FIVE_THOUSAND: Number := Binary64(0x40EF_BD00_0000_0000)

  /**
   * A payload with a number under all ten names, 65000 under `usd`, is answered
   * with status 200, all ten keys, and `USD` equal to 65000.
   */
  lemma CompletePayloadScenario(btc: map<string, Json>, now: string)
    requires forall c: CurrencyCode :: UpstreamKey(c) in btc && btc[UpstreamKey(c)].JNumber?
    requires "usd" in btc && btc["usd"] == JNumber(SIXTY_FIVE_THOUSAND)
    ensures var r := Get(Answered(200, Parsed(JObject(map["bitcoin" := JObject(btc)]))), now);
      && r.status == 200
      && r.payload.PricesPayload?
      && r.payload.snapshot.prices.Keys == ALL_CODES
      && r.payload.snapshot.prices[USD] == SIXTY_FIVE_THOUSAND
  {
  }

  /** A payload with only `usd` is answered with the fixed 503 error. */
  lemma OnlyUsdScenario(now: string)
    ensures Get(Answered(200, Parsed(JObject(map["bitcoin" := JObject(map["usd" := JNumber(SIXTY_FIVE_THOUSAND)])]))), now)
         == ProxyResponse(503, CACHE_CONTROL, ErrorPayload(FAILURE_MESSAGE))
  {
  }

  /** A rejected upstream request is answered with the fixed 503 error. */
  lemma UnreachableScenario(now: string)
    ensures Get(Unreachable, now) == ProxyResponse(503, CACHE_CONTROL, ErrorPayload(FAILURE_MESSAGE))
  {
  }

  // ---- The request asks for the table's currencies ----

  /** The request asks for the coin whose member the handler reads. */
  lemma RequestAsksForTheCoin()
    ensures COINGECKO_URL == "https://api.coingecko.com/api/v3/simple/price?ids=" + COIN + "&vs_currencies=" + VS_CURRENCIES
  {
  }

  /** The comma-separated upstream names of a list of codes. */
  function VsCurrencies(codes: seq<CurrencyCode>): string
  {
    if codes == [] then ""
    else if |codes| == 1 then UpstreamKey(codes[0])
    else UpstreamKey(codes[0]) + "," + VsCurrencies(codes[1..])
  }

  /** Listing two non-empty runs of codes one after the other joins them with a comma. */
  lemma {:induction false} VsCurrenciesAppend(xs: seq<CurrencyCode>, ys: seq<CurrencyCode>)
    requires xs != [] && ys != []
    ensures VsCurrencies(xs + ys) == VsCurrencies(xs) + "," + VsCurrencies(ys)
  {
    if |xs| > 1 {
      assert (xs + ys)[1..] == xs[1..] + ys;
      VsCurrenciesAppend(xs[1..], ys);
    }
  }

  /** The first five codes, listed. */
  lemma VsCurrenciesFront()
    ensures VsCurrencies([USD, EUR, JPY, GBP, AUD]) == "usd,eur,jpy,gbp,aud"
  {
  }

  /** The last five codes, listed. */
  lemma VsCurrenciesBack()
    ensures VsCurrencies([CAD, CHF, CNY, HKD, IDR]) == "cad,chf,cny,hkd,idr"
  {
  }

  /** The query parameter is the two halves joined by a comma. */
  lemma VsCurrenciesHalves()
    ensures VS_CURRENCIES == "usd,eur,jpy,gbp,aud" + "," + "cad,chf,cny,hkd,idr"
  {
  }

  /** The request asks for the upstream names of the table's codes, in table order. */
  lemma RequestAsksForTheTable()
    ensures VS_CURRENCIES == VsCurrencies(CodesOf(CURRENCIES))
  {
    TableOrder();
    var front, back := [USD, EUR, JPY, GBP, AUD], [CAD, CHF, CNY, HKD, IDR];
    VsCurrenciesFront();
    VsCurrenciesBack();
    VsCurrenciesAppend(front, back);
    assert front + back == [USD, EUR, JPY, GBP, AUD, CAD, CHF, CNY, HKD, IDR];
    VsCurrenciesHalves();
  }
}
