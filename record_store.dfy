/**
 * The `calc_records` table and the endpoints that use it (index.js:89-97,
 * 138-214, 216-267), with the table held in memory as a sequence of rows in
 * insertion order and the AUTO_INCREMENT counter as a field.
 */
module RecordStore {
  import opened Wrappers
  import opened TaxCalc
  import RentBuckets

  /**
   * The quote columns of `calc_records`: every field of a quote except the
   * half-rate flag, which the table has no column for.
   */
  datatype QuoteRow = QuoteRow(
    houseType: HouseType,
    monthlyRent: int,
    propDeduction: bool,
    incDeduction: bool,
    propertyBase: int,
    incomeBase: int,
    propertyRate: nat,
    incomeRate: nat,
    propertyTax: nat,
    incomeTax: nat,
    totalTax: nat)

  /** The values the INSERT writes for a quote. */
  function RowOf(q: Quote): QuoteRow
  {
    QuoteRow(q.houseType, q.monthlyRent, q.propDeduction, q.incDeduction,
             q.propertyBase, q.incomeBase, q.propertyRate, q.incomeRate,
             q.propertyTax, q.incomeTax, q.totalTax)
  }

  /** A row of `calc_records`: the quote columns, tagged with both identities. */
  datatype Record = Record(id: nat, clientId: Option<string>, openid: Option<string>, quote: QuoteRow)

  /** The errors the endpoints report, with their HTTP status. */
  datatype ApiError =
    | InvalidHouseType            // the whitelist check, answered with 400
    | CalcFailed(cause: CalcError) // thrown by calcSimpleTax, caught and answered with 500
    | NegativeLimit               // a LIMIT the database refuses, answered with 500
  {
    function Status(): (code: nat)
      ensures code == 400 <==> this == InvalidHouseType
      ensures this != InvalidHouseType ==> code == 500
    {
      if this == InvalidHouseType then 400 else 500
    }
  }

  /** The body of a POST to `/api/tax/calc-simple`, flags already coerced with `!!`. */
  datatype CalcRequest = CalcRequest(
    monthlyRent: Option<int>, houseType: string,
    propDeduction: bool, incDeduction: bool, propHalf: bool)

  const OpenidMaxLength: nat := 64
  const DefaultLimit: nat := 20
  const MaxLimit: nat := 100

  /** The `x-wx-openid` header, cut to 64 characters; an empty or absent header is no openid. */
  function OpenidOf(header: string): (o: Option<string>)
    ensures o.None? <==> header == ""
    ensures o.Some? ==> 0 < |o.value| <= OpenidMaxLength && o.value <= header
    ensures o.Some? && |header| <= OpenidMaxLength ==> o.value == header
    ensures o.Some? && |header| > OpenidMaxLength ==> o.value == header[..OpenidMaxLength]
  {
    var cut := if |header| <= OpenidMaxLength then header else header[..OpenidMaxLength];
    if cut == "" then None else Some(cut)
  }

  /**
   * `req.clientId || null`. The cookie middleware sets `req.clientId` to the
   * cookie or to a fresh uuid, so it is never empty in practice; the `None`
   * branch keeps the `|| null` of the handler.
   */
  function ClientIdOf(clientId: string): (c: Option<string>)
    ensures c.None? <==> clientId == ""
    ensures c.Some? ==> c.value == clientId
  {
    if clientId == "" then None else Some(clientId)
  }

  /** Whose records a listing shows: by openid, or else by client id, never by both. */
  datatype Identity = ByOpenid(openid: string) | ByClient(clientId: Option<string>)

  function ChooseIdentity(openidHeader: string, clientId: string): (who: Identity)
    ensures who.ByOpenid? <==> openidHeader != ""
    ensures who.ByOpenid? ==> OpenidOf(openidHeader) == Some(who.openid)
    ensures who.ByClient? ==> who.clientId == ClientIdOf(clientId)
  {
    match OpenidOf(openidHeader)
    case Some(o) => ByOpenid(o)
    case None => ByClient(ClientIdOf(clientId))
  }

  /** The WHERE clause of the listing; `client_id = NULL` holds of no row. */
  predicate Matches(r: Record, who: Identity)
  {
    match who
    case ByOpenid(o) => r.openid == Some(o)
    case ByClient(c) => c.Some? && r.clientId == c
  }

  /** A listing by openid ignores the client id column, and one by client id the openid column. */
  lemma MatchesOneColumn(r: Record, who: Identity, c: Option<string>, o: Option<string>)
    ensures who.ByOpenid? ==> Matches(r, who) == Matches(r.(clientId := c), who)
    ensures who.ByClient? ==> Matches(r, who) == Matches(r.(openid := o), who)
  {
  }

  /** `Math.min(Number(req.query.limit || 20), 100)`, `None` standing for an absent or empty parameter. */
  function EffectiveLimit(param: Option<int>): (r: Result<nat, ApiError>)
    ensures param.None? ==> r == Success(DefaultLimit)
    ensures param.Some? ==> (r.Failure? <==> param.value < 0)
    ensures r.Success? ==> r.value <= MaxLimit
    ensures r.Success? && param.Some? ==> r.value <= param.value && (r.value == param.value || r.value == MaxLimit)
  {
    match param
    case None => Success(DefaultLimit)
    case Some(n) =>
      var m := if n < MaxLimit then n else MaxLimit;
      if m < 0 then Failure(NegativeLimit) else Success(m)
  }

  predicate IdsAscending(rs: seq<Record>)
  {
    forall i, j :: 0 <= i < j < |rs| ==> rs[i].id < rs[j].id
  }

  predicate IdsDescending(rs: seq<Record>)
  {
    forall i, j :: 0 <= i < j < |rs| ==> rs[i].id > rs[j].id
  }

  /**
   * `WHERE <identity> ORDER BY id DESC LIMIT limit` over rows kept in id order:
   * at most `limit` matching rows, newest first, and every matching row left
   * out is older than all of those returned (and only left out when the limit
   * is reached).
   */
  function NewestMatching(rs: seq<Record>, who: Identity, limit: nat): (r: seq<Record>)
    requires IdsAscending(rs)
    ensures |r| <= limit
    ensures forall x :: x in r ==> x in rs && Matches(x, who)
    ensures IdsDescending(r)
    ensures forall x :: x in rs && Matches(x, who) && x !in r ==>
      |r| == limit && forall i :: 0 <= i < |r| ==> x.id < r[i].id
    decreases |rs|
  {
    if rs == [] || limit == 0 then []
    else
      var older, last := rs[..|rs| - 1], rs[|rs| - 1];
      SplitNewest(rs);
      if Matches(last, who) then
        var rest := NewestMatching(older, who, limit - 1);
        PrependNewer(last, rest);
        [last] + rest
      else
        NewestMatching(older, who, limit)
  }

  /** The last row of an id-ordered table is newer than all the others. */
  lemma SplitNewest(rs: seq<Record>)
    requires IdsAscending(rs) && rs != []
    ensures IdsAscending(rs[..|rs| - 1])
    ensures forall x :: x in rs <==> x == rs[|rs| - 1] || x in rs[..|rs| - 1]
    ensures forall x :: x in rs[..|rs| - 1] ==> x.id < rs[|rs| - 1].id
  {
    assert rs == rs[..|rs| - 1] + [rs[|rs| - 1]];
  }

  lemma PrependNewer(r: Record, rs: seq<Record>)
    requires IdsDescending(rs) && forall i :: 0 <= i < |rs| ==> rs[i].id < r.id
    ensures IdsDescending([r] + rs)
  {
    var s := [r] + rs;
    forall i, j | 0 <= i < j < |s|
      ensures s[i].id > s[j].id
    {
      assert s[j] == rs[j - 1];
      if i > 0 {
        assert s[i] == rs[i - 1];
      }
    }
  }

  /** A row just appended for an identity heads that identity's next listing. */
  lemma NewRecordListedFirst(rs: seq<Record>, r: Record, who: Identity, limit: nat)
    requires IdsAscending(rs + [r]) && Matches(r, who) && limit > 0
    ensures |NewestMatching(rs + [r], who, limit)| > 0
    ensures NewestMatching(rs + [r], who, limit)[0] == r
  {
    assert (rs + [r])[..|rs + [r]| - 1] == rs;
  }

  /** A quote `calcSimpleTax` really produced for its own inputs. */
  predicate IsComputed(q: Quote)
  {
    CalcSimpleTax(Some(q.monthlyRent), q.houseType, q.propDeduction, q.incDeduction, q.propHalf) == Success(q)
  }

  /** A stored row that `calcSimpleTax` produced for its inputs with the given half-rate flag. */
  predicate IsRowComputedWith(row: QuoteRow, propHalf: bool)
  {
    var r := CalcSimpleTax(Some(row.monthlyRent), row.houseType, row.propDeduction, row.incDeduction, propHalf);
    r.Success? && RowOf(r.value) == row
  }

  /** A stored row that some calculation produced; the unstored half-rate flag is either value. */
  predicate IsRowComputed(row: QuoteRow)
  {
    IsRowComputedWith(row, false) || IsRowComputedWith(row, true)
  }

  /**
   * The POST handler before its INSERT: the house type is checked first, then
   * `calcSimpleTax` runs.
   */
  function CalcResponse(req: CalcRequest): (r: Result<Quote, ApiError>)
    ensures r == Failure(InvalidHouseType) <==> ParseHouseType(req.houseType).None?
    ensures r == Failure(CalcFailed(RentNotPositive)) <==>
      ParseHouseType(req.houseType).Some? && !ValidRent(req.monthlyRent)
    ensures r.Success? <==> ParseHouseType(req.houseType).Some? && ValidRent(req.monthlyRent)
    ensures r.Success? ==>
      && IsComputed(r.value)
      && HouseTypeName(r.value.houseType) == req.houseType
      && Some(r.value.monthlyRent) == req.monthlyRent
      && r.value.propDeduction == req.propDeduction
      && r.value.incDeduction == req.incDeduction
      && r.value.propHalf == req.propHalf
  {
    match ParseHouseType(req.houseType)
    case None => Failure(InvalidHouseType)
    case Some(h) =>
      match CalcSimpleTax(req.monthlyRent, h, req.propDeduction, req.incDeduction, req.propHalf)
      case Failure(e) => Failure(CalcFailed(e))
      case Success(q) => Success(q)
  }

  /** The monthly rents of the rows, in cents. */
  function Rents(rs: seq<Record>): (rents: seq<int>)
    ensures |rents| == |rs|
    ensures forall k :: 0 <= k < |rs| ==> rents[k] == rs[k].quote.monthlyRent
  {
    seq(|rs|, k requires 0 <= k < |rs| => rs[k].quote.monthlyRent)
  }

  /** `COUNT(*) ... GROUP BY house_type` for one category. */
  function TypeCount(rs: seq<Record>, h: HouseType): (n: nat)
    ensures n <= |rs|
  {
    if rs == [] then 0
    else (if rs[0].quote.houseType == h then 1 else 0) + TypeCount(rs[1..], h)
  }

  /** The per-category counts of the overview add up to the total count. */
  lemma {:induction false} TypeCountsAddUp(rs: seq<Record>)
    ensures TypeCount(rs, Residential) + TypeCount(rs, NonResidential) == |rs|
  {
    if rs != [] {
      TypeCountsAddUp(rs[1..]);
    }
  }

  class CalcRecords {
    var records: seq<Record>
    var nextId: nat

    /** Rows in id order, ids below the counter, and every stored row a real computation. */
    ghost predicate Valid()
      reads this
    {
      && 1 <= nextId
      && IdsAscending(records)
      && (forall k :: 0 <= k < |records| ==> 1 <= records[k].id < nextId)
      && (forall k :: 0 <= k < |records| ==> IsRowComputed(records[k].quote))
    }

    constructor ()
      ensures Valid()
      ensures records == [] && nextId == 1
    {
      records := [];
      nextId := 1;
    }

    /** The INSERT: a new row with the next id, larger than every id already stored. */
    method Insert(clientId: Option<string>, openid: Option<string>, quote: Quote) returns (id: nat)
      requires Valid() && IsComputed(quote)
      modifies this
      ensures Valid()
      ensures id == old(nextId) && nextId == id + 1
      ensures records == old(records) + [Record(id, clientId, openid, RowOf(quote))]
      ensures forall k :: 0 <= k < |old(records)| ==> old(records)[k].id < id
    {
      id := nextId;
      assert IsRowComputedWith(RowOf(quote), quote.propHalf);
      records := records + [Record(id, clientId, openid, RowOf(quote))];
      nextId := nextId + 1;
    }

    /**
     * POST `/api/tax/calc-simple`: validate, compute, then append one row; a
     * rejected request leaves the table as it was.
     */
    method CalcSimple(req: CalcRequest, clientId: string, openidHeader: string)
      returns (resp: Result<Quote, ApiError>)
      requires Valid()
      modifies this
      ensures Valid()
      ensures resp == CalcResponse(req)
      ensures resp.Failure? ==> records == old(records) && nextId == old(nextId)
      ensures resp.Success? ==>
        && records == old(records) + [Record(old(nextId), ClientIdOf(clientId), OpenidOf(openidHeader), RowOf(resp.value))]
        && nextId == old(nextId) + 1
    {
      resp := CalcResponse(req);
      if resp.Success? {
        var _ := Insert(ClientIdOf(clientId), OpenidOf(openidHeader), resp.value);
      }
    }

    /** GET `/api/my/records`. */
    method MyRecords(openidHeader: string, clientId: string, limitParam: Option<int>)
      returns (resp: Result<seq<Record>, ApiError>)
      requires Valid()
      ensures resp.Failure? <==> limitParam.Some? && limitParam.value < 0
      ensures resp.Success? ==>
        resp.value == NewestMatching(records, ChooseIdentity(openidHeader, clientId), EffectiveLimit(limitParam).value)
      ensures resp.Success? ==> |resp.value| <= MaxLimit && IdsDescending(resp.value)
    {
      var who := ChooseIdentity(openidHeader, clientId);
      match EffectiveLimit(limitParam)
      case Failure(e) =>
        resp := Failure(e);
      case Success(limit) =>
        resp := Success(NewestMatching(records, who, limit));
    }

    /** GET `/api/count`. */
    method Count() returns (n: nat)
      ensures n == |records|
    {
      n := |records|;
    }

    /** GET `/api/stats/buckets`: every stored row is counted in exactly one bucket. */
    method StatsBuckets() returns (labels: seq<string>, counts: seq<nat>)
      requires Valid()
      ensures labels == RentBuckets.Labels(RentBuckets.StatsEdges)
      ensures counts == RentBuckets.Histogram(RentBuckets.StatsEdges, Rents(records))
      ensures RentBuckets.Total(counts) == |records|
    {
      labels, counts := RentBuckets.Buckets(RentBuckets.StatsEdges, Rents(records));
      RentBuckets.HistogramCountsEveryRent(RentBuckets.StatsEdges, Rents(records));
    }
  }
}
