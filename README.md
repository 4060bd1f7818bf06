# Rental tax calculator and its record store, in Dafny

A model of the WeChat cloud-hosted rental tax service (`index.js`): the
`calcSimpleTax` calculator with the house-type whitelist of its POST handler,
the append-only `calc_records` table with the "my records" listing and the
record count, the per-category counts of the overview, and the rent-bucket
histogram of `/api/stats/buckets`.

Files:

- `wrappers.dfy` — `Option` and `Result`.
- `tax.dfy` (module `TaxCalc`) — the calculator as pure functions and lemmas.
  Money is exact: amounts are whole cents and rates are basis points
  (4% = 400), so `base × rate` is in ten-thousandths of a cent, and JavaScript's
  `toFixed(2)` on a non-negative amount becomes rounding to the nearest cent
  with ties going up. The 800-yuan deduction is 80000 cents. A rent that is
  missing or NaN is `None`.
- `decimal_text.dfy` (module `DecimalText`) — the decimal text of an edge, as
  the template literals of the bucket labels print it.
- `rent_buckets.dfy` (module `RentBuckets`) — the bucket loop as a method with
  a loop invariant, the two COUNT queries as functions, and the partition
  lemmas. Edges are in yuan and rents in cents, so a rent is compared with
  `edge * 100`.
- `record_store.dfy` (module `RecordStore`) — the table as a class
  `CalcRecords` holding `records: seq<Record>` in insertion order (a row keeps
  the quote's columns, without the half-rate flag the table does not store) and the
  AUTO_INCREMENT counter `nextId`. Its invariant `Valid()` says that ids
  ascend, are below the counter, and that every stored quote is one
  `calcSimpleTax` really produced. The endpoints are methods of the class.

Behaviour of the code a reader might not expect, which the model follows:

- A rent that is missing, zero or negative makes `calcSimpleTax` throw. The
  handler's `catch` answers 500, not a client error (`ApiError.Status`). Only
  an unknown house type gets 400.
- Every record stores both the client id and the openid (index.js:161-162). It
  is the listing that uses exactly one of them, the openid taking precedence.
- A failed INSERT answers 500 and no quote is returned (index.js:180-182). The
  in-memory table never fails, so this path is not modelled.
- The histogram edges are the fixed list `[0, 1000, 2000, 3000, 5000, 8000, 10000]`
  (index.js:242), not a parameter. The bucket method itself takes any edge list
  of numbers below 10^21, which a template literal prints in plain digits.

## Model

| member | source | states |
|---|---|---|
| `TaxCalc.ParseHouseType` | index.js:143-145 | only `"residential"` and `"non_residential"` are accepted, and an accepted name is the name of the category it yields |
| `TaxCalc.HouseTypeNameParses` | index.js:143 | each category's wire name passes the whitelist as that category |
| `TaxCalc.RoundToCent` | index.js:117-118 | the result is the whole number of cents within half a cent of the exact amount, a tie going up |
| `TaxCalc.RoundToCentIsNearest` | index.js:117-118 | no other whole number of cents is nearer to the exact amount |
| `TaxCalc.RoundToCentMonotone` | index.js:117-118 | rounding keeps the order of two amounts |
| `TaxCalc.RoundWholeCents` | index.js:119 | rounding an amount that is already whole cents changes nothing, so rounding the sum of two rounded taxes is their sum |
| `TaxCalc.CalcSimpleTax` | index.js:105-136 | fails exactly when the rent is missing, NaN, zero or negative; otherwise echoes the inputs, takes the rates from the table (non-residential 12%/20% whatever the half flag; residential 2% with the half flag, else 4%, and 10%), makes each base the rent or `max(0, rent - 800)` by its own flag only, with `0 <= base <= rent`, makes each tax base × rate to the nearest cent, and the total exactly the sum of the two taxes |
| `TaxCalc.PropertyDeductionLeavesIncomeAlone` | index.js:111-118 | toggling the property deduction changes neither the income base nor the income tax |
| `TaxCalc.IncomeDeductionLeavesPropertyAlone` | index.js:111-118 | toggling the income deduction changes neither the property base nor the property tax |
| `TaxCalc.PropertyDeductionNeverRaisesTax` | index.js:111-119 | with the property deduction the property tax and the total are never higher than without it |
| `TaxCalc.IncomeDeductionNeverRaisesTax` | index.js:114-119 | with the income deduction the income tax and the total are never higher than without it |
| `TaxCalc.ResidentialExample` | index.js:99-119 | rent 5000, residential, no flags: 200.00 + 500.00 = 700.00 |
| `TaxCalc.ResidentialDeductionsExample` | index.js:99-119 | rent 5000, residential, both deductions: bases 4200, 168.00 + 420.00 = 588.00 |
| `TaxCalc.NonResidentialExample` | index.js:99-119 | rent 10000, non-residential: 1200.00 + 2000.00 = 3200.00 |
| `DecimalText.FromNat` | index.js:251-255 | an edge prints as at least one decimal digit, with no leading zero |
| `DecimalText.FromNatRoundTrip` | index.js:251-255 | reading the printed digits back gives the number |
| `DecimalText.FromNatInjective` | index.js:251-255 | distinct edges print differently |
| `RentBuckets.CountAtLeast` | index.js:252 | the open-ended bucket's COUNT never exceeds the number of rows |
| `RentBuckets.CountBetween` | index.js:256 | a bounded bucket's COUNT never exceeds the number of rows |
| `RentBuckets.Buckets` | index.js:242-262 | one label and one count per edge, in edge order: entry `i` is `"a-b"` with the count of rents in `[a, b)` for consecutive edges, and the last is `"a+"` with the count of rents at or above the last edge |
| `RentBuckets.ExactlyOneBucket` | index.js:246-258 | with ascending edges, a rent at or above the first edge lies in exactly one bucket |
| `RentBuckets.HistogramCountsEveryRent` | index.js:246-262 | with ascending edges and every rent at or above the first edge, the counts add up to the number of rents |
| `RentBuckets.SmallLabelsExample` | index.js:246-258 | edges 0, 1000, 2000 are labelled "0-1000", "1000-2000", "2000+" |
| `RentBuckets.SmallHistogramExample` | index.js:246-262 | those edges over rents 500, 1500, 2500 count one rent per bucket |
| `RecordStore.ApiError.Status` | index.js:144 | 400 exactly for an unknown house type, and 500 for every other error (thrown by the calculator, refused by the database) |
| `RecordStore.OpenidOf` | index.js:148 | an empty or absent openid header is no openid; otherwise exactly the first 64 characters of the header, or the whole header when it fits |
| `RecordStore.ClientIdOf` | index.js:149 | an empty client id is no client id; otherwise the client id itself (the cookie middleware always supplies a non-empty one) |
| `RecordStore.ChooseIdentity` | index.js:188-207 | the listing filters by openid exactly when the openid header is non-empty, and otherwise by the client id |
| `RecordStore.MatchesOneColumn` | index.js:193-207 | a listing by openid does not look at the client id column, and one by client id does not look at the openid column |
| `RecordStore.EffectiveLimit` | index.js:190 | no limit means 20; a given limit is capped at 100 and otherwise kept; a negative limit is an error |
| `RecordStore.NewestMatching` | index.js:194-206 | at most `limit` rows, each a stored row of the chosen identity, in strictly decreasing id order, and any matching row left out is older than all those returned and only left out when the limit is reached |
| `RecordStore.NewRecordListedFirst` | index.js:154-206 | a row just appended for an identity heads that identity's next listing |
| `RecordStore.CalcResponse` | index.js:141-146 | the house type is checked before the rent; an unknown house type is `InvalidHouseType`, a bad rent with a known house type is the calculator's error, a known house type with a positive rent always succeeds, and a success is a genuine calculator quote for exactly the request's category, rent and flags |
| `RecordStore.TypeCount` | index.js:227-231 | a category's row count never exceeds the number of rows |
| `RecordStore.TypeCountsAddUp` | index.js:219-232 | the per-category counts of the overview add up to the total count |
| `RecordStore.CalcRecords.constructor` | index.js:27-28 | the table starts empty with the id counter at 1 |
| `RecordStore.CalcRecords.Insert` | index.js:154-177 | appends exactly one row carrying both identities and the quote's stored columns (every field but the half-rate flag, which the table has no column for), with the counter's id, larger than every stored id; the invariant is kept |
| `RecordStore.CalcRecords.CalcSimple` | index.js:139-183 | answers `CalcResponse` of the request; a rejected request leaves the table and counter unchanged; an accepted one appends exactly one row tagged with the request's client id and the header's openid |
| `RecordStore.CalcRecords.MyRecords` | index.js:186-214 | fails exactly for a negative limit; otherwise the newest rows of the chosen identity up to the effective limit, never more than 100, in strictly decreasing id order |
| `RecordStore.CalcRecords.Count` | index.js:89-97 | the number of rows in the table |
| `RecordStore.CalcRecords.StatsBuckets` | index.js:240-267 | the labels and counts of the fixed edges over the stored rents, and the counts add up to the number of rows |

## Left out

- HTTP plumbing: Express setup, CORS and logging middleware, the static page, `/api/ping`, `app.listen` and `bootstrap` (index.js:54-60, 80-86, 269-274).
- The client-id cookie and its `uuidv4` generation (index.js:62-78): random and a side effect on the response; the client id is an opaque input string.
- The MySQL pool and `ensureSchema` DDL (index.js:11-52): the table is an in-memory sequence, so the store never fails and the 500 answers for database errors (index.js:180-182, 211-213) and the `{code:0, data:0}` fallback of `/api/count` (index.js:93-96) are not modelled.
- Column limits of the schema: a rent beyond `DECIMAL(10,2)` or identities longer than `VARCHAR(64)` would be refused or cut by the database depending on its mode; the model stores any value.
- `created_at` timestamps, and the UA and IP strings (index.js:150-152): advisory metadata never read by the logic.
- `RecordStore.CalcRecords.MyRecords`: returns whole stored rows (the table's columns other than `ua`, `ip` and `created_at`), not the nine projected columns of the SELECT.
- `RecordStore.EffectiveLimit`: a non-numeric or fractional `limit` (NaN or a decimal passed to the database) is not modelled; a negative limit is modelled as refused by the database, which is an assumption about MySQL's LIMIT placeholder.
- The averages and sums of `/api/stats/overview` (index.js:219-226): decimal averaging inside the database; only the per-category counts are modelled.
- Binary floating point: `Number()` coercion and the binary-float behaviour of `toFixed` (index.js:117-123, 142); the model takes the rent as exact cents, so the rounding of the echoed rent and bases (index.js:123, 127-128) is the identity. An infinite rent is not modelled.
- JavaScript truthiness of the body flags (`!!propDeduction`, index.js:146): the model takes them as booleans, so a form field holding the text "false" (which is truthy) is not modelled.
- `TaxCalc.CalcSimpleTax`: takes a checked category; called with any other string, the JavaScript function falls back to residential rates (index.js:108-109), but its only caller rejects such strings first.
- `RecordStore.OpenidOf`: cuts at 64 Dafny characters, where JavaScript's `slice` counts UTF-16 code units.
- Concurrent inserts: AUTO_INCREMENT under concurrency is modelled as one insert at a time.
- `RecordStore.Matches`: compares identities by exact string equality. The table has no explicit collation (index.js:50), so MySQL's default utf8mb4 collation applies to `WHERE openid = ?` and `WHERE client_id = ?` (index.js:197, 204); it ignores case and accents (and, under `utf8mb4_general_ci`, trailing spaces), so identities differing only in those ways share rows in the program but not in the model.
- `RecordStore.CalcRecords.StatsBuckets`: reads the whole table as one snapshot. The program runs one COUNT query per bucket with no transaction around them (index.js:246-262), so an INSERT landing between two queries can make the counts add up to no single table size; `Total(counts) == |records|` holds only when no insert interleaves.
