# A verified model of the portfolio tracker's core

The system is a personal portfolio tracker (a FastAPI backend over SQLite). Transactions are
imported from CSV files or entered through the API. The holdings and the realized and latent
P&L are recomputed from them by a FIFO ledger. Snapshots of the totals are stored
periodically. Prices come from Euronext's live-data endpoints. A series of Alembic
migrations reshape the `transactions` and `holdings` tables.

This project models that core in Dafny and proves properties of the model:

- `fifo.dfy`: the FIFO lot ledger `FIFOPortfolio`. It is a class whose dictionary of asset
  states is a field, and `sell`'s `while` loop is proved against a recursive specification.
  Quantity and cost are conserved, lots are consumed oldest first, and oversells are
  realized at zero cost.
- `holdings.dfy`: `compute_holdings`. The sorted replay of the transactions drives a
  `FifoPortfolio`. This file covers the routing of cash sells, the valuation of each open
  position, and the totals.
- `portfolio_api.dfy`: the `/portfolio/holdings` summary and the `/portfolio/pnl` ordering.
- `snapshots.dfy`: `run_snapshot`. Portfolio types are folded through the alias table, the
  market values are bucketed into PEA, crypto and other, and the snapshot and its holding
  rows are stored.
- `importer.dfy` and `decimals.dfy`: the CSV importer. This covers row normalisation,
  `decimal.Decimal` text round-trips, the deterministic `transaction_uid`, and the upsert
  by identifier and then by identical content.
- `euronext.dfy` and `identifiers.dfy`: the Euronext client. This covers identifier
  validation, price extraction, candidate selection, and its four read-through caches.
- `transaction_schemas.dfy`: the renaming between the API field names and the stored ones.
- `config.dfy`: the expansion of relative SQLite paths.
- `migration_0002.dfy`, `migration_0004.dfy`, `migration_0005.dfy`, `instruments.dfy`
  (migration 0006) and `backfill.dfy`: the data passes of those migrations, what they share,
  and their idempotence.
- `base.dfy` and `text.dfy` hold `Option`/`Result` and the string operations of Python and
  SQL that the rest uses.

Python floats are modelled as `real`. Dictionaries are maps, with the insertion order kept
where the source iterates over them. Database tables are sequences or arrays of rows. The
clock, SHA-1, ISO-8601 parsing, pathlib's working directory and the HTTP responses are
parameters.

Where the code and the way it is used disagree, the model follows the code:

- `HoldingView` (`backend/app/services/portfolio.py`, lines 15-27) has no `identifier`,
  `account_id`, `symbol`, `isin` or `mic` field.
- Yet `backend/app/api/portfolio.py` and `backend/app/workers/snapshots.py` read those
  fields.
- The model gives `compute_holdings` the fields it actually builds. The endpoint and the
  worker take the extra fields as inputs of their own.

## Model

| member | source | states |
|---|---|---|
| Fifo.ConsumeLots | backend/app/services/fifo.py:42-56 | an unsold remainder above the loop's epsilon is left only once every lot is consumed; no lot is added |
| Fifo.ReduceKeepsUnitCost | backend/app/services/fifo.py:50-52 | a partly consumed lot keeps its cost per unit |
| Fifo.ConsumeKeepsLaterLots | backend/app/services/fifo.py:42-56 | lots are consumed oldest first: every lot after the first remaining one is untouched |
| Fifo.ConsumeHead | backend/app/services/fifo.py:42-56 | the first remaining lot is either untouched or reduced by exactly what was left to sell after the earlier lots were consumed whole, leaving nothing unsold |
| Fifo.ConsumeConserves | backend/app/services/fifo.py:42-56 | the quantity that leaves the lots is the quantity sold less the remainder; the realized P&L is the proceeds share for that quantity minus the cost that left; selling nothing changes nothing |
| Fifo.SellLots | backend/app/services/fifo.py:37-68 | a shortfall above the epsilon remains only when no lot is left |
| Fifo.SaleConservesQuantity | backend/app/services/fifo.py:42-65 | the lots lose exactly the quantity sold less the shortfall |
| Fifo.SaleOversell | backend/app/services/fifo.py:58-65 | an oversell empties the lots and realizes the whole net proceeds minus the cost of all lots (the excess at zero cost) |
| Fifo.SaleCovered | backend/app/services/fifo.py:42-65 | a covered sale realizes the net-proceeds share of the quantity consumed minus the cost consumed; a shortfall under 1e-6 is dropped |
| Fifo.SaleOfNothing | backend/app/services/fifo.py:42-58 | selling at most 1e-12 leaves the lots and realizes zero |
| Fifo.PartialSellExample | backend/tests/test_fifo.py:6-14 | two lots of 1 at 10000 and 12000, selling 1.5 for 18000 realizes 2000 and leaves 0.5 costing 6000 |
| Fifo.Touch | backend/app/services/fifo.py:23-24 | `setdefault` adds an empty state at the end of the order for an unseen key, leaves a known key as it is, and changes no state |
| Fifo.Update | backend/app/services/fifo.py:23-24 | writing one asset's state keeps the order `setdefault` gives and every other asset's state |
| Fifo.LedgerBuy | backend/app/services/fifo.py:26-28 | a buy appends one lot with the quantity and total cost, keeps the realized P&L, and changes no other asset |
| Fifo.LedgerSell | backend/app/services/fifo.py:30-68 | a sell adds the returned P&L to the asset's realized P&L, leaves the lots `SellLots` computes, and changes no other asset |
| Fifo.LedgerDividend | backend/app/services/fifo.py:70-72 | a dividend adds the amount to realized P&L only |
| Fifo.BuyAddsToPosition | backend/app/services/fifo.py:74-78 | after a buy the position is the old quantity and cost plus the bought ones |
| Fifo.FifoPortfolio.constructor | backend/app/services/fifo.py:20-21 | a new portfolio holds the empty ledger |
| Fifo.FifoPortfolio.GetState | backend/app/services/fifo.py:23-24 | returns the asset's state and leaves the ledger as `setdefault` makes it |
| Fifo.FifoPortfolio.Buy | backend/app/services/fifo.py:26-28 | the new ledger is `LedgerBuy` of the old |
| Fifo.FifoPortfolio.Sell | backend/app/services/fifo.py:30-68 | the in-place loop over the lot list gives the ledger and the P&L of `LedgerSell` |
| Fifo.FifoPortfolio.Dividend | backend/app/services/fifo.py:70-72 | the new ledger is `LedgerDividend` of the old |
| Fifo.FifoPortfolio.CurrentPosition | backend/app/services/fifo.py:74-78 | returns the summed quantity and cost of the asset's lots; the only change is `setdefault`'s |
| Holdings.SortByTsId | backend/app/services/portfolio.py:44 | the query order is a permutation of the table |
| Holdings.SortByTsIdSorted | backend/app/services/portfolio.py:44 | the query order is sorted by `ts`, then `id` |
| Holdings.StepRouting | backend/app/services/portfolio.py:49-76 | BUY adds a lot costing total plus fee; a cash SELL adds total minus fee and moves no lot; another SELL adds what FIFO realizes; DIVIDEND credits total minus fee to the position and the total; other operations add the total; no other key changes |
| Holdings.CashSellOfCurrency | backend/app/services/portfolio.py:55-65 | a SELL of asset `USD` without a symbol is a cash sell |
| Holdings.SellOfStockIsNotCash | backend/app/services/portfolio.py:55-65 | a SELL of a stock whose asset and symbol differ is not a cash sell |
| Holdings.CashSellOtherForms | backend/app/services/portfolio.py:61-65 | a currency code as both asset and symbol in any case, or as symbol with a blank asset, is a cash sell |
| Holdings.ReplayWellFormed | backend/app/services/portfolio.py:49-76 | every ledger the replay builds has its order and its keys in agreement |
| Holdings.MarketPricePlaceholder | backend/app/services/portfolio.py:33-39 | the placeholder price is positive |
| Holdings.PlaceholderTable | backend/app/services/portfolio.py:33-39 | BTC is 65000 and ETH 3500 whatever the case, and any other symbol 100 |
| Holdings.MakeHolding | backend/app/services/portfolio.py:84-103 | value is price times quantity, P&L is value less invested, PRU times quantity is invested, the percentage is P&L over invested (zero when nothing is invested), and the type is CRYPTO exactly for BTC and ETH, else PEA |
| Holdings.ValuationExactlyOpen | backend/app/services/portfolio.py:80-83 | the holdings are exactly the positions above 1e-12 in insertion order, each valued from its own quantity and cost |
| Holdings.SumsBalance | backend/app/services/portfolio.py:105-110 | summed value less summed invested is summed P&L when each holding balances |
| Holdings.TotalsBalance | backend/app/services/portfolio.py:105-110 | total value less total invested is the latent P&L, and every holding is an open position |
| Holdings.EmptyHistory | backend/app/services/portfolio.py:43-112 | no transactions give no holdings and all-zero totals |
| Holdings.FiatSellExample | backend/tests/test_portfolio_holdings.py:22-78 | buy 10 ACME for 1000, sell 5 for 600, then a cash sell of USD for 150 gives realized 250 and one ACME holding of 5 costing 500 |
| Holdings.ApplyTransaction | backend/app/services/portfolio.py:49-76 | one loop turn on the `FifoPortfolio` object gives the ledger and running total of `Step` |
| Holdings.ApplyBuy | backend/app/services/portfolio.py:52-53 | a BUY calls `buy` on the object with the total plus the fee, as `Step` does |
| Holdings.ApplySell | backend/app/services/portfolio.py:54-69 | a SELL is either a cash sell that only adds total less fee, or a FIFO `sell` on the object whose P&L is added, as `Step` does |
| Holdings.ApplyDividend | backend/app/services/portfolio.py:70-72 | a DIVIDEND credits total less fee on the object and to the running total, as `Step` does |
| Holdings.ReplayTransactions | backend/app/services/portfolio.py:45-76 | the first loop leaves a fresh `FifoPortfolio` and running total equal to the pure replay `ReplayAll` of the transactions |
| Holdings.ValuePositions | backend/app/services/portfolio.py:78-103 | the second loop leaves the ledger unchanged and yields the pure `Valuation` of the positions in insertion order |
| Holdings.ComputeHoldings | backend/app/services/portfolio.py:43-112 | the method's two loops compute the pure specification `ComputeHoldingsSpec` |
| PortfolioApi.Responses | backend/app/api/portfolio.py:28-45 | one response per computed holding |
| PortfolioApi.ResponsesMirrorHoldings | backend/app/api/portfolio.py:28-45 | each response carries its holding's fields unchanged, in order |
| PortfolioApi.GetHoldings | backend/app/api/portfolio.py:26-56 | the holdings of the response are the mirrored entries |
| PortfolioApi.SummaryArithmetic | backend/app/api/portfolio.py:46-55 | value and invested are sums over the entries, P&L is their difference, and the percentage is summed P&L over summed invested times 100, or zero when nothing is invested |
| PortfolioApi.SummaryIgnoresTotals | backend/app/api/portfolio.py:46-55 | the summary never reads the totals returned beside the holdings |
| PortfolioApi.PnlMatchesPercent | backend/app/api/portfolio.py:51-54 | when every entry balances and something is invested, the P&L is invested times the percentage over 100 |
| PortfolioApi.NothingInvestedExample | backend/app/api/portfolio.py:52-54 | with nothing invested the percentage is 0 even with a P&L of 5 |
| PortfolioApi.SummaryOfPortfolio | backend/app/api/portfolio.py:27-55 | fed by `compute_holdings`, the summary's value and invested equal the service's totals and its P&L is the latent P&L |
| PortfolioApi.Reversed | backend/app/api/portfolio.py:113 | element i is element n-1-i of the input |
| PortfolioApi.GetPnl | backend/app/api/portfolio.py:104-113 | one point per snapshot row |
| PortfolioApi.GetPnlOldestFirst | backend/app/api/portfolio.py:108-113 | the points are the rows taken from the last; rows newest first give points oldest first |
| Snapshots.AddGroupSpec | backend/app/workers/snapshots.py:32-37 | one outer-loop pass maps exactly the group's normalised names to its normalised canonical name, leaving other keys |
| Snapshots.AliasLookupSpec | backend/app/workers/snapshots.py:31-37 | the lookup's keys are the normalised names of both groups; crypto names map to CRYPTO, PEA names to PEA unless a crypto name collides |
| Snapshots.AliasesMapToCanonical | backend/app/workers/snapshots.py:14-37 | with non-colliding groups, each alias and canonical name maps to its canonical type |
| Snapshots.BuildAliasLookup | backend/app/workers/snapshots.py:31-37 | the nested loops build `AliasLookup` |
| Snapshots.NormalizeSnapshotType | backend/app/workers/snapshots.py:40-42 | the result is the normalised value or a normalised canonical name |
| Snapshots.UnknownTypeUnchanged | backend/app/workers/snapshots.py:40-42 | a type outside the table comes back normalised |
| Snapshots.AliasTypeCanonical | backend/app/workers/snapshots.py:40-42 | an alias comes back as its canonical name |
| Snapshots.NormalizeSnapshotTypeIdempotent | backend/app/workers/snapshots.py:40-42 | with an idempotent normaliser and separated groups, normalising twice is normalising once |
| Snapshots.IdentitySeparated | backend/app/workers/snapshots.py:14-29 | the written PEA and crypto names do not collide |
| Snapshots.IdentityNormalizerExamples | backend/app/workers/snapshots.py:14-42 | `PEA JEUNE LCL` becomes PEA and `CRYPTO_BINANCE` becomes CRYPTO |
| Snapshots.IdentityUnknownExample | backend/app/workers/snapshots.py:40-42 | `CTO` stays `CTO` |
| Snapshots.NormalizeHoldings | backend/app/workers/snapshots.py:55-57 | one holding per input, only its type replaced by the normalised one |
| Snapshots.BucketsPartition | backend/app/workers/snapshots.py:58-66 | PEA, crypto and other buckets add up to the whole market value |
| Snapshots.NormalizeKeepsTotal | backend/app/workers/snapshots.py:55-57 | renaming types changes no market value total |
| Snapshots.SnapshotOf | backend/app/workers/snapshots.py:65-75 | the total is the summed market value, the P&L is realized plus latent, and the id and time are the given ones |
| Snapshots.StoredRowsAsWritten | backend/app/workers/snapshots.py:80-99 | one row per holding, without a snapshot id |
| Snapshots.StoredRows | backend/app/workers/snapshots.py:80-99 | one row per holding, linked to the snapshot |
| Snapshots.AsWrittenLeavesSnapshotIdUnset | backend/app/workers/snapshots.py:80-99 | as written, a non-empty set of holdings is stored with `snapshot_id` unset |
| Snapshots.StoredRowsLinked | backend/app/models/holdings.py:16-21 | linked rows satisfy the NOT NULL foreign key and carry each holding's normalised type, value, asset and quantity |
| Snapshots.Database.constructor | backend/app/workers/snapshots.py:45 | an empty database |
| Snapshots.SplitIntoBuckets | backend/app/workers/snapshots.py:55-63 | the loop yields the normalised holdings and the three bucket sums |
| Snapshots.BuildStoredRows | backend/app/workers/snapshots.py:80-99 | the loop yields the rows linked to the snapshot |
| Snapshots.RunSnapshot | backend/app/workers/snapshots.py:45-117 | appends exactly one snapshot (`SnapshotOf` with the next id) and its linked holding rows; returns the other-bucket value |
| Snapshots.SnapshotOfPortfolio | backend/app/workers/snapshots.py:48-75 | fed by `compute_holdings`, the snapshot's total is the portfolio value and its P&L is realized plus value less invested |
| CsvImport.NormalizeOptionalText | backend/app/services/importer.py:98-106 | the stripped text, non-empty and not `none`; `None` exactly for a missing, blank or `none` value |
| CsvImport.NormalizeOptionalTextIdempotent | backend/app/services/importer.py:98-106 | normalising twice is normalising once |
| CsvImport.NormalizeOptionalTextToString | backend/app/services/importer.py:109-111 | empty exactly when the optional form is `None` |
| CsvImport.ParseRequiredText | backend/app/services/importer.py:114-118 | succeeds exactly on non-blank text, giving it stripped; otherwise the missing-value error for the field |
| CsvImport.ParseDecimalField | backend/app/services/importer.py:121-135 | blank gives the default, or a missing-value error without one; other text is parsed, or an invalid-decimal error |
| CsvImport.ParseOptionalDecimal | backend/app/services/importer.py:149-156 | blank gives no value; other text succeeds exactly when it parses |
| CsvImport.ReplaceChar | backend/app/services/importer.py:143 | a replacement without the character leaves none of it |
| CsvImport.ParseTimestamp | backend/app/services/importer.py:138-146 | blank is a missing-value error; a result is what the parser gives on the text with `Z` read as `+00:00`; other failures are invalid-date errors |
| CsvImport.BuildNormalizedFields | backend/app/services/importer.py:166-203 | the fields contain `id` and every UID field |
| CsvImport.FieldsDependOnValuesOnly | backend/app/services/importer.py:159-163 | equal quantities written differently (`1`, `1.000`) give the same fields |
| CsvImport.MissingUidFieldsOf | backend/app/services/importer.py:285 | exactly the UID fields absent from the map |
| CsvImport.FieldValues | backend/app/services/importer.py:291-293 | the values of the UID fields, in order |
| CsvImport.BuildTransactionUid | backend/app/services/importer.py:278-295 | an explicit id wins; otherwise it fails exactly when a UID field is missing, listing them, and is `import_` plus the hash of the joined fields |
| CsvImport.GeneratedUidIgnoresOtherFields | backend/app/services/importer.py:285-295 | the generated id depends only on the UID fields |
| CsvImport.JoinInjective | backend/app/services/importer.py:291-293 | joining separator-free fields with `\x1f` loses nothing |
| CsvImport.PayloadInjective | backend/app/services/importer.py:291-293 | two rows with the same payload agree on every UID field, so only a SHA-1 collision can merge distinct rows |
| CsvImport.PrepareRow | backend/app/services/importer.py:206-275 | the prepared row carries the normalised id, source, symbol and notes; fee defaults to 0; a blank source is reported first |
| CsvImport.Fields | backend/app/services/importer.py:243-260 | the fields of a prepared row contain every UID field |
| CsvImport.FeeDefaultsToZero | backend/app/services/importer.py:237 | a missing fee is 0 and is written `0` |
| CsvImport.MissingQuantityRejected | backend/app/services/importer.py:224-231 | a missing quantity is reported once the text fields before it are present |
| CsvImport.ComputeTransactionUid | backend/app/services/importer.py:298-302 | fails exactly with the preparation's error; a prepared row always gets an id |
| CsvImport.ExplicitIdWins | backend/app/services/importer.py:281-283 | a non-blank `id` column is the identifier |
| CsvImport.RowData | backend/app/services/importer.py:389-424 | the stored data has the lookup's functional fields, the identifier, and `symbol or isin` as `symbol_or_isin` |
| CsvImport.LookupNotes | backend/app/services/importer.py:404 | the lookup's notes are the normalised notes or `None` |
| CsvImport.IndicesWhereSpec | backend/app/services/importer.py:428-432 | the filter lists exactly the matching records, each once, in order |
| CsvImport.Upsert | backend/app/services/importer.py:428-443 | fails only with multiple rows found; otherwise adds at most one record |
| CsvImport.UpsertIdentical | backend/app/services/importer.py:438-443 | the functional lookup fails only when ambiguous and adds at most one record |
| CsvImport.UpsertOutcome | backend/app/services/importer.py:428-443 | a new record is appended only when nothing matches by identifier or content; otherwise one record is overwritten; the data is stored |
| CsvImport.UpsertIdenticalOutcome | backend/app/services/importer.py:438-443 | appends only when no identical record exists, else overwrites one |
| CsvImport.UpsertFailsWhenAmbiguous | backend/app/services/importer.py:428-443 | the upsert fails exactly when the identifier lookup, or the content lookup after no identifier match, finds more than one record |
| CsvImport.UpsertKeepsUniqueUids | backend/app/services/importer.py:428-443 | unique identifiers stay unique |
| CsvImport.UniqueUidsFindOne | backend/app/services/importer.py:428-432 | with unique identifiers the lookup finds at most one |
| CsvImport.UpsertExistingUid | backend/app/services/importer.py:434-436 | a stored identifier is overwritten in place: same length, same identifiers |
| CsvImport.UpsertIdempotent | backend/app/services/importer.py:428-443 | upserting the same data again changes nothing |
| CsvImport.MissingColumnsOf | backend/app/services/importer.py:367 | exactly the required columns absent from the header |
| CsvImport.CheckHeader | backend/app/services/importer.py:365-369 | succeeds exactly with a non-empty header naming every required column; otherwise a missing-header or missing-columns error |
| CsvImport.ProcessRow | backend/app/services/importer.py:371-443 | a row's reading error carries its record number, counting from 2; a read row is upserted |
| CsvImport.ProcessRows | backend/app/services/importer.py:371-443 | the table grows by at most one record per row |
| CsvImport.ImportTransactions | backend/app/services/importer.py:362-444 | a header error is the result |
| CsvImport.ProcessRowsKeepsUniqueUids | backend/app/services/importer.py:371-444 | an import keeps identifiers unique |
| CsvImport.ReimportAddsNothing | backend/app/services/importer.py:371-444 | re-importing rows whose identifiers are stored keeps the table's length and identifiers |
| CsvImport.ProcessRowsStopsAtError | backend/app/services/importer.py:425-426 | once a row fails, the import fails with that row's error |
| CsvImport.Importer.constructor | backend/app/services/importer.py:330-331 | the importer holds the given table |
| CsvImport.Importer.ImportTransactionsCsv | backend/app/services/importer.py:362-444 | on success the table is the import's result; on failure the error is returned and the table is unchanged |
| Decimals.Normalize | backend/app/services/importer.py:160 | `normalize()` keeps the sign and value and gives a normal form |
| Decimals.NormalizeCanonical | backend/app/services/importer.py:160 | equal values normalise to the same decimal |
| Decimals.NormalCanonical | backend/app/services/importer.py:160 | two normal decimals of the same value are equal |
| Decimals.NormalOfNormal | backend/app/services/importer.py:160 | a normal decimal is its own normal form |
| Decimals.RStrip | backend/app/services/importer.py:162 | `rstrip` gives a prefix that does not end in the character |
| Decimals.DecimalToStringCanonical | backend/app/services/importer.py:159-163 | the text depends only on the value |
| Decimals.WholeHasNoPoint | backend/app/services/importer.py:160-162 | a whole number is written without a point |
| Decimals.FractionEndsInLastDigit | backend/app/services/importer.py:160-162 | a fraction ends in its coefficient's last digit |
| Decimals.DecimalToStringIsFormat | backend/app/services/importer.py:159-163 | the stripping removes nothing: the text is `format(value.normalize(), "f")` |
| Decimals.ParseDigits | backend/app/services/importer.py:133 | digits read back as their value |
| Decimals.ParsePointed | backend/app/services/importer.py:133 | digits with a point read back with the exponent minus the fraction's length |
| Decimals.DecimalToStringRoundTrip | backend/app/services/importer.py:154-163 | reading the text back gives the same normal form |
| Decimals.ParseFraction | backend/app/services/importer.py:133 | `1.000` keeps its exponent -3 |
| Decimals.ParseNegative | backend/app/services/importer.py:133 | `-2` is negative two |
| Decimals.ParseRejectsText | backend/app/services/importer.py:132-135 | `abc`, the empty string and `.` are rejected |
| Decimals.ToStringOfFraction | backend/app/services/importer.py:159-163 | `1.000` is written `1` |
| Decimals.ToStringOfHundred | backend/app/services/importer.py:159-163 | `100` and `1E+2` are both written `100` |
| Decimals.ToStringOfHalf | backend/app/services/importer.py:159-163 | `0.50` is written `0.5` |
| Euronext.Get | backend/app/services/euronext.py:104 | a missing key reads as null |
| Euronext.MicSetsAgree | backend/app/services/euronext.py:29-36 | the client's Euronext MICs are migration 0006's |
| Euronext.Normalize | backend/app/services/euronext.py:65-66 | the result has no surrounding whitespace and is empty exactly for blank input |
| Euronext.NormalizeJson | backend/app/services/euronext.py:65-66 | falsy values give `""`, strings are normalised, and any other truthy value fails |
| Euronext.NormalizeIdempotent | backend/app/services/euronext.py:65-66 | normalising twice is normalising once |
| Euronext.ResolveParams | backend/app/services/euronext.py:233-250 | fails only as missing, unsupported or unknown market; success sends the issue as both parameter and cache key, with no aliases |
| Euronext.ResolveRoundTrip | backend/app/services/euronext.py:249-250 | the issue sent is the normalised identifier |
| Euronext.ResolveAcceptsExactly | backend/app/services/euronext.py:233-250 | accepted exactly when the normalised identifier is `SYMBOL-ISIN-XMIC` with a Euronext MIC |
| Euronext.ResolveRejectsBareIsin | backend/app/services/euronext.py:238-240 | a bare ISIN is unsupported |
| Euronext.ResolveRejectsSuffix | backend/app/services/euronext.py:238-240 | `MC.PA` is unsupported |
| Euronext.ResolvePadded | backend/app/services/euronext.py:234-250 | surrounding blanks are accepted and dropped from the issue |
| Euronext.ResolveExample | backend/app/services/euronext.py:233-250 | ` AIR-NL0000235190-XPAR ` is accepted |
| Euronext.ToFloat | backend/app/services/euronext.py:267-270 | the only failure is an invalid price |
| Euronext.ExtractPrice | backend/app/services/euronext.py:253-280 | fails only with the four payload errors; success means an object with an accepted currency |
| Euronext.ExtractPriceSource | backend/app/services/euronext.py:261-270 | `lastPrice` is read when present, else `last`; neither is a missing-price error |
| Euronext.ExtractPriceCurrency | backend/app/services/euronext.py:272-280 | given a readable price, success exactly when the currency is absent, not a string, blank, EUR or EURO |
| Euronext.ExtractPriceFromData | backend/app/services/euronext.py:254-256 | an object under `data` is read instead of the top level |
| Euronext.ExtractPriceRejectsDollars | backend/app/services/euronext.py:275-278 | USD is an unsupported currency |
| Euronext.Objects | backend/app/services/euronext.py:74 | the dictionaries among the items, no more |
| Euronext.FirstList | backend/app/services/euronext.py:71-73 | the first key whose value is a list, or none |
| Euronext.ExtractLookupCandidates | backend/app/services/euronext.py:69-78 | a list gives its objects; anything but an object or a list gives nothing |
| Euronext.CandidatesOfObject | backend/app/services/euronext.py:70-75 | an object gives the objects of `data`, else `results`, and so on, or itself |
| Euronext.SelectFirstSpec | backend/app/services/euronext.py:103-120 | the selection is the first candidate that yields, after all earlier ones yielded nothing; nothing exactly when none yields |
| Euronext.FindFirst | backend/app/services/euronext.py:103-120 | the loop with its early return computes `SelectFirst` |
| Euronext.IsinSearchPick | backend/app/services/euronext.py:104-120 | a chosen candidate gives a non-empty symbol and a Euronext MIC |
| Euronext.IsinSearchPickMatches | backend/app/services/euronext.py:104-109 | the chosen candidate has no ISIN or the searched one, and its symbol is the result |
| Euronext.SymbolSearchPick | backend/app/services/euronext.py:155-184 | the result is an ISIN and a Euronext MIC, the requested MIC when one was given |
| Euronext.SymbolSearchPickMatches | backend/app/services/euronext.py:156-160 | the chosen candidate carries exactly the searched symbol |
| Euronext.LookupPick | backend/app/services/euronext.py:213-228 | a chosen candidate gives a non-empty symbol and a Euronext MIC |
| Euronext.SearchByIsin | backend/app/services/euronext.py:81-122 | blank and malformed ISINs fail first; a cached ISIN is answered from the cache; only a success writes, under the normalised ISIN |
| Euronext.SearchBySymbol | backend/app/services/euronext.py:125-188 | a blank symbol or an unknown market fails; only a success writes, under the symbol-and-market key |
| Euronext.LookupByIsin | backend/app/services/euronext.py:191-230 | the same validation, read-through and write rule on the lookup cache |
| Euronext.FetchPriceOf | backend/app/services/euronext.py:283-348 | a blank identifier fails; a cached one is answered from the cache; a failure leaves the cache |
| Euronext.StoreAll | backend/app/services/euronext.py:346-347 | the aliases' entries are the price, other entries unchanged |
| Euronext.FetchStoresUnderIdentifier | backend/app/services/euronext.py:344-347 | a fetched price adds exactly one entry, under the normalised identifier |
| Euronext.FetchCachedSecondCall | backend/app/services/euronext.py:290-293 | after a success, fetching again returns the same price whatever the endpoint says |
| Euronext.SymbolCacheKeyCollision | backend/app/services/euronext.py:134-136 | `AB-XPAR` on no market and `AB` on XPAR share a cache key |
| Euronext.SearchCachedSecondCall | backend/app/services/euronext.py:88-91 | after a successful search, searching again returns the same answer |
| Euronext.SearchByIsinSelects | backend/app/services/euronext.py:103-120 | a successful search answers with the first qualifying candidate, every earlier one passed over |
| Euronext.SearchBySymbolSelects | backend/app/services/euronext.py:155-183 | a successful uncached symbol search answers with the first candidate with that symbol, a compatible Euronext market and a valid ISIN, every earlier one passed over |
| Euronext.LookupByIsinSelects | backend/app/services/euronext.py:213-228 | a successful uncached ISIN lookup answers with the first candidate with a symbol and a Euronext market, every earlier one passed over |
| Euronext.EuronextClient.constructor | backend/app/services/euronext.py:23-28 | the four caches start empty |
| Euronext.EuronextClient.ClearCache | backend/app/services/euronext.py:351-357 | empties all four caches |
| Euronext.EuronextClient.SearchInstrumentByIsin | backend/app/services/euronext.py:81-122 | the result and the new search cache are `SearchByIsin`'s |
| Euronext.EuronextClient.SearchInstrumentBySymbol | backend/app/services/euronext.py:125-188 | the result and the new symbol cache are `SearchBySymbol`'s |
| Euronext.EuronextClient.LookupInstrumentByIsin | backend/app/services/euronext.py:191-230 | the result and the new lookup cache are `LookupByIsin`'s |
| Euronext.EuronextClient.FetchPrice | backend/app/services/euronext.py:283-348 | the result and the new price cache are `FetchPriceOf`'s |
| Identifiers.IsinIsUpperAlnum | backend/app/services/euronext.py:43 | an ISIN is all `[A-Z0-9]` |
| Identifiers.IsinRegexOnTrimmed | backend/app/services/euronext.py:43 | without trailing whitespace the ISIN expression matches exactly the ISIN shape |
| Identifiers.IsinRegexNewlineQuirk | backend/app/services/euronext.py:43 | `$` also accepts a code followed by a newline |
| Identifiers.UpperAlnumStable | backend/app/services/euronext.py:65-66 | `[A-Z0-9]` strings are left alone by strip, upper and space removal |
| Identifiers.MatchIssue | backend/app/services/euronext.py:40-42 | a match is a well-formed issue |
| Identifiers.MatchIssueSound | alembic/versions/0006_normalize_transaction_instrument_fields.py:46-48 | a match is the input written as that issue with two accepted separators |
| Identifiers.MatchIssueComplete | alembic/versions/0006_normalize_transaction_instrument_fields.py:46-48 | every issue written with accepted separators is matched with its own parts |
| Identifiers.IssueTextIsNormal | backend/app/services/euronext.py:234 | an issue string is already stripped and upper-case |
| Instruments.EuronextMicsAre | alembic/versions/0006_normalize_transaction_instrument_fields.py:23-37 | the MICs are the six Euronext venues |
| Instruments.EuronextMicsAreIssueMics | alembic/versions/0006_normalize_transaction_instrument_fields.py:37 | every Euronext MIC has the shape `X[A-Z0-9]{3}` |
| Instruments.NormalizeSymbol | alembic/versions/0006_normalize_transaction_instrument_fields.py:70-74 | a value exactly for non-blank input, never empty |
| Instruments.NormalizeIsin | alembic/versions/0006_normalize_transaction_instrument_fields.py:77-83 | a kept value matches the ISIN expression |
| Instruments.NormalizeMic | alembic/versions/0006_normalize_transaction_instrument_fields.py:86-94 | a value exactly for non-blank input, never empty |
| Instruments.NormalizeSymbolNormal | alembic/versions/0006_normalize_transaction_instrument_fields.py:70-74 | a normalised symbol is stripped and upper-case |
| Instruments.NormalizeIsinOfStripped | alembic/versions/0006_normalize_transaction_instrument_fields.py:77-83 | on stripped input a kept ISIN has the exact shape and is normal |
| Instruments.NormalizeMicNormal | alembic/versions/0006_normalize_transaction_instrument_fields.py:86-94 | a normalised MIC is in normal form |
| Instruments.NormalizeMicTotal | alembic/versions/0006_normalize_transaction_instrument_fields.py:86-94 | a non-blank MIC always normalises to something truthy |
| Instruments.MatchCombined | alembic/versions/0006_normalize_transaction_instrument_fields.py:39-41 | a match has an `[A-Z0-9]+` symbol, an ISIN and an optional 2-4 character market, and the input is their concatenation with the separators it contains |
| Instruments.MatchCombinedComplete | alembic/versions/0006_normalize_transaction_instrument_fields.py:39-41 | every `SYMBOL SEP ISIN` or `SYMBOL SEP ISIN SEP MARKET` string is matched, with exactly its own groups |
| Instruments.MatchIsinMarket | alembic/versions/0006_normalize_transaction_instrument_fields.py:42-44 | a match is an ISIN, a separator and a 2-4 character market, and the input is their concatenation |
| Instruments.MatchIsinMarketComplete | alembic/versions/0006_normalize_transaction_instrument_fields.py:42-44 | every `ISIN SEP MARKET` string is matched, with exactly its own parts |
| Instruments.SplitAt | alembic/versions/0006_normalize_transaction_instrument_fields.py:99-104 | a split gives a non-empty normal symbol and MIC |
| Instruments.ExtractSymbolMicSpec | alembic/versions/0006_normalize_transaction_instrument_fields.py:97-105 | a result is a non-empty normal symbol and MIC |
| Instruments.ExtractFirstHit | alembic/versions/0006_normalize_transaction_instrument_fields.py:97-105 | the result is the split at the first separator that yields; nothing exactly when none yields |
| Instruments.ExtractSymbolMic | alembic/versions/0006_normalize_transaction_instrument_fields.py:97-105 | the loop over `- . : @ /` computes `ExtractSymbolMicSpec` |
| Instruments.SuffixKeys | alembic/versions/0006_normalize_transaction_instrument_fields.py:23-36 | the suffix table has the twelve listed keys |
| Instruments.NormalizeSuffixExample | alembic/versions/0006_normalize_transaction_instrument_fields.py:94 | the suffix `PA` becomes XPAR |
| Instruments.ParseIsNormal | alembic/versions/0006_normalize_transaction_instrument_fields.py:108-142 | every parsed field is in normal form |
| Instruments.ParseBlank | alembic/versions/0006_normalize_transaction_instrument_fields.py:109-113 | blank input parses to nothing |
| Instruments.ParseBareIsin | alembic/versions/0006_normalize_transaction_instrument_fields.py:135-136 | a bare ISIN yields only the ISIN |
| Instruments.ParseIssue | alembic/versions/0006_normalize_transaction_instrument_fields.py:115-120 | an issue string yields its symbol, ISIN and MIC |
| Instruments.ParseFallback | alembic/versions/0006_normalize_transaction_instrument_fields.py:142 | nothing recognised: the whole normalised value is the symbol |
| Instruments.ParseSuffixExample | alembic/versions/0006_normalize_transaction_instrument_fields.py:138-140 | ` mc.pa ` yields symbol MC on XPAR |
| Instruments.ParseCurrencyPairExample | alembic/versions/0006_normalize_transaction_instrument_fields.py:138-140 | `BTC-USD` yields symbol BTC with `USD` as its MIC |
| Instruments.MicRejectBranchDead | alembic/versions/0006_normalize_transaction_instrument_fields.py:238-240 | the branch for a MIC the normaliser rejects never runs |
| Instruments.InstrumentWrites | alembic/versions/0006_normalize_transaction_instrument_fields.py:217-252 | a field is written with its own normal form when that differs, else with the parsed value when it has none, and the parsed value is written whenever the field lacks one |
| Instruments.NormalFieldsKept | alembic/versions/0006_normalize_transaction_instrument_fields.py:227-237 | a field already normal up to surrounding blanks is never written |
| Instruments.SurroundingBlanksKeptExample | alembic/versions/0006_normalize_transaction_instrument_fields.py:219-228 | a symbol ` ACME ` is left as it is |
| Instruments.InstrumentWritesNormal | alembic/versions/0006_normalize_transaction_instrument_fields.py:217-259 | everything written is non-empty and normal |
| Instruments.InstrumentUpdatesIdempotent | alembic/versions/0006_normalize_transaction_instrument_fields.py:217-259 | a second pass writes nothing |
| Instruments.PortfolioTypeSql | alembic/versions/0006_normalize_transaction_instrument_fields.py:152-160 | the backfilled type is never empty |
| Instruments.SqlTrimUpper | alembic/versions/0006_normalize_transaction_instrument_fields.py:157 | SQL `TRIM` and `UPPER` commute |
| Instruments.PortfolioTypeSqlProperties | alembic/versions/0006_normalize_transaction_instrument_fields.py:152-160 | a missing or blank type becomes PEA, and the statement is idempotent |
| Instruments.UidRow | alembic/versions/0006_normalize_transaction_instrument_fields.py:193-205 | only the identifier changes: a blank one becomes `legacy-tx-<id>`, another is stored stripped |
| Instruments.UidRowIdempotent | alembic/versions/0006_normalize_transaction_instrument_fields.py:193-205 | a second pass changes nothing |
| Instruments.UpgradeRowIdempotent | alembic/versions/0006_normalize_transaction_instrument_fields.py:145-259 | running the migration again, at any time, changes nothing |
| Instruments.Upgrade | alembic/versions/0006_normalize_transaction_instrument_fields.py:145-259 | every row becomes its upgraded form |
| Backfill.FillTradeDate | alembic/versions/0004_split_symbol_and_isin.py:125-154 | a set date is kept; otherwise `created_at`, then `ts`, each only when its column exists and the value is set, then the current time |
| Backfill.FillTradeDateIdempotent | alembic/versions/0006_normalize_transaction_instrument_fields.py:162-191 | filling a filled date changes nothing |
| Backfill.LegacyUid | alembic/versions/0004_split_symbol_and_isin.py:196 | the id written after `legacy-tx-` |
| Backfill.LegacyUidInjective | alembic/versions/0004_split_symbol_and_isin.py:196 | distinct rows get distinct legacy identifiers |
| Backfill.LegacyUidNotBlank | alembic/versions/0004_split_symbol_and_isin.py:193-196 | a legacy identifier is never blank, so a later pass keeps it |
| Backfill.SpacelessUpper | alembic/versions/0004_split_symbol_and_isin.py:173 | the result contains no space |
| Backfill.SpacelessUpperIdempotent | alembic/versions/0004_split_symbol_and_isin.py:173 | normalising twice is normalising once |
| Backfill.SplitInstrument | alembic/versions/0004_split_symbol_and_isin.py:166-180 | a written value is non-blank to both Python and SQL |
| Backfill.SplitInstrumentCases | alembic/versions/0004_split_symbol_and_isin.py:166-180 | skipped exactly for a blank value or an existing symbol or ISIN; an ISIN exactly when the normal form passes the loose test, writing the normal form, else the stripped value as symbol |
| Backfill.MergeInstrument | alembic/versions/0004_split_symbol_and_isin.py:241-252 | the ISIN when it is not SQL-blank, else the symbol when it is not SQL-blank, else the stored `symbol_or_isin` unchanged |
| Backfill.MapRows | alembic/versions/0004_split_symbol_and_isin.py:192-201 | every row is replaced by the function of its old value |
| Migration0004.UpgradedColumns | alembic/versions/0004_split_symbol_and_isin.py:59-101 | every added column is present, nothing else is new, and renamed columns are gone |
| Migration0004.RenameCarriesValues | alembic/versions/0004_split_symbol_and_isin.py:70-86 | a renamed column keeps its values under the new name; an existing one keeps its own |
| Migration0004.Upgrade | alembic/versions/0004_split_symbol_and_isin.py:51-230 | returns the upgraded columns and every row becomes its upgraded form |
| Migration0004.SplitPassCases | alembic/versions/0004_split_symbol_and_isin.py:156-186 | only symbol and ISIN change; skipped rows are untouched; otherwise the ISIN is set with the symbol cleared, or the symbol with the ISIN cleared |
| Migration0004.SplitPassIdempotent | alembic/versions/0004_split_symbol_and_isin.py:156-186 | a second split changes nothing |
| Migration0004.IsinShapeIsLoose | alembic/versions/0004_split_symbol_and_isin.py:174-178 | every real ISIN passes the loose test |
| Migration0004.LooseIsinExample | alembic/versions/0004_split_symbol_and_isin.py:174-178 | twelve letters pass the loose test without being an ISIN |
| Migration0004.UpgradeRowOutcome | alembic/versions/0004_split_symbol_and_isin.py:114-201 | the row keeps its id and value, its date is the backfilled one, and its identifier is the copied one or the legacy one |
| Migration0004.UpgradeFillsRequiredColumns | alembic/versions/0004_split_symbol_and_isin.py:203-230 | every row has a trade date and a non-blank identifier before the NOT NULL constraints |
| Migration0004.UpgradedColumnsStable | alembic/versions/0004_split_symbol_and_isin.py:59-97 | the schema step finds nothing to do on an upgraded table |
| Migration0004.UpgradeRowIdempotent | alembic/versions/0004_split_symbol_and_isin.py:114-201 | running the data passes again, at any time, changes nothing |
| Migration0004.LegacyUidPassUnique | alembic/versions/0004_split_symbol_and_isin.py:188-201 | on a table with unique uids and ids, the uid backfill keeps uids unique exactly when no stored uid is the legacy identifier of a blank row |
| Migration0004.LegacyUidCollisionExample | alembic/versions/0004_split_symbol_and_isin.py:188-201 | a blank row with id 1 beside a row holding `legacy-tx-1` ends with two rows holding `legacy-tx-1` |
| Migration0004.Downgrade | alembic/versions/0004_split_symbol_and_isin.py:233-276 | every row becomes its downgraded form |
| Migration0004.DowngradeAfterSplit | alembic/versions/0004_split_symbol_and_isin.py:240-254 | after a split the downgrade restores the written value and clears both columns, giving back the original when it was already stripped and normal |
| Migration0005.NormalizeIsin | alembic/versions/0005_add_instrument_fields_to_holdings.py:39-40 | the result is no longer than the input and has no spaces or lower-case letters |
| Migration0005.CandidateOfNormalized | alembic/versions/0005_add_instrument_fields_to_holdings.py:43-49 | normalising is idempotent, so the candidate test on a normal value is the loose ISIN test |
| Migration0005.NormalizeIgnoresSpacesAndCase | alembic/versions/0005_add_instrument_fields_to_holdings.py:39-49 | spaces and letter case do not matter to the normal form or to the test |
| Migration0005.UpgradedColumns | alembic/versions/0005_add_instrument_fields_to_holdings.py:57-80 | the type and instrument columns are present, nothing else is new, and a renamed type column is gone |
| Migration0005.RenameRow | alembic/versions/0005_add_instrument_fields_to_holdings.py:58-64 | the renamed type keeps its values |
| Migration0005.SplitPassDecision | alembic/versions/0005_add_instrument_fields_to_holdings.py:84-113 | the same decision as migration 0004, writing only the chosen column |
| Migration0005.SplitPassIdempotent | alembic/versions/0005_add_instrument_fields_to_holdings.py:84-113 | a second split changes nothing |
| Migration0005.PortfolioTypeDefault | alembic/versions/0005_add_instrument_fields_to_holdings.py:115-123 | the type is never empty |
| Migration0005.PortfolioTypeDefaultProperties | alembic/versions/0005_add_instrument_fields_to_holdings.py:115-123 | missing or blank becomes PEA, another is space-trimmed with its case kept, and applying it again changes nothing |
| Migration0005.LowerCaseTypeExample | alembic/versions/0005_add_instrument_fields_to_holdings.py:120 | ` pea ` becomes `pea` |
| Migration0005.Upgrade | alembic/versions/0005_add_instrument_fields_to_holdings.py:52-129 | returns the upgraded columns and every row becomes its upgraded form |
| Migration0005.UpgradeSetsPortfolioType | alembic/versions/0005_add_instrument_fields_to_holdings.py:115-129 | every row has a non-empty type before the NOT NULL constraint |
| Migration0005.UpgradeRowIdempotent | alembic/versions/0005_add_instrument_fields_to_holdings.py:52-129 | running the migration again changes nothing |
| Migration0005.Downgrade | alembic/versions/0005_add_instrument_fields_to_holdings.py:139-153 | every row becomes its downgraded form |
| Migration0005.DowngradeAfterSplit | alembic/versions/0005_add_instrument_fields_to_holdings.py:139-153 | an ISIN split is restored; a symbol split is restored when the ISIN column is absent or only spaces |
| Migration0005.TabIsinExample | alembic/versions/0005_add_instrument_fields_to_holdings.py:98 | an ISIN of one tab is blank to Python but not to SQL, so the downgrade writes the tab over the symbol |
| Migration0002.PortfolioColumnOf | alembic/versions/0002_add_type_portefeuille_to_holdings.py:29-33 | `type_portefeuille` when present, else `portfolio_type` when present, else none |
| Migration0002.OrderingColumnOf | alembic/versions/0002_add_type_portefeuille_to_holdings.py:35-39 | `ts` when present, else `trade_date` when present, else none |
| Migration0002.SortsBeforeOrder | alembic/versions/0002_add_type_portefeuille_to_holdings.py:53 | the order is strict, transitive and total on distinct ids |
| Migration0002.LatestMatch | alembic/versions/0002_add_type_portefeuille_to_holdings.py:46-54 | a result is a matching transaction |
| Migration0002.LatestMatchSpec | alembic/versions/0002_add_type_portefeuille_to_holdings.py:46-54 | no result exactly when nothing matches; otherwise no matching row sorts before it |
| Migration0002.LatestMatchIsFirst | alembic/versions/0002_add_type_portefeuille_to_holdings.py:53-54 | the matching row that sorts before every other is the one picked |
| Migration0002.LatestMatchIgnoresType | alembic/versions/0002_add_type_portefeuille_to_holdings.py:48-52 | the subquery never reads the holding's type |
| Migration0002.FindLatestMatch | alembic/versions/0002_add_type_portefeuille_to_holdings.py:46-54 | the loop computes `LatestMatch` |
| Migration0002.Upgrade | alembic/versions/0002_add_type_portefeuille_to_holdings.py:14-59 | the column is added, and every holding keeps its fields but gets the backfilled type |
| Migration0002.LatestMatchingTypeWins | alembic/versions/0002_add_type_portefeuille_to_holdings.py:41-59 | a holding takes the type of the matching transaction that sorts first, PEA when that is null |
| Migration0002.NoMatchIsPea | alembic/versions/0002_add_type_portefeuille_to_holdings.py:41-59 | a holding nothing matches gets PEA, whatever it had |
| Migration0002.MissingColumnsKeepType | alembic/versions/0002_add_type_portefeuille_to_holdings.py:41-59 | without both transaction columns an existing type is kept and a missing one becomes PEA |
| Migration0002.NullAccountSentinel | alembic/versions/0002_add_type_portefeuille_to_holdings.py:48 | a transaction without an account matches a holding of account `__NULL__` |
| Migration0002.EmptySymbolMatchesOnlyByAsset | alembic/versions/0002_add_type_portefeuille_to_holdings.py:48-52 | an empty `symbol_or_isin` matches only by account and asset |
| TransactionSchemas.CombineDateWithTime | backend/app/schemas/transactions.py:9-15 | the result is never a plain date |
| TransactionSchemas.CombineCases | backend/app/schemas/transactions.py:9-15 | `None` stays `None`, a datetime passes through, a date becomes midnight in the given zone or UTC |
| TransactionSchemas.CombineIdempotent | backend/app/schemas/transactions.py:9-15 | combining twice is combining once |
| TransactionSchemas.ToOrmUpdates | backend/app/schemas/transactions.py:92-106 | `date` becomes `trade_date` combined with the zone, `csv_transaction_id` becomes `transaction_uid`, and every other set field is copied, no more |
| TransactionSchemas.InitialValues | backend/app/schemas/transactions.py:42-49 | from an object, exactly its attributes that are model fields |
| TransactionSchemas.PopulateVirtualFields | backend/app/schemas/transactions.py:39-62 | an unset `date` is filled from `trade_date` (a datetime's date part), an unset `csv_transaction_id` from `transaction_uid`, the stored names are dropped, and nothing else changes |
| Config.JoinPath | backend/app/core/config.py:44 | the joined path is absolute |
| Config.ExpandSqlitePath | backend/app/core/config.py:39-46 | the URL is unchanged or starts with `sqlite:////` |
| Config.OtherUrlsUnchanged | backend/app/core/config.py:41 | non-SQLite URLs, URLs without `///` and `sqlite:////` URLs are unchanged |
| Config.PathAfterFirstSeparator | backend/app/core/config.py:42-45 | the path after the first `///` is joined to the working directory when relative and kept when absolute |
| Config.ExpandIdempotent | backend/app/core/config.py:39-46 | expanding twice is expanding once |
| Config.RelativeSqliteUrl | backend/app/core/config.py:41-45 | `sqlite:///` and a relative path become `sqlite:///` and the joined path |
| Config.DotAppUrl | backend/app/core/config.py:39-46 | a relative path `./name` under `/app` becomes `sqlite:////app/name`: the `.` component is dropped |
| Config.DefaultUrlExample | backend/app/core/config.py:14 | the default `sqlite:///./portfolio.db` run in `/app` becomes `sqlite:////app/portfolio.db` |
| Config.MemoryUrlExample | backend/app/core/config.py:39-46 | `sqlite:///:memory:` is rewritten as a file under the working directory |

## Left out

- Floating point: Python floats are exact `real`s, so rounding in the FIFO proportions, the sums and the summary is not modelled. The epsilons 1e-12 and 1e-6 are kept.
- `decimal.Decimal`: NaN, infinities, underscores, exponents beyond the modelled grammar and the 28-digit context are not modelled. Only finite `[sign]digits[.digits][e[sign]digits]` text is.
- Text: `upper`, `casefold`, `isalpha`, `isalnum` and `isspace` are modelled on ASCII only, and Unicode case mapping is left out.
- Hashing, the clock, ISO-8601 parsing with its UTC conversion, `isoformat`, `float(str)` and `_normalize_portfolio_type` are parameters, because their code is outside the model.
- `HoldingView` has no `identifier`, `account_id`, `symbol`, `isin` or `mic` fields in `backend/app/services/portfolio.py`. The endpoint and the worker receive them as inputs, and `compute_holdings` does not produce them.
- Database ids are positions or given integers. Sessions, commits and rollbacks are not modelled: a failed import leaves the table as it was.
- `compute_holdings`: its memoisation (`TTLCache(maxsize=1, ttl=120)` under `@cached`, backend/app/services/portfolio.py:30 and 42) is left out entirely. The model always recomputes, so it does not capture a result served for up to 120 seconds after new transactions are written.
- The `lru_cache` of `get_settings` and the expiry of the Euronext caches are left out. The Euronext caches are modelled as maps whose entries never expire, and their size limit of 256 is not modelled.
- HTTP routing, status codes, error message texts, logging (`record_log`, `_record_euronext_log`) and pydantic's validation of field types are left out.
- The Euronext endpoints are parameters: each operation takes the decoded payload or the failure the request ended with.
- CSV decoding, the zip container (`import_zip`) and the choice of input stream in `import_transactions_csv` are left out. The import starts from the header and the rows as dictionaries.
- DDL is not modelled: column types, the uniqueness constraints of migration 0004 (lines 104-112) and the `NOT NULL` alterations. The model does not fail when a constraint would reject an `UPDATE`. The `NOT NULL` preconditions are proved as lemmas instead.
- Migration0004.LegacyUidPassUnique: the uid backfill keeps `transaction_uid` unique only when no stored uid equals the `legacy-tx-<id>` of a blank row. Otherwise the real migration stops at the constraint, while the model finishes with a duplicate (`Migration0004.LegacyUidCollisionExample`).
- The uid pass of migration 0006 (lines 197-205) can collide in the same way, and also when two stored uids differ only by surrounding blanks. No uniqueness lemma is stated for it.
- Batch `add_column` after a rename in migration 0004 (lines 67-68, 77-78 and 87-88) uses the column list read before the rename. The model treats the rename as moving the values and the later add as a no-op.
- Migration 0004 renames `type_portefeuille` to `portfolio_type` and makes it `NOT NULL`. The model does not track portfolio type values in 0004.
- The column drops and the rename back in migration 0005's `downgrade` (lines 155-175) are not modelled. Only its data merge is.
- Migration 0002's `downgrade` only drops the column, and migration 0006's `downgrade` does nothing, so neither is modelled.
- The early `return` of migration 0002 (lines 26-27) cannot be reached, so the model has no branch for it.
- `Config.ExpandSqlitePath`: pathlib's joining is written out for POSIX paths only. `..` is kept unresolved, as pathlib keeps it.
- `FIFOPortfolio.as_dict` (fifo.py lines 80-81) returns the ledger, which `compute_holdings` reads through the `FifoPortfolio` model.
- Snapshots.RunSnapshot: the total is modelled as the exact sum of the market values, not as the float sum of the three buckets in their order.

## Findings

| source | as written | input that shows it | evidently intended | confidence | as-written member | corrected member |
|---|---|---|---|---|---|---|
| backend/app/workers/snapshots.py:80-99 | the worker stores one `Holding` per computed holding without ever setting `snapshot_id`, a `NOT NULL` foreign key (backend/app/models/holdings.py:16-21) | any run with at least one open position, such as one BUY of 1 ACME | each stored holding links to the snapshot just created (backend/tests/test_snapshots_worker.py:109-111 expects this) | not executed | Snapshots.AsWrittenLeavesSnapshotIdUnset | Snapshots.StoredRowsLinked |
