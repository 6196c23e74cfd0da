/** What the data migrations share: the trade date taken from the first known timestamp
    and the legacy transaction identifier built from the row id (migrations 0004 and
    0006), the loose ISIN test (migrations 0004 and 0005), and a table pass that rewrites
    every row. Timestamps are opaque integers; `now` stands for SQL `CURRENT_TIMESTAMP`. */
module Backfill {
  import opened Base
  import opened Text

  /** The three `UPDATE ... WHERE trade_date IS NULL` statements, in order: `created_at`
      when that column exists, then `ts` when that column exists, then the current time. */
  function FillTradeDate(tradeDate: Option<int>, createdAt: Option<int>, ts: Option<int>,
                         hasCreatedAt: bool, hasTs: bool, now: int): (r: int)
    ensures tradeDate.Some? ==> r == tradeDate.value
    ensures tradeDate.None? && hasCreatedAt && createdAt.Some? ==> r == createdAt.value
    ensures tradeDate.None? && !(hasCreatedAt && createdAt.Some?) && hasTs && ts.Some? ==> r == ts.value
    ensures tradeDate.None? && !(hasCreatedAt && createdAt.Some?) && !(hasTs && ts.Some?) ==> r == now
  {
    var afterCreated := if tradeDate.None? && hasCreatedAt then createdAt else tradeDate;
    var afterTs := if afterCreated.None? && hasTs then ts else afterCreated;
    afterTs.GetOr(now)
  }

  /** Filling a date that is already set, even with other inputs, changes nothing: running
      the backfill twice is running it once. */
  lemma FillTradeDateIdempotent(tradeDate: Option<int>, createdAt: Option<int>, ts: Option<int>,
                                hasCreatedAt: bool, hasTs: bool, now: int, now2: int)
    ensures var d := FillTradeDate(tradeDate, createdAt, ts, hasCreatedAt, hasTs, now);
      FillTradeDate(Some(d), createdAt, ts, hasCreatedAt, hasTs, now2) == d
  {
  }

  /** `f"legacy-tx-{id}"`. */
  function LegacyUid(id: int): (r: string)
    ensures StartsWith(r, "legacy-tx-") && |r| > |"legacy-tx-"|
    ensures r[|"legacy-tx-"|..] == IntToString(id)
  {
    "legacy-tx-" + IntToString(id)
  }

  lemma {:induction false} NatToStringInjective(a: nat, b: nat)
    requires NatToString(a) == NatToString(b)
    ensures a == b
  {
    if a >= 10 && b >= 10 {
      var sa := NatToString(a / 10);
      var sb := NatToString(b / 10);
      assert NatToString(a) == sa + [DigitChar(a % 10)];
      assert NatToString(b) == sb + [DigitChar(b % 10)];
      assert sa == NatToString(a)[..|sa|];
      assert sb == NatToString(b)[..|sb|];
      assert |sa| == |sb|;
      NatToStringInjective(a / 10, b / 10);
      assert DigitChar(a % 10) == NatToString(a)[|sa|] == DigitChar(b % 10);
    }
  }

  lemma IntToStringInjective(a: int, b: int)
    requires IntToString(a) == IntToString(b)
    ensures a == b
  {
    if a < 0 && b < 0 {
      assert NatToString(-a) == IntToString(a)[1..];
      assert NatToString(-b) == IntToString(b)[1..];
      NatToStringInjective(-a, -b);
    } else if a >= 0 && b >= 0 {
      NatToStringInjective(a, b);
    }
  }

  /** Distinct rows get distinct legacy identifiers. A legacy identifier can still equal
      an identifier already stored on another row; `Migration0004.LegacyUidPassUnique`
      states when the backfill keeps `transaction_uid` unique. */
  lemma LegacyUidInjective(a: int, b: int)
    requires LegacyUid(a) == LegacyUid(b)
    ensures a == b
  {
    IntToStringInjective(a, b);
  }

  /** A legacy identifier is never blank, so a second backfill keeps it. */
  lemma LegacyUidNotBlank(id: int)
    ensures !IsBlank(LegacyUid(id))
  {
    var l := LegacyUid(id);
    assert l[0] == 'l';
    BlankIffAllSpace(l);
  }

  // ---------------------------------------------------------------- the loose ISIN test

  /** `value.replace(" ", "").upper()`. */
  function SpacelessUpper(value: string): (r: string)
    ensures forall i :: 0 <= i < |r| ==> r[i] != ' '
  {
    Upper(RemoveSpaces(value))
  }

  /** `len(v) == 12 and v[:2].isalpha() and v.isalnum()`: twelve letters or digits, the
      first two letters. Unlike a real ISIN the last character need not be a digit. */
  predicate LooseIsin(v: string) {
    |v| == 12 && PyIsAlpha(v[..2]) && PyIsAlnum(v)
  }

  lemma {:induction false} RemoveSpacesIdempotent(s: string)
    ensures RemoveSpaces(RemoveSpaces(s)) == RemoveSpaces(s)
  {
    RemoveSpacesIdentity(RemoveSpaces(s));
  }

  /** Normalising twice is normalising once. */
  lemma SpacelessUpperIdempotent(value: string)
    ensures SpacelessUpper(SpacelessUpper(value)) == SpacelessUpper(value)
  {
    var r := RemoveSpaces(value);
    RemoveSpacesUpper(r);
    RemoveSpacesIdempotent(value);
    UpperIdempotent(r);
  }

  // ---------------------------------------------------------------- splitting symbol_or_isin

  /** `value and value.strip()`: present and not blank. */
  predicate HasText(value: Option<string>) { value.Some? && !IsBlank(value.value) }

  /** What the split loops of migrations 0004 and 0005 write for one row: the normalised
      value as the ISIN, or the stripped value as the symbol. */
  datatype Split = IsinSplit(isin: string) | SymbolSplit(symbol: string)

  function Written(s: Split): string {
    match s
    case IsinSplit(isin) => isin
    case SymbolSplit(symbol) => symbol
  }

  /** One iteration of the split loop: `None` when the row is skipped, because its
      `symbol_or_isin` is blank or it already has a symbol or an ISIN. */
  function SplitInstrument(symbolOrIsin: Option<string>, symbol: Option<string>, isin: Option<string>): (r: Option<Split>)
    ensures r.Some? ==> HasText(Some(Written(r.value))) && SqlTrim(Written(r.value)) != ""
  {
    var raw := Strip(symbolOrIsin.GetOr(""));
    if raw == "" || HasText(symbol) || HasText(isin) then None
    else
      var normalized := SpacelessUpper(raw);
      if LooseIsin(normalized) then
        assert !IsSpace(normalized[0]) && normalized[0] != ' ' by {
          assert IsAlnum(normalized[0]);
        }
        BlankIffAllSpace(normalized);
        Some(IsinSplit(normalized))
      else
        BlankIffAllSpace(raw);
        Some(SymbolSplit(raw))
  }

  /** The skip conditions are exactly a blank `symbol_or_isin` or an existing symbol or
      ISIN; otherwise the value is an ISIN exactly when its normal form passes the loose
      test, and then the normal form is written, else the stripped value. */
  lemma SplitInstrumentCases(symbolOrIsin: Option<string>, symbol: Option<string>, isin: Option<string>)
    ensures var r := SplitInstrument(symbolOrIsin, symbol, isin);
      var raw := Strip(symbolOrIsin.GetOr(""));
      && (r.None? <==> IsBlank(symbolOrIsin.GetOr("")) || HasText(symbol) || HasText(isin))
      && (r.Some? ==> (r.value.IsinSplit? <==> LooseIsin(SpacelessUpper(raw))))
      && (r.Some? && r.value.IsinSplit? ==> r.value.isin == SpacelessUpper(raw))
      && (r.Some? && r.value.SymbolSplit? ==> r.value.symbol == raw)
  {
  }

  /** The `CASE` of the downgrades of migrations 0004 and 0005: the ISIN when it is not
      blank to SQL `TRIM`, else the symbol likewise, else the stored `symbol_or_isin`. */
  function MergeInstrument(symbolOrIsin: Option<string>, symbol: Option<string>, isin: Option<string>): (r: Option<string>)
    ensures r == isin || r == symbol || r == symbolOrIsin
    ensures isin.Some? && SqlTrim(isin.value) != "" ==> r == isin
    ensures !(isin.Some? && SqlTrim(isin.value) != "") && symbol.Some? && SqlTrim(symbol.value) != "" ==> r == symbol
    ensures !(isin.Some? && SqlTrim(isin.value) != "") && !(symbol.Some? && SqlTrim(symbol.value) != "") ==> r == symbolOrIsin
  {
    if isin.Some? && SqlTrim(isin.value) != "" then isin
    else if symbol.Some? && SqlTrim(symbol.value) != "" then symbol
    else symbolOrIsin
  }

  // ---------------------------------------------------------------- table passes

  /** Applies `f` to every row of the table in place: one `UPDATE` statement, or one pass
      of a Python loop issuing an `UPDATE` per row. */
  method MapRows<T>(rows: array<T>, f: T -> T)
    modifies rows
    ensures forall i :: 0 <= i < rows.Length ==> rows[i] == f(old(rows[i]))
  {
    for i := 0 to rows.Length
      invariant forall k :: 0 <= k < i ==> rows[k] == f(old(rows[k]))
      invariant forall k :: i <= k < rows.Length ==> rows[k] == old(rows[k])
    {
      rows[i] := f(rows[i]);
    }
  }

}
