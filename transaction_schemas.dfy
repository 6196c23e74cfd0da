/** The transaction schemas (backend/app/schemas/transactions.py): the API calls the
    trade date `date` and the import identifier `csv_transaction_id`, while the stored
    record calls them `trade_date` and `transaction_uid`. One validator renames the stored
    names to the API names, and `TransactionUpdate.to_orm_updates` renames them back.
    Dictionaries of field values are maps from field names to `Value`s. Pydantic's
    validation of the other fields is not part of this model. */
module TransactionSchemas {
  import opened Base

  /** A `datetime`: a day number, a time of day in seconds, and a UTC offset in minutes
      (`None` for a naive one). */
  datatype DateTime = DateTime(day: int, secondOfDay: int, offset: Option<int>)

  /** A field value: `None`, a `date`, a `datetime`, or any other value. */
  datatype Value = Null | DateValue(day: int) | DateTimeValue(dt: DateTime) | Other(repr: string)

  /** The values `_combine_date_with_time` accepts: `date | datetime | None`. */
  predicate IsDateLike(v: Value) {
    v.Null? || v.DateValue? || v.DateTimeValue?
  }

  const Utc: int := 0

  /** `_combine_date_with_time` (lines 9-15); `tz` is the offset of the given timezone. */
  function CombineDateWithTime(value: Value, tz: Option<int>): (r: Value)
    requires IsDateLike(value)
    ensures IsDateLike(r) && !r.DateValue?
  {
    match value
    case Null => Null
    case DateTimeValue(_) => value
    case DateValue(d) => DateTimeValue(DateTime(d, 0, Some(tz.GetOr(Utc))))
  }

  /** `None` stays `None`, a `datetime` passes through, and a plain date becomes midnight of
      the same day in the given timezone, UTC when none is given. */
  lemma CombineCases(value: Value, tz: Option<int>)
    requires IsDateLike(value)
    ensures value.Null? <==> CombineDateWithTime(value, tz).Null?
    ensures value.DateTimeValue? ==> CombineDateWithTime(value, tz) == value
    ensures value.DateValue? ==> CombineDateWithTime(value, tz).dt.day == value.day
    ensures value.DateValue? ==> CombineDateWithTime(value, tz).dt.secondOfDay == 0
    ensures value.DateValue? ==> CombineDateWithTime(value, tz).dt.offset == Some(if tz.Some? then tz.value else Utc)
  {
  }

  /** Combining twice changes nothing more. */
  lemma CombineIdempotent(value: Value, tz: Option<int>, tz2: Option<int>)
    requires IsDateLike(value)
    ensures CombineDateWithTime(CombineDateWithTime(value, tz), tz2) == CombineDateWithTime(value, tz)
  {
  }

  // ---------------------------------------------------------------- to_orm_updates

  /** The fields of `TransactionUpdate` (lines 74-90), which are also those of
      `TransactionBase`. */
  const UpdateFields: set<string> := {
    "source", "portfolio_type", "operation", "asset", "symbol_or_isin", "symbol", "isin", "mic",
    "quantity", "unit_price_eur", "fee_eur", "fee_asset", "fee_quantity", "total_eur", "date",
    "notes", "csv_transaction_id"}

  /** `TransactionUpdate.to_orm_updates` (lines 92-106) on `data`, the fields the client
      set (`self.dict(exclude_unset=True)`). */
  method ToOrmUpdates(data: map<string, Value>, currentTimezone: Option<int>) returns (updates: map<string, Value>)
    requires forall k :: k in data ==> k in UpdateFields
    requires "date" in data ==> IsDateLike(data["date"])
    ensures "trade_date" in updates <==> "date" in data
    ensures "date" in data ==> updates["trade_date"] == CombineDateWithTime(data["date"], currentTimezone)
    ensures "transaction_uid" in updates <==> "csv_transaction_id" in data
    ensures "csv_transaction_id" in data ==> updates["transaction_uid"] == data["csv_transaction_id"]
    ensures "date" !in updates && "csv_transaction_id" !in updates
    ensures forall k :: k in data && k != "date" && k != "csv_transaction_id" ==> k in updates && updates[k] == data[k]
    ensures forall k :: k in updates ==> k in data || k == "trade_date" || k == "transaction_uid"
  {
    var rest := data;
    updates := map[];
    if "date" in rest {
      updates := updates["trade_date" := CombineDateWithTime(rest["date"], currentTimezone)];
      rest := rest - {"date"};
    }
    if "csv_transaction_id" in rest {
      updates := updates["transaction_uid" := rest["csv_transaction_id"]];
      rest := rest - {"csv_transaction_id"};
    }
    updates := updates + rest;
  }

  // ---------------------------------------------------------------- _populate_virtual_fields

  /** What the `before` validator receives: a mapping, or an object with attributes. */
  datatype Source = MappingData(entries: map<string, Value>) | ObjectData(attributes: map<string, Value>)

  /** `values` as lines 42-49 start it: the whole mapping, or the object's attributes that
      are fields of the model. */
  function InitialValues(src: Source, modelFields: set<string>): (r: map<string, Value>)
    ensures src.ObjectData? ==> forall k :: k in r <==> k in src.attributes && k in modelFields
  {
    match src
    case MappingData(entries) => entries
    case ObjectData(attributes) => map k | k in attributes && k in modelFields :: attributes[k]
  }

  /** `data.get(name)` or `getattr(data, name, None)`. */
  function RawValue(src: Source, name: string): Value {
    match src
    case MappingData(entries) => if name in entries then entries[name] else Null
    case ObjectData(attributes) => if name in attributes then attributes[name] else Null
  }

  /** The `date` a stored trade date fills in: the date part of a `datetime`. */
  function AsDate(v: Value): Value {
    if v.DateTimeValue? then DateValue(v.dt.day) else v
  }

  /** The value of `name` absent or `None`. */
  predicate Unset(values: map<string, Value>, name: string) {
    name !in values || values[name] == Null
  }

  /** `TransactionBase._populate_virtual_fields` (lines 39-62) for a model whose fields are
      `modelFields`. */
  method PopulateVirtualFields(src: Source, modelFields: set<string>) returns (values: map<string, Value>)
    ensures "trade_date" !in values && "transaction_uid" !in values
    ensures var v0, raw := InitialValues(src, modelFields), RawValue(src, "trade_date");
      if Unset(v0, "date") && raw != Null then "date" in values && values["date"] == AsDate(raw)
      else ("date" in values <==> "date" in v0) && ("date" in v0 ==> values["date"] == v0["date"])
    ensures var v0, raw := InitialValues(src, modelFields), RawValue(src, "transaction_uid");
      if Unset(v0, "csv_transaction_id") && raw != Null then
        "csv_transaction_id" in values && values["csv_transaction_id"] == raw
      else
        && ("csv_transaction_id" in values <==> "csv_transaction_id" in v0)
        && ("csv_transaction_id" in v0 ==> values["csv_transaction_id"] == v0["csv_transaction_id"])
    ensures var v0 := InitialValues(src, modelFields);
      forall k :: k != "date" && k != "csv_transaction_id" && k != "trade_date" && k != "transaction_uid" ==>
        (k in values <==> k in v0) && (k in v0 ==> values[k] == v0[k])
  {
    values := InitialValues(src, modelFields);
    var rawTradeDate := RawValue(src, "trade_date");
    var rawCsvId := RawValue(src, "transaction_uid");
    if ("date" !in values || values["date"] == Null) && rawTradeDate != Null {
      if rawTradeDate.DateTimeValue? {
        values := values["date" := DateValue(rawTradeDate.dt.day)];
      } else {
        values := values["date" := rawTradeDate];
      }
    }
    if ("csv_transaction_id" !in values || values["csv_transaction_id"] == Null) && rawCsvId != Null {
      values := values["csv_transaction_id" := rawCsvId];
    }
    values := values - {"trade_date", "transaction_uid"};
  }
}
