/** The snapshot worker `run_snapshot` (backend/app/workers/snapshots.py): the portfolio
    types of the computed holdings are folded onto the canonical `PEA` and `CRYPTO` through
    an alias table, their market values are split into PEA, crypto and other buckets, and
    one snapshot row plus one holding row per computed holding are written.

    The normaliser `_normalize_portfolio_type` that the worker imports is not part of this
    model: it is the parameter `norm`. */
module Snapshots {
  import opened Base
  import opened Holdings

  // ---------------------------------------------------------------- the alias table

  /** One entry of `SNAPSHOT_PORTFOLIO_TYPE_ALIASES`. The aliases of a group are a set in
      the source; they are listed here in the order written, which does not matter because
      every alias of a group is sent to the same value. */
  datatype AliasGroup = AliasGroup(canonical: string, aliases: seq<string>)

  const PeaGroup: AliasGroup :=
    AliasGroup("PEA", ["PEA-PME", "PEA PME", "PEAJEUNE", "PEA JEUNE", "PEA JEUNE LCL"])

  const CryptoGroup: AliasGroup :=
    AliasGroup("CRYPTO", ["CRYPTO BINANCE", "CRYPTO_BINANCE", "CRYPTO-BINANCE", "CRYPTO COINBASE", "CRYPTO KRAKEN"])

  /** The table in dictionary order: PEA first, then CRYPTO. */
  const AliasGroups: seq<AliasGroup> := [PeaGroup, CryptoGroup]

  /** The normalised forms of `names`, in order. */
  function Normalized(names: seq<string>, norm: string -> string): (r: seq<string>)
    ensures |r| == |names| && forall i :: 0 <= i < |names| ==> r[i] == norm(names[i])
  {
    if names == [] then [] else Normalized(names[..|names| - 1], norm) + [norm(names[|names| - 1])]
  }

  /** The normalised names a group registers: its canonical name, then its aliases. */
  function GroupNames(g: AliasGroup, norm: string -> string): seq<string> {
    [norm(g.canonical)] + Normalized(g.aliases, norm)
  }

  /** The inner loop (lines 35-37): every alias of a group, written in turn. */
  function AddAliases(m: map<string, string>, target: string, aliases: seq<string>, norm: string -> string): map<string, string> {
    if aliases == [] then m
    else AddAliases(m, target, aliases[..|aliases| - 1], norm)[norm(aliases[|aliases| - 1]) := target]
  }

  /** One pass of the outer loop (lines 33-37): the canonical name maps to itself, then
      every alias to the canonical name. */
  function AddGroup(m: map<string, string>, g: AliasGroup, norm: string -> string): map<string, string> {
    var c := norm(g.canonical);
    AddAliases(m[c := c], c, g.aliases, norm)
  }

  function LookupOf(groups: seq<AliasGroup>, norm: string -> string): map<string, string> {
    if groups == [] then map[]
    else AddGroup(LookupOf(groups[..|groups| - 1], norm), groups[|groups| - 1], norm)
  }

  /** `_SNAPSHOT_PORTFOLIO_ALIAS_LOOKUP`. */
  function AliasLookup(norm: string -> string): map<string, string> {
    LookupOf(AliasGroups, norm)
  }

  /** Writing the aliases of a group adds exactly their normalised names, all sent to the
      target, and leaves every other key as it was. */
  lemma {:induction false} AddAliasesSpec(m: map<string, string>, target: string, aliases: seq<string>, norm: string -> string)
    ensures forall k :: k in AddAliases(m, target, aliases, norm) <==> (k in m || k in Normalized(aliases, norm))
    ensures forall k :: k in AddAliases(m, target, aliases, norm) ==>
      AddAliases(m, target, aliases, norm)[k] == (if k in Normalized(aliases, norm) then target else m[k])
  {
    if aliases != [] {
      var init := aliases[..|aliases| - 1];
      AddAliasesSpec(m, target, init, norm);
      assert Normalized(aliases, norm) == Normalized(init, norm) + [norm(aliases[|aliases| - 1])];
    }
  }

  /** One pass of the outer loop registers exactly the group's names, all sent to its
      normalised canonical name. */
  lemma AddGroupSpec(m: map<string, string>, g: AliasGroup, norm: string -> string)
    ensures forall k :: k in AddGroup(m, g, norm) <==> (k in m || k in GroupNames(g, norm))
    ensures forall k :: k in AddGroup(m, g, norm) ==>
      AddGroup(m, g, norm)[k] == (if k in GroupNames(g, norm) then norm(g.canonical) else m[k])
  {
    var c := norm(g.canonical);
    AddAliasesSpec(m[c := c], c, g.aliases, norm);
  }

  /** The two groups do not collide once normalised. */
  predicate Separated(norm: string -> string) {
    forall k :: k in GroupNames(PeaGroup, norm) ==> k !in GroupNames(CryptoGroup, norm)
  }

  /** The lookup holds exactly the normalised names of the table, and, when the two groups
      do not collide, each of them is sent to the canonical name of its own group. */
  lemma AliasLookupSpec(norm: string -> string)
    ensures forall k :: k in AliasLookup(norm) <==> k in GroupNames(PeaGroup, norm) || k in GroupNames(CryptoGroup, norm)
    ensures forall k :: k in GroupNames(CryptoGroup, norm) ==> AliasLookup(norm)[k] == norm("CRYPTO")
    ensures forall k :: k in GroupNames(PeaGroup, norm) && k !in GroupNames(CryptoGroup, norm) ==>
      AliasLookup(norm)[k] == norm("PEA")
  {
    var m1 := LookupOf([PeaGroup], norm);
    assert AliasGroups[..1] == [PeaGroup];
    assert [PeaGroup][..0] == [];
    assert m1 == AddGroup(LookupOf([], norm), PeaGroup, norm);
    assert AliasLookup(norm) == AddGroup(m1, CryptoGroup, norm);
    AddGroupSpec(map[], PeaGroup, norm);
    AddGroupSpec(m1, CryptoGroup, norm);
  }

  /** Every listed alias maps to its canonical type and each canonical type to itself. */
  lemma AliasesMapToCanonical(norm: string -> string, g: AliasGroup, name: string)
    requires Separated(norm)
    requires g in AliasGroups
    requires name == g.canonical || name in g.aliases
    ensures norm(name) in AliasLookup(norm) && AliasLookup(norm)[norm(name)] == norm(g.canonical)
  {
    AliasLookupSpec(norm);
    assert norm(name) in GroupNames(g, norm);
  }

  /** The module-level loop that fills the lookup (lines 31-37). */
  method BuildAliasLookup(norm: string -> string) returns (lookup: map<string, string>)
    ensures lookup == AliasLookup(norm)
  {
    lookup := map[];
    for i := 0 to |AliasGroups|
      invariant lookup == LookupOf(AliasGroups[..i], norm)
    {
      var g := AliasGroups[i];
      var canonical := norm(g.canonical);
      lookup := lookup[canonical := canonical];
      for j := 0 to |g.aliases|
        invariant lookup == AddAliases(LookupOf(AliasGroups[..i], norm)[canonical := canonical], canonical, g.aliases[..j], norm)
      {
        assert g.aliases[..j + 1][..j] == g.aliases[..j];
        lookup := lookup[norm(g.aliases[j]) := canonical];
      }
      assert g.aliases[..|g.aliases|] == g.aliases;
      assert AliasGroups[..i + 1][..i] == AliasGroups[..i];
    }
    assert AliasGroups[..|AliasGroups|] == AliasGroups;
  }

  // ---------------------------------------------------------------- the snapshot type

  /** `_normalize_snapshot_portfolio_type` (lines 40-42). */
  function NormalizeSnapshotType(value: string, norm: string -> string): (r: string)
    ensures r == norm(value) || r == norm("PEA") || r == norm("CRYPTO")
  {
    AliasLookupSpec(norm);
    var n := norm(value);
    if n in AliasLookup(norm) then AliasLookup(norm)[n] else n
  }

  /** A type outside the table comes back as its normalised form. */
  lemma UnknownTypeUnchanged(value: string, norm: string -> string)
    requires norm(value) !in GroupNames(PeaGroup, norm) + GroupNames(CryptoGroup, norm)
    ensures NormalizeSnapshotType(value, norm) == norm(value)
  {
    AliasLookupSpec(norm);
  }

  /** An alias, or a canonical name, comes back as the normalised canonical name. */
  lemma AliasTypeCanonical(value: string, norm: string -> string, g: AliasGroup)
    requires Separated(norm) && g in AliasGroups
    requires value == g.canonical || value in g.aliases
    ensures NormalizeSnapshotType(value, norm) == norm(g.canonical)
  {
    AliasesMapToCanonical(norm, g, value);
  }

  /** With an idempotent normaliser and groups that do not collide, normalising a snapshot
      type twice changes nothing. */
  lemma NormalizeSnapshotTypeIdempotent(value: string, norm: string -> string)
    requires Separated(norm)
    requires forall s :: norm(norm(s)) == norm(s)
    ensures NormalizeSnapshotType(NormalizeSnapshotType(value, norm), norm) == NormalizeSnapshotType(value, norm)
  {
    AliasLookupSpec(norm);
    var n := norm(value);
    if n in GroupNames(PeaGroup, norm) {
      assert NormalizeSnapshotType(value, norm) == norm("PEA");
      AliasTypeCanonical("PEA", norm, PeaGroup);
    } else if n in GroupNames(CryptoGroup, norm) {
      assert NormalizeSnapshotType(value, norm) == norm("CRYPTO");
      AliasTypeCanonical("CRYPTO", norm, CryptoGroup);
    } else {
      assert NormalizeSnapshotType(value, norm) == n;
    }
  }

  /** A normaliser for names that are already in normal form. */
  function Identity(s: string): string {
    s
  }

  lemma {:induction false} NormalizedIdentity(names: seq<string>)
    ensures Normalized(names, Identity) == names
  {
    if names != [] {
      NormalizedIdentity(names[..|names| - 1]);
    }
  }

  lemma IdentityGroups()
    ensures GroupNames(PeaGroup, Identity) == ["PEA", "PEA-PME", "PEA PME", "PEAJEUNE", "PEA JEUNE", "PEA JEUNE LCL"]
    ensures GroupNames(CryptoGroup, Identity)
      == ["CRYPTO", "CRYPTO BINANCE", "CRYPTO_BINANCE", "CRYPTO-BINANCE", "CRYPTO COINBASE", "CRYPTO KRAKEN"]
  {
    NormalizedIdentity(PeaGroup.aliases);
    NormalizedIdentity(CryptoGroup.aliases);
  }

  /** Names already in normal form do not collide: every PEA name starts with `P`, every
      crypto name with `C`. */
  lemma IdentitySeparated()
    ensures Separated(Identity)
  {
    IdentityGroups();
    forall k | k in GroupNames(PeaGroup, Identity)
      ensures k !in GroupNames(CryptoGroup, Identity)
    {
      assert k[0] == 'P';
    }
  }

  /** With names already in normal form the table reads as written. */
  lemma IdentityNormalizerExamples()
    ensures NormalizeSnapshotType("PEA JEUNE LCL", Identity) == "PEA"
    ensures NormalizeSnapshotType("CRYPTO_BINANCE", Identity) == "CRYPTO"
  {
    IdentitySeparated();
    AliasTypeCanonical("PEA JEUNE LCL", Identity, PeaGroup);
    AliasTypeCanonical("CRYPTO_BINANCE", Identity, CryptoGroup);
  }

  /** Every PEA name has `E` for its second letter. */
  lemma PeaSecondLetter()
    ensures forall k :: k in GroupNames(PeaGroup, Identity) ==> |k| >= 2 && k[1] == 'E'
  {
    IdentityGroups();
  }

  /** Every crypto name has `R` for its second letter. */
  lemma CryptoSecondLetter()
    ensures forall k :: k in GroupNames(CryptoGroup, Identity) ==> |k| >= 2 && k[1] == 'R'
  {
    IdentityGroups();
  }

  /** Under the identity normaliser, a type whose second letter is neither `E` nor `R`
      is in no group and comes back unchanged. */
  lemma IdentityUnknown(value: string)
    requires |value| >= 2 && value[1] != 'E' && value[1] != 'R'
    ensures NormalizeSnapshotType(value, Identity) == value
  {
    PeaSecondLetter();
    CryptoSecondLetter();
    assert value !in GroupNames(PeaGroup, Identity) + GroupNames(CryptoGroup, Identity);
    UnknownTypeUnchanged(value, Identity);
  }

  /** `CTO`, a type the table does not list, stays as it is. */
  lemma IdentityUnknownExample()
    ensures NormalizeSnapshotType("CTO", Identity) == "CTO"
  {
    IdentityUnknown("CTO");
  }

  // ---------------------------------------------------------------- buckets

  /** A holding as `run_snapshot` reads it from `compute_holdings`: the fields of
      `HoldingView` plus the instrument and account fields it copies into the stored
      holding (lines 83-97). */
  datatype ComputedHolding = ComputedHolding(
    view: HoldingView,
    symbol: Option<string>,
    isin: Option<string>,
    mic: Option<string>,
    accountId: Option<string>)

  function WithType(h: ComputedHolding, t: string): ComputedHolding {
    h.(view := h.view.(typePortefeuille := t))
  }

  /** `normalized_holdings` (lines 55-57). */
  function NormalizeHoldings(hs: seq<ComputedHolding>, norm: string -> string): (r: seq<ComputedHolding>)
    ensures |r| == |hs|
    ensures forall i :: 0 <= i < |hs| ==> r[i] == WithType(hs[i], NormalizeSnapshotType(hs[i].view.typePortefeuille, norm))
  {
    if hs == [] then []
    else NormalizeHoldings(hs[..|hs| - 1], norm) + [WithType(hs[|hs| - 1], NormalizeSnapshotType(hs[|hs| - 1].view.typePortefeuille, norm))]
  }

  lemma BucketTotalSnoc(hs: seq<ComputedHolding>, h: ComputedHolding, b: Bucket)
    ensures BucketTotal(hs + [h], b)
      == BucketTotal(hs, b) + (if BucketOf(h.view.typePortefeuille) == b then h.view.marketValueEur else 0.0)
  {
    assert (hs + [h])[..|hs|] == hs;
  }

  lemma NormalizeHoldingsSnoc(hs: seq<ComputedHolding>, norm: string -> string)
    requires hs != []
    ensures NormalizeHoldings(hs, norm) == NormalizeHoldings(hs[..|hs| - 1], norm)
      + [WithType(hs[|hs| - 1], NormalizeSnapshotType(hs[|hs| - 1].view.typePortefeuille, norm))]
  {
  }

  datatype Bucket = PeaBucket | CryptoBucket | OtherBucket

  /** The branch of lines 58-63 a normalised type takes. */
  function BucketOf(t: string): Bucket {
    if t == "PEA" then PeaBucket else if t == "CRYPTO" then CryptoBucket else OtherBucket
  }

  /** The market values of the holdings whose type falls in bucket `b`. */
  function BucketTotal(hs: seq<ComputedHolding>, b: Bucket): real {
    if hs == [] then 0.0
    else
      var last := hs[|hs| - 1];
      BucketTotal(hs[..|hs| - 1], b) + (if BucketOf(last.view.typePortefeuille) == b then last.view.marketValueEur else 0.0)
  }

  function TotalValue(hs: seq<ComputedHolding>): real {
    if hs == [] then 0.0 else TotalValue(hs[..|hs| - 1]) + hs[|hs| - 1].view.marketValueEur
  }

  /** Each market value lands in exactly one bucket, so the buckets add up to the whole. */
  lemma {:induction false} BucketsPartition(hs: seq<ComputedHolding>)
    ensures BucketTotal(hs, PeaBucket) + BucketTotal(hs, CryptoBucket) + BucketTotal(hs, OtherBucket) == TotalValue(hs)
  {
    if hs != [] {
      BucketsPartition(hs[..|hs| - 1]);
    }
  }

  /** Renaming the types does not change any market value. */
  lemma {:induction false} NormalizeKeepsTotal(hs: seq<ComputedHolding>, norm: string -> string)
    ensures TotalValue(NormalizeHoldings(hs, norm)) == TotalValue(hs)
  {
    if hs != [] {
      NormalizeKeepsTotal(hs[..|hs| - 1], norm);
      assert NormalizeHoldings(hs, norm)[..|hs| - 1] == NormalizeHoldings(hs[..|hs| - 1], norm);
    }
  }

  // ---------------------------------------------------------------- the snapshot

  /** A stored snapshot row; `id` is the value the database assigns. */
  datatype Snapshot = Snapshot(id: int, ts: int, valuePeaEur: real, valueCryptoEur: real, valueTotalEur: real, pnlTotalEur: real)

  /** The snapshot `run_snapshot` writes, with id `id` and clock reading `ts`. */
  function SnapshotOf(id: int, hs: seq<ComputedHolding>, totals: Totals, norm: string -> string, ts: int): (s: Snapshot)
    ensures s.valueTotalEur == TotalValue(hs)
    ensures s.pnlTotalEur == totals.realizedPnl + totals.latentPnl
    ensures s.id == id && s.ts == ts
  {
    var nh := NormalizeHoldings(hs, norm);
    BucketsPartition(nh);
    NormalizeKeepsTotal(hs, norm);
    var pea := BucketTotal(nh, PeaBucket);
    var crypto := BucketTotal(nh, CryptoBucket);
    var other := BucketTotal(nh, OtherBucket);
    Snapshot(id, ts, pea, crypto, pea + crypto + other, totals.realizedPnl + totals.latentPnl)
  }

  /** A stored holding row (backend/app/models/holdings.py); `snapshotId` is `None` when
      the column is left unset. */
  datatype StoredHolding = StoredHolding(
    snapshotId: Option<int>,
    accountId: Option<string>,
    asset: string,
    symbolOrIsin: string,
    symbol: Option<string>,
    isin: Option<string>,
    mic: Option<string>,
    quantity: real,
    pruEur: real,
    investedEur: real,
    marketPriceEur: real,
    marketValueEur: real,
    plEur: real,
    plPct: real,
    asOf: int,
    portfolioType: string)

  function Store(h: ComputedHolding, snapshotId: Option<int>): StoredHolding {
    StoredHolding(snapshotId, h.accountId, h.view.asset, h.view.symbolOrIsin, h.symbol, h.isin, h.mic,
      h.view.quantity, h.view.pruEur, h.view.investedEur, h.view.marketPriceEur, h.view.marketValueEur,
      h.view.plEur, h.view.plPct, h.view.asOf, h.view.typePortefeuille)
  }

  /** The holding rows as lines 80-99 build them: `snapshot_id` is never given. */
  function StoredRowsAsWritten(hs: seq<ComputedHolding>): (r: seq<StoredHolding>)
    ensures |r| == |hs|
    ensures forall i :: 0 <= i < |hs| ==> r[i] == Store(hs[i], None)
  {
    if hs == [] then [] else StoredRowsAsWritten(hs[..|hs| - 1]) + [Store(hs[|hs| - 1], None)]
  }

  /** The holding rows linked to snapshot `id`, as the foreign key requires. */
  function StoredRows(hs: seq<ComputedHolding>, id: int): (r: seq<StoredHolding>)
    ensures |r| == |hs|
    ensures forall i :: 0 <= i < |hs| ==> r[i] == Store(hs[i], Some(id))
  {
    if hs == [] then [] else StoredRows(hs[..|hs| - 1], id) + [Store(hs[|hs| - 1], Some(id))]
  }

  /** The `nullable=False` constraint on `holdings.snapshot_id`. */
  predicate SnapshotIdsSet(rows: seq<StoredHolding>) {
    forall i :: 0 <= i < |rows| ==> rows[i].snapshotId.Some?
  }

  /** As written, any non-empty set of holdings is stored without a snapshot id, which the
      NOT NULL column refuses at commit. */
  lemma AsWrittenLeavesSnapshotIdUnset(hs: seq<ComputedHolding>)
    requires hs != []
    ensures !SnapshotIdsSet(StoredRowsAsWritten(hs))
  {
    assert StoredRowsAsWritten(hs)[0].snapshotId == None;
  }

  /** Linked rows meet the constraint and point at their snapshot, one per computed
      holding, carrying its normalised type and every other field unchanged. */
  lemma StoredRowsLinked(hs: seq<ComputedHolding>, norm: string -> string, id: int)
    ensures var rows := StoredRows(NormalizeHoldings(hs, norm), id);
      && SnapshotIdsSet(rows) && |rows| == |hs|
      && forall i :: 0 <= i < |hs| ==>
        && rows[i].snapshotId == Some(id)
        && rows[i].portfolioType == NormalizeSnapshotType(hs[i].view.typePortefeuille, norm)
        && rows[i].marketValueEur == hs[i].view.marketValueEur
        && rows[i].asset == hs[i].view.asset
        && rows[i].quantity == hs[i].view.quantity
  {
  }

  /** The tables `run_snapshot` writes to. */
  class Database {
    var snapshots: seq<Snapshot>
    var holdings: seq<StoredHolding>

    constructor()
      ensures snapshots == [] && holdings == []
    {
      snapshots := [];
      holdings := [];
    }

    /** The next snapshot id the database hands out. */
    function NextSnapshotId(): int
      reads this
    {
      |snapshots| + 1
    }
  }

  /** The loop of lines 55-63: the holdings with their normalised types, and the three
      bucket sums. */
  method SplitIntoBuckets(computed: seq<ComputedHolding>, norm: string -> string)
    returns (normalized: seq<ComputedHolding>, valuePea: real, valueCrypto: real, valueOther: real)
    ensures normalized == NormalizeHoldings(computed, norm)
    ensures valuePea == BucketTotal(normalized, PeaBucket)
    ensures valueCrypto == BucketTotal(normalized, CryptoBucket)
    ensures valueOther == BucketTotal(normalized, OtherBucket)
  {
    var lookup := BuildAliasLookup(norm);
    normalized := [];
    valuePea, valueCrypto, valueOther := 0.0, 0.0, 0.0;
    for i := 0 to |computed|
      invariant normalized == NormalizeHoldings(computed[..i], norm)
      invariant valuePea == BucketTotal(normalized, PeaBucket)
      invariant valueCrypto == BucketTotal(normalized, CryptoBucket)
      invariant valueOther == BucketTotal(normalized, OtherBucket)
    {
      var h := computed[i];
      var n := norm(h.view.typePortefeuille);
      var normalizedType := if n in lookup then lookup[n] else n;
      assert normalizedType == NormalizeSnapshotType(h.view.typePortefeuille, norm);
      NormalizeHoldingsSnoc(computed[..i + 1], norm);
      assert computed[..i + 1][..i] == computed[..i];
      var entry := WithType(h, normalizedType);
      BucketTotalSnoc(normalized, entry, PeaBucket);
      BucketTotalSnoc(normalized, entry, CryptoBucket);
      BucketTotalSnoc(normalized, entry, OtherBucket);
      normalized := normalized + [entry];
      if normalizedType == "PEA" {
        valuePea := valuePea + h.view.marketValueEur;
      } else if normalizedType == "CRYPTO" {
        valueCrypto := valueCrypto + h.view.marketValueEur;
      } else {
        valueOther := valueOther + h.view.marketValueEur;
      }
    }
    assert computed[..|computed|] == computed;
  }

  /** The loop of lines 80-99, with each row linked to snapshot `id`. */
  method BuildStoredRows(normalized: seq<ComputedHolding>, id: int) returns (rows: seq<StoredHolding>)
    ensures rows == StoredRows(normalized, id)
  {
    rows := [];
    for i := 0 to |normalized|
      invariant rows == StoredRows(normalized[..i], id)
    {
      assert normalized[..i + 1][..i] == normalized[..i];
      rows := rows + [Store(normalized[i], Some(id))];
    }
    assert normalized[..|normalized|] == normalized;
  }

  /** `run_snapshot` (lines 45-117) on the result `(computed, totals)` of
      `compute_holdings` and the clock reading `ts`; the second result is `value_other`,
      which only the log records. The holding rows are linked to the new snapshot. */
  method RunSnapshot(db: Database, computed: seq<ComputedHolding>, totals: Totals, norm: string -> string, ts: int)
    returns (snapshot: Snapshot, valueOther: real)
    modifies db
    ensures snapshot == SnapshotOf(old(db.NextSnapshotId()), computed, totals, norm, ts)
    ensures valueOther == BucketTotal(NormalizeHoldings(computed, norm), OtherBucket)
    ensures db.snapshots == old(db.snapshots) + [snapshot]
    ensures db.holdings == old(db.holdings) + StoredRows(NormalizeHoldings(computed, norm), snapshot.id)
  {
    var normalized, valuePea, valueCrypto;
    normalized, valuePea, valueCrypto, valueOther := SplitIntoBuckets(computed, norm);
    var valueTotal := valuePea + valueCrypto + valueOther;
    var pnlTotal := totals.realizedPnl + totals.latentPnl;
    snapshot := Snapshot(db.NextSnapshotId(), ts, valuePea, valueCrypto, valueTotal, pnlTotal);
    assert snapshot == SnapshotOf(db.NextSnapshotId(), computed, totals, norm, ts);
    db.snapshots := db.snapshots + [snapshot];
    var rows := BuildStoredRows(normalized, snapshot.id);
    db.holdings := db.holdings + rows;
  }

  // ---------------------------------------------------------------- with compute_holdings

  /** A `HoldingView` of the portfolio service, which carries no instrument or account
      fields. */
  function FromView(v: HoldingView): ComputedHolding {
    ComputedHolding(v, None, None, None, None)
  }

  function FromViews(vs: seq<HoldingView>): (r: seq<ComputedHolding>)
    ensures |r| == |vs| && forall i :: 0 <= i < |vs| ==> r[i] == FromView(vs[i])
  {
    if vs == [] then [] else FromViews(vs[..|vs| - 1]) + [FromView(vs[|vs| - 1])]
  }

  lemma {:induction false} FromViewsTotal(vs: seq<HoldingView>)
    ensures TotalValue(FromViews(vs)) == SumValue(vs)
  {
    if vs != [] {
      FromViewsTotal(vs[..|vs| - 1]);
      assert FromViews(vs)[..|vs| - 1] == FromViews(vs[..|vs| - 1]);
      SumValueSnoc(vs);
    }
  }

  /** Fed by `compute_holdings`, the snapshot's total is the portfolio's total value and its
      P&L is realized plus latent, which is the total value less the total invested plus
      the realized P&L. */
  lemma SnapshotOfPortfolio(table: seq<Transaction>, asOf: int, norm: string -> string, id: int, ts: int)
    ensures var (hs, totals) := ComputeHoldingsSpec(table, asOf);
      var s := SnapshotOf(id, FromViews(hs), totals, norm, ts);
      && s.valueTotalEur == totals.totalValue
      && s.pnlTotalEur == totals.realizedPnl + totals.totalValue - totals.totalInvested
  {
    var (hs, totals) := ComputeHoldingsSpec(table, asOf);
    FromViewsTotal(hs);
    TotalsBalance(table, asOf);
  }
}
