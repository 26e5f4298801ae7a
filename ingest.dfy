/**
 * ingest_fake_data with the database taken out: seed the care_site table,
 * generate MAX_NUM_ROWS provider rows, drop rows with a repeated NPI, and, if
 * that left fewer than MAX_NUM_ROWS rows, generate the shortfall once, append
 * it and drop repeated NPIs again. There is one backfill pass, not a loop.
 *
 * The random source is the input `draw`: generated row number k of the run
 * (counting through both batches) is GenerateRow(draw(k)).
 */
module Ingest {
  import opened ProviderRows
  import opened NpiDedup
  import CareSites

  /** The number of rows range(MAX_NUM_ROWS) produces. */
  function BatchSize(maxRows: int): (n: nat)
    ensures maxRows > 0 ==> n == maxRows
    ensures n >= maxRows
    ensures n == 0 <==> maxRows <= 0
  {
    if maxRows > 0 then maxRows else 0
  }

  /** `n` rows built from draws from, from + 1, ..., from + n - 1. */
  function Batch(draw: nat -> Choice, from: nat, n: nat): (b: seq<Row>)
    ensures |b| == n
  {
    seq(n, i requires 0 <= i < n => GenerateRow(draw(from + i)))
  }

  /** Every row of a batch is the generated row of its own draw, and is well formed. */
  lemma BatchWellFormed(draw: nat -> Choice, from: nat, n: nat)
    ensures forall i :: 0 <= i < n ==> Batch(draw, from, n)[i] == GenerateRow(draw(from + i))
    ensures forall r :: r in Batch(draw, from, n) ==> WellFormed(r)
  {
    var b := Batch(draw, from, n);
    forall i | 0 <= i < n ensures WellFormed(b[i]) {
      GenerateRowWellFormed(draw(from + i));
    }
  }

  /** The rows kept from the first batch by the first drop_duplicates. */
  function FirstPass(maxRows: int, draw: nat -> Choice): (first: seq<Row>)
    ensures |first| <= BatchSize(maxRows)
    ensures DistinctNpis(first)
  {
    Dedup(Batch(draw, 0, BatchSize(maxRows)))
  }

  /** The number of extra rows the backfill generates: the shortfall, or none. */
  function Shortfall(maxRows: int, kept: nat): (extra: nat)
    ensures extra == 0 <==> kept >= maxRows
    ensures extra > 0 ==> kept + extra == maxRows
  {
    if kept < maxRows then maxRows - kept else 0
  }

  /**
   * The provider rows that are bulk-loaded: the first pass, and, when it is
   * short, the deduplication of the first pass followed by the shortfall.
   */
  function LoadedRows(maxRows: int, draw: nat -> Choice): (rows: seq<Row>)
    ensures |rows| <= BatchSize(maxRows)
  {
    var first := FirstPass(maxRows, draw);
    var n := BatchSize(maxRows);
    if |first| < maxRows then Dedup(first + Batch(draw, n, maxRows - |first|))
    else first
  }

  /** The provider table's UNIQUE constraint on npi holds for the loaded rows. */
  lemma ProviderNpisDistinct(maxRows: int, draw: nat -> Choice)
    ensures DistinctNpis(LoadedRows(maxRows, draw))
  {
  }

  /** Every loaded row is well formed and names one of the seeded care sites. */
  lemma ProviderRowsWellFormed(maxRows: int, draw: nat -> Choice)
    ensures forall r :: r in LoadedRows(maxRows, draw) ==> WellFormed(r)
    ensures forall r :: r in LoadedRows(maxRows, draw) ==>
              r.careSite in CareSites.SeedAll(CareSites.EMPTY, CareSites.CARE_SITES).rows
  {
    var n := BatchSize(maxRows);
    var batch := Batch(draw, 0, n);
    var first := Dedup(batch);
    var extra := Batch(draw, n, Shortfall(maxRows, |first|));
    var loaded := LoadedRows(maxRows, draw);
    BatchWellFormed(draw, 0, n);
    BatchWellFormed(draw, n, Shortfall(maxRows, |first|));
    assert forall r :: r in first ==> WellFormed(r);
    assert forall r :: r in first + extra ==> WellFormed(r);
    assert loaded == first || loaded == Dedup(first + extra);
    assert forall r :: r in loaded ==> WellFormed(r);
    CareSites.SeedFreshTable();
  }

  /**
   * The backfill keeps the rows of the first pass first and in order, and the
   * count ends between the first pass's count and MAX_NUM_ROWS.
   */
  lemma ProviderLengthBounds(maxRows: int, draw: nat -> Choice)
    ensures |FirstPass(maxRows, draw)| <= |LoadedRows(maxRows, draw)| <= BatchSize(maxRows)
    ensures LoadedRows(maxRows, draw)[..|FirstPass(maxRows, draw)|] == FirstPass(maxRows, draw)
  {
    var first := FirstPass(maxRows, draw);
    var n := BatchSize(maxRows);
    if |first| < maxRows {
      var extra := Batch(draw, n, maxRows - |first|);
      DedupPrefix(first, extra);
      DedupOfDistinct(first);
    } else {
      assert first[..|first|] == first;
    }
  }

  /**
   * When the first batch already has MAX_NUM_ROWS distinct NPIs, nothing is
   * backfilled and the loaded rows are the first batch, unchanged and in order.
   */
  lemma NoBackfillWhenDistinct(maxRows: int, draw: nat -> Choice)
    requires DistinctNpis(Batch(draw, 0, BatchSize(maxRows)))
    ensures Shortfall(maxRows, |FirstPass(maxRows, draw)|) == 0
    ensures LoadedRows(maxRows, draw) == Batch(draw, 0, BatchSize(maxRows))
  {
    DedupOfDistinct(Batch(draw, 0, BatchSize(maxRows)));
  }

  /**
   * When the backfilled rows' NPIs are distinct from each other and from the
   * first pass's, the loaded count is exactly MAX_NUM_ROWS.
   */
  lemma BackfillExact(maxRows: int, draw: nat -> Choice)
    requires var first := FirstPass(maxRows, draw);
             DistinctNpis(first + Batch(draw, BatchSize(maxRows), Shortfall(maxRows, |first|)))
    ensures |LoadedRows(maxRows, draw)| == BatchSize(maxRows)
  {
    var first := FirstPass(maxRows, draw);
    var extra := Batch(draw, BatchSize(maxRows), Shortfall(maxRows, |first|));
    if |first| < maxRows {
      DedupOfDistinct(first + extra);
    } else {
      assert extra == [];
    }
  }

  /**
   * The single backfill pass can still end short of MAX_NUM_ROWS: if every draw
   * is the same, two rows are asked for and one is loaded.
   */
  lemma OnePassCanFallShort(c: Choice)
    ensures |LoadedRows(2, k => c)| == 1
  {
    var draw := (k: nat) => c;
    var b := Batch(draw, 0, 2);
    DedupSameNpi(b);
    var first := FirstPass(2, draw);
    var extra := Batch(draw, 2, 1);
    assert first + extra == [first[0], extra[0]];
    DedupSameNpi(first + extra);
  }

  /**
   * A MAX_NUM_ROWS of zero or less generates no provider rows, in either
   * batch, and loads none.
   */
  lemma NonPositiveTargetLoadsNothing(maxRows: int, draw: nat -> Choice)
    requires maxRows <= 0
    ensures Batch(draw, 0, BatchSize(maxRows)) == []
    ensures Shortfall(maxRows, |FirstPass(maxRows, draw)|) == 0
    ensures LoadedRows(maxRows, draw) == []
  {
  }

  /** [generate_row() for _ in range(n)], filling a fresh array. */
  method GenerateRows(draw: nat -> Choice, from: nat, n: nat) returns (a: array<Row>)
    ensures fresh(a)
    ensures a[..] == Batch(draw, from, n)
  {
    a := new Row[n];
    for i := 0 to n
      invariant forall k :: 0 <= k < i ==> a[k] == GenerateRow(draw(from + k))
    {
      a[i] := GenerateRow(draw(from + i));
    }
  }

  /**
   * The backfill step: generate `needed` more rows from draw `from` on,
   * append them after `kept` (pd.concat) and drop repeated NPIs again.
   */
  method Backfill(kept: seq<Row>, draw: nat -> Choice, from: nat, needed: nat) returns (rows: seq<Row>)
    ensures rows == Dedup(kept + Batch(draw, from, needed))
  {
    var additional := GenerateRows(draw, from, needed);
    var combined := kept + additional[..];
    var frame := new Row[|combined|](k requires 0 <= k < |combined| => combined[k]);
    assert frame[..] == combined;
    var len := DropDuplicates(frame);
    rows := frame[..len];
  }

  /**
   * The provider half of the generator: the first batch, its in-place
   * drop_duplicates, and, when it came out short, one backfill of the
   * shortfall. Also returns how many rows were generated in all.
   */
  method GenerateProviders(maxRows: int, draw: nat -> Choice) returns (provider: seq<Row>, generated: nat)
    ensures provider == LoadedRows(maxRows, draw)
    ensures generated == BatchSize(maxRows) + Shortfall(maxRows, |FirstPass(maxRows, draw)|)
  {
    var n := BatchSize(maxRows);
    var df := GenerateRows(draw, 0, n);
    ghost var batch := df[..];
    var len := DropDuplicates(df);
    provider := df[..len];
    assert provider == Dedup(batch) == FirstPass(maxRows, draw);
    generated := n;

    if len < maxRows {
      var needed := maxRows - len;
      provider := Backfill(provider, draw, n, needed);
      generated := generated + needed;
    }
  }

  /**
   * The generator end to end: the seeded care_site table, the provider rows
   * to bulk-load, and how many provider rows were generated in all.
   * MAX_NUM_ROWS defaults to 2000000.
   */
  method IngestFakeData(draw: nat -> Choice, maxRows: int := 2000000)
    returns (sites: CareSites.CareSiteTable, provider: seq<Row>, generated: nat)
    ensures fresh(sites)
    ensures sites.State() == CareSites.SeedAll(CareSites.EMPTY, CareSites.CARE_SITES)
    ensures provider == LoadedRows(maxRows, draw)
    ensures generated == BatchSize(maxRows) + Shortfall(maxRows, |FirstPass(maxRows, draw)|)
  {
    sites := new CareSites.CareSiteTable();
    sites.Seed(CareSites.CARE_SITES);
    provider, generated := GenerateProviders(maxRows, draw);
  }
}
