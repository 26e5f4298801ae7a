/**
 * The care_site table of the synthetic-data generator: a table unique on
 * care_site_name, with a SERIAL id, filled by "INSERT ... ON CONFLICT ON
 * CONSTRAINT care_site_care_site_name_key DO NOTHING" for each of eight
 * fixed (name, source value) pairs.
 */
module CareSites {

  /** The eight (care_site_name, care_site_source_value) pairs the generator seeds. */
  const CARE_SITES: seq<(string, string)> := [
    ("City Hospital", "CSH01"),
    ("Village Clinic", "VCL01"),
    ("Metro Medical Center", "MMC01"),
    ("Suburban Health", "SH01"),
    ("North Health Institute", "NHI01"),
    ("Eastside Clinic", "EC01"),
    ("Downtown Health", "DH01"),
    ("Westside Family Practice", "WFP01")
  ]

  /** The names of a list of (name, source value) pairs, as a set. */
  function Names(sites: seq<(string, string)>): set<string>
  {
    set i | 0 <= i < |sites| :: sites[i].0
  }

  /** The names of the eight seeded care sites. */
  function SiteNames(): set<string>
  {
    Names(CARE_SITES)
  }

  /**
   * Every seeded pair fits its column: care_site_name is VARCHAR(255) and
   * care_site_source_value is VARCHAR(50).
   */
  lemma CareSitesFitColumns()
    ensures forall i :: 0 <= i < |CARE_SITES| ==> |CARE_SITES[i].0| <= 24 <= 255 && |CARE_SITES[i].1| <= 5 <= 50
    ensures forall n :: n in SiteNames() ==> |n| <= 24
  {
    forall n | n in SiteNames() ensures |n| <= 24 {
      var i :| 0 <= i < |CARE_SITES| && CARE_SITES[i].0 == n;
    }
  }

  /** No name occurs twice in the list. */
  predicate DistinctNames(sites: seq<(string, string)>)
  {
    forall i, j :: 0 <= i < j < |sites| ==> sites[i].0 != sites[j].0
  }

  /** A stored care_site row: its SERIAL id and its care_site_source_value. */
  datatype Site = Site(id: nat, sourceValue: string)

  /**
   * The whole state of the table: the rows keyed by the unique name, and the
   * next value the SERIAL sequence hands out.
   */
  datatype Table = Table(rows: map<string, Site>, nextId: nat)

  /** A freshly created table: no rows, and a SERIAL sequence that starts at 1. */
  const EMPTY: Table := Table(map[], 1)

  /**
   * One INSERT ... ON CONFLICT DO NOTHING. The SERIAL default is evaluated
   * before the conflict is detected, so the sequence advances on a conflict too.
   */
  function InsertIgnore(t: Table, name: string, code: string): Table
  {
    if name in t.rows then Table(t.rows, t.nextId + 1)
    else Table(t.rows[name := Site(t.nextId, code)], t.nextId + 1)
  }

  /** The inserts of the seeding loop, one per pair, in list order. */
  function SeedAll(t: Table, sites: seq<(string, string)>): Table
    decreases |sites|
  {
    if sites == [] then t
    else SeedAll(InsertIgnore(t, sites[0].0, sites[0].1), sites[1..])
  }

  /**
   * An insert whose name is already present leaves every row as it was; only
   * the SERIAL sequence advances.
   */
  lemma InsertConflictKeepsRow(t: Table, name: string, code: string)
    requires name in t.rows
    ensures InsertIgnore(t, name, code).rows == t.rows
    ensures InsertIgnore(t, name, code).nextId == t.nextId + 1
  {
  }

  /** An insert of a new name adds exactly that row and touches no other. */
  lemma InsertNewAddsRow(t: Table, name: string, code: string)
    requires name !in t.rows
    ensures InsertIgnore(t, name, code).rows.Keys == t.rows.Keys + {name}
    ensures InsertIgnore(t, name, code).rows[name].sourceValue == code
    ensures forall n :: n in t.rows ==> InsertIgnore(t, name, code).rows[n] == t.rows[n]
  {
  }

  /**
   * Seeding adds exactly the listed names, keeps every row that was already
   * there, and advances the sequence once per insert attempt.
   */
  lemma {:induction false} SeedKeys(t: Table, sites: seq<(string, string)>)
    ensures SeedAll(t, sites).rows.Keys == t.rows.Keys + Names(sites)
    ensures forall n :: n in t.rows ==> SeedAll(t, sites).rows[n] == t.rows[n]
    ensures SeedAll(t, sites).nextId == t.nextId + |sites|
    decreases |sites|
  {
    if sites != [] {
      var t' := InsertIgnore(t, sites[0].0, sites[0].1);
      SeedKeys(t', sites[1..]);
      assert Names(sites) == {sites[0].0} + Names(sites[1..]) by {
        forall n | n in Names(sites) ensures n in {sites[0].0} + Names(sites[1..]) {
          var i :| 0 <= i < |sites| && sites[i].0 == n;
          if i > 0 { assert sites[1..][i - 1].0 == n; }
        }
        forall n | n in Names(sites[1..]) ensures n in Names(sites) {
          var i :| 0 <= i < |sites[1..]| && sites[1..][i].0 == n;
          assert sites[i + 1].0 == n;
        }
      }
    }
  }

  /**
   * Seeding a list of pairwise-distinct names whose names are all absent
   * stores, for each pair, its own source value under its name.
   */
  lemma {:induction false} SeedStoresCodes(t: Table, sites: seq<(string, string)>, k: nat)
    requires DistinctNames(sites)
    requires forall i :: 0 <= i < |sites| ==> sites[i].0 !in t.rows
    requires k < |sites|
    ensures sites[k].0 in SeedAll(t, sites).rows
    ensures SeedAll(t, sites).rows[sites[k].0].sourceValue == sites[k].1
    decreases |sites|
  {
    var t' := InsertIgnore(t, sites[0].0, sites[0].1);
    if k == 0 {
      SeedKeys(t', sites[1..]);
    } else {
      assert forall i :: 0 <= i < |sites[1..]| ==> sites[1..][i].0 == sites[i + 1].0;
      SeedStoresCodes(t', sites[1..], k - 1);
    }
  }

  /** Seeding the same list a second time changes no row. */
  lemma SeedIdempotent(t: Table, sites: seq<(string, string)>)
    ensures SeedAll(SeedAll(t, sites), sites).rows == SeedAll(t, sites).rows
  {
    var once := SeedAll(t, sites);
    SeedKeys(t, sites);
    SeedKeys(once, sites);
    assert SeedAll(once, sites).rows.Keys == once.rows.Keys;
  }

  /** The names of a list of pairwise-distinct names are as many as its pairs. */
  lemma {:induction false} DistinctNamesCount(sites: seq<(string, string)>)
    requires DistinctNames(sites)
    ensures |Names(sites)| == |sites|
    decreases |sites|
  {
    if sites != [] {
      var rest := sites[1..];
      assert DistinctNames(rest) by {
        forall i, j | 0 <= i < j < |rest| ensures rest[i].0 != rest[j].0 {
          assert rest[i] == sites[i + 1] && rest[j] == sites[j + 1];
        }
      }
      DistinctNamesCount(rest);
      assert Names(sites) == {sites[0].0} + Names(rest) by {
        forall n | n in Names(sites) ensures n in {sites[0].0} + Names(rest) {
          var i :| 0 <= i < |sites| && sites[i].0 == n;
          if i > 0 { assert rest[i - 1].0 == n; }
        }
        forall n | n in Names(rest) ensures n in Names(sites) {
          var i :| 0 <= i < |rest| && rest[i].0 == n;
          assert sites[i + 1].0 == n;
        }
      }
      assert sites[0].0 !in Names(rest);
    }
  }

  /** The eight seeded names are pairwise distinct (already their first letters differ). */
  lemma CareSiteNamesDistinct()
    ensures DistinctNames(CARE_SITES)
  {
    var initials := seq(|CARE_SITES|, i requires 0 <= i < |CARE_SITES| => CARE_SITES[i].0[0]);
    assert initials == "CVMSNEDW";
    forall i, j | 0 <= i < j < |CARE_SITES| ensures CARE_SITES[i].0 != CARE_SITES[j].0 {
      assert initials[i] != initials[j];
    }
  }

  /**
   * Seeding the fresh table with the eight care sites gives exactly eight
   * rows, one per listed name, each holding its listed source value.
   */
  lemma SeedFreshTable()
    ensures SeedAll(EMPTY, CARE_SITES).rows.Keys == SiteNames()
    ensures |SeedAll(EMPTY, CARE_SITES).rows| == 8
    ensures forall k :: 0 <= k < |CARE_SITES| ==>
              SeedAll(EMPTY, CARE_SITES).rows[CARE_SITES[k].0].sourceValue == CARE_SITES[k].1
  {
    SeedKeys(EMPTY, CARE_SITES);
    CareSiteNamesDistinct();
    DistinctNamesCount(CARE_SITES);
    assert |SeedAll(EMPTY, CARE_SITES).rows.Keys| == 8;
    forall k | 0 <= k < |CARE_SITES|
      ensures SeedAll(EMPTY, CARE_SITES).rows[CARE_SITES[k].0].sourceValue == CARE_SITES[k].1
    {
      SeedStoresCodes(EMPTY, CARE_SITES, k);
    }
  }

  /** The care_site table, updated in place by its insert statements. */
  class CareSiteTable {
    var rows: map<string, Site>
    var nextId: nat

    /** The table's contents as a value. */
    function State(): Table
      reads this
    {
      Table(rows, nextId)
    }

    /** CREATE TABLE care_site: empty, with a fresh SERIAL sequence. */
    constructor ()
      ensures State() == EMPTY
    {
      rows := map[];
      nextId := 1;
    }

    /** One INSERT ... ON CONFLICT DO NOTHING; reports whether a row was added. */
    method Insert(name: string, code: string) returns (inserted: bool)
      modifies this
      ensures State() == InsertIgnore(old(State()), name, code)
      ensures inserted <==> name !in old(rows)
      ensures inserted ==> rows.Keys == old(rows.Keys) + {name} && rows[name] == Site(old(nextId), code)
      ensures !inserted ==> rows == old(rows)
    {
      inserted := name !in rows;
      if inserted {
        rows := rows[name := Site(nextId, code)];
      }
      nextId := nextId + 1;
    }

    /** The seeding loop: one conflict-ignoring insert per pair, in order. */
    method Seed(sites: seq<(string, string)>)
      modifies this
      ensures State() == SeedAll(old(State()), sites)
    {
      for i := 0 to |sites|
        invariant SeedAll(State(), sites[i..]) == SeedAll(old(State()), sites)
      {
        assert sites[i..][0] == sites[i] && sites[i..][1..] == sites[i + 1..];
        var _ := Insert(sites[i].0, sites[i].1);
      }
      assert sites[|sites|..] == [];
    }
  }
}
