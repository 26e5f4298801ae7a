# Synthetic provider data generator, modelled in Dafny

This project models `ingest_fake_data`, the fixture that fills a Postgres
database with synthetic healthcare data for the acceptance tests. It does
three things:

1. It seeds a `care_site` table. The table is unique on `care_site_name`.
   Eight fixed (name, code) pairs go in through `INSERT ... ON CONFLICT DO NOTHING`.
2. It builds `MAX_NUM_ROWS` provider rows. Each row gets a random "First Last"
   name, a random 10-digit NPI (National Provider Identifier), a random
   specialty and a random care-site name. Three more columns are derived from
   those values.
3. It drops rows whose NPI already appeared. If that leaves fewer than
   `MAX_NUM_ROWS` rows, it generates the shortfall once, appends it, and
   drops repeated NPIs again. The result is bulk-loaded into `provider`.

The model treats randomness as an input. A `Choice` holds the draws behind
one `generate_row()` call: two name-list indices, ten digits, a specialty
index and a care-site index. The run's random source is a function
`draw: nat -> Choice`, and the k-th row generated in the run (counting
through both batches) is built from `draw(k)`.

Files:

- `care_sites.dfy` (module `CareSites`): the table as a value (`Table`,
  `InsertIgnore`, `SeedAll`) and as a class updated in place (`CareSiteTable`).
- `provider_rows.dfy` (module `ProviderRows`): NPI generation, Python's
  no-argument `str.split()`, name generation and row construction.
- `npi_dedup.dfy` (module `NpiDedup`): `drop_duplicates(subset=['npi'])` as a
  sequence function `Dedup`, its properties, and the one-pass in-place method
  over an array.
- `ingest.dfy` (module `Ingest`): the batches, the single backfill pass and the
  whole run.

The code runs one backfill pass
(`tests/acceptance/fixtures/data/postgres/datagen.py:172-193`), yet the fixture
that calls it asserts that the provider count equals `MAX_ROWS`
(`tests/acceptance/conftest.py:53-57`). So the model proves the count is exact
only when the backfilled NPIs are fresh (`Ingest.BackfillExact`), and
`Ingest.OnePassCanFallShort` shows a run that ends short.

## Model

| member | source | states |
|---|---|---|
| `CareSites.CareSiteNamesDistinct` | tests/acceptance/fixtures/data/postgres/datagen.py:49-58 | the eight seeded care-site names are pairwise distinct |
| `CareSites.CareSitesFitColumns` | tests/acceptance/fixtures/data/postgres/datagen.py:40-58 | every seeded name fits care_site_name VARCHAR(255) and every code fits care_site_source_value VARCHAR(50) |
| `CareSites.DistinctNamesCount` | tests/acceptance/fixtures/data/postgres/datagen.py:49-58 | a list of pairwise-distinct names has as many names as pairs |
| `CareSites.InsertIgnore` | tests/acceptance/fixtures/data/postgres/datagen.py:62-70 | the reference definition of one `INSERT ... ON CONFLICT ... DO NOTHING`, with the SERIAL sequence advancing on every attempt; it carries no ensures of its own, and `InsertConflictKeepsRow` and `InsertNewAddsRow` state its effect |
| `CareSites.SeedAll` | tests/acceptance/fixtures/data/postgres/datagen.py:61-70 | the reference definition of the seeding loop, one conflict-ignoring insert per pair in list order; it carries no ensures of its own, and `SeedKeys`, `SeedStoresCodes` and `SeedIdempotent` state its properties |
| `CareSites.InsertConflictKeepsRow` | tests/acceptance/fixtures/data/postgres/datagen.py:61-70 | an insert whose name already exists leaves every row unchanged; only the SERIAL sequence advances, by one |
| `CareSites.InsertNewAddsRow` | tests/acceptance/fixtures/data/postgres/datagen.py:61-70 | an insert of a new name adds exactly that key, stores the given code, and leaves every other row unchanged |
| `CareSites.SeedKeys` | tests/acceptance/fixtures/data/postgres/datagen.py:60-70 | seeding adds exactly the listed names to the keys, keeps every pre-existing row, and advances the SERIAL sequence once per insert attempt |
| `CareSites.SeedStoresCodes` | tests/acceptance/fixtures/data/postgres/datagen.py:60-70 | seeding distinct, absent names stores each pair's own code under its name |
| `CareSites.SeedIdempotent` | tests/acceptance/fixtures/data/postgres/datagen.py:60-70 | seeding the same list again leaves the rows unchanged |
| `CareSites.SeedFreshTable` | tests/acceptance/fixtures/data/postgres/datagen.py:36-70 | seeding the freshly created table gives exactly 8 rows, keyed by the eight names, each with its listed code |
| `CareSites.CareSiteTable.constructor` | tests/acceptance/fixtures/data/postgres/datagen.py:37-46 | the recreated table is empty, with its SERIAL sequence at 1 |
| `CareSites.CareSiteTable.Insert` | tests/acceptance/fixtures/data/postgres/datagen.py:62-70 | the new state is the conflict-ignoring insert of the old one; a row is added iff the name was absent; otherwise the rows are unchanged |
| `CareSites.CareSiteTable.Seed` | tests/acceptance/fixtures/data/postgres/datagen.py:60-70 | the loop of inserts leaves the table in the state `SeedAll` gives for the old state and the pairs, in order |
| `ProviderRows.GenerateNpi` | tests/acceptance/fixtures/data/postgres/datagen.py:87-88 | the NPI has one character per drawn digit; each character is a decimal digit whose value is the drawn digit |
| `ProviderRows.NpiDigitsRoundTrip` | tests/acceptance/fixtures/data/postgres/datagen.py:87-88 | the drawn digits can be read back from the generated NPI |
| `ProviderRows.NpiStringRoundTrip` | tests/acceptance/fixtures/data/postgres/datagen.py:87-88 | every all-digit string is what NPI generation produces from its own digits, so generation hits every such string |
| `ProviderRows.SplitFrom` | tests/acceptance/fixtures/data/postgres/datagen.py:140 | every word `str.split()` returns is non-empty and contains no whitespace |
| `ProviderRows.Split` | tests/acceptance/fixtures/data/postgres/datagen.py:140-143 | as for `SplitFrom`, from an empty current word |
| `ProviderRows.SplitReadsWord` | tests/acceptance/fixtures/data/postgres/datagen.py:140 | splitting only extends the current word while it reads non-whitespace characters |
| `ProviderRows.SplitTwoWords` | tests/acceptance/fixtures/data/postgres/datagen.py:118 | "First Last" built from two non-empty, whitespace-free words splits into exactly those two words |
| `ProviderRows.NameListsAreWords` | tests/acceptance/fixtures/data/postgres/datagen.py:92-116 | every first name and last name is non-empty and contains no whitespace |
| `ProviderRows.GenerateProviderName` | tests/acceptance/fixtures/data/postgres/datagen.py:91-118 | the generated name splits into exactly the chosen first name and last name |
| `ProviderRows.GenerateRowFields` | tests/acceptance/fixtures/data/postgres/datagen.py:121-153 | a generated row has: name "First Last"; a 10-digit NPI carrying the drawn digits; the drawn specialty, copied into `specialty_source_value`; the drawn care site's name; `provider_source_value` = first initial then last name; `provider_id_source_value` = first initial, '-', then the row's NPI |
| `ProviderRows.GenerateRow` | tests/acceptance/fixtures/data/postgres/datagen.py:121-153 | builds one row from one `Choice`; it carries no ensures of its own, and `GenerateRowFields` states its columns |
| `ProviderRows.GenerateRowWellFormed` | tests/acceptance/fixtures/data/postgres/datagen.py:121-153 | every generated row meets `WellFormed`, a check on the row alone: 10-digit NPI, listed specialty, seeded care-site name, a name that is first name, one space, last name from the two lists, and derived fields consistent with the split name |
| `ProviderRows.WordListLengths` | tests/acceptance/fixtures/data/postgres/datagen.py:92-133 | no first name is longer than 8 characters, no last name than 9, and no specialty than 17 |
| `ProviderRows.RowFitsColumns` | tests/acceptance/fixtures/data/postgres/datagen.py:76-82 | every column of a well-formed row fits its VARCHAR declaration: name at most 18 of 255 characters, NPI exactly 10 of 10, specialty at most 17 of 100, care site at most 24 of 255, and the three source values at most 10, 17 and exactly 12 of 50 |
| `ProviderRows.NpiFromProviderIdSourceValue` | tests/acceptance/fixtures/data/postgres/datagen.py:143 | in a well-formed row, `provider_id_source_value` is 12 characters: the initial, '-', then exactly the row's NPI |
| `NpiDedup.Dedup` | tests/acceptance/fixtures/data/postgres/datagen.py:170 | the kept rows are no more than the input; they have pairwise-distinct NPIs; they have the same set of NPIs as the input (every input NPI survives); each is a row of the input |
| `NpiDedup.DedupIsSubsequence` | tests/acceptance/fixtures/data/postgres/datagen.py:170 | the kept rows are a subsequence of the input: order is preserved and rows are not altered |
| `NpiDedup.FirstIndex` | tests/acceptance/fixtures/data/postgres/datagen.py:170 | gives the index of a row carrying the NPI, with no earlier row carrying it |
| `NpiDedup.FirstIndexInFront` | tests/acceptance/fixtures/data/postgres/datagen.py:170 | appending a row does not move the first occurrence of an NPI already present |
| `NpiDedup.DedupKeepsFirst` | tests/acceptance/fixtures/data/postgres/datagen.py:170 | every kept row equals the first input row carrying its NPI |
| `NpiDedup.DedupKeepsEveryFirstRow` | tests/acceptance/fixtures/data/postgres/datagen.py:170 | for every input NPI, the first input row carrying it is kept |
| `NpiDedup.DedupOfDistinct` | tests/acceptance/fixtures/data/postgres/datagen.py:170 | input whose NPIs are already distinct comes back unchanged, in the same order |
| `NpiDedup.DedupPrefix` | tests/acceptance/fixtures/data/postgres/datagen.py:189-193 | deduplicating `s + t` starts with the deduplication of `s` |
| `NpiDedup.DedupSameNpi` | tests/acceptance/fixtures/data/postgres/datagen.py:170 | non-empty rows that all share one NPI deduplicate to one row |
| `NpiDedup.NpiSetSnoc` | tests/acceptance/fixtures/data/postgres/datagen.py:170 | appending a row adds exactly its NPI to the set of NPIs |
| `NpiDedup.DropDuplicates` | tests/acceptance/fixtures/data/postgres/datagen.py:170 | the in-place pass with a seen-NPI set leaves exactly `Dedup` of the original rows at the front of the array and returns their count |
| `Ingest.BatchSize` | tests/acceptance/fixtures/data/postgres/datagen.py:155 | the number of rows `range(MAX_NUM_ROWS)` yields: exactly MAX_NUM_ROWS when it is positive, and 0 exactly when it is 0 or less |
| `Ingest.Batch` | tests/acceptance/fixtures/data/postgres/datagen.py:155 | a batch of n draws has exactly n rows; `BatchWellFormed` states what each row is |
| `Ingest.FirstPass` | tests/acceptance/fixtures/data/postgres/datagen.py:155-170 | the first batch after drop_duplicates: at most max(MAX_NUM_ROWS, 0) rows, with pairwise-distinct NPIs |
| `Ingest.Shortfall` | tests/acceptance/fixtures/data/postgres/datagen.py:172-174 | the number of rows the backfill generates is 0 exactly when the kept count already reaches MAX_NUM_ROWS; otherwise it makes up the difference exactly |
| `Ingest.LoadedRows` | tests/acceptance/fixtures/data/postgres/datagen.py:155-193 | the reference definition of the bulk-loaded rows: the first pass, or that pass with the shortfall appended and deduplicated again when it came out short; it has at most max(MAX_NUM_ROWS, 0) rows. The backfill lemmas and the methods are stated against it |
| `Ingest.BatchWellFormed` | tests/acceptance/fixtures/data/postgres/datagen.py:155 | row i of a batch is the row generated from its own draw, and every row of a batch is well formed |
| `Ingest.Backfill` | tests/acceptance/fixtures/data/postgres/datagen.py:173-193 | generating the needed rows, appending them after the kept rows and deduplicating yields exactly `Dedup(kept + Batch(...))` |
| `Ingest.ProviderNpisDistinct` | tests/acceptance/fixtures/data/postgres/datagen.py:77 | the loaded rows meet the provider table's UNIQUE constraint on npi |
| `Ingest.ProviderRowsWellFormed` | tests/acceptance/fixtures/data/postgres/datagen.py:134-138 | every loaded row is well formed, and its `care_site` is the name of a row in the seeded care_site table |
| `Ingest.ProviderLengthBounds` | tests/acceptance/fixtures/data/postgres/datagen.py:170-193 | the loaded count lies between the first deduplicated count and max(MAX_NUM_ROWS, 0); the first-pass rows come first and in order |
| `Ingest.NoBackfillWhenDistinct` | tests/acceptance/fixtures/data/postgres/datagen.py:170-172 | if the first batch's NPIs are distinct, there is no shortfall and the loaded rows are that batch, unchanged and in order |
| `Ingest.BackfillExact` | tests/acceptance/conftest.py:53-57 | if the backfilled NPIs are distinct from each other and from the first pass, exactly MAX_NUM_ROWS rows are loaded, which is the count the fixture asserts |
| `Ingest.OnePassCanFallShort` | tests/acceptance/fixtures/data/postgres/datagen.py:172-193 | with the same draw every time, MAX_NUM_ROWS = 2 loads one row: one backfill pass does not guarantee the count |
| `Ingest.NonPositiveTargetLoadsNothing` | tests/acceptance/fixtures/data/postgres/datagen.py:155-172 | for MAX_NUM_ROWS of 0 or less, the first batch is empty, the backfill generates nothing, and no provider rows are loaded |
| `Ingest.GenerateRows` | tests/acceptance/fixtures/data/postgres/datagen.py:174-176 | the list comprehension's loop fills a fresh array with exactly the batch's rows |
| `Ingest.GenerateProviders` | tests/acceptance/fixtures/data/postgres/datagen.py:155-193 | the generate/dedup/one-backfill steps produce exactly `LoadedRows`; they generate MAX_NUM_ROWS rows plus the shortfall, and the shortfall is 0 unless the first pass came out short |
| `Ingest.IngestFakeData` | tests/acceptance/fixtures/data/postgres/datagen.py:16-193 | with MAX_NUM_ROWS defaulting to 2000000, the run returns a fresh care_site table in the seeded state, the provider rows `LoadedRows`, and the count of generated rows |

## Left out

- Database I/O is not modelled: the psycopg2 connection, `DROP`/`CREATE TABLE`, the `copy_from` bulk load, commit and close. The `provider` table's contents are the returned row sequence. The freshly created `care_site` table is the class's constructor.
- The pandas DataFrame and CSV buffer are not modelled. `reset_index(drop=True)` and `to_csv(index=False)` do not change row contents or order. No generated value contains a comma or quote, but that fact is not proved here.
- `NpiDedup.DropDuplicates`: the kept rows are compacted to the front of the same array. Slots past the returned count are left unspecified, whereas pandas shrinks the frame.
- `random.choice` and `random.choices` are replaced by the `draw` input. Nothing is proved about distributions or collision probabilities.
- Database configuration from environment variables, timing, `logger.info` and `print` are not modelled.
- Column lengths are proved to fit (`ProviderRows.RowFitsColumns`, `CareSites.CareSitesFitColumns`). The error Postgres would raise for an over-long value is not modelled, since no generated value reaches it.
- The `provider_id` SERIAL column is not modelled. The model keeps only each row's position in the loaded sequence; the id Postgres assigns would be that position plus one.
- `care_site_id`: the model follows Postgres semantics, where the SERIAL default is taken before the conflict check. So the sequence advances on ignored inserts too. Nothing else in the generator reads the id.
- The rest of the repository is not part of this model: the container fixtures, the dbt, infra and dev tests, the setup scripts and the storage/engine adapters. It is orchestration over kubectl, helm, docker, Trino, MinIO and SQLAlchemy.
- The backfill is not repeated until the count is exact, because the code runs it once (see above).
