/**
 * Construction of one synthetic provider row. The random draws of the
 * generator are inputs here: a Choice holds the index picked from each word
 * list and the ten digits picked for the NPI.
 */
module ProviderRows {
  import CareSites

  /** The digit alphabet the NPI is drawn from (Python's string.digits). */
  const DIGITS: string := "0123456789"

  const FIRST_NAMES: seq<string> :=
    ["John", "Jane", "Emily", "Michael", "Sarah", "Robert", "Linda", "Kevin", "Patricia", "Laura"]

  const LAST_NAMES: seq<string> :=
    ["Doe", "Smith", "Johnson", "Brown", "Wilson", "Garcia", "Martinez", "Lee", "Rodriguez", "Davis"]

  const SPECIALTIES: seq<string> := [
    "Cardiology", "Pediatrics", "Neurology", "Oncology",
    "Dermatology", "Orthopedics", "Internal Medicine", "General Practice"
  ]

  /** The length of an NPI: random.choices(string.digits, k=10). */
  const NPI_LENGTH: nat := 10

  type Digit = d: nat | d < 10
  type NpiDraw = ds: seq<Digit> | |ds| == NPI_LENGTH witness [0, 0, 0, 0, 0, 0, 0, 0, 0, 0]
  type FirstNameIndex = i: nat | i < 10
  type LastNameIndex = i: nat | i < 10
  type SpecialtyIndex = i: nat | i < 8
  type SiteIndex = i: nat | i < 8

  /** The random draws behind one generate_row() call. */
  datatype Choice = Choice(first: FirstNameIndex, last: LastNameIndex, digits: NpiDraw,
                           specialty: SpecialtyIndex, site: SiteIndex)

  /** One provider row, its seven columns in the order they are loaded. */
  datatype Row = Row(
    providerName: string,
    npi: string,
    specialty: string,
    careSite: string,
    providerSourceValue: string,
    specialtySourceValue: string,
    providerIdSourceValue: string)

  // ---------------------------------------------------------------- NPI

  predicate IsDecimalDigit(c: char)
  {
    '0' <= c <= '9'
  }

  /** A National Provider Identifier as generated: exactly ten decimal digits. */
  predicate IsNpi(s: string)
  {
    |s| == NPI_LENGTH && forall i :: 0 <= i < |s| ==> IsDecimalDigit(s[i])
  }

  /** The character string.digits holds at position d. */
  lemma DigitChar(d: Digit)
    ensures IsDecimalDigit(DIGITS[d]) && DIGITS[d] as int - '0' as int == d
  {
    if d == 0 { assert DIGITS[d] == '0'; }
    else if d == 1 { assert DIGITS[d] == '1'; }
    else if d == 2 { assert DIGITS[d] == '2'; }
    else if d == 3 { assert DIGITS[d] == '3'; }
    else if d == 4 { assert DIGITS[d] == '4'; }
    else if d == 5 { assert DIGITS[d] == '5'; }
    else if d == 6 { assert DIGITS[d] == '6'; }
    else if d == 7 { assert DIGITS[d] == '7'; }
    else if d == 8 { assert DIGITS[d] == '8'; }
    else { assert DIGITS[d] == '9'; }
  }

  /** generate_npi: the drawn digits, joined into a string. */
  function GenerateNpi(ds: seq<Digit>): (s: string)
    ensures |s| == |ds|
    ensures forall i :: 0 <= i < |s| ==> IsDecimalDigit(s[i]) && s[i] as int - '0' as int == ds[i]
  {
    var s := seq(|ds|, i requires 0 <= i < |ds| => DIGITS[ds[i]]);
    assert forall i :: 0 <= i < |ds| ==> IsDecimalDigit(s[i]) && s[i] as int - '0' as int == ds[i] by {
      forall i | 0 <= i < |ds| ensures IsDecimalDigit(s[i]) && s[i] as int - '0' as int == ds[i] {
        DigitChar(ds[i]);
      }
    }
    s
  }

  /** The value of one decimal digit character. */
  function DigitValue(c: char): (d: Digit)
    requires IsDecimalDigit(c)
    ensures DIGITS[d] == c
  {
    DigitChar((c as int - '0' as int) as Digit);
    (c as int - '0' as int) as Digit
  }

  /** The digit values of a string of decimal digits: the inverse of GenerateNpi. */
  function DigitsOf(s: string): (ds: seq<Digit>)
    requires forall i :: 0 <= i < |s| ==> IsDecimalDigit(s[i])
    ensures |ds| == |s|
  {
    seq(|s|, i requires 0 <= i < |s| => DigitValue(s[i]))
  }

  /** The drawn digits can be read back from the generated NPI. */
  lemma NpiDigitsRoundTrip(ds: seq<Digit>)
    ensures DigitsOf(GenerateNpi(ds)) == ds
  {
  }

  /** Every string of decimal digits is what GenerateNpi makes of its own digits. */
  lemma NpiStringRoundTrip(s: string)
    requires forall i :: 0 <= i < |s| ==> IsDecimalDigit(s[i])
    ensures GenerateNpi(DigitsOf(s)) == s
  {
    var t := GenerateNpi(DigitsOf(s));
    assert forall i :: 0 <= i < |s| ==> t[i] == s[i];
  }

  // ---------------------------------------------------------------- str.split()

  /** The characters Python's str.isspace() accepts, which str.split() splits on. */
  predicate IsSpace(c: char)
  {
    c == ' ' || ('\t' <= c <= '\r') || ('\U{1C}' <= c <= '\U{1F}') || c == '\U{85}' ||
    c == '\U{A0}' || c == '\U{1680}' || ('\U{2000}' <= c <= '\U{200A}') ||
    c == '\U{2028}' || c == '\U{2029}' || c == '\U{202F}' || c == '\U{205F}' || c == '\U{3000}'
  }

  predicate NoSpace(s: string)
  {
    forall i :: 0 <= i < |s| ==> !IsSpace(s[i])
  }

  /** A usable word: non-empty and free of whitespace. */
  predicate IsWord(w: string)
  {
    |w| > 0 && NoSpace(w)
  }

  /**
   * str.split() with no separator, scanning left to right: `cur` is the word
   * being read; a run of whitespace ends it, and empty words are dropped.
   */
  function SplitFrom(s: string, cur: string): (words: seq<string>)
    requires NoSpace(cur)
    ensures forall k :: 0 <= k < |words| ==> IsWord(words[k])
    decreases |s|
  {
    if s == [] then
      (if cur == [] then [] else [cur])
    else if IsSpace(s[0]) then
      (if cur == [] then SplitFrom(s[1..], []) else [cur] + SplitFrom(s[1..], []))
    else
      SplitFrom(s[1..], cur + [s[0]])
  }

  function Split(s: string): (words: seq<string>)
    ensures forall k :: 0 <= k < |words| ==> IsWord(words[k])
  {
    SplitFrom(s, [])
  }

  /** Reading a whitespace-free stretch only extends the current word. */
  lemma {:induction false} SplitReadsWord(w: string, rest: string, cur: string)
    requires NoSpace(w) && NoSpace(cur)
    ensures SplitFrom(w + rest, cur) == SplitFrom(rest, cur + w)
    decreases |w|
  {
    if w == [] {
      assert w + rest == rest && cur + w == cur;
    } else {
      assert (w + rest)[0] == w[0] && (w + rest)[1..] == w[1..] + rest;
      assert cur + [w[0]] + w[1..] == cur + w;
      SplitReadsWord(w[1..], rest, cur + [w[0]]);
    }
  }

  /** "First Last" splits into exactly its two words. */
  lemma SplitTwoWords(first: string, last: string)
    requires IsWord(first) && IsWord(last)
    ensures Split(first + " " + last) == [first, last]
  {
    assert first + " " + last == first + (" " + last);
    SplitReadsWord(first, " " + last, []);
    assert [] + first == first;
    assert (" " + last)[1..] == last;
    SplitReadsWord(last, [], []);
    assert last + [] == last && [] + last == last;
  }

  /** Every entry of both name lists is a single word. */
  lemma NameListsAreWords()
    ensures forall i :: 0 <= i < |FIRST_NAMES| ==> IsWord(FIRST_NAMES[i])
    ensures forall i :: 0 <= i < |LAST_NAMES| ==> IsWord(LAST_NAMES[i])
  {
  }

  // ---------------------------------------------------------------- rows

  /** generate_provider_name: f'{first} {last}'. */
  function GenerateProviderName(first: FirstNameIndex, last: LastNameIndex): (name: string)
    ensures Split(name) == [FIRST_NAMES[first], LAST_NAMES[last]]
  {
    NameListsAreWords();
    SplitTwoWords(FIRST_NAMES[first], LAST_NAMES[last]);
    FIRST_NAMES[first] + " " + LAST_NAMES[last]
  }

  /** f'{first} {last}': the two words with one space between them. */
  predicate IsFullName(name: string, first: string, last: string)
  {
    name == first + " " + last
  }

  /**
   * What every generated row satisfies, stated over the row alone: a ten-digit
   * NPI, a listed specialty copied into its source value, the name of a seeded
   * care site, and a name "First Last" built from the two lists whose initial and
   * surname give the provider source value and whose initial and NPI give the
   * provider id source value.
   */
  predicate WellFormed(r: Row)
  {
    && IsNpi(r.npi)
    && r.specialty in SPECIALTIES
    && r.specialtySourceValue == r.specialty
    && r.careSite in CareSites.SiteNames()
    && var w := Split(r.providerName);
       && |w| == 2
       && IsFullName(r.providerName, w[0], w[1])
       && w[0] in FIRST_NAMES && w[1] in LAST_NAMES
       && r.providerSourceValue == [w[0][0]] + w[1]
       && r.providerIdSourceValue == [w[0][0], '-'] + r.npi
  }

  /**
   * generate_row: the derived columns are computed from the name through
   * provider_name.split(), as the generator does.
   */
  function GenerateRow(c: Choice): Row
  {
    var providerName := GenerateProviderName(c.first, c.last);
    var npi := GenerateNpi(c.digits);
    var specialty := SPECIALTIES[c.specialty];
    var careSite := CareSites.CARE_SITES[c.site].0;
    var words := Split(providerName);
    Row(providerName, npi, specialty, careSite,
        [words[0][0]] + words[1], specialty, [words[0][0], '-'] + npi)
  }

  /**
   * The columns of a generated row: "First Last" from the two lists, an NPI of
   * ten decimal digits carrying the drawn digits, the drawn specialty copied
   * into its source value, the drawn care site's name, the first initial
   * followed by the surname, and the first initial, '-' and the NPI.
   */
  lemma GenerateRowFields(c: Choice)
    ensures GenerateRow(c).providerName == FIRST_NAMES[c.first] + " " + LAST_NAMES[c.last]
    ensures IsNpi(GenerateRow(c).npi) && DigitsOf(GenerateRow(c).npi) == c.digits
    ensures GenerateRow(c).specialty == SPECIALTIES[c.specialty]
    ensures GenerateRow(c).specialtySourceValue == GenerateRow(c).specialty
    ensures GenerateRow(c).careSite == CareSites.CARE_SITES[c.site].0
    ensures GenerateRow(c).providerSourceValue == [FIRST_NAMES[c.first][0]] + LAST_NAMES[c.last]
    ensures GenerateRow(c).providerIdSourceValue == [FIRST_NAMES[c.first][0], '-'] + GenerateRow(c).npi
  {
    NpiDigitsRoundTrip(c.digits);
  }

  /** Every generated row is well formed. */
  lemma GenerateRowWellFormed(c: Choice)
    ensures WellFormed(GenerateRow(c))
  {
    GenerateRowFields(c);
    assert GenerateRow(c).careSite in CareSites.SiteNames();
  }

  /** The longest entry of each word list. */
  lemma WordListLengths()
    ensures forall n :: n in FIRST_NAMES ==> |n| <= 8
    ensures forall n :: n in LAST_NAMES ==> |n| <= 9
    ensures forall n :: n in SPECIALTIES ==> |n| <= 17
  {
    assert forall i :: 0 <= i < |FIRST_NAMES| ==> |FIRST_NAMES[i]| <= 8;
    assert forall i :: 0 <= i < |LAST_NAMES| ==> |LAST_NAMES[i]| <= 9;
    assert forall i :: 0 <= i < |SPECIALTIES| ==> |SPECIALTIES[i]| <= 17;
  }

  /**
   * Every column of a well-formed row fits the provider table's declaration:
   * provider_name VARCHAR(255), npi VARCHAR(10), specialty VARCHAR(100),
   * care_site VARCHAR(255), and the three source values VARCHAR(50).
   */
  lemma RowFitsColumns(r: Row)
    requires WellFormed(r)
    ensures |r.providerName| <= 18 <= 255
    ensures |r.npi| == 10
    ensures |r.specialty| <= 17 <= 100
    ensures |r.careSite| <= 24 <= 255
    ensures |r.providerSourceValue| <= 10 <= 50
    ensures |r.specialtySourceValue| <= 17 <= 50
    ensures |r.providerIdSourceValue| == 12 <= 50
  {
    WordListLengths();
    CareSites.CareSitesFitColumns();
  }

  /** The provider id source value carries the row's NPI after its two-character prefix. */
  lemma NpiFromProviderIdSourceValue(r: Row)
    requires WellFormed(r)
    ensures |r.providerIdSourceValue| == NPI_LENGTH + 2
    ensures r.providerIdSourceValue[2..] == r.npi
    ensures r.providerIdSourceValue[1] == '-'
  {
  }
}
