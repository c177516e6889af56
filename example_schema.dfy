/** The configuration, the values and the fixed tables of the example
    generator, and the pure rules it applies to them. */
module ExampleSchema {
  import opened Values
  import Schema

  datatype Gender = Male | Female | Other

  function GenderText(g: Gender): string {
    match g
    case Male => "male"
    case Female => "female"
    case Other => "other"
  }

  /** `s.charAt(0).toUpperCase() + s.slice(1)`. */
  function Capitalise(s: string): (r: string)
    ensures |r| == |s|
    ensures |s| > 0 ==> r[0] == UpperChar(s[0]) && r[1..] == s[1..]
  {
    if |s| == 0 then "" else [UpperChar(s[0])] + s[1..]
  }

  /** The gender field shows the gender with its first letter upper-cased;
      the three labels are distinct. */
  lemma GenderLabels()
    ensures Capitalise(GenderText(Male)) == "Male"
    ensures Capitalise(GenderText(Female)) == "Female"
    ensures Capitalise(GenderText(Other)) == "Other"
  {
    assert UpperChar('m') == 'M' && UpperChar('f') == 'F' && UpperChar('o') == 'O';
    assert [UpperChar('m')] + "ale" == "Male";
    assert [UpperChar('f')] + "emale" == "Female";
    assert [UpperChar('o')] + "ther" == "Other";
  }

  /** The gender for a roll `rand` in [0, 100): male below the male
      percentage, female below the sum of both, otherwise other. */
  function GenderOfRoll(rand: real, malePercentage: int, femalePercentage: int): (g: Gender)
    ensures g == Male <==> rand < malePercentage as real
    ensures g == Female <==> malePercentage as real <= rand < (malePercentage + femalePercentage) as real
  {
    if rand < malePercentage as real then Male
    else if rand < (malePercentage + femalePercentage) as real then Female
    else Other
  }

  /** Percentages that cover the whole range leave no room for `other`. */
  lemma NoOtherWhenCovered(rand: real, malePercentage: int, femalePercentage: int)
    requires 0.0 <= rand < 100.0 && malePercentage + femalePercentage >= 100
    ensures GenderOfRoll(rand, malePercentage, femalePercentage) != Other
  {
  }

  datatype AgeMode = Between | Under | Above | ExactAge

  datatype AgeConfig = AgeConfig(mode: AgeMode, min: Option<int>, max: Option<int>, exact: Option<int>)

  datatype LocationMode = RandomMode | SpecificMode | SingleMode

  datatype LocationConfig = LocationConfig(mode: LocationMode, countries: Option<seq<string>>, singleCountry: Option<string>)

  datatype Demographics = Demographics(malePercentage: int, femalePercentage: int, ageConfig: AgeConfig)

  /** The per-field settings the generator reads. */
  datatype CustomFieldConfig = CustomFieldConfig(
    length: Option<int>,
    minLength: Option<int>,
    maxLength: Option<int>,
    start: Option<int>,
    step: Option<int>,
    prefix: Option<string>,
    suffix: Option<string>,
    pattern: Option<string>)

  /** The field types are the shared tags; the tags this generator has no
      case for go to its default branch. */
  datatype FieldConfig = FieldConfig(name: string, fieldType: Schema.FieldType, unique: bool, config: Option<CustomFieldConfig>)

  datatype GenerationConfig = GenerationConfig(
    fields: seq<FieldConfig>,
    count: int,
    demographics: Demographics,
    location: LocationConfig)

  function FieldNames(fields: seq<FieldConfig>): (ns: seq<string>)
    ensures |ns| == |fields| && forall j :: 0 <= j < |fields| ==> ns[j] == fields[j].name
  {
    seq(|fields|, j requires 0 <= j < |fields| => fields[j].name)
  }

  /** The names of one more field: the previous names and the new one. */
  lemma FieldNamesSnoc(fields: seq<FieldConfig>, j: nat)
    requires j < |fields|
    ensures FieldNames(fields[..j + 1]) == FieldNames(fields[..j]) + [fields[j].name]
  {
    var a, b := FieldNames(fields[..j + 1]), FieldNames(fields[..j]) + [fields[j].name];
    forall k | 0 <= k < |a|
      ensures a[k] == b[k]
    {
    }
  }

  /** A value of a record: a string, an integer, a decimal number (kept as
      its text), a boolean, `null`, or a `Date` object (kept as its text). */
  datatype Any = Str(s: string) | Num(n: int) | Decimal(text: string) | Bool(b: bool) | Null | Date(text: string)

  /** The value inside a template string. */
  function AnyText(v: Any): string {
    match v
    case Str(s) => s
    case Num(n) => IntToDecimal(n)
    case Decimal(t) => t
    case Bool(b) => if b then "true" else "false"
    case Null => "null"
    case Date(t) => t
  }

  /** `set.has(v)`: primitives compare by value; a `Date` is a fresh object
      and is never found. */
  predicate Has(tracker: set<Any>, v: Any) {
    !v.Date? && v in tracker
  }

  // ---------------------------------------------------------------------
  // `||` defaults
  // ---------------------------------------------------------------------

  /** `n || d` for an optional number: absent and zero are falsy. */
  function OrNum(o: Option<int>, d: int): (r: int)
    ensures (o.Some? && o.value != 0) ==> r == o.value
    ensures (o.None? || o.value == 0) ==> r == d
  {
    if o.Some? && o.value != 0 then o.value else d
  }

  /** `s || d` for an optional string: absent and empty are falsy. */
  function OrText(o: Option<string>, d: string): (r: string)
    ensures Truthy(o) ==> r == o.value
    ensures !Truthy(o) ==> r == d
  {
    if Truthy(o) then o.value else d
  }

  /** `config?.start || 1` and `config?.step || 1`. */
  function StartOf(c: Option<CustomFieldConfig>): int {
    if c.Some? then OrNum(c.value.start, 1) else 1
  }

  function StepOf(c: Option<CustomFieldConfig>): int {
    if c.Some? then OrNum(c.value.step, 1) else 1
  }

  function PrefixOf(c: Option<CustomFieldConfig>): string {
    if c.Some? then OrText(c.value.prefix, "") else ""
  }

  function SuffixOf(c: Option<CustomFieldConfig>): string {
    if c.Some? then OrText(c.value.suffix, "") else ""
  }

  /** `config?.pattern`, when truthy. */
  function PatternOf(c: Option<CustomFieldConfig>): Option<string> {
    if c.Some? && Truthy(c.value.pattern) then c.value.pattern else None
  }

  // ---------------------------------------------------------------------
  // Auto-increment
  // ---------------------------------------------------------------------

  /** One `getAutoIncrement` call on the counters: a key seen for the first
      time stores and returns the start; a known key returns its stored
      value and stores that plus the step. Other keys are untouched. */
  function AutoStep(counters: map<string, int>, key: string, start: int, step: int): (r: (int, map<string, int>))
    ensures r.1.Keys == counters.Keys + {key}
    ensures forall k :: k in counters && k != key ==> r.1[k] == counters[k]
    ensures key !in counters ==> r.0 == start && r.1[key] == start
    ensures key in counters ==> r.0 == counters[key] && r.1[key] == r.0 + step
  {
    if key !in counters then (start, counters[key := start])
    else (counters[key], counters[key := counters[key] + step])
  }

  /** The value the `n`-th call (from 0) on `key` returns. */
  function Issued(counters: map<string, int>, key: string, start: int, step: int, n: nat): int
    decreases n
  {
    var (v, c) := AutoStep(counters, key, start, step);
    if n == 0 then v else Issued(c, key, start, step, n - 1)
  }

  /** From a fresh key the calls return the start twice and then go up by
      the step: start, start, start + step, start + 2 * step, ... */
  lemma {:induction false} IssuedFromFresh(counters: map<string, int>, key: string, start: int, step: int, n: nat)
    requires key !in counters
    ensures Issued(counters, key, start, step, n) == if n == 0 then start else start + (n - 1) * step
  {
    if n > 0 {
      var c := AutoStep(counters, key, start, step).1;
      IssuedFromKnown(c, key, start, step, n - 1);
    }
  }

  lemma {:induction false} IssuedFromKnown(counters: map<string, int>, key: string, start: int, step: int, n: nat)
    requires key in counters
    ensures Issued(counters, key, start, step, n) == counters[key] + n * step
  {
    if n > 0 {
      var c := AutoStep(counters, key, start, step).1;
      IssuedFromKnown(c, key, start, step, n - 1);
    }
  }

  // ---------------------------------------------------------------------
  // Countries
  // ---------------------------------------------------------------------

  /** `COUNTRIES`: code and name of each of the 25 countries. */
  const COUNTRIES: seq<(string, string)> := [
    ("US", "United States"), ("CA", "Canada"), ("GB", "United Kingdom"), ("AU", "Australia"),
    ("DE", "Germany"), ("FR", "France"), ("IT", "Italy"), ("ES", "Spain"), ("MX", "Mexico"),
    ("BR", "Brazil"), ("JP", "Japan"), ("IN", "India"), ("CN", "China"), ("KR", "South Korea"),
    ("NL", "Netherlands"), ("SE", "Sweden"), ("NO", "Norway"), ("FI", "Finland"), ("DK", "Denmark"),
    ("PL", "Poland"), ("ZA", "South Africa"), ("NZ", "New Zealand"), ("CH", "Switzerland"),
    ("AT", "Austria"), ("BE", "Belgium")]

  /** `Object.keys(COUNTRIES)`. */
  function CountryKeys(): (ks: seq<string>)
    ensures |ks| == |COUNTRIES| && forall k :: 0 <= k < |ks| ==> ks[k] == COUNTRIES[k].0
  {
    seq(|COUNTRIES|, k requires 0 <= k < |COUNTRIES| => COUNTRIES[k].0)
  }

  /** The text of the `country` field: the country's name when the code is
      in the table, else the code itself. */
  function CountryLabel(code: string): (r: string)
    ensures (exists k :: 0 <= k < |COUNTRIES| && COUNTRIES[k].0 == code) ==>
      exists k :: 0 <= k < |COUNTRIES| && COUNTRIES[k].0 == code && r == COUNTRIES[k].1
    ensures (forall k :: 0 <= k < |COUNTRIES| ==> COUNTRIES[k].0 != code) ==> r == code
  {
    OrElse(Assoc(COUNTRIES, code), code)
  }

  /** `getCountryCallingCode`'s table. */
  const CALLING_CODES: seq<(string, string)> := [
    ("US", "+1"), ("CA", "+1"), ("GB", "+44"), ("AU", "+61"), ("DE", "+49"),
    ("FR", "+33"), ("IT", "+39"), ("ES", "+34"), ("MX", "+52"), ("BR", "+55"),
    ("JP", "+81"), ("IN", "+91"), ("CN", "+86"), ("KR", "+82"), ("NL", "+31"),
    ("SE", "+46"), ("NO", "+47"), ("FI", "+358"), ("DK", "+45"), ("PL", "+48"),
    ("ZA", "+27"), ("NZ", "+64"), ("CH", "+41"), ("AT", "+43"), ("BE", "+32")]

  /** `getCountryCallingCode`: the table's code for a listed country and
      `+1` for any other. */
  function CountryCallingCode(code: string): (r: string)
    ensures (exists k :: 0 <= k < |CALLING_CODES| && CALLING_CODES[k].0 == code) ==>
      exists k :: 0 <= k < |CALLING_CODES| && CALLING_CODES[k].0 == code && r == CALLING_CODES[k].1
    ensures (forall k :: 0 <= k < |CALLING_CODES| ==> CALLING_CODES[k].0 != code) ==> r == "+1"
  {
    OrElse(Assoc(CALLING_CODES, code), "+1")
  }

  /** Every country the generator can pick has an entry of its own in the
      calling-code table, listed in the same order. */
  lemma CallingCodesCoverCountries()
    ensures |CALLING_CODES| == |COUNTRIES|
    ensures forall k :: 0 <= k < |COUNTRIES| ==> CALLING_CODES[k].0 == COUNTRIES[k].0
  {
  }

  /** Every calling code starts with `+` followed by digits. */
  lemma CallingCodesWellFormed()
    ensures forall k :: 0 <= k < |CALLING_CODES| ==>
      |CALLING_CODES[k].1| >= 2 && CALLING_CODES[k].1[0] == '+' && AllDigits(CALLING_CODES[k].1[1..])
  {
  }

  /** The European countries whose postal code is five digits. */
  const FIVE_DIGIT_POSTAL: seq<string> := ["DE", "FR", "IT", "ES"]

  // ---------------------------------------------------------------------
  // Ages
  // ---------------------------------------------------------------------

  /** The range `generateAge` draws from, or `None` for an exact age. */
  function AgeRange(config: AgeConfig): Option<(int, int)> {
    match config.mode
    case Between => Some((OrNum(config.min, 18), OrNum(config.max, 65)))
    case Under => Some((1, OrNum(config.max, 18) - 1))
    case Above => Some((OrNum(config.min, 65) + 1, 100))
    case ExactAge => None
  }
}
