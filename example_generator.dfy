/** The example `DataGenerator`: a random gender roll and country per
    record, counters that return their start twice, and a uniqueness loop
    of up to 1000 regenerations with a suffix fallback. Every run starts by
    clearing its counters and trackers. */
module ExampleGenerator {
  import opened Values
  import opened ExampleSchema
  import Schema
  import RandomSource
  import FieldGeneration

  type Fault = RandomSource.Fault

  const MAX_ATTEMPTS := 1000
  const SUFFIX_LENGTH := 8

  function TrackedAny(trackers: map<string, set<Any>>, name: string): set<Any> {
    if name in trackers then trackers[name] else {}
  }

  ghost predicate TrackersGrow(a: map<string, set<Any>>, b: map<string, set<Any>>) {
    forall n :: TrackedAny(a, n) <= TrackedAny(b, n)
  }

  function SexOf(g: Gender): RandomSource.Sex {
    match g
    case Male => RandomSource.MaleSex
    case Female => RandomSource.FemaleSex
    case Other => RandomSource.Unspecified
  }

  /** What `getCountry` returns: the single country (`US` when none is
      set); a country of the list (`US` for a missing or empty list); or
      any country of the table. */
  predicate CountryOutcome(location: LocationConfig, c: string) {
    match location.mode
    case SingleMode => c == OrText(location.singleCountry, "US")
    case SpecificMode =>
      if location.countries.None? || |location.countries.value| == 0 then c == "US"
      else c in location.countries.value
    case RandomMode => c in CountryKeys()
  }

  /** `config?.length` is truthy. */
  predicate LengthSet(c: Option<CustomFieldConfig>) {
    c.Some? && c.value.length.Some? && c.value.length.value != 0
  }

  function MinLengthOf(c: Option<CustomFieldConfig>): int {
    if c.Some? then OrNum(c.value.minLength, 5) else 5
  }

  function MaxLengthOf(c: Option<CustomFieldConfig>): int {
    if c.Some? then OrNum(c.value.maxLength, 15) else 15
  }

  /** What `getRandomLength` returns: a set length as it is, otherwise a
      draw from [minLength || 5, maxLength || 15], which fails when that
      range is empty. */
  predicate LengthOutcome(c: Option<CustomFieldConfig>, r: Result<int, Fault>) {
    if LengthSet(c) then r == Ok(c.value.length.value)
    else
      && (r.Ok? <==> MinLengthOf(c) <= MaxLengthOf(c))
      && (r.Ok? ==> MinLengthOf(c) <= r.value <= MaxLengthOf(c))
      && (r.Err? ==> r.error == RandomSource.FakerRange(MinLengthOf(c), MaxLengthOf(c)))
  }

  /** The length of a random string made with a length `getRandomLength`
      gave (a negative length gives the empty string). */
  predicate LengthFits(c: Option<CustomFieldConfig>, len: nat) {
    if LengthSet(c) then len == RandomSource.Width(c.value.length.value)
    else
      && MinLengthOf(c) <= MaxLengthOf(c)
      && ((len == 0 && MinLengthOf(c) <= 0) || (len > 0 && MinLengthOf(c) <= len <= MaxLengthOf(c)))
  }

  /** The country formats of `generatePostalCode`: `A1A 1A1` for Canada,
      `AA1 1AA` with non-zero digits for Great Britain, five digits for
      Germany, France, Italy and Spain. */
  predicate PostalShape(country: string, s: string) {
    && (country == "CA" ==> FieldGeneration.FitsPattern(s, "X#X #X#"))
    && (country == "GB" ==> FieldGeneration.FitsPattern(s, "XX# #XX") && s[2] != '0' && s[4] != '0')
    && (country in FIVE_DIGIT_POSTAL ==> |s| == 5 && AllDigits(s))
  }

  /** `first.last.number@email.com` with lower-cased names and a number in
      [1, 99999]. */
  ghost predicate EmailShape(s: string) {
    exists first: RandomSource.Name, last: RandomSource.Name, n: int ::
      1 <= n <= 99999 && s == Lower(first) + "." + Lower(last) + "." + IntToDecimal(n) + "@email.com"
  }

  /** A lower-cased first name followed by a number in [1, 9999]. */
  ghost predicate UsernameShape(s: string) {
    exists first: RandomSource.Name, n: int :: 1 <= n <= 9999 && s == Lower(first) + IntToDecimal(n)
  }

  predicate IsPersonType(t: Schema.FieldType) {
    t in {Schema.FirstName, Schema.LastName, Schema.FullName, Schema.GenderField, Schema.Age,
          Schema.DateOfBirth, Schema.Email, Schema.Username}
  }

  predicate IsPlaceType(t: Schema.FieldType) {
    t in {Schema.Phone, Schema.MobilePhone, Schema.Country, Schema.City, Schema.State, Schema.Address,
          Schema.StreetAddress, Schema.PostalCode, Schema.Latitude, Schema.Longitude}
  }

  predicate IsCounterType(t: Schema.FieldType) {
    t in {Schema.StudentId, Schema.EmployeeId, Schema.AutoIncrement}
  }

  predicate IsRandomType(t: Schema.FieldType) {
    t in {Schema.RandomString, Schema.RandomNumeric, Schema.RandomAlphanumeric}
  }

  /** The types the generator has a case for; every other tag gives `null`. */
  predicate IsKnownType(t: Schema.FieldType) {
    || IsPersonType(t) || IsPlaceType(t) || IsCounterType(t) || IsRandomType(t)
    || t in {Schema.Uuid, Schema.CreatedAt, Schema.UpdatedAt, Schema.UnixTimestamp, Schema.IsoDate,
             Schema.Boolean, Schema.CustomPattern}
  }

  /** What the person types give: names (never empty), the capitalised
      gender, the record's age, a birth date, and the email and username
      shapes. */
  ghost predicate PersonOutcome(t: Schema.FieldType, gender: Gender, age: int, v: Any)
    requires IsPersonType(t)
  {
    match t
    case FirstName => v.Str? && |v.s| > 0
    case LastName => v.Str? && |v.s| > 0
    case FullName => v.Str?
    case GenderField => v == Str(Capitalise(GenderText(gender)))
    case Age => v == Num(age)
    case DateOfBirth => v.Date?
    case Email => v.Str? && EmailShape(v.s)
    case Username => v.Str? && UsernameShape(v.s)
  }

  /** What the place types give: the country's name (or its code), the
      country's postal format, and decimal coordinates. */
  predicate PlaceOutcome(t: Schema.FieldType, country: string, v: Any)
    requires IsPlaceType(t)
  {
    match t
    case Phone => v.Str?
    case MobilePhone => v.Str?
    case Country => v == Str(CountryLabel(country))
    case City => v.Str?
    case State => v.Str?
    case Address => v.Str?
    case StreetAddress => v.Str?
    case PostalCode => v.Str? && PostalShape(country, v.s)
    case Latitude => v.Decimal?
    case Longitude => v.Decimal?
  }

  /** What a counter type gives for the counter value `n`: the number
      itself for `autoIncrement`, or prefix, number and suffix. */
  function CounterText(field: FieldConfig, n: int): Any {
    if field.fieldType == Schema.AutoIncrement then Num(n)
    else Str(PrefixOf(field.config) + IntToDecimal(n) + SuffixOf(field.config))
  }

  /** A random string of the type's characters, of a length `getRandomLength`
      can give; it fails only on an empty length range. */
  predicate RandomOutcome(field: FieldConfig, r: Result<Any, Fault>)
    requires IsRandomType(field.fieldType)
  {
    var c := field.config;
    && (r.Ok? ==>
          && r.value.Str? && LengthFits(c, |r.value.s|)
          && (field.fieldType == Schema.RandomString ==> AllLetters(r.value.s))
          && (field.fieldType == Schema.RandomNumeric ==> AllDigits(r.value.s))
          && (field.fieldType == Schema.RandomAlphanumeric ==> AllAlnum(r.value.s)))
    && (r.Err? ==> !LengthSet(c) && MinLengthOf(c) > MaxLengthOf(c)
                   && r.error == RandomSource.FakerRange(MinLengthOf(c), MaxLengthOf(c)))
  }

  /** What the remaining types give: provider and clock texts, a clock
      number, a boolean, the pattern (empty without one), random strings,
      and `null` for a type without a case. */
  predicate OtherOutcome(field: FieldConfig, r: Result<Any, Fault>) {
    var t := field.fieldType;
    && (IsRandomType(t) ==> RandomOutcome(field, r))
    && (!IsRandomType(t) ==> r.Ok?)
    && (t in {Schema.Uuid, Schema.CreatedAt, Schema.UpdatedAt, Schema.IsoDate} ==> r.Ok? && r.value.Str?)
    && (t == Schema.UnixTimestamp ==> r.Ok? && r.value.Num?)
    && (t == Schema.Boolean ==> r.Ok? && r.value.Bool?)
    && (t == Schema.CustomPattern && PatternOf(field.config).None? ==> r == Ok(Str("")))
    && (t == Schema.CustomPattern && PatternOf(field.config).Some? ==>
          r.Ok? && r.value.Str? && FieldGeneration.FitsPattern(r.value.s, PatternOf(field.config).value))
    && (!IsKnownType(t) ==> r == Ok(Null))
  }

  /** The names of the fields of a type that counts. */
  function CounterNames(fields: seq<FieldConfig>): set<string> {
    set j | 0 <= j < |fields| && IsCounterType(fields[j].fieldType) :: fields[j].name
  }

  /** The names of the fields marked unique. */
  function UniqueNames(fields: seq<FieldConfig>): set<string> {
    set j | 0 <= j < |fields| && fields[j].unique :: fields[j].name
  }

  /** The values the unique fields named `n` took in one row (as far as
      the row goes). */
  ghost function RowValues(vs: seq<Any>, fields: seq<FieldConfig>, n: string): set<Any> {
    set j | 0 <= j < |vs| && j < |fields| && fields[j].unique && fields[j].name == n :: vs[j]
  }

  /** The values the unique fields named `n` took over the rows of a run. */
  ghost function RunValues(rows: seq<seq<Any>>, fields: seq<FieldConfig>, n: string): set<Any> {
    if |rows| == 0 then {}
    else RunValues(rows[..|rows| - 1], fields, n) + RowValues(rows[|rows| - 1], fields, n)
  }

  /** A row grows its unique values by the new one when that field is
      unique and named `n`. */
  lemma RowValuesSnoc(vs: seq<Any>, fields: seq<FieldConfig>, v: Any, n: string)
    requires |vs| < |fields|
    ensures RowValues(vs + [v], fields, n)
            == RowValues(vs, fields, n) + (if fields[|vs|].unique && fields[|vs|].name == n then {v} else {})
  {
    var a, b := RowValues(vs + [v], fields, n), RowValues(vs, fields, n);
    forall x | x in a
      ensures x in b || (fields[|vs|].unique && fields[|vs|].name == n && x == v)
    {
      var j :| 0 <= j < |vs| + 1 && j < |fields| && fields[j].unique && fields[j].name == n && (vs + [v])[j] == x;
      if j < |vs| {
        assert vs[j] == x;
      }
    }
    forall x | x in b ensures x in a {
      var j :| 0 <= j < |vs| && j < |fields| && fields[j].unique && fields[j].name == n && vs[j] == x;
      assert (vs + [v])[j] == x;
    }
    if fields[|vs|].unique && fields[|vs|].name == n {
      assert (vs + [v])[|vs|] == v;
    }
  }

  /** One field's step: `v` joins the set of `field`'s name when the field
      is unique; every other set is as it was. */
  ghost predicate TrackStep(before: map<string, set<Any>>, after: map<string, set<Any>>, field: FieldConfig, v: Any) {
    forall n :: TrackedAny(after, n) == TrackedAny(before, n) + (if field.unique && n == field.name then {v} else {})
  }

  /** One row's steps: the row's unique values join their fields' sets. */
  ghost predicate TrackRow(before: map<string, set<Any>>, after: map<string, set<Any>>, vs: seq<Any>, fields: seq<FieldConfig>) {
    forall n :: TrackedAny(after, n) == TrackedAny(before, n) + RowValues(vs, fields, n)
  }

  /** The sets hold exactly the unique values of the rows of this run. */
  ghost predicate TrackRun(now: map<string, set<Any>>, rows: seq<seq<Any>>, fields: seq<FieldConfig>) {
    forall n :: TrackedAny(now, n) == RunValues(rows, fields, n)
  }

  lemma TrackStepAdd(before: map<string, set<Any>>, field: FieldConfig, v: Any)
    requires field.unique
    ensures TrackStep(before, before[field.name := TrackedAny(before, field.name) + {v}], field, v)
  {
  }

  lemma TrackStepKeep(before: map<string, set<Any>>, field: FieldConfig, v: Any)
    requires !field.unique
    ensures TrackStep(before, before, field, v)
  {
  }

  lemma TrackRowSnoc(start: map<string, set<Any>>, mid: map<string, set<Any>>, now: map<string, set<Any>>,
                     vs: seq<Any>, fields: seq<FieldConfig>, v: Any)
    requires |vs| < |fields| && TrackRow(start, mid, vs, fields) && TrackStep(mid, now, fields[|vs|], v)
    ensures TrackRow(start, now, vs + [v], fields)
  {
    forall n ensures TrackedAny(now, n) == TrackedAny(start, n) + RowValues(vs + [v], fields, n) {
      RowValuesSnoc(vs, fields, v, n);
    }
  }

  lemma TrackRunSnoc(mid: map<string, set<Any>>, now: map<string, set<Any>>, rows: seq<seq<Any>>,
                     fields: seq<FieldConfig>, vs: seq<Any>)
    requires TrackRun(mid, rows, fields) && TrackRow(mid, now, vs, fields)
    ensures TrackRun(now, rows + [vs], fields)
  {
    assert (rows + [vs])[..|rows|] == rows;
  }

  function CounterKey(field: FieldConfig): set<string> {
    if IsCounterType(field.fieldType) then {field.name} else {}
  }

  /** Some eight-character suffix of `p` is already in the set. */
  ghost predicate SuffixTaken(p: string, before: set<Any>) {
    exists suffix: string :: |suffix| == SUFFIX_LENGTH && AllAlnum(suffix) && Has(before, Str(p + suffix))
  }

  /** What `ensureUnique` returns, given the field's set `before` and the
      values it looked at in order, `tried`: every try but the last was
      taken; within 1000 regenerations the last try is free and is the
      result; after exactly 1000 the result is the first value's text, an
      underscore and eight letters or digits when that is free, or else
      the first value's text, an underscore and a UUID. */
  ghost predicate UniqueOutcome(value: Any, before: set<Any>, tried: seq<Any>, result: Any) {
    && |tried| >= 1 && tried[0] == value
    && (forall k :: 0 <= k < |tried| - 1 ==> Has(before, tried[k]))
    && (|tried| <= MAX_ATTEMPTS ==> result == tried[|tried| - 1] && !Has(before, result))
    && (|tried| > MAX_ATTEMPTS ==>
          var p := AnyText(value) + "_";
          && |tried| == MAX_ATTEMPTS + 1
          && result.Str? && p <= result.s
          && ((|result.s| == |p| + SUFFIX_LENGTH && AllAlnum(result.s[|p|..]) && !Has(before, result))
              || SuffixTaken(p, before)))
  }

  class Generator {
    var uniqueTrackers: map<string, set<Any>>
    var autoIncrementCounters: map<string, int>
    var currentIndex: int
    const rng: RandomSource.Provider
    /** libphonenumber's parse and international format of a number for a
        country; `None` where the parse throws. */
    const parsePhone: (string, string) -> Option<string>

    constructor (rng: RandomSource.Provider, parsePhone: (string, string) -> Option<string>)
      ensures this.rng == rng && this.parsePhone == parsePhone
      ensures uniqueTrackers == map[] && autoIncrementCounters == map[] && currentIndex == 0
    {
      this.rng := rng;
      this.parsePhone := parsePhone;
      uniqueTrackers := map[];
      autoIncrementCounters := map[];
      currentIndex := 0;
    }

    /** `resetTrackers`: empties both maps and the index. */
    method ResetTrackers()
      modifies this
      ensures uniqueTrackers == map[] && autoIncrementCounters == map[] && currentIndex == 0
    {
      uniqueTrackers := map[];
      autoIncrementCounters := map[];
      currentIndex := 0;
    }

    /** `determineGender`: a roll in [0, 100) against the percentages. */
    method DetermineGender(d: Demographics) returns (g: Gender, ghost rand: real)
      modifies rng
      ensures 0.0 <= rand < 100.0 && g == GenderOfRoll(rand, d.malePercentage, d.femalePercentage)
    {
      var p := rng.Percent();
      rand := p;
      if p < d.malePercentage as real {
        g := Male;
      } else if p < (d.malePercentage + d.femalePercentage) as real {
        g := Female;
      } else {
        g := Other;
      }
    }

    /** `getCountry`. */
    method GetCountry(location: LocationConfig) returns (c: string)
      modifies rng
      ensures CountryOutcome(location, c)
    {
      match location.mode {
        case SingleMode =>
          c := OrText(location.singleCountry, "US");
        case SpecificMode =>
          if location.countries.None? || |location.countries.value| == 0 {
            c := "US";
          } else {
            var k := rng.Index(|location.countries.value|);
            c := location.countries.value[k];
          }
        case RandomMode =>
          var keys := CountryKeys();
          var k := rng.Index(|keys|);
          c := keys[k];
      }
    }

    /** `generateAge`: a draw from the mode's range, which fails when the
        range is empty, or the exact age (25 when unset or zero). */
    method GenerateAge(config: AgeConfig) returns (r: Result<int, Fault>)
      modifies rng
      ensures AgeRange(config).None? ==> r == Ok(OrNum(config.exact, 25))
      ensures AgeRange(config).Some? ==>
        var (lo, hi) := AgeRange(config).value;
        && (r.Ok? <==> lo <= hi)
        && (r.Ok? ==> lo <= r.value <= hi)
        && (r.Err? ==> r.error == RandomSource.FakerRange(lo, hi))
    {
      if config.mode == ExactAge {
        return Ok(OrNum(config.exact, 25));
      }
      var (lo, hi) := AgeRange(config).value;
      r := rng.Int(lo, hi);
    }

    /** `getRandomLength`. */
    method GetRandomLength(c: Option<CustomFieldConfig>) returns (r: Result<int, Fault>)
      modifies rng
      ensures LengthOutcome(c, r)
    {
      if LengthSet(c) {
        return Ok(c.value.length.value);
      }
      r := rng.Int(MinLengthOf(c), MaxLengthOf(c));
    }

    /** `getAutoIncrement`: one step of the field's counter; nothing else
        changes. */
    method GetAutoIncrement(fieldName: string, c: Option<CustomFieldConfig>) returns (n: int)
      modifies this
      ensures (n, autoIncrementCounters) == AutoStep(old(autoIncrementCounters), fieldName, StartOf(c), StepOf(c))
      ensures uniqueTrackers == old(uniqueTrackers) && currentIndex == old(currentIndex)
    {
      if fieldName !in autoIncrementCounters {
        var start := StartOf(c);
        autoIncrementCounters := autoIncrementCounters[fieldName := start];
        return start;
      }
      var current := autoIncrementCounters[fieldName];
      var step := StepOf(c);
      autoIncrementCounters := autoIncrementCounters[fieldName := current + step];
      n := current;
    }

    /** `faker.string.alpha(1).toUpperCase()`. */
    method UpperAlpha() returns (c: char)
      modifies rng
      ensures IsUpper(c)
    {
      var a := rng.Alpha(1);
      c := UpperChar(a[0]);
    }

    /** `generateFromPattern`: each `X` becomes an upper-case letter, each
        `#` a digit, and every other character stays. */
    method GenerateFromPattern(pattern: string) returns (s: string)
      modifies rng
      ensures FieldGeneration.FitsPattern(s, pattern)
    {
      s := "";
      var i := 0;
      while i < |pattern|
        invariant 0 <= i <= |pattern| && |s| == i
        invariant forall k :: 0 <= k < i ==>
          if pattern[k] == 'X' then IsUpper(s[k])
          else if pattern[k] == '#' then IsDigit(s[k])
          else s[k] == pattern[k]
      {
        var c := pattern[i];
        if c == 'X' {
          c := UpperAlpha();
        } else if c == '#' {
          var d := rng.Int(0, 9);
          c := DigitChar(d.value);
        }
        s := s + [c];
        i := i + 1;
      }
    }

    /** `generatePostalCode`. */
    method GeneratePostalCode(country: string) returns (s: string)
      modifies rng
      ensures PostalShape(country, s)
      ensures !(country == "CA" || country == "GB" || country in FIVE_DIGIT_POSTAL) ==>
        s == rng.text(RandomSource.ZipCode, rng.draw(old(rng.pos)))
    {
      if country == "CA" {
        var a := UpperAlpha();
        var d1 := rng.Int(0, 9);
        var b := UpperAlpha();
        var d2 := rng.Int(0, 9);
        var c := UpperAlpha();
        var d3 := rng.Int(0, 9);
        s := [a, DigitChar(d1.value), b, ' ', DigitChar(d2.value), c, DigitChar(d3.value)];
      } else if country == "GB" {
        var a := rng.Alpha(2);
        var d1 := rng.Int(1, 9);
        var d2 := rng.Int(1, 9);
        var b := rng.Alpha(2);
        UpperOfLetters(a);
        UpperOfLetters(b);
        NonZeroDigit(d1.value);
        NonZeroDigit(d2.value);
        s := Upper(a) + [DigitChar(d1.value), ' ', DigitChar(d2.value)] + Upper(b);
      } else if country in FIVE_DIGIT_POSTAL {
        s := rng.Numeric(5);
      } else {
        s := rng.Text(RandomSource.ZipCode);
      }
    }

    /** `generatePhone`: the number in international format when the parse
        succeeds, else the country's calling code, a space and the number. */
    method GeneratePhone(country: string, mobile: bool) returns (s: string, ghost phone: string)
      modifies rng
      ensures phone == rng.text(RandomSource.PhoneNumber, rng.draw(old(rng.pos)))
      ensures parsePhone(phone, country).Some? ==> s == parsePhone(phone, country).value
      ensures parsePhone(phone, country).None? ==> s == CountryCallingCode(country) + " " + phone
    {
      var p := rng.Text(RandomSource.PhoneNumber);
      phone := p;
      var parsed := parsePhone(p, country);
      if parsed.Some? {
        s := parsed.value;
      } else {
        s := CountryCallingCode(country) + " " + p;
      }
    }

    /** The person cases of `generateFieldValue`. */
    method PersonValue(t: Schema.FieldType, gender: Gender, age: int) returns (v: Any)
      requires IsPersonType(t)
      modifies rng
      ensures PersonOutcome(t, gender, age, v)
    {
      if t == Schema.FirstName {
        var f := rng.FirstName(SexOf(gender));
        v := Str(f);
      } else if t == Schema.LastName {
        var l := rng.LastName();
        v := Str(l);
      } else if t == Schema.FullName {
        var f := rng.Text(RandomSource.FullName(SexOf(gender)));
        v := Str(f);
      } else if t == Schema.GenderField {
        v := Str(Capitalise(GenderText(gender)));
      } else if t == Schema.Age {
        v := Num(age);
      } else if t == Schema.DateOfBirth {
        var d := rng.Text(RandomSource.Birthdate(age));
        v := Date(d);
      } else if t == Schema.Email {
        var f := rng.FirstName(RandomSource.Unspecified);
        var l := rng.LastName();
        var n := rng.Int(1, 99999);
        v := Str(Lower(f) + "." + Lower(l) + "." + IntToDecimal(n.value) + "@email.com");
      } else {
        var f := rng.FirstName(RandomSource.Unspecified);
        var n := rng.Int(1, 9999);
        v := Str(Lower(f) + IntToDecimal(n.value));
      }
    }

    /** The contact and location cases of `generateFieldValue`. */
    method PlaceValue(t: Schema.FieldType, country: string) returns (v: Any)
      requires IsPlaceType(t)
      modifies rng
      ensures PlaceOutcome(t, country, v)
    {
      if t == Schema.Phone || t == Schema.MobilePhone {
        var p, _ := GeneratePhone(country, t == Schema.MobilePhone);
        v := Str(p);
      } else if t == Schema.Country {
        v := Str(CountryLabel(country));
      } else if t == Schema.PostalCode {
        var p := GeneratePostalCode(country);
        v := Str(p);
      } else if t == Schema.Latitude || t == Schema.Longitude {
        var c := rng.Text(if t == Schema.Latitude then RandomSource.Latitude else RandomSource.Longitude);
        v := Decimal(c);
      } else {
        var kind := if t == Schema.City then RandomSource.City
                    else if t == Schema.State then RandomSource.State
                    else if t == Schema.Address then RandomSource.FullStreetAddress
                    else RandomSource.StreetAddress;
        var c := rng.Text(kind);
        v := Str(c);
      }
    }

    /** The counter cases of `generateFieldValue`: one step of the field's
        own counter. */
    method CounterValue(field: FieldConfig) returns (v: Any)
      requires IsCounterType(field.fieldType)
      modifies this
      ensures var (n, c) := AutoStep(old(autoIncrementCounters), field.name, StartOf(field.config), StepOf(field.config));
        autoIncrementCounters == c && v == CounterText(field, n)
      ensures uniqueTrackers == old(uniqueTrackers) && currentIndex == old(currentIndex)
    {
      var n := GetAutoIncrement(field.name, field.config);
      v := CounterText(field, n);
    }

    /** The remaining cases of `generateFieldValue`. */
    method OtherValue(field: FieldConfig) returns (r: Result<Any, Fault>)
      requires !IsPersonType(field.fieldType) && !IsPlaceType(field.fieldType) && !IsCounterType(field.fieldType)
      modifies rng
      ensures OtherOutcome(field, r)
    {
      var t := field.fieldType;
      if IsRandomType(t) {
        r := RandomValue(field);
      } else if t == Schema.Uuid {
        var u := rng.Text(RandomSource.Uuid);
        r := Ok(Str(u));
      } else if t == Schema.CreatedAt || t == Schema.UpdatedAt {
        var now := rng.Text(RandomSource.NowIso);
        r := Ok(Str(now));
      } else if t == Schema.UnixTimestamp {
        var now := rng.EpochSeconds();
        r := Ok(Num(now));
      } else if t == Schema.IsoDate {
        var d := rng.Text(RandomSource.RecentDay);
        r := Ok(Str(d));
      } else if t == Schema.Boolean {
        var b := rng.Bool();
        r := Ok(Bool(b));
      } else if t == Schema.CustomPattern {
        var pattern := PatternOf(field.config);
        if pattern.None? {
          r := Ok(Str(""));
        } else {
          var p := GenerateFromPattern(pattern.value);
          r := Ok(Str(p));
        }
      } else {
        r := Ok(Null);
      }
    }

    /** `randomString`, `randomNumeric` and `randomAlphanumeric`. */
    method RandomValue(field: FieldConfig) returns (r: Result<Any, Fault>)
      requires IsRandomType(field.fieldType)
      modifies rng
      ensures RandomOutcome(field, r)
    {
      var length := GetRandomLength(field.config);
      if length.Err? {
        return Err(length.error);
      }
      var s;
      if field.fieldType == Schema.RandomString {
        s := rng.Alpha(length.value);
      } else if field.fieldType == Schema.RandomNumeric {
        s := rng.Numeric(length.value);
      } else {
        s := rng.Alphanumeric(length.value);
      }
      r := Ok(Str(s));
    }

    /** `generateFieldValue`: only the counter types touch the counters, and
        only under the field's own name; nothing touches the trackers. The
        switch is taken in four groups. */
    method GenerateFieldValue(field: FieldConfig, gender: Gender, country: string, age: int)
      returns (r: Result<Any, Fault>)
      modifies this, rng
      ensures uniqueTrackers == old(uniqueTrackers) && currentIndex == old(currentIndex)
      ensures !IsCounterType(field.fieldType) ==> autoIncrementCounters == old(autoIncrementCounters)
      ensures IsCounterType(field.fieldType) ==>
        var (n, c) := AutoStep(old(autoIncrementCounters), field.name, StartOf(field.config), StepOf(field.config));
        autoIncrementCounters == c && r == Ok(CounterText(field, n))
      ensures IsPersonType(field.fieldType) ==> r.Ok? && PersonOutcome(field.fieldType, gender, age, r.value)
      ensures IsPlaceType(field.fieldType) ==> r.Ok? && PlaceOutcome(field.fieldType, country, r.value)
      ensures !IsPersonType(field.fieldType) && !IsPlaceType(field.fieldType) && !IsCounterType(field.fieldType) ==>
        OtherOutcome(field, r)
    {
      var t := field.fieldType;
      if IsPersonType(t) {
        var v := PersonValue(t, gender, age);
        r := Ok(v);
      } else if IsPlaceType(t) {
        var v := PlaceValue(t, country);
        r := Ok(v);
      } else if IsCounterType(t) {
        var v := CounterValue(field);
        r := Ok(v);
      } else {
        r := OtherValue(field);
      }
    }

    /** `ensureUnique`: the result is added to the field's set; a provider
        fault while regenerating leaves the set as it was (created empty when
        the field had none). */
    method EnsureUnique(value: Any, field: FieldConfig, gender: Gender, country: string, age: int)
      returns (r: Result<Any, Fault>, ghost tried: seq<Any>)
      modifies this, rng
      ensures var before := TrackedAny(old(uniqueTrackers), field.name);
        && (r.Ok? ==> UniqueOutcome(value, before, tried, r.value)
                      && uniqueTrackers == old(uniqueTrackers)[field.name := before + {r.value}])
        && (r.Err? ==> uniqueTrackers == old(uniqueTrackers)[field.name := before])
      ensures currentIndex == old(currentIndex)
      ensures autoIncrementCounters.Keys <= old(autoIncrementCounters).Keys + CounterKey(field)
    {
      var name := field.name;
      if name !in uniqueTrackers {
        uniqueTrackers := uniqueTrackers[name := {}];
      }
      var tracker := uniqueTrackers[name];
      var uniqueValue, attempts;
      var fault;
      fault, uniqueValue, attempts, tried := Regenerate(value, tracker, field, gender, country, age);
      if fault.Some? {
        return Err(fault.value), tried;
      }
      if attempts >= MAX_ATTEMPTS {
        var p := AnyText(value) + "_";
        var suffix := rng.Alphanumeric(SUFFIX_LENGTH);
        uniqueValue := Str(p + suffix);
        assert uniqueValue.s[|p|..] == suffix;
        if Has(tracker, uniqueValue) {
          var id := rng.Text(RandomSource.Uuid);
          uniqueValue := Str(p + id);
        }
      }
      uniqueTrackers := uniqueTrackers[name := tracker + {uniqueValue}];
      r := Ok(uniqueValue);
    }

    /** The regeneration loop of `ensureUnique`: draws a new value while the
        current one is taken and fewer than `MAX_ATTEMPTS` draws were made;
        a fault of the value generator stops it. */
    method Regenerate(value: Any, tracker: set<Any>, field: FieldConfig, gender: Gender, country: string, age: int)
      returns (fault: Option<Fault>, uniqueValue: Any, attempts: nat, ghost tried: seq<Any>)
      modifies this, rng
      ensures uniqueTrackers == old(uniqueTrackers) && currentIndex == old(currentIndex)
      ensures autoIncrementCounters.Keys <= old(autoIncrementCounters).Keys + CounterKey(field)
      ensures attempts <= MAX_ATTEMPTS && |tried| == attempts + 1 && tried[0] == value
      ensures forall k :: 0 <= k < |tried| - 1 ==> Has(tracker, tried[k])
      ensures fault.None? ==> uniqueValue == tried[attempts] && (attempts < MAX_ATTEMPTS ==> !Has(tracker, uniqueValue))
    {
      attempts := 0;
      uniqueValue := value;
      tried := [value];
      while Has(tracker, uniqueValue) && attempts < MAX_ATTEMPTS
        invariant 0 <= attempts <= MAX_ATTEMPTS && |tried| == attempts + 1
        invariant tried[0] == value && tried[attempts] == uniqueValue
        invariant forall k :: 0 <= k < attempts ==> Has(tracker, tried[k])
        invariant uniqueTrackers == old(uniqueTrackers) && currentIndex == old(currentIndex)
        invariant autoIncrementCounters.Keys <= old(autoIncrementCounters).Keys + CounterKey(field)
      {
        var v := GenerateFieldValue(field, gender, country, age);
        if v.Err? {
          return Some(v.error), uniqueValue, attempts, tried;
        }
        uniqueValue := v.value;
        attempts := attempts + 1;
        tried := tried + [uniqueValue];
      }
      fault := None;
    }

    /** One field of a record: `generateFieldValue`, then `ensureUnique`
        when the field is marked unique. */
    method FieldValue(field: FieldConfig, draw: Draw) returns (r: Result<Any, Fault>)
      modifies this, rng
      ensures TrackersGrow(old(uniqueTrackers), uniqueTrackers)
      ensures uniqueTrackers.Keys <= old(uniqueTrackers).Keys + (if field.unique then {field.name} else {})
      ensures autoIncrementCounters.Keys <= old(autoIncrementCounters).Keys + CounterKey(field)
      ensures currentIndex == old(currentIndex)
      ensures r.Ok? ==> FieldFact(r.value, field, draw, uniqueTrackers)
      ensures r.Ok? ==> TrackStep(old(uniqueTrackers), uniqueTrackers, field, r.value)
    {
      var v := GenerateFieldValue(field, draw.gender, draw.country, draw.age);
      if v.Err? {
        return Err(v.error);
      }
      if IsCounterType(field.fieldType) {
        var (n, _) := AutoStep(old(autoIncrementCounters), field.name, StartOf(field.config), StepOf(field.config));
        assert v.value == CounterText(field, n);
      }
      if !field.unique {
        TrackStepKeep(uniqueTrackers, field, v.value);
        return Ok(v.value);
      }
      ghost var before := uniqueTrackers;
      var u, _ := EnsureUnique(v.value, field, draw.gender, draw.country, draw.age);
      if u.Ok? {
        TrackStepAdd(before, field, u.value);
      }
      r := u;
    }

    /** The record of one index: its fields in order, each value assigned
        to the field's name. */
    method BuildRecord(fields: seq<FieldConfig>, draw: Draw) returns (r: Result<Obj<Any>, Fault>, ghost vs: seq<Any>)
      modifies this, rng
      ensures TrackersGrow(old(uniqueTrackers), uniqueTrackers)
      ensures uniqueTrackers.Keys <= old(uniqueTrackers).Keys + UniqueNames(fields)
      ensures autoIncrementCounters.Keys <= old(autoIncrementCounters).Keys + CounterNames(fields)
      ensures currentIndex == old(currentIndex)
      ensures r.Ok? ==> |vs| == |fields| && r.value == FromPairs(FieldNames(fields), vs)
                        && ValuesFacts(vs, fields, draw, uniqueTrackers)
      ensures r.Ok? ==> TrackRow(old(uniqueTrackers), uniqueTrackers, vs, fields)
    {
      var record: Obj<Any> := EmptyObj();
      ghost var start := uniqueTrackers;
      ghost var startKeys := autoIncrementCounters.Keys;
      vs := [];
      var j := 0;
      while j < |fields|
        invariant 0 <= j <= |fields| && |vs| == j
        invariant record == FromPairs(FieldNames(fields[..j]), vs)
        invariant TrackersGrow(start, uniqueTrackers)
        invariant uniqueTrackers.Keys <= start.Keys + UniqueNames(fields)
        invariant autoIncrementCounters.Keys <= startKeys + CounterNames(fields)
        invariant currentIndex == old(currentIndex)
        invariant ValuesFacts(vs, fields[..j], draw, uniqueTrackers)
        invariant TrackRow(start, uniqueTrackers, vs, fields)
      {
        var field := fields[j];
        ghost var mid := uniqueTrackers;
        var v := FieldValue(field, draw);
        if v.Err? {
          return Err(v.error), vs;
        }
        record := ObjSet(record, field.name, v.value);
        FactsExtend(vs, fields, j, v.value, draw, mid, uniqueTrackers);
        FieldNamesSnoc(fields, j);
        FromPairsSnoc(FieldNames(fields[..j]), vs, field.name, v.value);
        TrackRowSnoc(start, mid, uniqueTrackers, vs, fields, v.value);
        vs := vs + [v.value];
        j := j + 1;
      }
      assert fields[..j] == fields;
      r := Ok(record);
    }

    /** `generateRecords`: clears the counters and trackers, then builds one
        record per index below the count (none for a count below one) from
        that index's gender roll, country and age; an empty age range or a
        provider fault ends the run. */
    method GenerateRecords(config: GenerationConfig)
      returns (r: Result<seq<Obj<Any>>, Fault>, ghost draws: seq<Draw>, ghost rows: seq<seq<Any>>)
      modifies this, rng
      ensures uniqueTrackers.Keys <= UniqueNames(config.fields)
      ensures autoIncrementCounters.Keys <= CounterNames(config.fields)
      ensures config.count > 0 && !AgeFeasible(config.demographics.ageConfig) ==> r.Err?
      ensures r.Ok? ==> |r.value| == Max(config.count, 0)
                        && currentIndex == (if config.count > 0 then config.count - 1 else 0)
      ensures r.Ok? ==> RecordsFacts(r.value, rows, draws, config, uniqueTrackers)
      ensures r.Ok? ==> TrackRun(uniqueTrackers, rows, config.fields)
    {
      ResetTrackers();
      var records: seq<Obj<Any>> := [];
      draws := [];
      rows := [];
      var i := 0;
      while i < config.count
        invariant 0 <= i && |records| == i
        invariant i <= Max(config.count, 0)
        invariant currentIndex == (if i > 0 then i - 1 else 0)
        invariant i > 0 ==> AgeFeasible(config.demographics.ageConfig)
        invariant uniqueTrackers.Keys <= UniqueNames(config.fields)
        invariant autoIncrementCounters.Keys <= CounterNames(config.fields)
        invariant RecordsFacts(records, rows, draws, config, uniqueTrackers)
        invariant TrackRun(uniqueTrackers, rows, config.fields)
      {
        currentIndex := i;
        var gender, _ := DetermineGender(config.demographics);
        var country := GetCountry(config.location);
        var age := GenerateAge(config.demographics.ageConfig);
        if age.Err? {
          return Err(age.error), draws, rows;
        }
        var draw := Draw(gender, country, age.value);
        ghost var mid := uniqueTrackers;
        var rec, vs := BuildRecord(config.fields, draw);
        if rec.Err? {
          return Err(rec.error), draws, rows;
        }
        RecordsExtend(records, rows, draws, config, vs, draw, mid, uniqueTrackers);
        TrackRunSnoc(mid, uniqueTrackers, rows, config.fields, vs);
        records := records + [rec.value];
        rows := rows + [vs];
        draws := draws + [draw];
        i := i + 1;
      }
      r := Ok(records);
    }
  }

  lemma UpperOfLetters(s: string)
    requires AllLetters(s)
    ensures forall i :: 0 <= i < |s| ==> IsUpper(Upper(s)[i])
  {
  }

  lemma NonZeroDigit(d: int)
    requires 1 <= d <= 9
    ensures DigitChar(d) != '0'
  {
  }

  // ---------------------------------------------------------------------
  // What the records of a run promise
  // ---------------------------------------------------------------------

  /** The per-record draws: the gender, country code and age every field of
      the record is generated from. */
  datatype Draw = Draw(gender: Gender, country: string, age: int)

  /** `generateAge` succeeds: the mode has no range, or a non-empty one. */
  predicate AgeFeasible(config: AgeConfig) {
    AgeRange(config).None? || AgeRange(config).value.0 <= AgeRange(config).value.1
  }

  /** What `generateAge` may return: the exact age (25 when unset or zero),
      or an age within the mode's range. */
  predicate AgeOutcome(config: AgeConfig, age: int) {
    match AgeRange(config)
    case None => age == OrNum(config.exact, 25)
    case Some((lo, hi)) => lo <= age <= hi
  }

  /** A draw a record can be built from: its gender comes from some roll in
      [0, 100), its country from `getCountry` and its age from
      `generateAge`. */
  ghost predicate DrawFact(config: GenerationConfig, draw: Draw) {
    && (exists rand: real :: 0.0 <= rand < 100.0 && draw.gender == GenderOfRoll(rand, config.demographics.malePercentage,
                                                                                config.demographics.femalePercentage))
    && CountryOutcome(config.location, draw.country)
    && AgeOutcome(config.demographics.ageConfig, draw.age)
  }

  /** The fact about the value `v` of one field: a unique field's value is
      in its set; otherwise a person field follows the record's gender and
      age, a contact or location field its country, and a counter field is
      one of the counter's texts. */
  ghost predicate FieldFact(v: Any, f: FieldConfig, draw: Draw, after: map<string, set<Any>>) {
    && (f.unique ==> v in TrackedAny(after, f.name))
    && (!f.unique && IsPersonType(f.fieldType) ==> PersonOutcome(f.fieldType, draw.gender, draw.age, v))
    && (!f.unique && IsPlaceType(f.fieldType) ==> PlaceOutcome(f.fieldType, draw.country, v))
    && (!f.unique && IsCounterType(f.fieldType) ==> exists n :: v == CounterText(f, n))
  }

  ghost predicate ValuesFacts(vs: seq<Any>, fields: seq<FieldConfig>, draw: Draw, after: map<string, set<Any>>)
    requires |vs| == |fields|
  {
    forall j :: 0 <= j < |fields| ==> FieldFact(vs[j], fields[j], draw, after)
  }

  lemma FactWeaken(v: Any, f: FieldConfig, draw: Draw, mid: map<string, set<Any>>, after: map<string, set<Any>>)
    requires TrackersGrow(mid, after)
    requires FieldFact(v, f, draw, mid)
    ensures FieldFact(v, f, draw, after)
  {
    assert TrackedAny(mid, f.name) <= TrackedAny(after, f.name);
  }

  lemma FactsExtend(vs: seq<Any>, fields: seq<FieldConfig>, j: nat, value: Any, draw: Draw,
                    mid: map<string, set<Any>>, after: map<string, set<Any>>)
    requires j < |fields| && |vs| == j
    requires TrackersGrow(mid, after)
    requires ValuesFacts(vs, fields[..j], draw, mid)
    requires FieldFact(value, fields[j], draw, after)
    ensures ValuesFacts(vs + [value], fields[..j + 1], draw, after)
  {
    var vs' := vs + [value];
    var fs := fields[..j + 1];
    forall k | 0 <= k < j + 1 ensures FieldFact(vs'[k], fs[k], draw, after) {
      if k < j {
        assert fs[k] == fields[..j][k] && vs'[k] == vs[k];
        FactWeaken(vs[k], fs[k], draw, mid, after);
      }
    }
  }

  /** Record `k` assigns the values `rows[k]` to the field names in order,
      drawn from `draws[k]`, and every value keeps its field's fact. */
  ghost predicate RecordsFacts(records: seq<Obj<Any>>, rows: seq<seq<Any>>, draws: seq<Draw>, config: GenerationConfig,
                               now: map<string, set<Any>>) {
    && RowsAssigned(records, rows, config.fields)
    && DrawsFacts(draws, config)
    && RowsFacts(rows, draws, config.fields, now)
  }

  ghost predicate RowsAssigned(records: seq<Obj<Any>>, rows: seq<seq<Any>>, fields: seq<FieldConfig>) {
    && |rows| == |records|
    && forall k :: 0 <= k < |records| ==> |rows[k]| == |fields| && records[k] == FromPairs(FieldNames(fields), rows[k])
  }

  ghost predicate DrawsFacts(draws: seq<Draw>, config: GenerationConfig) {
    forall k :: 0 <= k < |draws| ==> DrawFact(config, draws[k])
  }

  ghost predicate RowsFacts(rows: seq<seq<Any>>, draws: seq<Draw>, fields: seq<FieldConfig>, now: map<string, set<Any>>) {
    && |draws| == |rows|
    && forall k :: 0 <= k < |rows| ==> RowFact(rows[k], fields, draws[k], now)
  }

  ghost predicate RowFact(vs: seq<Any>, fields: seq<FieldConfig>, draw: Draw, now: map<string, set<Any>>) {
    |vs| == |fields| && ValuesFacts(vs, fields, draw, now)
  }

  lemma RowWeaken(vs: seq<Any>, fields: seq<FieldConfig>, draw: Draw, mid: map<string, set<Any>>, now: map<string, set<Any>>)
    requires TrackersGrow(mid, now)
    requires RowFact(vs, fields, draw, mid)
    ensures RowFact(vs, fields, draw, now)
  {
    forall j | 0 <= j < |fields| ensures FieldFact(vs[j], fields[j], draw, now) {
      FactWeaken(vs[j], fields[j], draw, mid, now);
    }
  }

  lemma RecordsExtend(records: seq<Obj<Any>>, rows: seq<seq<Any>>, draws: seq<Draw>, config: GenerationConfig,
                      vs: seq<Any>, draw: Draw, mid: map<string, set<Any>>, now: map<string, set<Any>>)
    requires RecordsFacts(records, rows, draws, config, mid)
    requires TrackersGrow(mid, now)
    requires DrawFact(config, draw)
    requires |vs| == |config.fields| && ValuesFacts(vs, config.fields, draw, now)
    ensures RecordsFacts(records + [FromPairs(FieldNames(config.fields), vs)], rows + [vs], draws + [draw], config, now)
  {
    RowsAssignedExtend(records, rows, config.fields, vs);
    DrawsExtend(draws, config, draw);
    RowsExtend(rows, draws, config.fields, vs, draw, mid, now);
  }

  lemma RowsAssignedExtend(records: seq<Obj<Any>>, rows: seq<seq<Any>>, fields: seq<FieldConfig>, vs: seq<Any>)
    requires RowsAssigned(records, rows, fields) && |vs| == |fields|
    ensures RowsAssigned(records + [FromPairs(FieldNames(fields), vs)], rows + [vs], fields)
  {
  }

  lemma DrawsExtend(draws: seq<Draw>, config: GenerationConfig, draw: Draw)
    requires DrawsFacts(draws, config) && DrawFact(config, draw)
    ensures DrawsFacts(draws + [draw], config)
  {
    forall k | 0 <= k < |draws| + 1 ensures DrawFact(config, (draws + [draw])[k]) {
      if k < |draws| {
        assert (draws + [draw])[k] == draws[k];
      }
    }
  }

  lemma RowsExtend(rows: seq<seq<Any>>, draws: seq<Draw>, fields: seq<FieldConfig>, vs: seq<Any>, draw: Draw,
                   mid: map<string, set<Any>>, now: map<string, set<Any>>)
    requires RowsFacts(rows, draws, fields, mid) && TrackersGrow(mid, now)
    requires |vs| == |fields| && ValuesFacts(vs, fields, draw, now)
    ensures RowsFacts(rows + [vs], draws + [draw], fields, now)
  {
    var rows', draws' := rows + [vs], draws + [draw];
    forall k | 0 <= k < |rows'| ensures RowFact(rows'[k], fields, draws'[k], now) {
      if k < |rows| {
        assert rows'[k] == rows[k] && draws'[k] == draws[k];
        RowWeaken(rows[k], fields, draws[k], mid, now);
      }
    }
  }
}
