/** The field-value generator shared by the desktop and the server
    generators: the two `DataGenerator` classes have the same fields and
    the same helper methods, and differ only in `generateRecords` and in
    how `ensureUnique` gives up (see the DesktopEngine and ServerEngine
    modules). */
module FieldGeneration {
  import opened Values
  import opened Schema
  import RandomSource

  type Fault = RandomSource.Fault

  /** An entry of the phone-rule table: the dial code and the range of
      national-number lengths. */
  datatype PhoneRule = PhoneRule(dialCode: string, minLength: int, maxLength: int)

  /** An entry of the country table. */
  datatype CountryInfo = CountryInfo(code: string, name: string)

  const DEFAULT_PATTERN := "XXX-####-XXX"

  // ---------------------------------------------------------------------
  // Specifications
  // ---------------------------------------------------------------------

  /** The name of the first country with `code`, or None. */
  function FindCountry(countries: seq<CountryInfo>, code: string): (r: Option<string>)
    ensures r.None? <==> forall i :: 0 <= i < |countries| ==> countries[i].code != code
    ensures r.Some? ==> exists i :: (0 <= i < |countries| && countries[i].code == code && countries[i].name == r.value
      && forall k :: 0 <= k < i ==> countries[k].code != code)
  {
    if |countries| == 0 then None
    else if countries[0].code == code then Some(countries[0].name)
    else
      var r := FindCountry(countries[1..], code);
      assert forall i :: 1 <= i < |countries| ==> countries[i] == countries[1..][i - 1];
      if r.Some? then
        var i :| 0 <= i < |countries[1..]| && countries[1..][i].code == code && countries[1..][i].name == r.value
          && forall k :: 0 <= k < i ==> countries[1..][k].code != code;
        assert countries[i + 1].code == code && countries[i + 1].name == r.value;
        assert forall k :: 0 <= k < i + 1 ==> countries[k].code != code;
        r
      else r
  }

  /** One call of `autoIncrement(key, start, step)` on the counter map
      `counters`: the value it returns and the map it leaves. */
  function CounterStep(counters: map<string, int>, key: string, start: int, step: int): (int, map<string, int>) {
    var current := if key in counters then counters[key] else start;
    (current, counters[key := current + step])
  }

  /** The counter map after `n` successive calls of
      `autoIncrement(key, start, step)`. */
  function CounterAfter(counters: map<string, int>, key: string, start: int, step: int, n: nat): map<string, int> {
    if n == 0 then counters else CounterStep(CounterAfter(counters, key, start, step, n - 1), key, start, step).1
  }

  /** The value the call after `j` earlier calls returns. */
  function Issued(counters: map<string, int>, key: string, start: int, step: int, j: nat): int {
    CounterStep(CounterAfter(counters, key, start, step, j), key, start, step).0
  }

  /** After n > 0 calls the stored value is the first value plus n steps,
      and no other key's counter has changed. */
  lemma {:induction false} CounterAfterArithmetic(counters: map<string, int>, key: string, start: int, step: int, n: nat)
    ensures var c := CounterAfter(counters, key, start, step, n);
      && (n > 0 ==> key in c && c[key] == (if key in counters then counters[key] else start) + n * step)
      && (forall k :: k != key ==> (k in c <==> k in counters) && (k in c ==> c[k] == counters[k]))
  {
    if n > 0 {
      CounterAfterArithmetic(counters, key, start, step, n - 1);
    }
  }

  /** Successive calls yield start, start + step, start + 2·step, … (or
      continue from the stored value). */
  lemma IssuedArithmetic(counters: map<string, int>, key: string, start: int, step: int, j: nat)
    ensures Issued(counters, key, start, step, j) == (if key in counters then counters[key] else start) + j * step
  {
    CounterAfterArithmetic(counters, key, start, step, j);
  }

  /** Calls for one key never disturb another key's sequence. */
  lemma CounterKeysIndependent(counters: map<string, int>, a: string, b: string, start: int, step: int)
    requires a != b
    ensures var (_, c) := CounterStep(counters, a, start, step);
      (b in c <==> b in counters) && (b in counters ==> c[b] == counters[b])
  {
  }

  datatype CharClass = Letters | Digits | Alnums

  predicate InClass(s: string, cls: CharClass) {
    match cls
    case Letters => AllLetters(s)
    case Digits => AllDigits(s)
    case Alnums => AllAlnum(s)
  }

  /** The character class `randomString` draws from for its two flags. */
  function ClassOf(numericOnly: bool, alphanumeric: bool): CharClass {
    if numericOnly then Digits else if alphanumeric then Alnums else Letters
  }

  /** `s` is `prefix`, then a base of a length the range [lo, hi] allows
      drawn from `cls`, then `suffix`. */
  predicate RandomStringShape(s: string, prefix: string, suffix: string, lo: int, hi: int, cls: CharClass) {
    && |prefix| + |suffix| <= |s|
    && s[..|prefix|] == prefix
    && s[|s| - |suffix|..] == suffix
    && RandomSource.Width(lo) <= |s| - |prefix| - |suffix| <= RandomSource.Width(hi)
    && InClass(s[|prefix|..|s| - |suffix|], cls)
  }

  /** `s` is what `pattern` becomes when each `X` is replaced by an
      upper-case letter and each `#` by a digit. */
  predicate FitsPattern(s: string, pattern: string) {
    && |s| == |pattern|
    && forall k :: 0 <= k < |pattern| ==>
      if pattern[k] == 'X' then IsUpper(s[k])
      else if pattern[k] == '#' then IsDigit(s[k])
      else s[k] == pattern[k]
  }

  /** The pattern letter a generated character stands for. */
  function MaskChar(c: char): char {
    if IsUpper(c) then 'X' else if IsDigit(c) then '#' else c
  }

  /** A pattern without literal upper-case letters or digits is recovered
      from any value generated from it. */
  lemma PatternRecoverable(s: string, pattern: string)
    requires FitsPattern(s, pattern)
    requires forall k :: 0 <= k < |pattern| ==> pattern[k] == 'X' || pattern[k] == '#' || !(IsUpper(pattern[k]) || IsDigit(pattern[k]))
    ensures seq(|s|, k requires 0 <= k < |s| => MaskChar(s[k])) == pattern
  {
  }

  /** The percentage `booleanWithPercentage` compares against. */
  function Clamp(p: int): (c: int)
    ensures 0 <= c <= 100
    ensures 0 <= p <= 100 ==> c == p
  {
    Min(100, Max(0, p))
  }

  /** The range of ages `generateAge` may return; an empty range is the
      one faker refuses. */
  function AgeLow(a: AgeConfig): int {
    match a
    case Between(min, _) => min
    case Under(_) => 1
    case Above(min) => min
    case Exact(v) => v
  }

  function AgeHigh(a: AgeConfig): int {
    match a
    case Between(_, max) => max
    case Under(max) => max
    case Above(min) => min + 50
    case Exact(v) => v
  }

  /** `s` is `+`, the dial code, a space and a national number of digits
      whose length lies in [lo, hi]. */
  predicate PhoneShape(s: string, dial: string, lo: int, hi: int) {
    && |s| >= |dial| + 2
    && s[..|dial| + 2] == "+" + dial + " "
    && AllDigits(s[|dial| + 2..])
    && lo <= |s| - |dial| - 2 <= hi
  }

  /** Whether a field type draws from a counter. */
  predicate IsCounterType(t: FieldType) {
    t in {StudentId, EmployeeId, AutoIncrement, AutoIncrementCustom}
  }

  /** The counter key, start and step a counter field type uses. */
  function CounterArgs(f: FieldConfig): (string, int, int)
    requires IsCounterType(f.fieldType)
  {
    match f.fieldType
    case StudentId => ("studentID", 1000, 1)
    case EmployeeId => ("employeeID", 5000, 1)
    case AutoIncrement => (f.name, OrElse(f.config.start, 1), 1)
    case AutoIncrementCustom => (f.name, OrElse(f.config.start, 1), OrElse(f.config.step, 1))
  }

  /** The set kept for `name`, empty when there is none yet. */
  function Tracked(trackers: map<string, set<string>>, name: string): set<string> {
    if name in trackers then trackers[name] else {}
  }

  /** Every tracker of `a` is kept, possibly grown, in `b`. */
  ghost predicate TrackersGrow(a: map<string, set<string>>, b: map<string, set<string>>) {
    forall n :: Tracked(a, n) <= Tracked(b, n)
  }

  lemma TrackersGrowTransitive(a: map<string, set<string>>, b: map<string, set<string>>, c: map<string, set<string>>)
    requires TrackersGrow(a, b) && TrackersGrow(b, c)
    ensures TrackersGrow(a, c)
  {
  }

  // ---------------------------------------------------------------------
  // The generator
  // ---------------------------------------------------------------------

  class DataGenerator {
    /** The values already handed out per unique field name. */
    var uniqueTrackers: map<string, set<string>>
    /** The next value per counter key. */
    var counters: map<string, int>
    const rng: RandomSource.Provider
    /** The phone-rule table, keyed by country code. */
    const phoneRules: map<string, PhoneRule>
    /** The country table. */
    const countries: seq<CountryInfo>
    /** The calling codes the phone-number library knows. */
    const callingCodes: map<string, string>

    constructor (rng: RandomSource.Provider, phoneRules: map<string, PhoneRule>,
                 countries: seq<CountryInfo>, callingCodes: map<string, string>)
      ensures uniqueTrackers == map[] && counters == map[]
      ensures this.rng == rng && this.phoneRules == phoneRules
      ensures this.countries == countries && this.callingCodes == callingCodes
    {
      uniqueTrackers := map[];
      counters := map[];
      this.rng := rng;
      this.phoneRules := phoneRules;
      this.countries := countries;
      this.callingCodes := callingCodes;
    }

    /** `autoIncrement`: the stored value for `key` (or `start`), storing
        that value plus `step`. */
    method AutoIncrement(key: string, start: int, step: int) returns (current: int)
      modifies this
      ensures (current, counters) == CounterStep(old(counters), key, start, step)
      ensures uniqueTrackers == old(uniqueTrackers)
    {
      current := if key in counters then counters[key] else start;
      counters := counters[key := current + step];
    }

    /** `randomString`: prefix, a base whose length is drawn from
        [lengthMin ?? 5, lengthMax ?? 12], and suffix. */
    method RandomString(opts: FieldOptions, numericOnly: bool, alphanumeric: bool) returns (r: Result<string, Fault>)
      modifies rng
      ensures var lo := OrElse(opts.lengthMin, 5); var hi := OrElse(opts.lengthMax, 12);
        && (r.Ok? <==> lo <= hi)
        && (r.Err? ==> r.error == RandomSource.FakerRange(lo, hi))
        && (r.Ok? ==> RandomStringShape(r.value, OrElse(opts.prefix, ""), OrElse(opts.suffix, ""), lo, hi,
                                        ClassOf(numericOnly, alphanumeric)))
    {
      var lo := OrElse(opts.lengthMin, 5);
      var hi := OrElse(opts.lengthMax, 12);
      var length := rng.Int(lo, hi);
      if length.Err? {
        return Err(length.error);
      }
      var base;
      if numericOnly {
        base := rng.Numeric(length.value);
      } else if alphanumeric {
        base := rng.Alphanumeric(length.value);
      } else {
        base := rng.Alpha(length.value);
      }
      var prefix := OrElse(opts.prefix, "");
      var suffix := OrElse(opts.suffix, "");
      var s := prefix + base + suffix;
      assert s[..|prefix|] == prefix;
      assert s[|s| - |suffix|..] == suffix;
      assert s[|prefix|..|s| - |suffix|] == base;
      r := Ok(s);
    }

    /** `patternValue`: every `X` of the pattern replaced by an upper-case
        letter, then every `#` by a digit. */
    method PatternValue(pattern: string) returns (s: string)
      modifies rng
      ensures FitsPattern(s, pattern)
    {
      var lettered := "";
      var i := 0;
      while i < |pattern|
        invariant 0 <= i <= |pattern| && |lettered| == i
        invariant forall k :: 0 <= k < i ==>
          if pattern[k] == 'X' then IsUpper(lettered[k]) else lettered[k] == pattern[k]
      {
        if pattern[i] == 'X' {
          var c := rng.UpperLetter();
          lettered := lettered + [c];
        } else {
          lettered := lettered + [pattern[i]];
        }
        i := i + 1;
      }
      s := "";
      i := 0;
      while i < |lettered|
        invariant 0 <= i <= |lettered| && |s| == i
        invariant forall k :: 0 <= k < i ==>
          if lettered[k] == '#' then IsDigit(s[k]) else s[k] == lettered[k]
      {
        if lettered[i] == '#' {
          var c := rng.Digit();
          s := s + [c];
        } else {
          s := s + [lettered[i]];
        }
        i := i + 1;
      }
    }

    /** `booleanWithPercentage(percentage = 50)`: a roll in [1, 100]
        against the percentage clamped to [0, 100]; 0 never and 100 always
        gives true. */
    method BooleanWithPercentage(percentage: Option<int>) returns (b: bool)
      modifies rng
      ensures Clamp(OrElse(percentage, 50)) == 0 ==> !b
      ensures Clamp(OrElse(percentage, 50)) == 100 ==> b
    {
      var clamped := Min(100, Max(0, OrElse(percentage, 50)));
      var roll := rng.Int(1, 100);
      b := roll.value <= clamped;
    }

    /** `getCountryCode`: the single country when one is set, a member of
        the list in `specific` mode, and otherwise a provider code. */
    method GetCountryCode(location: LocationConfig) returns (code: string)
      modifies rng
      ensures location.mode == SingleMode && Truthy(location.singleCountry) ==> code == location.singleCountry.value
      ensures location.mode == SpecificMode && location.countries.Some? && |location.countries.value| > 0 ==>
        code in location.countries.value
    {
      if location.mode == SingleMode && Truthy(location.singleCountry) {
        return location.singleCountry.value;
      }
      if location.mode == SpecificMode && location.countries.Some? && |location.countries.value| > 0 {
        var list := location.countries.value;
        var k := rng.Int(0, |list| - 1);
        return list[k.value];
      }
      code := rng.Text(RandomSource.CountryCode);
    }

    /** `getCountryName`: the name of the first country with this code, or
        the code itself. */
    function GetCountryName(code: string): (name: string)
      ensures (forall i :: 0 <= i < |countries| ==> countries[i].code != code) ==> name == code
      ensures forall i :: (0 <= i < |countries| && countries[i].code == code
        && (forall k :: 0 <= k < i ==> countries[k].code != code)) ==> name == countries[i].name
    {
      var r := FindCountry(countries, code);
      if r.Some? then
        var i :| 0 <= i < |countries| && countries[i].code == code && countries[i].name == r.value
          && forall k :: 0 <= k < i ==> countries[k].code != code;
        assert forall j :: (0 <= j < |countries| && countries[j].code == code
          && (forall k :: 0 <= k < j ==> countries[k].code != code)) ==> j == i;
        r.value
      else code
    }

    /** `generateAge`: an age in the configured range; faker refuses an
        empty range. */
    method GenerateAge(ageConfig: AgeConfig) returns (r: Result<int, Fault>)
      modifies rng
      ensures r.Ok? <==> AgeLow(ageConfig) <= AgeHigh(ageConfig)
      ensures r.Ok? ==> AgeLow(ageConfig) <= r.value <= AgeHigh(ageConfig)
      ensures r.Err? ==> r.error == RandomSource.FakerRange(AgeLow(ageConfig), AgeHigh(ageConfig))
      ensures ageConfig.Exact? ==> r == Ok(ageConfig.value)
    {
      match ageConfig
      case Between(min, max) => r := rng.Int(min, max);
      case Under(max) => r := rng.Int(1, max);
      case Above(min) => r := rng.Int(min, min + 50);
      case Exact(v) => r := Ok(v);
    }

    /** `generateDateOfBirth`: the birth day of an age `generateAge` draws. */
    method GenerateDateOfBirth(ageConfig: AgeConfig) returns (r: Result<string, Fault>)
      modifies rng
      ensures r.Ok? <==> AgeLow(ageConfig) <= AgeHigh(ageConfig)
      ensures r.Ok? ==> exists age, k :: (AgeLow(ageConfig) <= age <= AgeHigh(ageConfig)
        && r.value == rng.text(RandomSource.BirthDay(age), k))
    {
      var age := GenerateAge(ageConfig);
      if age.Err? {
        return Err(age.error);
      }
      var k := rng.draw(rng.pos);
      var s := rng.Text(RandomSource.BirthDay(age.value));
      r := Ok(s);
    }

    /** `generatePhone`: with a phone rule, its dial code and a national
        number of a length from the rule; else, for a code the phone
        library knows, its calling code and 8 to 10 digits; else a
        provider phone number. */
    method GeneratePhone(countryCode: string) returns (r: Result<string, Fault>)
      modifies rng
      ensures countryCode in phoneRules ==>
        var rule := phoneRules[countryCode];
        && (r.Ok? <==> rule.minLength <= rule.maxLength)
        && (r.Err? ==> r.error == RandomSource.FakerRange(rule.minLength, rule.maxLength))
        && (r.Ok? ==> PhoneShape(r.value, rule.dialCode, RandomSource.Width(rule.minLength), RandomSource.Width(rule.maxLength)))
      ensures countryCode !in phoneRules ==> r.Ok?
      ensures countryCode !in phoneRules && countryCode in callingCodes ==>
        PhoneShape(r.value, callingCodes[countryCode], 8, 10)
    {
      if countryCode in phoneRules {
        var rule := phoneRules[countryCode];
        var length := rng.Int(rule.minLength, rule.maxLength);
        if length.Err? {
          return Err(length.error);
        }
        var national := rng.Numeric(length.value);
        var s := "+" + rule.dialCode + " " + national;
        assert s[|rule.dialCode| + 2..] == national;
        return Ok(s);
      }
      if countryCode in callingCodes {
        var national := rng.NumericBetween(8, 10);
        var s := "+" + callingCodes[countryCode] + " " + national;
        assert s[|callingCodes[countryCode]| + 2..] == national;
        return Ok(s);
      }
      var s := rng.Text(RandomSource.PhoneNumber);
      r := Ok(s);
    }

    /** `generateEmail`: lower-cased first and last name, a number in
        [1, 9999] and a domain, as `first.last.number@domain`. */
    method GenerateEmail(gender: Gender) returns (s: string, ghost first: string, ghost last: string, ghost n: int, ghost domain: string)
      modifies rng
      ensures s == Lower(first) + "." + Lower(last) + "." + IntToDecimal(n) + "@" + domain
      ensures 1 <= n <= 9999 && |first| > 0 && |last| > 0
    {
      var f := rng.FirstName(SexOf(gender));
      var l := rng.LastName();
      var number := rng.Int(1, 9999);
      var d := rng.Text(RandomSource.DomainName);
      s := Lower(f) + "." + Lower(l) + "." + IntToDecimal(number.value) + "@" + d;
      first, last, n, domain := f, l, number.value, d;
    }

    /** The name types: a first name for the record's sex, a last name, or
        both joined by a space. */
    method NameValue(t: FieldType, gender: Gender) returns (v: Value)
      requires t == FirstName || t == LastName || t == FullName
      modifies rng
      ensures v.Str? && |v.s| > 0
      ensures t == FullName ==> ' ' in v.s
    {
      if t == FirstName {
        var f := rng.FirstName(SexOf(gender));
        v := Str(f);
      } else if t == LastName {
        var l := rng.LastName();
        v := Str(l);
      } else {
        var f := rng.FirstName(SexOf(gender));
        var l := rng.LastName();
        v := Str(f + " " + l);
        assert (f + " " + l)[|f|] == ' ';
      }
    }

    /** The counter types: `STU-` and `EMP-` identifiers on their fixed
        keys, and the field's own counter for the auto-increment types. */
    method CounterValue(field: FieldConfig) returns (v: Value)
      requires IsCounterType(field.fieldType)
      modifies this
      ensures uniqueTrackers == old(uniqueTrackers)
      ensures var (key, start, step) := CounterArgs(field);
        var (current, c) := CounterStep(old(counters), key, start, step);
        && counters == c
        && v == CounterText(field.fieldType, current)
    {
      var (key, start, step) := CounterArgs(field);
      var current := AutoIncrement(key, start, step);
      v := CounterText(field.fieldType, current);
    }

    /** The types whose value is one text of the provider, or, for latitude
        and longitude, one coordinate. */
    method ProviderValue(t: FieldType) returns (v: Value)
      requires IsProviderText(t)
      modifies rng
      ensures (t == Latitude || t == Longitude) ==> v.Coordinate?
      ensures !(t == Latitude || t == Longitude) ==> v.Str?
    {
      if t == Username {
        var _ := rng.FirstName(RandomSource.Unspecified);
        var _ := rng.LastName();
      }
      var c := rng.Text(TextKindOf(t));
      v := if t == Latitude || t == Longitude then Coordinate(c) else Str(c);
    }

    /** `generateFieldValue`: the value the field type calls for. Only the
        counter types touch the counters, and nothing touches the
        uniqueness trackers. The switch is taken in two halves: the person
        and place types, then the rest. */
    method GenerateFieldValue(field: FieldConfig, gender: Gender, location: LocationConfig, ageConfig: AgeConfig,
                              index: nat, countryCode: string) returns (r: Result<Value, Fault>)
      modifies this, rng
      ensures uniqueTrackers == old(uniqueTrackers)
      ensures !IsCounterType(field.fieldType) ==> counters == old(counters)
      ensures IsCounterType(field.fieldType) ==>
        var (key, start, step) := CounterArgs(field);
        var (current, c) := CounterStep(old(counters), key, start, step);
        counters == c && r == Ok(CounterText(field.fieldType, current))
      ensures FieldOutcome(field, gender, ageConfig, countryCode, r)
    {
      if IsPersonOrPlace(field.fieldType) {
        r := PersonOrPlaceValue(field, gender, ageConfig, countryCode);
      } else {
        r := OtherValue(field, index);
      }
    }

    /** The person and place cases of `generateFieldValue`. */
    method PersonOrPlaceValue(field: FieldConfig, gender: Gender, ageConfig: AgeConfig, countryCode: string)
      returns (r: Result<Value, Fault>)
      requires IsPersonOrPlace(field.fieldType)
      modifies this, rng
      ensures uniqueTrackers == old(uniqueTrackers) && counters == old(counters)
      ensures PersonOrPlaceOutcome(field.fieldType, gender, ageConfig, countryCode, r)
    {
      match field.fieldType {
        case FirstName =>
          var v := NameValue(field.fieldType, gender);
          r := Ok(v);
        case LastName =>
          var v := NameValue(field.fieldType, gender);
          r := Ok(v);
        case FullName =>
          var v := NameValue(field.fieldType, gender);
          r := Ok(v);
        case GenderField =>
          r := Ok(Str(GenderText(gender)));
        case Age =>
          var a := GenerateAge(ageConfig);
          r := if a.Ok? then Ok(Num(a.value)) else Err(a.error);
        case DateOfBirth =>
          var d := GenerateDateOfBirth(ageConfig);
          r := if d.Ok? then Ok(Str(d.value)) else Err(d.error);
        case Email =>
          var e, first, last, n, domain := GenerateEmail(gender);
          assert e[|Lower(first) + "." + Lower(last) + "." + IntToDecimal(n)|] == '@';
          r := Ok(Str(e));
        case Phone =>
          var p := GeneratePhone(countryCode);
          r := if p.Ok? then Ok(Str(p.value)) else Err(p.error);
        case MobilePhone =>
          var p := GeneratePhone(countryCode);
          r := if p.Ok? then Ok(Str(p.value)) else Err(p.error);
        case Landline =>
          var p := GeneratePhone(countryCode);
          r := if p.Ok? then Ok(Str(p.value)) else Err(p.error);
        case Country =>
          r := Ok(Str(GetCountryName(countryCode)));
        case City =>
          var v := ProviderValue(field.fieldType);
          r := Ok(v);
        case State =>
          var v := ProviderValue(field.fieldType);
          r := Ok(v);
        case Address =>
          var street := rng.Text(RandomSource.StreetAddress);
          var city := rng.Text(RandomSource.City);
          var state := rng.Text(RandomSource.State);
          var head := street + ", " + city + ", " + state;
          var tail := ", " + GetCountryName(countryCode);
          assert (head + tail)[|head + tail| - |tail|..] == tail;
          r := Ok(Str(head + tail));
        case StreetAddress =>
          var v := ProviderValue(field.fieldType);
          r := Ok(v);
        case PostalCode =>
          var v := ProviderValue(field.fieldType);
          r := Ok(v);
        case Latitude =>
          var v := ProviderValue(field.fieldType);
          r := Ok(v);
        case Longitude =>
          var v := ProviderValue(field.fieldType);
          r := Ok(v);
      }
    }

    /** The identifier, date, finance, random-text, counter, flag and
        pattern cases of `generateFieldValue`, and its default. */
    method OtherValue(field: FieldConfig, index: nat) returns (r: Result<Value, Fault>)
      requires !IsPersonOrPlace(field.fieldType)
      modifies this, rng
      ensures uniqueTrackers == old(uniqueTrackers)
      ensures !IsCounterType(field.fieldType) ==> counters == old(counters)
      ensures IsCounterType(field.fieldType) ==>
        var (key, start, step) := CounterArgs(field);
        var (current, c) := CounterStep(old(counters), key, start, step);
        counters == c && r == Ok(CounterText(field.fieldType, current))
      ensures OtherOutcome(field, r)
    {
      match field.fieldType {
        case StudentId =>
          var v := CounterValue(field);
          r := Ok(v);
        case EmployeeId =>
          var v := CounterValue(field);
          r := Ok(v);
        case Uuid =>
          var v := ProviderValue(field.fieldType);
          r := Ok(v);
        case Username =>
          var v := ProviderValue(field.fieldType);
          r := Ok(v);
        case CreatedAt =>
          var v := ProviderValue(field.fieldType);
          r := Ok(v);
        case UpdatedAt =>
          var v := ProviderValue(field.fieldType);
          r := Ok(v);
        case RegistrationDate =>
          var v := ProviderValue(field.fieldType);
          r := Ok(v);
        case CreditCard =>
          var v := ProviderValue(field.fieldType);
          r := Ok(v);
        case Iban =>
          var v := ProviderValue(field.fieldType);
          r := Ok(v);
        case Currency =>
          var v := ProviderValue(field.fieldType);
          r := Ok(v);
        case RandomString =>
          var s := RandomString(field.config, false, false);
          r := if s.Ok? then Ok(Str(s.value)) else Err(s.error);
        case RandomNumeric =>
          var s := RandomString(field.config, true, false);
          r := if s.Ok? then Ok(Str(s.value)) else Err(s.error);
        case RandomAlphanumeric =>
          var s := RandomString(field.config, false, true);
          r := if s.Ok? then Ok(Str(s.value)) else Err(s.error);
        case AutoIncrement =>
          var v := CounterValue(field);
          r := Ok(v);
        case AutoIncrementCustom =>
          var v := CounterValue(field);
          r := Ok(v);
        case UnixTimestamp =>
          var t := rng.EpochSeconds();
          r := Ok(Num(t + index));
        case IsoDate =>
          var v := ProviderValue(field.fieldType);
          r := Ok(v);
        case Boolean =>
          var b := BooleanWithPercentage(field.config.booleanTruePercentage);
          r := Ok(Bool(b));
        case CustomPattern =>
          var s := PatternValue(OrElse(field.config.pattern, DEFAULT_PATTERN));
          r := Ok(Str(s));
        case Unrecognised(_) =>
          r := Ok(Str(""));
      }
    }

    /** What `generateFieldValue` promises for each field type apart from
        the counters: which types can fail and why, and the shape of the
        value. */
    predicate FieldOutcome(field: FieldConfig, gender: Gender, ageConfig: AgeConfig, countryCode: string, r: Result<Value, Fault>)
      reads this
    {
      if IsPersonOrPlace(field.fieldType) then PersonOrPlaceOutcome(field.fieldType, gender, ageConfig, countryCode, r)
      else OtherOutcome(field, r)
    }

    predicate PersonOrPlaceOutcome(t: FieldType, gender: Gender, ageConfig: AgeConfig, countryCode: string, r: Result<Value, Fault>)
      requires IsPersonOrPlace(t)
    {
      match t
      case FirstName => r.Ok? && r.value.Str? && |r.value.s| > 0
      case LastName => r.Ok? && r.value.Str? && |r.value.s| > 0
      case FullName => r.Ok? && r.value.Str? && ' ' in r.value.s
      case GenderField => r == Ok(Str(GenderText(gender)))
      case Age =>
        && (r.Ok? <==> AgeLow(ageConfig) <= AgeHigh(ageConfig))
        && (r.Ok? ==> r.value.Num? && AgeLow(ageConfig) <= r.value.n <= AgeHigh(ageConfig))
      case DateOfBirth => (r.Ok? <==> AgeLow(ageConfig) <= AgeHigh(ageConfig)) && (r.Ok? ==> r.value.Str?)
      case Email => r.Ok? && r.value.Str? && '@' in r.value.s
      case Phone => PhoneOutcome(countryCode, r)
      case MobilePhone => PhoneOutcome(countryCode, r)
      case Landline => PhoneOutcome(countryCode, r)
      case Country => r == Ok(Str(GetCountryName(countryCode)))
      case Address =>
        var tail := ", " + GetCountryName(countryCode);
        r.Ok? && r.value.Str? && |tail| <= |r.value.s| && r.value.s[|r.value.s| - |tail|..] == tail
      case Latitude => r.Ok? && r.value.Coordinate?
      case Longitude => r.Ok? && r.value.Coordinate?
      case City => r.Ok? && r.value.Str?
      case State => r.Ok? && r.value.Str?
      case StreetAddress => r.Ok? && r.value.Str?
      case PostalCode => r.Ok? && r.value.Str?
    }

    predicate PhoneOutcome(countryCode: string, r: Result<Value, Fault>) {
      if countryCode in phoneRules then
        var rule := phoneRules[countryCode];
        && (r.Ok? <==> rule.minLength <= rule.maxLength)
        && (r.Ok? ==> r.value.Str? && PhoneShape(r.value.s, rule.dialCode, RandomSource.Width(rule.minLength), RandomSource.Width(rule.maxLength)))
      else
        && r.Ok? && r.value.Str?
        && (countryCode in callingCodes ==> PhoneShape(r.value.s, callingCodes[countryCode], 8, 10))
    }
  }

  /** The sex a faker first name is drawn for: male and female are passed
      on, the other genders give none. */
  function SexOf(g: Gender): RandomSource.Sex {
    match g
    case Male => RandomSource.MaleSex
    case Female => RandomSource.FemaleSex
    case _ => RandomSource.Unspecified
  }

  /** The value a counter type makes of the counter's current value. */
  function CounterText(t: FieldType, current: int): Value {
    match t
    case StudentId => Str("STU-" + IntToDecimal(current))
    case EmployeeId => Str("EMP-" + IntToDecimal(current))
    case _ => Num(current)
  }

  /** The types whose value comes straight from one provider text. */
  predicate IsProviderText(t: FieldType) {
    t in {City, State, StreetAddress, PostalCode, Latitude, Longitude, Uuid, Username,
          CreatedAt, UpdatedAt, RegistrationDate, CreditCard, Iban, Currency, IsoDate}
  }

  function TextKindOf(t: FieldType): RandomSource.TextKind
    requires IsProviderText(t)
  {
    match t
    case City => RandomSource.City
    case State => RandomSource.State
    case StreetAddress => RandomSource.StreetAddress
    case PostalCode => RandomSource.ZipCode
    case Latitude => RandomSource.Latitude
    case Longitude => RandomSource.Longitude
    case Uuid => RandomSource.Uuid
    case Username => RandomSource.Username
    case CreatedAt => RandomSource.NowIso
    case UpdatedAt => RandomSource.NowIso
    case RegistrationDate => RandomSource.PastDay
    case CreditCard => RandomSource.CreditCard
    case Iban => RandomSource.Iban
    case Currency => RandomSource.CurrencyCode
    case IsoDate => RandomSource.NowLocalIso
  }

  /** The person and place types: the first half of the switch. */
  predicate IsPersonOrPlace(t: FieldType) {
    t in {FirstName, LastName, FullName, GenderField, Age, DateOfBirth, Email, Phone, MobilePhone,
          Landline, Country, City, State, Address, StreetAddress, PostalCode, Latitude, Longitude}
  }

  /** What `generateFieldValue` promises for the other types. */
  predicate OtherOutcome(field: FieldConfig, r: Result<Value, Fault>) {
    var opts := field.config;
    match field.fieldType
    case RandomString => RandomOutcome(opts, Letters, r)
    case RandomNumeric => RandomOutcome(opts, Digits, r)
    case RandomAlphanumeric => RandomOutcome(opts, Alnums, r)
    case UnixTimestamp => r.Ok? && r.value.Num?
    case Boolean =>
      && r.Ok? && r.value.Bool?
      && (Clamp(OrElse(opts.booleanTruePercentage, 50)) == 0 ==> !r.value.b)
      && (Clamp(OrElse(opts.booleanTruePercentage, 50)) == 100 ==> r.value.b)
    case CustomPattern => r.Ok? && r.value.Str? && FitsPattern(r.value.s, OrElse(opts.pattern, DEFAULT_PATTERN))
    case Unrecognised(_) => r == Ok(Str(""))
    case _ => IsCounterType(field.fieldType) || (r.Ok? && r.value.Str?)
  }

  predicate RandomOutcome(opts: FieldOptions, cls: CharClass, r: Result<Value, Fault>) {
    var lo := OrElse(opts.lengthMin, 5);
    var hi := OrElse(opts.lengthMax, 12);
    && (r.Ok? <==> lo <= hi)
    && (r.Err? ==> r.error == RandomSource.FakerRange(lo, hi))
    && (r.Ok? ==> r.value.Str? && RandomStringShape(r.value.s, OrElse(opts.prefix, ""), OrElse(opts.suffix, ""), lo, hi, cls))
  }
}
