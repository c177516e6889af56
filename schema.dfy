/** The generation configuration and the values a record holds, shared by
    the desktop and the server generators. */
module Schema {
  import opened Values

  datatype Gender = Male | Female | Other | NonBinary

  function GenderText(g: Gender): string {
    match g
    case Male => "male"
    case Female => "female"
    case Other => "other"
    case NonBinary => "non-binary"
  }

  const GENDER_OPTIONS: seq<Gender> := [Male, Female, Other, NonBinary]

  /** Whether a tag is one the named field types are written with. */
  predicate IsKnownTag(tag: string) {
    tag in {
    "firstName",
    "lastName",
    "fullName",
    "gender",
    "age",
    "dateOfBirth",
    "email",
    "phone",
    "mobilePhone",
    "landline",
    "country",
    "city",
    "state",
    "address",
    "streetAddress",
    "postalCode",
    "latitude",
    "longitude",
    "studentID",
    "employeeID",
    "uuid",
    "username",
    "createdAt",
    "updatedAt",
    "registrationDate",
    "creditCard",
    "iban",
    "currency",
    "randomString",
    "randomNumeric",
    "randomAlphanumeric",
    "autoIncrement",
    "autoIncrementCustom",
    "unixTimestamp",
    "isoDate",
    "boolean",
    "customPattern"
    }
  }

  /** A tag that none of the named field types is written with. */
  type UnknownTag = t: string | !IsKnownTag(t) witness ""

  /** The field types a field may be configured with; `Unrecognised` is any
      other tag, which the generators send to their default branch. */
  datatype FieldType =
    | FirstName | LastName | FullName | GenderField | Age | DateOfBirth | Email
    | Phone | MobilePhone | Landline | Country | City | State | Address
    | StreetAddress | PostalCode | Latitude | Longitude | StudentId | EmployeeId
    | Uuid | Username | CreatedAt | UpdatedAt | RegistrationDate | CreditCard
    | Iban | Currency | RandomString | RandomNumeric | RandomAlphanumeric
    | AutoIncrement | AutoIncrementCustom | UnixTimestamp | IsoDate | Boolean
    | CustomPattern
    | Unrecognised(tag: UnknownTag)

  /** The tag a field type is written with: a known tag exactly for the
      named types, so the tag tells the type's branch apart. */
  function FieldTypeText(t: FieldType): (r: string)
    ensures IsKnownTag(r) <==> !t.Unrecognised?
  {
    match t
    case FirstName => "firstName"
    case LastName => "lastName"
    case FullName => "fullName"
    case GenderField => "gender"
    case Age => "age"
    case DateOfBirth => "dateOfBirth"
    case Email => "email"
    case Phone => "phone"
    case MobilePhone => "mobilePhone"
    case Landline => "landline"
    case Country => "country"
    case City => "city"
    case State => "state"
    case Address => "address"
    case StreetAddress => "streetAddress"
    case PostalCode => "postalCode"
    case Latitude => "latitude"
    case Longitude => "longitude"
    case StudentId => "studentID"
    case EmployeeId => "employeeID"
    case Uuid => "uuid"
    case Username => "username"
    case CreatedAt => "createdAt"
    case UpdatedAt => "updatedAt"
    case RegistrationDate => "registrationDate"
    case CreditCard => "creditCard"
    case Iban => "iban"
    case Currency => "currency"
    case RandomString => "randomString"
    case RandomNumeric => "randomNumeric"
    case RandomAlphanumeric => "randomAlphanumeric"
    case AutoIncrement => "autoIncrement"
    case AutoIncrementCustom => "autoIncrementCustom"
    case UnixTimestamp => "unixTimestamp"
    case IsoDate => "isoDate"
    case Boolean => "boolean"
    case CustomPattern => "customPattern"
    case Unrecognised(tag) => tag
  }

  /** The optional per-field settings; an absent `config` object is the
      value with every setting `None`. */
  datatype FieldOptions = FieldOptions(
    lengthMin: Option<int>,
    lengthMax: Option<int>,
    prefix: Option<string>,
    suffix: Option<string>,
    start: Option<int>,
    step: Option<int>,
    pattern: Option<string>,
    booleanTruePercentage: Option<int>)

  datatype FieldConfig = FieldConfig(name: string, fieldType: FieldType, unique: bool, config: FieldOptions)

  datatype AgeConfig =
    | Between(min: int, max: int)
    | Under(max: int)
    | Above(min: int)
    | Exact(value: int)

  datatype LocationMode = RandomMode | SpecificMode | SingleMode

  datatype LocationConfig = LocationConfig(mode: LocationMode, countries: Option<seq<string>>, singleCountry: Option<string>)

  datatype Demographics = Demographics(malePercentage: int, femalePercentage: int, ageConfig: AgeConfig)

  /** A missing `fields` list is the empty list. */
  datatype GenerationConfig = GenerationConfig(
    fields: seq<FieldConfig>,
    count: int,
    demographics: Demographics,
    location: LocationConfig)

  function FieldNames(fields: seq<FieldConfig>): (ns: seq<string>)
    ensures |ns| == |fields| && forall j :: 0 <= j < |fields| ==> ns[j] == fields[j].name
  {
    seq(|fields|, j requires 0 <= j < |fields| => fields[j].name)
  }

  /** The names of one more field: the previous names and the new one. */
  lemma FieldNamesSnoc(fields: seq<FieldConfig>, j: nat)
    requires j < |fields|
    ensures FieldNames(fields[..j + 1]) == FieldNames(fields[..j]) + [fields[j].name]
  {
    var a, b := FieldNames(fields[..j + 1]), FieldNames(fields[..j]) + [fields[j].name];
    forall k | 0 <= k < |a|
      ensures a[k] == b[k]
    {
    }
  }

  /** A value a record holds. Latitude and longitude are kept as the text
      the provider produced them from. */
  datatype Value = Str(s: string) | Num(n: int) | Coordinate(text: string) | Bool(b: bool)

  /** `String(value)`. */
  function ValueText(v: Value): string {
    match v
    case Str(s) => s
    case Num(n) => IntToDecimal(n)
    case Coordinate(t) => t
    case Bool(b) => if b then "true" else "false"
  }

  // ---------------------------------------------------------------------
  // Gender assignment
  // ---------------------------------------------------------------------

  /** The deterministic roll for record `index`. */
  function Roll(index: nat): (r: nat)
    ensures r < 100
  {
    (index * 7) % 100
  }

  /** The gender of record `index`: the roll against the two percentages,
      then a rotation through the four options. With percentages summing to
      100 every record is male or female: male exactly when the roll is
      below the male percentage. */
  function DetermineGender(index: nat, malePercentage: int, femalePercentage: int): (g: Gender)
    ensures malePercentage + femalePercentage == 100 ==>
      (g == Male <==> Roll(index) < malePercentage) && (g == Female <==> Roll(index) >= malePercentage)
  {
    var total := malePercentage + femalePercentage;
    var roll := Roll(index);
    if roll < malePercentage then Male
    else if roll < total then Female
    else GENDER_OPTIONS[(index + 3) % |GENDER_OPTIONS|]
  }

  /** Rolls at or above the total fall back to the rotation, which repeats
      every four records. */
  lemma GenderFallback(index: nat, m: int, f: int)
    requires Roll(index) >= m && Roll(index) >= m + f
    ensures DetermineGender(index, m, f) == GENDER_OPTIONS[(index + 3) % 4]
    ensures DetermineGender(index, m, f) == DetermineGender(index + 4 * 100, m, f)
  {
    assert (index + 400) * 7 == index * 7 + 100 * 28;
    ModShift(index * 7, 28);
    assert Roll(index + 400) == Roll(index);
    assert (index + 400 + 3) % 4 == (index + 3) % 4;
  }

  /** The roll and so the gender repeat every 100 records. */
  lemma GenderPeriodic(index: nat, m: int, f: int)
    ensures Roll(index + 100) == Roll(index)
    ensures DetermineGender(index + 100, m, f) == DetermineGender(index, m, f)
  {
    assert (index + 100) * 7 == index * 7 + 700;
  }

  lemma ModShift(x: int, y: int)
    ensures (x + 100 * y) % 100 == x % 100
  {
  }

  /** 43 undoes the multiplication by 7 modulo 100, so the roll determines
      the index modulo 100. */
  lemma RollDeterminesResidue(index: nat)
    ensures (43 * Roll(index)) % 100 == index % 100
  {
    var q := (index * 7) / 100;
    var r := Roll(index);
    assert index * 7 == 100 * q + r;
    assert 43 * r == index + 100 * (3 * index - 43 * q);
    ModShift(index, 3 * index - 43 * q);
  }

  /** Any 100 consecutive records get 100 different rolls. */
  lemma RollsDistinctInBlock(i: nat, j: nat)
    requires i < j < i + 100
    ensures Roll(i) != Roll(j)
  {
    RollDeterminesResidue(i);
    RollDeterminesResidue(j);
  }

  /** The field types whose values are never made unique. */
  const DATE_TYPES: seq<FieldType> := [CreatedAt, UpdatedAt, RegistrationDate, UnixTimestamp, IsoDate]

  /** Whether the desktop and server generators route a field through the
      uniqueness tracker. */
  predicate UniquenessApplies(f: FieldConfig) {
    f.unique && f.fieldType != Boolean && f.fieldType !in DATE_TYPES
  }
}
