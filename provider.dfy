/** The random provider the generators draw from: faker, uuid, the wall
    clock and `Math.random`. Their corpora and formats are foreign code, so
    the provider is a stream of draws plus abstract corpora, and each method
    promises only the range or shape of what it returns. */
module RandomSource {
  import opened Values

  /** The exception `faker.number.int({min, max})` throws when `max < min`. */
  datatype Fault = FakerRange(min: int, max: int)

  /** The sex a faker name is drawn for; `Unspecified` is `undefined`. */
  datatype Sex = MaleSex | FemaleSex | Unspecified

  /** The free-text values the provider produces. */
  datatype TextKind =
    | City | State | StreetAddress | FullStreetAddress | ZipCode
    | Latitude | Longitude
    | Uuid | Username | CreditCard | Iban | CurrencyCode | DomainName | PhoneNumber | CountryCode
    | FullName(sex: Sex)
    | PastDay          // format(faker.date.past(), 'yyyy-MM-dd')
    | RecentDay        // faker.date.recent() as yyyy-MM-dd
    | NowIso           // new Date().toISOString()
    | NowLocalIso      // format(new Date(), "yyyy-MM-dd'T'HH:mm:ssXXX")
    | BirthDay(age: int) // subYears(new Date(), age) as yyyy-MM-dd
    | Birthdate(age: int) // faker.date.birthdate({ min: age, max: age, mode: 'age' })

  /** A name faker returns: never empty. */
  type Name = s: string | |s| > 0 witness "A"

  function UpperLetterOf(k: nat): (c: char)
    ensures IsUpper(c)
  {
    ('A' as int + k % 26) as char
  }

  function Letter(k: nat): (c: char)
    ensures IsLetter(c)
  {
    if k % 52 < 26 then UpperLetterOf(k % 52) else ('a' as int + k % 52 - 26) as char
  }

  function DigitOf(k: nat): (c: char)
    ensures IsDigit(c)
  {
    ('0' as int + k % 10) as char
  }

  function AlnumOf(k: nat): (c: char)
    ensures IsAlnum(c)
  {
    if k % 62 < 52 then Letter(k % 62) else DigitOf(k % 62 - 52)
  }

  /** faker's `string.*({ length })`: a length of zero or less gives ''. */
  function Width(n: int): nat {
    if n > 0 then n else 0
  }

  class Provider {
    /** The underlying stream of random draws. */
    const draw: nat -> nat
    /** The corpora behind each kind of text, indexed by a draw. */
    const text: (TextKind, nat) -> string
    const firstNames: (Sex, nat) -> Name
    const lastNames: nat -> Name
    /** The message of a fault. */
    const describe: Fault -> string
    /** How many draws have been used. */
    var pos: nat

    constructor (draw: nat -> nat, text: (TextKind, nat) -> string,
                 firstNames: (Sex, nat) -> Name, lastNames: nat -> Name, describe: Fault -> string)
      ensures this.draw == draw && this.text == text
      ensures this.firstNames == firstNames && this.lastNames == lastNames && this.describe == describe
      ensures pos == 0
    {
      this.draw := draw;
      this.text := text;
      this.firstNames := firstNames;
      this.lastNames := lastNames;
      this.describe := describe;
      pos := 0;
    }

    /** `faker.number.int({ min, max })`: an integer in [min, max]; it
        throws when the range is empty. */
    method Int(min: int, max: int) returns (r: Result<int, Fault>)
      modifies this
      ensures r.Ok? <==> min <= max
      ensures r.Ok? ==> min <= r.value <= max
      ensures r.Err? ==> r.error == FakerRange(min, max) && pos == old(pos)
    {
      if max < min {
        return Err(FakerRange(min, max));
      }
      r := Ok(min + draw(pos) % (max - min + 1));
      pos := pos + 1;
    }

    /** `faker.string.alpha(n)`. */
    method Alpha(n: int) returns (s: string)
      modifies this
      ensures |s| == Width(n) && AllLetters(s)
    {
      var p := pos;
      s := seq(Width(n), i requires 0 <= i < Width(n) => Letter(draw(p + i)));
      assert forall i :: 0 <= i < |s| ==> s[i] == Letter(draw(p + i));
      pos := pos + Width(n);
    }

    /** `faker.string.numeric(n)`. */
    method Numeric(n: int) returns (s: string)
      modifies this
      ensures |s| == Width(n) && AllDigits(s)
    {
      var p := pos;
      s := seq(Width(n), i requires 0 <= i < Width(n) => DigitOf(draw(p + i)));
      assert forall i :: 0 <= i < |s| ==> s[i] == DigitOf(draw(p + i));
      pos := pos + Width(n);
    }

    /** `faker.string.alphanumeric(n)`. */
    method Alphanumeric(n: int) returns (s: string)
      modifies this
      ensures |s| == Width(n) && AllAlnum(s)
    {
      var p := pos;
      s := seq(Width(n), i requires 0 <= i < Width(n) => AlnumOf(draw(p + i)));
      assert forall i :: 0 <= i < |s| ==> s[i] == AlnumOf(draw(p + i));
      pos := pos + Width(n);
    }

    /** `faker.string.numeric({ length: { min: lo, max: hi } })`. */
    method NumericBetween(lo: nat, hi: nat) returns (s: string)
      requires lo <= hi
      modifies this
      ensures lo <= |s| <= hi && AllDigits(s)
    {
      var n := lo + draw(pos) % (hi - lo + 1);
      pos := pos + 1;
      s := Numeric(n);
    }

    /** One upper-case letter (`alpha({ length: 1, casing: 'upper' })`). */
    method UpperLetter() returns (c: char)
      modifies this
      ensures IsUpper(c)
    {
      c := UpperLetterOf(draw(pos));
      pos := pos + 1;
    }

    /** One digit (`numeric(1)`). */
    method Digit() returns (c: char)
      modifies this
      ensures IsDigit(c)
    {
      c := DigitOf(draw(pos));
      pos := pos + 1;
    }

    /** `faker.datatype.boolean()`. */
    method Bool() returns (b: bool)
      modifies this
      ensures pos == old(pos) + 1
    {
      b := draw(pos) % 2 == 0;
      pos := pos + 1;
    }

    /** `Math.random() * 100`: a real in [0, 100). */
    method Percent() returns (p: real)
      modifies this
      ensures 0.0 <= p < 100.0
    {
      p := (draw(pos) % 10000) as real / 100.0;
      pos := pos + 1;
    }

    /** `Math.floor(Math.random() * len)`: an index into a non-empty list. */
    method Index(len: nat) returns (k: nat)
      requires len > 0
      modifies this
      ensures k < len
    {
      k := draw(pos) % len;
      pos := pos + 1;
    }

    /** `Math.floor(Date.now() / 1000)`: the clock in whole seconds. */
    method EpochSeconds() returns (t: int)
      modifies this
      ensures pos == old(pos) + 1
    {
      t := draw(pos);
      pos := pos + 1;
    }

    /** A text of the given kind from the corresponding corpus or clock. */
    method Text(k: TextKind) returns (s: string)
      modifies this
      ensures pos == old(pos) + 1 && s == text(k, draw(old(pos)))
    {
      s := text(k, draw(pos));
      pos := pos + 1;
    }

    /** `faker.person.firstName(sex)`. */
    method FirstName(sex: Sex) returns (s: Name)
      modifies this
      ensures pos == old(pos) + 1 && s == firstNames(sex, draw(old(pos)))
    {
      s := firstNames(sex, draw(pos));
      pos := pos + 1;
    }

    /** `faker.person.lastName()`. */
    method LastName() returns (s: Name)
      modifies this
      ensures pos == old(pos) + 1 && s == lastNames(draw(old(pos)))
    {
      s := lastNames(draw(pos));
      pos := pos + 1;
    }
  }
}
