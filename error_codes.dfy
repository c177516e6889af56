/** The application's error catalogue (src/lib/errors/ErrorCodes.ts): the
    ERROR_CODES table, its lookup, the error constructor with its fallback
    for unknown codes, and the user-facing display of an error. */
module ErrorCodes {
  import opened Values

  /** `ErrorCategory`; each category's string value is the middle segment of its codes. */
  datatype ErrorCategory = Generation | Export | Validation | System | Network | Database

  function CategoryText(c: ErrorCategory): string {
    match c
    case Generation => "GEN"
    case Export => "EXP"
    case Validation => "VAL"
    case System => "SYS"
    case Network => "NET"
    case Database => "DB"
  }

  datatype ErrorSeverity = Low | Medium | High | Critical

  datatype LogLevel = Info | Warn | Error | Fatal

  /** One entry of ERROR_CODES: its code, category, severity and log level.
      The entry's three texts are kept apart, as a `Wording`. */
  datatype ErrorCode = ErrorCode(
    code: string,
    category: ErrorCategory,
    severity: ErrorSeverity,
    logLevel: LogLevel)

  /** The message, user message and resolution written for an entry. */
  datatype Wording = Wording(message: string, userMessage: string, resolution: string)

  /** A value of the `context` record attached to an error. */
  datatype ContextValue = CInt(n: int) | CText(s: string) | CCause(causeMessage: string)

  /** A `DummyForgeError` (its timestamp and stack trace are not modelled). */
  datatype DummyForgeError = DummyForgeError(
    code: string,
    category: ErrorCategory,
    severity: ErrorSeverity,
    message: string,
    userMessage: string,
    resolution: string,
    logLevel: LogLevel,
    technicalDetails: Option<string>,
    context: Option<map<string, ContextValue>>)

  /** What `toUserDisplay` returns. */
  datatype UserDisplay = UserDisplay(title: string, message: string, resolution: string, code: string)

  /** The Generation entries, in the order they are written. */
  const GENERATION_ERRORS: seq<(string, ErrorCode)> := [
      ("DF-GEN-001", ErrorCode("DF-GEN-001", Generation, Medium, Warn)),
      ("DF-GEN-002", ErrorCode("DF-GEN-002", Generation, High, Error)),
      ("DF-GEN-003", ErrorCode("DF-GEN-003", Generation, High, Warn)),
      ("DF-GEN-004", ErrorCode("DF-GEN-004", Generation, High, Warn)),
      ("DF-GEN-005", ErrorCode("DF-GEN-005", Generation, Critical, Fatal)),
      ("DF-GEN-006", ErrorCode("DF-GEN-006", Generation, Medium, Warn)),
      ("DF-GEN-007", ErrorCode("DF-GEN-007", Generation, Medium, Warn))
    ]

  /** The Export entries, in the order they are written. */
  const EXPORT_ERRORS: seq<(string, ErrorCode)> := [
      ("DF-EXP-001", ErrorCode("DF-EXP-001", Export, High, Error)),
      ("DF-EXP-002", ErrorCode("DF-EXP-002", Export, High, Error)),
      ("DF-EXP-003", ErrorCode("DF-EXP-003", Export, High, Error)),
      ("DF-EXP-004", ErrorCode("DF-EXP-004", Export, High, Error)),
      ("DF-EXP-005", ErrorCode("DF-EXP-005", Export, High, Warn)),
      ("DF-EXP-006", ErrorCode("DF-EXP-006", Export, Medium, Warn)),
      ("DF-EXP-007", ErrorCode("DF-EXP-007", Export, High, Warn)),
      ("DF-EXP-008", ErrorCode("DF-EXP-008", Export, Medium, Warn))
    ]

  /** The Validation entries, in the order they are written. */
  const VALIDATION_ERRORS: seq<(string, ErrorCode)> := [
      ("DF-VAL-001", ErrorCode("DF-VAL-001", Validation, Medium, Warn)),
      ("DF-VAL-002", ErrorCode("DF-VAL-002", Validation, Medium, Warn)),
      ("DF-VAL-003", ErrorCode("DF-VAL-003", Validation, Medium, Warn)),
      ("DF-VAL-004", ErrorCode("DF-VAL-004", Validation, Medium, Warn)),
      ("DF-VAL-005", ErrorCode("DF-VAL-005", Validation, Medium, Warn))
    ]

  /** The System entries, in the order they are written. */
  const SYSTEM_ERRORS: seq<(string, ErrorCode)> := [
      ("DF-SYS-001", ErrorCode("DF-SYS-001", System, High, Error)),
      ("DF-SYS-002", ErrorCode("DF-SYS-002", System, High, Error)),
      ("DF-SYS-003", ErrorCode("DF-SYS-003", System, Critical, Fatal)),
      ("DF-SYS-004", ErrorCode("DF-SYS-004", System, High, Warn)),
      ("DF-SYS-005", ErrorCode("DF-SYS-005", System, Critical, Fatal)),
      ("DF-SYS-006", ErrorCode("DF-SYS-006", System, Medium, Warn))
    ]

  /** The Database entries, in the order they are written. */
  const DATABASE_ERRORS: seq<(string, ErrorCode)> := [
      ("DF-DB-001", ErrorCode("DF-DB-001", Database, High, Error)),
      ("DF-DB-002", ErrorCode("DF-DB-002", Database, High, Error))
    ]

  /** The Network entries, in the order they are written. */
  const NETWORK_ERRORS: seq<(string, ErrorCode)> := [
      ("DF-NET-001", ErrorCode("DF-NET-001", Network, Medium, Warn))
    ]

  /** `ERROR_CODES`: the catalogue object's entries, key and value, in the
      order they are written, one group per category. */
  const ERROR_CODES: seq<(string, ErrorCode)> :=
    GENERATION_ERRORS + EXPORT_ERRORS + VALIDATION_ERRORS + SYSTEM_ERRORS + DATABASE_ERRORS + NETWORK_ERRORS

  /** The keys of the catalogue. */
  function CatalogueKeys(): (ks: seq<string>)
    ensures |ks| == |ERROR_CODES| && forall i :: 0 <= i < |ks| ==> ks[i] == ERROR_CODES[i].0
  {
    seq(|ERROR_CODES|, i requires 0 <= i < |ERROR_CODES| => ERROR_CODES[i].0)
  }

  /** `code` is a key of the catalogue. */
  predicate Catalogued(code: string) {
    code in CatalogueKeys()
  }

  /** `code` reads `DF-`, then `seg`, then a dash: `seg` is its middle segment. */
  predicate HasSegment(code: string, seg: string) {
    && 3 + |seg| < |code|
    && code[0] == 'D' && code[1] == 'F' && code[2] == '-'
    && (forall k :: 0 <= k < |seg| ==> code[3 + k] == seg[k])
    && code[3 + |seg|] == '-'
  }

  /** A middle segment is the text between the `DF-` prefix and the next dash. */
  lemma HasSegmentMeans(code: string, seg: string)
    requires HasSegment(code, seg)
    ensures code[..3] == "DF-" && code[3..3 + |seg|] == seg && code[3 + |seg|] == '-'
  {
    assert code[3..3 + |seg|] == seg by {
      forall k | 0 <= k < |seg| ensures code[3..3 + |seg|][k] == seg[k] { assert code[3 + k] == seg[k]; }
    }
  }

  /** No key of `t` is listed twice. */
  ghost predicate KeysDistinct(t: seq<(string, ErrorCode)>) {
    forall i, j :: 0 <= i < j < |t| ==> t[i].0 != t[j].0
  }

  /** Every entry of `t` is stored under its own code and the middle
      segment of that code is the string value of the entry's category. */
  ghost predicate EntriesWellFormed(t: seq<(string, ErrorCode)>) {
    forall i :: 0 <= i < |t| ==>
      t[i].1.code == t[i].0 && HasSegment(t[i].0, CategoryText(t[i].1.category))
  }

  /** Every entry of `t` has category `c`. */
  ghost predicate AllOfCategory(t: seq<(string, ErrorCode)>, c: ErrorCategory) {
    forall i :: 0 <= i < |t| ==> t[i].1.category == c
  }

  /** A code has one middle segment per category at most: two categories
      whose texts are both the segment of one code are the same category. */
  lemma SegmentDeterminesCategory(code: string, a: ErrorCategory, b: ErrorCategory)
    requires HasSegment(code, CategoryText(a)) && HasSegment(code, CategoryText(b))
    ensures a == b
  {
    var sa, sb := CategoryText(a), CategoryText(b);
    HasSegmentMeans(code, sa);
    HasSegmentMeans(code, sb);
  }

  /** Appending a group whose entries all have a category the table does
      not use keeps the keys distinct: the segments keep them apart. */
  lemma AppendGroup(t: seq<(string, ErrorCode)>, g: seq<(string, ErrorCode)>, c: ErrorCategory)
    requires EntriesWellFormed(t) && KeysDistinct(t)
    requires EntriesWellFormed(g) && KeysDistinct(g) && AllOfCategory(g, c)
    requires forall i :: 0 <= i < |t| ==> t[i].1.category != c
    ensures EntriesWellFormed(t + g) && KeysDistinct(t + g)
  {
    var u := t + g;
    forall i, j | 0 <= i < j < |u| ensures u[i].0 != u[j].0 {
      if i < |t| && |t| <= j && u[i].0 == u[j].0 {
        SegmentDeterminesCategory(u[i].0, t[i].1.category, c);
      }
    }
  }

  // The facts about each group, proved group by group so that each proof
  // looks at a handful of entries only.

  lemma GenerationEntries()
    ensures EntriesWellFormed(GENERATION_ERRORS)
  {
  }

  lemma GenerationCategory()
    ensures AllOfCategory(GENERATION_ERRORS, Generation)
  {
  }

  lemma GenerationKeysDistinct()
    ensures KeysDistinct(GENERATION_ERRORS)
  {
  }

  lemma ExportEntries()
    ensures EntriesWellFormed(EXPORT_ERRORS)
  {
  }

  lemma ExportCategory()
    ensures AllOfCategory(EXPORT_ERRORS, Export)
  {
  }

  lemma ExportKeysDistinct()
    ensures KeysDistinct(EXPORT_ERRORS)
  {
  }

  lemma ValidationEntries()
    ensures EntriesWellFormed(VALIDATION_ERRORS)
  {
  }

  lemma ValidationCategory()
    ensures AllOfCategory(VALIDATION_ERRORS, Validation)
  {
  }

  lemma ValidationKeysDistinct()
    ensures KeysDistinct(VALIDATION_ERRORS)
  {
  }

  lemma SystemEntries()
    ensures EntriesWellFormed(SYSTEM_ERRORS)
  {
  }

  lemma SystemCategory()
    ensures AllOfCategory(SYSTEM_ERRORS, System)
  {
  }

  lemma SystemKeysDistinct()
    ensures KeysDistinct(SYSTEM_ERRORS)
  {
  }

  lemma DatabaseEntries()
    ensures EntriesWellFormed(DATABASE_ERRORS)
  {
  }

  lemma DatabaseCategory()
    ensures AllOfCategory(DATABASE_ERRORS, Database)
  {
  }

  lemma DatabaseKeysDistinct()
    ensures KeysDistinct(DATABASE_ERRORS)
  {
  }

  lemma NetworkEntries()
    ensures EntriesWellFormed(NETWORK_ERRORS)
  {
  }

  lemma NetworkCategory()
    ensures AllOfCategory(NETWORK_ERRORS, Network)
  {
  }

  lemma NetworkKeysDistinct()
    ensures KeysDistinct(NETWORK_ERRORS)
  {
  }

  /** The whole catalogue: every entry is stored under its own code, the
      middle segment of every code is the string value of its category, and
      no key is listed twice. */
  lemma CatalogueWellFormed()
    ensures EntriesWellFormed(ERROR_CODES) && KeysDistinct(ERROR_CODES)
  {
    GenerationEntries();
    GenerationCategory();
    GenerationKeysDistinct();
    ExportEntries();
    ExportCategory();
    ExportKeysDistinct();
    AppendGroup(GENERATION_ERRORS, EXPORT_ERRORS, Export);
    ValidationEntries();
    ValidationCategory();
    ValidationKeysDistinct();
    AppendGroup(GENERATION_ERRORS + EXPORT_ERRORS, VALIDATION_ERRORS, Validation);
    SystemEntries();
    SystemCategory();
    SystemKeysDistinct();
    AppendGroup(GENERATION_ERRORS + EXPORT_ERRORS + VALIDATION_ERRORS, SYSTEM_ERRORS, System);
    DatabaseEntries();
    DatabaseCategory();
    DatabaseKeysDistinct();
    AppendGroup(GENERATION_ERRORS + EXPORT_ERRORS + VALIDATION_ERRORS + SYSTEM_ERRORS, DATABASE_ERRORS, Database);
    NetworkEntries();
    NetworkCategory();
    NetworkKeysDistinct();
    AppendGroup(GENERATION_ERRORS + EXPORT_ERRORS + VALIDATION_ERRORS + SYSTEM_ERRORS + DATABASE_ERRORS, NETWORK_ERRORS, Network);
    assert ERROR_CODES == GENERATION_ERRORS + EXPORT_ERRORS + VALIDATION_ERRORS + SYSTEM_ERRORS + DATABASE_ERRORS + NETWORK_ERRORS;
  }

  /** The value stored under key `code` among `entries`: the first entry
      with that key, or None when no entry has it. */
  function Lookup<V>(entries: seq<(string, V)>, code: string): (r: Option<V>)
    ensures r.None? <==> forall i :: 0 <= i < |entries| ==> entries[i].0 != code
    ensures r.Some? ==> exists i :: 0 <= i < |entries| && entries[i].0 == code && entries[i].1 == r.value
  {
    if |entries| == 0 then None
    else if entries[0].0 == code then Some(entries[0].1)
    else
      var r := Lookup(entries[1..], code);
      assert forall i :: 1 <= i < |entries| ==> entries[i] == entries[1..][i - 1];
      r
  }

  /** `getErrorByCode`: the entry stored under `code`, `undefined` when
      there is none. A found entry carries the code it was asked for, and is
      the entry at every position holding that key. */
  function GetErrorByCode(code: string): (r: Option<ErrorCode>)
    ensures r.Some? <==> Catalogued(code)
    ensures r.Some? ==> r.value.code == code
    ensures forall i :: 0 <= i < |ERROR_CODES| && ERROR_CODES[i].0 == code ==> r == Some(ERROR_CODES[i].1)
  {
    CatalogueWellFormed();
    Lookup(ERROR_CODES, code)
  }

  const UNKNOWN_CODE := "DF-SYS-999"

  /** `e` carries every field of the catalogue entry `d` and its wording `w`. */
  predicate CopiesEntry(e: DummyForgeError, d: ErrorCode, w: Wording) {
    && e.code == d.code && e.category == d.category && e.severity == d.severity
    && e.logLevel == d.logLevel
    && e.message == w.message && e.userMessage == w.userMessage && e.resolution == w.resolution
  }

  /** `createError`: copies the catalogue entry for a known code, together
      with the wording `wording` gives for that code, and builds the critical
      DF-SYS-999 error for any other code; the technical details and the
      context are passed through either way. */
  function CreateError(code: string, wording: string -> Wording, technicalDetails: Option<string>,
                       context: Option<map<string, ContextValue>>): (e: DummyForgeError)
    ensures e.technicalDetails == technicalDetails && e.context == context
    ensures !Catalogued(code) ==>
      && e.code == UNKNOWN_CODE && e.category == System && e.severity == Critical && e.logLevel == Fatal
      && e.message == "Unknown error"
      && e.userMessage == "An unexpected error occurred. Please contact support."
      && e.resolution == "Restart the application"
    ensures Catalogued(code) ==> e.code == code
    ensures forall i :: 0 <= i < |ERROR_CODES| && ERROR_CODES[i].0 == code ==>
      CopiesEntry(e, ERROR_CODES[i].1, wording(code))
  {
    match GetErrorByCode(code)
    case None =>
      DummyForgeError(UNKNOWN_CODE, System, Critical, "Unknown error",
        "An unexpected error occurred. Please contact support.", "Restart the application",
        Fatal, technicalDetails, context)
    case Some(d) =>
      var w := wording(d.code);
      DummyForgeError(d.code, d.category, d.severity, w.message, w.userMessage, w.resolution,
        d.logLevel, technicalDetails, context)
  }

  /** The fallback code is not itself in the catalogue. */
  lemma UnknownCodeNotCatalogued()
    ensures !Catalogued(UNKNOWN_CODE)
  {
  }

  /** Every created error carries either the requested catalogued code or
      DF-SYS-999, and its code's middle segment names its category. */
  lemma CreatedErrorCode(code: string, wording: string -> Wording, details: Option<string>, context: Option<map<string, ContextValue>>)
    ensures var e := CreateError(code, wording, details, context);
      (Catalogued(e.code) <==> Catalogued(code))
      && HasSegment(e.code, CategoryText(e.category))
  {
    CatalogueWellFormed();
    UnknownCodeNotCatalogued();
    if Catalogued(code) {
      var i :| 0 <= i < |ERROR_CODES| && ERROR_CODES[i].0 == code;
    }
  }

  /** `getSeverityTitle`. */
  function SeverityTitle(s: ErrorSeverity): string {
    match s
    case Low => "Information"
    case Medium => "Warning"
    case High => "Error"
    case Critical => "Critical Error"
  }

  /** `toUserDisplay`: the severity's title, the user message, the resolution and the code. */
  function ToUserDisplay(e: DummyForgeError): (d: UserDisplay)
    ensures d.message == e.userMessage && d.resolution == e.resolution && d.code == e.code
    ensures e.severity == Low ==> d.title == "Information"
    ensures e.severity == Medium ==> d.title == "Warning"
    ensures e.severity == High ==> d.title == "Error"
    ensures e.severity == Critical ==> d.title == "Critical Error"
  {
    UserDisplay(SeverityTitle(e.severity), e.userMessage, e.resolution, e.code)
  }

  /** Distinct severities get distinct titles, so the title tells the severity back. */
  lemma SeverityTitleInjective(a: ErrorSeverity, b: ErrorSeverity)
    requires SeverityTitle(a) == SeverityTitle(b)
    ensures a == b
  {
  }

  /** The display of a created error shows the requested code when it is
      catalogued and DF-SYS-999 otherwise, with the entry's user message and
      the title of its severity. */
  lemma DisplayOfCreatedError(code: string, wording: string -> Wording, details: Option<string>, context: Option<map<string, ContextValue>>)
    ensures var d := ToUserDisplay(CreateError(code, wording, details, context));
      && (forall i :: 0 <= i < |ERROR_CODES| && ERROR_CODES[i].0 == code ==>
            d.code == code && d.message == wording(code).userMessage
            && d.title == SeverityTitle(ERROR_CODES[i].1.severity))
      && (!Catalogued(code) ==> d.code == UNKNOWN_CODE && d.title == "Critical Error")
  {
  }
}
