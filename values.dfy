/** Values shared by every part of the model: optional and failing results,
    the plain JavaScript object used for a generated record, and the small
    string helpers (decimal text, ASCII character classes, join, repeat). */
module Values {

  datatype Option<+T> = None | Some(value: T)

  /** A result that is either a value or the exception the source would throw. */
  datatype Result<+T, +E> = Ok(value: T) | Err(error: E) {
    predicate IsFailure() { Err? }
    function PropagateFailure<U>(): Result<U, E> requires Err? { Err(error) }
    function Extract(): T requires Ok? { value }
  }

  /** `o ?? d`. */
  function OrElse<T>(o: Option<T>, d: T): T {
    if o.Some? then o.value else d
  }

  /** An optional string that is present and not empty. */
  predicate Truthy(o: Option<string>) {
    o.Some? && o.value != ""
  }

  // ---------------------------------------------------------------------
  // Plain objects
  // ---------------------------------------------------------------------

  /** A plain JavaScript object: its own keys in insertion order and the
      value stored under each key. */
  datatype Obj<V> = Obj(keys: seq<string>, vals: map<string, V>)

  /** Keys are listed once each and are exactly the keys holding a value. */
  ghost predicate WellFormed<V>(o: Obj<V>) {
    Distinct(o.keys) && (forall k :: k in o.vals <==> k in o.keys)
  }

  function EmptyObj<V>(): (r: Obj<V>)
    ensures WellFormed(r) && r.keys == []
  {
    Obj([], map[])
  }

  /** `o[k] = v`: an existing key keeps its position, a new key goes last. */
  function ObjSet<V>(o: Obj<V>, k: string, v: V): (r: Obj<V>)
    ensures k in r.vals && r.vals[k] == v
    ensures forall k' :: k' != k ==> (k' in r.vals <==> k' in o.vals)
    ensures forall k' :: k' != k && k' in o.vals ==> r.vals[k'] == o.vals[k']
    ensures WellFormed(o) ==> WellFormed(r)
    ensures k in o.keys ==> r.keys == o.keys
    ensures k !in o.keys ==> r.keys == o.keys + [k]
  {
    if k in o.keys then Obj(o.keys, o.vals[k := v]) else Obj(o.keys + [k], o.vals[k := v])
  }

  /** `o[k]`, with `undefined` as None. */
  function ObjGet<V>(o: Obj<V>, k: string): Option<V> {
    if k in o.vals then Some(o.vals[k]) else None
  }

  predicate Distinct<T(==)>(s: seq<T>) {
    forall i, j :: 0 <= i < j < |s| ==> s[i] != s[j]
  }

  /** The elements of `s` at their first occurrence, in order. */
  function Dedup<T(==)>(s: seq<T>): seq<T> {
    if |s| == 0 then []
    else
      var d := Dedup(s[..|s| - 1]);
      if s[|s| - 1] in d then d else d + [s[|s| - 1]]
  }

  /** The object built by assigning `vs[j]` to key `names[j]`, for j in order. */
  function FromPairs<V>(names: seq<string>, vs: seq<V>): Obj<V>
    requires |names| == |vs|
  {
    if |names| == 0 then EmptyObj()
    else ObjSet(FromPairs(names[..|names| - 1], vs[..|vs| - 1]), names[|names| - 1], vs[|vs| - 1])
  }

  /** Assigning one more name: the object so far with that name set. */
  lemma FromPairsSnoc<V>(names: seq<string>, vs: seq<V>, n: string, v: V)
    requires |names| == |vs|
    ensures FromPairs(names + [n], vs + [v]) == ObjSet(FromPairs(names, vs), n, v)
  {
    assert (names + [n])[..|names|] == names;
    assert (vs + [v])[..|vs|] == vs;
  }

  lemma {:induction false} DedupMembers<T>(s: seq<T>)
    ensures Distinct(Dedup(s))
    ensures forall x :: x in Dedup(s) <==> x in s
  {
    if |s| > 0 {
      DedupMembers(s[..|s| - 1]);
      assert s == s[..|s| - 1] + [s[|s| - 1]];
    }
  }

  lemma {:induction false} DedupOfDistinct<T>(s: seq<T>)
    requires Distinct(s)
    ensures Dedup(s) == s
  {
    if |s| > 0 {
      var p := s[..|s| - 1];
      DedupOfDistinct(p);
      assert s[|s| - 1] !in p;
      assert p + [s[|s| - 1]] == s;
    }
  }

  /** Assigning the fields in order gives an object whose keys are the
      distinct names at their first occurrence, each holding a value. */
  lemma {:induction false} FromPairsShape<V>(names: seq<string>, vs: seq<V>)
    requires |names| == |vs|
    ensures WellFormed(FromPairs(names, vs))
    ensures FromPairs(names, vs).keys == Dedup(names)
    ensures forall k :: k in FromPairs(names, vs).vals <==> k in names
  {
    if |names| > 0 {
      var n := |names| - 1;
      FromPairsShape(names[..n], vs[..n]);
      DedupMembers(names[..n]);
      assert names == names[..n] + [names[n]];
    }
  }

  /** With distinct names, the value under a name is the one assigned to it. */
  lemma {:induction false} FromPairsAt<V>(names: seq<string>, vs: seq<V>, j: nat)
    requires |names| == |vs| && Distinct(names) && j < |names|
    ensures names[j] in FromPairs(names, vs).vals
    ensures FromPairs(names, vs).vals[names[j]] == vs[j]
  {
    var n := |names| - 1;
    var p, q := names[..n], vs[..n];
    assert FromPairs(names, vs) == ObjSet(FromPairs(p, q), names[n], vs[n]);
    if j < n {
      assert Distinct(p) by {
        forall a, b | 0 <= a < b < |p| ensures p[a] != p[b] { assert p[a] == names[a] && p[b] == names[b]; }
      }
      FromPairsAt(p, q, j);
      assert names[j] == p[j] && vs[j] == q[j] && names[j] != names[n];
    }
  }

  /** With distinct names, the key order is the field order and the value
      under each name is the value assigned to it. */
  lemma FromPairsDistinct<V>(names: seq<string>, vs: seq<V>)
    requires |names| == |vs| && Distinct(names)
    ensures FromPairs(names, vs).keys == names
    ensures forall j :: 0 <= j < |names| ==> names[j] in FromPairs(names, vs).vals
    ensures forall j :: 0 <= j < |names| ==> FromPairs(names, vs).vals[names[j]] == vs[j]
  {
    FromPairsShape(names, vs);
    DedupOfDistinct(names);
    forall j | 0 <= j < |names|
      ensures names[j] in FromPairs(names, vs).vals && FromPairs(names, vs).vals[names[j]] == vs[j]
    {
      FromPairsAt(names, vs, j);
    }
  }

  /** Appending the object built from `names` keeps a list of objects
      all keyed by the distinct names in order. */
  lemma AppendShaped<V>(objs: seq<Obj<V>>, names: seq<string>, vs: seq<V>)
    requires |names| == |vs|
    requires forall k :: 0 <= k < |objs| ==> WellFormed(objs[k]) && objs[k].keys == Dedup(names)
    ensures forall k :: 0 <= k < |objs| + 1 ==>
      WellFormed((objs + [FromPairs(names, vs)])[k]) && (objs + [FromPairs(names, vs)])[k].keys == Dedup(names)
  {
    FromPairsShape(names, vs);
  }

  /** The value of the first entry of `table` whose key is `key`, as a
      plain object literal or a `find` over a list of pairs gives it. */
  function Assoc<V>(table: seq<(string, V)>, key: string): (r: Option<V>)
    ensures r.None? <==> forall k :: 0 <= k < |table| ==> table[k].0 != key
    ensures r.Some? ==> exists k :: 0 <= k < |table| && table[k].0 == key && table[k].1 == r.value
                                    && forall e :: 0 <= e < k ==> table[e].0 != key
  {
    if |table| == 0 then None
    else if table[0].0 == key then Some(table[0].1)
    else
      var r := Assoc(table[1..], key);
      assert forall k :: 0 <= k < |table| - 1 ==> table[1..][k] == table[k + 1];
      r
  }

  // ---------------------------------------------------------------------
  // Characters and strings
  // ---------------------------------------------------------------------

  predicate IsDigit(c: char) { '0' <= c <= '9' }
  predicate IsUpper(c: char) { 'A' <= c <= 'Z' }
  predicate IsLower(c: char) { 'a' <= c <= 'z' }
  predicate IsLetter(c: char) { IsUpper(c) || IsLower(c) }
  predicate IsAlnum(c: char) { IsLetter(c) || IsDigit(c) }

  predicate AllDigits(s: string) { forall i :: 0 <= i < |s| ==> IsDigit(s[i]) }
  predicate AllLetters(s: string) { forall i :: 0 <= i < |s| ==> IsLetter(s[i]) }
  predicate AllAlnum(s: string) { forall i :: 0 <= i < |s| ==> IsAlnum(s[i]) }

  function DigitChar(d: nat): (c: char)
    requires d < 10
    ensures IsDigit(c)
  {
    ['0', '1', '2', '3', '4', '5', '6', '7', '8', '9'][d]
  }

  /** `String(n)` for a non-negative integer. */
  function NatToDecimal(n: nat): (s: string)
    ensures |s| >= 1 && AllDigits(s)
    ensures n < 10 <==> |s| == 1
  {
    if n < 10 then [DigitChar(n)] else NatToDecimal(n / 10) + [DigitChar(n % 10)]
  }

  /** `String(i)` for an integer (values beyond 2^53 are not distinguished). */
  function IntToDecimal(i: int): string {
    if i < 0 then "-" + NatToDecimal(-i) else NatToDecimal(i)
  }

  /** `toLowerCase()` restricted to ASCII letters. */
  function LowerChar(c: char): char {
    if IsUpper(c) then (c as int + 32) as char else c
  }

  function UpperChar(c: char): char {
    if IsLower(c) then (c as int - 32) as char else c
  }

  function Lower(s: string): (r: string)
    ensures |r| == |s|
  {
    seq(|s|, i requires 0 <= i < |s| => LowerChar(s[i]))
  }

  function Upper(s: string): (r: string)
    ensures |r| == |s|
  {
    seq(|s|, i requires 0 <= i < |s| => UpperChar(s[i]))
  }

  /** `parts.join(sep)`. */
  function Join(parts: seq<string>, sep: string): string {
    if |parts| == 0 then ""
    else if |parts| == 1 then parts[0]
    else Join(parts[..|parts| - 1], sep) + sep + parts[|parts| - 1]
  }

  /** `c.repeat(n)` for one character. */
  function Repeat(c: char, n: nat): (r: string)
    ensures |r| == n && forall i :: 0 <= i < n ==> r[i] == c
  {
    seq(n, _ => c)
  }

  /** `sub` occurs in `s` starting at index `i`. */
  predicate OccursAt(s: string, sub: string, i: int) {
    0 <= i && i + |sub| <= |s| && s[i..i + |sub|] == sub
  }

  /** `s.includes(sub)`. */
  ghost predicate Contains(s: string, sub: string) {
    exists i :: OccursAt(s, sub, i)
  }

  /** A computable `s.includes(sub)`, scanning from index `i`. */
  function IncludesFrom(s: string, sub: string, i: nat): (b: bool)
    decreases |s| - i
    ensures b <==> exists k :: i <= k && OccursAt(s, sub, k)
  {
    if i + |sub| > |s| then false
    else if s[i..i + |sub|] == sub then (assert OccursAt(s, sub, i); true)
    else
      var b := IncludesFrom(s, sub, i + 1);
      assert !OccursAt(s, sub, i);
      b
  }

  function Includes(s: string, sub: string): (b: bool)
    ensures b <==> Contains(s, sub)
  {
    IncludesFrom(s, sub, 0)
  }

  function Max(a: int, b: int): int { if a >= b then a else b }
  function Min(a: int, b: int): int { if a <= b then a else b }
}
