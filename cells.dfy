/** The values the exporters write out, how JavaScript turns each into
    text, and the text helpers the exporters share: the quote-doubling
    escape of SQL string literals and the joining and splitting of lines
    and cells. */
module Cells {
  import opened Values

  /** One value of an exported record. A number is either an integer or a
      fraction carried as its JavaScript text; a `Date` carries its ISO text
      and its `toString` text; any other object its `JSON.stringify` text and
      its `String(...)` text. */
  datatype Cell =
    | Str(s: string)
    | Int(n: int)
    | Frac(text: string)
    | Flag(b: bool)
    | Null
    | When(iso: string, shown: string)
    | Object(json: string, shown: string)

  /** `typeof value === 'number'`. */
  predicate IsNumber(v: Option<Cell>) {
    v.Some? && (v.value.Int? || v.value.Frac?)
  }

  /** `String(value)`; a missing key reads as `undefined`. */
  function StringOf(v: Option<Cell>): string {
    match v
    case None => "undefined"
    case Some(c) =>
      match c
      case Str(s) => s
      case Int(n) => IntToDecimal(n)
      case Frac(t) => t
      case Flag(b) => if b then "true" else "false"
      case Null => "null"
      case When(_, shown) => shown
      case Object(_, shown) => shown
  }

  /** How `Array.prototype.join` writes one element: `null` and `undefined`
      become the empty string, anything else its `String(...)`. */
  function JoinSlot(v: Option<Cell>): (r: string)
    ensures v.None? || v.value.Null? ==> r == ""
    ensures v.Some? && !v.value.Null? ==> r == StringOf(v)
  {
    if v.None? || v.value.Null? then "" else StringOf(v)
  }

  // ---------------------------------------------------------------------
  // SQL string literals
  // ---------------------------------------------------------------------

  /** `s.replace(/'/g, "''")`. */
  function Escape(s: string): (r: string)
    ensures |r| >= |s|
  {
    if |s| == 0 then ""
    else (if s[0] == '\'' then "''" else [s[0]]) + Escape(s[1..])
  }

  /** The reading of a literal's body: each `''` stands for one quote. */
  function Unescape(t: string): string {
    if |t| >= 2 && t[0] == '\'' && t[1] == '\'' then "'" + Unescape(t[2..])
    else if |t| == 0 then ""
    else [t[0]] + Unescape(t[1..])
  }

  /** Every quote of `t` is one of an adjacent pair, so a body between two
      quotes cannot end the literal early. */
  predicate Paired(t: string) {
    if |t| == 0 then true
    else if t[0] == '\'' then |t| >= 2 && t[1] == '\'' && Paired(t[2..])
    else Paired(t[1..])
  }

  /** Reading an escaped body gives back the original string. */
  lemma {:induction false} UnescapeEscape(s: string)
    ensures Unescape(Escape(s)) == s
  {
    if |s| > 0 {
      var rest := Escape(s[1..]);
      UnescapeEscape(s[1..]);
      if s[0] == '\'' {
        var t := "''" + rest;
        assert Escape(s) == t && t[2..] == rest;
      } else {
        var t := [s[0]] + rest;
        assert Escape(s) == t && t[1..] == rest;
      }
      assert s == [s[0]] + s[1..];
    }
  }

  /** The escape leaves no lone quote. */
  lemma {:induction false} EscapePaired(s: string)
    ensures Paired(Escape(s))
  {
    if |s| > 0 {
      var rest := Escape(s[1..]);
      EscapePaired(s[1..]);
      if s[0] == '\'' {
        var t := "''" + rest;
        assert Escape(s) == t && t[2..] == rest;
      } else {
        var t := [s[0]] + rest;
        assert Escape(s) == t && t[1..] == rest;
      }
    }
  }

  /** `'` + the escaped text + `'`. */
  function Quote(s: string): (r: string)
    ensures |r| >= 2 && r[0] == '\'' && r[|r| - 1] == '\''
    ensures Unescape(r[1..|r| - 1]) == s && Paired(r[1..|r| - 1])
  {
    var r := "'" + Escape(s) + "'";
    assert r[1..|r| - 1] == Escape(s);
    UnescapeEscape(s);
    EscapePaired(s);
    r
  }

  // ---------------------------------------------------------------------
  // Lines and cells
  // ---------------------------------------------------------------------

  /** The concatenation of the pieces in order, as `+=` in a loop builds it. */
  function Concat(ss: seq<string>): string {
    if |ss| == 0 then "" else Concat(ss[..|ss| - 1]) + ss[|ss| - 1]
  }

  lemma ConcatStep(ss: seq<string>, i: nat)
    requires i < |ss|
    ensures Concat(ss[..i + 1]) == Concat(ss[..i]) + ss[i]
  {
    assert ss[..i + 1][..i] == ss[..i];
  }

  /** One more piece appended to a text that ends in the pieces so far. */
  lemma ConcatAppend(prefix: string, acc: string, ss: seq<string>, i: nat)
    requires i < |ss| && acc == prefix + Concat(ss[..i])
    ensures acc + ss[i] == prefix + Concat(ss[..i + 1])
  {
    ConcatStep(ss, i);
  }

  /** `s.split(c)`. */
  function Split(s: string, c: char): (r: seq<string>)
    ensures |r| >= 1
  {
    if |s| == 0 then [""]
    else
      var rest := Split(s[1..], c);
      if s[0] == c then [""] + rest else [[s[0]] + rest[0]] + rest[1..]
  }

  lemma {:induction false} SplitFree(p: string, c: char)
    requires c !in p
    ensures Split(p, c) == [p]
  {
    if |p| > 0 {
      SplitFree(p[1..], c);
      assert [p[0]] + p[1..] == p;
    }
  }

  lemma {:induction false} SplitAfter(p: string, c: char, s: string)
    requires c !in p
    ensures Split(p + [c] + s, c) == [p] + Split(s, c)
  {
    if |p| == 0 {
      assert p + [c] + s == [c] + s;
      assert ([c] + s)[1..] == s;
    } else {
      var t := p + [c] + s;
      assert t[0] == p[0] && t[1..] == p[1..] + [c] + s;
      SplitAfter(p[1..], c, s);
      assert [p[0]] + p[1..] == p;
    }
  }

  lemma {:induction false} JoinFront(parts: seq<string>, sep: string)
    requires |parts| >= 2
    ensures Join(parts, sep) == parts[0] + sep + Join(parts[1..], sep)
    decreases |parts|
  {
    var n := |parts|;
    if n == 2 {
      assert parts[..1] == [parts[0]] && parts[1..][0] == parts[1];
    } else {
      JoinFront(parts[..n - 1], sep);
      assert parts[..n - 1][1..] == parts[1..][..n - 2];
      assert parts[..n - 1][..1] == parts[..1];
      assert parts[1..][n - 2] == parts[n - 1];
    }
  }

  /** Splitting a joined line on its one-character separator gives back the
      parts, provided no part holds the separator. */
  lemma {:induction false} SplitJoin(parts: seq<string>, c: char)
    requires |parts| >= 1
    requires forall k :: 0 <= k < |parts| ==> c !in parts[k]
    ensures Split(Join(parts, [c]), c) == parts
    decreases |parts|
  {
    if |parts| == 1 {
      SplitFree(parts[0], c);
    } else {
      JoinFront(parts, [c]);
      SplitJoin(parts[1..], c);
      SplitAfter(parts[0], c, Join(parts[1..], [c]));
      assert [parts[0]] + parts[1..] == parts;
    }
  }

  /** No piece of a joined text holds `c` when neither the parts nor the
      separator do. */
  lemma {:induction false} JoinFree(parts: seq<string>, sep: string, c: char)
    requires c !in sep
    requires forall k :: 0 <= k < |parts| ==> c !in parts[k]
    ensures c !in Join(parts, sep)
    decreases |parts|
  {
    if |parts| > 1 {
      JoinFree(parts[..|parts| - 1], sep, c);
    }
  }
}
