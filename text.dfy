/** String building blocks: the decimal numerals of Python's str(int), str.join, and the readers
    that take the rendered text apart again. The readers are not part of the service; they are
    what the rendering functions are proved against. */
module Text {
  import opened Wrappers

  /** Position of the first `c` in `s`, or `|s|` when `s` has none. */
  function IndexOf(s: string, c: char): (r: nat)
    ensures r <= |s|
    ensures forall j :: 0 <= j < r ==> s[j] != c
    ensures r < |s| ==> s[r] == c
  {
    if |s| == 0 || s[0] == c then 0 else 1 + IndexOf(s[1..], c)
  }

  lemma IndexOfStops(f: string, c: char, rest: string)
    requires c !in f
    requires |rest| > 0 && rest[0] == c
    ensures IndexOf(f + rest, c) == |f|
  {
    assert (f + rest)[|f|] == c;
  }

  /** The text after the literal `lit`, when `s` starts with it. */
  function Expect(s: string, lit: string): (r: Option<string>)
    ensures r.Some? <==> lit <= s
    ensures r.Some? ==> s == lit + r.value
  {
    if lit <= s then Some(s[|lit|..]) else None
  }

  // ---------------------------------------------------------------------------------------------
  // Fixed layouts: literal text interleaved with fields

  /** `layout[0] + fields[0] + layout[1] + fields[1] + ... + layout[|fields|]`: the shape of an
      f-string whose literal parts are `layout` and whose placeholders are `fields`. */
  function Render(layout: seq<string>, fields: seq<string>): string
    requires |layout| == |fields| + 1
    decreases |fields|
  {
    if |fields| == 0 then layout[0] else layout[0] + fields[0] + Render(layout[1..], fields[1..])
  }

  /** Reads text back against `layout`: each field runs up to the first character of the literal
      that follows it. Gives the fields and whatever text follows the final literal. */
  function Unrender(s: string, layout: seq<string>): Option<(seq<string>, string)>
    requires |layout| >= 1
    decreases |layout|
  {
    match Expect(s, layout[0])
    case None => None
    case Some(rest) =>
      if |layout| == 1 then Some(([], rest))
      else if layout[1] == [] then None
      else
        var i := IndexOf(rest, layout[1][0]);
        match Unrender(rest[i..], layout[1..])
        case None => None
        case Some(parsed) => Some(([rest[..i]] + parsed.0, parsed.1))
  }

  /** No field contains the first character of the literal that follows it
      (`layout[1..][i]` is the literal after `fields[i]`). */
  predicate Separable(layout: seq<string>, fields: seq<string>)
    requires |layout| == |fields| + 1
  {
    forall i :: 0 <= i < |fields| ==> |layout[1..][i]| > 0 && layout[1..][i][0] !in fields[i]
  }

  lemma RenderStartsWith(layout: seq<string>, fields: seq<string>)
    requires |layout| == |fields| + 1
    ensures layout[0] <= Render(layout, fields)
  {
  }

  /** One step of reading: the literal, then a field that stops where the next literal begins. */
  lemma UnrenderStep(s: string, layout: seq<string>, field: string, more: string)
    requires |layout| >= 2 && |layout[1]| > 0
    requires s == layout[0] + (field + more)
    requires layout[1][0] !in field
    requires |more| > 0 && more[0] == layout[1][0]
    ensures Unrender(s, layout) ==
              match Unrender(more, layout[1..])
              case None => None
              case Some(parsed) => Some(([field] + parsed.0, parsed.1))
  {
    var rest := field + more;
    assert Expect(s, layout[0]) == Some(rest);
    IndexOfStops(field, layout[1][0], more);
    assert rest[|field|..] == more;
    assert rest[..|field|] == field;
  }

  /** Rendering followed by any text can be read back into the same fields and that text. */
  lemma {:induction false} UnrenderRender(layout: seq<string>, fields: seq<string>, tail: string)
    requires |layout| == |fields| + 1
    requires Separable(layout, fields)
    ensures Unrender(Render(layout, fields) + tail, layout) == Some((fields, tail))
    decreases |fields|
  {
    var s := Render(layout, fields) + tail;
    if |fields| == 0 {
      assert s == layout[0] + tail;
      assert Expect(s, layout[0]) == Some(tail);
    } else {
      var more := Render(layout[1..], fields[1..]) + tail;
      assert s == layout[0] + (fields[0] + more);
      forall i | 0 <= i < |fields| - 1
        ensures |layout[1..][1..][i]| > 0 && layout[1..][1..][i][0] !in fields[1..][i]
      {
        assert layout[1..][1..][i] == layout[1..][i + 1];
        assert fields[1..][i] == fields[i + 1];
      }
      assert |layout[1..][0]| > 0 && layout[1..][0][0] !in fields[0];
      RenderStartsWith(layout[1..], fields[1..]);
      UnrenderStep(s, layout, fields[0], more);
      UnrenderRender(layout[1..], fields[1..], tail);
      assert [fields[0]] + fields[1..] == fields;
    }
  }

  // ---------------------------------------------------------------------------------------------
  // Decimal numerals

  predicate IsDigit(c: char) {
    '0' <= c <= '9'
  }

  predicate AllDigits(s: string) {
    forall i :: 0 <= i < |s| ==> IsDigit(s[i])
  }

  function DigitChar(d: nat): (c: char)
    requires d < 10
    ensures IsDigit(c)
  {
    ('0' as int + d) as char
  }

  function DigitValue(c: char): nat
    requires IsDigit(c)
  {
    c as int - '0' as int
  }

  /** The decimal numeral of `n` as Python's str() writes it: digits only, no leading zero. */
  function NatToString(n: nat): (s: string)
    ensures |s| >= 1 && AllDigits(s)
    ensures n > 0 ==> s[0] != '0'
    decreases n
  {
    if n < 10 then [DigitChar(n)] else NatToString(n / 10) + [DigitChar(n % 10)]
  }

  /** Value of a string of decimal digits. */
  function ParseNat(s: string): nat
    requires AllDigits(s)
    decreases |s|
  {
    if |s| == 0 then 0 else 10 * ParseNat(s[..|s| - 1]) + DigitValue(s[|s| - 1])
  }

  lemma {:induction false} ParseNatToString(n: nat)
    ensures ParseNat(NatToString(n)) == n
    decreases n
  {
    if n >= 10 {
      var s := NatToString(n);
      assert s[..|s| - 1] == NatToString(n / 10);
      ParseNatToString(n / 10);
    }
  }

  /** Python's str() of an int: a minus sign before the numeral of a negative value. */
  function IntToString(x: int): (s: string)
    ensures |s| >= 1
    ensures forall i :: 0 <= i < |s| ==> IsDigit(s[i]) || s[i] == '-'
  {
    if x < 0 then "-" + NatToString(-x) else NatToString(x)
  }

  /** Reads an optionally signed decimal numeral. */
  function ParseInt(s: string): Option<int> {
    if |s| > 1 && s[0] == '-' && AllDigits(s[1..]) then Some(0 - ParseNat(s[1..]))
    else if |s| > 0 && AllDigits(s) then Some(ParseNat(s))
    else None
  }

  lemma ParseIntToString(x: int)
    ensures ParseInt(IntToString(x)) == Some(x)
  {
    var s := IntToString(x);
    if x < 0 {
      assert s[1..] == NatToString(-x);
      ParseNatToString(-x);
    } else {
      assert !IsDigit('-');
      ParseNatToString(x);
    }
  }

  // ---------------------------------------------------------------------------------------------
  // Joining and splitting lines

  /** `[sep].join(parts)` as Python's str.join writes it. */
  function Join(parts: seq<string>, sep: char): string
    decreases |parts|
  {
    if |parts| == 0 then ""
    else if |parts| == 1 then parts[0]
    else parts[0] + [sep] + Join(parts[1..], sep)
  }

  /** `s.split(sep)`: the pieces between the occurrences of `sep`. */
  function Split(s: string, sep: char): (parts: seq<string>)
    ensures |parts| >= 1
    decreases |s|
  {
    var i := IndexOf(s, sep);
    if i == |s| then [s] else [s[..i]] + Split(s[i + 1..], sep)
  }

  /** Joined pieces that do not contain the separator split back into the same pieces. */
  lemma {:induction false} SplitJoin(parts: seq<string>, sep: char)
    requires |parts| >= 1
    requires forall i :: 0 <= i < |parts| ==> sep !in parts[i]
    ensures Split(Join(parts, sep), sep) == parts
    decreases |parts|
  {
    if |parts| == 1 {
      assert IndexOf(parts[0], sep) == |parts[0]|;
    } else {
      var rest := Join(parts[1..], sep);
      var s := Join(parts, sep);
      assert s == parts[0] + ([sep] + rest);
      IndexOfStops(parts[0], sep, [sep] + rest);
      assert s[..|parts[0]|] == parts[0];
      assert s[|parts[0]| + 1..] == rest;
      SplitJoin(parts[1..], sep);
    }
  }
}
