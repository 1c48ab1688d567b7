/**
 * The Python string operations the debugger proxy relies on: HTML escaping of
 * exception text, `%d` formatting of an integer, `int(...)` parsing of a
 * query argument, and substring containment to state what a page shows.
 */
module PyText {

  import opened Wrappers

  /** `sub` occurs somewhere in `s` (Python's `sub in s`). */
  ghost predicate Contains(s: string, sub: string)
  {
    exists i :: OccursAt(s, sub, i)
  }

  /** `sub` occurs in `s` starting at index `i`. */
  ghost predicate OccursAt(s: string, sub: string, i: int)
  {
    0 <= i <= |s| - |sub| && s[i..i + |sub|] == sub
  }

  /** A piece of a concatenation occurs in the whole. */
  lemma ContainsMiddle(pre: string, sub: string, post: string)
    ensures Contains(pre + sub + post, sub)
  {
    var s := pre + sub + post;
    assert s[|pre|..|pre| + |sub|] == sub;
    assert OccursAt(s, sub, |pre|);
  }

  /** Containment survives adding text on either side. */
  lemma ContainsWithin(pre: string, s: string, post: string, sub: string)
    requires Contains(s, sub)
    ensures Contains(pre + s + post, sub)
  {
    var i :| OccursAt(s, sub, i);
    var t := pre + s + post;
    assert t[|pre| + i..|pre| + i + |sub|] == s[i..i + |sub|];
    assert OccursAt(t, sub, |pre| + i);
  }

  /** `"".join(parts)`. */
  function Join(parts: seq<string>): (r: string)
  {
    if parts == [] then "" else parts[0] + Join(parts[1..])
  }

  /** Every piece of a join occurs in the joined text. */
  lemma {:induction false} JoinContainsPart(parts: seq<string>, k: int)
    requires 0 <= k < |parts|
    ensures Contains(Join(parts), parts[k])
  {
    if k == 0 {
      ContainsMiddle("", parts[0], Join(parts[1..]));
      assert "" + parts[0] + Join(parts[1..]) == Join(parts);
    } else {
      JoinContainsPart(parts[1..], k - 1);
      ContainsWithin(parts[0], Join(parts[1..]), "", parts[k]);
      assert parts[0] + Join(parts[1..]) + "" == Join(parts);
    }
  }

  // ---------------------------------------------------------------------------
  // HTML escaping: `&`, `<`, `>` and `"` become entities, all else is kept.

  function EscapeChar(c: char): (r: string)
    ensures |r| >= 1
  {
    if c == '&' then "&amp;"
    else if c == '<' then "&lt;"
    else if c == '>' then "&gt;"
    else if c == '"' then "&quot;"
    else [c]
  }

  function Escape(s: string): (r: string)
  {
    if s == [] then [] else EscapeChar(s[0]) + Escape(s[1..])
  }

  /** `s.startswith(p)`. */
  predicate StartsWith(s: string, p: string)
  {
    |p| <= |s| && s[..|p|] == p
  }

  /** The inverse of `Escape`: decodes the four entities it produces. */
  function Unescape(s: string): (r: string)
  {
    if s == [] then []
    else if StartsWith(s, "&amp;") then "&" + Unescape(s[5..])
    else if StartsWith(s, "&lt;") then "<" + Unescape(s[4..])
    else if StartsWith(s, "&gt;") then ">" + Unescape(s[4..])
    else if StartsWith(s, "&quot;") then "\"" + Unescape(s[6..])
    else [s[0]] + Unescape(s[1..])
  }

  /** Decoding text that starts with an entity, or with a character that begins none. */
  lemma UnescapeEntity(ent: string, c: char, rest: string)
    requires (ent, c) in {("&amp;", '&'), ("&lt;", '<'), ("&gt;", '>'), ("&quot;", '"')}
    ensures Unescape(ent + rest) == [c] + Unescape(rest)
  {
    var e := ent + rest;
    assert e[..|ent|] == ent && e[|ent|..] == rest;
    assert e[0] == '&' && e[1] == ent[1];
  }

  lemma UnescapePlain(c: char, rest: string)
    requires c !in {'&', '<', '>', '"'}
    ensures Unescape([c] + rest) == [c] + Unescape(rest)
  {
    var e := [c] + rest;
    assert e[0] == c && e[1..] == rest;
    assert forall p :: StartsWith(e, p) && p != [] ==> p[0] == c;
  }

  /** Decoding one escaped character followed by any text. */
  lemma UnescapeEscapeChar(c: char, rest: string)
    ensures Unescape(EscapeChar(c) + rest) == [c] + Unescape(rest)
  {
    if c == '&' {
      UnescapeEntity("&amp;", c, rest);
    } else if c == '<' {
      UnescapeEntity("&lt;", c, rest);
    } else if c == '>' {
      UnescapeEntity("&gt;", c, rest);
    } else if c == '"' {
      UnescapeEntity("&quot;", c, rest);
    } else {
      UnescapePlain(c, rest);
    }
  }

  /** Escaping loses nothing: the original text is recovered from the page. */
  lemma {:induction false} UnescapeEscape(s: string)
    ensures Unescape(Escape(s)) == s
  {
    if s != [] {
      UnescapeEscapeChar(s[0], Escape(s[1..]));
      UnescapeEscape(s[1..]);
      assert [s[0]] + s[1..] == s;
    }
  }

  /** Escaped text cannot open or close a tag or end an attribute value in double quotes. */
  lemma {:induction false} EscapeHasNoMarkup(s: string)
    ensures forall i :: 0 <= i < |Escape(s)| ==> Escape(s)[i] !in {'<', '>', '"'}
  {
    if s != [] {
      EscapeHasNoMarkup(s[1..]);
      var e := Escape(s);
      assert e == EscapeChar(s[0]) + Escape(s[1..]);
      forall i | 0 <= i < |e| ensures e[i] !in {'<', '>', '"'} {
        if i >= |EscapeChar(s[0])| {
          assert e[i] == Escape(s[1..])[i - |EscapeChar(s[0])|];
        }
      }
    }
  }

  // ---------------------------------------------------------------------------
  // Decimal digits.

  predicate IsDigit(c: char)
  {
    '0' <= c <= '9'
  }

  predicate AllDigits(s: string)
  {
    forall i :: 0 <= i < |s| ==> IsDigit(s[i])
  }

  function DigitChar(d: nat): (c: char)
    requires d < 10
    ensures IsDigit(c) && c as int - '0' as int == d
  {
    ('0' as int + d) as char
  }

  /** Decimal representation of a natural number, without leading zeros. */
  function NatToString(n: nat): (r: string)
    ensures |r| >= 1 && AllDigits(r)
    ensures |r| > 1 ==> r[0] != '0'
  {
    if n < 10 then [DigitChar(n)] else NatToString(n / 10) + [DigitChar(n % 10)]
  }

  /** Value of a string of decimal digits, most significant first. */
  function DigitsValue(s: string): (v: nat)
    requires AllDigits(s)
  {
    if s == [] then 0
    else DigitsValue(s[..|s| - 1]) * 10 + (s[|s| - 1] as int - '0' as int)
  }

  lemma {:induction false} DigitsValueOfNatToString(n: nat)
    ensures DigitsValue(NatToString(n)) == n
  {
    if n >= 10 {
      var s := NatToString(n);
      assert s[..|s| - 1] == NatToString(n / 10);
      DigitsValueOfNatToString(n / 10);
    }
  }

  /** Python's `'%d' % n`. */
  function IntToString(n: int): (r: string)
    ensures |r| >= 1
    ensures n >= 0 ==> AllDigits(r)
    ensures n < 0 ==> r[0] == '-' && AllDigits(r[1..])
  {
    if n >= 0 then NatToString(n) else "-" + NatToString(-n)
  }

  // ---------------------------------------------------------------------------
  // Python's `int(s)` on text: surrounding whitespace, an optional sign, digits.

  predicate IsSpace(c: char)
  {
    c in {' ', '\t', '\n', '\r', '\U{0B}', '\U{0C}'}
  }

  function StripLeft(s: string): (r: string)
    ensures r == [] || !IsSpace(r[0])
  {
    if s != [] && IsSpace(s[0]) then StripLeft(s[1..]) else s
  }

  function StripRight(s: string): (r: string)
    ensures r == [] || !IsSpace(r[|r| - 1])
  {
    if s != [] && IsSpace(s[|s| - 1]) then StripRight(s[..|s| - 1]) else s
  }

  /** Python's `s.strip()` for ASCII whitespace. */
  function Strip(s: string): (r: string)
  {
    StripRight(StripLeft(s))
  }

  /** A non-empty run of decimal digits and its value. */
  function ParseDigits(d: string): (r: Option<nat>)
    ensures r.Some? <==> d != [] && AllDigits(d)
  {
    if d != [] && AllDigits(d) then Some(DigitsValue(d)) else None
  }

  /** An optional sign followed by digits. */
  function ParseSigned(t: string): (r: Option<int>)
  {
    if t == [] then None
    else if t[0] == '-' then
      match ParseDigits(t[1..])
      case Some(v) => Some(-(v as int))
      case None => None
    else if t[0] == '+' then ParseDigits(t[1..])
    else ParseDigits(t)
  }

  /**
   * `int(s)` as the query-argument conversion uses it: `None` stands for the
   * `ValueError` Python raises on text that is not an integer.
   */
  function ParseInt(s: string): (r: Option<int>)
    ensures r.Some? ==> Strip(s) != []
  {
    ParseSigned(Strip(s))
  }

  lemma StripUnchanged(s: string)
    requires s != [] && !IsSpace(s[0]) && !IsSpace(s[|s| - 1])
    ensures Strip(s) == s
  {
  }

  /** `int()` of a plain run of digits is its value. */
  lemma ParseDigitString(d: string)
    requires d != [] && AllDigits(d)
    ensures ParseInt(d) == Some(DigitsValue(d))
  {
    assert IsDigit(d[0]) && IsDigit(d[|d| - 1]);
    StripUnchanged(d);
  }

  /** `int()` of a minus sign and a run of digits is the negated value. */
  lemma ParseNegatedDigitString(d: string)
    requires d != [] && AllDigits(d)
    ensures ParseInt("-" + d) == Some(-(DigitsValue(d) as int))
  {
    var s := "-" + d;
    assert s[|s| - 1] == d[|d| - 1] && IsDigit(d[|d| - 1]);
    StripUnchanged(s);
    assert s[1..] == d;
  }

  /** `int('%d' % n) == n`: an id written into a link is read back unchanged. */
  lemma ParseIntOfIntToString(n: int)
    ensures ParseInt(IntToString(n)) == Some(n)
  {
    var m: nat := if n >= 0 then n else -n;
    DigitsValueOfNatToString(m);
    if n >= 0 {
      ParseDigitString(NatToString(m));
    } else {
      ParseNegatedDigitString(NatToString(m));
    }
  }

  /** Distinct ids give distinct link texts. */
  lemma IntToStringInjective(a: int, b: int)
    requires IntToString(a) == IntToString(b)
    ensures a == b
  {
    ParseIntOfIntToString(a);
    ParseIntOfIntToString(b);
  }
}
