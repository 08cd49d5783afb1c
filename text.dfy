/**
  The string operations the job service applies to header keys, codes and messages:
  JavaScript's `trim`, ASCII case mapping, the `/\s+/g` replacement, decimal rendering.
 */
module Text {

  /** JavaScript's white space and line terminators (the set `trim` and `\s` share). */
  predicate IsSpace(c: char)
  {
    || c == ' ' || c == '\t' || c == '\n' || c == '\r'
    || c == '\U{000B}' || c == '\U{000C}' || c == '\U{00A0}' || c == '\U{1680}'
    || ('\U{2000}' <= c <= '\U{200A}')
    || c == '\U{2028}' || c == '\U{2029}' || c == '\U{202F}' || c == '\U{205F}'
    || c == '\U{3000}' || c == '\U{FEFF}'
  }

  predicate NoSpace(s: string)
  {
    forall i :: 0 <= i < |s| ==> !IsSpace(s[i])
  }

  predicate IsUpper(c: char) { 'A' <= c <= 'Z' }
  predicate IsLower(c: char) { 'a' <= c <= 'z' }
  predicate IsDigit(c: char) { '0' <= c <= '9' }

  predicate NoUpper(s: string)
  {
    forall i :: 0 <= i < |s| ==> !IsUpper(s[i])
  }

  predicate NoLower(s: string)
  {
    forall i :: 0 <= i < |s| ==> !IsLower(s[i])
  }

  /** Drops leading white space: what is dropped is all white space, what remains
      is a suffix that does not start with white space. */
  function TrimStart(s: string): (r: string)
    ensures |r| <= |s| && r == s[|s| - |r|..]
    ensures r == [] || !IsSpace(r[0])
    ensures forall i :: 0 <= i < |s| - |r| ==> IsSpace(s[i])
  {
    if s != [] && IsSpace(s[0]) then TrimStart(s[1..]) else s
  }

  /** Drops trailing white space, symmetrically. */
  function TrimEnd(s: string): (r: string)
    ensures |r| <= |s| && r == s[..|r|]
    ensures r == [] || !IsSpace(r[|r| - 1])
    ensures forall i :: |r| <= i < |s| ==> IsSpace(s[i])
  {
    if s != [] && IsSpace(s[|s| - 1]) then TrimEnd(s[..|s| - 1]) else s
  }

  /** `s.trim()` */
  function Trim(s: string): string
  {
    TrimEnd(TrimStart(s))
  }

  /** JavaScript's `s.length`: the number of UTF-16 code units, two for a character
      outside the Basic Multilingual Plane. */
  function Utf16Length(s: string): (n: nat)
    ensures |s| <= n <= 2 * |s|
  {
    if s == [] then 0 else (if s[0] as int >= 0x1_0000 then 2 else 1) + Utf16Length(s[1..])
  }

  /** On text within the Basic Multilingual Plane the two lengths agree. */
  lemma {:induction false} Utf16LengthOfBmp(s: string)
    requires forall i :: 0 <= i < |s| ==> s[i] as int < 0x1_0000
    ensures Utf16Length(s) == |s|
  {
    if s != [] {
      Utf16LengthOfBmp(s[1..]);
    }
  }

  lemma TrimWithoutSpace(s: string)
    requires NoSpace(s)
    ensures Trim(s) == s
  {
    assert TrimStart(s) == s;
  }

  function LowerChar(c: char): (r: char)
  {
    if IsUpper(c) then (c as int + 32) as char else c
  }

  function UpperChar(c: char): (r: char)
  {
    if IsLower(c) then (c as int - 32) as char else c
  }

  /** `s.toLowerCase()` on ASCII letters: every character is mapped, none is left
      upper-case, and nothing but letters changes. */
  function ToLower(s: string): (r: string)
    ensures |r| == |s|
    ensures forall i :: 0 <= i < |s| ==> r[i] == LowerChar(s[i])
    ensures NoUpper(r)
    ensures forall i :: 0 <= i < |s| ==> (IsSpace(r[i]) <==> IsSpace(s[i]))
  {
    if s == [] then [] else [LowerChar(s[0])] + ToLower(s[1..])
  }

  /** `s.toUpperCase()` on ASCII letters. */
  function ToUpper(s: string): (r: string)
    ensures |r| == |s|
    ensures forall i :: 0 <= i < |s| ==> r[i] == UpperChar(s[i])
    ensures NoLower(r)
  {
    if s == [] then [] else [UpperChar(s[0])] + ToUpper(s[1..])
  }

  lemma {:induction false} ToLowerWithoutUpper(s: string)
    requires NoUpper(s)
    ensures ToLower(s) == s
  {
    if s != [] {
      ToLowerWithoutUpper(s[1..]);
    }
  }

  /** `s.replace(/\s+/g, '_')`: each maximal run of white space becomes one `_`,
      so the result holds no white space. */
  function CollapseSpaces(s: string): (r: string)
    ensures NoSpace(r)
    ensures |r| <= |s|
    decreases |s|
  {
    if s == [] then []
    else if IsSpace(s[0]) then
      var rest := CollapseSpaces(TrimStart(s[1..]));
      NoSpaceCons('_', rest);
      "_" + rest
    else
      var rest := CollapseSpaces(s[1..]);
      NoSpaceCons(s[0], rest);
      [s[0]] + rest
  }

  lemma NoSpaceCons(c: char, s: string)
    requires !IsSpace(c) && NoSpace(s)
    ensures NoSpace([c] + s)
  {
    forall i | 0 <= i < |[c] + s|
      ensures !IsSpace(([c] + s)[i])
    {
      if i > 0 {
        assert ([c] + s)[i] == s[i - 1];
      }
    }
  }

  /** Collapsing introduces only `_`, so it keeps "no upper-case letter". */
  lemma {:induction false} CollapseKeepsNoUpper(s: string)
    requires NoUpper(s)
    ensures NoUpper(CollapseSpaces(s))
    decreases |s|
  {
    if s == [] {
    } else if IsSpace(s[0]) {
      var t := TrimStart(s[1..]);
      assert forall i :: 0 <= i < |t| ==> t[i] == s[1..][|s[1..]| - |t| + i];
      CollapseKeepsNoUpper(t);
    } else {
      CollapseKeepsNoUpper(s[1..]);
    }
  }

  /** A string without white space is its own collapse. */
  lemma {:induction false} CollapseWithoutSpace(s: string)
    requires NoSpace(s)
    ensures CollapseSpaces(s) == s
  {
    if s != [] {
      CollapseWithoutSpace(s[1..]);
    }
  }

  /** Dropping leading white space from a run of white space followed by a string
      that does not start with white space leaves that string. */
  lemma {:induction false} TrimStartRun(w: string, y: string)
    requires forall i :: 0 <= i < |w| ==> IsSpace(w[i])
    requires y == [] || !IsSpace(y[0])
    ensures TrimStart(w + y) == y
  {
    if w != [] {
      assert (w + y)[1..] == w[1..] + y;
      TrimStartRun(w[1..], y);
    } else {
      assert w + y == y;
    }
  }

  /** The replacement run by run: text without white space is kept, and a maximal
      run of white space (non-empty, followed by text that does not start with
      white space) becomes exactly one `_`. Together with `CollapseWithoutSpace`
      this fixes the result on every string. */
  lemma CollapseRun(x: string, w: string, y: string)
    requires NoSpace(x)
    requires |w| > 0 && forall i :: 0 <= i < |w| ==> IsSpace(w[i])
    requires y == [] || !IsSpace(y[0])
    ensures CollapseSpaces(x + w + y) == x + "_" + CollapseSpaces(y)
  {
    CollapseRunAt(x, w, y, x + w + y);
  }

  /** `CollapseRun` on a string `s` split as `x + w + y`, by induction on `x`. */
  lemma {:induction false} CollapseRunAt(x: string, w: string, y: string, s: string)
    requires s == x + w + y && NoSpace(x)
    requires |w| > 0 && forall i :: 0 <= i < |w| ==> IsSpace(w[i])
    requires y == [] || !IsSpace(y[0])
    ensures CollapseSpaces(s) == x + "_" + CollapseSpaces(y)
    decreases |x|
  {
    if x == [] {
      assert s == w + y;
      CollapseLeadingRun(w, y);
    } else {
      var c := CollapseSpaces(y);
      assert CollapseSpaces(s[1..]) == x[1..] + "_" + c by {
        NoSpaceTail(x);
        assert s[1..] == x[1..] + w + y;
        CollapseRunAt(x[1..], w, y, s[1..]);
      }
      assert CollapseSpaces(s) == [x[0]] + CollapseSpaces(s[1..]) by {
        NoSpaceTail(x);
        assert s[0] == x[0];
        CollapseKeepsHead(s);
      }
      assert [x[0]] + (x[1..] + "_" + c) == x + "_" + c;
    }
  }

  lemma NoSpaceTail(x: string)
    requires x != [] && NoSpace(x)
    ensures !IsSpace(x[0]) && NoSpace(x[1..])
  {
    forall i | 0 <= i < |x| - 1
      ensures !IsSpace(x[1..][i])
    {
      assert x[1..][i] == x[i + 1];
    }
  }

  /** A leading run of white space becomes one `_`. */
  lemma CollapseLeadingRun(w: string, y: string)
    requires |w| > 0 && forall i :: 0 <= i < |w| ==> IsSpace(w[i])
    requires y == [] || !IsSpace(y[0])
    ensures CollapseSpaces(w + y) == "_" + CollapseSpaces(y)
  {
    assert (w + y)[0] == w[0];
    assert (w + y)[1..] == w[1..] + y;
    TrimStartRun(w[1..], y);
  }

  /** A character that is not white space is kept in front. */
  lemma CollapseKeepsHead(s: string)
    requires s != [] && !IsSpace(s[0])
    ensures CollapseSpaces(s) == [s[0]] + CollapseSpaces(s[1..])
  {
  }

  /** The canonical form of a header or payload key:
      `String(k).trim().toLowerCase().replace(/\s+/g, '_')`. */
  function NormalizeKey(k: string): (r: string)
  {
    CollapseSpaces(ToLower(Trim(k)))
  }

  /** A normalized key holds no white space and no upper-case letter, and a key of
      that shape (every allowed field name, for one) is its own normal form. */
  lemma NormalizeKeyShape(k: string)
    ensures NoSpace(NormalizeKey(k)) && NoUpper(NormalizeKey(k))
    ensures NoSpace(k) && NoUpper(k) ==> NormalizeKey(k) == k
  {
    CollapseKeepsNoUpper(ToLower(Trim(k)));
    if NoSpace(k) && NoUpper(k) {
      TrimWithoutSpace(k);
      ToLowerWithoutUpper(k);
      CollapseWithoutSpace(k);
    }
  }

  /** Normalizing twice gives what normalizing once gives. */
  lemma NormalizeKeyIdempotent(k: string)
    ensures NormalizeKey(NormalizeKey(k)) == NormalizeKey(k)
  {
    NormalizeKeyShape(k);
    NormalizeKeyShape(NormalizeKey(k));
  }

  function DigitChar(d: nat): (c: char)
    requires d < 10
    ensures IsDigit(c)
  {
    ('0' as int + d) as char
  }

  /** The number a string of decimal digits denotes. */
  function DigitsValue(s: string): nat
    requires forall i :: 0 <= i < |s| ==> IsDigit(s[i])
  {
    if s == [] then 0
    else
      assert IsDigit(s[|s| - 1]);
      DigitsValue(s[..|s| - 1]) * 10 + (s[|s| - 1] as int - '0' as int)
  }

  /** Decimal rendering of a natural number, as a template literal prints it: a
      non-empty string of digits, with no leading zero unless it is "0". */
  function NatStr(n: nat): (r: string)
    ensures |r| >= 1
    ensures forall i :: 0 <= i < |r| ==> IsDigit(r[i])
    ensures r[0] == '0' ==> n == 0
  {
    if n < 10 then [DigitChar(n)] else NatStr(n / 10) + [DigitChar(n % 10)]
  }

  /** Reading the rendering back gives the number: `NatStr` is the decimal
      representation of `n`, and so distinct numbers render differently. */
  lemma {:induction false} NatStrValue(n: nat)
    ensures DigitsValue(NatStr(n)) == n
  {
    if n >= 10 {
      var s := NatStr(n);
      assert s[..|s| - 1] == NatStr(n / 10);
      NatStrValue(n / 10);
    }
  }

  /** Decimal rendering of an integer. */
  function IntStr(i: int): string
  {
    if i < 0 then "-" + NatStr(-i) else NatStr(i)
  }
}
