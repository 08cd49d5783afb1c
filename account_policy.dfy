/**
  The account service's two regular expressions, `USERNAME_REGEX` and
  `PASSWORD_REGEX`, each read two ways: as the pattern is built (character
  classes, a counted repetition, look-aheads) and as the rule it states (a length
  range, the characters allowed, the characters required). The two readings are
  proved to agree.
 */
module AccountPolicy {
  import opened Text

  // ---------------------------------------------------------------------------
  // The pattern, piece by piece

  /** `cls{lo,hi}` anchored at both ends: between lo and hi characters, each in
      the class. */
  predicate Counted(t: string, cls: char -> bool, lo: nat, hi: nat)
    decreases |t|
  {
    if |t| == 0 then lo == 0
    else hi > 0 && cls(t[0]) && Counted(t[1..], cls, if lo > 0 then lo - 1 else 0, hi - 1)
  }

  /** `cls{lo,}` anchored at the end: at least lo characters, each in the class. */
  predicate AtLeast(t: string, cls: char -> bool, lo: nat)
    decreases |t|
  {
    if |t| == 0 then lo == 0
    else cls(t[0]) && AtLeast(t[1..], cls, if lo > 0 then lo - 1 else 0)
  }

  /** JavaScript's line terminators, which `.` does not match. */
  predicate LineTerminator(c: char)
  {
    c == '\n' || c == '\r' || c == '\U{2028}' || c == '\U{2029}'
  }

  /** The look-ahead `(?=.*cls)` at the start of `t`. */
  predicate LooksAhead(t: string, cls: char -> bool)
    decreases |t|
  {
    |t| > 0 && (cls(t[0]) || (!LineTerminator(t[0]) && LooksAhead(t[1..], cls)))
  }

  lemma {:induction false} CountedMeaning(t: string, cls: char -> bool, lo: nat, hi: nat)
    ensures Counted(t, cls, lo, hi) <==> lo <= |t| <= hi && forall i :: 0 <= i < |t| ==> cls(t[i])
    decreases |t|
  {
    if |t| > 0 && hi > 0 {
      CountedMeaning(t[1..], cls, if lo > 0 then lo - 1 else 0, hi - 1);
      assert forall i :: 0 < i < |t| ==> t[i] == t[1..][i - 1];
    }
  }

  lemma {:induction false} AtLeastMeaning(t: string, cls: char -> bool, lo: nat)
    ensures AtLeast(t, cls, lo) <==> lo <= |t| && forall i :: 0 <= i < |t| ==> cls(t[i])
    decreases |t|
  {
    if |t| > 0 {
      AtLeastMeaning(t[1..], cls, if lo > 0 then lo - 1 else 0);
      assert forall i :: 0 < i < |t| ==> t[i] == t[1..][i - 1];
    }
  }

  /** On a string without line terminators the look-ahead finds any character of
      the class. */
  lemma {:induction false} LooksAheadMeaning(t: string, cls: char -> bool)
    requires forall i :: 0 <= i < |t| ==> !LineTerminator(t[i])
    ensures LooksAhead(t, cls) <==> exists i :: 0 <= i < |t| && cls(t[i])
    decreases |t|
  {
    if |t| > 0 {
      assert forall i :: 0 < i < |t| ==> t[i] == t[1..][i - 1];
      LooksAheadMeaning(t[1..], cls);
      if LooksAhead(t[1..], cls) {
        var i :| 0 <= i < |t[1..]| && cls(t[1..][i]);
        assert cls(t[i + 1]);
      }
      if !cls(t[0]) && exists i :: 0 <= i < |t| && cls(t[i]) {
        var i :| 0 <= i < |t| && cls(t[i]);
        assert cls(t[1..][i - 1]);
      }
    }
  }

  // ---------------------------------------------------------------------------
  // USERNAME_REGEX: ^[a-z][a-z0-9_]{3,19}$

  predicate UsernameTail(c: char)
  {
    IsLower(c) || IsDigit(c) || c == '_'
  }

  /** The username pattern as written. */
  predicate MatchesUsername(s: string)
  {
    |s| > 0 && IsLower(s[0]) && Counted(s[1..], UsernameTail, 3, 19)
  }

  /** The username rule: 4 to 20 characters, lower-case letters, digits and
      underscores, the first a letter. */
  predicate UsernameOk(s: string)
  {
    && 4 <= |s| <= 20
    && IsLower(s[0])
    && forall i :: 1 <= i < |s| ==> UsernameTail(s[i])
  }

  lemma UsernamePolicy(s: string)
    ensures MatchesUsername(s) <==> UsernameOk(s)
  {
    if |s| > 0 {
      CountedMeaning(s[1..], UsernameTail, 3, 19);
      assert forall i :: 1 <= i < |s| ==> s[i] == s[1..][i - 1];
    }
  }

  // ---------------------------------------------------------------------------
  // PASSWORD_REGEX:
  //   ^(?=.*[a-z])(?=.*[A-Z])(?=.*\d)(?=.*[@$!%*?&#^()_+\-=[\]{}|;:,.<>])
  //   [A-Za-z\d@$!%*?&#^()_+\-=[\]{}|;:,.<>]{12,}$

  /** The symbol class of the password pattern. */
  predicate IsSymbol(c: char)
  {
    || c == '@' || c == '$' || c == '!' || c == '%' || c == '*' || c == '?' || c == '&'
    || c == '#' || c == '^' || c == '(' || c == ')' || c == '_' || c == '+' || c == '-'
    || c == '=' || c == '[' || c == ']' || c == '{' || c == '}' || c == '|' || c == ';'
    || c == ':' || c == ',' || c == '.' || c == '<' || c == '>'
  }

  /** The characters a password may contain (`\d` being the ASCII digits). */
  predicate PasswordChar(c: char)
  {
    IsLower(c) || IsUpper(c) || IsDigit(c) || IsSymbol(c)
  }

  /** The password pattern as written. */
  predicate MatchesPassword(s: string)
  {
    && LooksAhead(s, IsLower) && LooksAhead(s, IsUpper) && LooksAhead(s, IsDigit) && LooksAhead(s, IsSymbol)
    && AtLeast(s, PasswordChar, 12)
  }

  /** The password rule: at least 12 allowed characters, among them a lower-case
      letter, an upper-case letter, a digit and a symbol. */
  predicate PasswordOk(s: string)
  {
    && |s| >= 12
    && (forall i :: 0 <= i < |s| ==> PasswordChar(s[i]))
    && (exists i :: 0 <= i < |s| && IsLower(s[i]))
    && (exists i :: 0 <= i < |s| && IsUpper(s[i]))
    && (exists i :: 0 <= i < |s| && IsDigit(s[i]))
    && (exists i :: 0 <= i < |s| && IsSymbol(s[i]))
  }

  lemma PasswordPolicy(s: string)
    ensures MatchesPassword(s) <==> PasswordOk(s)
  {
    AtLeastMeaning(s, PasswordChar, 12);
    if AtLeast(s, PasswordChar, 12) {
      assert forall i :: 0 <= i < |s| ==> !LineTerminator(s[i]) by {
        forall i | 0 <= i < |s|
          ensures !LineTerminator(s[i])
        {
          assert PasswordChar(s[i]);
        }
      }
      LooksAheadMeaning(s, IsLower);
      LooksAheadMeaning(s, IsUpper);
      LooksAheadMeaning(s, IsDigit);
      LooksAheadMeaning(s, IsSymbol);
    }
  }

  // ---------------------------------------------------------------------------
  // SYMBOLS, the symbols generated passwords draw from

  const Symbols: string := "!@#$%^&*()_+-=[]{}|;:,.<>?"

  /** The symbols the generator draws from are exactly the pattern's symbol class. */
  lemma SymbolsAreTheSymbolClass(c: char)
    ensures c in Symbols <==> IsSymbol(c)
  {
    if IsSymbol(c) {
      assert c == '@' ==> Symbols[1] == c;
    }
  }

  /** A password put together as the generator does it (an upper-case letter, a
      lower-case letter, a digit and a symbol, filled up with any of them to at
      least 12 characters) always passes the password rule. */
  lemma GeneratedShapePasses(s: string, u: nat, l: nat, d: nat, y: nat)
    requires |s| >= 12
    requires u < |s| && IsUpper(s[u]) && l < |s| && IsLower(s[l])
    requires d < |s| && IsDigit(s[d]) && y < |s| && s[y] in Symbols
    requires forall i :: 0 <= i < |s| ==> IsUpper(s[i]) || IsLower(s[i]) || IsDigit(s[i]) || s[i] in Symbols
    ensures PasswordOk(s)
  {
    forall i | 0 <= i < |s|
      ensures PasswordChar(s[i])
    {
      SymbolsAreTheSymbolClass(s[i]);
    }
    SymbolsAreTheSymbolClass(s[y]);
  }
}
