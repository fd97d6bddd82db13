/** Text normalisation of exchanges, symbols and product codes. */
module PaperText {

  predicate IsSpace(c: char) {
    c == ' ' || c == '\t' || c == '\n' || c == '\r' || c == '\U{0B}' || c == '\U{0C}'
  }

  function UpperChar(c: char): char {
    if 'a' <= c <= 'z' then c - 'a' + 'A' else c
  }

  function ToUpper(s: string): string {
    if s == "" then "" else [UpperChar(s[0])] + ToUpper(s[1..])
  }

  function TrimLeft(s: string): string {
    if s != "" && IsSpace(s[0]) then TrimLeft(s[1..]) else s
  }

  function TrimRight(s: string): string {
    if s != "" && IsSpace(s[|s| - 1]) then TrimRight(s[..|s| - 1]) else s
  }

  function TrimSpace(s: string): string {
    TrimRight(TrimLeft(s))
  }

  /** NormalizePaperSymbol and NormalizePaperExchange: trim, then upper-case. */
  function Normalize(s: string): string {
    ToUpper(TrimSpace(s))
  }

  /** No space at either end: exactly the strings that trimming leaves alone. */
  predicate Trimmed(s: string) {
    s == "" || (!IsSpace(s[0]) && !IsSpace(s[|s| - 1]))
  }

  lemma {:induction false} ToUpperAt(s: string)
    ensures |ToUpper(s)| == |s|
    ensures forall i :: 0 <= i < |s| ==> ToUpper(s)[i] == UpperChar(s[i])
  {
    if s != "" {
      ToUpperAt(s[1..]);
    }
  }

  lemma {:induction false} TrimLeftTrims(s: string)
    ensures TrimLeft(s) == "" || !IsSpace(TrimLeft(s)[0])
    ensures |TrimLeft(s)| <= |s| && TrimLeft(s) == s[|s| - |TrimLeft(s)|..]
  {
    if s != "" && IsSpace(s[0]) {
      TrimLeftTrims(s[1..]);
    }
  }

  lemma {:induction false} TrimRightTrims(s: string)
    ensures TrimRight(s) == "" || !IsSpace(TrimRight(s)[|TrimRight(s)| - 1])
    ensures TrimRight(s) <= s
  {
    if s != "" && IsSpace(s[|s| - 1]) {
      TrimRightTrims(s[..|s| - 1]);
    }
  }

  /** Trimming gives trimmed text, and leaves trimmed text alone. */
  lemma TrimSpaceTrims(s: string)
    ensures Trimmed(TrimSpace(s))
    ensures Trimmed(s) ==> TrimSpace(s) == s
  {
    TrimLeftTrims(s);
    TrimRightTrims(TrimLeft(s));
  }

  lemma ToUpperTwice(s: string)
    ensures ToUpper(ToUpper(s)) == ToUpper(s)
  {
    ToUpperAt(s);
    ToUpperAt(ToUpper(s));
  }

  /** Normalising is idempotent, so a stored key compares equal to the key it was
      normalised from, and one more upper-casing in SQL changes nothing. */
  lemma NormalizeTwice(s: string)
    ensures Normalize(Normalize(s)) == Normalize(s)
    ensures ToUpper(Normalize(s)) == Normalize(s)
  {
    var t := TrimSpace(s);
    TrimSpaceTrims(s);
    ToUpperTwice(t);
    ToUpperAt(t);
    assert Trimmed(ToUpper(t));
    TrimSpaceTrims(ToUpper(t));
  }

  // ---------- what normalising keeps apart ----------

  predicate Blank(s: string) {
    forall i :: 0 <= i < |s| ==> s[i] in " \t\n\r\U{0B}\U{0C}"
  }

  /** Equal, or one letter in its two cases. */
  predicate SameLetter(c: char, d: char) {
    || c == d
    || ('a' <= c <= 'z' && d as int == c as int - 32)
    || ('A' <= c <= 'Z' && d as int == c as int + 32)
  }

  predicate SameLetters(s: string, t: string) {
    |s| == |t| && forall i :: 0 <= i < |s| ==> SameLetter(s[i], t[i])
  }

  /** The texts differ only in the case of letters and in blanks at the ends. */
  ghost predicate SameText(s: string, t: string) {
    exists l, x, r, l', y, r' :: Padded(s, l, x, r) && Padded(t, l', y, r') && SameLetters(x, y)
  }

  predicate Padded(s: string, l: string, x: string, r: string) {
    s == l + x + r && Blank(l) && Blank(r)
  }

  lemma {:induction false} TrimLeftSkips(l: string, x: string)
    requires Blank(l)
    ensures TrimLeft(l + x) == TrimLeft(x)
  {
    if l == "" {
      assert l + x == x;
    } else {
      assert (l + x)[1..] == l[1..] + x;
      TrimLeftSkips(l[1..], x);
    }
  }

  lemma {:induction false} TrimRightSkips(x: string, r: string)
    requires Blank(r)
    ensures TrimRight(x + r) == TrimRight(x)
  {
    if r == "" {
      assert x + r == x;
    } else {
      var front := r[..|r| - 1];
      assert (x + r)[..|x + r| - 1] == x + front;
      TrimRightSkips(x, front);
    }
  }

  /** Either trimming meets something that is not blank before r, or all of it was blank. */
  lemma {:induction false} TrimLeftStops(x: string, r: string)
    requires Blank(r)
    ensures TrimLeft(x + r) == TrimLeft(x) + r || (TrimLeft(x) == "" && TrimLeft(x + r) == "")
  {
    if x == "" {
      assert x + r == r && r + "" == r;
      TrimLeftSkips(r, "");
    } else if IsSpace(x[0]) {
      assert (x + r)[1..] == x[1..] + r;
      TrimLeftStops(x[1..], r);
    }
  }

  lemma PaddingIsTrimmed(s: string, l: string, x: string, r: string)
    requires Padded(s, l, x, r)
    ensures TrimSpace(s) == TrimSpace(x)
  {
    assert s == l + (x + r);
    TrimLeftSkips(l, x + r);
    TrimLeftStops(x, r);
    TrimRightSkips(TrimLeft(x), r);
  }

  lemma {:induction false} TrimLeftAlike(x: string, y: string)
    requires SameLetters(x, y)
    ensures SameLetters(TrimLeft(x), TrimLeft(y))
  {
    if x != "" && IsSpace(x[0]) {
      TrimLeftAlike(x[1..], y[1..]);
    }
  }

  lemma {:induction false} TrimRightAlike(x: string, y: string)
    requires SameLetters(x, y)
    ensures SameLetters(TrimRight(x), TrimRight(y))
  {
    if x != "" && IsSpace(x[|x| - 1]) {
      TrimRightAlike(x[..|x| - 1], y[..|y| - 1]);
    }
  }

  /** Upper-casing maps exactly the two cases of a letter together. */
  lemma SameLetterIff(c: char, d: char)
    ensures UpperChar(c) == UpperChar(d) <==> SameLetter(c, d)
    ensures !('a' <= UpperChar(c) <= 'z')
  {
  }

  lemma SameLettersIff(x: string, y: string)
    ensures ToUpper(x) == ToUpper(y) <==> SameLetters(x, y)
  {
    hide UpperChar, SameLetter;
    ToUpperAt(x);
    ToUpperAt(y);
    forall c: char, d: char ensures UpperChar(c) == UpperChar(d) <==> SameLetter(c, d) {
      SameLetterIff(c, d);
    }
    hide ToUpper;
    if ToUpper(x) == ToUpper(y) {
      assert forall i :: 0 <= i < |x| ==> ToUpper(x)[i] == ToUpper(y)[i];
    }
  }

  lemma BlankGrows(c: char, s: string)
    requires IsSpace(c) && Blank(s)
    ensures Blank([c] + s) && Blank(s + [c])
  {
  }

  lemma {:induction false} TrimLeftPads(s: string) returns (l: string)
    ensures s == l + TrimLeft(s) && Blank(l)
  {
    if s != "" && IsSpace(s[0]) {
      hide Blank, IsSpace;
      var rest := TrimLeftPads(s[1..]);
      BlankGrows(s[0], rest);
      l := [s[0]] + rest;
    } else {
      l := "";
    }
  }

  lemma {:induction false} TrimRightPads(s: string) returns (r: string)
    ensures s == TrimRight(s) + r && Blank(r)
  {
    if s != "" && IsSpace(s[|s| - 1]) {
      hide Blank, IsSpace;
      var rest := TrimRightPads(s[..|s| - 1]);
      BlankGrows(s[|s| - 1], rest);
      r := rest + [s[|s| - 1]];
    } else {
      r := "";
    }
  }

  lemma TrimSpacePads(s: string) returns (l: string, r: string)
    ensures Padded(s, l, TrimSpace(s), r)
  {
    l := TrimLeftPads(s);
    r := TrimRightPads(TrimLeft(s));
  }

  /** Two texts normalise alike if and only if they differ only in the case of letters and in
      blanks at the ends; and no lower-case letter is left. */
  lemma NormalizeAlikeIff(s: string, t: string)
    ensures Normalize(s) == Normalize(t) <==> SameText(s, t)
    ensures forall i :: 0 <= i < |Normalize(s)| ==> !('a' <= Normalize(s)[i] <= 'z')
  {
    ToUpperAt(TrimSpace(s));
    hide TrimSpace, ToUpper, SameLetters, Padded;
    if SameText(s, t) {
      var l, x, r, l', y, r' :| Padded(s, l, x, r) && Padded(t, l', y, r') && SameLetters(x, y);
      PaddingIsTrimmed(s, l, x, r);
      PaddingIsTrimmed(t, l', y, r');
      TrimSpaceAlike(x, y);
      SameLettersIff(TrimSpace(x), TrimSpace(y));
    }
    if Normalize(s) == Normalize(t) {
      var l, r := TrimSpacePads(s);
      var l', r' := TrimSpacePads(t);
      SameLettersIff(TrimSpace(s), TrimSpace(t));
    }
  }

  lemma TrimSpaceAlike(x: string, y: string)
    requires SameLetters(x, y)
    ensures SameLetters(TrimSpace(x), TrimSpace(y))
  {
    TrimLeftAlike(x, y);
    TrimRightAlike(TrimLeft(x), TrimLeft(y));
  }
}
