/** The three JavaScript string operations the quiz relies on:
    `String.prototype.trim`, `toLowerCase` and `includes`. */
module JsString {

  /** The code points `trim` removes: ECMAScript's WhiteSpace (tab, vertical tab,
      form feed, space, no-break space, byte order mark and every other Unicode
      space separator) and LineTerminator (line feed, carriage return, line and
      paragraph separators). */
  predicate IsWhitespace(c: char) {
    c == '\t' || c == '\n' || c == '\U{000B}' || c == '\U{000C}' || c == '\r' || c == ' '
    || c == '\U{00A0}' || c == '\U{1680}' || ('\U{2000}' <= c <= '\U{200A}')
    || c == '\U{2028}' || c == '\U{2029}' || c == '\U{202F}' || c == '\U{205F}'
    || c == '\U{3000}' || c == '\U{FEFF}'
  }

  predicate AllWhitespace(s: string) {
    forall k :: 0 <= k < |s| ==> IsWhitespace(s[k])
  }

  /** How many whitespace characters `s` starts with. */
  function LeadingWhitespace(s: string): (n: nat)
    ensures n <= |s| && AllWhitespace(s[..n])
    ensures n < |s| ==> !IsWhitespace(s[n])
  {
    if s != [] && IsWhitespace(s[0]) then
      var n := 1 + LeadingWhitespace(s[1..]);
      assert s[1..][..n - 1] == s[1..n];
      n
    else 0
  }

  /** How many whitespace characters `s` ends with. */
  function TrailingWhitespace(s: string): (n: nat)
    ensures n <= |s| && AllWhitespace(s[|s| - n..])
    ensures n < |s| ==> !IsWhitespace(s[|s| - n - 1])
  {
    if s != [] && IsWhitespace(s[|s| - 1]) then
      var n := 1 + TrailingWhitespace(s[..|s| - 1]);
      assert s[..|s| - 1][|s| - n..] == s[|s| - n..|s| - 1];
      n
    else 0
  }

  /** `s.trim()`: the piece of `s` between its leading and its trailing whitespace. */
  function Trim(s: string): string {
    var i := LeadingWhitespace(s);
    s[i..|s| - TrailingWhitespace(s[i..])]
  }

  /** `s.trim()` removes only whitespace, and only at the two ends: what is left is a
      piece of `s` with no whitespace at either end, empty exactly when `s` is all
      whitespace. */
  lemma TrimSpec(s: string)
    ensures exists i :: (0 <= i <= |s| - |Trim(s)| && Trim(s) == s[i..i + |Trim(s)|]
                         && AllWhitespace(s[..i]) && AllWhitespace(s[i + |Trim(s)|..]))
    ensures Trim(s) != [] ==> !IsWhitespace(Trim(s)[0]) && !IsWhitespace(Trim(s)[|Trim(s)| - 1])
    ensures Trim(s) == [] <==> AllWhitespace(s)
  {
    var r := Trim(s);
    var i := LeadingWhitespace(s);
    var j := |s| - TrailingWhitespace(s[i..]);
    assert r == s[i..j];
    assert s[i..][j - i..] == s[j..];
    assert AllWhitespace(s) ==> i == |s|;
    if i < |s| {
      assert s[i..][0] == s[i];
      assert r[0] == s[i];
      assert r[|r| - 1] == s[i..][|s| - i - TrailingWhitespace(s[i..]) - 1];
    } else {
      forall k | 0 <= k < |s| ensures IsWhitespace(s[k]) {
        assert s[k] == s[..i][k];
      }
    }
  }

  /** `s.trim()` is idempotent. */
  lemma TrimIdempotent(s: string)
    ensures Trim(Trim(s)) == Trim(s)
  {
    TrimSpec(s);
    var r := Trim(s);
    if r != [] {
      assert LeadingWhitespace(r) == 0;
      assert r[0..] == r;
      assert TrailingWhitespace(r) == 0;
      assert r[0..|r|] == r;
    }
  }

  predicate IsAsciiUpper(c: char) { 'A' <= c <= 'Z' }

  /** `toLowerCase` on one character, restricted to ASCII case folding. */
  function LowerChar(c: char): char {
    if IsAsciiUpper(c) then (c as int + 32) as char else c
  }

  /** `s.toLowerCase()` with ASCII case folding. */
  function ToLower(s: string): (r: string)
    ensures |r| == |s|
  {
    if s == [] then [] else [LowerChar(s[0])] + ToLower(s[1..])
  }

  /** Lower-casing keeps the length, folds the 26 capitals to their small letters, keeps
      every other character, and leaves no capital behind. */
  lemma {:induction false} ToLowerSpec(s: string)
    ensures |ToLower(s)| == |s|
    ensures forall k :: 0 <= k < |s| ==> ToLower(s)[k] == LowerChar(s[k])
    ensures forall k :: 0 <= k < |s| ==> !IsAsciiUpper(ToLower(s)[k])
    ensures forall k :: 0 <= k < |s| && IsAsciiUpper(s[k]) ==> ToLower(s)[k] as int == s[k] as int + 32
    ensures forall k :: 0 <= k < |s| && !IsAsciiUpper(s[k]) ==> ToLower(s)[k] == s[k]
  {
    if s != [] {
      ToLowerSpec(s[1..]);
      forall k | 0 <= k < |s| ensures ToLower(s)[k] == LowerChar(s[k]) {
        if k > 0 { assert ToLower(s)[k] == ToLower(s[1..])[k - 1]; }
      }
    }
  }

  /** Folding commutes with taking a piece of the string. */
  lemma ToLowerSlice(s: string, i: nat, j: nat)
    requires i <= j <= |s|
    ensures ToLower(s)[i..j] == ToLower(s[i..j])
  {
    ToLowerSpec(s);
    ToLowerSpec(s[i..j]);
  }

  /** Folding twice is folding once. */
  lemma ToLowerIdempotent(s: string)
    ensures ToLower(ToLower(s)) == ToLower(s)
  {
    ToLowerSpec(s);
    ToLowerSpec(ToLower(s));
  }

  /** `t` occurs in `s` starting at index `i`. */
  predicate OccursAt(s: string, t: string, i: nat) {
    i + |t| <= |s| && s[i..i + |t|] == t
  }

  /** `s.includes(t)`, searching from the front. */
  function Includes(s: string, t: string): bool
    decreases |s|
  {
    if |t| > |s| then false
    else if s[..|t|] == t then true
    else Includes(s[1..], t)
  }

  /** `s.includes(t)` holds exactly when some window of `s` spells `t` (so the empty
      string is found in every string). */
  lemma {:induction false} IncludesSpec(s: string, t: string)
    ensures Includes(s, t) <==> exists i: nat :: OccursAt(s, t, i)
    decreases |s|
  {
    if |t| > |s| {
    } else if s[..|t|] == t {
      assert OccursAt(s, t, 0);
    } else {
      IncludesSpec(s[1..], t);
      forall i: nat ensures OccursAt(s[1..], t, i) <==> OccursAt(s, t, i + 1) {
        if i + 1 + |t| <= |s| { assert s[1..][i..i + |t|] == s[i + 1..i + 1 + |t|]; }
      }
      if exists i: nat :: OccursAt(s, t, i) {
        var i: nat :| OccursAt(s, t, i);
        assert i != 0;
        assert OccursAt(s[1..], t, i - 1);
      }
    }
  }
}
