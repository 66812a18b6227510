/** Normalisation of the letter a player submits: surrounding whitespace is
    stripped and the rest is upper-cased; only "S" and "O" are accepted.
    Whitespace and case are the ASCII ones. */
module Letters {
  import opened Grid
  import opened Board

  /** The ASCII characters the source's strip removes: space, tab, line
      feed, vertical tab, form feed, carriage return and the four
      information separators U+001C to U+001F. */
  predicate IsSpace(ch: char) {
    || ch == ' ' || ch == '\t' || ch == '\n' || ch == '\r' || ch == '\U{000C}' || ch == '\U{000B}'
    || ('\U{001C}' <= ch <= '\U{001F}')
  }

  /** Drops the leading whitespace. */
  function StripLeft(s: string): (t: string)
    ensures |t| <= |s| && t == s[|s| - |t|..]
    ensures forall i :: 0 <= i < |s| - |t| ==> IsSpace(s[i])
    ensures t == [] || !IsSpace(t[0])
  {
    if s != [] && IsSpace(s[0]) then StripLeft(s[1..]) else s
  }

  /** Drops the trailing whitespace. */
  function StripRight(s: string): (t: string)
    ensures |t| <= |s| && t == s[..|t|]
    ensures forall i :: |t| <= i < |s| ==> IsSpace(s[i])
    ensures t == [] || !IsSpace(t[|t| - 1])
  {
    if s != [] && IsSpace(s[|s| - 1]) then StripRight(s[..|s| - 1]) else s
  }

  /** `s` without its leading and trailing whitespace. */
  function Strip(s: string): string {
    StripRight(StripLeft(s))
  }

  /** `t` is the slice of `s` from `k` on that neither starts nor ends with
      whitespace and has only whitespace around it. */
  predicate Trimmed(s: string, k: int, t: string) {
    && 0 <= k && k + |t| <= |s|
    && t == s[k..k + |t|]
    && (forall i :: 0 <= i < k ==> IsSpace(s[i]))
    && (forall i :: k + |t| <= i < |s| ==> IsSpace(s[i]))
    && (t == [] || (!IsSpace(t[0]) && !IsSpace(t[|t| - 1])))
  }

  /** Stripping leaves the trimmed slice of `s` past its leading
      whitespace. */
  lemma StripIsTrimmedSlice(s: string)
    ensures Trimmed(s, |s| - |StripLeft(s)|, Strip(s))
  {
    StripSlices(s, StripLeft(s), StripRight(StripLeft(s)));
  }

  /** A prefix of a suffix of `s`, with whitespace cut from both ends, is
      the slice of `s` between the cuts. */
  lemma StripSlices(s: string, left: string, t: string)
    requires |left| <= |s| && left == s[|s| - |left|..]
    requires forall i :: 0 <= i < |s| - |left| ==> IsSpace(s[i])
    requires |t| <= |left| && t == left[..|t|]
    requires forall i :: |t| <= i < |left| ==> IsSpace(left[i])
    requires left == [] || !IsSpace(left[0])
    requires t == [] || !IsSpace(t[|t| - 1])
    ensures Trimmed(s, |s| - |left|, t)
  {
    var k := |s| - |left|;
    assert t != [] ==> t[0] == left[0];
    assert t == s[k..k + |t|];
    forall i | k + |t| <= i < |s|
      ensures IsSpace(s[i])
    {
      assert s[i] == left[i - k];
    }
  }

  function UpperChar(ch: char): (u: char)
    ensures 'a' <= ch <= 'z' ==> u as int == ch as int - 32
    ensures !('a' <= ch <= 'z') ==> u == ch
  {
    if 'a' <= ch <= 'z' then (ch as int - 32) as char else ch
  }

  function Upper(s: string): (t: string)
    ensures |t| == |s|
    ensures forall i :: 0 <= i < |s| ==> t[i] == UpperChar(s[i])
    ensures forall i :: 0 <= i < |t| ==> !('a' <= t[i] <= 'z')
  {
    seq(|s|, i requires 0 <= i < |s| => UpperChar(s[i]))
  }

  /** Upper-casing twice is upper-casing once, and it leaves text without
      lower-case letters as it is. */
  lemma UpperIdempotent(s: string)
    ensures Upper(Upper(s)) == Upper(s)
    ensures (forall i :: 0 <= i < |s| ==> !('a' <= s[i] <= 'z')) ==> Upper(s) == s
  {
    assert forall i :: 0 <= i < |s| ==> Upper(Upper(s))[i] == Upper(s)[i];
  }

  /** The letter `s` names after normalisation, or `None` when it names
      neither "S" nor "O". */
  function ParseLetter(s: string): (l: Option<Letter>)
    ensures l == Some(S) <==> Strip(s) == "S" || Strip(s) == "s"
    ensures l == Some(O) <==> Strip(s) == "O" || Strip(s) == "o"
  {
    var t := Upper(Strip(s));
    if t == "S" then Some(S) else if t == "O" then Some(O) else None
  }

  /** The text of a letter as the board shows it. */
  function LetterText(l: Letter): string {
    if l == S then "S" else "O"
  }

  /** Parsing a letter's own text, or that text with blanks and lower case,
      gives the letter back. */
  lemma ParseLetterText(l: Letter, pad: string)
    requires forall i :: 0 <= i < |pad| ==> IsSpace(pad[i])
    ensures ParseLetter(LetterText(l)) == Some(l)
    ensures ParseLetter(pad + LetterText(l) + pad) == Some(l)
  {
    var t := pad + LetterText(l) + pad;
    StripAround(pad, LetterText(l));
  }

  /** Surrounding a word that neither starts nor ends with whitespace by
      whitespace and stripping gives the word back. */
  lemma {:induction false} StripAround(pad: string, w: string)
    requires forall i :: 0 <= i < |pad| ==> IsSpace(pad[i])
    requires w != [] && !IsSpace(w[0]) && !IsSpace(w[|w| - 1])
    ensures Strip(pad + w + pad) == w
  {
    StripLeftPad(pad, w + pad);
    assert pad + w + pad == pad + (w + pad);
    StripRightPad(w, pad);
  }

  lemma {:induction false} StripLeftPad(pad: string, w: string)
    requires forall i :: 0 <= i < |pad| ==> IsSpace(pad[i])
    requires w != [] && !IsSpace(w[0])
    ensures StripLeft(pad + w) == w
  {
    if pad != [] {
      assert (pad + w)[1..] == pad[1..] + w;
      StripLeftPad(pad[1..], w);
    } else {
      assert pad + w == w;
    }
  }

  lemma {:induction false} StripRightPad(w: string, pad: string)
    requires forall i :: 0 <= i < |pad| ==> IsSpace(pad[i])
    requires w != [] && !IsSpace(w[|w| - 1])
    ensures StripRight(w + pad) == w
  {
    if pad != [] {
      assert (w + pad)[..|w + pad| - 1] == w + pad[..|pad| - 1];
      StripRightPad(w, pad[..|pad| - 1]);
    } else {
      assert w + pad == w;
    }
  }
}
