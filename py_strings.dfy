/** The two pieces of Python's `str` behaviour the core relies on:
    `str.split()` with no separator (used on `dt_txt`) and the
    `str.isdigit()` / `int()` pair (used on the `days` query argument). */
module PyStrings {

  /** `str.isspace()` for one character: the characters CPython treats as
      whitespace when `split()` is called without a separator. */
  predicate IsSpace(c: char) {
    c == ' ' || ('\t' <= c <= '\r') || ('\U{1C}' <= c <= '\U{1F}')
    || c == '\U{85}' || c == '\U{A0}' || c == '\U{1680}'
    || ('\U{2000}' <= c <= '\U{200A}') || c == '\U{2028}' || c == '\U{2029}'
    || c == '\U{202F}' || c == '\U{205F}' || c == '\U{3000}'
  }

  /** A token of `split()`: non-empty and free of whitespace. */
  predicate IsWord(w: string) {
    w != [] && forall k :: 0 <= k < |w| ==> !IsSpace(w[k])
  }

  /** Length of the word that starts `s`. */
  function WordLength(s: string): (n: nat)
    requires s != [] && !IsSpace(s[0])
    ensures 0 < n <= |s|
    ensures forall k :: 0 <= k < n ==> !IsSpace(s[k])
    ensures n < |s| ==> IsSpace(s[n])
  {
    if |s| == 1 || IsSpace(s[1]) then 1 else 1 + WordLength(s[1..])
  }

  /** Python's `s.split()`: the maximal runs of non-whitespace, in order. */
  function Split(s: string): (r: seq<string>)
    ensures forall k :: 0 <= k < |r| ==> IsWord(r[k])
    decreases |s|
  {
    if s == [] then []
    else if IsSpace(s[0]) then Split(s[1..])
    else
      var n := WordLength(s);
      [s[..n]] + Split(s[n..])
  }

  /** `s` with its whitespace characters removed. */
  function NonSpace(s: string): (r: string)
    ensures |r| <= |s|
    ensures forall k :: 0 <= k < |r| ==> !IsSpace(r[k])
  {
    if s == [] then []
    else (if IsSpace(s[0]) then [] else [s[0]]) + NonSpace(s[1..])
  }

  /** The tokens joined back together with no separator. */
  function Concat(ws: seq<string>): string
  {
    if ws == [] then [] else ws[0] + Concat(ws[1..])
  }

  lemma {:induction false} NonSpaceOfWordPrefix(w: string, rest: string)
    requires forall k :: 0 <= k < |w| ==> !IsSpace(w[k])
    ensures NonSpace(w + rest) == w + NonSpace(rest)
    decreases |w|
  {
    if w != [] {
      var s := w + rest;
      assert s[0] == w[0] && !IsSpace(s[0]);
      assert s[1..] == w[1..] + rest;
      assert NonSpace(s) == [w[0]] + NonSpace(w[1..] + rest);
      NonSpaceOfWordPrefix(w[1..], rest);
      assert [w[0]] + (w[1..] + NonSpace(rest)) == ([w[0]] + w[1..]) + NonSpace(rest);
      assert [w[0]] + w[1..] == w;
    } else {
      assert w + rest == rest;
    }
  }

  /** `split()` loses nothing but whitespace: its tokens, joined, are the
      string's non-whitespace characters in order. */
  lemma {:induction false} SplitKeepsNonSpace(s: string)
    ensures Concat(Split(s)) == NonSpace(s)
    decreases |s|
  {
    if s != [] {
      if IsSpace(s[0]) {
        SplitKeepsNonSpace(s[1..]);
      } else {
        var n := WordLength(s);
        SplitKeepsNonSpace(s[n..]);
        var r := [s[..n]] + Split(s[n..]);
        assert r[0] == s[..n] && r[1..] == Split(s[n..]);
        assert s == s[..n] + s[n..];
        NonSpaceOfWordPrefix(s[..n], s[n..]);
      }
    }
  }

  /** `split()` finds no token exactly when the string is all whitespace
      (including the empty string); `split()[0]` and `split()[-1]` then raise
      `IndexError`. */
  lemma {:induction false} SplitEmptyIff(s: string)
    ensures Split(s) == [] <==> forall k :: 0 <= k < |s| ==> IsSpace(s[k])
    decreases |s|
  {
    if s != [] {
      SplitEmptyIff(s[1..]);
      if IsSpace(s[0]) {
        assert forall k :: 1 <= k < |s| ==> s[k] == s[1..][k - 1];
      }
    }
  }

  lemma {:induction false} WordLengthOfWord(w: string, rest: string)
    requires IsWord(w)
    requires rest == [] || IsSpace(rest[0])
    ensures WordLength(w + rest) == |w|
    decreases |w|
  {
    if |w| > 1 {
      assert (w + rest)[1..] == w[1..] + rest;
      WordLengthOfWord(w[1..], rest);
    }
  }

  lemma SplitOfWord(w: string)
    requires IsWord(w)
    ensures Split(w) == [w]
  {
    WordLengthOfWord(w, []);
    assert w + [] == w;
    assert w[|w|..] == [];
  }

  /** A `dt_txt` value of the shape "<date> <time>" splits into exactly the
      date and the time, so `split()[0]` is the date and `split()[-1]` the
      time of day. */
  lemma DateTimeSplit(date: string, time: string)
    requires IsWord(date) && IsWord(time)
    ensures Split(date + " " + time) == [date, time]
  {
    var s := date + " " + time;
    assert s == date + (" " + time);
    WordLengthOfWord(date, " " + time);
    assert s[..|date|] == date;
    assert s[|date|..] == " " + time;
    assert (" " + time)[1..] == time;
    SplitOfWord(time);
  }

  /** `str.isdigit()` restricted to ASCII: non-empty and all of '0'..'9'. */
  predicate IsDigitString(s: string) {
    s != [] && forall k :: 0 <= k < |s| ==> '0' <= s[k] <= '9'
  }

  /** `int(s)` for a string of ASCII digits (leading zeros allowed). */
  function DecimalValue(s: string): (v: nat)
    requires forall k :: 0 <= k < |s| ==> '0' <= s[k] <= '9'
  {
    if s == [] then 0
    else 10 * DecimalValue(s[..|s| - 1]) + (s[|s| - 1] as int - '0' as int)
  }

  /** A digit string has value 0 exactly when every digit is '0'. */
  lemma {:induction false} DecimalValueZeroIff(s: string)
    requires forall k :: 0 <= k < |s| ==> '0' <= s[k] <= '9'
    ensures DecimalValue(s) == 0 <==> forall k :: 0 <= k < |s| ==> s[k] == '0'
  {
    if s != [] {
      var p := s[..|s| - 1];
      DecimalValueZeroIff(p);
      assert forall k :: 0 <= k < |p| ==> p[k] == s[k];
    }
  }

  /** The digit strings whose value lies in 1..5 are exactly the ones made of
      zeros followed by one digit from '1' to '5': leading zeros are accepted,
      any other prefix makes the value 10 or more. */
  lemma SmallValueIff(s: string)
    requires IsDigitString(s)
    ensures 1 <= DecimalValue(s) <= 5
        <==> (forall k :: 0 <= k < |s| - 1 ==> s[k] == '0') && '1' <= s[|s| - 1] <= '5'
  {
    var p := s[..|s| - 1];
    DecimalValueZeroIff(p);
    assert forall k :: 0 <= k < |p| ==> p[k] == s[k];
  }
}
