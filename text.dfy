/** Text helpers shared by the front end (JavaScript) and the back end (Python):
    whitespace trimming, decimal rendering of numbers and splitting on a separator. */
module Text {
  import opened Wrappers

  /** Truthiness of an optional string, the same in JavaScript and in Python:
      set (not null, undefined or None) and non-empty. */
  predicate Truthy(v: Option<string>)
  {
    v.Some? && v.value != []
  }

  /** The characters JavaScript's String.prototype.trim removes
      (WhiteSpace and LineTerminator of ECMAScript). */
  const JsWhitespace: set<char> :=
    {'\t', '\n', '\U{B}', '\U{C}', '\r', ' ', '\U{A0}', '\U{1680}',
     '\U{2000}', '\U{2001}', '\U{2002}', '\U{2003}', '\U{2004}', '\U{2005}',
     '\U{2006}', '\U{2007}', '\U{2008}', '\U{2009}', '\U{200A}',
     '\U{2028}', '\U{2029}', '\U{202F}', '\U{205F}', '\U{3000}', '\U{FEFF}'}

  /** The characters Python's str.strip() removes when called without an argument
      (those for which str.isspace() holds). */
  const PyWhitespace: set<char> :=
    {'\t', '\n', '\U{B}', '\U{C}', '\r', '\U{1C}', '\U{1D}', '\U{1E}', '\U{1F}',
     ' ', '\U{85}', '\U{A0}', '\U{1680}',
     '\U{2000}', '\U{2001}', '\U{2002}', '\U{2003}', '\U{2004}', '\U{2005}',
     '\U{2006}', '\U{2007}', '\U{2008}', '\U{2009}', '\U{200A}',
     '\U{2028}', '\U{2029}', '\U{202F}', '\U{205F}', '\U{3000}'}

  /** Concatenation is associative. */
  lemma AppendAssoc<T>(a: seq<T>, b: seq<T>, c: seq<T>)
    ensures (a + b) + c == a + (b + c)
  {
  }

  /** The index of the first character at or after i that is not in ws
      (|s| when there is none). */
  function FirstKept(s: string, ws: set<char>, i: nat): (r: nat)
    requires i <= |s|
    ensures i <= r <= |s|
    ensures r < |s| ==> s[r] !in ws
    decreases |s| - i
  {
    if i < |s| && s[i] in ws then FirstKept(s, ws, i + 1) else i
  }

  /** The end of the last character before j, and not before lo, that is not
      in ws (lo when there is none). */
  function LastKept(s: string, ws: set<char>, lo: nat, j: nat): (r: nat)
    requires lo <= j <= |s|
    ensures lo <= r <= j
    ensures r > lo ==> s[r - 1] !in ws
    decreases j
  {
    if j > lo && s[j - 1] in ws then LastKept(s, ws, lo, j - 1) else j
  }

  /** Everything FirstKept skips is in ws. */
  lemma {:induction false} FirstKeptSkips(s: string, ws: set<char>, i: nat)
    requires i <= |s|
    ensures forall k :: i <= k < FirstKept(s, ws, i) ==> s[k] in ws
    decreases |s| - i
  {
    if i < |s| && s[i] in ws {
      FirstKeptSkips(s, ws, i + 1);
    }
  }

  /** Everything LastKept skips is in ws. */
  lemma {:induction false} LastKeptSkips(s: string, ws: set<char>, lo: nat, j: nat)
    requires lo <= j <= |s|
    ensures forall k :: LastKept(s, ws, lo, j) <= k < j ==> s[k] in ws
    decreases j
  {
    if j > lo && s[j - 1] in ws {
      LastKeptSkips(s, ws, lo, j - 1);
    }
  }

  /** Drops leading and trailing characters of ws: JavaScript's trim() with
      JsWhitespace, Python's strip() with PyWhitespace. */
  function Trim(s: string, ws: set<char>): string
  {
    var i := FirstKept(s, ws, 0);
    s[i..LastKept(s, ws, i, |s|)]
  }

  /** A string all of whose characters are whitespace (the empty string included). */
  predicate AllIn(s: string, ws: set<char>)
  {
    forall k :: 0 <= k < |s| ==> s[k] in ws
  }

  /** The trimmed string is a contiguous slice of the input, everything cut away is
      whitespace, and it neither starts nor ends with whitespace. */
  lemma TrimIsSlice(s: string, ws: set<char>)
    ensures var r := Trim(s, ws);
      exists i, j :: 0 <= i <= j <= |s| && r == s[i..j]
        && AllIn(s[..i], ws) && AllIn(s[j..], ws)
        && (r != [] ==> r[0] !in ws && r[|r| - 1] !in ws)
  {
    var i := FirstKept(s, ws, 0);
    var j := LastKept(s, ws, i, |s|);
    FirstKeptSkips(s, ws, 0);
    LastKeptSkips(s, ws, i, |s|);
    assert AllIn(s[..i], ws) by {
      forall k | 0 <= k < i ensures s[..i][k] in ws {
        assert s[..i][k] == s[k];
      }
    }
    assert AllIn(s[j..], ws) by {
      forall k | 0 <= k < |s| - j ensures s[j..][k] in ws {
        assert s[j..][k] == s[j + k];
      }
    }
    assert Trim(s, ws) == s[i..j];
  }

  /** Trimming yields the empty string exactly when every character is whitespace. */
  lemma TrimEmptyIff(s: string, ws: set<char>)
    ensures Trim(s, ws) == [] <==> AllIn(s, ws)
  {
    var i := FirstKept(s, ws, 0);
    var j := LastKept(s, ws, i, |s|);
    FirstKeptSkips(s, ws, 0);
    LastKeptSkips(s, ws, i, |s|);
    if i < |s| {
      assert j > i;
    }
  }

  /** A string that neither starts nor ends with whitespace. */
  predicate Trimmed(s: string, ws: set<char>)
  {
    s != [] ==> s[0] !in ws && s[|s| - 1] !in ws
  }

  /** Trimming produces a trimmed string. */
  lemma TrimTrimmed(s: string, ws: set<char>)
    ensures Trimmed(Trim(s, ws), ws)
  {
    var i := FirstKept(s, ws, 0);
    var j := LastKept(s, ws, i, |s|);
    if i < j {
      assert s[i..j][0] == s[i];
    }
  }

  /** A trimmed string is left as it is by trimming. */
  lemma TrimOfTrimmed(s: string, ws: set<char>)
    requires Trimmed(s, ws)
    ensures Trim(s, ws) == s
  {
  }

  /** Trimming twice is the same as trimming once. */
  lemma TrimIdempotent(s: string, ws: set<char>)
    ensures Trim(Trim(s, ws), ws) == Trim(s, ws)
  {
    TrimTrimmed(s, ws);
    TrimOfTrimmed(Trim(s, ws), ws);
  }

  /** The decimal digit for d. */
  function Digit(d: nat): (c: char)
    requires d < 10
    ensures '0' <= c <= '9'
  {
    "0123456789"[d]
  }

  /** Decimal rendering of a natural number, as JavaScript's template strings and
      Python's f-strings print an integer. */
  function NatToString(n: nat): (r: string)
    ensures r != []
    ensures forall k :: 0 <= k < |r| ==> '0' <= r[k] <= '9'
    ensures |r| > 1 ==> r[0] != '0'
    decreases n
  {
    if n < 10 then [Digit(n)] else NatToString(n / 10) + [Digit(n % 10)]
  }

  /** Value of a string of decimal digits. */
  function DigitsValue(s: string): nat
    requires forall k :: 0 <= k < |s| ==> '0' <= s[k] <= '9'
  {
    if s == [] then 0 else DigitsValue(s[..|s| - 1]) * 10 + (s[|s| - 1] as int - '0' as int)
  }

  /** Reading the rendered digits back gives the number. */
  lemma {:induction false} NatToStringRoundTrip(n: nat)
    ensures DigitsValue(NatToString(n)) == n
    decreases n
  {
    if n >= 10 {
      var p := NatToString(n / 10);
      NatToStringRoundTrip(n / 10);
      assert NatToString(n)[..|NatToString(n)| - 1] == p;
    }
  }

  /** True when sep occurs in s at position i. */
  predicate OccursAt(s: string, sep: string, i: int)
  {
    0 <= i && i + |sep| <= |s| && s[i..i + |sep|] == sep
  }

  /** The first position at or after `from` where sep occurs in s. */
  function FirstOccurrence(s: string, sep: string, from: nat): (r: Option<nat>)
    ensures r.Some? ==> from <= r.value && OccursAt(s, sep, r.value)
    ensures r.Some? ==> forall k :: from <= k < r.value ==> !OccursAt(s, sep, k)
    ensures r.None? ==> forall k :: from <= k ==> !OccursAt(s, sep, k)
    decreases |s| - from
  {
    if from + |sep| > |s| then None
    else if OccursAt(s, sep, from) then Some(from)
    else FirstOccurrence(s, sep, from + 1)
  }

  /** Splits s at the first, leftmost occurrence of sep, as Python's str.split
      scans from the left. */
  function SplitFirst(s: string, sep: string): (r: Option<(string, string)>)
    ensures r.Some? ==> s == r.value.0 + sep + r.value.1 && OccursAt(s, sep, |r.value.0|)
    ensures r.Some? ==> forall k :: 0 <= k < |r.value.0| ==> !OccursAt(s, sep, k)
    ensures r.None? ==> forall k :: 0 <= k <= |s| ==> !OccursAt(s, sep, k)
  {
    match FirstOccurrence(s, sep, 0)
    case Some(k) =>
      assert s == s[..k] + s[k..k + |sep|] + s[k + |sep|..];
      Some((s[..k], s[k + |sep|..]))
    case None => None
  }

  /** Python's `s.split(sep)[0]`: the text before the first occurrence of sep,
      or all of s when sep does not occur. */
  function BeforeFirst(s: string, sep: string): (r: string)
    requires sep != []
    ensures |r| <= |s| && r == s[..|r|]
    ensures forall k :: 0 <= k < |r| ==> !OccursAt(s, sep, k)
    ensures |r| < |s| ==> OccursAt(s, sep, |r|)
  {
    match SplitFirst(s, sep)
    case Some((a, _)) => a
    case None => s
  }

  /** Python's `s.split(sep)[1]`: the text between the first and the second
      occurrence of sep; None where Python raises IndexError because sep does
      not occur at all. */
  function SecondField(s: string, sep: string): (r: Option<string>)
    requires sep != []
    ensures r.None? <==> forall k :: 0 <= k <= |s| ==> !OccursAt(s, sep, k)
  {
    match SplitFirst(s, sep)
    case Some((_, rest)) => Some(BeforeFirst(rest, sep))
    case None => None
  }
}
