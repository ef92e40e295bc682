// String helpers with the semantics of the Python built-ins the bots use:
// `str.split`, `str.strip`, `str.startswith`, `str.replace` and the
// end-of-string anchor of `re.sub`.
module Text {

  /** The characters Python's `str.strip()` removes (`str.isspace`). */
  predicate IsSpace(c: char) {
    c == ' ' || c == '\t' || c == '\n' || c == '\r' || c == '\U{B}' || c == '\U{C}'
    || ('\U{1C}' <= c <= '\U{1F}') || c == '\U{85}' || c == '\U{A0}' || c == '\U{1680}'
    || ('\U{2000}' <= c <= '\U{200A}') || c == '\U{2028}' || c == '\U{2029}'
    || c == '\U{202F}' || c == '\U{205F}' || c == '\U{3000}'
  }

  /** `s.lstrip()`: the suffix left after dropping the leading white space. */
  function TrimLeft(s: string): (r: string)
    ensures |r| <= |s|
  {
    if |s| > 0 && IsSpace(s[0]) then TrimLeft(s[1..]) else s
  }

  /** `lstrip` keeps a suffix, which does not start with white space, and
      drops only white space. */
  lemma {:induction false} TrimLeftFacts(s: string)
    ensures var r := TrimLeft(s);
      r == s[|s| - |r|..] && (r == [] || !IsSpace(r[0]))
      && (forall i :: 0 <= i < |s| - |r| ==> IsSpace(s[i]))
  {
    if |s| > 0 && IsSpace(s[0]) {
      TrimLeftFacts(s[1..]);
      var r := TrimLeft(s);
      forall i | 0 <= i < |s| - |r| ensures IsSpace(s[i]) {
        if i > 0 {
          assert s[i] == s[1..][i - 1];
        }
      }
    }
  }

  /** `s.rstrip()`: the prefix left after dropping the trailing white space. */
  function TrimRight(s: string): (r: string)
    ensures |r| <= |s|
  {
    if |s| > 0 && IsSpace(s[|s| - 1]) then TrimRight(s[..|s| - 1]) else s
  }

  /** `rstrip` keeps a prefix, which does not end with white space, and
      drops only white space. */
  lemma {:induction false} TrimRightFacts(s: string)
    ensures var r := TrimRight(s);
      r == s[..|r|] && (r == [] || !IsSpace(r[|r| - 1]))
      && (forall i :: |r| <= i < |s| ==> IsSpace(s[i]))
  {
    if |s| > 0 && IsSpace(s[|s| - 1]) {
      TrimRightFacts(s[..|s| - 1]);
      var r := TrimRight(s);
      forall i | |r| <= i < |s| ensures IsSpace(s[i]) {
        if i < |s| - 1 {
          assert s[i] == s[..|s| - 1][i];
        }
      }
    }
  }

  /** `s.strip()`. */
  function Strip(s: string): (r: string)
  {
    TrimRight(TrimLeft(s))
  }

  /** What `strip` promises: the result is a slice of `s`, it neither starts
      nor ends with white space, and only white space was cut away. */
  lemma StripIsTrimmedSlice(s: string)
    ensures var r := Strip(s);
      exists i, j :: 0 <= i <= j <= |s| && r == s[i..j]
        && (forall k :: 0 <= k < i ==> IsSpace(s[k]))
        && (forall k :: j <= k < |s| ==> IsSpace(s[k]))
    ensures Strip(s) == [] || (!IsSpace(Strip(s)[0]) && !IsSpace(Strip(s)[|Strip(s)| - 1]))
  {
    var l := TrimLeft(s);
    var r := TrimRight(l);
    TrimLeftFacts(s);
    TrimRightFacts(l);
    var i := |s| - |l|;
    var j := i + |r|;
    assert r == s[i..j];
    forall k | j <= k < |s| ensures IsSpace(s[k]) {
      assert s[k] == l[k - i];
    }
  }

  /** Every character of `Strip(s)` occurs in `s`. */
  lemma StripSubset(s: string, c: char)
    requires c in Strip(s)
    ensures c in s
  {
    var l := TrimLeft(s);
    var r := TrimRight(l);
    TrimLeftFacts(s);
    TrimRightFacts(l);
    var k :| 0 <= k < |r| && r[k] == c;
    assert l[k] == c;
    assert s[|s| - |l| + k] == c;
  }

  /** `s.split(sep)` for a one-character separator: the pieces between
      separators, always at least one. */
  function Split(s: string, sep: char): (r: seq<string>)
    ensures |r| >= 1
    ensures forall i :: 0 <= i < |r| ==> sep !in r[i]
  {
    if s == [] then [[]]
    else
      var rest := Split(s[1..], sep);
      if s[0] == sep then [[]] + rest else [[s[0]] + rest[0]] + rest[1..]
  }

  /** `sep.join(pieces)`. */
  function Join(pieces: seq<string>, sep: char): string
  {
    if |pieces| <= 1 then (if pieces == [] then [] else pieces[0])
    else pieces[0] + [sep] + Join(pieces[1..], sep)
  }

  /** Joining a list that starts with `x`. */
  lemma JoinCons(x: string, t: seq<string>, sep: char)
    ensures Join([x] + t, sep) == if t == [] then x else x + [sep] + Join(t, sep)
  {
    assert ([x] + t)[1..] == t;
  }

  /** Splitting loses nothing: joining the pieces with the separator gives the text back. */
  lemma {:induction false} JoinSplit(s: string, sep: char)
    ensures Join(Split(s, sep), sep) == s
  {
    if s != [] {
      var rest := Split(s[1..], sep);
      JoinSplit(s[1..], sep);
      assert Join(rest, sep) == s[1..];
      if s[0] == sep {
        assert Split(s, sep) == [[]] + rest;
        JoinCons([], rest, sep);
        assert s == [sep] + s[1..];
      } else {
        var first := [s[0]] + rest[0];
        assert Split(s, sep) == [first] + rest[1..];
        JoinCons(first, rest[1..], sep);
        assert rest == [rest[0]] + rest[1..];
        JoinCons(rest[0], rest[1..], sep);
        assert s == [s[0]] + s[1..];
      }
    }
  }

  /** `[c.strip() for c in pieces if c.strip()]`. */
  function StrippedNonEmpty(pieces: seq<string>): (r: seq<string>)
    ensures |r| <= |pieces|
    ensures forall e :: e in r <==> exists p :: p in pieces && Strip(p) == e && e != []
  {
    if pieces == [] then []
    else
      var rest := StrippedNonEmpty(pieces[1..]);
      assert forall p :: p in pieces <==> p == pieces[0] || p in pieces[1..];
      if Strip(pieces[0]) != [] then [Strip(pieces[0])] + rest else rest
  }

  /** The coin lists typed into the ignore fields: the comma-separated
      entries, each stripped, empty ones dropped. */
  function ParseList(s: string): (r: seq<string>)
  {
    StrippedNonEmpty(Split(s, ','))
  }

  /** Every parsed entry is non-empty, carries no comma and no surrounding white
      space, and an entry appears exactly when some comma-separated piece of
      the text strips to it. */
  lemma ParseListEntries(s: string)
    ensures forall e :: e in ParseList(s) <==> exists p :: p in Split(s, ',') && Strip(p) == e && e != []
    ensures forall i :: 0 <= i < |ParseList(s)| ==>
      var e := ParseList(s)[i];
      e != [] && ',' !in e && !IsSpace(e[0]) && !IsSpace(e[|e| - 1])
  {
    forall i | 0 <= i < |ParseList(s)|
      ensures var e := ParseList(s)[i];
        e != [] && ',' !in e && !IsSpace(e[0]) && !IsSpace(e[|e| - 1])
    {
      var e := ParseList(s)[i];
      assert e in ParseList(s);
      var p :| p in Split(s, ',') && Strip(p) == e && e != [];
      StripIsTrimmedSlice(p);
      if ',' in e {
        StripSubset(p, ',');
        assert false;
      }
    }
  }

  /** `s.replace(pat, rep)`: non-overlapping occurrences, scanned from the left. */
  function Replace(s: string, pat: string, rep: string): (r: string)
    requires |pat| > 0
    decreases |s|
  {
    if |s| < |pat| then s
    else if s[..|pat|] == pat then rep + Replace(s[|pat|..], pat, rep)
    else [s[0]] + Replace(s[1..], pat, rep)
  }

  predicate Occurs(pat: string, s: string) {
    exists i :: 0 <= i <= |s| && pat <= s[i..]
  }

  /** Replacing a pattern by one of the same length keeps the length, and a
      text without the pattern comes back unchanged. */
  lemma {:induction false} ReplaceFacts(s: string, pat: string, rep: string)
    requires |pat| > 0
    ensures |pat| == |rep| ==> |Replace(s, pat, rep)| == |s|
    ensures !Occurs(pat, s) ==> Replace(s, pat, rep) == s
    decreases |s|
  {
    if |s| >= |pat| {
      if s[..|pat|] == pat {
        assert s[0..] == s;
        ReplaceFacts(s[|pat|..], pat, rep);
      } else {
        ReplaceFacts(s[1..], pat, rep);
        if Occurs(pat, s[1..]) {
          var i :| 0 <= i <= |s[1..]| && pat <= s[1..][i..];
          assert s[1..][i..] == s[i + 1..];
        }
      }
    }
  }

  /** `re.sub(r"M$", "", s)`: one `M` at the very end, or just before a final
      newline, is removed. */
  function DropTrailingM(s: string): (r: string)
    ensures |r| == |s| || |r| == |s| - 1
    ensures |r| == |s| - 1 <==> (|s| >= 1 && s[|s| - 1] == 'M') || (|s| >= 2 && s[|s| - 2..] == "M\n")
  {
    if |s| >= 1 && s[|s| - 1] == 'M' then s[..|s| - 1]
    else if |s| >= 2 && s[|s| - 2] == 'M' && s[|s| - 1] == '\n' then s[..|s| - 2] + "\n"
    else s
  }

  /** `str.lower()` on the ASCII letters. Only `B`, `U` and `Y` lower to the
      letters of "buy", so comparing `LowerAscii(s)` with "buy" agrees with
      Python's full `lower()`. */
  function LowerAscii(s: string): (r: string)
    ensures |r| == |s|
  {
    seq(|s|, i requires 0 <= i < |s| => if 'A' <= s[i] <= 'Z' then (s[i] as int + 32) as char else s[i])
  }

  /** `str.upper()` on the ASCII letters. */
  function UpperAscii(s: string): (r: string)
    ensures |r| == |s|
  {
    seq(|s|, i requires 0 <= i < |s| => if 'a' <= s[i] <= 'z' then (s[i] as int - 32) as char else s[i])
  }
}
