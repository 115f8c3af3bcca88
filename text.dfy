/** String operations the extractors use: prefix tests, character counts,
    substring search, ASCII lower-casing, whitespace stripping and splitting. */
module Text {

  /** `s.startswith(prefix)`. */
  predicate StartsWith(s: string, prefix: string) {
    prefix <= s
  }

  /** `StartsWith` holds exactly when the first `|prefix|` characters of `s` are `prefix`. */
  lemma StartsWithIffSlice(s: string, prefix: string)
    ensures StartsWith(s, prefix) <==> |prefix| <= |s| && s[..|prefix|] == prefix
  {
  }

  /** `s.count(c)` for a one-character argument. */
  function Count(s: string, c: char): (n: nat)
    ensures n <= |s|
    ensures n == 0 <==> c !in s
  {
    if s == [] then 0 else (if s[0] == c then 1 else 0) + Count(s[1..], c)
  }

  lemma {:induction false} CountAppend(a: string, b: string, c: char)
    ensures Count(a + b, c) == Count(a, c) + Count(b, c)
  {
    if a == [] {
      assert a + b == b;
    } else {
      assert (a + b)[1..] == a[1..] + b;
      CountAppend(a[1..], b, c);
    }
  }

  /** Occurrences of three different characters never outnumber the characters of the string. */
  lemma {:induction false} CountsOfDistinctCharsBound(s: string, x: char, y: char, z: char)
    requires x != y && y != z && x != z
    ensures Count(s, x) + Count(s, y) + Count(s, z) <= |s|
  {
    if s != [] {
      CountsOfDistinctCharsBound(s[1..], x, y, z);
    }
  }

  /** `w in s` for strings: `w` occurs in `s` as a contiguous substring. */
  function Contains(s: string, w: string): bool
    decreases |s|
  {
    w <= s || (s != [] && Contains(s[1..], w))
  }

  predicate OccursAt(s: string, w: string, i: nat) {
    i + |w| <= |s| && s[i..i + |w|] == w
  }

  /** Contains is substring search: it holds exactly when some position of `s` starts a copy of `w`. */
  lemma {:induction false} ContainsIffOccurs(s: string, w: string)
    ensures Contains(s, w) <==> exists i: nat :: OccursAt(s, w, i)
    decreases |s|
  {
    if w <= s {
      assert OccursAt(s, w, 0);
    } else if s == [] {
      assert forall i: nat :: OccursAt(s, w, i) ==> w <= s;
    } else {
      ContainsIffOccurs(s[1..], w);
      if Contains(s[1..], w) {
        var i: nat :| OccursAt(s[1..], w, i);
        OccursShift(s, w, i);
      } else {
        forall i: nat ensures !OccursAt(s, w, i) {
          if i == 0 {
            assert OccursAt(s, w, 0) ==> w <= s;
          } else {
            OccursShift(s, w, i - 1);
          }
        }
      }
    }
  }

  /** An occurrence one position further into `s` is an occurrence in the tail of `s`. */
  lemma OccursShift(s: string, w: string, i: nat)
    requires s != []
    ensures OccursAt(s, w, i + 1) <==> OccursAt(s[1..], w, i)
  {
    if i + 1 + |w| <= |s| {
      assert s[1..][i..i + |w|] == s[i + 1..i + 1 + |w|];
    }
  }

  /** `c.lower()` for ASCII letters; every other character is left as it is. */
  function LowerChar(c: char): (d: char)
    ensures !('A' <= d <= 'Z')
    ensures 'A' <= c <= 'Z' ==> d as int == c as int + 32
    ensures !('A' <= c <= 'Z') ==> d == c
  {
    if 'A' <= c <= 'Z' then (c as int + 32) as char else c
  }

  /** `s.lower()`, character by character. */
  function Lower(s: string): (r: string)
    ensures |r| == |s|
    ensures forall i :: 0 <= i < |s| ==> r[i] == LowerChar(s[i])
  {
    if s == [] then [] else [LowerChar(s[0])] + Lower(s[1..])
  }

  /** Lower-casing twice is lower-casing once. */
  lemma LowerIdempotent(s: string)
    ensures Lower(Lower(s)) == Lower(s)
  {
  }

  /** Lower-casing does not create or remove a character that is not a letter. */
  lemma LowerKeepsNonLetter(s: string, c: char)
    requires !('A' <= c <= 'Z') && !('a' <= c <= 'z')
    ensures c in Lower(s) <==> c in s
  {
    if c in Lower(s) {
      var i :| 0 <= i < |s| && Lower(s)[i] == c;
      assert s[i] == c;
    }
    if c in s {
      var i :| 0 <= i < |s| && s[i] == c;
      assert Lower(s)[i] == c;
    }
  }

  /** `c.isspace()`: the characters Python treats as whitespace. */
  predicate IsSpace(c: char) {
    c == ' ' || ('\t' <= c <= '\r') || ('\U{1C}' <= c <= '\U{1F}') || c == '\U{85}' || c == '\U{A0}'
    || c == '\U{1680}' || ('\U{2000}' <= c <= '\U{200A}') || c == '\U{2028}' || c == '\U{2029}'
    || c == '\U{202F}' || c == '\U{205F}' || c == '\U{3000}'
  }

  /** The six ASCII whitespace characters, the information separators and the Unicode spaces are
      whitespace; letters, NUL, the zero-width space and the byte-order mark are not. */
  lemma IsSpaceExamples()
    ensures IsSpace(' ') && IsSpace('\t') && IsSpace('\n') && IsSpace('\U{0B}') && IsSpace('\U{0C}') && IsSpace('\r')
    ensures IsSpace('\U{1C}') && IsSpace('\U{85}') && IsSpace('\U{A0}') && IsSpace('\U{2003}') && IsSpace('\U{3000}')
    ensures !IsSpace('a') && !IsSpace('\0') && !IsSpace('\U{200B}') && !IsSpace('\U{FEFF}') && !IsSpace('\U{1B}')
  {
  }

  /** `s.lstrip()`: a suffix of `s` whose dropped part is all whitespace. */
  function TrimStart(s: string): (r: string)
    ensures |r| <= |s| && r == s[|s| - |r|..]
    ensures forall i :: 0 <= i < |s| - |r| ==> IsSpace(s[i])
    ensures r == [] || !IsSpace(r[0])
  {
    if s != [] && IsSpace(s[0]) then TrimStart(s[1..]) else s
  }

  /** `s.rstrip()`: a prefix of `s` whose dropped part is all whitespace. */
  function TrimEnd(s: string): (r: string)
    ensures |r| <= |s| && r == s[..|r|]
    ensures forall i :: |r| <= i < |s| ==> IsSpace(s[i])
    ensures r == [] || !IsSpace(r[|r| - 1])
  {
    if s != [] && IsSpace(s[|s| - 1]) then TrimEnd(s[..|s| - 1]) else s
  }

  /** `s.strip()`: a contiguous piece of `s` whose dropped ends are all whitespace, and which,
      when non-empty, begins and ends with a non-space. */
  function Strip(s: string): (r: string)
    ensures r != [] ==> !IsSpace(r[0]) && !IsSpace(r[|r| - 1])
    ensures exists a, b ::
              && 0 <= a <= b <= |s| && r == s[a..b]
              && (forall i :: 0 <= i < a ==> IsSpace(s[i]))
              && (forall i :: b <= i < |s| ==> IsSpace(s[i]))
  {
    var t := TrimStart(s);
    var a := |s| - |t|;
    var r := TrimEnd(t);
    assert r == s[a..a + |r|];
    r
  }

  /** Stripping leaves nothing exactly when the string is all whitespace. */
  lemma StripBlankIff(s: string)
    ensures Strip(s) == [] <==> forall i :: 0 <= i < |s| ==> IsSpace(s[i])
  {
    var t := TrimStart(s);
    var a := |s| - |t|;
    if TrimEnd(t) == [] {
      assert t == [];
    } else {
      assert s[a] == t[0];
    }
  }

  /** `s.split(d)`: the pieces between occurrences of `d`, one more piece than there are separators. */
  function Split(s: string, d: char): (parts: seq<string>)
    ensures |parts| == Count(s, d) + 1
    ensures forall k :: 0 <= k < |parts| ==> d !in parts[k]
  {
    if s == [] then [[]]
    else
      var rest := Split(s[1..], d);
      if s[0] == d then [[]] + rest else [[s[0]] + rest[0]] + rest[1..]
  }

  /** `d.join(parts)`. */
  function Join(parts: seq<string>, d: char): string
    requires |parts| >= 1
  {
    if |parts| == 1 then parts[0] else parts[0] + [d] + Join(parts[1..], d)
  }

  /** Joining the pieces of a split gives back the original string. */
  lemma {:induction false} JoinSplit(s: string, d: char)
    ensures Join(Split(s, d), d) == s
  {
    if s != [] {
      var rest := Split(s[1..], d);
      JoinSplit(s[1..], d);
      var parts := Split(s, d);
      assert s == [s[0]] + s[1..];
      if s[0] == d {
        assert parts[1..] == rest;
      } else {
        JoinPrepend([s[0]], rest, d);
      }
    }
  }

  lemma JoinPrepend(x: string, parts: seq<string>, d: char)
    requires |parts| >= 1
    ensures Join([x + parts[0]] + parts[1..], d) == x + Join(parts, d)
  {
    var joined := [x + parts[0]] + parts[1..];
    if |parts| > 1 {
      assert joined[1..] == parts[1..];
      assert Join(joined, d) == (x + parts[0]) + [d] + Join(parts[1..], d);
    }
  }

  /** How many of the strings are non-empty (`len([p for p in parts if p])`). */
  function CountNonEmpty(parts: seq<string>): (n: nat)
    ensures n <= |parts|
  {
    if parts == [] then 0 else (if parts[0] != [] then 1 else 0) + CountNonEmpty(parts[1..])
  }

  /** A split has no non-empty piece exactly when the string consists of separators only. */
  lemma {:induction false} SplitAllEmpty(s: string, d: char)
    ensures CountNonEmpty(Split(s, d)) == 0 <==> forall i :: 0 <= i < |s| ==> s[i] == d
  {
    if s != [] {
      var rest := Split(s[1..], d);
      SplitAllEmpty(s[1..], d);
      var parts := Split(s, d);
      if s[0] == d {
        assert parts[1..] == rest;
        assert (forall i :: 0 <= i < |s| ==> s[i] == d) <==> (forall i :: 0 <= i < |s[1..]| ==> s[1..][i] == d) by {
          forall i | 0 < i < |s| ensures s[i] == s[1..][i - 1] { }
        }
      } else {
        assert parts[0] != [];
      }
    }
  }
}
