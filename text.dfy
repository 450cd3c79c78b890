/**
 * String helpers shared by the model: the few Python `str` operations the
 * core relies on, over `seq<char>`.
 *
 * - `lower()` is ASCII lower-casing (other scripts are left as they are);
 * - whitespace is the ASCII whitespace Python's `str.split()`/`strip()`
 *   recognise (space, \t, \n, \v, \f, \r and the separators \x1c-\x1f);
 * - `t in s` is the substring test `Contains(s, t)`;
 * - `s[:n]` is `PyTake(s, n)`, with Python's meaning for a negative `n`.
 */
module Text {

  predicate IsUpper(c: char) { 'A' <= c <= 'Z' }

  function LowerChar(c: char): (r: char)
    ensures !IsUpper(r)
    ensures !IsUpper(c) ==> r == c
  {
    if IsUpper(c) then (c as int + 32) as char else c
  }

  /** Python's `s.lower()` restricted to ASCII letters. */
  function Lower(s: string): (r: string)
    ensures |r| == |s|
    ensures forall i :: 0 <= i < |s| ==> r[i] == LowerChar(s[i])
  {
    seq(|s|, i requires 0 <= i < |s| => LowerChar(s[i]))
  }

  predicate NoUpper(s: string) { forall i :: 0 <= i < |s| ==> !IsUpper(s[i]) }

  /** A string without capitals is its own lower-case form. */
  lemma LowerOfLower(s: string)
    requires NoUpper(s)
    ensures Lower(s) == s
  {
  }

  /** `t` occurs in `s` at position `i`. */
  predicate MatchAt(s: string, t: string, i: int)
  {
    0 <= i && i + |t| <= |s| && s[i..i + |t|] == t
  }

  /** Python's `t in s`. */
  predicate Contains(s: string, t: string)
  {
    exists i | 0 <= i <= |s| - |t| :: MatchAt(s, t, i)
  }

  /** Python's `s.startswith(t)`. */
  predicate StartsWith(s: string, t: string)
  {
    |t| <= |s| && s[..|t|] == t
  }

  /** Python's `s.endswith(t)`. */
  predicate EndsWith(s: string, t: string)
  {
    |t| <= |s| && s[|s| - |t|..] == t
  }

  /** Python's `any(k in s for k in keys)`. */
  predicate ContainsAny(s: string, keys: seq<string>)
  {
    exists k | k in keys :: Contains(s, k)
  }

  /** Python's `any(s.startswith(k) for k in keys)`. */
  predicate StartsWithAny(s: string, keys: seq<string>)
  {
    exists k | k in keys :: StartsWith(s, k)
  }

  lemma StartsWithContains(s: string, t: string)
    requires StartsWith(s, t)
    ensures Contains(s, t)
  {
    assert MatchAt(s, t, 0);
  }

  /** Whatever occurs in a string without capitals has no capitals either. */
  lemma ContainsNoUpper(s: string, t: string)
    requires NoUpper(s) && Contains(s, t)
    ensures NoUpper(t)
  {
    var i :| 0 <= i <= |s| - |t| && MatchAt(s, t, i);
    forall j | 0 <= j < |t| ensures !IsUpper(t[j]) {
      assert t[j] == s[i + j];
    }
  }

  /** A lower-cased string never contains a key that has a capital letter. */
  lemma {:induction false} LowerNeverContainsUpper(s: string, key: string, j: int)
    requires 0 <= j < |key| && IsUpper(key[j])
    ensures !Contains(Lower(s), key)
  {
    if Contains(Lower(s), key) {
      ContainsNoUpper(Lower(s), key);
    }
  }

  /** Lower-casing keeps every occurrence of a text without capitals. */
  lemma ContainsLower(s: string, t: string)
    requires NoUpper(t) && Contains(s, t)
    ensures Contains(Lower(s), t)
  {
    var i :| 0 <= i <= |s| - |t| && MatchAt(s, t, i);
    forall j | 0 <= j < |t| ensures Lower(s)[i + j] == t[j] {
      assert s[i + j] == t[j];
    }
    assert Lower(s)[i..i + |t|] == t;
    assert MatchAt(Lower(s), t, i);
  }

  predicate IsSpace(c: char)
  {
    c == ' ' || c == '\t' || c == '\n' || c == '\r' || c == '\U{000B}' || c == '\U{000C}'
    || ('\U{001C}' <= c <= '\U{001F}')
  }

  /** Drops the leading characters that satisfy `drop`. */
  function TrimStart(s: string, drop: char -> bool): (r: string)
    ensures |r| <= |s| && r == s[|s| - |r|..]
    ensures r == [] || !drop(r[0])
    ensures forall i :: 0 <= i < |s| - |r| ==> drop(s[i])
    decreases |s|
  {
    if |s| > 0 && drop(s[0]) then TrimStart(s[1..], drop) else s
  }

  /** Drops the trailing characters that satisfy `drop`. */
  function TrimEnd(s: string, drop: char -> bool): (r: string)
    ensures |r| <= |s| && r == s[..|r|]
    ensures r == [] || !drop(r[|r| - 1])
    ensures forall i :: |r| <= i < |s| ==> drop(s[i])
    decreases |s|
  {
    if |s| > 0 && drop(s[|s| - 1]) then TrimEnd(s[..|s| - 1], drop) else s
  }

  /** Python's `s.strip()`. */
  function Strip(s: string): (r: string)
    ensures r == [] || (!IsSpace(r[0]) && !IsSpace(r[|r| - 1]))
    ensures |r| <= |s|
  {
    TrimEnd(TrimStart(s, IsSpace), IsSpace)
  }

  /** What `strip` leaves is a contiguous part of its input. */
  lemma StripIsInfix(s: string) returns (lo: nat)
    ensures lo + |Strip(s)| <= |s| && Strip(s) == s[lo..lo + |Strip(s)|]
  {
    var t := TrimStart(s, IsSpace);
    lo := |s| - |t|;
    assert Strip(s) == t[..|Strip(s)|];
  }

  /** Stripping removes characters only, so it introduces no upper-case letter. */
  lemma StripKeepsNoUpper(s: string)
    requires NoUpper(s)
    ensures NoUpper(Strip(s))
  {
    var lo := StripIsInfix(s);
    assert forall i :: 0 <= i < |Strip(s)| ==> Strip(s)[i] == s[lo + i];
  }

  predicate IsStar(c: char) { c == '*' }

  /** Python's `s.strip('*')`. */
  function StripStars(s: string): string
  {
    TrimEnd(TrimStart(s, IsStar), IsStar)
  }

  /** Length of the leading run of non-space characters. */
  function WordLength(s: string): (n: nat)
    ensures n <= |s|
    ensures forall i :: 0 <= i < n ==> !IsSpace(s[i])
    ensures n == |s| || IsSpace(s[n])
    decreases |s|
  {
    if |s| == 0 || IsSpace(s[0]) then 0 else 1 + WordLength(s[1..])
  }

  /** Python's `s.split()`: the maximal runs of non-space characters. */
  function Words(s: string): (ws: seq<string>)
    ensures forall w :: w in ws ==> w != []
    decreases |s|
  {
    var t := TrimStart(s, IsSpace);
    if t == [] then []
    else
      var n := WordLength(t);
      assert n > 0 by {
        assert !IsSpace(t[0]);
      }
      [t[..n]] + Words(t[n..])
  }

  /** A string that is not blank has at least one word. */
  lemma WordsOfNonBlank(s: string)
    requires Strip(s) != []
    ensures |Words(s)| > 0
  {
  }

  /** Python's `s.split(sep)` for a one-character separator. */
  function SplitOn(s: string, sep: char): (parts: seq<string>)
    ensures |parts| >= 1
    ensures forall p :: p in parts ==> sep !in p
    decreases |s|
  {
    if s == [] then [""]
    else
      var rest := SplitOn(s[1..], sep);
      if s[0] == sep then [""] + rest
      else [[s[0]] + rest[0]] + rest[1..]
  }

  /** Inverse of `SplitOn`: joining the pieces with the separator gives back the text. */
  lemma {:induction false} JoinSplitOn(s: string, sep: char)
    ensures Join(SplitOn(s, sep), [sep]) == s
    decreases |s|
  {
    if s != [] {
      var rest := SplitOn(s[1..], sep);
      JoinSplitOn(s[1..], sep);
      if s[0] == sep {
        assert Join([""] + rest, [sep]) == "" + [sep] + Join(rest, [sep]);
        assert s == [s[0]] + s[1..];
      } else {
        JoinHeadConcat([s[0]], rest, [sep]);
        assert s == [s[0]] + s[1..];
      }
    }
  }

  /** Splitting text that starts with a separator-free `a` glues `a` onto the first piece. */
  lemma {:induction false} SplitOnPrefix(a: string, rest: string, sep: char)
    requires sep !in a
    ensures SplitOn(a + rest, sep) == [a + SplitOn(rest, sep)[0]] + SplitOn(rest, sep)[1..]
    decreases |a|
  {
    if a != [] {
      var whole := a + rest;
      assert whole[0] == a[0] && a[0] != sep;
      assert whole[1..] == a[1..] + rest;
      assert sep !in a[1..];
      SplitOnPrefix(a[1..], rest, sep);
      var pieces := SplitOn(rest, sep);
      var tailPieces := SplitOn(whole[1..], sep);
      assert tailPieces[0] == a[1..] + pieces[0];
      assert SplitOn(whole, sep) == [[a[0]] + tailPieces[0]] + tailPieces[1..];
      assert [a[0]] + (a[1..] + pieces[0]) == a + pieces[0];
    } else {
      assert a + rest == rest;
      var pieces := SplitOn(rest, sep);
      assert pieces == [pieces[0]] + pieces[1..];
      assert a + pieces[0] == pieces[0];
    }
  }

  /** The other half of the round trip: splitting joined separator-free parts gives back the parts. */
  lemma {:induction false} SplitOnJoin(parts: seq<string>, sep: char)
    requires |parts| >= 1
    requires forall p :: p in parts ==> sep !in p
    ensures SplitOn(Join(parts, [sep]), sep) == parts
  {
    if |parts| == 1 {
      SplitOnPrefix(parts[0], "", sep);
      assert parts[0] + "" == parts[0];
    } else {
      SplitOnJoin(parts[1..], sep);
      var tail := [sep] + Join(parts[1..], [sep]);
      assert Join(parts, [sep]) == parts[0] + tail;
      SplitOnPrefix(parts[0], tail, sep);
      assert tail[1..] == Join(parts[1..], [sep]);
      assert SplitOn(tail, sep) == [""] + parts[1..];
      assert parts[0] + "" == parts[0];
      assert parts == [parts[0]] + parts[1..];
    }
  }

  /** Joining after gluing `c` in front of the first part glues `c` in front of the result. */
  lemma JoinHeadConcat(c: string, parts: seq<string>, sep: string)
    requires |parts| >= 1
    ensures Join([c + parts[0]] + parts[1..], sep) == c + Join(parts, sep)
  {
    if |parts| > 1 {
      assert ([c + parts[0]] + parts[1..])[1..] == parts[1..];
    }
  }

  /** Python's `sep.join(parts)`. */
  function Join(parts: seq<string>, sep: string): string
  {
    if |parts| == 0 then ""
    else if |parts| == 1 then parts[0]
    else parts[0] + sep + Join(parts[1..], sep)
  }

  lemma JoinTwo(parts: seq<string>, sep: string)
    requires |parts| == 2
    ensures Join(parts, sep) == parts[0] + sep + parts[1]
  {
    assert parts[1..] == [parts[1]];
  }

  lemma JoinAppend(parts: seq<string>, p: string, sep: string)
    ensures Join(parts + [p], sep) == if parts == [] then p else Join(parts, sep) + sep + p
  {
    if |parts| > 1 {
      assert (parts + [p])[1..] == parts[1..] + [p];
      JoinAppend(parts[1..], p, sep);
    }
  }

  /** Python's `s[:n]`: a negative `n` counts back from the end. */
  function PyTake<T>(s: seq<T>, n: int): (r: seq<T>)
    ensures |r| <= |s| && r == s[..|r|]
    ensures n >= 0 ==> |r| == if n < |s| then n else |s|
    ensures n < 0 ==> |r| == if |s| + n < 0 then 0 else |s| + n
  {
    if n >= 0 then (if n < |s| then s[..n] else s)
    else (if |s| + n < 0 then [] else s[..|s| + n])
  }

  function DigitChar(d: nat): char
    requires d < 10
  {
    "0123456789"[d]
  }

  /** Python's `str(n)` for a natural number. */
  function NatToString(n: nat): (r: string)
    ensures |r| >= 1
    decreases n
  {
    if n < 10 then [DigitChar(n)] else NatToString(n / 10) + [DigitChar(n % 10)]
  }

  predicate IsDigit(c: char) { '0' <= c <= '9' }
}
