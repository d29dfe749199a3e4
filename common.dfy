/** Helpers shared by every module of the model: optional values, results of
    external calls, and the JavaScript string and array operations the
    dashboard relies on (filter, join, split, trim, case mapping, clamping,
    UUID-derived codes). */
module Common {

  datatype Option<+T> = None | Some(value: T)

  /** Outcome of an external call (a database, storage, auth or HTTP request)
      or of an operation that may throw: the data, or an error message. */
  datatype Result<+T> = Ok(value: T) | Err(error: string)

  /** Outcome of an operation that returns nothing but may throw. */
  datatype Outcome = Done | Failed(error: string)

  // ---------------------------------------------------------------------
  // Arrays

  /** `Array.prototype.filter`: keeps, in order, the elements satisfying `p`. */
  function Filter<T>(s: seq<T>, p: T -> bool): (r: seq<T>)
    ensures |r| <= |s|
    ensures forall i :: 0 <= i < |r| ==> r[i] in s && p(r[i])
    ensures forall i :: 0 <= i < |s| && p(s[i]) ==> s[i] in r
  {
    if s == [] then []
    else if p(s[0]) then [s[0]] + Filter(s[1..], p)
    else Filter(s[1..], p)
  }

  lemma {:induction false} FilterConcat<T>(a: seq<T>, b: seq<T>, p: T -> bool)
    ensures Filter(a + b, p) == Filter(a, p) + Filter(b, p)
  {
    if a == [] {
      assert a + b == b;
    } else {
      assert (a + b)[0] == a[0];
      assert (a + b)[1..] == a[1..] + b;
      FilterConcat(a[1..], b, p);
    }
  }

  /** A filter that no element passes returns nothing. */
  lemma {:induction false} FilterKeepsNone<T>(s: seq<T>, p: T -> bool)
    requires forall i :: 0 <= i < |s| ==> !p(s[i])
    ensures Filter(s, p) == []
  {
    if s != [] {
      FilterKeepsNone(s[1..], p);
    }
  }

  /** A filter that every element passes returns the array unchanged. */
  lemma {:induction false} FilterKeepsAll<T>(s: seq<T>, p: T -> bool)
    requires forall i :: 0 <= i < |s| ==> p(s[i])
    ensures Filter(s, p) == s
  {
    if s != [] {
      FilterKeepsAll(s[1..], p);
    }
  }

  /** Filtering twice with the same predicate changes nothing more. */
  lemma {:induction false} FilterIdempotent<T>(s: seq<T>, p: T -> bool)
    ensures Filter(Filter(s, p), p) == Filter(s, p)
  {
    FilterKeepsAll(Filter(s, p), p);
  }

  /** Number of elements satisfying `p`. */
  function Count<T>(s: seq<T>, p: T -> bool): (n: nat)
    ensures n <= |s|
    ensures n == |Filter(s, p)|
  {
    if s == [] then 0 else (if p(s[0]) then 1 else 0) + Count(s[1..], p)
  }

  /** `Array.prototype.map`. */
  function Map<T, U>(s: seq<T>, f: T -> U): (r: seq<U>)
    ensures |r| == |s|
    ensures forall i :: 0 <= i < |s| ==> r[i] == f(s[i])
  {
    seq(|s|, i requires 0 <= i < |s| => f(s[i]))
  }

  lemma MapConcat<T, U>(a: seq<T>, b: seq<T>, f: T -> U)
    ensures Map(a + b, f) == Map(a, f) + Map(b, f)
  {
  }

  /** `array.slice(0, n)`, which is what a query's `.limit(n)` leaves. */
  function Take<T>(s: seq<T>, n: nat): (r: seq<T>)
    ensures |r| <= n && |r| <= |s|
    ensures r == s[..|r|]
    ensures |s| <= n ==> r == s
  {
    if |s| <= n then s else s[..n]
  }

  function Reverse<T>(s: seq<T>): (r: seq<T>)
    ensures |r| == |s|
    ensures forall i :: 0 <= i < |s| ==> r[i] == s[|s| - 1 - i]
  {
    if s == [] then [] else Reverse(s[1..]) + [s[0]]
  }

  lemma {:induction false} ReverseAppend<T>(s: seq<T>, x: T)
    ensures Reverse(s + [x]) == [x] + Reverse(s)
  {
    if s != [] {
      assert (s + [x])[1..] == s[1..] + [x];
      ReverseAppend(s[1..], x);
    }
  }

  // ---------------------------------------------------------------------
  // Strings

  /** `parts.join(sep)`. */
  function Join(parts: seq<string>, sep: string): string
  {
    if |parts| == 0 then ""
    else if |parts| == 1 then parts[0]
    else parts[0] + sep + Join(parts[1..], sep)
  }

  /** A joined string holds a character only if a part or the separator does. */
  lemma JoinFree(parts: seq<string>, sep: string, c: char)
    requires c !in sep
    requires forall i :: 0 <= i < |parts| ==> c !in parts[i]
    ensures c !in Join(parts, sep)
  {
    if |parts| > 1 {
      JoinFree(parts[1..], sep, c);
    }
  }

  /** `s.split(c)` for a one-character separator: always at least one part,
      and no part contains the separator. */
  function Split(s: string, c: char): (r: seq<string>)
    ensures |r| >= 1
    ensures forall i :: 0 <= i < |r| ==> c !in r[i]
  {
    if s == [] then [""]
    else if s[0] == c then [""] + Split(s[1..], c)
    else
      var rest := Split(s[1..], c);
      [[s[0]] + rest[0]] + rest[1..]
  }

  lemma {:induction false} SplitPrefix(w: string, s: string, c: char)
    requires c !in w
    ensures Split(w + s, c) == [w + Split(s, c)[0]] + Split(s, c)[1..]
  {
    if w != [] {
      assert (w + s)[0] == w[0];
      assert (w + s)[1..] == w[1..] + s;
      SplitPrefix(w[1..], s, c);
      assert [w[0]] + (w[1..] + Split(s, c)[0]) == w + Split(s, c)[0];
    } else {
      assert w + s == s;
      assert w + Split(s, c)[0] == Split(s, c)[0];
      assert [Split(s, c)[0]] + Split(s, c)[1..] == Split(s, c);
    }
  }

  /** Splitting a joined list gives the list back, provided no part contains
      the separator. */
  lemma {:induction false} SplitJoin(parts: seq<string>, c: char)
    requires |parts| >= 1
    requires forall i :: 0 <= i < |parts| ==> c !in parts[i]
    ensures Split(Join(parts, [c]), c) == parts
  {
    if |parts| == 1 {
      SplitPrefix(parts[0], "", c);
      assert parts[0] + "" == parts[0];
    } else {
      var tail := Join(parts[1..], [c]);
      SplitJoin(parts[1..], c);
      assert Join(parts, [c]) == parts[0] + ([c] + tail);
      SplitPrefix(parts[0], [c] + tail, c);
      assert ([c] + tail)[1..] == tail;
      assert Split([c] + tail, c) == [""] + parts[1..];
      assert parts[0] + "" == parts[0];
    }
  }

  /** Joining the parts of a split gives the original string back. */
  lemma {:induction false} JoinSplit(s: string, c: char)
    ensures Join(Split(s, c), [c]) == s
  {
    if s != [] {
      JoinSplit(s[1..], c);
      var rest := Split(s[1..], c);
      if s[0] == c {
        assert Split(s, c) == [""] + rest;
        assert s == [c] + s[1..];
      } else {
        var r := Split(s, c);
        assert r == [[s[0]] + rest[0]] + rest[1..];
        assert r[1..] == rest[1..];
        if |rest| == 1 {
          assert s == [s[0]] + rest[0];
        } else {
          assert Join(rest, [c]) == rest[0] + [c] + Join(rest[1..], [c]);
        }
      }
    }
  }

  /** `s.split(c).pop()`: the text after the last separator, or all of `s`
      when it has none. */
  function LastPart(s: string, c: char): (r: string)
    ensures c !in r
    ensures c !in s ==> r == s
  {
    var parts := Split(s, c);
    if c !in s then SplitPrefix(s, "", c); assert s + "" == s; parts[|parts| - 1]
    else parts[|parts| - 1]
  }

  /** Whatever comes before the last separator, the last part is what
      follows it. */
  lemma {:induction false} LastPartAfter(w: string, e: string, c: char)
    requires c !in e
    ensures |Split(w + [c] + e, c)| >= 2
    ensures LastPart(w + [c] + e, c) == e
  {
    var s := w + [c] + e;
    if w == [] {
      assert s == [c] + e && s[1..] == e;
      SplitPrefix(e, "", c);
      assert e + "" == e;
    } else {
      assert s[0] == w[0];
      assert s[1..] == w[1..] + [c] + e;
      LastPartAfter(w[1..], e, c);
    }
  }

  /** The characters `String.prototype.trim` removes: the white space of
      ECMAScript (tab, vertical tab, form feed, space, no-break space, the
      byte-order mark and the other space separators of Unicode) and its
      line terminators (line feed, carriage return, line and paragraph
      separator). */
  predicate IsSpace(ch: char)
  {
    ch == ' ' || ch == '\t' || ch == '\n' || ch == '\r' || ch == '\U{000B}' || ch == '\U{000C}'
    || ch == '\U{00A0}' || ch == '\U{FEFF}' || ch == '\U{1680}' || ('\U{2000}' <= ch <= '\U{200A}')
    || ch == '\U{2028}' || ch == '\U{2029}' || ch == '\U{202F}' || ch == '\U{205F}' || ch == '\U{3000}'
  }

  predicate IsBlank(s: string)
  {
    forall i :: 0 <= i < |s| ==> IsSpace(s[i])
  }

  /** The number of white-space characters `s` starts with. */
  function LeadingSpaces(s: string): (n: nat)
    ensures n <= |s| && IsBlank(s[..n])
    ensures n == |s| || !IsSpace(s[n])
  {
    if s == [] || !IsSpace(s[0]) then 0
    else
      var n := 1 + LeadingSpaces(s[1..]);
      assert s[..n] == [s[0]] + s[1..][..n - 1];
      n
  }

  /** The number of white-space characters `s` ends with. */
  function TrailingSpaces(s: string): (n: nat)
    ensures n <= |s| && IsBlank(s[|s| - n..])
    ensures n == |s| || !IsSpace(s[|s| - n - 1])
  {
    if s == [] || !IsSpace(s[|s| - 1]) then 0
    else
      var n := 1 + TrailingSpaces(s[..|s| - 1]);
      assert s[|s| - n..] == s[..|s| - 1][|s| - n..] + [s[|s| - 1]];
      n
  }

  /** `s.trim()`: `s` with its leading and trailing white space removed, so
      a piece `s[i..j]` between a blank prefix and a blank suffix, with no
      white space at either end; empty exactly when `s` is blank. */
  function Trim(s: string): (r: string)
    ensures |r| <= |s|
    ensures exists i, j :: 0 <= i <= j <= |s| && r == s[i..j] && IsBlank(s[..i]) && IsBlank(s[j..])
    ensures r == [] || (!IsSpace(r[0]) && !IsSpace(r[|r| - 1]))
    ensures r == [] <==> IsBlank(s)
  {
    var i := LeadingSpaces(s);
    var j := |s| - TrailingSpaces(s[i..]);
    assert s[j..] == s[i..][j - i..];
    assert IsBlank(s[..i]) && IsBlank(s[j..]);
    assert i < |s| ==> s[i..][0] == s[i];
    assert i == |s| ==> s[..i] == s;
    s[i..j]
  }

  function LowerChar(ch: char): char
  {
    if 'A' <= ch <= 'Z' then (ch as int + 32) as char else ch
  }

  function UpperChar(ch: char): char
  {
    if 'a' <= ch <= 'z' then (ch as int - 32) as char else ch
  }

  /** `toLowerCase`, for the ASCII letters. */
  function Lower(s: string): (r: string)
    ensures |r| == |s|
    ensures forall i :: 0 <= i < |s| ==> r[i] == LowerChar(s[i])
  {
    seq(|s|, i requires 0 <= i < |s| => LowerChar(s[i]))
  }

  /** `toUpperCase`, for the ASCII letters. */
  function Upper(s: string): (r: string)
    ensures |r| == |s|
    ensures forall i :: 0 <= i < |s| ==> r[i] == UpperChar(s[i])
  {
    seq(|s|, i requires 0 <= i < |s| => UpperChar(s[i]))
  }

  predicate StartsWith(s: string, prefix: string)
  {
    |prefix| <= |s| && s[..|prefix|] == prefix
  }

  /** `s.includes(sub)`. */
  predicate Contains(s: string, sub: string)
  {
    exists i :: 0 <= i <= |s| - |sub| && OccursAt(s, sub, i)
  }

  predicate OccursAt(s: string, sub: string, i: int)
  {
    0 <= i <= |s| - |sub| && s[i..i + |sub|] == sub
  }

  /** `s.replace(/c/g, '')`. */
  function RemoveAll(s: string, c: char): (r: string)
    ensures c !in r
    ensures |r| <= |s|
    ensures c !in s ==> r == s
    ensures forall i :: 0 <= i < |r| ==> r[i] in s
  {
    if s == [] then ""
    else if s[0] == c then RemoveAll(s[1..], c)
    else [s[0]] + RemoveAll(s[1..], c)
  }

  // ---------------------------------------------------------------------
  // Numbers

  /** `Math.max(lo, Math.min(hi, x))`. */
  function Clamp(x: real, lo: real, hi: real): (r: real)
    requires lo <= hi
    ensures lo <= r <= hi
    ensures lo <= x <= hi ==> r == x
    ensures x < lo ==> r == lo
    ensures x > hi ==> r == hi
  {
    if x < lo then lo else if x > hi then hi else x
  }

  // ---------------------------------------------------------------------
  // UUIDs (values of `uuidv4()` / `crypto.randomUUID()` are inputs)

  predicate IsLowerHex(ch: char) { '0' <= ch <= '9' || 'a' <= ch <= 'f' }
  predicate IsUpperHex(ch: char) { '0' <= ch <= '9' || 'A' <= ch <= 'F' }

  /** The canonical 8-4-4-4-12 lower-case form `uuidv4()` returns. */
  predicate IsCanonicalUuid(u: string)
  {
    |u| == 36
    && (forall i :: 0 <= i < 36 ==> (u[i] == '-' <==> i in {8, 13, 18, 23}))
    && (forall i :: 0 <= i < 36 && u[i] != '-' ==> IsLowerHex(u[i]))
  }

  /** `uuid.split('-')[0].toUpperCase()`: the connection code of a new
      connection. */
  function ConnectionCode(u: string): (code: string)
    ensures '-' !in code
  {
    var s := Split(u, '-')[0];
    UpperKeepsAbsent(s, '-');
    Upper(s)
  }

  /** `uuid.replace(/-/g, '').toUpperCase()`: a session connection token. */
  function ConnectionToken(u: string): (token: string)
    ensures '-' !in token
  {
    var s := RemoveAll(u, '-');
    UpperKeepsAbsent(s, '-');
    Upper(s)
  }

  lemma UpperKeepsAbsent(s: string, c: char)
    requires c !in s && !('a' <= c <= 'z') && !('A' <= c <= 'Z')
    ensures c !in Upper(s)
  {
    forall i | 0 <= i < |s| ensures Upper(s)[i] != c {
      assert s[i] != c;
    }
  }

  lemma {:induction false} SplitNoSepPrefix(s: string, c: char, k: nat)
    requires k <= |s|
    requires forall i :: 0 <= i < k ==> s[i] != c
    requires k == |s| || s[k] == c
    ensures Split(s, c)[0] == s[..k]
  {
    if k > 0 {
      SplitNoSepPrefix(s[1..], c, k - 1);
      assert s[..k] == [s[0]] + s[1..][..k - 1];
    }
  }

  /** For a canonical UUID the connection code is the first eight hex digits,
      upper-cased. */
  lemma CanonicalConnectionCode(u: string)
    requires IsCanonicalUuid(u)
    ensures |ConnectionCode(u)| == 8
    ensures forall i :: 0 <= i < 8 ==> IsUpperHex(ConnectionCode(u)[i]) && ConnectionCode(u)[i] == UpperChar(u[i])
  {
    assert u[8] == '-';
    SplitNoSepPrefix(u, '-', 8);
  }

  lemma {:induction false} RemoveAllConcat(a: string, b: string, c: char)
    ensures RemoveAll(a + b, c) == RemoveAll(a, c) + RemoveAll(b, c)
  {
    if a == [] {
      assert a + b == b;
    } else {
      assert (a + b)[0] == a[0];
      assert (a + b)[1..] == a[1..] + b;
      RemoveAllConcat(a[1..], b, c);
    }
  }

  lemma RemoveAllSegment(u: string, k: nat, m: nat, c: char)
    requires k < m <= |u| && u[k] == c && c !in u[k + 1..m]
    ensures RemoveAll(u[..m], c) == RemoveAll(u[..k], c) + u[k + 1..m]
  {
    assert u[..m] == u[..k] + ([c] + u[k + 1..m]);
    RemoveAllConcat(u[..k], [c] + u[k + 1..m], c);
    assert ([c] + u[k + 1..m])[1..] == u[k + 1..m];
  }

  /** For a canonical UUID the token is 32 upper-case hex digits. */
  lemma CanonicalConnectionToken(u: string)
    requires IsCanonicalUuid(u)
    ensures |ConnectionToken(u)| == 32
    ensures forall i :: 0 <= i < 32 ==> IsUpperHex(ConnectionToken(u)[i])
  {
    assert '-' !in u[..8];
    RemoveAllSegment(u, 8, 13, '-');
    RemoveAllSegment(u, 13, 18, '-');
    RemoveAllSegment(u, 18, 23, '-');
    RemoveAllSegment(u, 23, 36, '-');
    assert u[..36] == u;
    var r := RemoveAll(u, '-');
    assert |r| == 32;
    forall i | 0 <= i < 32 ensures IsUpperHex(Upper(r)[i]) {
      var j :| 0 <= j < 36 && u[j] == r[i];
    }
  }

  /** `s || ''`. */
  function OrEmpty(s: Option<string>): (r: string)
    ensures s.Some? ==> r == s.value
    ensures s.None? ==> r == ""
  {
    if s.Some? then s.value else ""
  }
}
