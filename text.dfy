/** The string operations the catalog rules use: JavaScript's `trim`,
    `split(',')`, `join`, `includes`, `toLowerCase` (ASCII letters only)
    and the Hangul test of the name sort. Strings are sequences of Unicode
    scalar values. */
module Text {

  /** ECMAScript WhiteSpace and LineTerminator code points: what `trim` removes. */
  predicate IsWhitespace(c: char)
  {
    || c == '\t' || c == '\n' || c == '\U{000B}' || c == '\U{000C}' || c == '\r'
    || c == ' ' || c == '\U{00A0}' || c == '\U{1680}'
    || ('\U{2000}' <= c <= '\U{200A}')
    || c == '\U{2028}' || c == '\U{2029}' || c == '\U{202F}' || c == '\U{205F}'
    || c == '\U{3000}' || c == '\U{FEFF}'
  }

  predicate AllWhitespace(s: string)
  {
    forall k :: 0 <= k < |s| ==> IsWhitespace(s[k])
  }

  /** Every character of `s` from index `i` up to `j` is whitespace. */
  predicate WhitespaceBetween(s: string, i: int, j: int)
  {
    forall k :: i <= k < j && 0 <= k < |s| ==> IsWhitespace(s[k])
  }

  /** Neither end of `s` is whitespace. */
  predicate Trimmed(s: string)
  {
    s == [] || (!IsWhitespace(s[0]) && !IsWhitespace(s[|s| - 1]))
  }

  /** The length of the whitespace run at the front of `s`. */
  function Leading(s: string): (n: nat)
    ensures n <= |s|
    ensures WhitespaceBetween(s, 0, n)
    ensures n < |s| ==> !IsWhitespace(s[n])
  {
    if s != [] && IsWhitespace(s[0]) then
      var n := 1 + Leading(s[1..]);
      assert forall k :: 1 <= k < n ==> s[k] == s[1..][k - 1];
      n
    else 0
  }

  /** The length of the whitespace run at the back of `s`. */
  function Trailing(s: string): (n: nat)
    ensures n <= |s|
    ensures WhitespaceBetween(s, |s| - n, |s|)
    ensures n < |s| ==> !IsWhitespace(s[|s| - 1 - n])
  {
    if s != [] && IsWhitespace(s[|s| - 1]) then
      var front := s[..|s| - 1];
      var n := 1 + Trailing(front);
      assert forall k :: |s| - n <= k < |s| - 1 ==> s[k] == front[k];
      n
    else 0
  }

  /** How many whitespace characters `trim` strips from the front of `s`. */
  function TrimOffset(s: string): (n: nat)
    ensures n <= |s| && WhitespaceBetween(s, 0, n)
  {
    Leading(s)
  }

  /** `String.prototype.trim`: `s` without the whitespace at either end. */
  function Trim(s: string): (r: string)
    ensures |r| <= |s|
    ensures Trimmed(r)
  {
    var a := Leading(s);
    if a == |s| then [] else s[a..|s| - Trailing(s)]
  }

  /** `trim` keeps the slice of `s` between its leading and its trailing
      whitespace run. */
  lemma {:induction false} TrimSlice(s: string)
    ensures TrimOffset(s) + |Trim(s)| <= |s|
    ensures Trim(s) == s[TrimOffset(s)..TrimOffset(s) + |Trim(s)|]
    ensures WhitespaceBetween(s, 0, TrimOffset(s))
    ensures WhitespaceBetween(s, TrimOffset(s) + |Trim(s)|, |s|)
  {
  }

  /** Trimming cannot bring in a character the text lacks. */
  lemma {:induction false} TrimLacks(s: string, c: char)
    requires c !in s
    ensures c !in Trim(s)
  {
    var r, n := Trim(s), TrimOffset(s);
    TrimSlice(s);
    forall k | 0 <= k < |r| ensures r[k] != c {
      assert r[k] == s[n + k];
    }
  }

  /** Whitespace around an already trimmed text is exactly what `trim` removes. */
  lemma {:induction false} TrimPadded(front: string, t: string, back: string)
    requires AllWhitespace(front) && AllWhitespace(back) && Trimmed(t)
    ensures Trim(front + t + back) == t
  {
    var s := front + t + back;
    var r := Trim(s);
    var i := TrimOffset(s);
    TrimSlice(s);
    if t == [] {
      assert AllWhitespace(s);
    } else {
      // the first non-whitespace character of s is t[0], the last is t[|t| - 1]
      assert s[|front|] == t[0];
      assert s[|front| + |t| - 1] == t[|t| - 1];
      assert i == |front|;
      assert i + |r| == |front| + |t|;
      assert r == s[|front|..|front| + |t|];
    }
  }

  /** A trimmed text is its own trim. */
  lemma {:induction false} TrimTrimmed(t: string)
    requires Trimmed(t)
    ensures Trim(t) == t
  {
    TrimPadded("", t, "");
    assert "" + t + "" == t;
  }

  /** `parts.join(sep)`. */
  function Join(parts: seq<string>, sep: string): (r: string)
    ensures parts == [] ==> r == ""
    ensures |parts| == 1 ==> r == parts[0]
  {
    if |parts| == 0 then ""
    else if |parts| == 1 then parts[0]
    else parts[0] + sep + Join(parts[1..], sep)
  }

  /** A join starts with its first piece. */
  lemma JoinStartsWithFirst(parts: seq<string>, sep: string)
    requires parts != []
    ensures parts[0] <= Join(parts, sep)
  {
    if |parts| > 1 {
      var r := Join(parts, sep);
      assert r == parts[0] + (sep + Join(parts[1..], sep));
    }
  }

  /** `s.split(sep)` for a one-character separator: the pieces between the
      separators, at least one (`"".split(',')` is `[""]`). */
  function Split(s: string, sep: char): (r: seq<string>)
    ensures |r| >= 1
    ensures forall k :: 0 <= k < |r| ==> sep !in r[k]
  {
    if s == [] then [""]
    else
      var rest := Split(s[1..], sep);
      if s[0] == sep then [""] + rest
      else [[s[0]] + rest[0]] + rest[1..]
  }

  /** Joining the pieces of a split with the separator gives back the text. */
  lemma {:induction false} JoinSplit(s: string, sep: char)
    ensures Join(Split(s, sep), [sep]) == s
  {
    if s != [] {
      var rest := Split(s[1..], sep);
      JoinSplit(s[1..], sep);
      assert s == [s[0]] + s[1..];
      if s[0] != sep {
        var r := Split(s, sep);
        if |rest| == 1 {
          assert r == [[s[0]] + rest[0]];
        } else {
          assert r[1..] == rest[1..];
          assert Join(r, [sep]) == [s[0]] + rest[0] + [sep] + Join(rest[1..], [sep]);
        }
      }
    }
  }

  /** Splitting a join of separator-free pieces gives back the pieces. */
  lemma {:induction false} SplitJoin(parts: seq<string>, sep: char)
    requires |parts| >= 1
    requires forall k :: 0 <= k < |parts| ==> sep !in parts[k]
    ensures Split(Join(parts, [sep]), sep) == parts
  {
    if |parts| == 1 {
      SplitPlain(parts[0], [], sep);
      assert parts[0] + [] == parts[0];
    } else {
      SplitJoin(parts[1..], sep);
      var tail := Join(parts[1..], [sep]);
      var rest := [sep] + tail;
      assert Join(parts, [sep]) == parts[0] + rest;
      SplitPlain(parts[0], rest, sep);
      assert rest[0] == sep && rest[1..] == tail;
      assert Split(rest, sep) == [""] + parts[1..];
      assert parts[0] + "" == parts[0];
      assert [parts[0]] + parts[1..] == parts;
    }
  }

  /** Text without the separator extends the first piece of a split. */
  lemma {:induction false} SplitPlain(p: string, s: string, sep: char)
    requires sep !in p
    ensures Split(p + s, sep) == [p + Split(s, sep)[0]] + Split(s, sep)[1..]
  {
    if p == [] {
      assert p + s == s;
      var r := Split(s, sep);
      assert p + r[0] == r[0];
      assert [r[0]] + r[1..] == r;
    } else {
      var r := Split(s, sep);
      var rest := Split(p[1..] + s, sep);
      SplitPlain(p[1..], s, sep);
      assert rest == [p[1..] + r[0]] + r[1..];
      assert (p + s)[1..] == p[1..] + s;
      assert Split(p + s, sep) == [[p[0]] + rest[0]] + rest[1..];
      assert [p[0]] + (p[1..] + r[0]) == p + r[0];
    }
  }

  /** `t` occurs in `s` starting at index `i`. */
  predicate OccursAt(s: string, t: string, i: int)
  {
    0 <= i && i + |t| <= |s| && s[i..i + |t|] == t
  }

  /** `s.includes(t)`. */
  function Contains(s: string, t: string): (r: bool)
    ensures r ==> |t| <= |s|
    ensures t == [] ==> r
    decreases |s|
  {
    if |t| > |s| then false
    else if s[..|t|] == t then true
    else Contains(s[1..], t)
  }

  /** `Contains` holds exactly when `t` is a contiguous slice of `s`. */
  lemma {:induction false} ContainsIff(s: string, t: string)
    ensures Contains(s, t) <==> exists i :: OccursAt(s, t, i)
    decreases |s|
  {
    if |t| > |s| {
      assert forall i :: !OccursAt(s, t, i);
    } else if s[..|t|] == t {
      assert OccursAt(s, t, 0);
    } else {
      ContainsIff(s[1..], t);
      if Contains(s[1..], t) {
        var i :| OccursAt(s[1..], t, i);
        assert s[i + 1..i + 1 + |t|] == s[1..][i..i + |t|];
        assert OccursAt(s, t, i + 1);
      } else {
        forall i | OccursAt(s, t, i) ensures false {
          assert i != 0;
          assert s[1..][i - 1..i - 1 + |t|] == s[i..i + |t|];
          assert OccursAt(s[1..], t, i - 1);
        }
      }
    }
  }

  /** `toLowerCase` on one character; only ASCII letters are mapped. */
  function LowerChar(c: char): (lower: char)
    ensures !('A' <= lower <= 'Z')
    ensures 'A' <= c <= 'Z' ==> lower as int == c as int + 32
    ensures !('A' <= c <= 'Z') ==> lower == c
  {
    if 'A' <= c <= 'Z' then (c as int + 32) as char else c
  }

  /** `toLowerCase`, ASCII letters only. */
  function Lower(s: string): (r: string)
    ensures |r| == |s|
    ensures forall k :: 0 <= k < |r| ==> r[k] == LowerChar(s[k])
    ensures forall k :: 0 <= k < |r| ==> !('A' <= r[k] <= 'Z')
  {
    if s == [] then [] else [LowerChar(s[0])] + Lower(s[1..])
  }

  /** Trimming lower-cased text leaves it free of ASCII capitals. */
  lemma {:induction false} LowerLeavesNoCapital(s: string)
    ensures forall k :: 0 <= k < |Trim(Lower(s))| ==> !('A' <= Trim(Lower(s))[k] <= 'Z')
  {
    var lowered := Lower(s);
    TrimChars(lowered);
    forall k | 0 <= k < |Trim(lowered)| ensures !('A' <= Trim(lowered)[k] <= 'Z') {
      assert Trim(lowered)[k] == lowered[TrimOffset(lowered) + k];
    }
  }

  /** Each character of a trim is the character of `s` past the leading run. */
  lemma {:induction false} TrimChars(s: string)
    ensures TrimOffset(s) + |Trim(s)| <= |s|
    ensures forall k :: 0 <= k < |Trim(s)| ==> Trim(s)[k] == s[TrimOffset(s) + k]
  {
    TrimSlice(s);
  }

  /** The character class `[ㄱ-ㅎㅏ-ㅣ가-힣]`: compatibility jamo U+3131 to U+3163
      and precomposed syllables U+AC00 to U+D7A3. */
  predicate IsHangul(c: char)
  {
    ('\U{3131}' <= c <= '\U{3163}') || ('\U{AC00}' <= c <= '\U{D7A3}')
  }

  /** The regular expression test: some character of `s` is Hangul. */
  predicate ContainsHangul(s: string)
  {
    exists k :: 0 <= k < |s| && IsHangul(s[k])
  }

  /** The two ranges are closed: their first and last code points are
      Hangul, their neighbours and ASCII letters are not. */
  lemma HangulBounds()
    ensures IsHangul('\U{3131}') && IsHangul('\U{3163}') && IsHangul('\U{AC00}') && IsHangul('\U{D7A3}')
    ensures !IsHangul('\U{3130}') && !IsHangul('\U{3164}') && !IsHangul('\U{ABFF}') && !IsHangul('\U{D7A4}')
    ensures forall c: char :: 'A' <= c <= 'z' ==> !IsHangul(c)
  {
  }

  /** The test looks at each part of a concatenation on its own. */
  lemma {:induction false} ContainsHangulAppend(a: string, b: string)
    ensures ContainsHangul(a + b) <==> ContainsHangul(a) || ContainsHangul(b)
  {
    var s := a + b;
    if ContainsHangul(s) {
      var k :| 0 <= k < |s| && IsHangul(s[k]);
      if k < |a| { assert s[k] == a[k]; } else { assert s[k] == b[k - |a|]; }
    }
    if ContainsHangul(a) {
      var k :| 0 <= k < |a| && IsHangul(a[k]);
      assert s[k] == a[k];
    }
    if ContainsHangul(b) {
      var k :| 0 <= k < |b| && IsHangul(b[k]);
      assert s[|a| + k] == b[k];
    }
  }
}
