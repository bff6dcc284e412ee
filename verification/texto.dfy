/**
 * The JavaScript string operations the statement parser and the account forms rely on:
 * `split` on one or several separator characters, `trim`, the regular-expression filter
 * `replace(/[^\d,.-]/g, '')` and the first-occurrence `replace(',', '.')`.
 */
module Texto {

  /** White space and line terminators, the characters `String.prototype.trim` removes. */
  predicate IsSpace(c: char) {
    if c <= ' ' then c == ' ' || '\t' <= c <= '\r'
    else if c < '\U{00A0}' then false
    else c in WideSpaces
  }

  /** The non-ASCII white space: no-break, Ogham, the en quad to hair space range, separators, BOM. */
  const WideSpaces: set<char> := {
    '\U{00A0}', '\U{1680}',
    '\U{2000}', '\U{2001}', '\U{2002}', '\U{2003}', '\U{2004}', '\U{2005}',
    '\U{2006}', '\U{2007}', '\U{2008}', '\U{2009}', '\U{200A}',
    '\U{2028}', '\U{2029}', '\U{202F}', '\U{205F}', '\U{3000}', '\U{FEFF}'}

  /** Number of characters of `s` that belong to `seps`. */
  function Count(s: string, seps: set<char>): nat
  {
    if s == [] then 0 else (if s[0] in seps then 1 else 0) + Count(s[1..], seps)
  }

  /**
   * `s.split(sep)` generalised to a character class: the pieces between consecutive
   * separators, empty pieces included, so there is always one more piece than separators.
   */
  function Split(s: string, seps: set<char>): (parts: seq<string>)
    ensures |parts| == Count(s, seps) + 1
    ensures forall i, j :: 0 <= i < |parts| && 0 <= j < |parts[i]| ==> parts[i][j] !in seps
    decreases |s|
  {
    if s == [] then [""]
    else
      var rest := Split(s[1..], seps);
      if s[0] in seps then [""] + rest
      else [[s[0]] + rest[0]] + rest[1..]
  }

  /** `parts.join(sep)`. */
  function Join(parts: seq<string>, sep: char): string
    requires |parts| >= 1
  {
    if |parts| == 1 then parts[0] else parts[0] + [sep] + Join(parts[1..], sep)
  }

  /** Splitting on one character and joining back with it gives the original text. */
  lemma {:induction false} SplitJoin(s: string, sep: char)
    ensures Join(Split(s, {sep}), sep) == s
    decreases |s|
  {
    if s != [] {
      var rest := Split(s[1..], {sep});
      SplitJoin(s[1..], sep);
      if s[0] == sep {
        assert Split(s, {sep}) == [""] + rest;
        assert ([""] + rest)[1..] == rest;
        assert s == [sep] + s[1..];
      } else {
        var parts := [[s[0]] + rest[0]] + rest[1..];
        assert Split(s, {sep}) == parts;
        if |rest| == 1 {
          assert s == [s[0]] + s[1..];
        } else {
          assert parts[1..] == rest[1..];
          calc {
            Join(parts, sep);
            ([s[0]] + rest[0]) + [sep] + Join(rest[1..], sep);
            [s[0]] + (rest[0] + [sep] + Join(rest[1..], sep));
            [s[0]] + Join(rest, sep);
            [s[0]] + s[1..];
            s;
          }
        }
      }
    }
  }

  /** Text without any separator is one single piece. */
  lemma {:induction false} SplitWithoutSeparator(s: string, seps: set<char>)
    requires forall i :: 0 <= i < |s| ==> s[i] !in seps
    ensures Split(s, seps) == [s]
    decreases |s|
  {
    if s != [] {
      SplitWithoutSeparator(s[1..], seps);
      assert [s[0]] + s[1..] == s;
    }
  }

  /** A piece free of separators followed by a separator becomes the first piece. */
  lemma {:induction false} SplitAtSeparator(a: string, c: char, b: string, seps: set<char>)
    requires forall i :: 0 <= i < |a| ==> a[i] !in seps
    requires c in seps
    ensures Split(a + [c] + b, seps) == [a] + Split(b, seps)
    decreases |a|
  {
    if a == [] {
      assert a + [c] + b == [c] + b;
      assert ([c] + b)[1..] == b;
    } else {
      var s := a + [c] + b;
      assert s[0] == a[0] && s[1..] == a[1..] + [c] + b;
      SplitAtSeparator(a[1..], c, b, seps);
      assert [a[0]] + a[1..] == a;
    }
  }

  /** A piece free of separators, followed by nothing or by a separator, is the first piece. */
  lemma {:induction false} SplitFirstPiece(a: string, rest: string, seps: set<char>)
    requires forall i :: 0 <= i < |a| ==> a[i] !in seps
    requires rest == [] || rest[0] in seps
    ensures Split(a + rest, seps)[0] == a
  {
    if rest == [] {
      assert a + rest == a;
      SplitWithoutSeparator(a, seps);
    } else {
      assert a + rest == a + [rest[0]] + rest[1..];
      SplitAtSeparator(a, rest[0], rest[1..], seps);
    }
  }

  /** `s.trimStart()`: drops the leading white space and nothing else. */
  function TrimStart(s: string): (r: string)
    ensures |r| <= |s| && r == s[|s| - |r|..]
    ensures forall i :: 0 <= i < |s| - |r| ==> IsSpace(s[i])
    ensures r != [] ==> !IsSpace(r[0])
  {
    if s != [] && IsSpace(s[0]) then TrimStart(s[1..]) else s
  }

  lemma {:induction false} TrimStartNonSpace(s: string)
    requires s != [] && !IsSpace(s[0])
    ensures TrimStart(s) == s
  {
  }

  /** `s.trimEnd()`: drops the trailing white space and nothing else. */
  function TrimEnd(s: string): (r: string)
    ensures |r| <= |s| && r == s[..|r|]
    ensures forall i :: |r| <= i < |s| ==> IsSpace(s[i])
    ensures r != [] ==> !IsSpace(r[|r| - 1])
  {
    if s != [] && IsSpace(s[|s| - 1]) then TrimEnd(s[..|s| - 1]) else s
  }

  /** `s.trim()`. */
  function Trim(s: string): (r: string)
    ensures |r| <= |s|
  {
    TrimEnd(TrimStart(s))
  }

  /** The trimmed text is empty exactly when the text is white space only. */
  lemma {:induction false} TrimEmptyIff(s: string)
    ensures Trim(s) == [] <==> forall i :: 0 <= i < |s| ==> IsSpace(s[i])
  {
    var t := TrimStart(s);
    if Trim(s) == [] {
      forall i | 0 <= i < |s| ensures IsSpace(s[i]) {
        if i >= |s| - |t| {
          assert s[i] == t[i - (|s| - |t|)];
        }
      }
    } else {
      var k := |s| - |t|;
      assert t[0] == s[k];
    }
  }

  /** The trimmed text starts and ends with a non-space. */
  lemma {:induction false} TrimNonSpaceBounds(s: string)
    ensures var r := Trim(s); r != [] ==> !IsSpace(r[0]) && !IsSpace(r[|r| - 1])
  {
    TrimEnds(TrimStart(s));
  }

  /** The trimmed text is the slice of the original that follows the leading white space. */
  lemma {:induction false} TrimIsSlice(s: string)
    ensures var i := |s| - |TrimStart(s)|; Trim(s) == s[i..i + |Trim(s)|]
  {
    var t := TrimStart(s);
    var r := TrimEnd(t);
    TrimSlice(s, t, r);
    assert Trim(s) == r;
  }

  lemma {:induction false} TrimEnds(t: string)
    requires t != [] ==> !IsSpace(t[0])
    ensures var r := TrimEnd(t); r != [] ==> !IsSpace(r[0]) && !IsSpace(r[|r| - 1])
  {
    var r := TrimEnd(t);
    if r != [] {
      assert r[0] == t[0];
    }
  }

  lemma {:induction false} TrimSlice(s: string, t: string, r: string)
    requires |t| <= |s| && t == s[|s| - |t|..]
    requires |r| <= |t| && r == t[..|r|]
    ensures var i := |s| - |t|; r == s[i..i + |r|]
  {
  }

  /** Text that starts and ends with a non-space is its own trim. */
  lemma {:induction false} TrimNonSpaceEnds(s: string)
    requires s != [] && !IsSpace(s[0]) && !IsSpace(s[|s| - 1])
    ensures Trim(s) == s
  {
    TrimStartNonSpace(s);
  }

  /** Trimming twice is trimming once. */
  lemma {:induction false} TrimIdempotent(s: string)
    ensures Trim(Trim(s)) == Trim(s)
  {
    var r := Trim(s);
    TrimNonSpaceBounds(s);
    if r != [] {
      assert TrimStart(r) == r;
      assert TrimEnd(r) == r;
    }
  }

  /** The characters the pattern `[\d,.-]` accepts. */
  predicate IsAmountChar(c: char) {
    ('0' <= c <= '9') || c == ',' || c == '.' || c == '-'
  }

  /** `s.replace(/[^\d,.-]/g, '')`: keeps the digits, commas, periods and minus signs, in order. */
  function KeepAmountChars(s: string): (r: string)
    ensures |r| <= |s|
    ensures forall i :: 0 <= i < |r| ==> IsAmountChar(r[i])
    ensures forall c :: c in r <==> c in s && IsAmountChar(c)
  {
    if s == [] then []
    else if IsAmountChar(s[0]) then [s[0]] + KeepAmountChars(s[1..])
    else KeepAmountChars(s[1..])
  }

  /** Filtering text already made of amount characters changes nothing. */
  lemma {:induction false} KeepAmountCharsIdentity(s: string)
    requires forall i :: 0 <= i < |s| ==> IsAmountChar(s[i])
    ensures KeepAmountChars(s) == s
  {
    if s != [] {
      KeepAmountCharsIdentity(s[1..]);
      assert [s[0]] + s[1..] == s;
    }
  }

  /** Filtering distributes over concatenation. */
  lemma {:induction false} KeepAmountCharsConcat(a: string, b: string)
    ensures KeepAmountChars(a + b) == KeepAmountChars(a) + KeepAmountChars(b)
  {
    if a == [] {
      assert a + b == b;
    } else {
      assert (a + b)[0] == a[0] && (a + b)[1..] == a[1..] + b;
      KeepAmountCharsConcat(a[1..], b);
      if IsAmountChar(a[0]) {
        calc {
          KeepAmountChars(a + b);
          [a[0]] + KeepAmountChars(a[1..] + b);
          [a[0]] + (KeepAmountChars(a[1..]) + KeepAmountChars(b));
          ([a[0]] + KeepAmountChars(a[1..])) + KeepAmountChars(b);
        }
      }
    }
  }

  lemma {:induction false} ComCabeca(s: string, k: nat, b: char)
    requires k + 1 < |s|
    ensures [s[0]] + (s[1..][..k] + [b] + s[1..][k + 1..]) == s[..k + 1] + [b] + s[k + 2..]
  {
    assert s[..k + 1] == [s[0]] + s[1..][..k];
    assert s[k + 2..] == s[1..][k + 1..];
  }

  /** `s.replace(a, b)` with a one-character string pattern: only the first `a` becomes `b`. */
  function ReplaceFirst(s: string, a: char, b: char): (r: string)
    ensures |r| == |s|
    ensures a !in s ==> r == s
  {
    if s == [] then []
    else if s[0] == a then [b] + s[1..]
    else [s[0]] + ReplaceFirst(s[1..], a, b)
  }

  /** Index of the first occurrence of `a` in `s`. */
  function IndexOf(s: string, a: char): (k: nat)
    requires a in s
    ensures k < |s| && s[k] == a && a !in s[..k]
  {
    if s[0] == a then 0
    else
      var k' := IndexOf(s[1..], a);
      assert s[..k' + 1] == [s[0]] + s[1..][..k'];
      k' + 1
  }

  /** When `a` occurs, exactly its first occurrence is replaced and nothing else changes. */
  lemma {:induction false} ReplaceFirstOccurrence(s: string, a: char, b: char)
    requires a in s
    ensures var k := IndexOf(s, a); ReplaceFirst(s, a, b) == s[..k] + [b] + s[k + 1..]
  {
    if s[0] != a {
      var k' := IndexOf(s[1..], a);
      ReplaceFirstOccurrence(s[1..], a, b);
      assert IndexOf(s, a) == k' + 1;
      assert ReplaceFirst(s, a, b) == [s[0]] + ReplaceFirst(s[1..], a, b);
      ComCabeca(s, k', b);
    }
  }
}
