/**
  The few Python `str` operations the generator relies on: `split` and `join`
  with a one-character separator, `replace` of one character by another,
  `upper` and `strip`, and slicing a prefix.
 */
module PyStrings {

  /** Number of occurrences of `c` in `s`. */
  function Count(s: string, c: char): nat
  {
    if s == [] then 0 else (if s[0] == c then 1 else 0) + Count(s[1..], c)
  }

  lemma {:induction false} CountConcat(a: string, b: string, c: char)
    ensures Count(a + b, c) == Count(a, c) + Count(b, c)
  {
    if a != [] {
      CountConcat(a[1..], b, c);
      assert (a + b)[1..] == a[1..] + b;
    } else {
      assert a + b == b;
    }
  }

  lemma {:induction false} CountAbsent(s: string, c: char)
    requires c !in s
    ensures Count(s, c) == 0
  {
    if s != [] {
      CountAbsent(s[1..], c);
    }
  }

  lemma {:induction false} CountZero(s: string, c: char)
    requires Count(s, c) == 0
    ensures c !in s
  {
    if s != [] {
      CountZero(s[1..], c);
      assert s == [s[0]] + s[1..];
    }
  }

  /** `s.split(c)`: the pieces between the separators, in order; never empty. */
  function Split(s: string, c: char): (r: seq<string>)
    ensures |r| == Count(s, c) + 1
    ensures forall i :: 0 <= i < |r| ==> c !in r[i]
  {
    if s == [] then [""]
    else
      var rest := Split(s[1..], c);
      if s[0] == c then [""] + rest
      else [[s[0]] + rest[0]] + rest[1..]
  }

  /** `c.join(parts)`. */
  function Join(parts: seq<string>, c: char): string
  {
    if |parts| == 0 then ""
    else if |parts| == 1 then parts[0]
    else parts[0] + [c] + Join(parts[1..], c)
  }

  /** Joining the pieces of a split gives back the original text. */
  lemma {:induction false} JoinSplit(s: string, c: char)
    ensures Join(Split(s, c), c) == s
  {
    if s != [] {
      JoinSplit(s[1..], c);
      var rest := Split(s[1..], c);
      if s[0] == c {
        assert Split(s, c) == [""] + rest;
        assert ([""] + rest)[1..] == rest;
        assert s == [c] + s[1..];
      } else {
        assert Split(s, c) == [[s[0]] + rest[0]] + rest[1..];
        if |rest| == 1 {
          assert s == [s[0]] + s[1..];
        } else {
          assert ([[s[0]] + rest[0]] + rest[1..])[1..] == rest[1..];
          assert s == [s[0]] + s[1..];
        }
      }
    }
  }

  /** Splitting a piece free of the separator, followed by the separator, peels that piece off. */
  lemma {:induction false} SplitPrefix(a: string, c: char, b: string)
    requires c !in a
    ensures Split(a + [c] + b, c) == [a] + Split(b, c)
  {
    if a == [] {
      assert ([c] + b)[1..] == b;
    } else {
      SplitPrefix(a[1..], c, b);
      assert (a + [c] + b)[1..] == a[1..] + [c] + b;
      assert [a[0]] + a[1..] == a;
    }
  }

  /** A text free of the separator splits into itself alone. */
  lemma {:induction false} SplitWhole(a: string, c: char)
    requires c !in a
    ensures Split(a, c) == [a]
  {
    if a != [] {
      SplitWhole(a[1..], c);
      assert [a[0]] + a[1..] == a;
    }
  }

  /** Splitting a join gives back the parts when none of them holds the separator. */
  lemma {:induction false} SplitJoin(parts: seq<string>, c: char)
    requires |parts| >= 1
    requires forall i :: 0 <= i < |parts| ==> c !in parts[i]
    ensures Split(Join(parts, c), c) == parts
  {
    if |parts| == 1 {
      SplitWhole(parts[0], c);
    } else {
      SplitJoin(parts[1..], c);
      SplitPrefix(parts[0], c, Join(parts[1..], c));
      assert [parts[0]] + parts[1..] == parts;
    }
  }

  /** Separator-free parts are recovered from their join: distinct part lists give distinct texts. */
  lemma JoinInjective(p: seq<string>, q: seq<string>, c: char)
    requires |p| >= 1 && |q| >= 1
    requires forall i :: 0 <= i < |p| ==> c !in p[i]
    requires forall i :: 0 <= i < |q| ==> c !in q[i]
    requires Join(p, c) == Join(q, c)
    ensures p == q
  {
    SplitJoin(p, c);
    SplitJoin(q, c);
  }

  /** `s.replace(a, b)` for one-character `a` and `b`. */
  function Replace(s: string, a: char, b: char): (r: string)
    ensures |r| == |s|
    ensures forall i :: 0 <= i < |s| ==> r[i] == if s[i] == a then b else s[i]
  {
    seq(|s|, i requires 0 <= i < |s| => if s[i] == a then b else s[i])
  }

  function UpperChar(ch: char): char
  {
    if 'a' <= ch <= 'z' then (ch as int - 32) as char else ch
  }

  /** `s.upper()` on ASCII letters. */
  function Upper(s: string): (r: string)
    ensures |r| == |s|
    ensures forall i :: 0 <= i < |s| ==> r[i] == UpperChar(s[i])
  {
    seq(|s|, i requires 0 <= i < |s| => UpperChar(s[i]))
  }

  /** What `parse_pair` splits: `pair.replace("-", "/").upper()`. */
  function NormalisePair(pair: string): string
  {
    Upper(Replace(pair, '-', '/'))
  }

  /** After normalisation, every '/' stands for a '/' or a '-' of the input. */
  lemma {:induction false} CountNormalisePair(pair: string)
    ensures Count(NormalisePair(pair), '/') == Count(pair, '/') + Count(pair, '-')
  {
    if pair != [] {
      CountNormalisePair(pair[1..]);
      assert NormalisePair(pair)[1..] == NormalisePair(pair[1..]);
    }
  }

  /** Normalisation works character by character, so it distributes over concatenation. */
  lemma NormalisePairConcat(a: string, b: string)
    ensures NormalisePair(a + b) == NormalisePair(a) + NormalisePair(b)
  {
    assert NormalisePair(a + b) == NormalisePair(a) + NormalisePair(b);
  }

  /** A text free of '/' and '-' stays free of '/' once normalised, and is only upper-cased. */
  lemma NormaliseFree(a: string)
    requires Count(a, '/') == 0 && Count(a, '-') == 0
    ensures NormalisePair(a) == Upper(a) && '/' !in Upper(a)
  {
    CountZero(a, '/');
    CountZero(a, '-');
    assert Replace(a, '-', '/') == a;
    forall i | 0 <= i < |a| ensures Upper(a)[i] != '/' {
      assert a[i] != '/';
    }
  }

  /** A separator character counts once among '/' and '-'. */
  lemma SeparatorCount(sep: char)
    requires sep == '/' || sep == '-'
    ensures Count([sep], '/') + Count([sep], '-') == 1
  {
    assert [sep][1..] == [];
  }

  /** Around the only separator, both sides are free of '/' and '-'. */
  lemma OnlySeparatorSides(pair: string, k: nat)
    requires k < |pair| && (pair[k] == '/' || pair[k] == '-')
    requires Count(pair, '/') + Count(pair, '-') == 1
    ensures Count(pair[..k], '/') == 0 && Count(pair[..k], '-') == 0
    ensures Count(pair[k + 1..], '/') == 0 && Count(pair[k + 1..], '-') == 0
  {
    var a, b := pair[..k], pair[k + 1..];
    assert pair == a + [pair[k]] + b;
    CountConcat(a + [pair[k]], b, '/');
    CountConcat(a, [pair[k]], '/');
    CountConcat(a + [pair[k]], b, '-');
    CountConcat(a, [pair[k]], '-');
    SeparatorCount(pair[k]);
  }

  /** Normalising a pair with one separator upper-cases both sides around a '/'. */
  lemma NormaliseAtSeparator(pair: string, k: nat)
    requires k < |pair| && (pair[k] == '/' || pair[k] == '-')
    requires Count(pair, '/') + Count(pair, '-') == 1
    ensures NormalisePair(pair) == Upper(pair[..k]) + ['/'] + Upper(pair[k + 1..])
  {
    var a, b := pair[..k], pair[k + 1..];
    assert pair == a + [pair[k]] + b;
    OnlySeparatorSides(pair, k);
    NormaliseFree(a);
    NormaliseFree(b);
    NormalisePairConcat(a + [pair[k]], b);
    NormalisePairConcat(a, [pair[k]]);
    assert NormalisePair([pair[k]]) == ['/'];
  }

  /** A pair with one separator at index k normalises and splits into the two upper-cased sides. */
  lemma SplitAtOnlySeparator(pair: string, k: nat)
    requires k < |pair| && (pair[k] == '/' || pair[k] == '-')
    requires Count(pair, '/') + Count(pair, '-') == 1
    ensures Split(NormalisePair(pair), '/') == [Upper(pair[..k]), Upper(pair[k + 1..])]
  {
    var a, b := pair[..k], pair[k + 1..];
    NormaliseAtSeparator(pair, k);
    OnlySeparatorSides(pair, k);
    NormaliseFree(a);
    NormaliseFree(b);
    SplitPrefix(Upper(a), '/', Upper(b));
    SplitWhole(Upper(b), '/');
  }

  /** Whitespace as Python's `str.isspace` sees it. */
  predicate IsSpace(ch: char)
  {
    var n := ch as int;
    (9 <= n <= 13) || (28 <= n <= 32) || n == 0x85 || n == 0xA0 || n == 0x1680
    || (0x2000 <= n <= 0x200A) || n == 0x2028 || n == 0x2029 || n == 0x202F
    || n == 0x205F || n == 0x3000
  }

  /** Number of leading whitespace characters. */
  function Lead(s: string): (n: nat)
    ensures n <= |s|
    ensures forall i :: 0 <= i < n ==> IsSpace(s[i])
    ensures n < |s| ==> !IsSpace(s[n])
  {
    if s == [] || !IsSpace(s[0]) then 0 else 1 + Lead(s[1..])
  }

  /** Number of trailing whitespace characters. */
  function Trail(s: string): (n: nat)
    ensures n <= |s|
    ensures forall i :: |s| - n <= i < |s| ==> IsSpace(s[i])
    ensures n < |s| ==> !IsSpace(s[|s| - n - 1])
  {
    if s == [] || !IsSpace(s[|s| - 1]) then 0 else 1 + Trail(s[..|s| - 1])
  }

  /**
    `s.strip()`: the middle of `s` left once leading and trailing whitespace
    is removed; it neither starts nor ends with whitespace.
   */
  function Strip(s: string): (r: string)
    ensures Lead(s) + |r| <= |s| && r == s[Lead(s)..Lead(s) + |r|]
    ensures forall i :: 0 <= i < Lead(s) || Lead(s) + |r| <= i < |s| ==> IsSpace(s[i])
    ensures r != [] ==> !IsSpace(r[0]) && !IsSpace(r[|r| - 1])
  {
    var t := s[Lead(s)..];
    t[..|t| - Trail(t)]
  }

  /** `s[:n]`. */
  function Take(s: string, n: nat): (r: string)
    ensures |r| == if n <= |s| then n else |s|
    ensures r <= s
  {
    if n <= |s| then s[..n] else s
  }
}
