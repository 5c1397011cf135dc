/** The array and string operations the bot's TypeScript uses
    (`filter`, `map`, `join`, `split`, `includes`, number-to-string),
    with the facts about them that the rest of the model relies on. */
module Seqs {

  /** `s.filter(p)`. */
  function Filter<T>(s: seq<T>, p: T -> bool): (r: seq<T>)
    ensures |r| <= |s|
    ensures forall i :: 0 <= i < |r| ==> r[i] in s && p(r[i])
  {
    if s == [] then []
    else (if p(s[0]) then [s[0]] else []) + Filter(s[1..], p)
  }

  /** `s.map(f)`. */
  function MapSeq<T, U>(s: seq<T>, f: T -> U): (r: seq<U>)
    ensures |r| == |s|
    ensures forall i :: 0 <= i < |s| ==> r[i] == f(s[i])
  {
    if s == [] then [] else [f(s[0])] + MapSeq(s[1..], f)
  }

  /** `parts.join(sep)`. */
  function Join(parts: seq<string>, sep: string): string
  {
    if |parts| == 0 then ""
    else if |parts| == 1 then parts[0]
    else parts[0] + sep + Join(parts[1..], sep)
  }

  /** `s.split(c)` for a one-character separator: never empty, and `""`
      splits into `[""]`. */
  function Split(s: string, c: char): (r: seq<string>)
    ensures |r| >= 1
  {
    if s == [] then [""]
    else
      var rest := Split(s[1..], c);
      if s[0] == c then [""] + rest else [[s[0]] + rest[0]] + rest[1..]
  }

  /** `text.includes(pattern)`. */
  predicate Contains(text: string, pattern: string)
  {
    pattern <= text || (|text| > 0 && Contains(text[1..], pattern))
  }

  /** `a` is `b` with some elements removed and the rest in their order. */
  predicate IsSubsequence<T(==)>(a: seq<T>, b: seq<T>)
    decreases |b|
  {
    if a == [] then true
    else if b == [] then false
    else if a[0] == b[0] then IsSubsequence(a[1..], b[1..])
    else IsSubsequence(a, b[1..])
  }

  /** The names of the ten decimal digits. */
  function DigitChar(d: int): (c: char)
    requires 0 <= d < 10
    ensures '0' <= c <= '9' && c as int - '0' as int == d
  {
    ('0' as int + d) as char
  }

  /** `String(n)` for a non-negative integer: its decimal digits. */
  function NatToString(n: nat): (r: string)
    ensures |r| >= 1
    ensures forall i :: 0 <= i < |r| ==> '0' <= r[i] <= '9'
  {
    if n < 10 then [DigitChar(n)] else NatToString(n / 10) + [DigitChar(n % 10)]
  }

  /** The value of a string of decimal digits. */
  function ParseNat(s: string): nat
    requires forall i :: 0 <= i < |s| ==> '0' <= s[i] <= '9'
  {
    if s == [] then 0 else ParseNat(s[..|s| - 1]) * 10 + (s[|s| - 1] as int - '0' as int)
  }

  // ---------------------------------------------------------------------
  // Filter: membership, multiplicity and order

  /** An element is kept exactly when it is in the input and passes. */
  lemma {:induction false} FilterMembership<T>(s: seq<T>, p: T -> bool, x: T)
    ensures x in Filter(s, p) <==> x in s && p(x)
  {
    if s != [] {
      FilterMembership(s[1..], p, x);
      assert s == [s[0]] + s[1..];
    }
  }

  /** Each kept element is kept as often as it occurs in the input. */
  lemma {:induction false} FilterMultiplicity<T>(s: seq<T>, p: T -> bool, x: T)
    ensures multiset(Filter(s, p))[x] == if p(x) then multiset(s)[x] else 0
  {
    if s != [] {
      FilterMultiplicity(s[1..], p, x);
      assert s == [s[0]] + s[1..];
      assert multiset(s) == multiset([s[0]]) + multiset(s[1..]);
    }
  }

  /** The kept elements stay in their input order. */
  lemma {:induction false} FilterIsSubsequence<T>(s: seq<T>, p: T -> bool)
    ensures IsSubsequence(Filter(s, p), s)
  {
    if s != [] {
      FilterIsSubsequence(s[1..], p);
      var r := Filter(s[1..], p);
      if p(s[0]) {
        assert Filter(s, p) == [s[0]] + r;
        assert ([s[0]] + r)[1..] == r;
      } else {
        assert Filter(s, p) == r;
      }
    }
  }

  /** Filtering with a predicate and with its negation splits the input. */
  lemma {:induction false} FilterComplementLength<T>(s: seq<T>, p: T -> bool, q: T -> bool)
    requires forall x :: q(x) == !p(x)
    ensures |Filter(s, p)| + |Filter(s, q)| == |s|
  {
    if s != [] {
      FilterComplementLength(s[1..], p, q);
    }
  }

  /** Filtering distributes over concatenation. */
  lemma {:induction false} FilterAppend<T>(a: seq<T>, b: seq<T>, p: T -> bool)
    ensures Filter(a + b, p) == Filter(a, p) + Filter(b, p)
  {
    if a == [] {
      assert a + b == b;
    } else {
      var head := if p(a[0]) then [a[0]] else [];
      assert (a + b)[0] == a[0];
      assert (a + b)[1..] == a[1..] + b;
      assert Filter(a + b, p) == head + Filter(a[1..] + b, p);
      FilterAppend(a[1..], b, p);
      assert Filter(a, p) == head + Filter(a[1..], p);
    }
  }

  // ---------------------------------------------------------------------
  // Join and Split

  lemma {:induction false} SplitWithoutSeparator(a: string, c: char)
    requires c !in a
    ensures Split(a, c) == [a]
  {
    if a != [] {
      SplitWithoutSeparator(a[1..], c);
      assert [a[0]] + a[1..] == a;
    }
  }

  lemma {:induction false} SplitAtFirstSeparator(a: string, b: string, c: char)
    requires c !in a
    ensures Split(a + [c] + b, c) == [a] + Split(b, c)
  {
    if a == [] {
      assert a + [c] + b == [c] + b;
      assert ([c] + b)[1..] == b;
    } else {
      SplitAtFirstSeparator(a[1..], b, c);
      assert (a + [c] + b)[1..] == a[1..] + [c] + b;
      assert [a[0]] + a[1..] == a;
    }
  }

  /** Text after the last separator becomes the last part. */
  lemma {:induction false} SplitAtLastSeparator(a: string, b: string, c: char)
    requires c !in b
    ensures Split(a + [c] + b, c) == Split(a, c) + [b]
  {
    if a == [] {
      assert a + [c] + b == [c] + b;
      assert ([c] + b)[1..] == b;
      SplitWithoutSeparator(b, c);
    } else {
      SplitAtLastSeparator(a[1..], b, c);
      assert (a + [c] + b)[0] == a[0];
      assert (a + [c] + b)[1..] == a[1..] + [c] + b;
    }
  }

  /** Splitting a joined list of separator-free parts gives the parts back. */
  lemma {:induction false} SplitJoin(parts: seq<string>, c: char)
    requires |parts| >= 1
    requires forall i :: 0 <= i < |parts| ==> c !in parts[i]
    ensures Split(Join(parts, [c]), c) == parts
  {
    if |parts| == 1 {
      SplitWithoutSeparator(parts[0], c);
    } else {
      SplitJoin(parts[1..], c);
      SplitAtFirstSeparator(parts[0], Join(parts[1..], [c]), c);
      assert [parts[0]] + parts[1..] == parts;
    }
  }

  /** A joined non-empty list starts with its first part and a separator. */
  lemma JoinCons(head: string, tail: seq<string>, sep: string)
    requires |tail| >= 1
    ensures Join([head] + tail, sep) == head + sep + Join(tail, sep)
  {
    assert ([head] + tail)[1..] == tail;
  }

  /** Joining two non-empty lists puts one separator between their joins. */
  lemma {:induction false} JoinAppend(a: seq<string>, b: seq<string>, sep: string)
    requires |a| >= 1 && |b| >= 1
    ensures Join(a + b, sep) == Join(a, sep) + sep + Join(b, sep)
  {
    if |a| == 1 {
      JoinCons(a[0], b, sep);
      assert [a[0]] + b == a + b;
    } else {
      JoinAppend(a[1..], b, sep);
      assert (a + b)[1..] == a[1..] + b;
      JoinCons(a[0], a[1..] + b, sep);
      assert [a[0]] + (a[1..] + b) == a + b;
      JoinCons(a[0], a[1..], sep);
      assert [a[0]] + a[1..] == a;
    }
  }

  /** Splitting the join of separator-free parts followed by a
      separator-free tail: the tail stays glued to the last part. */
  lemma {:induction false} SplitJoinThen(parts: seq<string>, tail: string, c: char)
    requires |parts| >= 1
    requires forall i :: 0 <= i < |parts| ==> c !in parts[i]
    requires c !in tail
    ensures Split(Join(parts, [c]) + tail, c) == parts[..|parts| - 1] + [parts[|parts| - 1] + tail]
  {
    if |parts| == 1 {
      SplitWithoutSeparator(parts[0] + tail, c);
    } else {
      SplitJoinThen(parts[1..], tail, c);
      assert Join(parts, [c]) + tail == parts[0] + [c] + (Join(parts[1..], [c]) + tail);
      SplitAtFirstSeparator(parts[0], Join(parts[1..], [c]) + tail, c);
      assert [parts[0]] + parts[1..][..|parts[1..]| - 1] == parts[..|parts| - 1];
    }
  }

  /** Indenting the first part of a join indents the whole join. */
  lemma IndentFirst(indent: string, lines: seq<string>, sep: string)
    requires |lines| >= 1
    ensures Join([indent + lines[0]] + lines[1..], sep) == indent + Join(lines, sep)
  {
    if |lines| > 1 {
      JoinCons(indent + lines[0], lines[1..], sep);
      JoinCons(lines[0], lines[1..], sep);
      assert [lines[0]] + lines[1..] == lines;
    }
  }

  /** Separator-free lines, the first one indented and closing lines
      added, are still separator-free. */
  lemma IndentedLinesFree(indent: string, lines: seq<string>, tail: seq<string>, c: char)
    requires c !in indent
    requires |lines| >= 1 && forall i :: 0 <= i < |lines| ==> c !in lines[i]
    requires forall i :: 0 <= i < |tail| ==> c !in tail[i]
    ensures var all := [indent + lines[0]] + lines[1..] + tail;
      forall i :: 0 <= i < |all| ==> c !in all[i]
  {
    var all := [indent + lines[0]] + lines[1..] + tail;
    forall i | 0 <= i < |all|
      ensures c !in all[i]
    {
      if i == 0 {
        assert all[0] == indent + lines[0];
      } else if i < |lines| {
        assert all[i] == lines[i];
      } else {
        assert all[i] == tail[i - |lines|];
      }
    }
  }

  /** A block of text that opens with a separator, a heading line, an
      indented list of lines and some closing lines splits into exactly
      those lines. */
  lemma {:induction false} SplitBlock(head: string, indent: string, lines: seq<string>, tail: seq<string>, c: char)
    requires c !in head && c !in indent
    requires |lines| >= 1 && forall i :: 0 <= i < |lines| ==> c !in lines[i]
    requires |tail| >= 1 && forall i :: 0 <= i < |tail| ==> c !in tail[i]
    ensures Split([c] + head + [c] + (indent + Join(lines, [c])) + [c] + Join(tail, [c]), c)
            == ["", head, indent + lines[0]] + lines[1..] + tail
  {
    var parts := [indent + lines[0]] + lines[1..];
    var body := Join(parts, [c]) + [c] + Join(tail, [c]);
    assert Join(parts, [c]) == indent + Join(lines, [c]) by {
      IndentFirst(indent, lines, [c]);
    }
    assert Split(body, c) == parts + tail by {
      IndentedLinesFree(indent, lines, tail, c);
      SplitJoin(parts + tail, c);
      JoinAppend(parts, tail, [c]);
    }
    assert Split(head + [c] + body, c) == [head] + parts + tail by {
      SplitAtFirstSeparator(head, body, c);
    }
    assert Split("" + [c] + (head + [c] + body), c) == [""] + ([head] + parts + tail) by {
      SplitAtFirstSeparator("", head + [c] + body, c);
    }
    assert [c] + head + [c] + (indent + Join(lines, [c])) + [c] + Join(tail, [c]) == "" + [c] + (head + [c] + body);
    assert [""] + ([head] + parts + tail) == ["", head, indent + lines[0]] + lines[1..] + tail;
  }

  /** Mapping distributes over concatenation. */
  lemma {:induction false} MapSeqAppend<T, U>(a: seq<T>, b: seq<T>, f: T -> U)
    ensures MapSeq(a + b, f) == MapSeq(a, f) + MapSeq(b, f)
  {
    var l, r := MapSeq(a + b, f), MapSeq(a, f) + MapSeq(b, f);
    assert |l| == |r|;
    forall i | 0 <= i < |l|
      ensures l[i] == r[i]
    {
      assert l[i] == f((a + b)[i]);
      if i < |a| {
        assert r[i] == MapSeq(a, f)[i] == f(a[i]);
      } else {
        assert r[i] == MapSeq(b, f)[i - |a|] == f(b[i - |a|]);
      }
    }
  }

  // ---------------------------------------------------------------------
  // Contains

  /** A text contains whatever occurs in it at some position. */
  lemma {:induction false} ContainsInfix(a: string, pattern: string, b: string)
    ensures Contains(a + pattern + b, pattern)
  {
    if a == [] {
      assert a + pattern + b == pattern + b;
    } else {
      ContainsInfix(a[1..], pattern, b);
      assert (a + pattern + b)[1..] == a[1..] + pattern + b;
    }
  }

  /** Text added after a match keeps it. */
  lemma {:induction false} ContainsAppendRight(m: string, b: string, pattern: string)
    requires Contains(m, pattern)
    ensures Contains(m + b, pattern)
  {
    if !(pattern <= m) {
      ContainsAppendRight(m[1..], b, pattern);
      assert (m + b)[1..] == m[1..] + b;
    }
  }

  /** Text added before a match keeps it. */
  lemma {:induction false} ContainsPrependLeft(a: string, text: string, pattern: string)
    requires Contains(text, pattern)
    ensures Contains(a + text, pattern)
  {
    if a == [] {
      assert a + text == text;
    } else {
      ContainsPrependLeft(a[1..], text, pattern);
      assert (a + text)[1..] == a[1..] + text;
    }
  }

  /** Text around a match keeps it. */
  lemma ContainsMiddle(a: string, m: string, b: string, pattern: string)
    requires Contains(m, pattern)
    ensures Contains(a + m + b, pattern)
  {
    ContainsAppendRight(m, b, pattern);
    ContainsPrependLeft(a, m + b, pattern);
    assert a + (m + b) == a + m + b;
  }

  /** A joined text contains each of its parts. */
  lemma {:induction false} JoinContainsPart(parts: seq<string>, sep: string, i: int)
    requires 0 <= i < |parts|
    ensures Contains(Join(parts, sep), parts[i])
  {
    if i == 0 {
      if |parts| > 1 {
        assert Join(parts, sep) == parts[0] + (sep + Join(parts[1..], sep));
      }
    } else {
      JoinContainsPart(parts[1..], sep, i - 1);
      ContainsPrependLeft(parts[0] + sep, Join(parts[1..], sep), parts[i]);
    }
  }

  // ---------------------------------------------------------------------
  // Number rendering

  /** Reading the decimal rendering of a number gives the number back. */
  lemma {:induction false} ParseNatToString(n: nat)
    ensures ParseNat(NatToString(n)) == n
  {
    if n >= 10 {
      ParseNatToString(n / 10);
      var s := NatToString(n);
      assert s[..|s| - 1] == NatToString(n / 10);
    }
  }

  /** Different numbers have different renderings. */
  lemma NatToStringInjective(a: nat, b: nat)
    ensures NatToString(a) == NatToString(b) ==> a == b
  {
    ParseNatToString(a);
    ParseNatToString(b);
  }
}
