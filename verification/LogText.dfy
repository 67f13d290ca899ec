/** Text of a growing log file: UTF-8 offsets, line splitting, and the stable sort by timestamp. */
module LogText {

  /** Bytes a character takes in UTF-8. */
  function Width(c: char): (w: nat)
    ensures 1 <= w <= 4
  {
    if c as int < 0x80 then 1 else if c as int < 0x800 then 2 else if c as int < 0x1_0000 then 3 else 4
  }

  function ByteLength(s: string): nat {
    if s == "" then 0 else ByteLength(s[..|s| - 1]) + Width(s[|s| - 1])
  }

  /** Decode what follows the first `n` bytes; each byte of a cut character decodes to U+FFFD. */
  function DropBytes(s: string, n: nat): string
    decreases |s|
  {
    if n == 0 || s == "" then s
    else if Width(s[0]) <= n then DropBytes(s[1..], n - Width(s[0]))
    else seq(Width(s[0]) - n, _ => '\U{FFFD}') + s[1..]
  }

  lemma {:induction false} ByteLengthConcat(a: string, b: string)
    ensures ByteLength(a + b) == ByteLength(a) + ByteLength(b)
  {
    if b == "" {
      assert a + b == a;
    } else {
      var init := b[..|b| - 1];
      assert (a + b)[..|a + b| - 1] == a + init;
      ByteLengthConcat(a, init);
    }
  }

  /** Skipping the bytes of a prefix leaves exactly the rest. */
  lemma {:induction false} DropPrefix(a: string, b: string)
    ensures DropBytes(a + b, ByteLength(a)) == b
    decreases |a|
  {
    if a == "" {
      assert a + b == b;
    } else {
      assert a == [a[0]] + a[1..];
      ByteLengthConcat([a[0]], a[1..]);
      assert [a[0]][..0] == "" && ByteLength([a[0]]) == Width(a[0]);
      assert (a + b)[1..] == a[1..] + b;
      DropPrefix(a[1..], b);
    }
  }

  // ---------------------------------------------------------------- lines

  predicate IsBreak(c: char) {
    c in ['\n', '\r', '\U{0B}', '\U{0C}', '\U{1C}', '\U{1D}', '\U{1E}', '\U{85}', '\U{2028}', '\U{2029}']
  }

  /** Characters of the line break `s` starts with; a CR LF pair is one break. */
  function BreakWidth(s: string): (k: nat)
    requires s != ""
    ensures k <= |s|
  {
    if s[0] == '\r' && |s| > 1 && s[1] == '\n' then 2 else if IsBreak(s[0]) then 1 else 0
  }

  /** The lines of `s`, where `open` is the part of the current line already read. */
  function SplitFrom(open: string, s: string): seq<string>
    decreases |s|
  {
    if s == "" then (if open == "" then [] else [open])
    else if BreakWidth(s) > 0 then [open] + SplitFrom("", s[BreakWidth(s)..])
    else SplitFrom(open + [s[0]], s[1..])
  }

  function Lines(s: string): seq<string> {
    SplitFrom("", s)
  }

  predicate Terminated(s: string) {
    s == "" || s[|s| - 1] == '\n'
  }

  lemma {:induction false} SplitConcat(open: string, a: string, b: string)
    requires a != "" && Terminated(a)
    ensures SplitFrom(open, a + b) == SplitFrom(open, a) + SplitFrom("", b)
    decreases |a|
  {
    var k := BreakWidth(a);
    assert BreakWidth(a + b) == k;
    if k == 0 {
      assert (a + b)[1..] == a[1..] + b;
      SplitConcat(open + [a[0]], a[1..], b);
    } else {
      var rest := a[k..];
      assert (a + b)[k..] == rest + b;
      if rest == "" {
        assert rest + b == b;
      } else {
        SplitConcat("", rest, b);
      }
    }
  }

  /** A terminated text splits independently of what is appended to it. */
  lemma LinesConcat(a: string, b: string)
    requires Terminated(a)
    ensures Lines(a + b) == Lines(a) + Lines(b)
  {
    if a == "" {
      assert a + b == b;
    } else {
      SplitConcat("", a, b);
    }
  }

  /** A line up to its break is one line, and the rest splits alone; a line feed after a carriage return belongs to
      the same break. */
  lemma {:induction false} LineThenRest(open: string, line: string, c: char, rest: string)
    requires (forall i :: 0 <= i < |line| ==> !IsBreak(line[i])) && IsBreak(c)
    ensures !(c == '\r' && rest != "" && rest[0] == '\n') ==>
      SplitFrom(open, line + [c] + rest) == [open + line] + Lines(rest)
    ensures c == '\r' && rest != "" && rest[0] == '\n' ==>
      SplitFrom(open, line + [c] + rest) == [open + line] + Lines(rest[1..])
    decreases |line|
  {
    var s := line + [c] + rest;
    if line == "" {
      assert open + line == open && s[1..] == rest && s[0] == c;
      if c == '\r' && rest != "" && rest[0] == '\n' {
        assert s[2..] == rest[1..];
      }
    } else {
      assert s[0] == line[0] && s[1..] == line[1..] + [c] + rest;
      assert open + [line[0]] + line[1..] == open + line;
      LineThenRest(open + [line[0]], line[1..], c, rest);
    }
  }

  /** A text without a break is one line, or none if it is empty. */
  lemma {:induction false} NoBreakOneLine(open: string, line: string)
    requires forall i :: 0 <= i < |line| ==> !IsBreak(line[i])
    ensures SplitFrom(open, line) == if open + line == "" then [] else [open + line]
    decreases |line|
  {
    if line == "" {
      assert open + line == open;
    } else {
      assert open + [line[0]] + line[1..] == open + line;
      NoBreakOneLine(open + [line[0]], line[1..]);
    }
  }

  // ---------------------------------------------------------------- stable sort

  function InsertSorted<T>(xs: seq<T>, x: T, key: T -> int): seq<T> {
    if xs == [] then [x]
    else if key(xs[|xs| - 1]) <= key(x) then xs + [x]
    else InsertSorted(xs[..|xs| - 1], x, key) + [xs[|xs| - 1]]
  }

  /** Sort by key; equal keys keep their order. */
  function StableSort<T>(xs: seq<T>, key: T -> int): seq<T> {
    if xs == [] then [] else InsertSorted(StableSort(xs[..|xs| - 1], key), xs[|xs| - 1], key)
  }

  predicate SortedBy<T>(xs: seq<T>, key: T -> int) {
    forall i, j | 0 <= i < j < |xs| :: key(xs[i]) <= key(xs[j])
  }

  function Select<T>(xs: seq<T>, p: T -> bool): seq<T> {
    if xs == [] then [] else Select(xs[..|xs| - 1], p) + (if p(xs[|xs| - 1]) then [xs[|xs| - 1]] else [])
  }

  lemma {:induction false} SelectConcat<T>(a: seq<T>, b: seq<T>, p: T -> bool)
    ensures Select(a + b, p) == Select(a, p) + Select(b, p)
  {
    if b == [] {
      assert a + b == a;
    } else {
      var init := b[..|b| - 1];
      assert (a + b)[..|a + b| - 1] == a + init;
      SelectConcat(a, init, p);
    }
  }

  lemma {:induction false} SelectMembers<T>(xs: seq<T>, p: T -> bool, x: T)
    ensures x in Select(xs, p) <==> x in xs && p(x)
  {
    if xs == [] {
    } else {
      SelectMembers(xs[..|xs| - 1], p, x);
      assert x in xs <==> x in xs[..|xs| - 1] || x == xs[|xs| - 1];
    }
  }

  lemma {:induction false} InsertIsPermutation<T>(xs: seq<T>, x: T, key: T -> int)
    ensures multiset(InsertSorted(xs, x, key)) == multiset(xs) + multiset{x}
  {
    if xs == [] || key(xs[|xs| - 1]) <= key(x) {
    } else {
      InsertIsPermutation(xs[..|xs| - 1], x, key);
      assert xs == xs[..|xs| - 1] + [xs[|xs| - 1]];
    }
  }

  lemma {:induction false} InsertMembers<T>(xs: seq<T>, x: T, key: T -> int, y: T)
    ensures y in InsertSorted(xs, x, key) <==> y in xs || y == x
  {
    InsertIsPermutation(xs, x, key);
    assert y in multiset(InsertSorted(xs, x, key)) <==> y in multiset(xs) || y == x;
  }

  lemma AppendGreatest<T>(xs: seq<T>, last: T, key: T -> int)
    requires SortedBy(xs, key) && forall y :: y in xs ==> key(y) <= key(last)
    ensures SortedBy(xs + [last], key)
  {
  }

  lemma {:induction false} InsertKeepsSorted<T>(xs: seq<T>, x: T, key: T -> int)
    requires SortedBy(xs, key)
    ensures SortedBy(InsertSorted(xs, x, key), key)
  {
    if xs == [] {
    } else {
      var init, last := xs[..|xs| - 1], xs[|xs| - 1];
      if key(last) > key(x) {
        InsertKeepsSorted(init, x, key);
        forall y | y in InsertSorted(init, x, key)
          ensures key(y) <= key(last)
        {
          InsertMembers(init, x, key, y);
        }
        AppendGreatest(InsertSorted(init, x, key), last, key);
      } else {
        forall y | y in xs
          ensures key(y) <= key(x)
        {
          var i :| 0 <= i < |xs| && xs[i] == y;
          assert i < |xs| - 1 ==> key(xs[i]) <= key(xs[|xs| - 1]);
        }
        AppendGreatest(xs, x, key);
      }
    }
  }

  lemma {:induction false} SortIsSorted<T>(xs: seq<T>, key: T -> int)
    ensures SortedBy(StableSort(xs, key), key)
  {
    if xs == [] {
    } else {
      SortIsSorted(xs[..|xs| - 1], key);
      InsertKeepsSorted(StableSort(xs[..|xs| - 1], key), xs[|xs| - 1], key);
    }
  }

  lemma {:induction false} SortMembers<T>(xs: seq<T>, key: T -> int, x: T)
    ensures x in StableSort(xs, key) <==> x in xs
  {
    if xs == [] {
    } else {
      var init, last := xs[..|xs| - 1], xs[|xs| - 1];
      SortMembers(init, key, x);
      InsertMembers(StableSort(init, key), last, key, x);
      assert x in xs <==> x in init || x == last;
    }
  }

  lemma {:induction false} InsertKeepsSelection<T>(xs: seq<T>, x: T, key: T -> int, p: T -> bool)
    requires forall y :: y in xs && p(y) && p(x) ==> key(y) == key(x)
    ensures Select(InsertSorted(xs, x, key), p) == Select(xs + [x], p)
  {
    assert (xs + [x])[..|xs|] == xs;
    if xs != [] && key(xs[|xs| - 1]) > key(x) {
      var init, last := xs[..|xs| - 1], xs[|xs| - 1];
      InsertKeepsSelection(init, x, key, p);
      assert (init + [x])[..|init|] == init;
      var inserted := InsertSorted(init, x, key);
      assert (inserted + [last])[..|inserted|] == inserted;
    }
  }

  /** Stability: elements that share one key are met in the same order before and after the sort. */
  lemma {:induction false} SortKeepsSelection<T>(xs: seq<T>, key: T -> int, p: T -> bool)
    requires forall x, y :: x in xs && y in xs && p(x) && p(y) ==> key(x) == key(y)
    ensures Select(StableSort(xs, key), p) == Select(xs, p)
  {
    if xs == [] {
    } else {
      var init, last := xs[..|xs| - 1], xs[|xs| - 1];
      SortKeepsSelection(init, key, p);
      var sorted := StableSort(init, key);
      forall y | y in sorted && p(y) && p(last)
        ensures key(y) == key(last)
      {
        SortMembers(init, key, y);
      }
      InsertKeepsSelection(sorted, last, key, p);
      assert (sorted + [last])[..|sorted|] == sorted;
    }
  }
}
