/** String primitives the JavaScript code relies on: `trim`, `split('\n')`,
    `join('\n')`, `startsWith` and `includes`, over `seq<char>`. */
module Text {

  /** The line separator of the `.recall` format and of every prompt join. */
  const NL: char := '\n'

  /** The ECMAScript WhiteSpace and LineTerminator code points: exactly what
      `String.prototype.trim` strips and what the regular-expression class `\s`
      matches. */
  predicate IsWs(c: char) {
    || c == '\t' || c == '\n' || c == '\U{B}' || c == '\U{C}' || c == '\r' || c == ' '
    || c == '\U{A0}' || c == '\U{1680}' || ('\U{2000}' <= c <= '\U{200A}')
    || c == '\U{2028}' || c == '\U{2029}' || c == '\U{202F}' || c == '\U{205F}'
    || c == '\U{3000}' || c == '\U{FEFF}'
  }

  predicate AllWs(s: string) {
    forall k :: 0 <= k < |s| ==> IsWs(s[k])
  }

  /** No whitespace at either end: what `trim` leaves behind. */
  predicate Trimmed(s: string) {
    s == "" || (!IsWs(s[0]) && !IsWs(s[|s| - 1]))
  }

  /** `trimStart`: drops the whitespace at the front. */
  function TrimStart(s: string): string
    decreases |s|
  {
    if |s| > 0 && IsWs(s[0]) then TrimStart(s[1..]) else s
  }

  /** `trimEnd`: drops the whitespace at the back. */
  function TrimEnd(s: string): string
    decreases |s|
  {
    if |s| > 0 && IsWs(s[|s| - 1]) then TrimEnd(s[..|s| - 1]) else s
  }

  /** `String.prototype.trim`. */
  function Trim(s: string): string
  {
    TrimEnd(TrimStart(s))
  }

  /** What `trimStart` leaves is a suffix that starts with no whitespace, and
      what it drops is all whitespace. */
  lemma {:induction false} TrimStartShape(s: string)
    ensures var r := TrimStart(s);
      && |r| <= |s| && r == s[|s| - |r|..]
      && AllWs(s[..|s| - |r|])
      && (r == "" || !IsWs(r[0]))
    decreases |s|
  {
    if |s| > 0 && IsWs(s[0]) {
      TrimStartShape(s[1..]);
      var r := TrimStart(s[1..]);
      assert s[..|s| - |r|] == [s[0]] + s[1..][..|s| - 1 - |r|];
    }
  }

  /** What `trimEnd` leaves is a prefix that ends with no whitespace, and what
      it drops is all whitespace. */
  lemma {:induction false} TrimEndShape(s: string)
    ensures var r := TrimEnd(s);
      && |r| <= |s| && r == s[..|r|]
      && AllWs(s[|r|..])
      && (r == "" || !IsWs(r[|r| - 1]))
    decreases |s|
  {
    if |s| > 0 && IsWs(s[|s| - 1]) {
      TrimEndShape(s[..|s| - 1]);
      var r := TrimEnd(s[..|s| - 1]);
      assert s[|r|..] == s[..|s| - 1][|r|..] + [s[|s| - 1]];
    }
  }

  /** How many whitespace characters `trim` removes from the front. */
  function LeadingWs(s: string): int
  {
    |s| - |TrimStart(s)|
  }

  /** `trim` leaves the infix of `s` between its leading and its trailing
      whitespace, and that infix has no whitespace at either end. */
  lemma TrimShape(s: string)
    ensures var r := Trim(s);
      && Trimmed(r)
      && 0 <= LeadingWs(s) && LeadingWs(s) + |r| <= |s|
      && r == s[LeadingWs(s)..LeadingWs(s) + |r|]
      && AllWs(s[..LeadingWs(s)]) && AllWs(s[LeadingWs(s) + |r|..])
  {
    TrimStartShape(s);
    var t := TrimStart(s);
    TrimEndShape(t);
    var r := TrimEnd(t);
    var n := LeadingWs(s);
    assert t == s[n..];
    assert s[n + |r|..] == t[|r|..];
  }

  /** Trimming changes nothing exactly when there is no whitespace at the ends. */
  lemma TrimFixed(s: string)
    ensures Trim(s) == s <==> Trimmed(s)
  {
    TrimShape(s);
    if Trimmed(s) {
      assert TrimStart(s) == s;
    }
  }

  /** A text trims to the empty string exactly when it is all whitespace. */
  lemma TrimEmpty(s: string)
    ensures Trim(s) == "" <==> AllWs(s)
  {
    TrimShape(s);
    if Trim(s) == "" {
      var n := LeadingWs(s);
      forall k | 0 <= k < |s|
        ensures IsWs(s[k])
      {
        if k < n { assert s[..n][k] == s[k]; } else { assert s[n..][k - n] == s[k]; }
      }
    } else {
      assert !IsWs(Trim(s)[0]);
      assert Trim(s)[0] == s[LeadingWs(s)];
    }
  }

  lemma TrimIdempotent(s: string)
    ensures Trim(Trim(s)) == Trim(s)
  {
    TrimShape(s);
    TrimFixed(Trim(s));
  }

  function StartsWith(s: string, p: string): bool {
    |p| <= |s| && s[..|p|] == p
  }

  /** `String.prototype.includes`: `p` occurs somewhere in `s`. */
  predicate Contains(s: string, p: string)
    decreases |s|
  {
    |p| <= |s| && (s[..|p|] == p || Contains(s[1..], p))
  }

  /** A text contains every infix of any text it contains. */
  lemma {:induction false} ContainsLonger(s: string, p: string, q: string)
    requires Contains(s, p + q)
    ensures Contains(s, p)
    decreases |s|
  {
    if s[..|p + q|] == p + q {
      assert s[..|p|] == (p + q)[..|p|] == p;
    } else {
      ContainsLonger(s[1..], p, q);
    }
  }

  /** `s.split('\n')`: the pieces between newlines, always at least one. */
  function SplitLines(s: string): (r: seq<string>)
    ensures |r| >= 1
  {
    SplitFrom(s, "")
  }

  /** The split of `s` when `cur` is the part of the current piece read so
      far: a newline closes the current piece, any other character extends
      it, and the end of the text closes the last piece. */
  function SplitFrom(s: string, cur: string): (r: seq<string>)
    ensures |r| >= 1
    decreases |s|
  {
    if |s| == 0 then [cur]
    else if s[0] == NL then [cur] + SplitFrom(s[1..], "")
    else SplitFrom(s[1..], cur + [s[0]])
  }

  lemma {:induction false} SplitFromNoNewline(s: string, cur: string)
    requires NL !in cur
    ensures forall k :: 0 <= k < |SplitFrom(s, cur)| ==> NL !in SplitFrom(s, cur)[k]
    decreases |s|
  {
    if |s| > 0 {
      if s[0] == NL {
        SplitFromNoNewline(s[1..], "");
      } else {
        assert NL !in cur + [s[0]];
        SplitFromNoNewline(s[1..], cur + [s[0]]);
      }
    }
  }

  /** No piece of a split holds a newline. */
  lemma SplitNoNewline(s: string)
    ensures forall k :: 0 <= k < |SplitLines(s)| ==> NL !in SplitLines(s)[k]
  {
    SplitFromNoNewline(s, "");
  }

  /** `lines.join('\n')`. */
  function JoinLines(lines: seq<string>): string
  {
    if |lines| == 0 then ""
    else if |lines| == 1 then lines[0]
    else lines[0] + [NL] + JoinLines(lines[1..])
  }

  /** Joining a first line to at least one more puts a newline between. */
  lemma JoinCons(x: string, rest: seq<string>)
    requires |rest| >= 1
    ensures JoinLines([x] + rest) == x + [NL] + JoinLines(rest)
  {
    assert ([x] + rest)[1..] == rest;
  }

  lemma {:induction false} JoinSplitFrom(s: string, cur: string)
    ensures JoinLines(SplitFrom(s, cur)) == cur + s
    decreases |s|
  {
    if |s| == 0 {
      assert cur + s == cur;
    } else if s[0] == NL {
      var rest := SplitFrom(s[1..], "");
      assert SplitFrom(s, cur) == [cur] + rest;
      JoinSplitFrom(s[1..], "");
      assert "" + s[1..] == s[1..];
      JoinAfterNewline(cur, rest, s);
    } else {
      assert SplitFrom(s, cur) == SplitFrom(s[1..], cur + [s[0]]);
      JoinSplitFrom(s[1..], cur + [s[0]]);
      assert (cur + [s[0]]) + s[1..] == cur + s;
    }
  }

  /** The step of `JoinSplitFrom` for a text `s` that starts with a newline,
      whose pieces after it join back to the rest of `s`. */
  lemma JoinAfterNewline(cur: string, rest: seq<string>, s: string)
    requires |rest| >= 1 && |s| > 0 && s[0] == NL
    requires JoinLines(rest) == s[1..]
    ensures JoinLines([cur] + rest) == cur + s
  {
    JoinCons(cur, rest);
    NewlineThenRest(cur, s);
  }

  /** A text that starts with a newline is that newline and its rest. */
  lemma NewlineThenRest(cur: string, s: string)
    requires |s| > 0 && s[0] == NL
    ensures cur + [NL] + s[1..] == cur + s
  {
    assert s == [NL] + s[1..];
  }

  /** Joining the pieces of a split gives the text back. */
  lemma JoinSplit(s: string)
    ensures JoinLines(SplitLines(s)) == s
  {
    JoinSplitFrom(s, "");
  }

  lemma {:induction false} SplitFromSingle(s: string, cur: string)
    requires NL !in s
    ensures SplitFrom(s, cur) == [cur + s]
    decreases |s|
  {
    if |s| > 0 {
      assert s[0] in s;
      assert forall c :: c in s[1..] ==> c in s;
      SplitFromSingle(s[1..], cur + [s[0]]);
      assert (cur + [s[0]]) + s[1..] == cur + s;
    } else {
      assert cur + s == cur;
    }
  }

  /** A text without a newline splits into itself alone. */
  lemma SplitSingle(s: string)
    requires NL !in s
    ensures SplitLines(s) == [s]
  {
    SplitFromSingle(s, "");
    assert "" + s == s;
  }

  lemma {:induction false} SplitFromAround(a: string, b: string, cur: string)
    ensures SplitFrom(a + [NL] + b, cur) == SplitFrom(a, cur) + SplitFrom(b, "")
    decreases |a|
  {
    var s := a + [NL] + b;
    if |a| == 0 {
      assert s == [NL] + b;
      assert s[0] == NL && s[1..] == b;
    } else {
      assert s[0] == a[0] && s[1..] == a[1..] + [NL] + b;
      if a[0] == NL {
        SplitFromAround(a[1..], b, "");
        var restA, restB := SplitFrom(a[1..], ""), SplitFrom(b, "");
        assert [cur] + (restA + restB) == ([cur] + restA) + restB;
      } else {
        SplitFromAround(a[1..], b, cur + [a[0]]);
      }
    }
  }

  /** Splitting distributes over a newline: the pieces of `a + "\n" + b` are
      the pieces of `a` followed by the pieces of `b`. */
  lemma SplitAround(a: string, b: string)
    ensures SplitLines(a + [NL] + b) == SplitLines(a) + SplitLines(b)
  {
    SplitFromAround(a, b, "");
  }

  /** Splitting a join of newline-free lines gives the lines back. */
  lemma {:induction false} SplitJoin(lines: seq<string>)
    requires |lines| >= 1
    requires forall k :: 0 <= k < |lines| ==> NL !in lines[k]
    ensures SplitLines(JoinLines(lines)) == lines
    decreases |lines|
  {
    SplitSingle(lines[0]);
    if |lines| > 1 {
      SplitJoin(lines[1..]);
      SplitAround(lines[0], JoinLines(lines[1..]));
      assert lines == [lines[0]] + lines[1..];
    }
  }
}
