/** Python's str.strip and str.splitlines, as far as chunker and parser use them. */
module Text {
  /** str.isspace on one character. */
  predicate IsSpace(c: char) {
    || c == ' ' || '\t' <= c <= '\r' || '\U{1c}' <= c <= '\U{1f}' || c == '\U{85}' || c == '\U{a0}'
    || c == '\U{1680}' || '\U{2000}' <= c <= '\U{200a}' || c == '\U{2028}' || c == '\U{2029}'
    || c == '\U{202f}' || c == '\U{205f}' || c == '\U{3000}'
  }

  /** Characters that end a line for str.splitlines. */
  predicate IsBreak(c: char) {
    '\n' <= c <= '\r' || '\U{1c}' <= c <= '\U{1e}' || c == '\U{85}' || c == '\U{2028}' || c == '\U{2029}'
  }

  predicate Blank(s: string) {
    forall c | c in s :: IsSpace(c)
  }

  function LStrip(s: string): string {
    if s != "" && IsSpace(s[0]) then LStrip(s[1..]) else s
  }

  function RStrip(s: string): string {
    if s != "" && IsSpace(s[|s| - 1]) then RStrip(s[..|s| - 1]) else s
  }

  function Strip(s: string): string {
    RStrip(LStrip(s))
  }

  /** "\n".join(lines) */
  function JoinLines(lines: seq<string>): string {
    if lines == [] then "" else if |lines| == 1 then lines[0] else lines[0] + "\n" + JoinLines(lines[1..])
  }

  lemma BlankBefore(s: string, n: nat, p: nat)
    requires p < n <= |s| && Blank(s[..n])
    ensures IsSpace(s[p])
  {
    assert s[..n][p] == s[p];
  }

  lemma BlankBehind(s: string, n: nat, p: nat)
    requires n <= p < |s| && Blank(s[n..])
    ensures IsSpace(s[p])
  {
    assert s[n..][p - n] == s[p];
  }

  // ---------- strip ----------

  lemma {:induction false} LStripAt(s: string) returns (n: nat)
    ensures n <= |s| && Blank(s[..n]) && LStrip(s) == s[n..]
    ensures n < |s| ==> !IsSpace(s[n])
  {
    hide IsSpace;
    if s != "" && IsSpace(s[0]) {
      var m := LStripAt(s[1..]);
      n := m + 1;
      assert s[..n] == [s[0]] + s[1..][..m];
      assert s[1..][m..] == s[n..];
    } else {
      n := 0;
    }
  }

  lemma {:induction false} RStripAt(s: string) returns (n: nat)
    ensures n <= |s| && Blank(s[n..]) && RStrip(s) == s[..n]
    ensures n > 0 ==> !IsSpace(s[n - 1])
  {
    hide IsSpace;
    if s != "" && IsSpace(s[|s| - 1]) {
      var t := s[..|s| - 1];
      n := RStripAt(t);
      forall k | n <= k < |s| ensures IsSpace(s[k]) {
        if k < |t| { assert t[n..][k - n] == s[k]; }
      }
      assert t[..n] == s[..n];
    } else {
      n := |s|;
      assert s[..n] == s;
    }
  }

  /** Strip cuts off a blank prefix and a blank suffix and leaves a text that starts and ends visibly. */
  lemma StripAt(s: string) returns (lo: nat, hi: nat)
    ensures lo <= hi <= |s| && Strip(s) == s[lo..hi] && Blank(s[..lo]) && Blank(s[hi..])
    ensures lo < hi ==> !IsSpace(s[lo]) && !IsSpace(s[hi - 1])
  {
    lo := LStripAt(s);
    var n := RStripAt(LStrip(s));
    hi := lo + n;
    assert s[lo..][..n] == s[lo..hi] && s[lo..][n..] == s[hi..];
  }

  /** The result is empty exactly for blank texts. */
  lemma StripBlank(s: string)
    ensures Strip(s) == "" <==> Blank(s)
    ensures forall c :: c in Strip(s) ==> c in s
  {
    hide IsSpace, Strip;
    var lo, hi := StripAt(s);
    assert s == s[..lo] + s[lo..hi] + s[hi..];
    if lo < hi { assert s[lo] in s; }
  }

  lemma StripTrimmed(s: string)
    requires s == "" || (!IsSpace(s[0]) && !IsSpace(s[|s| - 1]))
    ensures Strip(s) == s
  {
  }

  lemma {:induction false} JoinMembers(lines: seq<string>, i: nat, c: char)
    requires i < |lines| && c in lines[i]
    ensures c in JoinLines(lines)
  {
    if i > 0 { JoinMembers(lines[1..], i - 1, c); }
  }

  // ---------- strip and concatenation ----------

  lemma {:induction false} LStripConcat(a: string, b: string)
    ensures LStrip(a + b) == if Blank(a) then LStrip(b) else LStrip(a) + b
    ensures LStrip(a) == "" <==> Blank(a)
  {
    hide IsSpace;
    if a == "" {
      assert a + b == b;
    } else {
      assert (a + b)[1..] == a[1..] + b;
      LStripConcat(a[1..], b);
      if IsSpace(a[0]) {
        assert Blank(a) <==> Blank(a[1..]) by {
          assert a == [a[0]] + a[1..];
        }
      }
    }
  }

  lemma {:induction false} RStripConcat(a: string, b: string)
    ensures RStrip(a + b) == if Blank(b) then RStrip(a) else a + RStrip(b)
    ensures RStrip(b) == "" <==> Blank(b)
  {
    hide IsSpace;
    if b == "" {
      assert a + b == a;
    } else {
      var n := |b| - 1;
      assert (a + b)[..|a + b| - 1] == a + b[..n];
      RStripConcat(a, b[..n]);
      if IsSpace(b[n]) {
        assert Blank(b) <==> Blank(b[..n]) by {
          assert b == b[..n] + [b[n]];
        }
      }
    }
  }

  /** Stripping one side first changes nothing. */
  lemma StripOneSide(a: string)
    ensures Strip(LStrip(a)) == Strip(a) && Strip(RStrip(a)) == Strip(a)
  {
    var lo := LStripAt(a);
    assert LStrip(LStrip(a)) == LStrip(a);
    var n := RStripAt(a);
    var x, y := a[..n], a[n..];
    assert a == x + y && RStrip(a) == x;
    LStripConcat(x, y);
    if Blank(x) {
      LStripConcat(y, "");
      assert LStrip(y) == "";
    } else {
      RStripConcat(LStrip(x), y);
    }
  }

  lemma StripTwice(s: string)
    ensures Strip(Strip(s)) == Strip(s)
  {
    var lo, hi := StripAt(s);
    StripTrimmed(s[lo..hi]);
  }

  // ---------- lines ----------

  predicate BreakFree(s: string) {
    forall c :: c in s ==> !IsBreak(c)
  }

  /** Index of the first line break, or the length. */
  function LineEnd(t: string): (n: nat)
    ensures n <= |t| && BreakFree(t[..n]) && (n < |t| ==> IsBreak(t[n]))
  {
    if t == "" || IsBreak(t[0]) then 0
    else
      var n := LineEnd(t[1..]) + 1;
      assert t[..n] == [t[0]] + t[1..][..n - 1];
      n
  }

  /** Where the next line starts; "\r\n" is one break. */
  function NextStart(t: string): (m: nat)
    requires LineEnd(t) < |t|
    ensures LineEnd(t) < m <= |t| && forall i | LineEnd(t) <= i < m :: IsBreak(t[i])
  {
    var n := LineEnd(t);
    if t[n] == '\r' && n + 1 < |t| && t[n + 1] == '\n' then n + 2 else n + 1
  }

  /** str.splitlines */
  function SplitLines(t: string): seq<string> {
    if t == "" then []
    else
      var n := LineEnd(t);
      if n == |t| then [t]
      else [t[..n]] + SplitLines(t[NextStart(t)..])
  }

  /** A line break: one character that ends a line, or a carriage return with its line feed. */
  predicate LineBreak(s: string) {
    s == "\r\n" || (|s| == 1 && IsBreak(s[0]))
  }

  /** The first line goes up to the first break, which is taken whole, and the others are those of the rest. */
  lemma SplitFirst(t: string) returns (sep: string, rest: string)
    requires t != ""
    ensures var lines := SplitLines(t); lines != [] && t == lines[0] + sep + rest && BreakFree(lines[0]) && SplitLines(rest) == lines[1..]
    ensures (sep == "" && rest == "") || LineBreak(sep)
    ensures sep == "\r" && rest != "" ==> rest[0] != '\n'
  {
    hide BreakFree, IsBreak;
    var n := LineEnd(t);
    if n == |t| {
      sep, rest := "", "";
      assert t[..n] == t;
    } else {
      var m := NextStart(t);
      sep, rest := t[n..m], t[m..];
      assert t == t[..n] + t[n..m] + t[m..];
      assert SplitLines(t) == [t[..n]] + SplitLines(rest);
      assert m == n + 2 ==> t[n..m] == "\r\n";
    }
  }

  lemma {:induction false} LinesBreakFree(t: string)
    ensures forall l :: l in SplitLines(t) ==> BreakFree(l)
    decreases |t|
  {
    if t != "" {
      var n := LineEnd(t);
      hide BreakFree;
      if n == |t| {
        assert t[..n] == t;
      } else {
        LinesBreakFree(t[NextStart(t)..]);
      }
    }
  }

  lemma {:induction false} LineEndAt(l: string, rest: string)
    requires BreakFree(l) && (rest != "" ==> IsBreak(rest[0]))
    ensures LineEnd(l + rest) == |l|
  {
    hide IsBreak;
    if l == "" {
      assert l + rest == rest;
    } else {
      assert (l + rest)[1..] == l[1..] + rest && l[0] in l;
      LineEndAt(l[1..], rest);
    }
  }

  /** Splitting undoes joining, unless the last line is empty. */
  lemma {:induction false} SplitJoin(lines: seq<string>)
    requires lines != [] && (forall l :: l in lines ==> BreakFree(l)) && lines[|lines| - 1] != ""
    ensures SplitLines(JoinLines(lines)) == lines && JoinLines(lines) != ""
  {
    var l := lines[0];
    if |lines| == 1 {
      LineEndAt(l, "");
      assert l + "" == l;
    } else {
      var rest := JoinLines(lines[1..]);
      SplitJoin(lines[1..]);
      LineEndAt(l, "\n" + rest);
      var t := l + ("\n" + rest);
      assert JoinLines(lines) == t && t[|l|] == '\n';
      hide LineEnd, JoinLines, BreakFree;
      assert NextStart(t) == |l| + 1;
      assert t[..|l|] == l && t[|l| + 1..] == rest;
    }
  }

  lemma {:induction false} JoinConcat(a: seq<string>, b: seq<string>)
    requires a != [] && b != []
    ensures JoinLines(a + b) == JoinLines(a) + "\n" + JoinLines(b)
  {
    assert (a + b)[1..] == a[1..] + b;
    if |a| > 1 { JoinConcat(a[1..], b); }
  }

  lemma BlankConcat(a: string, b: string)
    requires Blank(a) && Blank(b)
    ensures Blank(a + b)
  {
  }

  lemma BreakBlank(sep: string)
    requires sep == "" || LineBreak(sep)
    ensures Blank(sep)
  {
  }

  lemma {:induction false} BlankLines(t: string)
    requires forall l :: l in SplitLines(t) ==> Blank(l)
    ensures Blank(t)
    decreases |t|
  {
    hide SplitLines, Blank, BreakFree, IsBreak;
    if t != "" {
      var sep, rest := SplitFirst(t);
      var lines := SplitLines(t);
      assert lines[0] in lines;
      BreakBlank(sep);
      forall l | l in SplitLines(rest) ensures Blank(l) { assert l in lines[1..]; }
      assert |rest| < |t|;
      BlankLines(rest);
      BlankConcat(lines[0], sep);
      BlankConcat(lines[0] + sep, rest);
    } else {
      BreakBlank(t);
    }
  }

  // ---------- stripping joined lines ----------

  /** The lines that stripping from the left leaves. */
  function LeftTrim(lines: seq<string>): seq<string> {
    if lines == [] then []
    else if Blank(lines[0]) then LeftTrim(lines[1..])
    else [LStrip(lines[0])] + lines[1..]
  }

  function RightTrim(lines: seq<string>): seq<string> {
    if lines == [] then []
    else if Blank(lines[|lines| - 1]) then RightTrim(lines[..|lines| - 1])
    else lines[..|lines| - 1] + [RStrip(lines[|lines| - 1])]
  }

  lemma {:induction false} LeftTrimJoin(lines: seq<string>)
    ensures LStrip(JoinLines(lines)) == JoinLines(LeftTrim(lines))
  {
    if lines != [] {
      var l := lines[0];
      if |lines| == 1 {
        LStripConcat(l, "");
      } else {
        var rest := "\n" + JoinLines(lines[1..]);
        assert JoinLines(lines) == l + rest;
        LStripConcat(l, rest);
        LStripConcat("\n", JoinLines(lines[1..]));
        LeftTrimJoin(lines[1..]);
        assert ([LStrip(l)] + lines[1..])[1..] == lines[1..];
      }
    }
  }

  lemma {:induction false} RightTrimJoin(lines: seq<string>)
    ensures RStrip(JoinLines(lines)) == JoinLines(RightTrim(lines))
  {
    if lines != [] {
      var n := |lines| - 1;
      var l := lines[n];
      if n == 0 {
        RStripConcat("", l);
        assert "" + l == l;
      } else {
        var front := JoinLines(lines[..n]);
        assert lines == lines[..n] + [l];
        JoinConcat(lines[..n], [l]);
        RStripConcat(front + "\n", l);
        RStripConcat(front, "\n");
        RightTrimJoin(lines[..n]);
        JoinConcat(lines[..n], [RStrip(l)]);
      }
    }
  }
}
