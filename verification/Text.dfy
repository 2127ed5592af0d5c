/** The operations of Go's `strings` package that the program relies on, over ASCII text. */
module Text {

  predicate IsSpace(c: char) {
    c in {' ', '\t', '\n', '\r', '\U{0B}', '\U{0C}'}
  }

  predicate IsQuote(c: char) {
    c == '"'
  }

  /** Neither end of `s` satisfies `cut`, so trimming leaves it alone. */
  predicate Bare(s: string, cut: char -> bool) {
    s == "" || (!cut(s[0]) && !cut(s[|s| - 1]))
  }

  function TrimLeft(s: string, cut: char -> bool): (r: string)
    ensures r == "" || !cut(r[0])
    ensures |r| <= |s| && r == s[|s| - |r|..]
  {
    if s != "" && cut(s[0]) then TrimLeft(s[1..], cut) else s
  }

  function TrimRight(s: string, cut: char -> bool): (r: string)
    ensures r == "" || !cut(r[|r| - 1])
    ensures |r| <= |s| && r == s[..|r|]
  {
    if s != "" && cut(s[|s| - 1]) then TrimRight(s[..|s| - 1], cut) else s
  }

  function Trim(s: string, cut: char -> bool): (r: string)
    ensures Bare(r, cut)
    ensures Bare(s, cut) ==> r == s
  {
    TrimRight(TrimLeft(s, cut), cut)
  }

  lemma {:induction false} TrimLeftRun(a: string, s: string, cut: char -> bool)
    requires s == "" || !cut(s[0])
    requires forall i :: 0 <= i < |a| ==> cut(a[i])
    ensures TrimLeft(a + s, cut) == s
  {
    if a == "" {
      assert a + s == s;
    } else {
      assert (a + s)[1..] == a[1..] + s;
      TrimLeftRun(a[1..], s, cut);
    }
  }

  lemma {:induction false} TrimRightRun(s: string, b: string, cut: char -> bool)
    requires s == "" || !cut(s[|s| - 1])
    requires forall i :: 0 <= i < |b| ==> cut(b[i])
    ensures TrimRight(s + b, cut) == s
  {
    if b == "" {
      assert s + b == s;
    } else {
      var n := |b| - 1;
      assert (s + b)[..|s| + n] == s + b[..n];
      TrimRightRun(s, b[..n], cut);
    }
  }

  /** Trimming removes exactly a run of cut characters from either end. */
  lemma TrimEnclosed(a: string, s: string, b: string, cut: char -> bool)
    requires Bare(s, cut)
    requires (forall i :: 0 <= i < |a| ==> cut(a[i])) && (forall i :: 0 <= i < |b| ==> cut(b[i]))
    ensures Trim(a + s + b, cut) == s
  {
    if s == "" {
      assert a + s + b == (a + b) + "";
      TrimLeftRun(a + b, "", cut);
    } else {
      assert a + s + b == a + (s + b);
      TrimLeftRun(a, s + b, cut);
      TrimRightRun(s, b, cut);
    }
  }

  function TrimSpace(s: string): (r: string)
    ensures Bare(r, IsSpace)
    ensures Bare(s, IsSpace) ==> r == s
  {
    Trim(s, IsSpace)
  }

  predicate Blank(s: string) {
    forall i :: 0 <= i < |s| ==>
      s[i] == ' ' || s[i] == '\t' || s[i] == '\n' || s[i] == '\r' || s[i] == '\U{0B}' || s[i] == '\U{0C}'
  }

  /** The trimmed text is the one part of it that has no space at its ends and only spaces around it. */
  lemma TrimSpaceExactly(s: string, r: string)
    ensures r == TrimSpace(s) <==> Ends(r) && exists a, b :: s == a + r + b && Blank(a) && Blank(b)
  {
    hide Ends, Blank, TrimSpace;
    var a, b := TrimSpaceCut(s);
    if Ends(r) && exists a, b :: s == a + r + b && Blank(a) && Blank(b) {
      var a, b :| s == a + r + b && Blank(a) && Blank(b);
      BlankAround(a, r, b);
    }
  }

  predicate Ends(r: string) {
    r == "" || (!Blank([r[0]]) && !Blank([r[|r| - 1]]))
  }

  lemma BlankAround(a: string, r: string, b: string)
    requires Ends(r) && Blank(a) && Blank(b)
    ensures TrimSpace(a + r + b) == r
  {
    assert r != "" ==> Blank([r[0]]) == IsSpace(r[0]) && Blank([r[|r| - 1]]) == IsSpace(r[|r| - 1]);
    TrimEnclosed(a, r, b, IsSpace);
  }

  lemma TrimSpaceCut(s: string) returns (a: string, b: string)
    ensures s == a + TrimSpace(s) + b && Blank(a) && Blank(b) && Ends(TrimSpace(s))
  {
    hide Blank, Ends, Bare, TrimLeft, TrimRight;
    var t := TrimLeft(s, IsSpace);
    a := TrimLeftCut(s);
    b := TrimRightCut(t);
    BareEnds(TrimSpace(s));
  }

  lemma BareEnds(m: string)
    requires Bare(m, IsSpace)
    ensures Ends(m)
  {
    assert m != "" ==> IsSpace([m[0]][0]) == IsSpace(m[0]) && IsSpace([m[|m| - 1]][0]) == IsSpace(m[|m| - 1]);
  }

  lemma TrimLeftCut(s: string) returns (a: string)
    ensures s == a + TrimLeft(s, IsSpace) && Blank(a)
  {
    hide *;
    a := SpacesBefore(s, TrimLeft(s, IsSpace)) by { CutIsSpace(s); }
  }

  lemma SpacesBefore(s: string, r: string) returns (a: string)
    requires |r| <= |s| && r == s[|s| - |r|..]
    requires forall i :: 0 <= i < |s| - |r| ==> IsSpace(s[i])
    ensures s == a + r && Blank(a)
  {
    a := s[..|s| - |r|];
  }

  lemma {:induction false} CutIsSpace(s: string)
    ensures forall i :: 0 <= i < |s| - |TrimLeft(s, IsSpace)| ==> IsSpace(s[i])
  {
    if s != "" && IsSpace(s[0]) {
      CutIsSpace(s[1..]);
      assert forall i :: 0 < i < |s| ==> s[i] == s[1..][i - 1];
    }
  }

  lemma {:induction false} TrimRightCut(s: string) returns (b: string)
    ensures s == TrimRight(s, IsSpace) + b && Blank(b)
  {
    b := "";
    if s != "" && IsSpace(s[|s| - 1]) {
      var rest := TrimRightCut(s[..|s| - 1]);
      b := rest + [s[|s| - 1]];
    }
  }

  /** Splits at every separator; the pieces number one more than the separators. */
  function Split(s: string, sep: char): (parts: seq<string>)
    ensures |parts| >= 1
  {
    if s == "" then [""] else Prepend(s[0], sep, Split(s[1..], sep))
  }

  function Prepend(c: char, sep: char, parts: seq<string>): (r: seq<string>)
    requires parts != []
    ensures |r| >= 1
  {
    if c == sep then [""] + parts else [[c] + parts[0]] + parts[1..]
  }

  function Join(parts: seq<string>, sep: char): string {
    if parts == [] then ""
    else if |parts| == 1 then parts[0]
    else parts[0] + [sep] + Join(parts[1..], sep)
  }

  lemma PrependAppend(c: char, sep: char, parts: seq<string>, tail: seq<string>)
    requires parts != []
    ensures Prepend(c, sep, parts + tail) == Prepend(c, sep, parts) + tail
  {
    assert (parts + tail)[1..] == parts[1..] + tail;
  }

  /** Splitting turns a separator between two texts into list concatenation. */
  lemma {:induction false} SplitAppend(a: string, sep: char, b: string)
    ensures Split(a + [sep] + b, sep) == Split(a, sep) + Split(b, sep)
  {
    var t := a + [sep] + b;
    if a == "" {
      assert t[0] == sep && t[1..] == b;
    } else {
      SplitAppend(a[1..], sep, b);
      assert t[0] == a[0] && t[1..] == a[1..] + [sep] + b;
      PrependAppend(a[0], sep, Split(a[1..], sep), Split(b, sep));
    }
  }

  lemma {:induction false} SplitPlain(s: string, sep: char)
    requires sep !in s
    ensures Split(s, sep) == [s]
  {
    if s != "" {
      SplitPlain(s[1..], sep);
      assert [s[0]] + s[1..] == s;
    }
  }

  /** Splitting undoes joining when no piece holds the separator. */
  lemma {:induction false} SplitJoin(parts: seq<string>, sep: char)
    requires parts != [] && forall i :: 0 <= i < |parts| ==> sep !in parts[i]
    ensures Split(Join(parts, sep), sep) == parts
  {
    SplitPlain(parts[0], sep);
    if |parts| > 1 {
      SplitJoin(parts[1..], sep);
      SplitAppend(parts[0], sep, Join(parts[1..], sep));
    }
  }

  lemma JoinCons(x: string, rest: seq<string>, sep: char)
    ensures Join([x] + rest, sep) == if rest == [] then x else x + [sep] + Join(rest, sep)
  {
    assert ([x] + rest)[1..] == rest;
  }

  /** Joining never introduces a character other than the separator. */
  lemma {:induction false} JoinFree(parts: seq<string>, sep: char, c: char)
    requires c != sep && forall i :: 0 <= i < |parts| ==> c !in parts[i]
    ensures c !in Join(parts, sep)
  {
    if |parts| > 1 {
      JoinFree(parts[1..], sep, c);
    }
  }

  /** The first position of `c`, or the length of `s` when it does not occur. */
  function Find(s: string, c: char): (k: nat)
    ensures k <= |s| && c !in s[..k]
    ensures k < |s| <==> c in s
    ensures k < |s| ==> s[k] == c
  {
    if s == "" || s[0] == c then 0 else
      var k := 1 + Find(s[1..], c);
      assert s[..k] == [s[0]] + s[1..][..k - 1];
      k
  }

  lemma FindAt(a: string, c: char, b: string)
    requires c !in a
    ensures Find(a + [c] + b, c) == |a|
  {
    var t := a + [c] + b;
    var k := Find(t, c);
    assert t[|a|] == c;
    assert forall i :: 0 <= i < |a| ==> t[i] == a[i] && a[i] != c;
    assert forall i :: 0 <= i < k ==> t[i] == t[..k][i] && t[i] != c;
  }

  /** The position just past the last `c`, or 0 when it does not occur. */
  function AfterLast(s: string, c: char): (k: nat)
    ensures k <= |s| && c !in s[k..]
    ensures k > 0 <==> c in s
    ensures k > 0 ==> s[k - 1] == c
  {
    if s == "" || s[|s| - 1] == c then |s| else
      var k := AfterLast(s[..|s| - 1], c);
      assert s[k..] == s[..|s| - 1][k..] + [s[|s| - 1]];
      k
  }

  lemma {:induction false} AfterLastAt(a: string, c: char, b: string)
    requires c !in b
    ensures AfterLast(a + [c] + b, c) == |a| + 1
  {
    var t := a + [c] + b;
    if b != "" {
      AfterLastAt(a, c, b[..|b| - 1]);
      assert t[..|t| - 1] == a + [c] + b[..|b| - 1];
      assert t[|t| - 1] == b[|b| - 1];
    }
  }

  /** The maximal runs of non-space characters, left to right. */
  function Fields(s: string): (words: seq<string>)
    ensures forall w :: w in words ==> w != "" && forall c :: c in w ==> !IsSpace(c)
    decreases |s|
  {
    if s == "" then []
    else if IsSpace(s[0]) then Fields(s[1..])
    else
      var n := WordLength(s);
      [s[..n]] + Fields(s[n..])
  }

  function WordLength(s: string): (n: nat)
    ensures n <= |s| && (forall i :: 0 <= i < n ==> !IsSpace(s[i]))
    ensures n < |s| ==> IsSpace(s[n])
    ensures s != "" && !IsSpace(s[0]) ==> n > 0
  {
    if s == "" || IsSpace(s[0]) then 0 else 1 + WordLength(s[1..])
  }

  lemma FieldsWord(s: string)
    requires s != "" && forall c :: c in s ==> !IsSpace(c)
    ensures Fields(s) == [s]
  {
    assert forall i :: 0 <= i < |s| ==> s[i] in s;
    assert WordLength(s) == |s|;
    assert s[..|s|] == s && s[|s|..] == "";
  }

  /** A space separates words. */
  lemma {:induction false} FieldsAppend(a: string, c: char, b: string)
    requires IsSpace(c)
    ensures Fields(a + [c] + b) == Fields(a) + Fields(b)
    decreases |a|
  {
    var s := a + [c] + b;
    if a == "" {
      assert s[1..] == b;
    } else if IsSpace(a[0]) {
      assert s[1..] == a[1..] + [c] + b;
      FieldsAppend(a[1..], c, b);
    } else {
      var n := WordLength(a);
      WordEnds(a, c, b);
      assert s[..n] == a[..n] && s[n..] == a[n..] + [c] + b;
      FieldsAppend(a[n..], c, b);
      calc {
        Fields(s);
        [a[..n]] + Fields(a[n..] + [c] + b);
        [a[..n]] + (Fields(a[n..]) + Fields(b));
        ([a[..n]] + Fields(a[n..])) + Fields(b);
        Fields(a) + Fields(b);
      }
    }
  }

  lemma {:induction false} WordEnds(a: string, c: char, b: string)
    requires IsSpace(c)
    ensures WordLength(a + [c] + b) == WordLength(a)
  {
    if a != "" && !IsSpace(a[0]) {
      assert (a + [c] + b)[1..] == a[1..] + [c] + b;
      WordEnds(a[1..], c, b);
    }
  }

  lemma {:induction false} FieldsTrimLeft(s: string)
    ensures Fields(TrimLeft(s, IsSpace)) == Fields(s)
  {
    if s != "" && IsSpace(s[0]) {
      FieldsTrimLeft(s[1..]);
    }
  }

  lemma {:induction false} FieldsTrimRight(s: string)
    ensures Fields(TrimRight(s, IsSpace)) == Fields(s)
  {
    var n := |s| - 1;
    if s != "" && IsSpace(s[n]) {
      assert s == s[..n] + [s[n]] + "";
      FieldsAppend(s[..n], s[n], "");
      FieldsTrimRight(s[..n]);
    }
  }

  /** Whitespace around a text adds no words. */
  lemma FieldsTrimmed(s: string)
    ensures Fields(TrimSpace(s)) == Fields(s)
  {
    FieldsTrimLeft(s);
    FieldsTrimRight(TrimLeft(s, IsSpace));
  }

  function LowerChar(c: char): char {
    if 'A' <= c <= 'Z' then (c as int + 32) as char else c
  }

  function ToLower(s: string): (r: string)
    ensures |r| == |s|
  {
    seq(|s|, i requires 0 <= i < |s| => LowerChar(s[i]))
  }

  /** Capital letters become small ones, everything else stays. */
  lemma LowerLetters(s: string, i: nat)
    requires i < |s|
    ensures var r := ToLower(s);
            if 'A' <= s[i] <= 'Z' then r[i] as int - 'a' as int == s[i] as int - 'A' as int else r[i] == s[i]
  {
  }

  predicate EqualFold(a: string, b: string) {
    ToLower(a) == ToLower(b)
  }

  /** Text that is lower case already is its own lower-case form. */
  lemma LowerFixed(s: string)
    requires forall i :: 0 <= i < |s| ==> LowerChar(s[i]) == s[i]
    ensures ToLower(s) == s
  {
  }

  predicate Contains(s: string, sub: string) {
    exists i :: 0 <= i <= |s| - |sub| && s[i..][..|sub|] == sub
  }
}
