/** The string operations the agent relies on: whitespace, strip, and ASCII lower-casing. */
module Text {
  /** What `str.strip` and `str.split` treat as whitespace. */
  predicate IsSpace(c: char)
  {
    var n := c as int;
    || 0x09 <= n <= 0x0D || 0x1C <= n <= 0x20 || n == 0x85 || n == 0xA0 || n == 0x1680
    || 0x2000 <= n <= 0x200A || n == 0x2028 || n == 0x2029 || n == 0x202F || n == 0x205F || n == 0x3000
  }

  /** The 29 characters that are whitespace. */
  lemma SpacesAre(c: char)
    ensures IsSpace(c) <==> c as int in {
      0x09, 0x0A, 0x0B, 0x0C, 0x0D, 0x1C, 0x1D, 0x1E, 0x1F, 0x20, 0x85, 0xA0, 0x1680, 0x2000, 0x2001, 0x2002, 0x2003,
      0x2004, 0x2005, 0x2006, 0x2007, 0x2008, 0x2009, 0x200A, 0x2028, 0x2029, 0x202F, 0x205F, 0x3000}
  {
  }

  function StripLeft(s: string): string
  {
    if s != [] && IsSpace(s[0]) then StripLeft(s[1..]) else s
  }

  function StripRight(s: string): string
  {
    if s != [] && IsSpace(s[|s| - 1]) then StripRight(s[..|s| - 1]) else s
  }

  function Strip(s: string): string
  {
    StripRight(StripLeft(s))
  }

  /** Neither end is whitespace, so stripping changes nothing. */
  predicate Trimmed(s: string)
  {
    s == [] || (!IsSpace(s[0]) && !IsSpace(s[|s| - 1]))
  }

  function LowerChar(c: char): char
  {
    if 'A' <= c <= 'Z' then (c as int + 32) as char else c
  }

  function Lower(s: string): (r: string)
    ensures |r| == |s|
  {
    seq(|s|, i requires 0 <= i < |s| => LowerChar(s[i]))
  }

  lemma {:induction false} StripLeftStarts(s: string)
    ensures var t := StripLeft(s); t == [] || !IsSpace(t[0])
  {
    if s != [] && IsSpace(s[0]) { StripLeftStarts(s[1..]); }
  }

  lemma {:induction false} StripRightEnds(s: string)
    ensures var t := StripRight(s); (t == [] || !IsSpace(t[|t| - 1])) && (t != [] ==> t[0] == s[0])
  {
    if s != [] && IsSpace(s[|s| - 1]) { StripRightEnds(s[..|s| - 1]); }
  }

  lemma StripTrims(s: string)
    ensures Trimmed(Strip(s))
  {
    StripLeftStarts(s);
    StripRightEnds(StripLeft(s));
  }

  predicate AllSpace(s: string)
  {
    forall i :: 0 <= i < |s| ==> IsSpace(s[i])
  }

  lemma {:induction false} StripLeftCuts(s: string) returns (a: string)
    ensures AllSpace(a) && s == a + StripLeft(s)
  {
    if s != [] && IsSpace(s[0]) {
      var rest := StripLeftCuts(s[1..]);
      a := [s[0]] + rest;
    } else {
      a := "";
    }
  }

  lemma {:induction false} StripRightCuts(s: string) returns (b: string)
    ensures AllSpace(b) && s == StripRight(s) + b
  {
    if s != [] && IsSpace(s[|s| - 1]) {
      var rest := StripRightCuts(s[..|s| - 1]);
      b := rest + [s[|s| - 1]];
    } else {
      b := "";
    }
  }

  /** Stripping takes whitespace off both ends, all of it, and nothing else. */
  lemma StripCutsWhitespace(s: string) returns (a: string, b: string)
    ensures AllSpace(a) && AllSpace(b) && s == a + Strip(s) + b && Trimmed(Strip(s))
  {
    StripTrims(s);
    a := StripLeftCuts(s);
    b := StripRightCuts(StripLeft(s));
  }

  lemma {:induction false} StripLeftOf(a: string, t: string)
    requires AllSpace(a) && (t == "" || !IsSpace(t[0]))
    ensures StripLeft(a + t) == t
  {
    if a == "" {
      assert a + t == t;
    } else {
      assert (a + t)[1..] == a[1..] + t;
      StripLeftOf(a[1..], t);
    }
  }

  lemma {:induction false} StripRightOf(t: string, b: string)
    requires AllSpace(b) && (t == "" || !IsSpace(t[|t| - 1]))
    ensures StripRight(t + b) == t
  {
    if b == "" {
      assert t + b == t;
    } else {
      assert (t + b)[..|t + b| - 1] == t + b[..|b| - 1];
      StripRightOf(t, b[..|b| - 1]);
    }
  }

  /** There is only one such way to cut a string. */
  lemma StripIsUnique(a: string, t: string, b: string)
    requires AllSpace(a) && AllSpace(b) && Trimmed(t)
    ensures Strip(a + t + b) == t
  {
    if t == "" {
      assert AllSpace(a + t + b);
      StripLeftOf(a + t + b, "");
      assert a + t + b + "" == a + t + b;
    } else {
      assert a + t + b == a + (t + b);
      StripLeftOf(a, t + b);
      StripRightOf(t, b);
    }
  }

  lemma CapitalAt(c: char)
    requires 'A' <= c <= 'Z'
    ensures "ABCDEFGHIJKLMNOPQRSTUVWXYZ"[c as int - 65] == c
  {
  }

  /** Lower-casing turns the 26 capital letters into the small ones and leaves every other character alone. */
  lemma LowerLetters(c: char, i: nat)
    requires i < 26
    ensures Lower("ABCDEFGHIJKLMNOPQRSTUVWXYZ")[i] == "abcdefghijklmnopqrstuvwxyz"[i]
    ensures c !in "ABCDEFGHIJKLMNOPQRSTUVWXYZ" ==> Lower([c]) == [c]
  {
    if 'A' <= c <= 'Z' { CapitalAt(c); }
  }

  lemma TrimmedStays(s: string)
    requires Trimmed(s)
    ensures Strip(s) == s
  {
  }

  /** Stripping is idempotent. */
  lemma StripTwice(s: string)
    ensures Strip(Strip(s)) == Strip(s)
  {
    StripTrims(s);
    TrimmedStays(Strip(s));
  }

  /** So is stripping and lower-casing: lower-casing neither makes nor removes whitespace. */
  lemma StripLowerTwice(s: string)
    ensures Lower(Strip(Lower(Strip(s)))) == Lower(Strip(s))
  {
    StripTrims(s);
    var t := Lower(Strip(s));
    assert Trimmed(t);
    TrimmedStays(t);
    assert Lower(t) == t;
  }

  predicate NoUpper(s: string)
  {
    forall i :: 0 <= i < |s| ==> !('A' <= s[i] <= 'Z')
  }

  /** `s.split(c)` for a one-character separator. */
  function SplitOn(s: string, c: char): seq<string>
  {
    if c !in s then [s] else
    var i := IndexOf(s, c);
    [s[..i]] + SplitOn(s[i + 1..], c)
  }

  function IndexOf(s: string, c: char): (i: nat)
    requires c in s
    ensures i < |s| && s[i] == c && c !in s[..i]
  {
    if s[0] == c then 0 else 1 + IndexOf(s[1..], c)
  }

  /** `c.join(ws)` for a one-character separator. */
  function JoinOn(ws: seq<string>, c: char): string
  {
    if ws == [] then "" else if |ws| == 1 then ws[0] else ws[0] + [c] + JoinOn(ws[1..], c)
  }

  /** Splitting cuts at every separator and only there. */
  lemma {:induction false} SplitIsJoined(s: string, c: char)
    ensures SplitOn(s, c) != [] && JoinOn(SplitOn(s, c), c) == s
    ensures forall k :: 0 <= k < |SplitOn(s, c)| ==> c !in SplitOn(s, c)[k]
  {
    if c in s {
      var i := IndexOf(s, c);
      SplitIsJoined(s[i + 1..], c);
      assert s == s[..i] + [c] + s[i + 1..];
    }
  }

  lemma SplitAtFirst(s: string, c: char, i: nat)
    requires i < |s| && s[i] == c && c !in s[..i]
    ensures SplitOn(s, c) == [s[..i]] + SplitOn(s[i + 1..], c)
  {
    FirstIndex(s, c, i);
  }

  lemma SplitOfOne(s: string, c: char)
    requires c !in s
    ensures SplitOn(s, c) == [s]
  {
  }

  lemma {:induction false} SplitSnoc(s: string, c: char, x: string)
    requires c !in x
    ensures SplitOn(s + [c] + x, c) == SplitOn(s, c) + [x]
    decreases |s|
  {
    hide SplitOn;
    var all := s + [c] + x;
    if c !in s {
      assert all[..|s|] == s && all[|s| + 1..] == x;
      SplitAtFirst(all, c, |s|);
      SplitOfOne(s, c);
      SplitOfOne(x, c);
    } else {
      var k := IndexOf(s, c);
      assert all[..k] == s[..k] && all[k + 1..] == s[k + 1..] + [c] + x;
      SplitAtFirst(all, c, k);
      SplitAtFirst(s, c, k);
      SplitSnoc(s[k + 1..], c, x);
    }
  }

  lemma FirstIndex(s: string, c: char, i: nat)
    requires i < |s| && s[i] == c && c !in s[..i]
    ensures c in s && IndexOf(s, c) == i
  {
    var j := IndexOf(s, c);
    forall k | 0 <= k < i ensures s[k] != c {
      assert s[..i][k] == s[k];
    }
    forall k | 0 <= k < j ensures s[k] != c {
      assert s[..j][k] == s[k];
    }
  }

  predicate OccursAt(hay: string, needle: string, i: int)
  {
    0 <= i && i + |needle| <= |hay| && hay[i..i + |needle|] == needle
  }

  // ---------- Whitespace tokens ----------

  /** Length of the word `s` starts with. */
  function WordLen(s: string): (n: nat)
    ensures n <= |s| && (forall i :: 0 <= i < n ==> !IsSpace(s[i])) && (n < |s| ==> IsSpace(s[n]))
  {
    if s == [] || IsSpace(s[0]) then 0 else 1 + WordLen(s[1..])
  }

  /** `s.split()`: the maximal runs of non-whitespace. */
  function Tokens(s: string): seq<string>
  {
    if s == [] then []
    else if IsSpace(s[0]) then Tokens(s[1..])
    else [s[..WordLen(s)]] + Tokens(s[WordLen(s)..])
  }

  /** `" ".join(ws)` */
  function Join(ws: seq<string>): string
  {
    if ws == [] then "" else if |ws| == 1 then ws[0] else ws[0] + " " + Join(ws[1..])
  }

  predicate IsWord(w: string)
  {
    w != [] && forall i :: 0 <= i < |w| ==> !IsSpace(w[i])
  }

  lemma {:induction false} TokensAreWords(s: string)
    ensures forall w :: w in Tokens(s) ==> IsWord(w)
  {
    if s != [] {
      TokensAreWords(if IsSpace(s[0]) then s[1..] else s[WordLen(s)..]);
    }
  }

  lemma {:induction false} WordLenExtends(a: string, b: string)
    requires b == [] || IsSpace(b[0])
    ensures WordLen(a + b) == WordLen(a)
  {
    if a == [] {
      assert a + b == b;
    } else {
      assert (a + b)[1..] == a[1..] + b;
      WordLenExtends(a[1..], b);
    }
  }

  lemma TokensStep(s: string, n: nat)
    requires s != [] && !IsSpace(s[0]) && n == WordLen(s)
    ensures Tokens(s) == [s[..n]] + Tokens(s[n..])
  {
  }

  lemma TokensSkip(s: string)
    requires s != [] && IsSpace(s[0])
    ensures Tokens(s) == Tokens(s[1..])
  {
  }

  /** Whitespace separates tokens. */
  lemma {:induction false} TokensSplit(a: string, c: char, b: string)
    requires IsSpace(c)
    ensures Tokens(a + [c] + b) == Tokens(a) + Tokens(b)
    decreases |a|
  {
    hide Tokens;
    var s := a + [c] + b;
    if a == [] {
      assert IsSpace(s[0]) && s[1..] == b;
      TokensSkip(s);
      NoTokens();
    } else if IsSpace(a[0]) {
      TokensSkip(s);
      TokensSkip(a);
      assert s[1..] == a[1..] + [c] + b;
      TokensSplit(a[1..], c, b);
    } else {
      var n := WordLen(a);
      assert s == a + ([c] + b);
      WordLenExtends(a, [c] + b);
      TokensStep(a, n);
      TokensStep(s, n);
      assert s[..n] == a[..n] && s[n..] == a[n..] + [c] + b;
      TokensSplit(a[n..], c, b);
    }
  }

  lemma TokensSplitAtSpace(a: string, b: string)
    ensures Tokens(a + " " + b) == Tokens(a) + Tokens(b)
  {
    TokensSplit(a, ' ', b);
  }

  lemma NoTokens()
    ensures Tokens("") == []
  {
  }

  lemma TokensOfWord(w: string)
    requires IsWord(w)
    ensures Tokens(w) == [w]
  {
    assert WordLen(w) == |w|;
    assert w[..|w|] == w;
  }

  predicate TokenOf(labels: seq<string>, w: string)
  {
    exists i :: 0 <= i < |labels| && w in Tokens(labels[i])
  }

  /** Joining keeps the tokens of every part and makes no new ones. */
  lemma {:induction false} TokensOfJoin(labels: seq<string>, w: string)
    ensures w in Tokens(Join(labels)) <==> TokenOf(labels, w)
  {
    if |labels| > 1 {
      TokensSplitAtSpace(labels[0], Join(labels[1..]));
      TokensOfJoin(labels[1..], w);
      assert TokenOf(labels[1..], w) ==> TokenOf(labels, w) by {
        if TokenOf(labels[1..], w) {
          var i :| 0 <= i < |labels[1..]| && w in Tokens(labels[1..][i]);
          assert labels[i + 1] == labels[1..][i];
        }
      }
      assert TokenOf(labels, w) ==> w in Tokens(labels[0]) || TokenOf(labels[1..], w) by {
        if TokenOf(labels, w) && w !in Tokens(labels[0]) {
          var i :| 0 <= i < |labels| && w in Tokens(labels[i]);
          assert labels[1..][i - 1] == labels[i];
        }
      }
    }
  }

  lemma TokenOfWords(ws: seq<string>, w: string)
    requires forall x :: x in ws ==> IsWord(x)
    ensures TokenOf(ws, w) <==> w in ws
  {
    forall i | 0 <= i < |ws| ensures Tokens(ws[i]) == [ws[i]] {
      TokensOfWord(ws[i]);
    }
  }

  // ---------- Finding a token through its surrounding spaces ----------

  /** The only whitespace in `s` is the space character. */
  predicate OnlySpaces(s: string)
  {
    forall i :: 0 <= i < |s| && IsSpace(s[i]) ==> s[i] == ' '
  }

  /** `w` stands in `s` at `i`, delimited by spaces or the ends. */
  predicate WordAt(s: string, w: string, i: int)
  {
    OccursAt(s, w, i) && (i == 0 || s[i - 1] == ' ') && (i + |w| == |s| || s[i + |w|] == ' ')
  }

  lemma WordAtFits(s: string, w: string, i: int)
    requires WordAt(s, w, i)
    ensures 0 <= i && i + |w| <= |s|
  {
  }

  lemma WordAtStart(s: string, w: string)
    requires IsWord(w) && OnlySpaces(s) && s != [] && !IsSpace(s[0])
    ensures WordAt(s, w, 0) <==> w == s[..WordLen(s)]
  {
    var n := WordLen(s);
    if WordAt(s, w, 0) {
      assert forall i :: 0 <= i < |w| ==> s[i] == w[i];
      assert IsSpace(' ');
    }
  }

  /** Length of the first space, or of the first word. */
  function FirstRun(s: string): (n: nat)
    requires s != []
    ensures 0 < n <= |s|
  {
    if IsSpace(s[0]) then 1 else WordLen(s)
  }

  lemma SliceShift<T>(s: seq<T>, n: nat, i: nat, j: nat)
    requires n <= i <= j <= |s|
    ensures s[n..][i - n..j - n] == s[i..j]
  {
  }

  lemma WordAtShift(s: string, w: string, i: int)
    requires IsWord(w) && OnlySpaces(s) && s != [] && i > 0
    ensures WordAt(s, w, i) <==> WordAt(s[FirstRun(s)..], w, i - FirstRun(s))
  {
    var n := FirstRun(s);
    hide WordLen;
    assert IsSpace(' ');
    if i >= n && i + |w| <= |s| {
      var t := s[n..];
      SliceShift(s, n, i, i + |w|);
      assert |w| > 0 && s[i..i + |w|][0] == s[i];
      assert i + |w| < |s| ==> t[i - n + |w|] == s[i + |w|];
      assert i > n ==> t[i - n - 1] == s[i - 1];
    }
  }

  lemma NoWordAtSpace(s: string, w: string)
    requires IsWord(w) && s != [] && IsSpace(s[0])
    ensures !OccursAt(s, w, 0)
  {
    if |w| <= |s| { assert s[0..|w|][0] == s[0]; }
  }

  /** When spaces are the only whitespace, the tokens are the space-delimited words. */
  lemma {:induction false} TokenIffWordAt(s: string, w: string)
    requires IsWord(w) && OnlySpaces(s)
    ensures w in Tokens(s) <==> exists i :: WordAt(s, w, i)
    decreases |s|
  {
    if s != [] {
      var n := FirstRun(s);
      forall i: int | i > 0 ensures WordAt(s, w, i) <==> WordAt(s[n..], w, i - n) {
        WordAtShift(s, w, i);
      }
      TokenIffWordAt(s[n..], w);
      if IsSpace(s[0]) { NoWordAtSpace(s, w); } else { WordAtStart(s, w); }
      forall i | WordAt(s, w, i) ensures i == 0 || WordAt(s[n..], w, i - n) {
        WordAtFits(s, w, i);
      }
      forall i | WordAt(s[n..], w, i) ensures WordAt(s, w, i + n) {
        WordAtFits(s[n..], w, i);
      }
      assert (exists i :: WordAt(s, w, i)) <==> WordAt(s, w, 0) || exists i :: WordAt(s[n..], w, i);
    }
  }

  lemma SliceLeft<T>(a: seq<T>, b: seq<T>, i: nat, j: nat)
    requires i <= j <= |a|
    ensures (a + b)[i..j] == a[i..j]
  {
  }

  lemma SliceRight<T>(a: seq<T>, b: seq<T>, i: nat, j: nat)
    requires |a| <= i <= j <= |a + b|
    ensures (a + b)[i..j] == b[i - |a|..j - |a|]
  {
  }

  /** A word does not reach across a space. */
  lemma WordAtSplit(a: string, b: string, w: string, i: int)
    requires IsWord(w)
    ensures WordAt(a + " " + b, w, i) <==>
      (i + |w| <= |a| && WordAt(a, w, i)) || (i > |a| && WordAt(b, w, i - |a| - 1))
  {
    var s := a + " " + b;
    assert IsSpace(' ') && s[|a|] == ' ';
    if 0 <= i && i + |w| <= |s| {
      if i + |w| <= |a| {
        SliceLeft(a, " " + b, i, i + |w|);
        assert s == a + (" " + b);
      } else if i > |a| {
        SliceRight(a + " ", b, i, i + |w|);
      } else {
        assert s[i..i + |w|][|a| - i] == ' ';
      }
    }
  }

  /** `w` stands somewhere in `s`. */
  ghost predicate HasWord(s: string, w: string)
  {
    exists i :: WordAt(s, w, i)
  }

  lemma HasWordSplit(a: string, b: string, w: string)
    requires IsWord(w)
    ensures HasWord(a + " " + b, w) <==> HasWord(a, w) || HasWord(b, w)
  {
    hide WordAt;
    if HasWord(a + " " + b, w) {
      var i :| WordAt(a + " " + b, w, i);
      WordAtSplit(a, b, w, i);
    }
    if HasWord(a, w) {
      var i :| WordAt(a, w, i);
      WordAtFits(a, w, i);
      WordAtSplit(a, b, w, i);
    }
    if HasWord(b, w) {
      var i :| WordAt(b, w, i);
      WordAtFits(b, w, i);
      WordAtSplit(a, b, w, i + |a| + 1);
    }
  }

  /** The words of a joined column are the words of its parts. */
  lemma {:induction false} HasWordJoin(ws: seq<string>, w: string)
    requires IsWord(w)
    ensures HasWord(Join(ws), w) <==> exists k :: 0 <= k < |ws| && HasWord(ws[k], w)
  {
    if ws == [] {
      assert !HasWord("", w);
    } else if |ws| > 1 {
      hide HasWord;
      HasWordSplit(ws[0], Join(ws[1..]), w);
      HasWordJoin(ws[1..], w);
      assert forall k :: 0 < k < |ws| ==> ws[1..][k - 1] == ws[k];
    }
  }

  lemma FirstWordIsToken(w: string, rest: string)
    requires IsWord(w) && (rest == "" || rest[0] == ' ')
    ensures w in Tokens(w + rest)
  {
    hide Tokens;
    TokensOfWord(w);
    if rest == "" {
      assert w + rest == w;
    } else {
      assert w + rest == w + " " + rest[1..];
      TokensSplitAtSpace(w, rest[1..]);
    }
  }

  lemma WordParts(s: string, w: string, i: int)
    requires WordAt(s, w, i)
    ensures 0 <= i && i + |w| <= |s| && s[i..] == w + s[i + |w|..]
    ensures i > 0 ==> s == s[..i - 1] + " " + s[i..]
    ensures s[i + |w|..] == "" || s[i + |w|..][0] == ' '
  {
  }

  /** A word delimited by spaces or the ends is always a token. */
  lemma WordIsToken(s: string, w: string, i: int)
    requires IsWord(w) && WordAt(s, w, i)
    ensures w in Tokens(s)
  {
    hide Tokens, WordAt;
    WordParts(s, w, i);
    FirstWordIsToken(w, s[i + |w|..]);
    if i > 0 { TokensSplitAtSpace(s[..i - 1], s[i..]); }
  }

  /** The padded-substring trick: " w " occurs in " s " exactly where `w` is delimited in `s`. */
  lemma PaddedOccurs(s: string, w: string, i: int)
    ensures OccursAt(" " + s + " ", " " + w + " ", i) <==> WordAt(s, w, i)
  {
    var hay, needle := " " + s + " ", " " + w + " ";
    if 0 <= i && i + |needle| <= |hay| {
      assert hay[i + 1..i + 1 + |w|] == s[i..i + |w|];
      assert hay[i..i + |needle|] == [hay[i]] + s[i..i + |w|] + [hay[i + 1 + |w|]];
      assert needle == [' '] + w + [' '];
      if hay[i..i + |needle|] == needle {
        assert hay[i] == needle[0] && hay[i + 1 + |w|] == needle[1 + |w|];
        assert s[i..i + |w|] == hay[i..i + |needle|][1..1 + |w|];
        assert w == needle[1..1 + |w|];
      }
    }
  }

  // ---------- Phrases: what stands between spaces ----------

  /** `s.split(" ")`, empty pieces included. */
  function Pieces(s: string): (ps: seq<string>)
    ensures ps != []
  {
    SplitOn(s, ' ')
  }

  /** `a` stands in `b` as a contiguous run. */
  ghost predicate IsRun<T>(a: seq<T>, b: seq<T>)
  {
    exists i :: RunAt(a, b, i)
  }

  predicate RunAt<T(==)>(a: seq<T>, b: seq<T>, i: int)
  {
    0 <= i && i + |a| <= |b| && b[i..i + |a|] == a
  }

  lemma RunShift<T>(a: seq<T>, x: T, b: seq<T>, i: int)
    requires i > 0
    ensures RunAt(a, [x] + b, i) <==> RunAt(a, b, i - 1)
  {
    var c := [x] + b;
    if i + |a| <= |c| {
      assert c[1..] == b;
      assert c[i..i + |a|] == c[1..][i - 1..i - 1 + |a|];
    }
  }

  lemma IsRunStep<T>(a: seq<T>, x: T, b: seq<T>)
    ensures IsRun(a, [x] + b) <==> RunAt(a, [x] + b, 0) || IsRun(a, b)
  {
    hide RunAt;
    if IsRun(a, [x] + b) {
      var i :| RunAt(a, [x] + b, i);
      RunFits(a, [x] + b, i);
      if i > 0 { RunShift(a, x, b, i); }
    }
    if IsRun(a, b) {
      var i :| RunAt(a, b, i);
      RunFits(a, b, i);
      RunShift(a, x, b, i + 1);
    }
  }

  lemma RunFits<T>(a: seq<T>, b: seq<T>, i: int)
    requires RunAt(a, b, i)
    ensures 0 <= i && i + |a| <= |b|
  {
  }

  /** The first space is at position `i`. */
  predicate FirstSpace(s: string, i: nat)
  {
    i < |s| && s[i] == ' ' && forall k :: 0 <= k < i ==> s[k] != ' '
  }

  lemma IndexIsFirst(s: string)
    requires ' ' in s
    ensures FirstSpace(s, IndexOf(s, ' '))
  {
    var i := IndexOf(s, ' ');
    forall k | 0 <= k < i ensures s[k] != ' ' {
      assert s[k] == s[..i][k];
    }
  }

  lemma NoSpaceAnywhere(s: string)
    requires ' ' !in s
    ensures forall k :: 0 <= k < |s| ==> s[k] != ' '
  {
  }

  lemma PiecesStep(s: string, i: nat)
    requires FirstSpace(s, i)
    ensures Pieces(s) == [s[..i]] + Pieces(s[i + 1..])
  {
    IndexIsFirst(s);
  }

  /** A space separates pieces. */
  lemma {:induction false} PiecesSplit(a: string, b: string)
    ensures Pieces(a + " " + b) == Pieces(a) + Pieces(b)
    decreases |a|
  {
    hide SplitOn;
    var s := a + " " + b;
    if ' ' !in a {
      PiecesOfOne(a);
      NoSpaceAnywhere(a);
      assert s[..|a|] == a && s[|a| + 1..] == b;
      PiecesStep(s, |a|);
    } else {
      var i := IndexOf(a, ' ');
      IndexIsFirst(a);
      assert s[..i] == a[..i] && s[i + 1..] == a[i + 1..] + " " + b;
      assert FirstSpace(s, i);
      PiecesStep(a, i);
      PiecesStep(s, i);
      PiecesSplit(a[i + 1..], b);
    }
  }

  lemma PiecesOfOne(a: string)
    requires ' ' !in a
    ensures Pieces(a) == [a]
  {
  }

  lemma OnePiece(w: string, x: string)
    requires Pieces(w) == [x]
    ensures w == x
  {
    if ' ' in w {
      IndexIsFirst(w);
      PiecesStep(w, IndexOf(w, ' '));
    }
  }

  lemma PrefixStep<T>(x: T, a: seq<T>, y: T, b: seq<T>)
    ensures RunAt([x] + a, [y] + b, 0) <==> x == y && RunAt(a, b, 0)
  {
    var c, d := [x] + a, [y] + b;
    if |a| <= |b| {
      var e := d[0..|c|];
      assert e[0] == y && e[1..] == b[0..|a|];
      assert c[0] == x && c[1..] == a;
      if x == y && b[0..|a|] == a { assert e == c; }
    }
  }

  /** Against a string without a space. */
  lemma LoneAtStart(s: string, w: string)
    requires ' ' !in s && Pieces(s) == [s]
    ensures WordAt(s, w, 0) <==> RunAt(Pieces(w), Pieces(s), 0)
  {
    NoSpaceAnywhere(s);
    assert [s][0..1] == [s];
    assert s[0..|s|] == s;
    if WordAt(s, w, 0) {
      assert s[0..|w|] == w;
      assert |w| == |s|;
      assert w == s;
    }
    if RunAt(Pieces(w), [s], 0) {
      assert |Pieces(w)| == 1;
      assert Pieces(w) == [s];
      OnePiece(w, s);
    }
  }

  /** A string without a space against one that has its first at `i`. */
  lemma PieceAtStart(s: string, w: string, i: nat)
    requires FirstSpace(s, i) && ' ' !in w && Pieces(w) == [w]
    requires Pieces(s) == [s[..i]] + Pieces(s[i + 1..])
    ensures WordAt(s, w, 0) <==> RunAt(Pieces(w), Pieces(s), 0)
  {
    NoSpaceAnywhere(w);
    assert Pieces(s)[0..1] == [s[..i]];
    if WordAt(s, w, 0) {
      assert s[0..|w|] == w && forall k :: 0 <= k < |w| ==> s[k] == w[k];
      assert |w| == i;
    }
  }

  lemma PhraseAtStart(s: string, w: string, i: nat, j: nat)
    requires FirstSpace(s, i) && FirstSpace(w, j)
    ensures WordAt(s, w, 0) <==> w[..j] == s[..i] && WordAt(s[i + 1..], w[j + 1..], 0)
  {
    if WordAt(s, w, 0) {
      assert s[0..|w|] == w && forall k :: 0 <= k < |w| ==> s[k] == w[k];
      assert i == j;
      assert s[i + 1..][0..|w| - j - 1] == w[j + 1..];
    }
    if w[..j] == s[..i] && WordAt(s[i + 1..], w[j + 1..], 0) {
      assert |w[..j]| == |s[..i]|;
      assert s == s[..i] + [' '] + s[i + 1..] && w == w[..j] + [' '] + w[j + 1..];
      assert s[i + 1..][0..|w| - j - 1] == w[j + 1..];
      assert s[0..|w|] == w;
    }
  }

  /** At the start: whole pieces, one for one. */
  lemma {:induction false} StandsAtStart(s: string, w: string)
    ensures WordAt(s, w, 0) <==> RunAt(Pieces(w), Pieces(s), 0)
    decreases |s|
  {
    hide WordAt, Pieces, RunAt, FirstSpace;
    if ' ' !in s {
      PiecesOfOne(s);
      LoneAtStart(s, w);
    } else {
      var i := IndexOf(s, ' ');
      IndexIsFirst(s);
      PiecesStep(s, i);
      if ' ' !in w {
        PiecesOfOne(w);
        PieceAtStart(s, w, i);
      } else {
        var j := IndexOf(w, ' ');
        IndexIsFirst(w);
        PiecesStep(w, j);
        StandsAtStart(s[i + 1..], w[j + 1..]);
        PhraseAtStart(s, w, i, j);
        PrefixStep(w[..j], Pieces(w[j + 1..]), s[..i], Pieces(s[i + 1..]));
      }
    }
  }

  lemma WordAfter(s: string, w: string, i: nat, k: int)
    requires FirstSpace(s, i) && k > 0
    ensures WordAt(s, w, k) <==> WordAt(s[i + 1..], w, k - i - 1)
  {
    if k > i && k + |w| <= |s| { SliceShift(s, i + 1, k, k + |w|); }
  }

  lemma HasWordAfter(s: string, w: string, i: nat)
    requires FirstSpace(s, i)
    ensures HasWord(s, w) <==> WordAt(s, w, 0) || HasWord(s[i + 1..], w)
  {
    assert i < |s|;
    hide WordAt, FirstSpace;
    if HasWord(s, w) {
      var k :| WordAt(s, w, k);
      WordAtFits(s, w, k);
      if k > 0 { WordAfter(s, w, i, k); }
    }
    if HasWord(s[i + 1..], w) {
      var k :| WordAt(s[i + 1..], w, k);
      WordAtFits(s[i + 1..], w, k);
      WordAfter(s, w, i, k + i + 1);
    }
  }

  lemma OnlyAtStart(s: string, w: string)
    requires ' ' !in s
    ensures HasWord(s, w) <==> WordAt(s, w, 0)
  {
    NoSpaceAnywhere(s);
  }

  lemma RunOfOne<T>(a: seq<T>, x: T)
    requires a != []
    ensures IsRun(a, [x]) <==> RunAt(a, [x], 0)
  {
  }

  /** A string stands in another, delimited by spaces or the ends, if and only if its pieces are a
      contiguous run of the other's pieces. */
  lemma {:induction false} HasWordIffRun(s: string, w: string)
    ensures HasWord(s, w) <==> IsRun(Pieces(w), Pieces(s))
    decreases |s|
  {
    hide HasWord, WordAt, Pieces, RunAt, IsRun, FirstSpace;
    StandsAtStart(s, w);
    if ' ' !in s {
      PiecesOfOne(s);
      OnlyAtStart(s, w);
      RunOfOne(Pieces(w), s);
    } else {
      var i := IndexOf(s, ' ');
      IndexIsFirst(s);
      PiecesStep(s, i);
      HasWordIffRun(s[i + 1..], w);
      HasWordAfter(s, w, i);
      IsRunStep(Pieces(w), s[..i], Pieces(s[i + 1..]));
    }
  }

  /** The pieces of several strings, one after the other. */
  function AllPieces(ls: seq<string>): seq<string>
  {
    if ls == [] then [] else Pieces(ls[0]) + AllPieces(ls[1..])
  }

  lemma {:induction false} PiecesOfJoin(ls: seq<string>)
    requires ls != []
    ensures Pieces(Join(ls)) == AllPieces(ls)
  {
    if |ls| > 1 {
      PiecesSplit(ls[0], Join(ls[1..]));
      PiecesOfJoin(ls[1..]);
    } else {
      assert AllPieces(ls) == Pieces(ls[0]) + [];
    }
  }

  predicate AllWords(ws: seq<string>)
  {
    forall i :: 0 <= i < |ws| ==> IsWord(ws[i])
  }

  lemma WordHasNoSpace(w: string)
    requires IsWord(w)
    ensures ' ' !in w
  {
    assert IsSpace(' ');
  }

  /** The pieces of joined words are the words. */
  lemma {:induction false} PiecesOfWords(ws: seq<string>)
    requires AllWords(ws)
    ensures AllPieces(ws) == ws
  {
    if ws != [] {
      WordHasNoSpace(ws[0]);
      PiecesOfOne(ws[0]);
      PiecesOfWords(ws[1..]);
    }
  }

  /** So are its tokens. */
  lemma {:induction false} TokensOfWords(ws: seq<string>)
    requires AllWords(ws)
    ensures Tokens(Join(ws)) == ws
  {
    if |ws| == 1 {
      TokensOfWord(ws[0]);
    } else if |ws| > 1 {
      TokensSplitAtSpace(ws[0], Join(ws[1..]));
      TokensOfWord(ws[0]);
      TokensOfWords(ws[1..]);
    }
  }
}
