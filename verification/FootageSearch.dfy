/**
 What the footage search's tests mean for the keyframes that were added, over every history of adds.
 */
module FootageSearch {
  import opened FootageStore
  import opened Text

  // ---------- What the columns hold ----------

  /** Lower case, and no whitespace but spaces. */
  predicate Clean(s: string)
  {
    NoUpper(s) && OnlySpaces(s)
  }

  predicate AllClean(ws: seq<string>)
  {
    forall i :: 0 <= i < |ws| ==> Clean(ws[i])
  }

  lemma {:induction false} JoinIsClean(ws: seq<string>)
    requires AllClean(ws)
    ensures Clean(Join(ws))
  {
    if |ws| > 1 { JoinIsClean(ws[1..]); }
  }

  lemma {:induction false} JoinIsLower(ws: seq<string>)
    requires forall w :: w in ws ==> NoUpper(w)
    ensures NoUpper(Join(ws))
  {
    if |ws| > 1 {
      assert ws[0] in ws;
      JoinIsLower(ws[1..]);
    }
  }

  lemma {:induction false} TokensAreLower(s: string)
    requires NoUpper(s)
    ensures forall w :: w in Tokens(s) ==> NoUpper(w)
  {
    if s != [] { TokensAreLower(if IsSpace(s[0]) then s[1..] else s[WordLen(s)..]); }
  }

  lemma FreshIsLower(labels: seq<string>)
    ensures NoUpper(FreshLabels(labels))
  {
    var ls := LowerAll(labels);
    SortedSetIs(ls);
    forall w | w in ls ensures NoUpper(w) {
      var i :| 0 <= i < |ls| && w == ls[i];
      LowerIsLower(labels[i]);
    }
    JoinIsLower(SortedSet(ls));
  }

  /** A lower-case column made of its own tokens, in ascending order, with single spaces between. */
  predicate Rebuilt(s: string)
  {
    NoUpper(s) && s == Join(Tokens(s)) && Ascending(Tokens(s))
  }

  lemma RebuiltIsClean(s: string)
    requires Rebuilt(s)
    ensures Clean(s)
  {
    var ws := Tokens(s);
    TokensAreWords(s);
    TokensAreLower(s);
    hide Tokens, Ascending;
    forall i | 0 <= i < |ws| ensures Clean(ws[i]) {
      assert ws[i] in ws;
    }
    JoinIsClean(ws);
  }

  /** A merge rebuilds the column, whatever it was made of. */
  lemma MergedIsRebuilt(have: string, more: string)
    requires NoUpper(have) && NoUpper(more)
    ensures Rebuilt(MergeLabels(have, more))
  {
    var ws := Tokens(have) + Tokens(more);
    TokensAreLower(have);
    TokensAreLower(more);
    TokensAreWords(have);
    TokensAreWords(more);
    SortedSetIs(ws);
    SortedSetAscends(ws);
    hide Tokens, SortedSet, Ascending;
    var sorted := SortedSet(ws);
    forall i | 0 <= i < |sorted| ensures IsWord(sorted[i]) && NoUpper(sorted[i]) {
      assert sorted[i] in ws;
    }
    TokensOfWords(sorted);
    JoinIsLower(sorted);
  }

  /** How many keyframes were added under a key. */
  function Times(ks: seq<Keyframe>, cam: string, corr: string): nat
  {
    if ks == [] then 0 else
    Times(ks[..|ks| - 1], cam, corr) + (if Keyed(ks[|ks| - 1], cam, corr) then 1 else 0)
  }

  lemma {:induction false} TimesIsAny(ks: seq<Keyframe>, cam: string, corr: string)
    ensures Times(ks, cam, corr) > 0 <==> AnyAdded(ks, cam, corr)
  {
    if ks != [] {
      var before, kf := ks[..|ks| - 1], ks[|ks| - 1];
      TimesIsAny(before, cam, corr);
      assert before + [kf] == ks;
      AnyAddedSnoc(before, kf, cam, corr);
    }
  }

  lemma TimesSnoc(ks: seq<Keyframe>, kf: Keyframe, cam: string, corr: string)
    ensures Times(ks + [kf], cam, corr) == Times(ks, cam, corr) + (if Keyed(kf, cam, corr) then 1 else 0)
  {
    assert (ks + [kf])[..|ks|] == ks;
  }

  /** The keyframe whose labels a row's column was written from. */
  predicate WrittenFrom(ks: seq<Keyframe>, r: Row, k: int)
  {
    0 <= k < |ks| && Keyed(ks[k], r.cam, r.corr) && r.labels == FreshLabels(ks[k].labels)
  }

  /** A merged column is rebuilt; any other was written once, from one keyframe. */
  ghost predicate ColumnOK(ks: seq<Keyframe>, r: Row)
  {
    && NoUpper(r.labels)
    && (r.corr != [] && Times(ks, r.cam, r.corr) >= 2 ==> Rebuilt(r.labels))
    && (r.corr == [] || Times(ks, r.cam, r.corr) < 2 ==> exists k :: WrittenFrom(ks, r, k))
  }

  lemma WrittenSnoc(ks: seq<Keyframe>, kf: Keyframe, r: Row)
    requires exists k :: WrittenFrom(ks, r, k)
    ensures exists k :: WrittenFrom(ks + [kf], r, k)
  {
    hide FreshLabels;
    var k :| WrittenFrom(ks, r, k);
    assert WrittenFrom(ks + [kf], r, k);
  }

  lemma OtherColumnOK(ks: seq<Keyframe>, kf: Keyframe, r: Row)
    requires ColumnOK(ks, r) && (r.corr != [] ==> !Keyed(kf, r.cam, r.corr))
    ensures ColumnOK(ks + [kf], r)
  {
    TimesSnoc(ks, kf, r.cam, r.corr);
    hide WrittenFrom, Rebuilt, Times;
    if exists k :: WrittenFrom(ks, r, k) { WrittenSnoc(ks, kf, r); }
  }

  lemma MergedColumnOK(ks: seq<Keyframe>, kf: Keyframe, r: Row)
    requires ColumnOK(ks, r) && r.corr != [] && Keyed(kf, r.cam, r.corr) && AnyAdded(ks, r.cam, r.corr)
    ensures ColumnOK(ks + [kf], Merged(r, kf))
  {
    TimesSnoc(ks, kf, r.cam, r.corr);
    TimesIsAny(ks, r.cam, r.corr);
    FreshIsLower(kf.labels);
    MergedIsRebuilt(r.labels, FreshLabels(kf.labels));
    hide WrittenFrom, Times, FreshLabels, MergeLabels, MergeCaption, MergeAdapter, AnyAdded;
  }

  lemma NewColumnOK(ks: seq<Keyframe>, kf: Keyframe)
    requires kf.corr != [] ==> !AnyAdded(ks, kf.cam, kf.corr)
    ensures ColumnOK(ks + [kf], NewRow(kf))
  {
    TimesSnoc(ks, kf, kf.cam, kf.corr);
    TimesIsAny(ks, kf.cam, kf.corr);
    FreshIsLower(kf.labels);
    hide Times, FreshLabels, AnyAdded;
    assert WrittenFrom(ks + [kf], NewRow(kf), |ks|);
  }

  lemma {:induction false} ColumnsOK(ks: seq<Keyframe>)
    ensures forall i :: 0 <= i < |After(ks)| ==> ColumnOK(ks, After(ks)[i])
  {
    if ks != [] {
      var before, kf := ks[..|ks| - 1], ks[|ks| - 1];
      assert before + [kf] == ks;
      ColumnsOK(before);
      RowsReachable(before);
      AddKeepsColumns(before, After(before), kf);
    }
  }

  lemma AddKeepsColumns(ks: seq<Keyframe>, rows: seq<Row>, kf: Keyframe)
    requires RowsOK(ks, rows) && forall i :: 0 <= i < |rows| ==> ColumnOK(ks, rows[i])
    ensures forall i :: 0 <= i < |Add(rows, kf)| ==> ColumnOK(ks + [kf], Add(rows, kf)[i])
  {
    var rows' := Add(rows, kf);
    var at := if kf.corr == [] then |rows| else Find(rows, kf.cam, kf.corr);
    hide ColumnOK, Merged, NewRow, AnyAdded;
    forall i | 0 <= i < |rows'| ensures ColumnOK(ks + [kf], rows'[i]) {
      if i < |rows| {
        assert RowOK(ks, rows[i]);
        if i == at { MergedColumnOK(ks, kf, rows[i]); } else { OtherColumnOK(ks, kf, rows[i]); }
      } else {
        NewColumnOK(ks, kf);
      }
    }
  }

  /** Some label, lower-cased, has the word delimited by spaces or its ends. */
  ghost predicate LabelsHaveWord(labels: seq<string>, w: string)
  {
    exists k :: 0 <= k < |labels| && HasWord(Lower(labels[k]), w)
  }

  /** A column written from one keyframe answers by the words its labels delimit with spaces. */
  lemma FreshTestIsWord(labels: seq<string>, name: string)
    requires IsWord(Lower(name)) && NoWildcards(Lower(name))
    ensures LabelTest(FreshLabels(labels), name) <==> LabelsHaveWord(labels, Lower(name))
  {
    var ls, w := LowerAll(labels), Lower(name);
    FreshIsLower(labels);
    LabelTestIsWord(FreshLabels(labels), name);
    HasWordJoin(SortedSet(ls), w);
    SortedSetIs(ls);
    hide SortedSet, HasWord, LabelTest, Lower;
    assert (exists k :: 0 <= k < |SortedSet(ls)| && HasWord(SortedSet(ls)[k], w)) <==>
      exists x :: x in ls && HasWord(x, w);
    assert (exists x :: x in ls && HasWord(x, w)) <==> exists k :: 0 <= k < |ls| && HasWord(ls[k], w);
  }

  /** Some keyframe added under the key has the word delimited by spaces or the ends in one of its labels. */
  ghost predicate Delimited(ks: seq<Keyframe>, cam: string, corr: string, w: string)
  {
    exists k :: 0 <= k < |ks| && Keyed(ks[k], cam, corr) && LabelsHaveWord(ks[k].labels, w)
  }

  lemma DelimitedIsAdded(ks: seq<Keyframe>, cam: string, corr: string, w: string)
    requires IsWord(w) && Delimited(ks, cam, corr, w)
    ensures Added(ks, cam, corr, w)
  {
    var k :| 0 <= k < |ks| && Keyed(ks[k], cam, corr) && LabelsHaveWord(ks[k].labels, w);
    var j :| 0 <= j < |ks[k].labels| && HasWord(Lower(ks[k].labels[j]), w);
    var i :| WordAt(Lower(ks[k].labels[j]), w, i);
    WordIsToken(Lower(ks[k].labels[j]), w, i);
    hide Tokens, Lower, WordAt;
    assert w in Tokens(LowerAll(ks[k].labels)[j]);
  }

  /** Of a key added at least twice, the padded-substring test answers exactly: a single-token query label
      without wildcards passes if and only if it is a token of some label added under the key, whatever
      whitespace the labels had. */
  lemma MergedRowsAnswerExactly(ks: seq<Keyframe>, i: nat, name: string)
    requires i < |After(ks)| && After(ks)[i].corr != [] && Times(ks, After(ks)[i].cam, After(ks)[i].corr) >= 2
    requires IsWord(Lower(name)) && NoWildcards(Lower(name))
    ensures var r := After(ks)[i]; LabelTest(r.labels, name) <==> Added(ks, r.cam, r.corr, Lower(name))
  {
    ColumnsOK(ks);
    RowsReachable(ks);
    var r := After(ks)[i];
    assert RowOK(ks, r) && ColumnOK(ks, r);
    RebuiltIsClean(r.labels);
    hide After, Added, Times, Rebuilt;
    LabelTestIsMembership(r.labels, name);
  }

  /** Of a row written once, under a key or without one, it passes if and only if one of the labels it was
      written from has the word delimited by spaces or its ends. */
  lemma OnceWrittenRowsAnswerByWords(ks: seq<Keyframe>, i: nat, name: string)
    requires i < |After(ks)| && (After(ks)[i].corr == [] || Times(ks, After(ks)[i].cam, After(ks)[i].corr) == 1)
    requires IsWord(Lower(name)) && NoWildcards(Lower(name))
    ensures var r := After(ks)[i];
      exists k :: WrittenFrom(ks, r, k) && (LabelTest(r.labels, name) <==> LabelsHaveWord(ks[k].labels, Lower(name)))
  {
    ColumnsOK(ks);
    var r := After(ks)[i];
    assert ColumnOK(ks, r);
    hide After, Times, LabelTest, LabelsHaveWord, FreshLabels;
    var k :| WrittenFrom(ks, r, k);
    FreshTestIsWord(ks[k].labels, name);
  }

  lemma {:induction false} OnlyOneKeyed(ks: seq<Keyframe>, cam: string, corr: string, j: int, k: int)
    requires Times(ks, cam, corr) == 1 && 0 <= j < |ks| && 0 <= k < |ks|
    requires Keyed(ks[j], cam, corr) && Keyed(ks[k], cam, corr)
    ensures j == k
  {
    var last := |ks| - 1;
    if Keyed(ks[last], cam, corr) {
      TimesIsAny(ks[..last], cam, corr);
      forall m | 0 <= m < last ensures !Keyed(ks[m], cam, corr) {
        assert ks[..last][m] == ks[m];
      }
    } else {
      OnlyOneKeyed(ks[..last], cam, corr, j, k);
    }
  }

  lemma OnceAddedIsDelimited(ks: seq<Keyframe>, i: nat, name: string)
    requires i < |After(ks)| && After(ks)[i].corr != [] && Times(ks, After(ks)[i].cam, After(ks)[i].corr) == 1
    requires IsWord(Lower(name)) && NoWildcards(Lower(name))
    ensures var r := After(ks)[i]; LabelTest(r.labels, name) <==> Delimited(ks, r.cam, r.corr, Lower(name))
  {
    OnceWrittenRowsAnswerByWords(ks, i, name);
    var r := After(ks)[i];
    hide After, Times, LabelTest, LabelsHaveWord, FreshLabels;
    var k :| WrittenFrom(ks, r, k) && (LabelTest(r.labels, name) <==> LabelsHaveWord(ks[k].labels, Lower(name)));
    if Delimited(ks, r.cam, r.corr, Lower(name)) {
      var j :| 0 <= j < |ks| && Keyed(ks[j], r.cam, r.corr) && LabelsHaveWord(ks[j].labels, Lower(name));
      OnlyOneKeyed(ks, r.cam, r.corr, j, k);
    }
  }

  /** The label test against the promise, over every history: it never reports a label that was not added
      under the key, and it misses one that was if and only if the key was added only once and no label of
      that keyframe has the word delimited by spaces or its ends. */
  lemma LabelSearchIsMembership(ks: seq<Keyframe>, i: nat, name: string)
    requires i < |After(ks)| && After(ks)[i].corr != []
    requires IsWord(Lower(name)) && NoWildcards(Lower(name))
    ensures var r, w := After(ks)[i], Lower(name);
      && (LabelTest(r.labels, name) ==> Added(ks, r.cam, r.corr, w))
      && (Added(ks, r.cam, r.corr, w) && !LabelTest(r.labels, name) <==>
            Added(ks, r.cam, r.corr, w) && Times(ks, r.cam, r.corr) == 1 && !Delimited(ks, r.cam, r.corr, w))
  {
    RowsReachable(ks);
    var r := After(ks)[i];
    assert RowOK(ks, r);
    TimesIsAny(ks, r.cam, r.corr);
    hide After, Times, LabelTest, Delimited, Added, Tokens, Lower;
    if Times(ks, r.cam, r.corr) >= 2 {
      MergedRowsAnswerExactly(ks, i, name);
    } else {
      OnceAddedIsDelimited(ks, i, name);
      if Delimited(ks, r.cam, r.corr, Lower(name)) { DelimitedIsAdded(ks, r.cam, r.corr, Lower(name)); }
    }
  }

  // ---------- Labels of several words ----------

  /** The label test asks whether the label's pieces stand side by side among the column's. */
  lemma LabelTestIsRun(column: string, name: string)
    requires NoUpper(column) && NoWildcards(Lower(name))
    ensures LabelTest(column, name) <==> IsRun(Pieces(Lower(name)), Pieces(column))
  {
    LabelTestIsWord(column, name);
    HasWordIffRun(column, Lower(name));
  }

  lemma {:induction false} LexIrreflexive(a: string)
    ensures !LexLess(a, a)
  {
    if a != [] { LexIrreflexive(a[1..]); }
  }

  lemma {:induction false} LexTransitive(a: string, b: string, c: string)
    requires LexLess(a, b) && LexLess(b, c)
    ensures LexLess(a, c)
  {
    if a != [] && a[0] == b[0] && b[0] == c[0] { LexTransitive(a[1..], b[1..], c[1..]); }
  }

  lemma {:induction false} AscendingAt(ws: seq<string>, i: nat, j: nat)
    requires Ascending(ws) && i < j < |ws|
    ensures LexLess(ws[i], ws[j])
  {
    hide LexLess;
    if i + 1 < j {
      AscendingAt(ws, i, j - 1);
      LexTransitive(ws[i], ws[j - 1], ws[j]);
    }
  }

  /** In an ascending list words compare as their places do. */
  lemma OrderIsPlace(ws: seq<string>, i: nat, j: nat)
    requires Ascending(ws) && i < |ws| && j < |ws|
    ensures LexLess(ws[i], ws[j]) <==> i < j
  {
    hide LexLess, Ascending;
    LexIrreflexive(ws[i]);
    if i < j {
      AscendingAt(ws, i, j);
    } else if j < i {
      AscendingAt(ws, j, i);
      if LexLess(ws[i], ws[j]) { LexTransitive(ws[i], ws[j], ws[i]); }
    }
  }

  /** `q` comes after `p` in alphabetical order, and none of the words comes between. */
  ghost predicate NextOf(words: iset<string>, p: string, q: string)
  {
    LexLess(p, q) && forall x :: x in words ==> !(LexLess(p, x) && LexLess(x, q))
  }

  /** `ps` are some of the words, each the next after the one before. */
  ghost predicate Consecutive(words: iset<string>, ps: seq<string>)
  {
    && (forall j :: 0 <= j < |ps| ==> ps[j] in words)
    && (forall j :: 0 <= j < |ps| - 1 ==> NextOf(words, ps[j], ps[j + 1]))
  }

  ghost function Members(ws: seq<string>): iset<string>
  {
    iset x | x in ws
  }

  lemma NextIsNextPlace(ws: seq<string>, i: nat, j: nat)
    requires Ascending(ws) && i < |ws| && j < |ws|
    ensures NextOf(Members(ws), ws[i], ws[j]) <==> j == i + 1
  {
    hide LexLess, Ascending;
    OrderIsPlace(ws, i, j);
    forall k | 0 <= k < |ws| ensures LexLess(ws[i], ws[k]) && LexLess(ws[k], ws[j]) <==> i < k < j {
      OrderIsPlace(ws, i, k);
      OrderIsPlace(ws, k, j);
    }
    if j > i + 1 { assert ws[i + 1] in Members(ws); }
  }

  lemma RunIsConsecutive(ws: seq<string>, ps: seq<string>, i: nat)
    requires Ascending(ws) && RunAt(ps, ws, i)
    ensures Consecutive(Members(ws), ps)
  {
    hide LexLess, Ascending, NextOf;
    assert forall j :: 0 <= j < |ps| ==> ps[j] == ws[i + j];
    forall j | 0 <= j < |ps| - 1 ensures NextOf(Members(ws), ps[j], ps[j + 1]) {
      assert ps[j] == ws[i + j] && ps[j + 1] == ws[i + j + 1];
      NextIsNextPlace(ws, i + j, i + j + 1);
    }
  }

  /** Consecutive words take consecutive places from that of the first. */
  lemma {:induction false} ConsecutiveAt(ws: seq<string>, ps: seq<string>, i: nat, j: nat)
    requires Ascending(ws) && Consecutive(Members(ws), ps)
    requires j < |ps| && i < |ws| && ws[i] == ps[0]
    ensures i + j < |ws| && ws[i + j] == ps[j]
  {
    hide LexLess, Ascending, NextOf;
    if j > 0 {
      ConsecutiveAt(ws, ps, i, j - 1);
      assert NextOf(Members(ws), ps[j - 1], ps[j - 1 + 1]);
      var m :| 0 <= m < |ws| && ws[m] == ps[j];
      NextIsNextPlace(ws, i + j - 1, m);
    }
  }

  lemma RunIffConsecutive(ws: seq<string>, ps: seq<string>)
    requires Ascending(ws) && ps != []
    ensures IsRun(ps, ws) <==> Consecutive(Members(ws), ps)
  {
    hide Ascending;
    if IsRun(ps, ws) {
      var i :| RunAt(ps, ws, i);
      RunIsConsecutive(ws, ps, i);
    }
    if Consecutive(Members(ws), ps) {
      assert ps[0] in Members(ws);
      var i :| 0 <= i < |ws| && ws[i] == ps[0];
      hide Consecutive;
      forall j | 0 <= j < |ps| ensures i + j < |ws| && ws[i + j] == ps[j] {
        ConsecutiveAt(ws, ps, i, j);
      }
      ConsecutiveAt(ws, ps, i, |ps| - 1);
      assert ws[i..i + |ps|] == ps;
      assert RunAt(ps, ws, i);
    }
  }

  /** The tokens of all labels added under a key. */
  ghost function AddedWords(ks: seq<Keyframe>, cam: string, corr: string): iset<string>
  {
    iset w | Added(ks, cam, corr, w)
  }

  lemma RebuiltPieces(s: string)
    requires Rebuilt(s)
    ensures Pieces(s) == if Tokens(s) == [] then [""] else Tokens(s)
  {
    var ws := Tokens(s);
    TokensAreWords(s);
    hide Tokens, Ascending;
    if ws == [] {
      PiecesOfOne("");
    } else {
      assert AllWords(ws);
      PiecesOfJoin(ws);
      PiecesOfWords(ws);
    }
  }

  lemma RebuiltAnswers(column: string, name: string)
    requires Rebuilt(column) && NoWildcards(Lower(name))
    ensures LabelTest(column, name) <==>
      if Tokens(column) == [] then name == "" else Consecutive(Members(Tokens(column)), Pieces(Lower(name)))
  {
    var ps := Pieces(Lower(name));
    LabelTestIsRun(column, name);
    RebuiltPieces(column);
    hide Tokens, LabelTest, Consecutive, SplitOn;
    if Tokens(column) == [] {
      RunOfOne(ps, "");
      OnlyEmpty(Lower(name));
    } else {
      RunIffConsecutive(Tokens(column), ps);
    }
  }

  lemma OnlyEmpty(w: string)
    ensures RunAt(Pieces(w), [""], 0) <==> w == ""
  {
    if RunAt(Pieces(w), [""], 0) {
      assert |Pieces(w)| == 1 && [""][0..1] == [""];
      OnePiece(w, "");
    }
    PiecesOfOne("");
    assert [""][0..1] == [""];
  }

  /** Of a key added at least twice, a label of any number of words passes if and only if its words are
      consecutive, in alphabetical order, among all the tokens added under the key. */
  lemma MergedRowsAnswerByNeighbours(ks: seq<Keyframe>, i: nat, name: string)
    requires i < |After(ks)| && After(ks)[i].corr != [] && Times(ks, After(ks)[i].cam, After(ks)[i].corr) >= 2
    requires NoWildcards(Lower(name))
    ensures var r := After(ks)[i];
      var words := AddedWords(ks, r.cam, r.corr);
      LabelTest(r.labels, name) <==>
        Consecutive(words, Pieces(Lower(name))) || (name == "" && words == iset{})
  {
    ColumnsOK(ks);
    RowsReachable(ks);
    var r := After(ks)[i];
    assert RowOK(ks, r) && ColumnOK(ks, r);
    hide After, Added, Times, Tokens, Consecutive, LabelTest, SplitOn;
    RebuiltAnswers(r.labels, name);
    assert Members(Tokens(r.labels)) == AddedWords(ks, r.cam, r.corr);
    if Tokens(r.labels) != [] {
      assert Tokens(r.labels)[0] in Members(Tokens(r.labels));
    } else if Consecutive(Members([]), Pieces(Lower(name))) {
      FirstIsAWord(Members([]), Pieces(Lower(name)));
    }
  }

  lemma FirstIsAWord(words: iset<string>, ps: seq<string>)
    requires ps != [] && Consecutive(words, ps)
    ensures ps[0] in words
  {
  }

  // ---------- Any label, wildcards and all ----------

  /** `s` from some place on, or up to some place, matches. */
  ghost predicate SomeSuffix(s: string, p: string)
  {
    exists i :: 0 <= i <= |s| && Like(s[i..], p)
  }

  ghost predicate SomePrefix(s: string, p: string)
  {
    exists j :: 0 <= j <= |s| && Like(s[..j], p)
  }

  lemma SomeSuffixStep(s: string, p: string)
    requires s != []
    ensures SomeSuffix(s, p) <==> Like(s, p) || SomeSuffix(s[1..], p)
  {
    assert s[0..] == s;
    forall i | 0 < i <= |s| ensures s[1..][i - 1..] == s[i..] {
    }
    if SomeSuffix(s[1..], p) {
      var i :| 0 <= i <= |s[1..]| && Like(s[1..][i..], p);
      assert s[1..][i..] == s[i + 1..];
    }
  }

  lemma {:induction false} LikeSuffix(s: string, p: string)
    ensures Like(s, "%" + p) <==> SomeSuffix(s, p)
    decreases |s|
  {
    assert ("%" + p)[1..] == p;
    if s == [] {
      assert s[0..] == s;
    } else {
      LikeSuffix(s[1..], p);
      SomeSuffixStep(s, p);
    }
  }

  lemma SomePrefixStep(s: string, p: string)
    requires p != [] && p[0] != '%'
    ensures SomePrefix(s, p) <==>
      s != [] && (p[0] == '_' || LowerChar(s[0]) == LowerChar(p[0])) && SomePrefix(s[1..], p[1..])
  {
    if s != [] {
      forall j | 0 < j <= |s| ensures s[1..][..j - 1] == s[..j][1..] && s[..j][0] == s[0] {
      }
      if SomePrefix(s[1..], p[1..]) {
        var j :| 0 <= j <= |s[1..]| && Like(s[1..][..j], p[1..]);
        assert s[1..][..j] == s[..j + 1][1..];
      }
    }
  }

  lemma SomePrefixAny(s: string, p: string)
    requires p != [] && p[0] == '%'
    ensures SomePrefix(s, p) <==> SomePrefix(s, p[1..]) || (s != [] && SomePrefix(s[1..], p))
  {
    if s != [] {
      forall j | 0 < j <= |s| ensures s[1..][..j - 1] == s[..j][1..] {
      }
      if SomePrefix(s[1..], p) {
        var j :| 0 <= j <= |s[1..]| && Like(s[1..][..j], p);
        assert s[1..][..j] == s[..j + 1][1..];
      }
    }
  }

  lemma {:induction false} LikePrefixOf(s: string, p: string)
    ensures Like(s, p + "%") <==> SomePrefix(s, p)
    decreases |p|, |s|
  {
    if p == [] {
      LikeAnything(s);
      assert p + "%" == "%" && s[..0] == "";
    } else {
      assert (p + "%")[1..] == p[1..] + "%";
      if s != [] { LikePrefixOf(s[1..], p[1..]); }
      if p[0] == '%' {
        LikePrefixOf(s, p[1..]);
        if s != [] { LikePrefixOf(s[1..], p); }
        SomePrefixAny(s, p);
      } else {
        SomePrefixStep(s, p);
      }
    }
  }

  /** A space at the end of a pattern is a space at the end of the string. */
  lemma {:induction false} LikeBeforeSpace(s: string, p: string)
    ensures Like(s, p + " ") <==> s != [] && s[|s| - 1] == ' ' && Like(s[..|s| - 1], p)
    decreases |p|, |s|
  {
    if p == [] {
      assert p + " " == " " && " "[1..] == "";
      assert s != [] && s[1..] == [] ==> s[..|s| - 1] == [];
    } else {
      assert (p + " ")[1..] == p[1..] + " ";
      if s != [] {
        var t := s[..|s| - 1];
        LikeBeforeSpace(s[1..], p[1..]);
        if |s| > 1 { assert s[1..][..|s[1..]| - 1] == t[1..] && s[1..][|s| - 2] == s[|s| - 1]; }
        if p[0] == '%' {
          LikeBeforeSpace(s, p[1..]);
          LikeBeforeSpace(s[1..], p);
        }
      } else if p[0] == '%' {
        LikeBeforeSpace(s, p[1..]);
      }
    }
  }

  /** `s[i..j]` is delimited by spaces or the ends. */
  predicate Delimits(s: string, i: int, j: int)
  {
    0 <= i <= j <= |s| && (i == 0 || s[i - 1] == ' ') && (j == |s| || s[j] == ' ')
  }

  ghost predicate SomeStretch(s: string, p: string)
  {
    exists i, j :: Delimits(s, i, j) && Like(s[i..j], p)
  }

  lemma PaddedStretch(column: string, i: nat, j: nat)
    requires i <= j <= |column| + 2
    ensures var t := (" " + column + " ")[i..j];
      |t| >= 2 && t[0] == ' ' && t[|t| - 1] == ' ' <==> j >= i + 2 && Delimits(column, i, j - 2)
    ensures j >= i + 2 ==> (" " + column + " ")[i + 1..j - 1] == column[i..j - 2]
  {
  }

  lemma LikeBetweenSpaces(t: string, w: string)
    ensures Like(t, " " + w + " ") <==>
      |t| >= 2 && t[0] == ' ' && t[|t| - 1] == ' ' && Like(t[1..|t| - 1], w)
  {
    var p := " " + w + " ";
    assert p[1..] == w + " ";
    if t != [] {
      LikeBeforeSpace(t[1..], w);
      if |t| > 1 { assert t[1..][..|t[1..]| - 1] == t[1..|t| - 1]; }
    }
  }

  lemma StretchMatches(column: string, w: string, i: nat, j: nat)
    requires i <= j <= |column| + 2
    ensures Like((" " + column + " ")[i..j], " " + w + " ") <==>
      j >= i + 2 && Delimits(column, i, j - 2) && Like(column[i..j - 2], w)
  {
    var hay := " " + column + " ";
    var t := hay[i..j];
    LikeBetweenSpaces(t, w);
    PaddedStretch(column, i, j);
    assert |t| >= 2 ==> t[1..|t| - 1] == hay[i + 1..j - 1];
    hide Like, Delimits;
  }

  ghost predicate SomeInfix(s: string, p: string)
  {
    exists i, j :: 0 <= i <= j <= |s| && Like(s[i..j], p)
  }

  lemma LikeInfix(s: string, p: string)
    ensures Like(s, "%" + (p + "%")) <==> SomeInfix(s, p)
  {
    LikeSuffix(s, p + "%");
    hide Like;
    if SomeSuffix(s, p + "%") {
      var i :| 0 <= i <= |s| && Like(s[i..], p + "%");
      LikePrefixOf(s[i..], p);
      var k :| 0 <= k <= |s[i..]| && Like(s[i..][..k], p);
      assert s[i..][..k] == s[i..i + k];
    }
    if SomeInfix(s, p) {
      var i, j :| 0 <= i <= j <= |s| && Like(s[i..j], p);
      assert s[i..][..j - i] == s[i..j];
      LikePrefixOf(s[i..], p);
    }
  }

  /** Whatever the column and the label, the test holds if and only if some stretch of the column between
      spaces or the ends matches the label as a pattern. */
  lemma LabelTestIsMatch(column: string, name: string)
    ensures LabelTest(column, name) <==> SomeStretch(column, Lower(name))
  {
    var hay, w := " " + column + " ", Lower(name);
    var p := " " + w + " ";
    assert "% " + w + " %" == "%" + (p + "%");
    LikeInfix(hay, p);
    hide Like, Delimits;
    if SomeInfix(hay, p) {
      var i, j :| 0 <= i <= j <= |hay| && Like(hay[i..j], p);
      StretchMatches(column, w, i, j);
    }
    if SomeStretch(column, w) {
      var i, j :| Delimits(column, i, j) && Like(column[i..j], w);
      StretchFits(column, i, j);
      StretchMatches(column, w, i, j + 2);
    }
  }

  lemma StretchFits(s: string, i: int, j: int)
    requires Delimits(s, i, j)
    ensures 0 <= i <= j <= |s|
  {
  }

  lemma {:induction false} LikeItself(w: string)
    ensures Like(w, w)
  {
    if w != [] { LikeItself(w[1..]); }
  }

  // ---------- Labels as they were stored ----------

  lemma OneFreshLabel(x: string)
    ensures FreshLabels([x]) == Lower(x)
  {
    assert LowerAll([x]) == [Lower(x)];
    assert SortedSet([Lower(x)]) == [Lower(x)] by { assert [Lower(x)][1..] == []; }
  }

  /** A `_` in a query label stands for any character, so the test reports labels that were never added. */
  lemma WildcardReportsOthers()
    ensures LabelTest(FreshLabels(["cat"]), "c_t")
  {
    LowerOf("cat", "cat");
    LowerOf("c_t", "c_t");
    OneFreshLabel("cat");
    assert Like("t", "t") && "at"[1..] == "t" && "_t"[1..] == "t";
    assert Like("cat", "c_t") by { assert "cat"[1..] == "at" && "c_t"[1..] == "_t"; }
    assert "cat"[0..3] == "cat" && Delimits("cat", 0, 3);
    LabelTestIsMatch("cat", "c_t");
  }

  lemma LabelTestFindsWord(column: string, name: string)
    requires HasWord(column, Lower(name))
    ensures LabelTest(column, name)
  {
    var w := Lower(name);
    var i :| WordAt(column, w, i);
    LikeItself(w);
    LabelTestIsMatch(column, name);
    hide LabelTest, Like;
    assert Delimits(column, i, i + |w|) && column[i..i + |w|] == w;
  }

  lemma RunInside<T>(a: seq<T>, before: seq<T>, b: seq<T>, after: seq<T>)
    requires IsRun(a, b)
    ensures IsRun(a, before + b + after)
  {
    var i :| RunAt(a, b, i);
    var all := before + b + after;
    assert all[|before| + i..|before| + i + |a|] == b[i..i + |a|];
    assert RunAt(a, all, |before| + i);
  }

  lemma {:induction false} PartIsInside(ps: seq<string>, ls: seq<string>, j: nat)
    requires j < |ls| && IsRun(ps, Pieces(ls[j]))
    ensures IsRun(ps, AllPieces(ls))
  {
    hide IsRun, SplitOn;
    var head, tail := Pieces(ls[0]), AllPieces(ls[1..]);
    if j == 0 {
      RunInside(ps, [], head, tail);
      assert [] + head + tail == AllPieces(ls);
    } else {
      PartIsInside(ps, ls[1..], j - 1);
      RunInside(ps, head, tail, []);
      assert head + tail + [] == AllPieces(ls);
    }
  }

  /** What stands between the spaces of the labels, label after label in alphabetical order. */
  function LabelPieces(labels: seq<string>): seq<string>
  {
    if labels == [] then [""] else AllPieces(SortedSet(LowerAll(labels)))
  }

  lemma FreshPieces(labels: seq<string>)
    ensures Pieces(FreshLabels(labels)) == LabelPieces(labels)
  {
    var ls := LowerAll(labels);
    SortedSetIs(ls);
    if labels == [] {
      PiecesOfOne("");
    } else {
      assert ls[0] in SortedSet(ls);
      PiecesOfJoin(SortedSet(ls));
    }
  }

  /** Until a merge, every label is found as it was stored, whatever it is made of. */
  lemma StoredLabelIsFound(labels: seq<string>, j: nat, name: string)
    requires j < |labels| && Lower(labels[j]) == Lower(name)
    ensures LabelTest(FreshLabels(labels), name)
  {
    var ls, w := LowerAll(labels), Lower(name);
    SortedSetIs(ls);
    assert ls[j] == w && w in SortedSet(ls);
    hide SortedSet, LabelTest, IsRun, HasWord, SplitOn;
    var k :| 0 <= k < |SortedSet(ls)| && SortedSet(ls)[k] == w;
    WordStandsAlone(w);
    HasWordIffRun(w, w);
    PartIsInside(Pieces(w), SortedSet(ls), k);
    FreshPieces(labels);
    HasWordIffRun(FreshLabels(labels), w);
    LabelTestFindsWord(FreshLabels(labels), name);
  }

  lemma WordStandsAlone(w: string)
    ensures HasWord(w, w)
  {
    assert w[0..|w|] == w;
    assert WordAt(w, w, 0);
  }

  /** Of a row written once, a label of any number of words passes if and only if its pieces stand side by
      side in the labels the row was written from, in one of them or across neighbouring ones. */
  lemma OnceWrittenRowsAnswerByPieces(ks: seq<Keyframe>, i: nat, name: string)
    requires i < |After(ks)| && (After(ks)[i].corr == [] || Times(ks, After(ks)[i].cam, After(ks)[i].corr) == 1)
    requires NoWildcards(Lower(name))
    ensures var r := After(ks)[i];
      exists k :: WrittenFrom(ks, r, k) &&
        (LabelTest(r.labels, name) <==> IsRun(Pieces(Lower(name)), LabelPieces(ks[k].labels)))
  {
    ColumnsOK(ks);
    var r := After(ks)[i];
    assert ColumnOK(ks, r);
    hide After, Times, LabelTest, IsRun, FreshLabels, LabelPieces, SplitOn;
    var k :| WrittenFrom(ks, r, k);
    LabelTestIsRun(r.labels, name);
    FreshPieces(ks[k].labels);
  }

  /** A label that no camera saw can be found across two that one did see. */
  lemma PhraseMaySpanLabels()
    ensures LabelTest(FreshLabels(["phone", "cell"]), "cell phone")
  {
    var column := FreshLabels(["phone", "cell"]);
    LowerOf("phone", "phone");
    LowerOf("cell", "cell");
    LowerOf("cell phone", "cell phone");
    assert LowerAll(["phone", "cell"]) == ["phone", "cell"];
    TwoSorted("cell", "phone");
    assert column == "cell phone";
    WordStandsAlone("cell phone");
    LabelTestFindsWord(column, "cell phone");
  }

  lemma TwoSorted(p: string, q: string)
    requires LexLess(p, q) && !LexLess(q, p) && p != q
    ensures SortedSet([q, p]) == [p, q]
  {
    assert [q, p][1..] == [p] && [p][1..] == [];
    assert SortedSet([p]) == [p];
    assert SortedSet([q, p]) == InsertWord(q, [p]);
    assert InsertWord(q, []) == [q];
    hide LexLess;
  }

  /** Some keyframe added under the key carries the label, up to ASCII case. */
  ghost predicate Carried(ks: seq<Keyframe>, cam: string, corr: string, w: string)
  {
    exists k, j :: 0 <= k < |ks| && Keyed(ks[k], cam, corr) && 0 <= j < |ks[k].labels| && Lower(ks[k].labels[j]) == w
  }

  /** A label carried by a keyframe added under the key is found for as long as that is the only keyframe of
      the key; once there is another, if and only if its words are consecutive among the tokens added. */
  lemma CarriedLabelIsFoundIff(ks: seq<Keyframe>, i: nat, name: string)
    requires i < |After(ks)| && After(ks)[i].corr != []
    requires Carried(ks, After(ks)[i].cam, After(ks)[i].corr, Lower(name))
    ensures var r := After(ks)[i];
      var words := AddedWords(ks, r.cam, r.corr);
      && (Times(ks, r.cam, r.corr) == 1 ==> LabelTest(r.labels, name))
      && (Times(ks, r.cam, r.corr) != 1 && NoWildcards(Lower(name)) ==>
            (LabelTest(r.labels, name) <==>
               Consecutive(words, Pieces(Lower(name))) || (name == "" && words == iset{})))
  {
    ColumnsOK(ks);
    var r := After(ks)[i];
    assert ColumnOK(ks, r);
    var k, j :| 0 <= k < |ks| && Keyed(ks[k], r.cam, r.corr) && 0 <= j < |ks[k].labels| &&
      Lower(ks[k].labels[j]) == Lower(name);
    TimesIsAny(ks, r.cam, r.corr);
    assert AnyAdded(ks, r.cam, r.corr);
    hide After, Times, LabelTest, FreshLabels, Consecutive, SplitOn, AddedWords;
    if Times(ks, r.cam, r.corr) == 1 {
      var m :| WrittenFrom(ks, r, m);
      OnlyOneKeyed(ks, r.cam, r.corr, k, m);
      StoredLabelIsFound(ks[k].labels, j, name);
    } else if NoWildcards(Lower(name)) {
      MergedRowsAnswerByNeighbours(ks, i, name);
    }
  }

  /** An input that is lost: a detector's "cell phone" beside "person", once another adapter's keyframe of the
      same frame is merged in, because "person" sorts between its two words. */
  lemma MergeLosesCellPhone(kf: Keyframe, more: Keyframe)
    requires kf.corr != [] && more.cam == kf.cam && more.corr == kf.corr
    requires kf.labels == ["cell phone", "person"]
    ensures |After([kf])| == 1 && LabelTest(After([kf])[0].labels, "cell phone")
    ensures |After([kf, more])| == 1 && !LabelTest(After([kf, more])[0].labels, "cell phone")
  {
    TwoOfOneKey(kf, more);
    PhoneIsPlain();
    PhonePieces();
    PersonAdded(kf, more);
    PersonSeparates(AddedWords([kf, more], kf.cam, kf.corr));
    hide *;
    assert kf.labels[0] == "cell phone";
    StoredLabelIsFound(kf.labels, 0, "cell phone");
    FreshRow(kf);
    MergedRowsAnswerByNeighbours([kf, more], 0, "cell phone");
  }

  lemma FreshRow(kf: Keyframe)
    ensures NewRow(kf).labels == FreshLabels(kf.labels)
  {
  }

  lemma PersonSeparates(words: iset<string>)
    requires "person" in words
    ensures !Consecutive(words, ["cell", "phone"])
  {
    var ps := ["cell", "phone"];
    assert LexLess("cell", "person") && LexLess("person", "phone");
    hide LexLess;
    assert Consecutive(words, ps) ==> NextOf(words, ps[0], ps[0 + 1]);
  }

  lemma TwoOfOneKey(kf: Keyframe, more: Keyframe)
    requires kf.corr != [] && more.cam == kf.cam && more.corr == kf.corr
    ensures After([kf]) == [NewRow(kf)] && |After([kf, more])| == 1
    ensures After([kf, more])[0].cam == kf.cam && After([kf, more])[0].corr == kf.corr
    ensures Times([kf, more], kf.cam, kf.corr) == 2
  {
    var rows := [NewRow(kf)];
    assert SameKey(rows[0], kf.cam, kf.corr);
    hide Merged, NewRow;
    assert [kf, more][..1] == [kf] && [kf][..0] == [];
    assert After([]) == [] && After([kf]) == Add([], kf);
    assert After([kf, more]) == Add(rows, more);
    assert Find(rows, kf.cam, kf.corr) == 0;
    AddKeepsKeys(rows, more);
    assert Times([kf], kf.cam, kf.corr) == 1 + Times([], kf.cam, kf.corr);
  }

  lemma PhoneIsPlain()
    ensures Lower("cell phone") == "cell phone" && NoWildcards("cell phone")
  {
    LowerOf("cell phone", "cell phone");
  }

  lemma PhonePieces()
    ensures Pieces("cell phone") == ["cell", "phone"]
  {
    hide SplitOn;
    assert FirstSpace("cell phone", 4);
    PiecesStep("cell phone", 4);
    assert "cell phone"[..4] == "cell" && "cell phone"[5..] == "phone";
    PiecesOfOne("phone");
  }

  lemma PersonAdded(kf: Keyframe, more: Keyframe)
    requires kf.labels == ["cell phone", "person"]
    ensures "person" in AddedWords([kf, more], kf.cam, kf.corr)
  {
    LowerOf("person", "person");
    TokensOfWord("person");
    var ls := LowerAll(kf.labels);
    hide Lower, Tokens;
    assert ls[1] == Lower(kf.labels[1]);
    assert "person" in Tokens(ls[1]);
    assert TokenOf(ls, "person");
    assert Keyed([kf, more][0], kf.cam, kf.corr);
  }

  // ---------- Captions and keywords ----------

  lemma {:induction false} StripLeftKeepsLower(s: string)
    requires NoUpper(s)
    ensures NoUpper(StripLeft(s))
  {
    if s != [] && IsSpace(s[0]) { StripLeftKeepsLower(s[1..]); }
  }

  lemma {:induction false} StripRightKeepsLower(s: string)
    requires NoUpper(s)
    ensures NoUpper(StripRight(s))
  {
    if s != [] && IsSpace(s[|s| - 1]) { StripRightKeepsLower(s[..|s| - 1]); }
  }

  lemma MergedCaptionIsLower(have: string, more: string)
    requires NoUpper(have) && NoUpper(more)
    ensures NoUpper(MergeCaption(have, more))
  {
    var both := have + " " + more;
    StripLeftKeepsLower(both);
    StripRightKeepsLower(StripLeft(both));
  }

  lemma MergedCaptionIsTrimmed(have: string, more: string)
    requires Trimmed(have) && Trimmed(more)
    ensures Trimmed(MergeCaption(have, more))
  {
    StripTrims(have + " " + more);
  }

  predicate AllTrimmed(ks: seq<Keyframe>)
  {
    forall k :: 0 <= k < |ks| ==> Trimmed(ks[k].caption)
  }

  /** Stored captions are lower-case, and trimmed if all captions added are. */
  lemma {:induction false} StoredCaptions(ks: seq<Keyframe>)
    ensures forall i :: 0 <= i < |After(ks)| ==> NoUpper(After(ks)[i].caption)
    ensures AllTrimmed(ks) ==> forall i :: 0 <= i < |After(ks)| ==> Trimmed(After(ks)[i].caption)
  {
    if ks != [] {
      var before, kf := ks[..|ks| - 1], ks[|ks| - 1];
      StoredCaptions(before);
      assert AllTrimmed(ks) ==> AllTrimmed(before) && Trimmed(kf.caption);
      CaptionStep(After(before), kf, AllTrimmed(ks));
    }
  }

  lemma CaptionStep(rows: seq<Row>, kf: Keyframe, trimmed: bool)
    requires forall i :: 0 <= i < |rows| ==> NoUpper(rows[i].caption)
    requires trimmed ==> Trimmed(kf.caption) && forall i :: 0 <= i < |rows| ==> Trimmed(rows[i].caption)
    ensures forall i :: 0 <= i < |Add(rows, kf)| ==> NoUpper(Add(rows, kf)[i].caption)
    ensures trimmed ==> forall i :: 0 <= i < |Add(rows, kf)| ==> Trimmed(Add(rows, kf)[i].caption)
  {
    LowerIsLower(kf.caption);
    var at := if kf.corr == [] then |rows| else Find(rows, kf.cam, kf.corr);
    if at < |rows| {
      MergedCaptionIsLower(rows[at].caption, Lower(kf.caption));
      if trimmed { MergedCaptionIsTrimmed(rows[at].caption, Lower(kf.caption)); }
    }
    hide NoUpper, MergeCaption, MergeLabels, FreshLabels, MergeAdapter;
  }

  /** A keyframe of a known key changes that row only, and its caption becomes: the one that is not empty, or the new
      one if it stands in the old, or else both in the order they came. */
  lemma AddingMergesCaptions(ks: seq<Keyframe>, kf: Keyframe, i: nat)
    requires kf.corr != "" && AllTrimmed(ks + [kf])
    requires i < |After(ks)| && SameKey(After(ks)[i], kf.cam, kf.corr)
    ensures var rows, rows' := After(ks), After(ks + [kf]);
      var have, more := rows[i].caption, Lower(kf.caption);
      && |rows'| == |rows| && (forall k :: 0 <= k < |rows| && k != i ==> rows'[k] == rows[k])
      && rows'[i].caption ==
           if have == "" || more == "" then have + more else if Contains(have, more) then more else have + " " + more
  {
    var all := ks + [kf];
    assert all[..|ks|] == ks && all[|ks|] == kf;
    AfterAdds(all);
    RowsReachable(ks);
    OnlyRowOfKey(ks, kf, i);
    AddMerges(After(ks), kf, i);
    TrimmedBoth(ks, kf, i);
    hide *;
    TrimmedMerge(After(ks)[i].caption, Lower(kf.caption));
  }

  lemma AddMerges(rows: seq<Row>, kf: Keyframe, i: nat)
    requires kf.corr != "" && i < |rows| && Find(rows, kf.cam, kf.corr) == i
    ensures var rows' := Add(rows, kf);
      && |rows'| == |rows| && (forall k :: 0 <= k < |rows| && k != i ==> rows'[k] == rows[k])
      && rows'[i].caption == MergeCaption(rows[i].caption, Lower(kf.caption))
  {
    hide MergeCaption, MergeLabels, MergeAdapter, FreshLabels, Lower, Find;
  }

  lemma TrimmedBoth(ks: seq<Keyframe>, kf: Keyframe, i: nat)
    requires AllTrimmed(ks + [kf]) && i < |After(ks)|
    ensures Trimmed(After(ks)[i].caption) && Trimmed(Lower(kf.caption))
  {
    var all := ks + [kf];
    assert all[|ks|] == kf && forall k :: 0 <= k < |ks| ==> ks[k] == all[k];
    StoredCaptions(ks);
    hide After;
  }

  lemma TrimmedMerge(have: string, more: string)
    requires Trimmed(have) && Trimmed(more)
    ensures MergeCaption(have, more) ==
      if have == "" || more == "" then have + more else if Contains(have, more) then more else have + " " + more
  {
    hide Contains;
    if have != "" && more != "" {
      assert Trimmed(have + " " + more);
      TrimmedStays(have + " " + more);
    } else {
      assert have + more == if have == "" then more else have;
    }
  }

  lemma OnlyRowOfKey(ks: seq<Keyframe>, kf: Keyframe, i: nat)
    requires RowsOK(ks, After(ks)) && kf.corr != ""
    requires i < |After(ks)| && SameKey(After(ks)[i], kf.cam, kf.corr)
    ensures Find(After(ks), kf.cam, kf.corr) == i
  {
    var j := Find(After(ks), kf.cam, kf.corr);
    hide After, RowOK;
  }

  /** On the rows of any history a keyword without wildcards matches exactly where its lower-cased form occurs
      in the labels or in the caption as stored. */
  lemma KeywordFindsStoredText(ks: seq<Keyframe>, i: nat, kw: string)
    requires i < |After(ks)| && NoWildcards(Lower(kw))
    ensures var r := After(ks)[i];
      KeywordTest(r, kw) <==>
        (exists m :: OccursAt(r.labels, Lower(kw), m)) || exists m :: OccursAt(r.caption, Lower(kw), m)
  {
    ColumnsOK(ks);
    StoredCaptions(ks);
    var r := After(ks)[i];
    assert ColumnOK(ks, r);
    KeywordIsSubstring(r, kw);
    LowerOfLower(r.labels);
    LowerOfLower(r.caption);
  }

  // ---------- LIKE, adapters and matching, spelled out ----------

  ghost predicate SplitsInto(s: string, p: string, q: string)
  {
    exists i :: 0 <= i <= |s| && Like(s[..i], p) && Like(s[i..], q)
  }

  lemma SplitsAny(s: string, p: string, q: string)
    requires p != [] && p[0] == '%'
    ensures SplitsInto(s, p, q) <==> SplitsInto(s, p[1..], q) || (s != [] && SplitsInto(s[1..], p, q))
  {
    if s != [] {
      forall i | 0 < i <= |s| ensures s[1..][..i - 1] == s[..i][1..] && s[1..][i - 1..] == s[i..] {
      }
      if SplitsInto(s[1..], p, q) {
        var i :| 0 <= i <= |s[1..]| && Like(s[1..][..i], p) && Like(s[1..][i..], q);
        assert s[1..][..i] == s[..i + 1][1..] && s[1..][i..] == s[i + 1..];
      }
    }
  }

  lemma SplitsChar(s: string, p: string, q: string)
    requires p != [] && p[0] != '%'
    ensures SplitsInto(s, p, q) <==>
      s != [] && (p[0] == '_' || LowerChar(s[0]) == LowerChar(p[0])) && SplitsInto(s[1..], p[1..], q)
  {
    if s != [] {
      forall i | 0 < i <= |s|
        ensures s[1..][..i - 1] == s[..i][1..] && s[1..][i - 1..] == s[i..] && s[..i][0] == s[0]
      {
      }
      if SplitsInto(s[1..], p[1..], q) {
        var i :| 0 <= i <= |s[1..]| && Like(s[1..][..i], p[1..]) && Like(s[1..][i..], q);
        assert s[1..][..i] == s[..i + 1][1..] && s[1..][i..] == s[i + 1..];
      }
    }
  }

  /** Two patterns in a row match what the one and then the other match. */
  lemma {:induction false} LikeConcat(s: string, p: string, q: string)
    ensures Like(s, p + q) <==> SplitsInto(s, p, q)
    decreases |p|, |s|
  {
    if p == [] {
      assert p + q == q && s[..0] == "" && s[0..] == s;
    } else {
      assert (p + q)[1..] == p[1..] + q;
      if s != [] { LikeConcat(s[1..], p[1..], q); }
      if p[0] == '%' {
        LikeConcat(s, p[1..], q);
        if s != [] { LikeConcat(s[1..], p, q); }
        SplitsAny(s, p, q);
      } else {
        SplitsChar(s, p, q);
      }
    }
  }

  /** By itself a percent sign matches anything, an underscore any one character, any other character itself up to
      ASCII case, and the empty pattern nothing but the empty string. */
  lemma LikeOne(s: string, c: char)
    ensures Like(s, "") <==> s == ""
    ensures Like(s, [c]) <==> c == '%' || (|s| == 1 && (c == '_' || Lower(s) == Lower([c])))
  {
    if c == '%' { LikeAnything(s); }
    assert [c][1..] == "";
    if |s| == 1 { assert s[1..] == "" && s == [s[0]] && Lower(s) == [LowerChar(s[0])]; }
  }

  /** The matching rows are the rows of the camera asked for, if any, within the times asked for, both included, of
      which every label passes and every keyword is found in labels or caption. */
  lemma {:induction false} MatchingMeans(rows: seq<Row>, q: Query, r: Row)
    ensures r in Matching(rows, q) <==>
      && r in rows && (q.cam == "" || r.cam == q.cam)
      && (q.since.Some? ==> q.since.value <= r.ts) && (q.until.Some? ==> r.ts <= q.until.value)
      && (forall i :: 0 <= i < |q.labels| ==> SomeStretch(r.labels, Lower(q.labels[i])))
      && (forall i :: 0 <= i < |q.keywords| ==>
            SomeInfix(r.labels, Lower(q.keywords[i])) || SomeInfix(r.caption, Lower(q.keywords[i])))
  {
    if rows != [] {
      var before, last := rows[..|rows| - 1], rows[|rows| - 1];
      MatchingMeans(before, q, r);
      assert rows == before + [last];
      RowMatches(last, q);
      hide Matches, SomeStretch, SomeInfix;
    }
  }

  lemma RowMatches(r: Row, q: Query)
    ensures Matches(r, q) <==>
      && (q.cam == "" || r.cam == q.cam)
      && (q.since.Some? ==> q.since.value <= r.ts) && (q.until.Some? ==> r.ts <= q.until.value)
      && (forall i :: 0 <= i < |q.labels| ==> SomeStretch(r.labels, Lower(q.labels[i])))
      && (forall i :: 0 <= i < |q.keywords| ==>
            SomeInfix(r.labels, Lower(q.keywords[i])) || SomeInfix(r.caption, Lower(q.keywords[i])))
  {
    forall i | 0 <= i < |q.labels|
      ensures LabelTest(r.labels, q.labels[i]) <==> SomeStretch(r.labels, Lower(q.labels[i]))
    {
      LabelTestIsMatch(r.labels, q.labels[i]);
    }
    forall i | 0 <= i < |q.keywords|
      ensures KeywordTest(r, q.keywords[i]) <==>
        SomeInfix(r.labels, Lower(q.keywords[i])) || SomeInfix(r.caption, Lower(q.keywords[i]))
    {
      KeywordIsInfix(r, q.keywords[i]);
    }
    hide LabelTest, KeywordTest, SomeStretch, SomeInfix;
  }

  lemma KeywordIsInfix(r: Row, kw: string)
    ensures KeywordTest(r, kw) <==> SomeInfix(r.labels, Lower(kw)) || SomeInfix(r.caption, Lower(kw))
  {
    assert "%" + Lower(kw) + "%" == "%" + (Lower(kw) + "%");
    LikeInfix(r.labels, Lower(kw));
    LikeInfix(r.caption, Lower(kw));
  }

  /** Some keyframe added under the key came from the adapter. */
  ghost predicate CameFrom(ks: seq<Keyframe>, cam: string, corr: string, adapter: string)
  {
    exists k :: 0 <= k < |ks| && Keyed(ks[k], cam, corr) && ks[k].adapter == adapter
  }

  predicate NoComma(ks: seq<Keyframe>)
  {
    forall k :: 0 <= k < |ks| ==> ',' !in ks[k].adapter
  }

  lemma MergedAdapters(have: string, more: string, x: string)
    requires ',' !in more && x != ""
    ensures have <= MergeAdapter(have, more)
    ensures x in SplitOn(MergeAdapter(have, more), ',') <==> x in SplitOn(have, ',') || x == more
  {
    if more != "" && more !in SplitOn(have, ',') {
      SplitSnoc(have, ',', more);
      assert have + "," + more == have + [','] + more;
    }
  }

  /** The adapters of a row are those of the keyframes added under its key. */
  ghost predicate AdaptersOK(ks: seq<Keyframe>, r: Row)
  {
    r.corr != "" ==>
      forall x :: x != "" ==> (x in SplitOn(r.adapter, ',') <==> CameFrom(ks, r.cam, r.corr, x))
  }

  lemma CameFromSnoc(ks: seq<Keyframe>, kf: Keyframe, cam: string, corr: string, x: string)
    ensures CameFrom(ks + [kf], cam, corr, x) <==>
      CameFrom(ks, cam, corr, x) || (Keyed(kf, cam, corr) && kf.adapter == x)
  {
    var all := ks + [kf];
    assert all[|ks|] == kf && forall k :: 0 <= k < |ks| ==> all[k] == ks[k];
  }

  lemma AddKeepsAdapters(ks: seq<Keyframe>, rows: seq<Row>, kf: Keyframe)
    requires RowsOK(ks, rows) && ',' !in kf.adapter && forall i :: 0 <= i < |rows| ==> AdaptersOK(ks, rows[i])
    ensures forall i :: 0 <= i < |Add(rows, kf)| ==> AdaptersOK(ks + [kf], Add(rows, kf)[i])
  {
    var rows' := Add(rows, kf);
    forall i | 0 <= i < |rows'| ensures AdaptersOK(ks + [kf], rows'[i]) {
      if i < |rows| { assert RowOK(ks, rows[i]) && AdaptersOK(ks, rows[i]); }
      RowAdapters(ks, rows, kf, i);
    }
  }

  lemma RowAdapters(ks: seq<Keyframe>, rows: seq<Row>, kf: Keyframe, i: nat)
    requires RowsOK(ks, rows) && ',' !in kf.adapter && i < |Add(rows, kf)|
    requires i < |rows| ==> AdaptersOK(ks, rows[i])
    ensures AdaptersOK(ks + [kf], Add(rows, kf)[i])
  {
    var r := Add(rows, kf)[i];
    forall x | r.corr != "" && x != ""
      ensures x in SplitOn(r.adapter, ',') <==> CameFrom(ks + [kf], r.cam, r.corr, x)
    {
      CameFromSnoc(ks, kf, r.cam, r.corr, x);
      if i < |rows| {
        MergedAdapters(rows[i].adapter, kf.adapter, x);
      } else {
        SplitOfOne(kf.adapter, ',');
        assert CameFrom(ks, r.cam, r.corr, x) ==> AnyAdded(ks, r.cam, r.corr);
      }
    }
  }

  /** After any adds the adapters listed on a row of a key are exactly those its keyframes came from, unless an
      adapter's name has a comma in it. */
  lemma {:induction false} AdaptersAreListed(ks: seq<Keyframe>)
    requires NoComma(ks)
    ensures forall i :: 0 <= i < |After(ks)| ==> AdaptersOK(ks, After(ks)[i])
  {
    if ks != [] {
      var before, kf := ks[..|ks| - 1], ks[|ks| - 1];
      assert before + [kf] == ks;
      AdaptersAreListed(before);
      RowsReachable(before);
      AddKeepsAdapters(before, After(before), kf);
    }
  }

  /** The row is the keyframe as it was added. */
  predicate RowOf(r: Row, kf: Keyframe)
  {
    r == Row(kf.cam, kf.ts, kf.corr, kf.adapter, FreshLabels(kf.labels), Lower(kf.caption))
  }

  /** A keyframe without a correlation id keeps a row of its own, as it was added, whatever is added later. */
  lemma {:induction false} AnonymousRowsStand(ks: seq<Keyframe>, k: nat)
    requires k < |ks| && ks[k].corr == ""
    ensures exists i :: 0 <= i < |After(ks)| && RowOf(After(ks)[i], ks[k])
  {
    var before, kf := ks[..|ks| - 1], ks[|ks| - 1];
    if k < |before| {
      AnonymousRowsStand(before, k);
      AfterAdds(ks);
      hide After, FreshLabels, Merged;
      var i :| 0 <= i < |After(before)| && RowOf(After(before)[i], ks[k]);
      AnonymousStays(After(before), kf, i);
    } else {
      hide FreshLabels;
      assert RowOf(After(ks)[|After(before)|], kf);
    }
  }

  lemma AfterAdds(ks: seq<Keyframe>)
    requires ks != []
    ensures After(ks) == Add(After(ks[..|ks| - 1]), ks[|ks| - 1])
  {
  }

  lemma AnonymousStays(rows: seq<Row>, kf: Keyframe, i: nat)
    requires i < |rows| && rows[i].corr == ""
    ensures i < |Add(rows, kf)| && Add(rows, kf)[i] == rows[i]
  {
  }
}
