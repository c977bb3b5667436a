/**
 The footage index: keyframes merged per (camera, correlation id), and a search whose label test is a
 padded substring match. The reference for both is the sequence of keyframes added.
 */
module FootageStore {
  import opened Common
  import opened Text

  datatype Keyframe = Keyframe(cam: string, ts: real, corr: string, adapter: string,
                               labels: seq<string>, caption: string)

  /** One table row; `labels` is a space-separated column, `adapter` a comma-separated one. */
  datatype Row = Row(cam: string, ts: real, corr: string, adapter: string, labels: string, caption: string)

  // ---------- Columns ----------

  /** The order of `sorted` on strings. */
  predicate LexLess(a: string, b: string)
  {
    b != [] && (a == [] || a[0] < b[0] || (a[0] == b[0] && LexLess(a[1..], b[1..])))
  }

  function InsertWord(w: string, ws: seq<string>): seq<string>
  {
    if ws == [] || LexLess(w, ws[0]) then [w] + ws
    else if w == ws[0] then ws
    else [ws[0]] + InsertWord(w, ws[1..])
  }

  /** `sorted(set(ws))` */
  function SortedSet(ws: seq<string>): seq<string>
  {
    if ws == [] then [] else InsertWord(ws[0], SortedSet(ws[1..]))
  }

  /** Each word strictly before the next. */
  predicate Ascending(ws: seq<string>)
  {
    forall i :: 0 <= i < |ws| - 1 ==> LexLess(ws[i], ws[i + 1])
  }

  lemma {:induction false} LexTotal(a: string, b: string)
    ensures a == b || LexLess(a, b) || LexLess(b, a)
  {
    if a != [] && b != [] && a[0] == b[0] {
      LexTotal(a[1..], b[1..]);
      assert a == [a[0]] + a[1..] && b == [b[0]] + b[1..];
    }
  }

  function LowerAll(ws: seq<string>): (r: seq<string>)
    ensures |r| == |ws| && forall i :: 0 <= i < |ws| ==> r[i] == Lower(ws[i])
  {
    seq(|ws|, i requires 0 <= i < |ws| => Lower(ws[i]))
  }

  function FreshLabels(labels: seq<string>): string
  {
    Join(SortedSet(LowerAll(labels)))
  }

  function MergeLabels(have: string, more: string): string
  {
    Join(SortedSet(Tokens(have) + Tokens(more)))
  }

  predicate Contains(hay: string, needle: string)
  {
    exists i :: 0 <= i <= |hay| && OccursAt(hay, needle, i)
  }

  /** Both captions if distinct, one if the new one is found in the old. */
  function MergeCaption(have: string, more: string): string
  {
    if have != [] && more != [] && !Contains(have, more) then Strip(have + " " + more)
    else if more != [] then more else have
  }

  function MergeAdapter(have: string, more: string): string
  {
    if more != [] && more !in SplitOn(have, ',') then have + "," + more else have
  }

  // ---------- Adding ----------

  predicate SameKey(r: Row, cam: string, corr: string)
  {
    r.cam == cam && r.corr == corr
  }

  /** The first row of a key, or the number of rows. */
  function Find(rows: seq<Row>, cam: string, corr: string): (i: nat)
    ensures i <= |rows| && (i < |rows| ==> SameKey(rows[i], cam, corr))
    ensures forall k :: 0 <= k < i ==> !SameKey(rows[k], cam, corr)
  {
    if rows == [] || SameKey(rows[0], cam, corr) then 0 else 1 + Find(rows[1..], cam, corr)
  }

  function NewRow(kf: Keyframe): Row
  {
    Row(kf.cam, kf.ts, kf.corr, kf.adapter, FreshLabels(kf.labels), Lower(kf.caption))
  }

  function Merged(r: Row, kf: Keyframe): Row
  {
    r.(labels := MergeLabels(r.labels, FreshLabels(kf.labels)),
       caption := MergeCaption(r.caption, Lower(kf.caption)),
       adapter := MergeAdapter(r.adapter, kf.adapter))
  }

  function Add(rows: seq<Row>, kf: Keyframe): seq<Row>
  {
    var i := if kf.corr == [] then |rows| else Find(rows, kf.cam, kf.corr);
    if i < |rows| then rows[i := Merged(rows[i], kf)] else rows + [NewRow(kf)]
  }

  function After(ks: seq<Keyframe>): seq<Row>
  {
    if ks == [] then [] else Add(After(ks[..|ks| - 1]), ks[|ks| - 1])
  }

  // ---------- What the rows say about the keyframes added ----------

  predicate Keyed(kf: Keyframe, cam: string, corr: string)
  {
    kf.cam == cam && kf.corr == corr
  }

  /** Some keyframe added under the key carries a label with token `w`. */
  ghost predicate Added(ks: seq<Keyframe>, cam: string, corr: string, w: string)
  {
    exists k :: 0 <= k < |ks| && Keyed(ks[k], cam, corr) && TokenOf(LowerAll(ks[k].labels), w)
  }

  ghost predicate AnyAdded(ks: seq<Keyframe>, cam: string, corr: string)
  {
    exists k :: 0 <= k < |ks| && Keyed(ks[k], cam, corr)
  }

  /** The time of the first keyframe added under a key. */
  function FirstTime(ks: seq<Keyframe>, cam: string, corr: string): real
  {
    if ks == [] then 0.0 else if Keyed(ks[0], cam, corr) then ks[0].ts else FirstTime(ks[1..], cam, corr)
  }

  ghost predicate UniqueKeys(rows: seq<Row>)
  {
    forall i, j :: 0 <= i < j < |rows| && rows[i].corr != [] ==> !SameKey(rows[j], rows[i].cam, rows[i].corr)
  }

  /** Row `r` stands for all keyframes added under its key. */
  ghost predicate RowOK(ks: seq<Keyframe>, r: Row)
  {
    r.corr != [] ==>
      && AnyAdded(ks, r.cam, r.corr)
      && r.ts == FirstTime(ks, r.cam, r.corr)
      && forall w :: w in Tokens(r.labels) <==> Added(ks, r.cam, r.corr, w)
  }

  ghost predicate RowsOK(ks: seq<Keyframe>, rows: seq<Row>)
  {
    && UniqueKeys(rows)
    && (forall i :: 0 <= i < |rows| ==> RowOK(ks, rows[i]))
    && (forall cam, corr :: corr != [] && AnyAdded(ks, cam, corr) ==> Find(rows, cam, corr) < |rows|)
  }

  lemma {:induction false} InsertWordIs(w: string, ws: seq<string>)
    ensures forall x :: x in InsertWord(w, ws) <==> x == w || x in ws
  {
    hide LexLess;
    if ws != [] {
      assert ws == [ws[0]] + ws[1..];
      InsertWordIs(w, ws[1..]);
    }
  }

  lemma {:induction false} SortedSetIs(ws: seq<string>)
    ensures forall x :: x in SortedSet(ws) <==> x in ws
  {
    if ws != [] {
      assert ws == [ws[0]] + ws[1..];
      SortedSetIs(ws[1..]);
      InsertWordIs(ws[0], SortedSet(ws[1..]));
    }
  }

  lemma {:induction false} InsertAscends(w: string, ws: seq<string>)
    requires Ascending(ws)
    ensures Ascending(InsertWord(w, ws))
    ensures ws != [] && !LexLess(w, ws[0]) ==> InsertWord(w, ws)[0] == ws[0]
  {
    hide LexLess;
    if ws != [] && !LexLess(w, ws[0]) && w != ws[0] {
      LexTotal(w, ws[0]);
      TailAscends(ws);
      InsertAscends(w, ws[1..]);
    }
  }

  lemma TailAscends(ws: seq<string>)
    requires Ascending(ws) && ws != []
    ensures Ascending(ws[1..])
  {
    var rest := ws[1..];
    forall i | 0 <= i < |rest| - 1 ensures LexLess(rest[i], rest[i + 1]) {
      assert LexLess(ws[i + 1], ws[i + 2]);
    }
  }

  /** The label column is written in strictly ascending order, each token once. */
  lemma {:induction false} SortedSetAscends(ws: seq<string>)
    ensures Ascending(SortedSet(ws))
  {
    if ws != [] {
      SortedSetAscends(ws[1..]);
      InsertAscends(ws[0], SortedSet(ws[1..]));
    }
  }

  lemma FreshTokens(labels: seq<string>, w: string)
    ensures w in Tokens(FreshLabels(labels)) <==> TokenOf(LowerAll(labels), w)
  {
    var ls := LowerAll(labels);
    TokensOfJoin(SortedSet(ls), w);
    SortedSetIs(ls);
    hide SortedSet, Tokens;
    assert TokenOf(SortedSet(ls), w) <==> exists x :: x in ls && w in Tokens(x);
  }

  lemma MergedTokens(have: string, more: string, w: string)
    ensures w in Tokens(MergeLabels(have, more)) <==> w in Tokens(have) || w in Tokens(more)
  {
    var ws := Tokens(have) + Tokens(more);
    TokensOfJoin(SortedSet(ws), w);
    SortedSetIs(ws);
    TokensAreWords(have);
    TokensAreWords(more);
    hide SortedSet, Tokens;
    TokenOfWords(SortedSet(ws), w);
  }

  lemma AddedSnoc(ks: seq<Keyframe>, kf: Keyframe, cam: string, corr: string, w: string)
    ensures Added(ks + [kf], cam, corr, w) <==>
      Added(ks, cam, corr, w) || (Keyed(kf, cam, corr) && TokenOf(LowerAll(kf.labels), w))
  {
    var all := ks + [kf];
    assert all[|ks|] == kf && forall k :: 0 <= k < |ks| ==> all[k] == ks[k];
  }

  lemma AnyAddedSnoc(ks: seq<Keyframe>, kf: Keyframe, cam: string, corr: string)
    ensures AnyAdded(ks + [kf], cam, corr) <==> AnyAdded(ks, cam, corr) || Keyed(kf, cam, corr)
  {
    var all := ks + [kf];
    assert all[|ks|] == kf && forall k :: 0 <= k < |ks| ==> all[k] == ks[k];
  }

  lemma {:induction false} FirstTimeSnoc(ks: seq<Keyframe>, kf: Keyframe, cam: string, corr: string)
    ensures AnyAdded(ks, cam, corr) ==> FirstTime(ks + [kf], cam, corr) == FirstTime(ks, cam, corr)
    ensures !AnyAdded(ks, cam, corr) && Keyed(kf, cam, corr) ==> FirstTime(ks + [kf], cam, corr) == kf.ts
  {
    if ks == [] {
      assert ks + [kf] == [kf];
    } else {
      assert (ks + [kf])[1..] == ks[1..] + [kf];
      FirstTimeSnoc(ks[1..], kf, cam, corr);
      assert AnyAdded(ks, cam, corr) <==> Keyed(ks[0], cam, corr) || AnyAdded(ks[1..], cam, corr) by {
        assert forall k :: 0 < k < |ks| ==> ks[1..][k - 1] == ks[k];
      }
    }
  }

  /** A row of another key, or without one, does not notice. */
  lemma OtherRowOK(ks: seq<Keyframe>, kf: Keyframe, r: Row)
    requires RowOK(ks, r) && (r.corr != [] ==> !Keyed(kf, r.cam, r.corr))
    ensures RowOK(ks + [kf], r)
  {
    AnyAddedSnoc(ks, kf, r.cam, r.corr);
    FirstTimeSnoc(ks, kf, r.cam, r.corr);
    forall w ensures Added(ks + [kf], r.cam, r.corr, w) <==>
      Added(ks, r.cam, r.corr, w) || (Keyed(kf, r.cam, r.corr) && TokenOf(LowerAll(kf.labels), w))
    {
      AddedSnoc(ks, kf, r.cam, r.corr, w);
    }
    hide Added, Tokens, FirstTime;
  }

  lemma MergedRowOK(ks: seq<Keyframe>, kf: Keyframe, r: Row)
    requires RowOK(ks, r) && r.corr != [] && Keyed(kf, r.cam, r.corr)
    ensures RowOK(ks + [kf], Merged(r, kf))
  {
    AnyAddedSnoc(ks, kf, r.cam, r.corr);
    FirstTimeSnoc(ks, kf, r.cam, r.corr);
    forall w ensures w in Tokens(Merged(r, kf).labels) <==> Added(ks + [kf], r.cam, r.corr, w) {
      AddedSnoc(ks, kf, r.cam, r.corr, w);
      MergedTokens(r.labels, FreshLabels(kf.labels), w);
      FreshTokens(kf.labels, w);
    }
    hide Added, Tokens, FirstTime, AnyAdded, MergeLabels, MergeCaption, MergeAdapter;
  }

  lemma NewRowOK(ks: seq<Keyframe>, kf: Keyframe)
    requires kf.corr != [] ==> !AnyAdded(ks, kf.cam, kf.corr)
    ensures RowOK(ks + [kf], NewRow(kf))
  {
    if kf.corr != [] {
      AnyAddedSnoc(ks, kf, kf.cam, kf.corr);
      FirstTimeSnoc(ks, kf, kf.cam, kf.corr);
      forall w ensures w in Tokens(NewRow(kf).labels) <==> Added(ks + [kf], kf.cam, kf.corr, w) {
        AddedSnoc(ks, kf, kf.cam, kf.corr, w);
        FreshTokens(kf.labels, w);
        assert Added(ks, kf.cam, kf.corr, w) ==> AnyAdded(ks, kf.cam, kf.corr);
      }
    }
  }

  lemma {:induction false} FindGrows(rows: seq<Row>, rows': seq<Row>, cam: string, corr: string)
    requires |rows| <= |rows'|
    requires forall i :: 0 <= i < |rows| ==> rows'[i].cam == rows[i].cam && rows'[i].corr == rows[i].corr
    requires Find(rows, cam, corr) < |rows|
    ensures Find(rows', cam, corr) < |rows'|
  {
    var i := Find(rows, cam, corr);
    assert SameKey(rows'[i], cam, corr);
  }

  lemma AddKeepsRows(ks: seq<Keyframe>, rows: seq<Row>, kf: Keyframe)
    requires RowsOK(ks, rows)
    ensures RowsOK(ks + [kf], Add(rows, kf))
  {
    var rows' := Add(rows, kf);
    var at := if kf.corr == [] then |rows| else Find(rows, kf.cam, kf.corr);
    hide RowOK, Merged, FreshLabels;
    forall i | 0 <= i < |rows'| ensures RowOK(ks + [kf], rows'[i]) {
      if i < |rows| {
        assert RowOK(ks, rows[i]);
        if i == at { MergedRowOK(ks, kf, rows[i]); } else { OtherRowOK(ks, kf, rows[i]); }
      } else {
        NewRowOK(ks, kf);
      }
    }
    forall cam, corr | corr != [] && AnyAdded(ks + [kf], cam, corr) ensures Find(rows', cam, corr) < |rows'| {
      AnyAddedSnoc(ks, kf, cam, corr);
      AddKeepsKeys(rows, kf);
      if AnyAdded(ks, cam, corr) {
        FindGrows(rows, rows', cam, corr);
      } else {
        assert SameKey(rows'[at], cam, corr);
      }
    }
    AddKeepsUnique(rows, kf);
  }

  lemma AddKeepsKeys(rows: seq<Row>, kf: Keyframe)
    ensures var rows' := Add(rows, kf);
      && |rows| <= |rows'| <= |rows| + 1
      && (forall i :: 0 <= i < |rows| ==> rows'[i].cam == rows[i].cam && rows'[i].corr == rows[i].corr)
      && (|rows'| > |rows| ==> rows'[|rows|] == NewRow(kf) && (kf.corr != [] ==> Find(rows, kf.cam, kf.corr) == |rows|))
      && (|rows'| == |rows| ==> SameKey(rows'[Find(rows, kf.cam, kf.corr)], kf.cam, kf.corr))
  {
  }

  lemma AddKeepsUnique(rows: seq<Row>, kf: Keyframe)
    requires UniqueKeys(rows)
    ensures UniqueKeys(Add(rows, kf))
  {
    AddKeepsKeys(rows, kf);
  }

  lemma {:induction false} RowsReachable(ks: seq<Keyframe>)
    ensures RowsOK(ks, After(ks))
  {
    if ks != [] {
      hide RowsOK, Add;
      RowsReachable(ks[..|ks| - 1]);
      AddKeepsRows(ks[..|ks| - 1], After(ks[..|ks| - 1]), ks[|ks| - 1]);
      assert ks == ks[..|ks| - 1] + [ks[|ks| - 1]];
    } else {
      assert RowsOK([], []);
    }
  }

  // ---------- Theorems about every order of adds ----------

  predicate AtMostOne(rows: seq<Row>, cam: string, corr: string)
  {
    forall i, j :: 0 <= i < j < |rows| ==> !(SameKey(rows[i], cam, corr) && SameKey(rows[j], cam, corr))
  }

  /** After any adds there is exactly one row per camera and non-empty correlation id that was added; its
      tokens are the union of all label tokens added under the key and its time is the first one. */
  lemma OneRowPerKey(ks: seq<Keyframe>, cam: string, corr: string)
    requires corr != []
    ensures var rows := After(ks);
      && (AnyAdded(ks, cam, corr) <==> exists i :: 0 <= i < |rows| && SameKey(rows[i], cam, corr))
      && AtMostOne(rows, cam, corr)
      && (forall i :: 0 <= i < |rows| && SameKey(rows[i], cam, corr) ==>
            rows[i].ts == FirstTime(ks, cam, corr) &&
            forall w :: w in Tokens(rows[i].labels) <==> Added(ks, cam, corr, w))
  {
    RowsReachable(ks);
    KeyFacts(ks, After(ks), cam, corr);
  }

  lemma KeyFacts(ks: seq<Keyframe>, rows: seq<Row>, cam: string, corr: string)
    requires RowsOK(ks, rows) && corr != []
    ensures AnyAdded(ks, cam, corr) <==> exists i :: 0 <= i < |rows| && SameKey(rows[i], cam, corr)
    ensures AtMostOne(rows, cam, corr)
    ensures forall i :: 0 <= i < |rows| && SameKey(rows[i], cam, corr) ==>
      rows[i].ts == FirstTime(ks, cam, corr) && forall w :: w in Tokens(rows[i].labels) <==> Added(ks, cam, corr, w)
  {
    hide Tokens, Added, FirstTime, AnyAdded, Find;
    forall i | 0 <= i < |rows| && SameKey(rows[i], cam, corr)
      ensures AnyAdded(ks, cam, corr) && rows[i].ts == FirstTime(ks, cam, corr) &&
              forall w :: w in Tokens(rows[i].labels) <==> Added(ks, cam, corr, w)
    {
      assert RowOK(ks, rows[i]);
    }
  }

  function Anonymous(ks: seq<Keyframe>): nat
  {
    if ks == [] then 0 else Anonymous(ks[..|ks| - 1]) + (if ks[|ks| - 1].corr == [] then 1 else 0)
  }

  /** The non-empty keys added. */
  function Keys(ks: seq<Keyframe>): set<(string, string)>
  {
    set k | 0 <= k < |ks| && ks[k].corr != [] :: (ks[k].cam, ks[k].corr)
  }

  lemma KeyIsAdded(ks: seq<Keyframe>, cam: string, corr: string)
    requires corr != []
    ensures (cam, corr) in Keys(ks) <==> Find(After(ks), cam, corr) < |After(ks)|
  {
    OneRowPerKey(ks, cam, corr);
    hide After;
    assert AnyAdded(ks, cam, corr) <==> (cam, corr) in Keys(ks);
  }

  lemma AddSize(rows: seq<Row>, kf: Keyframe)
    ensures |Add(rows, kf)| ==
      if kf.corr != [] && Find(rows, kf.cam, kf.corr) < |rows| then |rows| else |rows| + 1
  {
  }

  /** What one more keyframe adds to the two sides of the count. */
  lemma CountStep(ks: seq<Keyframe>, kf: Keyframe)
    ensures |After(ks + [kf])| - |After(ks)| ==
      |Keys(ks + [kf])| - |Keys(ks)| + Anonymous(ks + [kf]) - Anonymous(ks)
  {
    var all := ks + [kf];
    assert all[..|ks|] == ks && all[|ks|] == kf;
    AddSize(After(ks), kf);
    KeysSnoc(ks, kf);
    if kf.corr != [] { KeyIsAdded(ks, kf.cam, kf.corr); }
    assert Anonymous(all) == Anonymous(ks) + (if kf.corr == [] then 1 else 0);
    assert After(all) == Add(After(ks), kf);
    hide After, Keys, Add, Find, Anonymous;
    var x, keys := (kf.cam, kf.corr), Keys(ks);
    if x in keys { assert keys + {x} == keys; }
  }

  /** `count`: one row per distinct key and one per keyframe without a correlation id. */
  lemma {:induction false} CountIsKeysPlusAnonymous(ks: seq<Keyframe>)
    ensures |After(ks)| == |Keys(ks)| + Anonymous(ks)
  {
    if ks != [] {
      var prefix, kf := ks[..|ks| - 1], ks[|ks| - 1];
      assert ks == prefix + [kf];
      hide After, Keys, Anonymous;
      CountIsKeysPlusAnonymous(prefix);
      CountStep(prefix, kf);
    } else {
      assert Keys(ks) == {};
    }
  }

  lemma KeysSnoc(ks: seq<Keyframe>, kf: Keyframe)
    ensures Keys(ks + [kf]) == if kf.corr == [] then Keys(ks) else Keys(ks) + {(kf.cam, kf.corr)}
  {
    var all := ks + [kf];
    assert all[|ks|] == kf && forall k :: 0 <= k < |ks| ==> all[k] == ks[k];
  }

  // ---------- Captions ----------

  lemma ContainsSelf(s: string)
    ensures Contains(s, s)
  {
    assert s[0..|s|] == s;
    assert OccursAt(s, s, 0);
  }

  /** A merged caption still contains the new one; the old one survives exactly when one of them is empty,
      they are equal, or the new one is not already found in the old. Two that differ stand in the order they came. */
  lemma CaptionSurvives(have: string, more: string)
    requires Trimmed(have) && Trimmed(more)
    ensures have != [] && more != [] && !Contains(have, more) ==>
      var both := MergeCaption(have, more);
      have <= both && |both| == |have| + 1 + |more| && both[|have|] == ' ' && both[|have| + 1..] == more
    ensures Contains(MergeCaption(have, more), more) || more == []
    ensures Contains(MergeCaption(have, more), have) <==>
      have == [] || more == [] || !Contains(have, more) || have == more
  {
    var both := have + " " + more;
    if have != [] && more != [] && !Contains(have, more) {
      TrimmedStays(both);
      assert both[0..|have|] == have && both[|have| + 1..|have| + 1 + |more|] == more;
      assert OccursAt(both, have, 0) && OccursAt(both, more, |have| + 1);
    } else if more != [] {
      ContainsSelf(more);
      if have == [] { assert more[0..0] == have && OccursAt(more, have, 0); }
      else if have != more { ShorterCannotContain(have, more); }
    } else {
      ContainsSelf(have);
    }
  }

  lemma ContainsBothWays(a: string, b: string)
    requires Contains(a, b) && Contains(b, a)
    ensures a == b
  {
    var i :| 0 <= i <= |a| && OccursAt(a, b, i);
    assert |a| == |b|;
    assert a[i..i + |b|] == a;
  }

  lemma ShorterCannotContain(have: string, more: string)
    requires Contains(have, more) && have != more
    ensures !Contains(more, have)
  {
    if Contains(more, have) { ContainsBothWays(have, more); }
  }

  // ---------- Searching ----------

  /** SQLite's LIKE: `%` any run, `_` any character, ASCII letters compared without case. */
  predicate Like(s: string, p: string)
    decreases |p|, |s|
  {
    if p == [] then s == []
    else if p[0] == '%' then Like(s, p[1..]) || (s != [] && Like(s[1..], p))
    else s != [] && (p[0] == '_' || LowerChar(s[0]) == LowerChar(p[0])) && Like(s[1..], p[1..])
  }

  predicate NoWildcards(w: string)
  {
    forall i :: 0 <= i < |w| ==> w[i] != '%' && w[i] != '_'
  }

  lemma {:induction false} LikeAnything(s: string)
    ensures Like(s, "%")
  {
    if s != [] {
      LikeAnything(s[1..]);
    }
    assert "%"[1..] == "";
  }

  lemma {:induction false} LikePrefix(s: string, w: string)
    requires NoWildcards(w)
    ensures Like(s, w + "%") <==> |w| <= |s| && Lower(s[..|w|]) == Lower(w)
  {
    var p := w + "%";
    if w == [] {
      assert p == "%";
      LikeAnything(s);
    } else {
      assert p[1..] == w[1..] + "%";
      if s != [] {
        LikePrefix(s[1..], w[1..]);
        if |w| <= |s| {
          assert s[1..][..|w| - 1] == s[..|w|][1..];
          LowerCons(s[..|w|]);
          LowerCons(w);
          ConsEqual(LowerChar(s[0]), LowerChar(w[0]), Lower(s[..|w|][1..]), Lower(w[1..]));
        }
      }
    }
  }

  lemma ConsEqual(a: char, b: char, s: string, t: string)
    ensures [a] + s == [b] + t <==> a == b && s == t
  {
    assert ([a] + s)[1..] == s && ([b] + t)[1..] == t;
    assert ([a] + s)[0] == a && ([b] + t)[0] == b;
  }

  lemma LowerCons(s: string)
    requires s != []
    ensures Lower(s) == [LowerChar(s[0])] + Lower(s[1..])
  {
  }

  /** `LIKE '%w%'` without wildcards is a substring test up to ASCII case. */
  lemma {:induction false} LikeIsContains(s: string, w: string)
    requires NoWildcards(w)
    ensures Like(s, "%" + w + "%") <==> exists i :: OccursAt(Lower(s), Lower(w), i)
    decreases |s|
  {
    var p := "%" + w + "%";
    assert p[1..] == w + "%";
    LikePrefix(s, w);
    LowerPrefix(s, w);
    if s != [] {
      LikeIsContains(s[1..], w);
      LowerCons(s);
      OccursShift(Lower(s), Lower(w));
      assert Lower(s)[1..] == Lower(s[1..]);
    } else {
      assert forall i :: OccursAt(Lower(s), Lower(w), i) ==> i == 0;
    }
  }

  lemma LowerPrefix(s: string, w: string)
    ensures OccursAt(Lower(s), Lower(w), 0) <==> |w| <= |s| && Lower(s[..|w|]) == Lower(w)
  {
    if |w| <= |s| { assert Lower(s)[0..|w|] == Lower(s[..|w|]); }
  }

  lemma OccursShift(hay: string, needle: string)
    requires hay != []
    ensures (exists i :: OccursAt(hay, needle, i)) <==>
      OccursAt(hay, needle, 0) || exists i :: OccursAt(hay[1..], needle, i)
  {
    forall i | OccursAt(hay, needle, i) ensures i == 0 || OccursAt(hay[1..], needle, i - 1) {
      if i > 0 { assert hay[1..][i - 1..i - 1 + |needle|] == hay[i..i + |needle|]; }
    }
    forall i | OccursAt(hay[1..], needle, i) ensures OccursAt(hay, needle, i + 1) {
      assert hay[1..][i..i + |needle|] == hay[i + 1..i + 1 + |needle|];
    }
  }

  /** The label clause of `search` on one row. */
  predicate LabelTest(column: string, name: string)
  {
    Like(" " + column + " ", "% " + Lower(name) + " %")
  }

  lemma {:induction false} LowerOfLower(s: string)
    requires NoUpper(s)
    ensures Lower(s) == s
  {
  }

  /** On a lower-case column the label test holds exactly when the label stands in it, delimited by spaces
      or the ends. */
  lemma LabelTestIsWord(column: string, name: string)
    requires NoUpper(column) && NoWildcards(Lower(name))
    ensures LabelTest(column, name) <==> HasWord(column, Lower(name))
  {
    var w := Lower(name);
    var hay, needle := " " + column + " ", " " + w + " ";
    LowerIsLower(name);
    LabelTestIsContains(column, name);
    LowerOfLower(hay);
    LowerOfLower(needle);
    forall i: int ensures OccursAt(hay, needle, i) <==> WordAt(column, w, i) {
      PaddedOccurs(column, w, i);
    }
  }

  /** If the column's only whitespace is the space, that means: when the label is one of its tokens. */
  lemma LabelTestIsMembership(column: string, name: string)
    requires NoUpper(column) && OnlySpaces(column)
    requires IsWord(Lower(name)) && NoWildcards(Lower(name))
    ensures LabelTest(column, name) <==> Lower(name) in Tokens(column)
  {
    LabelTestIsWord(column, name);
    TokenIffWordAt(column, Lower(name));
  }

  /** The label test is a padded substring test up to ASCII case. */
  lemma LabelTestIsContains(column: string, name: string)
    requires NoWildcards(Lower(name))
    ensures LabelTest(column, name) <==>
      exists i :: OccursAt(Lower(" " + column + " "), Lower(" " + Lower(name) + " "), i)
  {
    var hay, needle := " " + column + " ", " " + Lower(name) + " ";
    assert "% " + Lower(name) + " %" == "%" + needle + "%";
    LikeIsContains(hay, needle);
  }

  lemma LowerIsLower(s: string)
    ensures NoUpper(Lower(s))
  {
  }

  /** An input that is missed: until a merge rewrites the column, a tab hides the tokens beside it. */
  lemma TabHidesToken()
    ensures var column := FreshLabels(["a\tb"]); "a" in Tokens(column) && !LabelTest(column, "a")
  {
    var column := "a\tb";
    TabColumn();
    TokensOfTwo('\t');
    hide FreshLabels, Tokens;
    assert "a" + ['\t'] + "b" == column;
    TabFailsTest();
  }

  lemma LowerOf(s: string, t: string)
    requires |s| == |t| && forall i :: 0 <= i < |s| ==> LowerChar(s[i]) == t[i]
    ensures Lower(s) == t
  {
  }

  lemma TabFailsTest()
    ensures !LabelTest("a\tb", "a")
  {
    LowerOf("a", "a");
    LowerOf(" a ", " a ");
    LowerOf(" a\tb ", " a\tb ");
    LabelTestIsContains("a\tb", "a");
    assert " " + "a\tb" + " " == " a\tb " && " " + Lower("a") + " " == " a ";
    forall i: int ensures !OccursAt(Lower(" " + "a\tb" + " "), Lower(" " + Lower("a") + " "), i) {
      NoPaddedA(i);
    }
    assert !LabelTest("a\tb", "a");
  }

  lemma NoPaddedA(i: int)
    ensures !OccursAt(" a\tb ", " a ", i)
  {
    if i == 0 {
      assert " a\tb "[0..3][2] == '\t';
    } else if i == 1 {
      assert " a\tb "[1..4][0] == 'a';
    } else if i == 2 {
      assert " a\tb "[2..5][0] == '\t';
    }
  }

  lemma TabColumn()
    ensures FreshLabels(["a\tb"]) == "a\tb"
  {
    LowerOf("a\tb", "a\tb");
    assert LowerAll(["a\tb"]) == ["a\tb"];
    assert SortedSet(["a\tb"]) == ["a\tb"] by { assert ["a\tb"][1..] == []; }
  }

  lemma TokensOfTwo(c: char)
    requires IsSpace(c)
    ensures "a" in Tokens("a" + [c] + "b")
  {
    var s := "a" + [c] + "b";
    assert WordLen(s) == 1 by { assert s[1..][0] == c; }
    assert s[..1] == "a";
  }

  // ---------- The search ----------

  datatype Query = Query(cam: string, since: Option<real>, until: Option<real>, labels: seq<string>,
                         keywords: seq<string>, limit: int)

  predicate Matches(r: Row, q: Query)
  {
    && (q.cam != [] ==> r.cam == q.cam)
    && (q.since.Some? ==> r.ts >= q.since.value)
    && (q.until.Some? ==> r.ts <= q.until.value)
    && (forall i :: 0 <= i < |q.labels| ==> LabelTest(r.labels, q.labels[i]))
    && (forall i :: 0 <= i < |q.keywords| ==> KeywordTest(r, q.keywords[i]))
  }

  predicate KeywordTest(r: Row, kw: string)
  {
    var p := "%" + Lower(kw) + "%";
    Like(r.labels, p) || Like(r.caption, p)
  }

  /** Without wildcards a keyword matches exactly when it occurs in the labels or in the caption, up to
      ASCII case. */
  lemma KeywordIsSubstring(r: Row, kw: string)
    requires NoWildcards(Lower(kw))
    ensures KeywordTest(r, kw) <==>
      (exists i :: OccursAt(Lower(r.labels), Lower(kw), i)) || exists i :: OccursAt(Lower(r.caption), Lower(kw), i)
  {
    LowerIsLower(kw);
    LowerOfLower(Lower(kw));
    LikeIsContains(r.labels, Lower(kw));
    LikeIsContains(r.caption, Lower(kw));
  }

  function Matching(rows: seq<Row>, q: Query): seq<Row>
  {
    if rows == [] then [] else
    var before := Matching(rows[..|rows| - 1], q);
    if Matches(rows[|rows| - 1], q) then before + [rows[|rows| - 1]] else before
  }

  predicate NewestFirst(rows: seq<Row>)
  {
    forall i, j :: 0 <= i < j < |rows| ==> rows[i].ts >= rows[j].ts
  }

  function InsertByTime(r: Row, rows: seq<Row>): seq<Row>
  {
    if rows == [] || r.ts >= rows[0].ts then [r] + rows else [rows[0]] + InsertByTime(r, rows[1..])
  }

  function ByTime(rows: seq<Row>): seq<Row>
  {
    if rows == [] then [] else InsertByTime(rows[0], ByTime(rows[1..]))
  }

  lemma {:induction false} InsertByTimePermutes(r: Row, rows: seq<Row>)
    ensures multiset(InsertByTime(r, rows)) == multiset(rows) + multiset{r}
    ensures forall x :: x in InsertByTime(r, rows) ==> x == r || x in rows
  {
    if rows != [] {
      assert rows == [rows[0]] + rows[1..];
      InsertByTimePermutes(r, rows[1..]);
    }
  }

  lemma {:induction false} InsertByTimeSorts(r: Row, rows: seq<Row>)
    requires NewestFirst(rows)
    ensures NewestFirst(InsertByTime(r, rows))
  {
    if rows != [] && r.ts < rows[0].ts {
      InsertByTimeSorts(r, rows[1..]);
      InsertByTimePermutes(r, rows[1..]);
      var t := InsertByTime(r, rows[1..]);
      forall k | 0 <= k < |t| ensures rows[0].ts >= t[k].ts {
        assert t[k] in t;
      }
    }
  }

  lemma {:induction false} ByTimeSorts(rows: seq<Row>)
    ensures NewestFirst(ByTime(rows)) && multiset(ByTime(rows)) == multiset(rows)
  {
    if rows != [] {
      assert rows == [rows[0]] + rows[1..];
      ByTimeSorts(rows[1..]);
      InsertByTimeSorts(rows[0], ByTime(rows[1..]));
      InsertByTimePermutes(rows[0], ByTime(rows[1..]));
    }
  }

  /** A correct answer: matching rows only, newest first, as many as the limit allows, none older than a
      matching row left out. A negative limit is no limit. */
  ghost predicate Answers(out: seq<Row>, rows: seq<Row>, q: Query)
  {
    var all := Matching(rows, q);
    && NewestFirst(out)
    && multiset(out) <= multiset(all)
    && |out| == (if q.limit < 0 || |all| <= q.limit then |all| else q.limit)
    && forall r, x :: r in multiset(all) - multiset(out) && x in out ==> x.ts >= r.ts
  }

  lemma TakeAnswers(rows: seq<Row>, q: Query, n: nat)
    requires n == if q.limit < 0 || |Matching(rows, q)| <= q.limit then |Matching(rows, q)| else q.limit
    ensures n <= |ByTime(Matching(rows, q))| && Answers(ByTime(Matching(rows, q))[..n], rows, q)
  {
    var all := Matching(rows, q);
    ByTimeSorts(all);
    var sorted := ByTime(all);
    assert |multiset(sorted)| == |sorted| && |multiset(all)| == |all|;
    hide Matching, ByTime;
    SplitMultiset(sorted, n);
    RestIsOlder(sorted, n);
  }

  lemma SplitMultiset(s: seq<Row>, n: nat)
    requires n <= |s|
    ensures multiset(s[..n]) <= multiset(s) && multiset(s) - multiset(s[..n]) == multiset(s[n..])
  {
    assert s == s[..n] + s[n..];
  }

  lemma RestIsOlder(s: seq<Row>, n: nat)
    requires NewestFirst(s) && n <= |s|
    ensures NewestFirst(s[..n])
    ensures forall r, x :: r in multiset(s[n..]) && x in s[..n] ==> x.ts >= r.ts
  {
    forall r, x | r in multiset(s[n..]) && x in s[..n] ensures x.ts >= r.ts {
      assert r in s[n..];
    }
  }

  // ---------- The store ----------

  class Store {
    var rows: seq<Row>
    ghost var added: seq<Keyframe>

    /** The rows are what the keyframes added so far make of them. */
    ghost predicate Valid()
      reads this
    {
      rows == After(added)
    }

    constructor ()
      ensures Valid() && added == []
    {
      rows, added := [], [];
    }

    method AddKeyframe(kf: Keyframe)
      requires Valid()
      modifies this
      ensures Valid() && added == old(added) + [kf]
    {
      hide MergeLabels, MergeCaption, MergeAdapter, FreshLabels, Lower;
      added := added + [kf];
      assert added[..|added| - 1] == old(added);
      var labels := FreshLabels(kf.labels);
      var caption := Lower(kf.caption);
      if kf.corr != [] {
        var existing := 0;
        while existing < |rows| && !(rows[existing].cam == kf.cam && rows[existing].corr == kf.corr)
          invariant existing <= |rows| && rows == old(rows) && added == old(added) + [kf]
          invariant forall k :: 0 <= k < existing ==> !SameKey(rows[k], kf.cam, kf.corr)
        {
          existing := existing + 1;
        }
        FindIsFirst(rows, kf.cam, kf.corr, existing);
        if existing < |rows| {
          var r := rows[existing];
          rows := rows[existing := r.(labels := MergeLabels(r.labels, labels),
                                      caption := MergeCaption(r.caption, caption),
                                      adapter := MergeAdapter(r.adapter, kf.adapter))];
          return;
        }
      }
      rows := rows + [Row(kf.cam, kf.ts, kf.corr, kf.adapter, labels, caption)];
    }

    /** The number of rows tells how many keys, and keyframes without one, were ever added. */
    method Count() returns (n: nat)
      requires Valid()
      ensures n == |Keys(added)| + Anonymous(added)
    {
      CountIsKeysPlusAnonymous(added);
      n := |rows|;
    }

    method Search(q: Query) returns (out: seq<Row>)
      ensures Answers(out, rows, q)
    {
      out := [];
      for i := 0 to |rows|
        invariant out == Matching(rows[..i], q)
      {
        assert rows[..i + 1][..i] == rows[..i];
        if Matches(rows[i], q) { out := out + [rows[i]]; }
      }
      assert rows[..|rows|] == rows;
      var n := if q.limit < 0 || |out| <= q.limit then |out| else q.limit;
      TakeAnswers(rows, q, n);
      out := ByTime(out)[..n];
    }
  }

  lemma {:induction false} FindIsFirst(rows: seq<Row>, cam: string, corr: string, i: nat)
    requires i <= |rows| && (forall k :: 0 <= k < i ==> !SameKey(rows[k], cam, corr))
    requires i < |rows| ==> SameKey(rows[i], cam, corr)
    ensures Find(rows, cam, corr) == i
  {
  }
}
