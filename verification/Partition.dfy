/**
 Splitting special tokens out of a text (`partition` in `gemma4_bpe.rs`), and the guard
 (`order_matters`) that refuses vocabularies for which an unstable sort would decide the result.
 */
module Partition {
  import opened Text

  datatype Special = Special(text: string, id: nat)

  datatype Fragment = Raw(text: string) | Known(id: nat)

  predicate Prefix(p: string, s: string) {
    |p| <= |s| && s[..|p|] == p
  }

  // -- Splitting one fragment by one special -----------------------------------

  /** `str::split` by a non-empty pattern: leftmost matches, none overlapping. `acc` is the piece so far. */
  function Pieces(pattern: string, acc: string, s: string): (r: seq<string>)
    requires pattern != ""
    ensures r != []
    decreases |s|
  {
    if s == "" then [acc]
    else if Prefix(pattern, s) then [acc] + Pieces(pattern, "", s[|pattern|..])
    else Pieces(pattern, acc + [s[0]], s[1..])
  }

  /** `str::split` by the empty pattern: a match before, between and after the characters. */
  function Letters(s: string): seq<string> {
    if s == "" then [""] else [[s[0]]] + Letters(s[1..])
  }

  function SplitStr(pattern: string, s: string): seq<string> {
    if pattern == "" then [""] + Letters(s) else Pieces(pattern, "", s)
  }

  function RawOf(s: string): seq<Fragment> {
    if s == "" then [] else [Raw(s)]
  }

  /** The pieces with the special between them, empty pieces left out. */
  function Interleave(pieces: seq<string>, id: nat): seq<Fragment> {
    if pieces == [] then []
    else if |pieces| == 1 then RawOf(pieces[0])
    else RawOf(pieces[0]) + [Known(id)] + Interleave(pieces[1..], id)
  }

  function Contains(s: string, pattern: string): bool {
    Prefix(pattern, s) || (s != "" && Contains(s[1..], pattern))
  }

  function SplitOne(f: Fragment, sp: Special): seq<Fragment> {
    if f.Known? || !Contains(f.text, sp.text) then [f]
    else Interleave(SplitStr(sp.text, f.text), sp.id)
  }

  function SplitBy(fs: seq<Fragment>, sp: Special): seq<Fragment> {
    if fs == [] then [] else SplitOne(fs[0], sp) + SplitBy(fs[1..], sp)
  }

  function SplitAll(fs: seq<Fragment>, specials: seq<Special>): seq<Fragment>
    decreases |specials|
  {
    if specials == [] then fs else SplitAll(SplitBy(fs, specials[0]), specials[1..])
  }

  function Partitioned(text: string, specials: seq<Special>): seq<Fragment> {
    SplitAll(RawOf(text), specials)
  }

  lemma {:induction false} SplitByConcat(a: seq<Fragment>, b: seq<Fragment>, sp: Special)
    ensures SplitBy(a + b, sp) == SplitBy(a, sp) + SplitBy(b, sp)
  {
    if a == [] {
      assert a + b == b;
    } else {
      assert (a + b)[0] == a[0] && (a + b)[1..] == a[1..] + b;
      SplitByConcat(a[1..], b, sp);
    }
  }

  lemma {:induction false} InterleaveSnoc(pieces: seq<string>, piece: string, id: nat)
    requires pieces != []
    ensures Interleave(pieces + [piece], id) == Interleave(pieces, id) + ([Known(id)] + RawOf(piece))
  {
    var more := pieces + [piece];
    assert more[0] == pieces[0] && more[1..] == pieces[1..] + [piece];
    if |pieces| == 1 {
      assert more[1..] == [piece];
      assert RawOf(pieces[0]) + [Known(id)] + RawOf(piece) == RawOf(pieces[0]) + ([Known(id)] + RawOf(piece));
    } else {
      InterleaveSnoc(pieces[1..], piece, id);
      var head, tail := RawOf(pieces[0]) + [Known(id)], Interleave(pieces[1..], id);
      assert head + (tail + ([Known(id)] + RawOf(piece))) == (head + tail) + ([Known(id)] + RawOf(piece));
    }
  }

  method EmitPieces(pieces: seq<string>, id: nat) returns (out: seq<Fragment>)
    requires pieces != []
    ensures out == Interleave(pieces, id)
  {
    out := RawOf(pieces[0]);
    for i := 1 to |pieces|
      invariant out == Interleave(pieces[..i], id)
    {
      InterleaveSnoc(pieces[..i], pieces[i], id);
      assert pieces[..i + 1] == pieces[..i] + [pieces[i]];
      ghost var before := out;
      out := out + [Known(id)];
      if pieces[i] != "" {
        out := out + [Raw(pieces[i])];
      }
      assert out == before + ([Known(id)] + RawOf(pieces[i]));
    }
    assert pieces[..|pieces|] == pieces;
  }

  method SplitFragments(fragments: seq<Fragment>, sp: Special) returns (split: seq<Fragment>)
    ensures split == SplitBy(fragments, sp)
  {
    split := [];
    for k := 0 to |fragments|
      invariant split == SplitBy(fragments[..k], sp)
    {
      var f := fragments[k];
      SplitByConcat(fragments[..k], [f], sp);
      assert fragments[..k + 1] == fragments[..k] + [f];
      if f.Known? || !Contains(f.text, sp.text) {
        split := split + [f];
      } else {
        var emitted := EmitPieces(SplitStr(sp.text, f.text), sp.id);
        split := split + emitted;
      }
    }
    assert fragments[..|fragments|] == fragments;
  }

  method Partition(text: string, specials: seq<Special>) returns (fragments: seq<Fragment>)
    ensures fragments == Partitioned(text, specials)
  {
    fragments := if text == "" then [] else [Raw(text)];
    for i := 0 to |specials|
      invariant SplitAll(fragments, specials[i..]) == Partitioned(text, specials)
    {
      assert specials[i..][1..] == specials[i + 1..];
      fragments := SplitFragments(fragments, specials[i]);
    }
  }

  // -- One scan for a whole class ------------------------------------------------

  /** The first special of the class that starts here. */
  function Match(class_: seq<Special>, s: string): Option<Special> {
    if class_ == [] then None
    else if Prefix(class_[0].text, s) then Some(class_[0])
    else Match(class_[1..], s)
  }

  /** Scan left to right, taking whichever special of the class starts at each position. */
  function Scan(class_: seq<Special>, acc: string, s: string): seq<Fragment>
    requires forall sp | sp in class_ :: sp.text != ""
    decreases |s|
  {
    if s == "" then RawOf(acc)
    else match Match(class_, s)
      case Some(sp) =>
        MatchIsMember(class_, s);
        RawOf(acc) + [Known(sp.id)] + Scan(class_, "", s[|sp.text|..])
      case None => Scan(class_, acc + [s[0]], s[1..])
  }

  lemma MatchIsMember(class_: seq<Special>, s: string)
    ensures match Match(class_, s)
            case Some(sp) => sp in class_ && Prefix(sp.text, s)
            case None => forall sp | sp in class_ :: !Prefix(sp.text, s)
  {
  }

  /** Splitting by one special is scanning for it. */
  lemma {:induction false} SplitIsScan(sp: Special, acc: string, s: string)
    requires sp.text != ""
    ensures Interleave(Pieces(sp.text, acc, s), sp.id) == Scan([sp], acc, s)
    decreases |s|
  {
    MatchIsMember([sp], s);
    if s != "" {
      if Prefix(sp.text, s) {
        var rest := Pieces(sp.text, "", s[|sp.text|..]);
        SplitIsScan(sp, "", s[|sp.text|..]);
        assert ([acc] + rest)[1..] == rest;
      } else {
        SplitIsScan(sp, acc + [s[0]], s[1..]);
      }
    }
  }

  lemma {:induction false} NotContained(sp: Special, acc: string, s: string)
    requires sp.text != "" && !Contains(s, sp.text)
    ensures Scan([sp], acc, s) == RawOf(acc + s)
    decreases |s|
  {
    MatchIsMember([sp], s);
    if s == "" {
      assert acc + s == acc;
    } else {
      NotContained(sp, acc + [s[0]], s[1..]);
      assert acc + [s[0]] + s[1..] == acc + s;
    }
  }

  lemma SplitOneIsScan(s: string, sp: Special)
    requires s != "" && sp.text != ""
    ensures SplitOne(Raw(s), sp) == Scan([sp], "", s)
  {
    if Contains(s, sp.text) {
      SplitIsScan(sp, "", s);
    } else {
      NotContained(sp, "", s);
      assert "" + s == s;
    }
  }

  // -- Order within a class ------------------------------------------------------

  /** A proper, non-empty suffix of `a` is a proper prefix of `b`: occurrences can overlap. */
  predicate Overlaps(a: string, b: string) {
    exists k :: 0 < k < |a| && |a| - k < |b| && Prefix(a[k..], b)
  }

  /** What order independence needs: two different specials never overlap. */
  ghost predicate NoClash(class_: seq<Special>) {
    forall x, y | x in class_ && y in class_ && x.text != y.text :: !Overlaps(x.text, y.text)
  }

  /** Specials of one byte length, not empty, whose id is a function of their text. */
  ghost predicate Class(class_: seq<Special>) {
    && (forall sp | sp in class_ :: sp.text != "")
    && (forall x, y | x in class_ && y in class_ :: SameLength(x, y))
    && Functional(class_)
  }

  predicate SameLength(x: Special, y: Special) {
    Len(x.text) == Len(y.text)
  }

  ghost predicate Functional(specials: seq<Special>) {
    forall x, y | x in specials && y in specials && x.text == y.text :: x == y
  }

  lemma EqualPrefixes(a: string, b: string, s: string)
    requires Prefix(a, s) && Prefix(b, s) && Len(a) == Len(b)
    ensures a == b
  {
    var short, long := if |a| <= |b| then a else b, if |a| <= |b| then b else a;
    assert long == short + long[|short|..];
    LenConcat(short, long[|short|..]);
  }

  lemma Inside(t: string, s: string, p: nat)
    requires 0 < p && p + |s| <= |t| && t[p..p + |s|] == s
    ensures Len(s) < Len(t)
  {
    var head, tail := t[..p], t[p + |s|..];
    assert t == head + (s + tail);
    LenConcat(head, s + tail);
    LenConcat(s, tail);
    LenConcat("", head);
    assert "" + head == head;
  }

  /** `t` here and `s` further on, but before `t` ends, overlap. */
  lemma Crossing(t: string, s: string, v: string, p: nat)
    requires Len(t) == Len(s)
    requires 0 < p < |t| && p <= |v| && Prefix(t, v) && Prefix(s, v[p..])
    ensures Overlaps(t, s)
  {
    if |t| - p >= |s| {
      assert t[p..p + |s|] == v[p..][..|s|];
      Inside(t, s, p);
    } else {
      assert t[p..] == v[p..][..|t| - p] == s[..|t| - p];
      assert Prefix(t[p..], s);
    }
  }

  /** Where the first special of the class occurs, or the end. */
  function FirstAt(class_: seq<Special>, s: string): (p: nat)
    ensures p <= |s|
  {
    if s == "" || Match(class_, s).Some? then 0 else 1 + FirstAt(class_, s[1..])
  }

  lemma {:induction false} FirstAtDrop(class_: seq<Special>, s: string, d: nat)
    requires d <= FirstAt(class_, s)
    ensures FirstAt(class_, s[d..]) == FirstAt(class_, s) - d
    decreases d
  {
    if d == 0 {
      assert s[0..] == s;
    } else {
      FirstAtDrop(class_, s[1..], d - 1);
      assert s[1..][d - 1..] == s[d..];
    }
  }

  /** A scan up to its first match, and from there on. */
  ghost predicate ScannedTo(class_: seq<Special>, acc: string, s: string, p: nat, sp: Special)
    requires forall x | x in class_ :: x.text != ""
  {
    && p + |sp.text| <= |s|
    && Scan(class_, acc, s) == RawOf(acc + s[..p]) + [Known(sp.id)] + Scan(class_, "", s[p + |sp.text|..])
  }

  lemma {:induction false} ScanToFirst(class_: seq<Special>, acc: string, s: string)
    requires forall sp | sp in class_ :: sp.text != ""
    requires FirstAt(class_, s) < |s|
    ensures Match(class_, s[FirstAt(class_, s)..]).Some?
    ensures ScannedTo(class_, acc, s, FirstAt(class_, s), Match(class_, s[FirstAt(class_, s)..]).value)
    decreases |s|
  {
    var p := FirstAt(class_, s);
    MatchIsMember(class_, s[p..]);
    if p == 0 {
      assert s[0..] == s && acc + s[..0] == acc;
    } else {
      ScanToFirst(class_, acc + [s[0]], s[1..]);
      assert s[1..][p - 1..] == s[p..];
      var sp := Match(class_, s[p..]).value;
      assert acc + [s[0]] + s[1..][..p - 1] == acc + s[..p];
      assert s[1..][p - 1 + |sp.text|..] == s[p + |sp.text|..];
    }
  }

  lemma {:induction false} ScanNone(class_: seq<Special>, acc: string, s: string)
    requires forall sp | sp in class_ :: sp.text != ""
    requires FirstAt(class_, s) == |s|
    ensures Scan(class_, acc, s) == RawOf(acc + s)
    decreases |s|
  {
    if s == "" {
      assert acc + s == acc;
    } else {
      ScanNone(class_, acc + [s[0]], s[1..]);
      assert acc + [s[0]] + s[1..] == acc + s;
    }
  }

  lemma MatchMore(class_: seq<Special>, t: Special, s: string)
    ensures Match(class_ + [t], s) == if Match(class_, s).Some? then Match(class_, s) else Match([t], s)
  {
    if class_ != [] {
      assert (class_ + [t])[0] == class_[0] && (class_ + [t])[1..] == class_[1..] + [t];
    } else {
      assert class_ + [t] == [t];
    }
  }

  lemma {:induction false} ScanMoreNone(class_: seq<Special>, t: Special, acc: string, s: string)
    requires Class(class_ + [t]) && FirstAt(class_, s) == |s|
    ensures Scan(class_ + [t], acc, s) == Scan([t], acc, s)
    decreases |s|
  {
    MatchMore(class_, t, s);
    assert t in class_ + [t];
    if s != "" {
      MatchIsMember([t], s);
      if Prefix(t.text, s) {
        FirstAtDrop(class_, s, |t.text|);
        ScanMoreNone(class_, t, "", s[|t.text|..]);
      } else {
        ScanMoreNone(class_, t, acc + [s[0]], s[1..]);
      }
    }
  }

  /** Adding `t` to the class cuts the text before the first old match, and nothing across it. */
  ghost predicate CutBefore(class_: seq<Special>, t: Special, acc: string, s: string, sp: Special)
    requires Class(class_ + [t])
  {
    assert t in class_ + [t];
    var p := FirstAt(class_, s);
    && p + |sp.text| <= |s|
    && Scan(class_ + [t], acc, s)
       == Scan([t], acc, s[..p]) + [Known(sp.id)] + Scan(class_ + [t], "", s[p + |sp.text|..])
  }

  lemma {:induction false} CutBeforeAfterMatch(class_: seq<Special>, t: Special, acc: string, s: string, sp: Special)
    requires Class(class_ + [t])
    requires Prefix(t.text, s) && Match(class_, s).None? && |t.text| <= FirstAt(class_, s)
    requires CutBefore(class_, t, "", s[|t.text|..], sp)
    ensures CutBefore(class_, t, acc, s, sp)
  {
    assert t in class_ + [t];
    var p, n := FirstAt(class_, s), |t.text|;
    var rest := s[n..];
    FirstAtDrop(class_, s, n);
    assert Scan(class_ + [t], acc, s) == RawOf(acc) + [Known(t.id)] + Scan(class_ + [t], "", rest) by {
      MatchMore(class_, t, s);
      MatchIsMember([t], s);
    }
    assert Scan([t], acc, s[..p]) == RawOf(acc) + [Known(t.id)] + Scan([t], "", rest[..p - n]) by {
      MatchIsMember([t], s[..p]);
      assert s[..p][n..] == rest[..p - n];
    }
    assert rest[p - n + |sp.text|..] == s[p + |sp.text|..];
    Regroup(RawOf(acc) + [Known(t.id)], Scan([t], "", rest[..p - n]), [Known(sp.id)],
            Scan(class_ + [t], "", s[p + |sp.text|..]));
  }

  lemma Regroup<T>(a: seq<T>, b: seq<T>, c: seq<T>, d: seq<T>)
    ensures a + (b + c + d) == (a + b) + c + d
  {
  }

  lemma CutBeforeAfterChar(class_: seq<Special>, t: Special, acc: string, s: string, sp: Special)
    requires Class(class_ + [t])
    requires s != "" && !Prefix(t.text, s) && FirstAt(class_, s) > 0
    requires CutBefore(class_, t, acc + [s[0]], s[1..], sp)
    ensures CutBefore(class_, t, acc, s, sp)
  {
    assert t in class_ + [t];
    var p := FirstAt(class_, s);
    MatchMore(class_, t, s);
    MatchIsMember([t], s);
    MatchIsMember([t], s[..p]);
    assert s[1..][..p - 1] == s[..p][1..];
    assert s[1..][p - 1 + |sp.text|..] == s[p + |sp.text|..];
  }

  lemma CutBeforeHere(class_: seq<Special>, t: Special, acc: string, s: string, sp: Special)
    requires Class(class_ + [t]) && s != "" && Match(class_, s) == Some(sp)
    ensures CutBefore(class_, t, acc, s, sp)
  {
    assert t in class_ + [t];
    MatchIsMember(class_, s);
    MatchMore(class_, t, s);
    assert s[..0] == "";
  }

  lemma {:induction false} ScanMore(class_: seq<Special>, t: Special, acc: string, s: string, sp: Special)
    requires Class(class_ + [t]) && NoClash(class_ + [t])
    requires FirstAt(class_, s) < |s| && Match(class_, s[FirstAt(class_, s)..]) == Some(sp)
    ensures CutBefore(class_, t, acc, s, sp)
    decreases |s|
  {
    var p := FirstAt(class_, s);
    if p == 0 {
      assert s[0..] == s;
      CutBeforeHere(class_, t, acc, s, sp);
    } else if Prefix(t.text, s) {
      EndsBeforeMatch(class_, t, s, sp);
      FirstAtDrop(class_, s, |t.text|);
      assert s[|t.text|..][p - |t.text|..] == s[p..];
      ScanMore(class_, t, "", s[|t.text|..], sp);
      CutBeforeAfterMatch(class_, t, acc, s, sp);
    } else {
      assert s[1..][p - 1..] == s[p..];
      ScanMore(class_, t, acc + [s[0]], s[1..], sp);
      CutBeforeAfterChar(class_, t, acc, s, sp);
    }
  }

  lemma EndsBeforeMatch(class_: seq<Special>, t: Special, s: string, sp: Special)
    requires Class(class_ + [t]) && NoClash(class_ + [t]) && Prefix(t.text, s)
    requires 0 < FirstAt(class_, s) < |s| && Match(class_, s[FirstAt(class_, s)..]) == Some(sp)
    ensures |t.text| <= FirstAt(class_, s) && t.text != ""
  {
    var p := FirstAt(class_, s);
    MatchIsMember(class_, s[p..]);
    MatchIsMember(class_, s);
    assert t in class_ + [t] && sp in class_ + [t] && sp in class_;
    assert SameLength(t, sp);
    if |t.text| > p {
      Crossing(t.text, sp.text, s, p);
    }
  }

  // -- A class splits as one scan, so its order does not matter -------------------

  lemma {:induction false} SplitRawIsScan(s: string, t: Special)
    requires t.text != ""
    ensures SplitBy(RawOf(s), t) == Scan([t], "", s)
  {
    if s != "" {
      SplitOneIsScan(s, t);
    }
  }

  lemma {:induction false} SplitAtKnown(fs: seq<Fragment>, id: nat, rest: seq<Fragment>, t: Special)
    ensures SplitBy(fs + [Known(id)] + rest, t) == SplitBy(fs, t) + [Known(id)] + SplitBy(rest, t)
  {
    SplitByConcat(fs + [Known(id)], rest, t);
    SplitByConcat(fs, [Known(id)], t);
  }

  /** Splitting what a scan left by one more special is scanning for both. */
  ghost predicate SplitsAsScan(class_: seq<Special>, t: Special, s: string)
    requires Class(class_ + [t])
  {
    Members(class_, t);
    SplitBy(Scan(class_, "", s), t) == Scan(class_ + [t], "", s)
  }

  lemma Members(class_: seq<Special>, t: Special)
    requires Class(class_ + [t])
    ensures t.text != "" && forall sp | sp in class_ :: sp in class_ + [t] && sp.text != ""
  {
    assert t in class_ + [t];
    assert forall sp | sp in class_ :: sp in class_ + [t];
  }

  /** Splitting by `t` what the scan left before, at and after its first match. */
  lemma {:induction false} SplitAfterFirst(class_: seq<Special>, t: Special, s: string, sp: Special)
    requires t.text != "" && forall x | x in class_ :: x.text != ""
    requires FirstAt(class_, s) < |s| && Match(class_, s[FirstAt(class_, s)..]) == Some(sp)
    ensures FirstAt(class_, s) + |sp.text| <= |s|
    ensures var p := FirstAt(class_, s);
      SplitBy(Scan(class_, "", s), t)
        == Scan([t], "", s[..p]) + [Known(sp.id)] + SplitBy(Scan(class_, "", s[p + |sp.text|..]), t)
  {
    var p := FirstAt(class_, s);
    ScanToFirst(class_, "", s);
    assert "" + s[..p] == s[..p];
    SplitAtKnown(RawOf(s[..p]), sp.id, Scan(class_, "", s[p + |sp.text|..]), t);
    SplitRawIsScan(s[..p], t);
  }

  lemma {:induction false} SplitScanUpTo(class_: seq<Special>, t: Special, s: string, sp: Special)
    requires Class(class_ + [t]) && NoClash(class_ + [t])
    requires FirstAt(class_, s) < |s| && Match(class_, s[FirstAt(class_, s)..]) == Some(sp)
    requires FirstAt(class_, s) + |sp.text| <= |s| && SplitsAsScan(class_, t, s[FirstAt(class_, s) + |sp.text|..])
    ensures SplitsAsScan(class_, t, s)
  {
    Members(class_, t);
    SplitAfterFirst(class_, t, s, sp);
    ScanMore(class_, t, "", s, sp);
  }

  lemma {:induction false} SplitScan(class_: seq<Special>, t: Special, s: string)
    requires Class(class_ + [t]) && NoClash(class_ + [t])
    ensures SplitsAsScan(class_, t, s)
    decreases |s|
  {
    Members(class_, t);
    var p := FirstAt(class_, s);
    if p == |s| {
      ScanNone(class_, "", s);
      assert "" + s == s;
      SplitRawIsScan(s, t);
      ScanMoreNone(class_, t, "", s);
    } else {
      ScanToFirst(class_, "", s);
      var sp := Match(class_, s[p..]).value;
      MatchIsMember(class_, s[p..]);
      SplitScan(class_, t, s[p + |sp.text|..]);
      SplitScanUpTo(class_, t, s, sp);
    }
  }

  lemma {:induction false} SplitAllConcat(fs: seq<Fragment>, a: seq<Special>, b: seq<Special>)
    ensures SplitAll(fs, a + b) == SplitAll(SplitAll(fs, a), b)
    decreases |a|
  {
    if a == [] {
      assert a + b == b;
    } else {
      assert (a + b)[0] == a[0] && (a + b)[1..] == a[1..] + b;
      SplitAllConcat(SplitBy(fs, a[0]), a[1..], b);
    }
  }

  lemma Subclass(class_: seq<Special>, t: Special)
    requires Class(class_ + [t]) && NoClash(class_ + [t])
    ensures Class(class_) && NoClash(class_)
  {
    assert forall sp | sp in class_ :: sp in class_ + [t];
  }

  /** A whole class splits a text as one scan for all its members. */
  lemma {:induction false} ClassIsScan(class_: seq<Special>, s: string)
    requires Class(class_) && NoClash(class_)
    ensures SplitAll(RawOf(s), class_) == Scan(class_, "", s)
    decreases |class_|
  {
    if class_ == [] {
      NoneAnywhere(s);
      ScanNone([], "", s);
      assert "" + s == s;
    } else {
      var init, t := class_[..|class_| - 1], class_[|class_| - 1];
      assert class_ == init + [t];
      Subclass(init, t);
      ClassIsScan(init, s);
      SplitAllConcat(RawOf(s), init, [t]);
      SplitScan(init, t, s);
      assert SplitAll(Scan(init, "", s), [t]) == SplitBy(Scan(init, "", s), t);
    }
  }

  lemma {:induction false} NoneAnywhere(s: string)
    ensures FirstAt([], s) == |s|
  {
    if s != "" {
      NoneAnywhere(s[1..]);
    }
  }

  ghost predicate SameMembers(a: seq<Special>, b: seq<Special>) {
    forall sp :: sp in a <==> sp in b
  }

  lemma {:induction false} ScanIgnoresOrder(a: seq<Special>, b: seq<Special>, acc: string, s: string)
    requires Class(a) && Class(b) && SameMembers(a, b)
    ensures Scan(a, acc, s) == Scan(b, acc, s)
    decreases |s|
  {
    MatchIsMember(a, s);
    MatchIsMember(b, s);
    if s != "" {
      match (Match(a, s), Match(b, s))
      case (Some(x), Some(y)) =>
        assert x in a && y in a && SameLength(x, y);
        EqualPrefixes(x.text, y.text, s);
        ScanIgnoresOrder(a, b, "", s[|x.text|..]);
      case (None, None) =>
        ScanIgnoresOrder(a, b, acc + [s[0]], s[1..]);
      case _ =>
    }
  }

  /** The order of a class whose members cannot overlap never shows in any text. */
  lemma {:induction false} ClassOrderIsImmaterial(a: seq<Special>, b: seq<Special>, s: string)
    requires Class(a) && NoClash(a) && SameMembers(a, b)
    ensures SplitAll(RawOf(s), a) == SplitAll(RawOf(s), b)
  {
    ClassIsScan(a, s);
    ClassIsScan(b, s);
    ScanIgnoresOrder(a, b, "", s);
  }
}
