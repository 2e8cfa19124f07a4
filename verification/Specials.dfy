/**
 Which tokens are split out, in which order (`special_texts`), and why their order within one
 byte length cannot be seen once `order_matters` has been refused.
 */
module Specials {
  import opened Text
  import opened Partition

  // -- Any order that puts longer specials first gives the same fragments ----------

  ghost predicate LongestFirst(specials: seq<Special>) {
    forall i, j | 0 <= i < j < |specials| :: Len(specials[j].text) <= Len(specials[i].text)
  }

  ghost predicate RawsNotEmpty(fs: seq<Fragment>) {
    forall f | f in fs :: f.Raw? ==> f.text != ""
  }

  lemma {:induction false} InterleaveNotEmpty(pieces: seq<string>, id: nat)
    ensures RawsNotEmpty(Interleave(pieces, id))
  {
    if |pieces| > 1 {
      InterleaveNotEmpty(pieces[1..], id);
    }
  }

  lemma {:induction false} SplitByNotEmpty(fs: seq<Fragment>, sp: Special)
    requires RawsNotEmpty(fs)
    ensures RawsNotEmpty(SplitBy(fs, sp))
  {
    if fs != [] {
      if fs[0].Raw? {
        InterleaveNotEmpty(SplitStr(sp.text, fs[0].text), sp.id);
      }
      assert fs[0] in fs && forall f | f in fs[1..] :: f in fs;
      SplitByNotEmpty(fs[1..], sp);
    }
  }

  lemma {:induction false} SplitAllParts(a: seq<Fragment>, b: seq<Fragment>, specials: seq<Special>)
    ensures SplitAll(a + b, specials) == SplitAll(a, specials) + SplitAll(b, specials)
    decreases |specials|
  {
    if specials != [] {
      SplitByConcat(a, b, specials[0]);
      SplitAllParts(SplitBy(a, specials[0]), SplitBy(b, specials[0]), specials[1..]);
    }
  }

  lemma {:induction false} KnownStays(id: nat, specials: seq<Special>)
    ensures SplitAll([Known(id)], specials) == [Known(id)]
    decreases |specials|
  {
    if specials != [] {
      assert SplitBy([Known(id)], specials[0]) == [Known(id)];
      KnownStays(id, specials[1..]);
    }
  }

  /** Two lists of specials that split every text alike split every list of fragments alike. */
  lemma {:induction false} SplitAlike(fs: seq<Fragment>, a: seq<Special>, b: seq<Special>)
    requires RawsNotEmpty(fs)
    requires forall s | s != "" :: SplitAll(RawOf(s), a) == SplitAll(RawOf(s), b)
    ensures SplitAll(fs, a) == SplitAll(fs, b)
    decreases |fs|
  {
    if fs == [] {
      Nothing(a);
      Nothing(b);
    } else {
      assert fs == [fs[0]] + fs[1..];
      assert fs[0] in fs && forall f | f in fs[1..] :: f in fs;
      SplitAllParts([fs[0]], fs[1..], a);
      SplitAllParts([fs[0]], fs[1..], b);
      SplitAlike(fs[1..], a, b);
      match fs[0]
      case Known(id) => KnownStays(id, a); KnownStays(id, b);
      case Raw(s) => assert RawOf(s) == [fs[0]];
    }
  }

  lemma {:induction false} Nothing(specials: seq<Special>)
    ensures SplitAll([], specials) == []
    decreases |specials|
  {
    if specials != [] {
      Nothing(specials[1..]);
    }
  }

  /** Two different specials of one length do not overlap. */
  ghost predicate NoEqualClash(specials: seq<Special>) {
    forall x, y | x in specials && y in specials && SameLength(x, y) && x.text != y.text ::
      !Overlaps(x.text, y.text)
  }

  /** Moving `x` to the front of the specials of its own length changes nothing. */
  lemma {:induction false} MoveToFront(fs: seq<Fragment>, before: seq<Special>, x: Special, rest: seq<Special>)
    requires RawsNotEmpty(fs)
    requires Functional(before + [x]) && NoEqualClash(before + [x])
    requires forall y | y in before :: SameLength(x, y)
    ensures SplitAll(fs, before + [x] + rest) == SplitAll(SplitBy(fs, x), before + rest)
  {
    var a, b := before + [x], [x] + before;
    assert x in a && forall y | y in before :: y in a;
    if x.text == "" {
      EmptyTexts(before, x);
      assert a == b;
    } else {
      OneLength(before, x);
      forall s | s != "" ensures SplitAll(RawOf(s), a) == SplitAll(RawOf(s), b) {
        ClassOrderIsImmaterial(a, b, s);
      }
    }
    SplitAllConcat(fs, a, rest);
    SplitAlike(fs, a, b);
    assert b[0] == x && b[1..] == before;
    SplitAllConcat(SplitBy(fs, x), before, rest);
  }

  lemma {:induction false} OneLength(before: seq<Special>, x: Special)
    requires x.text != "" && Functional(before + [x]) && NoEqualClash(before + [x])
    requires forall y | y in before :: SameLength(x, y)
    ensures Class(before + [x]) && NoClash(before + [x])
  {
    forall y | y in before + [x] ensures SameLength(x, y) && y.text != "" {
      LikeFirst(before, x, y);
    }
    AllLikeOne(before + [x], x);
  }

  lemma {:induction false} AllLikeOne(a: seq<Special>, x: Special)
    requires Functional(a) && NoEqualClash(a)
    requires forall y | y in a :: SameLength(x, y) && y.text != ""
    ensures Class(a) && NoClash(a)
  {
    forall y, z | y in a && z in a ensures SameLength(y, z) {
      assert SameLength(x, y) && SameLength(x, z);
    }
  }

  lemma {:induction false} LikeFirst(before: seq<Special>, x: Special, y: Special)
    requires x.text != "" && (forall z | z in before :: SameLength(x, z)) && y in before + [x]
    ensures SameLength(x, y) && y.text != ""
  {
    LenConcat("", x.text);
    assert "" + x.text == x.text;
  }

  lemma EmptyTexts(before: seq<Special>, x: Special)
    requires x.text == "" && Functional(before + [x])
    requires forall y | y in before :: SameLength(x, y)
    ensures before + [x] == [x] + before
  {
    var a := before + [x];
    assert x in a;
    forall i | 0 <= i < |before| ensures before[i] == x {
      var y := before[i];
      assert y in before && y in a && SameLength(x, y);
      assert y.text == "";
    }
  }

  /** The main result: every longest-first order of the same specials gives the same fragments. */
  lemma {:induction false} OrderIsImmaterial(fs: seq<Fragment>, a: seq<Special>, b: seq<Special>)
    requires LongestFirst(a) && LongestFirst(b) && multiset(a) == multiset(b)
    requires Functional(a) && NoEqualClash(a) && RawsNotEmpty(fs)
    ensures SplitAll(fs, a) == SplitAll(fs, b)
    decreases |a|
  {
    if a == [] {
      assert |multiset(b)| == |b|;
    } else {
      var x := a[0];
      var before, rest := Extract(a, b);
      Subset(a, before + [x]);
      Subset(a, a[1..]);
      MoveToFront(fs, before, x, rest);
      SplitByNotEmpty(fs, x);
      OrderIsImmaterial(SplitBy(fs, x), a[1..], before + rest);
    }
  }

  lemma {:induction false} Subset(a: seq<Special>, b: seq<Special>)
    requires Functional(a) && NoEqualClash(a) && forall y | y in b :: y in a
    ensures Functional(b) && NoEqualClash(b)
  {
  }

  lemma {:induction false} StillLongestFirst(b: seq<Special>, i: nat)
    requires i < |b| && LongestFirst(b)
    ensures LongestFirst(b[..i] + b[i + 1..])
  {
    var c := b[..i] + b[i + 1..];
    forall k, m | 0 <= k < m < |c| ensures Len(c[m].text) <= Len(c[k].text) {
      assert c[m] == b[if m < i then m else m + 1] && c[k] == b[if k < i then k else k + 1];
    }
  }

  /** Where the first special of one longest-first order stands in another: only its own length precedes it. */
  lemma {:induction false} SameLengthBefore(a: seq<Special>, b: seq<Special>, i: nat, k: nat)
    requires a != [] && LongestFirst(a) && LongestFirst(b) && multiset(a) == multiset(b)
    requires k <= i < |b| && b[i] == a[0]
    ensures SameLength(a[0], b[k])
  {
    assert b[k] in multiset(a);
    var m :| 0 <= m < |a| && a[m] == b[k];
    assert k < i ==> Len(b[i].text) <= Len(b[k].text);
    assert m > 0 ==> Len(a[m].text) <= Len(a[0].text);
  }

  lemma {:induction false} Extract(a: seq<Special>, b: seq<Special>) returns (before: seq<Special>, rest: seq<Special>)
    requires a != [] && LongestFirst(a) && LongestFirst(b) && multiset(a) == multiset(b)
    ensures b == before + [a[0]] + rest
    ensures forall y | y in before + [a[0]] :: y in a
    ensures forall y | y in before :: SameLength(a[0], y)
    ensures LongestFirst(before + rest) && multiset(a[1..]) == multiset(before + rest)
  {
    var x := a[0];
    assert x in multiset(b);
    var i :| 0 <= i < |b| && b[i] == x;
    before, rest := b[..i], b[i + 1..];
    StillLongestFirst(b, i);
    Regrouped(b, i);
    Regrouped(a, 0);
    assert a[..0] + a[1..] == a[1..];
    ExtractedBefore(a, b, i);
  }

  lemma {:induction false} ExtractedBefore(a: seq<Special>, b: seq<Special>, i: nat)
    requires a != [] && LongestFirst(a) && LongestFirst(b) && multiset(a) == multiset(b)
    requires i < |b| && b[i] == a[0]
    ensures forall y | y in b[..i] + [a[0]] :: y in a
    ensures forall y | y in b[..i] :: SameLength(a[0], y)
  {
    forall y | y in b[..i] + [a[0]] ensures y in a {
      assert y in multiset(b);
    }
    forall y | y in b[..i] ensures SameLength(a[0], y) {
      var k :| 0 <= k < i && b[k] == y;
      SameLengthBefore(a, b, i, k);
    }
  }

  lemma Regrouped(b: seq<Special>, i: nat)
    requires i < |b|
    ensures b == b[..i] + [b[i]] + b[i + 1..]
    ensures multiset(b[..i] + b[i + 1..]) == multiset(b) - multiset{b[i]}
  {
    assert b == b[..i] + [b[i]] + b[i + 1..];
  }

  // -- The condition is exact ----------------------------------------------------

  lemma {:induction false} KnownFirst(id: nat, fs: seq<Fragment>, specials: seq<Special>)
    ensures SplitAll([Known(id)] + fs, specials) == [Known(id)] + SplitAll(fs, specials)
  {
    SplitAllParts([Known(id)], fs, specials);
    KnownStays(id, specials);
  }

  lemma {:induction false} TooShort(s: string, pattern: string)
    requires Contains(s, pattern)
    ensures Len(pattern) <= Len(s)
  {
    if Prefix(pattern, s) {
      LenConcat(pattern, s[|pattern|..]);
      assert pattern + s[|pattern|..] == s;
    } else {
      TooShort(s[1..], pattern);
      LenConcat([s[0]], s[1..]);
      assert [s[0]] + s[1..] == s;
    }
  }

  lemma {:induction false} ShortRawStays(s: string, specials: seq<Special>)
    requires forall sp | sp in specials :: Len(s) < Len(sp.text)
    ensures SplitAll([Raw(s)], specials) == [Raw(s)]
    decreases |specials|
  {
    if specials != [] {
      assert specials[0] in specials && forall sp | sp in specials[1..] :: sp in specials;
      if Contains(s, specials[0].text) {
        TooShort(s, specials[0].text);
      }
      assert SplitBy([Raw(s)], specials[0]) == [Raw(s)];
      ShortRawStays(s, specials[1..]);
    }
  }

  lemma {:induction false} FirstAtIsFirst(class_: seq<Special>, s: string, k: nat)
    requires k < |s| && Match(class_, s[k..]).Some?
    ensures FirstAt(class_, s) <= k
    decreases k
  {
    if k > 0 && Match(class_, s).None? {
      assert s[1..][k - 1..] == s[k..];
      FirstAtIsFirst(class_, s[1..], k - 1);
    } else {
      assert s[0..] == s;
    }
  }

  /** The text in which `x` is followed by `y` over the part they share. */
  function Clash(x: string, y: string, k: nat): string
    requires 0 < k < |x| && |x| - k < |y|
  {
    x + y[|x| - k..]
  }

  lemma {:induction false} XFirst(x: Special, s: string, others: seq<Special>)
    requires x.text != "" && Prefix(x.text, s)
    ensures var out := SplitAll(RawOf(s), [x] + others); out != [] && out[0] == Known(x.id)
  {
    SplitRawIsScan(s, x);
    MatchIsMember([x], s);
    var rest := Scan([x], "", s[|x.text|..]);
    assert SplitBy(RawOf(s), x) == [Known(x.id)] + rest;
    assert ([x] + others)[1..] == others;
    KnownFirst(x.id, rest, others);
  }

  lemma {:induction false} WhereYStarts(x: string, y: Special, k: nat) returns (p: nat)
    requires 0 < k < |x| && |x| - k < |y.text| && Prefix(x[k..], y.text)
    requires x != y.text && Len(x) == Len(y.text)
    ensures var s := Clash(x, y.text, k);
            0 < p < |x| && p == FirstAt([y], s) && p < |s| && s[..p] == x[..p]
            && Match([y], s[p..]) == Some(y) && Len(s[..p]) < Len(x)
  {
    var s := Clash(x, y.text, k);
    assert s[k..] == y.text;
    MatchIsMember([y], s);
    MatchIsMember([y], s[k..]);
    assert Prefix(x, s);
    if Prefix(y.text, s) {
      EqualPrefixes(x, y.text, s);
    }
    FirstAtIsFirst([y], s, k);
    p := FirstAt([y], s);
    ScanToFirst([y], "", s);
    MatchIsMember([y], s[p..]);
    assert x[..p] + x[p..] == x;
    LenConcat(x[..p], x[p..]);
  }

  lemma {:induction false} RawFirst(s: string, p: nat, y: Special, others: seq<Special>)
    requires y.text != "" && 0 < p < |s| && p == FirstAt([y], s) && Match([y], s[p..]) == Some(y)
    requires forall sp | sp in others :: Len(s[..p]) < Len(sp.text)
    ensures var out := SplitAll(RawOf(s), [y] + others); out != [] && out[0] == Raw(s[..p])
  {
    ScanToFirst([y], "", s);
    SplitRawIsScan(s, y);
    assert "" + s[..p] == s[..p];
    var head, tail := [Raw(s[..p])], [Known(y.id)] + Scan([y], "", s[p + |y.text|..]);
    assert SplitBy(RawOf(s), y) == head + tail;
    assert ([y] + others)[1..] == others;
    SplitAllParts(head, tail, others);
    ShortRawStays(s[..p], others);
  }

  lemma {:induction false} YFirst(x: Special, y: Special, k: nat, others: seq<Special>)
    requires 0 < k < |x.text| && |x.text| - k < |y.text| && Prefix(x.text[k..], y.text)
    requires x.text != y.text && SameLength(x, y) && forall sp | sp in others :: SameLength(x, sp)
    ensures var out := SplitAll(RawOf(Clash(x.text, y.text, k)), [y] + others); out != [] && out[0].Raw?
  {
    var p := WhereYStarts(x.text, y, k);
    RawFirst(Clash(x.text, y.text, k), p, y, others);
  }

  function FrontOf(a: seq<Special>, i: nat): (b: seq<Special>)
    requires i < |a|
    ensures multiset(b) == multiset(a)
  {
    Regrouped(a, i);
    [a[i]] + (a[..i] + a[i + 1..])
  }

  ghost predicate OrderInvisible(a: seq<Special>) {
    forall b, s | multiset(b) == multiset(a) :: SplitAll(RawOf(s), a) == SplitAll(RawOf(s), b)
  }

  /** A class splits every text the same in every order if and only if no two of its
      members can overlap. */
  lemma {:induction false} OrderInvisibleExactly(a: seq<Special>)
    requires Class(a)
    ensures OrderInvisible(a) <==> NoClash(a)
  {
    if NoClash(a) {
      forall b, s | multiset(b) == multiset(a) ensures SplitAll(RawOf(s), a) == SplitAll(RawOf(s), b) {
        assert forall sp :: sp in a <==> sp in multiset(a);
        assert forall sp :: sp in b <==> sp in multiset(b);
        ClassOrderIsImmaterial(a, b, s);
      }
    } else {
      var x, y :| x in a && y in a && x.text != y.text && Overlaps(x.text, y.text);
      OrderShows(a, x, y);
    }
  }

  lemma {:induction false} OrderShows(a: seq<Special>, x: Special, y: Special)
    requires Class(a) && x in a && y in a && x.text != y.text && Overlaps(x.text, y.text)
    ensures !OrderInvisible(a)
  {
    var k :| 0 < k < |x.text| && |x.text| - k < |y.text| && Prefix(x.text[k..], y.text);
    var i :| 0 <= i < |a| && a[i] == x;
    var j :| 0 <= j < |a| && a[j] == y;
    var s := Clash(x.text, y.text, k);
    var b, c := FrontOf(a, i), FrontOf(a, j);
    assert SameLength(x, y);
    forall sp | sp in a[..j] + a[j + 1..] ensures SameLength(x, sp) {
      assert sp in a;
    }
    XFirst(x, s, a[..i] + a[i + 1..]);
    YFirst(x, y, k, a[..j] + a[j + 1..]);
    assert SplitAll(RawOf(s), b) != SplitAll(RawOf(s), c);
  }

  // -- The guard --------------------------------------------------------------------

  /** What `order_matters` decides: at least two tokens, and a suffix of one is a prefix of one. */
  ghost predicate MayOverlap(same: seq<string>) {
    |same| >= 2 && exists a, b | a in same && b in same :: Overlaps(a, b)
  }

  function Prefixes(token: string): (ps: set<string>)
    ensures forall p :: p in ps <==> 0 < |p| < |token| && Prefix(p, token)
  {
    assert forall p | 0 < |p| < |token| && Prefix(p, token) :: p == token[..|p|];
    set k | 0 < k < |token| :: token[..k]
  }

  ghost predicate PrefixesOf(same: seq<string>, ps: set<string>) {
    forall p :: p in ps <==> exists b | b in same :: p in Prefixes(b)
  }

  method OrderMatters(same: seq<string>) returns (matters: bool)
    ensures matters <==> MayOverlap(same)
  {
    if |same| < 2 {
      return false;
    }
    var prefixes: set<string> := {};
    for i := 0 to |same|
      invariant PrefixesOf(same[..i], prefixes)
    {
      OneMore(same[..i], same[i], prefixes);
      assert same[..i + 1] == same[..i] + [same[i]];
      prefixes := prefixes + Prefixes(same[i]);
    }
    assert same[..|same|] == same;
    matters := false;
    for i := 0 to |same|
      invariant matters <==> exists a | a in same[..i] :: HasSuffixIn(a, prefixes)
    {
      assert same[..i + 1] == same[..i] + [same[i]];
      matters := matters || HasSuffixIn(same[i], prefixes);
    }
    SuffixInPrefixes(same, prefixes);
  }

  predicate HasSuffixIn(token: string, prefixes: set<string>) {
    exists k | 0 < k < |token| :: token[k..] in prefixes
  }

  lemma OneMore(same: seq<string>, token: string, ps: set<string>)
    requires PrefixesOf(same, ps)
    ensures PrefixesOf(same + [token], ps + Prefixes(token))
  {
    forall p ensures p in ps + Prefixes(token) <==> exists b | b in same + [token] :: p in Prefixes(b) {
      if b :| b in same && p in Prefixes(b) {
        assert b in same + [token];
      }
      assert token in same + [token];
    }
  }

  lemma SuffixInPrefixes(same: seq<string>, ps: set<string>)
    requires PrefixesOf(same, ps)
    ensures (exists a | a in same :: HasSuffixIn(a, ps)) <==> exists a, b | a in same && b in same :: Overlaps(a, b)
  {
    forall a | a in same
      ensures HasSuffixIn(a, ps) <==> exists b | b in same :: Overlaps(a, b)
    {
      if HasSuffixIn(a, ps) {
        var k :| 0 < k < |a| && a[k..] in ps;
        var b :| b in same && a[k..] in Prefixes(b);
        assert Overlaps(a, b);
      }
      if b :| b in same && Overlaps(a, b) {
        var k :| 0 < k < |a| && |a| - k < |b| && Prefix(a[k..], b);
        assert a[k..] in Prefixes(b);
      }
    }
  }

  /** Refusing whatever the guard refuses is enough. */
  lemma GuardSuffices(a: seq<Special>, texts: seq<string>)
    requires |texts| == |a| && forall i | 0 <= i < |a| :: texts[i] == a[i].text
    requires !MayOverlap(texts)
    ensures NoClash(a)
  {
    forall x, y | x in a && y in a && x.text != y.text
      ensures !Overlaps(x.text, y.text)
    {
      assert x.text in texts && y.text in texts;
    }
  }

  /** It refuses more than it must: a token that only overlaps itself hides no order. */
  lemma GuardIsConservative()
    ensures MayOverlap(["aa", "bc"])
    ensures OrderInvisible([Special("aa", 0), Special("bc", 1)])
  {
    var a := [Special("aa", 0), Special("bc", 1)];
    assert Prefix("aa"[1..], "aa");
    assert "aa" in ["aa", "bc"] && Overlaps("aa", "aa");
    assert Utf8("a") == [97] && Utf8("c") == [99];
    assert Class(a) && NoClash(a) by {
      assert Len("aa") == 2 && Len("bc") == 2;
      assert !Prefix("aa"[1..], "bc") && !Prefix("bc"[1..], "aa");
    }
    OrderInvisibleExactly(a);
  }
}
