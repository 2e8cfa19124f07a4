/** Building the tokenizer's tables from a vocabulary (`Gemma4Bpe::build`, `special_texts`). */
module Vocabulary {
  import opened Text
  import opened Partition
  import opened Specials
  import opened Merge

  // -- Merge ranks under one joined key ----------------------------------------

  predicate NulFree(s: string) {
    forall i | 0 <= i < |s| :: s[i] != '\0'
  }

  /** The first space after the first character. */
  function SpaceAt(s: string, from: nat): Option<nat>
    decreases |s| - from
  {
    if from >= |s| then None else if s[from] == ' ' then Some(from) else SpaceAt(s, from + 1)
  }

  /** The pair a merge line names, if it has a space to split at. */
  function PairOf(line: string): Option<(string, string)> {
    match SpaceAt(line, 1)
    case Some(at) => SpaceInside(line, 1); Some((line[..at], line[at + 1..]))
    case None => None
  }

  lemma SpaceInside(s: string, from: nat)
    ensures SpaceAt(s, from).Some? ==> from <= SpaceAt(s, from).value < |s|
    decreases |s| - from
  {
  }

  /** A line without a pair is filed under the bare separator. */
  function KeyOf(line: string): string {
    match PairOf(line)
    case Some((left, right)) => left + "\0" + right
    case None => "\0"
  }

  /** The rank of a pair: the first line that names it. */
  ghost predicate IsPairRank(merges: seq<string>, left: string, right: string, rank: Option<nat>) {
    match rank
    case Some(i) => && i < |merges| && PairOf(merges[i]) == Some((left, right))
                    && forall j | 0 <= j < i :: PairOf(merges[j]) != Some((left, right))
    case None => forall j | 0 <= j < |merges| :: PairOf(merges[j]) != Some((left, right))
  }

  /** Only one NUL on one side: the key tells where both sides split. */
  lemma KeyIsUnambiguous(l1: string, r1: string, l2: string, r2: string)
    requires NulFree(l1) && NulFree(r1)
    ensures l1 + "\0" + r1 == l2 + "\0" + r2 <==> l1 == l2 && r1 == r2
  {
    var a, b := l1 + "\0" + r1, l2 + "\0" + r2;
    if a == b {
      assert b[|l2|] == '\0';
      assert forall i | 0 <= i < |a| && i != |l1| :: a[i] == if i < |l1| then l1[i] else r1[i - |l1| - 1];
      assert |l1| == |l2|;
      assert l1 == a[..|l1|] && l2 == b[..|l2|];
      assert r1 == a[|l1| + 1..] && r2 == b[|l2| + 1..];
    }
  }

  /** A line's key is the key of a pair exactly when it names that pair. */
  lemma KeyNamesPair(line: string, left: string, right: string)
    requires NulFree(line) && (left != "" || right != "")
    ensures KeyOf(line) == left + "\0" + right <==> PairOf(line) == Some((left, right))
  {
    SpaceInside(line, 1);
    match PairOf(line)
    case Some((l, r)) => KeyIsUnambiguous(l, r, left, right);
    case None => assert |"\0"| == 1;
  }

  /** The table answers every lookup of a pair that is not empty as the list of merges would. */
  ghost predicate RanksOf(merges: seq<string>, ranks: RankTable) {
    forall left, right | left != "" || right != "" :: IsPairRank(merges, left, right, Rank(ranks, left, right))
  }

  /** None when a merge contains NUL, which the source refuses. */
  method BuildRanks(merges: seq<string>) returns (table: Option<RankTable>)
    ensures table.None? <==> exists m | m in merges :: !NulFree(m)
    ensures table.Some? ==> RanksOf(merges, table.value)
  {
    if exists m | m in merges :: !NulFree(m) {
      return None;
    }
    var ranks: RankTable := map[];
    for rank := 0 to |merges|
      invariant RanksOf(merges[..rank], ranks)
    {
      var key := KeyOf(merges[rank]);
      assert merges[rank] in merges;
      AddRank(merges[..rank], merges[rank], ranks);
      assert merges[..rank + 1] == merges[..rank] + [merges[rank]];
      if key !in ranks {
        ranks := ranks[key := rank];
      }
    }
    assert merges[..|merges|] == merges;
    return Some(ranks);
  }

  lemma AddRank(merges: seq<string>, line: string, ranks: RankTable)
    requires NulFree(line) && RanksOf(merges, ranks)
    ensures RanksOf(merges + [line], if KeyOf(line) in ranks then ranks else ranks[KeyOf(line) := |merges|])
  {
    var more, ranks' := merges + [line], if KeyOf(line) in ranks then ranks else ranks[KeyOf(line) := |merges|];
    forall left, right | left != "" || right != ""
      ensures IsPairRank(more, left, right, Rank(ranks', left, right))
    {
      KeyNamesPair(line, left, right);
      assert IsPairRank(merges, left, right, Rank(ranks, left, right));
      assert more[|merges|] == line && forall j | 0 <= j < |merges| :: more[j] == merges[j];
    }
  }

  // -- Which tokens are split out ------------------------------------------------

  const NORMAL: nat := 1
  const UNKNOWN: nat := 2
  const CONTROL: nat := 3
  const USER_DEFINED: nat := 4

  const EOG_TEXTS: seq<string> := [
    "<|eot_id|>", "<|im_end|>", "<|end|>", "<|return|>", "<|call|>", "<|flush|>", "<|calls|>", "<end_of_turn>",
    "<|endoftext|>", "</s>", "<|eom_id|>", "<EOT>", "_<EOT>", "[EOT]", "[EOS]", "<|end_of_text|>",
    "<end_of_utterance>", "<eos>", "<turn|>", "<|tool_response>", "<｜end▁of▁sentence｜>", "[e~["]

  const FORCED_USER_DEFINED: seq<string> := ["<|channel|>", "<|message|>", "<|start|>", "<|constrain|>"]

  /** The last position of a token: a later duplicate wins. */
  function LastIndex(tokens: seq<string>, text: string): (r: Option<nat>)
    ensures r.Some? ==> r.value < |tokens| && tokens[r.value] == text
    ensures r.None? <==> text !in tokens
  {
    if tokens == [] then None
    else if tokens[|tokens| - 1] == text then Some(|tokens| - 1)
    else
      assert tokens == tokens[..|tokens| - 1] + [tokens[|tokens| - 1]];
      LastIndex(tokens[..|tokens| - 1], text)
  }

  function Retype(attrs: seq<nat>, tokens: seq<string>, text: string, attr: nat): (r: seq<nat>)
    requires |attrs| == |tokens|
    ensures |r| == |tokens|
  {
    match LastIndex(tokens, text)
    case Some(i) => attrs[i := attr]
    case None => attrs
  }

  function RetypeAll(attrs: seq<nat>, tokens: seq<string>, texts: seq<string>, attr: nat): (r: seq<nat>)
    requires |attrs| == |tokens|
    ensures |r| == |tokens|
    decreases |texts|
  {
    if texts == [] then attrs else RetypeAll(Retype(attrs, tokens, texts[0], attr), tokens, texts[1..], attr)
  }

  /** Token types after the load-time rewrites. */
  function Attrs(tokens: seq<string>, types: seq<nat>): (r: seq<nat>)
    ensures |r| == |tokens|
  {
    var given := seq(|tokens|, i requires 0 <= i => if i < |types| then types[i] else NORMAL);
    var eog := RetypeAll(given, tokens, EOG_TEXTS, CONTROL);
    var forced := RetypeAll(eog, tokens, FORCED_USER_DEFINED, USER_DEFINED);
    if "<|tool_response>" in tokens then Retype(forced, tokens, "</s>", NORMAL) else forced
  }

  predicate SplitOut(attr: nat) {
    attr == CONTROL || attr == USER_DEFINED || attr == UNKNOWN
  }

  function SplitTokens(tokens: seq<string>, attrs: seq<nat>): seq<string>
    requires |attrs| == |tokens|
  {
    if tokens == [] then []
    else SplitTokens(tokens[..|tokens| - 1], attrs[..|tokens| - 1])
         + if SplitOut(attrs[|tokens| - 1]) then [tokens[|tokens| - 1]] else []
  }

  function OfLength(texts: seq<string>, n: nat): seq<string> {
    if texts == [] then []
    else OfLength(texts[..|texts| - 1], n) + if Len(texts[|texts| - 1]) == n then [texts[|texts| - 1]] else []
  }

  lemma {:induction false} InOfLength(texts: seq<string>, n: nat, t: string)
    ensures t in OfLength(texts, n) <==> t in texts && Len(t) == n
  {
    if texts != [] {
      InOfLength(texts[..|texts| - 1], n, t);
      assert texts == texts[..|texts| - 1] + [texts[|texts| - 1]];
    }
  }

  ghost predicate Grouped(texts: seq<string>, groups: map<nat, seq<string>>) {
    forall n :: (n in groups <==> OfLength(texts, n) != []) && (n in groups ==> groups[n] == OfLength(texts, n))
  }

  method GroupByLength(tokens: seq<string>, attrs: seq<nat>) returns (groups: map<nat, seq<string>>)
    requires |attrs| == |tokens|
    ensures Grouped(SplitTokens(tokens, attrs), groups)
  {
    groups := map[];
    for i := 0 to |tokens|
      invariant Grouped(SplitTokens(tokens[..i], attrs[..i]), groups)
    {
      ghost var texts := SplitTokens(tokens[..i], attrs[..i]);
      assert tokens[..i + 1][..i] == tokens[..i] && attrs[..i + 1][..i] == attrs[..i];
      assert SplitTokens(tokens[..i + 1], attrs[..i + 1]) == texts + if SplitOut(attrs[i]) then [tokens[i]] else [];
      if SplitOut(attrs[i]) {
        var token := tokens[i];
        var n := Len(token);
        AddToGroup(texts, token, groups);
        groups := groups[n := (if n in groups then groups[n] else []) + [token]];
      } else {
        assert texts + [] == texts;
      }
    }
    assert tokens[..|tokens|] == tokens && attrs[..|attrs|] == attrs;
  }

  lemma AddToGroup(texts: seq<string>, token: string, groups: map<nat, seq<string>>)
    requires Grouped(texts, groups)
    ensures var n := Len(token);
            Grouped(texts + [token], groups[n := (if n in groups then groups[n] else []) + [token]])
  {
    OneMoreText(texts, token);
    assert Len(token) !in groups ==> OfLength(texts, Len(token)) == [];
  }

  lemma OneMoreText(texts: seq<string>, token: string)
    ensures forall n :: OfLength(texts + [token], n)
                     == OfLength(texts, n) + if Len(token) == n then [token] else []
  {
    assert (texts + [token])[..|texts|] == texts;
  }

  ghost predicate LongestTextFirst(texts: seq<string>) {
    forall i, j | 0 <= i < j < |texts| :: Len(texts[j]) <= Len(texts[i])
  }

  lemma {:induction false} CountOfLength(texts: seq<string>, n: nat, t: string)
    ensures multiset(OfLength(texts, n))[t] == if Len(t) == n then multiset(texts)[t] else 0
  {
    if texts != [] {
      CountOfLength(texts[..|texts| - 1], n, t);
      assert texts == texts[..|texts| - 1] + [texts[|texts| - 1]];
    }
  }

  /** `out` holds the texts of every length but the remaining ones. */
  ghost predicate Taken(texts: seq<string>, out: seq<string>, remaining: set<nat>) {
    forall t :: multiset(out)[t] == if Len(t) in remaining then 0 else multiset(texts)[t]
  }

  ghost predicate AllLonger(remaining: set<nat>, out: seq<string>) {
    forall m, t | m in remaining && t in out :: m < Len(t)
  }

  lemma TakenOneMore(texts: seq<string>, out: seq<string>, remaining: set<nat>, n: nat)
    requires Taken(texts, out, remaining) && n in remaining
    ensures Taken(texts, out + OfLength(texts, n), remaining - {n})
  {
    forall t
      ensures multiset(out + OfLength(texts, n))[t] == if Len(t) in remaining - {n} then 0 else multiset(texts)[t]
    {
      CountOfLength(texts, n, t);
    }
  }

  lemma TakeGroup(texts: seq<string>, out: seq<string>, remaining: set<nat>, n: nat)
    requires n in remaining && LongestTextFirst(out) && AllLonger(remaining, out)
    requires forall m | m in remaining :: m <= n
    ensures LongestTextFirst(out + OfLength(texts, n)) && AllLonger(remaining - {n}, out + OfLength(texts, n))
  {
    var group := OfLength(texts, n);
    forall t | t in group ensures Len(t) == n {
      InOfLength(texts, n, t);
    }
    var more := out + group;
    forall i, j | 0 <= i < j < |more| ensures Len(more[j]) <= Len(more[i]) {
      if j >= |out| {
        assert more[j] == group[j - |out|] && more[j] in group;
        if i >= |out| {
          assert more[i] == group[i - |out|] && more[i] in group;
        } else {
          assert more[i] in out;
        }
      }
    }
  }

  method LongestGroupFirst(groups: map<nat, seq<string>>, ghost texts: seq<string>) returns (out: seq<string>)
    requires Grouped(texts, groups)
    ensures LongestTextFirst(out) && multiset(out) == multiset(texts)
  {
    out := [];
    var remaining := groups.Keys;
    forall t ensures Len(t) !in remaining ==> multiset(texts)[t] == 0 {
      InOfLength(texts, Len(t), t);
    }
    while remaining != {}
      invariant remaining <= groups.Keys
      invariant Taken(texts, out, remaining) && LongestTextFirst(out)
      invariant AllLonger(remaining, out)
      decreases |remaining|
    {
      var n := Largest(remaining);
      TakeGroup(texts, out, remaining, n);
      TakenOneMore(texts, out, remaining, n);
      out := out + groups[n];
      remaining := remaining - {n};
    }
  }

  method Largest(s: set<nat>) returns (n: nat)
    requires s != {}
    ensures n in s && forall m | m in s :: m <= n
  {
    n :| n in s;
    var rest := s - {n};
    while rest != {}
      invariant rest <= s && n in s && forall m | m in s :: m in rest || m <= n
      decreases |rest|
    {
      var m :| m in rest;
      rest := rest - {m};
      n := if m > n then m else n;
    }
  }

  ghost predicate SomeLengthClashes(texts: seq<string>) {
    exists n: nat :: ClashesAt(texts, n)
  }

  ghost predicate ClashesAt(texts: seq<string>, n: nat) {
    MayOverlap(OfLength(texts, n))
  }

  method CheckLengths(groups: map<nat, seq<string>>, ghost texts: seq<string>) returns (clash: bool)
    requires Grouped(texts, groups)
    ensures clash <==> SomeLengthClashes(texts)
  {
    var unchecked := groups.Keys;
    while unchecked != {}
      invariant unchecked <= groups.Keys
      invariant forall n | n in groups :: n in unchecked || !ClashesAt(texts, n)
      decreases |unchecked|
    {
      var n :| n in unchecked;
      var matters := OrderMatters(groups[n]);
      if matters {
        assert ClashesAt(texts, n);
        return true;
      }
      unchecked := unchecked - {n};
    }
    assert forall n: nat :: n in groups || OfLength(texts, n) == [];
    return false;
  }

  method SortSplitTokens(tokens: seq<string>, attrs: seq<nat>) returns (sorted: Option<seq<string>>)
    requires |attrs| == |tokens|
    ensures sorted.None? <==> SomeLengthClashes(SplitTokens(tokens, attrs))
    ensures sorted.Some? ==> && LongestTextFirst(sorted.value)
                             && multiset(sorted.value) == multiset(SplitTokens(tokens, attrs))
  {
    var groups := GroupByLength(tokens, attrs);
    var clash := CheckLengths(groups, SplitTokens(tokens, attrs));
    if clash {
      return None;
    }
    var out := LongestGroupFirst(groups, SplitTokens(tokens, attrs));
    return Some(out);
  }

  /** The texts, longest byte length first; None when the order within a length could show. */
  method SpecialTexts(tokens: seq<string>, types: seq<nat>) returns (sorted: Option<seq<string>>)
    ensures sorted.None? <==> SomeLengthClashes(SplitTokens(tokens, Attrs(tokens, types)))
    ensures sorted.Some? ==> && LongestTextFirst(sorted.value)
                             && multiset(sorted.value) == multiset(SplitTokens(tokens, Attrs(tokens, types)))
  {
    sorted := SortSplitTokens(tokens, Attrs(tokens, types));
  }

  // -- The order among equal lengths is invisible once the texts are accepted -------

  ghost predicate Ids(tokens: seq<string>, ids: map<string, nat>) {
    forall t :: (t in ids <==> t in tokens) && (t in ids ==> LastIndex(tokens, t) == Some(ids[t]))
  }

  /** The last duplicate wins. */
  method BuildIds(tokens: seq<string>) returns (ids: map<string, nat>)
    ensures Ids(tokens, ids)
  {
    ids := map[];
    for i := 0 to |tokens|
      invariant Ids(tokens[..i], ids)
    {
      assert tokens[..i + 1] == tokens[..i] + [tokens[i]];
      assert tokens[..i + 1][..i] == tokens[..i];
      ids := ids[tokens[i] := i];
    }
    assert tokens[..|tokens|] == tokens;
  }

  function WithIds(texts: seq<string>, ids: map<string, nat>): (r: seq<Special>)
    requires forall t | t in texts :: t in ids
    ensures |r| == |texts|
  {
    seq(|texts|, i requires 0 <= i < |texts| => Special(texts[i], ids[texts[i]]))
  }

  /** Any sort that puts longer specials first, stable or not, yields the same fragments. */
  lemma {:induction false} UnstableSortIsHarmless(texts: seq<string>, sorted: seq<string>, ids: map<string, nat>,
                                                   other: seq<Special>, text: string)
    requires LongestTextFirst(sorted) && multiset(sorted) == multiset(texts)
    requires !SomeLengthClashes(texts)
    requires forall t | t in sorted :: t in ids
    requires LongestFirst(other) && multiset(other) == multiset(WithIds(sorted, ids))
    ensures Partitioned(text, WithIds(sorted, ids)) == Partitioned(text, other)
  {
    var specials := WithIds(sorted, ids);
    forall x, y | x in specials && y in specials && SameLength(x, y) && x.text != y.text
      ensures !Overlaps(x.text, y.text)
    {
      assert x.text in multiset(sorted) && y.text in multiset(sorted);
      InOfLength(texts, Len(x.text), x.text);
      InOfLength(texts, Len(x.text), y.text);
      assert !ClashesAt(texts, Len(x.text));
      TwoMembers(OfLength(texts, Len(x.text)), x.text, y.text);
    }
    OrderIsImmaterial(RawOf(text), specials, other);
  }

  lemma TwoMembers(s: seq<string>, a: string, b: string)
    requires a in s && b in s && a != b
    ensures |s| >= 2
  {
    var i, j :| 0 <= i < |s| && 0 <= j < |s| && s[i] == a && s[j] == b;
    assert i != j;
  }
}
