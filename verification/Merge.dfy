/**
 The byte-pair merge of `gemma4_bpe.rs`: a priority queue of candidate pairs over a doubly
 linked list of symbols, with stale queue entries discarded when they surface. It is proved to
 return exactly what the naive rule returns.
 */
module Merge {
  import opened Text

  type RankTable = map<string, nat>

  /** The pair is looked up by one key, its parts joined by NUL. */
  function Rank(ranks: RankTable, left: string, right: string): Option<nat> {
    var key := left + "\0" + right;
    if key in ranks then Some(ranks[key]) else None
  }

  // -- The naive rule -------------------------------------------------------

  ghost predicate Ranked(ranks: RankTable, segs: seq<string>, j: nat) {
    j + 1 < |segs| && Rank(ranks, segs[j], segs[j + 1]).Some?
  }

  /** Pair `i` is the one to merge before pair `j`: a lower rank, or the same and not to its right. */
  ghost predicate Precedes(ranks: RankTable, segs: seq<string>, i: nat, j: nat)
    requires Ranked(ranks, segs, i) && Ranked(ranks, segs, j)
  {
    var r, q := Rank(ranks, segs[i], segs[i + 1]).value, Rank(ranks, segs[j], segs[j + 1]).value;
    r < q || (r == q && i <= j)
  }

  ghost predicate Best(ranks: RankTable, segs: seq<string>, i: nat) {
    Ranked(ranks, segs, i) && forall j: nat | Ranked(ranks, segs, j) :: Precedes(ranks, segs, i, j)
  }

  function Fuse(segs: seq<string>, i: nat): seq<string>
    requires i + 1 < |segs|
  {
    segs[..i] + [segs[i] + segs[i + 1]] + segs[i + 2..]
  }

  /** Merge the best pair until no adjacent pair has a rank. */
  ghost function Naive(ranks: RankTable, segs: seq<string>): seq<string>
    decreases |segs|
  {
    if i: nat :| Best(ranks, segs, i) then Naive(ranks, Fuse(segs, i)) else segs
  }

  lemma BestIsUnique(ranks: RankTable, segs: seq<string>, i: nat, j: nat)
    requires Best(ranks, segs, i) && Best(ranks, segs, j)
    ensures i == j
  {
    assert Precedes(ranks, segs, i, j) && Precedes(ranks, segs, j, i);
  }

  /** The naive rule is a rewriting: nothing is added, dropped or reordered. */
  lemma {:induction false} NaiveKeepsText(ranks: RankTable, segs: seq<string>)
    ensures Join(Naive(ranks, segs)) == Join(segs)
    decreases |segs|
  {
    if i: nat :| Best(ranks, segs, i) {
      BestIsTaken(ranks, segs, i);
      NaiveKeepsText(ranks, Fuse(segs, i));
      FuseKeepsText(segs, i);
    }
  }

  lemma BestIsTaken(ranks: RankTable, segs: seq<string>, i: nat)
    requires Best(ranks, segs, i)
    ensures Naive(ranks, segs) == Naive(ranks, Fuse(segs, i))
  {
    var k: nat :| Best(ranks, segs, k) && Naive(ranks, segs) == Naive(ranks, Fuse(segs, k));
    BestIsUnique(ranks, segs, i, k);
  }

  lemma {:induction false} FuseKeepsText(segs: seq<string>, i: nat)
    requires i + 1 < |segs|
    ensures Join(Fuse(segs, i)) == Join(segs)
    decreases i
  {
    var fused := Fuse(segs, i);
    if i == 0 {
      assert fused[1..] == segs[2..] && segs[1..][1..] == segs[2..];
      assert Join(segs[1..]) == segs[1] + Join(segs[2..]);
    } else {
      assert fused[0] == segs[0] && fused[1..] == Fuse(segs[1..], i - 1);
      FuseKeepsText(segs[1..], i - 1);
    }
  }

  // -- What the linked list means -------------------------------------------

  function Chars(word: string): seq<string> {
    seq(|word|, i requires 0 <= i < |word| => [word[i]])
  }

  function End(word: string, at: seq<nat>, j: nat): nat
    requires j < |at|
  {
    if j + 1 < |at| then at[j + 1] else |word|
  }

  ghost predicate Increasing(at: seq<nat>) {
    forall j, k :: 0 <= j < k < |at| ==> at[j] < at[k]
  }

  /** `at` lists the positions of the live symbols of `word`, in order, and `segs` their text. */
  ghost predicate Cuts(word: string, at: seq<nat>, segs: seq<string>) {
    && |at| == |segs|
    && (at == [] ==> word == "")
    && (at != [] ==> at[0] == 0)
    && Increasing(at)
    && (forall j :: 0 <= j < |at| ==> at[j] < |word|)
    && (forall j {:trigger Segment(word, at, segs, j)} :: 0 <= j < |at| ==> Segment(word, at, segs, j))
  }

  ghost predicate Segment(word: string, at: seq<nat>, segs: seq<string>, j: nat)
    requires j < |at| == |segs|
  {
    at[j] < End(word, at, j) <= |word| && segs[j] == word[at[j]..End(word, at, j)]
  }

  /** The three vectors describe the live symbols: a symbol that was merged away is empty. */
  ghost predicate Linked(word: string, at: seq<nat>, segs: seq<string>, symbols: seq<string>, next: seq<int>,
                         prev: seq<int>)
    requires Cuts(word, at, segs)
  {
    && |symbols| == |next| == |prev| == |word|
    && (forall j {:trigger Node(at, segs, symbols, next, prev, j)} :: 0 <= j < |at| ==>
          Node(at, segs, symbols, next, prev, j))
    && (forall i :: 0 <= i < |word| && i !in at ==> symbols[i] == "")
  }

  ghost predicate Node(at: seq<nat>, segs: seq<string>, symbols: seq<string>, next: seq<int>, prev: seq<int>, j: nat)
    requires j < |at| == |segs| && at[j] < |symbols| == |next| == |prev|
  {
    && symbols[at[j]] == segs[j]
    && next[at[j]] == (if j + 1 < |at| then at[j + 1] else -1)
    && prev[at[j]] == (if j > 0 then at[j - 1] else -1)
  }

  // -- The queue ------------------------------------------------------------

  datatype Entry = Entry(rank: nat, left: nat, right: nat, text: string)

  /** The order the heap pops in: lowest rank, then leftmost. */
  predicate Before(e: Entry, f: Entry) {
    || e.rank < f.rank
    || (e.rank == f.rank && e.left < f.left)
    || (e.rank == f.rank && e.left == f.left && e.right <= f.right)
  }

  /** Every queued pair was adjacent once, and cuts are only ever removed since. */
  ghost predicate Sound(ranks: RankTable, word: string, at: seq<nat>, e: Entry) {
    && e.left < e.right < e.left + |e.text| <= |word|
    && e.text == word[e.left..e.left + |e.text|]
    && Rank(ranks, word[e.left..e.right], word[e.right..e.left + |e.text|]) == Some(e.rank)
    && forall j :: 0 <= j < |at| ==> !CutsInto(e, at[j])
  }

  predicate CutsInto(e: Entry, i: nat) {
    e.left < i < e.right || e.right < i < e.left + |e.text|
  }

  ghost function Candidate(ranks: RankTable, at: seq<nat>, segs: seq<string>, j: nat): Entry
    requires |at| == |segs| && Ranked(ranks, segs, j)
  {
    Entry(Rank(ranks, segs[j], segs[j + 1]).value, at[j], at[j + 1], segs[j] + segs[j + 1])
  }

  ghost predicate Complete(ranks: RankTable, at: seq<nat>, segs: seq<string>, queue: multiset<Entry>)
    requires |at| == |segs|
  {
    forall j: nat | Ranked(ranks, segs, j) :: Candidate(ranks, at, segs, j) in queue
  }

  /** Only the length test of the source; its other two tests are implied (`LengthTestSuffices`). */
  predicate Fresh(symbols: seq<string>, e: Entry)
    requires e.left < |symbols| && e.right < |symbols|
  {
    && symbols[e.left] != ""
    && symbols[e.right] != ""
    && Len(symbols[e.left]) + Len(symbols[e.right]) == Len(e.text)
  }

  predicate StartsWith(s: string, p: string) {
    |p| <= |s| && s[..|p|] == p
  }

  predicate EndsWith(s: string, p: string) {
    |p| <= |s| && s[|s| - |p|..] == p
  }

  lemma Slices(word: string, a: nat, b: nat, c: nat)
    requires a <= b <= c <= |word|
    ensures word[a..c] == word[a..b] + word[b..c]
    ensures Len(word[a..c]) == Len(word[a..b]) + Len(word[b..c])
    ensures b < c ==> Len(word[a..b]) < Len(word[a..c])
  {
    assert word[a..c] == word[a..b] + word[b..c];
    LenConcat(word[a..b], word[b..c]);
  }

  /** Two live symbols of a queue entry are neighbours: no cut lies between them. */
  lemma LivePairIsAdjacent(ranks: RankTable, word: string, at: seq<nat>, segs: seq<string>, e: Entry, j: nat, k: nat)
    requires Cuts(word, at, segs) && Sound(ranks, word, at, e)
    requires j < |at| && k < |at| && at[j] == e.left && at[k] == e.right
    ensures k == j + 1
    ensures e.left + |e.text| <= End(word, at, k)
  {
    assert j < k;
    assert !CutsInto(e, at[j + 1]);
    if k + 1 < |at| {
      assert at[k] < at[k + 1];
    }
  }

  /** The lengths agree only if the right symbol still ends where it did. */
  lemma LengthTest(ranks: RankTable, word: string, at: seq<nat>, e: Entry, stop: nat)
    requires Sound(ranks, word, at, e) && e.left + |e.text| <= stop <= |word|
    requires Len(word[e.left..e.right]) + Len(word[e.right..stop]) == Len(e.text)
    ensures stop == e.left + |e.text|
    ensures e.text == word[e.left..e.right] + word[e.right..stop]
  {
    var mid := e.left + |e.text|;
    Slices(word, e.left, e.right, mid);
    Slices(word, e.right, mid, stop);
  }

  /** A queue entry passes the length test only if it is a pair adjacent now, and then
      the prefix and suffix tests hold too. */
  lemma LengthTestSuffices(ranks: RankTable, word: string, at: seq<nat>, segs: seq<string>, symbols: seq<string>,
                           next: seq<int>, prev: seq<int>, e: Entry)
      returns (j: nat)
    requires Cuts(word, at, segs) && Linked(word, at, segs, symbols, next, prev) && Sound(ranks, word, at, e)
    requires Fresh(symbols, e)
    ensures Ranked(ranks, segs, j) && e == Candidate(ranks, at, segs, j)
    ensures StartsWith(e.text, symbols[e.left]) && EndsWith(e.text, symbols[e.right])
  {
    assert e.left in at && e.right in at;
    j :| 0 <= j < |at| && at[j] == e.left;
    var k :| 0 <= k < |at| && at[k] == e.right;
    LivePairIsAdjacent(ranks, word, at, segs, e, j, k);
    assert Node(at, segs, symbols, next, prev, j) && Node(at, segs, symbols, next, prev, k);
    FreshPair(ranks, word, at, segs, e, j);
  }

  lemma FreshPair(ranks: RankTable, word: string, at: seq<nat>, segs: seq<string>, e: Entry, j: nat)
    requires Cuts(word, at, segs) && Sound(ranks, word, at, e)
    requires j + 1 < |at| && at[j] == e.left && at[j + 1] == e.right && e.left + |e.text| <= End(word, at, j + 1)
    requires Len(segs[j]) + Len(segs[j + 1]) == Len(e.text)
    ensures Ranked(ranks, segs, j) && e == Candidate(ranks, at, segs, j)
    ensures e.text == segs[j] + segs[j + 1]
  {
    assert Segment(word, at, segs, j) && Segment(word, at, segs, j + 1);
    var stop := End(word, at, j + 1);
    LengthTest(ranks, word, at, e, stop);
  }

  /** A pair adjacent now is never mistaken for a stale one. */
  lemma CandidateIsFresh(ranks: RankTable, word: string, at: seq<nat>, segs: seq<string>, j: nat)
    requires Cuts(word, at, segs) && Ranked(ranks, segs, j)
    ensures Sound(ranks, word, at, Candidate(ranks, at, segs, j))
    ensures Len(segs[j]) + Len(segs[j + 1]) == Len(Candidate(ranks, at, segs, j).text)
    ensures segs[j] != "" && segs[j + 1] != ""
  {
    var e := Candidate(ranks, at, segs, j);
    var stop := End(word, at, j + 1);
    assert Segment(word, at, segs, j) && Segment(word, at, segs, j + 1);
    Slices(word, at[j], at[j + 1], stop);
    assert e.left + |e.text| == stop;
    forall k | 0 <= k < |at|
      ensures !CutsInto(e, at[k])
    {
      if k > j + 2 {
        assert at[j + 2] < at[k];
      }
    }
  }

  // -- One merge of the list ------------------------------------------------

  function Without(at: seq<nat>, k: nat): seq<nat>
    requires k < |at|
  {
    at[..k] + at[k + 1..]
  }

  lemma CutRemoved(word: string, at: seq<nat>, segs: seq<string>, j: nat)
    requires Cuts(word, at, segs) && j + 1 < |at|
    ensures Cuts(word, Without(at, j + 1), Fuse(segs, j))
  {
    var cut, fused := Without(at, j + 1), Fuse(segs, j);
    forall k | 0 <= k < |cut|
      ensures Segment(word, cut, fused, k)
    {
      SegmentAfterRemoval(word, at, segs, j, k);
    }
    StillIncreasing(at, j + 1);
  }

  lemma StillIncreasing(at: seq<nat>, k: nat)
    requires Increasing(at) && k < |at|
    ensures Increasing(Without(at, k))
  {
  }

  lemma SegmentAfterRemoval(word: string, at: seq<nat>, segs: seq<string>, j: nat, k: nat)
    requires Cuts(word, at, segs) && j + 1 < |at| && k < |at| - 1
    ensures Segment(word, Without(at, j + 1), Fuse(segs, j), k)
  {
    var cut := Without(at, j + 1);
    assert Segment(word, at, segs, j) && Segment(word, at, segs, j + 1) && Segment(word, at, segs, k + 1);
    if k == j {
      var stop := End(word, at, j + 1);
      Slices(word, at[j], at[j + 1], stop);
    } else {
      var was := if k < j then k else k + 1;
      assert Segment(word, at, segs, was);
      assert cut[k] == at[was] && Fuse(segs, j)[k] == segs[was];
      assert End(word, cut, k) == End(word, at, was);
    }
  }

  ghost predicate First(queue: multiset<Entry>, e: Entry) {
    e in queue && forall f | f in queue :: Before(e, f)
  }

  lemma {:induction false} FirstExists(queue: multiset<Entry>) returns (e: Entry)
    requires queue != multiset{}
    ensures First(queue, e)
    decreases |queue|
  {
    var x :| x in queue;
    var rest := queue - multiset{x};
    e := x;
    if rest != multiset{} {
      var least := FirstExists(rest);
      if !Before(x, least) {
        e := least;
      }
    }
    forall f | f in queue ensures Before(e, f) {
      assert f in rest || f == x;
    }
  }

  /** `BinaryHeap::pop`: an entry that nothing queued comes before. */
  method Pop(queue: multiset<Entry>) returns (e: Entry, rest: multiset<Entry>)
    requires queue != multiset{}
    ensures e in queue && rest == queue - multiset{e}
    ensures First(queue, e)
  {
    ghost var least := FirstExists(queue);
    e :| e in queue && forall f | f in queue :: Before(e, f);
    rest := queue - multiset{e};
  }

  /** The closure `push`: queue the pair at `left`, `right` if both exist and the pair has a rank. */
  method Push(ranks: RankTable, queue: multiset<Entry>, symbols: array<string>, left: int, right: int)
      returns (pushed: multiset<Entry>)
    requires left < symbols.Length && right < symbols.Length
    ensures pushed == queue + Pushed(ranks, symbols[..], left, right)
  {
    pushed := queue;
    if left < 0 || right < 0 {
      return;
    }
    var l, r := symbols[left], symbols[right];
    match Rank(ranks, l, r) {
      case Some(rank) => pushed := pushed + multiset{Entry(rank, left, right, l + r)};
      case None =>
    }
  }

  function Pushed(ranks: RankTable, symbols: seq<string>, left: int, right: int): multiset<Entry>
    requires left < |symbols| && right < |symbols|
  {
    if left < 0 || right < 0 || Rank(ranks, symbols[left], symbols[right]).None? then multiset{}
    else multiset{Entry(Rank(ranks, symbols[left], symbols[right]).value, left, right,
                        symbols[left] + symbols[right])}
  }


  // -- The loop ---------------------------------------------------------------

  ghost predicate AllSound(ranks: RankTable, word: string, at: seq<nat>, queue: multiset<Entry>) {
    forall e | e in queue :: Sound(ranks, word, at, e)
  }

  lemma StaleIsDropped(ranks: RankTable, word: string, at: seq<nat>, segs: seq<string>, symbols: seq<string>,
                       next: seq<int>, prev: seq<int>, queue: multiset<Entry>, e: Entry)
    requires Cuts(word, at, segs) && Linked(word, at, segs, symbols, next, prev)
    requires Complete(ranks, at, segs, queue) && e.left < |word| && e.right < |word| && !Fresh(symbols, e)
    ensures Complete(ranks, at, segs, queue - multiset{e})
  {
    forall j: nat | Ranked(ranks, segs, j)
      ensures Candidate(ranks, at, segs, j) in queue - multiset{e}
    {
      CandidateIsFresh(ranks, word, at, segs, j);
      assert Node(at, segs, symbols, next, prev, j) && Node(at, segs, symbols, next, prev, j + 1);
      assert Fresh(symbols, Candidate(ranks, at, segs, j));
    }
  }

  lemma BestIsPopped(ranks: RankTable, at: seq<nat>, segs: seq<string>, queue: multiset<Entry>, e: Entry, j: nat)
    requires |at| == |segs| && Increasing(at) && Complete(ranks, at, segs, queue) && First(queue, e)
    requires Ranked(ranks, segs, j) && e == Candidate(ranks, at, segs, j)
    ensures Best(ranks, segs, j)
  {
    forall k: nat | Ranked(ranks, segs, k)
      ensures Precedes(ranks, segs, j, k)
    {
      assert Before(e, Candidate(ranks, at, segs, k));
    }
  }

  lemma OthersStay(at: seq<nat>, k: nat, i: nat)
    requires k < |at| && i in at && i != at[k]
    ensures i in Without(at, k)
  {
    var j :| 0 <= j < |at| && at[j] == i;
    assert Without(at, k)[if j < k then j else j - 1] == i;
  }

  /** The pointer updates of one merge relink exactly the remaining symbols. */
  lemma Relinked(word: string, at: seq<nat>, segs: seq<string>, symbols: seq<string>, next: seq<int>, prev: seq<int>,
                 j: nat, symbols': seq<string>, next': seq<int>, prev': seq<int>)
    requires Cuts(word, at, segs) && Linked(word, at, segs, symbols, next, prev) && j + 1 < |at|
    requires symbols' == symbols[at[j] := segs[j] + segs[j + 1]][at[j + 1] := ""]
    requires next' == next[at[j] := next[at[j + 1]]]
    requires next[at[j + 1]] < |word|
    requires prev' == if next[at[j + 1]] >= 0 then prev[next[at[j + 1]] := at[j]] else prev
    ensures Cuts(word, Without(at, j + 1), Fuse(segs, j))
    ensures Linked(word, Without(at, j + 1), Fuse(segs, j), symbols', next', prev')
  {
    CutRemoved(word, at, segs, j);
    var cut, fused := Without(at, j + 1), Fuse(segs, j);
    forall k | 0 <= k < |cut|
      ensures Node(cut, fused, symbols', next', prev', k)
    {
      NodeAfterMerge(at, segs, symbols, next, prev, j, symbols', next', prev', k);
    }
    forall i | 0 <= i < |word|
      ensures i in cut || symbols'[i] == ""
    {
      if i in at && i != at[j + 1] {
        OthersStay(at, j + 1, i);
      }
    }
  }

  lemma NodeAfterMerge(at: seq<nat>, segs: seq<string>, symbols: seq<string>, next: seq<int>, prev: seq<int>,
                       j: nat, symbols': seq<string>, next': seq<int>, prev': seq<int>, k: nat)
    requires |at| == |segs| && Increasing(at) && j + 1 < |at| && k < |at| - 1
    requires |symbols| == |next| == |prev| && forall i | 0 <= i < |at| :: at[i] < |symbols|
    requires forall i {:trigger Node(at, segs, symbols, next, prev, i)} | 0 <= i < |at| ::
               Node(at, segs, symbols, next, prev, i)
    requires next[at[j + 1]] < |symbols|
    requires symbols' == symbols[at[j] := segs[j] + segs[j + 1]][at[j + 1] := ""]
    requires next' == next[at[j] := next[at[j + 1]]]
    requires prev' == if next[at[j + 1]] >= 0 then prev[next[at[j + 1]] := at[j]] else prev
    ensures |Without(at, j + 1)| == |Fuse(segs, j)| && Without(at, j + 1)[k] < |symbols|
    ensures Node(Without(at, j + 1), Fuse(segs, j), symbols', next', prev', k)
  {
    var was := if k <= j then k else k + 1;
    assert Node(at, segs, symbols, next, prev, was) && Node(at, segs, symbols, next, prev, j + 1);
    var cut, fused := Without(at, j + 1), Fuse(segs, j);
    assert cut[k] == at[was];
    assert k != j ==> fused[k] == segs[was];
  }

  lemma StillSound(ranks: RankTable, word: string, at: seq<nat>, k: nat, queue: multiset<Entry>)
    requires k < |at| && AllSound(ranks, word, at, queue)
    ensures AllSound(ranks, word, Without(at, k), queue)
  {
    var cut := Without(at, k);
    forall e | e in queue ensures Sound(ranks, word, cut, e) {
      assert Sound(ranks, word, at, e);
      forall i | 0 <= i < |cut| ensures !CutsInto(e, cut[i]) {
        assert cut[i] == at[if i < k then i else i + 1];
      }
    }
  }

  /** Pairs the merge did not touch are still queued; the two it made are pushed. */
  lemma Requeued(ranks: RankTable, at: seq<nat>, segs: seq<string>, queue: multiset<Entry>, j: nat,
                 queue': multiset<Entry>)
    requires |at| == |segs| && Increasing(at) && Ranked(ranks, segs, j) && Complete(ranks, at, segs, queue)
    requires queue - multiset{Candidate(ranks, at, segs, j)} <= queue'
    requires j > 0 && Ranked(ranks, Fuse(segs, j), j - 1)
             ==> Candidate(ranks, Without(at, j + 1), Fuse(segs, j), j - 1) in queue'
    requires Ranked(ranks, Fuse(segs, j), j) ==> Candidate(ranks, Without(at, j + 1), Fuse(segs, j), j) in queue'
    ensures Complete(ranks, Without(at, j + 1), Fuse(segs, j), queue')
  {
    var cut, fused := Without(at, j + 1), Fuse(segs, j);
    forall k: nat | Ranked(ranks, fused, k)
      ensures Candidate(ranks, cut, fused, k) in queue'
    {
      if k != j && k + 1 != j {
        var was := if k < j then k else k + 1;
        assert fused[k] == segs[was] && fused[k + 1] == segs[was + 1];
        assert cut[k] == at[was] && cut[k + 1] == at[was + 1];
        assert Ranked(ranks, segs, was);
        assert Candidate(ranks, cut, fused, k) == Candidate(ranks, at, segs, was);
        assert Candidate(ranks, at, segs, was).left != at[j];
      }
    }
  }

  lemma FreshCandidate(ranks: RankTable, word: string, at: seq<nat>, segs: seq<string>, symbols: seq<string>,
                       next: seq<int>, prev: seq<int>, j: nat)
    requires Cuts(word, at, segs) && Linked(word, at, segs, symbols, next, prev) && j + 1 < |at|
    ensures Pushed(ranks, symbols, at[j], at[j + 1])
         == if Ranked(ranks, segs, j) then multiset{Candidate(ranks, at, segs, j)} else multiset{}
    ensures AllSound(ranks, word, at, Pushed(ranks, symbols, at[j], at[j + 1]))
  {
    assert Node(at, segs, symbols, next, prev, j) && Node(at, segs, symbols, next, prev, j + 1);
    if Ranked(ranks, segs, j) {
      CandidateIsFresh(ranks, word, at, segs, j);
    }
  }

  lemma SoundTogether(ranks: RankTable, word: string, at: seq<nat>, a: multiset<Entry>, b: multiset<Entry>)
    requires AllSound(ranks, word, at, a) && AllSound(ranks, word, at, b)
    ensures AllSound(ranks, word, at, a + b)
  {
  }

  /** The two pushes after a merge queue its new neighbours on either side. */
  lemma TwoPushes(ranks: RankTable, word: string, at: seq<nat>, segs: seq<string>, symbols: seq<string>,
                  next: seq<int>, prev: seq<int>, j: nat)
    requires Cuts(word, at, segs) && Linked(word, at, segs, symbols, next, prev) && j < |at|
    ensures prev[at[j]] < |symbols| && next[at[j]] < |symbols|
    ensures AllSound(ranks, word, at, Pushed(ranks, symbols, prev[at[j]], at[j]))
    ensures AllSound(ranks, word, at, Pushed(ranks, symbols, at[j], next[at[j]]))
    ensures j > 0 && Ranked(ranks, segs, j - 1)
            ==> Candidate(ranks, at, segs, j - 1) in Pushed(ranks, symbols, prev[at[j]], at[j])
    ensures Ranked(ranks, segs, j) ==> Candidate(ranks, at, segs, j) in Pushed(ranks, symbols, at[j], next[at[j]])
  {
    assert Node(at, segs, symbols, next, prev, j);
    if j > 0 {
      FreshCandidate(ranks, word, at, segs, symbols, next, prev, j - 1);
    }
    if j + 1 < |at| {
      FreshCandidate(ranks, word, at, segs, symbols, next, prev, j);
    }
  }

  /** Everything queued after one merge. */
  lemma PushedAfterMerge(ranks: RankTable, word: string, at: seq<nat>, segs: seq<string>, queue: multiset<Entry>,
                         j: nat,
                         one: multiset<Entry>, two: multiset<Entry>)
    requires |at| == |segs| && Increasing(at) && Ranked(ranks, segs, j)
    requires Complete(ranks, at, segs, queue) && AllSound(ranks, word, at, queue)
    requires AllSound(ranks, word, Without(at, j + 1), one) && AllSound(ranks, word, Without(at, j + 1), two)
    requires j > 0 && Ranked(ranks, Fuse(segs, j), j - 1)
             ==> Candidate(ranks, Without(at, j + 1), Fuse(segs, j), j - 1) in one
    requires Ranked(ranks, Fuse(segs, j), j) ==> Candidate(ranks, Without(at, j + 1), Fuse(segs, j), j) in two
    ensures AllSound(ranks, word, Without(at, j + 1), queue - multiset{Candidate(ranks, at, segs, j)} + one + two)
    ensures Complete(ranks, Without(at, j + 1), Fuse(segs, j),
                     queue - multiset{Candidate(ranks, at, segs, j)} + one + two)
  {
    StillSound(ranks, word, at, j + 1, queue);
    var kept := queue - multiset{Candidate(ranks, at, segs, j)};
    SoundTogether(ranks, word, Without(at, j + 1), kept, one);
    SoundTogether(ranks, word, Without(at, j + 1), kept + one, two);
    Requeued(ranks, at, segs, queue, j, kept + one + two);
  }

  lemma Initially(word: string, symbols: seq<string>, next: seq<int>, prev: seq<int>) returns (at: seq<nat>)
    requires |symbols| == |next| == |prev| == |word|
    requires forall i | 0 <= i < |word| :: symbols[i] == [word[i]]
    requires forall i | 0 <= i < |word| :: next[i] == if i + 1 == |word| then -1 else i + 1
    requires forall i | 0 <= i < |word| :: prev[i] == i - 1
    ensures Cuts(word, at, Chars(word)) && Linked(word, at, Chars(word), symbols, next, prev)
    ensures forall i | 0 <= i < |at| :: at[i] == i
  {
    at := seq(|word|, i requires 0 <= i < |word| => i);
    forall j | 0 <= j < |at|
      ensures Segment(word, at, Chars(word), j) && Node(at, Chars(word), symbols, next, prev, j)
    {
    }
    forall i | 0 <= i < |word|
      ensures i in at
    {
      assert at[i] == i;
    }
  }

  lemma {:induction false} NoneLeft(ranks: RankTable, at: seq<nat>, segs: seq<string>)
    requires |at| == |segs| && Complete(ranks, at, segs, multiset{})
    ensures Naive(ranks, segs) == segs
  {
    forall j: nat
      ensures !Ranked(ranks, segs, j)
    {
    }
  }

  function NonEmpty(symbols: seq<string>): seq<string> {
    if symbols == [] then [] else (if symbols[0] == "" then [] else [symbols[0]]) + NonEmpty(symbols[1..])
  }

  lemma {:induction false} SkipEmpty(symbols: seq<string>, a: nat, b: nat)
    requires a <= b <= |symbols| && forall i | a <= i < b :: symbols[i] == ""
    ensures NonEmpty(symbols[a..]) == NonEmpty(symbols[b..])
    decreases b - a
  {
    if a < b {
      assert symbols[a..][1..] == symbols[a + 1..];
      SkipEmpty(symbols, a + 1, b);
    }
  }

  /** From one live symbol to the next there is nothing but emptied ones. */
  lemma {:induction false} OneLive(word: string, at: seq<nat>, segs: seq<string>, symbols: seq<string>,
                                   next: seq<int>, prev: seq<int>, j: nat)
    requires Cuts(word, at, segs) && Linked(word, at, segs, symbols, next, prev) && j < |at|
    ensures End(word, at, j) <= |symbols|
            && NonEmpty(symbols[at[j]..]) == [segs[j]] + NonEmpty(symbols[End(word, at, j)..])
  {
    assert Node(at, segs, symbols, next, prev, j) && Segment(word, at, segs, j);
    var a, b := at[j], End(word, at, j);
    assert symbols[a..][1..] == symbols[a + 1..];
    forall i | a < i < b ensures symbols[i] == "" {
      BetweenIsDead(word, at, segs, j, i);
    }
    SkipEmpty(symbols, a + 1, b);
  }

  /** Filtering out the merged-away symbols leaves the live ones, in order. */
  lemma {:induction false} NonEmptyAreLive(word: string, at: seq<nat>, segs: seq<string>, symbols: seq<string>,
                                           next: seq<int>, prev: seq<int>, j: nat)
    requires Cuts(word, at, segs) && Linked(word, at, segs, symbols, next, prev) && j <= |at|
    ensures NonEmpty(symbols[if j < |at| then at[j] else |word|..]) == segs[j..]
    decreases |at| - j
  {
    if j < |at| {
      OneLive(word, at, segs, symbols, next, prev, j);
      NonEmptyAreLive(word, at, segs, symbols, next, prev, j + 1);
    }
  }

  lemma BetweenIsDead(word: string, at: seq<nat>, segs: seq<string>, j: nat, i: nat)
    requires Cuts(word, at, segs) && j < |at| && at[j] < i < End(word, at, j)
    ensures i !in at
  {
    forall k | 0 <= k < |at| ensures at[k] != i {
      if k > j + 1 {
        assert at[j + 1] < at[k];
      }
    }
  }

  /** The list surgery of one merge: `left` takes the text and skips over `right`. */
  method Splice(symbols: array<string>, next: array<int>, prev: array<int>, left: nat, right: nat, text: string)
    requires left < right < symbols.Length == next.Length == prev.Length && next != prev
    requires next[right] < symbols.Length
    modifies symbols, next, prev
    ensures symbols[..] == old(symbols[..])[left := text][right := ""]
    ensures next[..] == old(next[..])[left := old(next[right])]
    ensures prev[..] == if old(next[right]) >= 0 then old(prev[..])[old(next[right]) := left] else old(prev[..])
  {
    symbols[left] := text;
    symbols[right] := "";
    next[left] := next[right];
    if next[right] >= 0 {
      prev[next[right]] := left;
    }
  }

  /** One symbol per character, each linked to its neighbours. */
  method Build(word: string) returns (symbols: array<string>, next: array<int>, prev: array<int>, ghost at: seq<nat>)
    ensures fresh(symbols) && fresh(next) && fresh(prev) && next != prev
    ensures Cuts(word, at, Chars(word)) && Linked(word, at, Chars(word), symbols[..], next[..], prev[..])
    ensures |at| == |word| && forall i | 0 <= i < |at| :: at[i] == i
  {
    var n := |word|;
    symbols := new string[n](i requires 0 <= i < n => [word[i]]);
    next := new int[n]((i: int) => if i + 1 == n then -1 else i + 1);
    prev := new int[n]((i: int) => i - 1);
    at := Initially(word, symbols[..], next[..], prev[..]);
  }

  method Seed(ranks: RankTable, word: string, symbols: array<string>, next: array<int>, prev: array<int>,
              ghost at: seq<nat>, ghost segs: seq<string>)
      returns (queue: multiset<Entry>)
    requires Cuts(word, at, segs) && Linked(word, at, segs, symbols[..], next[..], prev[..])
    requires |at| == |word| && forall i | 0 <= i < |at| :: at[i] == i
    ensures AllSound(ranks, word, at, queue) && Complete(ranks, at, segs, queue)
  {
    queue := multiset{};
    var i := 1;
    while i < |word|
      invariant 1 <= i && (|word| > 0 ==> i <= |word|)
      invariant AllSound(ranks, word, at, queue)
      invariant SeededTo(ranks, at, segs, queue, i - 1)
    {
      FreshCandidate(ranks, word, at, segs, symbols[..], next[..], prev[..], i - 1);
      ghost var before := queue;
      queue := Push(ranks, queue, symbols, i - 1, i);
      SeededOneMore(ranks, at, segs, before, queue, i - 1);
      i := i + 1;
    }
    assert SeededTo(ranks, at, segs, queue, |word|);
  }

  /** The ranked pairs before position `k` are queued. */
  ghost predicate SeededTo(ranks: RankTable, at: seq<nat>, segs: seq<string>, queue: multiset<Entry>, k: nat)
    requires |at| == |segs|
  {
    forall j: nat | j < k && Ranked(ranks, segs, j) :: Candidate(ranks, at, segs, j) in queue
  }

  lemma SeededOneMore(ranks: RankTable, at: seq<nat>, segs: seq<string>, a: multiset<Entry>, b: multiset<Entry>, k: nat)
    requires |at| == |segs| && SeededTo(ranks, at, segs, a, k) && a <= b
    requires Ranked(ranks, segs, k) ==> Candidate(ranks, at, segs, k) in b
    ensures SeededTo(ranks, at, segs, b, k + 1)
  {
    forall j: nat | j < k + 1 && Ranked(ranks, segs, j) ensures Candidate(ranks, at, segs, j) in b {
      if j < k { assert Candidate(ranks, at, segs, j) in a; }
    }
  }

  /** Merge the pair `e`, which is adjacent now, and queue the pairs it makes. */
  method MergePair(ranks: RankTable, word: string, symbols: array<string>, next: array<int>, prev: array<int>,
                   e: Entry, rest: multiset<Entry>, ghost at: seq<nat>, ghost segs: seq<string>, ghost j: nat)
      returns (queue: multiset<Entry>)
    requires next != prev && Cuts(word, at, segs) && Linked(word, at, segs, symbols[..], next[..], prev[..])
    requires Ranked(ranks, segs, j) && e == Candidate(ranks, at, segs, j)
    requires Complete(ranks, at, segs, rest + multiset{e}) && AllSound(ranks, word, at, rest + multiset{e})
    modifies symbols, next, prev
    ensures Cuts(word, Without(at, j + 1), Fuse(segs, j))
    ensures Linked(word, Without(at, j + 1), Fuse(segs, j), symbols[..], next[..], prev[..])
    ensures AllSound(ranks, word, Without(at, j + 1), queue)
            && Complete(ranks, Without(at, j + 1), Fuse(segs, j), queue)
  {
    var left, right := e.left, e.right;
    assert Node(at, segs, symbols[..], next[..], prev[..], j + 1);
    ghost var symbols0, next0, prev0 := symbols[..], next[..], prev[..];
    Splice(symbols, next, prev, left, right, e.text);
    Relinked(word, at, segs, symbols0, next0, prev0, j, symbols[..], next[..], prev[..]);
    assert Without(at, j + 1)[j] == left;
    TwoPushes(ranks, word, Without(at, j + 1), Fuse(segs, j), symbols[..], next[..], prev[..], j);
    queue := Push(ranks, rest, symbols, prev[left], left);
    queue := Push(ranks, queue, symbols, left, next[left]);
    assert rest + multiset{e} - multiset{e} == rest;
    PushedAfterMerge(ranks, word, at, segs, rest + multiset{e}, j,
                     Pushed(ranks, symbols[..], prev[left], left), Pushed(ranks, symbols[..], left, next[left]));
  }

  /** A popped pair that is still there is the best one, so merging it is the naive rule's next step. */
  method MergeBest(ranks: RankTable, word: string, symbols: array<string>, next: array<int>, prev: array<int>,
                   e: Entry, rest: multiset<Entry>, ghost at: seq<nat>, ghost segs: seq<string>)
      returns (queue: multiset<Entry>, ghost at': seq<nat>, ghost segs': seq<string>)
    requires next != prev && Cuts(word, at, segs) && Linked(word, at, segs, symbols[..], next[..], prev[..])
    requires Complete(ranks, at, segs, rest + multiset{e}) && AllSound(ranks, word, at, rest + multiset{e})
    requires First(rest + multiset{e}, e) && Sound(ranks, word, at, e) && Fresh(symbols[..], e)
    modifies symbols, next, prev
    ensures Cuts(word, at', segs') && Linked(word, at', segs', symbols[..], next[..], prev[..])
    ensures AllSound(ranks, word, at', queue) && Complete(ranks, at', segs', queue)
    ensures Naive(ranks, segs') == Naive(ranks, segs) && |segs'| < |segs|
  {
    ghost var j := LengthTestSuffices(ranks, word, at, segs, symbols[..], next[..], prev[..], e);
    BestIsPopped(ranks, at, segs, rest + multiset{e}, e, j);
    BestIsTaken(ranks, segs, j);
    queue := MergePair(ranks, word, symbols, next, prev, e, rest, at, segs, j);
    at', segs' := Without(at, j + 1), Fuse(segs, j);
  }

  /** The source's five tests; the length test is the one that decides. */
  method Stale(ranks: RankTable, word: string, symbols: array<string>, next: array<int>, prev: array<int>, e: Entry,
               ghost at: seq<nat>, ghost segs: seq<string>)
      returns (stale: bool)
    requires Cuts(word, at, segs) && Linked(word, at, segs, symbols[..], next[..], prev[..])
             && Sound(ranks, word, at, e)
    ensures stale == !Fresh(symbols[..], e)
  {
    stale := || symbols[e.left] == "" || symbols[e.right] == ""
             || Len(symbols[e.left]) + Len(symbols[e.right]) != Len(e.text)
             || !StartsWith(e.text, symbols[e.left]) || !EndsWith(e.text, symbols[e.right]);
    if Fresh(symbols[..], e) {
      ghost var _ := LengthTestSuffices(ranks, word, at, segs, symbols[..], next[..], prev[..], e);
    }
  }

  method MergeWord(ranks: RankTable, word: string) returns (out: seq<string>)
    ensures out == Naive(ranks, Chars(word))
  {
    var symbols, next, prev, at := Build(word);
    ghost var segs := Chars(word);
    var queue := Seed(ranks, word, symbols, next, prev, at, segs);

    while queue != multiset{}
      invariant Cuts(word, at, segs) && Linked(word, at, segs, symbols[..], next[..], prev[..])
      invariant AllSound(ranks, word, at, queue) && Complete(ranks, at, segs, queue)
      invariant Naive(ranks, segs) == Naive(ranks, Chars(word))
      decreases |segs|, |queue|
    {
      var e, rest := Pop(queue);
      assert Sound(ranks, word, at, e);
      var stale := Stale(ranks, word, symbols, next, prev, e, at, segs);
      if stale {
        StaleIsDropped(ranks, word, at, segs, symbols[..], next[..], prev[..], queue, e);
        queue := rest;
      } else {
        assert rest + multiset{e} == queue;
        queue, at, segs := MergeBest(ranks, word, symbols, next, prev, e, rest, at, segs);
      }
    }
    NoneLeft(ranks, at, segs);
    NonEmptyAreLive(word, at, segs, symbols[..], next[..], prev[..], 0);
    out := NonEmpty(symbols[..]);
  }
}
