/** Two vocabularies with every byte token, and a text of six bytes that comes back as one. */
module ByteSpelling {
  import opened Text
  import opened Merge
  import opened Partition
  import opened Vocabulary
  import opened Tokenize

  function ByteNames(): seq<string> {
    seq(256, b requires 0 <= b < 256 => ByteName(b))
  }

  function ByLast(tokens: seq<string>): map<string, nat> {
    map t | t in tokens :: LastIndex(tokens, t).value
  }

  /** Nothing but byte tokens, with these merges and these split tokens. */
  function Bytes(ranks: RankTable, specials: seq<Special>): Bpe {
    Bpe(ByteNames(), ByLast(ByteNames()), ranks, seq(256, b requires 0 <= b < 256 => Some(b)), specials)
  }

  lemma NameOfByte(b: Byte)
    ensures ByteName(b) in ByLast(ByteNames()) && ByLast(ByteNames())[ByteName(b)] == b
  {
    assert ByteNames()[b] == ByteName(b);
    var k := LastIndex(ByteNames(), ByteName(b)).value;
    ByteNamesDiffer(k, b);
  }

  lemma BytesBuilt(ranks: RankTable, specials: seq<Special>)
    requires forall sp | sp in specials :: exists b: Byte :: sp == Special(ByteName(b), b)
    ensures Built(Bytes(ranks, specials)) && AllBytes(Bytes(ranks, specials))
  {
    forall b: Byte ensures ByteName(b) in ByLast(ByteNames()) && ByLast(ByteNames())[ByteName(b)] == b {
      NameOfByte(b);
    }
  }

  /** The byte token of `A`. */
  function A(): string { "<0x41>" }

  lemma AIsByte()
    ensures A() == ByteName(65)
  {
    assert ByteName(65) == "<0x" + ['4', '1'] + ">";
  }

  lemma OneByte(bpe: Bpe)
    requires Built(bpe) && AllBytes(bpe) && bpe.bytes[65] == Some(65)
    ensures Decode(bpe, [65]) == [65] && |Utf8(A())| > 1
  {
    ByteTokenMeans(bpe, 65);
    assert Decode(bpe, [65]) == [65] + Decode(bpe, []);
    LongerThanOneByte(A());
  }

  // -- A special -----------------------------------------------------------------------------

  /** A text that is a special is split out whole. */
  lemma WholeIsSplitOut(text: string, id: nat)
    requires text != ""
    ensures Partitioned(text, [Special(text, id)]) == [Known(id)]
  {
    var sp := Special(text, id);
    assert text[|text|..] == "" && text[..|text|] == text;
    assert Pieces(text, "", text) == [""] + [""];
    assert ([""] + [""])[1..] == [""];
    assert Contains(text, text) && SplitStr(text, text) == [""] + [""];
    assert Interleave([""], id) == [];
    assert Interleave([""] + [""], id) == [] + [Known(id)] + [];
    assert SplitOne(Raw(text), sp) == [Known(id)];
    assert SplitBy([Raw(text)], sp) == [Known(id)] + SplitBy([], sp);
    assert SplitAll([Raw(text)], [sp]) == SplitAll(SplitBy([Raw(text)], sp), []);
  }

  lemma OneKnown(bpe: Bpe, id: nat)
    requires |bpe.bytes| == 256 && id < |bpe.tokens|
    ensures EncodesAll(bpe, [Known(id)], [id]) && Visible(bpe, [Known(id)]) == bpe.tokens[id]
  {
    assert [[id]][1..] == [] && [Known(id)][1..] == [];
    assert EncodesParts(bpe, [Known(id)], [[id]]) && Concat([[id]]) == [id];
  }

  /** A byte token that is split out as a special comes back as its byte. */
  lemma SpecialLosesBytes()
    ensures exists bpe, ids :: Built(bpe) && AllBytes(bpe) && bpe.ranks == map[]
              && EncodesAll(bpe, Partitioned(A(), bpe.specials), ids)
              && Visible(bpe, Partitioned(A(), bpe.specials)) == A() && Decode(bpe, ids) == [65] != Utf8(A())
  {
    AIsByte();
    var bpe := Bytes(map[], [Special(A(), 65)]);
    BytesBuilt(map[], [Special(A(), 65)]);
    OneByte(bpe);
    WholeIsSplitOut(A(), 65);
    OneKnown(bpe, 65);
    assert bpe.tokens[65] == A();
  }

  // -- A merged symbol -------------------------------------------------------------------------

  function Key(k: nat): string
    requires 1 <= k < 6
  {
    A()[..k] + "\0" + [A()[k]]
  }

  /** Each merge takes one more character to what the word begins with. */
  function Growing(): RankTable {
    map[Key(1) := 0, Key(2) := 1, Key(3) := 2, Key(4) := 3, Key(5) := 4]
  }

  function Grown(k: nat): seq<string>
    requires 1 <= k <= 6
  {
    [A()[..k]] + Chars(A()[k..])
  }

  lemma OnlyTheFirstPair(k: nat)
    requires 1 <= k < 6
    ensures Best(Growing(), Grown(k), 0)
  {
    assert Grown(k)[1] == [A()[k]];
    assert A()[..k] + "\0" + [A()[k]] == Key(k);
    forall j: nat | Ranked(Growing(), Grown(k), j) ensures j == 0 {
      if j > 0 {
        LaterPairsHaveNoRank(k, j);
      }
    }
  }

  lemma LaterPairsHaveNoRank(k: nat, j: nat)
    requires 1 <= k < 6 && j > 0
    ensures !Ranked(Growing(), Grown(k), j)
  {
    if j + 1 < |Grown(k)| {
      assert Grown(k)[j] == [A()[k + j - 1]] && Grown(k)[j + 1] == [A()[k + j]];
      var key := [A()[k + j - 1]] + "\0" + [A()[k + j]];
      assert |key| == 3 && key[0] != '<';
      forall m: nat | 1 <= m < 6 ensures key != Key(m) {
        assert Key(m)[0] == '<';
      }
    }
  }

  lemma GrowsByOne(k: nat)
    requires 1 <= k < 6
    ensures Naive(Growing(), Grown(k)) == Naive(Growing(), Grown(k + 1))
  {
    OnlyTheFirstPair(k);
    BestIsTaken(Growing(), Grown(k), 0);
    assert Fuse(Grown(k), 0) == Grown(k + 1) by {
      assert A()[..k] + [A()[k]] == A()[..k + 1];
      assert Chars(A()[k..])[1..] == Chars(A()[k + 1..]);
    }
  }

  lemma GrowsWhole()
    ensures Naive(Growing(), Chars(A())) == [A()]
  {
    assert A()[..1] == [A()[0]] && A()[..6] == A();
    assert forall i | 0 <= i < 6 :: Grown(1)[i] == Chars(A())[i];
    assert Grown(1) == Chars(A()) && Grown(6) == [A()];
    GrowsByOne(1);
    GrowsByOne(2);
    GrowsByOne(3);
    GrowsByOne(4);
    GrowsByOne(5);
  }

  lemma AIsOneWord()
    ensures WordsOf(Underlined(A()), [A()])
  {
    assert Underlined(A()) == A();
    JoinOne(A());
  }

  lemma OneSymbol(bpe: Bpe)
    requires |bpe.bytes| == 256 && bpe.ranks == Growing() && A() in bpe.ids
    ensures AllSymbols(bpe, [A()]) == [A()] && EmitAll(bpe, [A()]) == [bpe.ids[A()]]
  {
    GrowsWhole();
    assert [A()][..0] == [];
    assert AllSymbols(bpe, [A()]) == [] + SymbolsOf(bpe, A());
    EmitOne(bpe, A());
  }

  lemma OneRaw(bpe: Bpe, ids: seq<nat>)
    requires |bpe.bytes| == 256 && Encodes(bpe, Raw(A()), ids)
    ensures EncodesAll(bpe, [Raw(A())], ids) && Visible(bpe, [Raw(A())]) == A()
  {
    assert [ids][1..] == [] && [Raw(A())][1..] == [];
    assert EncodesParts(bpe, [Raw(A())], [ids]) && Concat([ids]) == ids;
    assert Underlined(A()) == A();
  }

  /** So does a text whose characters merge into the spelling of a byte token, with no special at all. */
  lemma MergesLoseBytes()
    ensures exists bpe, ids :: Built(bpe) && AllBytes(bpe) && bpe.specials == []
              && EncodesAll(bpe, Partitioned(A(), bpe.specials), ids)
              && Visible(bpe, Partitioned(A(), bpe.specials)) == A() && Decode(bpe, ids) == [65] != Utf8(A())
  {
    AIsByte();
    var bpe := Bytes(Growing(), []);
    BytesBuilt(Growing(), []);
    NameOfByte(65);
    OneByte(bpe);
    OneSymbol(bpe);
    AIsOneWord();
    OneRaw(bpe, [65]);
    assert Partitioned(A(), []) == [Raw(A())];
  }

  /** Without those merges the very same text keeps all its bytes. */
  lemma UnmergedKeepsBytes(ids: seq<nat>)
    requires EncodesAll(Bytes(map[], []), Partitioned(A(), []), ids)
    ensures Decode(Bytes(map[], []), ids) == Utf8(A())
  {
    var bpe := Bytes(map[], []);
    BytesBuilt(map[], []);
    NothingMerges();
    AIsOneWord();
    forall ws | WordsOf(Underlined(A()), ws) ensures SymbolsSpellNoByte(bpe, ws) {
      WordsAreUnique(Underlined(A()), ws, [A()]);
      assert [A()][..0] == [];
      assert AllSymbols(bpe, [A()]) == [] + SymbolsOf(bpe, A());
    }
    assert Partitioned(A(), []) == [Raw(A())];
    assert Visible(bpe, [Raw(A())]) == Underlined(A()) + Visible(bpe, []);
    assert Underlined(A()) == A();
    EncodingIsLossless(bpe, A(), ids);
  }

  lemma NothingMerges()
    ensures Naive(map[], Chars(A())) == Chars(A()) && forall s | s in Chars(A()) :: !NamesByte(s)
  {
  }
}
