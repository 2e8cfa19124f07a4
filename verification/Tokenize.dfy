/** Encoding a text (`words`, `tokenize`, `encode_into`), and what survives of it in the ids. */
module Tokenize {
  import opened Text
  import opened Merge
  import opened Partition
  import opened Vocabulary

  // -- Words ----------------------------------------------------------------------

  ghost predicate Uniform(word: string) {
    word != "" && forall i | 0 <= i < |word| :: (word[i] == '\n') == (word[0] == '\n')
  }

  predicate Turns(left: string, right: string) {
    left != "" && right != "" && (left[0] == '\n') != (right[0] == '\n')
  }

  /** Runs of newlines and runs of anything else, each as long as it can be, in order. */
  ghost predicate WordsOf(text: string, ws: seq<string>) {
    && Join(ws) == text
    && (forall w | w in ws :: Uniform(w))
    && (forall i, j | 0 <= i < j < |ws| && j == i + 1 :: Turns(ws[i], ws[j]))
  }

  /** The first word is the whole first run. */
  lemma {:induction false} FirstRun(text: string, ws: seq<string>)
    requires WordsOf(text, ws)
    ensures text == "" <==> ws == []
    ensures ws != [] ==>
              && 0 < |ws[0]| <= |text| && ws[0] == text[..|ws[0]|]
              && (forall i | 0 <= i < |ws[0]| :: (text[i] == '\n') == (text[0] == '\n'))
              && (|ws[0]| < |text| ==> (text[|ws[0]|] == '\n') != (text[0] == '\n'))
              && WordsOf(text[|ws[0]|..], ws[1..])
  {
    if ws != [] {
      assert ws[0] in ws && Uniform(ws[0]);
      assert ws[0] == text[..|ws[0]|] && Join(ws[1..]) == text[|ws[0]|..];
      assert forall w | w in ws[1..] :: w in ws;
      if |ws| > 1 {
        assert Turns(ws[0], ws[1]);
        assert text[|ws[0]|] == ws[1][0];
      }
    }
  }

  /** The split is fully determined by its three properties. */
  lemma {:induction false} WordsAreUnique(text: string, a: seq<string>, b: seq<string>)
    requires WordsOf(text, a) && WordsOf(text, b)
    ensures a == b
    decreases |text|
  {
    FirstRun(text, a);
    FirstRun(text, b);
    if text != "" {
      var n := |a[0]|;
      assert |b[0]| == n;
      WordsAreUnique(text[n..], a[1..], b[1..]);
      assert a == [a[0]] + a[1..] && b == [b[0]] + b[1..];
    }
  }

  method Words(text: string) returns (out: seq<string>)
    ensures WordsOf(text, out)
  {
    out := [];
    var start := 0;
    for i := 1 to |text| + 1
      invariant 0 <= start <= i - 1 || (start == 0 && i == 1)
      invariant start <= |text|
      invariant i <= |text| ==> start < i
      invariant WordsOf(text[..start], out)
      invariant forall k | start <= k < i && k < |text| :: (text[k] == '\n') == (text[start] == '\n')
      invariant out != [] && start < |text| ==> Turns(out[|out| - 1], text[start..])
      invariant i == |text| + 1 ==> start == |text|
    {
      if i == |text| || (text[i] == '\n') != (text[start] == '\n') {
        if start < i {
          OneMoreWord(text, out, start, i);
          out := out + [text[start..i]];
        }
        start := i;
      }
    }
    assert text[..|text|] == text;
  }

  lemma {:induction false} OneMoreWord(text: string, out: seq<string>, start: nat, i: nat)
    requires start < i <= |text| && WordsOf(text[..start], out)
    requires forall k | start <= k < i :: (text[k] == '\n') == (text[start] == '\n')
    requires out != [] ==> Turns(out[|out| - 1], text[start..])
    ensures WordsOf(text[..i], out + [text[start..i]])
  {
    var word := text[start..i];
    JoinConcat(out, [word]);
    JoinOne(word);
    assert text[..i] == text[..start] + word;
    assert Uniform(word);
    var more := out + [word];
    forall k, m | 0 <= k < m < |more| && m == k + 1
      ensures Turns(more[k], more[m])
    {
      if m == |out| {
        assert more[k] == out[k] && more[m] == word;
      } else {
        assert more[k] == out[k] && more[m] == out[m];
      }
    }
  }

  // -- Emission ---------------------------------------------------------------------

  datatype Bpe = Bpe(tokens: seq<string>, ids: map<string, nat>, ranks: RankTable, bytes: seq<Option<nat>>,
                     specials: seq<Special>)

  function Hex(d: nat): char
    requires d < 16
  {
    if d < 10 then '0' + d as char else 'A' + (d - 10) as char
  }

  /** How a byte token is written: `<0x0A>`. */
  function ByteName(b: Byte): string {
    "<0x" + [Hex(b / 16), Hex(b % 16)] + ">"
  }

  /** The tables agree with the token list, as `build` makes them. */
  ghost predicate Built(bpe: Bpe) {
    && Ids(bpe.tokens, bpe.ids)
    && |bpe.bytes| == 256
    && (forall b: Byte :: bpe.bytes[b] == if ByteName(b) in bpe.ids then Some(bpe.ids[ByteName(b)]) else None)
    && (forall sp | sp in bpe.specials :: sp.text in bpe.ids && sp.id == bpe.ids[sp.text])
  }

  function ByteIds(bytes: seq<Option<nat>>, bs: seq<Byte>): seq<nat>
    requires |bytes| == 256
  {
    if bs == [] then []
    else (match bytes[bs[0]] case Some(id) => [id] case None => []) + ByteIds(bytes, bs[1..])
  }

  function Emit(bpe: Bpe, symbol: string): seq<nat>
    requires |bpe.bytes| == 256
  {
    if symbol in bpe.ids then [bpe.ids[symbol]] else ByteIds(bpe.bytes, Utf8(symbol))
  }

  function EmitAll(bpe: Bpe, symbols: seq<string>): seq<nat>
    requires |bpe.bytes| == 256
  {
    if symbols == [] then [] else Emit(bpe, symbols[0]) + EmitAll(bpe, symbols[1..])
  }

  /** The symbols a word is emitted as: itself if it is a known run of newlines, else its merge. */
  ghost function SymbolsOf(bpe: Bpe, word: string): seq<string> {
    if word != "" && word[0] == '\n' && word in bpe.ids then [word] else Naive(bpe.ranks, Chars(word))
  }

  ghost function AllSymbols(bpe: Bpe, ws: seq<string>): seq<string> {
    if ws == [] then [] else AllSymbols(bpe, ws[..|ws| - 1]) + SymbolsOf(bpe, ws[|ws| - 1])
  }

  lemma {:induction false} EmitConcat(bpe: Bpe, a: seq<string>, b: seq<string>)
    requires |bpe.bytes| == 256
    ensures EmitAll(bpe, a + b) == EmitAll(bpe, a) + EmitAll(bpe, b)
  {
    if a == [] {
      assert a + b == b;
    } else {
      assert (a + b)[0] == a[0] && (a + b)[1..] == a[1..] + b;
      EmitConcat(bpe, a[1..], b);
    }
  }

  lemma EmitOne(bpe: Bpe, symbol: string)
    requires |bpe.bytes| == 256
    ensures EmitAll(bpe, [symbol]) == Emit(bpe, symbol)
  {
    assert [symbol][1..] == [];
  }

  method EmitSymbols(bpe: Bpe, symbols: seq<string>) returns (out: seq<nat>)
    requires |bpe.bytes| == 256
    ensures out == EmitAll(bpe, symbols)
  {
    out := [];
    for i := 0 to |symbols|
      invariant out == EmitAll(bpe, symbols[..i])
    {
      assert symbols[..i + 1] == symbols[..i] + [symbols[i]];
      EmitConcat(bpe, symbols[..i], [symbols[i]]);
      EmitOne(bpe, symbols[i]);
      if symbols[i] in bpe.ids {
        out := out + [bpe.ids[symbols[i]]];
      } else {
        out := out + ByteIds(bpe.bytes, Utf8(symbols[i]));
      }
    }
    assert symbols[..|symbols|] == symbols;
  }

  /** `tokenize`: the ids of the words of a text. */
  method TokenizeText(bpe: Bpe, text: string) returns (out: seq<nat>, ghost ws: seq<string>)
    requires |bpe.bytes| == 256
    ensures WordsOf(text, ws) && out == EmitAll(bpe, AllSymbols(bpe, ws))
  {
    out := [];
    var split := Words(text);
    ws := split;
    for i := 0 to |split|
      invariant out == EmitAll(bpe, AllSymbols(bpe, split[..i]))
    {
      var word := split[i];
      assert split[..i + 1][..i] == split[..i];
      assert word in split && Uniform(word);
      EmitConcat(bpe, AllSymbols(bpe, split[..i]), SymbolsOf(bpe, word));
      if word[0] == '\n' && word in bpe.ids {
        out := out + [bpe.ids[word]];
        EmitOne(bpe, word);
      } else {
        var symbols := MergeWord(bpe.ranks, word);
        var ids := EmitSymbols(bpe, symbols);
        out := out + ids;
      }
    }
    assert split[..|split|] == split;
  }

  // -- Nothing is lost --------------------------------------------------------------

  lemma {:induction false} JoinChars(word: string)
    ensures Join(Chars(word)) == word
    decreases |word|
  {
    if word != "" {
      JoinChars(word[1..]);
      assert Chars(word)[1..] == Chars(word[1..]);
      assert word == [word[0]] + word[1..];
    }
  }

  /** The emitted symbols spell the text, whatever the ranks are. */
  lemma {:induction false} SymbolsSpellText(bpe: Bpe, ws: seq<string>)
    ensures Join(AllSymbols(bpe, ws)) == Join(ws)
    decreases |ws|
  {
    if ws != [] {
      var init, word := ws[..|ws| - 1], ws[|ws| - 1];
      SymbolsSpellText(bpe, init);
      JoinConcat(AllSymbols(bpe, init), SymbolsOf(bpe, word));
      assert ws == init + [word];
      JoinConcat(init, [word]);
      JoinOne(word);
      NaiveKeepsText(bpe.ranks, Chars(word));
      JoinChars(word);
    }
  }

  /** What an id stands for: a byte if it is a byte token, else its token's text. */
  ghost function Meaning(bpe: Bpe, id: nat): seq<Byte>
    requires |bpe.bytes| == 256
  {
    if b: Byte :| bpe.bytes[b] == Some(id) then [b]
    else if id < |bpe.tokens| then Utf8(bpe.tokens[id]) else []
  }

  ghost function Decode(bpe: Bpe, ids: seq<nat>): seq<Byte>
    requires |bpe.bytes| == 256
  {
    if ids == [] then [] else Meaning(bpe, ids[0]) + Decode(bpe, ids[1..])
  }

  lemma {:induction false} DecodeConcat(bpe: Bpe, a: seq<nat>, b: seq<nat>)
    requires |bpe.bytes| == 256
    ensures Decode(bpe, a + b) == Decode(bpe, a) + Decode(bpe, b)
  {
    if a == [] {
      assert a + b == b;
    } else {
      assert (a + b)[0] == a[0] && (a + b)[1..] == a[1..] + b;
      DecodeConcat(bpe, a[1..], b);
    }
  }

  ghost predicate AllBytes(bpe: Bpe)
    requires |bpe.bytes| == 256
  {
    forall b: Byte :: bpe.bytes[b].Some?
  }

  predicate NamesByte(symbol: string) {
    exists b: Byte :: symbol == ByteName(b)
  }

  lemma ByteNamesDiffer(a: Byte, b: Byte)
    requires ByteName(a) == ByteName(b)
    ensures a == b
  {
    var x, y := ByteName(a), ByteName(b);
    assert x[3] == Hex(a / 16) && x[4] == Hex(a % 16) && y[3] == Hex(b / 16) && y[4] == Hex(b % 16);
    HexDiffers(a / 16, b / 16);
    HexDiffers(a % 16, b % 16);
  }

  lemma HexDiffers(a: nat, b: nat)
    requires a < 16 && b < 16
    ensures Hex(a) == Hex(b) ==> a == b
  {
  }

  lemma TokenOfId(bpe: Bpe, symbol: string)
    requires Built(bpe) && symbol in bpe.ids
    ensures bpe.ids[symbol] < |bpe.tokens| && bpe.tokens[bpe.ids[symbol]] == symbol
  {
    assert LastIndex(bpe.tokens, symbol) == Some(bpe.ids[symbol]);
  }

  lemma ByteTokenMeans(bpe: Bpe, b: Byte)
    requires Built(bpe) && bpe.bytes[b].Some?
    ensures Meaning(bpe, bpe.bytes[b].value) == [b]
  {
    var id := bpe.bytes[b].value;
    var c: Byte :| bpe.bytes[c] == Some(id) && Meaning(bpe, id) == [c];
    TokenOfId(bpe, ByteName(b));
    TokenOfId(bpe, ByteName(c));
    ByteNamesDiffer(b, c);
  }

  lemma {:induction false} ByteIdsDecode(bpe: Bpe, bs: seq<Byte>)
    requires Built(bpe) && AllBytes(bpe)
    ensures Decode(bpe, ByteIds(bpe.bytes, bs)) == bs
  {
    if bs != [] {
      assert bpe.bytes[bs[0]].Some?;
      ByteTokenMeans(bpe, bs[0]);
      ByteIdsDecode(bpe, bs[1..]);
      var id, rest := bpe.bytes[bs[0]].value, ByteIds(bpe.bytes, bs[1..]);
      assert ByteIds(bpe.bytes, bs) == [id] + rest;
      assert ([id] + rest)[1..] == rest;
    }
  }

  /** A symbol decodes to its own bytes; one that is spelled like a byte token is that byte. */
  lemma {:induction false} EmitDecodes(bpe: Bpe, symbol: string)
    requires Built(bpe) && AllBytes(bpe)
    ensures Decode(bpe, Emit(bpe, symbol)) == Utf8(symbol) <==> !NamesByte(symbol)
  {
    if b: Byte :| symbol == ByteName(b) {
      assert bpe.bytes[b].Some?;
    }
    if symbol in bpe.ids {
      var id := bpe.ids[symbol];
      TokenOfId(bpe, symbol);
      assert Decode(bpe, [id]) == Meaning(bpe, id) + Decode(bpe, []);
      if b: Byte :| symbol == ByteName(b) {
        assert bpe.bytes[b] == Some(id);
        ByteTokenMeans(bpe, b);
        LongerThanOneByte(symbol);
      } else {
        if c: Byte :| bpe.bytes[c] == Some(id) {
          TokenOfId(bpe, ByteName(c));
          assert false;
        }
      }
    } else {
      ByteIdsDecode(bpe, Utf8(symbol));
    }
  }

  lemma {:induction false} LongerThanOneByte(s: string)
    requires |s| > 1
    ensures |Utf8(s)| > 1
  {
    LenConcat([s[0]], s[1..]);
    LenConcat("", s[1..]);
    LenConcat("", [s[0]]);
    assert [s[0]] + s[1..] == s && "" + s[1..] == s[1..] && "" + [s[0]] == [s[0]];
  }

  /** What a symbol decodes to is never longer than the symbol, and shorter if it is spelled like a byte token. */
  lemma {:induction false} EmitShrinks(bpe: Bpe, symbol: string)
    requires Built(bpe) && AllBytes(bpe)
    ensures |Decode(bpe, Emit(bpe, symbol))| <= |Utf8(symbol)|
    ensures NamesByte(symbol) ==> |Decode(bpe, Emit(bpe, symbol))| < |Utf8(symbol)|
  {
    EmitDecodes(bpe, symbol);
    if b: Byte :| symbol == ByteName(b) {
      assert bpe.bytes[b].Some?;
      ByteTokenMeans(bpe, b);
      assert Decode(bpe, Emit(bpe, symbol)) == [b] + Decode(bpe, []);
      LongerThanOneByte(symbol);
    }
  }

  /** The same of a list of symbols. */
  lemma {:induction false} EmissionShrinks(bpe: Bpe, symbols: seq<string>)
    requires Built(bpe) && AllBytes(bpe)
    ensures |Decode(bpe, EmitAll(bpe, symbols))| <= |Utf8(Join(symbols))|
    ensures (exists s | s in symbols :: NamesByte(s)) ==> |Decode(bpe, EmitAll(bpe, symbols))| < |Utf8(Join(symbols))|
  {
    if symbols != [] {
      EmissionShrinks(bpe, symbols[1..]);
      EmitShrinks(bpe, symbols[0]);
      DecodeConcat(bpe, Emit(bpe, symbols[0]), EmitAll(bpe, symbols[1..]));
      Utf8Concat(symbols[0], Join(symbols[1..]));
    }
  }

  lemma {:induction false} EmissionDecodes(bpe: Bpe, symbols: seq<string>)
    requires Built(bpe) && AllBytes(bpe) && forall s | s in symbols :: !NamesByte(s)
    ensures Decode(bpe, EmitAll(bpe, symbols)) == Utf8(Join(symbols))
  {
    if symbols != [] {
      assert symbols[0] in symbols && forall s | s in symbols[1..] :: s in symbols;
      EmissionDecodes(bpe, symbols[1..]);
      EmitDecodes(bpe, symbols[0]);
      DecodeConcat(bpe, Emit(bpe, symbols[0]), EmitAll(bpe, symbols[1..]));
      Utf8Concat(symbols[0], Join(symbols[1..]));
    }
  }

  /** No symbol of the words, once merged, is spelled like a byte token. */
  ghost predicate SymbolsSpellNoByte(bpe: Bpe, ws: seq<string>) {
    forall s | s in AllSymbols(bpe, ws) :: !NamesByte(s)
  }

  /** With every byte token present, no byte of a text is dropped, unless a symbol spells a byte token. */
  lemma {:induction false} TokenizationIsLossless(bpe: Bpe, text: string, ws: seq<string>)
    requires Built(bpe) && AllBytes(bpe) && WordsOf(text, ws)
    ensures Decode(bpe, EmitAll(bpe, AllSymbols(bpe, ws))) == Utf8(text) <==> SymbolsSpellNoByte(bpe, ws)
    ensures |Decode(bpe, EmitAll(bpe, AllSymbols(bpe, ws)))| <= |Utf8(text)|
    ensures !SymbolsSpellNoByte(bpe, ws) ==> |Decode(bpe, EmitAll(bpe, AllSymbols(bpe, ws)))| < |Utf8(text)|
  {
    SymbolsSpellText(bpe, ws);
    EmissionShrinks(bpe, AllSymbols(bpe, ws));
    if SymbolsSpellNoByte(bpe, ws) {
      EmissionDecodes(bpe, AllSymbols(bpe, ws));
    }
  }

  // -- Whole texts: specials first, then the rest -----------------------------------

  function SpellOf(bpe: Bpe, f: Fragment): string {
    match f
    case Raw(s) => s
    case Known(id) => if id < |bpe.tokens| then bpe.tokens[id] else ""
  }

  function Spell(bpe: Bpe, fs: seq<Fragment>): string {
    if fs == [] then "" else SpellOf(bpe, fs[0]) + Spell(bpe, fs[1..])
  }

  lemma {:induction false} SpellConcat(bpe: Bpe, a: seq<Fragment>, b: seq<Fragment>)
    ensures Spell(bpe, a + b) == Spell(bpe, a) + Spell(bpe, b)
  {
    if a == [] {
      assert a + b == b;
    } else {
      assert (a + b)[0] == a[0] && (a + b)[1..] == a[1..] + b;
      SpellConcat(bpe, a[1..], b);
    }
  }

  lemma {:induction false} SpellRaw(bpe: Bpe, s: string)
    ensures Spell(bpe, RawOf(s)) == s
  {
    if s != "" {
      assert Spell(bpe, [Raw(s)]) == s + "";
    }
  }

  /** Pieces with the special's text between them. */
  function Glue(pieces: seq<string>, text: string): string {
    if pieces == [] then "" else if |pieces| == 1 then pieces[0] else pieces[0] + text + Glue(pieces[1..], text)
  }

  lemma {:induction false} InterleaveSpells(bpe: Bpe, pieces: seq<string>, sp: Special)
    requires sp.id < |bpe.tokens| && bpe.tokens[sp.id] == sp.text
    ensures Spell(bpe, Interleave(pieces, sp.id)) == Glue(pieces, sp.text)
  {
    if pieces != [] {
      SpellRaw(bpe, pieces[0]);
      if |pieces| > 1 {
        InterleaveSpells(bpe, pieces[1..], sp);
        var rest := Interleave(pieces[1..], sp.id);
        SpellConcat(bpe, RawOf(pieces[0]) + [Known(sp.id)], rest);
        SpellConcat(bpe, RawOf(pieces[0]), [Known(sp.id)]);
        assert Spell(bpe, [Known(sp.id)]) == sp.text + "";
      }
    }
  }

  lemma {:induction false} PiecesGlue(pattern: string, acc: string, s: string)
    requires pattern != ""
    ensures Glue(Pieces(pattern, acc, s), pattern) == acc + s
    decreases |s|
  {
    if s != "" {
      if Prefix(pattern, s) {
        var rest := Pieces(pattern, "", s[|pattern|..]);
        PiecesGlue(pattern, "", s[|pattern|..]);
        assert ([acc] + rest)[1..] == rest;
        assert "" + s[|pattern|..] == s[|pattern|..];
        assert acc + pattern + s[|pattern|..] == acc + s;
      } else {
        PiecesGlue(pattern, acc + [s[0]], s[1..]);
        assert acc + [s[0]] + s[1..] == acc + s;
      }
    } else {
      assert acc + s == acc;
    }
  }

  lemma {:induction false} LettersGlue(s: string)
    ensures Glue(Letters(s), "") == s && Letters(s) != []
  {
    if s != "" {
      LettersGlue(s[1..]);
      var rest := Letters(s[1..]);
      assert ([[s[0]]] + rest)[1..] == rest;
      assert [s[0]] + "" + s[1..] == s;
    }
  }

  lemma {:induction false} SplitOneSpells(bpe: Bpe, f: Fragment, sp: Special)
    requires sp.id < |bpe.tokens| && bpe.tokens[sp.id] == sp.text
    ensures Spell(bpe, SplitOne(f, sp)) == SpellOf(bpe, f)
  {
    if f.Known? || !Contains(f.text, sp.text) {
      assert Spell(bpe, [f]) == SpellOf(bpe, f) + "";
    } else {
      InterleaveSpells(bpe, SplitStr(sp.text, f.text), sp);
      if sp.text == "" {
        LettersGlue(f.text);
        assert ([""] + Letters(f.text))[1..] == Letters(f.text);
        assert "" + "" + f.text == f.text;
      } else {
        PiecesGlue(sp.text, "", f.text);
        assert "" + f.text == f.text;
      }
    }
  }

  lemma {:induction false} SplitBySpells(bpe: Bpe, fs: seq<Fragment>, sp: Special)
    requires sp.id < |bpe.tokens| && bpe.tokens[sp.id] == sp.text
    ensures Spell(bpe, SplitBy(fs, sp)) == Spell(bpe, fs)
  {
    if fs != [] {
      SplitOneSpells(bpe, fs[0], sp);
      SplitBySpells(bpe, fs[1..], sp);
      SpellConcat(bpe, SplitOne(fs[0], sp), SplitBy(fs[1..], sp));
    }
  }

  /** Splitting out specials keeps the text: each fragment spells its own part of it. */
  lemma {:induction false} FragmentsSpellText(bpe: Bpe, fs: seq<Fragment>, specials: seq<Special>)
    requires forall sp | sp in specials :: sp.id < |bpe.tokens| && bpe.tokens[sp.id] == sp.text
    ensures Spell(bpe, SplitAll(fs, specials)) == Spell(bpe, fs)
    decreases |specials|
  {
    if specials != [] {
      assert specials[0] in specials && forall sp | sp in specials[1..] :: sp in specials;
      SplitBySpells(bpe, fs, specials[0]);
      FragmentsSpellText(bpe, SplitBy(fs, specials[0]), specials[1..]);
    }
  }

  /** `text.replace(' ', "▁")` */
  function Underlined(text: string): string {
    seq(|text|, i requires 0 <= i < |text| => if text[i] == ' ' then '▁' else text[i])
  }

  /** What the ids of a fragment decode to. */
  ghost predicate Encodes(bpe: Bpe, f: Fragment, ids: seq<nat>)
    requires |bpe.bytes| == 256
  {
    match f
    case Known(id) => ids == [id]
    case Raw(s) => exists ws :: WordsOf(Underlined(s), ws) && ids == EmitAll(bpe, AllSymbols(bpe, ws))
  }

  function Concat(parts: seq<seq<nat>>): seq<nat> {
    if parts == [] then [] else parts[0] + Concat(parts[1..])
  }

  lemma {:induction false} ConcatOneMore(parts: seq<seq<nat>>, ids: seq<nat>)
    ensures Concat(parts + [ids]) == Concat(parts) + ids
  {
    if parts == [] {
      assert parts + [ids] == [ids] && [ids][1..] == [];
    } else {
      assert (parts + [ids])[0] == parts[0] && (parts + [ids])[1..] == parts[1..] + [ids];
      ConcatOneMore(parts[1..], ids);
    }
  }

  /** Each part is what its fragment encodes to. */
  ghost predicate EncodesParts(bpe: Bpe, fs: seq<Fragment>, parts: seq<seq<nat>>)
    requires |bpe.bytes| == 256
  {
    |parts| == |fs| && forall i | 0 <= i < |fs| :: Encodes(bpe, fs[i], parts[i])
  }

  /** `ids` is what the fragments encode to, one after the other. */
  ghost predicate EncodesAll(bpe: Bpe, fs: seq<Fragment>, ids: seq<nat>)
    requires |bpe.bytes| == 256
  {
    exists parts :: EncodesParts(bpe, fs, parts) && ids == Concat(parts)
  }

  method EncodeInto(bpe: Bpe, text: string) returns (out: seq<nat>)
    requires Built(bpe)
    ensures EncodesAll(bpe, Partitioned(text, bpe.specials), out)
    ensures Spell(bpe, Partitioned(text, bpe.specials)) == text
  {
    var fragments := Partition.Partition(text, bpe.specials);
    PartitionSpells(bpe, text);
    out := [];
    ghost var parts := [];
    for i := 0 to |fragments|
      invariant |parts| == i && out == Concat(parts)
      invariant forall k | 0 <= k < i :: Encodes(bpe, fragments[k], parts[k])
    {
      var ids := EncodeFragment(bpe, fragments[i]);
      ConcatOneMore(parts, ids);
      out, parts := out + ids, parts + [ids];
    }
    assert EncodesParts(bpe, fragments, parts);
  }

  method EncodeFragment(bpe: Bpe, f: Fragment) returns (ids: seq<nat>)
    requires |bpe.bytes| == 256
    ensures Encodes(bpe, f, ids)
  {
    match f {
      case Known(id) => ids := [id];
      case Raw(s) =>
        ghost var ws: seq<string>;
        ids, ws := TokenizeText(bpe, Underlined(s));
    }
  }

  lemma PartitionSpells(bpe: Bpe, text: string)
    requires Built(bpe)
    ensures Spell(bpe, Partitioned(text, bpe.specials)) == text
  {
    forall sp | sp in bpe.specials ensures sp.id < |bpe.tokens| && bpe.tokens[sp.id] == sp.text {
      TokenOfId(bpe, sp.text);
    }
    FragmentsSpellText(bpe, RawOf(text), bpe.specials);
    SpellRaw(bpe, text);
  }

  // -- No byte of a text is dropped ---------------------------------------------------------

  /** The text that is encoded: spaces are underlined, special tokens stay as they are. */
  function Visible(bpe: Bpe, fs: seq<Fragment>): string {
    if fs == [] then "" else VisibleOf(bpe, fs[0]) + Visible(bpe, fs[1..])
  }

  function VisibleOf(bpe: Bpe, f: Fragment): string {
    match f
    case Known(id) => if id < |bpe.tokens| then bpe.tokens[id] else ""
    case Raw(s) => Underlined(s)
  }

  /** A split-out special is a token of the vocabulary, under its own id. */
  ghost predicate InVocabulary(bpe: Bpe, f: Fragment) {
    f.Known? ==> f.id < |bpe.tokens| && bpe.tokens[f.id] in bpe.ids && bpe.ids[bpe.tokens[f.id]] == f.id
  }

  ghost predicate AllInVocabulary(bpe: Bpe, fs: seq<Fragment>) {
    forall i | 0 <= i < |fs| :: InVocabulary(bpe, fs[i])
  }

  lemma {:induction false} InterleaveInVocabulary(bpe: Bpe, pieces: seq<string>, id: nat)
    requires InVocabulary(bpe, Known(id))
    ensures AllInVocabulary(bpe, Interleave(pieces, id))
  {
    if |pieces| > 1 {
      InterleaveInVocabulary(bpe, pieces[1..], id);
    }
  }

  lemma {:induction false} SplitByInVocabulary(bpe: Bpe, fs: seq<Fragment>, sp: Special)
    requires AllInVocabulary(bpe, fs) && InVocabulary(bpe, Known(sp.id))
    ensures AllInVocabulary(bpe, SplitBy(fs, sp))
  {
    if fs != [] {
      assert AllInVocabulary(bpe, SplitOne(fs[0], sp)) by {
        if fs[0].Raw? && Contains(fs[0].text, sp.text) {
          InterleaveInVocabulary(bpe, SplitStr(sp.text, fs[0].text), sp.id);
        }
      }
      assert forall i | 0 <= i < |fs[1..]| :: fs[1..][i] == fs[i + 1];
      SplitByInVocabulary(bpe, fs[1..], sp);
    }
  }

  lemma {:induction false} SplitAllInVocabulary(bpe: Bpe, fs: seq<Fragment>, specials: seq<Special>)
    requires AllInVocabulary(bpe, fs) && forall sp | sp in specials :: InVocabulary(bpe, Known(sp.id))
    ensures AllInVocabulary(bpe, SplitAll(fs, specials))
    decreases |specials|
  {
    if specials != [] {
      assert specials[0] in specials && forall sp | sp in specials[1..] :: sp in specials;
      SplitByInVocabulary(bpe, fs, specials[0]);
      SplitAllInVocabulary(bpe, SplitBy(fs, specials[0]), specials[1..]);
    }
  }

  lemma FragmentsInVocabulary(bpe: Bpe, text: string)
    requires Built(bpe)
    ensures AllInVocabulary(bpe, Partitioned(text, bpe.specials))
  {
    forall sp | sp in bpe.specials ensures InVocabulary(bpe, Known(sp.id)) {
      TokenOfId(bpe, sp.text);
    }
    SplitAllInVocabulary(bpe, RawOf(text), bpe.specials);
  }

  /** Neither the special nor any merged symbol of the rest is spelled like a byte token. */
  ghost predicate SpellsNoByte(bpe: Bpe, f: Fragment)
    requires InVocabulary(bpe, f)
  {
    match f
    case Known(id) => !NamesByte(bpe.tokens[id])
    case Raw(s) => forall ws | WordsOf(Underlined(s), ws) :: SymbolsSpellNoByte(bpe, ws)
  }

  lemma {:induction false} FragmentDecodes(bpe: Bpe, f: Fragment, ids: seq<nat>)
    requires Built(bpe) && AllBytes(bpe) && Encodes(bpe, f, ids) && InVocabulary(bpe, f)
    ensures Decode(bpe, ids) == Utf8(VisibleOf(bpe, f)) <==> SpellsNoByte(bpe, f)
    ensures |Decode(bpe, ids)| <= |Utf8(VisibleOf(bpe, f))|
    ensures !SpellsNoByte(bpe, f) ==> |Decode(bpe, ids)| < |Utf8(VisibleOf(bpe, f))|
  {
    match f
    case Known(id) =>
      EmitDecodes(bpe, bpe.tokens[id]);
      EmitShrinks(bpe, bpe.tokens[id]);
    case Raw(s) =>
      var ws :| WordsOf(Underlined(s), ws) && ids == EmitAll(bpe, AllSymbols(bpe, ws));
      forall vs | WordsOf(Underlined(s), vs) ensures vs == ws {
        WordsAreUnique(Underlined(s), vs, ws);
      }
      TokenizationIsLossless(bpe, Underlined(s), ws);
  }

  ghost predicate NothingSpellsByte(bpe: Bpe, fs: seq<Fragment>)
    requires AllInVocabulary(bpe, fs)
  {
    forall i | 0 <= i < |fs| :: SpellsNoByte(bpe, fs[i])
  }

  lemma TailSpellsByte(bpe: Bpe, fs: seq<Fragment>)
    requires fs != [] && AllInVocabulary(bpe, fs)
    ensures AllInVocabulary(bpe, fs[1..])
    ensures NothingSpellsByte(bpe, fs) <==> SpellsNoByte(bpe, fs[0]) && NothingSpellsByte(bpe, fs[1..])
  {
    assert forall i | 0 <= i < |fs[1..]| :: fs[1..][i] == fs[i + 1];
    if SpellsNoByte(bpe, fs[0]) && NothingSpellsByte(bpe, fs[1..]) {
      forall i | 0 <= i < |fs| ensures SpellsNoByte(bpe, fs[i]) {
        if i > 0 { assert fs[i] == fs[1..][i - 1]; }
      }
    }
  }

  lemma {:induction false} PartsAreLossless(bpe: Bpe, fs: seq<Fragment>, parts: seq<seq<nat>>)
    requires Built(bpe) && AllBytes(bpe) && EncodesParts(bpe, fs, parts) && AllInVocabulary(bpe, fs)
    ensures Decode(bpe, Concat(parts)) == Utf8(Visible(bpe, fs)) <==> NothingSpellsByte(bpe, fs)
    ensures |Decode(bpe, Concat(parts))| <= |Utf8(Visible(bpe, fs))|
    ensures !NothingSpellsByte(bpe, fs) ==> |Decode(bpe, Concat(parts))| < |Utf8(Visible(bpe, fs))|
    decreases |fs|
  {
    if fs != [] {
      TailSpellsByte(bpe, fs);
      FragmentDecodes(bpe, fs[0], parts[0]);
      PartsAreLossless(bpe, fs[1..], parts[1..]);
      DecodeConcat(bpe, parts[0], Concat(parts[1..]));
      Utf8Concat(VisibleOf(bpe, fs[0]), Visible(bpe, fs[1..]));
    }
  }

  /**
   With every byte token present, the ids of a text decode to all of its bytes, specials included, exactly
   if neither a special in it nor a symbol of the rest, once merged, is spelled like a byte token.
   */
  lemma EncodingIsLossless(bpe: Bpe, text: string, ids: seq<nat>)
    requires Built(bpe) && AllBytes(bpe) && EncodesAll(bpe, Partitioned(text, bpe.specials), ids)
    ensures var fs := Partitioned(text, bpe.specials);
      AllInVocabulary(bpe, fs) && (Decode(bpe, ids) == Utf8(Visible(bpe, fs)) <==> NothingSpellsByte(bpe, fs))
  {
    var fs := Partitioned(text, bpe.specials);
    FragmentsInVocabulary(bpe, text);
    var parts :| EncodesParts(bpe, fs, parts) && ids == Concat(parts);
    PartsAreLossless(bpe, fs, parts);
  }
}
