/**
 The GGUF header reader (`gguf.rs`): a cursor over the file's bytes, one path that reads a value
 and one that skips it. They are proved to agree on every file but one cut off inside its last value.
 */
module Gguf {
  import opened Text

  const MAX_KV_COUNT: nat := 4096
  const MAX_STRING_BYTES: nat := 8 * 1024 * 1024
  const MAX_ARRAY_LENGTH: nat := 8_000_000
  const TYPE_STRING: nat := 8
  const TYPE_ARRAY: nat := 9

  /** Numbers keep their type id; a float is its bits, a bool is 0 or 1. */
  datatype Value =
    | Number(kind: nat, n: int)
    | Str(s: string)
    | Numbers(kind: nat, ns: seq<int>)
    | Strs(ss: seq<string>)

  /** A step of the reader: what it produced and where the cursor is, or the refusal. */
  datatype Res<+T> = Ok(value: T, pos: nat) | Fail

  type File = seq<Byte>
  type Lossy = seq<Byte> -> string

  // -- What each step means ------------------------------------------------------

  function LittleEndian(bs: seq<Byte>): nat {
    if bs == [] then 0 else bs[0] + 256 * LittleEndian(bs[1..])
  }

  function Signed(n: nat, bits: nat, half: nat): int {
    if n >= half then n - bits else n
  }

  function NumberOf(kind: nat, bs: seq<Byte>): int {
    var n := LittleEndian(bs);
    match kind
    case 1 => Signed(n, 0x100, 0x80)
    case 3 => Signed(n, 0x1_0000, 0x8000)
    case 5 => Signed(n, 0x1_0000_0000, 0x8000_0000)
    case 11 => Signed(n, 0x1_0000_0000_0000_0000, 0x8000_0000_0000_0000)
    case 7 => if n != 0 then 1 else 0
    case _ => n
  }

  function ScalarSize(kind: nat): Option<nat> {
    match kind
    case 0 | 1 | 7 => Some(1)
    case 2 | 3 => Some(2)
    case 4 | 5 | 6 => Some(4)
    case 10 | 11 | 12 => Some(8)
    case _ => None
  }

  /** `read_exact`: all of the bytes or a refusal; no bytes at all can be read anywhere. */
  function Raw(f: File, pos: nat, count: nat): Res<seq<Byte>> {
    if count == 0 then Ok([], pos)
    else if pos + count <= |f| then Ok(f[pos..pos + count], pos + count) else Fail
  }

  function Unsigned(f: File, pos: nat, size: nat): Res<nat> {
    match Raw(f, pos, size)
    case Ok(bs, at) => Ok(LittleEndian(bs), at)
    case Fail => Fail
  }

  function Length(f: File, pos: nat, limit: nat): Res<nat> {
    match Unsigned(f, pos, 8)
    case Ok(n, at) => if n > limit then Fail else Ok(n, at)
    case Fail => Fail
  }

  function ReadStr(f: File, lossy: Lossy, pos: nat): Res<string> {
    match Length(f, pos, MAX_STRING_BYTES)
    case Ok(n, at) => (match Raw(f, at, n) case Ok(bs, end) => Ok(lossy(bs), end) case Fail => Fail)
    case Fail => Fail
  }

  /** A seek may pass the end of the file; nothing fails there. */
  function SkipStr(f: File, pos: nat): Res<()> {
    match Length(f, pos, MAX_STRING_BYTES)
    case Ok(n, at) => Ok((), at + n)
    case Fail => Fail
  }

  function ReadNumber(f: File, kind: nat, size: nat, pos: nat): Res<int> {
    match Raw(f, pos, size)
    case Ok(bs, at) => Ok(NumberOf(kind, bs), at)
    case Fail => Fail
  }

  function ReadNumbers(f: File, kind: nat, size: nat, count: nat, pos: nat): Res<seq<int>> {
    if count == 0 then Ok([], pos)
    else match ReadNumbers(f, kind, size, count - 1, pos)
      case Ok(ns, at) =>
        (match ReadNumber(f, kind, size, at) case Ok(n, end) => Ok(ns + [n], end) case Fail => Fail)
      case Fail => Fail
  }

  function ReadStrs(f: File, lossy: Lossy, count: nat, pos: nat): Res<seq<string>> {
    if count == 0 then Ok([], pos)
    else match ReadStrs(f, lossy, count - 1, pos)
      case Ok(ss, at) =>
        (match ReadStr(f, lossy, at) case Ok(s, end) => Ok(ss + [s], end) case Fail => Fail)
      case Fail => Fail
  }

  function SkipStrs(f: File, count: nat, pos: nat): Res<()> {
    if count == 0 then Ok((), pos)
    else match SkipStrs(f, count - 1, pos)
      case Ok(_, at) => SkipStr(f, at)
      case Fail => Fail
  }

  function ReadArray(f: File, lossy: Lossy, element: nat, count: nat, pos: nat): Res<Value> {
    if element == TYPE_STRING then
      match ReadStrs(f, lossy, count, pos) case Ok(ss, at) => Ok(Strs(ss), at) case Fail => Fail
    else
      match ScalarSize(element)
      case Some(size) =>
        (match ReadNumbers(f, element, size, count, pos)
         case Ok(ns, at) => Ok(Numbers(element, ns), at)
         case Fail => Fail)
      case None => Fail
  }

  function SkipArray(f: File, element: nat, count: nat, pos: nat): Res<()> {
    if element == TYPE_STRING then SkipStrs(f, count, pos)
    else match ScalarSize(element)
      case Some(size) => Ok((), pos + size * count)
      case None => Fail
  }

  /** The element type and the length of an array; nested arrays are refused. */
  function ArrayHeader(f: File, pos: nat): Res<(nat, nat)> {
    match Unsigned(f, pos, 4)
    case Ok(element, at) =>
      (match Length(f, at, MAX_ARRAY_LENGTH)
       case Ok(count, end) => if element == TYPE_ARRAY then Fail else Ok((element, count), end)
       case Fail => Fail)
    case Fail => Fail
  }

  function ReadValue(f: File, lossy: Lossy, kind: nat, pos: nat): Res<Value> {
    if kind == TYPE_STRING then
      match ReadStr(f, lossy, pos) case Ok(s, at) => Ok(Str(s), at) case Fail => Fail
    else if kind == TYPE_ARRAY then
      match ArrayHeader(f, pos)
      case Ok((element, count), at) => ReadArray(f, lossy, element, count, at)
      case Fail => Fail
    else
      match ScalarSize(kind)
      case Some(size) =>
        (match ReadNumber(f, kind, size, pos) case Ok(n, at) => Ok(Number(kind, n), at) case Fail => Fail)
      case None => Fail
  }

  function SkipValue(f: File, kind: nat, pos: nat): Res<()> {
    if kind == TYPE_STRING then SkipStr(f, pos)
    else if kind == TYPE_ARRAY then
      match ArrayHeader(f, pos)
      case Ok((element, count), at) => SkipArray(f, element, count, at)
      case Fail => Fail
    else
      match ScalarSize(kind)
      case Some(size) => Ok((), pos + size)
      case None => Fail
  }

  type Metadata = map<string, Value>

  /** One metadata pair: its value is read if the key is wanted and skipped otherwise. */
  function Pair(f: File, lossy: Lossy, wanted: string -> bool, found: Metadata, pos: nat): Res<Metadata> {
    match ReadStr(f, lossy, pos)
    case Ok(key, at) =>
      (match Unsigned(f, at, 4)
       case Ok(kind, start) =>
         if wanted(key) then
           (match ReadValue(f, lossy, kind, start) case Ok(v, end) => Ok(found[key := v], end) case Fail => Fail)
         else
           (match SkipValue(f, kind, start) case Ok(_, end) => Ok(found, end) case Fail => Fail)
       case Fail => Fail)
    case Fail => Fail
  }

  function Pairs(f: File, lossy: Lossy, wanted: string -> bool, count: nat, pos: nat): Res<Metadata> {
    if count == 0 then Ok(map[], pos)
    else match Pairs(f, lossy, wanted, count - 1, pos)
      case Ok(found, at) => Pair(f, lossy, wanted, found, at)
      case Fail => Fail
  }

  /** The number of pairs the header announces. */
  function Header(f: File): Res<nat> {
    match Raw(f, 0, 4)
    case Ok(magic, at) =>
      if magic != [0x47, 0x47, 0x55, 0x46] then Fail
      else (match Unsigned(f, at, 4)
            case Ok(version, at) =>
              if version != 2 && version != 3 then Fail
              else (match Length(f, at, 0xFFFF_FFFF)
                    case Ok(_, at) => Length(f, at, MAX_KV_COUNT)
                    case Fail => Fail)
            case Fail => Fail)
    case Fail => Fail
  }

  function Parse(f: File, lossy: Lossy, wanted: string -> bool): Res<Metadata> {
    match Header(f)
    case Ok(pairs, at) => Pairs(f, lossy, wanted, pairs, at)
    case Fail => Fail
  }

  // -- Skipping agrees with reading ------------------------------------------------

  /** Reading succeeds exactly when skipping does and stays within the file, and they stop at the same byte. */
  ghost predicate Agree<T>(f: File, read: Res<T>, skip: Res<()>) {
    && (read.Ok? <==> skip.Ok? && skip.pos <= |f|)
    && (read.Ok? ==> read.pos == skip.pos)
  }

  lemma ReadStrAgrees(f: File, lossy: Lossy, pos: nat)
    requires pos <= |f|
    ensures Agree(f, ReadStr(f, lossy, pos), SkipStr(f, pos))
  {
  }

  /** Past the end nothing more can be read or skipped: every value starts with bytes of its own. */
  lemma {:induction false} SkipStrsAgrees(f: File, lossy: Lossy, count: nat, pos: nat)
    requires pos <= |f|
    ensures Agree(f, ReadStrs(f, lossy, count, pos), SkipStrs(f, count, pos))
  {
    if count > 0 {
      SkipStrsAgrees(f, lossy, count - 1, pos);
      match SkipStrs(f, count - 1, pos)
      case Ok(_, at) =>
        if at <= |f| {
          ReadStrAgrees(f, lossy, at);
        }
      case Fail =>
    }
  }

  lemma {:induction false} ReadNumbersAgrees(f: File, kind: nat, size: nat, count: nat, pos: nat)
    requires pos <= |f| && size > 0
    ensures Agree(f, ReadNumbers(f, kind, size, count, pos), Ok((), pos + size * count))
  {
    if count > 0 {
      ReadNumbersAgrees(f, kind, size, count - 1, pos);
      assert size * count == size * (count - 1) + size;
    }
  }

  lemma ReadValueAgrees(f: File, lossy: Lossy, kind: nat, pos: nat)
    requires pos <= |f|
    ensures Agree(f, ReadValue(f, lossy, kind, pos), SkipValue(f, kind, pos))
  {
    if kind == TYPE_ARRAY {
      match ArrayHeader(f, pos)
      case Ok((element, count), at) =>
        if element == TYPE_STRING {
          SkipStrsAgrees(f, lossy, count, at);
        } else {
          match ScalarSize(element)
          case Some(size) => ReadNumbersAgrees(f, element, size, count, at);
          case None =>
        }
      case Fail =>
    }
  }

  function Restrict(m: Metadata, wanted: string -> bool): Metadata {
    map k | k in m && wanted(k) :: m[k]
  }

  predicate Everything(key: string) {
    true
  }

  /** Two parses of the same pairs: one keeps everything, one keeps what is wanted. */
  ghost predicate Filtered(f: File, wanted: string -> bool, all: Res<Metadata>, some: Res<Metadata>) {
    && (all.Ok? <==> some.Ok? && some.pos <= |f|)
    && (all.Ok? ==> some.pos == all.pos && some.value == Restrict(all.value, wanted))
  }

  lemma PairFilters(f: File, lossy: Lossy, wanted: string -> bool, found: Metadata, pos: nat)
    requires pos <= |f|
    ensures Filtered(f, wanted, Pair(f, lossy, Everything, found, pos),
                     Pair(f, lossy, wanted, Restrict(found, wanted), pos))
  {
    match ReadStr(f, lossy, pos)
    case Ok(key, at) =>
      match Unsigned(f, at, 4) {
        case Ok(kind, start) => ReadValueAgrees(f, lossy, kind, start);
        case Fail =>
      }
    case Fail =>
  }

  lemma {:induction false} PairsFilter(f: File, lossy: Lossy, wanted: string -> bool, count: nat, pos: nat)
    requires pos <= |f|
    ensures Filtered(f, wanted, Pairs(f, lossy, Everything, count, pos), Pairs(f, lossy, wanted, count, pos))
  {
    if count > 0 {
      PairsFilter(f, lossy, wanted, count - 1, pos);
      match Pairs(f, lossy, Everything, count - 1, pos)
      case Ok(found, at) => PairFilters(f, lossy, wanted, found, at);
      case Fail =>
    }
  }

  /** The main result. A parse that keeps every key succeeds exactly when the filtered parse does
      and did not skip past the end of the file; then the filtered map is the restriction. */
  lemma SkippingIsFiltering(f: File, lossy: Lossy, wanted: string -> bool)
    ensures Filtered(f, wanted, Parse(f, lossy, Everything), Parse(f, lossy, wanted))
  {
    match Header(f)
    case Ok(pairs, at) => PairsFilter(f, lossy, wanted, pairs, at);
    case Fail =>
  }

  /** The pair at `pos` is skipped, and its value ends after the end of the file. */
  ghost predicate SkipsPastEnd(f: File, lossy: Lossy, wanted: string -> bool, pos: nat) {
    match ReadStr(f, lossy, pos)
    case Ok(key, at) =>
      (match Unsigned(f, at, 4)
       case Ok(kind, start) => !wanted(key) && SkipValue(f, kind, start).Ok? && SkipValue(f, kind, start).pos > |f|
       case Fail => false)
    case Fail => false
  }

  lemma PairEnds(f: File, lossy: Lossy, wanted: string -> bool, found: Metadata, pos: nat)
    requires Pair(f, lossy, wanted, found, pos).Ok?
    ensures pos <= |f|
    ensures Pair(f, lossy, wanted, found, pos).pos > |f| <==> SkipsPastEnd(f, lossy, wanted, pos)
  {
    match ReadStr(f, lossy, pos)
    case Ok(key, at) =>
      match Unsigned(f, at, 4) {
        case Ok(kind, start) => ReadValueAgrees(f, lossy, kind, start);
        case Fail =>
      }
    case Fail =>
  }

  /** Of a filtered parse that succeeds, only the last value can be skipped past the end of the file. */
  lemma {:induction false} LastSkipDecides(f: File, lossy: Lossy, wanted: string -> bool, count: nat, pos: nat)
    requires pos <= |f| && Pairs(f, lossy, wanted, count, pos).Ok?
    ensures count > 0 ==>
              Pairs(f, lossy, wanted, count - 1, pos).Ok? && Pairs(f, lossy, wanted, count - 1, pos).pos <= |f|
    ensures Pairs(f, lossy, Everything, count, pos).Fail? <==>
              count > 0 && SkipsPastEnd(f, lossy, wanted, Pairs(f, lossy, wanted, count - 1, pos).pos)
  {
    PairsFilter(f, lossy, wanted, count, pos);
    if count > 0 {
      var before := Pairs(f, lossy, wanted, count - 1, pos);
      PairEnds(f, lossy, wanted, before.value, before.pos);
    }
  }

  /** The two parses part exactly where the last pair is skipped and its value is cut off. */
  lemma ParsesPartAtACutValue(f: File, lossy: Lossy, wanted: string -> bool)
    requires Parse(f, lossy, wanted).Ok?
    ensures var h := Header(f);
      Parse(f, lossy, Everything).Fail? <==>
        h.value > 0 && Pairs(f, lossy, wanted, h.value - 1, h.pos).Ok?
        && SkipsPastEnd(f, lossy, wanted, Pairs(f, lossy, wanted, h.value - 1, h.pos).pos)
  {
    HeaderEnds(f);
    LastSkipDecides(f, lossy, wanted, Header(f).value, Header(f).pos);
  }

  lemma HeaderEnds(f: File)
    ensures Header(f).Ok? ==> Header(f).pos <= |f|
  {
  }

  /** A header cut off inside its last value: version 3, no tensors, one pair with an empty key and no byte
      for its value. */
  const TRUNCATED: File := [0x47, 0x47, 0x55, 0x46] + [3, 0, 0, 0] + [0, 0, 0, 0, 0, 0, 0, 0]
                           + [1, 0, 0, 0, 0, 0, 0, 0] + [0, 0, 0, 0, 0, 0, 0, 0] + [0, 0, 0, 0]

  lemma Zeros(bs: seq<Byte>)
    requires forall i | 0 <= i < |bs| :: bs[i] == 0
    ensures LittleEndian(bs) == 0
  {
  }

  lemma SmallNumber(bs: seq<Byte>, n: Byte)
    requires |bs| > 0 && bs[0] == n && forall i | 1 <= i < |bs| :: bs[i] == 0
    ensures LittleEndian(bs) == n
  {
    Zeros(bs[1..]);
  }

  /** So the two do not always agree: this file is refused if the value is wanted and accepted if not. */
  lemma SkippingAcceptsATruncatedFile(lossy: Lossy)
    ensures Parse(TRUNCATED, lossy, Everything).Fail?
    ensures Parse(TRUNCATED, lossy, key => false) == Ok(map[], |TRUNCATED| + 1)
  {
    var f := TRUNCATED;
    assert f[0..4] == [0x47, 0x47, 0x55, 0x46];
    SmallNumber(f[4..8], 3);
    Zeros(f[8..16]);
    SmallNumber(f[16..24], 1);
    assert Header(f) == Ok(1, 24);
    Zeros(f[24..32]);
    Zeros(f[32..36]);
    assert ReadStr(f, lossy, 24) == Ok(lossy([]), 32);
    assert Unsigned(f, 32, 4) == Ok(0, 36);
    var none := (key: string) => false;
    assert Pair(f, lossy, none, map[], 24) == Ok(map[], 37);
    assert Pairs(f, lossy, none, 0, 24) == Ok(map[], 24);
    assert Pairs(f, lossy, none, 1, 24) == Ok(map[], 37);
    SkippingIsFiltering(f, lossy, none);
  }

  // -- The reader ---------------------------------------------------------------------

  /** A method's answer is what the specification says, and the cursor is where it says. */
  predicate Did<T(==)>(r: Option<T>, pos: nat, spec: Res<T>) {
    match spec
    case Ok(value, at) => r == Some(value) && pos == at
    case Fail => r == None
  }

  class Reader {
    const data: File
    const lossy: Lossy
    var pos: nat

    constructor (data: File, lossy: Lossy)
      ensures this.data == data && this.lossy == lossy && pos == 0
    {
      this.data, this.lossy, this.pos := data, lossy, 0;
    }

    method TakeRaw(count: nat) returns (r: Option<seq<Byte>>)
      modifies this`pos
      ensures Did(r, pos, Raw(data, old(pos), count))
    {
      if count == 0 {
        return Some([]);
      }
      if pos + count > |data| {
        return None;
      }
      r := Some(data[pos..pos + count]);
      pos := pos + count;
    }

    method Skip(count: nat)
      modifies this`pos
      ensures pos == old(pos) + count
    {
      pos := pos + count;
    }

    method TakeUnsigned(size: nat) returns (r: Option<nat>)
      modifies this`pos
      ensures Did(r, pos, Unsigned(data, old(pos), size))
    {
      var bs := TakeRaw(size);
      if bs.None? {
        return None;
      }
      return Some(LittleEndian(bs.value));
    }

    method TakeLength(limit: nat) returns (r: Option<nat>)
      modifies this`pos
      ensures Did(r, pos, Length(data, old(pos), limit))
    {
      r := TakeUnsigned(8);
      if r.Some? && r.value > limit {
        return None;
      }
    }

    method TakeStr() returns (r: Option<string>)
      modifies this`pos
      ensures Did(r, pos, ReadStr(data, lossy, old(pos)))
    {
      var size := TakeLength(MAX_STRING_BYTES);
      if size.None? {
        return None;
      }
      var bs := TakeRaw(size.value);
      if bs.None? {
        return None;
      }
      return Some(lossy(bs.value));
    }

    method PassStr() returns (r: Option<()>)
      modifies this`pos
      ensures Did(r, pos, SkipStr(data, old(pos)))
    {
      var size := TakeLength(MAX_STRING_BYTES);
      if size.None? {
        return None;
      }
      Skip(size.value);
      return Some(());
    }

    method TakeNumber(kind: nat, size: nat) returns (r: Option<int>)
      modifies this`pos
      ensures Did(r, pos, ReadNumber(data, kind, size, old(pos)))
    {
      var bs := TakeRaw(size);
      if bs.None? {
        return None;
      }
      return Some(NumberOf(kind, bs.value));
    }

    method TakeNumbers(kind: nat, size: nat, count: nat) returns (r: Option<seq<int>>)
      modifies this`pos
      ensures Did(r, pos, ReadNumbers(data, kind, size, count, old(pos)))
    {
      var ns: seq<int> := [];
      for i := 0 to count
        invariant ReadNumbers(data, kind, size, i, old(pos)) == Ok(ns, pos)
      {
        var n := TakeNumber(kind, size);
        if n.None? {
          NumbersFailOn(data, kind, size, i + 1, count, old(pos));
          return None;
        }
        ns := ns + [n.value];
      }
      return Some(ns);
    }

    method TakeStrs(count: nat) returns (r: Option<seq<string>>)
      modifies this`pos
      ensures Did(r, pos, ReadStrs(data, lossy, count, old(pos)))
    {
      var ss: seq<string> := [];
      for i := 0 to count
        invariant ReadStrs(data, lossy, i, old(pos)) == Ok(ss, pos)
      {
        var s := TakeStr();
        if s.None? {
          StrsFailOn(data, lossy, i + 1, count, old(pos));
          return None;
        }
        ss := ss + [s.value];
      }
      return Some(ss);
    }

    method PassStrs(count: nat) returns (r: Option<()>)
      modifies this`pos
      ensures Did(r, pos, SkipStrs(data, count, old(pos)))
    {
      for i := 0 to count
        invariant SkipStrs(data, i, old(pos)) == Ok((), pos)
      {
        var s := PassStr();
        if s.None? {
          SkipsFailOn(data, i + 1, count, old(pos));
          return None;
        }
      }
      return Some(());
    }

    method TakeArrayHeader() returns (r: Option<(nat, nat)>)
      modifies this`pos
      ensures Did(r, pos, ArrayHeader(data, old(pos)))
    {
      var element := TakeUnsigned(4);
      if element.None? {
        return None;
      }
      var count := TakeLength(MAX_ARRAY_LENGTH);
      if count.None? || element.value == TYPE_ARRAY {
        return None;
      }
      return Some((element.value, count.value));
    }

    method TakeArray(element: nat, count: nat) returns (r: Option<Value>)
      modifies this`pos
      ensures Did(r, pos, ReadArray(data, lossy, element, count, old(pos)))
    {
      if element == TYPE_STRING {
        var ss := TakeStrs(count);
        return if ss.None? then None else Some(Strs(ss.value));
      }
      match ScalarSize(element) {
        case None => return None;
        case Some(size) =>
          var ns := TakeNumbers(element, size, count);
          return if ns.None? then None else Some(Numbers(element, ns.value));
      }
    }

    method TakeValue(kind: nat) returns (r: Option<Value>)
      modifies this`pos
      ensures Did(r, pos, ReadValue(data, lossy, kind, old(pos)))
    {
      if kind == TYPE_STRING {
        var s := TakeStr();
        return if s.None? then None else Some(Str(s.value));
      }
      if kind == TYPE_ARRAY {
        var header := TakeArrayHeader();
        if header.None? {
          return None;
        }
        r := TakeArray(header.value.0, header.value.1);
        return;
      }
      match ScalarSize(kind) {
        case None => return None;
        case Some(size) =>
          var n := TakeNumber(kind, size);
          return if n.None? then None else Some(Number(kind, n.value));
      }
    }

    method PassValue(kind: nat) returns (r: Option<()>)
      modifies this`pos
      ensures Did(r, pos, SkipValue(data, kind, old(pos)))
    {
      if kind == TYPE_STRING {
        r := PassStr();
        return;
      }
      if kind == TYPE_ARRAY {
        var header := TakeArrayHeader();
        if header.None? {
          return None;
        }
        if header.value.0 == TYPE_STRING {
          r := PassStrs(header.value.1);
          return;
        }
        match ScalarSize(header.value.0) {
          case None => return None;
          case Some(size) => Skip(size * header.value.1);
        }
        return Some(());
      }
      match ScalarSize(kind) {
        case None => return None;
        case Some(size) => Skip(size);
      }
      return Some(());
    }

    method TakeHeader() returns (r: Option<nat>)
      requires pos == 0
      modifies this`pos
      ensures Did(r, pos, Header(data))
    {
      var magic := TakeRaw(4);
      if magic.None? || magic.value != [0x47, 0x47, 0x55, 0x46] {
        return None;
      }
      var version := TakeUnsigned(4);
      if version.None? || (version.value != 2 && version.value != 3) {
        return None;
      }
      var tensors := TakeLength(0xFFFF_FFFF);
      if tensors.None? {
        return None;
      }
      r := TakeLength(MAX_KV_COUNT);
    }

    method TakePair(wanted: string -> bool, found: Metadata) returns (r: Option<Metadata>)
      modifies this`pos
      ensures Did(r, pos, Pair(data, lossy, wanted, found, old(pos)))
    {
      var key := TakeStr();
      if key.None? {
        return None;
      }
      var kind := TakeUnsigned(4);
      if kind.None? {
        return None;
      }
      if wanted(key.value) {
        var v := TakeValue(kind.value);
        return if v.None? then None else Some(found[key.value := v.value]);
      } else {
        var passed := PassValue(kind.value);
        return if passed.None? then None else Some(found);
      }
    }

    method ReadMetadata(wanted: string -> bool) returns (r: Option<Metadata>)
      requires pos == 0
      modifies this`pos
      ensures Did(r, pos, Parse(data, lossy, wanted))
    {
      var pairs := TakeHeader();
      if pairs.None? {
        return None;
      }
      ghost var start := pos;
      var found: Metadata := map[];
      for i := 0 to pairs.value
        invariant Pairs(data, lossy, wanted, i, start) == Ok(found, pos)
      {
        var more := TakePair(wanted, found);
        if more.None? {
          PairsFailOn(data, lossy, wanted, i + 1, pairs.value, start);
          return None;
        }
        found := more.value;
      }
      return Some(found);
    }
  }

  // A refusal part of the way through is a refusal of the whole.

  lemma {:induction false} NumbersFailOn(f: File, kind: nat, size: nat, i: nat, count: nat, pos: nat)
    requires i <= count && ReadNumbers(f, kind, size, i, pos).Fail?
    ensures ReadNumbers(f, kind, size, count, pos).Fail?
  {
    if i < count {
      NumbersFailOn(f, kind, size, i, count - 1, pos);
    }
  }

  lemma {:induction false} StrsFailOn(f: File, lossy: Lossy, i: nat, count: nat, pos: nat)
    requires i <= count && ReadStrs(f, lossy, i, pos).Fail?
    ensures ReadStrs(f, lossy, count, pos).Fail?
  {
    if i < count {
      StrsFailOn(f, lossy, i, count - 1, pos);
    }
  }

  lemma {:induction false} SkipsFailOn(f: File, i: nat, count: nat, pos: nat)
    requires i <= count && SkipStrs(f, i, pos).Fail?
    ensures SkipStrs(f, count, pos).Fail?
  {
    if i < count {
      SkipsFailOn(f, i, count - 1, pos);
    }
  }

  lemma {:induction false} PairsFailOn(f: File, lossy: Lossy, wanted: string -> bool, i: nat, count: nat, pos: nat)
    requires i <= count && Pairs(f, lossy, wanted, i, pos).Fail?
    ensures Pairs(f, lossy, wanted, count, pos).Fail?
  {
    if i < count {
      PairsFailOn(f, lossy, wanted, i, count - 1, pos);
    }
  }
}
