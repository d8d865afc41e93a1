/** Callback data at its edges: the hash of a stashed payload, and data that no printer would make. */
module CallbackData {
  import opened Callback
  import opened QueryEscape
  import opened Seqs
  import opened Wrappers

  // ----- the hash is FNV-1a, in base 36 -----

  function Bit(n: nat, k: nat): nat { if k == 0 then n % 2 else Bit(n / 2, k - 1) }

  /** x is the exclusive or of a and b. */
  ghost predicate IsXor(x: nat, a: nat, b: nat) {
    forall k: nat :: Bit(x, k) == if Bit(a, k) != Bit(b, k) then 1 else 0
  }

  function Shift(n: nat, by8: nat): nat { if by8 == 0 then n else 2 * Shift(n, by8 - 1) }

  lemma {:induction false} NoBits(k: nat)
    ensures Bit(0, k) == 0
  {
    if k > 0 { NoBits(k - 1); }
  }

  lemma {:induction false} XorBitsAre(a: nat, b: nat, bits: nat, k: nat)
    ensures Bit(XorBits(a, b, bits), k) == if k < bits && Bit(a, k) != Bit(b, k) then 1 else 0
  {
    if bits == 0 {
      NoBits(k);
    } else if k > 0 {
      XorBitsAre(a / 2, b / 2, bits - 1, k - 1);
    }
  }

  lemma {:induction false} XorBitsFit(a: nat, b: nat, bits: nat)
    ensures XorBits(a, b, bits) < Shift(1, bits)
  {
    if bits > 0 { XorBitsFit(a / 2, b / 2, bits - 1); }
  }

  lemma {:induction false} BitsOf(high: nat, low: nat, n: nat, k: nat)
    requires low < Shift(1, n)
    ensures Bit(Shift(high, n) + low, k) == if k < n then Bit(low, k) else Bit(high, k - n)
  {
    if n > 0 && k > 0 {
      assert (Shift(high, n) + low) / 2 == Shift(high, n - 1) + low / 2;
      BitsOf(high, low / 2, n - 1, k - 1);
    }
  }

  lemma ShiftByte(n: nat)
    ensures Shift(n, 8) == 256 * n
  {
    assert Shift(n, 1) == 2 * n;
    assert Shift(n, 2) == 4 * n;
    assert Shift(n, 3) == 8 * n;
    assert Shift(n, 4) == 16 * n;
    assert Shift(n, 5) == 32 * n;
    assert Shift(n, 6) == 64 * n;
    assert Shift(n, 7) == 128 * n;
  }

  lemma ByteBits(high: nat, low: nat, k: nat)
    requires low < 256
    ensures Bit(256 * high + low, k) == if k < 8 then Bit(low, k) else Bit(high, k - 8)
  {
    ShiftByte(high);
    ShiftByte(1);
    BitsOf(high, low, 8, k);
  }

  lemma MixBits(h: nat, c: nat, k: nat)
    requires c < 256
    ensures var x := h - h % 256 + XorBits(h % 256, c, 8);
      Bit(x, k) == if Bit(h, k) != Bit(c, k) then 1 else 0
  {
    var x := XorBits(h % 256, c, 8);
    XorBitsFit(h % 256, c, 8);
    ShiftByte(1);
    ByteBits(h / 256, x, k);
    ByteBits(h / 256, h % 256, k);
    ByteBits(0, c, k);
    XorBitsAre(h % 256, c, 8, k);
    if k >= 8 {
      NoBits(k - 8);
      OneBit(h / 256, k - 8);
    }
  }

  lemma {:induction false} OneBit(n: nat, k: nat)
    ensures Bit(n, k) < 2
  {
    if k > 0 { OneBit(n / 2, k - 1); }
  }

  /** Each byte is mixed in by exclusive or, and the result multiplied by the prime, on 64 bits. */
  lemma FnvRound(s: Bytes, c: Byte) returns (x: nat)
    ensures IsXor(x, Fnv(s), c as int) && Fnv(s + [c]) == (x * FNV_PRIME) % TWO_64
  {
    var h := Fnv(s);
    x := h - h % 256 + XorBits(h % 256, c as int, 8);
    forall k: nat ensures Bit(x, k) == if Bit(h, k) != Bit(c as int, k) then 1 else 0 { MixBits(h, c as int, k); }
    assert (s + [c])[..|s + [c]| - 1] == s;
  }

  /** A digit in base 36. */
  function DigitValue(c: Byte): nat { if '0' <= c <= '9' then c as int - '0' as int else if 'a' <= c <= 'z' then c as int - 'a' as int + 10 else 36 }

  function Spelled(s: Bytes): nat { if s == [] then 0 else 36 * Spelled(s[..|s| - 1]) + DigitValue(s[|s| - 1]) }

  /** Its token spells the hash in digits and lower-case letters, without a leading zero. */
  lemma {:induction false} Base36Spells(n: nat)
    ensures Spelled(Base36(n)) == n && (forall i :: 0 <= i < |Base36(n)| ==> DigitValue(Base36(n)[i]) < 36)
    ensures n > 0 ==> DigitValue(Base36(n)[0]) > 0
  {
    if n < 36 {
      assert [Digit36(n)][..0] == [];
    } else {
      Base36Spells(n / 36);
      assert Base36(n)[..|Base36(n)| - 1] == Base36(n / 36);
    }
  }

  // ----- printing -----

  /** What fits is not stashed. */
  lemma FittingStaysInline(st: Stash, resource: Bytes, action: Bytes, args: seq<Bytes>, page: int, name: Bytes)
    ensures var data := LIST + resource + "~" + action + "~" + Itoa(page) + "~" + EncodeArgs(args);
      |data| <= 64 ==> EncodeList(st, resource, action, args, page) == (data, st)
    ensures var data := SKILL + Escape(Trim(name)); |data| <= 64 ==> EncodeSkillActivate(st, name) == (data, st)
  {
    var tail: Bytes := EncodeArgs(args);
    Flat(LIST, resource, action, Itoa(page), tail);
    EmptyEnds(ListBase(resource, action, page));
  }

  lemma Flat(a: Bytes, b: Bytes, c: Bytes, d: Bytes, e: Bytes)
    ensures a + b + "~" + c + "~" + d + "~" + e == (a + (b + "~" + (c + "~" + (d + "~")))) + e
  {
    assert c + "~" + (d + "~") == c + "~" + d + "~";
    assert b + "~" + (c + "~" + d + "~") == b + "~" + c + "~" + d + "~";
    assert a + (b + "~" + c + "~" + d + "~") == a + b + "~" + c + "~" + d + "~";
  }

  /** Arguments that are all blank are no arguments, however long the rest is. */
  lemma BlankArgsAddNothing(st: Stash, resource: Bytes, action: Bytes, args: seq<Bytes>, page: int)
    requires forall i :: 0 <= i < |args| ==> Trim(args[i]) == []
    ensures EncodeList(st, resource, action, args, page) == EncodeList(st, resource, action, [], page)
    ensures EncodeList(st, resource, action, args, page).1 == st
  {
    NoneNonEmpty(TrimAll(args));
    NoneNonEmpty(TrimAll([]));
  }

  lemma {:induction false} NoneNonEmpty(words: seq<Bytes>)
    requires forall i :: 0 <= i < |words| ==> words[i] == []
    ensures NonEmpty(words) == []
  {
    if words != [] { NoneNonEmpty(words[1..]); }
  }

  // ----- parsing -----

  /** A list page without a field for arguments has none. */
  lemma ThreeFieldsAreEnough(table: map<Bytes, Bytes>, resource: Bytes, action: Bytes, last: Bytes, page: int)
    requires '~' !in resource && '~' !in action && '~' !in last && Atoi(last) == Some(page)
    ensures Decode(table, LIST + (resource + "~" + (action + "~" + last)))
         == if page < 0 then None else Some(ListPage(resource, action, page, []))
  {
    ThreeParts(resource, action, last);
    ListOfThree(table, resource + "~" + (action + "~" + last), resource, action, last, page);
  }

  lemma ListOfThree(table: map<Bytes, Bytes>, body: Bytes, resource: Bytes, action: Bytes, last: Bytes, page: int)
    requires SplitN(body, 4) == [resource, action, last] && Atoi(last) == Some(page)
    ensures Decode(table, LIST + body) == if page < 0 then None else Some(ListPage(resource, action, page, []))
  {
    DecodeOfList(table, body);
    DecodedParts(table, body, [resource, action, last], page);
  }

  lemma ThreeParts(resource: Bytes, action: Bytes, last: Bytes)
    requires '~' !in resource && '~' !in action && '~' !in last
    ensures SplitN(resource + "~" + (action + "~" + last), 4) == [resource, action, last]
  {
    SplitNFirst(resource, action + "~" + last, 4);
    SplitNFirst(action, last, 3);
    assert IndexOf(last, '~') == |last|;
  }

  lemma DecodedParts(table: map<Bytes, Bytes>, body: Bytes, parts: seq<Bytes>, page: int)
    requires SplitN(body, 4) == parts && |parts| == 3 && Atoi(parts[2]) == Some(page)
    ensures DecodeList(table, body) == if page < 0 then None else Some(ListPage(parts[0], parts[1], page, []))
  {
  }

  /** Fewer are too few. */
  lemma TwoFieldsAreTooFew(table: map<Bytes, Bytes>, resource: Bytes, action: Bytes)
    requires '~' !in resource && '~' !in action
    ensures Decode(table, LIST + (resource + "~" + action)) == None && Decode(table, LIST + resource) == None
  {
    DecodeOfList(table, resource + "~" + action);
    DecodeOfList(table, resource);
    SplitNFirst(resource, action, 4);
    assert IndexOf(action, '~') == |action| && IndexOf(resource, '~') == |resource|;
  }

  /** Names are trimmed when they are read, too, and a blank one is not ours. */
  lemma NamesAreTrimmed(table: map<Bytes, Bytes>, name: Bytes)
    ensures Decode(table, SELECT + Escape(name)) == if Trim(name) == [] then None else Some(ModelSelect(Trim(name)))
    ensures Decode(table, SKILL + Escape(name)) == if Trim(name) == [] then None else Some(SkillActivate(Trim(name)))
  {
    NameIsRead(name);
    DecodeOfSelect(table, Escape(name));
    DecodeOfSkill(table, Escape(name));
    EscapedIsNoToken(table, name);
  }

  lemma NameIsRead(name: Bytes)
    ensures DecodeName(Escape(name)) == if Trim(name) == [] then None else Some(Trim(name))
  {
    UnescapeEscape(name);
  }

  lemma EscapedIsNoToken(table: map<Bytes, Bytes>, name: Bytes)
    ensures Resolve(table, Escape(name)) == Escape(name)
  {
    EscapeIsPlain(name);
  }

  /** A name that is not escaped properly is not ours. */
  lemma BadNamesAreNotOurs(table: map<Bytes, Bytes>, name: Bytes)
    requires Unescape(name) == None && name != [] && name[0] != '#'
    ensures Decode(table, SELECT + name) == None && Decode(table, SKILL + name) == None
  {
    DecodeOfSelect(table, name);
    DecodeOfSkill(table, name);
  }

  /** A button whose payload is gone lists without arguments, or is not ours. */
  lemma EvictedTokens(table: map<Bytes, Bytes>, token: Bytes, resource: Bytes, action: Bytes, page: int)
    requires token !in table && '~' !in resource && '~' !in action && 0 <= page <= MAX_INT
    ensures Decode(table, ListBase(resource, action, page) + ("#" + token)) == Some(ListPage(resource, action, page, []))
    ensures Decode(table, SKILL + ("#" + token)) == None
  {
    var payload: Bytes := "#" + token;
    assert payload[1..] == token;
    DecodeListData(table, resource, action, page, payload);
    DecodeOfSkill(table, payload);
    assert TrimAll(UnescapeAll(Fields([]))) == [];
  }

  /** Nothing outside the name space is ours. */
  lemma OnlyOurs(table: map<Bytes, Bytes>, data: Bytes)
    requires Decode(table, data).Some?
    ensures NAMESPACE <= data
  {
    assert LIST[..2] == NAMESPACE && PROVIDER[..2] == NAMESPACE && SELECT[..2] == NAMESPACE && RANGE[..2] == NAMESPACE;
    assert CONFIRM[..2] == NAMESPACE && SKILL[..2] == NAMESPACE && DISMISS[..2] == NAMESPACE && NOOP[..2] == NAMESPACE;
  }
}
