/** Exactly which texts are addresses and networks, and what they stand for. */
module CidrLaws {
  import opened CidrModel
  import opened Strings
  import opened Options

  // Digits.

  const DECIMALS := "0123456789"
  const HEXADECIMALS := "0123456789abcdef"

  /** Numbers are read by place value, in base ten and in base sixteen. */
  lemma PlaceValue(digits: string, group: string, d: nat, h: nat)
    requires Digits(digits) && d < 10 && h < 16
    ensures Digits(digits + [DECIMALS[d]]) && Decimal(digits + [DECIMALS[d]]) == 10 * Decimal(digits) + d
    ensures HexValue(group + [HEXADECIMALS[h]]) == 16 * HexValue(group) + h
    ensures Decimal("") == 0 && HexValue("") == 0
  {
    hide Power16;
    DecimalPlace(d);
    HexPlace(h);
    assert (digits + [DECIMALS[d]])[..|digits|] == digits;
    assert (group + [HEXADECIMALS[h]])[..|group|] == group;
  }

  lemma DecimalPlace(d: nat)
    requires d < 10
    ensures '0' <= DECIMALS[d] <= '9' && DECIMALS[d] as int - '0' as int == d
  {
  }

  lemma HexPlace(h: nat)
    requires h < 16
    ensures HexValueOf(HEXADECIMALS[h]) == h
  {
  }

  // Dotted addresses.

  ghost predicate FourParts(text: string, parts: seq<string>, bytes: seq<Byte>) {
    && |parts| == 4 && |bytes| == 4 && text == Join(parts, '.')
    && forall i :: 0 <= i < 4 ==> 1 <= |parts[i]| <= 3 && Digits(parts[i]) && Decimal(parts[i]) == bytes[i]
  }

  /** A text is a dotted address if and only if it is four numbers of one to three digits, none above 255,
      with dots between them; and those are its bytes. */
  lemma DottedIff(text: string, bytes: seq<Byte>)
    ensures ParseIpv4(text) == Some(bytes) <==> exists parts :: FourParts(text, parts, bytes)
  {
    hide Split, Join, Decimal;
    if ParseIpv4(text) == Some(bytes) {
      var parts := Split(text, '.');
      JoinSplit(text, '.');
      forall i | 0 <= i < 4
        ensures 1 <= |parts[i]| <= 3 && Digits(parts[i]) && Decimal(parts[i]) == bytes[i]
      {
        assert parts[i] in parts;
      }
      assert FourParts(text, parts, bytes);
    }
    if parts :| FourParts(text, parts, bytes) {
      assert forall part :: part in parts ==> '.' !in part;
      SplitJoin(parts, '.');
      OctetsAre(parts, bytes);
    }
  }

  lemma OctetsAre(parts: seq<string>, bytes: seq<Byte>)
    requires |parts| == 4 && |bytes| == 4
    requires forall i :: 0 <= i < 4 ==> 1 <= |parts[i]| <= 3 && Digits(parts[i]) && Decimal(parts[i]) == bytes[i]
    ensures forall part :: part in parts ==> IsOctet(part)
    ensures [Octet(parts[0]), Octet(parts[1]), Octet(parts[2]), Octet(parts[3])] == bytes
  {
    hide Decimal;
    assert bytes == [bytes[0], bytes[1], bytes[2], bytes[3]];
  }

  // Literals of groups.

  predicate FourHex(group: string) {
    1 <= |group| <= 4 && forall i :: 0 <= i < |group| ==> '0' <= group[i] <= '9' || 'a' <= group[i] <= 'f'
  }

  /** Groups of one to four hexadecimal digits: eight, or at most seven around one `::`. */
  ghost predicate Literal(text: string, halves: Halves) {
    match halves
    case Plain(groups) =>
      |groups| == 8 && (forall group :: group in groups ==> FourHex(group)) && text == Join(groups, ':')
    case Compressed(left, right) =>
      && |left| + |right| <= 7 && (forall group :: group in left + right ==> FourHex(group))
      && text == (if left == [] then "" else Join(left, ':')) + "::" + (if right == [] then "" else Join(right, ':'))
    case TooMany => false
  }

  /** The number at place `k` of the eight. */
  function At(halves: Halves, k: nat): nat
    requires k < 8 && (halves.Plain? ==> |halves.groups| == 8)
    requires halves.Compressed? ==> |halves.left| + |halves.right| <= 7
  {
    match halves
    case Plain(groups) => HexValue(groups[k])
    case Compressed(left, right) =>
      if k < |left| then HexValue(left[k])
      else if k >= 8 - |right| then HexValue(right[k - (8 - |right|)])
      else 0
    case TooMany => 0
  }

  lemma FourHexIs(group: string)
    ensures FourHex(group) <==> IsGroup(group)
  {
  }

  lemma LiteralFits(text: string, halves: Halves)
    requires !halves.TooMany?
    ensures Literal(text, halves) <==> GroupsFit(halves) && text == Written(halves) && EightGroups(halves).Some?
  {
    forall group
      ensures FourHex(group) <==> IsGroup(group)
    {
      FourHexIs(group);
    }
    hide FourHex, IsGroup, Join;
    if halves.Compressed? {
      assert forall group :: group in halves.left + halves.right <==> group in halves.left || group in halves.right;
    }
  }

  /** A text without dots is an IPv6 literal if and only if it is written so, in any case of the letters. */
  lemma LiteralIff(input: string)
    requires '.' !in Lower(input)
    ensures ParseIpv6(input).Some? <==> exists halves :: Literal(Lower(input), halves)
  {
    hide Literal, EightGroups, HalvesOf, GroupsFit, Written, BytesOf, ParseIpv6;
    if ParseIpv6(input).Some? {
      AcceptedIsWritten(input);
      var halves := HalvesOf(Undotted(Lower(input)).value);
      UndottedSame(Lower(input));
      assert !halves.TooMany? by { FitsIsNotTooMany(halves); }
      LiteralFits(Lower(input), halves);
    }
    if halves :| Literal(Lower(input), halves) {
      assert !halves.TooMany? by { LiteralIsNotTooMany(Lower(input), halves); }
      LiteralFits(Lower(input), halves);
      GroupsRead(input, halves);
    }
  }

  lemma UndottedSame(text: string)
    requires '.' !in text
    ensures Undotted(text).Some? ==> Undotted(text).value == text
  {
  }

  lemma FitsIsNotTooMany(halves: Halves)
    requires GroupsFit(halves)
    ensures !halves.TooMany?
  {
  }

  lemma LiteralIsNotTooMany(text: string, halves: Halves)
    requires Literal(text, halves)
    ensures !halves.TooMany?
  {
  }

  function TwoBytes(bytes: seq<Byte>, k: nat): nat
    requires 2 * k + 1 < |bytes|
  {
    var high: nat, low: nat := bytes[2 * k], bytes[2 * k + 1];
    high * 256 + low
  }

  lemma {:induction false} BytesAt(groups: seq<string>, k: nat)
    requires k < |groups| && forall group :: group in groups ==> FourHex(group)
    ensures TwoBytes(BytesOf(groups), k) == HexValue(groups[k])
    decreases |groups|
  {
    hide HexValue, GroupBytes;
    var front, last := groups[..|groups| - 1], groups[|groups| - 1];
    assert last in groups && forall group :: group in front ==> group in groups;
    if k < |groups| - 1 {
      BytesAt(front, k);
    } else {
      GroupIsPair(last);
    }
  }

  lemma GroupIsPair(group: string)
    requires FourHex(group)
    ensures TwoBytes(GroupBytes(group), 0) == HexValue(group)
  {
    hide HexValue;
    assert HexValue(group) < 65536;
  }

  /** And then each pair of its sixteen bytes is the number at that place: the groups left of `::` come
      first, those right of it last, and zeros are between. */
  lemma LiteralBytes(input: string, halves: Halves, k: nat)
    requires '.' !in Lower(input) && Literal(Lower(input), halves) && k < 8
    ensures ParseIpv6(input).Some?
    ensures TwoBytes(ParseIpv6(input).value, k) == At(halves, k)
  {
    hide BytesOf, HexValue, ParseIpv6, Written, GroupsFit, Join, FourHex;
    LiteralIsNotTooMany(Lower(input), halves);
    LiteralFits(Lower(input), halves);
    GroupsRead(input, halves);
    var groups := EightGroups(halves).value;
    EightFit(Lower(input), halves);
    BytesAt(groups, k);
    ZeroGroup();
  }

  lemma ZeroGroup()
    ensures HexValue("0") == 0 && FourHex("0")
  {
    assert "0"[..0] == "";
  }

  lemma EightFit(text: string, halves: Halves)
    requires Literal(text, halves) && EightGroups(halves).Some?
    ensures |EightGroups(halves).value| == 8 && forall group :: group in EightGroups(halves).value ==> FourHex(group)
  {
    hide FourHex, Join;
    ZeroGroup();
    if halves.Compressed? {
      assert forall group :: group in halves.left || group in halves.right ==> group in halves.left + halves.right;
    }
  }

  // Addresses.

  /** Brackets around an address do not matter. */
  lemma BracketsAside(host: string)
    requires host == "" || host[0] != '['
    ensures ParseAddress(['['] + host + [']']) == ParseAddress(host)
  {
    hide ParseIpv6, ParseIpv4, Mapped;
    assert (['['] + host + [']'])[1..|host| + 1] == host;
  }

  /** With a colon an address is an IPv6 literal, or an IPv4 address when its first ten bytes are zero and the
      next two are 255; without one it is a dotted IPv4 address. */
  lemma AddressIs(host: string)
    requires host == "" || host[0] != '['
    ensures ParseAddress(host)
            == if ':' !in host then
                 (match ParseIpv4(host) case None => None case Some(bytes) => Some(Address(false, bytes)))
               else
                 match ParseIpv6(host)
                 case None => None
                 case Some(bytes) =>
                   Some(if (forall i :: 0 <= i < 12 ==> bytes[i] == if i < 10 then 0 else 255)
                        then Address(false, bytes[12..]) else Address(true, bytes))
  {
    hide ParseIpv6, ParseIpv4;
  }

  // Networks.

  predicate Blanks(s: string) {
    forall i :: 0 <= i < |s| ==> s[i] == ' ' || s[i] == '\t' || s[i] == '\n' || s[i] == '\r'
  }

  /** Blanks around a text are taken off, all of them and nothing else. */
  lemma {:induction false} TrimIs(s: string) returns (before: string, after: string)
    ensures s == before + Trim(s) + after && Blanks(before) && Blanks(after)
    decreases |s|
  {
    if s != "" && Blank(s[0]) {
      var b, a := TrimIs(s[1..]);
      before, after := [s[0]] + b, a;
      InFront(s, b + Trim(s[1..]) + a);
      assert [s[0]] + (b + Trim(s[1..]) + a) == before + Trim(s[1..]) + a;
    } else if s != "" && Blank(s[|s| - 1]) {
      var b, a := TrimIs(s[..|s| - 1]);
      before, after := b, a + [s[|s| - 1]];
      Behind(s, b + Trim(s[..|s| - 1]) + a);
      assert (b + Trim(s[..|s| - 1]) + a) + [s[|s| - 1]] == b + Trim(s[..|s| - 1]) + after;
    } else {
      before, after := "", "";
    }
  }

  lemma InFront(s: string, rest: string)
    requires s != "" && s[1..] == rest
    ensures s == [s[0]] + rest
  {
  }

  lemma Behind(s: string, rest: string)
    requires s != "" && s[..|s| - 1] == rest
    ensures s == rest + [s[|s| - 1]]
  {
  }

  lemma {:induction false} TrimmedEnds(s: string)
    ensures Trim(s) != "" ==> !Blanks(Trim(s)[..1]) && !Blanks(Trim(s)[|Trim(s)| - 1..])
    decreases |s|
  {
    if s != "" && Blank(s[0]) {
      TrimmedEnds(s[1..]);
    } else if s != "" && Blank(s[|s| - 1]) {
      TrimmedEnds(s[..|s| - 1]);
    } else if s != "" {
      assert s[..1][0] == s[0] && s[|s| - 1..][0] == s[|s| - 1];
    }
  }

  /** The text is an address alone, which stands for all its bits, or one with a slash and a prefix length
      of one to three digits that the address has room for. */
  ghost predicate NetworkText(text: string, n: Network) {
    || (ParseAddress(text) == Some(n.base) && '/' !in text && n.prefix == 8 * |n.base.bytes|)
    || (exists base, length ::
          && text == base + ['/'] + length && '/' !in base && '/' !in length
          && ParseAddress(base) == Some(n.base)
          && 1 <= |length| <= 3 && Digits(length) && Decimal(length) == n.prefix <= 8 * |n.base.bytes|)
  }

  /** A network is read exactly when it is written so, blanks around it aside. */
  lemma NetworkIff(text: string, n: Network)
    ensures ParseNetwork(text) == Some(n) <==> NetworkText(Trim(text), n)
  {
    hide ParseAddress, Trim, Decimal, Split, Digits;
    var t := Trim(text);
    if '/' !in t {
      SplitFirst(t, '/', "");
      NoSlash(t, n);
    } else {
      Slashed(t, n);
    }
  }

  lemma NoSlash(t: string, n: Network)
    requires '/' !in t
    ensures NetworkText(t, n) <==> ParseAddress(t) == Some(n.base) && n.prefix == 8 * |n.base.bytes|
  {
    hide ParseAddress, Decimal, Digits;
    assert forall base: string, length: string :: (base + ['/'] + length)[|base|] == '/';
  }

  lemma Slashed(t: string, n: Network)
    requires '/' in t
    ensures var parts, base := Split(t, '/'), ParseAddress(Split(t, '/')[0]);
            NetworkText(t, n)
            <==> |parts| == 2 && base == Some(n.base)
                 && 1 <= |parts[1]| <= 3 && Digits(parts[1]) && Decimal(parts[1]) == n.prefix <= 8 * |n.base.bytes|
    ensures |Split(t, '/')| >= 2
  {
    hide ParseAddress, Decimal, Digits, Cut;
    SlashSplits(t);
    var parts := Split(t, '/');
    if |parts| == 2 {
      assert t == parts[0] + ['/'] + parts[1] && '/' !in parts[0] && '/' !in parts[1];
    }
    forall base, length | t == base + ['/'] + length && '/' !in base && '/' !in length
      ensures parts == [base, length]
    {
      SplitFirst(base, '/', length);
      SplitFirst(length, '/', "");
    }
  }

  lemma SlashSplits(t: string)
    requires '/' in t
    ensures |Split(t, '/')| >= 2
    ensures |Split(t, '/')| == 2 ==>
              var parts := Split(t, '/'); t == parts[0] + ['/'] + parts[1] && '/' !in parts[0] && '/' !in parts[1]
  {
    assert t[..|t|] == t;
    CutInThree(t, '/');
    var rest := After(t, '/');
    if Cut(rest, '/') == |rest| {
      assert rest[..|rest|] == rest;
    } else {
      assert |Split(rest, '/')| >= 2;
    }
  }
}
