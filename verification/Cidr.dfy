/** IP literals, and whether an address is inside a network written with a prefix length. */
module CidrModel {
  import opened Strings
  import opened Options

  type Byte = n: nat | n < 256

  datatype Address = Address(v6: bool, bytes: seq<Byte>)

  predicate WellFormed(a: Address) {
    |a.bytes| == if a.v6 then 16 else 4
  }

  // Bits, counted from the most significant one of the first byte.

  predicate Bit(b: bv8, i: nat) {
    match i
    case 0 => b & 0x80 != 0
    case 1 => b & 0x40 != 0
    case 2 => b & 0x20 != 0
    case 3 => b & 0x10 != 0
    case 4 => b & 0x08 != 0
    case 5 => b & 0x04 != 0
    case 6 => b & 0x02 != 0
    case _ => b & 0x01 != 0
  }

  function BitsOf(b: Byte): bv8 {
    b as bv8
  }

  predicate BitAt(bytes: seq<Byte>, k: nat)
    requires k < 8 * |bytes|
  {
    Bit(BitsOf(bytes[k / 8]), k % 8)
  }

  /** The first `prefix` bits are equal. */
  predicate SamePrefix(a: seq<Byte>, b: seq<Byte>, prefix: nat)
    requires prefix <= 8 * |a| && prefix <= 8 * |b|
  {
    forall k :: 0 <= k < prefix ==> BitAt(a, k) == BitAt(b, k)
  }

  function Mask(width: nat): bv8
    requires width <= 8
  {
    (0xff as bv8) << (8 - width)
  }

  lemma Masks()
    ensures Mask(1) == 0x80 && Mask(2) == 0xc0 && Mask(3) == 0xe0 && Mask(4) == 0xf0
    ensures Mask(5) == 0xf8 && Mask(6) == 0xfc && Mask(7) == 0xfe && Mask(8) == 0xff
  {
  }

  lemma LowMasks(a: bv8, b: bv8)
    ensures a & 0x80 == b & 0x80 <==> Bit(a, 0) == Bit(b, 0)
    ensures a & 0xc0 == b & 0xc0 <==> a & 0x80 == b & 0x80 && Bit(a, 1) == Bit(b, 1)
    ensures a & 0xe0 == b & 0xe0 <==> a & 0xc0 == b & 0xc0 && Bit(a, 2) == Bit(b, 2)
    ensures a & 0xf0 == b & 0xf0 <==> a & 0xe0 == b & 0xe0 && Bit(a, 3) == Bit(b, 3)
  {
  }

  lemma HighMasks(a: bv8, b: bv8)
    ensures a & 0xf8 == b & 0xf8 <==> a & 0xf0 == b & 0xf0 && Bit(a, 4) == Bit(b, 4)
    ensures a & 0xfc == b & 0xfc <==> a & 0xf8 == b & 0xf8 && Bit(a, 5) == Bit(b, 5)
    ensures a & 0xfe == b & 0xfe <==> a & 0xfc == b & 0xfc && Bit(a, 6) == Bit(b, 6)
    ensures a & 0xff == b & 0xff <==> a & 0xfe == b & 0xfe && Bit(a, 7) == Bit(b, 7)
  {
  }

  predicate SameMasked(a: bv8, b: bv8, width: nat)
    requires width <= 8
  {
    a & Mask(width) == b & Mask(width)
  }

  predicate SameFirst(a: bv8, b: bv8, width: nat) {
    forall i :: 0 <= i < width ==> Bit(a, i) == Bit(b, i)
  }

  /** Comparing bytes under the mask of a width compares their first bits. */
  lemma MaskComparesBits(a: bv8, b: bv8, width: nat)
    requires 1 <= width <= 8
    ensures SameMasked(a, b, width) <==> SameFirst(a, b, width)
  {
    Masks();
    LowMasks(a, b);
    HighMasks(a, b);
    hide Bit, Mask;
  }

  // Literals.

  predicate ShortDigits(part: string) {
    1 <= |part| <= 3 && Digits(part)
  }

  predicate IsOctet(part: string) {
    ShortDigits(part) && Decimal(part) <= 255
  }

  function Octet(part: string): Byte {
    if IsOctet(part) then Decimal(part) else 0
  }

  function ParseIpv4(text: string): Option<seq<Byte>> {
    var parts := Split(text, '.');
    if |parts| == 4 && (forall part :: part in parts ==> IsOctet(part))
    then Some([Octet(parts[0]), Octet(parts[1]), Octet(parts[2]), Octet(parts[3])])
    else None
  }

  predicate HexDigit(c: char) {
    '0' <= c <= '9' || 'a' <= c <= 'f'
  }

  predicate IsGroup(group: string) {
    1 <= |group| <= 4 && forall i :: 0 <= i < |group| ==> HexDigit(group[i])
  }

  function HexValueOf(c: char): nat {
    if '0' <= c <= '9' then c as int - '0' as int else if 'a' <= c <= 'f' then c as int - 'a' as int + 10 else 0
  }

  function HexValue(group: string): (n: nat)
    ensures |group| <= 4 ==> n < Power16(|group|)
  {
    if group == "" then 0 else HexValue(group[..|group| - 1]) * 16 + HexValueOf(group[|group| - 1])
  }

  function Power16(n: nat): nat {
    if n == 0 then 1 else if n == 1 then 16 else if n == 2 then 256 else if n == 3 then 4096 else 65536
  }

  function HexChar(d: nat): char
    requires d < 16
  {
    if d < 10 then (d + '0' as int) as char else (d - 10 + 'a' as int) as char
  }

  function HexText(n: nat): (text: string)
    ensures text != "" && forall i :: 0 <= i < |text| ==> HexDigit(text[i])
    ensures n < 65536 ==> |text| <= 4
    ensures n < 4096 ==> |text| <= 3
    ensures n < 256 ==> |text| <= 2
  {
    if n < 16 then [HexChar(n)] else HexText(n / 16) + [HexChar(n % 16)]
  }

  lemma {:induction false} HexRoundTrip(n: nat)
    ensures HexValue(HexText(n)) == n
  {
    var text := HexText(n);
    if n < 16 {
      assert text[..|text| - 1] == "";
    } else {
      HexRoundTrip(n / 16);
      assert text[..|text| - 1] == HexText(n / 16);
    }
  }

  function GroupBytes(group: string): (bytes: seq<Byte>)
    ensures |bytes| == 2
  {
    var value := HexValue(group) % 65536;
    [value / 256, value % 256]
  }

  function BytesOf(groups: seq<string>): (bytes: seq<Byte>)
    ensures |bytes| == 2 * |groups|
  {
    if groups == [] then [] else BytesOf(groups[..|groups| - 1]) + GroupBytes(groups[|groups| - 1])
  }

  /** Where `c` last occurs in `s`, or -1. */
  function LastIndex(s: string, c: char): (k: int)
    ensures -1 <= k < |s| && (k >= 0 ==> s[k] == c)
    ensures forall j :: k < j < |s| ==> s[j] != c
  {
    if s == "" then -1 else if s[|s| - 1] == c then |s| - 1 else LastIndex(s[..|s| - 1], c)
  }

  /** The dotted form of the last four bytes, rewritten as two groups. */
  function Undotted(text: string): Option<string> {
    var last := LastIndex(text, ':');
    if last < 0 then None
    else if '.' !in text[last + 1..] then Some(text)
    else
      var v4 := ParseIpv4(text[last + 1..]);
      if v4.None? then None
      else
        Some(text[..last + 1] + HexText(Pair(v4.value[0], v4.value[1])) + [':']
             + HexText(Pair(v4.value[2], v4.value[3])))
  }

  function Pair(a: Byte, b: Byte): (n: nat)
    ensures n < 65536
  {
    a * 256 + b
  }

  /** Where `::` first occurs, or the end. */
  function DoubleAt(s: string): (k: nat)
    ensures k <= |s| && (k < |s| ==> k + 1 < |s| && s[k] == ':' && s[k + 1] == ':')
    ensures forall j :: 0 <= j < k && j + 1 < |s| ==> !(s[j] == ':' && s[j + 1] == ':')
  {
    if |s| < 2 then |s|
    else if s[0] == ':' && s[1] == ':' then 0
    else 1 + DoubleAt(s[1..])
  }

  function GroupsOf(part: string): seq<string> {
    if part == "" then [] else Split(part, ':')
  }

  datatype Halves = Plain(groups: seq<string>) | Compressed(left: seq<string>, right: seq<string>) | TooMany

  function HalvesOf(text: string): Halves {
    var k := DoubleAt(text);
    if k == |text| then Plain(GroupsOf(text))
    else if DoubleAt(text[k + 2..]) < |text[k + 2..]| then TooMany
    else Compressed(GroupsOf(text[..k]), GroupsOf(text[k + 2..]))
  }

  function Zeros(n: nat): seq<string> {
    seq(n, i => "0")
  }

  /** The eight groups the text stands for, `::` filled with zeros. */
  function EightGroups(halves: Halves): Option<seq<string>> {
    match halves
    case Plain(groups) => if |groups| == 8 then Some(groups) else None
    case Compressed(left, right) =>
      if |left| + |right| <= 7 then Some(left + Zeros(8 - |left| - |right|) + right) else None
    case TooMany => None
  }

  predicate AllGroups(groups: seq<string>) {
    forall group :: group in groups ==> IsGroup(group)
  }

  function ParseIpv6(input: string): (bytes: Option<seq<Byte>>)
    ensures bytes.Some? ==> |bytes.value| == 16
  {
    var text := Undotted(Lower(input));
    if text.None? then None
    else
      var groups := EightGroups(HalvesOf(text.value));
      if groups.None? || !AllGroups(groups.value) then None else Some(BytesOf(groups.value))
  }

  predicate Mapped(bytes: seq<Byte>) {
    |bytes| == 16 && (forall i :: 0 <= i < 10 ==> bytes[i] == 0) && bytes[10] == 0xff && bytes[11] == 0xff
  }

  function Unbracketed(host: string): string {
    if |host| >= 2 && host[0] == '[' && host[|host| - 1] == ']' then host[1..|host| - 1] else host
  }

  function ParseAddress(host: string): (a: Option<Address>)
    ensures a.Some? ==> WellFormed(a.value)
  {
    var literal := Unbracketed(host);
    if ':' in literal then
      var bytes := ParseIpv6(literal);
      if bytes.None? then None
      else if Mapped(bytes.value) then Some(Address(false, bytes.value[12..]))
      else Some(Address(true, bytes.value))
    else
      var bytes := ParseIpv4(literal);
      if bytes.None? then None else Some(Address(false, bytes.value))
  }

  predicate Blank(c: char) {
    c == ' ' || c == '\t' || c == '\n' || c == '\r'
  }

  function Trim(s: string): string {
    if s != "" && Blank(s[0]) then Trim(s[1..])
    else if s != "" && Blank(s[|s| - 1]) then Trim(s[..|s| - 1])
    else s
  }

  datatype Network = Network(base: Address, prefix: nat)

  /** A network as it is written: an address, and a prefix length or all its bits. */
  function ParseNetwork(text: string): (n: Option<Network>)
    ensures n.Some? ==> WellFormed(n.value.base) && n.value.prefix <= 8 * |n.value.base.bytes|
  {
    var parts := Split(Trim(text), '/');
    var base := ParseAddress(parts[0]);
    if |parts| > 2 || base.None? then None
    else if |parts| == 1 then Some(Network(base.value, 8 * |base.value.bytes|))
    else if !ShortDigits(parts[1]) || Decimal(parts[1]) > 8 * |base.value.bytes| then None
    else Some(Network(base.value, Decimal(parts[1])))
  }

  // Written forms: every literal of the grammar reads back as its bytes.

  function Dotted(a: nat, b: nat, c: nat, d: nat): string {
    Join([DecimalText(a), DecimalText(b), DecimalText(c), DecimalText(d)], '.')
  }

  lemma {:induction false} DigitsOf(n: nat)
    ensures n < 10 ==> |DecimalText(n)| == 1
    ensures n < 100 ==> |DecimalText(n)| <= 2
    ensures n < 1000 ==> |DecimalText(n)| <= 3
  {
    if n >= 10 {
      DigitsOf(n / 10);
    }
  }

  lemma OctetText(n: nat)
    requires n <= 255
    ensures IsOctet(DecimalText(n)) && Octet(DecimalText(n)) == n && '.' !in DecimalText(n) && ':' !in DecimalText(n)
  {
    DigitsOf(n);
    DecimalOfText(n);
  }

  lemma DottedSplits(a: nat, b: nat, c: nat, d: nat)
    ensures Split(Dotted(a, b, c, d), '.') == [DecimalText(a), DecimalText(b), DecimalText(c), DecimalText(d)]
  {
    SplitJoin([DecimalText(a), DecimalText(b), DecimalText(c), DecimalText(d)], '.');
  }

  /** A dotted address reads as its four bytes. */
  lemma DottedReads(a: nat, b: nat, c: nat, d: nat)
    requires a <= 255 && b <= 255 && c <= 255 && d <= 255
    ensures ParseIpv4(Dotted(a, b, c, d)) == Some([a, b, c, d])
  {
    hide Split, Octet, IsOctet, Dotted;
    DottedSplits(a, b, c, d);
    OctetText(a);
    OctetText(b);
    OctetText(c);
    OctetText(d);
  }

  function Written(halves: Halves): string
    requires !halves.TooMany?
  {
    match halves
    case Plain(groups) => Colons(groups)
    case Compressed(left, right) => Colons(left) + "::" + Colons(right)
  }

  function Colons(groups: seq<string>): string {
    if groups == [] then "" else Join(groups, ':')
  }

  /** The groups of a literal: hexadecimal, and eight unless `::` stands for some of them. */
  predicate GroupsFit(halves: Halves) {
    match halves
    case Plain(groups) => AllGroups(groups) && |groups| == 8
    case Compressed(left, right) => AllGroups(left) && AllGroups(right)
    case TooMany => false
  }

  lemma ColonsSplit(groups: seq<string>)
    requires AllGroups(groups)
    ensures GroupsOf(Colons(groups)) == groups
  {
    if groups != [] {
      forall group | group in groups
        ensures ':' !in group
      {
      }
      SplitJoin(groups, ':');
      assert groups[0] in groups;
      assert Colons(groups)[0] == groups[0][0];
    }
  }

  predicate NoDouble(s: string) {
    forall j :: 0 <= j && j + 1 < |s| ==> !(s[j] == ':' && s[j + 1] == ':')
  }

  /** A run of groups starts and ends with a digit, and has no two colons together. */
  lemma {:induction false} ColonsPlain(groups: seq<string>)
    requires AllGroups(groups) && groups != []
    ensures NoDouble(Colons(groups)) && Colons(groups) != ""
    ensures HexDigit(Colons(groups)[0]) && HexDigit(Colons(groups)[|Colons(groups)| - 1])
    ensures forall i :: 0 <= i < |Colons(groups)| ==> HexDigit(Colons(groups)[i]) || Colons(groups)[i] == ':'
  {
    assert groups[0] in groups;
    if |groups| > 1 {
      ColonsPlain(groups[1..]);
      assert Colons(groups) == groups[0] + [':'] + Colons(groups[1..]);
      GlueOne(groups[0], Colons(groups[1..]));
    }
  }

  lemma GlueOne(a: string, b: string)
    requires IsGroup(a) && b != "" && NoDouble(b) && HexDigit(b[0])
    ensures NoDouble(a + [':'] + b)
  {
    var s := a + [':'] + b;
    forall j | 0 <= j && j + 1 < |s|
      ensures !(s[j] == ':' && s[j + 1] == ':')
    {
      if j > |a| {
        assert s[j] == b[j - |a| - 1] && s[j + 1] == b[j - |a|];
      }
    }
  }

  lemma DoubleFound(a: string, b: string)
    requires NoDouble(a) && (a != "" ==> a[|a| - 1] != ':')
    ensures DoubleAt(a + "::" + b) == |a|
  {
    var s := a + "::" + b;
    assert s[|a|] == ':' && s[|a| + 1] == ':';
    forall j | 0 <= j < |a|
      ensures !(s[j] == ':' && s[j + 1] == ':')
    {
      assert s[j] == a[j] && (j + 1 < |a| ==> s[j + 1] == a[j + 1]);
    }
  }

  lemma NoDoubleAtEnd(s: string)
    requires NoDouble(s)
    ensures DoubleAt(s) == |s|
  {
  }

  lemma ColonsNoDouble(groups: seq<string>)
    requires AllGroups(groups)
    ensures NoDouble(Colons(groups)) && DoubleAt(Colons(groups)) == |Colons(groups)|
    ensures Colons(groups) != "" ==> Colons(groups)[|Colons(groups)| - 1] != ':'
  {
    if groups != [] {
      ColonsPlain(groups);
    }
    NoDoubleAtEnd(Colons(groups));
  }

  /** A written literal is taken apart into the groups it was written with. */
  lemma HalvesRead(halves: Halves)
    requires GroupsFit(halves)
    ensures HalvesOf(Written(halves)) == halves
  {
    match halves
    case Plain(groups) =>
      ColonsNoDouble(groups);
      ColonsSplit(groups);
    case Compressed(left, right) =>
      ColonsNoDouble(left);
      ColonsNoDouble(right);
      DoubleFound(Colons(left), Colons(right));
      ColonsSplit(left);
      ColonsSplit(right);
      var text := Written(halves);
      assert text[..|Colons(left)|] == Colons(left) && text[|Colons(left)| + 2..] == Colons(right);
  }

  lemma WrittenChars(halves: Halves)
    requires GroupsFit(halves)
    ensures forall i :: 0 <= i < |Written(halves)| ==> HexDigit(Written(halves)[i]) || Written(halves)[i] == ':'
    ensures ':' in Written(halves)
  {
    match halves
    case Plain(groups) =>
      ColonsPlain(groups);
      assert Colons(groups) == groups[0] + [':'] + Colons(groups[1..]);
      assert Colons(groups)[|groups[0]|] == ':';
    case Compressed(left, right) =>
      if left != [] {
        ColonsPlain(left);
      }
      if right != [] {
        ColonsPlain(right);
      }
      assert Written(halves)[|Colons(left)|] == ':';
  }

  lemma WrittenPlain(halves: Halves)
    requires GroupsFit(halves)
    ensures ':' in Written(halves) && '.' !in Written(halves)
  {
    hide Written, GroupsFit;
    WrittenChars(halves);
  }

  lemma UndottedPlain(text: string)
    requires ':' in text && '.' !in text
    ensures Undotted(text) == Some(text)
  {
  }

  lemma EightAreGroups(halves: Halves)
    requires GroupsFit(halves) && EightGroups(halves).Some?
    ensures AllGroups(EightGroups(halves).value) && |EightGroups(halves).value| == 8
  {
    assert IsGroup("0");
  }

  /** A literal of groups, in any case, reads as those groups' bytes with `::` filled by zeros; it
      is refused exactly when `::` would stand for no group at all. */
  lemma GroupsRead(input: string, halves: Halves)
    requires GroupsFit(halves) && Lower(input) == Written(halves)
    ensures ParseIpv6(input) == if EightGroups(halves).None? then None else Some(BytesOf(EightGroups(halves).value))
  {
    hide Undotted, HalvesOf, Written, AllGroups, BytesOf, ParseIpv6, EightGroups, Lower;
    WrittenPlain(halves);
    HalvesRead(halves);
    hide GroupsFit;
    UndottedPlain(Written(halves));
    ReadBy(input, Written(halves), halves);
    if EightGroups(halves).Some? {
      EightAreGroups(halves);
    }
  }

  lemma ReadBy(input: string, text: string, halves: Halves)
    requires Lower(input) == text && Undotted(text) == Some(text) && HalvesOf(text) == halves
    ensures ParseIpv6(input) == if EightGroups(halves).None? || !AllGroups(EightGroups(halves).value) then None
                                else Some(BytesOf(EightGroups(halves).value))
  {
    hide Undotted, HalvesOf, AllGroups, BytesOf, EightGroups;
  }

  lemma ColonsOfGroups(part: string)
    ensures Colons(GroupsOf(part)) == part
  {
    if part != "" {
      JoinSplit(part, ':');
    }
  }

  /** And nothing else is accepted: the text, with a dotted tail rewritten, is a literal of the
      grammar, of eight groups or with `::` for at least one. */
  lemma AcceptedIsWritten(input: string)
    requires ParseIpv6(input).Some?
    ensures Undotted(Lower(input)).Some?
    ensures var halves := HalvesOf(Undotted(Lower(input)).value);
            && GroupsFit(halves) && Written(halves) == Undotted(Lower(input)).value
            && (halves.Compressed? ==> |halves.left| + |halves.right| <= 7)
            && EightGroups(halves).Some? && ParseIpv6(input).value == BytesOf(EightGroups(halves).value)
  {
    hide Undotted, HalvesOf, BytesOf, AllGroups;
    HalvesWritten(Undotted(Lower(input)).value);
    HalvesAreGroups(HalvesOf(Undotted(Lower(input)).value));
  }

  lemma HalvesAreGroups(halves: Halves)
    requires EightGroups(halves).Some? && AllGroups(EightGroups(halves).value)
    ensures GroupsFit(halves)
  {
    if halves.Compressed? {
      PartsAreGroups(halves.left, 8 - |halves.left| - |halves.right|, halves.right);
    }
  }

  lemma HalvesWritten(text: string)
    requires !HalvesOf(text).TooMany?
    ensures Written(HalvesOf(text)) == text
  {
    hide GroupsOf, Colons;
    var k := DoubleAt(text);
    if k == |text| {
      ColonsOfGroups(text);
    } else {
      ColonsOfGroups(text[..k]);
      ColonsOfGroups(text[k + 2..]);
      assert text == text[..k] + "::" + text[k + 2..];
    }
  }

  lemma PartsAreGroups(left: seq<string>, n: nat, right: seq<string>)
    requires AllGroups(left + Zeros(n) + right)
    ensures AllGroups(left) && AllGroups(right)
  {
    forall group | group in left || group in right
      ensures IsGroup(group)
    {
      assert group in left + Zeros(n) + right;
    }
  }

  // A dotted tail, and the addresses of IPv4 written in IPv6.

  lemma DottedChars(a: nat, b: nat, c: nat, d: nat)
    ensures forall i :: 0 <= i < |Dotted(a, b, c, d)| ==>
              '0' <= Dotted(a, b, c, d)[i] <= '9' || Dotted(a, b, c, d)[i] == '.'
    ensures '.' in Dotted(a, b, c, d)
  {
    JoinDots(DecimalText(a), DecimalText(b), DecimalText(c), DecimalText(d));
    assert Dotted(a, b, c, d)[|DecimalText(a)|] == '.';
  }

  lemma JoinDots(p: string, q: string, r: string, t: string)
    ensures Join([p, q, r, t], '.') == p + ['.'] + (q + ['.'] + (r + ['.'] + t))
  {
    hide Join;
    assert [p] + [q, r, t] == [p, q, r, t] && [q] + [r, t] == [q, r, t] && [r] + [t] == [r, t];
    JoinFirst(p, '.', [q, r, t]);
    JoinFirst(q, '.', [r, t]);
    JoinFirst(r, '.', [t]);
    JoinOne(t, '.');
  }

  lemma JoinOne(part: string, c: char)
    ensures Join([part], c) == part
  {
  }

  lemma LastIndexIs(s: string, c: char, k: nat)
    requires k < |s| && s[k] == c && c !in s[k + 1..]
    ensures LastIndex(s, c) == k
  {
    hide LastIndex;
    forall j | k < j < |s|
      ensures s[j] != c
    {
      assert s[j] == s[k + 1..][j - k - 1];
    }
  }

  lemma LastColon(front: string, tail: string)
    requires forall i :: 0 <= i < |tail| ==> tail[i] != ':'
    ensures LastIndex(front + [':'] + tail, ':') == |front|
  {
    hide LastIndex;
    var s := front + [':'] + tail;
    assert s[|front| + 1..] == tail;
    LastIndexIs(s, ':', |front|);
  }

  lemma UndottedTail(front: string, tail: string, v4: seq<Byte>)
    requires (forall i :: 0 <= i < |tail| ==> tail[i] != ':') && '.' in tail
    requires |v4| == 4 && ParseIpv4(tail) == Some(v4)
    ensures Undotted(front + [':'] + tail)
            == Some(front + [':'] + HexText(Pair(v4[0], v4[1])) + [':'] + HexText(Pair(v4[2], v4[3])))
  {
    hide ParseIpv4, HexText, LastIndex, Pair;
    var text := front + [':'] + tail;
    LastColon(front, tail);
    assert text[|front| + 1..] == tail && text[..|front| + 1] == front + [':'];
  }

  lemma PairOf(a: nat, b: nat)
    requires a <= 255 && b <= 255
    ensures Pair(a, b) == a * 256 + b
  {
  }

  /** A dotted tail stands for the two groups of its four bytes. */
  lemma DottedTail(front: string, a: nat, b: nat, c: nat, d: nat)
    requires a <= 255 && b <= 255 && c <= 255 && d <= 255
    ensures Undotted(front + [':'] + Dotted(a, b, c, d))
            == Some(front + [':'] + HexText(a * 256 + b) + [':'] + HexText(c * 256 + d))
  {
    hide ParseIpv4, Dotted, HexText, Undotted, Pair;
    DottedChars(a, b, c, d);
    DottedReads(a, b, c, d);
    PairOf(a, b);
    PairOf(c, d);
    UndottedTail(front, Dotted(a, b, c, d), [a, b, c, d]);
  }

  lemma HexTextGroup(n: nat)
    requires n < 65536
    ensures IsGroup(HexText(n)) && HexValue(HexText(n)) == n
  {
    HexRoundTrip(n);
  }

  lemma {:induction false} BytesOfConcat(a: seq<string>, b: seq<string>)
    ensures BytesOf(a + b) == BytesOf(a) + BytesOf(b)
    decreases |b|
  {
    hide GroupBytes;
    if b == [] {
      assert a + b == a;
    } else {
      assert (a + b)[..|a + b| - 1] == a + b[..|b| - 1];
      BytesOfConcat(a, b[..|b| - 1]);
    }
  }

  lemma BytesOfOne(group: string)
    ensures BytesOf([group]) == GroupBytes(group)
  {
    hide GroupBytes;
    assert [group][..0] == [];
  }

  lemma {:induction false} BytesOfZeros(n: nat)
    ensures forall i :: 0 <= i < 2 * n ==> BytesOf(Zeros(n))[i] == 0
  {
    if n > 0 {
      BytesOfZeros(n - 1);
      assert Zeros(n)[..n - 1] == Zeros(n - 1) && Zeros(n)[n - 1] == "0";
      ZeroGroup();
    }
  }

  lemma ZeroGroup()
    ensures GroupBytes("0") == [0, 0]
  {
    assert "0"[..0] == "";
  }

  lemma MappedBytes(high: string, low: string)
    ensures Mapped(BytesOf(Zeros(5) + ["ffff", high, low]))
    ensures BytesOf(Zeros(5) + ["ffff", high, low])[12..] == GroupBytes(high) + GroupBytes(low)
  {
    hide GroupBytes, BytesOf;
    BytesOfZeros(5);
    HexFfff();
    var bytes := BytesOf(Zeros(5) + ["ffff", high, low]);
    BytesOfConcat(Zeros(5), ["ffff", high, low]);
    BytesOfConcat(["ffff"], [high, low]);
    BytesOfConcat([high], [low]);
    assert ["ffff"] + [high, low] == ["ffff", high, low] && [high] + [low] == [high, low];
    BytesOfOne("ffff");
    BytesOfOne(high);
    BytesOfOne(low);
    assert bytes == BytesOf(Zeros(5)) + ([0xff, 0xff] + (GroupBytes(high) + GroupBytes(low)));
  }

  lemma HexFfff()
    ensures GroupBytes("ffff") == [0xff, 0xff]
  {
    assert "ffff"[..3] == "fff" && "fff"[..2] == "ff" && "ff"[..1] == "f" && "f"[..0] == "";
    assert HexValue("f") == 15;
    assert HexValue("ff") == 255;
    assert HexValue("fff") == 4095;
    assert HexValue("ffff") == 65535;
  }

  lemma PairBytes(a: nat, b: nat)
    requires a <= 255 && b <= 255
    ensures GroupBytes(HexText(a * 256 + b)) == [a, b]
  {
    hide HexText, HexValue, IsGroup;
    HexTextGroup(a * 256 + b);
    Halve(a, b);
  }

  lemma Halve(a: nat, b: nat)
    requires a <= 255 && b <= 255
    ensures (a * 256 + b) % 65536 == a * 256 + b && (a * 256 + b) / 256 == a && (a * 256 + b) % 256 == b
  {
  }

  /** An IPv4 address written inside IPv6 is read as the IPv4 address itself. */
  lemma MappedReadsAsIpv4(a: nat, b: nat, c: nat, d: nat)
    requires a <= 255 && b <= 255 && c <= 255 && d <= 255
    ensures ParseIpv6("::ffff:" + Dotted(a, b, c, d)).Some?
    ensures Mapped(ParseIpv6("::ffff:" + Dotted(a, b, c, d)).value)
    ensures ParseIpv6("::ffff:" + Dotted(a, b, c, d)).value[12..] == [a, b, c, d]
  {
    hide ParseIpv6, Dotted, HexText, Undotted, Mapped, IsGroup, BytesOf, GroupBytes, HexValue, LowerChar, Lower;
    var high, low := HexText(a * 256 + b), HexText(c * 256 + d);
    HexTextGroup(a * 256 + b);
    HexTextGroup(c * 256 + d);
    MappedUndotted(a, b, c, d);
    MappedHalves("::ffff:" + Dotted(a, b, c, d), high, low);
    MappedBytes(high, low);
    PairBytes(a, b);
    PairBytes(c, d);
  }

  lemma MappedUndotted(a: nat, b: nat, c: nat, d: nat)
    requires a <= 255 && b <= 255 && c <= 255 && d <= 255
    ensures Undotted(Lower("::ffff:" + Dotted(a, b, c, d)))
            == Some("::ffff" + [':'] + HexText(a * 256 + b) + [':'] + HexText(c * 256 + d))
  {
    hide Dotted, HexText, Undotted;
    var input := "::ffff" + [':'] + Dotted(a, b, c, d);
    assert input == "::ffff:" + Dotted(a, b, c, d);
    DottedChars(a, b, c, d);
    LowerOfItems(input);
    DottedTail("::ffff", a, b, c, d);
  }

  lemma MappedHalves(input: string, high: string, low: string)
    requires IsGroup(high) && IsGroup(low)
    requires Undotted(Lower(input)) == Some("::ffff" + [':'] + high + [':'] + low)
    ensures ParseIpv6(input) == Some(BytesOf(Zeros(5) + ["ffff", high, low]))
  {
    hide Undotted, HalvesOf, Written, AllGroups, BytesOf, Zeros, EightGroups, GroupsFit, IsGroup;
    var halves := Compressed([], ["ffff", high, low]);
    MappedText(high, low);
    MappedFits(high, low);
    HalvesRead(halves);
    EightAreGroups(halves);
  }

  lemma MappedFits(high: string, low: string)
    requires IsGroup(high) && IsGroup(low)
    ensures GroupsFit(Compressed([], ["ffff", high, low]))
    ensures EightGroups(Compressed([], ["ffff", high, low])) == Some(Zeros(5) + ["ffff", high, low])
  {
    assert IsGroup("ffff");
    var none: seq<string> := [];
    assert none + Zeros(5) + ["ffff", high, low] == Zeros(5) + ["ffff", high, low];
  }

  lemma MappedText(high: string, low: string)
    ensures Written(Compressed([], ["ffff", high, low])) == "::ffff" + [':'] + high + [':'] + low
  {
    hide Join;
    assert ["ffff"] + [high, low] == ["ffff", high, low] && [high] + [low] == [high, low];
    JoinFirst("ffff", ':', [high, low]);
    JoinFirst(high, ':', [low]);
    JoinOne(low, ':');
    assert Colons(["ffff", high, low]) == "ffff" + [':'] + (high + [':'] + low);
    hide Colons;
    Regrouped([':'], high + [':'] + low);
    assert high + [':'] + low == high + ([':'] + low);
    Regrouped([':'] + high, [':'] + low);
  }

  lemma Regrouped(a: string, b: string)
    ensures "" + "::" + ("ffff" + a + b) == "::ffff" + a + b
  {
  }

  lemma MappedLiteral(a: nat, b: nat, c: nat, d: nat)
    ensures Unbracketed("::ffff:" + Dotted(a, b, c, d)) == "::ffff:" + Dotted(a, b, c, d)
    ensures Unbracketed(Dotted(a, b, c, d)) == Dotted(a, b, c, d)
    ensures ':' in "::ffff:" + Dotted(a, b, c, d) && ':' !in Dotted(a, b, c, d)
  {
    DottedChars(a, b, c, d);
    hide Dotted;
    assert ("::ffff:" + Dotted(a, b, c, d))[0] == ':';
  }

  lemma MappedAddress(a: nat, b: nat, c: nat, d: nat)
    requires a <= 255 && b <= 255 && c <= 255 && d <= 255
    ensures ParseAddress("::ffff:" + Dotted(a, b, c, d)) == Some(Address(false, [a, b, c, d]))
    ensures ParseAddress(Dotted(a, b, c, d)) == Some(Address(false, [a, b, c, d]))
  {
    hide Dotted, ParseIpv6, ParseIpv4, Mapped, Unbracketed;
    MappedLiteral(a, b, c, d);
    MappedReadsAsIpv4(a, b, c, d);
    DottedReads(a, b, c, d);
  }

  lemma NetworkText(base: string, prefix: nat)
    requires base != "" && '/' !in base && !Blank(base[0])
    ensures Split(Trim(base + ['/'] + DecimalText(prefix)), '/') == [base, DecimalText(prefix)]
  {
    hide DecimalText;
    var text := base + ['/'] + DecimalText(prefix);
    assert text[0] == base[0] && text[|text| - 1] == DecimalText(prefix)[|DecimalText(prefix)| - 1];
    assert Trim(text) == text;
    var rest := DecimalText(prefix);
    hide Trim;
    SplitFirst(base, '/', rest);
    SplitFirst(rest, '/', "");
    assert [base] + [rest] == [base, rest];
  }

  /** A network is read as the address before the slash and the prefix length after it, which
      may not exceed the bits of that address. */
  lemma NetworkReads(base: string, address: Address, prefix: nat)
    requires ParseAddress(base) == Some(address) && base != "" && '/' !in base && !Blank(base[0]) && prefix < 1000
    ensures ParseNetwork(base + ['/'] + DecimalText(prefix))
            == if prefix <= 8 * |address.bytes| then Some(Network(address, prefix)) else None
  {
    DigitsOf(prefix);
    DecimalOfText(prefix);
    hide Split, Trim, DecimalText, Decimal, ParseAddress;
    NetworkText(base, prefix);
  }

  lemma MappedBase(a: nat, b: nat, c: nat, d: nat)
    ensures '/' !in "::ffff:" + Dotted(a, b, c, d)
  {
    DottedChars(a, b, c, d);
    hide Dotted;
    var base := "::ffff:" + Dotted(a, b, c, d);
    forall i | 0 <= i < |base|
      ensures base[i] != '/'
    {
      assert i >= 7 ==> base[i] == Dotted(a, b, c, d)[i - 7];
    }
  }

  /** A network written as an IPv4 address inside IPv6 counts its prefix in the 32 bits of that
      address: a length counted in 128 bits matches nothing. */
  lemma MappedNetworkIff(a: nat, b: nat, c: nat, d: nat, prefix: nat)
    requires a <= 255 && b <= 255 && c <= 255 && d <= 255 && prefix <= 128
    ensures var text := "::ffff:" + Dotted(a, b, c, d) + ['/'] + DecimalText(prefix);
            ParseNetwork(text) == if prefix <= 32 then Some(Network(Address(false, [a, b, c, d]), prefix)) else None
  {
    hide Dotted, ParseAddress, ParseNetwork, DecimalText;
    var base := "::ffff:" + Dotted(a, b, c, d);
    MappedAddress(a, b, c, d);
    MappedBase(a, b, c, d);
    assert base[0] == ':';
    NetworkReads(base, Address(false, [a, b, c, d]), prefix);
  }
}

module Cidr {
  import opened CidrModel
  import opened Strings
  import opened Options

  method ParseOctets(text: string) returns (bytes: Option<seq<Byte>>)
    ensures bytes == ParseIpv4(text)
  {
    hide Octet, Split, Decimal;
    var parts := Split(text, '.');
    if |parts| != 4 {
      return None;
    }
    var found: seq<Byte> := [];
    for i := 0 to |parts|
      invariant |found| == i && forall j :: 0 <= j < i ==> IsOctet(parts[j]) && found[j] == Octet(parts[j])
    {
      assert parts[i] in parts;
      if !ShortDigits(parts[i]) || Decimal(parts[i]) > 255 {
        return None;
      }
      found := found + [Octet(parts[i])];
    }
    assert found == [Octet(parts[0]), Octet(parts[1]), Octet(parts[2]), Octet(parts[3])];
    return Some(found);
  }

  method ParseGroups(groups: seq<string>) returns (bytes: Option<seq<Byte>>)
    ensures bytes == if AllGroups(groups) then Some(BytesOf(groups)) else None
  {
    var found: seq<Byte> := [];
    assert groups[..0] == [];
    for i := 0 to |groups|
      invariant found == BytesOf(groups[..i]) && AllGroups(groups[..i])
    {
      assert groups[..i + 1][..i] == groups[..i] && groups[..i + 1] == groups[..i] + [groups[i]];
      if !IsGroup(groups[i]) {
        return None;
      }
      found := found + GroupBytes(groups[i]);
    }
    assert groups[..|groups|] == groups;
    return Some(found);
  }

  /** Whether the address is inside the network: of its family, and with its first bits. */
  method InNetwork(address: Address, network: string) returns (inside: bool)
    requires CidrModel.WellFormed(address)
    ensures inside <==> ParseNetwork(network).Some? && ParseNetwork(network).value.base.v6 == address.v6 &&
                        SamePrefix(address.bytes, ParseNetwork(network).value.base.bytes,
                                   ParseNetwork(network).value.prefix)
  {
    var range := ParseNetwork(network);
    if range.None? || range.value.base.v6 != address.v6 {
      return false;
    }
    inside := SameBits(address.bytes, range.value.base.bytes, range.value.prefix);
  }

  /** The comparison byte by byte, under a mask for each. */
  method SameBits(a: seq<Byte>, b: seq<Byte>, prefix: nat) returns (same: bool)
    requires |a| == |b| && prefix <= 8 * |a|
    ensures same == SamePrefix(a, b, prefix)
  {
    hide SameMasked, BitAt, BitsOf;
    var bit := 0;
    while bit < prefix
      invariant bit % 8 == 0
      invariant forall k :: 0 <= k < bit && k < prefix ==> BitAt(a, k) == BitAt(b, k)
    {
      var index := bit / 8;
      var width := if prefix - bit < 8 then prefix - bit else 8;
      BitsOfByte(a, b, bit, width);
      if !SameMasked(BitsOf(a[index]), BitsOf(b[index]), width) {
        return false;
      }
      bit := bit + 8;
    }
    return true;
  }

  lemma BitsOfByte(a: seq<Byte>, b: seq<Byte>, bit: nat, width: nat)
    requires bit % 8 == 0 && 1 <= width <= 8 && bit + width <= 8 * |a| && |a| == |b| && bit < 8 * |a|
    ensures SameMasked(BitsOf(a[bit / 8]), BitsOf(b[bit / 8]), width)
            <==> forall k :: bit <= k < bit + width ==> BitAt(a, k) == BitAt(b, k)
  {
    hide Bit, BitsOf, SameMasked;
    MaskComparesBits(BitsOf(a[bit / 8]), BitsOf(b[bit / 8]), width);
    forall i | 0 <= i < width
      ensures BitAt(a, bit + i) == Bit(BitsOf(a[bit / 8]), i) && BitAt(b, bit + i) == Bit(BitsOf(b[bit / 8]), i)
    {
      WithinByte(bit, i);
    }
    forall k | bit <= k < bit + width
      ensures BitAt(a, k) == Bit(BitsOf(a[bit / 8]), k - bit) && BitAt(b, k) == Bit(BitsOf(b[bit / 8]), k - bit)
    {
      WithinByte(bit, k - bit);
    }
  }

  lemma WithinByte(bit: nat, i: nat)
    requires bit % 8 == 0 && i < 8
    ensures (bit + i) / 8 == bit / 8 && (bit + i) % 8 == i
  {
  }
}
