/** The field parser against the grammar the module documents: what each written item means. */
module CronGrammar {
  import opened CronText
  import opened Options
  import opened Strings

  /** Numbers as they are written, leading zeros included. */
  datatype Atom = Num(digits: string) | Name(text: string)

  datatype Base = Star | Span(first: Atom, last: Atom) | One(atom: Atom)

  /** A step is the text after a slash, which may be empty. */
  datatype Item = Item(base: Base, step: Option<string>)

  function AtomText(a: Atom): string {
    match a
    case Num(digits) => digits
    case Name(text) => text
  }

  function BaseText(b: Base): string {
    match b
    case Star => "*"
    case Span(first, last) => AtomText(first) + ['-'] + AtomText(last)
    case One(atom) => AtomText(atom)
  }

  function ItemText(item: Item): string {
    if item.step.None? then BaseText(item.base) else BaseText(item.base) + ['/'] + item.step.value
  }

  function Texts(items: seq<Item>): (texts: seq<string>)
    ensures |texts| == |items| && forall i :: 0 <= i < |items| ==> texts[i] == ItemText(items[i])
  {
    seq(|items|, i requires 0 <= i < |items| => ItemText(items[i]))
  }

  function ListText(items: seq<Item>): string
    requires items != []
  {
    Join(Texts(items), ',')
  }

  // What an item means.

  predicate Known(a: Atom, names: map<string, int>) {
    match a
    case Num(digits) => digits != "" && Digits(digits)
    case Name(text) => text in names
  }

  predicate Stepping(item: Item) {
    item.step.Some? && item.step.value != ""
  }

  predicate KnownItem(item: Item, names: map<string, int>) {
    && (item.step.Some? ==> Digits(item.step.value))
    && match item.base
       case Star => true
       case Span(first, last) => Known(first, names) && Known(last, names)
       case One(atom) => Known(atom, names)
  }

  function Meaning(a: Atom, names: map<string, int>): int
    requires Known(a, names)
  {
    match a
    case Num(digits) => Decimal(digits)
    case Name(text) => names[text]
  }

  function Start(item: Item, low: int, names: map<string, int>): int
    requires KnownItem(item, names)
  {
    match item.base
    case Star => low
    case Span(first, _) => Meaning(first, names)
    case One(atom) => Meaning(atom, names)
  }

  function Stop(item: Item, high: int, names: map<string, int>): int
    requires KnownItem(item, names)
  {
    match item.base
    case Star => high
    case Span(_, last) => Meaning(last, names)
    case One(atom) => if Stepping(item) then high else Meaning(atom, names)
  }

  function Stride(item: Item): nat
    requires item.step.Some? ==> Digits(item.step.value)
  {
    if Stepping(item) then Decimal(item.step.value) else 1
  }

  predicate Legal(item: Item, low: int, high: int, names: map<string, int>)
    requires KnownItem(item, names)
  {
    Stride(item) > 0 && low <= Start(item, low, names) <= Stop(item, high, names) <= high
  }

  /** The numbers an item stands for: those a whole number of steps from its start. */
  ghost predicate Denotes(item: Item, v: int, low: int, high: int, names: map<string, int>)
    requires KnownItem(item, names)
  {
    v <= Stop(item, high, names) && exists k: nat :: v == Start(item, low, names) + Times(k, Stride(item))
  }

  function Times(k: nat, step: nat): nat {
    k * step
  }

  /** Names are written in lower-case letters. */
  predicate Letters(s: string) {
    s != "" && forall i :: 0 <= i < |s| ==> 'a' <= s[i] <= 'z'
  }

  predicate Lettered(names: map<string, int>) {
    forall name :: name in names ==> Letters(name)
  }

  // Text facts.

  predicate Plain(s: string) {
    forall i :: 0 <= i < |s| ==> ('a' <= s[i] <= 'z' || '0' <= s[i] <= '9')
  }

  predicate InItem(s: string) {
    forall i :: 0 <= i < |s| ==> ('a' <= s[i] <= 'z' || '0' <= s[i] <= '9' || s[i] == '*' || s[i] == '-' || s[i] == '/')
  }

  lemma NumberOfAtom(a: Atom, names: map<string, int>)
    requires Known(a, names) && Lettered(names)
    ensures Number(AtomText(a), names) == Ok(Meaning(a, names))
    ensures AtomText(a) != "" && Plain(AtomText(a))
  {
    if a.Num? {
      assert '0' <= a.digits[0] <= '9';
      assert a.digits !in names;
    }
  }

  lemma SpanBounds(first: Atom, last: Atom, stepText: string, low: int, high: int, names: map<string, int>)
    requires Known(first, names) && Known(last, names) && Lettered(names)
    ensures BoundsOf(BaseText(Span(first, last)), stepText, low, high, names)
            == Ok((Meaning(first, names), Meaning(last, names)))
    ensures '/' !in BaseText(Span(first, last)) && InItem(BaseText(Span(first, last)))
  {
    hide AtomText, Meaning, Number, Cut, Lettered;
    var a, b := AtomText(first), AtomText(last);
    NumberOfAtom(first, names);
    NumberOfAtom(last, names);
    assert '-' !in a;
    CutAt(a, '-', b);
    assert BaseText(Span(first, last)) == a + ['-'] + b;
    assert (a + ['-'] + b)[|a|] == '-';
    assert |a + ['-'] + b| > 1;
  }

  lemma OneBounds(atom: Atom, stepText: string, low: int, high: int, names: map<string, int>)
    requires Known(atom, names) && Lettered(names)
    ensures BoundsOf(BaseText(One(atom)), stepText, low, high, names)
            == Ok((Meaning(atom, names), if stepText != "" then high else Meaning(atom, names)))
    ensures '/' !in BaseText(One(atom)) && InItem(BaseText(One(atom)))
  {
    hide AtomText, Meaning, Number, Lettered;
    NumberOfAtom(atom, names);
    assert AtomText(atom)[0] != '*';
  }

  function StepText(item: Item): string {
    if item.step.None? then "" else item.step.value
  }

  lemma BoundsOfText(item: Item, low: int, high: int, names: map<string, int>)
    requires KnownItem(item, names) && Lettered(names)
    ensures BoundsOf(BaseText(item.base), StepText(item), low, high, names)
            == Ok((Start(item, low, names), Stop(item, high, names)))
    ensures '/' !in BaseText(item.base) && InItem(BaseText(item.base))
  {
    hide BoundsOf, AtomText, Decimal;
    match item.base
    case Star => StarIsAll(StepText(item), low, high, names);
    case Span(first, last) => SpanBounds(first, last, StepText(item), low, high, names);
    case One(atom) => OneBounds(atom, StepText(item), low, high, names);
  }

  lemma StarIsAll(stepText: string, low: int, high: int, names: map<string, int>)
    ensures BoundsOf("*", stepText, low, high, names) == Ok((low, high))
  {
  }

  lemma StepOfText(item: Item)
    requires item.step.Some? ==> Digits(item.step.value)
    ensures StepOf(StepText(item)) == (if Stride(item) > 0 then Ok(Stride(item)) else Err)
  {
    hide Decimal;
  }

  lemma {:induction false} SteppedIs(start: int, stop: int, step: nat, v: int)
    requires step >= 1
    ensures v in Stepped(start, stop, step) <==> v <= stop && exists k: nat :: v == start + Times(k, step)
    decreases stop - start
  {
    if start <= stop {
      SteppedIs(start + step, stop, step, v);
      if k: nat :| v == start + step + Times(k, step) {
        assert v == start + Times(k + 1, step);
      }
      if k: nat :| v == start + Times(k, step) {
        assert k == 0 || v == start + step + Times(k - 1, step);
      }
      assert start == start + Times(0, step);
    } else {
      assert forall k: nat :: Times(k, step) >= 0;
    }
  }

  /** The parser reads a written item as what it means, and rejects it if it means nothing legal. */
  lemma ItemRead(item: Item, low: int, high: int, names: map<string, int>)
    requires KnownItem(item, names) && Lettered(names)
    ensures PartSet(ItemText(item), low, high, names).Ok? <==> Legal(item, low, high, names)
    ensures Legal(item, low, high, names) ==>
              forall v :: v in PartSet(ItemText(item), low, high, names).value <==> Denotes(item, v, low, high, names)
    ensures ItemText(item) != "" && InItem(ItemText(item))
  {
    hide BoundsOf, BaseText, StepOf, Start, Stop, Cut;
    BoundsOfText(item, low, high, names);
    CutAt(BaseText(item.base), '/', StepText(item));
    BaseNotEmpty(item.base, names);
    StepOfText(item);
    if Legal(item, low, high, names) {
      forall v
        ensures v in PartSet(ItemText(item), low, high, names).value <==> Denotes(item, v, low, high, names)
      {
        SteppedIs(Start(item, low, names), Stop(item, high, names), Stride(item), v);
      }
    }
  }

  lemma BaseNotEmpty(base: Base, names: map<string, int>)
    requires Lettered(names) && KnownItem(Item(base, None), names)
    ensures BaseText(base) != ""
  {
  }

  // A comma list.

  ghost predicate AllLegal(items: seq<Item>, low: int, high: int, names: map<string, int>) {
    forall item :: item in items ==> KnownItem(item, names) && Legal(item, low, high, names)
  }

  ghost predicate SomeDenotes(items: seq<Item>, v: int, low: int, high: int, names: map<string, int>) {
    exists item :: item in items && KnownItem(item, names) && Denotes(item, v, low, high, names)
  }

  lemma {:induction false} PartsRead(items: seq<Item>, low: int, high: int, names: map<string, int>)
    requires Lettered(names) && forall item :: item in items ==> KnownItem(item, names)
    ensures PartsSet(Texts(items), low, high, names).Ok? <==> AllLegal(items, low, high, names)
    ensures AllLegal(items, low, high, names) ==>
              forall v :: v in PartsSet(Texts(items), low, high, names).value
                  <==> SomeDenotes(items, v, low, high, names)
  {
    hide ItemText, PartSet, Legal, Denotes, KnownItem, Lettered;
    if items != [] {
      var front, last := items[..|items| - 1], items[|items| - 1];
      PartsRead(front, low, high, names);
      ItemRead(last, low, high, names);
      assert Texts(items)[..|items| - 1] == Texts(front);
      assert items == front + [last];
    }
  }

  /** A comma list in any case is accepted exactly when every item is legal, and then stands for
      the numbers of all its items. */
  lemma FieldRead(raw: string, items: seq<Item>, low: int, high: int, names: map<string, int>)
    requires Lettered(names) && items != [] && forall item :: item in items ==> KnownItem(item, names)
    requires Lower(raw) == ListText(items)
    ensures FieldSet(raw, low, high, names).Ok? <==> AllLegal(items, low, high, names)
    ensures AllLegal(items, low, high, names) ==>
              forall v :: v in FieldSet(raw, low, high, names).value <==> SomeDenotes(items, v, low, high, names)
  {
    hide ItemText, Legal, Denotes, KnownItem, Lettered, PartsSet;
    forall item | item in items
      ensures InItem(ItemText(item))
    {
      ItemRead(item, low, high, names);
    }
    assert forall text :: text in Texts(items) ==> InItem(text);
    SplitJoin(Texts(items), ',');
    PartsRead(items, low, high, names);
  }

  // Nothing else is accepted.

  function AtomOf(text: string, names: map<string, int>): Atom {
    if text in names then Name(text) else Num(text)
  }

  lemma NumberIsAtom(text: string, names: map<string, int>)
    requires Number(text, names).Ok?
    ensures Known(AtomOf(text, names), names) && AtomText(AtomOf(text, names)) == text
  {
  }

  function BaseOf(base: string, names: map<string, int>): Base {
    if base == "*" then Star
    else if '-' in base then Span(AtomOf(Before(base, '-'), names), AtomOf(After(base, '-'), names))
    else One(AtomOf(base, names))
  }

  lemma BoundsAreBase(base: string, stepText: string, low: int, high: int, names: map<string, int>)
    requires BoundsOf(base, stepText, low, high, names).Ok?
    ensures KnownItem(Item(BaseOf(base, names), None), names) && BaseText(BaseOf(base, names)) == base
  {
    hide Number, Cut, Known, AtomText, AtomOf;
    if base == "*" {
    } else if '-' in base {
      NumberIsAtom(Before(base, '-'), names);
      NumberIsAtom(After(base, '-'), names);
      CutInside(base, '-');
      CutInThree(base, '-');
    } else {
      NumberIsAtom(base, names);
    }
  }

  lemma CutInside(s: string, c: char)
    ensures c in s <==> Cut(s, c) < |s|
  {
    if Cut(s, c) == |s| {
      assert s[..|s|] == s;
    }
  }

  function ItemOf(part: string, names: map<string, int>): Item {
    Item(BaseOf(Before(part, '/'), names), if '/' in part then Some(After(part, '/')) else None)
  }

  lemma StepIsDigits(text: string)
    requires StepOf(text).Ok?
    ensures Digits(text)
  {
  }

  /** Every part of a list that the parser accepts is written as an item that means something
      legal. */
  lemma AcceptedPart(part: string, low: int, high: int, names: map<string, int>)
    requires Lettered(names) && PartSet(part, low, high, names).Ok?
    ensures var item := ItemOf(part, names);
            KnownItem(item, names) && ItemText(item) == part && Legal(item, low, high, names)
  {
    hide BoundsOf, StepOf, BaseOf, Cut, Legal, Lettered, Digits, BaseText;
    StepIsDigits(After(part, '/'));
    BoundsAreBase(Before(part, '/'), After(part, '/'), low, high, names);
    CutInside(part, '/');
    if '/' in part {
      CutInThree(part, '/');
    } else {
      assert part[..|part|] == part;
    }
    ItemRead(ItemOf(part, names), low, high, names);
  }

  function ItemsOf(parts: seq<string>, names: map<string, int>): (items: seq<Item>)
    ensures |items| == |parts| && forall i :: 0 <= i < |items| ==> items[i] == ItemOf(parts[i], names)
  {
    seq(|parts|, i requires 0 <= i < |parts| => ItemOf(parts[i], names))
  }

  lemma {:induction false} EachAccepted(parts: seq<string>, i: nat, low: int, high: int, names: map<string, int>)
    requires i < |parts| && PartsSet(parts, low, high, names).Ok?
    ensures PartSet(parts[i], low, high, names).Ok?
    decreases |parts|
  {
    hide PartSet;
    if i < |parts| - 1 {
      EachAccepted(parts[..|parts| - 1], i, low, high, names);
    }
  }

  /** Every field that the parser accepts is a comma list of such items, in some case. */
  lemma AcceptedField(raw: string, low: int, high: int, names: map<string, int>) returns (items: seq<Item>)
    requires Lettered(names) && FieldSet(raw, low, high, names).Ok?
    ensures items != [] && (forall item :: item in items ==> KnownItem(item, names))
    ensures Lower(raw) == ListText(items) && AllLegal(items, low, high, names)
  {
    hide PartSet, ItemOf, ItemText, KnownItem, Legal, Split, Join, Lettered;
    var parts := Split(Lower(raw), ',');
    items := ItemsOf(parts, names);
    forall i | 0 <= i < |parts|
      ensures KnownItem(items[i], names) && ItemText(items[i]) == parts[i] && Legal(items[i], low, high, names)
    {
      EachAccepted(parts, i, low, high, names);
      AcceptedPart(parts[i], low, high, names);
    }
    assert Texts(items) == parts;
    JoinSplit(Lower(raw), ',');
  }

  lemma EverySeventh()
    ensures PartSet("*/7", 0, 7, DAYS) == Ok({0, 7})
  {
    CutAt("*", '/', "7");
    assert "*" + ['/'] + "7" == "*/7";
    StepOfText(Item(Star, Some("7")));
    assert Decimal("7") == 7;
    StarIsAll("7", 0, 7, DAYS);
    assert Stepped(0, 7, 7) == {0, 7};
  }

  lemma OnePart(part: string, low: int, high: int, names: map<string, int>)
    requires PartSet(part, low, high, names).Ok?
    ensures PartsSet([part], low, high, names) == PartSet(part, low, high, names)
  {
    hide PartSet;
    var parts := [part];
    assert parts[..|parts| - 1] == [];
    var none: set<int> := {};
    assert none + PartSet(part, low, high, names).value == PartSet(part, low, high, names).value;
  }

  // `*/7` in the weekday field leaves Sunday alone, and counts as a `*` field.
  lemma EverySeventhWeekday()
    ensures FieldSet("*/7", 0, 7, DAYS) == Ok({0, 7}) && ModSeven({0, 7}) == {0} && Starred("*/7")
  {
    hide PartSet, Lower;
    LowerOfItems("*/7");
    CutAt("*/7", ',', "");
    EverySeventh();
    assert Split("*/7", ',') == ["*/7"];
    OnePart("*/7", 0, 7, DAYS);
  }
}
