/** Whole schedules as they are written: which ones the parser accepts, and on which days they run. */
module CronParse {
  import opened Calendar
  import opened CronModel
  import opened CronText
  import opened CronGrammar
  import opened CronBound
  import opened Options
  import opened Strings

  datatype Written = Written(minute: seq<Item>, hour: seq<Item>, day: seq<Item>, month: seq<Item>, weekday: seq<Item>)

  const NO_NAMES: map<string, int> := map[]
  const MONTH_NAMES := ["jan", "feb", "mar", "apr", "may", "jun", "jul", "aug", "sep", "oct", "nov", "dec"]
  const DAY_NAMES := ["sun", "mon", "tue", "wed", "thu", "fri", "sat"]

  ghost predicate FieldWritten(raw: string, items: seq<Item>, names: map<string, int>) {
    items != [] && (forall item :: item in items ==> KnownItem(item, names)) && Lower(raw) == ListText(items)
  }

  /** The five fields are these lists of items, in any case. */
  ghost predicate WrittenAs(fields: seq<string>, w: Written) {
    && |fields| == 5
    && FieldWritten(fields[0], w.minute, NO_NAMES) && FieldWritten(fields[1], w.hour, NO_NAMES)
    && FieldWritten(fields[2], w.day, NO_NAMES)
    && FieldWritten(fields[3], w.month, MONTHS) && FieldWritten(fields[4], w.weekday, DAYS)
  }

  ghost predicate LegalFields(w: Written) {
    && AllLegal(w.minute, 0, 59, NO_NAMES) && AllLegal(w.hour, 0, 23, NO_NAMES)
    && AllLegal(w.day, 1, 31, NO_NAMES)
    && AllLegal(w.month, 1, 12, MONTHS) && AllLegal(w.weekday, 0, 7, DAYS)
  }

  predicate StarredList(items: seq<Item>) {
    items != [] && items[0].base.Star?
  }

  // The days of a written schedule.

  ghost predicate OnMonth(w: Written, date: Date) {
    SomeDenotes(w.month, date.m, 1, 12, MONTHS)
  }

  ghost predicate OnDay(w: Written, date: Date) {
    SomeDenotes(w.day, date.d, 1, 31, NO_NAMES)
  }

  /** Both 0 and 7 stand for Sunday. */
  ghost predicate OnWeekday(w: Written, weekday: int) {
    SomeDenotes(w.weekday, weekday, 0, 7, DAYS) || (weekday == 0 && SomeDenotes(w.weekday, 7, 0, 7, DAYS))
  }

  /** Both day fields must agree when one is starred; otherwise either one is enough. */
  ghost predicate RunsOn(w: Written, n: nat)
    requires n >= 1
  {
    var date := DateOf(n);
    && OnMonth(w, date)
    && if StarredList(w.day) || StarredList(w.weekday) then OnDay(w, date) && OnWeekday(w, n % 7)
       else OnDay(w, date) || OnWeekday(w, n % 7)
  }

  /** The only names: the months from January as 1, the weekdays from Sunday as 0. */
  lemma NamesInOrder(name: string)
    ensures name in MONTHS <==> name in MONTH_NAMES
    ensures forall i :: 0 <= i < 12 && MONTH_NAMES[i] == name ==> MONTHS[name] == i + 1
    ensures name in DAYS <==> name in DAY_NAMES
    ensures forall i :: 0 <= i < 7 && DAY_NAMES[i] == name ==> DAYS[name] == i
  {
    MonthNamed(name);
    DayNamed(name);
  }

  lemma MonthNamed(name: string)
    ensures name in MONTHS <==> name in MONTH_NAMES
    ensures forall i :: 0 <= i < 12 && MONTH_NAMES[i] == name ==> MONTHS[name] == i + 1
  {
  }

  lemma DayNamed(name: string)
    ensures name in DAYS <==> name in DAY_NAMES
    ensures forall i :: 0 <= i < 7 && DAY_NAMES[i] == name ==> DAYS[name] == i
  {
  }

  lemma NamesAreLettered()
    ensures Lettered(NO_NAMES) && Lettered(MONTHS) && Lettered(DAYS)
  {
    hide Letters;
    ThreeLetters("jan"); ThreeLetters("feb"); ThreeLetters("mar"); ThreeLetters("apr");
    ThreeLetters("may"); ThreeLetters("jun"); ThreeLetters("jul"); ThreeLetters("aug");
    ThreeLetters("sep"); ThreeLetters("oct"); ThreeLetters("nov"); ThreeLetters("dec");
    ThreeLetters("sun"); ThreeLetters("mon"); ThreeLetters("tue"); ThreeLetters("wed");
    ThreeLetters("thu"); ThreeLetters("fri"); ThreeLetters("sat");
  }

  lemma ThreeLetters(name: string)
    requires |name| == 3 && 'a' <= name[0] <= 'z' && 'a' <= name[1] <= 'z' && 'a' <= name[2] <= 'z'
    ensures Letters(name)
  {
  }

  lemma LowerStar(raw: string)
    ensures Starred(raw) <==> Starred(Lower(raw))
  {
  }

  lemma AtomNotStarred(a: Atom, names: map<string, int>)
    requires Known(a, names) && Lettered(names)
    ensures AtomText(a) != "" && AtomText(a)[0] != '*'
  {
  }

  lemma FirstChar(a: string, b: string)
    requires a != ""
    ensures Starred(a + b) <==> Starred(a)
  {
  }

  lemma ItemStarred(item: Item, names: map<string, int>)
    requires KnownItem(item, names) && Lettered(names)
    ensures ItemText(item) != "" && (Starred(ItemText(item)) <==> item.base.Star?)
  {
    hide Known, AtomText, Lettered, Digits;
    match item.base
    case Star =>
    case Span(first, last) => AtomNotStarred(first, names);
    case One(atom) => AtomNotStarred(atom, names);
  }

  lemma FieldStarred(raw: string, items: seq<Item>, names: map<string, int>)
    requires FieldWritten(raw, items, names) && Lettered(names)
    ensures Starred(raw) <==> StarredList(items)
  {
    hide ItemText, Lettered, KnownItem, Lower, Starred;
    LowerStar(raw);
    assert items[0] in items;
    ItemStarred(items[0], names);
    var texts := Texts(items);
    if |texts| > 1 {
      FirstChar(texts[0], [','] + Join(texts[1..], ','));
      assert texts[0] + [','] + Join(texts[1..], ',') == texts[0] + ([','] + Join(texts[1..], ','));
    }
  }

  /** A field that is accepted holds the numbers of its items; one that is not has an item that means
      nothing legal. */
  lemma FieldMeans(raw: string, items: seq<Item>, low: int, high: int, names: map<string, int>)
    requires FieldWritten(raw, items, names) && Lettered(names)
    ensures FieldSet(raw, low, high, names).Ok? <==> AllLegal(items, low, high, names)
    ensures FieldSet(raw, low, high, names).Ok? ==>
              forall v :: v in FieldSet(raw, low, high, names).value <==> SomeDenotes(items, v, low, high, names)
    ensures Starred(raw) <==> StarredList(items)
  {
    hide FieldSet, AllLegal, SomeDenotes, KnownItem, Lettered;
    FieldRead(raw, items, low, high, names);
    FieldStarred(raw, items, names);
  }

  ghost predicate Holds(values: set<int>, items: seq<Item>, low: int, high: int, names: map<string, int>) {
    forall v :: v in values <==> SomeDenotes(items, v, low, high, names)
  }

  /** Each part of the schedule comes from its own field, and the two marks from the day fields. */
  ghost predicate Means(spec: CronSpec, w: Written) {
    && Holds(spec.minutes, w.minute, 0, 59, NO_NAMES) && Holds(spec.hours, w.hour, 0, 23, NO_NAMES)
    && Holds(spec.days, w.day, 1, 31, NO_NAMES) && Holds(spec.months, w.month, 1, 12, MONTHS)
    && (forall v :: v in spec.weekdays <==> 0 <= v < 7 && OnWeekday(w, v))
    && (spec.daysAny <==> StarredList(w.day)) && (spec.weekdaysAny <==> StarredList(w.weekday))
  }

  lemma WeekdaysMean(w: Written, values: set<int>)
    requires Holds(values, w.weekday, 0, 7, DAYS) && Within(values, 0, 7)
    ensures forall v :: v in ModSeven(values) <==> 0 <= v < 7 && OnWeekday(w, v)
  {
    hide SomeDenotes;
    forall v
      ensures v in ModSeven(values) <==> 0 <= v < 7 && (v in values || (v == 0 && 7 in values))
    {
      if 0 <= v < 7 && v in values {
        assert v % 7 == v;
      }
      if v == 0 && 7 in values {
        assert 7 % 7 == 0;
      }
    }
  }

  lemma SpecMeans(fields: seq<string>, w: Written)
    requires WrittenAs(fields, w)
    ensures var spec := SpecOf(fields[0], fields[1], fields[2], fields[3], fields[4]);
            && (spec.Ok? <==> LegalFields(w))
            && (spec.Ok? ==> Means(spec.value, w) && WellFormed(spec.value))
  {
    hide FieldSet, ModSeven, AllLegal, SomeDenotes, Starred, FieldWritten, Lettered, OnWeekday, StarredList;
    NamesAreLettered();
    FieldMeans(fields[0], w.minute, 0, 59, NO_NAMES);
    FieldMeans(fields[1], w.hour, 0, 23, NO_NAMES);
    FieldMeans(fields[2], w.day, 1, 31, NO_NAMES);
    FieldMeans(fields[3], w.month, 1, 12, MONTHS);
    FieldMeans(fields[4], w.weekday, 0, 7, DAYS);
    var spec := SpecOf(fields[0], fields[1], fields[2], fields[3], fields[4]);
    if spec.Ok? {
      SpecIsWellFormed(fields);
      WeekdaysMean(w, FieldSet(fields[4], 0, 7, DAYS).value);
    }
  }

  lemma MeansRunsOn(spec: CronSpec, w: Written, n: nat)
    requires Means(spec, w) && n >= 1
    ensures DayMatches(spec, n) <==> RunsOn(w, n)
  {
    hide SomeDenotes, DateOf, OnWeekday, StarredList;
    assert 0 <= n % 7 < 7;
  }

  /** The parser accepts five fields exactly when they are written as lists of items that all mean
      something legal, and some real date is one the schedule runs on. */
  lemma ParseAcceptsIff(fields: seq<string>)
    ensures Parse(fields).Ok?
            <==> exists w :: WrittenAs(fields, w) && LegalFields(w) && exists n: nat :: n >= 1 && RunsOn(w, n)
  {
    hide SpecOf, CanMatch, RunsOn, LegalFields, WrittenAs, WellFormed, Means;
    if Parse(fields).Ok? {
      var w := AcceptedFields(fields);
      ParseReads(fields, w);
      assert exists n: nat :: n >= 1 && RunsOn(w, n);
    }
    if w :| WrittenAs(fields, w) && LegalFields(w) && exists n: nat :: n >= 1 && RunsOn(w, n) {
      ParseReads(fields, w);
    }
  }

  lemma AcceptedFields(fields: seq<string>) returns (w: Written)
    requires Parse(fields).Ok?
    ensures WrittenAs(fields, w)
  {
    hide FieldSet, AllLegal, KnownItem, CanMatch, Lettered, ListText;
    NamesAreLettered();
    var minute := AcceptedField(fields[0], 0, 59, NO_NAMES);
    var hour := AcceptedField(fields[1], 0, 23, NO_NAMES);
    var day := AcceptedField(fields[2], 1, 31, NO_NAMES);
    var month := AcceptedField(fields[3], 1, 12, MONTHS);
    var weekday := AcceptedField(fields[4], 0, 7, DAYS);
    w := Written(minute, hour, day, month, weekday);
  }

  /** However five fields are written, they are accepted exactly when every item is legal and some real
      date is one they run on. The schedule then has the numbers of each field in its place, and
      matches exactly the days it is written for. */
  lemma ParseReads(fields: seq<string>, w: Written)
    requires WrittenAs(fields, w)
    ensures Parse(fields).Ok? <==> LegalFields(w) && exists n: nat :: n >= 1 && RunsOn(w, n)
    ensures Parse(fields).Ok? ==>
              && Means(Parse(fields).value, w)
              && forall n: nat :: n >= 1 ==> (DayMatches(Parse(fields).value, n) <==> RunsOn(w, n))
  {
    hide SpecOf, CanMatch, DayMatches, RunsOn, LegalFields, Means, WellFormed;
    SpecMeans(fields, w);
    var spec := SpecOf(fields[0], fields[1], fields[2], fields[3], fields[4]);
    if spec.Ok? {
      CanMatchIff(spec.value);
      forall n: nat | n >= 1
        ensures DayMatches(spec.value, n) <==> RunsOn(w, n)
      {
        MeansRunsOn(spec.value, w, n);
      }
    }
  }

  // A star without a step leaves its field free.

  const ANY := Item(Star, None)

  lemma AnyDenotes(v: int, low: int, high: int, names: map<string, int>)
    requires low <= v <= high
    ensures SomeDenotes([ANY], v, low, high, names)
  {
    assert v == Start(ANY, low, names) + Times(v - low, Stride(ANY));
    assert ANY in [ANY] && Denotes(ANY, v, low, high, names);
  }

  /** `*` as day field: the schedule runs on the listed weekdays of its months, and on no other day.
      `*` as weekday field: on the listed dates. */
  lemma StarLeavesTheOther(w: Written, n: nat)
    requires n >= 1
    ensures w.day == [ANY] ==> (RunsOn(w, n) <==> OnMonth(w, DateOf(n)) && OnWeekday(w, n % 7))
    ensures w.weekday == [ANY] ==> (RunsOn(w, n) <==> OnMonth(w, DateOf(n)) && OnDay(w, DateOf(n)))
  {
    hide SomeDenotes;
    AnyDenotes(DateOf(n).d, 1, 31, NO_NAMES);
    AnyDenotes(n % 7, 0, 7, DAYS);
  }
}
