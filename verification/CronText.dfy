/** The text of a schedule's fields, and the sets of numbers it stands for. */
module CronText {
  import opened CronModel
  import opened Strings

  datatype Result<T> = Ok(value: T) | Err

  const MONTHS := map["jan" := 1, "feb" := 2, "mar" := 3, "apr" := 4, "may" := 5, "jun" := 6,
                      "jul" := 7, "aug" := 8, "sep" := 9, "oct" := 10, "nov" := 11, "dec" := 12]
  const DAYS := map["sun" := 0, "mon" := 1, "tue" := 2, "wed" := 3, "thu" := 4, "fri" := 5, "sat" := 6]

  predicate Starred(field: string) {
    field != "" && field[0] == '*'
  }

  function Number(text: string, names: map<string, int>): Result<int> {
    if text in names then Ok(names[text])
    else if text == "" || !Digits(text) then Err
    else Ok(Decimal(text))
  }

  /** `range(start, stop + 1, step)` as a set. */
  function Stepped(start: int, stop: int, step: int): set<int>
    requires step >= 1
    decreases stop - start
  {
    if start > stop then {} else {start} + Stepped(start + step, stop, step)
  }

  function StepOf(text: string): Result<int> {
    if text == "" then Ok(1)
    else
      var step := Number(text, map[]);
      if step.Ok? && step.value > 0 then step else Err
  }

  function BoundsOf(base: string, stepText: string, low: int, high: int, names: map<string, int>): Result<(int, int)> {
    if base == "*" then Ok((low, high))
    else if '-' in base then
      var first, last := Number(Before(base, '-'), names), Number(After(base, '-'), names);
      if first.Ok? && last.Ok? then Ok((first.value, last.value)) else Err
    else
      var start := Number(base, names);
      if start.Err? then Err else Ok((start.value, if stepText != "" then high else start.value))
  }

  /** One item of a comma list. */
  function PartSet(part: string, low: int, high: int, names: map<string, int>): Result<set<int>> {
    var step := StepOf(After(part, '/'));
    var bounds := BoundsOf(Before(part, '/'), After(part, '/'), low, high, names);
    if part == "" || step.Err? || bounds.Err? then Err
    else if bounds.value.0 < low || bounds.value.1 > high || bounds.value.0 > bounds.value.1 then Err
    else Ok(Stepped(bounds.value.0, bounds.value.1, step.value))
  }

  function PartsSet(parts: seq<string>, low: int, high: int, names: map<string, int>): Result<set<int>> {
    if parts == [] then Ok({})
    else
      var rest := PartsSet(parts[..|parts| - 1], low, high, names);
      var last := PartSet(parts[|parts| - 1], low, high, names);
      if rest.Err? || last.Err? then Err else Ok(rest.value + last.value)
  }

  function FieldSet(raw: string, low: int, high: int, names: map<string, int>): Result<set<int>> {
    PartsSet(Split(Lower(raw), ','), low, high, names)
  }

  // What an accepted field is sure to contain.

  lemma {:induction false} SteppedWithin(start: int, stop: int, step: int)
    requires step >= 1
    ensures forall v :: v in Stepped(start, stop, step) ==> start <= v <= stop
    ensures start <= stop ==> start in Stepped(start, stop, step)
    decreases stop - start
  {
    if start <= stop {
      SteppedWithin(start + step, stop, step);
    }
  }

  lemma PartWithin(part: string, low: int, high: int, names: map<string, int>)
    requires PartSet(part, low, high, names).Ok?
    ensures Within(PartSet(part, low, high, names).value, low, high)
  {
    var bounds := BoundsOf(Before(part, '/'), After(part, '/'), low, high, names).value;
    SteppedWithin(bounds.0, bounds.1, StepOf(After(part, '/')).value);
  }

  lemma {:induction false} PartsWithin(parts: seq<string>, low: int, high: int, names: map<string, int>)
    requires parts != [] && PartsSet(parts, low, high, names).Ok?
    ensures Within(PartsSet(parts, low, high, names).value, low, high)
    ensures PartSet(parts[0], low, high, names).Ok?
    ensures PartSet(parts[0], low, high, names).value <= PartsSet(parts, low, high, names).value
  {
    hide PartSet;
    PartWithin(parts[|parts| - 1], low, high, names);
    if |parts| > 1 {
      PartsWithin(parts[..|parts| - 1], low, high, names);
    } else {
      assert parts[..0] == [];
    }
  }

  lemma StarNumber(text: string, names: map<string, int>)
    requires text != "" && text[0] == '*' && forall name :: name in names ==> name == "" || name[0] != '*'
    ensures Number(text, names).Err?
  {
  }

  lemma StarBounds(base: string, stepText: string, low: int, high: int, names: map<string, int>)
    requires Starred(base) && forall name :: name in names ==> name == "" || name[0] != '*'
    ensures base == "*" || BoundsOf(base, stepText, low, high, names).Err?
  {
    if '-' in base {
      CutLater(base, '-');
      StarNumber(Before(base, '-'), names);
    } else {
      StarNumber(base, names);
    }
  }

  lemma StarPart(part: string, low: int, high: int, names: map<string, int>)
    requires Starred(part) && PartSet(part, low, high, names).Ok?
    requires forall name :: name in names ==> name == "" || name[0] != '*'
    ensures low in PartSet(part, low, high, names).value
  {
    CutLater(part, '/');
    StarBounds(Before(part, '/'), After(part, '/'), low, high, names);
    SteppedWithin(low, high, StepOf(After(part, '/')).value);
  }

  /** An accepted field is a nonempty set within its limits; one that starts with `*` holds the
      lower limit. */
  lemma FieldWithin(raw: string, low: int, high: int, names: map<string, int>)
    requires FieldSet(raw, low, high, names).Ok?
    requires forall name :: name in names ==> name == "" || name[0] != '*'
    ensures Within(FieldSet(raw, low, high, names).value, low, high)
    ensures Starred(raw) ==> low in FieldSet(raw, low, high, names).value
  {
    var parts := Split(Lower(raw), ',');
    PartsWithin(parts, low, high, names);
    if Starred(raw) {
      CutLater(Lower(raw), ',');
      StarPart(parts[0], low, high, names);
    }
  }

  function ModSeven(values: set<int>): set<int> {
    set v | v in values :: v % 7
  }

  /** Five fields as a schedule, before the question whether it can match. */
  function SpecOf(minute: string, hour: string, day: string, month: string, weekday: string): Result<CronSpec> {
    var minutes, hours := FieldSet(minute, 0, 59, map[]), FieldSet(hour, 0, 23, map[]);
    var days, months := FieldSet(day, 1, 31, map[]), FieldSet(month, 1, 12, MONTHS);
    var weekdays := FieldSet(weekday, 0, 7, DAYS);
    if minutes.Err? || hours.Err? || days.Err? || months.Err? || weekdays.Err? then Err
    else Ok(CronSpec(minutes.value, hours.value, days.value, months.value, ModSeven(weekdays.value),
                     Starred(day), Starred(weekday)))
  }

  function Parse(fields: seq<string>): Result<CronSpec> {
    if |fields| != 5 then Err
    else
      var spec := SpecOf(fields[0], fields[1], fields[2], fields[3], fields[4]);
      if spec.Ok? && !CanMatch(spec.value) then Err else spec
  }

  lemma ModSevenWithin(values: set<int>)
    requires Within(values, 0, 7)
    ensures Within(ModSeven(values), 0, 6)
    ensures 0 in values ==> 0 in ModSeven(values)
  {
    var v := Pick(values);
    assert v % 7 in ModSeven(values);
  }

  lemma NamesNotStarred()
    ensures forall name :: name in MONTHS ==> name == "" || name[0] != '*'
    ensures forall name :: name in DAYS ==> name == "" || name[0] != '*'
  {
  }

  /** Every accepted schedule is one the search understands. */
  lemma ParsedIsWellFormed(fields: seq<string>)
    requires Parse(fields).Ok?
    ensures WellFormed(Parse(fields).value) && CanMatch(Parse(fields).value)
  {
    hide SpecOf, CanMatch;
    SpecIsWellFormed(fields);
  }

  lemma SpecIsWellFormed(fields: seq<string>)
    requires |fields| == 5 && SpecOf(fields[0], fields[1], fields[2], fields[3], fields[4]).Ok?
    ensures WellFormed(SpecOf(fields[0], fields[1], fields[2], fields[3], fields[4]).value)
    ensures Within(FieldSet(fields[4], 0, 7, DAYS).value, 0, 7)
  {
    hide FieldSet, ModSeven;
    FieldWithin(fields[0], 0, 59, map[]);
    FieldWithin(fields[1], 0, 23, map[]);
    FieldWithin(fields[2], 1, 31, map[]);
    NamesNotStarred();
    FieldWithin(fields[3], 1, 12, MONTHS);
    FieldWithin(fields[4], 0, 7, DAYS);
    ModSevenWithin(FieldSet(fields[4], 0, 7, DAYS).value);
  }
}
