/** The field parser's loop. */
module CronField {
  import opened CronText
  import opened Strings

  /** The loop over the items of a comma list, which collects their values. */
  method Field(raw: string, low: int, high: int, names: map<string, int>) returns (field: Result<set<int>>)
    ensures field == FieldSet(raw, low, high, names)
  {
    hide PartSet, PartsSet, Split, Lower;
    var values: set<int> := {};
    var parts := Split(Lower(raw), ',');
    NoParts(parts, low, high, names);
    for i := 0 to |parts|
      invariant PartsSet(parts[..i], low, high, names) == Ok(values)
    {
      OnePartMore(parts, i, low, high, names);
      var part := PartSet(parts[i], low, high, names);
      if part.Err? {
        FailsEarly(parts, i + 1, low, high, names);
        return Err;
      }
      values := values + part.value;
    }
    assert parts[..|parts|] == parts;
    return Ok(values);
  }

  lemma NoParts(parts: seq<string>, low: int, high: int, names: map<string, int>)
    ensures PartsSet(parts[..0], low, high, names) == Ok({})
  {
  }

  lemma OnePartMore(parts: seq<string>, i: nat, low: int, high: int, names: map<string, int>)
    requires i < |parts|
    ensures var rest, last := PartsSet(parts[..i], low, high, names), PartSet(parts[i], low, high, names);
            PartsSet(parts[..i + 1], low, high, names)
            == if rest.Err? || last.Err? then Err else Ok(rest.value + last.value)
  {
    hide PartSet;
    assert parts[..i + 1][..i] == parts[..i];
  }

  lemma {:induction false} FailsEarly(parts: seq<string>, i: nat, low: int, high: int, names: map<string, int>)
    requires i <= |parts| && PartsSet(parts[..i], low, high, names).Err?
    ensures PartsSet(parts, low, high, names).Err?
    decreases |parts|
  {
    hide PartSet;
    if i < |parts| {
      assert parts[..|parts| - 1][..i] == parts[..i];
      FailsEarly(parts[..|parts| - 1], i, low, high, names);
    } else {
      assert parts[..i] == parts;
    }
  }
}
