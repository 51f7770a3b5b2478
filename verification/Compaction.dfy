/** Which messages of a long conversation stay when its older part is summarized. */
module CompactionModel {

  const KEEP: nat := 6

  datatype Part =
    | UserPrompt(content: string, memories: bool)
    | Text(content: string)
    | LoadCapabilityCall(id: string)
    | LoadCapabilityReturn(id: string)
    | ToolCall(tool: string, id: string)
    | ToolReturn(tool: string, id: string)

  datatype Message = Request(parts: seq<Part>) | Response(parts: seq<Part>)

  function IdOf(part: Part): string {
    if part.UserPrompt? || part.Text? then "" else part.id
  }

  predicate CarriesId(m: Message, id: string) {
    id != "" && exists part :: part in m.parts && IdOf(part) == id
  }

  /** Capability pairs, and the prompt that carries the memories. */
  predicate KeepsPart(part: Part) {
    match part
    case UserPrompt(_, memories) => memories
    case Text(_) => false
    case LoadCapabilityCall(_) => true
    case LoadCapabilityReturn(_) => true
    case ToolCall(tool, _) => tool == "load_capability"
    case ToolReturn(tool, _) => tool == "load_capability"
  }

  predicate KeepsCapability(m: Message) {
    exists part :: part in m.parts && KeepsPart(part)
  }

  predicate OverThreshold(tokens: int, window: int) {
    window > 0 && tokens > 0 && tokens * 4 > window * 3
  }

  // Calls and returns.

  predicate Called(messages: seq<Message>, id: string) {
    exists m :: m in messages && m.Response? && CarriesId(m, id)
  }

  /** Every tool call a request answers is made by some response. */
  ghost predicate Answers(requests: seq<Message>, responses: seq<Message>) {
    forall m, id :: m in requests && m.Request? && CarriesId(m, id) ==> Called(responses, id)
  }

  function Kept(messages: seq<Message>): (kept: seq<Message>)
    ensures forall m :: m in kept <==> m in messages && KeepsCapability(m)
    ensures |kept| <= |messages|
  {
    if messages == [] then []
    else
      var last := messages[|messages| - 1];
      Kept(messages[..|messages| - 1]) + if KeepsCapability(last) then [last] else []
  }

  /** Splitting at `split` keeps the call of every return that stays verbatim. */
  ghost predicate Closed(messages: seq<Message>, split: nat)
    requires split <= |messages|
  {
    Answers(messages[split..], messages[split..] + Kept(messages[..split]))
  }

  /** The largest closed split up to `start`, or 0. */
  ghost predicate BestSplit(messages: seq<Message>, start: nat, split: nat)
    requires start <= |messages|
  {
    && split <= start
    && (split > 0 ==> Closed(messages, split))
    && (forall s :: split < s <= start ==> !Closed(messages, s))
  }

  lemma BestSplitIsUnique(messages: seq<Message>, start: nat, a: nat, b: nat)
    requires start <= |messages| && BestSplit(messages, start, a) && BestSplit(messages, start, b)
    ensures a == b
  {
    hide Closed;
  }

  // The compacted conversation.

  predicate AllKept(messages: seq<Message>) {
    forall m :: m in messages ==> KeepsCapability(m)
  }

  function SummaryOf(text: string): Message {
    Response([Text(text)])
  }

  /** The older part with its first dropped message replaced by the summary, the other dropped
      ones left out, and the recent part. */
  ghost predicate Compacted(messages: seq<Message>, split: nat, first: nat, text: string, out: seq<Message>)
    requires split <= |messages|
  {
    && first < split && !KeepsCapability(messages[first]) && AllKept(messages[..first])
    && out == messages[..first] + [SummaryOf(text)] + Kept(messages[first..split]) + messages[split..]
  }

  /** The output as the source builds it, after looking at the first `n` older messages. */
  function Built(older: seq<Message>, n: nat, text: string): seq<Message>
    requires n <= |older|
  {
    if n == 0 then []
    else
      var before := Built(older, n - 1, text);
      if KeepsCapability(older[n - 1]) then before + [older[n - 1]]
      else if AllKept(older[..n - 1]) then before + [SummaryOf(text)]
      else before
  }

  lemma {:induction false} BuiltBeforeFirst(older: seq<Message>, n: nat, text: string)
    requires n <= |older| && AllKept(older[..n])
    ensures Built(older, n, text) == older[..n]
  {
    if n > 0 {
      assert older[..n] == older[..n - 1] + [older[n - 1]];
      BuiltBeforeFirst(older, n - 1, text);
    }
  }

  lemma KeptLast(s: seq<Message>, front: seq<Message>, last: Message)
    requires s != [] && s[..|s| - 1] == front && s[|s| - 1] == last
    ensures Kept(s) == Kept(front) + if KeepsCapability(last) then [last] else []
  {
    hide KeepsCapability;
  }

  lemma Window(older: seq<Message>, first: nat, n: nat)
    requires first < n <= |older|
    ensures var s := older[first..n];
            s != [] && s[..|s| - 1] == older[first..n - 1] && s[|s| - 1] == older[n - 1]
  {
  }

  lemma KeptNext(older: seq<Message>, first: nat, n: nat)
    requires first < n <= |older|
    ensures Kept(older[first..n])
            == Kept(older[first..n - 1]) + if KeepsCapability(older[n - 1]) then [older[n - 1]] else []
  {
    hide Kept, KeepsCapability;
    Window(older, first, n);
    KeptLast(older[first..n], older[first..n - 1], older[n - 1]);
  }

  lemma BuiltAfterFirst(older: seq<Message>, first: nat, n: nat, text: string)
    requires first < n - 1 && n <= |older| && !KeepsCapability(older[first])
    ensures Built(older, n, text)
            == Built(older, n - 1, text) + if KeepsCapability(older[n - 1]) then [older[n - 1]] else []
  {
    hide KeepsCapability;
    assert older[first] in older[..n - 1];
  }

  lemma BuiltAtFirst(older: seq<Message>, first: nat, text: string)
    requires first < |older| && AllKept(older[..first]) && !KeepsCapability(older[first])
    ensures Built(older, first + 1, text) == older[..first] + [SummaryOf(text)] + Kept(older[first..first + 1])
  {
    BuiltBeforeFirst(older, first, text);
    assert older[first..first + 1] == [older[first]];
    assert [older[first]][..0] == [];
  }

  lemma Append(a: seq<Message>, b: seq<Message>, c: seq<Message>)
    ensures (a + b) + c == a + (b + c)
  {
  }

  lemma {:induction false} BuiltFromFirst(older: seq<Message>, first: nat, n: nat, text: string)
    requires first < n <= |older| && AllKept(older[..first]) && !KeepsCapability(older[first])
    ensures Built(older, n, text) == older[..first] + [SummaryOf(text)] + Kept(older[first..n])
    decreases n
  {
    hide Built, AllKept, KeepsCapability, Kept;
    if n == first + 1 {
      BuiltAtFirst(older, first, text);
    } else {
      KeptNext(older, first, n);
      BuiltFromFirst(older, first, n - 1, text);
      BuiltAfterFirst(older, first, n, text);
      Append(older[..first] + [SummaryOf(text)], Kept(older[first..n - 1]),
             if KeepsCapability(older[n - 1]) then [older[n - 1]] else []);
    }
  }

  // What the result promises.

  /** The messages that are not the inserted one: nothing kept is lost, repeated or moved. */
  ghost predicate KeepsInOrder(messages: seq<Message>, split: nat, out: seq<Message>, at: nat)
    requires split <= |messages|
  {
    at < |out| && out[..at] + out[at + 1..] == Kept(messages[..split]) + messages[split..]
  }

  lemma Shortened(a: seq<Message>, b: seq<Message>)
    requires b != []
    ensures (a + b)[..|a + b| - 1] == a + b[..|b| - 1] && (a + b)[|a + b| - 1] == b[|b| - 1]
  {
  }

  lemma NothingAdded(a: seq<Message>)
    ensures a + [] == a && Kept([]) == []
  {
  }

  lemma {:induction false} KeptConcat(a: seq<Message>, b: seq<Message>)
    ensures Kept(a + b) == Kept(a) + Kept(b)
    decreases |b|
  {
    hide Kept, KeepsCapability;
    if b == [] {
      NothingAdded(a);
    } else {
      var front, last := b[..|b| - 1], b[|b| - 1];
      Shortened(a, b);
      KeptConcat(a, front);
      KeptLast(a + b, a + front, last);
      KeptLast(b, front, last);
    }
  }

  lemma Rejoined(a: seq<Message>)
    requires a != []
    ensures a[..|a| - 1] + [a[|a| - 1]] == a
  {
  }

  lemma {:induction false} AllKeptStay(a: seq<Message>)
    requires AllKept(a)
    ensures Kept(a) == a
  {
    hide KeepsCapability;
    if a != [] {
      AllKeptStay(a[..|a| - 1]);
      Rejoined(a);
    }
  }

  lemma FirstIsDropped(messages: seq<Message>, first: nat, split: nat)
    requires first < split <= |messages| && !KeepsCapability(messages[first])
    ensures |Kept(messages[first..split])| < split - first
  {
    var tail := messages[first..split];
    assert tail == [tail[0]] + tail[1..];
    KeptConcat([tail[0]], tail[1..]);
    assert [tail[0]][..0] == [];
  }

  lemma KeptPrefix(messages: seq<Message>, first: nat, split: nat)
    requires first <= split <= |messages| && AllKept(messages[..first])
    ensures Kept(messages[..split]) == messages[..first] + Kept(messages[first..split])
  {
    assert messages[..split] == messages[..first] + messages[first..split];
    KeptConcat(messages[..first], messages[first..split]);
    AllKeptStay(messages[..first]);
  }

  lemma TailOf(front: seq<Message>, tail: seq<Message>, n: nat)
    requires n <= |tail|
    ensures (front + tail)[|front + tail| - n..] == tail[|tail| - n..]
  {
  }

  lemma LastOf(messages: seq<Message>, split: nat, n: nat)
    requires split <= |messages| && n <= |messages| - split
    ensures messages[split..][|messages| - split - n..] == messages[|messages| - n..]
  {
  }

  lemma DropOne(a: seq<Message>, m: Message, b: seq<Message>)
    ensures (a + [m] + b)[..|a|] + (a + [m] + b)[|a| + 1..] == a + b && (a + [m] + b)[|a|] == m
  {
  }

  /** The last six messages stay as they are, everything kept stays in order, one summary is put
      in, the list does not grow, and every return after the split still has its call. */
  lemma CompactedPromises(messages: seq<Message>, split: nat, first: nat, text: string, out: seq<Message>)
    requires |messages| > KEEP && BestSplit(messages, |messages| - KEEP, split)
    requires Compacted(messages, split, first, text, out)
    ensures |out| <= |messages| && |out| >= KEEP && out[|out| - KEEP..] == messages[|messages| - KEEP..]
    ensures out[first] == SummaryOf(text) && KeepsInOrder(messages, split, out, first)
    ensures Answers(messages[split..], out) && out[|out| - (|messages| - split)..] == messages[split..]
  {
    hide Kept, AllKept, Answers, Closed, KeepsCapability, KeepsInOrder, CarriesId, Compacted;
    NotLonger(messages, split, first, text, out);
    RecentAnswered(messages, split, first, text, out);
    OrderKept(messages, split, first, text, out);
    RecentStays(messages, split, first, text, out, KEEP);
    RecentStays(messages, split, first, text, out, |messages| - split);
  }

  lemma NotLonger(messages: seq<Message>, split: nat, first: nat, text: string, out: seq<Message>)
    requires split <= |messages| && Compacted(messages, split, first, text, out)
    ensures first < split && |messages| - split <= |out| <= |messages|
  {
    hide Kept, AllKept, KeepsCapability;
    FirstIsDropped(messages, first, split);
  }

  lemma RecentStays(messages: seq<Message>, split: nat, first: nat, text: string, out: seq<Message>, n: nat)
    requires split <= |messages| && Compacted(messages, split, first, text, out) && n <= |messages| - split
    ensures |out| >= n && out[|out| - n..] == messages[|messages| - n..]
  {
    hide Kept, AllKept, KeepsCapability;
    TailOf(messages[..first] + [SummaryOf(text)] + Kept(messages[first..split]), messages[split..], n);
    LastOf(messages, split, n);
  }

  lemma OrderKept(messages: seq<Message>, split: nat, first: nat, text: string, out: seq<Message>)
    requires split <= |messages| && Compacted(messages, split, first, text, out)
    ensures |out| > first && out[first] == SummaryOf(text) && KeepsInOrder(messages, split, out, first)
  {
    hide Kept, AllKept, KeepsCapability;
    KeptPrefix(messages, first, split);
    var a, b, recent := messages[..first], Kept(messages[first..split]), messages[split..];
    assert out == a + [SummaryOf(text)] + (b + recent);
    DropOne(a, SummaryOf(text), b + recent);
    assert a + (b + recent) == (a + b) + recent;
  }

  lemma RecentAnswered(messages: seq<Message>, split: nat, first: nat, text: string, out: seq<Message>)
    requires split <= |messages| && Compacted(messages, split, first, text, out) && Closed(messages, split)
    ensures Answers(messages[split..], out)
  {
    hide Kept, AllKept, KeepsCapability, CarriesId;
    KeptPrefix(messages, first, split);
    forall m, id | m in messages[split..] && m.Request? && CarriesId(m, id)
      ensures Called(out, id)
    {
      var r :| r in messages[split..] + Kept(messages[..split]) && r.Response? && CarriesId(r, id);
      assert r in out;
    }
  }

  /** What makes a message stay: half of a capability's loading, in either form, or the memories. */
  predicate Capability(part: Part) {
    || part.LoadCapabilityCall? || part.LoadCapabilityReturn?
    || ((part.ToolCall? || part.ToolReturn?) && part.tool == "load_capability")
    || (part.UserPrompt? && part.memories)
  }

  /** The result holds the summary, as a response with that text alone, every recent message, and of the
      older ones exactly those with such a part. */
  lemma StaysIff(messages: seq<Message>, split: nat, first: nat, text: string, out: seq<Message>, m: Message)
    requires split <= |messages| && Compacted(messages, split, first, text, out)
    ensures m in out
            <==> m == Response([Text(text)]) || m in messages[split..]
                 || (m in messages[..split] && exists part :: part in m.parts && Capability(part))
  {
    CapabilityKept(m);
    hide Capability, KeepsCapability, Compacted;
    SameMembers(messages, split, first, text, out);
  }

  /** The message has a call or a return with this id. */
  ghost predicate Names(m: Message, id: string) {
    || LoadCapabilityCall(id) in m.parts || LoadCapabilityReturn(id) in m.parts
    || exists tool :: ToolCall(tool, id) in m.parts || ToolReturn(tool, id) in m.parts
  }

  lemma NamesIff(m: Message, id: string)
    ensures CarriesId(m, id) <==> id != "" && Names(m, id)
  {
    if CarriesId(m, id) {
      var part :| part in m.parts && IdOf(part) == id;
      if part.ToolCall? {
        assert part == ToolCall(part.tool, id);
      } else if part.ToolReturn? {
        assert part == ToolReturn(part.tool, id);
      }
    }
    forall tool
      ensures IdOf(ToolCall(tool, id)) == id && IdOf(ToolReturn(tool, id)) == id
    {
    }
    assert IdOf(LoadCapabilityCall(id)) == id && IdOf(LoadCapabilityReturn(id)) == id;
  }

  /** A call counts as made by any response with a part of that id, of a tool or of a capability. */
  lemma CalledIff(messages: seq<Message>, id: string)
    ensures Called(messages, id) <==> id != "" && exists m :: m in messages && m.Response? && Names(m, id)
  {
    forall m
      ensures CarriesId(m, id) <==> id != "" && Names(m, id)
    {
      NamesIff(m, id);
    }
    hide CarriesId, Names;
  }

  lemma CapabilityKept(m: Message)
    ensures KeepsCapability(m) <==> exists part :: part in m.parts && Capability(part)
  {
    if part :| part in m.parts && Capability(part) {
      assert KeepsPart(part);
    }
    if part :| part in m.parts && KeepsPart(part) {
      assert Capability(part);
    }
  }

  /** A list is worth shortening when it fills more than three quarters of a window that is known. */
  lemma OverThresholdIff(tokens: int, window: int)
    ensures OverThreshold(tokens, window)
            <==> tokens > 0 && window > 0 && tokens as real / window as real > 0.75
  {
    if tokens > 0 && window > 0 {
      QuarterScale(tokens as real, window as real);
    }
  }

  lemma QuarterScale(tokens: real, window: real)
    requires window > 0.0
    ensures tokens / window > 0.75 <==> tokens * 4.0 > window * 3.0
  {
    var share := tokens / window;
    assert share * window == tokens;
    if share > 0.75 {
      assert (share - 0.75) * window > 0.0;
    } else {
      assert (0.75 - share) * window >= 0.0;
    }
  }

  /** The whole result answers all its returns just when the older messages that stay do: one of
      them may also answer a tool whose call is summarized away. */
  lemma OutputAnswersIff(messages: seq<Message>, split: nat, first: nat, text: string, out: seq<Message>)
    requires |messages| > KEEP && BestSplit(messages, |messages| - KEEP, split)
    requires Compacted(messages, split, first, text, out)
    ensures Answers(out, out) <==> Answers(Kept(messages[..split]), messages[split..] + Kept(messages[..split]))
  {
    hide Called, CarriesId, Kept, KeepsCapability, Compacted, Closed;
    var all := messages[split..] + Kept(messages[..split]);
    SameMembers(messages, split, first, text, out);
    forall id
      ensures !CarriesId(SummaryOf(text), id) && Called(out, id) == Called(all, id)
    {
      SummaryCarriesNothing(text, id);
      SameCalls(out, all, SummaryOf(text), id);
    }
    CompactedPromises(messages, split, first, text, out);
  }

  lemma SameMembers(messages: seq<Message>, split: nat, first: nat, text: string, out: seq<Message>)
    requires split <= |messages| && Compacted(messages, split, first, text, out)
    ensures forall m :: m in out <==> m == SummaryOf(text) || m in messages[split..] + Kept(messages[..split])
  {
    hide Kept, KeepsCapability, AllKept;
    KeptPrefix(messages, first, split);
  }

  lemma SummaryCarriesNothing(text: string, id: string)
    ensures !CarriesId(SummaryOf(text), id)
  {
  }

  lemma SameCalls(out: seq<Message>, all: seq<Message>, summary: Message, id: string)
    requires (forall m :: m in out <==> m == summary || m in all) && !CarriesId(summary, id)
    ensures Called(out, id) == Called(all, id)
  {
    if Called(all, id) {
      var m :| m in all && m.Response? && CarriesId(m, id);
      assert m in out;
    }
  }
}

module Compaction {
  import opened CompactionModel

  /** Moves the split back until every return kept verbatim has its call. */
  method SplitPoint(messages: seq<Message>, start: nat) returns (split: nat)
    requires start <= |messages|
    ensures BestSplit(messages, start, split)
  {
    split := start;
    while split > 0
      invariant split <= start
      invariant forall s :: split < s <= start ==> !Closed(messages, s)
    {
      var answered := Answered(messages, split);
      if answered {
        return;
      }
      split := split - 1;
    }
  }

  /** Whether every id returned after the split is called by a message that stays. */
  method Answered(messages: seq<Message>, split: nat) returns (answered: bool)
    requires split <= |messages|
    ensures answered == Closed(messages, split)
  {
    var kept := messages[split..] + Kept(messages[..split]);
    var called: set<string> := {};
    for i := 0 to |kept|
      invariant forall id :: id in called <==> Called(kept[..i], id)
    {
      CalledNext(kept, i);
      if kept[i].Response? {
        called := called + CallIds(kept[i]);
      }
    }
    assert kept[..|kept|] == kept;
    var recent := messages[split..];
    var returned: set<string> := {};
    for i := 0 to |recent|
      invariant forall id :: id in returned <==> Returned(recent[..i], id)
    {
      ReturnedNext(recent, i);
      if recent[i].Request? {
        returned := returned + CallIds(recent[i]);
      }
    }
    assert recent[..|recent|] == recent;
    AnsweredIff(recent, kept, returned, called);
    return returned <= called;
  }

  function CallIds(m: Message): (ids: set<string>)
    ensures forall id :: id in ids <==> CarriesId(m, id)
  {
    set part | part in m.parts && IdOf(part) != "" :: IdOf(part)
  }

  predicate Returned(messages: seq<Message>, id: string) {
    exists m :: m in messages && m.Request? && CarriesId(m, id)
  }

  lemma CalledNext(messages: seq<Message>, i: nat)
    requires i < |messages|
    ensures forall id :: Called(messages[..i + 1], id)
                         <==> Called(messages[..i], id) || (messages[i].Response? && CarriesId(messages[i], id))
  {
    hide CarriesId;
    assert messages[..i + 1] == messages[..i] + [messages[i]];
    assert messages[i] in messages[..i + 1];
  }

  lemma ReturnedNext(messages: seq<Message>, i: nat)
    requires i < |messages|
    ensures forall id :: Returned(messages[..i + 1], id)
                         <==> Returned(messages[..i], id) || (messages[i].Request? && CarriesId(messages[i], id))
  {
    hide CarriesId;
    assert messages[..i + 1] == messages[..i] + [messages[i]];
    assert messages[i] in messages[..i + 1];
  }

  lemma AnsweredIff(recent: seq<Message>, kept: seq<Message>, returned: set<string>, called: set<string>)
    requires forall id :: id in called <==> Called(kept, id)
    requires forall id :: id in returned <==> Returned(recent, id)
    ensures returned <= called <==> Answers(recent, kept)
  {
    hide CarriesId, Called;
    if Answers(recent, kept) {
      forall id | id in returned
        ensures id in called
      {
        var m :| m in recent && m.Request? && CarriesId(m, id);
      }
    }
    if returned <= called {
      forall m, id | m in recent && m.Request? && CarriesId(m, id)
        ensures Called(kept, id)
      {
        assert Returned(recent, id);
      }
    }
  }

  ghost predicate Chosen(messages: seq<Message>, split: nat) {
    |messages| > KEEP && split <= |messages| && BestSplit(messages, |messages| - KEEP, split)
  }

  /** What the summary model gave: its text, or an error that leaves the request as it was. */
  datatype Summary = Failed | Given(text: string)

  method CompactMessages(messages: seq<Message>, window: int, tokens: int, summary: Summary) returns (out: seq<Message>)
    ensures !OverThreshold(tokens, window) || |messages| <= KEEP || summary.Failed? || summary.text == ""
            ==> out == messages
    ensures OverThreshold(tokens, window) && |messages| > KEEP && summary.Given? && summary.text != "" ==>
              exists split: nat :: Chosen(messages, split) &&
                if AllKept(messages[..split]) then out == messages
                else exists first: nat :: Shortened(messages, split, first, summary, out)
  {
    if !OverThreshold(tokens, window) || |messages| <= KEEP {
      return messages;
    }
    var split := SplitPoint(messages, |messages| - KEEP);
    assert Chosen(messages, split);
    hide BestSplit;
    var older, recent := messages[..split], messages[split..];
    if AllKept(older) {
      return messages;
    }
    if summary.Failed? || summary.text == "" {
      return messages;
    }
    ghost var first;
    out, first := Summarized(older, summary.text);
    out := out + recent;
    ShortenedBy(messages, split, first, summary, out);
  }

  /** The older part with the summary where its first dropped message was. */
  method Summarized(older: seq<Message>, text: string) returns (compacted: seq<Message>, ghost first: nat)
    requires !AllKept(older)
    ensures first < |older| && AllKept(older[..first]) && !KeepsCapability(older[first])
    ensures compacted == older[..first] + [SummaryOf(text)] + Kept(older[first..])
  {
    hide Kept, KeepsCapability;
    compacted := [];
    var inserted := false;
    first := 0;
    for i := 0 to |older|
      invariant compacted == Built(older, i, text)
      invariant inserted == !AllKept(older[..i])
      invariant inserted ==> first < i && AllKept(older[..first]) && !KeepsCapability(older[first])
    {
      assert older[..i + 1] == older[..i] + [older[i]];
      if KeepsCapability(older[i]) {
        compacted := compacted + [older[i]];
        continue;
      }
      assert older[i] in older[..i + 1];
      if !inserted {
        compacted := compacted + [SummaryOf(text)];
        inserted := true;
        first := i;
      }
    }
    assert older[..|older|] == older;
    BuiltFromFirst(older, first, |older|, text);
  }

  ghost predicate Shortened(messages: seq<Message>, split: nat, first: nat, summary: Summary, out: seq<Message>) {
    && |messages| > KEEP && BestSplit(messages, |messages| - KEEP, split)
    && summary.Given? && summary.text != "" && split <= |messages|
    && Compacted(messages, split, first, summary.text, out)
  }

  lemma ShortenedBy(messages: seq<Message>, split: nat, first: nat, summary: Summary, out: seq<Message>)
    requires |messages| > KEEP && BestSplit(messages, |messages| - KEEP, split)
    requires summary.Given? && summary.text != "" && split <= |messages|
    requires first < split && !KeepsCapability(messages[..split][first]) && AllKept(messages[..split][..first])
    requires out == messages[..split][..first] + [SummaryOf(summary.text)] + Kept(messages[..split][first..])
             + messages[split..]
    ensures Shortened(messages, split, first, summary, out)
  {
    hide BestSplit, Kept, AllKept, KeepsCapability;
    assert messages[..split][..first] == messages[..first];
    assert messages[..split][first..] == messages[first..split];
  }

  // A message kept for the memories it carries, which answers a tool call as well.

  function Mixed(): seq<Message> {
    [Response([ToolCall("shell", "c1")]),
     Request([ToolReturn("shell", "c1"), UserPrompt("what I know of you", true)]),
     Response([Text("a")]), Request([UserPrompt("b", false)]), Response([Text("c")]), Request([UserPrompt("d", false)]),
     Response([Text("e")]), Request([UserPrompt("f", false)])]
  }

  lemma MixedKeeps()
    ensures !KeepsCapability(Mixed()[0]) && KeepsCapability(Mixed()[1]) && Kept(Mixed()[..2]) == [Mixed()[1]]
  {
    assert UserPrompt("what I know of you", true) in Mixed()[1].parts;
    assert Mixed()[..2][..1] == [Mixed()[0]] && [Mixed()[0]][..0] == [];
  }

  lemma MixedRecent(m: Message, id: string)
    requires m in Mixed()[2..]
    ensures !CarriesId(m, id)
  {
  }

  lemma MixedAnswers()
    ensures Answers(Mixed(), Mixed())
  {
    assert CarriesId(Mixed()[0], "c1") by { assert ToolCall("shell", "c1") in Mixed()[0].parts; }
    assert Called(Mixed(), "c1") by { assert Mixed()[0] in Mixed(); }
    forall m, id | m in Mixed() && m.Request? && CarriesId(m, id)
      ensures id == "c1"
    {
      assert m == Mixed()[1] || m in Mixed()[2..];
      MixedOnly(m, id);
    }
  }

  lemma MixedOnly(m: Message, id: string)
    requires m == Mixed()[1] || m in Mixed()[2..]
    ensures CarriesId(m, id) ==> id == "c1"
  {
  }

  lemma MixedSplits(text: string)
    ensures BestSplit(Mixed(), |Mixed()| - KEEP, 2)
    ensures Compacted(Mixed(), 2, 0, text, [SummaryOf(text), Mixed()[1]] + Mixed()[2..])
  {
    hide CarriesId, KeepsCapability, Kept;
    MixedKeeps();
    var messages := Mixed();
    assert messages[..0] == [] && messages[0..2] == messages[..2];
    assert [SummaryOf(text), messages[1]] + messages[2..]
           == messages[..0] + [SummaryOf(text)] + Kept(messages[0..2]) + messages[2..];
    forall m, id | m in messages[2..]
      ensures !CarriesId(m, id)
    {
      MixedRecent(m, id);
    }
  }

  lemma MixedDangles(text: string, out: seq<Message>)
    requires out == [SummaryOf(text), Mixed()[1]] + Mixed()[2..]
    ensures !Answers(out, out)
  {
    hide CarriesId;
    MixedReturns();
    assert out[1] == Mixed()[1] && out[1] in out;
    forall m | m in out && m.Response?
      ensures !CarriesId(m, "c1")
    {
      assert m == SummaryOf(text) || m in Mixed()[2..];
      SummaryCarriesNothing(text, "c1");
      if m in Mixed()[2..] {
        MixedRecent(m, "c1");
      }
    }
  }

  lemma MixedReturns()
    ensures Mixed()[1].Request? && CarriesId(Mixed()[1], "c1")
  {
    assert ToolReturn("shell", "c1") in Mixed()[1].parts;
  }

  /** The split is right, yet the message that stays from the older part answers a call that is
      summarized away: the result has a return without its call. */
  lemma KeptReturnCanDangle(text: string)
    ensures Answers(Mixed(), Mixed()) && BestSplit(Mixed(), |Mixed()| - KEEP, 2)
    ensures Compacted(Mixed(), 2, 0, text, [SummaryOf(text), Mixed()[1]] + Mixed()[2..])
    ensures !Answers([SummaryOf(text), Mixed()[1]] + Mixed()[2..], [SummaryOf(text), Mixed()[1]] + Mixed()[2..])
  {
    hide Answers, BestSplit, Compacted;
    MixedAnswers();
    MixedSplits(text);
    MixedDangles(text, [SummaryOf(text), Mixed()[1]] + Mixed()[2..]);
  }
}
