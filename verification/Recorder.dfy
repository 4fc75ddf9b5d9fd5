/** The conversation recorder: a buffer of streamed assistant text and a bounded message window.
    The class is proved against a specification of the whole input sequence. */
module Recorder {
  import opened Common
  import Scrub

  // ----- inputs -----

  /** The payload fields the recorder reads; `args` and `result` are already rendered as text. */
  datatype Payload = Payload(
    role: Option<string>, content: Option<string>, tool: Option<string>, args: string,
    toolUseId: Option<string>, result: Option<string>, isError: bool,
    decisionId: Option<string>, choice: Option<string>, autoApproved: bool)

  datatype Event = Event(taskId: string, kind: Option<string>, payload: Payload)

  /** One call on the recorder. */
  datatype Input = Received(event: Event) | Flushed

  // ----- messages -----

  datatype Extra =
    | NoExtra
    | Call(tool: string, toolUseId: string)
    | Result(toolUseId: string, isError: bool)
    | Decision(decisionId: string, choice: string, autoApproved: bool)
    | MessagesTruncated(dropped: int)

  datatype Raw = Raw(role: string, content: string, extra: Extra)

  datatype Message = Message(role: string, content: string, truncated: bool, extra: Extra)

  // ----- what one event contributes -----

  datatype Item = Delta(text: string) | Whole(raw: Raw) | Cut

  predicate StartsWith(s: string, prefix: string) { |prefix| <= |s| && s[..|prefix|] == prefix }

  predicate EndsWith(s: string, suffix: string) { |suffix| <= |s| && s[|s| - |suffix|..] == suffix }

  predicate IsInitialMessage(kind: string) { StartsWith(kind, "initial_") && EndsWith(kind, "_message") }

  /** Events of other kinds and empty deltas contribute nothing. */
  function ItemOf(input: Input): Option<Item> {
    if input.Flushed? then Some(Cut)
    else if input.event.kind == None then None
    else
      var kind, p := input.event.kind.value, input.event.payload;
      if IsInitialMessage(kind) then Some(Whole(Raw(OrElse(p.role, "user"), OrElse(p.content, ""), NoExtra)))
      else if kind == "assistant_delta" then
        if OrElse(p.content, "") == "" then None else Some(Delta(OrElse(p.content, "")))
      else if kind == "tool_call_started" then
        Some(Whole(Raw("tool_call", "call " + OrElse(p.tool, "unknown") + "(" + p.args + ")",
                       Call(OrElse(p.tool, ""), OrElse(p.toolUseId, "")))))
      else if kind == "tool_call_finished" then
        Some(Whole(Raw("tool_result", OrElse(p.result, ""), Result(OrElse(p.toolUseId, ""), p.isError))))
      else if kind == "decision_received" then
        Some(Whole(Raw("system", "", Decision(OrElse(p.decisionId, ""), OrElse(p.choice, ""), p.autoApproved))))
      else None
  }

  function Items(log: seq<Input>): seq<Item> {
    if log == [] then []
    else
      var init := Items(log[..|log| - 1]);
      var item := ItemOf(log[|log| - 1]);
      if item == None then init else init + [item.value]
  }

  // ----- maximal runs of deltas become one assistant message -----

  function DeltaRun(items: seq<Item>): (n: nat)
    ensures n <= |items|
    ensures forall i :: 0 <= i < n ==> items[i].Delta?
    ensures n < |items| ==> !items[n].Delta?
  {
    if items == [] || !items[0].Delta? then 0 else 1 + DeltaRun(items[1..])
  }

  function JoinDeltas(items: seq<Item>): string
    requires forall i :: 0 <= i < |items| ==> items[i].Delta?
  {
    if items == [] then "" else items[0].text + JoinDeltas(items[1..])
  }

  function Group(items: seq<Item>): seq<Raw>
    decreases |items|
  {
    if items == [] then []
    else match items[0]
      case Whole(raw) => [raw] + Group(items[1..])
      case Cut => Group(items[1..])
      case Delta(_) =>
        var n := DeltaRun(items);
        [Raw("assistant", JoinDeltas(items[..n]), NoExtra)] + Group(items[n..])
  }

  // ----- one message: scrubbed, then clipped -----

  function ScrubExtra(e: Extra): Extra {
    match e
    case Call(t, u) => Call(Scrub.Scrub(t), Scrub.Scrub(u))
    case Result(u, err) => Result(Scrub.Scrub(u), err)
    case Decision(d, c, a) => Decision(Scrub.Scrub(d), Scrub.Scrub(c), a)
    case _ => e
  }

  predicate IsLong(raw: Raw, maxChars: int) { |Scrub.Scrub(raw.content)| > maxChars }

  function Clean(raw: Raw, maxChars: int): Message {
    var text := Scrub.Scrub(raw.content);
    if |text| > maxChars then Message(raw.role, Before(text, maxChars), true, ScrubExtra(raw.extra))
    else Message(raw.role, text, false, ScrubExtra(raw.extra))
  }

  function CleanAll(raws: seq<Raw>, maxChars: int): (ms: seq<Message>)
    ensures |ms| == |raws|
    ensures forall i :: 0 <= i < |raws| ==> ms[i] == Clean(raws[i], maxChars)
  {
    seq(|raws|, i requires 0 <= i < |raws| => Clean(raws[i], maxChars))
  }

  function CountLong(raws: seq<Raw>, maxChars: int): nat {
    if raws == [] then 0
    else CountLong(raws[..|raws| - 1], maxChars) + (if IsLong(raws[|raws| - 1], maxChars) then 1 else 0)
  }

  // ----- the bounded window -----

  function TruncationSentinel(dropped: int): Message { Message("system", "", false, MessagesTruncated(dropped)) }

  /** Append one message; when the list grows over `limit`, keep the head, a sentinel and a tail. */
  function Push(limit: int, messages: seq<Message>, m: Message): seq<Message> {
    var all := messages + [m];
    if |all| > limit then
      var tail := From(all, -(limit - 2));
      all[..1] + [TruncationSentinel(|all| - 1 - |tail|)] + tail
    else all
  }

  function PushAll(limit: int, ms: seq<Message>): seq<Message> {
    if ms == [] then [] else Push(limit, PushAll(limit, ms[..|ms| - 1]), ms[|ms| - 1])
  }

  lemma PushAllSnoc(limit: int, ms: seq<Message>, m: Message)
    ensures PushAll(limit, ms + [m]) == Push(limit, PushAll(limit, ms), m)
  {
    assert (ms + [m])[..|ms|] == ms;
  }

  /** First message, one sentinel, last `limit - 2` messages. */
  function Window(limit: int, ms: seq<Message>): seq<Message>
    requires limit >= 3
  {
    if |ms| <= limit then ms else [ms[0], TruncationSentinel(2)] + ms[|ms| - (limit - 2)..]
  }

  lemma SlideTail<T>(init: seq<T>, m: T, a: T, b: T, n: nat)
    requires 1 <= n <= |init|
    ensures ([a, b] + init[|init| - n..] + [m])[3..] == (init + [m])[|init| + 1 - n..]
  {
  }

  lemma PushOver(limit: int, w: seq<Message>, m: Message)
    requires limit >= 3 && |w| == limit
    ensures Push(limit, w, m) == [w[0], TruncationSentinel(2)] + (w + [m])[3..]
  {
    assert (w + [m])[..1] == [w[0]];
  }

  lemma PushOnOverfull(limit: int, init: seq<Message>, m: Message)
    requires limit >= 3 && |init| > limit
    ensures Push(limit, Window(limit, init), m) == Window(limit, init + [m])
  {
    SlideTail(init, m, init[0], TruncationSentinel(2), limit - 2);
    PushOver(limit, Window(limit, init), m);
  }

  lemma PushOnWindow(limit: int, init: seq<Message>, m: Message)
    requires limit >= 3
    ensures Push(limit, Window(limit, init), m) == Window(limit, init + [m])
  {
    if |init| > limit {
      PushOnOverfull(limit, init, m);
    } else if |init| == limit {
      PushOver(limit, init, m);
    }
  }

  /** Truncating the already truncated list each time amounts to one window over all messages. */
  lemma {:induction false} WindowRefinement(limit: int, ms: seq<Message>)
    requires limit >= 3
    ensures PushAll(limit, ms) == Window(limit, ms)
    decreases |ms|
  {
    if ms != [] {
      var init, m := ms[..|ms| - 1], ms[|ms| - 1];
      assert ms == init + [m];
      WindowRefinement(limit, init);
      PushOnWindow(limit, init, m);
    }
  }

  lemma SmallLimitOverflows(limit: int) returns (ms: seq<Message>)
    requires limit < 3
    ensures |PushAll(limit, ms)| > limit
  {
    var m := TruncationSentinel(0);
    PushAllSnoc(limit, [], m);
    PushAllSnoc(limit, [m], m);
    PushAllSnoc(limit, [m] + [m], m);
    if limit <= 0 {
      ms := [] + [m];
    } else if limit == 1 {
      ms := [m] + [m];
      assert PushAll(1, [m]) == [m] by { assert [] + [m] == [m]; }
      assert |PushAll(1, ms)| == 3;
    } else {
      ms := [m] + [m] + [m];
      assert PushAll(2, [m]) == [m] by { assert [] + [m] == [m]; }
      assert PushAll(2, [m] + [m]) == [m] + [m];
    }
  }

  /** The list stays within the limit, whatever is appended, exactly for limits of at least three. */
  lemma LimitHoldsFromThree(limit: int)
    ensures (forall ms :: |PushAll(limit, ms)| <= limit) <==> limit >= 3
  {
    if limit >= 3 {
      forall ms ensures |PushAll(limit, ms)| <= limit { WindowRefinement(limit, ms); }
    } else {
      var ms := SmallLimitOverflows(limit);
    }
  }

  /** The sentinel always reports two dropped messages; that is the real number only right after
      the first overflow. */
  lemma SentinelCount(limit: int, ms: seq<Message>)
    requires limit >= 3 && |ms| > limit
    ensures var w := PushAll(limit, ms);
            && |w| == limit && w[1].extra == MessagesTruncated(2)
            && (|ms| - (|w| - 1) == 2 <==> |ms| == limit + 1)
  {
    WindowRefinement(limit, ms);
  }

  function TotalContent(ms: seq<Message>): nat {
    if ms == [] then 0 else |ms[0].content| + TotalContent(ms[1..])
  }

  lemma {:induction false} TotalContentBound(ms: seq<Message>, n: nat)
    requires forall i :: 0 <= i < |ms| ==> |ms[i].content| <= n
    ensures TotalContent(ms) <= |ms| * n
    decreases |ms|
  {
    if ms != [] {
      TotalContentBound(ms[1..], n);
      MulSucc(|ms| - 1, n);
    }
  }

  lemma WindowContent(limit: int, ms: seq<Message>, n: nat)
    requires limit >= 3
    requires forall i :: 0 <= i < |ms| ==> |ms[i].content| <= n
    ensures forall i :: 0 <= i < |Window(limit, ms)| ==> |Window(limit, ms)[i].content| <= n
  {
  }

  lemma MulSucc(a: nat, n: nat)
    ensures (a + 1) * n == n + a * n
  {
  }

  lemma MulMonotone(a: nat, b: nat, c: nat)
    requires a <= b
    ensures a * c <= b * c
  {
  }

  // ----- the grouped runs, one item at a time -----

  predicate Closed(items: seq<Item>) { items == [] || !items[|items| - 1].Delta? }

  function Deltas(buffer: seq<string>): (items: seq<Item>)
    ensures |items| == |buffer| && forall i :: 0 <= i < |buffer| ==> items[i] == Delta(buffer[i])
  {
    seq(|buffer|, i requires 0 <= i < |buffer| => Delta(buffer[i]))
  }

  function Join(buffer: seq<string>): string {
    if buffer == [] then "" else buffer[0] + Join(buffer[1..])
  }

  /** `[Raw("assistant", joined buffer)]`, or nothing for an empty buffer. */
  function Buffered(buffer: seq<string>): seq<Raw> {
    if buffer == [] then [] else [Raw("assistant", Join(buffer), NoExtra)]
  }

  lemma {:induction false} JoinIsJoinDeltas(buffer: seq<string>)
    ensures JoinDeltas(Deltas(buffer)) == Join(buffer)
    decreases |buffer|
  {
    if buffer != [] {
      JoinIsJoinDeltas(buffer[1..]);
      assert Deltas(buffer)[1..] == Deltas(buffer[1..]);
    }
  }

  /** Grouping distributes over a point that no run of deltas crosses. */
  lemma {:induction false} GroupSplit(a: seq<Item>, b: seq<Item>)
    requires Closed(a) || b == [] || !b[0].Delta?
    ensures Group(a + b) == Group(a) + Group(b)
    decreases |a|
  {
    if a == [] {
      assert a + b == b;
    } else if a[0].Delta? {
      var n := DeltaRun(a);
      DeltaRunAcross(a, b);
      SplitAt(a, b, n);
      GroupSplit(a[n..], b);
    } else {
      assert (a + b)[1..] == a[1..] + b;
      GroupSplit(a[1..], b);
    }
  }

  lemma SplitAt(a: seq<Item>, b: seq<Item>, n: nat)
    requires n <= |a|
    ensures (a + b)[..n] == a[..n] && (a + b)[n..] == a[n..] + b
  {
  }

  lemma {:induction false} DeltaRunAcross(a: seq<Item>, b: seq<Item>)
    requires Closed(a) || b == [] || !b[0].Delta?
    ensures a != [] ==> DeltaRun(a + b) == DeltaRun(a)
    decreases |a|
  {
    if a != [] {
      assert (a + b)[1..] == a[1..] + b;
      if |a| == 1 {
        assert a[1..] + b == b;
      } else {
        DeltaRunAcross(a[1..], b);
      }
    }
  }

  lemma GroupDeltas(buffer: seq<string>)
    ensures Group(Deltas(buffer)) == Buffered(buffer)
  {
    if buffer != [] {
      var d := Deltas(buffer);
      assert DeltaRun(d) == |d|;
      assert d[..|d|] == d && d[|d|..] == [];
      JoinIsJoinDeltas(buffer);
    }
  }

  /** Closed items followed by the buffered deltas. */
  lemma GroupWithBuffer(done: seq<Item>, buffer: seq<string>)
    requires Closed(done)
    ensures Group(done + Deltas(buffer)) == Group(done) + Buffered(buffer)
  {
    GroupSplit(done, Deltas(buffer));
    GroupDeltas(buffer);
  }

  // ----- re-chunking and repeated flushing -----

  lemma {:induction false} ItemsConcat(a: seq<Input>, b: seq<Input>)
    ensures Items(a + b) == Items(a) + Items(b)
    decreases |b|
  {
    if b == [] {
      assert a + b == a;
    } else {
      assert (a + b)[..|a + b| - 1] == a + b[..|b| - 1];
      ItemsConcat(a, b[..|b| - 1]);
    }
  }

  predicate AllDeltas(items: seq<Item>) { forall i :: 0 <= i < |items| ==> items[i].Delta? }

  lemma {:induction false} JoinConcat(a: seq<Item>, b: seq<Item>)
    requires AllDeltas(a) && AllDeltas(b)
    ensures AllDeltas(a + b)
    ensures JoinDeltas(a + b) == JoinDeltas(a) + JoinDeltas(b)
    decreases |a|
  {
    if a == [] {
      assert a + b == b;
    } else {
      assert (a + b)[1..] == a[1..] + b;
      JoinConcat(a[1..], b);
    }
  }

  lemma GroupAllDeltas(d: seq<Item>)
    requires AllDeltas(d) && d != []
    ensures Group(d) == [Raw("assistant", JoinDeltas(d), NoExtra)]
  {
    assert DeltaRun(d) == |d|;
    assert d[..|d|] == d && d[|d|..] == [];
  }

  lemma {:induction false} LastClosedPoint(items: seq<Item>) returns (c: seq<Item>, d: seq<Item>)
    ensures items == c + d && Closed(c) && AllDeltas(d)
    decreases |items|
  {
    if Closed(items) {
      c, d := items, [];
    } else {
      c, d := LastClosedPoint(items[..|items| - 1]);
      d := d + [items[|items| - 1]];
    }
  }

  lemma JoinOne(x: string)
    ensures JoinDeltas([Delta(x)]) == x
  {
    assert [Delta(x)][1..] == [];
  }

  lemma Reassociate(c: seq<Item>, d: seq<Item>, mid: seq<Item>, e: seq<Item>, f: seq<Item>)
    ensures (c + d) + mid + (e + f) == c + (d + mid + e) + f
  {
  }

  /** Two runs of deltas with the same joined text are interchangeable. */
  lemma GroupRechunk(before: seq<Item>, a: seq<Item>, b: seq<Item>, after: seq<Item>)
    requires AllDeltas(a) && AllDeltas(b) && a != [] && b != [] && JoinDeltas(a) == JoinDeltas(b)
    ensures Group(before + a + after) == Group(before + b + after)
  {
    var c, d := LastClosedPoint(before);
    var n := DeltaRun(after);
    var e, f := after[..n], after[n..];
    assert after == e + f;
    GroupRechunkPart(c, d, a, e, f);
    Reassociate(c, d, a, e, f);
    GroupRechunkPart(c, d, b, e, f);
    Reassociate(c, d, b, e, f);
  }

  lemma {:induction false} GroupRechunkPart(c: seq<Item>, d: seq<Item>, mid: seq<Item>, e: seq<Item>, f: seq<Item>)
    requires Closed(c) && AllDeltas(d) && AllDeltas(mid) && mid != [] && AllDeltas(e)
    requires f == [] || !f[0].Delta?
    ensures Group(c + (d + mid + e) + f)
         == Group(c) + [Raw("assistant", JoinDeltas(d) + JoinDeltas(mid) + JoinDeltas(e), NoExtra)] + Group(f)
  {
    JoinConcat(d, mid);
    JoinConcat(d + mid, e);
    GroupAllDeltas(d + mid + e);
    GroupSplit(c, d + mid + e);
    GroupSplit(c + (d + mid + e), f);
  }

  /** What the recorder holds after the inputs of `log` and a final flush. */
  function Recorded(limit: int, maxChars: int, log: seq<Input>): seq<Message> {
    PushAll(limit, CleanAll(Group(Items(log)), maxChars))
  }

  /** For a limit of at least three the record is a window over the cleaned messages, and its size
      is bounded by the two limits. */
  lemma {:induction false} RecordedWindow(limit: int, maxChars: int, log: seq<Input>)
    requires limit >= 3
    ensures Recorded(limit, maxChars, log) == Window(limit, CleanAll(Group(Items(log)), maxChars))
    ensures |Recorded(limit, maxChars, log)| <= limit
    ensures maxChars >= 0 ==> TotalContent(Recorded(limit, maxChars, log)) <= limit * maxChars
  {
    var raws := Group(Items(log));
    var ms := CleanAll(raws, maxChars);
    WindowRefinement(limit, ms);
    if maxChars >= 0 {
      forall i | 0 <= i < |ms| ensures |ms[i].content| <= maxChars { assert ms[i] == Clean(raws[i], maxChars); }
      WindowContent(limit, ms, maxChars);
      var w := Window(limit, ms);
      TotalContentBound(w, maxChars);
      MulMonotone(|w|, limit, maxChars);
    }
  }

  // ----- what a recorded message holds -----

  /** Which message the entry at `i` of a window over `n` messages is. */
  function SourceOf(limit: int, n: nat, i: nat): int {
    if n <= limit || i == 0 then i else n - limit + i
  }

  /** The texts inside an extra. */
  function TextsOf(e: Extra): seq<string> {
    match e
    case Call(tool, id) => [tool, id]
    case Result(id, _) => [id]
    case Decision(id, choice, _) => [id, choice]
    case _ => []
  }

  /** Same kind of extra, same flags and numbers, as many texts. */
  predicate SameShape(a: Extra, b: Extra) {
    match a
    case NoExtra => b.NoExtra?
    case Call(_, _) => b.Call?
    case Result(_, isError) => b.Result? && b.isError == isError
    case Decision(_, _, auto) => b.Decision? && b.autoApproved == auto
    case MessagesTruncated(n) => b == a
  }

  /** `m` records `raw`: the scrubbed content, cut to `maxChars` characters and marked when something was cut;
      the extra has scrubbed texts, and no secret of any shape is left in them. */
  ghost predicate Records(m: Message, raw: Raw, maxChars: int) {
    var text := Scrub.Scrub(raw.content);
    && m.role == raw.role
    && m.content <= text
    && |m.content| == (if maxChars >= 0 then Min(|text|, maxChars) else Max(0, |text| + maxChars))
    && (m.truncated <==> |text| > maxChars)
    && SameShape(raw.extra, m.extra) && |TextsOf(m.extra)| == |TextsOf(raw.extra)|
    && forall i, q :: 0 <= i < |TextsOf(m.extra)| ==>
         TextsOf(m.extra)[i] == Scrub.Scrub(TextsOf(raw.extra)[i]) && Scrub.Free(q, TextsOf(m.extra)[i])
  }

  lemma CleanRecords(raw: Raw, maxChars: int)
    ensures Records(Clean(raw, maxChars), raw, maxChars)
  {
    var m := Clean(raw, maxChars);
    forall i, q | 0 <= i < |TextsOf(m.extra)|
      ensures TextsOf(m.extra)[i] == Scrub.Scrub(TextsOf(raw.extra)[i]) && Scrub.Free(q, TextsOf(m.extra)[i])
    {
      Scrub.ScrubLeavesNoMatch(TextsOf(raw.extra)[i], q);
    }
  }

  /** Over whole runs: every recorded message but the sentinel records one message of the input, in order,
      and what it holds has been scrubbed before it was cut. */
  lemma {:induction false} RecordedContent(limit: int, maxChars: int, log: seq<Input>, i: nat)
    requires limit >= 3 && i < |Recorded(limit, maxChars, log)|
    ensures var ms, raws := Recorded(limit, maxChars, log), Group(Items(log));
            if |raws| > limit && i == 1 then ms[i] == Message("system", "", false, MessagesTruncated(2))
            else var j := SourceOf(limit, |raws|, i); 0 <= j < |raws| && Records(ms[i], raws[j], maxChars)
  {
    var raws := Group(Items(log));
    var ms := CleanAll(raws, maxChars);
    WindowRefinement(limit, ms);
    WindowEntry(limit, ms, i);
    if !(|raws| > limit && i == 1) { CleanRecords(raws[SourceOf(limit, |raws|, i)], maxChars); }
  }

  lemma WindowEntry(limit: int, ms: seq<Message>, i: nat)
    requires limit >= 3 && i < |Window(limit, ms)|
    ensures if |ms| > limit && i == 1 then Window(limit, ms)[i] == Message("system", "", false, MessagesTruncated(2))
            else 0 <= SourceOf(limit, |ms|, i) < |ms| && Window(limit, ms)[i] == ms[SourceOf(limit, |ms|, i)]
  {
  }

  function CountTruncated(ms: seq<Message>): nat {
    if ms == [] then 0 else CountTruncated(ms[..|ms| - 1]) + if ms[|ms| - 1].truncated then 1 else 0
  }

  /** The truncation counter is the number of messages that were cut, also those that left the window. */
  lemma {:induction false} TruncatedCount(raws: seq<Raw>, maxChars: int)
    ensures CountLong(raws, maxChars) == CountTruncated(CleanAll(raws, maxChars))
  {
    if raws != [] {
      var n := |raws| - 1;
      TruncatedCount(raws[..n], maxChars);
      assert CleanAll(raws, maxChars)[..n] == CleanAll(raws[..n], maxChars);
    }
  }

  /** With `GroupSplit`, these determine the messages of any input: a message of its own stands for itself, a
      cut for nothing, and a run of deltas for one assistant message. */
  lemma GroupPieces(raw: Raw, run: seq<Item>)
    ensures Group([]) == [] && Group([Whole(raw)]) == [raw] && Group([Cut]) == []
    ensures AllDeltas(run) && run != [] ==> Group(run) == [Raw("assistant", JoinDeltas(run), NoExtra)]
  {
    assert [Whole(raw)][1..] == [];
    assert [Cut][1..] == [];
    if AllDeltas(run) && run != [] { GroupAllDeltas(run); }
  }

  /** What each kind of event contributes. */
  lemma ItemByKind(input: Input, kind: string, p: Payload)
    requires input.Received? && input.event.kind == Some(kind) && input.event.payload == p
    ensures kind == "tool_call_started" ==>
              ItemOf(input) == Some(Whole(Raw("tool_call", "call " + OrElse(p.tool, "unknown") + "(" + p.args + ")",
                                              Call(OrElse(p.tool, ""), OrElse(p.toolUseId, "")))))
    ensures kind == "tool_call_finished" ==>
              ItemOf(input) == Some(Whole(Raw("tool_result", OrElse(p.result, ""),
                                              Result(OrElse(p.toolUseId, ""), p.isError))))
    ensures kind == "decision_received" ==>
              ItemOf(input) == Some(Whole(Raw("system", "", Decision(OrElse(p.decisionId, ""), OrElse(p.choice, ""),
                                                                     p.autoApproved))))
    ensures kind == "initial_user_message" || kind == "initial_assistant_message" || kind == "initial_system_message" ==>
              ItemOf(input) == Some(Whole(Raw(OrElse(p.role, "user"), OrElse(p.content, ""), NoExtra)))
  {
    assert "initial_"[0] == 'i';
    assert "tool_call_started"[..8][0] == 't' && "tool_call_finished"[..8][0] == 't' && "decision_received"[..8][0] == 'd';
    InitialKinds();
  }

  lemma IgnoredKinds(input: Input, kind: string)
    requires input.Received? && input.event.kind == Some(kind)
    requires kind == "task_started" || kind == "hitl_required" || kind == "initial_user" || kind == "user_message"
    ensures ItemOf(input) == None
  {
    NotInitial();
    assert "initial_"[0] == 'i' && "task_started"[..8][0] == 't' && "hitl_required"[..8][0] == 'h';
    assert "assistant_delta"[0] == 'a' && "decision_received"[0] == 'd' && "tool_call_started"[1] == 'o' && "tool_call_finished"[1] == 'o';
    assert "task_started"[1] == 'a';
  }

  lemma InitialKinds()
    ensures IsInitialMessage("initial_user_message")
    ensures IsInitialMessage("initial_assistant_message")
    ensures IsInitialMessage("initial_system_message")
  {
    Affixes("initial_", "user", "_message");
    Affixes("initial_", "assistant", "_message");
    Affixes("initial_", "system", "_message");
    assert "initial_" + "user" + "_message" == "initial_user_message";
    assert "initial_" + "assistant" + "_message" == "initial_assistant_message";
    assert "initial_" + "system" + "_message" == "initial_system_message";
  }

  lemma NotInitial()
    ensures !IsInitialMessage("initial_user") && !IsInitialMessage("user_message")
    ensures "initial_user"[0] == 'i' && "user_message"[0] == 'u'
  {
    assert "initial_user"[4..][0] == 'i' && "_message"[0] == '_';
    assert "user_message"[..8][0] == 'u' && "initial_"[0] == 'i';
  }

  lemma Affixes(a: string, b: string, c: string)
    ensures StartsWith(a + b + c, a) && EndsWith(a + b + c, c)
  {
  }

  predicate IsDelta(input: Input, text: string) {
    input.Received? && input.event.kind == Some("assistant_delta") && OrElse(input.event.payload.content, "") == text
  }

  lemma ItemOfDelta(input: Input, text: string)
    requires IsDelta(input, text)
    ensures Items([input]) == if text == "" then [] else [Delta(text)]
  {
    assert [input][..0] == [];
    var kind := "assistant_delta";
    assert kind[..8][0] == kind[0] == 'a';
  }

  /** `run` streams the pieces `texts`, one delta each; a piece may be empty. */
  predicate Streams(run: seq<Input>, texts: seq<string>) {
    |run| == |texts| && forall i :: 0 <= i < |run| ==> IsDelta(run[i], texts[i])
  }

  lemma {:induction false} ItemsOfStream(run: seq<Input>, texts: seq<string>)
    requires Streams(run, texts)
    ensures AllDeltas(Items(run)) && JoinDeltas(Items(run)) == Join(texts)
    ensures Items(run) == [] <==> Join(texts) == ""
    decreases |run|
  {
    if run != [] {
      ItemsOfStream(run[1..], texts[1..]);
      ItemOfDelta(run[0], texts[0]);
      assert run == [run[0]] + run[1..];
      ItemsConcat([run[0]], run[1..]);
      JoinConcat(Items([run[0]]), Items(run[1..]));
      if texts[0] != "" { JoinOne(texts[0]); }
    }
  }

  /** However a streamed text is cut into deltas, anywhere in the input, the recording is the same. */
  lemma Rechunking(limit: int, maxChars: int, before: seq<Input>, a: seq<Input>, b: seq<Input>,
                   x: seq<string>, y: seq<string>, after: seq<Input>)
    requires Streams(a, x) && Streams(b, y) && Join(x) == Join(y)
    ensures Recorded(limit, maxChars, before + a + after) == Recorded(limit, maxChars, before + b + after)
  {
    ItemsOfStream(a, x);
    ItemsOfStream(b, y);
    ItemsConcat(before, a);
    ItemsConcat(before + a, after);
    ItemsConcat(before, b);
    ItemsConcat(before + b, after);
    if Join(x) != "" {
      GroupRechunk(Items(before), Items(a), Items(b), Items(after));
    }
  }

  /** Inputs that carry no conversation leave no trace, wherever they occur. */
  lemma IgnoredInputs(limit: int, maxChars: int, before: seq<Input>, input: Input, after: seq<Input>)
    requires ItemOf(input) == None
    ensures Recorded(limit, maxChars, before + [input] + after) == Recorded(limit, maxChars, before + after)
  {
    ItemsConcat(before, [input]);
    ItemsConcat(before + [input], after);
    ItemsConcat(before, after);
    assert [input][..0] == [];
    assert Items([input]) == [];
    assert Items(before) + [] == Items(before);
  }

  /** Flushing again, or flushing when nothing is buffered, changes nothing. */
  lemma FlushTwice(limit: int, maxChars: int, log: seq<Input>)
    ensures Recorded(limit, maxChars, log + [Flushed]) == Recorded(limit, maxChars, log)
    ensures Recorded(limit, maxChars, log + [Flushed, Flushed]) == Recorded(limit, maxChars, log)
  {
    assert log + [Flushed, Flushed] == (log + [Flushed]) + [Flushed];
    FlushAdds(log);
    FlushAdds(log + [Flushed]);
  }

  lemma FlushAdds(log: seq<Input>)
    ensures Group(Items(log + [Flushed])) == Group(Items(log))
    ensures Items(log + [Flushed]) == Items(log) + [Cut]
  {
    assert (log + [Flushed])[..|log|] == log;
    GroupSplit(Items(log), [Cut]);
    assert Group([Cut]) == [];
  }

  // ----- the recorder -----

  class ConversationsWriter {
    const maxMessages: int
    const maxContentChars: int
    var messages: seq<Message>
    var assistantBuffer: seq<string>
    var truncatedCount: nat
    var taskId: Option<string>
    /** Every call so far. */
    ghost var log: seq<Input>
    /** The items up to the last flush point. */
    ghost var done: seq<Item>

    ghost predicate Valid()
      reads this
    {
      && Closed(done) && Items(log) == done + Deltas(assistantBuffer)
      && messages == PushAll(maxMessages, CleanAll(Group(done), maxContentChars))
      && truncatedCount == CountLong(Group(done), maxContentChars)
    }

    constructor (maxMessages: int, maxContentChars: int)
      ensures Valid() && log == [] && messages == [] && taskId == None
      ensures this.maxMessages == maxMessages && this.maxContentChars == maxContentChars
    {
      this.maxMessages, this.maxContentChars := maxMessages, maxContentChars;
      messages, assistantBuffer, truncatedCount, taskId := [], [], 0, None;
      log, done := [], [];
    }

    method AppendMessage(raw: Raw)
      modifies this`messages, this`truncatedCount
      ensures messages == Push(maxMessages, old(messages), Clean(raw, maxContentChars))
      ensures truncatedCount == old(truncatedCount) + (if IsLong(raw, maxContentChars) then 1 else 0)
    {
      var scrubbed := Scrub.ScrubText(raw.content);
      var truncated := false;
      if |scrubbed| > maxContentChars {
        scrubbed := Before(scrubbed, maxContentChars);
        truncated := true;
        truncatedCount := truncatedCount + 1;
      }
      AppendBounded(Message(raw.role, scrubbed, truncated, ScrubExtra(raw.extra)));
    }

    /** Append, then keep first message, sentinel and tail when over the limit. */
    method AppendBounded(m: Message)
      modifies this`messages
      ensures messages == Push(maxMessages, old(messages), m)
    {
      messages := messages + [m];
      if |messages| > maxMessages {
        var tail := From(messages, -(maxMessages - 2));
        messages := messages[..1] + [TruncationSentinel(|messages| - 1 - |tail|)] + tail;
      }
    }

    /** The buffered deltas, if any, become one assistant message. */
    method FlushAssistantBuffer()
      modifies this`messages, this`truncatedCount, this`assistantBuffer
      ensures assistantBuffer == []
      ensures messages == PushOpt(maxMessages, maxContentChars, old(messages), Buffered(old(assistantBuffer)))
      ensures truncatedCount == old(truncatedCount) + LongOpt(maxContentChars, Buffered(old(assistantBuffer)))
    {
      if assistantBuffer == [] {
        return;
      }
      AppendMessage(Raw("assistant", Join(assistantBuffer), NoExtra));
      assistantBuffer := [];
    }

    /** The buffered message, if any, then the event's own message, if any. */
    method AppendBoth(own: seq<Raw>)
      requires |own| <= 1
      modifies this`messages, this`truncatedCount, this`assistantBuffer
      ensures assistantBuffer == []
      ensures messages == PushOpt(maxMessages, maxContentChars,
                                  PushOpt(maxMessages, maxContentChars, old(messages), Buffered(old(assistantBuffer))), own)
      ensures truncatedCount == old(truncatedCount) + LongOpt(maxContentChars, Buffered(old(assistantBuffer)))
                                + LongOpt(maxContentChars, own)
    {
      FlushAssistantBuffer();
      if own != [] {
        AppendMessage(own[0]);
      }
    }

    /** Close the run of deltas and, for an event with a message of its own, append that message. */
    method CloseRun(own: seq<Raw>, ghost input: Input, ghost item: Item)
      requires Valid() && |own| <= 1 && ItemOf(input) == Some(item)
      requires item == if own == [] then Cut else Whole(own[0])
      modifies this
      ensures Valid() && assistantBuffer == [] && log == old(log) + [input] && taskId == old(taskId)
      ensures messages == Recorded(maxMessages, maxContentChars, log)
    {
      ghost var all := done + Deltas(assistantBuffer) + [item];
      RunClosed(maxMessages, maxContentChars, done, assistantBuffer, item, own);
      ItemsSnoc(log, input);
      AppendBoth(own);
      done, log := all, log + [input];
      assert Items(log) == all && all + Deltas([]) == all;
    }

    method OnEvent(event: Event)
      requires Valid()
      modifies this
      ensures Valid() && log == old(log) + [Received(event)]
      ensures taskId == if old(taskId) == None then Some(event.taskId) else old(taskId)
    {
      ghost var input := Received(event);
      if taskId == None {
        taskId := Some(event.taskId);
      }
      if event.kind == None {
        Skip(input);
        return;
      }
      var kind, p := event.kind.value, event.payload;
      var own: Option<Raw> := None;
      if IsInitialMessage(kind) {
        own := Some(Raw(OrElse(p.role, "user"), OrElse(p.content, ""), NoExtra));
      } else if kind == "assistant_delta" {
        BufferDelta(OrElse(p.content, ""), input);
        return;
      } else if kind == "tool_call_started" {
        own := Some(Raw("tool_call", "call " + OrElse(p.tool, "unknown") + "(" + p.args + ")",
                        Call(OrElse(p.tool, ""), OrElse(p.toolUseId, ""))));
      } else if kind == "tool_call_finished" {
        own := Some(Raw("tool_result", OrElse(p.result, ""), Result(OrElse(p.toolUseId, ""), p.isError)));
      } else if kind == "decision_received" {
        own := Some(Raw("system", "", Decision(OrElse(p.decisionId, ""), OrElse(p.choice, ""), p.autoApproved)));
      }
      if own == None {
        Skip(input);
      } else {
        CloseRun([own.value], input, Whole(own.value));
      }
    }

    /** Streamed text is only buffered. */
    method BufferDelta(text: string, ghost input: Input)
      requires Valid() && ItemOf(input) == (if text == "" then None else Some(Delta(text)))
      modifies this`assistantBuffer, this`log
      ensures Valid() && log == old(log) + [input]
      ensures assistantBuffer == old(assistantBuffer) + (if text == "" then [] else [text])
    {
      ItemsSnoc(log, input);
      log := log + [input];
      if text != "" {
        assert Deltas(assistantBuffer + [text]) == Deltas(assistantBuffer) + [Delta(text)];
        assistantBuffer := assistantBuffer + [text];
      }
    }

    ghost method Skip(input: Input)
      requires Valid() && ItemOf(input) == None
      modifies this`log
      ensures Valid() && log == old(log) + [input]
    {
      log := log + [input];
      ItemsSnoc(old(log), input);
    }

    method OnTerminal()
      requires Valid()
      modifies this
      ensures Valid() && assistantBuffer == [] && log == old(log) + [Flushed] && taskId == old(taskId)
      ensures messages == Recorded(maxMessages, maxContentChars, log)
    {
      CloseRun([], Flushed, Cut);
    }

    /** The list that would be written to disk, if any. */
    method Flush() returns (written: Option<seq<Message>>)
      requires Valid()
      modifies this
      ensures Valid() && assistantBuffer == [] && log == old(log) + [Flushed] && taskId == old(taskId)
      ensures messages == Recorded(maxMessages, maxContentChars, log)
      ensures written == if messages == [] || taskId == None then None else Some(messages)
    {
      CloseRun([], Flushed, Cut);
      written := if messages == [] || taskId == None then None else Some(messages);
    }
  }

  lemma ItemsSnoc(log: seq<Input>, input: Input)
    ensures Items(log + [input]) == Items(log) + (if ItemOf(input) == None then [] else [ItemOf(input).value])
  {
    assert (log + [input])[..|log|] == log;
  }

  lemma GroupClosed(done: seq<Item>, buffer: seq<string>, item: Item, own: seq<Raw>)
    requires Closed(done) && |own| <= 1
    requires item == if own == [] then Cut else Whole(own[0])
    ensures Group(done + Deltas(buffer) + [item]) == Group(done) + Buffered(buffer) + own
    ensures Closed(done + Deltas(buffer) + [item])
  {
    GroupWithBuffer(done, buffer);
    GroupSplit(done + Deltas(buffer), [item]);
    assert Group([item]) == own;
  }

  /** The list after appending at most one message. */
  function PushOpt(limit: int, maxChars: int, messages: seq<Message>, own: seq<Raw>): seq<Message> {
    if own == [] then messages else Push(limit, messages, Clean(own[0], maxChars))
  }

  function LongOpt(maxChars: int, own: seq<Raw>): nat {
    if own != [] && IsLong(own[0], maxChars) then 1 else 0
  }

  lemma RunClosed(limit: int, maxChars: int, done: seq<Item>, buffer: seq<string>, item: Item, own: seq<Raw>)
    requires Closed(done) && |own| <= 1
    requires item == if own == [] then Cut else Whole(own[0])
    ensures var all := done + Deltas(buffer) + [item];
            && Closed(all)
            && PushAll(limit, CleanAll(Group(all), maxChars))
            == PushOpt(limit, maxChars,
                       PushOpt(limit, maxChars, PushAll(limit, CleanAll(Group(done), maxChars)), Buffered(buffer)),
                       own)
            && CountLong(Group(all), maxChars)
            == CountLong(Group(done), maxChars) + LongOpt(maxChars, Buffered(buffer)) + LongOpt(maxChars, own)
  {
    GroupClosed(done, buffer, item, own);
    AppendBuffered(limit, maxChars, Group(done), Buffered(buffer));
    AppendBuffered(limit, maxChars, Group(done) + Buffered(buffer), own);
  }

  lemma AppendBuffered(limit: int, maxChars: int, raws: seq<Raw>, more: seq<Raw>)
    requires |more| <= 1
    ensures PushAll(limit, CleanAll(raws + more, maxChars))
         == PushOpt(limit, maxChars, PushAll(limit, CleanAll(raws, maxChars)), more)
    ensures CountLong(raws + more, maxChars) == CountLong(raws, maxChars) + LongOpt(maxChars, more)
  {
    if more == [] {
      assert raws + more == raws;
    } else {
      assert more == [more[0]];
      var ms := CleanAll(raws, maxChars);
      assert CleanAll(raws + more, maxChars) == ms + [Clean(more[0], maxChars)];
      PushAllSnoc(limit, ms, Clean(more[0], maxChars));
      assert (raws + more)[..|raws|] == raws;
    }
  }
}
