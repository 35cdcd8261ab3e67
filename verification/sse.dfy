/** The upstream frame classification loop (`process_sse`): the stream of
    upstream Server-Sent-Event items, the per-frame classification, and the
    fold that turns a whole item script into the events forwarded to the
    consumer, threading the finish reason that the final event reports. */
module Sse {
  import opened Wrappers

  /** The fields of a parsed `message` frame's JSON data that the loop reads.
      A field is `None` when it is missing or not a JSON string. */
  datatype Payload = Payload(kind: Option<string>, content: Option<string>, msg: Option<string>, stopReason: Option<string>)

  /** A transport error other than a clean end of stream; `text` is what the
      error displays as. */
  datatype TransportError = TransportError(text: string)

  /** One thing `sse.next()` yields or the loop observes. `data` is `None`
      when the frame's data is not JSON. `Cancel` is the cancellation token
      firing before the next item; the end of the script is `sse.next()`
      returning nothing. */
  datatype Item =
    | Open
    | Frame(event: string, data: Option<Payload>)
    | StreamEnded
    | OtherError(error: TransportError)
    | Cancel

  datatype MessageKind = Think | Msg

  /** The events forwarded to the consumer. */
  datatype ChatCompletionEvent =
    | Message(kind: MessageKind, text: string)
    | Error(error: TransportError)
    | Finish(reason: string)

  /** What one frame does: nothing, forward an event, or replace the finish reason. */
  datatype Effect = Skip | Emit(event: ChatCompletionEvent) | SetReason(reason: string)

  /** The finish reason before any status frame. */
  const DefaultReason: string := "stop"

  /** A missing or non-string JSON field reads as the empty string. */
  function Field(f: Option<string>): string {
    f.GetOr("")
  }

  const StreamErrorPrefix: string := "Error on stream: "

  /** The message the error event carries, as the loop formats it: the
      fixed prefix, then the transport error's own text, which can be read
      back off the message. */
  function Describe(e: TransportError): (m: string)
    ensures |m| == |StreamErrorPrefix| + |e.text|
    ensures m[..|StreamErrorPrefix|] == StreamErrorPrefix && m[|StreamErrorPrefix|..] == e.text
  {
    StreamErrorPrefix + e.text
  }

  /** The item ends consumption: a clean end of stream or a cancellation. */
  predicate Stops(item: Item) {
    item.StreamEnded? || item.Cancel?
  }

  /** A status frame that reports a non-empty stop reason: a parsed
      `message` frame whose type is neither `think` nor `text`. */
  predicate ReportsReason(item: Item) {
    && item.Frame?
    && item.event == "message"
    && item.data.Some?
    && Field(item.data.value.kind) != "think"
    && Field(item.data.value.kind) != "text"
    && Field(item.data.value.stopReason) != ""
  }

  /** The effect of one frame, branch by branch as the loop decides it. */
  function Classify(event: string, data: Option<Payload>): (r: Effect)
    ensures event != "message" || data.None? ==> r == Skip
    ensures r.Emit? ==> r.event.Message?
    ensures r.Emit? && r.event.kind == Think ==> r.event.text != ""
    ensures r.SetReason? <==> ReportsReason(Frame(event, data))
    ensures r.SetReason? ==> r.reason == Field(data.value.stopReason)
  {
    if event != "message" then Skip
    else match data
      case None => Skip
      case Some(p) =>
        var kind := Field(p.kind);
        if kind == "think" then
          var content := Field(p.content);
          if content == "" then Skip else Emit(Message(Think, content))
        else if kind == "text" then
          Emit(Message(Msg, Field(p.msg)))
        else
          var stop := Field(p.stopReason);
          if stop != "" then SetReason(stop) else Skip
  }

  /** The events a consumed (non-stopping) item forwards. */
  function Emitted(item: Item): seq<ChatCompletionEvent> {
    match item
    case Frame(event, data) =>
      (match Classify(event, data) case Emit(e) => [e] case _ => [])
    case OtherError(e) => [Error(e)]
    case _ => []
  }

  /** The finish reason after consuming `item`. */
  function NextReason(item: Item, reason: string): string {
    match item
    case Frame(event, data) =>
      (match Classify(event, data) case SetReason(r) => r case _ => reason)
    case _ => reason
  }

  /** `out` ends with a single `Finish`, and nothing before it is one. */
  predicate FinishOnceAtEnd(out: seq<ChatCompletionEvent>) {
    && |out| >= 1
    && out[|out| - 1].Finish?
    && forall i :: 0 <= i < |out| - 1 ==> !out[i].Finish?
  }

  /** The loop from some point on, with `reason` the finish reason so far:
      consume items until one stops the loop or the script runs out, then
      send `Finish(reason)`. */
  function Run(items: seq<Item>, reason: string): (out: seq<ChatCompletionEvent>)
    ensures |out| >= 1 && out[|out| - 1].Finish?
  {
    if items == [] || Stops(items[0]) then [Finish(reason)]
    else Emitted(items[0]) + Run(items[1..], NextReason(items[0], reason))
  }

  /** No `Finish` is forwarded before the last event. */
  lemma {:induction false} RunFinishesOnce(items: seq<Item>, reason: string)
    ensures FinishOnceAtEnd(Run(items, reason))
  {
    if items != [] && !Stops(items[0]) {
      var head := Emitted(items[0]);
      var tail := Run(items[1..], NextReason(items[0], reason));
      RunFinishesOnce(items[1..], NextReason(items[0], reason));
      assert forall i :: 0 <= i < |head| ==> head[i].Message? || head[i].Error?;
      assert Run(items, reason) == head + tail;
    }
  }

  /** `process_sse` on a whole script. */
  function ProcessSse(items: seq<Item>): (out: seq<ChatCompletionEvent>)
    ensures FinishOnceAtEnd(out)
  {
    RunFinishesOnce(items, DefaultReason);
    Run(items, DefaultReason)
  }

  /** The items the loop consumes: everything before the first item that
      stops it. */
  function Consumed(items: seq<Item>): (c: seq<Item>)
    ensures |c| <= |items| && c == items[..|c|]
    ensures forall i :: 0 <= i < |c| ==> !Stops(c[i])
    ensures |c| < |items| ==> Stops(items[|c|])
  {
    if items == [] || Stops(items[0]) then [] else [items[0]] + Consumed(items[1..])
  }

  /** The events of a sequence of consumed items, in order. */
  function EmittedAll(items: seq<Item>): seq<ChatCompletionEvent> {
    if items == [] then [] else Emitted(items[0]) + EmittedAll(items[1..])
  }

  /** Appending consumed items appends their events: order is preserved. */
  lemma {:induction false} EmittedAllSplit(xs: seq<Item>, ys: seq<Item>)
    ensures EmittedAll(xs + ys) == EmittedAll(xs) + EmittedAll(ys)
  {
    if xs == [] {
      assert xs + ys == ys;
    } else {
      assert (xs + ys)[0] == xs[0];
      assert (xs + ys)[1..] == xs[1..] + ys;
      EmittedAllSplit(xs[1..], ys);
      assert Emitted(xs[0]) + (EmittedAll(xs[1..]) + EmittedAll(ys))
          == (Emitted(xs[0]) + EmittedAll(xs[1..])) + EmittedAll(ys);
    }
  }

  /** Everything before the final `Finish` is the in-order events of the
      consumed items; items from the first stopping one on forward nothing. */
  lemma {:induction false} RunShape(items: seq<Item>, reason: string)
    ensures Run(items, reason)[..|Run(items, reason)| - 1] == EmittedAll(Consumed(items))
  {
    if items == [] || Stops(items[0]) {
    } else {
      var out := Run(items, reason);
      var tail := Run(items[1..], NextReason(items[0], reason));
      RunShape(items[1..], NextReason(items[0], reason));
      assert out == Emitted(items[0]) + tail;
      assert out[..|out| - 1] == Emitted(items[0]) + tail[..|tail| - 1];
    }
  }

  /** What happens after the first stopping item is irrelevant: the loop
      behaves as if the script ended there, so a clean end of stream, a
      cancellation and running out of items all finish the same way. */
  lemma {:induction false} RunSeesOnlyConsumed(items: seq<Item>, reason: string)
    ensures Run(items, reason) == Run(Consumed(items), reason)
  {
    if items != [] && !Stops(items[0]) {
      RunSeesOnlyConsumed(items[1..], NextReason(items[0], reason));
      assert Consumed(items)[1..] == Consumed(items[1..]);
    }
  }

  /** A clean end of stream or a cancellation after some consumed items
      ends the loop exactly as if the upstream had no more items: the
      finish is still sent, and nothing after the stop is read. */
  lemma {:induction false} StopActsAsEndOfScript(before: seq<Item>, stop: Item, after: seq<Item>, reason: string)
    requires forall i :: 0 <= i < |before| ==> !Stops(before[i])
    requires Stops(stop)
    ensures Run(before + [stop] + after, reason) == Run(before, reason)
  {
    if before != [] {
      assert (before + [stop] + after)[1..] == before[1..] + [stop] + after;
      assert (before + [stop] + after)[0] == before[0];
      StopActsAsEndOfScript(before[1..], stop, after, NextReason(before[0], reason));
    } else {
      assert (before + [stop] + after)[0] == stop;
    }
  }

  /** A consumed item leaves the final event to the rest of the loop, and
      the consumed items to come are the rest of the consumed items. */
  lemma ConsumeOne(items: seq<Item>, reason: string)
    requires items != [] && !Stops(items[0])
    ensures Consumed(items) == [items[0]] + Consumed(items[1..])
    ensures var out := Run(items, reason);
            var rest := Run(items[1..], NextReason(items[0], reason));
            out[|out| - 1] == rest[|rest| - 1]
  {
    var rest := Run(items[1..], NextReason(items[0], reason));
    assert Run(items, reason) == Emitted(items[0]) + rest;
  }

  /** With no status frame reporting a stop reason among the consumed items,
      the final `Finish` carries the reason the loop started with. */
  lemma {:induction false} FinishKeepsReason(items: seq<Item>, reason: string)
    requires forall i :: 0 <= i < |Consumed(items)| ==> !ReportsReason(Consumed(items)[i])
    ensures Run(items, reason)[|Run(items, reason)| - 1] == Finish(reason)
  {
    if items != [] && !Stops(items[0]) {
      ConsumeOne(items, reason);
      var c := Consumed(items);
      assert c[0] == items[0];
      assert NextReason(items[0], reason) == reason;
      forall i | 0 <= i < |Consumed(items[1..])|
        ensures !ReportsReason(Consumed(items[1..])[i])
      {
        assert Consumed(items[1..])[i] == c[i + 1];
      }
      FinishKeepsReason(items[1..], reason);
    }
  }

  /** The final `Finish` carries the stop reason of the last consumed status
      frame that reports one. */
  lemma {:induction false} FinishTakesLastReported(items: seq<Item>, reason: string, j: nat)
    requires j < |Consumed(items)| && ReportsReason(Consumed(items)[j])
    requires forall k :: j < k < |Consumed(items)| ==> !ReportsReason(Consumed(items)[k])
    ensures Run(items, reason)[|Run(items, reason)| - 1]
         == Finish(Field(Consumed(items)[j].data.value.stopReason))
  {
    ConsumeOne(items, reason);
    if j == 0 {
      LastReportedFirst(items, reason);
    } else {
      var c := Consumed(items);
      forall k | j - 1 < k < |Consumed(items[1..])|
        ensures !ReportsReason(Consumed(items[1..])[k])
      {
        assert Consumed(items[1..])[k] == c[k + 1];
      }
      assert Consumed(items[1..])[j - 1] == c[j];
      FinishTakesLastReported(items[1..], NextReason(items[0], reason), j - 1);
    }
  }

  /** The first consumed item is the only status frame with a stop reason. */
  lemma LastReportedFirst(items: seq<Item>, reason: string)
    requires |Consumed(items)| > 0 && ReportsReason(Consumed(items)[0])
    requires forall k :: 0 < k < |Consumed(items)| ==> !ReportsReason(Consumed(items)[k])
    ensures Run(items, reason)[|Run(items, reason)| - 1]
         == Finish(Field(Consumed(items)[0].data.value.stopReason))
  {
    ConsumeOne(items, reason);
    var c := Consumed(items);
    var next := NextReason(items[0], reason);
    assert c[0] == items[0];
    assert next == Field(c[0].data.value.stopReason);
    forall i | 0 <= i < |Consumed(items[1..])|
      ensures !ReportsReason(Consumed(items[1..])[i])
    {
      assert Consumed(items[1..])[i] == c[i + 1];
    }
    FinishKeepsReason(items[1..], next);
  }

  /** Items with no observable effect: an open notification, a frame not
      named `message`, a frame whose data is not JSON, a `think` frame
      without content, a status frame without a stop reason. */
  predicate Silent(item: Item) {
    || item.Open?
    || (item.Frame? && (item.event != "message" || item.data.None?))
    || (item.Frame? && item.data.Some? && Field(item.data.value.kind) == "think"
        && Field(item.data.value.content) == "")
    || (item.Frame? && item.data.Some? && Field(item.data.value.kind) != "think"
        && Field(item.data.value.kind) != "text" && Field(item.data.value.stopReason) == "")
  }

  /** Silent items neither forward an event nor change the finish reason. */
  lemma SilentItemIgnored(item: Item, rest: seq<Item>, reason: string)
    requires Silent(item)
    ensures Run([item] + rest, reason) == Run(rest, reason)
  {
    assert ([item] + rest)[1..] == rest;
  }

  /** A `text` frame is always forwarded as an answer fragment, even when
      its `msg` is missing or empty, and leaves the finish reason alone. */
  lemma TextAlwaysForwarded(p: Payload, rest: seq<Item>, reason: string)
    requires Field(p.kind) == "text"
    ensures Run([Frame("message", Some(p))] + rest, reason) == [Message(Msg, Field(p.msg))] + Run(rest, reason)
  {
    assert ([Frame("message", Some(p))] + rest)[1..] == rest;
  }

  /** A `think` frame with content is forwarded as a reasoning fragment. */
  lemma ThinkForwarded(p: Payload, rest: seq<Item>, reason: string)
    requires Field(p.kind) == "think" && Field(p.content) != ""
    ensures Run([Frame("message", Some(p))] + rest, reason) == [Message(Think, Field(p.content))] + Run(rest, reason)
  {
    assert ([Frame("message", Some(p))] + rest)[1..] == rest;
  }

  /** A status frame with a stop reason replaces the finish reason and
      forwards nothing. */
  lemma StatusSetsReason(item: Item, rest: seq<Item>, reason: string)
    requires ReportsReason(item)
    ensures Run([item] + rest, reason) == Run(rest, Field(item.data.value.stopReason))
  {
    assert ([item] + rest)[1..] == rest;
  }

  /** A transport error other than a clean end forwards one `Error` and the
      loop goes on with the next item. */
  lemma TransportErrorContinues(e: TransportError, rest: seq<Item>, reason: string)
    ensures Run([OtherError(e)] + rest, reason) == [Error(e)] + Run(rest, reason)
  {
    assert ([OtherError(e)] + rest)[1..] == rest;
  }

  /** A clean end of stream or a cancellation sends the finish at once,
      without an `Error`, and nothing after it is read. */
  lemma StopFinishesAtOnce(item: Item, rest: seq<Item>, reason: string)
    requires Stops(item)
    ensures Run([item] + rest, reason) == [Finish(reason)]
  {
  }

  /** The transport errors among `events`, in order. */
  function ErrorsOf(events: seq<ChatCompletionEvent>): seq<TransportError> {
    if events == [] then []
    else (if events[0].Error? then [events[0].error] else []) + ErrorsOf(events[1..])
  }

  /** The transport errors the items report, in order. */
  function TransportErrors(items: seq<Item>): seq<TransportError> {
    if items == [] then []
    else (if items[0].OtherError? then [items[0].error] else []) + TransportErrors(items[1..])
  }

  lemma {:induction false} ErrorsOfSplit(xs: seq<ChatCompletionEvent>, ys: seq<ChatCompletionEvent>)
    ensures ErrorsOf(xs + ys) == ErrorsOf(xs) + ErrorsOf(ys)
  {
    if xs == [] {
      assert xs + ys == ys;
    } else {
      var head := if xs[0].Error? then [xs[0].error] else [];
      assert (xs + ys)[0] == xs[0];
      assert (xs + ys)[1..] == xs[1..] + ys;
      assert ErrorsOf(xs + ys) == head + ErrorsOf(xs[1..] + ys);
      ErrorsOfSplit(xs[1..], ys);
      assert head + (ErrorsOf(xs[1..]) + ErrorsOf(ys)) == (head + ErrorsOf(xs[1..])) + ErrorsOf(ys);
    }
  }

  /** Every consumed transport error yields exactly one `Error` event, in the
      order the errors arrived, and no other item yields one. */
  lemma {:induction false} ErrorsMatchTransportErrors(items: seq<Item>, reason: string)
    ensures ErrorsOf(Run(items, reason)) == TransportErrors(Consumed(items))
  {
    if items == [] || Stops(items[0]) {
      assert ErrorsOf([Finish(reason)]) == ErrorsOf([]);
    } else {
      var next := NextReason(items[0], reason);
      ErrorsMatchTransportErrors(items[1..], next);
      ErrorsOfSplit(Emitted(items[0]), Run(items[1..], next));
      assert Consumed(items)[0] == items[0] && Consumed(items)[1..] == Consumed(items[1..]);
      if items[0].Frame? {
        var ev := Emitted(items[0]);
        assert ev == [] || (|ev| == 1 && ev[0].Message?);
        assert ErrorsOf(ev) == [] by {
          if ev != [] { assert ErrorsOf(ev) == [] + ErrorsOf([]); }
        }
      } else if items[0].OtherError? {
        assert ErrorsOf([Error(items[0].error)]) == [items[0].error] + ErrorsOf([]);
      }
    }
  }

  /** No reasoning fragment forwarded by the loop is empty. */
  lemma {:induction false} ThinkFragmentsNonEmpty(items: seq<Item>, reason: string, i: nat)
    requires i < |Run(items, reason)| && Run(items, reason)[i].Message?
    requires Run(items, reason)[i].kind == Think
    ensures Run(items, reason)[i].text != ""
  {
    if items != [] && !Stops(items[0]) {
      var head := Emitted(items[0]);
      if i >= |head| {
        ThinkFragmentsNonEmpty(items[1..], NextReason(items[0], reason), i - |head|);
      }
    }
  }

  /** One consumed item: its events, then the rest of the loop. */
  lemma RunStep(items: seq<Item>, i: nat, reason: string)
    requires i < |items| && !Stops(items[i])
    ensures Run(items[i..], reason) == Emitted(items[i]) + Run(items[i + 1..], NextReason(items[i], reason))
  {
    assert items[i..][1..] == items[i + 1..];
  }

  /** Consuming item `i` keeps the loop invariant: what has been sent plus
      what the rest of the loop sends is unchanged. */
  lemma LoopStep(items: seq<Item>, i: nat, reason: string, out: seq<ChatCompletionEvent>)
    requires i < |items| && !Stops(items[i])
    ensures out + Run(items[i..], reason)
         == (out + Emitted(items[i])) + Run(items[i + 1..], NextReason(items[i], reason))
  {
    RunStep(items, i, reason);
  }

  /** Where the loop stops, only the finish is left to send. */
  lemma RunAtStop(items: seq<Item>, i: nat, reason: string)
    requires i <= |items| && (i == |items| || Stops(items[i]))
    ensures Run(items[i..], reason) == [Finish(reason)]
  {
    if i < |items| {
      assert items[i..][0] == items[i];
    }
  }

  /** One iteration of the consume loop on an item that does not stop it:
      the events it forwards and the finish reason after it. */
  method Consume(item: Item, reason: string) returns (produced: seq<ChatCompletionEvent>, next: string)
    requires !Stops(item)
    ensures produced == Emitted(item) && next == NextReason(item, reason)
    ensures |produced| <= 1 && (produced != [] ==> next == reason)
  {
    produced, next := [], reason;
    match item {
      case Frame(event, data) =>
        match Classify(event, data) {
          case Emit(e) => produced := [e];
          case SetReason(r) => next := r;
          case Skip =>
        }
      case OtherError(e) =>
        produced := [Error(e)];
      case Open =>
    }
  }

  /** The consume loop as the source writes it: read items one at a time,
      stop at a clean end or a cancellation (the end of the script stands
      in for the stream running dry), forward what each item produces,
      then send the finish. */
  method ProcessSseLoop(items: seq<Item>) returns (out: seq<ChatCompletionEvent>)
    ensures out == ProcessSse(items)
    ensures FinishOnceAtEnd(out)
  {
    var reason := DefaultReason;
    var i := 0;
    out := [];
    while i < |items| && !Stops(items[i])
      invariant 0 <= i <= |items|
      invariant out + Run(items[i..], reason) == Run(items, DefaultReason)
    {
      var produced, next := Consume(items[i], reason);
      LoopStep(items, i, reason, out);
      out, reason := out + produced, next;
      i := i + 1;
    }
    RunAtStop(items, i, reason);
    out := out + [Finish(reason)];
  }

  /** A `message` frame of the given type carrying reasoning content. */
  function ThinkFrame(content: string): Item {
    Frame("message", Some(Payload(Some("think"), Some(content), None, None)))
  }

  /** A `message` frame of type `text` carrying an answer fragment. */
  function TextFrame(msg: string): Item {
    Frame("message", Some(Payload(Some("text"), None, Some(msg), None)))
  }

  /** An untyped `message` status frame carrying a stop reason. */
  function StatusFrame(stop: string): Item {
    Frame("message", Some(Payload(None, None, None, Some(stop))))
  }

  /** Two reasoning fragments, an answer, a status frame reporting a stop
      reason, then a clean end. */
  function ScriptedUpstream(think1: string, think2: string, answer: string, stop: string): seq<Item> {
    [Open] + ([ThinkFrame(think1)] + ([ThinkFrame(think2)] + ([TextFrame(answer)] + ([StatusFrame(stop)] + [StreamEnded]))))
  }

  /** Such a stream forwards the fragments in order and finishes with the
      reported reason (for instance `Let`, ` me think`, `42` and `length`). */
  lemma ScriptedUpstreamEvents(think1: string, think2: string, answer: string, stop: string)
    requires think1 != "" && think2 != "" && stop != ""
    ensures ProcessSse(ScriptedUpstream(think1, think2, answer, stop))
         == [Message(Think, think1)] + ([Message(Think, think2)] + ([Message(Msg, answer)] + [Finish(stop)]))
  {
    var r4 := [StatusFrame(stop)] + [StreamEnded];
    var r3 := [TextFrame(answer)] + r4;
    var r2 := [ThinkFrame(think2)] + r3;
    var r1 := [ThinkFrame(think1)] + r2;
    StatusSetsReason(StatusFrame(stop), [StreamEnded], DefaultReason);
    TextAlwaysForwarded(TextFrame(answer).data.value, r4, DefaultReason);
    ThinkForwarded(ThinkFrame(think2).data.value, r3, DefaultReason);
    ThinkForwarded(ThinkFrame(think1).data.value, r2, DefaultReason);
    SilentItemIgnored(Open, r1, DefaultReason);
  }
}
