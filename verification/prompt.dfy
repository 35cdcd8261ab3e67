/** The prompt composer: `impl Display for ChatMessages` folds the request's
    messages into the single prompt string sent upstream. */
module Prompt {
  import opened Wrappers
  import opened Text

  /** One chat turn; `reasoningContent` is carried but never composed. */
  datatype ChatMessage = ChatMessage(role: string, content: Option<string>, reasoningContent: Option<string>)

  /** The only way composing fails: there is no message at all. */
  datatype ComposeError = EmptyConversation

  /** The content, or the empty string when absent. */
  function ContentOrEmpty(m: ChatMessage): string {
    m.content.GetOr("")
  }

  /** The block one message contributes to a multi-turn prompt. */
  function Block(m: ChatMessage): string {
    "#[" + Trim(m.role) + "]\n" + Trim(ContentOrEmpty(m)) + "\n\n"
  }

  /** The strings `f` gives each element of `xs`, concatenated in order. */
  function JoinMap<T>(f: T -> string, xs: seq<T>): string {
    if xs == [] then "" else f(xs[0]) + JoinMap(f, xs[1..])
  }

  /** The blocks of all messages, concatenated in order. */
  function Blocks(msgs: seq<ChatMessage>): string {
    JoinMap(Block, msgs)
  }

  /** The prompt for `msgs`: an error when empty, the lone message's content
      verbatim (untrimmed) for one message, one trimmed block per message
      otherwise. */
  function Compose(msgs: seq<ChatMessage>): (r: Result<string, ComposeError>)
    ensures r.Failure? <==> msgs == []
    ensures r.Failure? ==> r.error == EmptyConversation
    ensures |msgs| == 1 ==> r == Success(ContentOrEmpty(msgs[0]))
    ensures |msgs| >= 2 ==> r.Success? && |r.value| >= 6 * |msgs|
  {
    if msgs == [] then Failure(EmptyConversation)
    else if |msgs| == 1 then Success(ContentOrEmpty(msgs[0]))
    else
      BlocksFrame(msgs);
      Success(Blocks(msgs))
  }

  /** Concatenating two lists concatenates what they join to. */
  lemma {:induction false} JoinMapSplit<T>(f: T -> string, xs: seq<T>, ys: seq<T>)
    ensures JoinMap(f, xs + ys) == JoinMap(f, xs) + JoinMap(f, ys)
  {
    if xs == [] {
      assert xs + ys == ys;
    } else {
      assert (xs + ys)[0] == xs[0];
      assert (xs + ys)[1..] == xs[1..] + ys;
      JoinMapSplit(f, xs[1..], ys);
    }
  }

  /** Element `i` contributes its string between those of the elements
      before and after it. */
  lemma JoinMapAround<T>(f: T -> string, xs: seq<T>, i: nat)
    requires i < |xs|
    ensures JoinMap(f, xs) == JoinMap(f, xs[..i]) + f(xs[i]) + JoinMap(f, xs[i + 1..])
  {
    var before, rest := xs[..i], xs[i..];
    assert xs == before + rest;
    JoinMapSplit(f, before, rest);
    assert rest[0] == xs[i] && rest[1..] == xs[i + 1..];
    assert JoinMap(f, rest) == f(xs[i]) + JoinMap(f, xs[i + 1..]);
  }

  /** A two-element list joins to its two strings. */
  lemma JoinMapPair<T>(f: T -> string, a: T, b: T)
    ensures JoinMap(f, [a, b]) == f(a) + f(b)
  {
    assert [a, b][1..] == [b];
    assert JoinMap(f, [b]) == f(b) + JoinMap(f, []);
  }

  /** `s` opens with a block header and closes with a blank line. */
  predicate Framed(s: string) {
    |s| >= 2 && s[..2] == "#[" && s[|s| - 2..] == "\n\n"
  }

  lemma FramedConcat(b: string, rest: string)
    requires Framed(b) && Framed(rest)
    ensures Framed(b + rest)
  {
    assert (b + rest)[..2] == b[..2];
    assert (b + rest)[|b + rest| - 2..] == rest[|rest| - 2..];
  }

  /** Joining framed pieces of at least six characters gives a framed
      string of at least six characters per piece. */
  lemma {:induction false} JoinMapFramed<T>(f: T -> string, xs: seq<T>)
    requires xs != []
    requires forall i :: 0 <= i < |xs| ==> |f(xs[i])| >= 6 && Framed(f(xs[i]))
    ensures |JoinMap(f, xs)| >= 6 * |xs| && Framed(JoinMap(f, xs))
  {
    assert |f(xs[0])| >= 6 && Framed(f(xs[0]));
    if |xs| == 1 {
      assert JoinMap(f, xs) == f(xs[0]) + "";
    } else {
      JoinMapFramed(f, xs[1..]);
      FramedConcat(f(xs[0]), JoinMap(f, xs[1..]));
    }
  }

  /** A block is framed and at least its fixed frame `#[`, `]\n`, `\n\n` long. */
  lemma BlockFrame(m: ChatMessage)
    ensures |Block(m)| >= 6 && Framed(Block(m))
  {
    var head := "#[" + Trim(m.role) + "]\n" + Trim(ContentOrEmpty(m));
    assert Block(m) == head + "\n\n";
    assert Block(m)[..2] == head[..2];
  }

  /** The blocks of a non-empty list start with a header, end with a blank
      line, and each block is at least its frame long. */
  lemma BlocksFrame(msgs: seq<ChatMessage>)
    requires msgs != []
    ensures |Blocks(msgs)| >= 6 * |msgs| && Framed(Blocks(msgs))
  {
    forall i | 0 <= i < |msgs|
      ensures |Block(msgs[i])| >= 6 && Framed(Block(msgs[i]))
    {
      BlockFrame(msgs[i]);
    }
    JoinMapFramed(Block, msgs);
  }

  /** Composing a concatenation of message lists concatenates their blocks. */
  lemma BlocksSplit(xs: seq<ChatMessage>, ys: seq<ChatMessage>)
    ensures Blocks(xs + ys) == Blocks(xs) + Blocks(ys)
  {
    JoinMapSplit(Block, xs, ys);
  }

  /** A multi-turn prompt has exactly one block per message, in input order:
      message `i`'s block sits between the blocks of the messages before it
      and those after it. */
  lemma BlockAtPosition(msgs: seq<ChatMessage>, i: nat)
    requires |msgs| >= 2 && i < |msgs|
    ensures Compose(msgs).Success?
    ensures Compose(msgs).value == Blocks(msgs[..i]) + Block(msgs[i]) + Blocks(msgs[i + 1..])
  {
    assert Compose(msgs) == Success(Blocks(msgs));
    JoinMapAround(Block, msgs, i);
  }

  /** Two lists that agree on every role and content compose alike:
      `reasoning_content` never reaches the prompt. */
  lemma ComposeIgnoresReasoning(msgs: seq<ChatMessage>, others: seq<ChatMessage>)
    requires |msgs| == |others|
    requires forall i :: 0 <= i < |msgs| ==> msgs[i].role == others[i].role && msgs[i].content == others[i].content
    ensures Compose(msgs) == Compose(others)
  {
    if |msgs| >= 2 {
      forall i | 0 <= i < |msgs|
        ensures Block(msgs[i]) == Block(others[i])
      {
        assert ContentOrEmpty(msgs[i]) == ContentOrEmpty(others[i]);
      }
      JoinMapAgree(Block, msgs, others);
    }
  }

  /** Lists whose elements map to the same strings join alike. */
  lemma {:induction false} JoinMapAgree<T>(f: T -> string, xs: seq<T>, ys: seq<T>)
    requires |xs| == |ys|
    requires forall i :: 0 <= i < |xs| ==> f(xs[i]) == f(ys[i])
    ensures JoinMap(f, xs) == JoinMap(f, ys)
  {
    if xs != [] {
      assert f(xs[0]) == f(ys[0]);
      JoinMapAgree(f, xs[1..], ys[1..]);
    }
  }

  /** A lone message is sent with its padding kept; the same message in a
      two-turn list is sent trimmed: the asymmetry is part of the prompt bytes. */
  lemma PaddingKeptOnlyWhenAlone(m: ChatMessage, a: string, t: string, b: string)
    requires AllWhitespace(a) && AllWhitespace(b) && Trimmed(t) && m.content == Some(a + t + b)
    ensures Compose([m]) == Success(a + t + b)
    ensures Compose([m, m]) == Success(("#[" + Trim(m.role) + "]\n" + t + "\n\n") + ("#[" + Trim(m.role) + "]\n" + t + "\n\n"))
  {
    PaddedBlock(m, a, t, b);
    TwoBlocks(m, m);
  }

  lemma PaddedBlock(m: ChatMessage, a: string, t: string, b: string)
    requires AllWhitespace(a) && AllWhitespace(b) && Trimmed(t) && m.content == Some(a + t + b)
    ensures Block(m) == "#[" + Trim(m.role) + "]\n" + t + "\n\n"
  {
    TrimRecoversCore(a, t, b);
  }

  lemma TwoBlocks(m: ChatMessage, n: ChatMessage)
    ensures Compose([m, n]) == Success(Block(m) + Block(n))
  {
    assert Compose([m, n]) == Success(Blocks([m, n]));
    JoinMapPair(Block, m, n);
  }
}
