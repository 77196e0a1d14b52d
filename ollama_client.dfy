/**
 * The prompt flattener of the Ollama client: a chat history becomes one
 * role-tagged prompt ending with an "Assistant:" cue. The HTTP calls of
 * the client are not part of this model.
 */
module OllamaClient {
  import opened Text

  /** One chat message, `{"role": ..., "content": ...}`. */
  datatype Message = Message(role: string, content: string)

  const CUE: string := "Assistant:"
  const SEP: string := "\n\n"

  /** `str.capitalize` on ASCII: first character upper-case, the rest lower-case. */
  function Capitalize(s: string): (r: string)
    ensures |r| == |s|
    ensures |s| > 0 ==> r[0] == UpperChar(s[0])
    ensures forall i :: 0 < i < |s| ==> r[i] == LowerChar(s[i])
  {
    if s == [] then [] else [UpperChar(s[0])] + Lower(s[1..])
  }

  /** `f"{role}: {content}"` for one message. */
  function Part(m: Message): string
  {
    Capitalize(m.role) + ": " + m.content
  }

  function Parts(messages: seq<Message>): (parts: seq<string>)
    ensures |parts| == |messages|
    ensures forall i :: 0 <= i < |messages| ==> parts[i] == Part(messages[i])
  {
    seq(|messages|, i requires 0 <= i < |messages| => Part(messages[i]))
  }

  /** `sep.join(parts)`. */
  function Join(parts: seq<string>, sep: string): string
    decreases |parts|
  {
    if parts == [] then ""
    else if |parts| == 1 then parts[0]
    else Join(parts[..|parts| - 1], sep) + sep + parts[|parts| - 1]
  }

  /** The prompt `_flatten` builds. */
  function Flattened(messages: seq<Message>): (prompt: string)
    ensures prompt == Tagged(messages) + CUE
    ensures EndsWith(prompt, CUE)
  {
    JoinParts(messages, CUE);
    Join(Parts(messages) + [CUE], SEP)
  }

  /** An independent reading: each message's part followed by the separator, then the cue. */
  function Tagged(messages: seq<Message>): string
    decreases |messages|
  {
    if messages == [] then ""
    else Tagged(messages[..|messages| - 1]) + Part(messages[|messages| - 1]) + SEP
  }

  /** `_flatten(messages)`: the loop that collects the parts, then the join. */
  method Flatten(messages: seq<Message>) returns (prompt: string)
    ensures prompt == Flattened(messages)
  {
    var parts: seq<string> := [];
    var i := 0;
    while i < |messages|
      invariant 0 <= i <= |messages|
      invariant parts == Parts(messages[..i])
    {
      parts := parts + [Part(messages[i])];
      i := i + 1;
    }
    assert messages[..i] == messages;
    parts := parts + [CUE];
    prompt := Join(parts, SEP);
  }

  /** Joining the messages' parts and one more string p gives the tagged parts, then p. */
  lemma {:induction false} JoinParts(messages: seq<Message>, p: string)
    ensures Join(Parts(messages) + [p], SEP) == Tagged(messages) + p
    decreases |messages|
  {
    if messages == [] {
      assert Parts(messages) + [p] == [p];
    } else {
      var prefix := messages[..|messages| - 1];
      var last := messages[|messages| - 1];
      assert Parts(messages) == Parts(prefix) + [Part(last)];
      JoinSnoc(Parts(messages), p, SEP);
      JoinParts(prefix, Part(last));
    }
  }

  /** Joining one more part before the last. */
  lemma JoinSnoc(parts: seq<string>, p: string, sep: string)
    ensures Join(parts + [p], sep) == if parts == [] then p else Join(parts, sep) + sep + p
  {
    assert (parts + [p])[..|parts|] == parts;
  }

  /** No messages: the prompt is the cue alone. */
  lemma FlattenedEmpty()
    ensures Flattened([]) == CUE
  {
  }
}
