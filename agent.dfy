/**
 * An expert agent: a persona with its own dialogue history, kept to at
 * most 40 messages with the system prompt always first, its latest FECR
 * vector and its own phase-crystal memory. The chat model, the embedder
 * and the JSON encoder of the context are inputs of `Step`.
 */
module Agent {
  import opened Wrappers
  import opened Context
  import opened PhaseCrystal
  import opened OllamaClient
  import opened Scorer
  import opened FecrVector
  import opened Modulator

  /** The longest dialogue kept after a step. */
  const MAX_MESSAGES: nat := 40
  /** How many of the latest messages a trim keeps after the system prompt. */
  const KEEP: nat := 30
  const DEFAULT_MODEL: string := "llama3:8b"
  const CONTEXT_PREFIX: string := "Context >>> "

  /** `_trim`: a dialogue over 40 messages becomes its first message and its last 30. */
  function Trim(d: seq<Message>): (t: seq<Message>)
    ensures |t| <= MAX_MESSAGES
    ensures |d| <= MAX_MESSAGES ==> t == d
    ensures |d| > MAX_MESSAGES ==> |t| == KEEP + 1
  {
    if |d| > MAX_MESSAGES then d[..1] + d[|d| - KEEP..] else d
  }

  /** The two messages one step records: the user's, then the reply. */
  function Exchange(userMsg: string, reply: string): (e: seq<Message>)
    ensures |e| == 2
    ensures e[0].role == "user" && e[0].content == userMsg
    ensures e[1].role == "assistant" && e[1].content == reply
  {
    [Message("user", userMsg), Message("assistant", reply)]
  }

  /** The prompt of one step: the dialogue, the context block, the user message. */
  function Prompt(dialogue: seq<Message>, contextJson: string, userMsg: string): (p: seq<Message>)
    ensures |p| == |dialogue| + 2
    ensures p[..|dialogue|] == dialogue
    ensures p[|dialogue|] == Message("system", CONTEXT_PREFIX + contextJson)
    ensures p[|dialogue| + 1] == Message("user", userMsg)
  {
    dialogue + [Message("system", CONTEXT_PREFIX + contextJson), Message("user", userMsg)]
  }

  /** A dialogue as the agent keeps it: the system prompt first, at most 40 messages. */
  predicate Bounded(d: seq<Message>, systemPrompt: string)
  {
    0 < |d| <= MAX_MESSAGES && d[0] == Message("system", systemPrompt)
  }

  /** The dialogue after a run of (user message, reply) steps. */
  function Record(d: seq<Message>, turns: seq<(string, string)>): (r: seq<Message>)
    ensures turns != [] || |d| <= MAX_MESSAGES ==> |r| <= MAX_MESSAGES
    decreases |turns|
  {
    if turns == [] then d else Record(Trim(d + Exchange(turns[0].0, turns[0].1)), turns[1..])
  }

  /** The trimmed dialogue keeps the first message. */
  lemma TrimKeepsHead(d: seq<Message>)
    requires d != []
    ensures Trim(d) != [] && Trim(d)[0] == d[0]
  {
  }

  /** After the head, what a trim keeps is a suffix of the dialogue, in order. */
  lemma TrimKeepsSuffix(d: seq<Message>)
    requires d != []
    ensures Trim(d)[1..] == d[|d| - (|Trim(d)| - 1)..]
  {
  }

  /** The latest 30 messages, or all of them in a shorter dialogue, survive a trim. */
  lemma TrimKeepsRecent(d: seq<Message>, i: nat)
    requires i < |d| && i < KEEP
    ensures i < |Trim(d)| && FromEnd(Trim(d), i) == FromEnd(d, i)
  {
    if |d| > MAX_MESSAGES {
      var t := Trim(d);
      assert t[|t| - 1 - i] == d[|d| - KEEP..][KEEP - 1 - i];
    }
  }

  lemma TrimIdempotent(d: seq<Message>)
    ensures Trim(Trim(d)) == Trim(d)
  {
  }

  /** One recorded step keeps the dialogue bounded and headed by the system prompt. */
  lemma ExchangeKeepsBounded(d: seq<Message>, systemPrompt: string, userMsg: string, reply: string)
    requires Bounded(d, systemPrompt)
    ensures Bounded(Trim(d + Exchange(userMsg, reply)), systemPrompt)
  {
    var e := d + Exchange(userMsg, reply);
    assert e[0] == d[0];
    TrimKeepsHead(e);
  }

  /** Across any number of steps the dialogue stays bounded and headed by the system prompt. */
  lemma {:induction false} RecordKeepsBounded(d: seq<Message>, systemPrompt: string, turns: seq<(string, string)>)
    requires Bounded(d, systemPrompt)
    ensures Bounded(Record(d, turns), systemPrompt)
    decreases |turns|
  {
    if turns != [] {
      ExchangeKeepsBounded(d, systemPrompt, turns[0].0, turns[0].1);
      RecordKeepsBounded(Trim(d + Exchange(turns[0].0, turns[0].1)), systemPrompt, turns[1..]);
    }
  }

  /** The agent's vector is the neutral one after every step, however many. */
  lemma VectorStaysNeutral(latest: Option<seq<real>>, replyText: string)
    requires latest == None || latest == Some(Neutral())
    ensures Vector(replyText, latest) == Neutral()
  {
  }

  class ExpertAgent {
    const name: string
    const model: string
    const systemPrompt: string
    var dialogue: seq<Message>
    var latestFecr: Option<seq<real>>
    const memory: PhaseCrystalMemory

    /** The dialogue is bounded, the vector neutral once set, the memory well formed. */
    ghost predicate Valid()
      reads this, memory
    {
      && Bounded(dialogue, systemPrompt)
      && (latestFecr == None || latestFecr == Some(Neutral()))
      && memory.Valid()
    }

    /** `__init__`: `model` is `None` when the configuration names none. */
    constructor (name: string, model: Option<string>, systemPrompt: string)
      ensures this.name == name && this.systemPrompt == systemPrompt
      ensures this.model == if model.Some? then model.value else DEFAULT_MODEL
      ensures dialogue == [Message("system", systemPrompt)]
      ensures latestFecr == None
      ensures fresh(memory) && memory.Save() == Empty
      ensures Valid()
    {
      this.name := name;
      this.model := if model.Some? then model.value else DEFAULT_MODEL;
      this.systemPrompt := systemPrompt;
      dialogue := [Message("system", systemPrompt)];
      latestFecr := None;
      memory := new PhaseCrystalMemory();
    }

    /** `_trim`. */
    method TrimDialogue()
      modifies this`dialogue
      ensures dialogue == Trim(old(dialogue))
    {
      if |dialogue| > MAX_MESSAGES {
        dialogue := dialogue[..1] + dialogue[|dialogue| - KEEP..];
      }
    }

    /**
     * `step(user_msg, context_state)`. `dumps` renders the context as JSON,
     * `chat` answers the prompt, `embed` embeds the reply. The reply is
     * returned; the context's FECR entry, the latest vector, the dialogue
     * and (for a non-empty embedding) the memory are updated.
     */
    method Step(userMsg: string, ctx: ContextState, dumps: map<string, Value> -> string,
                chat: seq<Message> -> string, embed: string -> Embedding, k: Kernels)
      returns (reply: string)
      modifies this`dialogue, this`latestFecr, ctx, memory
      ensures reply == chat(Prompt(old(dialogue), dumps(old(ctx.entries)), userMsg))
      ensures var fecr := Vector(reply, old(latestFecr));
        && latestFecr == Some(fecr)
        && ctx.entries == old(ctx.entries)[FECR_KEY := Numbers(fecr)]
        && (embed(reply) != [] ==>
              memory.Save() == PhaseCrystal.Step(old(memory.Save()), Modulate(embed(reply), fecr), k).next)
      ensures embed(reply) == [] ==> memory.Save() == old(memory.Save())
      ensures dialogue == Trim(old(dialogue) + Exchange(userMsg, reply))
      ensures old(Valid()) ==> Valid() && latestFecr == Some(Neutral())
    {
      var prompt := Prompt(dialogue, dumps(ctx.entries), userMsg);
      reply := chat(prompt);
      var fecr := Vector(reply, latestFecr);
      ctx.Set(FECR_KEY, Numbers(fecr));
      latestFecr := Some(fecr);
      dialogue := dialogue + Exchange(userMsg, reply);
      TrimDialogue();
      if old(Valid()) {
        ExchangeKeepsBounded(old(dialogue), systemPrompt, userMsg, reply);
      }
      var emb := embed(reply);
      if emb != [] {
        var _, _ := memory.Add(Modulate(emb, fecr), k);
      }
    }
  }
}
