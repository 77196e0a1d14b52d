# mrce-fecr core in Dafny

A verified model of the core of MRCE, the multi-expert reasoning engine of
mrce-fecr. The model covers these parts:

- **Phase-crystal memory**:
  - two sliding windows of 128 entries each, one of embeddings and one of resonance scores;
  - scores decayed by 0.98 on every add;
  - promotion of a highly resonant embedding to a labelled "crystal", capped at 64 crystals;
  - the save/load record.
- **FECR vector and modulator**:
  - the 13-weight vector that emphasises the middle layers as crystals accumulate;
  - the diagonal block-gain matrix that applies the vector to an embedding.
- **FECR scorer and layer trace.**
- **Prompt flattener of the Ollama client.**
- **Coordinator state machine**:
  - the self-grade parse `N/10` and the reply score;
  - arg-max selection and the threshold decision between CONVERGE, DIVERGE and EVALUATE;
  - the dialectic counter and the YES-prefix contradiction check.
- **Expert agent**: its dialogue bookkeeping.
- **Engine**: one turn of it.

Layout, one Dafny module per source file:

| file | module | models |
|---|---|---|
| `memory.dfy` | `PhaseCrystal` | `mrce/phasecrystal/memory.py` |
| `vector.dfy` | `FecrVector` | `mrce/fecr/vector.py` |
| `modulator.dfy` | `Modulator` | `mrce/fecr/modulator.py` |
| `scorer.dfy` | `Scorer` | `mrce/fecr/scorer.py` |
| `layers.dfy` | `Layers` | `mrce/fecr/layers.py` |
| `ollama_client.dfy` | `OllamaClient` | `_flatten` in `mrce/llm/ollama_client.py` |
| `coordinator.dfy` | `Coordinator` | `mrce/mrcore/coordinator.py` |
| `agent.dfy` | `Agent` | `mrce/mrcore/agent.py` |
| `engine.dfy` | `Engine` | `mrce/mrcore/engine.py` |
| `context.dfy` | `Context` | the shared `context_state` dictionary |
| `text.dfy` | `Text` | the string operations the core uses: `strip`, `upper`, `startswith`, the digits `\d` of the grade pattern, and the `:04d` format of a crystal label |
| `wrappers.dfy` | `Wrappers` | `Option` and `Result` |

How the model is built:

- **Floats.** All floating-point values are exact `real`s.
- **Stateful objects.** Objects whose fields the code updates are Dafny classes:
  - `PhaseCrystalMemory`, `CoordinatorFSM`, `ExpertAgent`, `MRCEngine`;
  - the context dictionary, `ContextState`.
- **Specification functions.** Each stateful method is proved against a pure function of the state:
  - `PhaseCrystal.Step` for `add`;
  - `Agent.Trim` for `_trim`;
  - `Coordinator.Scores`, `FirstMax` and `Decide` for `evaluate`;
  - `OllamaClient.Flattened` for `_flatten`.

  The properties of the code are then proved about those functions.
- **External inputs.** What the code gets from outside the process is a parameter of the method that uses it:
  - the chat model's answer and the embedding;
  - the two numeric kernels of the memory, as a `Kernels` value;
  - the JSON rendering of the context;
  - the rendering of the rounded guidance weights.

Three points where the model follows the code rather than its comments:

- `score_reply` is documented as returning `(resonance, grade)` but returns `(score, resonance)`. `Coordinator.CoordinatorFSM.ScoreReply` follows the code.
- The modulator's module comment assumes the dimension is divisible by 13. The code also handles any other dimension:
  - a short dimension gets the last weight everywhere;
  - a remainder is padded with the last weight.

  The model covers every dimension.
- The engine's DIVERGE branch indexes the second-shortest reply. With a single reply, that raises an `IndexError`. `Engine.MRCEngine.RunTurn` returns `Err(TooFewReplies)` there, without counting the turn.

## Model

| member | source | states |
|---|---|---|
| `Text.DecimalRoundTrip` | mrce/phasecrystal/memory.py:84 | the decimal rendering of a counter reads back as the same number |
| `Text.ZeroPaddedValue` | mrce/phasecrystal/memory.py:84 | padding the rendering with zeros to four places keeps its value |
| `Text.LeadingSpaces` | mrce/mrcore/coordinator.py:114 | the count of leading whitespace covers only whitespace and stops at the first other character |
| `Text.StripFrom` | mrce/mrcore/coordinator.py:114 | the stripped answer is the text that starts right after the leading whitespace |
| `Text.Upper` | mrce/mrcore/coordinator.py:114 | upper-casing keeps the length and maps every character on its own |
| `PhaseCrystal.Window` | mrce/phasecrystal/memory.py:47-48 | a bounded deque holds exactly min(n, 128) of n entries given to it |
| `PhaseCrystal.WindowKeepsNewest` | mrce/phasecrystal/memory.py:47-48 | the entries it keeps are the newest ones: the i-th from the end is the input's i-th from the end |
| `PhaseCrystal.Coherence` | mrce/phasecrystal/memory.py:58-66 | local coherence is 0 for an empty window, otherwise the mean-cosine kernel |
| `PhaseCrystal.DominantFrequency` | mrce/phasecrystal/memory.py:69-79 | the dominant frequency is 0 with fewer than 8 scores, otherwise the spectral kernel |
| `PhaseCrystal.CrystalId` | mrce/phasecrystal/memory.py:82-84 | a label is "C" followed by at least four decimal digits |
| `PhaseCrystal.IdRoundTrip` | mrce/phasecrystal/memory.py:82-84 | the number in a label "C" + zero-padded counter reads back as the counter |
| `PhaseCrystal.CrystalIdInjective` | mrce/phasecrystal/memory.py:82-84 | different counters give different labels |
| `PhaseCrystal.LoadSaveRoundTrip` | mrce/phasecrystal/memory.py:111-134 | loading a saved memory whose buffers hold at most 128 entries gives back the same buffers in order, crystals and counter |
| `PhaseCrystal.Restored` | mrce/phasecrystal/memory.py:125-134 | load keeps exactly the newest min(n, 128) entries of each saved buffer of n, in order, and the crystals and counter as saved |
| `PhaseCrystal.EmptyWellFormed` | mrce/phasecrystal/memory.py:46-50 | a fresh memory satisfies the invariant |
| `PhaseCrystal.Step` | mrce/phasecrystal/memory.py:87-108 | after add both buffers hold at most 128 entries; a label is promoted iff the resonance is above 0.85 and fewer than 64 crystals exist, and the counter rises by 1 exactly when one is |
| `PhaseCrystal.StepBuffers` | mrce/phasecrystal/memory.py:92-101 | add's resonance is 0.6 coherence + 0.4 dominant; the oldest entry is evicted only when full; old scores are decayed; the new embedding and resonance become the last entries |
| `PhaseCrystal.StepPromotion` | mrce/phasecrystal/memory.py:104-108 | promotion iff resonance > 0.85 and fewer than 64 crystals; then the counter rises by 1 and the new, unused label maps to the raw embedding; otherwise map and counter are unchanged; no crystal is ever removed or overwritten |
| `PhaseCrystal.FreshId` | mrce/phasecrystal/memory.py:82-84 | the next label is not already a crystal |
| `PhaseCrystal.StepPreservesWellFormed` | mrce/phasecrystal/memory.py:87-108 | add keeps the buffers aligned and bounded, one crystal per minted label, at most 64 |
| `PhaseCrystal.FirstAddIsQuiet` | mrce/phasecrystal/memory.py:87-108 | the first add on a fresh memory has resonance 0 and never promotes |
| `PhaseCrystal.RunPreservesWellFormed` | mrce/phasecrystal/memory.py:104-106 | over any sequence of adds the invariant holds, so there are never more than 64 crystals |
| `PhaseCrystal.RunKeepsCrystals` | mrce/phasecrystal/memory.py:104-106 | over any sequence of adds every crystal stays, unchanged |
| `PhaseCrystal.RunScores` | mrce/phasecrystal/memory.py:97-101 | the score buffer after a run of adds depends only on the old scores and the resonances computed |
| `PhaseCrystal.ScoreRunLength` | mrce/phasecrystal/memory.py:97-101 | after n more adds the score buffer holds min(old length + n, 128) entries |
| `PhaseCrystal.DecayedByPow` | mrce/phasecrystal/memory.py:97 | decaying n times multiplies by 0.98^n |
| `PhaseCrystal.ScoresAfterShift` | mrce/phasecrystal/memory.py:97-101 | one add moves each kept score one place further from the end and multiplies it by 0.98 |
| `PhaseCrystal.ScoreRunDecays` | mrce/phasecrystal/memory.py:97-101 | a score still in the window after n more appends was decayed exactly n times |
| `PhaseCrystal.RunDecaysScores` | mrce/phasecrystal/memory.py:97-101 | after k more adds a stored score has been scaled by 0.98^k |
| `PhaseCrystal.DecayScores` | mrce/phasecrystal/memory.py:97 | the decay loop multiplies every score by 0.98, in order |
| `PhaseCrystal.PhaseCrystalMemory.constructor` | mrce/phasecrystal/memory.py:46-50 | a new memory is empty, counter 0, and well formed |
| `PhaseCrystal.PhaseCrystalMemory.Load` | mrce/phasecrystal/memory.py:125-134 | load keeps the last 128 entries of each buffer, the crystals and the counter; a record whose buffers hold at most 128 entries comes back unchanged; a well-formed record gives a valid memory |
| `PhaseCrystal.PhaseCrystalMemory.Save` | mrce/phasecrystal/memory.py:111-122 | save writes both buffers in full and in order (oldest first), the crystals and the counter; LoadSaveRoundTrip is its partner |
| `PhaseCrystal.PhaseCrystalMemory.LocalCoherence` | mrce/phasecrystal/memory.py:58-61 | an empty buffer gives coherence 0 |
| `PhaseCrystal.PhaseCrystalMemory.NextCid` | mrce/phasecrystal/memory.py:82-84 | the counter rises by 1 and the label carries the new counter |
| `PhaseCrystal.PhaseCrystalMemory.Add` | mrce/phasecrystal/memory.py:87-108 | add moves the memory to Step's next state, returns its promoted label and resonance, and keeps the invariant |
| `FecrVector.Neutral` | mrce/fecr/vector.py:9-10 | the neutral vector has 13 entries |
| `FecrVector.NeutralSum` | mrce/fecr/vector.py:9-10 | the neutral weights sum to 1 |
| `FecrVector.BumpBand` | mrce/fecr/vector.py:19 | exactly indices 4..8 gain the bump, the others are unchanged |
| `FecrVector.Normalise` | mrce/fecr/vector.py:20 | dividing by the total keeps the length and makes the weights sum to 1 |
| `FecrVector.BumpedSum` | mrce/fecr/vector.py:19 | bumping the five middle layers adds 5 bump to the total |
| `FecrVector.Bump` | mrce/fecr/vector.py:18 | the bump lies in [0, 0.25] |
| `FecrVector.BumpRange` | mrce/fecr/vector.py:18 | the bump lies in [0, 0.25], is positive from one crystal on and is 0.25 from five on |
| `FecrVector.UpdateFromCrystals` | mrce/fecr/vector.py:12-21 | the updated vector has 13 entries |
| `FecrVector.UpdateSumsToOne` | mrce/fecr/vector.py:12-21 | the updated weights sum to 1 for every crystal map |
| `FecrVector.UpdateWeights` | mrce/fecr/vector.py:18-20 | indices 4..8 share the middle weight and the other eight share the side weight, both functions of the crystal count alone |
| `FecrVector.UpdateEmpty` | mrce/fecr/vector.py:14-15 | no crystals give the neutral vector |
| `FecrVector.UpdatePositive` | mrce/fecr/vector.py:12-21 | every weight is strictly positive |
| `FecrVector.MiddleAboveSide` | mrce/fecr/vector.py:19-20 | from one crystal on, the middle weight is strictly above the side weight |
| `FecrVector.UpdateSaturates` | mrce/fecr/vector.py:18 | all counts of 5 or more give the same vector |
| `FecrVector.MiddleMonotone` | mrce/fecr/vector.py:18-20 | the middle weight never decreases as crystals are added |
| `Modulator.Repeat` | mrce/fecr/modulator.py:16 | repeating each weight base times gives length weights times base |
| `Modulator.RepeatAt` | mrce/fecr/modulator.py:16 | position j of the repetition holds weight j div base |
| `Modulator.Gains` | mrce/fecr/modulator.py:13-18 | the gains have exactly d entries |
| `Modulator.GainsAt` | mrce/fecr/modulator.py:15-18 | the gain at j is phi[j div base] below base times len(phi), and the last weight in the tail |
| `Modulator.GainsShort` | mrce/fecr/modulator.py:15-18 | with fewer dimensions than weights every gain is the last weight |
| `Modulator.GainsConstant` | mrce/fecr/modulator.py:15-18 | constant weights give constant gains |
| `Modulator.Diag` | mrce/fecr/modulator.py:19 | the matrix is square of the gains' size |
| `Modulator.MakeMatrix` | mrce/fecr/modulator.py:13-19 | the matrix is d by d, with the gains on the diagonal and 0 elsewhere |
| `Modulator.MatVecDiag` | mrce/fecr/modulator.py:19 | a diagonal matrix times a vector multiplies entry by entry |
| `Modulator.ModulateElementwise` | mrce/fecr/modulator.py:19-26 | output j is gain j times embedding j |
| `Modulator.Modulate` | mrce/fecr/modulator.py:21-26 | the output has the embedding's length; an empty phi returns the embedding unchanged |
| `Modulator.ModulateConstant` | mrce/fecr/modulator.py:21-26 | a constant phi of value c scales the embedding by c |
| `Modulator.ModulateNeutral` | mrce/fecr/modulator.py:21-26 | the neutral vector scales the embedding by 1/13 |
| `Modulator.ModulateScale` | mrce/fecr/modulator.py:26 | modulation commutes with scaling |
| `Modulator.ModulatePlus` | mrce/fecr/modulator.py:26 | modulation commutes with addition |
| `Scorer.Vector` | mrce/fecr/scorer.py:8-9 | a present non-empty vector is returned unchanged, otherwise the 13-entry neutral vector |
| `Scorer.VectorIgnoresText` | mrce/fecr/scorer.py:8-9 | the reply text does not affect the result |
| `Scorer.VectorIdempotent` | mrce/fecr/scorer.py:9 | feeding the result back in gives it again |
| `Context.ContextState.Set` | mrce/mrcore/agent.py:42 | assigning a key changes that key and nothing else |
| `Layers.WithTrace` | mrce/fecr/layers.py:12-14 | a call fails iff the trace key holds a non-list; on success the keys are the old ones plus the trace key, which holds a list |
| `Layers.WithTraceSpec` | mrce/fecr/layers.py:12-14 | a call appends exactly the layer's name to the trace, creating it if absent, keeps earlier entries and other keys, and fails only if the trace is not a list |
| `Layers.Call` | mrce/fecr/layers.py:12-14 | the call updates the context in place and returns the same context |
| `Layers.Names` | mrce/fecr/layers.py:17-29 | the names of a layer list, in order |
| `Layers.FecrLayers` | mrce/fecr/layers.py:32-37 | there are 13 layers, with pairwise distinct names |
| `Layers.ApplyAll` | mrce/fecr/layers.py:12-14 | a stack of layers fails iff it is non-empty and the context's trace is a non-list; on success no key is lost and a non-empty stack leaves a list under the trace key |
| `Layers.ApplyAllTrace` | mrce/fecr/layers.py:13 | applying layers in order appends their names in order and leaves other keys alone |
| `Layers.FecrStackTrace` | mrce/fecr/layers.py:32-37 | the full stack on a context without a trace leaves exactly the 13 names in order |
| `OllamaClient.Capitalize` | mrce/llm/ollama_client.py:24 | the first character is upper-cased and the rest lower-cased |
| `OllamaClient.Parts` | mrce/llm/ollama_client.py:23-25 | one "Role: content" part per message, in order |
| `OllamaClient.Flatten` | mrce/llm/ollama_client.py:17-27 | the loop builds exactly the flattened prompt |
| `OllamaClient.JoinParts` | mrce/llm/ollama_client.py:26-27 | joining the parts plus a last one with blank lines is each part followed by a blank line, then the last |
| `OllamaClient.Flattened` | mrce/llm/ollama_client.py:17-27 | the prompt is every message's part and a blank line, then "Assistant:", so it always ends with "Assistant:" |
| `OllamaClient.FlattenedEmpty` | mrce/llm/ollama_client.py:22-27 | no messages give exactly "Assistant:" |
| `Coordinator.MatchAtSound` | mrce/mrcore/coordinator.py:60 | what the matcher finds at a position is a number followed by "/10" |
| `Coordinator.MatchAtComplete` | mrce/mrcore/coordinator.py:60 | if a number followed by "/10" starts at a position, the matcher finds exactly that group there |
| `Coordinator.SearchFromLeftmost` | mrce/mrcore/coordinator.py:60 | the search from a position finds the first matching position, or reports none when nothing matches |
| `Coordinator.SearchLeftmost` | mrce/mrcore/coordinator.py:60 | re.search finds the leftmost match, or none when there is no match anywhere |
| `Coordinator.Grade` | mrce/mrcore/coordinator.py:60-61 | the grade is never negative, and is 0.5 when the reply has no match; with a match it is float of the leftmost group over 10 (GradeOfLeftmost) |
| `Coordinator.ParseNumber` | mrce/mrcore/coordinator.py:61 | `float` of a matched group is never negative, and a group of digits only reads as its decimal value (ParseDotted gives the dotted case) |
| `Coordinator.ParseDotted` | mrce/mrcore/coordinator.py:60-61 | a group "a.b" of two digit runs reads as a + b / 10^len(b) |
| `Coordinator.ParseSevenPointFive` | mrce/mrcore/coordinator.py:61 | `float("7.5")` is 7.5 |
| `Coordinator.GradeOfLeftmost` | mrce/mrcore/coordinator.py:60-61 | a reply whose leftmost "N/10" match has group g gets grade float(g) / 10 |
| `Coordinator.GradeDefault` | mrce/mrcore/coordinator.py:61 | a reply with no "N/10" has grade 0.5 |
| `Coordinator.GradeEight` | mrce/mrcore/coordinator.py:59-61 | "8/10" gives grade 0.8 |
| `Coordinator.GradeFifteen` | mrce/mrcore/coordinator.py:61 | the grade is not clamped: "15/10" gives 1.5 |
| `Coordinator.Scores` | mrce/mrcore/coordinator.py:71-74 | one score per reply, 0.6 resonance + 0.4 grade, in reply order |
| `Coordinator.FirstMax` | mrce/mrcore/coordinator.py:76-77 | the chosen score is at least every other, and strictly above every earlier one (ties go to the first) |
| `Coordinator.Decide` | mrce/mrcore/coordinator.py:79-84 | CONVERGE iff best >= 0.75, DIVERGE iff best < 0.45, EVALUATE iff in between |
| `Coordinator.EmptyMemoryScore` | mrce/mrcore/coordinator.py:57-62 | with an empty global memory the score is 0.4 grade |
| `Coordinator.UngradedRepliesDiverge` | mrce/mrcore/coordinator.py:57-84 | with an empty memory and no self-grades every score is 0.2, so evaluate diverges |
| `Coordinator.IsYes` | mrce/mrcore/coordinator.py:114 | an answer read as YES has at least three characters once stripped |
| `Coordinator.DetectContradiction` | mrce/mrcore/coordinator.py:103-114 | the replies contradict iff the chat answer's first three characters after leading whitespace upper-case to "YES" |
| `Coordinator.IsYesIff` | mrce/mrcore/coordinator.py:113-114 | the answer means YES iff its first three characters after leading whitespace upper-case to "YES" |
| `Coordinator.FirstFour` | mrce/mrcore/coordinator.py:51 | the slice has the first min(4, length) weights |
| `Coordinator.Guide` | mrce/mrcore/coordinator.py:49-51 | the guidance always starts with the fixed text "Coordinator guidance: respond clearly; FECR first four = " |
| `Coordinator.GuideFirstFour` | mrce/mrcore/coordinator.py:49-51 | the guidance depends on the vector only through its first four weights |
| `Coordinator.CoordinatorFSM.constructor` | mrce/mrcore/coordinator.py:43-46 | a new coordinator is OPEN with no dialectic rounds, on the given memory |
| `Coordinator.CoordinatorFSM.ScoreReply` | mrce/mrcore/coordinator.py:54-63 | resonance 0 for an empty embedding or memory, else the memory's coherence; score = 0.6 resonance + 0.4 grade; memory only read |
| `Coordinator.CoordinatorFSM.Evaluate` | mrce/mrcore/coordinator.py:66-86 | no replies is an error that changes nothing; otherwise the first best reply is returned and the state is set from its score alone, whatever it was |
| `Coordinator.CoordinatorFSM.StepDialectic` | mrce/mrcore/coordinator.py:96-99 | the round counter rises by 1; from round 3 on the state is CONTRADICTION, otherwise unchanged |
| `Agent.Trim` | mrce/mrcore/agent.py:64-66 | a dialogue of at most 40 is unchanged, a longer one becomes 31 messages; never more than 40 |
| `Agent.Prompt` | mrce/mrcore/agent.py:31-36 | the prompt is the unchanged dialogue, then the context block, then the user message |
| `Agent.Exchange` | mrce/mrcore/agent.py:46-50 | a step records two messages: the user's message with role user, then the reply with role assistant |
| `Agent.Record` | mrce/mrcore/agent.py:46-50 | after at least one recorded step, or from a dialogue of at most 40, the dialogue holds at most 40 messages |
| `Agent.TrimKeepsHead` | mrce/mrcore/agent.py:66 | the first message survives a trim |
| `Agent.TrimKeepsSuffix` | mrce/mrcore/agent.py:66 | after the head, a trim keeps a suffix of the dialogue, in order |
| `Agent.TrimKeepsRecent` | mrce/mrcore/agent.py:66 | the latest 30 messages survive a trim in place |
| `Agent.TrimIdempotent` | mrce/mrcore/agent.py:64-66 | trimming twice is trimming once |
| `Agent.ExchangeKeepsBounded` | mrce/mrcore/agent.py:46-50 | recording one exchange keeps the dialogue at most 40 long and headed by the system prompt |
| `Agent.RecordKeepsBounded` | mrce/mrcore/agent.py:46-50 | the same holds across any number of steps |
| `Agent.VectorStaysNeutral` | mrce/mrcore/agent.py:40-43 | an agent whose vector is unset or neutral gets the neutral vector again |
| `Agent.ExpertAgent.constructor` | mrce/mrcore/agent.py:16-27 | a new agent has the default model unless one is given, the dialogue [system prompt], no vector and an empty memory |
| `Agent.ExpertAgent.TrimDialogue` | mrce/mrcore/agent.py:64-66 | `_trim` sets the dialogue to its trimmed form |
| `Agent.ExpertAgent.Step` | mrce/mrcore/agent.py:30-61 | the reply answers the prompt; the context's FECR entry and the latest vector become the scorer's vector (neutral); the user message then the reply are appended and trimmed; memory gets the modulated embedding iff it is non-empty |
| `Engine.ShortestBelow` | mrce/mrcore/engine.py:64 | the chosen reply comes before every other by (length, position) |
| `Engine.ShortestPair` | mrce/mrcore/engine.py:64 | a pair exists iff there are at least two replies; it is two distinct valid indices |
| `Engine.ShortestPairSpec` | mrce/mrcore/engine.py:64-65 | two replies exist iff there are at least two; they are the first two of the stable sort by length |
| `Engine.ShortestPairUnique` | mrce/mrcore/engine.py:64 | any pair that comes first in the stable length order is the pair chosen |
| `Engine.Contradicts` | mrce/mrcore/engine.py:64-65 | the check fires iff there are two replies and the first two replies of the stable length order (see ShortestPairSpec) contradict, i.e. the chat answer for them reads YES after leading whitespace |
| `Engine.MRCEngine.constructor` | mrce/mrcore/engine.py:25-29 | a new engine has an empty memory shared with an OPEN coordinator and turn 0 |
| `Engine.MRCEngine.RunTurn` | mrce/mrcore/engine.py:32-70 | the context holds the (neutral) FECR vector and guidance; the turn counter rises by 1 on both return paths; the evaluated text is returned; a dialectic step happens only in DIVERGE when the two shortest replies contradict; the global memory is never written |

## Left out

- Numeric kernels. The cosine mean of `local_coherence` and the FFT of `dominant_frequency` are floating-point numerics. They are the two functions of a `Kernels` value. Only their guard cases (an empty window; fewer than 8 scores) are modelled.
- float32. Every value is an exact real, and the float32 casts in the memory, vector and modulator are not modelled. The sum-to-one and linearity results hold for exact arithmetic only.
- Coordinator.Guide: `round(w, 2)` and the list formatting are a rendering function passed in. Only the slice of the first four weights is modelled.
- Pickle and file handles in `save`/`load`. Only the saved record is modelled, as `Snapshot`.
- HTTP. `chat` and `embed` of the Ollama client are network calls. Their results are inputs: a chat function and an embedding function.
- Agent.ExpertAgent.Step: `json.dumps` of the context is an input function. `log_turn` is not modelled. The agent's session id (a random UUID) is not modelled.
- Engine.MRCEngine.RunTurn: the `asyncio.gather` fan-out over the agents is not modelled. The replies are an input, given in persona order. The agents list loaded from YAML is not part of the model. The shared context each agent writes into concurrently is not modelled; the turn's context is returned instead.
- Engine.MRCEngine.RunTurn: the printing of the state and the replies is not modelled.
- `summarise` on the CONVERGE path is not modelled. It writes a log line and creates an embed coroutine that is never awaited, with no observable state change.
- Coordinator.CoordinatorFSM.Evaluate: the replies dictionary is a sequence of (persona, text) pairs in insertion order. Persona names are not required to be distinct.
- Coordinator.Grade: `\d` is modelled as the ASCII digits 0-9. Python also matches other Unicode decimal digits.
- Coordinator.IsYes: `str.upper` is modelled on ASCII letters only. Python also upper-cases some other characters to `Y`, `E` or `S` (the long s `ſ` becomes `S`), so an answer such as `"yeſ"` reads as YES in Python but not in the model.
- OllamaClient.Capitalize: `str.capitalize` is modelled on ASCII letters only.
- Layers.Call: the trace list is modelled as a value in the dictionary. Other references to the same Python list object would also see the append; that aliasing is not modelled.
- mrce/utils/logger.py, mrce/mrcore/loader.py, mrce/settings.py and the scripts are not part of this model: they are I/O, configuration and entry points.
- The statistical claim in tests/test_memory.py about random Gaussian vectors is not modelled. Only the hard cap of 64 crystals is proved.
