/**
 * The engine's turn: build the FECR vector from the global memory's
 * crystals and the guidance context, let the coordinator evaluate the
 * experts' replies, and in DIVERGE run one contradiction check on the two
 * shortest replies. The replies, the embedder, the chat model and the
 * rendering of the guidance weights are inputs of the turn.
 */
module Engine {
  import opened Wrappers
  import opened Context
  import opened PhaseCrystal
  import opened OllamaClient
  import opened FecrVector
  import opened Coordinator

  const GUIDE_KEY: string := "guide"

  /** Why a turn raises: `max()` over no replies, or `names[1]` with only one reply. */
  datatype TurnError = EvaluateFailed(cause: EvalError) | TooFewReplies

  /**
   * Reply i comes before reply j when sorted by length: it is shorter, or
   * as long and earlier (Python's sort is stable).
   */
  predicate Before(replies: seq<Reply>, i: nat, j: nat)
    requires i < |replies| && j < |replies|
  {
    |replies[i].text| < |replies[j].text| || (|replies[i].text| == |replies[j].text| && i < j)
  }

  /** The first reply in sorted order among the first n, leaving out index `skip`; -1 if there is none. */
  function ShortestBelow(replies: seq<Reply>, n: nat, skip: int): (i: int)
    requires n <= |replies|
    ensures -1 <= i < n
    ensures i == -1 <==> n == 0 || (n == 1 && skip == 0)
    ensures i >= 0 ==> i != skip && forall j :: 0 <= j < n && j != skip && j != i ==> Before(replies, i, j)
    decreases n
  {
    if n == 0 then -1
    else
      var i := ShortestBelow(replies, n - 1, skip);
      if n - 1 == skip then i
      else if i == -1 || |replies[n - 1].text| < |replies[i].text| then
        ShorterComesFirst(replies, n - 1, skip, i);
        n - 1
      else i
  }

  /** A reply m shorter than the first one in sorted order before it comes before all of them. */
  lemma ShorterComesFirst(replies: seq<Reply>, m: nat, skip: int, i: int)
    requires m < |replies| && m != skip
    requires -1 <= i < m
    requires i == -1 ==> m == 0 || (m == 1 && skip == 0)
    requires i >= 0 ==> |replies[m].text| < |replies[i].text|
    requires i >= 0 ==> forall j :: 0 <= j < m && j != skip && j != i ==> Before(replies, i, j)
    ensures forall j :: 0 <= j < m && j != skip ==> Before(replies, m, j)
  {
    forall j | 0 <= j < m && j != skip
      ensures Before(replies, m, j)
    {
      if j != i {
        assert Before(replies, i, j);
      }
    }
  }

  /** `sorted(replies, key=len)[:2]`, when there are two replies to take. */
  function ShortestPair(replies: seq<Reply>): (pair: Option<(nat, nat)>)
    ensures pair.None? <==> |replies| < 2
    ensures pair.Some? ==> pair.value.0 < |replies| && pair.value.1 < |replies| && pair.value.0 != pair.value.1
  {
    var a := ShortestBelow(replies, |replies|, -1);
    if a == -1 then None
    else
      var b := ShortestBelow(replies, |replies|, a);
      if b == -1 then None else Some((a, b))
  }

  /** The pair is the first two replies in sorted order; it exists iff there are two replies. */
  lemma ShortestPairSpec(replies: seq<Reply>)
    ensures ShortestPair(replies).None? <==> |replies| < 2
    ensures ShortestPair(replies).Some? ==>
      var (a, b) := ShortestPair(replies).value;
      && a < |replies| && b < |replies| && a != b && Before(replies, a, b)
      && forall j :: 0 <= j < |replies| && j != a && j != b ==> Before(replies, a, j) && Before(replies, b, j)
  {
  }

  /** Any two replies that come first in sorted order are the ones ShortestPair picks. */
  lemma ShortestPairUnique(replies: seq<Reply>, a: nat, b: nat)
    requires a < |replies| && b < |replies| && a != b && Before(replies, a, b)
    requires forall j :: 0 <= j < |replies| && j != a && j != b ==> Before(replies, a, j) && Before(replies, b, j)
    ensures ShortestPair(replies) == Some((a, b))
  {
    ShortestPairSpec(replies);
    var (a', b') := ShortestPair(replies).value;
    BeforeAsymmetric(replies, a, a');
    BeforeAsymmetric(replies, b, b');
    BeforeAsymmetric(replies, a, b');
    BeforeAsymmetric(replies, a', b);
  }

  /** No two replies come before each other. */
  lemma BeforeAsymmetric(replies: seq<Reply>, i: nat, j: nat)
    requires i < |replies| && j < |replies|
    ensures !(Before(replies, i, j) && Before(replies, j, i))
  {
  }

  /** Whether DIVERGE leads to a dialectic step: the two shortest replies contradict each other. */
  function Contradicts(replies: seq<Reply>, chat: seq<Message> -> string): (fires: bool)
    ensures fires ==> 2 <= |replies|
    ensures fires <==> (
      && ShortestPair(replies).Some?
      && var (a, b) := ShortestPair(replies).value;
         YesAfterSpaces(chat(ContradictionPrompt(replies[a].text, replies[b].text))))
    ensures fires ==> exists a, b ::
      && 0 <= a < |replies| && 0 <= b < |replies| && a != b
      && YesAfterSpaces(chat(ContradictionPrompt(replies[a].text, replies[b].text)))
  {
    match ShortestPair(replies)
    case Some((a, b)) => DetectContradiction(replies[a].text, replies[b].text, chat)
    case None => false
  }

  /** The context a turn starts from: the FECR vector and the guidance text. */
  function TurnContext(fecr: seq<real>, render: seq<real> -> string): map<string, Value>
  {
    map[FECR_KEY := Numbers(fecr), GUIDE_KEY := Value.Text(Guide(fecr, render))]
  }

  class MRCEngine {
    const globalMem: PhaseCrystalMemory
    const coordinator: CoordinatorFSM
    var turn: nat

    /** The coordinator scores against this engine's memory, and no crystal was ever added to it. */
    ghost predicate Valid()
      reads this, coordinator, globalMem
    {
      coordinator.globalMem == globalMem && globalMem.crystals == map[]
    }

    /** `__init__`; loading the personae is not part of the model. */
    constructor ()
      ensures fresh(globalMem) && fresh(coordinator)
      ensures globalMem.Save() == Empty
      ensures coordinator.state == Open && coordinator.dialRounds == 0
      ensures turn == 0
      ensures Valid()
    {
      var mem := new PhaseCrystalMemory();
      globalMem := mem;
      coordinator := new CoordinatorFSM(mem);
      turn := 0;
    }

    /**
     * `run_turn(user_msg)`, given the experts' replies in persona order.
     * The turn counter rises by one on both return paths, the chosen text
     * is returned, and a dialectic step happens only in DIVERGE when the
     * two shortest replies contradict each other. The global memory is
     * never written.
     */
    method RunTurn(userMsg: string, replies: seq<Reply>, embed: string -> Embedding, k: Kernels,
                   chat: seq<Message> -> string, render: seq<real> -> string)
      returns (r: Result<string, TurnError>, ctx: ContextState)
      requires Valid()
      modifies this`turn, coordinator`state, coordinator`dialRounds
      ensures Valid() && unchanged(globalMem)
      ensures fresh(ctx) && ctx.entries == TurnContext(Neutral(), render)
      ensures replies == [] ==>
        && r == Err(EvaluateFailed(NoReplies)) && turn == old(turn)
        && coordinator.state == old(coordinator.state) && coordinator.dialRounds == old(coordinator.dialRounds)
      ensures replies != [] ==>
        var scores := Scores(globalMem.embeds, replies, embed, k);
        var best := FirstMax(scores);
        var decided := Decide(scores[best]);
        var fires := decided == Diverge && Contradicts(replies, chat);
        && (if decided == Diverge && |replies| < 2 then r == Err(TooFewReplies) && turn == old(turn)
            else r == Ok(replies[best].text) && turn == old(turn) + 1)
        && coordinator.dialRounds == old(coordinator.dialRounds) + (if fires then 1 else 0)
        && coordinator.state == (if fires && coordinator.dialRounds >= MAX_DIAL then Contradiction else decided)
    {
      var fecr := UpdateFromCrystals(globalMem.crystals);
      UpdateEmpty(globalMem.crystals);
      ctx := new ContextState(map[FECR_KEY := Numbers(fecr)]);
      var guideText := Guide(fecr, render);
      ctx.Set(GUIDE_KEY, Value.Text(guideText));

      var chosen := coordinator.Evaluate(userMsg, replies, embed, k);
      if chosen.Err? {
        r := Err(EvaluateFailed(chosen.error));
        return;
      }
      var bestText := chosen.value.text;

      if coordinator.state == Converge {
        turn := turn + 1;
        r := Ok(bestText);
        return;
      }

      if coordinator.state == Diverge {
        ShortestPairSpec(replies);
        var pair := ShortestPair(replies);
        if pair.None? {
          r := Err(TooFewReplies);
          return;
        }
        var (a, b) := pair.value;
        if DetectContradiction(replies[a].text, replies[b].text, chat) {
          coordinator.StepDialectic();
        }
      }

      turn := turn + 1;
      r := Ok(bestText);
    }
  }
}
