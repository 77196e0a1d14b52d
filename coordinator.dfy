/**
 * The coordinator state machine: it scores the experts' replies (memory
 * resonance plus the self-grade a reply states as "N/10"), picks the best
 * one, and moves between OPEN, EVALUATE, CONVERGE, DIVERGE and
 * CONTRADICTION. Embeddings and chat answers are inputs of the model.
 */
module Coordinator {
  import opened Wrappers
  import opened Text
  import opened PhaseCrystal
  import opened OllamaClient

  datatype State = Open | Evaluate | Converge | Diverge | Contradiction | Done

  /** A best score at or above TRUTH_TH converges. */
  const TRUTH_TH: real := 0.75
  /** A best score below FLOOR_TH diverges. */
  const FLOOR_TH: real := 0.45
  /** Dialectic rounds before the coordinator declares a contradiction. */
  const MAX_DIAL: nat := 3
  const RESONANCE_WEIGHT: real := 0.6
  const GRADE_WEIGHT: real := 0.4
  /** The grade of a reply that states none. */
  const DEFAULT_GRADE: real := 0.5
  const GRADE_SUFFIX: string := "/10"

  /** An expert's reply, one entry of the `replies` dictionary (insertion order kept). */
  datatype Reply = Reply(persona: string, text: string)

  /** What `evaluate` returns: the chosen persona and its reply. */
  datatype Choice = Choice(persona: string, text: string)

  /** `max()` of an empty dictionary raises. */
  datatype EvalError = NoReplies

  // ---------------------------------------------------------------------
  // The self-grade: `re.search(r"(\d+(?:\.\d+)?)/10", reply)`.

  /** A run of one or more digits. */
  predicate Digits(g: string)
  {
    |g| > 0 && AllDigits(g)
  }

  /** What the group `\d+(?:\.\d+)?` matches: digits, optionally a dot and more digits. */
  predicate IsNumber(g: string)
  {
    Digits(g) || exists k :: 0 < k < |g| && g[k] == '.' && Digits(g[..k]) && Digits(g[k + 1..])
  }

  /** The pattern matches at position i with group g. */
  predicate PatternAt(s: string, i: nat, g: string)
  {
    i <= |s| && IsNumber(g) && StartsWith(s[i..], g + GRADE_SUFFIX)
  }

  /**
   * The regular expression tried at position i, the way the backtracking
   * matcher resolves it: the greedy digit run, then "/10" directly or
   * after a dot and a second digit run.
   */
  function MatchAt(s: string, i: nat): Option<string>
    requires i <= |s|
  {
    if i == |s| || !IsDigit(s[i]) then None
    else
      var e := DigitRunEnd(s, i);
      if StartsWith(s[e..], GRADE_SUFFIX) then Some(s[i..e])
      else if e < |s| && s[e] == '.' then
        var f := DigitRunEnd(s, e + 1);
        if f > e + 1 && StartsWith(s[f..], GRADE_SUFFIX) then Some(s[i..f]) else None
      else None
  }

  /** A match: where it starts and what its group holds. */
  datatype Found = Found(start: nat, group: string)

  /** `re.search` from position i on: the first position that matches. */
  function SearchFrom(s: string, i: nat): Option<Found>
    requires i <= |s|
    decreases |s| - i
  {
    match MatchAt(s, i)
    case Some(g) => Some(Found(i, g))
    case None => if i == |s| then None else SearchFrom(s, i + 1)
  }

  function Search(s: string): Option<Found>
  {
    SearchFrom(s, 0)
  }

  /** A digit run that `DigitRunEnd` stops at exactly. */
  lemma RunEndsAt(s: string, i: nat, j: nat)
    requires i <= j <= |s|
    requires forall t :: i <= t < j ==> IsDigit(s[t])
    requires j < |s| ==> !IsDigit(s[j])
    ensures DigitRunEnd(s, i) == j
  {
  }

  /** Whatever MatchAt returns is a match of the pattern there. */
  lemma MatchAtSound(s: string, i: nat)
    requires i <= |s|
    ensures MatchAt(s, i).Some? ==> PatternAt(s, i, MatchAt(s, i).value)
  {
    if i < |s| && IsDigit(s[i]) {
      var e := DigitRunEnd(s, i);
      if StartsWith(s[e..], GRADE_SUFFIX) {
        PatternFrom(s, i, e);
      } else if e < |s| && s[e] == '.' {
        var f := DigitRunEnd(s, e + 1);
        if f > e + 1 && StartsWith(s[f..], GRADE_SUFFIX) {
          DottedNumber(s, i, e, f);
          PatternFrom(s, i, f);
        }
      }
    }
  }

  /** Two digit runs joined by a dot form a number. */
  lemma DottedNumber(s: string, i: nat, e: nat, f: nat)
    requires i < e && e + 1 < f <= |s| && s[e] == '.'
    requires forall t :: i <= t < e ==> IsDigit(s[t])
    requires forall t :: e < t < f ==> IsDigit(s[t])
    ensures IsNumber(s[i..f])
  {
    var g := s[i..f];
    var k := e - i;
    var a, b := s[i..e], s[e + 1..f];
    assert g[..k] == a && g[k + 1..] == b;
    assert forall t :: 0 <= t < |a| ==> a[t] == s[i + t];
    assert forall t :: 0 <= t < |b| ==> b[t] == s[e + 1 + t];
    assert g[k] == '.' && Digits(a) && Digits(b);
  }

  /** A number s[i..e] followed by "/10" is a match at i. */
  lemma PatternFrom(s: string, i: nat, e: nat)
    requires i <= e <= |s| && IsNumber(s[i..e]) && StartsWith(s[e..], GRADE_SUFFIX)
    ensures PatternAt(s, i, s[i..e])
  {
    var g := s[i..e];
    assert s[i..][..|g| + 3] == g + GRADE_SUFFIX;
  }

  /** The characters of a prefix w of s[i..]. */
  lemma PrefixChars(s: string, i: nat, w: string)
    requires i <= |s| && StartsWith(s[i..], w)
    ensures i + |w| <= |s|
    ensures forall t :: 0 <= t < |w| ==> s[i + t] == w[t]
  {
    assert forall t :: 0 <= t < |w| ==> s[i..][..|w|][t] == s[i + t];
  }

  /** s[i..] starts with the characters "/10" found at i, i+1, i+2. */
  lemma SuffixAt(s: string, i: nat)
    requires i + 3 <= |s| && s[i] == '/' && s[i + 1] == '1' && s[i + 2] == '0'
    ensures StartsWith(s[i..], GRADE_SUFFIX)
  {
    assert s[i..][..3] == GRADE_SUFFIX;
  }

  /** Every match of the pattern at i is the one MatchAt finds. */
  lemma MatchAtComplete(s: string, i: nat, g: string)
    requires PatternAt(s, i, g)
    ensures MatchAt(s, i) == Some(g)
  {
    var n := |g|;
    var w := g + GRADE_SUFFIX;
    PrefixChars(s, i, w);
    assert forall t :: 0 <= t < n ==> s[i + t] == g[t] by {
      forall t | 0 <= t < n
        ensures s[i + t] == g[t]
      {
        assert w[t] == g[t];
      }
    }
    assert w[n] == '/' && w[n + 1] == '1' && w[n + 2] == '0';
    SuffixAt(s, i + n);
    assert s[i..i + n] == g;
    if Digits(g) {
      DigitsRun(s, i, g);
      RunEndsAt(s, i, i + n);
    } else {
      var k :| 0 < k < n && g[k] == '.' && Digits(g[..k]) && Digits(g[k + 1..]);
      DottedMatch(s, i, g, k);
    }
  }

  /** The characters of g copied at i are digits when g is. */
  lemma DigitsRun(s: string, i: nat, g: string)
    requires i + |g| <= |s| && s[i..i + |g|] == g && AllDigits(g)
    ensures forall t :: i <= t < i + |g| ==> IsDigit(s[t])
  {
    forall t | i <= t < i + |g|
      ensures IsDigit(s[t])
    {
      assert s[t] == s[i..i + |g|][t - i];
    }
  }

  /** A match "a.b/10" at i: the first run stops at the dot, the second at the slash. */
  lemma DottedMatch(s: string, i: nat, g: string, k: nat)
    requires 0 < k < |g| && g[k] == '.' && Digits(g[..k]) && Digits(g[k + 1..])
    requires i + |g| <= |s| && s[i..i + |g|] == g
    requires StartsWith(s[i + |g|..], GRADE_SUFFIX)
    ensures MatchAt(s, i) == Some(g)
  {
    var n := |g|;
    assert s[i..i + k] == g[..k];
    DigitsRun(s, i, g[..k]);
    assert s[i + k] == '.';
    RunEndsAt(s, i, i + k);
    assert !StartsWith(s[i + k..], GRADE_SUFFIX) by {
      assert s[i + k..][0] == '.';
    }
    assert s[i + k + 1..i + n] == g[k + 1..];
    DigitsRun(s, i + k + 1, g[k + 1..]);
    assert s[i + n] == '/' by {
      assert s[i + n..][0] == GRADE_SUFFIX[0];
    }
    RunEndsAt(s, i + k + 1, i + n);
  }

  /**
   * `re.search` finds the leftmost match: its group matches at its start,
   * no earlier position matches at all, and when it finds nothing no
   * position matches.
   */
  lemma {:induction false} SearchFromLeftmost(s: string, i: nat)
    requires i <= |s|
    ensures match SearchFrom(s, i)
      case Some(f) =>
        && i <= f.start
        && PatternAt(s, f.start, f.group)
        && forall j, g :: i <= j < f.start ==> !PatternAt(s, j, g)
      case None => forall j, g :: i <= j <= |s| ==> !PatternAt(s, j, g)
    decreases |s| - i
  {
    MatchAtSound(s, i);
    if MatchAt(s, i).None? {
      forall g | PatternAt(s, i, g)
        ensures false
      {
        MatchAtComplete(s, i, g);
      }
      if i < |s| {
        SearchFromLeftmost(s, i + 1);
      }
    }
  }

  lemma SearchLeftmost(s: string)
    ensures match Search(s)
      case Some(f) => PatternAt(s, f.start, f.group) && forall j: nat, g :: j < f.start ==> !PatternAt(s, j, g)
      case None => forall j: nat, g :: !PatternAt(s, j, g)
  {
    SearchFromLeftmost(s, 0);
  }

  function Pow10(n: nat): (p: nat)
    ensures p > 0
  {
    if n == 0 then 1 else 10 * Pow10(n - 1)
  }

  /** `float(group)` for a matched group, in exact arithmetic. */
  function ParseNumber(g: string): (x: real)
    ensures 0.0 <= x
    ensures AllDigits(g) ==> x == DecimalValue(g) as real
  {
    var e := DigitRunEnd(g, 0);
    if e == |g| then DecimalValue(g) as real
    else DecimalValue(g[..e]) as real + DecimalValue(g[e + 1..]) as real / Pow10(|g| - e - 1) as real
  }

  /** The digit run of a dotted group stops at its dot. */
  lemma DottedRunEnd(a: string, b: string)
    requires Digits(a)
    ensures DigitRunEnd(a + "." + b, 0) == |a|
  {
    var g := a + "." + b;
    assert g[|a|] == '.';
    assert forall t :: 0 <= t < |a| ==> g[t] == a[t];
    RunEndsAt(g, 0, |a|);
  }

  /** A dotted group reads as its integer part plus its fraction: `float("7.5") == 7.5`. */
  lemma ParseDotted(a: string, b: string)
    requires Digits(a) && Digits(b)
    ensures ParseNumber(a + "." + b) == DecimalValue(a) as real + DecimalValue(b) as real / Pow10(|b|) as real
  {
    var g := a + "." + b;
    DottedRunEnd(a, b);
    assert g[..|a|] == a && g[|a| + 1..] == b;
  }

  /** The fraction of a dotted grade is kept: "7.5" reads as 7.5. */
  lemma ParseSevenPointFive()
    ensures ParseNumber("7.5") == 7.5
  {
    ParseDotted("7", "5");
    assert "7" + "." + "5" == "7.5";
    assert "7"[..0] == [] && "5"[..0] == [];
  }

  /** The critic grade of a reply: the first "N/10" over ten, else 0.5; never clamped. */
  function Grade(reply: string): (g: real)
    ensures 0.0 <= g
    ensures Search(reply).None? ==> g == DEFAULT_GRADE
  {
    match Search(reply)
    case Some(f) => ParseNumber(f.group) / 10.0
    case None => DEFAULT_GRADE
  }

  /** A reply whose leftmost "N/10" match is at j with group g gets the grade g / 10. */
  lemma GradeOfLeftmost(reply: string, j: nat, g: string)
    requires PatternAt(reply, j, g)
    requires forall j': nat, g' :: j' < j ==> !PatternAt(reply, j', g')
    ensures Grade(reply) == ParseNumber(g) / 10.0
  {
    SearchLeftmost(reply);
    var f := Search(reply).value;
    MatchAtComplete(reply, j, g);
    MatchAtComplete(reply, j, f.group);
  }

  /** A reply that states no grade gets the default grade. */
  lemma GradeDefault(reply: string)
    requires forall j: nat, g :: !PatternAt(reply, j, g)
    ensures Grade(reply) == DEFAULT_GRADE
  {
    SearchLeftmost(reply);
  }

  /** "Logical rigor: 8/10" style: "8/10" grades 0.8. */
  lemma GradeEight()
    ensures Grade("8/10") == 0.8
  {
    var s := "8/10";
    RunEndsAt(s, 0, 1);
    SuffixAt(s, 1);
    assert s[0..1] == "8";
    assert Search(s) == Some(Found(0, "8"));
    RunEndsAt("8", 0, 1);
    assert "8"[..0] == [];
  }

  /** The grade is not clamped: "15/10" grades 1.5. */
  lemma GradeFifteen()
    ensures Grade("15/10") == 1.5
  {
    var s := "15/10";
    RunEndsAt(s, 0, 2);
    SuffixAt(s, 2);
    assert s[0..2] == "15";
    assert Search(s) == Some(Found(0, "15"));
    RunEndsAt("15", 0, 2);
    assert "15"[..1] == "1";
    assert "1"[..0] == [];
  }

  // ---------------------------------------------------------------------
  // Scoring and choosing a reply.

  /** `score_reply`'s resonance: the memory's coherence, or 0 for an empty embedding. */
  function ReplyResonance(window: seq<Embedding>, emb: Embedding, k: Kernels): real
  {
    if emb == [] then 0.0 else Coherence(window, emb, k)
  }

  /** `score = 0.6 * resonance + 0.4 * grade`. */
  function ReplyScore(window: seq<Embedding>, reply: string, emb: Embedding, k: Kernels): real
  {
    RESONANCE_WEIGHT * ReplyResonance(window, emb, k) + GRADE_WEIGHT * Grade(reply)
  }

  /** The score of every reply, in dictionary order; `embed` stands for the embedding call. */
  function Scores(window: seq<Embedding>, replies: seq<Reply>, embed: string -> Embedding, k: Kernels): (scores: seq<real>)
    ensures |scores| == |replies|
    ensures forall i :: 0 <= i < |replies| ==>
      scores[i] == ReplyScore(window, replies[i].text, embed(replies[i].text), k)
  {
    seq(|replies|, i requires 0 <= i < |replies| => ReplyScore(window, replies[i].text, embed(replies[i].text), k))
  }

  /**
   * `max(scored, key=scored.get)`: the position of a largest score, the
   * earliest one when several tie.
   */
  function FirstMax(xs: seq<real>): (best: nat)
    requires xs != []
    ensures best < |xs|
    ensures forall j :: 0 <= j < |xs| ==> xs[j] <= xs[best]
    ensures forall j :: 0 <= j < best ==> xs[j] < xs[best]
    decreases |xs|
  {
    if |xs| == 1 then 0
    else
      var i := FirstMax(xs[..|xs| - 1]);
      if xs[|xs| - 1] > xs[i] then |xs| - 1 else i
  }

  /** The state `evaluate` moves to for the best score. */
  function Decide(best: real): (st: State)
    ensures st == Converge <==> best >= TRUTH_TH
    ensures st == Diverge <==> best < FLOOR_TH
    ensures st == Evaluate <==> FLOOR_TH <= best < TRUTH_TH
  {
    if best >= TRUTH_TH then Converge
    else if best < FLOOR_TH then Diverge
    else Evaluate
  }

  /** With an empty memory only the grade counts: 0.4 times the grade. */
  lemma EmptyMemoryScore(reply: string, emb: Embedding, k: Kernels)
    ensures ReplyScore([], reply, emb, k) == GRADE_WEIGHT * Grade(reply)
  {
  }

  /**
   * With an empty memory, replies that state no grade all score 0.2, so
   * `evaluate` over them moves to DIVERGE.
   */
  lemma UngradedRepliesDiverge(replies: seq<Reply>, embed: string -> Embedding, k: Kernels)
    requires replies != []
    requires forall i, j: nat, g :: 0 <= i < |replies| ==> !PatternAt(replies[i].text, j, g)
    ensures Decide(Scores([], replies, embed, k)[FirstMax(Scores([], replies, embed, k))]) == Diverge
  {
    var scores := Scores([], replies, embed, k);
    var best := FirstMax(scores);
    GradeDefault(replies[best].text);
    assert scores[best] == GRADE_WEIGHT * DEFAULT_GRADE;
  }

  // ---------------------------------------------------------------------
  // The contradiction check.

  /** The messages `detect_contradiction` sends. */
  function ContradictionPrompt(a: string, b: string): seq<Message>
  {
    [Message("system", "Return YES if statement A contradicts statement B, else NO."),
     Message("user", "Statement A: " + a + "\n\nStatement B: " + b)]
  }

  /** `ans.strip().upper().startswith("YES")`. */
  function IsYes(ans: string): (yes: bool)
    ensures yes ==> 3 <= |Strip(ans)|
  {
    StartsWith(Upper(Strip(ans)), "YES")
  }

  /** `detect_contradiction`, with the chat call as an input. */
  function DetectContradiction(a: string, b: string, chat: seq<Message> -> string): (contradicts: bool)
    ensures contradicts <==> YesAfterSpaces(chat(ContradictionPrompt(a, b)))
  {
    var answer := chat(ContradictionPrompt(a, b));
    IsYesIff(answer);
    IsYes(answer)
  }

  /**
   * The three characters after the leading whitespace read "YES" once
   * upper-cased.
   */
  predicate YesAfterSpaces(ans: string)
  {
    var k := LeadingSpaces(ans);
    k + 3 <= |ans| && Upper(ans[k..k + 3]) == "YES"
  }

  /**
   * The answer means YES exactly when its first three characters after
   * the leading whitespace read "YES" once upper-cased; whatever follows
   * them does not matter.
   */
  lemma IsYesIff(ans: string)
    ensures IsYes(ans) ==> YesAfterSpaces(ans)
    ensures YesAfterSpaces(ans) ==> IsYes(ans)
  {
    if YesAfterSpaces(ans) {
      YesFromPrefix(ans);
    }
    if IsYes(ans) {
      PrefixFromYes(ans);
    }
  }

  lemma YesFromPrefix(ans: string)
    requires YesAfterSpaces(ans)
    ensures IsYes(ans)
  {
    var k := LeadingSpaces(ans);
    var w := ans[k..k + 3];
    var u := Upper(w);
    assert u == "YES";
    assert UpperChar(w[2]) == 'S';
    StripFrom(ans);
    StripKeeps(ans, 3);
    var st := Strip(ans);
    var us := Upper(st);
    forall i | 0 <= i < 3
      ensures us[i] == u[i]
    {
      assert st[i] == w[i];
    }
    assert us[..3] == u;
  }

  lemma PrefixFromYes(ans: string)
    requires IsYes(ans)
    ensures YesAfterSpaces(ans)
  {
    var k := LeadingSpaces(ans);
    var st := Strip(ans);
    StripFrom(ans);
    assert Upper(st)[..3] == "YES";
    assert st[..3] == ans[k..k + 3];
    assert Upper(ans[k..k + 3]) == Upper(st)[..3];
  }

  // ---------------------------------------------------------------------
  // The state machine.

  /** The fixed opening of every guidance text. */
  const GUIDANCE: string := "Coordinator guidance: respond clearly; FECR first four = "

  /** `guide`'s text, with the rendering of the rounded first four weights as an input. */
  function Guide(fecr: seq<real>, render: seq<real> -> string): (g: string)
    ensures StartsWith(g, GUIDANCE)
  {
    GUIDANCE + render(FirstFour(fecr))
  }

  /** `fecr_vec[:4]`: a slice, so a shorter vector is taken whole. */
  function FirstFour(fecr: seq<real>): (w: seq<real>)
    ensures |w| == if |fecr| < 4 then |fecr| else 4
    ensures w <= fecr
  {
    if |fecr| < 4 then fecr else fecr[..4]
  }

  /** The guidance depends on the vector only through its first four weights. */
  lemma GuideFirstFour(a: seq<real>, b: seq<real>, render: seq<real> -> string)
    requires |a| >= 4 && |b| >= 4 && a[..4] == b[..4]
    ensures Guide(a, render) == Guide(b, render)
  {
  }

  class CoordinatorFSM {
    var state: State
    var dialRounds: nat
    const globalMem: PhaseCrystalMemory

    constructor (globalMem: PhaseCrystalMemory)
      ensures state == Open && dialRounds == 0 && this.globalMem == globalMem
    {
      state := Open;
      dialRounds := 0;
      this.globalMem := globalMem;
    }

    /** `score_reply(persona, reply)`, given the reply's embedding; it returns (score, resonance). */
    method ScoreReply(persona: string, reply: string, emb: Embedding, k: Kernels) returns (score: real, resonance: real)
      ensures emb == [] || globalMem.embeds == [] ==> resonance == 0.0
      ensures emb != [] && globalMem.embeds != [] ==> resonance == k.meanCosine(globalMem.embeds, emb)
      ensures score == RESONANCE_WEIGHT * resonance + GRADE_WEIGHT * Grade(reply)
      ensures score == ReplyScore(globalMem.embeds, reply, emb, k)
    {
      resonance := if emb != [] then globalMem.LocalCoherence(emb, k) else 0.0;
      score := RESONANCE_WEIGHT * resonance + GRADE_WEIGHT * Grade(reply);
    }

    /**
     * `evaluate(user_msg, replies)`: scores every reply, returns the first
     * best one and moves to the state its score decides, whatever the
     * state was. No replies is an error and changes nothing.
     */
    method Evaluate(userMsg: string, replies: seq<Reply>, embed: string -> Embedding, k: Kernels)
      returns (r: Result<Choice, EvalError>)
      modifies this`state
      ensures replies == [] ==> r == Err(NoReplies) && state == old(state)
      ensures replies != [] ==>
        var scores := Scores(globalMem.embeds, replies, embed, k);
        var best := FirstMax(scores);
        && r == Ok(Choice(replies[best].persona, replies[best].text))
        && state == Decide(scores[best])
    {
      var scored: seq<real> := [];
      var i := 0;
      while i < |replies|
        invariant 0 <= i <= |replies|
        invariant scored == Scores(globalMem.embeds, replies, embed, k)[..i]
        invariant state == old(state)
      {
        var s, _ := ScoreReply(replies[i].persona, replies[i].text, embed(replies[i].text), k);
        scored := scored + [s];
        i := i + 1;
      }
      if replies == [] {
        r := Err(NoReplies);
        return;
      }
      assert scored == Scores(globalMem.embeds, replies, embed, k);
      var best := FirstMax(scored);
      var bestScore := scored[best];
      if bestScore >= TRUTH_TH {
        state := Converge;
      } else if bestScore < FLOOR_TH {
        state := Diverge;
      } else {
        state := State.Evaluate;
      }
      r := Ok(Choice(replies[best].persona, replies[best].text));
    }

    /** `step_dialectic`: one more round; the third and later rounds declare a contradiction. */
    method StepDialectic()
      modifies this`dialRounds, this`state
      ensures dialRounds == old(dialRounds) + 1
      ensures state == if dialRounds >= MAX_DIAL then Contradiction else old(state)
    {
      dialRounds := dialRounds + 1;
      if dialRounds >= MAX_DIAL {
        state := Contradiction;
      }
    }
  }
}
