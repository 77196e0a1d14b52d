/**
 * Phase-crystal memory: a sliding window of embeddings and resonance
 * scores, and an append-only, capped map of promoted "crystals".
 *
 * The numeric kernels (mean cosine similarity and the FFT peak) are not
 * modelled; they enter as the two functions of a `Kernels` value, and only
 * the guards the memory puts around them are.
 */
module PhaseCrystal {
  import opened Wrappers
  import opened Text

  const WINDOW: nat := 128
  const DECAY: real := 0.98
  const THRESH: real := 0.85
  const ALPHA: real := 0.6
  const BETA: real := 0.4
  const MAX_CRYSTALS: nat := 64
  /** The fewest buffered scores for which the spectral peak is computed. */
  const MIN_SPECTRUM: nat := 8

  type Embedding = seq<real>

  /**
   * The floating-point kernels of the memory, taken as given: the mean
   * cosine similarity of an embedding against a non-empty window, and the
   * normalised dominant non-DC magnitude of a score history's spectrum.
   */
  datatype Kernels = Kernels(
    meanCosine: (seq<Embedding>, Embedding) -> real,
    spectralPeak: seq<real> -> real)

  /** The whole state of a memory; also the record that save/load persist. */
  datatype Snapshot = Snapshot(
    embeds: seq<Embedding>,
    scores: seq<real>,
    crystals: map<string, Embedding>,
    counter: nat)

  /** The new state of an `add`, with the promoted id (if any) and the resonance. */
  datatype AddResult = AddResult(next: Snapshot, promoted: Option<string>, resonance: real)

  /** The state of a newly constructed memory. */
  const Empty: Snapshot := Snapshot([], [], map[], 0)

  /** A deque with `maxlen=WINDOW`: only the newest WINDOW entries are kept. */
  function Window<T>(s: seq<T>): (w: seq<T>)
    ensures |w| == if |s| <= WINDOW then |s| else WINDOW
  {
    if |s| <= WINDOW then s else s[|s| - WINDOW..]
  }

  /** The deque keeps the newest entries: the i-th from the end is the input's i-th from the end. */
  lemma WindowKeepsNewest<T>(s: seq<T>)
    ensures forall i :: 0 <= i < |Window(s)| ==> FromEnd(Window(s), i) == FromEnd(s, i)
  {
  }

  /** One score's decay, `s * DECAY`. */
  function Decay(x: real): real
  {
    x * DECAY
  }

  /** Every score multiplied by DECAY. */
  function Decayed(scores: seq<real>): (d: seq<real>)
    ensures |d| == |scores|
  {
    seq(|scores|, i requires 0 <= i < |scores| => Decay(scores[i]))
  }

  /** The score buffer after `add` appends `r`: old scores decayed, then the deque append. */
  function ScoresAfter(scores: seq<real>, r: real): seq<real>
  {
    Window(Window(Decayed(scores)) + [r])
  }

  /** `local_coherence`: 0 on an empty window, otherwise the mean cosine. */
  function Coherence(window: seq<Embedding>, emb: Embedding, k: Kernels): (c: real)
    ensures window == [] ==> c == 0.0
    ensures window != [] ==> c == k.meanCosine(window, emb)
  {
    if window == [] then 0.0 else k.meanCosine(window, emb)
  }

  /** `dominant_frequency`: 0 below MIN_SPECTRUM scores, otherwise the spectral peak. */
  function DominantFrequency(scores: seq<real>, k: Kernels): (f: real)
    ensures |scores| < MIN_SPECTRUM ==> f == 0.0
    ensures |scores| >= MIN_SPECTRUM ==> f == k.spectralPeak(scores)
  {
    if |scores| < MIN_SPECTRUM then 0.0 else k.spectralPeak(scores)
  }

  /** The resonance `add` computes for `emb` in state `s`. */
  function Resonance(s: Snapshot, emb: Embedding, k: Kernels): real
  {
    ALPHA * Coherence(s.embeds, emb, k) + BETA * DominantFrequency(s.scores, k)
  }

  /** `_next_cid`'s label for counter value n: "C" and n padded to four digits. */
  function CrystalId(n: nat): (id: string)
    ensures 5 <= |id| && id[0] == 'C' && AllDigits(id[1..])
  {
    "C" + ZeroPadded(n, 4)
  }

  /** The number a crystal label carries (the digits after its first character). */
  function IdNumber(id: string): nat
  {
    if id == [] then 0 else DecimalValue(id[1..])
  }

  lemma IdRoundTrip(n: nat)
    ensures IdNumber(CrystalId(n)) == n
  {
    assert CrystalId(n)[1..] == ZeroPadded(n, 4);
    ZeroPaddedValue(n, 4);
  }

  /** Distinct counter values give distinct crystal labels. */
  lemma CrystalIdInjective(m: nat, n: nat)
    requires m != n
    ensures CrystalId(m) != CrystalId(n)
  {
    IdRoundTrip(m);
    IdRoundTrip(n);
  }

  /** The promotion rule of `add`. */
  predicate Promotes(resonance: real, crystalCount: nat)
  {
    resonance > THRESH && crystalCount < MAX_CRYSTALS
  }

  /** `add(emb)` on state `s`, as a function of the state. */
  function Step(s: Snapshot, emb: Embedding, k: Kernels): (r: AddResult)
    ensures |r.next.embeds| <= WINDOW && |r.next.scores| <= WINDOW
    ensures r.promoted.Some? <==> Promotes(r.resonance, |s.crystals|)
    ensures r.next.counter == if r.promoted.Some? then s.counter + 1 else s.counter
  {
    var resonance := Resonance(s, emb, k);
    var scores := ScoresAfter(s.scores, resonance);
    var embeds := Window(s.embeds + [emb]);
    if Promotes(resonance, |s.crystals|) then
      var id := CrystalId(s.counter + 1);
      AddResult(Snapshot(embeds, scores, s.crystals[id := emb], s.counter + 1), Some(id), resonance)
    else
      AddResult(Snapshot(embeds, scores, s.crystals, s.counter), None, resonance)
  }

  /** Step's result written out field by field. */
  lemma StepExplicit(s: Snapshot, emb: Embedding, k: Kernels)
    ensures var resonance := Resonance(s, emb, k);
      var promotes := Promotes(resonance, |s.crystals|);
      Step(s, emb, k) == AddResult(
        Snapshot(Window(s.embeds + [emb]), ScoresAfter(s.scores, resonance),
                 if promotes then s.crystals[CrystalId(s.counter + 1) := emb] else s.crystals,
                 if promotes then s.counter + 1 else s.counter),
        if promotes then Some(CrystalId(s.counter + 1)) else None,
        resonance)
  {
  }

  /**
   * The invariant of every state reachable from a fresh memory by `add`:
   * the two buffers are aligned and bounded, there is one crystal per
   * minted id, at most MAX_CRYSTALS of them, and every crystal's label
   * carries a number in 1..counter.
   */
  ghost predicate WellFormed(s: Snapshot)
  {
    && |s.embeds| == |s.scores| <= WINDOW
    && |s.crystals| == s.counter <= MAX_CRYSTALS
    && forall id :: id in s.crystals ==> 1 <= IdNumber(id) <= s.counter
  }

  /** `load` of a snapshot: the buffers go through a bounded deque. */
  function Restored(s: Snapshot): (r: Snapshot)
    ensures |r.embeds| == if |s.embeds| <= WINDOW then |s.embeds| else WINDOW
    ensures |r.scores| == if |s.scores| <= WINDOW then |s.scores| else WINDOW
    ensures r.embeds == s.embeds[|s.embeds| - |r.embeds|..] && r.scores == s.scores[|s.scores| - |r.scores|..]
    ensures r.crystals == s.crystals && r.counter == s.counter
  {
    Snapshot(Window(s.embeds), Window(s.scores), s.crystals, s.counter)
  }

  /** `load(save(m))` reproduces the buffers in order, the crystals and the counter. */
  lemma LoadSaveRoundTrip(s: Snapshot)
    requires |s.embeds| <= WINDOW && |s.scores| <= WINDOW
    ensures Restored(s) == s
  {
  }

  lemma EmptyWellFormed()
    ensures WellFormed(Empty)
  {
  }

  /** The buffers after one `add`: FIFO eviction when full, decay of the old scores. */
  lemma StepBuffers(s: Snapshot, emb: Embedding, k: Kernels)
    requires |s.embeds| <= WINDOW && |s.scores| <= WINDOW
    ensures var r := Step(s, emb, k);
      && r.resonance == ALPHA * Coherence(s.embeds, emb, k) + BETA * DominantFrequency(s.scores, k)
      && r.next.embeds == (if |s.embeds| == WINDOW then s.embeds[1..] else s.embeds) + [emb]
      && r.next.scores == (if |s.scores| == WINDOW then Decayed(s.scores)[1..] else Decayed(s.scores)) + [r.resonance]
  {
  }

  /**
   * Promotion happens exactly when the resonance is strictly above THRESH
   * and fewer than MAX_CRYSTALS crystals exist; it mints the next label,
   * which is new, and maps it to the raw embedding. Nothing already in the
   * crystal map is removed or overwritten.
   */
  lemma StepPromotion(s: Snapshot, emb: Embedding, k: Kernels)
    requires WellFormed(s)
    ensures var r := Step(s, emb, k);
      && (r.promoted.Some? <==> r.resonance > THRESH && |s.crystals| < MAX_CRYSTALS)
      && (r.promoted.Some? ==>
            && r.promoted.value == CrystalId(s.counter + 1)
            && r.promoted.value !in s.crystals
            && r.next.counter == s.counter + 1
            && r.next.crystals == s.crystals[r.promoted.value := emb]
            && |r.next.crystals| == |s.crystals| + 1)
      && (r.promoted.None? ==> r.next.crystals == s.crystals && r.next.counter == s.counter)
      && (forall id :: id in s.crystals ==> id in r.next.crystals && r.next.crystals[id] == s.crystals[id])
  {
    var r := Step(s, emb, k);
    if r.promoted.Some? {
      FreshId(s);
    }
  }

  /** The next label is not yet in a well-formed crystal map. */
  lemma FreshId(s: Snapshot)
    requires WellFormed(s)
    ensures CrystalId(s.counter + 1) !in s.crystals
  {
    IdRoundTrip(s.counter + 1);
  }

  lemma StepPreservesWellFormed(s: Snapshot, emb: Embedding, k: Kernels)
    requires WellFormed(s)
    ensures WellFormed(Step(s, emb, k).next)
  {
    var r := Step(s, emb, k);
    if r.promoted.Some? {
      var id := CrystalId(s.counter + 1);
      FreshId(s);
      IdRoundTrip(s.counter + 1);
      assert |r.next.crystals| == |s.crystals| + 1;
      forall x | x in r.next.crystals
        ensures 1 <= IdNumber(x) <= r.next.counter
      {
        if x != id {
          assert x in s.crystals;
        }
      }
    }
  }

  /** The first `add` on a fresh memory has resonance 0 and never promotes. */
  lemma FirstAddIsQuiet(emb: Embedding, k: Kernels)
    ensures Step(Empty, emb, k).resonance == 0.0
    ensures Step(Empty, emb, k).promoted == None
  {
  }

  /** The state after adding `embs` one by one, oldest first. */
  function Run(s: Snapshot, embs: seq<Embedding>, k: Kernels): Snapshot
    decreases |embs|
  {
    if embs == [] then s else Run(Step(s, embs[0], k).next, embs[1..], k)
  }

  /** Over any sequence of adds the invariant holds, so at most MAX_CRYSTALS crystals exist. */
  lemma {:induction false} RunPreservesWellFormed(s: Snapshot, embs: seq<Embedding>, k: Kernels)
    requires WellFormed(s)
    ensures WellFormed(Run(s, embs, k))
    ensures |Run(s, embs, k).crystals| <= MAX_CRYSTALS
    decreases |embs|
  {
    if embs != [] {
      StepPreservesWellFormed(s, embs[0], k);
      RunPreservesWellFormed(Step(s, embs[0], k).next, embs[1..], k);
    }
  }

  /** Over any sequence of adds no crystal is removed or changed. */
  lemma {:induction false} RunKeepsCrystals(s: Snapshot, embs: seq<Embedding>, k: Kernels)
    requires WellFormed(s)
    ensures forall id :: id in s.crystals ==>
      id in Run(s, embs, k).crystals && Run(s, embs, k).crystals[id] == s.crystals[id]
    decreases |embs|
  {
    if embs != [] {
      var next := Step(s, embs[0], k).next;
      StepPromotion(s, embs[0], k);
      StepPreservesWellFormed(s, embs[0], k);
      RunKeepsCrystals(next, embs[1..], k);
    }
  }

  /** The entry i places before the last one. */
  function FromEnd<T>(t: seq<T>, i: nat): T
    requires i < |t|
  {
    t[|t| - 1 - i]
  }

  /** The score buffer after the resonances `rs` were appended one by one. */
  function ScoreRun(scores: seq<real>, rs: seq<real>): seq<real>
    decreases |rs|
  {
    if rs == [] then scores else ScoreRun(ScoresAfter(scores, rs[0]), rs[1..])
  }

  /** The resonances that a run of adds computes, in order. */
  function Resonances(s: Snapshot, embs: seq<Embedding>, k: Kernels): (rs: seq<real>)
    ensures |rs| == |embs|
    decreases |embs|
  {
    if embs == [] then []
    else
      var r := Step(s, embs[0], k);
      [r.resonance] + Resonances(r.next, embs[1..], k)
  }

  /** The scores of a run depend on the state only through the resonances it computed. */
  lemma {:induction false} RunScores(s: Snapshot, embs: seq<Embedding>, k: Kernels)
    ensures Run(s, embs, k).scores == ScoreRun(s.scores, Resonances(s, embs, k))
    decreases |embs|
  {
    if embs != [] {
      var r := Step(s, embs[0], k);
      RunScores(r.next, embs[1..], k);
      var rs := Resonances(s, embs, k);
      assert rs[0] == r.resonance && rs[1..] == Resonances(r.next, embs[1..], k);
    }
  }

  lemma {:induction false} ScoreRunLength(scores: seq<real>, rs: seq<real>)
    requires |scores| <= WINDOW
    ensures |ScoreRun(scores, rs)| == if |scores| + |rs| <= WINDOW then |scores| + |rs| else WINDOW
    decreases |rs|
  {
    if rs != [] {
      ScoreRunLength(ScoresAfter(scores, rs[0]), rs[1..]);
    }
  }

  /** x scaled by DECAY n times over. */
  function DecayedBy(x: real, n: nat): real
    decreases n
  {
    if n == 0 then x else DecayedBy(Decay(x), n - 1)
  }

  function Pow(x: real, n: nat): real
  {
    if n == 0 then 1.0 else x * Pow(x, n - 1)
  }

  lemma {:induction false} DecayedByPow(x: real, n: nat)
    ensures DecayedBy(x, n) == x * Pow(DECAY, n)
    decreases n
  {
    if n > 0 {
      DecayedByPow(Decay(x), n - 1);
      assert DecayedBy(x, n) == (x * DECAY) * Pow(DECAY, n - 1);
    }
  }

  /** One append moves each kept score one place further from the end and scales it by DECAY. */
  lemma ScoresAfterShift(scores: seq<real>, r: real, j: nat)
    requires |scores| <= WINDOW
    requires j < |scores| && j + 1 < WINDOW
    ensures j + 1 < |ScoresAfter(scores, r)|
    ensures FromEnd(ScoresAfter(scores, r), j + 1) == Decay(FromEnd(scores, j))
  {
    var d := Decayed(scores) + [r];
    assert ScoresAfter(scores, r) == Window(d);
    assert d[|d| - 2 - j] == Decay(scores[|scores| - 1 - j]);
  }

  /**
   * A score held j places before the newest, after n more appends (while
   * it is still inside the window), has been scaled by DECAY n times over,
   * that is by DECAY^n (DecayedByPow). With RunScores this holds for every
   * run of adds, whatever resonances it computes.
   */
  lemma {:induction false} ScoreRunDecays(scores: seq<real>, rs: seq<real>, j: nat)
    requires |scores| <= WINDOW
    requires j < |scores| && j + |rs| < WINDOW
    ensures j + |rs| < |ScoreRun(scores, rs)|
    ensures FromEnd(ScoreRun(scores, rs), j + |rs|) == DecayedBy(FromEnd(scores, j), |rs|)
    decreases |rs|
  {
    if rs != [] {
      var next, rest := ScoresAfter(scores, rs[0]), rs[1..];
      ScoresAfterShift(scores, rs[0], j);
      ScoreRunDecays(next, rest, j + 1);
      ScoreRunUnfold(scores, rs, FromEnd(scores, j));
    }
  }

  /** One step of a run of appends, and of the matching repeated decay. */
  lemma ScoreRunUnfold(scores: seq<real>, rs: seq<real>, x: real)
    requires rs != []
    ensures ScoreRun(scores, rs) == ScoreRun(ScoresAfter(scores, rs[0]), rs[1..])
    ensures DecayedBy(x, |rs|) == DecayedBy(Decay(x), |rs[1..]|)
  {
  }

  /** After any run of adds, a score that stayed in the window was decayed once per add (DECAY^n by DecayedByPow). */
  lemma RunDecaysScores(s: Snapshot, embs: seq<Embedding>, k: Kernels, j: nat)
    requires |s.scores| <= WINDOW
    requires j < |s.scores| && j + |embs| < WINDOW
    ensures j + |embs| < |Run(s, embs, k).scores|
    ensures FromEnd(Run(s, embs, k).scores, j + |embs|) == DecayedBy(FromEnd(s.scores, j), |embs|)
  {
    var rs := Resonances(s, embs, k);
    var after := Run(s, embs, k).scores;
    RunScores(s, embs, k);
    assert after == ScoreRun(s.scores, rs) && |rs| == |embs|;
    ScoreRunDecays(s.scores, rs, j);
  }

  /** Python's generator `(s * DECAY for s in scores)`, as a loop. */
  method DecayScores(scores: seq<real>) returns (decayed: seq<real>)
    ensures decayed == Decayed(scores)
  {
    decayed := [];
    var i := 0;
    while i < |scores|
      invariant 0 <= i <= |scores|
      invariant decayed == Decayed(scores[..i])
    {
      decayed := decayed + [Decay(scores[i])];
      i := i + 1;
    }
    assert scores[..i] == scores;
  }

  class PhaseCrystalMemory {
    var embeds: seq<Embedding>
    var scores: seq<real>
    var crystals: map<string, Embedding>
    var counter: nat

    /** `save`: the record written to disk, with both buffers listed oldest first. */
    function Save(): (saved: Snapshot)
      reads this
      ensures saved.embeds == embeds && saved.scores == scores
      ensures saved.crystals == crystals && saved.counter == counter
    {
      Snapshot(embeds, scores, crystals, counter)
    }

    ghost predicate Valid()
      reads this
    {
      WellFormed(Save())
    }

    constructor ()
      ensures Save() == Empty && Valid()
    {
      embeds, scores, crystals, counter := [], [], map[], 0;
    }

    /** `load`: a memory rebuilt from a saved record. */
    constructor Load(s: Snapshot)
      ensures Save() == Restored(s)
      ensures |s.embeds| <= WINDOW && |s.scores| <= WINDOW ==> Save() == s
      ensures WellFormed(s) ==> Valid()
    {
      embeds := Window(s.embeds);
      scores := Window(s.scores);
      crystals := s.crystals;
      counter := s.counter;
    }

    function LocalCoherence(emb: Embedding, k: Kernels): (c: real)
      reads this
      ensures embeds == [] ==> c == 0.0
    {
      Coherence(embeds, emb, k)
    }

    method NextCid() returns (id: string)
      modifies this`counter
      ensures counter == old(counter) + 1 && id == CrystalId(counter)
    {
      counter := counter + 1;
      id := CrystalId(counter);
    }

    method Add(emb: Embedding, k: Kernels) returns (cid: Option<string>, resonance: real)
      modifies this
      ensures var r := Step(old(Save()), emb, k);
        Save() == r.next && cid == r.promoted && resonance == r.resonance
      ensures old(Valid()) ==> Valid()
    {
      ghost var before := Save();
      StepExplicit(before, emb, k);
      var coherence := LocalCoherence(emb, k);
      var dominant := DominantFrequency(scores, k);
      resonance := ALPHA * coherence + BETA * dominant;
      assert resonance == Resonance(before, emb, k);

      var decayed := DecayScores(scores);
      scores := Window(decayed);

      embeds := Window(embeds + [emb]);
      scores := Window(scores + [resonance]);
      assert scores == ScoresAfter(before.scores, resonance);

      if resonance > THRESH && |crystals| < MAX_CRYSTALS {
        var id := NextCid();
        crystals := crystals[id := emb];
        cid := Some(id);
      } else {
        cid := None;
      }
      assert Save() == Step(before, emb, k).next;
      if WellFormed(before) {
        StepPreservesWellFormed(before, emb, k);
      }
    }
  }
}
