/**
 * The FECR scorer: the agent's current vector when it has one, otherwise
 * the neutral vector. The reply text takes no part.
 */
module Scorer {
  import opened Wrappers
  import opened FecrVector

  /** Python truthiness of an optional list: present and non-empty. */
  predicate Truthy(phi: Option<seq<real>>)
  {
    phi.Some? && phi.value != []
  }

  /** `vector(reply_text, current_phi)`. */
  function Vector(replyText: string, currentPhi: Option<seq<real>>): (phi: seq<real>)
    ensures phi != []
    ensures Truthy(currentPhi) ==> phi == currentPhi.value
    ensures !Truthy(currentPhi) ==> phi == Neutral()
  {
    if Truthy(currentPhi) then currentPhi.value else Neutral()
  }

  /** The reply text never changes the result. */
  lemma VectorIgnoresText(a: string, b: string, currentPhi: Option<seq<real>>)
    ensures Vector(a, currentPhi) == Vector(b, currentPhi)
  {
  }

  /** Feeding the result back in gives the same vector. */
  lemma VectorIdempotent(replyText: string, currentPhi: Option<seq<real>>)
    ensures Vector(replyText, Some(Vector(replyText, currentPhi))) == Vector(replyText, currentPhi)
  {
  }
}
