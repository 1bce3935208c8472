/**
 * The last stage, `worker/tasks/locations/review/finalize.py`: a shallow copy of the payload
 * without the article's `text` and `story_type`.
 */
module Finalize {
  import opened PyJson

  const Dropped: set<string> := {"text", "story_type"}

  /**
   * `_finalize_locations`: the payload is copied and both keys are popped from the copy with a
   * default, so a missing key is no error and the given payload is left as it was.
   */
  function Finalized(payload: Record): (r: Record)
    ensures "text" !in r && "story_type" !in r
    ensures r.Keys == payload.Keys - Dropped
    ensures forall k :: k in r ==> r[k] == payload[k]
  {
    var cleaned := payload;
    Pop(Pop(cleaned, {"text"}), {"story_type"})
  }

  /** Finalizing is idempotent: the copy has nothing left to drop. */
  lemma FinalizeTwice(payload: Record)
    ensures Finalized(Finalized(payload)) == Finalized(payload)
  {
    var once := Finalized(payload);
    assert once.Keys !! Dropped;
    assert Finalized(once).Keys == once.Keys;
  }

  /** A payload without `text` and `story_type` passes through unchanged. */
  lemma FinalizeClean(payload: Record)
    requires payload.Keys !! Dropped
    ensures Finalized(payload) == payload
  {
    assert Finalized(payload).Keys == payload.Keys;
  }
}
