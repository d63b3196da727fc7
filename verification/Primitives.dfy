/**
 What the protocol takes from outside the repository, as function values. Nothing else is assumed of them:
 each lemma that needs a law names it.
 */
module Primitives {
  import opened Wrappers
  import Utf8

  /** `hashlib.sha256(...).hexdigest()`. */
  type Sha = Bytes -> string

  ghost predicate CollisionFree(sha: Sha) {
    forall a, b :: sha(a) == sha(b) ==> a == b
  }

  function ShaText(sha: Sha, text: string): string {
    sha(Utf8.Encode(text))
  }

  lemma ShaTextInjective(sha: Sha, a: string, b: string)
    requires CollisionFree(sha) && ShaText(sha, a) == ShaText(sha, b)
    ensures a == b
  {
    Utf8.Injective(a, b);
  }

  /** `datetime.fromisoformat` on a text that must carry a time zone, in microseconds; None is its error. */
  type Instant = string -> Option<int>
}
