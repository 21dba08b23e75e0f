/** A way to keep a definition out of proofs that do not ask for it: what is stated under
    `forall key :: Unlocks(key) ==> ...` is at hand only where `Unlocks` is mentioned.
 */
module Locks {
  predicate Unlocks(key: int) {
    key == 0
  }
}
