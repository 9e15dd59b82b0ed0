/** Choosing an element of a set of integer keys, as a loop over a map's keys does. */
module Sets {

  /** A non-empty set of integer keys has an element to pick. */
  lemma NonEmptySet(keys: set<int>)
    requires keys != {}
    ensures exists k :: k in keys
  {
    if forall k :: k !in keys {
      assert false;
    }
  }
}
