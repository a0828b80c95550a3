/**
 * Fully-qualified Matrix user identifiers, `@localpart:server`, as built by
 * `userutil.MakeUserID` following the "User Identifiers" part of the
 * Identifier Grammar appendix of the Matrix specification.
 */
module UserId {

  /** A localpart never contains the ':' that separates it from the server name. */
  predicate ValidLocalpart(localpart: string) {
    forall i | 0 <= i < |localpart| :: localpart[i] != ':'
  }

  /** The user identifier `@localpart:server`. */
  function MakeUserID(localpart: string, server: string): (id: string)
    ensures |id| == |localpart| + |server| + 2
    ensures id[0] == '@' && id[|localpart| + 1] == ':'
    ensures id[1..|localpart| + 1] == localpart
    ensures id[|localpart| + 2..] == server
  {
    "@" + localpart + ":" + server
  }

  /** The index of the first ':' in `id` at or after `from`, or `|id|` if there is none. */
  function ColonFrom(id: string, from: nat): (k: nat)
    requires from <= |id|
    ensures from <= k <= |id|
    ensures k < |id| ==> id[k] == ':'
    ensures forall j | from <= j < k :: id[j] != ':'
    decreases |id| - from
  {
    if from == |id| || id[from] == ':' then from else ColonFrom(id, from + 1)
  }

  /** Reads a user identifier back into its localpart and server name. */
  function SplitUserID(id: string): (parts: (string, string))
    requires |id| > 0
  {
    var k := ColonFrom(id, 1);
    (id[1..k], if k < |id| then id[k + 1..] else "")
  }

  /** Splitting a user identifier built from a valid localpart gives back its two parts. */
  lemma SplitMakeUserID(localpart: string, server: string)
    requires ValidLocalpart(localpart)
    ensures SplitUserID(MakeUserID(localpart, server)) == (localpart, server)
  {
  }

  /**
   * A user identifier names exactly one (localpart, server) pair when the
   * localparts are valid: two accounts never share a user identifier.
   */
  lemma MakeUserIDInjective(l1: string, s1: string, l2: string, s2: string)
    requires ValidLocalpart(l1) && ValidLocalpart(l2)
    requires MakeUserID(l1, s1) == MakeUserID(l2, s2)
    ensures l1 == l2 && s1 == s2
  {
    SplitMakeUserID(l1, s1);
    SplitMakeUserID(l2, s2);
  }
}
