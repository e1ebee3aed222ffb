/** The intent classifier `classify_intent` (router_profiles_enhanced.py,
    lines 152-161): lower-case the message, scan the registry in order and
    each entry's keywords in order, and return the tag of the first entry
    with a keyword that occurs in the lower-cased message; "general" when no
    keyword occurs. */
module Intent {
  import opened Text
  import opened Registry

  /** Some keyword of the list occurs in the (already lower-cased) text. */
  predicate HasKeyword(keywords: seq<string>, lowered: string) {
    exists j :: 0 <= j < |keywords| && Contains(lowered, keywords[j])
  }

  /** Registry entry `i` is the one the scan stops at: it has a matching
      keyword and no earlier entry has one. */
  predicate ChosenAt(cs: seq<ServiceConfig>, lowered: string, i: int) {
    && 0 <= i < |cs|
    && HasKeyword(cs[i].keywords, lowered)
    && forall j :: 0 <= j < i ==> !HasKeyword(cs[j].keywords, lowered)
  }

  /** The scan over a list of entries, as a recursive definition. */
  function FirstService(cs: seq<ServiceConfig>, lowered: string): string
    decreases |cs|
  {
    if |cs| == 0 then General
    else if HasKeyword(cs[0].keywords, lowered) then cs[0].tag
    else FirstService(cs[1..], lowered)
  }

  /** The scan returns the tag of the entry it stops at, or "general" when
      no entry has a matching keyword. */
  lemma {:induction false} FirstServiceChoice(cs: seq<ServiceConfig>, lowered: string)
    ensures forall i :: ChosenAt(cs, lowered, i) ==> FirstService(cs, lowered) == cs[i].tag
    ensures (forall i :: 0 <= i < |cs| ==> !HasKeyword(cs[i].keywords, lowered))
              ==> FirstService(cs, lowered) == General
    decreases |cs|
  {
    if |cs| > 0 {
      FirstServiceChoice(cs[1..], lowered);
      forall i | ChosenAt(cs, lowered, i) && i > 0
        ensures ChosenAt(cs[1..], lowered, i - 1)
      {
        forall j | 0 <= j < i - 1 ensures !HasKeyword(cs[1..][j].keywords, lowered) {
          assert cs[1..][j] == cs[j + 1];
        }
      }
      if forall i :: 0 <= i < |cs| ==> !HasKeyword(cs[i].keywords, lowered) {
        forall i | 0 <= i < |cs| - 1 ensures !HasKeyword(cs[1..][i].keywords, lowered) {
          assert cs[1..][i] == cs[i + 1];
        }
      }
    }
  }

  /** `classify_intent(message)`. */
  function Classify(message: string): string {
    FirstService(Services(), Lower(message))
  }

  /** Service `s` has a keyword occurring in the lower-cased message. */
  predicate Mentions(message: string, s: ServiceConfig) {
    HasKeyword(s.keywords, Lower(message))
  }

  /** The classifier is total over the four tags and picks by registry
      order: it returns a registered tag exactly when that entry mentions the
      message and no earlier entry does, and "general" exactly when no entry
      mentions it. */
  lemma ClassifySpec(message: string)
    ensures Classify(message) == General || IsRegistered(Classify(message))
    ensures (Classify(message) == General)
        <==> (forall i :: 0 <= i < |Services()| ==> !Mentions(message, Services()[i]))
    ensures forall i :: 0 <= i < |Services()| ==>
              (Classify(message) == Services()[i].tag <==> ChosenAt(Services(), Lower(message), i))
  {
    var cs, lowered := Services(), Lower(message);
    FirstServiceChoice(cs, lowered);
    RegistryShape();
    if exists i :: 0 <= i < |cs| && HasKeyword(cs[i].keywords, lowered) {
      if HasKeyword(cs[0].keywords, lowered) {
        assert ChosenAt(cs, lowered, 0);
      } else if HasKeyword(cs[1].keywords, lowered) {
        assert ChosenAt(cs, lowered, 1);
      } else {
        assert ChosenAt(cs, lowered, 2);
      }
    }
  }

  /** Keyword tie-break: a message mentioning Domino's is routed to
      "dominos" whatever else it mentions. */
  lemma DominosWinsTies(message: string)
    requires Mentions(message, Dominos)
    ensures Classify(message) == "dominos"
  {
  }

  /** A message mentioning OpenTable but not Domino's is routed to
      "opentable", whatever it says about Uber. */
  lemma OpenTableBeforeUber(message: string)
    requires Mentions(message, OpenTable) && !Mentions(message, Dominos)
    ensures Classify(message) == "opentable"
  {
  }

  /** Classification ignores ASCII case: a message and its lower-cased form
      are classified alike. */
  lemma ClassifyIgnoresCase(message: string)
    ensures Classify(Lower(message)) == Classify(message)
  {
    assert Lower(Lower(message)) == Lower(message);
  }

  /** "I want a pizza and a reservation" names a Domino's keyword and an
      OpenTable keyword; the earlier service wins. */
  lemma PizzaAndReservation()
    ensures Classify("I want a Pizza and a reservation") == "dominos"
  {
    var m := "I want a Pizza and a reservation";
    var lowered := Lower(m);
    assert m[9] == 'P' && m[10] == 'i' && m[11] == 'z' && m[12] == 'z' && m[13] == 'a';
    assert lowered[9..14] == [LowerChar('P'), 'i', 'z', 'z', 'a'] == "pizza";
    OccursContains(lowered, "pizza", 9);
    assert Dominos.keywords[0] == "pizza";
    DominosWinsTies(m);
  }

  /** The classifier as the source runs it: lower-case, then scan the
      registry. */
  method ClassifyIntent(message: string) returns (tag: string)
    ensures tag == Classify(message)
    ensures tag == General || IsRegistered(tag)
  {
    ClassifySpec(message);
    tag := Scan(Services(), Lower(message));
  }

  /** The scan as two nested loops with an early return, proved to compute
      `FirstService`. */
  method Scan(cs: seq<ServiceConfig>, lowered: string) returns (tag: string)
    ensures tag == FirstService(cs, lowered)
  {
    FirstServiceChoice(cs, lowered);
    var i := 0;
    while i < |cs|
      invariant 0 <= i <= |cs|
      invariant forall j :: 0 <= j < i ==> !HasKeyword(cs[j].keywords, lowered)
    {
      var keywords := cs[i].keywords;
      var k := 0;
      while k < |keywords|
        invariant 0 <= k <= |keywords|
        invariant forall j :: 0 <= j < k ==> !Contains(lowered, keywords[j])
      {
        if Contains(lowered, keywords[k]) {
          assert ChosenAt(cs, lowered, i);
          return cs[i].tag;
        }
        k := k + 1;
      }
      i := i + 1;
    }
    return General;
  }
}
