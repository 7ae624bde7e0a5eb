/**
 * Laws of a rule's natural order, equality and hash code, stated on rule
 * snapshots (`RuleValue`) and, where Java's `equals(Object)` contract speaks
 * of objects, on `Rule` objects.
 */
module RuleLaws {
  import opened JavaTypes
  import opened EasyRules

  /** The natural order read as "fires no later than". */
  predicate AtMost(a: RuleValue, b: RuleValue) {
    ComparePriorities(a, b) <= 0
  }

  ghost predicate IsTotalPreorder(le: (RuleValue, RuleValue) -> bool) {
    && (forall a :: le(a, a))
    && (forall a, b, c :: le(a, b) && le(b, c) ==> le(a, c))
    && (forall a, b :: le(a, b) || le(b, a))
  }

  ghost predicate IsEquivalence(eq: (RuleValue, RuleValue) -> bool) {
    && (forall a :: eq(a, a))
    && (forall a, b :: eq(a, b) ==> eq(b, a))
    && (forall a, b, c :: eq(a, b) && eq(b, c) ==> eq(a, c))
  }

  /**
   * Java's "consistent with equals" for a natural order: comparing as 0 is
   * the same as being equal.
   */
  ghost predicate ConsistentWithEquals() {
    forall a, b :: ComparePriorities(a, b) == 0 <==> SameName(a, b)
  }

  lemma CompareAntisymmetric(a: RuleValue, b: RuleValue)
    ensures ComparePriorities(a, b) == -ComparePriorities(b, a)
  {
  }

  lemma CompareTransitive(a: RuleValue, b: RuleValue, c: RuleValue)
    ensures ComparePriorities(a, b) <= 0 && ComparePriorities(b, c) <= 0 ==> ComparePriorities(a, c) <= 0
    ensures ComparePriorities(a, b) > 0 && ComparePriorities(b, c) > 0 ==> ComparePriorities(a, c) > 0
  {
  }

  /** Rules that compare as 0 compare alike against every third rule. */
  lemma CompareZeroSubstitutes(a: RuleValue, b: RuleValue, c: RuleValue)
    requires ComparePriorities(a, b) == 0
    ensures ComparePriorities(a, c) == ComparePriorities(b, c)
    ensures ComparePriorities(c, a) == ComparePriorities(c, b)
  {
  }

  /** The order is a total preorder: reflexive, transitive and total. */
  lemma AtMostIsTotalPreorder()
    ensures IsTotalPreorder(AtMost)
  {
  }

  /** Renaming or redescribing a rule never changes how it compares. */
  lemma CompareDependsOnPriorityOnly(a: RuleValue, b: RuleValue, name: string, description: string)
    ensures ComparePriorities(a.(name := name, description := description), b) == ComparePriorities(a, b)
    ensures ComparePriorities(b, a.(name := name, description := description)) == ComparePriorities(b, a)
  {
  }

  /** Equality of rules is an equivalence relation. */
  lemma SameNameIsEquivalence()
    ensures IsEquivalence(SameName)
  {
  }

  /** Redescribing or reprioritising a rule never changes what it equals. */
  lemma SameNameDependsOnNameOnly(a: RuleValue, b: RuleValue, description: string, priority: int32)
    ensures SameName(a.(description := description, priority := priority), b) == SameName(a, b)
    ensures SameName(b, a.(description := description, priority := priority)) == SameName(b, a)
  {
  }

  /** Equal rules have equal hash codes. */
  lemma HashConsistentWithSameName(a: RuleValue, b: RuleValue)
    requires SameName(a, b)
    ensures HashOf(a) == HashOf(b)
  {
  }

  /** Two rules of equal priority and different names compare as 0 yet are not equal. */
  lemma EqualPriorityDistinctNames(a: RuleValue, b: RuleValue)
    requires a.priority == b.priority && a.name != b.name
    ensures ComparePriorities(a, b) == 0 && !SameName(a, b)
  {
  }

  /** Hence the natural order of rules is not consistent with equals. */
  lemma OrderNotConsistentWithEquals()
    ensures !ConsistentWithEquals()
  {
    var a := RuleValue("a", "", 0);
    var b := RuleValue("b", "", 0);
    assert a.name[0] != b.name[0];
    EqualPriorityDistinctNames(a, b);
  }

  /** `equals` is reflexive on rule objects. */
  lemma EqualsReflexive(r: Rule)
    ensures r.Equals(r)
  {
  }

  /** `equals` is symmetric on rule objects, and false for every non-rule. */
  lemma EqualsSymmetric(r: Rule, o: object?)
    ensures r.Equals(o) ==> o is Rule && (o as Rule).Equals(r)
  {
  }

  /** `equals` implies equal `hashCode`. */
  lemma HashCodeConsistentWithEquals(r: Rule, o: object?)
    requires r.Equals(o)
    ensures o is Rule && r.HashCode() == (o as Rule).HashCode()
  {
  }

  /**
   * The hazard in objects: two freshly built rules of equal priority and
   * different names compare as 0 and are not equal.
   */
  method CompareZeroButNotEqual(priority: int32) returns (a: Rule, b: Rule)
    ensures a != b && a.GetPriority() == b.GetPriority() == priority
    ensures a.CompareTo(b) == 0 && !a.Equals(b)
  {
    a := new Rule("a", "", priority);
    b := new Rule("b", "", priority);
    assert a.GetName()[0] != b.GetName()[0];
  }
}
