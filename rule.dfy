/**
 * The rule entity of easy-rules: a named, described, prioritised unit that a
 * rules engine fires. Equality and hashing look at the name only; the
 * natural order looks at the priority only, lower values first.
 */
module EasyRules {
  import opened JavaTypes
  import EasyRulesConstants

  /**
   * The three fields of a rule at one moment. Every read-only member of
   * `Rule` is a function of this snapshot, and the laws about them are
   * stated on it.
   */
  datatype RuleValue = RuleValue(name: string, description: string, priority: int32)

  /**
   * The natural order of rules: -1, 0 or 1 as the priority of `a` is below,
   * equal to or above that of `b`. Names and descriptions play no part.
   */
  function ComparePriorities(a: RuleValue, b: RuleValue): (c: int32)
    ensures c == -1 <==> a.priority < b.priority
    ensures c == 0 <==> a.priority == b.priority
    ensures c == 1 <==> a.priority > b.priority
  {
    if a.priority < b.priority then -1
    else if a.priority == b.priority then 0
    else 1
  }

  /** Equality of two rules of the same class: `String.equals` on the names. */
  predicate SameName(a: RuleValue, b: RuleValue) {
    a.name == b.name
  }

  /** The hash code of a rule: `String.hashCode` of its name. */
  function HashOf(a: RuleValue): (h: int32) {
    StringHash(a.name)
  }

  /** A rule. Its three fields are mutable and have no constraints. */
  class Rule {
    var name: string
    var description: string
    var priority: int32

    /** The current snapshot of the three fields. */
    function Value(): (v: RuleValue)
      reads this
    {
      RuleValue(name, description, priority)
    }

    /** `Rule()`: a rule holding the three defaults of EasyRulesConstants. */
    constructor Default()
      ensures GetName() == EasyRulesConstants.DefaultRuleName
      ensures GetDescription() == EasyRulesConstants.DefaultRuleDescription
      ensures GetPriority() == EasyRulesConstants.DefaultRulePriority
    {
      name := EasyRulesConstants.DefaultRuleName;
      description := EasyRulesConstants.DefaultRuleDescription;
      priority := EasyRulesConstants.DefaultRulePriority;
    }

    /** `Rule(name, description, priority)`: stores its arguments unchanged. */
    constructor (name: string, description: string, priority: int32)
      ensures GetName() == name
      ensures GetDescription() == description
      ensures GetPriority() == priority
    {
      this.name := name;
      this.description := description;
      this.priority := priority;
    }

    /**
     * The condition check of the base rule, meant to be overridden: a rule
     * that is not specialised never fires.
     */
    function EvaluateConditions(): (fires: bool)
      ensures !fires
    {
      false
    }

    /** The name that the constructors or `SetName` last stored. */
    function GetName(): (n: string)
      reads this
      ensures n == name
    {
      name
    }

    /** The description that the constructors or `SetDescription` last stored. */
    function GetDescription(): (d: string)
      reads this
      ensures d == description
    {
      description
    }

    /** The priority that the constructors or `SetPriority` last stored. */
    function GetPriority(): (p: int32)
      reads this
      ensures p == priority
    {
      priority
    }

    /** Replaces the name; description and priority stay as they were. */
    method SetName(name: string)
      modifies this`name
      ensures GetName() == name
      ensures GetDescription() == old(GetDescription())
      ensures GetPriority() == old(GetPriority())
    {
      this.name := name;
    }

    /** Replaces the description; name and priority stay as they were. */
    method SetDescription(description: string)
      modifies this`description
      ensures GetDescription() == description
      ensures GetName() == old(GetName())
      ensures GetPriority() == old(GetPriority())
    {
      this.description := description;
    }

    /** Replaces the priority; name and description stay as they were. */
    method SetPriority(priority: int32)
      modifies this`priority
      ensures GetPriority() == priority
      ensures GetName() == old(GetName())
      ensures GetDescription() == old(GetDescription())
    {
      this.priority := priority;
    }

    /**
     * `equals(Object)`: the object itself is equal; null and objects of any
     * other class are not; another rule is equal exactly when it has the
     * same name, whatever its description and priority.
     */
    function Equals(o: object?): (eq: bool)
      reads this, o
      ensures eq <==> o is Rule && (o as Rule).name == name
    {
      if this == o then true
      else if !(o is Rule) then false
      else SameName(Value(), (o as Rule).Value())
    }

    /** `hashCode()`: the hash of the name alone. */
    function HashCode(): (h: int32)
      reads this
      ensures h == StringHash(name)
    {
      HashOf(Value())
    }

    /**
     * `compareTo(Rule)`: -1, 0 or 1 as this rule's priority is below, equal
     * to or above that of `rule`.
     */
    function CompareTo(rule: Rule): (c: int32)
      reads this, rule
      ensures c == -1 <==> GetPriority() < rule.GetPriority()
      ensures c == 0 <==> GetPriority() == rule.GetPriority()
      ensures c == 1 <==> GetPriority() > rule.GetPriority()
    {
      ComparePriorities(Value(), rule.Value())
    }
  }
}
