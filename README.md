# easy-rules: the Rule entity

A Dafny model of `net.benas.easyrules.core.Rule`, the base class of every
rule in easy-rules. A rule has a name, a description and a Java `int`
priority. Its constructors and setters update those three fields in place.
Its condition check returns false unless a subclass overrides it. Its
`equals` and `hashCode` look at the name only. Its natural order
(`compareTo`) looks at the priority only, and lower values come first.

Layout:

- `java_types.dfy`, module `JavaTypes`: Java's 32-bit `int` as the newtype `int32`, and
  `String.hashCode` as the unspecified function `StringHash`.
- `constants.dfy`, module `EasyRulesConstants`: the three defaults of the no-argument
  constructor, as unspecified constants.
- `rule.dfy`, module `EasyRules`: the snapshot `RuleValue` of a rule's three fields,
  the natural order `ComparePriorities` on snapshots, and the class `Rule`. Its getters
  are plain reads of the fields; the constructor and setter contracts are stated through them.
- `laws.dfy`, module `RuleLaws`: the laws of the order, of equality and of hashing,
  and the known hazard that the order is not consistent with equals.

## Model

| member | source | states |
|---|---|---|
| EasyRules.ComparePriorities | easyrules-core/src/main/java/net/benas/easyrules/core/Rule.java:126-134 | the result is -1 exactly when the first priority is lower, 0 exactly when the priorities are equal, 1 exactly when it is higher, so it is never anything else |
| EasyRules.Rule.CompareTo | easyrules-core/src/main/java/net/benas/easyrules/core/Rule.java:126-134 | on rule objects: -1, 0 or 1 exactly as this rule's priority is below, equal to or above the argument's |
| EasyRules.Rule.Equals | easyrules-core/src/main/java/net/benas/easyrules/core/Rule.java:110-118 | true exactly when the argument is a non-null Rule with the same name; the reference short-circuit, the null case and the class check agree with that |
| EasyRules.Rule.EvaluateConditions | easyrules-core/src/main/java/net/benas/easyrules/core/Rule.java:73-75 | the base rule never fires |
| EasyRules.Rule.Default | easyrules-core/src/main/java/net/benas/easyrules/core/Rule.java:57-61 | the no-argument constructor leaves the three default constants in name, description and priority |
| EasyRules.Rule.constructor | easyrules-core/src/main/java/net/benas/easyrules/core/Rule.java:63-67 | the three-argument constructor stores its arguments unchanged, as the getters then show |
| EasyRules.Rule.GetName | easyrules-core/src/main/java/net/benas/easyrules/core/Rule.java:85-87 | returns the name that the constructors or setName last stored, without changing the rule |
| EasyRules.Rule.GetDescription | easyrules-core/src/main/java/net/benas/easyrules/core/Rule.java:89-91 | returns the description that the constructors or setDescription last stored, without changing the rule |
| EasyRules.Rule.GetPriority | easyrules-core/src/main/java/net/benas/easyrules/core/Rule.java:93-95 | returns the priority that the constructors or setPriority last stored, without changing the rule |
| EasyRules.Rule.HashCode | easyrules-core/src/main/java/net/benas/easyrules/core/Rule.java:121-123 | the hash code is String.hashCode of the name and depends on the name alone; RuleLaws.HashCodeConsistentWithEquals proves that equal rules hash alike |
| EasyRules.Rule.SetName | easyrules-core/src/main/java/net/benas/easyrules/core/Rule.java:97-99 | getName then returns the new name; description and priority are unchanged |
| EasyRules.Rule.SetDescription | easyrules-core/src/main/java/net/benas/easyrules/core/Rule.java:101-103 | getDescription then returns the new description; name and priority are unchanged |
| EasyRules.Rule.SetPriority | easyrules-core/src/main/java/net/benas/easyrules/core/Rule.java:105-107 | getPriority then returns the new priority; name and description are unchanged |
| RuleLaws.CompareAntisymmetric | easyrules-core/src/main/java/net/benas/easyrules/core/Rule.java:126-134 | a.compareTo(b) == -b.compareTo(a) for all rules |
| RuleLaws.CompareTransitive | easyrules-core/src/main/java/net/benas/easyrules/core/Rule.java:126-134 | "no later than" and "strictly later than" are both transitive |
| RuleLaws.CompareZeroSubstitutes | easyrules-core/src/main/java/net/benas/easyrules/core/Rule.java:126-134 | two rules that compare as 0 compare the same way against every third rule |
| RuleLaws.AtMostIsTotalPreorder | easyrules-core/src/main/java/net/benas/easyrules/core/Rule.java:126-134 | "compares at most 0" is reflexive, transitive and total on rules |
| RuleLaws.CompareDependsOnPriorityOnly | easyrules-core/src/main/java/net/benas/easyrules/core/Rule.java:127-129 | changing name or description never changes a comparison, on either side |
| RuleLaws.SameNameIsEquivalence | easyrules-core/src/main/java/net/benas/easyrules/core/Rule.java:116 | equality of rules is reflexive, symmetric and transitive |
| RuleLaws.SameNameDependsOnNameOnly | easyrules-core/src/main/java/net/benas/easyrules/core/Rule.java:116 | changing description or priority never changes equality |
| RuleLaws.HashConsistentWithSameName | easyrules-core/src/main/java/net/benas/easyrules/core/Rule.java:121-123 | rules with equal names have equal hash codes |
| RuleLaws.EqualPriorityDistinctNames | easyrules-core/src/main/java/net/benas/easyrules/core/Rule.java:116-130 | equal priorities with different names give compareTo == 0 and equals == false |
| RuleLaws.OrderNotConsistentWithEquals | easyrules-core/src/main/java/net/benas/easyrules/core/Rule.java:110-134 | there are rules that compare as 0 without being equal, so the natural order is not consistent with equals |
| RuleLaws.EqualsReflexive | easyrules-core/src/main/java/net/benas/easyrules/core/Rule.java:110-111 | every rule object equals itself |
| RuleLaws.EqualsSymmetric | easyrules-core/src/main/java/net/benas/easyrules/core/Rule.java:110-117 | if a rule equals an object, that object is a Rule and equals the rule back |
| RuleLaws.HashCodeConsistentWithEquals | easyrules-core/src/main/java/net/benas/easyrules/core/Rule.java:110-123 | equal rule objects have equal hashCode |
| RuleLaws.CompareZeroButNotEqual | easyrules-core/src/main/java/net/benas/easyrules/core/Rule.java:63-134 | two distinct rules built with the same priority and different names compare as 0 and are not equal |

## Left out

- `performActions` (easyrules-core/src/main/java/net/benas/easyrules/core/Rule.java:81-83): the base version does nothing, and what an override throws is not part of the base class.
- Subclasses: overrides of `evaluateConditions`, `performActions` and `compareTo` are not in this source. Dafny classes cannot be extended, so the `getClass()` test in `equals` becomes a test for being a `Rule`.
- Null fields: a Java rule may hold a null name; the model's strings are never null. With a null name, `equals` still holds for the rule itself and is still false for a null argument or one of another class (easyrules-core/src/main/java/net/benas/easyrules/core/Rule.java:111-112), and a null argument name makes `name.equals` false (easyrules-core/src/main/java/net/benas/easyrules/core/Rule.java:116); only a rule whose own name is null, compared with a different rule, throws in `equals`, and `hashCode` throws whenever the name is null (easyrules-core/src/main/java/net/benas/easyrules/core/Rule.java:122).
- EasyRules.Rule.CompareTo: takes a non-null `Rule`; `compareTo(null)` throws a NullPointerException at `rule.getPriority()` (easyrules-core/src/main/java/net/benas/easyrules/core/Rule.java:127), and that error path is not modelled.
- The values in `EasyRulesConstants`: that class is not part of this model, so the three defaults are unspecified constants.
- `String.hashCode`: Java library behaviour, modelled as an unspecified function of the string.
- The rules engine and its registry: they are not in this source. The uniqueness of names that they require is not enforced by a rule.
- Concurrency: a rule is not synchronised, and the model has no threads.
