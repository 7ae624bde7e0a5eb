/**
 * The defaults that the no-argument constructor of a rule reads from
 * `net.benas.easyrules.util.EasyRulesConstants`. That class is not part of
 * this model, so the three values are left unspecified: a default rule is
 * proved to carry exactly these values, whatever they are.
 */
module EasyRulesConstants {
  import opened JavaTypes

  const DefaultRuleName: string
  const DefaultRuleDescription: string
  const DefaultRulePriority: int32
}
