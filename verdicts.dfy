/** The verdict vocabulary shared by the rule-based scorer and the AI adapter. */
module Verdicts {
  /** `'TRUE'`, `'FALSE'` and, from the AI adapter only, `'UNCERTAIN'`. */
  datatype Verdict = TRUE | FALSE | UNCERTAIN
}
