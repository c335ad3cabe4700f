/**
 * The keyword tables of the <edit-config> options (section 7.2 of RFC 6241):
 * the default operation, the test option and the error option. Each table is
 * indexed by the option's enumeration value; index 0 means "not given" and
 * has no keyword.
 */
module EditOptions {
  import opened Resources

  /** NC_RPC_EDIT_DFLTOP, NC_RPC_EDIT_TESTOPT and NC_RPC_EDIT_ERROPT: 0 is "not given", 1 to 3 the protocol values. */
  type EditOption = x: int | 0 <= x < 4

  /** rpcedit_dfltop2str */
  function DefaultOpName(op: EditOption): (name: Option<string>)
    ensures name.None? <==> op == 0
    ensures name.Some? ==> name.value in {"merge", "replace", "none"}
  {
    [None, Some("merge"), Some("replace"), Some("none")][op]
  }

  /** rpcedit_testopt2str */
  function TestOptName(opt: EditOption): (name: Option<string>)
    ensures name.None? <==> opt == 0
    ensures name.Some? ==> name.value in {"test-then-set", "set", "test-only"}
  {
    [None, Some("test-then-set"), Some("set"), Some("test-only")][opt]
  }

  /** rpcedit_erropt2str */
  function ErrorOptName(opt: EditOption): (name: Option<string>)
    ensures name.None? <==> opt == 0
    ensures name.Some? ==> name.value in {"stop-on-error", "continue-on-error", "rollback-on-error"}
  {
    [None, Some("stop-on-error"), Some("continue-on-error"), Some("rollback-on-error")][opt]
  }

  /** Each table names each of its options differently, so the keyword determines the option. */
  lemma EditOptionNamesDistinct(a: EditOption, b: EditOption)
    requires a != b
    ensures DefaultOpName(a) != DefaultOpName(b)
    ensures TestOptName(a) != TestOptName(b)
    ensures ErrorOptName(a) != ErrorOptName(b)
  {
  }
}
