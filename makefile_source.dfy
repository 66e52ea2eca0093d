/** The interface of the parsed Makefile the extractor reads from. Parsing,
    variable expansion and conditional evaluation belong to the make library
    underneath and are not modelled: a parsed Makefile is given as the
    variables it assigns itself and its include, ifdef and rule statements. */
module MakefileSource {
  import opened PyStr

  /** A variable the file assigns itself: its value, and whether every
      assignment of it sits inside a conditional block. */
  datatype VarDef = VarDef(value: string, conditional: bool)

  datatype IncludeStatement = IncludeStatement(path: string, line: nat, column: nat)

  /** An `ifdef`/`ifndef` statement: tested name, expected truth value,
      whether it is nested in another conditional, and where it stands. */
  datatype IfdefStatement = IfdefStatement(
    name: string, expected: bool, isConditional: bool,
    path: string, line: nat, column: nat)

  /** A guarding condition of a rule, carried as the text the make library
      renders it to (`condition_to_string`). */
  datatype Condition = Condition(text: string)

  datatype RuleStatement = RuleStatement(
    targets: seq<string>, prerequisites: seq<string>, commands: seq<string>,
    conditions: seq<Condition>)

  datatype MakefileData = MakefileData(
    variables: map<string, VarDef>,
    includes: seq<IncludeStatement>,
    ifdefs: seq<IfdefStatement>,
    rules: seq<RuleStatement>)

  /** `has_own_variable(name)`. */
  predicate HasOwnVariable(m: MakefileData, name: string) {
    name in m.variables
  }

  /** `get_variable_string(name)`; an undefined variable reads as empty. */
  function GetVariableString(m: MakefileData, name: string): string {
    if name in m.variables then m.variables[name].value else ""
  }

  /** `get_variable_split(name)`: the value split on whitespace. */
  function GetVariableSplit(m: MakefileData, name: string): (r: seq<string>)
    ensures !HasOwnVariable(m, name) ==> r == []
  {
    Split(GetVariableString(m, name))
  }

  /** `get_own_variable_names(include_conditionals)`. */
  function OwnVariableNames(m: MakefileData, includeConditionals: bool): (r: set<string>)
    ensures r <= m.variables.Keys
    ensures includeConditionals ==> r == m.variables.Keys
  {
    if includeConditionals then m.variables.Keys
    else set v | v in m.variables && !m.variables[v].conditional
  }

  /** `condition_to_string(c)` of the make library. */
  function ConditionToString(c: Condition): string {
    c.text
  }
}
