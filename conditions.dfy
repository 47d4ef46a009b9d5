/** The runtime values and query conditions that ConditionalRange and
  * DataService build: a boundary or key value is a .NET object, a condition
  * names a member, an operator and a value, and a ConditionCollection joins
  * conditions with AND or OR. */
module Conditions {
  import opened Text

  /** The objects the modelled code distinguishes: null, DBNull.Value, a
    * string, a non-string enumerable (an array or a list) and a number. */
  datatype Value = Null | DBNull | Str(s: string) | Items(elems: seq<Value>) | Number(n: int)

  /** Object.ToString() of a value; an object array prints its type name. */
  function Display(v: Value): string {
    match v
    case Null => ""
    case DBNull => ""
    case Str(s) => s
    case Items(_) => "System.Object[]"
    case Number(n) => IntToString(n)
  }

  /** The ConditionOperator members the modelled code uses. */
  datatype Operator = Equal | GreaterThanEqual | LessThanEqual | Between

  datatype Combination = And | Or

  /** A Condition (member name, value, operator) or a ConditionCollection. */
  datatype ICondition =
    | Cond(name: string, value: Value, op: Operator)
    | Collection(combination: Combination, members: seq<ICondition>)
}
