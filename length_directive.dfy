/**
 * The `@length(min, max)` gate: every top-level string argument of the field
 * must be at least `min` and at most `max` characters long; a bound the
 * directive leaves out imposes nothing, and arguments that are not strings
 * (numbers, lists, nested input objects) are not looked at.
 */
module LengthDirective {
  import opened Wrappers
  import opened GraphQLErrors
  import Seqs

  /** A GraphQL argument value as the resolver receives it. */
  datatype ArgValue =
    | StringValue(text: string)
    | NumberValue(number: int)
    | BoolValue(flag: bool)
    | NullValue
    | ListValue(elements: seq<ArgValue>)
    | ObjectValue(fields: seq<(string, ArgValue)>)

  /** `Object.entries(args)`: argument names and values, in order. */
  type Args = seq<(string, ArgValue)>

  /** The directive's `min` and `max`, each possibly absent. */
  datatype Bounds = Bounds(min: Option<int>, max: Option<int>)

  predicate WithinBounds(length: int, b: Bounds) {
    (b.min.None? || length >= b.min.value) && (b.max.None? || length <= b.max.value)
  }

  /** The error for one argument: the lower bound is checked first. */
  function ArgumentError(name: string, value: ArgValue, b: Bounds): (e: Option<GraphQLError>)
    ensures e.None? <==> !value.StringValue? || WithinBounds(|value.text|, b)
    ensures e.Some? ==> Code(e.value) == Some("BAD_USER_INPUT") && e.value.argumentName == name
  {
    if !value.StringValue? then None
    else if b.min.Some? && |value.text| < b.min.value then Some(BadUserInput(name, Min, b.min.value))
    else if b.max.Some? && |value.text| > b.max.value then Some(BadUserInput(name, Max, b.max.value))
    else None
  }

  /** Argument `i` is the first one that breaks a bound. */
  ghost predicate IsFirstViolation(args: Args, b: Bounds, i: int) {
    0 <= i < |args| && ArgumentError(args[i].0, args[i].1, b).Some? &&
    forall j | 0 <= j < i :: ArgumentError(args[j].0, args[j].1, b).None?
  }

  /** The wrapper's loop: the error it throws, or `None` when it calls the resolver. */
  function FirstViolation(args: Args, b: Bounds): (e: Option<GraphQLError>)
    ensures e.None? <==>
      forall i | 0 <= i < |args| :: args[i].1.StringValue? ==> WithinBounds(|args[i].1.text|, b)
    ensures e.Some? ==> exists i :: IsFirstViolation(args, b, i) && e == ArgumentError(args[i].0, args[i].1, b)
  {
    if args == [] then None
    else
      var here := ArgumentError(args[0].0, args[0].1, b);
      if here.Some? then
        assert IsFirstViolation(args, b, 0);
        here
      else
        var rest := FirstViolation(args[1..], b);
        if rest.Some? then
          assert exists i :: IsFirstViolation(args, b, i) && rest == ArgumentError(args[i].0, args[i].1, b) by {
            var i :| IsFirstViolation(args[1..], b, i) && rest == ArgumentError(args[1..][i].0, args[1..][i].1, b);
            assert args[i + 1] == args[1..][i];
            assert forall j | 0 < j <= i :: args[j] == args[1..][j - 1];
            assert IsFirstViolation(args, b, i + 1);
          }
          rest
        else
          assert forall i | 0 < i < |args| :: args[i] == args[1..][i - 1];
          None
  }

  /** The first violation is unique, so the error names that argument and,
      when both bounds fail for it, the lower one. */
  lemma FirstViolationNamesArgument(args: Args, b: Bounds, i: int)
    requires IsFirstViolation(args, b, i)
    ensures FirstViolation(args, b) == ArgumentError(args[i].0, args[i].1, b)
    ensures FirstViolation(args, b).value.argumentName == args[i].0
    ensures b.min.Some? && |args[i].1.text| < b.min.value ==> FirstViolation(args, b).value.constraint == Min
  {
    assert args[i].1.StringValue? && !WithinBounds(|args[i].1.text|, b);
    assert FirstViolation(args, b).Some?;
    var k :| IsFirstViolation(args, b, k) && FirstViolation(args, b) == ArgumentError(args[k].0, args[k].1, b);
  }

  predicate IsStringEntry(entry: (string, ArgValue)) {
    entry.1.StringValue?
  }

  /** Only the string-valued arguments matter: dropping every other argument
      changes nothing. */
  lemma {:induction false} OnlyStringsChecked(args: Args, b: Bounds)
    ensures FirstViolation(args, b) == FirstViolation(Seqs.Filter(IsStringEntry, args), b)
  {
    if args != [] {
      OnlyStringsChecked(args[1..], b);
    }
  }

  /** Equal lengths pass; an absent bound never rejects. */
  lemma BoundsInclusive(name: string, text: string, b: Bounds)
    ensures b.min == Some(|text|) && (b.max.None? || b.max.value >= |text|) ==>
      ArgumentError(name, StringValue(text), b).None?
    ensures b.max == Some(|text|) && (b.min.None? || b.min.value <= |text|) ==>
      ArgumentError(name, StringValue(text), b).None?
    ensures ArgumentError(name, StringValue(text), Bounds(None, None)).None?
  {
  }
}
