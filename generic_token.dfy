/**
 * The generic-token recognizer: the fast path that accepts a string as a bare token,
 * without the expression grammar, when every one of its positions is a token character.
 *
 * Which characters are token characters is decided by a table outside this core; the
 * recognizer takes that decision as the parameter `isTokenChar`, asked about a whole
 * string and one of its indices, and only ever about indices below the string's length.
 */
module GenericTokens {
  import opened Wrappers
  import EvaluationObjects

  /** A recognized generic token; it wraps the recognized string as its value. */
  datatype GenericTokenExpression = GenericTokenExpression(value: string)

  /** The execution context of a standard expression; the token ignores it. */
  datatype ExecutionContext = ExecutionContext(id: nat)

  /** Every position of `s` holds a token character. */
  predicate AllTokenChars(s: string, isTokenChar: (string, nat) -> bool)
  {
    forall i :: 0 <= i < |s| ==> isTokenChar(s, i)
  }

  /**
   * parseGenericToken: null for a null input; otherwise scans the input once, left to
   * right, and gives up (null) at the first index that is not a token character.
   * A token is returned only when the whole input passed, and it wraps the input as is.
   * The ghost `stoppedAfter` is one past the index the scan stopped at: the whole
   * length when every index passed, the first failing index plus one otherwise.
   */
  method ParseGenericToken(input: Option<string>, isTokenChar: (string, nat) -> bool)
    returns (r: Option<GenericTokenExpression>, ghost stoppedAfter: nat)
    ensures input.None? ==> r.None? && stoppedAfter == 0
    ensures input.Some? ==> (r.Some? <==> AllTokenChars(input.value, isTokenChar))
    ensures r.Some? ==> r.value == GenericTokenExpression(input.value)
    ensures r.Some? ==> stoppedAfter == |input.value|
    ensures input.Some? && r.None? ==>
      && 0 < stoppedAfter <= |input.value|
      && !isTokenChar(input.value, stoppedAfter - 1)
      && forall j :: 0 <= j < stoppedAfter - 1 ==> isTokenChar(input.value, j)
  {
    if input.None? {
      return None, 0;
    }
    var s := input.value;
    var inputLen := |s|;
    for i := 0 to inputLen
      invariant forall j :: 0 <= j < i ==> isTokenChar(s, j)
    {
      if !isTokenChar(s, i) {
        return None, i + 1;
      }
    }
    return Some(GenericTokenExpression(s)), inputLen;
  }

  /**
   * executeGenericToken: evaluating a generic token yields the string it wraps. The
   * processing context, the execution context and the conversion service are unused.
   */
  function ExecuteGenericToken(
    processingContext: EvaluationObjects.ProcessingContext, expression: GenericTokenExpression,
    expContext: ExecutionContext, conversionService: Option<EvaluationObjects.ConversionService>): string
  {
    expression.value
  }

  /** Execution returns the token's value whatever else it is given. */
  lemma ExecuteIgnoresContext(
    expression: GenericTokenExpression,
    processingContext1: EvaluationObjects.ProcessingContext, expContext1: ExecutionContext,
    conversionService1: Option<EvaluationObjects.ConversionService>,
    processingContext2: EvaluationObjects.ProcessingContext, expContext2: ExecutionContext,
    conversionService2: Option<EvaluationObjects.ConversionService>)
    ensures ExecuteGenericToken(processingContext1, expression, expContext1, conversionService1) == expression.value
    ensures ExecuteGenericToken(processingContext1, expression, expContext1, conversionService1)
         == ExecuteGenericToken(processingContext2, expression, expContext2, conversionService2)
  {
  }

  /** The empty string is a token whatever the character table: the scan never starts. */
  lemma EmptyInputIsToken(isTokenChar: (string, nat) -> bool)
    ensures AllTokenChars("", isTokenChar)
  {
  }

  /** One index that is not a token character is enough to reject the whole input. */
  lemma OneBadIndexRejects(s: string, isTokenChar: (string, nat) -> bool, i: nat)
    requires i < |s| && !isTokenChar(s, i)
    ensures !AllTokenChars(s, isTokenChar)
  {
  }

  /**
   * Parsing then executing gives back the input: a recognized token evaluates to the
   * very string that was recognized.
   */
  method ParseThenExecute(
    input: string, isTokenChar: (string, nat) -> bool,
    processingContext: EvaluationObjects.ProcessingContext, expContext: ExecutionContext,
    conversionService: Option<EvaluationObjects.ConversionService>)
    returns (result: Option<string>)
    ensures result.Some? <==> AllTokenChars(input, isTokenChar)
    ensures result.Some? ==> result.value == input
  {
    var token, _ := ParseGenericToken(Some(input), isTokenChar);
    if token.None? {
      return None;
    }
    return Some(ExecuteGenericToken(processingContext, token.value, expContext, conversionService));
  }
}
