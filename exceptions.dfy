/**
 * Errors of the front end. In the source every lexical, syntax and semantic
 * error is a `SyntaxError(message, line)` whose text is "<message> on line <line>";
 * here the message is an `ErrorKind`. Java runtime failures that the source
 * does not catch (a null dereference, an index out of range, an illegal
 * argument) are distinct failures, because they carry no line.
 */
module Exceptions {

  /** One kind per distinct message the source raises. */
  datatype ErrorKind =
    // lexer
    | InvalidCharacter            // "Invalid character '<c>' after '<word>'"
    | InvalidSyntax               // "Unable to get next token because of invalid syntax at '<c>'"
    | InvalidNumericExpression    // "Invalid numeric expression after '<partial>'"
    // expression parser
    | InvalidId                   // "Invalid ID '<id>'"
    | MissingRParen               // "Missing ')'"
    | ExpectedExprAfterPrefix     // "Expected an expression following the prefix operator"
    | ExpectedOperandAfter        // "Expected an operand after '<op>'"
    | MissingSemicolon            // "Missing ';'"
    | UnexpectedRParen            // "Unexpected ')'"
    | ExpectedInfixOperator       // "Expected an infix operator after '<tok>'"
    | MissingOperandBefore        // "Missing an operand before the operator '<op>'"
    | ExpectedVariableBeforeAssign // "Expected a variable before '='"
    | InvalidVariable             // "Invalid variable '<id>'"
    | IsConstant                  // "'<id>' is a constant"
    | NotCompatible               // "Operator '<op>' is not compatible with type ..."
    // declaration parser
    | ExpectedVariableName        // "Expected a variable name"
    | ExpectedType                // "Expected a type after ':'"
    | CannotRedeclare             // "Cannot redeclare a variable or a constant"
    | CannotDetermineType         // "Cannot determine the type of '<id>'"
    | ExpectedNonemptyExpr        // "Expected a nonempty expression after '='"
    | CannotDetermineLhsType      // "Cannot determine the type for the left-hand side"
    | TypeMismatch                // "Unable to assign a variable of type '<t1>' to data of type '<t2>'"
    | NoTypeOnRhs                 // "No type detected on the right-hand side"
    // block parser
    | MissingRBrace               // "Missing '}'"

  datatype Error =
    | SyntaxError(kind: ErrorKind, line: int)
    | NullPointer        // a Java NullPointerException (null dereference or null unboxing)
    | IndexOutOfBounds   // a Java IndexOutOfBoundsException
    | IllegalArgument    // a Java IllegalArgumentException
    | ClassCast          // a Java ClassCastException

  datatype Result<+T> = Ok(value: T) | Err(error: Error) {

    predicate IsFailure() {
      Err?
    }

    function PropagateFailure<U>(): Result<U>
      requires Err?
    {
      Err(error)
    }

    function Extract(): T
      requires Ok?
    {
      value
    }
  }

  /** Decimal digits of a non-negative number, as Java's `String.valueOf` writes them. */
  function NatToString(n: nat): (s: string)
    ensures |s| > 0
    ensures forall i | 0 <= i < |s| :: '0' <= s[i] <= '9'
  {
    var d := ['0', '1', '2', '3', '4', '5', '6', '7', '8', '9'][n % 10];
    if n < 10 then [d] else NatToString(n / 10) + [d]
  }

  /** The value of a string of decimal digits, read left to right. */
  function DecimalValue(s: string): (n: nat)
    requires forall i | 0 <= i < |s| :: '0' <= s[i] <= '9'
    ensures |s| > 0 && s[0] != '0' ==> n > 0
    decreases |s|
  {
    if s == [] then 0
    else
      var prefix := s[..|s| - 1];
      var n := DecimalValue(prefix) * 10 + (s[|s| - 1] as int - '0' as int);
      assert |prefix| > 0 && prefix[0] != '0' ==> DecimalValue(prefix) > 0;
      n
  }

  /** Digits as Java writes a number: at least one, and no leading zero unless the number is 0. */
  predicate IsCanonicalDecimal(s: string) {
    |s| > 0 && (forall i | 0 <= i < |s| :: '0' <= s[i] <= '9') && (s[0] == '0' ==> |s| == 1)
  }

  /** Reading back the digits of a number gives the number. */
  lemma {:induction false} DecimalValueOfNatToString(n: nat)
    ensures DecimalValue(NatToString(n)) == n
  {
    var s := NatToString(n);
    if n >= 10 {
      DecimalValueOfNatToString(n / 10);
      assert s[..|s| - 1] == NatToString(n / 10);
    }
  }

  /** A number's digits have no leading zero, except the single digit of 0. */
  lemma {:induction false} NatToStringCanonical(n: nat)
    ensures IsCanonicalDecimal(NatToString(n))
    ensures n > 0 ==> NatToString(n)[0] != '0'
  {
    if n >= 10 {
      NatToStringCanonical(n / 10);
      assert NatToString(n)[0] == NatToString(n / 10)[0];
    }
  }

  /** Java's decimal text of an int: a '-' before the digits of a negative number. */
  function IntToString(n: int): string {
    if n < 0 then "-" + NatToString(-n) else NatToString(n)
  }

  /** What an int's text says: canonical digits of its magnitude, after a '-' when it is negative. */
  predicate WritesInt(digits: string, n: int) {
    if n >= 0 then IsCanonicalDecimal(digits) && DecimalValue(digits) == n
    else |digits| > 1 && digits[0] == '-' && IsCanonicalDecimal(digits[1..]) && DecimalValue(digits[1..]) == -n
  }

  /** An int's text reads back as that int. */
  lemma IntToStringWrites(n: int)
    ensures WritesInt(IntToString(n), n)
  {
    var m := if n < 0 then -n else n;
    DecimalValueOfNatToString(m);
    NatToStringCanonical(m);
    if n < 0 {
      assert IntToString(n)[1..] == NatToString(m);
    }
  }

  /**
   * The text of a syntax error as `SyntaxError`'s constructor builds it:
   * "<message> on line <line>", the line written in canonical decimal, with a
   * '-' before a negative one.
   */
  function Rendered(message: string, line: int): (text: string)
    ensures |text| > |message| + |" on line "|
    ensures text[..|message|] == message
    ensures text[|message|..|message| + |" on line "|] == " on line "
    ensures WritesInt(text[|message| + |" on line "|..], line)
  {
    IntToStringWrites(line);
    var text := message + " on line " + IntToString(line);
    assert text[|message| + |" on line "|..] == IntToString(line);
    text
  }
}
