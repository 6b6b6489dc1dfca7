/** The domain's bad-request exception: the HTTP status it reports and the two
    formatters that turn an ordered list of error descriptions into the single
    message the exception carries, one "- <description>" line per error. */
module BadRequest {

  /** HttpStatusCode.BadRequest. */
  const BadRequestStatus: int := 400

  /** The terminator StringBuilder.AppendLine writes. Environment.NewLine depends on
      the platform; the model fixes it to a single line feed. */
  const LineFeed: char := '\n'
  const NewLine: string := [LineFeed]

  /** The prefix each formatted line starts with. */
  const Bullet: string := "- "

  /** One error of an Identity operation result, reduced to its description. */
  datatype IdentityError = IdentityError(description: string)
  datatype IdentityResult = IdentityResult(errors: seq<IdentityError>)

  /** One failure of a FluentValidation result, reduced to its message. */
  datatype ValidationFailure = ValidationFailure(errorMessage: string)
  datatype ValidationResult = ValidationResult(errors: seq<ValidationFailure>)

  function Descriptions(errors: seq<IdentityError>): seq<string>
  {
    seq(|errors|, i requires 0 <= i < |errors| => errors[i].description)
  }

  function ErrorMessages(errors: seq<ValidationFailure>): seq<string>
  {
    seq(|errors|, i requires 0 <= i < |errors| => errors[i].errorMessage)
  }

  /** The text one `AppendLine($"- {message}")` call adds. */
  function Line(message: string): string
  {
    Bullet + message + NewLine
  }

  /** Specification of both formatters: the lines of the messages, concatenated in input order. */
  function Formatted(messages: seq<string>): string
  {
    if messages == [] then "" else Line(messages[0]) + Formatted(messages[1..])
  }

  // ---------------------------------------------------------------------------
  // Properties of the specification

  /** Formatting distributes over concatenation of the message lists: nothing is
      filtered, merged or reordered, so a repeated message yields a repeated line. */
  lemma {:induction false} FormattedConcat(a: seq<string>, b: seq<string>)
    ensures Formatted(a + b) == Formatted(a) + Formatted(b)
  {
    if a == [] {
      assert a + b == b;
    } else {
      assert (a + b)[1..] == a[1..] + b;
      FormattedConcat(a[1..], b);
    }
  }

  /** An empty error list formats to the empty string, and only an empty one does. */
  lemma FormattedEmpty(messages: seq<string>)
    ensures Formatted(messages) == "" <==> messages == []
  {
  }

  /** Two messages format to two lines, in input order. */
  lemma TwoMessagesExample()
    ensures Formatted(["A is required", "B is invalid"]) == "- A is required\n- B is invalid\n"
  {
    var ms := ["A is required", "B is invalid"];
    assert ms[1..][1..] == [];
  }

  /** Sum over the messages of |message| + |"- "| + |NewLine|. */
  function LinesLength(messages: seq<string>): nat
  {
    if messages == [] then 0 else |messages[0]| + |Bullet| + |NewLine| + LinesLength(messages[1..])
  }

  lemma {:induction false} FormattedLength(messages: seq<string>)
    ensures |Formatted(messages)| == LinesLength(messages)
  {
    if messages != [] {
      FormattedLength(messages[1..]);
    }
  }

  /** Number of occurrences of `c` in `s`. */
  function Occurrences(s: string, c: char): nat
  {
    if s == [] then 0 else (if s[0] == c then 1 else 0) + Occurrences(s[1..], c)
  }

  lemma {:induction false} OccurrencesConcat(s: string, t: string, c: char)
    ensures Occurrences(s + t, c) == Occurrences(s, c) + Occurrences(t, c)
  {
    if s == [] {
      assert s + t == t;
    } else {
      assert (s + t)[1..] == s[1..] + t;
      OccurrencesConcat(s[1..], t, c);
    }
  }

  /** Messages that contain no line terminator of their own. */
  predicate SingleLine(messages: seq<string>)
  {
    forall i :: 0 <= i < |messages| ==> LineFeed !in messages[i]
  }

  lemma {:induction false} NoOccurrences(s: string, c: char)
    requires c !in s
    ensures Occurrences(s, c) == 0
  {
    if s != [] {
      NoOccurrences(s[1..], c);
    }
  }

  /** One line per error: the output holds exactly as many line terminators as there
      are errors, provided no description carries one itself. */
  lemma {:induction false} OneLinePerMessage(messages: seq<string>)
    requires SingleLine(messages)
    ensures Occurrences(Formatted(messages), LineFeed) == |messages|
  {
    if messages != [] {
      var m := messages[0];
      OccurrencesConcat(Bullet + m, NewLine, LineFeed);
      OccurrencesConcat(Bullet, m, LineFeed);
      NoOccurrences(m, LineFeed);
      assert Occurrences(Bullet, LineFeed) == 0;
      assert Occurrences(NewLine, LineFeed) == 1;
      OccurrencesConcat(Line(m), Formatted(messages[1..]), LineFeed);
      assert SingleLine(messages[1..]) by {
        forall i | 0 <= i < |messages[1..]| ensures LineFeed !in messages[1..][i] {
          assert messages[1..][i] == messages[i + 1];
        }
      }
      OneLinePerMessage(messages[1..]);
    }
  }

  // ---------------------------------------------------------------------------
  // An inverse: reading the messages back out of a formatted text

  /** Index of the first line feed of `s`, or |s| when there is none. */
  function LineEnd(s: string): (k: nat)
    ensures k <= |s|
  {
    if s == [] || s[0] == LineFeed then 0 else 1 + LineEnd(s[1..])
  }

  /** Removes the "- " prefix of a line when it is there. */
  function StripBullet(line: string): string
  {
    if |line| >= |Bullet| && line[..|Bullet|] == Bullet then line[|Bullet|..] else line
  }

  /** Splits a text at its line feeds and strips the bullet from every line. */
  function ParseMessages(text: string): seq<string>
    decreases |text|
  {
    if text == [] then []
    else
      var k := LineEnd(text);
      if k == |text| then [StripBullet(text)]
      else [StripBullet(text[..k])] + ParseMessages(text[k + 1..])
  }

  lemma {:induction false} LineEndAfter(p: string, rest: string)
    requires LineFeed !in p
    ensures LineEnd(p + NewLine + rest) == |p|
  {
    if p == [] {
      assert (p + NewLine + rest)[0] == LineFeed;
    } else {
      assert (p + NewLine + rest)[1..] == p[1..] + NewLine + rest;
      LineEndAfter(p[1..], rest);
    }
  }

  /** Round trip: when no description contains a line feed, the formatted text
      gives back exactly the original descriptions, in order. */
  lemma {:induction false} ParseFormatted(messages: seq<string>)
    requires SingleLine(messages)
    ensures ParseMessages(Formatted(messages)) == messages
  {
    if messages != [] {
      var m := messages[0];
      var p := Bullet + m;
      var rest := Formatted(messages[1..]);
      var text := Formatted(messages);
      assert text == p + NewLine + rest;
      assert LineFeed !in p by {
        forall j | 0 <= j < |p| ensures p[j] != LineFeed {
          if j >= |Bullet| {
            assert p[j] == m[j - |Bullet|];
          }
        }
      }
      LineEndAfter(p, rest);
      assert text[..|p|] == p;
      assert text[|p| + 1..] == rest;
      assert p[..|Bullet|] == Bullet && p[|Bullet|..] == m;
      assert SingleLine(messages[1..]) by {
        forall i | 0 <= i < |messages[1..]| ensures LineFeed !in messages[1..][i] {
          assert messages[1..][i] == messages[i + 1];
        }
      }
      ParseFormatted(messages[1..]);
    }
  }

  // ---------------------------------------------------------------------------
  // The two formatters, each a StringBuilder loop over its own error type

  /** FormatIdentityErrors: one line per IdentityError description, in order. */
  method FormatIdentityErrors(result: IdentityResult) returns (errorMessage: string)
    ensures errorMessage == Formatted(Descriptions(result.errors))
  {
    var errors := result.errors;
    errorMessage := "";
    var i := 0;
    while i < |errors|
      invariant 0 <= i <= |errors|
      invariant errorMessage == Formatted(Descriptions(errors[..i]))
    {
      var error := errors[i];
      assert Descriptions(errors[..i + 1]) == Descriptions(errors[..i]) + [error.description];
      FormattedConcat(Descriptions(errors[..i]), [error.description]);
      errorMessage := errorMessage + Line(error.description);
      i := i + 1;
    }
    assert errors[..i] == errors;
  }

  /** FormatValidationErrors: one line per ValidationFailure message, in order. */
  method FormatValidationErrors(validationResult: ValidationResult) returns (errorMessage: string)
    ensures errorMessage == Formatted(ErrorMessages(validationResult.errors))
  {
    var errors := validationResult.errors;
    errorMessage := "";
    var i := 0;
    while i < |errors|
      invariant 0 <= i <= |errors|
      invariant errorMessage == Formatted(ErrorMessages(errors[..i]))
    {
      var error := errors[i];
      assert ErrorMessages(errors[..i + 1]) == ErrorMessages(errors[..i]) + [error.errorMessage];
      FormattedConcat(ErrorMessages(errors[..i]), [error.errorMessage]);
      errorMessage := errorMessage + Line(error.errorMessage);
      i := i + 1;
    }
    assert errors[..i] == errors;
  }

  /** The two formatters produce the same text for the same sequence of messages. */
  method FormattersAgree(messages: seq<string>) returns (fromIdentity: string, fromValidation: string)
    ensures fromIdentity == fromValidation
    ensures SingleLine(messages) ==> ParseMessages(fromIdentity) == messages
  {
    var identity := IdentityResult(seq(|messages|, i requires 0 <= i < |messages| => IdentityError(messages[i])));
    var validation := ValidationResult(seq(|messages|, i requires 0 <= i < |messages| => ValidationFailure(messages[i])));
    assert Descriptions(identity.errors) == messages;
    assert ErrorMessages(validation.errors) == messages;
    fromIdentity := FormatIdentityErrors(identity);
    fromValidation := FormatValidationErrors(validation);
    if SingleLine(messages) {
      ParseFormatted(messages);
    }
  }

  // ---------------------------------------------------------------------------
  // The exception

  /** The exception object; `message` is the Message its base class keeps. */
  class BadRequestException {
    const message: string

    /** The status reported whichever constructor built the exception. */
    function StatusCode(): (code: int)
      ensures code == 400
    {
      BadRequestStatus
    }

    constructor FromIdentityResult(result: IdentityResult)
      ensures message == Formatted(Descriptions(result.errors))
    {
      var formatted := FormatIdentityErrors(result);
      message := formatted;
    }

    /** Passes the message through unchanged. */
    constructor (error: string)
      ensures message == error
    {
      message := error;
    }

    constructor FromValidationResult(validationResult: ValidationResult)
      ensures message == Formatted(ErrorMessages(validationResult.errors))
    {
      var formatted := FormatValidationErrors(validationResult);
      message := formatted;
    }
  }
}
