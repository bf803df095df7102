/** The API-level error raised when the remote service answers with an error payload. */
module Exceptions {
  import opened Json
  import Strings

  /** The message an ApiError carries until a response fills it. */
  const DefaultMessage: string := "Some API error has occurred."

  /** The separator placed between the messages of several errors. */
  const Separator: string := " & "

  /** The `message` field of every item, in the order of the items. */
  function Messages(errors: seq<ErrorItem>): (ms: seq<string>)
    ensures |ms| == |errors|
    ensures forall i :: 0 <= i < |errors| ==> ms[i] == errors[i].message
  {
    if |errors| == 0 then [] else [errors[0].message] + Messages(errors[1..])
  }

  /**
   * The message an ApiError holds after being filled from a response whose `errors`
   * list is `errors`, when it held `current` before.
   */
  function FilledMessage(current: string, errors: seq<ErrorItem>): (m: string)
    ensures |errors| == 0 ==> m == current
    ensures |errors| == 1 ==> m == errors[0].message
  {
    if |errors| == 0 then current else Strings.Join(Separator, Messages(errors))
  }

  /** Filling overwrites: with a non-empty list the earlier message plays no part. */
  lemma FillOverwrites(a: string, b: string, errors: seq<ErrorItem>)
    requires |errors| > 0
    ensures FilledMessage(a, errors) == FilledMessage(b, errors)
  {
  }

  /** Filling twice from the same response gives the message filling once gives. */
  lemma FillIdempotent(current: string, errors: seq<ErrorItem>)
    ensures FilledMessage(FilledMessage(current, errors), errors) == FilledMessage(current, errors)
  {
  }

  /**
   * Order is kept: the filled message for the items of `first` followed by those of
   * `second` is the message for `first`, the separator, then the message for `second`.
   */
  lemma {:induction false} FillConcat(current: string, first: seq<ErrorItem>, second: seq<ErrorItem>)
    requires |first| > 0 && |second| > 0
    ensures FilledMessage(current, first + second)
            == FilledMessage(current, first) + Separator + FilledMessage(current, second)
  {
    assert Messages(first + second) == Messages(first) + Messages(second);
    Strings.JoinConcat(Separator, Messages(first), Messages(second));
  }

  /** The filled message is the items' messages joined from the left, one after another. */
  lemma FillJoinsFromLeft(current: string, errors: seq<ErrorItem>)
    requires |errors| > 0
    ensures FilledMessage(current, errors) == Strings.JoinFromLeft(Separator, Messages(errors))
  {
    Strings.JoinAgreesWithFromLeft(Separator, Messages(errors));
  }

  /** An error response listing "bad" then "worse" fills the message "bad & worse". */
  lemma TwoErrorsExample()
    ensures FilledMessage(DefaultMessage, [ErrorItem("bad"), ErrorItem("worse")]) == "bad & worse"
  {
    assert Messages([ErrorItem("bad"), ErrorItem("worse")]) == ["bad", "worse"];
  }

  /** An exception object with a message that a response may overwrite. */
  class ApiError {
    var message: string

    constructor ()
      ensures message == DefaultMessage
    {
      message := DefaultMessage;
    }

    /**
     * Takes the decoded response object; when its `errors` list is non-empty, replaces
     * the message with the items' messages joined by " & ". Returns this same error.
     */
    method FillMessageFromResponseErrors(response: Decoded) returns (self: ApiError)
      requires response.Obj?
      modifies this
      ensures self == this
      ensures message == FilledMessage(old(message), response.errors)
    {
      if |response.errors| != 0 {
        message := Strings.Join(Separator, Messages(response.errors));
      }
      self := this;
    }
  }
}
