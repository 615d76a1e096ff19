/**
 * The two field validators of the chat serializers. Each either raises a
 * validation error with a fixed message or returns its input unchanged.
 */
module Serializers {
  import opened Wrappers

  /** A validation error carrying the message shown to the API client. */
  datatype ValidationError = ValidationError(message: string)

  const EmptyBodyMessage: string := "Message body cannot be empty."
  const NoParticipantsMessage: string := "At least one participant is required."
  const TooFewParticipantsMessage: string := "A conversation must have at least 2 participants."

  /**
   * The characters Python's `str.strip()` removes when given no argument:
   * tab to carriage return, the four information separators, space, next
   * line, no-break space, ogham space mark, the general-punctuation spaces
   * U+2000 to U+200A, the line and paragraph separators, narrow no-break
   * space, medium mathematical space and ideographic space.
   */
  predicate IsSpace(c: char) {
    var n := c as int;
    (0x09 <= n <= 0x0D) || (0x1C <= n <= 0x20) || n == 0x85 || n == 0xA0 || n == 0x1680 ||
    (0x2000 <= n <= 0x200A) || n == 0x2028 || n == 0x2029 || n == 0x202F || n == 0x205F || n == 0x3000
  }

  /** `s` with its leading whitespace removed. */
  function TrimStart(s: string): (t: string)
    ensures |t| <= |s| && t == s[|s| - |t|..]
    ensures forall i :: 0 <= i < |s| - |t| ==> IsSpace(s[i])
    ensures t == [] || !IsSpace(t[0])
  {
    if s == [] || !IsSpace(s[0]) then s else TrimStart(s[1..])
  }

  /** `s` with its trailing whitespace removed. */
  function TrimEnd(s: string): (t: string)
    ensures |t| <= |s| && t == s[..|t|]
    ensures forall i :: |t| <= i < |s| ==> IsSpace(s[i])
    ensures t == [] || !IsSpace(t[|t| - 1])
  {
    if s == [] || !IsSpace(s[|s| - 1]) then s else TrimEnd(s[..|s| - 1])
  }

  /** Python's `s.strip()`. */
  function Strip(s: string): string {
    TrimEnd(TrimStart(s))
  }

  /** Stripping leaves nothing exactly when every character is whitespace. */
  lemma StripEmptyIffAllSpace(s: string)
    ensures Strip(s) == [] <==> forall i :: 0 <= i < |s| ==> IsSpace(s[i])
  {
  }

  /**
   * `MessageSerializer.validate_message_body`: a missing or blank body is
   * rejected; any body with a non-whitespace character is returned as it
   * was given, not stripped.
   */
  function ValidateMessageBody(value: Option<string>): (r: Result<string, ValidationError>)
    ensures r.Ok? <==> value.Some? && exists i :: 0 <= i < |value.value| && !IsSpace(value.value[i])
    ensures r.Ok? ==> r.value == value.value
    ensures r.Err? ==> r.error == ValidationError(EmptyBodyMessage)
  {
    if value.None? || value.value == "" then Err(ValidationError(EmptyBodyMessage))
    else
      StripEmptyIffAllSpace(value.value);
      if Strip(value.value) == "" then Err(ValidationError(EmptyBodyMessage))
      else Ok(value.value)
  }

  /**
   * `ConversationSerializer.validate_participant_ids`: a missing or empty
   * list and a one-element list are rejected with different messages, in
   * that order; any longer list is returned unchanged, duplicates included.
   */
  function ValidateParticipantIds<Id>(value: Option<seq<Id>>): (r: Result<seq<Id>, ValidationError>)
    ensures r.Ok? <==> value.Some? && |value.value| >= 2
    ensures r.Ok? ==> r.value == value.value
    ensures value.None? || value.value == [] ==> r == Err(ValidationError(NoParticipantsMessage))
    ensures value.Some? && |value.value| == 1 ==> r == Err(ValidationError(TooFewParticipantsMessage))
  {
    if value.None? || |value.value| == 0 then Err(ValidationError(NoParticipantsMessage))
    else if |value.value| < 2 then Err(ValidationError(TooFewParticipantsMessage))
    else Ok(value.value)
  }
}
