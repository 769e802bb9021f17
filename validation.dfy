/** The name and description checks that the Task and Project constructors
    both run (task.py:57-72, project.py:60-75): the two classes repeat the same
    code against different limits, so it is stated once here, over the limits. */
module Validation {
  import opened Wrappers
  import opened Text

  /** Which check failed, in the order the constructors run them. */
  datatype Violation = NameRequired | NameTooLong | DescriptionTooLong

  /** An absent (`None`) argument becomes the empty string. */
  function OrEmpty(s: Option<string>): string {
    if s.Some? then s.value else ""
  }

  /** The fields of a successfully constructed entity: a stripped, non-empty
      name of bounded length and a description of bounded length. */
  predicate ValidFields(name: string, description: string, maxName: int, maxDescription: int) {
    && Trimmed(name)
    && 1 <= |name| <= maxName
    && |description| <= maxDescription
  }

  /** The constructors' validation: strip the name, turn a missing description
      into "", then reject an empty name, an over-long name and an over-long
      description, in that order. On success, the normalised name and description. */
  function CheckFields(name: Option<string>, description: Option<string>, maxName: int, maxDescription: int)
    : (r: Result<(string, string), Violation>)
    ensures r.Ok? ==> r.value.0 == Strip(OrEmpty(name)) && r.value.1 == OrEmpty(description)
    ensures r.Ok? ==> ValidFields(r.value.0, r.value.1, maxName, maxDescription)
    ensures r == Err(NameRequired) <==> Blank(OrEmpty(name))
    ensures r == Err(NameTooLong) <==> !Blank(OrEmpty(name)) && |Strip(OrEmpty(name))| > maxName
    ensures r == Err(DescriptionTooLong) <==>
              && !Blank(OrEmpty(name)) && |Strip(OrEmpty(name))| <= maxName
              && |OrEmpty(description)| > maxDescription
  {
    var n := Strip(OrEmpty(name));
    var d := OrEmpty(description);
    StripEmptyIffBlank(OrEmpty(name));
    if |n| == 0 then Err(NameRequired)
    else if |n| > maxName then Err(NameTooLong)
    else if |d| > maxDescription then Err(DescriptionTooLong)
    else Ok((n, d))
  }

  /** A `None` name is reported as missing, whatever the description. */
  lemma AbsentNameRequired(description: Option<string>, maxName: int, maxDescription: int)
    ensures CheckFields(None, description, maxName, maxDescription) == Err(NameRequired)
  {
  }

  /** Surrounding whitespace does not count towards the name length, and a
      name of exactly the maximum length is accepted. */
  lemma NameAtLimitAccepted(pre: string, name: string, post: string, description: string, maxName: int, maxDescription: int)
    requires Blank(pre) && Blank(post) && name != [] && Trimmed(name)
    requires |name| == maxName && |description| <= maxDescription
    ensures CheckFields(Some(pre + name + post), Some(description), maxName, maxDescription) == Ok((name, description))
  {
    StripPadded(pre, name, post);
  }

  /** A name one character over the maximum is rejected as too long, whatever the description. */
  lemma NameOverLimitRejected(name: string, description: Option<string>, maxName: int, maxDescription: int)
    requires name != [] && Trimmed(name) && |name| == maxName + 1
    ensures CheckFields(Some(name), description, maxName, maxDescription) == Err(NameTooLong)
  {
    StripTrimmed(name);
  }

  /** The name is checked before the description: a blank name is reported
      as missing even when the description is also too long. */
  lemma NameCheckedFirst(name: string, description: string, maxName: int, maxDescription: int)
    requires Blank(name) && |description| > maxDescription
    ensures CheckFields(Some(name), Some(description), maxName, maxDescription) == Err(NameRequired)
  {
  }

  /** Validating already validated fields accepts them unchanged, so
      re-running a constructor on a constructed entity's fields succeeds. */
  lemma CheckValidFields(name: string, description: string, maxName: int, maxDescription: int)
    requires ValidFields(name, description, maxName, maxDescription)
    ensures CheckFields(Some(name), Some(description), maxName, maxDescription) == Ok((name, description))
  {
    var r := CheckFields(Some(name), Some(description), maxName, maxDescription);
    assert r != Err(NameRequired) by { assert !IsSpace(name[0]); }
    assert r == Ok((name, description)) by { StripTrimmed(name); }
  }
}
