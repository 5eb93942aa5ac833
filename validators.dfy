/**
 * The stand-alone field validators of app/api_1_0/validators.py. Each validator
 * classifies one input, appends fixed messages to the validator object's error
 * list when the input fails, and returns whether it passed.
 */
module Validators {
  import opened Text
  import Models

  /** The helpers imported from app.utils, which are not part of this model: each is
      given by the set of strings for which it returns a truthy value. */
  datatype Utils = Utils(
    emptyStrings: iset<string>,
    specialStrings: iset<string>,
    emailStrings: iset<string>,
    passwordStrings: iset<string>)
  {
    predicate IsEmpty(s: string) { s in emptyStrings }
    predicate HasSpecialCharacters(s: string) { s in specialStrings }
    predicate IsEmail(s: string) { s in emailStrings }
    predicate IsValidPassword(s: string) { s in passwordStrings }
  }

  /** A Python value handed to validate_creator, which accepts any type. */
  datatype PyValue = PyNone | PyBool(b: bool) | PyInt(i: int) | PyStr(s: string)

  /** Python truthiness. */
  predicate Truthy(v: PyValue) {
    match v
    case PyNone => false
    case PyBool(b) => b
    case PyInt(i) => i != 0
    case PyStr(s) => s != ""
  }

  /** isinstance(v, int); a bool is an int in Python. */
  predicate IsInstanceInt(v: PyValue) {
    v.PyBool? || v.PyInt?
  }

  const CreatorBlank := "redflag owner should not be blank"
  const TitleHasSpecial := "Title cannot contain special characters"
  const TitleBlank := "Title cannot be empty"
  const CommentHasSpecial := "Comments cannot contain special characters"
  const EmailInvalid := "Invalid Email Address"
  const EmailBlank := "Email should not be blank"
  const PasswordShort := "Password should be atleast eight characters"
  const PasswordBlank := "Password should not be blank"
  const PasswordsDiffer := "Passwords should match"

  /** What one validator call returns and what it appends to the error list. */
  datatype Outcome = Outcome(passed: bool, appended: seq<string>)

  /** validate_creator */
  function CreatorOutcome(creator: PyValue): (o: Outcome)
    ensures o.passed <==> o.appended == []
    ensures o.passed <==> Truthy(creator) && IsInstanceInt(creator)
    ensures !Truthy(creator) ==> o.appended == [CreatorBlank]
    ensures Truthy(creator) && !IsInstanceInt(creator) ==> o.appended == [Models.OwnerNotInteger]
  {
    if Truthy(creator) then
      if IsInstanceInt(creator) then Outcome(true, []) else Outcome(false, [Models.OwnerNotInteger])
    else Outcome(false, [CreatorBlank])
  }

  /** validate_title: a title with special characters falls through to the
      blank-title message as well. */
  function TitleOutcome(u: Utils, title: string): (o: Outcome)
    ensures o.passed <==> o.appended == []
    ensures o.passed <==> !u.IsEmpty(title) && !u.HasSpecialCharacters(title)
    ensures u.IsEmpty(title) ==> o.appended == [TitleBlank]
    ensures !u.IsEmpty(title) && u.HasSpecialCharacters(title) ==> o.appended == [TitleHasSpecial, TitleBlank]
  {
    if !u.IsEmpty(title) && !u.HasSpecialCharacters(title) then Outcome(true, [])
    else if !u.IsEmpty(title) then Outcome(false, [TitleHasSpecial, TitleBlank])
    else Outcome(false, [TitleBlank])
  }

  /** A title with special characters is also reported blank, although it is not. */
  lemma TitleSpecialReportedBlank(u: Utils, title: string)
    requires !u.IsEmpty(title) && u.HasSpecialCharacters(title)
    ensures TitleBlank in TitleOutcome(u, title).appended
  {
    assert TitleOutcome(u, title).appended[1] == TitleBlank;
  }

  /** validate_title as evidently intended: the blank message only for a blank title,
      and one message per failure. */
  function TitleOutcomeIntended(u: Utils, title: string): (o: Outcome)
    ensures o.passed <==> o.appended == []
    ensures o.passed <==> !u.IsEmpty(title) && !u.HasSpecialCharacters(title)
    ensures |o.appended| <= 1
    ensures TitleBlank in o.appended <==> u.IsEmpty(title)
    ensures TitleHasSpecial in o.appended <==> !u.IsEmpty(title) && u.HasSpecialCharacters(title)
    ensures u.IsEmpty(title) || !u.HasSpecialCharacters(title) ==> o == TitleOutcome(u, title)
  {
    if !u.IsEmpty(title) && !u.HasSpecialCharacters(title) then Outcome(true, [])
    else if !u.IsEmpty(title) then Outcome(false, [TitleHasSpecial])
    else Outcome(false, [TitleBlank])
  }

  /** validate_location: the same three-way classification as the location setter
      of the incident model, with the blank test of app.utils. */
  function LocationOutcome(u: Utils, p: Parsers, location: string): (o: Outcome)
    ensures o.passed <==> o.appended == []
    ensures u.IsEmpty(location) ==> o.appended == [Models.LocationBlank]
    ensures !u.IsEmpty(location) ==> o.appended == Models.CheckCoordinates(p, location).Messages()
    ensures (u.IsEmpty(location) <==> Text.IsEmpty(location)) ==>
              (o.passed <==> Models.CheckLocation(p, location).Accepted?)
              && o.appended == Models.CheckLocation(p, location).Messages()
  {
    if !u.IsEmpty(location) then
      var coordinates := Coordinates(location);
      if |coordinates| == 2 then
        if p.AcceptsFloat(coordinates[0]) && p.AcceptsFloat(coordinates[1]) then Outcome(true, [])
        else Outcome(false, [Models.CoordinatesNotFloat])
      else Outcome(false, [Models.TwoCoordinatesRequired])
    else Outcome(false, [Models.LocationBlank])
  }

  /** validate_location passes exactly for a non-blank location with one comma and
      float-parseable text on either side of it. */
  lemma {:induction false} LocationOutcomePassedIff(u: Utils, p: Parsers, location: string)
    ensures LocationOutcome(u, p, location).passed <==> !u.IsEmpty(location) && Models.WellFormedLocation(p, location)
  {
    if !u.IsEmpty(location) {
      if LocationOutcome(u, p, location).passed {
        var k := SoleComma(location);
        CoordinatesAtComma(location, k);
      }
      if Models.WellFormedLocation(p, location) {
        var k :| 0 <= k < |location| && location[k] == ',' && ',' !in location[..k] && ',' !in location[k + 1..]
          && p.AcceptsFloat(Strip(location[..k])) && p.AcceptsFloat(Strip(location[k + 1..]));
        CoordinatesAtComma(location, k);
      }
    }
  }

  /** validate_comment */
  function CommentOutcome(u: Utils, comment: string): (o: Outcome)
    ensures o.passed <==> o.appended == []
    ensures o.passed <==> !u.IsEmpty(comment) && !u.HasSpecialCharacters(comment)
    ensures u.IsEmpty(comment) ==> o.appended == [Models.CommentBlank]
    ensures !u.IsEmpty(comment) && u.HasSpecialCharacters(comment) ==> o.appended == [CommentHasSpecial]
  {
    if !u.IsEmpty(comment) then
      if !u.HasSpecialCharacters(comment) then Outcome(true, []) else Outcome(false, [CommentHasSpecial])
    else Outcome(false, [Models.CommentBlank])
  }

  /** validate_email */
  function EmailOutcome(u: Utils, email: string): (o: Outcome)
    ensures o.passed <==> o.appended == []
    ensures o.passed <==> !u.IsEmpty(email) && u.IsEmail(email)
    ensures u.IsEmpty(email) ==> o.appended == [EmailBlank]
    ensures !u.IsEmpty(email) && !u.IsEmail(email) ==> o.appended == [EmailInvalid]
  {
    if !u.IsEmpty(email) then
      if u.IsEmail(email) then Outcome(true, []) else Outcome(false, [EmailInvalid])
    else Outcome(false, [EmailBlank])
  }

  /** validate_password */
  function PasswordOutcome(u: Utils, password: string): (o: Outcome)
    ensures o.passed <==> o.appended == []
    ensures o.passed <==> !u.IsEmpty(password) && u.IsValidPassword(password)
    ensures u.IsEmpty(password) ==> o.appended == [PasswordBlank]
    ensures !u.IsEmpty(password) && !u.IsValidPassword(password) ==> o.appended == [PasswordShort]
  {
    if !u.IsEmpty(password) then
      if u.IsValidPassword(password) then Outcome(true, []) else Outcome(false, [PasswordShort])
    else Outcome(false, [PasswordBlank])
  }

  /** match_password */
  function MatchOutcome(password: string, confirmPassword: string): (o: Outcome)
    ensures o.passed <==> o.appended == []
    ensures o.passed <==> password == confirmPassword
    ensures !o.passed ==> o.appended == [PasswordsDiffer]
  {
    if password == confirmPassword then Outcome(true, []) else Outcome(false, [PasswordsDiffer])
  }

  class RedFlagValidators {
    const utils: Utils
    const parsers: Parsers
    var errors: seq<string>

    constructor (u: Utils, p: Parsers)
      ensures utils == u && parsers == p && errors == []
    {
      utils, parsers := u, p;
      errors := [];
    }

    method ValidateCreator(creator: PyValue) returns (ok: bool)
      modifies this`errors
      ensures ok == CreatorOutcome(creator).passed
      ensures errors == old(errors) + CreatorOutcome(creator).appended
    {
      if Truthy(creator) {
        if IsInstanceInt(creator) {
          return true;
        }
        errors := errors + [Models.OwnerNotInteger];
        return false;
      }
      errors := errors + [CreatorBlank];
      return false;
    }

    method ValidateTitle(title: string) returns (ok: bool)
      modifies this`errors
      ensures ok == TitleOutcome(utils, title).passed
      ensures errors == old(errors) + TitleOutcome(utils, title).appended
    {
      if !utils.IsEmpty(title) {
        if !utils.HasSpecialCharacters(title) {
          return true;
        }
        errors := errors + [TitleHasSpecial];
      }
      errors := errors + [TitleBlank];
      return false;
    }

    method ValidateLocation(location: string) returns (ok: bool)
      modifies this`errors
      ensures ok == LocationOutcome(utils, parsers, location).passed
      ensures errors == old(errors) + LocationOutcome(utils, parsers, location).appended
    {
      if !utils.IsEmpty(location) {
        var coordinates := Coordinates(location);
        if |coordinates| == 2 {
          // float() of both coordinates, inside one try block
          if parsers.AcceptsFloat(coordinates[0]) && parsers.AcceptsFloat(coordinates[1]) {
            return true;
          }
          errors := errors + [Models.CoordinatesNotFloat];
          return false;
        }
        errors := errors + [Models.TwoCoordinatesRequired];
        return false;
      }
      errors := errors + [Models.LocationBlank];
      return false;
    }

    method ValidateComment(comment: string) returns (ok: bool)
      modifies this`errors
      ensures ok == CommentOutcome(utils, comment).passed
      ensures errors == old(errors) + CommentOutcome(utils, comment).appended
    {
      if !utils.IsEmpty(comment) {
        if !utils.HasSpecialCharacters(comment) {
          return true;
        }
        errors := errors + [CommentHasSpecial];
        return false;
      }
      errors := errors + [Models.CommentBlank];
      return false;
    }
  }

  class UserValidators {
    const utils: Utils
    var errors: seq<string>

    constructor (u: Utils)
      ensures utils == u && errors == []
    {
      utils := u;
      errors := [];
    }

    method ValidateEmail(email: string) returns (ok: bool)
      modifies this`errors
      ensures ok == EmailOutcome(utils, email).passed
      ensures errors == old(errors) + EmailOutcome(utils, email).appended
    {
      if !utils.IsEmpty(email) {
        if utils.IsEmail(email) {
          return true;
        }
        errors := errors + [EmailInvalid];
        return false;
      }
      errors := errors + [EmailBlank];
      return false;
    }

    method ValidatePassword(password: string) returns (ok: bool)
      modifies this`errors
      ensures ok == PasswordOutcome(utils, password).passed
      ensures errors == old(errors) + PasswordOutcome(utils, password).appended
    {
      if !utils.IsEmpty(password) {
        if utils.IsValidPassword(password) {
          return true;
        }
        errors := errors + [PasswordShort];
        return false;
      }
      errors := errors + [PasswordBlank];
      return false;
    }

    method MatchPassword(password: string, confirmPassword: string) returns (ok: bool)
      modifies this`errors
      ensures ok == MatchOutcome(password, confirmPassword).passed
      ensures errors == old(errors) + MatchOutcome(password, confirmPassword).appended
    {
      if password == confirmPassword {
        return true;
      }
      errors := errors + [PasswordsDiffer];
      return false;
    }
  }
}
