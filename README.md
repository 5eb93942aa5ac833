# iReporter core, modelled in Dafny

iReporter is a small Flask API for reporting corruption incidents ("red-flag") and
requests for intervention ("intervention"). This project models its in-memory core
and proves properties of the model:

- **The incident record engine** (`app/api_1_0/models.py`), in module `Models`. An
  `IncidentModel` runs four validating property setters on construction: owner,
  type, location, comment. Each setter either stores its input or stores `None`
  and appends one message to an error list. The default `errors=[]` argument makes
  that list shared, so it is the class `ErrorLog`, passed in and aliased.
  `save` appends `{id: describe_incident()}` to the store (class `IncidentStore`,
  a sequence of `(key, record)` pairs) only when all four fields are truthy.
- **Text helpers** (module `Text`): `is_empty` of models.py, `str.strip`,
  `str.split` on one character with its inverse `join`, and `str()` of integers.
  These are the parts of Python's behaviour the core depends on.
- **The stand-alone validators** (`app/api_1_0/validators.py`), in module
  `Validators`. Each check is a classifier function (`...Outcome`), and a method of
  `RedFlagValidators` or `UserValidators` that appends to the object's `errors` field.
- **The login/logout controller** (`app/api_1_0/controller.py`), in module
  `Controller`. `find_user` and `logout` are modelled as the code runs them: each
  returns from inside its loop on the first entry it examines. Their evidently
  intended versions are modelled next to them (see "## Findings").
- **The incident endpoints** (`app/api_1_0/views.py`), in module `Views`:
  `find_incident`, `get`, and the save-then-copy-and-clear logic of `post`.

Python's `int()` and `float()` acceptance, and the `app.utils` helpers
(`is_empty`, `has_special_characters`, `is_email`, `is_valid_password`), are
parameters of the model. Each is given by the set of strings it accepts
(`Text.Parsers`, `Validators.Utils`). `datetime.datetime.now()` is an input
string.

Two behaviours of the code that the model keeps:
- Validation happens when the incident is built: the constructor runs all four
  setters unconditionally (app/api_1_0/models.py:20-25), and `save` only tests
  the stored fields.
- `validate_creator` requires a Python `int` (a `bool` counts). The string "1"
  is refused with "Created by should be an Integer".

## Model

| member | source | states |
|---|---|---|
| Text.IsEmpty | app/api_1_0/models.py:149-152 | is_empty holds exactly when every character is Python whitespace, which includes the empty string |
| Text.Strip | app/api_1_0/models.py:94 | the stripped text neither starts nor ends with whitespace, and is empty exactly when the input is all whitespace |
| Text.StripIsMiddle | app/api_1_0/models.py:94 | the stripped text is a slice of the input with only whitespace before it and only whitespace after it |
| Text.Split | app/api_1_0/models.py:94 | split(',') yields one more piece than there are separators, and no piece contains the separator |
| Text.JoinSplit | app/api_1_0/models.py:94 | joining the pieces of a split with the separator gives back the original string |
| Text.SplitJoin | app/api_1_0/models.py:94 | splitting a join of separator-free pieces gives back those pieces |
| Text.Coordinates | app/api_1_0/models.py:94 | a location has one coordinate per comma plus one |
| Text.CoordinatesAtComma | app/api_1_0/models.py:94-95 | around a location's only comma, the coordinates are the stripped text before it and after it |
| Text.SoleComma | app/api_1_0/models.py:94-95 | a location with exactly two coordinates has exactly one comma, and the lemma returns its position |
| Text.NatToString | app/api_1_0/views.py:48 | str() of a non-negative integer is a non-empty string of decimal digits |
| Text.NatToStringValue | app/api_1_0/views.py:48 | the digits of str() of a non-negative integer denote that integer, most significant first, and there is no leading zero except in "0" |
| Text.NatToStringInjective | app/api_1_0/views.py:48 | different ids have different str() renderings, so comparing keys as text compares the ids |
| Text.IntToString | app/api_1_0/controller.py:38 | str() of an integer starts with a minus sign exactly when the integer is negative, and is decimal digits after it |
| Text.IntToStringValue | app/api_1_0/controller.py:38 | str() of a negative integer is a minus sign followed by the decimal digits of its absolute value; str() of any other integer is its decimal digits |
| Text.IntToStringInjective | app/api_1_0/controller.py:38 | different session ids have different str() renderings, so the text comparison of logout compares the ids |
| Models.CheckOwner | app/api_1_0/models.py:48-64 | the owner is stored verbatim iff it is non-blank and int() accepts it; otherwise "Incident owner should not be blank" for a blank owner, else "Created by should be an Integer" |
| Models.CheckType | app/api_1_0/models.py:72-84 | the type is stored iff it is "red-flag" or "intervention"; otherwise "Incident type should not be empty" for a blank type, else the either/or message |
| Models.CheckCoordinates | app/api_1_0/models.py:94-112 | "Two coordinates required" exactly when the location does not contain exactly one comma; an accepted location is stored unchanged |
| Models.CheckLocation | app/api_1_0/models.py:92-115 | a blank location is refused with "Location should not be empty"; any other location goes through the coordinate checks |
| Models.LocationAcceptedIff | app/api_1_0/models.py:92-115 | a location is stored iff it is non-blank, has exactly one comma, and float() accepts the stripped text on both sides of it |
| Models.CheckComment | app/api_1_0/models.py:122-127 | a comment is stored unchanged iff it is non-blank; otherwise "Comments cannot be empty" |
| Models.ConstructionErrors | app/api_1_0/models.py:20-25 | the four setters add at most four messages, and none exactly when every field is accepted |
| Models.ConstructionErrorsPerField | app/api_1_0/models.py:20-25 | every setter runs: one message per rejected field, and no message exactly when all four fields are accepted |
| Models.FirstConstructionError | app/api_1_0/models.py:20-25 | the first message reported is that of the first rejected field, in the order owner, type, location, comment |
| Models.CompleteIffNoErrors | app/api_1_0/models.py:20-35 | the four stored fields are all truthy, as save demands, exactly when construction reported no message |
| Models.NoErrorsStoresInputs | app/api_1_0/models.py:48-127 | when construction reports nothing, each field holds its input unchanged |
| Models.ErrorLog.Clear | app/api_1_0/views.py:33 | clearing leaves the shared error list empty |
| Models.IncidentModel.constructor | app/api_1_0/models.py:8-27 | each field holds its setter's verdict and the shared list grows by the setters' messages in order; id is unset, status is "", images and videos are empty; the incident is complete iff no message was added, and then describes its inputs verbatim |
| Models.IncidentModel.Describe | app/api_1_0/models.py:129-146 | the description carries every field of the incident under its own key, and the incident is complete iff owner, type, location and comment are all truthy in it |
| Models.IncidentModel.SetCreatedBy | app/api_1_0/models.py:48-64 | the owner field and the appended messages follow the owner verdict; nothing else changes |
| Models.IncidentModel.SetIncidentType | app/api_1_0/models.py:72-84 | the type field and the appended messages follow the type verdict; nothing else changes |
| Models.IncidentModel.SetLocation | app/api_1_0/models.py:92-115 | the location field and the appended messages follow the location verdict; nothing else changes |
| Models.IncidentModel.SetComment | app/api_1_0/models.py:122-127 | the comment field and the appended messages follow the comment verdict; nothing else changes |
| Models.IncidentModel.Save | app/api_1_0/models.py:29-41 | succeeds iff all four fields are truthy; on success id = len(db) + 1 and db grows by exactly one entry {id: describe_incident()} at the end; on failure db and id are unchanged and the error list is returned; keys stay equal to positions + 1 |
| Models.SingleCoordinateRejected | tests/unit/v1/test_incident.py:35-46 | an incident whose location is one coordinate reports exactly "Two coordinates required" |
| Validators.CreatorOutcome | app/api_1_0/validators.py:13-22 | validate_creator passes iff the creator is truthy and an int; a falsy creator gives "redflag owner should not be blank", a truthy non-int "Created by should be an Integer" |
| Validators.RedFlagValidators.ValidateCreator | app/api_1_0/validators.py:13-22 | returns the outcome of validate_creator and only appends its messages to errors |
| Validators.TitleOutcome | app/api_1_0/validators.py:24-31 | a blank title gives exactly "Title cannot be empty"; a non-blank title with special characters gives "Title cannot contain special characters" then "Title cannot be empty"; a valid title passes |
| Validators.TitleSpecialReportedBlank | app/api_1_0/validators.py:24-31 | a non-blank title with special characters is also reported as empty |
| Validators.TitleOutcomeIntended | app/api_1_0/validators.py:24-31 | at most one message; the blank message iff the title is blank, the special-characters message iff it is non-blank and has special characters; it agrees with the code everywhere else |
| Validators.RedFlagValidators.ValidateTitle | app/api_1_0/validators.py:24-31 | returns the outcome of validate_title and only appends its messages to errors |
| Validators.LocationOutcome | app/api_1_0/validators.py:33-54 | a blank location gives exactly "Location should not be empty"; any other location gets the coordinate messages of the incident model's location check; it passes iff no message; the same verdict and messages as the location setter whenever both blank tests agree |
| Validators.LocationOutcomePassedIff | app/api_1_0/validators.py:33-54 | validate_location passes iff the location is non-blank, has one comma, and float() accepts both stripped sides |
| Validators.RedFlagValidators.ValidateLocation | app/api_1_0/validators.py:33-54 | returns the outcome of validate_location and only appends its messages to errors |
| Validators.CommentOutcome | app/api_1_0/validators.py:56-65 | a blank comment gives "Comments cannot be empty", one with special characters gives "Comments cannot contain special characters", any other comment passes |
| Validators.RedFlagValidators.ValidateComment | app/api_1_0/validators.py:56-65 | returns the outcome of validate_comment and only appends its messages to errors |
| Validators.RedFlagValidators.constructor | app/api_1_0/validators.py:9-11 | a new validator starts with an empty error list |
| Validators.EmailOutcome | app/api_1_0/validators.py:75-83 | a blank email gives "Email should not be blank", one that is_email refuses "Invalid Email Address", any other email passes |
| Validators.UserValidators.ValidateEmail | app/api_1_0/validators.py:75-83 | returns the outcome of validate_email and only appends its messages to errors |
| Validators.PasswordOutcome | app/api_1_0/validators.py:85-93 | a blank password gives "Password should not be blank", one that is_valid_password refuses "Password should be atleast eight characters", any other password passes |
| Validators.UserValidators.ValidatePassword | app/api_1_0/validators.py:85-93 | returns the outcome of validate_password and only appends its messages to errors |
| Validators.MatchOutcome | app/api_1_0/validators.py:95-100 | match_password passes iff the two passwords are equal; otherwise "Passwords should match" |
| Validators.UserValidators.MatchPassword | app/api_1_0/validators.py:95-100 | returns the outcome of match_password and only appends its messages to errors |
| Validators.UserValidators.constructor | app/api_1_0/validators.py:71-73 | a new validator starts with an empty error list |
| Controller.FindUserAsWritten | app/api_1_0/controller.py:47-53 | an account find_user returns is the value paired with the email in some user dict |
| Controller.FindUserAsWrittenIff | app/api_1_0/controller.py:47-53 | find_user finds an account iff the first key of the first non-empty user dict is the email, and then returns that key's value |
| Controller.FindUser | app/api_1_0/controller.py:47-53 | the loop returns what find_user computes: first non-empty user dict, first key only |
| Controller.FindUserAsWrittenSound | app/api_1_0/controller.py:47-53 | whatever find_user finds is what a full lookup finds |
| Controller.FindUserMissesSecondAccount | app/api_1_0/controller.py:47-53 | with two accounts, find_user answers None for the second email, while a full lookup finds it |
| Controller.LookupAccount | app/api_1_0/controller.py:47-53 | the intended lookup finds an account iff some user dict has the email as a key, and returns a value stored under that email |
| Controller.FindUserIntended | app/api_1_0/controller.py:47-53 | the intended find_user, a scan of every item of every user dict, returns the full lookup |
| Controller.Controller.constructor | app/api_1_0/controller.py:8-10 | a new controller's validators start with an empty error list |
| Controller.Controller.Login | app/api_1_0/controller.py:12-30 | the password is checked only after the email passed; a failed check returns the errors; an account not found gives 'User not found in our database'; a password mismatch gives 'Invalid password/email combination' and appends "Passwords should match"; all of these leave the sessions list unchanged; success appends exactly one {Email, Id} session, without a duplicate check, and returns the list |
| Controller.Controller.Logout | app/api_1_0/controller.py:33-44 | succeeds iff the sessions list is non-empty and str() of entry 0's Id equals the user id; then exactly entry 0 is removed and 'Successfuly logged out' returned; otherwise the list is unchanged and 'That user is not logged in' returned |
| Controller.Controller.LogoutIntended | app/api_1_0/controller.py:33-44 | the intended logout succeeds iff some session has the user id, and then removes exactly the first such session, keeping the rest in order |
| Controller.LogoutMissesSecondSession | app/api_1_0/controller.py:33-44 | with two sessions, logging out the second fails as written and succeeds with the intended logout |
| Views.FindIncidentFirstMatch | app/api_1_0/views.py:44-49 | find_incident returns the record of the first entry, in insertion order, whose key reads as the requested id, and None iff there is no such entry |
| Views.FindIncident | app/api_1_0/views.py:44-49 | a record find_incident returns is that of an entry whose key reads as the requested id |
| Views.Get | app/api_1_0/views.py:51-62 | 200 with find_incident's record iff find_incident finds one; otherwise 404 with 'That resource cannot be found' |
| Views.GetFoundIff | app/api_1_0/views.py:44-62 | get answers 200 iff some key reads as the id, and then with the record of the first such entry |
| Views.FindAfterSave | app/api_1_0/models.py:36-37 | in a store whose keys are positions + 1, looking up the id of an appended entry yields that entry's record, and get answers 200 with it |
| Views.Post | app/api_1_0/views.py:16-34 | 201 iff construction reported no message, and then the store grows by the saved record and, in a store whose keys are positions + 1, get finds it under the returned id; otherwise 400 with a copy of the shared errors, the store unchanged and the shared list left empty |

## Left out

- Flask and flask_restful plumbing (`reqparse`, `Resource`, routes, app factory) is not modelled. Request fields reach `Views.Post` as strings; a missing field (Python `None`) is not modelled, because `is_empty(None)` raises and Flask answers 500.
- Python's `int()` and `float()` literal grammars are parameters (`Text.Parsers`). No float value is computed or stored.
- The `app.utils` helpers `is_empty`, `has_special_characters`, `is_email` and `is_valid_password` are parameters (`Validators.Utils`). Their source is not part of this model.
- `datetime.datetime.now()` is the input string `now`, already in its `str()` form.
- Update, delete, signup, list-all, signin and signout handlers are referenced by routes.py but do not exist in views.py, so they are not modelled.
- manage.py (PostgreSQL tables) and ui/js/map.js (browser maps) are outside the in-memory core.
- Concurrency on the module-level `db` list is not modelled: each operation runs alone.
- Controller.Controller.Login: the errors reply is a copy of the validator's error list at return time, not the aliased list object. On success the code returns `login_list` itself (app/api_1_0/controller.py:25); the model's reply carries a copy of the new sessions list.
- Controller.Controller.Login: a user value that is not a dict (the `isinstance(user, dict)` test at app/api_1_0/controller.py:22) is not modelled; every value is an `Account`.
- Controller.Controller.Logout: the loop over the first session's two keys is collapsed into one test, because the test does not depend on the key.
- Controller.Controller.Logout: the user id is given in its `str()` form.
- Validators.CreatorOutcome: the creator's domain is closed to `None`, `bool`, `int` and `str` (`PyValue`). Floats, lists and dicts are not modelled; a truthy one such as 1.5 would get "Created by should be an Integer".
- Views.Get: the incident id is given in its `str()` form.
- Models.IncidentModel.Save: the `message` dict is returned as its two fields (`Id`, message text).

## Findings

| source | as written | input that shows it | evidently intended | confidence | as-written member | corrected member |
|---|---|---|---|---|---|---|
| app/api_1_0/controller.py:49-53 | `return None` sits inside the loop over the first user's items, so only the first key of the first non-empty user dict is compared | users `[{"first@example.com": a}, {"second@example.com": b}]`, email "second@example.com": None is returned | return the account of any user dict with the email as a key, and None after scanning all of them | not executed | Controller.FindUserMissesSecondAccount | Controller.FindUserIntended |
| app/api_1_0/controller.py:36-43 | the `return` of the failure reply sits inside the loop over sessions, so only entry 0 is compared | sessions with Ids 1 and 2, user id "2": 'That user is not logged in' is returned and nothing is removed | remove the first session with the user id, wherever it is | not executed | Controller.LogoutMissesSecondSession | Controller.Controller.LogoutIntended |
| app/api_1_0/validators.py:26-31 | there is no `return False` after the special-characters message, so execution falls through to the blank-title message | a non-blank title for which has_special_characters holds: both "Title cannot contain special characters" and "Title cannot be empty" are appended | append only "Title cannot contain special characters" | not executed | Validators.TitleSpecialReportedBlank | Validators.TitleOutcomeIntended |

The code's own behaviour is kept in the operations (`Controller.FindUser`,
`Controller.Controller.Logout`, `Validators.RedFlagValidators.ValidateTitle`).
The corrected members stand beside them with their intended properties proved.
