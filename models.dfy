/**
 * The incident record engine of app/api_1_0/models.py: an IncidentModel runs four
 * validating setters when it is built (owner, type, location, comment), each of
 * which either stores its input or stores None and appends one message to a
 * shared error list; save then appends the record to the store only if all four
 * fields were stored.
 */
module Models {
  import opened Wrappers
  import opened Text

  const OwnerBlank := "Incident owner should not be blank"
  const OwnerNotInteger := "Created by should be an Integer"
  const TypeBlank := "Incident type should not be empty"
  const TypeUnknown := "Incident type should either be a 'red-flag' or 'intervention'"
  const LocationBlank := "Location should not be empty"
  const TwoCoordinatesRequired := "Two coordinates required"
  const CoordinatesNotFloat := "Coordinates should be floating point values"
  const CommentBlank := "Comments cannot be empty"
  const CreatedMessage := "Successfuly created incident"

  const IncidentTypes: seq<string> := ["red-flag", "intervention"]

  /** What one setter does with its input: store it, or store None and append a message. */
  datatype Verdict = Accepted(value: string) | Rejected(message: string) {
    /** The value the setter leaves in its field. */
    function Stored(): Option<string> {
      if Accepted? then Some(value) else None
    }
    /** The messages the setter appends to the error list. */
    function Messages(): seq<string> {
      if Accepted? then [] else [message]
    }
  }

  /** The created_by setter: a non-blank owner that int() accepts is stored as given. */
  function CheckOwner(p: Parsers, creator: string): (v: Verdict)
    ensures v.Accepted? <==> !IsEmpty(creator) && p.AcceptsInt(creator)
    ensures v.Accepted? ==> v.value == creator
    ensures v.Rejected? && IsEmpty(creator) ==> v.message == OwnerBlank
    ensures v.Rejected? && !IsEmpty(creator) ==> v.message == OwnerNotInteger
  {
    if !IsEmpty(creator) then
      if p.AcceptsInt(creator) then Accepted(creator) else Rejected(OwnerNotInteger)
    else Rejected(OwnerBlank)
  }

  /** The incident_type setter. */
  function CheckType(incidentType: string): (v: Verdict)
    ensures v.Accepted? <==> incidentType == "red-flag" || incidentType == "intervention"
    ensures v.Accepted? ==> v.value == incidentType
    ensures v.Rejected? ==> v.message == if IsEmpty(incidentType) then TypeBlank else TypeUnknown
  {
    if !IsEmpty(incidentType) then
      if incidentType in IncidentTypes then Accepted(incidentType) else Rejected(TypeUnknown)
    else
      IncidentTypesNotBlank();
      Rejected(TypeBlank)
  }

  lemma IncidentTypesNotBlank()
    ensures !IsEmpty("red-flag") && !IsEmpty("intervention")
  {
    assert "red-flag"[0] == 'r' && "intervention"[0] == 'i';
  }

  /** The location checks after the blank test; validate_location of the
      validators module runs the same ones. */
  function CheckCoordinates(p: Parsers, location: string): (v: Verdict)
    ensures v.Accepted? ==> v.value == location
    ensures v == Rejected(TwoCoordinatesRequired) <==> Count(location, ',') != 1
    ensures v.Rejected? ==> v.message in {TwoCoordinatesRequired, CoordinatesNotFloat}
  {
    var coordinates := Coordinates(location);
    if |coordinates| == 2 then
      if p.AcceptsFloat(coordinates[0]) && p.AcceptsFloat(coordinates[1]) then Accepted(location)
      else Rejected(CoordinatesNotFloat)
    else Rejected(TwoCoordinatesRequired)
  }

  /** The location setter. */
  function CheckLocation(p: Parsers, location: string): (v: Verdict)
    ensures IsEmpty(location) ==> v == Rejected(LocationBlank)
    ensures !IsEmpty(location) ==> v == CheckCoordinates(p, location)
  {
    if !IsEmpty(location) then CheckCoordinates(p, location) else Rejected(LocationBlank)
  }

  /** A location is well formed when it holds exactly one comma and the stripped
      text on either side of it is accepted by float(). */
  ghost predicate WellFormedLocation(p: Parsers, location: string) {
    exists k :: 0 <= k < |location| && location[k] == ',' && ',' !in location[..k] && ',' !in location[k + 1..]
      && p.AcceptsFloat(Strip(location[..k])) && p.AcceptsFloat(Strip(location[k + 1..]))
  }

  /** The location setter stores exactly the well-formed, non-blank locations. */
  lemma {:induction false} LocationAcceptedIff(p: Parsers, location: string)
    ensures CheckLocation(p, location).Accepted? <==> !IsEmpty(location) && WellFormedLocation(p, location)
  {
    if CheckLocation(p, location).Accepted? {
      var k := SoleComma(location);
      CoordinatesAtComma(location, k);
    }
    if !IsEmpty(location) && WellFormedLocation(p, location) {
      var k :| 0 <= k < |location| && location[k] == ',' && ',' !in location[..k] && ',' !in location[k + 1..]
        && p.AcceptsFloat(Strip(location[..k])) && p.AcceptsFloat(Strip(location[k + 1..]));
      CoordinatesAtComma(location, k);
    }
  }

  /** The comment setter. */
  function CheckComment(comment: string): (v: Verdict)
    ensures v.Accepted? <==> !IsEmpty(comment)
    ensures v.Accepted? ==> v.value == comment
    ensures v.Rejected? ==> v.message == CommentBlank
  {
    if !IsEmpty(comment) then Accepted(comment) else Rejected(CommentBlank)
  }

  /** The messages the four setters append, in the order the constructor runs them. */
  function ConstructionErrors(p: Parsers, creator: string, incidentType: string, location: string, comment: string): (errors: seq<string>)
    ensures |errors| <= 4
    ensures errors == [] <==> CheckOwner(p, creator).Accepted? && CheckType(incidentType).Accepted?
                              && CheckLocation(p, location).Accepted? && CheckComment(comment).Accepted?
  {
    CheckOwner(p, creator).Messages() + CheckType(incidentType).Messages()
    + CheckLocation(p, location).Messages() + CheckComment(comment).Messages()
  }

  /** Every setter runs, whatever the earlier ones did: one message per rejected
      field, and none exactly when all four are accepted. */
  lemma {:induction false} ConstructionErrorsPerField(p: Parsers, creator: string, incidentType: string, location: string, comment: string)
    ensures |ConstructionErrors(p, creator, incidentType, location, comment)| ==
            Rejections(CheckOwner(p, creator)) + Rejections(CheckType(incidentType))
            + Rejections(CheckLocation(p, location)) + Rejections(CheckComment(comment))
    ensures ConstructionErrors(p, creator, incidentType, location, comment) == [] <==>
            CheckOwner(p, creator).Accepted? && CheckType(incidentType).Accepted?
            && CheckLocation(p, location).Accepted? && CheckComment(comment).Accepted?
  {
  }

  /** 1 for a rejected field, 0 for an accepted one. */
  function Rejections(v: Verdict): nat {
    if v.Rejected? then 1 else 0
  }

  /** The fields the setters leave are all truthy, as save requires, exactly when
      the setters reported nothing. */
  lemma {:induction false} CompleteIffNoErrors(p: Parsers, creator: string, incidentType: string, location: string, comment: string)
    ensures Truthy(CheckOwner(p, creator).Stored()) && Truthy(CheckType(incidentType).Stored())
            && Truthy(CheckLocation(p, location).Stored()) && Truthy(CheckComment(comment).Stored())
            <==> ConstructionErrors(p, creator, incidentType, location, comment) == []
  {
    ConstructionErrorsPerField(p, creator, incidentType, location, comment);
    assert IsEmpty("");
  }

  /** When the setters report nothing, each field holds its input unchanged. */
  lemma {:induction false} NoErrorsStoresInputs(p: Parsers, creator: string, incidentType: string, location: string, comment: string)
    requires ConstructionErrors(p, creator, incidentType, location, comment) == []
    ensures CheckOwner(p, creator).Stored() == Some(creator) && CheckType(incidentType).Stored() == Some(incidentType)
    ensures CheckLocation(p, location).Stored() == Some(location) && CheckComment(comment).Stored() == Some(comment)
  {
    ConstructionErrorsPerField(p, creator, incidentType, location, comment);
  }

  /** The first message reported is that of the first rejected field, in the order
      owner, type, location, comment. */
  lemma {:induction false} FirstConstructionError(p: Parsers, creator: string, incidentType: string, location: string, comment: string)
    requires ConstructionErrors(p, creator, incidentType, location, comment) != []
    ensures var first := ConstructionErrors(p, creator, incidentType, location, comment)[0];
            first == if CheckOwner(p, creator).Rejected? then CheckOwner(p, creator).message
                     else if CheckType(incidentType).Rejected? then CheckType(incidentType).message
                     else if CheckLocation(p, location).Rejected? then CheckLocation(p, location).message
                     else CheckComment(comment).message
  {
  }

  /** Appending four message lists one after the other appends their concatenation. */
  lemma AppendFour(m: seq<string>, a: seq<string>, b: seq<string>, c: seq<string>, d: seq<string>)
    ensures m + a + b + c + d == m + (a + b + c + d)
  {
  }

  /** The dictionary describe_incident builds; None stands for the Python value None,
      and an id of None for the '' an incident carries before it is saved. */
  datatype IncidentRecord = IncidentRecord(
    id: Option<nat>,
    owner: Option<string>,
    dateCreated: string,
    incidentType: Option<string>,
    location: Option<string>,
    status: string,
    comment: Option<string>,
    images: seq<string>,
    videos: seq<string>)

  /** What save returns. */
  datatype SaveResult = Created(id: nat, message: string) | Invalid(errors: seq<string>) {
    predicate Status() { Created? }
  }

  /** Python truthiness of a stored field value. */
  predicate Truthy(field: Option<string>) {
    field.Some? && field.value != ""
  }

  /** Each entry's key is its position plus one, as save assigns them. */
  ghost predicate KeysArePositions(entries: seq<(nat, IncidentRecord)>) {
    forall i :: 0 <= i < |entries| ==> entries[i].0 == i + 1
  }

  /** An error list that several incidents share (the default argument errors=[]). */
  class ErrorLog {
    var messages: seq<string>

    constructor ()
      ensures messages == []
    {
      messages := [];
    }

    /** list.clear() */
    method Clear()
      modifies this
      ensures messages == []
    {
      messages := [];
    }
  }

  /** The list save appends to: one single-key entry {id: record} per saved incident. */
  class IncidentStore {
    var entries: seq<(nat, IncidentRecord)>

    constructor ()
      ensures entries == []
    {
      entries := [];
    }

    ghost predicate Valid()
      reads this
    {
      KeysArePositions(entries)
    }
  }

  class IncidentModel {
    const parsers: Parsers
    const errors: ErrorLog
    var id: Option<nat>
    var createdBy: Option<string>
    var createdOn: string
    var incidentType: Option<string>
    var location: Option<string>
    var status: string
    var comment: Option<string>
    var images: seq<string>
    var videos: seq<string>

    /** Runs the four setters in order; now is the str() of the construction time. */
    constructor (p: Parsers, creator: string, kind: string, place: string, text: string, now: string, log: ErrorLog)
      modifies log
      ensures parsers == p && errors == log
      ensures createdBy == CheckOwner(p, creator).Stored()
      ensures incidentType == CheckType(kind).Stored()
      ensures location == CheckLocation(p, place).Stored()
      ensures comment == CheckComment(text).Stored()
      ensures log.messages == old(log.messages) + ConstructionErrors(p, creator, kind, place, text)
      ensures id == None && createdOn == now && status == "" && images == [] && videos == []
      ensures IsComplete() <==> ConstructionErrors(p, creator, kind, place, text) == []
      ensures ConstructionErrors(p, creator, kind, place, text) == [] ==>
                Describe() == IncidentRecord(None, Some(creator), now, Some(kind), Some(place), "", Some(text), [], [])
    {
      // The setters, in the order the constructor assigns the properties; each
      // stores its verdict's value and appends its verdict's messages.
      var owner, kindVerdict := CheckOwner(p, creator), CheckType(kind);
      var placeVerdict, textVerdict := CheckLocation(p, place), CheckComment(text);
      parsers, errors, id := p, log, None;
      createdBy := owner.Stored();
      log.messages := log.messages + owner.Messages();
      createdOn := now;
      incidentType := kindVerdict.Stored();
      log.messages := log.messages + kindVerdict.Messages();
      location := placeVerdict.Stored();
      log.messages := log.messages + placeVerdict.Messages();
      status := "";
      comment := textVerdict.Stored();
      log.messages := log.messages + textVerdict.Messages();
      images, videos := [], [];
      AppendFour(old(log.messages), owner.Messages(), kindVerdict.Messages(), placeVerdict.Messages(), textVerdict.Messages());
      CompleteIffNoErrors(p, creator, kind, place, text);
      if ConstructionErrors(p, creator, kind, place, text) == [] {
        NoErrorsStoresInputs(p, creator, kind, place, text);
      }
    }

    method SetCreatedBy(creator: string)
      modifies this`createdBy, errors
      ensures createdBy == CheckOwner(parsers, creator).Stored()
      ensures errors.messages == old(errors.messages) + CheckOwner(parsers, creator).Messages()
    {
      if !IsEmpty(creator) {
        if parsers.AcceptsInt(creator) {
          createdBy := Some(creator);
        } else {
          createdBy := None;
          errors.messages := errors.messages + [OwnerNotInteger];
        }
      } else {
        createdBy := None;
        errors.messages := errors.messages + [OwnerBlank];
      }
    }

    method SetIncidentType(kind: string)
      modifies this`incidentType, errors
      ensures incidentType == CheckType(kind).Stored()
      ensures errors.messages == old(errors.messages) + CheckType(kind).Messages()
    {
      if !IsEmpty(kind) {
        if kind in IncidentTypes {
          incidentType := Some(kind);
        } else {
          incidentType := None;
          errors.messages := errors.messages + [TypeUnknown];
        }
      } else {
        incidentType := None;
        errors.messages := errors.messages + [TypeBlank];
      }
    }

    method SetLocation(place: string)
      modifies this`location, errors
      ensures location == CheckLocation(parsers, place).Stored()
      ensures errors.messages == old(errors.messages) + CheckLocation(parsers, place).Messages()
    {
      if !IsEmpty(place) {
        var coordinates := Coordinates(place);
        if |coordinates| == 2 {
          // float() of both coordinates, inside one try block
          if parsers.AcceptsFloat(coordinates[0]) && parsers.AcceptsFloat(coordinates[1]) {
            location := Some(place);
          } else {
            errors.messages := errors.messages + [CoordinatesNotFloat];
            location := None;
          }
        } else {
          location := None;
          errors.messages := errors.messages + [TwoCoordinatesRequired];
        }
      } else {
        location := None;
        errors.messages := errors.messages + [LocationBlank];
      }
    }

    method SetComment(text: string)
      modifies this`comment, errors
      ensures comment == CheckComment(text).Stored()
      ensures errors.messages == old(errors.messages) + CheckComment(text).Messages()
    {
      if !IsEmpty(text) {
        comment := Some(text);
      } else {
        errors.messages := errors.messages + [CommentBlank];
        comment := None;
      }
    }

    /** All four validated fields hold a truthy value. */
    predicate IsComplete()
      reads this
    {
      Truthy(createdBy) && Truthy(incidentType) && Truthy(location) && Truthy(comment)
    }

    /** describe_incident */
    function Describe(): (r: IncidentRecord)
      reads this
      ensures r.id == id && r.owner == createdBy && r.dateCreated == createdOn && r.incidentType == incidentType
      ensures r.location == location && r.status == status && r.comment == comment
      ensures r.images == images && r.videos == videos
      ensures IsComplete() <==> Truthy(r.owner) && Truthy(r.incidentType) && Truthy(r.location) && Truthy(r.comment)
    {
      IncidentRecord(id, createdBy, createdOn, incidentType, location, status, comment, images, videos)
    }

    /** All or nothing: a complete incident gets id len(db) + 1 and is appended to db
        under that key; otherwise db is untouched and the error list is returned. */
    method Save(db: IncidentStore) returns (r: SaveResult)
      modifies this`id, db
      ensures r.Status() <==> old(IsComplete())
      ensures r.Created? ==> r.id == |old(db.entries)| + 1 && id == Some(r.id) && r.message == CreatedMessage
      ensures r.Created? ==> db.entries == old(db.entries) + [(r.id, Describe())]
      ensures r.Invalid? ==> db.entries == old(db.entries) && id == old(id) && r.errors == errors.messages
      ensures old(db.Valid()) ==> db.Valid()
    {
      if Truthy(createdBy) && Truthy(incidentType) && Truthy(location) && Truthy(comment) {
        id := Some(|db.entries| + 1);
        db.entries := db.entries + [(|db.entries| + 1, Describe())];
        r := Created(|db.entries|, CreatedMessage);
      } else {
        r := Invalid(errors.messages);
      }
    }
  }

  /** Scenario: a single coordinate is refused with "Two coordinates required" as the
      first error (tests/unit/v1/test_incident.py). */
  lemma {:induction false} SingleCoordinateRejected(p: Parsers)
    requires p.AcceptsInt("1")
    ensures ConstructionErrors(p, "1", "red-flag", "34.5", "Thieves thieves thieves") == [TwoCoordinatesRequired]
  {
    assert "1"[0] == '1' && "34.5"[0] == '3' && "Thieves thieves thieves"[0] == 'T';
    assert CheckOwner(p, "1") == Accepted("1");
    assert CheckComment("Thieves thieves thieves") == Accepted("Thieves thieves thieves");
    assert Count("34.5", ',') == 0 by {
      assert "34.5"[1..] == "4.5" && "4.5"[1..] == ".5" && ".5"[1..] == "5" && "5"[1..] == "";
    }
    assert CheckLocation(p, "34.5") == Rejected(TwoCoordinatesRequired);
  }
}
