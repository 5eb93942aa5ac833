/**
 * The incident endpoints of app/api_1_0/views.py: post builds an incident from the
 * request fields and saves it to the module-level store, and get looks a saved
 * incident up by the decimal text of its id.
 */
module Views {
  import opened Wrappers
  import opened Text
  import opened Models

  const ResourceNotFound := "That resource cannot be found"

  /** The JSON body of a response. */
  datatype Body =
    | Data(record: IncidentRecord)
    | CreatedData(id: nat, message: string)
    | Errors(errors: seq<string>)
    | Error(error: string)

  /** A response: its status code and its body. */
  datatype Response = Response(status: int, body: Body)

  /** find_incident: scans the entries in insertion order for a key that reads as
      the requested id. */
  function FindIncident(entries: seq<(nat, IncidentRecord)>, incidentId: string): (r: Option<IncidentRecord>)
    ensures r.Some? ==> exists i :: 0 <= i < |entries| && HasKey(entries[i], incidentId) && entries[i].1 == r.value
  {
    if entries == [] then None
    else if HasKey(entries[0], incidentId) then Some(entries[0].1)
    else FindIncident(entries[1..], incidentId)
  }

  /** find_incident returns the record of the first entry whose key reads as the
      requested id, and None when there is no such entry. */
  lemma {:induction false} FindIncidentFirstMatch(entries: seq<(nat, IncidentRecord)>, incidentId: string)
    ensures FindIncident(entries, incidentId).Some? <==> exists i :: 0 <= i < |entries| && HasKey(entries[i], incidentId)
    ensures FindIncident(entries, incidentId).Some? ==>
              exists i :: FirstWithKey(entries, incidentId, i) && entries[i].1 == FindIncident(entries, incidentId).value
  {
    if entries != [] && !HasKey(entries[0], incidentId) {
      var rest := entries[1..];
      FindIncidentFirstMatch(rest, incidentId);
      if exists i :: 0 <= i < |entries| && HasKey(entries[i], incidentId) {
        var i :| 0 <= i < |entries| && HasKey(entries[i], incidentId);
        assert HasKey(rest[i - 1], incidentId);
      }
      if FindIncident(rest, incidentId).Some? {
        var i :| FirstWithKey(rest, incidentId, i) && rest[i].1 == FindIncident(rest, incidentId).value;
        assert FirstWithKey(entries, incidentId, i + 1);
      }
    } else if entries != [] {
      assert FirstWithKey(entries, incidentId, 0);
    }
  }

  /** str(key) == str(incident_id), for an entry's key. */
  predicate HasKey(entry: (nat, IncidentRecord), incidentId: string) {
    NatToString(entry.0) == incidentId
  }

  /** Entry i is the first whose key reads as the requested id. */
  ghost predicate FirstWithKey(entries: seq<(nat, IncidentRecord)>, incidentId: string, i: int) {
    0 <= i < |entries| && HasKey(entries[i], incidentId) && forall j :: 0 <= j < i ==> !HasKey(entries[j], incidentId)
  }

  /** get: 200 with the record when it is found, 404 otherwise. */
  function Get(entries: seq<(nat, IncidentRecord)>, incidentId: string): (r: Response)
    ensures r.status == 200 <==> FindIncident(entries, incidentId).Some?
    ensures r.status == 200 ==> r.body.Data? && Some(r.body.record) == FindIncident(entries, incidentId)
    ensures r.status != 200 ==> r == Response(404, Error(ResourceNotFound))
  {
    match FindIncident(entries, incidentId)
    case Some(record) => Response(200, Data(record))
    case None => Response(404, Error(ResourceNotFound))
  }

  /** get answers 200 exactly when some entry's key reads as the requested id, with
      the record of the first such entry. */
  lemma {:induction false} GetFoundIff(entries: seq<(nat, IncidentRecord)>, incidentId: string)
    ensures Get(entries, incidentId).status == 200 <==> exists i :: 0 <= i < |entries| && HasKey(entries[i], incidentId)
    ensures Get(entries, incidentId).status == 200 ==>
              exists i :: FirstWithKey(entries, incidentId, i) && Get(entries, incidentId).body == Data(entries[i].1)
  {
    FindIncidentFirstMatch(entries, incidentId);
  }

  /** In a store whose keys are positions, the id of an appended entry finds that entry. */
  lemma {:induction false} FindAfterSave(entries: seq<(nat, IncidentRecord)>, record: IncidentRecord)
    requires KeysArePositions(entries)
    ensures FindIncident(entries + [(|entries| + 1, record)], NatToString(|entries| + 1)) == Some(record)
    ensures Get(entries + [(|entries| + 1, record)], NatToString(|entries| + 1)) == Response(200, Data(record))
  {
    var grown := entries + [(|entries| + 1, record)];
    var id := NatToString(|entries| + 1);
    assert HasKey(grown[|entries|], id);
    FindIncidentFirstMatch(grown, id);
    var found := FindIncident(grown, id);
    var i :| FirstWithKey(grown, id, i) && grown[i].1 == found.value;
    if i < |entries| {
      NatToStringInjective(grown[i].0, |entries| + 1);
    }
  }

  /** The record save stores for an incident whose four fields were all accepted. */
  function Saved(creator: string, kind: string, location: string, comment: string, now: string, id: nat): IncidentRecord {
    IncidentRecord(Some(id), Some(creator), now, Some(kind), Some(location), "", Some(comment), [], [])
  }

  /** post: 201 exactly when the setters reported nothing, and then the store grows
      by the saved record, which get finds under the returned id; otherwise 400 with
      a copy of the shared error list, which is left empty. */
  method Post(p: Parsers, db: IncidentStore, log: ErrorLog, creator: string, kind: string, location: string, comment: string, now: string)
    returns (r: Response)
    modifies db, log
    ensures r.status == 201 <==> ConstructionErrors(p, creator, kind, location, comment) == []
    ensures r.status == 201 || r.status == 400
    ensures r.status == 201 ==> r.body == CreatedData(|old(db.entries)| + 1, CreatedMessage)
    ensures r.status == 201 ==> log.messages == old(log.messages)
    ensures r.status == 201 ==> db.entries == old(db.entries) + [(|old(db.entries)| + 1, Saved(creator, kind, location, comment, now, |old(db.entries)| + 1))]
    ensures r.status == 201 && old(db.Valid()) ==>
              Get(db.entries, NatToString(|old(db.entries)| + 1)) == Response(200, Data(Saved(creator, kind, location, comment, now, |old(db.entries)| + 1)))
    ensures r.status == 400 ==> r.body == Errors(old(log.messages) + ConstructionErrors(p, creator, kind, location, comment))
    ensures r.status == 400 ==> db.entries == old(db.entries) && log.messages == []
    ensures old(db.Valid()) ==> db.Valid()
  {
    var incident := new IncidentModel(p, creator, kind, location, comment, now, log);
    ghost var before, draft := db.entries, incident.Describe();
    var res := incident.Save(db);
    if res.Created? {
      assert incident.Describe() == draft.(id := Some(res.id));
      if KeysArePositions(before) {
        FindAfterSave(before, incident.Describe());
      }
      return Response(201, CreatedData(res.id, res.message));
    }
    var validationErrors := res.errors;
    log.Clear();
    return Response(400, Errors(validationErrors));
  }
}
