/** The route that saves a signed-in user's default picks: it refuses a
    visitor who is not signed in, refuses a body that is not JSON, keeps
    only the four default fields of the body, each trimmed when it is a
    non-blank string and null otherwise, and writes them to the user's
    profile. The database write is a parameter: its error, if any. */
module ProfileDefaults {
  import opened Common

  /** A JSON value as far as this route cares: a string, or anything else
      (a number, a boolean, null, an array, an object). */
  datatype JsonValue = JString(s: string) | JOther

  /** A parsed request body: an object, the literal `null`, or another
      value (a number, a string, an array), whose fields all read as
      missing. */
  datatype Body = Object(fields: map<string, JsonValue>) | Null | Primitive

  const AllowedFields := ["default_pole_driver", "default_p1_driver", "default_p2_driver", "default_p3_driver"]

  /** `body[field]`, `None` for a missing field. */
  function FieldOf(fields: map<string, JsonValue>, field: string): Option<JsonValue> {
    if field in fields then Some(fields[field]) else None
  }

  /** What is stored for one field: the trimmed text of a string that is
      not blank, otherwise null. */
  function SanitizedValue(v: Option<JsonValue>): (r: Option<string>)
    ensures r.Some? <==> v.Some? && v.value.JString? && Trim(v.value.s) != ""
    ensures r.Some? ==> r.value == Trim(v.value.s) && r.value != "" && Trimmed(r.value)
  {
    if v.Some? && v.value.JString? && Trim(v.value.s) != "" then
      TrimIsTrimmed(v.value.s);
      Some(Trim(v.value.s))
    else None
  }

  /** The update record: exactly the four default fields, each sanitised;
      every other field of the body is ignored. */
  method Sanitize(fields: map<string, JsonValue>) returns (updates: map<string, Option<string>>)
    ensures updates.Keys == set f | f in AllowedFields
    ensures forall f | f in updates :: updates[f] == SanitizedValue(FieldOf(fields, f))
  {
    updates := map[];
    for i := 0 to |AllowedFields|
      invariant updates.Keys == set f | f in AllowedFields[..i]
      invariant forall f | f in updates :: updates[f] == SanitizedValue(FieldOf(fields, f))
    {
      var field := AllowedFields[i];
      var value := FieldOf(fields, field);
      updates := updates[field := SanitizedValue(value)];
      assert AllowedFields[..i + 1] == AllowedFields[..i] + [field];
    }
    assert AllowedFields[..|AllowedFields|] == AllowedFields;
  }

  /** The body a client would send back from a stored record: each stored
      text as a string and each null as null. */
  function Resent(updates: map<string, Option<string>>): map<string, JsonValue> {
    map f | f in updates :: if updates[f].Some? then JString(updates[f].value) else JOther
  }

  /** Sanitising a sanitised record changes nothing: a stored text is
      already trimmed and not blank, and null stays null. */
  lemma SanitizeIdempotent(fields: map<string, JsonValue>, f: string)
    ensures SanitizedValue(FieldOf(Resent(map g | g in AllowedFields :: SanitizedValue(FieldOf(fields, g))), f))
      == (if f in AllowedFields then SanitizedValue(FieldOf(fields, f)) else None)
  {
    var updates := map g | g in AllowedFields :: SanitizedValue(FieldOf(fields, g));
    if f in AllowedFields {
      var v := SanitizedValue(FieldOf(fields, f));
      if v.Some? {
        var raw := FieldOf(fields, f).value.s;
        TrimIdempotent(raw);
        assert Trim(v.value) == v.value;
      }
    }
  }

  /** The route's answers. `Crashed` is the unhandled failure when the body
      is the literal `null`, whose fields cannot be read. */
  datatype Outcome = Unauthorized | InvalidBody | Crashed | StoreFailed(message: string) | Saved

  /** The route with the session check's result, the parsed body (`None`
      when it is not JSON) and the database write's error as parameters.
      `written` is the update record handed to the database, if the route
      got that far. */
  method Post(signedIn: bool, body: Option<Body>, storeError: Option<string>)
    returns (outcome: Outcome, written: Option<map<string, Option<string>>>)
    ensures !signedIn <==> outcome == Unauthorized
    ensures signedIn && body.None? <==> outcome == InvalidBody
    ensures outcome == Crashed <==> signedIn && body == Some(Null)
    ensures written.Some? <==> outcome.StoreFailed? || outcome == Saved
    ensures written.Some? ==> written.value.Keys == set f | f in AllowedFields
    ensures written.Some? ==> forall f | f in written.value ::
      written.value[f] == SanitizedValue(if body.value.Object? then FieldOf(body.value.fields, f) else None)
    ensures outcome.StoreFailed? <==> written.Some? && storeError.Some?
    ensures outcome.StoreFailed? ==> outcome.message == storeError.value
  {
    if !signedIn {
      return Unauthorized, None;
    }
    if body.None? {
      return InvalidBody, None;
    }
    if body.value.Null? {
      return Crashed, None;
    }
    var fields := if body.value.Object? then body.value.fields else map[];
    var updates := Sanitize(fields);
    written := Some(updates);
    if storeError.Some? {
      outcome := StoreFailed(storeError.value);
    } else {
      outcome := Saved;
    }
  }
}
