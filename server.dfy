/**
 * The request handlers of the sync server over its two data directories.
 * Each handler runs its guard first (get_role for reads, require_editor
 * for writes) and touches the store only when the guard passes.
 */
module Server {
  import opened Wrappers
  import opened Documents
  import opened Http
  import opened Auth
  import opened Paths
  import opened Store

  function ScenarioNotFound(id: string, version: string): HttpError {
    MessageError(404, "Scenario not found: " + id + " v" + version)
  }

  function ProfileNotFound(id: string): HttpError {
    MessageError(404, "Profile not found: " + id)
  }

  /** A file read by a get handler: 404 when absent, the document when it parses, an unhandled error otherwise. */
  function Served(file: ReadResult, notFound: HttpError): (out: Outcome)
    ensures file.Missing? ==> out == Raised(notFound)
    ensures file.Found? ==> out == Ok(file.doc)
    ensures file.Corrupt? ==> out == Unhandled
  {
    match file
    case Missing => Raised(notFound)
    case Corrupt => Unhandled
    case Found(doc) => Ok(doc)
  }

  class SyncServer {
    /** The token map loaded at startup; never changed afterwards. */
    const tokens: map<string, string>
    /** data/scenarios: file name to content. */
    var scenarios: Directory
    /** data/profiles: file name to content. */
    var profiles: Directory

    constructor (tokens: map<string, string>, scenarios: Directory, profiles: Directory)
      ensures this.tokens == tokens && this.scenarios == scenarios && this.profiles == profiles
    {
      this.tokens := tokens;
      this.scenarios := scenarios;
      this.profiles := profiles;
    }

    /** GET /api/scenarios, with the directory enumerated in the glob's order. */
    method ListScenarios(authorization: Option<string>, order: seq<string>) returns (out: Outcome)
      requires Enumerates(order, scenarios)
      ensures out.Ok? ==> out.body.JArray? && |out.body.items| <= |scenarios|
      ensures GetRole(authorization, tokens).Failure? ==> out == Raised(GetRole(authorization, tokens).error)
      ensures GetRole(authorization, tokens).Success? ==> out == Ok(JArray(Listing(ScenarioKind, order, scenarios)))
    {
      var role := GetRole(authorization, tokens);
      if role.Failure? {
        return Raised(role.error);
      }
      var records := CollectMetadata(ScenarioKind, scenarios, order);
      ListingWithinDirectory(ScenarioKind, order, scenarios);
      out := Ok(JArray(records));
    }

    /** GET /api/scenarios/{id}/{version}. */
    method GetScenario(authorization: Option<string>, id: string, version: string) returns (out: Outcome)
      ensures GetRole(authorization, tokens).Failure? ==> out == Raised(GetRole(authorization, tokens).error)
      ensures GetRole(authorization, tokens).Success? ==>
        out == Served(Lookup(scenarios, ScenarioFileName(id, version)), ScenarioNotFound(id, version))
    {
      var role := GetRole(authorization, tokens);
      if role.Failure? {
        return Raised(role.error);
      }
      var name := ScenarioFileName(id, version);
      if name !in scenarios {
        return Raised(ScenarioNotFound(id, version));
      }
      out := if scenarios[name].Document? then Ok(scenarios[name].doc) else Unhandled;
    }

    /** PUT /api/scenarios/{id}/{version}: replace the whole file with the body. */
    method UpsertScenario(authorization: Option<string>, id: string, version: string, body: RequestBody) returns (out: Outcome)
      modifies this
      ensures profiles == old(profiles)
      ensures RequireEditor(authorization, tokens).Failure? ==>
        out == Raised(RequireEditor(authorization, tokens).error) && scenarios == old(scenarios)
      ensures RequireEditor(authorization, tokens).Success? && body.InvalidJson? ==>
        out == Unhandled && scenarios == old(scenarios)
      ensures RequireEditor(authorization, tokens).Success? && body.ParsedBody? ==>
        out == Ok(OkBody()) && scenarios == Written(old(scenarios), ScenarioFileName(id, version), body.doc)
    {
      var role := RequireEditor(authorization, tokens);
      if role.Failure? {
        return Raised(role.error);
      }
      if body.InvalidJson? {
        return Unhandled;
      }
      scenarios := Written(scenarios, ScenarioFileName(id, version), body.doc);
      out := Ok(OkBody());
    }

    /** DELETE /api/scenarios/{id}/{version}. */
    method DeleteScenario(authorization: Option<string>, id: string, version: string) returns (out: Outcome)
      modifies this
      ensures profiles == old(profiles)
      ensures RequireEditor(authorization, tokens).Failure? ==>
        out == Raised(RequireEditor(authorization, tokens).error) && scenarios == old(scenarios)
      ensures RequireEditor(authorization, tokens).Success? && ScenarioFileName(id, version) !in old(scenarios) ==>
        out == Raised(ScenarioNotFound(id, version)) && scenarios == old(scenarios)
      ensures RequireEditor(authorization, tokens).Success? && ScenarioFileName(id, version) in old(scenarios) ==>
        out == Ok(OkBody()) && scenarios == Removed(old(scenarios), ScenarioFileName(id, version))
    {
      var role := RequireEditor(authorization, tokens);
      if role.Failure? {
        return Raised(role.error);
      }
      var name := ScenarioFileName(id, version);
      if name !in scenarios {
        return Raised(ScenarioNotFound(id, version));
      }
      scenarios := Removed(scenarios, name);
      out := Ok(OkBody());
    }

    /** GET /api/profiles, with the directory enumerated in the glob's order. */
    method ListProfiles(authorization: Option<string>, order: seq<string>) returns (out: Outcome)
      requires Enumerates(order, profiles)
      ensures out.Ok? ==> out.body.JArray? && |out.body.items| <= |profiles|
      ensures GetRole(authorization, tokens).Failure? ==> out == Raised(GetRole(authorization, tokens).error)
      ensures GetRole(authorization, tokens).Success? ==> out == Ok(JArray(Listing(ProfileKind, order, profiles)))
    {
      var role := GetRole(authorization, tokens);
      if role.Failure? {
        return Raised(role.error);
      }
      var records := CollectMetadata(ProfileKind, profiles, order);
      ListingWithinDirectory(ProfileKind, order, profiles);
      out := Ok(JArray(records));
    }

    /** GET /api/profiles/{id}. */
    method GetProfile(authorization: Option<string>, id: string) returns (out: Outcome)
      ensures GetRole(authorization, tokens).Failure? ==> out == Raised(GetRole(authorization, tokens).error)
      ensures GetRole(authorization, tokens).Success? ==>
        out == Served(Lookup(profiles, ProfileFileName(id)), ProfileNotFound(id))
    {
      var role := GetRole(authorization, tokens);
      if role.Failure? {
        return Raised(role.error);
      }
      var name := ProfileFileName(id);
      if name !in profiles {
        return Raised(ProfileNotFound(id));
      }
      out := if profiles[name].Document? then Ok(profiles[name].doc) else Unhandled;
    }

    /** PUT /api/profiles/{id}: replace the whole file with the body. */
    method UpsertProfile(authorization: Option<string>, id: string, body: RequestBody) returns (out: Outcome)
      modifies this
      ensures scenarios == old(scenarios)
      ensures RequireEditor(authorization, tokens).Failure? ==>
        out == Raised(RequireEditor(authorization, tokens).error) && profiles == old(profiles)
      ensures RequireEditor(authorization, tokens).Success? && body.InvalidJson? ==>
        out == Unhandled && profiles == old(profiles)
      ensures RequireEditor(authorization, tokens).Success? && body.ParsedBody? ==>
        out == Ok(OkBody()) && profiles == Written(old(profiles), ProfileFileName(id), body.doc)
    {
      var role := RequireEditor(authorization, tokens);
      if role.Failure? {
        return Raised(role.error);
      }
      if body.InvalidJson? {
        return Unhandled;
      }
      profiles := Written(profiles, ProfileFileName(id), body.doc);
      out := Ok(OkBody());
    }

    /** DELETE /api/profiles/{id}. */
    method DeleteProfile(authorization: Option<string>, id: string) returns (out: Outcome)
      modifies this
      ensures scenarios == old(scenarios)
      ensures RequireEditor(authorization, tokens).Failure? ==>
        out == Raised(RequireEditor(authorization, tokens).error) && profiles == old(profiles)
      ensures RequireEditor(authorization, tokens).Success? && ProfileFileName(id) !in old(profiles) ==>
        out == Raised(ProfileNotFound(id)) && profiles == old(profiles)
      ensures RequireEditor(authorization, tokens).Success? && ProfileFileName(id) in old(profiles) ==>
        out == Ok(OkBody()) && profiles == Removed(old(profiles), ProfileFileName(id))
    {
      var role := RequireEditor(authorization, tokens);
      if role.Failure? {
        return Raised(role.error);
      }
      var name := ProfileFileName(id);
      if name !in profiles {
        return Raised(ProfileNotFound(id));
      }
      profiles := Removed(profiles, name);
      out := Ok(OkBody());
    }
  }

  /**
   * An editor's upsert followed by a get of the same key returns the body;
   * every other scenario file reads as before.
   */
  method UpsertThenGetScenario(s: SyncServer, authorization: Option<string>, id: string, version: string, doc: Json)
    returns (put: Outcome, got: Outcome)
    requires RequireEditor(authorization, s.tokens).Success?
    modifies s
    ensures put == Ok(OkBody()) && got == Ok(doc)
    ensures forall n :: n != ScenarioFileName(id, version) ==> Lookup(s.scenarios, n) == Lookup(old(s.scenarios), n)
    ensures s.profiles == old(s.profiles)
  {
    put := s.UpsertScenario(authorization, id, version, ParsedBody(doc));
    got := s.GetScenario(authorization, id, version);
  }

  /** Deleting a stored scenario twice: ok, then 404 "Scenario not found: {id} v{version}". */
  method DeleteScenarioTwice(s: SyncServer, authorization: Option<string>, id: string, version: string)
    returns (first: Outcome, second: Outcome)
    requires RequireEditor(authorization, s.tokens).Success?
    requires ScenarioFileName(id, version) in s.scenarios
    modifies s
    ensures first == Ok(OkBody())
    ensures second == Raised(MessageError(404, "Scenario not found: " + id + " v" + version))
    ensures s.scenarios == Removed(old(s.scenarios), ScenarioFileName(id, version))
    ensures s.profiles == old(s.profiles)
  {
    first := s.DeleteScenario(authorization, id, version);
    second := s.DeleteScenario(authorization, id, version);
  }

  /** Deleting a stored profile twice: ok, then 404 "Profile not found: {id}". */
  method DeleteProfileTwice(s: SyncServer, authorization: Option<string>, id: string)
    returns (first: Outcome, second: Outcome)
    requires RequireEditor(authorization, s.tokens).Success?
    requires ProfileFileName(id) in s.profiles
    modifies s
    ensures first == Ok(OkBody())
    ensures second == Raised(MessageError(404, "Profile not found: " + id))
    ensures s.profiles == Removed(old(s.profiles), ProfileFileName(id))
    ensures s.scenarios == old(s.scenarios)
  {
    first := s.DeleteProfile(authorization, id);
    second := s.DeleteProfile(authorization, id);
  }

  /**
   * A viewer (any recognised non-"editor" role) can read but cannot write:
   * its PUT is refused with 403 and the directories are unchanged.
   */
  method ViewerCannotUpsert(s: SyncServer, authorization: Option<string>, id: string, version: string, body: RequestBody)
    returns (got: Outcome, put: Outcome)
    requires GetRole(authorization, s.tokens).Success? && GetRole(authorization, s.tokens).value != "editor"
    modifies s
    ensures got == Served(Lookup(old(s.scenarios), ScenarioFileName(id, version)), ScenarioNotFound(id, version))
    ensures put == Raised(MessageError(403, "Editor role required"))
    ensures s.scenarios == old(s.scenarios) && s.profiles == old(s.profiles)
  {
    got := s.GetScenario(authorization, id, version);
    put := s.UpsertScenario(authorization, id, version, body);
  }

  /** An upserted scenario with the listing's required members appears in the next listing. */
  lemma UpsertedScenarioIsListed(dir: Directory, id: string, version: string, doc: Json, order: seq<string>)
    requires Project(ScenarioKind, doc).Some?
    requires Enumerates(order, Written(dir, ScenarioFileName(id, version), doc))
    ensures Project(ScenarioKind, doc).value in Listing(ScenarioKind, order, Written(dir, ScenarioFileName(id, version), doc))
  {
    WrittenDocumentIsListed(ScenarioKind, dir, ScenarioFileName(id, version), doc, order);
  }

  /**
   * Upserting one scenario key changes what a get of a colliding key
   * returns: ("a_v1", "2") and ("a", "1_v2") share one file.
   */
  lemma CollidingUpsertOverwrites(dir: Directory, doc: Json)
    ensures Served(Lookup(Written(dir, ScenarioFileName("a_v1", "2"), doc), ScenarioFileName("a", "1_v2")),
                   ScenarioNotFound("a", "1_v2")) == Ok(doc)
  {
    ScenarioFileNamesCollide();
  }

  /** An HTTPException whose detail is exactly {"message": text}, which the client reads. */
  predicate IsMessageError(e: HttpError) {
    && e.detail.Structured?
    && e.detail.fields.Keys == {"message"}
    && e.detail.fields["message"].JString?
    && HandleHttpException(e) == Response(e.status, MessageBody(e.detail.fields["message"].s))
  }

  /**
   * Every error the handlers raise reaches the client as {"message": text}
   * with status 401, 403 or 404: the guards' failures and both not-found
   * errors.
   */
  lemma RaisedErrorsAreMessages(authorization: Option<string>, tokens: map<string, string>, id: string, version: string)
    ensures GetRole(authorization, tokens).Failure? ==>
      var e := GetRole(authorization, tokens).error; IsMessageError(e) && e.status in {401, 403}
    ensures RequireEditor(authorization, tokens).Failure? ==>
      var e := RequireEditor(authorization, tokens).error; IsMessageError(e) && e.status in {401, 403}
    ensures IsMessageError(ScenarioNotFound(id, version)) && ScenarioNotFound(id, version).status == 404
    ensures IsMessageError(ProfileNotFound(id)) && ProfileNotFound(id).status == 404
  {
    MessageErrorIsMessage(401, MissingHeaderMessage);
    MessageErrorIsMessage(401, InvalidHeaderMessage);
    MessageErrorIsMessage(403, UnknownTokenMessage);
    MessageErrorIsMessage(403, EditorRequiredMessage);
    MessageErrorIsMessage(404, "Scenario not found: " + id + " v" + version);
    MessageErrorIsMessage(404, "Profile not found: " + id);
    GuardErrorKinds(authorization, tokens);
  }

  lemma MessageErrorIsMessage(status: int, msg: string)
    ensures IsMessageError(MessageError(status, msg))
  {
  }

  /** The guards fail only with one of their four errors. */
  lemma GuardErrorKinds(authorization: Option<string>, tokens: map<string, string>)
    ensures GetRole(authorization, tokens).Failure? ==>
      GetRole(authorization, tokens).error in {MissingHeader(), InvalidHeader(), UnknownToken()}
    ensures RequireEditor(authorization, tokens).Failure? ==>
      RequireEditor(authorization, tokens).error in {MissingHeader(), InvalidHeader(), UnknownToken(), EditorRequired()}
  {
  }
}
