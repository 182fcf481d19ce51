/**
 * The resource store: one data directory per resource kind, as a map from
 * file name to file content, and the metadata listing over it.
 */
module Store {
  import opened Wrappers
  import opened Documents
  import opened Paths

  /** The content of a stored file: a document that json.load parses, or one it rejects. */
  datatype StoredFile = Document(doc: Json) | Unreadable

  /** A data directory: file name to content. */
  type Directory = map<string, StoredFile>

  /** What reading one file of a directory finds. */
  datatype ReadResult = Missing | Corrupt | Found(doc: Json)

  function Lookup(dir: Directory, name: string): (r: ReadResult)
    ensures r == Missing <==> name !in dir
    ensures r.Found? <==> name in dir && dir[name].Document?
    ensures r.Found? ==> r.doc == dir[name].doc
  {
    if name !in dir then Missing
    else match dir[name]
      case Document(doc) => Found(doc)
      case Unreadable => Corrupt
  }

  /** _write_json: the file at name is replaced by the whole document; nothing else changes. */
  function Written(dir: Directory, name: string, doc: Json): (r: Directory)
    ensures Lookup(r, name) == Found(doc)
    ensures forall n :: n != name ==> Lookup(r, n) == Lookup(dir, n)
    ensures r.Keys == dir.Keys + {name}
  {
    dir[name := Document(doc)]
  }

  /** path.unlink(): the file at name is gone; nothing else changes. */
  function Removed(dir: Directory, name: string): (r: Directory)
    ensures Lookup(r, name) == Missing
    ensures forall n :: n != name ==> Lookup(r, n) == Lookup(dir, n)
    ensures name in dir ==> |r| == |dir| - 1
    ensures name !in dir ==> r == dir
  {
    dir - {name}
  }

  /** The two resource kinds, each with its own directory and metadata projection. */
  datatype Kind = ScenarioKind | ProfileKind

  /** The members a document must have to be listed. */
  function RequiredFields(kind: Kind): set<string> {
    match kind
    case ScenarioKind => {"id", "version", "updatedAt"}
    case ProfileKind => {"id", "updatedAt"}
  }

  /**
   * The metadata record of one document: {id, version, updatedAt, name}
   * for a scenario, with name defaulting to id; {id, updatedAt} for a
   * profile. None when the document is not an object or lacks one of the
   * required members (the KeyError or TypeError that the listing catches).
   */
  function Project(kind: Kind, doc: Json): (r: Option<Json>)
    ensures r.Some? <==> doc.JObject? && RequiredFields(kind) <= doc.fields.Keys
    ensures r.Some? ==> r.value.JObject? && r.value.fields.Keys == RequiredFields(kind) + (if kind == ScenarioKind then {"name"} else {})
    ensures r.Some? ==> forall f :: f in RequiredFields(kind) ==> r.value.fields[f] == doc.fields[f]
  {
    match doc
    case JObject(m) =>
      if kind == ScenarioKind then
        if "id" in m && "version" in m && "updatedAt" in m then
          Some(JObject(map[
            "id" := m["id"],
            "version" := m["version"],
            "updatedAt" := m["updatedAt"],
            "name" := if "name" in m then m["name"] else m["id"]]))
        else None
      else
        if "id" in m && "updatedAt" in m then
          Some(JObject(map["id" := m["id"], "updatedAt" := m["updatedAt"]]))
        else None
    case _ => None
  }

  /** A scenario's listed name is its own "name" member, or its id when it has none. */
  lemma ScenarioNameDefaultsToId(doc: Json)
    requires Project(ScenarioKind, doc).Some?
    ensures var rec := Project(ScenarioKind, doc).value.fields;
      rec["name"] == if "name" in doc.fields then doc.fields["name"] else doc.fields["id"]
  {
  }

  /** The record of the file called name, or None when the file is missing, unparseable or malformed. */
  function FileRecord(kind: Kind, dir: Directory, name: string): Option<Json> {
    match Lookup(dir, name)
    case Found(doc) => Project(kind, doc)
    case _ => None
  }

  /**
   * The listing over the file names in the order the directory is
   * enumerated: one record per file that yields one, in that order.
   */
  function Listing(kind: Kind, order: seq<string>, dir: Directory): seq<Json> {
    if order == [] then []
    else
      var rest := Listing(kind, order[..|order| - 1], dir);
      match FileRecord(kind, dir, order[|order| - 1])
      case Some(record) => rest + [record]
      case None => rest
  }

  /** The glob enumeration: each file name ending in ".json" exactly once. */
  ghost predicate Enumerates(order: seq<string>, dir: Directory) {
    && (forall i, j :: 0 <= i < j < |order| ==> order[i] != order[j])
    && (forall n :: n in order <==> n in dir && IsJsonFileName(n))
  }

  /**
   * list_scenarios / list_profiles: build the listing by a loop that reads
   * each file and appends its record, skipping the files that fail.
   */
  method CollectMetadata(kind: Kind, dir: Directory, order: seq<string>) returns (result: seq<Json>)
    ensures result == Listing(kind, order, dir)
  {
    result := [];
    for i := 0 to |order|
      invariant result == Listing(kind, order[..i], dir)
    {
      assert order[..i + 1][..i] == order[..i];
      var file := Lookup(dir, order[i]);
      if file.Found? {
        var record := Project(kind, file.doc);
        if record.Some? {
          result := result + [record.value];
        }
      }
    }
    assert order[..|order|] == order;
  }

  /** Skipping never adds: the listing is no longer than the enumeration. */
  lemma {:induction false} ListingBound(kind: Kind, order: seq<string>, dir: Directory)
    ensures |Listing(kind, order, dir)| <= |order|
  {
    if order != [] {
      ListingBound(kind, order[..|order| - 1], dir);
    }
  }

  /** Completeness: every enumerated file that yields a record has it listed. */
  lemma {:induction false} ListingComplete(kind: Kind, order: seq<string>, dir: Directory, i: nat)
    requires i < |order| && FileRecord(kind, dir, order[i]).Some?
    ensures FileRecord(kind, dir, order[i]).value in Listing(kind, order, dir)
  {
    var init := order[..|order| - 1];
    if i < |init| {
      assert init[i] == order[i];
      ListingComplete(kind, init, dir, i);
    }
  }

  /** Soundness: every listed record is the record of some enumerated file. */
  lemma {:induction false} ListingSound(kind: Kind, order: seq<string>, dir: Directory, record: Json) returns (i: nat)
    requires record in Listing(kind, order, dir)
    ensures i < |order| && FileRecord(kind, dir, order[i]) == Some(record)
  {
    var init := order[..|order| - 1];
    if record in Listing(kind, init, dir) {
      i := ListingSound(kind, init, dir, record);
      assert init[i] == order[i];
    } else {
      i := |order| - 1;
    }
  }

  /** A sequence without repetitions drawn from keys is no longer than keys. */
  lemma {:induction false} DistinctBound(order: seq<string>, keys: set<string>)
    requires forall i, j :: 0 <= i < j < |order| ==> order[i] != order[j]
    requires forall i :: 0 <= i < |order| ==> order[i] in keys
    ensures |order| <= |keys|
  {
    if order != [] {
      var x := order[|order| - 1];
      var init := order[..|order| - 1];
      assert forall i :: 0 <= i < |init| ==> init[i] in keys - {x} by {
        forall i | 0 <= i < |init| ensures init[i] in keys - {x} {
          assert init[i] == order[i];
        }
      }
      DistinctBound(init, keys - {x});
    }
  }

  /** Over the glob enumeration the listing has no more records than the directory has files. */
  lemma ListingWithinDirectory(kind: Kind, order: seq<string>, dir: Directory)
    requires Enumerates(order, dir)
    ensures |Listing(kind, order, dir)| <= |dir|
  {
    ListingBound(kind, order, dir);
    assert forall i :: 0 <= i < |order| ==> order[i] in dir.Keys;
    DistinctBound(order, dir.Keys);
  }

  /**
   * A document just written under a ".json" name appears in any later
   * enumeration's listing, provided it has the required members.
   */
  lemma WrittenDocumentIsListed(kind: Kind, dir: Directory, name: string, doc: Json, order: seq<string>)
    requires IsJsonFileName(name)
    requires Project(kind, doc).Some?
    requires Enumerates(order, Written(dir, name, doc))
    ensures Project(kind, doc).value in Listing(kind, order, Written(dir, name, doc))
  {
    var dir' := Written(dir, name, doc);
    assert name in order;
    var i :| 0 <= i < |order| && order[i] == name;
    assert FileRecord(kind, dir', order[i]) == Project(kind, doc);
    ListingComplete(kind, order, dir', i);
  }

  /**
   * One well-formed and one unparseable scenario file: the listing holds
   * exactly the well-formed one's record, in either enumeration order.
   */
  lemma ListingSkipsCorruptFile(good: string, bad: string, doc: Json, order: seq<string>)
    requires good != bad
    requires Project(ScenarioKind, doc).Some?
    requires order == [good, bad] || order == [bad, good]
    ensures Listing(ScenarioKind, order, map[good := Document(doc), bad := Unreadable]) == [Project(ScenarioKind, doc).value]
  {
    var dir := map[good := Document(doc), bad := Unreadable];
    assert FileRecord(ScenarioKind, dir, good) == Project(ScenarioKind, doc);
    assert FileRecord(ScenarioKind, dir, bad) == None;
    assert order[..1][..0] == [];
    assert order[..|order| - 1] == order[..1];
    assert Listing(ScenarioKind, order[..1], dir) == Listing(ScenarioKind, [], dir) + (if order[0] == good then [Project(ScenarioKind, doc).value] else []);
  }
}
