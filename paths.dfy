/**
 * File names derived from resource keys: _scenario_path and _profile_path,
 * relative to the scenarios and profiles directories.
 */
module Paths {

  /** The separator the scenario file name puts between id and version. */
  const VersionSeparator: string := "_v"

  /** The file names the listing's glob pattern "*.json" matches. */
  predicate IsJsonFileName(name: string) {
    |name| >= 5 && name[|name| - 5..] == ".json"
  }

  /** s contains the text "_v". */
  predicate ContainsSeparator(s: string) {
    exists k :: 0 <= k < |s| - 1 && s[k] == '_' && s[k + 1] == 'v'
  }

  /** _scenario_path: "{id}_v{version}.json". */
  function ScenarioFileName(id: string, version: string): (name: string)
    ensures IsJsonFileName(name)
    ensures |name| == |id| + |version| + 7
  {
    id + VersionSeparator + version + ".json"
  }

  /** _profile_path: "{id}.json". */
  function ProfileFileName(id: string): (name: string)
    ensures IsJsonFileName(name)
    ensures |name| == |id| + 5
  {
    id + ".json"
  }

  /** Distinct profile ids never share a file. */
  lemma ProfileFileNameInjective(id: string, id': string)
    requires ProfileFileName(id) == ProfileFileName(id')
    ensures id == id'
  {
    assert id == ProfileFileName(id)[..|id|];
    assert id' == ProfileFileName(id')[..|id'|];
  }

  /** Two different scenario keys that share one file name. */
  lemma ScenarioFileNamesCollide()
    ensures ("a_v1", "2") != ("a", "1_v2")
    ensures ScenarioFileName("a_v1", "2") == ScenarioFileName("a", "1_v2")
  {
    assert ScenarioFileName("a_v1", "2") == "a_v1_v2.json";
    assert ScenarioFileName("a", "1_v2") == "a_v1_v2.json";
  }

  /**
   * A collision of two different scenario keys needs "_v" inside one of
   * the ids and inside one of the versions; a shorter id is a prefix of
   * the longer one.
   */
  lemma {:induction false} CollisionNeedsSeparator(id: string, version: string, id': string, version': string)
    requires ScenarioFileName(id, version) == ScenarioFileName(id', version')
    requires (id, version) != (id', version')
    ensures id != id'
    ensures ContainsSeparator(id) || ContainsSeparator(id')
    ensures ContainsSeparator(version) || ContainsSeparator(version')
  {
    if |id| <= |id'| {
      CollisionOrdered(id, version, id', version');
    } else {
      CollisionOrdered(id', version', id, version);
    }
  }

  lemma {:induction false} CollisionOrdered(id: string, version: string, id': string, version': string)
    requires ScenarioFileName(id, version) == ScenarioFileName(id', version')
    requires (id, version) != (id', version')
    requires |id| <= |id'|
    ensures id != id'
    ensures ContainsSeparator(id')
    ensures ContainsSeparator(version)
  {
    var name := ScenarioFileName(id, version);
    var n := |id|;
    assert name == id + "_v" + version + ".json";
    assert name == id' + "_v" + version' + ".json";
    assert name[n] == '_' && name[n + 1] == 'v';
    if |id'| == n {
      SameLengthIdsAgree(id, version, id', version');
      assert false;
    } else if |id'| == n + 1 {
      assert false;
    }
    assert id'[n] == name[n] && id'[n + 1] == name[n + 1];
    var m := |id'|;
    assert name[m] == '_' && name[m + 1] == 'v';
    var k := m - n - 2;
    assert version[k] == name[m] && version[k + 1] == name[m + 1];
  }

  /** Two scenario keys with ids of equal length share a file name only when they are equal. */
  lemma SameLengthIdsAgree(id: string, version: string, id': string, version': string)
    requires ScenarioFileName(id, version) == ScenarioFileName(id', version')
    requires |id| == |id'|
    ensures id == id' && version == version'
  {
    var name := ScenarioFileName(id, version);
    assert id == name[..|id|] == id';
    assert version == name[|id| + 2..|name| - 5] == version';
  }

  /**
   * Keys whose ids hold no "_v" (or whose versions hold none) map to
   * distinct file names: the derivation is injective under that condition,
   * which the server itself does not check.
   */
  lemma ScenarioFileNameInjective(id: string, version: string, id': string, version': string)
    requires ScenarioFileName(id, version) == ScenarioFileName(id', version')
    requires (!ContainsSeparator(id) && !ContainsSeparator(id')) || (!ContainsSeparator(version) && !ContainsSeparator(version'))
    ensures id == id' && version == version'
  {
    if (id, version) != (id', version') {
      CollisionNeedsSeparator(id, version, id', version');
    }
  }

  /**
   * A key whose id or version contains "_v" shares its file name with a
   * different key: the text around an occurrence of "_v" can move
   * between id and version.
   */
  lemma {:induction false} SeparatorGivesCollision(id: string, version: string) returns (id': string, version': string)
    requires ContainsSeparator(id) || ContainsSeparator(version)
    ensures (id', version') != (id, version)
    ensures ScenarioFileName(id', version') == ScenarioFileName(id, version)
  {
    if ContainsSeparator(id) {
      var k :| 0 <= k < |id| - 1 && id[k] == '_' && id[k + 1] == 'v';
      id', version' := id[..k], id[k + 2..] + "_v" + version;
      assert id == id' + "_v" + id[k + 2..];
      assert |id'| < |id|;
    } else {
      var k :| 0 <= k < |version| - 1 && version[k] == '_' && version[k + 1] == 'v';
      id', version' := id + "_v" + version[..k], version[k + 2..];
      assert version == version[..k] + "_v" + version';
      assert |version'| < |version|;
    }
  }

  /** A key that shares its file name with a different key has "_v" in its own id or version. */
  lemma CollidingKeyHasSeparator(id: string, version: string, id': string, version': string)
    requires ScenarioFileName(id, version) == ScenarioFileName(id', version')
    requires (id, version) != (id', version')
    ensures ContainsSeparator(id) || ContainsSeparator(version)
  {
    if |id| <= |id'| {
      CollisionOrdered(id, version, id', version');
    } else {
      CollisionOrdered(id', version', id, version);
    }
  }
}
