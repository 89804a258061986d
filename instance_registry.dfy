/**
  The printer-instance registry as a value: the map from instance name to
  connection record that the plugin keeps in `self._instances`, the URL
  normalisation applied on save, the output-device key derived from a name,
  and the map and device set that a save or a remove leaves behind.
*/
module InstanceRegistry {
  import opened Wrappers

  /** One printer connection record: the four string fields stored per name. */
  datatype Instance = Instance(url: string, duetPassword: string, httpUser: string, httpPassword: string)

  /** The registry: instance name to record. */
  type Instances = map<string, Instance>

  predicate EndsWithSlash(s: string) {
    |s| > 0 && s[|s| - 1] == '/'
  }

  /** The stored form of a URL: a `/` is appended unless the URL already ends with one. */
  function NormalizeUrl(url: string): (r: string)
    ensures EndsWithSlash(r)
    ensures url <= r && |r| <= |url| + 1
    ensures r == url <==> EndsWithSlash(url)
  {
    if EndsWithSlash(url) then url else url + "/"
  }

  /** Normalising twice is normalising once. */
  lemma NormalizeUrlIdempotent(url: string)
    ensures NormalizeUrl(NormalizeUrl(url)) == NormalizeUrl(url)
  {
  }

  /** A URL typed with or without its trailing slash is stored the same way. */
  lemma NormalizeUrlAbsorbsSlash(url: string)
    requires !EndsWithSlash(url)
    ensures NormalizeUrl(url) == NormalizeUrl(url + "/") == url + "/"
  {
  }

  /**
    The key of the output device registered for instance `name`. The device
    class is not part of this model; the key is the one the plugin passes to
    the device manager when it removes a device.
  */
  function DeviceKey(name: string): (key: string)
    ensures |key| == |name| + 7 && key[..|name|] == name && key[|name|..] == "-upload"
  {
    name + "-upload"
  }

  /** Distinct instance names never share a device key. */
  lemma DeviceKeyInjective(a: string, b: string)
    requires DeviceKey(a) == DeviceKey(b)
    ensures a == b
  {
  }

  /** The device keys of every instance of a registry. */
  function DeviceKeys(m: Instances): set<string> {
    set name | name in m :: DeviceKey(name)
  }

  lemma DeviceKeyIn(m: Instances, name: string)
    ensures DeviceKey(name) in DeviceKeys(m) <==> name in m
  {
    if DeviceKey(name) in DeviceKeys(m) {
      var k :| k in m && DeviceKey(k) == DeviceKey(name);
      DeviceKeyInjective(k, name);
    }
  }

  /** Dropping an instance drops exactly its device key. */
  lemma DeviceKeysOfRemove(m: Instances, name: string)
    ensures DeviceKeys(m - {name}) == DeviceKeys(m) - {DeviceKey(name)}
  {
    forall key | key in DeviceKeys(m) - {DeviceKey(name)}
      ensures key in DeviceKeys(m - {name})
    {
      var k :| k in m && DeviceKey(k) == key;
      assert k != name;
    }
    forall key | key in DeviceKeys(m - {name})
      ensures key in DeviceKeys(m) - {DeviceKey(name)}
    {
      var k :| k in m - {name} && DeviceKey(k) == key;
      if key == DeviceKey(name) {
        DeviceKeyInjective(k, name);
      }
    }
  }

  /** Storing a record under `name` adds exactly its device key. */
  lemma DeviceKeysOfInsert(m: Instances, name: string, inst: Instance)
    ensures DeviceKeys(m[name := inst]) == DeviceKeys(m) + {DeviceKey(name)}
  {
  }

  /**
    The map after `saveInstance(oldName, name, ...)` stored `inst`: an edit
    (non-empty `oldName`) first drops `oldName`, then `name` is bound to `inst`.
  */
  function Saved(m: Instances, oldName: string, name: string, inst: Instance): (r: Instances)
    ensures name in r && r[name] == inst
    ensures oldName != "" && oldName != name ==> oldName !in r
    ensures forall k :: k in m && (oldName == "" || k != oldName) && k != name ==> k in r && r[k] == m[k]
    ensures forall k :: k in r ==> k == name || (k in m && (oldName == "" || k != oldName))
    ensures oldName == "" ==> r.Keys == m.Keys + {name}
  {
    (if oldName == "" then m else m - {oldName})[name := inst]
  }

  /** The registered device keys after the same save. */
  function SavedDevices(devices: set<string>, oldName: string, name: string): (r: set<string>)
    ensures DeviceKey(name) in r
    ensures oldName != "" && oldName != name ==> DeviceKey(oldName) !in r
    ensures forall key :: key in devices && (oldName == "" || key != DeviceKey(oldName)) ==> key in r
    ensures forall key :: key in r ==> key == DeviceKey(name) || key in devices
  {
    assert oldName != name ==> DeviceKey(oldName) != DeviceKey(name) by {
      if DeviceKey(oldName) == DeviceKey(name) {
        DeviceKeyInjective(oldName, name);
      }
    }
    (if oldName == "" then devices else devices - {DeviceKey(oldName)}) + {DeviceKey(name)}
  }

  /** Looking a name up: `None` for a name that is not registered. */
  function Lookup(m: Instances, name: string): (r: Option<Instance>)
    ensures r.Some? <==> name in m
    ensures r.Some? ==> r.value == m[name]
  {
    if name in m then Some(m[name]) else None
  }

  /** Saving then looking up the saved name yields the record just saved; other names are untouched. */
  lemma LookupAfterSave(m: Instances, oldName: string, name: string, inst: Instance, other: string)
    requires other != name && (oldName == "" || other != oldName)
    ensures Lookup(Saved(m, oldName, name, inst), name) == Some(inst)
    ensures Lookup(Saved(m, oldName, name, inst), other) == Lookup(m, other)
  {
  }

  /** Saving an edit that keeps its name is the same as overwriting the entry. */
  lemma SaveInPlaceIsOverwrite(m: Instances, name: string, inst: Instance)
    requires name != "" && name in m
    ensures Saved(m, name, name, inst) == m[name := inst]
    ensures SavedDevices(DeviceKeys(m), name, name) == DeviceKeys(m)
  {
  }


  /** Every stored URL carries its trailing slash. */
  predicate UrlsNormalized(m: Instances) {
    forall name :: name in m ==> EndsWithSlash(m[name].url)
  }

  /** A save stores a normalised URL, so it keeps every stored URL normalised. */
  lemma SaveKeepsUrlsNormalized(m: Instances, oldName: string, name: string, url: string, dp: string, hu: string, hp: string)
    requires UrlsNormalized(m)
    ensures UrlsNormalized(Saved(m, oldName, name, Instance(NormalizeUrl(url), dp, hu, hp)))
  {
  }

  /**
    A registry whose device set holds exactly one device per instance stays so
    after a save: the device set of the save matches the map of the save.
  */
  lemma SaveKeepsDevicesInSync(m: Instances, oldName: string, name: string, inst: Instance)
    requires oldName == "" || oldName in m
    ensures SavedDevices(DeviceKeys(m), oldName, name) == DeviceKeys(Saved(m, oldName, name, inst))
  {
    if oldName != "" {
      DeviceKeysOfRemove(m, oldName);
      DeviceKeysOfInsert(m - {oldName}, name, inst);
    } else {
      DeviceKeysOfInsert(m, name, inst);
    }
  }
}
