/**
  The plugin object that owns the registry. It keeps the map of instances,
  mirrors it into the persisted preference after every change, registers one
  upload device per instance with the host's device manager, and notifies
  the settings dialog when the list of instances changes.
*/
module Plugin {
  import opened Wrappers
  import opened InstanceRegistry

  /** How a mutation ended: normally, or with Python's `KeyError` for a name that is not registered. */
  datatype Status = Ok | KeyError(missing: string)

  class NautilusDuet {
    /** `self._instances`: instance name to connection record. */
    var instances: Instances
    /** The value of the `Nautilus/instances` preference, as the map its JSON text encodes. */
    var preference: Instances
    /** Keys of the output devices this plugin has added to the host's device manager. */
    var devices: set<string>
    /** How many times `serverListChanged` has been emitted. */
    var notifications: nat

    /**
      The preference always mirrors the map, and every device the plugin has
      registered belongs to a registered instance.
    */
    ghost predicate Valid()
      reads this
    {
      preference == instances && devices <= DeviceKeys(instances)
    }

    /**
      Loads the registry from the preference; `None` is a preference that was
      never set, whose default is the empty object. No device is added yet.
    */
    constructor (stored: Option<Instances>)
      ensures Valid()
      ensures instances == stored.GetOr(map[])
      ensures devices == {} && notifications == 0
    {
      instances := stored.GetOr(map[]);
      preference := stored.GetOr(map[]);
      devices := {};
      notifications := 0;
    }

    /** Adds the upload device of every registered instance. */
    method Start()
      requires Valid()
      modifies this`devices
      ensures Valid()
      ensures devices == DeviceKeys(instances)
    {
      var pending := instances.Keys;
      while pending != {}
        invariant pending <= instances.Keys
        invariant devices == old(devices) + (set name | name in instances && name !in pending :: DeviceKey(name))
        decreases pending
      {
        var name :| name in pending;
        devices := devices + {DeviceKey(name)};
        pending := pending - {name};
      }
    }

    /** Removes the upload device of every registered instance. */
    method Stop()
      requires Valid()
      modifies this`devices
      ensures Valid()
      ensures devices == old(devices) - DeviceKeys(instances)
      ensures devices == {}
    {
      var pending := instances.Keys;
      while pending != {}
        invariant pending <= instances.Keys
        invariant devices == old(devices) - (set name | name in instances && name !in pending :: DeviceKey(name))
        decreases pending
      {
        var name :| name in pending;
        devices := devices - {DeviceKey(name)};
        pending := pending - {name};
      }
    }

    /**
      The names of all registered instances, each once. The host keeps them
      in insertion order; this model leaves the order open.
    */
    method ServerList() returns (names: seq<string>)
      ensures |names| == |instances|
      ensures forall i, j :: 0 <= i < j < |names| ==> names[i] != names[j]
      ensures forall name :: name in names <==> name in instances
    {
      names := [];
      var pending := instances.Keys;
      while pending != {}
        invariant pending <= instances.Keys
        invariant forall name :: name in names <==> name in instances && name !in pending
        invariant forall i, j :: 0 <= i < j < |names| ==> names[i] != names[j]
        invariant |names| + |pending| == |instances.Keys|
        decreases pending
      {
        var name :| name in pending;
        names := names + [name];
        pending := pending - {name};
      }
    }

    /** The stored URL of `name`, or `None` when no instance has that name. */
    function InstanceUrl(name: string): (r: Option<string>)
      reads this
      ensures r.Some? <==> name in instances
      ensures r.Some? ==> r.value == instances[name].url
    {
      match Lookup(instances, name)
      case Some(inst) => Some(inst.url)
      case None => None
    }

    /** The stored Duet password of `name`, or `None` when no instance has that name. */
    function InstanceDuetPassword(name: string): (r: Option<string>)
      reads this
      ensures r.Some? <==> name in instances
      ensures r.Some? ==> r.value == instances[name].duetPassword
    {
      match Lookup(instances, name)
      case Some(inst) => Some(inst.duetPassword)
      case None => None
    }

    /** The stored HTTP user of `name`, or `None` when no instance has that name. */
    function InstanceHttpUser(name: string): (r: Option<string>)
      reads this
      ensures r.Some? <==> name in instances
      ensures r.Some? ==> r.value == instances[name].httpUser
    {
      match Lookup(instances, name)
      case Some(inst) => Some(inst.httpUser)
      case None => None
    }

    /** The stored HTTP password of `name`, or `None` when no instance has that name. */
    function InstanceHttpPassword(name: string): (r: Option<string>)
      reads this
      ensures r.Some? <==> name in instances
      ensures r.Some? ==> r.value == instances[name].httpPassword
    {
      match Lookup(instances, name)
      case Some(inst) => Some(inst.httpPassword)
      case None => None
    }

    /**
      Unregisters the device of `name`, then deletes `name` from the map,
      persists the map and notifies. The device is removed even when `name`
      is not registered; the deletion then fails with `KeyError` and nothing
      after it happens.
    */
    method RemoveInstance(name: string) returns (status: Status)
      requires Valid()
      modifies this
      ensures Valid()
      ensures status == if name in old(instances) then Ok else KeyError(name)
      ensures devices == old(devices) - {DeviceKey(name)}
      ensures status.Ok? ==> instances == old(instances) - {name} && notifications == old(notifications) + 1
      ensures status.KeyError? ==> instances == old(instances) && notifications == old(notifications)
      ensures old(devices == DeviceKeys(instances)) ==> devices == DeviceKeys(instances)
    {
      devices := devices - {DeviceKey(name)};
      if name !in instances {
        DeviceKeyIn(instances, name);
        return KeyError(name);
      }
      instances := instances - {name};
      preference := instances;
      notifications := notifications + 1;
      status := Ok;
      DeviceKeysOfRemove(old(instances), name);
    }

    /**
      Saves an instance. A non-empty `oldName` marks an edit: that instance
      is removed first, and a `KeyError` from the removal ends the save. The
      URL is stored with a trailing slash, the device of `name` is added, the
      map is persisted and the dialog notified.
    */
    method SaveInstance(oldName: string, name: string, url: string, duetPassword: string, httpUser: string, httpPassword: string)
      returns (status: Status)
      requires Valid()
      modifies this
      ensures Valid()
      ensures status == if oldName != "" && oldName !in old(instances) then KeyError(oldName) else Ok
      ensures status.Ok? ==>
        && instances == Saved(old(instances), oldName, name, Instance(NormalizeUrl(url), duetPassword, httpUser, httpPassword))
        && devices == SavedDevices(old(devices), oldName, name)
        && notifications == old(notifications) + (if oldName != "" then 2 else 1)
      ensures status.KeyError? ==>
        && instances == old(instances)
        && devices == old(devices) - {DeviceKey(oldName)}
        && notifications == old(notifications)
      ensures old(devices == DeviceKeys(instances)) ==> devices == DeviceKeys(instances)
      ensures old(UrlsNormalized(instances)) ==> UrlsNormalized(instances)
    {
      if oldName != "" {
        status := RemoveInstance(oldName);
        if status.KeyError? {
          return;
        }
      }
      var stored := NormalizeUrl(url);
      SaveKeepsDevicesInSync(old(instances), oldName, name, Instance(stored, duetPassword, httpUser, httpPassword));
      instances := instances[name := Instance(stored, duetPassword, httpUser, httpPassword)];
      devices := devices + {DeviceKey(name)};
      preference := instances;
      notifications := notifications + 1;
      status := Ok;
    }
  }

  /**
    A fresh registry: add `a`, then rename it to `b` with a new URL. `a` is
    gone with its device; `b` holds the normalised URL and the only device.
  */
  method RenameScenario() returns (urlA: Option<string>, urlB: Option<string>, devices: set<string>)
    ensures urlA == None
    ensures urlB == Some("http://printer-b/")
    ensures devices == {"b-upload"}
  {
    var duet := new NautilusDuet(None);
    var added := duet.SaveInstance("", "a", "http://printer-a", "pw", "", "");
    assert duet.devices == {DeviceKey("a")};
    var renamed := duet.SaveInstance("a", "b", "http://printer-b", "pw", "user", "secret");
    assert NormalizeUrl("http://printer-b") == "http://printer-b/";
    urlA := duet.InstanceUrl("a");
    urlB := duet.InstanceUrl("b");
    devices := duet.devices;
    assert DeviceKey("b") == "b-upload";
  }

  /**
    A fresh registry after one save with and one without a trailing slash:
    both URLs are stored the same way and the list holds both names.
  */
  method ListScenario() returns (urlA: Option<string>, urlB: Option<string>, names: seq<string>)
    ensures urlA == urlB == Some("http://x/")
    ensures |names| == 2 && names[0] != names[1]
    ensures forall name :: name in names <==> name == "a" || name == "b"
  {
    var duet := new NautilusDuet(None);
    var savedA := duet.SaveInstance("", "a", "http://x", "", "", "");
    var savedB := duet.SaveInstance("", "b", "http://x/", "", "", "");
    assert NormalizeUrl("http://x") == "http://x/";
    urlA := duet.InstanceUrl("a");
    urlB := duet.InstanceUrl("b");
    assert duet.instances.Keys == {"a", "b"};
    names := duet.ServerList();
  }
}
