# Nautilus Duet printer-instance registry, in Dafny

The Nautilus plugin for the Cura slicer lets a user register networked Duet
printers ("instances"). Each instance has a name, a base URL, a Duet password
and optional HTTP basic-auth credentials. The plugin object `NautilusDuet`
keeps these in a dictionary. After every change it writes the dictionary to
the `Nautilus/instances` preference and keeps one upload output device per
instance registered with the host's device manager. Two validators, for names
and for URLs, guard the settings dialog before it saves.

This project models that registry:

- `wrappers.dfy`: module `Wrappers`, the `Option` type that stands for a getter's `None`.
- `instance_registry.dfy`: module `InstanceRegistry`. It holds the `Instance` record and the `Instances` map, and the URL normalisation applied on save. It also holds the device key of an instance and the map and device set that a save leaves behind, with lemmas about all of these.
- `validation.dfy`: module `Validation`, the name and URL validators with their characterisations.
- `nautilus_duet.dfy`: module `Plugin`, the class `NautilusDuet`. Its fields are the map (`instances`), the persisted preference (`preference`), the registered device keys (`devices`) and a count of `serverListChanged` emissions (`notifications`). Its methods change them in place, as the source does. Two client scenarios exercise the class through its contracts only.

Assumptions and modelling choices:

- The preference is modelled as the map its JSON text encodes. `Valid()` keeps it equal to `instances`.
- A device is modelled only by its key, `name + "-upload"`. That is the key the plugin removes in `stop` and `removeInstance`. The device class itself is not part of this model.
- `devices` holds only the devices this plugin added. The constructor adds none. `Start` makes `devices` exactly one key per instance. Once they are in sync, every save and remove keeps them in sync.
- `removeInstance` removes the device before `del` runs. For a missing name, `del` raises `KeyError` after the device is already gone. The model returns `KeyError(name)` in that case instead of requiring the name to be present. `SaveInstance` passes that error on and does nothing more.
- `ValidName` takes the map as an argument. The map stands for `self._instances`. `ValidUrl` ignores its first argument, as the source does.
- The regular expression `^https?://.` is written out as prefix and character checks. Its `.` does not match a newline.
- Devices are added in `start` (files/NautilusDuet.py:50-53), not in `__init__`.

## Model

| member | source | states |
|---|---|---|
| `Plugin.NautilusDuet.constructor` | files/NautilusDuet.py:47-48 | the registry is the stored map, or the empty map when the preference is unset; the preference mirrors it; no device is registered yet |
| `Plugin.NautilusDuet.Start` | files/NautilusDuet.py:50-53 | afterwards exactly one device key per registered instance is registered; the map and preference are unchanged |
| `Plugin.NautilusDuet.Stop` | files/NautilusDuet.py:55-58 | removes the device key of every registered instance, which leaves no device of this plugin registered |
| `Plugin.NautilusDuet.ServerList` | files/NautilusDuet.py:75-76 | returns every registered name exactly once and nothing else, without changing state |
| `Plugin.NautilusDuet.InstanceUrl` | files/NautilusDuet.py:79-82 | the stored url for a registered name, `None` for an unknown one |
| `Plugin.NautilusDuet.InstanceDuetPassword` | files/NautilusDuet.py:85-88 | the stored Duet password for a registered name, `None` for an unknown one |
| `Plugin.NautilusDuet.InstanceHttpUser` | files/NautilusDuet.py:91-94 | the stored HTTP user for a registered name, `None` for an unknown one |
| `Plugin.NautilusDuet.InstanceHttpPassword` | files/NautilusDuet.py:97-100 | the stored HTTP password for a registered name, `None` for an unknown one |
| `Plugin.NautilusDuet.SaveInstance` | files/NautilusDuet.py:103-121 | a `KeyError` exactly when an edit names a missing old instance, which then leaves only its device key removed; otherwise the map is `Saved(...)` with the normalised url, the devices are `SavedDevices(...)` and the preference equals the new map. It emits one notification, or two for an edit. It keeps devices in sync with the map and keeps stored urls normalised |
| `Plugin.NautilusDuet.RemoveInstance` | files/NautilusDuet.py:124-130 | the device key of `name` is removed in every case; for a registered name the entry is deleted, all others are kept, the preference mirrors the map and one notification is emitted; for an unknown name it is a `KeyError` and nothing else changes |
| `Plugin.RenameScenario` | files/NautilusDuet.py:103-130 | after adding `a` and renaming it to `b`, `a` has no url, `b` has the normalised new url, and only `b-upload` is registered |
| `Plugin.ListScenario` | files/NautilusDuet.py:103-119 | saving `http://x` and `http://x/` stores the same url; the list then holds both names, once each |
| `InstanceRegistry.NormalizeUrl` | files/NautilusDuet.py:108-109 | the stored url ends with `/`, extends the input by at most one character, and equals the input exactly when the input already ends with `/` |
| `InstanceRegistry.NormalizeUrlIdempotent` | files/NautilusDuet.py:108-109 | normalising a stored url again changes nothing |
| `InstanceRegistry.NormalizeUrlAbsorbsSlash` | files/NautilusDuet.py:108-109 | a url without a trailing slash and the same url with one are stored identically |
| `InstanceRegistry.DeviceKey` | files/NautilusDuet.py:126 | the key of an instance's upload device begins with its name and ends with `-upload`, seven characters longer than the name; the key the plugin removes in `stop` and `removeInstance` |
| `InstanceRegistry.DeviceKeyInjective` | files/NautilusDuet.py:126 | two names with the same device key are the same name, so removing one instance's device never removes another's |
| `InstanceRegistry.DeviceKeyIn` | files/NautilusDuet.py:58 | a name's device key is among the registry's device keys exactly when the name is registered |
| `InstanceRegistry.DeviceKeysOfRemove` | files/NautilusDuet.py:126-127 | deleting an instance removes exactly its device key from the registry's device keys |
| `InstanceRegistry.DeviceKeysOfInsert` | files/NautilusDuet.py:111-118 | storing a record under a name adds exactly that name's device key |
| `InstanceRegistry.Saved` | files/NautilusDuet.py:104-116 | after a save, `name` maps to the new record; an edit's old name is gone when it differs from `name`; every other entry is unchanged and no other key appears |
| `InstanceRegistry.SavedDevices` | files/NautilusDuet.py:104-118 | after a save, the device of `name` is registered; an edit's old device is gone when the names differ; every other device stays (all of them for a plain save, even the key of an instance named by the empty string) and none other appears |
| `InstanceRegistry.Lookup` | files/NautilusDuet.py:80-82 | a lookup yields a record exactly for a registered name, and then the stored one |
| `InstanceRegistry.LookupAfterSave` | files/NautilusDuet.py:111-116 | looking up the saved name returns the record just saved; lookups of every other name are unaffected, except an edit's old name |
| `InstanceRegistry.SaveInPlaceIsOverwrite` | files/NautilusDuet.py:104-118 | an edit that keeps its name is the same as overwriting the entry, and leaves the in-sync device set as it was |
| `InstanceRegistry.SaveKeepsUrlsNormalized` | files/NautilusDuet.py:108-116 | if every stored url ends with `/` before a save, so does every one after it |
| `InstanceRegistry.SaveKeepsDevicesInSync` | files/NautilusDuet.py:104-118 | for a save that does not raise, the device set of the save is exactly the device keys of the saved map when they were in sync before |
| `Validation.ValidName` | files/NautilusDuet.py:133-142 | a name is valid exactly when it is non-empty and no instance other than the edited one holds it |
| `Validation.MatchesSchemePattern` | files/NautilusDuet.py:149 | decides `re.match('^https?://.', url)`: `http://` or `https://` followed by one character other than a newline; a match begins with `http://` or `https://` and is longer than `http://` |
| `Validation.ValidSaveClobbersNothing` | files/NautilusDuet.py:141-142 | a save whose name passed validation keeps every entry other than the edited one (every entry for a plain save) and grows the registry by one for a new instance, by none for an edit |
| `Validation.ValidUrl` | files/NautilusDuet.py:145-156 | a valid url holds no `@` and starts with `http://` or `https://` |
| `Validation.ValidUrlCharacterized` | files/NautilusDuet.py:145-156 | a url is valid exactly when it matches `^https?://.` and holds no `@`; the UNC guard never decides the outcome |
| `Validation.NormalizeKeepsUrlValid` | files/NautilusDuet.py:108-109 | appending the trailing slash on save keeps a validated url valid |
| `Validation.Examples` | files/NautilusDuet.py:133-156 | the empty name is rejected, an unchanged name accepted, a fresh name accepted iff unused; `http://host` and `https://host/path` accepted; `ftp://host`, `http://user@host`, a UNC path, the empty string, a bare `http://` and a newline after the scheme rejected |

## Left out

- JSON text: `json.dumps` and `json.loads` are library calls. The preference is modelled as the decoded map.
- Recovery from a malformed preference: the code at files/NautilusDuet.py:48 has none; the constructor takes the decoded map, or `None` when the preference was never set.
- The host's preference store, device manager and application singleton are not modelled. They appear only as the `preference` and `devices` fields.
- The device class and what it does are not part of this model. Its constructor arguments are not modelled, and neither is what the host does when a key is added twice. A device is only its key.
- Qt plumbing: the `pyqtSlot` and `pyqtProperty` decorators are not modelled. `serverListChanged.emit()` is modelled only as the `notifications` counter.
- Dialog creation and display (`_createDialog`, `_showDialog`, `showSettingsDialog`) and the QML resource path are user interface.
- `Logger.log` calls and the translation catalogue produce no state the registry uses.
- Plugin.NautilusDuet.ServerList: does not state the order of the names. Python returns them in insertion order, and the model keeps no insertion order.
- A general regular-expression engine: only the single pattern `^https?://.` is encoded.
