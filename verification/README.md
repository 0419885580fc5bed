# Spotimc settings, modelled in Dafny

Spotimc is a Spotify client add-on for the XBMC media centre. Its settings module has two parts, and both are modelled here.

- `SettingsManager` keeps the add-on's persisted configuration in the host's string key-value store. Typed reads sit on top of that store. Its `show_dialog` opens the host's settings dialog, compares five settings before and after the dialog, and passes each change on to the live Spotify session as a call.
- `GuiSettingsReader` holds the media centre's parsed `guisettings.xml`. Its `get_setting` answers dotted queries such as `root.child1.child2`.

Files:

- `settings.dfy` (module `Settings`) models the constants, the typed reads, the quality-to-bitrate table and the snapshot. It also holds the pure reconciliation `Reconcile` and the lemmas about it, and the class `SettingsManager`. That class's store is reassigned by the legal-warning setter and by the dialog.
- `session.dfy` (module `SpotifySession`) models the session as a class whose methods append to a call log. `Bitrate` is an abstract datatype.
- `gui_settings.dfy` (module `GuiSettings`) models the reader class, whose parsed document is a `const`, and `GetSetting`.
- `element_tree.dfy` (module `ElementTree`) models the tree and ElementTree's `find` for plain tag paths. `find` is specified as "the first match in document order".
- `strings.dfy` (module `Strings`) models Python's `split` and `join`, with both round trips.
- `wrappers.dfy` defines `Option` and `Result`.

How the host is represented:

- The store is `Store(text, numbers)`.
  - Boolean and string settings sit in `text`. A missing key reads as `""`, which is what the host answers.
  - The numeric settings (management, size, quality, start-up screen) sit in `numbers` as the integers that `int(...)` would give.
  - A numeric setting missing from `numbers` stands for a string that does not convert. Reading it raises `ValueError(key)`.
- The settings dialog (`openSettings`) is an arbitrary replacement of the store. `ShowDialog` takes the replacement as its parameter `edited`, so every contract holds for every possible user edit.

## Model

| member | source | states |
|---|---|---|
| `Settings.FlagString` | resources/libs/spotimcgui/settings.py:71-75 | the stored form of a flag is `"true"` exactly when the flag is set, and `"false"` otherwise |
| `Settings.GetString` | resources/libs/spotimcgui/settings.py:55-56 | a stored key reads as its stored string; a missing key reads as `""`, as the host answers |
| `Settings.LegalWarningShown` | resources/libs/spotimcgui/settings.py:67-68 | true exactly when the stored string is exactly `"true"`; a missing key, `"True"` or `"1"` read as false |
| `Settings.CacheStatus` | resources/libs/spotimcgui/settings.py:88-89 | true exactly when `general_cache_enable` is stored as exactly `"true"` |
| `Settings.AudioHideUnplayable` | resources/libs/spotimcgui/settings.py:100-101 | true exactly when `audio_hide_unplayable` is stored as exactly `"true"` |
| `Settings.AudioNormalize` | resources/libs/spotimcgui/settings.py:104-105 | true exactly when `audio_normalize` is stored as exactly `"true"` |
| `Settings.CacheManagementMode` | resources/libs/spotimcgui/settings.py:92-93 | the stored mode, with no range check; raises exactly when the stored value does not convert |
| `Settings.CacheSizeMb` | resources/libs/spotimcgui/settings.py:96-97 | the stored size in megabytes; raises exactly when the stored value does not convert |
| `Settings.AudioQuality` | resources/libs/spotimcgui/settings.py:108-109 | the stored quality, with no range check; raises exactly when the stored value does not convert |
| `Settings.StartupScreen` | resources/libs/spotimcgui/settings.py:125-126 | the stored start-up screen, with no range check; raises exactly when the stored value does not convert |
| `Settings.BitrateFor` | resources/libs/spotimcgui/settings.py:115-122 | Low gives 96k, Medium gives 160k, High gives 320k, each in both directions; any other quality gives no bitrate |
| `Settings.AudioSpBitrate` | resources/libs/spotimcgui/settings.py:112-122 | raises exactly when the quality does not convert; otherwise gives the bitrate of the stored quality, or none when the quality is none of the three |
| `Settings.TakeSnapshot` | resources/libs/spotimcgui/settings.py:131-135 | succeeds exactly when all three numeric settings convert, and then holds the five stored values; otherwise raises for the first of management, size and quality that does not convert |
| `Settings.CacheCalls` | resources/libs/spotimcgui/settings.py:147-157 | no call unless the cache was enabled before and after; at most two calls, all `set_cache_size`; each is either `0` for a switch to Automatic, or the new size in kilobytes under Manual when the mode switched to Manual or the size changed; two calls only for a switch to Manual together with a size change; a switch to Automatic or Manual always issues a call |
| `Settings.NormalizationCalls` | resources/libs/spotimcgui/settings.py:160-161 | at most one call, a `set_volume_normalization`; a call exactly when the flag changed, carrying the new flag |
| `Settings.BitrateCalls` | resources/libs/spotimcgui/settings.py:164-165 | at most one call, a `preferred_bitrate`; a call exactly when the quality changed, carrying the bitrate of the new quality |
| `Settings.Reconcile` | resources/libs/spotimcgui/settings.py:146-165 | at most four calls; every cache call comes before every normalization call, and every normalization call before every bitrate call; identical snapshots give no call |
| `Settings.ReconcileOnlyEnabledChanged` | resources/libs/spotimcgui/settings.py:146-165 | when mode, size, normalization and quality are unchanged there is no call, whatever happened to the cache switch |
| `Settings.ReconcileStages` | resources/libs/spotimcgui/settings.py:146-165 | the calls are exactly the cache group, then the normalization group, then the bitrate group, and nothing else |
| `Settings.ReconcileNeedsCacheEnabled` | resources/libs/spotimcgui/settings.py:146-157 | no `set_cache_size` call unless the cache was enabled before and after, whatever the mode and the size did |
| `Settings.ReconcileSwitchToAutomatic` | resources/libs/spotimcgui/settings.py:149-156 | cache enabled throughout and the mode changed to Automatic: exactly one `set_cache_size(0)`; the size check cannot fire |
| `Settings.ReconcileManualResize` | resources/libs/spotimcgui/settings.py:149-157 | cache enabled throughout, Manual before and after, size changed: exactly one `set_cache_size(size * 1024)` |
| `Settings.ReconcileSwitchToManual` | resources/libs/spotimcgui/settings.py:149-157 | cache enabled throughout, mode changed to Manual, size unchanged: exactly one `set_cache_size(size * 1024)` |
| `Settings.ReconcileSwitchToManualAndResize` | resources/libs/spotimcgui/settings.py:149-157 | cache enabled throughout, mode changed to Manual and size changed: the same `set_cache_size(size * 1024)` is issued twice |
| `Settings.ReconcileNormalization` | resources/libs/spotimcgui/settings.py:159-161 | `set_volume_normalization(new value)` is issued once if the flag changed, and not at all otherwise |
| `Settings.ReconcileBitrate` | resources/libs/spotimcgui/settings.py:163-165 | `preferred_bitrate` is called once, with the new quality's bitrate, if the quality changed, and not at all otherwise |
| `Settings.LegalWarningRoundTrip` | resources/libs/spotimcgui/settings.py:67-77 | after the flag is stored, reading it gives the flag back, and every other setting reads as before |
| `Settings.SendCacheCalls` | resources/libs/spotimcgui/settings.py:147-157 | the session log gains exactly the cache calls `CacheCalls(before, after)` |
| `Settings.SettingsManager.constructor` | resources/libs/spotimcgui/settings.py:51-52 | the manager works on the store it is given |
| `Settings.SettingsManager.SetLegalWarningShown` | resources/libs/spotimcgui/settings.py:71-77 | writes `"true"` or `"false"` under `_legal_warning_shown`, changes nothing else, and the flag then reads back as given |
| `Settings.SettingsManager.OpenSettings` | resources/libs/spotimcgui/settings.py:138 | the dialog leaves the store in whatever state the user chose |
| `SpotifySession.Session.SetCacheSize` | resources/libs/spotimcgui/settings.py:150-157 | the session records `set_cache_size(size)` after every earlier call |
| `SpotifySession.Session.SetVolumeNormalization` | resources/libs/spotimcgui/settings.py:161 | the session records `set_volume_normalization(enabled)` after every earlier call |
| `SpotifySession.Session.PreferredBitrate` | resources/libs/spotimcgui/settings.py:165 | the session records `preferred_bitrate(rate)`, `None` included, after every earlier call |
| `Settings.SettingsManager.ShowDialog` | resources/libs/spotimcgui/settings.py:129-165 | if the first snapshot raises, the dialog never opens and nothing changes; if the second snapshot raises, the store is the edited one and no session call is made; otherwise the session log gains exactly `Reconcile(before, after)` |
| `Strings.Split` | resources/libs/spotimcgui/settings.py:184 | at least one piece; no piece holds the separator; joining the pieces gives the input back |
| `Strings.SplitJoin` | resources/libs/spotimcgui/settings.py:184-188 | splitting a join of separator-free pieces gives the pieces back |
| `Strings.Join` | resources/libs/spotimcgui/settings.py:188 | the joined text starts with the first piece |
| `Strings.JoinCount` | resources/libs/spotimcgui/settings.py:188 | joining separator-free pieces puts exactly one separator between each pair of neighbours and no other |
| `ElementTree.FindPath` | resources/libs/spotimcgui/settings.py:197 | any position it answers leads from the root through elements with the given tags |
| `ElementTree.FindPathFirst` | resources/libs/spotimcgui/settings.py:197 | if anything matches, the search answers, and no later in document order than that match |
| `ElementTree.FindPathIsFirstMatch` | resources/libs/spotimcgui/settings.py:197 | the search answers nothing exactly when nothing matches; otherwise it answers the first match in document order, and that match is unique |
| `ElementTree.MatchReachesElement` | resources/libs/spotimcgui/settings.py:197-201 | a matching position always leads to an element, and that element has the last tag of the path |
| `ElementTree.Find` | resources/libs/spotimcgui/settings.py:197-198 | for a non-empty path of plain tag steps: the first element reached in document order, or none when nothing matches; the empty path, and any step holding path punctuation, whitespace or a control character, are left to the library |
| `ElementTree.ControlWhitespaceLeftToLibrary` | resources/libs/spotimcgui/settings.py:197 | a step holding a vertical tab or a form feed is path syntax, not a plain tag, so its answer is left to the library |
| `GuiSettings.GuiSettingsReader.constructor` | resources/libs/spotimcgui/settings.py:173-175 | the reader keeps the parsed tree it is given; the tree is a constant, so it never changes and a query always gives the same answer |
| `GuiSettings.GuiSettingsReader.GetSetting` | resources/libs/spotimcgui/settings.py:178-201 | an empty query fails; a first `.`-segment other than the root tag fails; a success needs a second segment, and its answer is the own text of an element strictly below the root |
| `GuiSettings.GetSettingPlainQuery` | resources/libs/spotimcgui/settings.py:178-201 | for a root tag followed by plain tag steps: another root fails; no element reached fails; otherwise the answer is the own text, possibly absent, of the first element reached in document order |
| `GuiSettings.GetSettingRootOnly` | resources/libs/spotimcgui/settings.py:187-197 | a query of the root tag alone fails on another root and is otherwise left to `find('')` |
| `GuiSettings.NestedQueryExample` | resources/libs/spotimcgui/settings.py:178-201 | on `<root><child1><child2>val</child2></child1></root>`, `root.child1.child2` gives `val` and `wrongroot.child1.child2` fails |

Points of the code's behaviour that the model keeps:

- The two cache checks (lines 149-157) are independent `if`s. A switch to Manual together with a size change therefore sets the same size twice.
- The bitrate passed at line 165 comes from a fresh read of the store, not from the second snapshot. `ShowDialog` makes that read, and the read cannot raise because the same conversion has just succeeded.
- The session method is called `preferred_bitrate`.
- `get_audio_sp_bitrate` returns `None` for an unmapped quality and does not fail. `BitrateFor` returns `None`, and `preferred_bitrate(None)` is logged as `BitratePreferred(None)`.

## Left out

- `get_addon_obj`, `get_last_run_version` and `set_last_run_version` are left out because they pass values straight through to the host.
- `xbmcaddon.Addon`, `getSetting`/`setSetting` as I/O and `openSettings` are the host's. The store is a value, and the dialog is the `edited` parameter.
- Converting strings with `int(...)` and `int(float(...))` (lines 93, 97, 109, 126) is not modelled. This includes the float truncation of the cache size. Numeric settings are stored already converted.
- The integer width is not modelled. `size * 1024` is computed on unbounded integers, as in Python.
- `xbmc.translatePath` and `ET.parse` (reading and parsing `guisettings.xml`) are left out. The parsed tree is given to the constructor.
- What ElementTree's `find('')` returns for a query of the root tag alone is not modelled. That differs between ElementTree releases, and the model answers `Failure(LeftToLibrary)`.
- Paths that use ElementPath syntax are not modelled either: `*`, `.`, `..`, `//`, predicates, attributes, namespaces, an empty step such as the one in `root..x`, or a step holding ASCII whitespace, which ElementPath's tokenizer splits off. These paths also give `Failure(LeftToLibrary)`. So, to stay on the safe side, do steps holding other control characters or Unicode spaces: the tokenizer keeps those inside a tag, but the model makes no claim about them.
- `GuiSettings.GuiSettingsReader.GetSetting`: its own contract does not state "first in document order". That is proved for root-plus-plain-step queries in `GetSettingPlainQuery`. A segment holding `/` (such as `root.a/b`) is split by `find` into further steps, as in the code, but no separate lemma covers that case.
- Session calls that fail, and the real `Bitrate` values of the Spotify library, are not modelled. Every session call here succeeds and is logged.
