/** The add-on's persisted settings: typed reads over the host's key-value
    store, the legal-warning flag, the quality-to-bitrate table, and the
    settings dialog, which compares the settings before and after the user
    edits them and passes the differences on to the live session. */
module Settings {
  import opened Wrappers
  import opened SpotifySession

  // Cache management modes.
  const Automatic: int := 0
  const Manual: int := 1

  // Stream qualities.
  const Low: int := 0
  const Medium: int := 1
  const High: int := 2

  // Start-up screens.
  const NewStuff: int := 0
  const Playlists: int := 1

  // Setting names.
  const LegalWarningShownKey: string := "_legal_warning_shown"
  const CacheEnableKey: string := "general_cache_enable"
  const CacheManagementKey: string := "general_cache_management"
  const CacheSizeKey: string := "general_cache_size"
  const AudioHideUnplayableKey: string := "audio_hide_unplayable"
  const AudioNormalizeKey: string := "audio_normalize"
  const AudioQualityKey: string := "audio_quality"
  const StartupScreenKey: string := "misc_startup_screen"

  /** The host's settings for this add-on. Every value the host keeps is a
      string; `text` holds them as strings, and `numbers` holds the numeric
      settings as the integers their strings convert to. A numeric setting
      absent from `numbers` is one whose string does not convert. */
  datatype Store = Store(text: map<string, string>, numbers: map<string, int>)

  /** A numeric setting whose string does not convert to an integer. */
  datatype SettingsError = ValueError(key: string)

  /** The host answers the empty string for a setting it does not have. */
  function GetString(s: Store, key: string): (value: string)
    ensures key in s.text ==> value == s.text[key]
    ensures key !in s.text ==> value == ""
  {
    if key in s.text then s.text[key] else ""
  }

  function GetNumber(s: Store, key: string): (r: Result<int, SettingsError>)
    ensures r.Success? <==> key in s.numbers
    ensures r.Success? ==> r.value == s.numbers[key]
    ensures r.Failure? ==> r.error == ValueError(key)
  {
    if key in s.numbers then Success(s.numbers[key]) else Failure(ValueError(key))
  }

  /** The stored form of a flag. */
  function FlagString(status: bool): (r: string)
    ensures r == "true" <==> status
    ensures r == "true" || r == "false"
  {
    if status then "true" else "false"
  }

  function LegalWarningShown(s: Store): (shown: bool)
    ensures shown <==> LegalWarningShownKey in s.text && s.text[LegalWarningShownKey] == "true"
  {
    GetString(s, LegalWarningShownKey) == "true"
  }

  function CacheStatus(s: Store): (enabled: bool)
    ensures enabled <==> CacheEnableKey in s.text && s.text[CacheEnableKey] == "true"
  {
    GetString(s, CacheEnableKey) == "true"
  }

  function AudioHideUnplayable(s: Store): (hidden: bool)
    ensures hidden <==> AudioHideUnplayableKey in s.text && s.text[AudioHideUnplayableKey] == "true"
  {
    GetString(s, AudioHideUnplayableKey) == "true"
  }

  function AudioNormalize(s: Store): (normalize: bool)
    ensures normalize <==> AudioNormalizeKey in s.text && s.text[AudioNormalizeKey] == "true"
  {
    GetString(s, AudioNormalizeKey) == "true"
  }

  /** The management mode, with no check that it is one of the two modes. */
  function CacheManagementMode(s: Store): (r: Result<int, SettingsError>)
    ensures r.Success? <==> CacheManagementKey in s.numbers
    ensures r.Success? ==> r.value == s.numbers[CacheManagementKey]
  {
    GetNumber(s, CacheManagementKey)
  }

  /** The cache size in megabytes. */
  function CacheSizeMb(s: Store): (r: Result<int, SettingsError>)
    ensures r.Success? <==> CacheSizeKey in s.numbers
    ensures r.Success? ==> r.value == s.numbers[CacheSizeKey]
  {
    GetNumber(s, CacheSizeKey)
  }

  /** The stream quality, with no check that it is one of the three qualities. */
  function AudioQuality(s: Store): (r: Result<int, SettingsError>)
    ensures r.Success? <==> AudioQualityKey in s.numbers
    ensures r.Success? ==> r.value == s.numbers[AudioQualityKey]
  {
    GetNumber(s, AudioQualityKey)
  }

  function StartupScreen(s: Store): (r: Result<int, SettingsError>)
    ensures r.Success? <==> StartupScreenKey in s.numbers
    ensures r.Success? ==> r.value == s.numbers[StartupScreenKey]
  {
    GetNumber(s, StartupScreenKey)
  }

  /** The session bitrate for a stream quality; a value that is none of the
      three qualities has no bitrate. */
  function BitrateFor(quality: int): (r: Option<Bitrate>)
    ensures r.Some? <==> quality == Low || quality == Medium || quality == High
    ensures r == Some(Rate96k) <==> quality == Low
    ensures r == Some(Rate160k) <==> quality == Medium
    ensures r == Some(Rate320k) <==> quality == High
  {
    if quality == Low then Some(Rate96k)
    else if quality == Medium then Some(Rate160k)
    else if quality == High then Some(Rate320k)
    else None
  }

  /** The bitrate for the stored quality. */
  function AudioSpBitrate(s: Store): (r: Result<Option<Bitrate>, SettingsError>)
    ensures r.Failure? <==> AudioQualityKey !in s.numbers
    ensures r.Success? ==> (r.value.Some? <==> s.numbers[AudioQualityKey] in {Low, Medium, High})
    ensures r.Success? ==> r.value == BitrateFor(s.numbers[AudioQualityKey])
  {
    match AudioQuality(s)
    case Failure(e) => Failure(e)
    case Success(quality) => Success(BitrateFor(quality))
  }

  /** The five settings the dialog compares. */
  datatype Snapshot = Snapshot(
    cacheEnabled: bool,
    cacheManagement: int,
    cacheSize: int,
    audioNormalize: bool,
    audioQuality: int)

  /** The five reads in the order the dialog makes them; the first numeric
      setting that does not convert raises. */
  function TakeSnapshot(s: Store): (r: Result<Snapshot, SettingsError>)
    ensures r.Success? <==>
      CacheManagementKey in s.numbers && CacheSizeKey in s.numbers && AudioQualityKey in s.numbers
    ensures r.Success? ==> r.value == Snapshot(CacheStatus(s), s.numbers[CacheManagementKey],
      s.numbers[CacheSizeKey], AudioNormalize(s), s.numbers[AudioQualityKey])
    ensures r.Failure? ==>
      r.error == (if CacheManagementKey !in s.numbers then ValueError(CacheManagementKey)
                  else if CacheSizeKey !in s.numbers then ValueError(CacheSizeKey)
                  else ValueError(AudioQualityKey))
  {
    var cacheEnabled := CacheStatus(s);
    match CacheManagementMode(s)
    case Failure(e) => Failure(e)
    case Success(management) =>
      match CacheSizeMb(s)
      case Failure(e) => Failure(e)
      case Success(size) =>
        var normalize := AudioNormalize(s);
        match AudioQuality(s)
        case Failure(e) => Failure(e)
        case Success(quality) => Success(Snapshot(cacheEnabled, management, size, normalize, quality))
  }

  // The three kinds of call the dialog makes, in the order it makes them.
  const CacheStage: nat := 0
  const NormalizationStage: nat := 1
  const BitrateStage: nat := 2

  function Stage(c: Call): nat
  {
    match c
    case CacheSizeSet(_) => CacheStage
    case NormalizationSet(_) => NormalizationStage
    case BitratePreferred(_) => BitrateStage
  }

  /** The calls of one kind, in the order they were made. */
  function OfStage(calls: seq<Call>, k: nat): (r: seq<Call>)
    ensures |r| <= |calls|
    decreases |calls|
  {
    if calls == [] then []
    else (if Stage(calls[0]) == k then [calls[0]] else []) + OfStage(calls[1..], k)
  }

  /** The cache calls: only when the cache was enabled before and is enabled
      after. A change of mode sets the size for the new mode; independently,
      a changed size under Manual sets the new size again. Sizes are kept in
      megabytes and passed to the session in kilobytes. */
  function CacheCalls(before: Snapshot, after: Snapshot): (r: seq<Call>)
    ensures |r| <= 2 && AllOfStage(r, CacheStage)
    ensures !(before.cacheEnabled && after.cacheEnabled) ==> r == []
    ensures forall i :: 0 <= i < |r| ==>
      || (before.cacheManagement != Automatic && after.cacheManagement == Automatic && r[i] == CacheSizeSet(0))
      || (after.cacheManagement == Manual && (before.cacheManagement != Manual || before.cacheSize != after.cacheSize)
          && r[i] == CacheSizeSet(after.cacheSize * 1024))
    ensures |r| == 2 ==>
      before.cacheManagement != Manual && after.cacheManagement == Manual && before.cacheSize != after.cacheSize
    ensures (before.cacheEnabled && after.cacheEnabled && before.cacheManagement != after.cacheManagement
             && (after.cacheManagement == Automatic || after.cacheManagement == Manual)) ==> r != []
  {
    if before.cacheEnabled && after.cacheEnabled then
      (if before.cacheManagement != after.cacheManagement then
         (if after.cacheManagement == Automatic then [CacheSizeSet(0)]
          else if after.cacheManagement == Manual then [CacheSizeSet(after.cacheSize * 1024)]
          else [])
       else [])
      + (if after.cacheManagement == Manual && before.cacheSize != after.cacheSize
         then [CacheSizeSet(after.cacheSize * 1024)] else [])
    else []
  }

  function NormalizationCalls(before: Snapshot, after: Snapshot): (r: seq<Call>)
    ensures |r| <= 1 && AllOfStage(r, NormalizationStage)
    ensures r != [] <==> before.audioNormalize != after.audioNormalize
    ensures forall i :: 0 <= i < |r| ==> r[i] == NormalizationSet(after.audioNormalize)
  {
    if before.audioNormalize != after.audioNormalize then [NormalizationSet(after.audioNormalize)] else []
  }

  function BitrateCalls(before: Snapshot, after: Snapshot): (r: seq<Call>)
    ensures |r| <= 1 && AllOfStage(r, BitrateStage)
    ensures r != [] <==> before.audioQuality != after.audioQuality
    ensures forall i :: 0 <= i < |r| ==> r[i] == BitratePreferred(BitrateFor(after.audioQuality))
  {
    if before.audioQuality != after.audioQuality then [BitratePreferred(BitrateFor(after.audioQuality))] else []
  }

  /** The session calls the dialog makes for a change from `before` to `after`. */
  function Reconcile(before: Snapshot, after: Snapshot): (calls: seq<Call>)
    ensures |calls| <= 4
    ensures forall i, j :: 0 <= i < j < |calls| ==> Stage(calls[i]) <= Stage(calls[j])
    ensures before == after ==> calls == []
  {
    CacheCalls(before, after) + NormalizationCalls(before, after) + BitrateCalls(before, after)
  }

  lemma {:induction false} OfStageAppend(a: seq<Call>, b: seq<Call>, k: nat)
    ensures OfStage(a + b, k) == OfStage(a, k) + OfStage(b, k)
    decreases |a|
  {
    if a != [] {
      assert (a + b)[1..] == a[1..] + b;
      OfStageAppend(a[1..], b, k);
    } else {
      assert a + b == b;
    }
  }

  ghost predicate AllOfStage(calls: seq<Call>, j: nat)
  {
    forall i :: 0 <= i < |calls| ==> Stage(calls[i]) == j
  }

  /** Filtering calls that are all of kind `j` keeps all of them or none. */
  lemma {:induction false} OfStageUniform(calls: seq<Call>, j: nat, k: nat)
    requires AllOfStage(calls, j)
    ensures OfStage(calls, k) == if j == k then calls else []
    decreases |calls|
  {
    if calls != [] {
      OfStageUniform(calls[1..], j, k);
      assert calls == [calls[0]] + calls[1..];
    }
  }

  /** When mode, size, normalization and quality are unchanged the dialog
      makes no call, whether or not the cache was switched on or off. */
  lemma ReconcileOnlyEnabledChanged(before: Snapshot, after: Snapshot)
    requires before.cacheManagement == after.cacheManagement && before.cacheSize == after.cacheSize
    requires before.audioNormalize == after.audioNormalize && before.audioQuality == after.audioQuality
    ensures Reconcile(before, after) == []
  {
  }

  /** The dialog's calls fall into three groups, cache then normalization
      then bitrate, and each group is exactly the calls of its kind. */
  lemma ReconcileStages(before: Snapshot, after: Snapshot)
    ensures var calls := Reconcile(before, after);
      && OfStage(calls, CacheStage) == CacheCalls(before, after)
      && OfStage(calls, NormalizationStage) == NormalizationCalls(before, after)
      && OfStage(calls, BitrateStage) == BitrateCalls(before, after)
      && calls == OfStage(calls, CacheStage) + OfStage(calls, NormalizationStage) + OfStage(calls, BitrateStage)
  {
    var c, n, b := CacheCalls(before, after), NormalizationCalls(before, after), BitrateCalls(before, after);
    assert AllOfStage(c, CacheStage);
    assert AllOfStage(n, NormalizationStage);
    assert AllOfStage(b, BitrateStage);
    OfStageAppend(c + n, b, CacheStage);
    OfStageAppend(c, n, CacheStage);
    OfStageUniform(c, CacheStage, CacheStage);
    OfStageUniform(n, NormalizationStage, CacheStage);
    OfStageUniform(b, BitrateStage, CacheStage);
    OfStageAppend(c + n, b, NormalizationStage);
    OfStageAppend(c, n, NormalizationStage);
    OfStageUniform(c, CacheStage, NormalizationStage);
    OfStageUniform(n, NormalizationStage, NormalizationStage);
    OfStageUniform(b, BitrateStage, NormalizationStage);
    OfStageAppend(c + n, b, BitrateStage);
    OfStageAppend(c, n, BitrateStage);
    OfStageUniform(c, CacheStage, BitrateStage);
    OfStageUniform(n, NormalizationStage, BitrateStage);
    OfStageUniform(b, BitrateStage, BitrateStage);
  }

  /** No cache call unless the cache was enabled before and after, whatever
      the mode and the size did. */
  lemma ReconcileNeedsCacheEnabled(before: Snapshot, after: Snapshot)
    requires !(before.cacheEnabled && after.cacheEnabled)
    ensures forall i :: 0 <= i < |Reconcile(before, after)| ==> !Reconcile(before, after)[i].CacheSizeSet?
  {
  }

  /** Switching to Automatic with the cache enabled throughout sets an
      unbounded cache exactly once; the size check cannot fire as well. */
  lemma ReconcileSwitchToAutomatic(before: Snapshot, after: Snapshot)
    requires before.cacheEnabled && after.cacheEnabled
    requires before.cacheManagement != after.cacheManagement && after.cacheManagement == Automatic
    ensures OfStage(Reconcile(before, after), CacheStage) == [CacheSizeSet(0)]
  {
    ReconcileStages(before, after);
  }

  /** Resizing under Manual, with the cache enabled throughout, passes the
      new size on exactly once. */
  lemma ReconcileManualResize(before: Snapshot, after: Snapshot)
    requires before.cacheEnabled && after.cacheEnabled
    requires before.cacheManagement == Manual && after.cacheManagement == Manual
    requires before.cacheSize != after.cacheSize
    ensures OfStage(Reconcile(before, after), CacheStage) == [CacheSizeSet(after.cacheSize * 1024)]
  {
    ReconcileStages(before, after);
  }

  /** Switching to Manual and resizing at once passes the new size on twice. */
  lemma ReconcileSwitchToManualAndResize(before: Snapshot, after: Snapshot)
    requires before.cacheEnabled && after.cacheEnabled
    requires before.cacheManagement != Manual && after.cacheManagement == Manual
    requires before.cacheSize != after.cacheSize
    ensures OfStage(Reconcile(before, after), CacheStage) ==
      [CacheSizeSet(after.cacheSize * 1024), CacheSizeSet(after.cacheSize * 1024)]
  {
    ReconcileStages(before, after);
  }

  /** Switching to Manual at an unchanged size passes that size on once. */
  lemma ReconcileSwitchToManual(before: Snapshot, after: Snapshot)
    requires before.cacheEnabled && after.cacheEnabled
    requires before.cacheManagement != Manual && after.cacheManagement == Manual
    requires before.cacheSize == after.cacheSize
    ensures OfStage(Reconcile(before, after), CacheStage) == [CacheSizeSet(after.cacheSize * 1024)]
  {
    ReconcileStages(before, after);
  }

  /** Normalization is set, to its new value, exactly when it changed. */
  lemma ReconcileNormalization(before: Snapshot, after: Snapshot)
    ensures OfStage(Reconcile(before, after), NormalizationStage) ==
      (if before.audioNormalize != after.audioNormalize then [NormalizationSet(after.audioNormalize)] else [])
  {
    ReconcileStages(before, after);
  }

  /** The bitrate is set, to the one for the new quality, exactly when the
      quality changed. */
  lemma ReconcileBitrate(before: Snapshot, after: Snapshot)
    ensures OfStage(Reconcile(before, after), BitrateStage) ==
      (if before.audioQuality != after.audioQuality then [BitratePreferred(BitrateFor(after.audioQuality))] else [])
  {
    ReconcileStages(before, after);
  }

  /** The cache part of the dialog: sets the cache size on `session` for a
      change of mode and, separately, for a changed size under Manual. */
  method SendCacheCalls(session: Session, before: Snapshot, after: Snapshot)
    modifies session
    ensures session.log == old(session.log) + CacheCalls(before, after)
  {
    ghost var log0 := session.log;
    if before.cacheEnabled && after.cacheEnabled {
      ghost var switched: seq<Call> := [];
      if before.cacheManagement != after.cacheManagement {
        if after.cacheManagement == Automatic {
          session.SetCacheSize(0);
          switched := [CacheSizeSet(0)];
        } else if after.cacheManagement == Manual {
          session.SetCacheSize(after.cacheSize * 1024);
          switched := [CacheSizeSet(after.cacheSize * 1024)];
        }
      }
      assert session.log == log0 + switched;
      ghost var resized: seq<Call> := [];
      if after.cacheManagement == Manual && before.cacheSize != after.cacheSize {
        session.SetCacheSize(after.cacheSize * 1024);
        resized := [CacheSizeSet(after.cacheSize * 1024)];
      }
      assert session.log == log0 + switched + resized;
      assert CacheCalls(before, after) == switched + resized;
    }
  }

  /** The add-on's handle on the host settings. */
  class SettingsManager {
    var store: Store

    constructor (initial: Store)
      ensures store == initial
    {
      store := initial;
    }

    /** Records whether the legal warning has been shown; nothing else changes. */
    method SetLegalWarningShown(status: bool)
      modifies this
      ensures store == old(store).(text := old(store).text[LegalWarningShownKey := FlagString(status)])
      ensures LegalWarningShown(store) == status
    {
      store := store.(text := store.text[LegalWarningShownKey := FlagString(status)]);
    }

    /** The host's settings dialog: the user may leave any settings in any state. */
    method OpenSettings(edited: Store)
      modifies this
      ensures store == edited
    {
      store := edited;
    }

    /** Shows the settings dialog, where the user leaves the settings as
        `edited`, and passes what changed on to `session`. A numeric setting
        that does not convert raises, before the dialog opens or after it
        closes, and then no session call is made. */
    method ShowDialog(session: Session, edited: Store) returns (outcome: Result<(), SettingsError>)
      modifies this, session
      ensures match TakeSnapshot(old(store))
        case Failure(e) =>
          outcome == Failure(e) && store == old(store) && session.log == old(session.log)
        case Success(before) =>
          store == edited &&
          match TakeSnapshot(edited)
          case Failure(e) => outcome == Failure(e) && session.log == old(session.log)
          case Success(after) =>
            outcome == Success(()) && session.log == old(session.log) + Reconcile(before, after)
    {
      ghost var log0 := session.log;
      var read := TakeSnapshot(store);
      if read.Failure? {
        return Failure(read.error);
      }
      var before := read.value;

      OpenSettings(edited);

      read := TakeSnapshot(store);
      if read.Failure? {
        return Failure(read.error);
      }
      var after := read.value;

      SendCacheCalls(session, before, after);
      assert session.log == log0 + CacheCalls(before, after);

      if before.audioNormalize != after.audioNormalize {
        session.SetVolumeNormalization(after.audioNormalize);
      }
      assert session.log == log0 + CacheCalls(before, after) + NormalizationCalls(before, after);

      if before.audioQuality != after.audioQuality {
        // The bitrate is read afresh from the store; that read converts the
        // same string the snapshot just did, so it cannot raise.
        var rate := AudioSpBitrate(store).value;
        session.PreferredBitrate(rate);
      }
      ghost var cache, normalization, bitrate :=
        CacheCalls(before, after), NormalizationCalls(before, after), BitrateCalls(before, after);
      assert session.log == log0 + cache + normalization + bitrate;
      assert Reconcile(before, after) == cache + normalization + bitrate;
      assert log0 + cache + normalization + bitrate == log0 + (cache + normalization + bitrate);
      assert session.log == log0 + Reconcile(before, after);
      return Success(());
    }
  }

  /** Storing a flag and reading it back gives the flag, and no other
      setting changes. */
  lemma LegalWarningRoundTrip(s: Store, status: bool)
    ensures var s' := s.(text := s.text[LegalWarningShownKey := FlagString(status)]);
      && LegalWarningShown(s') == status
      && s'.numbers == s.numbers
      && forall key :: key != LegalWarningShownKey ==> GetString(s', key) == GetString(s, key)
  {
  }
}
