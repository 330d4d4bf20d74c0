/**
 * The application's settings keys (`com.spectre7.spmp.model.Settings`): a
 * total table of defaults and typed lookups over a key-value preference
 * store, dispatching on the runtime type of the default.
 */
module AppSettings {
  import opened Wrappers
  import Seqs

  datatype Key =
    | LangUi | LangData
    | AccentColourSource | NowPlayingThemeMode
    | LyricsFollowEnabled | LyricsFollowOffset | LyricsDefaultFurigana
    | LyricsTextAlignment | LyricsExtraPadding
    | StreamAudioQuality | DownloadAudioQuality
    | AutoDownloadThreshold | AutoDownloadQuality | AutoDownloadSizeLimit
    | StatsEnabled | StatsListenThreshold | StatsListenThresholdType
    | AccVolInterceptMode | AccVolInterceptNotification | AccScreenOff
    | VolumeSteps

  /** The enum constant's `name`, under which its value is stored. */
  function Name(k: Key): string
  {
    match k
    case LangUi => "KEY_LANG_UI"
    case LangData => "KEY_LANG_DATA"
    case AccentColourSource => "KEY_ACCENT_COLOUR_SOURCE"
    case NowPlayingThemeMode => "KEY_NOWPLAYING_THEME_MODE"
    case LyricsFollowEnabled => "KEY_LYRICS_FOLLOW_ENABLED"
    case LyricsFollowOffset => "KEY_LYRICS_FOLLOW_OFFSET"
    case LyricsDefaultFurigana => "KEY_LYRICS_DEFAULT_FURIGANA"
    case LyricsTextAlignment => "KEY_LYRICS_TEXT_ALIGNMENT"
    case LyricsExtraPadding => "KEY_LYRICS_EXTRA_PADDING"
    case StreamAudioQuality => "KEY_STREAM_AUDIO_QUALITY"
    case DownloadAudioQuality => "KEY_DOWNLOAD_AUDIO_QUALITY"
    case AutoDownloadThreshold => "KEY_AUTO_DOWNLOAD_THRESHOLD"
    case AutoDownloadQuality => "KEY_AUTO_DOWNLOAD_QUALITY"
    case AutoDownloadSizeLimit => "KEY_AUTO_DOWNLOAD_SIZE_LIMIT"
    case StatsEnabled => "KEY_STATS_ENABLED"
    case StatsListenThreshold => "KEY_STATS_LISTEN_THRESHOLD"
    case StatsListenThresholdType => "KEY_STATS_LISTEN_THRESHOLD_TYPE"
    case AccVolInterceptMode => "KEY_ACC_VOL_INTERCEPT_MODE"
    case AccVolInterceptNotification => "KEY_ACC_VOL_INTERCEPT_NOTIFICATION"
    case AccScreenOff => "KEY_ACC_SCREEN_OFF"
    case VolumeSteps => "KEY_VOLUME_STEPS"
  }

  /** A stored or default value, tagged with its runtime class. */
  datatype Value =
    | BoolValue(b: bool)
    | FloatValue(f: real)
    | IntValue(i: int)
    | LongValue(l: int)
    | StringValue(s: string)
    | OtherValue(className: string)   // any class the typed getters do not handle

  predicate SameClass(a: Value, b: Value)
  {
    match (a, b)
    case (BoolValue(_), BoolValue(_)) => true
    case (FloatValue(_), FloatValue(_)) => true
    case (IntValue(_), IntValue(_)) => true
    case (LongValue(_), LongValue(_)) => true
    case (StringValue(_), StringValue(_)) => true
    case _ => false
  }

  /** The classes `get` dispatches on (Boolean, Float, Int, Long, String). */
  predicate Dispatched(v: Value)
  {
    !v.OtherValue?
  }

  datatype Error = ClassCastException | IndexOutOfBoundsException | NoSuchElementException

  /**
   * What the defaults depend on besides the key: the keys of the language
   * table, the system language, and the ordinals of two enum constants whose
   * declarations are not part of this model.
   */
  datatype Environment = Environment(
    languageKeys: seq<string>,
    systemLanguage: string,
    audioQualityMediumOrdinal: nat,
    volumeInterceptNeverOrdinal: nat)

  /** The preference store: stored values by key name. */
  type Preferences = map<string, Value>

  /** `getDefault`: a default for every key. */
  function GetDefault(k: Key, env: Environment): (r: Value)
    ensures r.IntValue? || r.BoolValue? || r.FloatValue?
    ensures (k == LangUi || k == LangData) ==>
      r.IntValue? && -1 <= r.i < |env.languageKeys| &&
      (r.i == -1 <==> env.systemLanguage !in env.languageKeys) &&
      (r.i >= 0 ==> env.languageKeys[r.i] == env.systemLanguage)
  {
    match k
    case LangUi | LangData => IntValue(Seqs.IndexOf(env.languageKeys, env.systemLanguage))
    case AccentColourSource => IntValue(0)
    case NowPlayingThemeMode => IntValue(0)
    case LyricsFollowEnabled => BoolValue(true)
    case LyricsFollowOffset => FloatValue(0.5)
    case LyricsDefaultFurigana => BoolValue(true)
    case LyricsTextAlignment => IntValue(0)
    case LyricsExtraPadding => BoolValue(false)
    case StreamAudioQuality => IntValue(env.audioQualityMediumOrdinal)
    case DownloadAudioQuality => IntValue(env.audioQualityMediumOrdinal)
    case StatsEnabled => BoolValue(true)
    case StatsListenThreshold => FloatValue(1.0)
    case StatsListenThresholdType => IntValue(0)
    case AutoDownloadThreshold => IntValue(3)
    case AutoDownloadQuality => IntValue(env.audioQualityMediumOrdinal)
    case AutoDownloadSizeLimit => IntValue(1000000000)
    case AccVolInterceptMode => IntValue(env.volumeInterceptNeverOrdinal)
    case AccVolInterceptNotification => BoolValue(false)
    case AccScreenOff => BoolValue(false)
    case VolumeSteps => IntValue(50)
  }

  /**
   * A typed getter of the store (`getBoolean`, `getInt`, ...): the stored
   * value, the default when nothing is stored, and ClassCastException when
   * the stored value has another class.
   */
  function TypedGet(prefs: Preferences, name: string, default: Value): Result<Value, Error>
  {
    if name !in prefs then Success(default)
    else if SameClass(prefs[name], default) then Success(prefs[name])
    else Failure(ClassCastException)
  }

  /** `Settings.get`: the explicit default when given, else `getDefault`. */
  function Get(k: Key, prefs: Preferences, default: Option<Value>, env: Environment): (r: Result<Value, Error>)
    ensures var d := default.GetOr(GetDefault(k, env));
      && (r.Failure? <==> !Dispatched(d) || (Name(k) in prefs && !SameClass(prefs[Name(k)], d)))
      && (r.Success? ==> SameClass(r.value, d))
      && (r.Success? && Name(k) in prefs ==> r.value == prefs[Name(k)])
      && (r.Success? && Name(k) !in prefs ==> r.value == d)
  {
    var d := default.GetOr(GetDefault(k, env));
    if Dispatched(d) then TypedGet(prefs, Name(k), d) else Failure(ClassCastException)
  }

  /** Without an explicit default, `get` never fails on a key that has no stored value. */
  lemma GetUnstoredIsDefault(k: Key, prefs: Preferences, env: Environment)
    requires Name(k) !in prefs
    ensures Get(k, prefs, None, env) == Success(GetDefault(k, env))
  {
  }

  /**
   * `Settings.getEnum`: the ordinal of the enum value at the stored index, or
   * at the default ordinal (the explicit default's, else `getDefault`'s) when
   * nothing is stored. `enumSize` is the number of constants of the enum.
   */
  function GetEnum(k: Key, prefs: Preferences, enumSize: nat, default: Option<nat>, env: Environment)
    : (r: Result<nat, Error>)
    ensures r.Success? ==> r.value < enumSize
    ensures r.Success? && Name(k) in prefs ==> prefs[Name(k)] == IntValue(r.value)
    ensures r.Success? && Name(k) !in prefs ==>
      if default.Some? then r.value == default.value else GetDefault(k, env) == IntValue(r.value)
    ensures ((default.Some? || GetDefault(k, env).IntValue?) && Name(k) in prefs &&
             prefs[Name(k)].IntValue? && 0 <= prefs[Name(k)].i < enumSize) ==> r.Success?
    ensures (Name(k) !in prefs &&
             if default.Some? then default.value < enumSize
             else GetDefault(k, env).IntValue? && 0 <= GetDefault(k, env).i < enumSize) ==> r.Success?
  {
    var d := if default.Some? then IntValue(default.value) else GetDefault(k, env);
    if !d.IntValue? then Failure(ClassCastException)
    else
      match TypedGet(prefs, Name(k), d)
      case Failure(e) => Failure(e)
      case Success(v) =>
        if 0 <= v.i < enumSize then Success(v.i) else Failure(IndexOutOfBoundsException)
  }

  /**
   * `values().first { it.name == name }`: the first key, in declaration
   * order, whose name is `name`.
   */
  function KeyNamed(name: string): (r: Option<Key>)
    ensures r.Some? ==> Name(r.value) == name
    ensures r.None? <==> forall k :: Name(k) != name
  {
    if name == Name(LangUi) then Some(LangUi)
    else if name == Name(LangData) then Some(LangData)
    else if name == Name(AccentColourSource) then Some(AccentColourSource)
    else if name == Name(NowPlayingThemeMode) then Some(NowPlayingThemeMode)
    else if name == Name(LyricsFollowEnabled) then Some(LyricsFollowEnabled)
    else if name == Name(LyricsFollowOffset) then Some(LyricsFollowOffset)
    else if name == Name(LyricsDefaultFurigana) then Some(LyricsDefaultFurigana)
    else if name == Name(LyricsTextAlignment) then Some(LyricsTextAlignment)
    else if name == Name(LyricsExtraPadding) then Some(LyricsExtraPadding)
    else if name == Name(StreamAudioQuality) then Some(StreamAudioQuality)
    else if name == Name(DownloadAudioQuality) then Some(DownloadAudioQuality)
    else if name == Name(AutoDownloadThreshold) then Some(AutoDownloadThreshold)
    else if name == Name(AutoDownloadQuality) then Some(AutoDownloadQuality)
    else if name == Name(AutoDownloadSizeLimit) then Some(AutoDownloadSizeLimit)
    else if name == Name(StatsEnabled) then Some(StatsEnabled)
    else if name == Name(StatsListenThreshold) then Some(StatsListenThreshold)
    else if name == Name(StatsListenThresholdType) then Some(StatsListenThresholdType)
    else if name == Name(AccVolInterceptMode) then Some(AccVolInterceptMode)
    else if name == Name(AccVolInterceptNotification) then Some(AccVolInterceptNotification)
    else if name == Name(AccScreenOff) then Some(AccScreenOff)
    else if name == Name(VolumeSteps) then Some(VolumeSteps)
    else None
  }

  /** `getDefaultProvider`: the default of the key with the given name. */
  function GetDefaultProvider(name: string, env: Environment): (r: Result<Value, Error>)
    ensures r.Failure? <==> forall k :: Name(k) != name
    ensures r.Success? ==> exists k :: Name(k) == name && r.value == GetDefault(k, env)
  {
    match KeyNamed(name)
    case None => Failure(NoSuchElementException)
    case Some(k) => Success(GetDefault(k, env))
  }

  /** The length and the last character of each key's name. */
  function Fingerprint(k: Key): (int, char)
  {
    match k
    case LangUi => (11, 'I')
    case LangData => (13, 'A')
    case AccentColourSource => (24, 'E')
    case NowPlayingThemeMode => (25, 'E')
    case LyricsFollowEnabled => (25, 'D')
    case LyricsFollowOffset => (24, 'T')
    case LyricsDefaultFurigana => (27, 'A')
    case LyricsTextAlignment => (25, 'T')
    case LyricsExtraPadding => (24, 'G')
    case StreamAudioQuality => (24, 'Y')
    case DownloadAudioQuality => (26, 'Y')
    case AutoDownloadThreshold => (27, 'D')
    case AutoDownloadQuality => (25, 'Y')
    case AutoDownloadSizeLimit => (28, 'T')
    case StatsEnabled => (17, 'D')
    case StatsListenThreshold => (26, 'D')
    case StatsListenThresholdType => (31, 'E')
    case AccVolInterceptMode => (26, 'E')
    case AccVolInterceptNotification => (34, 'N')
    case AccScreenOff => (18, 'F')
    case VolumeSteps => (16, 'S')
  }

  lemma FingerprintOfName(k: Key)
    ensures Fingerprint(k) == (|Name(k)|, Name(k)[|Name(k)| - 1])
  {
    match k
    case LangUi =>
    case LangData =>
    case AccentColourSource =>
    case NowPlayingThemeMode =>
    case LyricsFollowEnabled =>
    case LyricsFollowOffset =>
    case LyricsDefaultFurigana =>
    case LyricsTextAlignment =>
    case LyricsExtraPadding =>
    case StreamAudioQuality =>
    case DownloadAudioQuality =>
    case AutoDownloadThreshold =>
    case AutoDownloadQuality =>
    case AutoDownloadSizeLimit =>
    case StatsEnabled =>
    case StatsListenThreshold =>
    case StatsListenThresholdType =>
    case AccVolInterceptMode =>
    case AccVolInterceptNotification =>
    case AccScreenOff =>
    case VolumeSteps =>
  }

  /** The key a fingerprint belongs to. */
  function KeyOfFingerprint(f: (int, char)): Option<Key>
  {
    if f == (11, 'I') then Some(LangUi)
    else if f == (13, 'A') then Some(LangData)
    else if f == (24, 'E') then Some(AccentColourSource)
    else if f == (25, 'E') then Some(NowPlayingThemeMode)
    else if f == (25, 'D') then Some(LyricsFollowEnabled)
    else if f == (24, 'T') then Some(LyricsFollowOffset)
    else if f == (27, 'A') then Some(LyricsDefaultFurigana)
    else if f == (25, 'T') then Some(LyricsTextAlignment)
    else if f == (24, 'G') then Some(LyricsExtraPadding)
    else if f == (24, 'Y') then Some(StreamAudioQuality)
    else if f == (26, 'Y') then Some(DownloadAudioQuality)
    else if f == (27, 'D') then Some(AutoDownloadThreshold)
    else if f == (25, 'Y') then Some(AutoDownloadQuality)
    else if f == (28, 'T') then Some(AutoDownloadSizeLimit)
    else if f == (17, 'D') then Some(StatsEnabled)
    else if f == (26, 'D') then Some(StatsListenThreshold)
    else if f == (31, 'E') then Some(StatsListenThresholdType)
    else if f == (26, 'E') then Some(AccVolInterceptMode)
    else if f == (34, 'N') then Some(AccVolInterceptNotification)
    else if f == (18, 'F') then Some(AccScreenOff)
    else if f == (16, 'S') then Some(VolumeSteps)
    else None
  }

  /** No two keys share a fingerprint. */
  lemma FingerprintInverse(k: Key)
    ensures KeyOfFingerprint(Fingerprint(k)) == Some(k)
  {
  }

  /** Different keys are stored under different names. */
  lemma NameInjective(k1: Key, k2: Key)
    requires Name(k1) == Name(k2)
    ensures k1 == k2
  {
    FingerprintOfName(k1);
    FingerprintOfName(k2);
    FingerprintInverse(k1);
    FingerprintInverse(k2);
  }

  /** The provider maps every key's name to that key's default. */
  lemma DefaultProviderOfName(k: Key, env: Environment)
    ensures GetDefaultProvider(Name(k), env) == Success(GetDefault(k, env))
  {
    NameInjective(KeyNamed(Name(k)).value, k);
  }
}
