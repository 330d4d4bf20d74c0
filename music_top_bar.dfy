/**
 * The music top bar's choice of what to show: the state each mode yields
 * for the current song, whether a state counts as active, the fallback
 * search from the target mode down to the first mode, and the rule that
 * decides whether the bar is shown.
 */
module MusicTopBar {
  import opened Wrappers

  /** `MusicTopBarMode`; its declaration order is an input (`modes`), as its source is not part of this model. */
  datatype Mode = Lyrics | Visualiser

  /** `SongLyrics`, as far as the bar reads it. */
  datatype SongLyrics = SongLyrics(id: string, synced: bool)

  /** A mode's state: the song's lyrics, or the mode itself. */
  datatype State = LyricsState(lyrics: SongLyrics) | ModeState(mode: Mode)

  datatype Error = NotImplementedError(target: Mode)

  /**
   * `getModeState`: lyrics yield the song's lyrics when they are synced
   * (`lyrics` is `song?.lyrics?.lyrics`), and the visualiser yields itself.
   */
  function ModeStateOf(mode: Mode, lyrics: Option<SongLyrics>): Option<State>
  {
    match mode
    case Lyrics => if lyrics.Some? && lyrics.value.synced then Some(LyricsState(lyrics.value)) else None
    case Visualiser => Some(ModeState(Visualiser))
  }

  /** `isStateActive`: lyrics always; the visualiser when it may be shown and the player is playing. */
  predicate IsStateActive(state: State, canShowVisualiser: bool, playing: bool)
  {
    match state
    case LyricsState(_) => true
    case ModeState(m) => m == Visualiser && canShowVisualiser && playing
  }

  /** `show`: the bar is shown unless it hides while inactive and its state is inactive. */
  predicate Show(hideWhileInactive: bool, state: State, canShowVisualiser: bool, playing: bool)
  {
    !hideWhileInactive || IsStateActive(state, canShowVisualiser, playing)
  }

  /** Lyrics yield a state exactly for synced lyrics, and the visualiser always yields itself. */
  lemma ModeStateMeaning(mode: Mode, lyrics: Option<SongLyrics>)
    ensures ModeStateOf(Lyrics, lyrics).Some? <==> lyrics.Some? && lyrics.value.synced
    ensures ModeStateOf(Lyrics, lyrics).Some? ==> ModeStateOf(Lyrics, lyrics).value == LyricsState(lyrics.value)
    ensures ModeStateOf(Visualiser, lyrics) == Some(ModeState(Visualiser))
    ensures ModeStateOf(mode, lyrics).Some? ==> IsStateActive(ModeStateOf(mode, lyrics).value, true, true)
  {
  }

  /** The highest position at or below `top` whose mode yields a state. */
  function Fallback(modes: seq<Mode>, top: int, lyrics: Option<SongLyrics>): (r: Option<nat>)
    requires top < |modes|
    decreases top + 1
    ensures r.Some? ==> r.value <= top && ModeStateOf(modes[r.value], lyrics).Some?
  {
    if top < 0 then None
    else if ModeStateOf(modes[top], lyrics).Some? then Some(top)
    else Fallback(modes, top - 1, lyrics)
  }

  /**
   * The fallback is the first position, scanning down from `top`, whose
   * mode yields a state; there is none exactly when no mode at or below
   * `top` does.
   */
  lemma {:induction false} FallbackMeaning(modes: seq<Mode>, top: int, lyrics: Option<SongLyrics>)
    requires top < |modes|
    decreases top + 1
    ensures var r := Fallback(modes, top, lyrics);
      && (r.Some? ==> r.value <= top && ModeStateOf(modes[r.value], lyrics).Some?
                      && forall k :: r.value < k <= top ==> ModeStateOf(modes[k], lyrics).None?)
      && (r.None? <==> forall k :: 0 <= k <= top ==> ModeStateOf(modes[k], lyrics).None?)
  {
    if top >= 0 && ModeStateOf(modes[top], lyrics).None? {
      FallbackMeaning(modes, top - 1, lyrics);
    }
  }

  /** With the visualiser at or below the target, the search always finds a state. */
  lemma FallbackFindsVisualiser(modes: seq<Mode>, top: int, lyrics: Option<SongLyrics>, v: nat)
    requires top < |modes| && v <= top && modes[v] == Visualiser
    ensures Fallback(modes, top, lyrics).Some?
    ensures v <= Fallback(modes, top, lyrics).value <= top
  {
    FallbackMeaning(modes, top, lyrics);
  }

  /** The bar's `mode_state`: the mode whose state was found last. */
  class TopBar {
    var modeState: Mode

    constructor (target: Mode)
      ensures modeState == target
    {
      modeState := target;
    }

    /**
     * `current_state`: scan the modes from the target's position down to
     * the first; the first that yields a state becomes `mode_state` and its
     * state is returned. If none does, `NotImplementedError` escapes and
     * `mode_state` is left as it was.
     */
    method CurrentState(modes: seq<Mode>, target: Mode, lyrics: Option<SongLyrics>) returns (r: Result<State, Error>)
      requires target in modes
      modifies this
      ensures var found := Fallback(modes, IndexOfMode(modes, target), lyrics);
        && (found.None? ==> r == Failure(NotImplementedError(target)) && modeState == old(modeState))
        && (found.Some? ==> r == Success(ModeStateOf(modes[found.value], lyrics).value) && modeState == modes[found.value])
    {
      var i := IndexOfMode(modes, target);
      while i >= 0
        invariant -1 <= i < |modes|
        invariant Fallback(modes, IndexOfMode(modes, target), lyrics) == Fallback(modes, i, lyrics)
        invariant modeState == old(modeState)
      {
        var state := ModeStateOf(modes[i], lyrics);
        if state.Some? {
          modeState := modes[i];
          return Success(state.value);
        }
        i := i - 1;
      }
      return Failure(NotImplementedError(target));
    }
  }

  /** `target.ordinal`: the target's position in the declaration order. */
  function IndexOfMode(modes: seq<Mode>, target: Mode): (r: int)
    requires target in modes
    ensures 0 <= r < |modes| && modes[r] == target
  {
    if modes[0] == target then 0 else 1 + IndexOfMode(modes[1..], target)
  }

  /**
   * Targeting the visualiser always shows the visualiser, and targeting
   * lyrics shows synced lyrics when there are some; a state shown for the
   * visualiser is active only while it may be shown and the player plays.
   */
  lemma TargetMeaning(modes: seq<Mode>, lyrics: Option<SongLyrics>, canShowVisualiser: bool, playing: bool)
    requires Lyrics in modes && Visualiser in modes
    ensures var v := Fallback(modes, IndexOfMode(modes, Visualiser), lyrics);
      v == Some(IndexOfMode(modes, Visualiser))
      && Show(true, ModeStateOf(Visualiser, lyrics).value, canShowVisualiser, playing) == (canShowVisualiser && playing)
    ensures lyrics.Some? && lyrics.value.synced ==>
      Fallback(modes, IndexOfMode(modes, Lyrics), lyrics) == Some(IndexOfMode(modes, Lyrics))
      && Show(true, ModeStateOf(Lyrics, lyrics).value, canShowVisualiser, playing)
  {
  }
}
