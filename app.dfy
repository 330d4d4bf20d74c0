/**
 * The application object's logic: the language chosen by a stored index,
 * the font directory picked for the interface language, the error manager's
 * map of reported errors, and the error list's single expanded entry.
 */
module App {
  import opened Wrappers
  import Seqs
  import Text

  datatype Error = NullPointerException | IndexOutOfBoundsException

  // ---------------------------------------------------------------------------
  // Languages
  // ---------------------------------------------------------------------------

  /** `languages.keys.elementAt(index)`, over the keys in the map's insertion order. */
  function LanguageAt(keys: seq<string>, index: int): Result<string, Error>
  {
    if 0 <= index < |keys| then Success(keys[index]) else Failure(IndexOutOfBoundsException)
  }

  /**
   * The language stored as the index of a language (the settings default is
   * the system language's index, -1 when it is missing) reads back as that
   * language, and a missing language makes the lookup throw.
   */
  lemma LanguageAtIndexOf(keys: seq<string>, language: string)
    requires forall i, j :: 0 <= i < j < |keys| ==> keys[i] != keys[j]
    ensures LanguageAt(keys, Seqs.IndexOf(keys, language)) ==
      if language in keys then Success(language) else Failure(IndexOutOfBoundsException)
  {
  }

  /** Exactly the indices of the language map read as a language; each names a distinct key. */
  lemma LanguageAtMeaning(keys: seq<string>, index: int)
    requires forall i, j :: 0 <= i < j < |keys| ==> keys[i] != keys[j]
    ensures LanguageAt(keys, index).Success? <==> 0 <= index < |keys|
    ensures LanguageAt(keys, index).Success? ==>
      LanguageAt(keys, index).value in keys && Seqs.IndexOf(keys, LanguageAt(keys, index).value) == index
  {
  }

  // ---------------------------------------------------------------------------
  // Font directory
  // ---------------------------------------------------------------------------

  /** A resource directory that can hold a font: a name longer than 4 starting with "font". */
  predicate IsFontDir(name: string)
  {
    |name| > 4 && Text.StartsWith(name, "font")
  }

  /** `filter { it.length > 4 && it.startsWith("font") }` */
  function FontDirs(names: seq<string>): seq<string>
  {
    if |names| == 0 then []
    else (if IsFontDir(names[0]) then [names[0]] else []) + FontDirs(names[1..])
  }

  /** `firstOrNull { it.endsWith(suffix) }` */
  function FirstEnding(dirs: seq<string>, suffix: string): Option<string>
  {
    if |dirs| == 0 then None
    else if Text.EndsWith(dirs[0], suffix) then Some(dirs[0])
    else FirstEnding(dirs[1..], suffix)
  }

  /** A font directory for `suffix`. */
  predicate FontDirFor(name: string, suffix: string)
  {
    IsFontDir(name) && Text.EndsWith(name, suffix)
  }

  /**
   * The first font directory ending with `suffix` is the first resource name,
   * in listing order, that is a font directory ending with it; there is none
   * exactly when no name is.
   */
  lemma {:induction false} FirstEndingMeaning(names: seq<string>, suffix: string)
    ensures var r := FirstEnding(FontDirs(names), suffix);
      && (r.None? <==> forall i :: 0 <= i < |names| ==> !FontDirFor(names[i], suffix))
      && (r.Some? ==> exists i :: 0 <= i < |names| && names[i] == r.value && FontDirFor(r.value, suffix)
                        && forall j :: 0 <= j < i ==> !FontDirFor(names[j], suffix))
  {
    if |names| > 0 {
      FirstEndingMeaning(names[1..], suffix);
      var rest := FirstEnding(FontDirs(names[1..]), suffix);
      if FontDirFor(names[0], suffix) {
        assert FirstEnding(FontDirs(names), suffix) == Some(names[0]);
      } else {
        if IsFontDir(names[0]) {
          assert FontDirs(names) == [names[0]] + FontDirs(names[1..]);
          assert FontDirs(names)[1..] == FontDirs(names[1..]);
        } else {
          assert FontDirs(names) == FontDirs(names[1..]);
        }
        assert FirstEnding(FontDirs(names), suffix) == rest;
        if rest.Some? {
          var i :| 0 <= i < |names[1..]| && names[1..][i] == rest.value && FontDirFor(rest.value, suffix)
            && forall j :: 0 <= j < i ==> !FontDirFor(names[1..][j], suffix);
          assert names[i + 1] == rest.value;
          forall j | 0 <= j < i + 1 ensures !FontDirFor(names[j], suffix) {
            if j > 0 {
              assert names[j] == names[1..][j - 1];
            }
          }
        } else {
          forall i | 0 <= i < |names| ensures !FontDirFor(names[i], suffix) {
            if i > 0 {
              assert names[i] == names[1..][i - 1];
            }
          }
        }
      }
    }
  }

  /**
   * `getFontFamily`'s directory: the first font directory for the full
   * locale, else, when the locale has a '-' after its first character, the
   * first one for the part before it, else "font".
   */
  function FontDirectory(names: seq<string>, locale: string): string
  {
    var dirs := FontDirs(names);
    match FirstEnding(dirs, "-" + locale)
    case Some(dir) => dir
    case None =>
      var split := Seqs.IndexOf(locale, '-');
      if split > 0 then FirstEnding(dirs, "-" + locale[..split]).GetOr("font")
      else "font"
  }

  /**
   * The font file for the interface language: the language lookup throws
   * first, then an unlisted resource directory; otherwise the chosen
   * directory's "regular.ttf".
   */
  function FontPath(resources: Option<seq<string>>, keys: seq<string>, index: int): Result<string, Error>
  {
    match LanguageAt(keys, index)
    case Failure(e) => Failure(e)
    case Success(locale) =>
      if resources.None? then Failure(NullPointerException)
      else Success(FontDirectory(resources.value, locale) + "/regular.ttf")
  }

  /**
   * The chosen directory is "font" or a listed font directory for the locale
   * or its base language; a directory for the full locale always wins, and
   * "font" is chosen exactly when neither kind exists.
   */
  lemma FontDirectoryMeaning(names: seq<string>, locale: string)
    ensures var r := FontDirectory(names, locale);
      var split := Seqs.IndexOf(locale, '-');
      && (r == "font" || (r in names && IsFontDir(r)))
      && ((exists i :: 0 <= i < |names| && FontDirFor(names[i], "-" + locale)) ==> FontDirFor(r, "-" + locale))
      && ((forall i :: 0 <= i < |names| ==> !FontDirFor(names[i], "-" + locale)) && split > 0 ==>
            r == "font" || FontDirFor(r, "-" + locale[..split]))
      && (r == "font" <==>
            (forall i :: 0 <= i < |names| ==> !FontDirFor(names[i], "-" + locale))
            && (split > 0 ==> forall i :: 0 <= i < |names| ==> !FontDirFor(names[i], "-" + locale[..split])))
  {
    FirstEndingMeaning(names, "-" + locale);
    var split := Seqs.IndexOf(locale, '-');
    if split > 0 {
      FirstEndingMeaning(names, "-" + locale[..split]);
    }
  }

  /** The loaded path is always a directory's "regular.ttf", failing only as the lookups do. */
  lemma FontPathMeaning(resources: Option<seq<string>>, keys: seq<string>, index: int)
    ensures FontPath(resources, keys, index).Failure? <==> !(0 <= index < |keys|) || resources.None?
    ensures !(0 <= index < |keys|) ==> FontPath(resources, keys, index) == Failure(IndexOutOfBoundsException)
    ensures FontPath(resources, keys, index).Success? ==>
      Text.EndsWith(FontPath(resources, keys, index).value, "/regular.ttf")
      && FontPath(resources, keys, index).value ==
           FontDirectory(resources.value, keys[index]) + "/regular.ttf"
  {
    if FontPath(resources, keys, index).Success? {
      var dir := FontDirectory(resources.value, keys[index]);
      assert (dir + "/regular.ttf")[|dir|..] == "/regular.ttf";
    }
  }

  // ---------------------------------------------------------------------------
  // Errors
  // ---------------------------------------------------------------------------

  /** A reported error, or the `Exception` the manager wraps it in. */
  datatype Throwable = Throwable(message: Option<string>) | Wrapped(cause: Throwable)

  /** The map after the reports, in order. */
  function Reported(errors: map<string, Throwable>, reports: seq<(string, Throwable)>): map<string, Throwable>
    decreases |reports|
  {
    if |reports| == 0 then errors
    else Reported(errors[reports[0].0 := Wrapped(reports[0].1)], reports[1..])
  }

  /** The keys of the reports. */
  function ReportKeys(reports: seq<(string, Throwable)>): set<string>
  {
    set i | 0 <= i < |reports| :: reports[i].0
  }

  /**
   * After a run of reports, the keys are the old keys and the reported ones,
   * and a key holds the wrapped error of its last report: a repeated key
   * overwrites.
   */
  lemma {:induction false} ReportedMeaning(errors: map<string, Throwable>, reports: seq<(string, Throwable)>)
    decreases |reports|
    ensures Reported(errors, reports).Keys == errors.Keys + ReportKeys(reports)
    ensures forall i :: 0 <= i < |reports| && (forall j :: i < j < |reports| ==> reports[j].0 != reports[i].0) ==>
      Reported(errors, reports)[reports[i].0] == Wrapped(reports[i].1)
    ensures forall k :: k in errors && k !in ReportKeys(reports) ==> Reported(errors, reports)[k] == errors[k]
  {
    if |reports| > 0 {
      var next := errors[reports[0].0 := Wrapped(reports[0].1)];
      var tail := reports[1..];
      ReportedMeaning(next, tail);
      assert ReportKeys(reports) == {reports[0].0} + ReportKeys(tail) by {
        forall k | k in ReportKeys(reports) ensures k in {reports[0].0} + ReportKeys(tail) {
          var i :| 0 <= i < |reports| && reports[i].0 == k;
          if i > 0 {
            assert tail[i - 1] == reports[i];
          }
        }
        forall k | k in ReportKeys(tail) ensures k in ReportKeys(reports) {
          var i :| 0 <= i < |tail| && tail[i].0 == k;
          assert reports[i + 1] == tail[i];
        }
      }
      forall i | 0 <= i < |reports| && (forall j :: i < j < |reports| ==> reports[j].0 != reports[i].0)
        ensures Reported(errors, reports)[reports[i].0] == Wrapped(reports[i].1)
      {
        if i > 0 {
          assert tail[i - 1] == reports[i];
          forall j | i - 1 < j < |tail| ensures tail[j].0 != tail[i - 1].0 {
            assert tail[j] == reports[j + 1];
          }
        } else {
          assert reports[0].0 !in ReportKeys(tail) by {
            forall j | 0 <= j < |tail| ensures tail[j].0 != reports[0].0 {
              assert tail[j] == reports[j + 1];
            }
          }
        }
      }
    }
  }

  /** Starting from no errors, the error count is the number of distinct reported keys. */
  lemma ReportedCount(reports: seq<(string, Throwable)>)
    ensures |Reported(map[], reports)| == |ReportKeys(reports)|
  {
    ReportedMeaning(map[], reports);
    assert Reported(map[], reports).Keys == ReportKeys(reports);
  }

  /** `ErrorManager`: the errors reported so far, by key. */
  class ErrorManager {
    var errors: map<string, Throwable>

    constructor ()
      ensures errors == map[]
    {
      errors := map[];
    }

    /** `onError`: the error is stored wrapped, replacing any earlier one under the key. */
    method OnError(key: string, error: Throwable)
      modifies this
      ensures errors == Reported(old(errors), [(key, error)])
    {
      errors := errors[key := Wrapped(error)];
    }

    /** The indicator swiped back to its hidden anchor clears every error. */
    method Clear()
      modifies this
      ensures errors == map[]
    {
      errors := map[];
    }
  }

  /** `expanded_error` after clicking error `index`: collapse it when expanded, else expand it. */
  function Toggled(expanded: int, index: nat): int
  {
    if expanded == index then -1 else index
  }

  /**
   * After a click, the clicked error is expanded exactly when it was not
   * before, and no other error is expanded: at most one ever is.
   */
  lemma ToggledMeaning(expanded: int, index: nat)
    ensures Toggled(expanded, index) == index <==> expanded != index
    ensures Toggled(expanded, index) != index ==> Toggled(expanded, index) == -1
  {
  }

  /** Clicking the same error twice from collapsed, or from that error expanded, returns to where it started. */
  lemma ToggledTwice(expanded: int, index: nat)
    requires expanded == -1 || expanded == index
    ensures Toggled(Toggled(expanded, index), index) == expanded
  {
  }

  /** The error list's expansion state. */
  class ErrorList {
    var expanded: int

    constructor ()
      ensures expanded == -1
    {
      expanded := -1;
    }

    method Click(index: nat)
      modifies this
      ensures expanded == Toggled(old(expanded), index)
    {
      if expanded == index {
        expanded := -1;
      } else {
        expanded := index;
      }
    }
  }
}
