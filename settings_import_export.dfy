/**
 * Export of the settings of chosen categories to a portable record, and
 * import of such a record back into the preference store
 * (`SettingsImportExport`). The preference store is a map from key name to
 * value; the JSON file in between is not modelled.
 */
module SettingsImportExport {
  import opened Wrappers
  import AppSettings

  type Value = AppSettings.Value

  /** A preference key: its name and its default value. */
  datatype SettingsKey = SettingsKey(name: string, default: Value)

  /** A settings category: its id and its keys. */
  datatype Category = Category(id: string, keys: seq<SettingsKey>)

  /** `SettingsExportData`: the exported category ids and the non-default values by key name. */
  datatype ExportData = ExportData(includedCategories: Option<seq<string>>, values: Option<map<string, Value>>)

  datatype Error = UnknownCategory(id: string)

  /**
   * The value `putAny(name, value, default)` stores for a key, given the
   * exported value (None when the record has none) and the key's default;
   * `putAny` itself is not part of this model.
   */
  type PutAny = (Option<Value>, Value) -> Value

  /** `putAny` stores the given value, or the default when there is none. */
  ghost predicate StoresValueOrDefault(put: PutAny)
  {
    forall v: Option<Value>, d: Value {:trigger put(v, d)} :: put(v, d) == v.GetOr(d)
  }

  /** `key.get(prefs)`: the stored value, or the key's default. */
  function KeyValue(prefs: map<string, Value>, key: SettingsKey): Value
  {
    if key.name in prefs then prefs[key.name] else key.default
  }

  /** The keys of the categories, category by category, in order. */
  function Flatten(cats: seq<Category>): seq<SettingsKey>
  {
    if |cats| == 0 then [] else Flatten(cats[..|cats| - 1]) + cats[|cats| - 1].keys
  }

  lemma FlattenAppend(cats: seq<Category>, c: Category)
    ensures Flatten(cats + [c]) == Flatten(cats) + c.keys
  {
    assert (cats + [c])[..|cats|] == cats;
  }

  lemma {:induction false} InFlatten(cats: seq<Category>, key: SettingsKey)
    ensures key in Flatten(cats) <==> exists c :: c in cats && key in c.keys
  {
    if |cats| > 0 {
      InFlatten(cats[..|cats| - 1], key);
      assert cats == cats[..|cats| - 1] + [cats[|cats| - 1]];
    }
  }

  /** No two different keys share a name. */
  ghost predicate UniqueNames(keys: seq<SettingsKey>)
  {
    forall i, j :: 0 <= i < |keys| && 0 <= j < |keys| && keys[i].name == keys[j].name ==> keys[i] == keys[j]
  }

  function Ids(cats: seq<Category>): (r: seq<string>)
    ensures |r| == |cats| && forall i :: 0 <= i < |cats| ==> r[i] == cats[i].id
  {
    if |cats| == 0 then [] else [cats[0].id] + Ids(cats[1..])
  }

  // ---------------------------------------------------------------------------
  // Export
  // ---------------------------------------------------------------------------

  /** The values map that the export loops build over `keys`, in order. */
  function Exported(prefs: map<string, Value>, keys: seq<SettingsKey>): map<string, Value>
  {
    if |keys| == 0 then map[]
    else
      var m := Exported(prefs, keys[..|keys| - 1]);
      var key := keys[|keys| - 1];
      if KeyValue(prefs, key) != key.default then m[key.name := KeyValue(prefs, key)] else m
  }

  /** An exported name belongs to some key. */
  lemma {:induction false} ExportedNamesAreKeys(prefs: map<string, Value>, keys: seq<SettingsKey>, name: string)
    requires name in Exported(prefs, keys)
    ensures exists key :: key in keys && key.name == name
  {
    var key := keys[|keys| - 1];
    if name != key.name || KeyValue(prefs, key) == key.default {
      ExportedNamesAreKeys(prefs, keys[..|keys| - 1], name);
    }
  }

  /**
   * Export records a key exactly when its current value differs from its
   * default, and then records that value.
   */
  lemma {:induction false} ExportedValue(prefs: map<string, Value>, keys: seq<SettingsKey>, key: SettingsKey)
    requires UniqueNames(keys) && key in keys
    ensures key.name in Exported(prefs, keys) <==> KeyValue(prefs, key) != key.default
    ensures key.name in Exported(prefs, keys) ==> Exported(prefs, keys)[key.name] == KeyValue(prefs, key)
  {
    var n := |keys|;
    var init := keys[..n - 1];
    assert UniqueNames(init);
    if keys[n - 1] != key {
      assert key in init;
      assert keys[n - 1].name != key.name;
      ExportedValue(prefs, init, key);
    } else if key in init {
      ExportedValue(prefs, init, key);
    } else if key.name in Exported(prefs, init) {
      ExportedNamesAreKeys(prefs, init, key.name);
    }
  }

  lemma ExportedStep(prefs: map<string, Value>, done: seq<SettingsKey>, keys: seq<SettingsKey>, j: nat)
    requires j < |keys|
    ensures var m := Exported(prefs, done + keys[..j]);
      var key := keys[j];
      Exported(prefs, done + keys[..j + 1]) ==
        if KeyValue(prefs, key) != key.default then m[key.name := KeyValue(prefs, key)] else m
  {
    var all := done + keys[..j + 1];
    assert all[..|all| - 1] == done + keys[..j];
    assert all[|all| - 1] == keys[j];
  }

  lemma FlattenStep(cats: seq<Category>, i: nat)
    requires i < |cats|
    ensures Flatten(cats[..i + 1]) == Flatten(cats[..i]) + cats[i].keys
  {
    assert cats[..i + 1][..i] == cats[..i];
  }

  /** `exportSettings`, without the file: the record written for `categories`. */
  method ExportSettings(prefs: map<string, Value>, categories: seq<Category>) returns (data: ExportData)
    ensures data.includedCategories == Some(Ids(categories))
    ensures data.values == Some(Exported(prefs, Flatten(categories)))
  {
    var values: map<string, Value> := map[];
    for i := 0 to |categories|
      invariant values == Exported(prefs, Flatten(categories[..i]))
    {
      FlattenStep(categories, i);
      values := ExportKeys(prefs, values, Flatten(categories[..i]), categories[i].keys);
    }
    assert categories[..|categories|] == categories;
    data := ExportData(Some(Ids(categories)), Some(values));
  }

  /** The export's inner loop: the values of one category's keys, added to those of the keys `done`. */
  method ExportKeys(prefs: map<string, Value>, values0: map<string, Value>, ghost done: seq<SettingsKey>, keys: seq<SettingsKey>)
    returns (values: map<string, Value>)
    requires values0 == Exported(prefs, done)
    ensures values == Exported(prefs, done + keys)
  {
    values := values0;
    assert done + keys[..0] == done;
    for j := 0 to |keys|
      invariant values == Exported(prefs, done + keys[..j])
    {
      var key := keys[j];
      var value := KeyValue(prefs, key);
      ExportedStep(prefs, done, keys, j);
      if value != key.default {
        values := values[key.name := value];
      }
    }
    assert keys[..|keys|] == keys;
  }

  // ---------------------------------------------------------------------------
  // Import
  // ---------------------------------------------------------------------------

  /** `SettingsCategory.fromId`: the first registered category with that id. */
  function FromId(all: seq<Category>, id: string): (r: Option<Category>)
    ensures r.Some? ==> r.value in all && r.value.id == id
    ensures r.None? <==> forall c :: c in all ==> c.id != id
  {
    if |all| == 0 then None
    else if all[0].id == id then Some(all[0])
    else FromId(all[1..], id)
  }

  /**
   * `SettingsExportData.getCategories`: the categories of the listed ids, in
   * order; Failure names the first id that no category has (where `fromId`
   * would fail).
   */
  function GetCategories(all: seq<Category>, ids: seq<string>): (r: Result<seq<Category>, Error>)
    ensures r.Success? ==>
      |r.value| == |ids| && forall i :: 0 <= i < |ids| ==> Some(r.value[i]) == FromId(all, ids[i])
    ensures r.Failure? <==> exists i :: 0 <= i < |ids| && FromId(all, ids[i]).None?
  {
    if |ids| == 0 then Success([])
    else
      match FromId(all, ids[0])
      case None => Failure(UnknownCategory(ids[0]))
      case Some(c) =>
        match GetCategories(all, ids[1..])
        case Failure(e) => Failure(e)
        case Success(rest) => Success([c] + rest)
  }

  /** The categories import processes: those of `cats` that pass the caller's filter, in order. */
  function Selected(cats: seq<Category>, filter: Option<seq<Category>>): (r: seq<Category>)
    ensures forall c :: c in r <==> c in cats && (filter.None? || c in filter.value)
  {
    if |cats| == 0 then []
    else
      var last := cats[|cats| - 1];
      var init := Selected(cats[..|cats| - 1], filter);
      assert forall c :: c in cats <==> c in cats[..|cats| - 1] || c == last;
      init + (if filter.None? || last in filter.value then [last] else [])
  }

  /** The store after `putAny` has been applied to each of `keys` in turn. */
  function Imported(store: map<string, Value>, keys: seq<SettingsKey>, values: map<string, Value>, put: PutAny)
    : map<string, Value>
  {
    if |keys| == 0 then store
    else
      var key := keys[|keys| - 1];
      var v := if key.name in values then Some(values[key.name]) else None;
      Imported(store, keys[..|keys| - 1], values, put)[key.name := put(v, key.default)]
  }

  /** `importData`: the new store, or the failure that leaves the store as it was. */
  function Import(store: map<string, Value>, data: ExportData, filter: Option<seq<Category>>,
                  all: seq<Category>, put: PutAny): Result<map<string, Value>, Error>
  {
    if data.values.None? then Success(store)
    else
      var included :=
        if data.includedCategories.None? then Success(all) else GetCategories(all, data.includedCategories.value);
      match included
      case Failure(e) => Failure(e)
      case Success(cats) => Success(Imported(store, Flatten(Selected(cats, filter)), data.values.value, put))
  }

  /** Import leaves a name untouched unless it is the name of a processed key. */
  lemma {:induction false} ImportedUntouched(store: map<string, Value>, keys: seq<SettingsKey>,
                                              values: map<string, Value>, put: PutAny, name: string)
    requires forall key :: key in keys ==> key.name != name
    ensures (name in Imported(store, keys, values, put) <==> name in store)
    ensures name in store ==> Imported(store, keys, values, put)[name] == store[name]
  {
    if |keys| > 0 {
      ImportedUntouched(store, keys[..|keys| - 1], values, put, name);
    }
  }

  /** Import writes every processed key, with `putAny` of its exported value or of none. */
  lemma {:induction false} ImportedWritten(store: map<string, Value>, keys: seq<SettingsKey>,
                                            values: map<string, Value>, put: PutAny, key: SettingsKey)
    requires UniqueNames(keys) && key in keys
    ensures key.name in Imported(store, keys, values, put)
    ensures Imported(store, keys, values, put)[key.name]
         == put(if key.name in values then Some(values[key.name]) else None, key.default)
  {
    var n := |keys|;
    assert UniqueNames(keys[..n - 1]);
    if keys[n - 1] != key {
      assert key in keys[..n - 1];
      assert keys[n - 1].name != key.name;
      ImportedWritten(store, keys[..n - 1], values, put, key);
    }
  }

  /** The preference store, edited in place by import. */
  class Preferences {
    var store: map<string, Value>

    constructor (initial: map<string, Value>)
      ensures store == initial
    {
      store := initial;
    }
  }

  /** `importData`, writing key by key into `prefs`. */
  method ImportData(prefs: Preferences, data: ExportData, filter: Option<seq<Category>>,
                    all: seq<Category>, put: PutAny) returns (r: Result<(), Error>)
    modifies prefs
    ensures var expected := Import(old(prefs.store), data, filter, all, put);
      (r.Failure? <==> expected.Failure?) &&
      (expected.Success? ==> prefs.store == expected.value) &&
      (expected.Failure? ==> prefs.store == old(prefs.store) && r.error == expected.error)
  {
    if data.values.None? {
      return Success(());
    }
    var values := data.values.value;
    var cats: seq<Category>;
    if data.includedCategories.None? {
      cats := all;
    } else {
      var included := GetCategories(all, data.includedCategories.value);
      if included.Failure? {
        return Failure(included.error);
      }
      cats := included.value;
    }
    ImportCategories(prefs, cats, filter, values, put);
    return Success(());
  }

  /** The loop over the categories of `importData`, skipping those the filter excludes. */
  method ImportCategories(prefs: Preferences, cats: seq<Category>, filter: Option<seq<Category>>,
                          values: map<string, Value>, put: PutAny)
    modifies prefs
    ensures prefs.store == Imported(old(prefs.store), Flatten(Selected(cats, filter)), values, put)
  {
    ghost var store0 := prefs.store;
    for i := 0 to |cats|
      invariant prefs.store == Imported(store0, Flatten(Selected(cats[..i], filter)), values, put)
    {
      var category := cats[i];
      assert cats[..i + 1] == cats[..i] + [category];
      assert cats[..i + 1][..i] == cats[..i];
      if filter.Some? && category !in filter.value {
        assert Selected(cats[..i + 1], filter) == Selected(cats[..i], filter);
        continue;
      }
      assert Selected(cats[..i + 1], filter) == Selected(cats[..i], filter) + [category];
      ghost var done := Flatten(Selected(cats[..i], filter));
      FlattenAppend(Selected(cats[..i], filter), category);
      ImportedAppend(store0, done, category.keys, values, put);
      ImportKeys(prefs, category.keys, values, put);
    }
    assert cats[..|cats|] == cats;
  }

  /** The loop over the keys of one category: `putAny` for each key in turn. */
  method ImportKeys(prefs: Preferences, keys: seq<SettingsKey>, values: map<string, Value>, put: PutAny)
    modifies prefs
    ensures prefs.store == Imported(old(prefs.store), keys, values, put)
  {
    for j := 0 to |keys|
      invariant prefs.store == Imported(old(prefs.store), keys[..j], values, put)
    {
      var key := keys[j];
      var v := if key.name in values then Some(values[key.name]) else None;
      prefs.store := prefs.store[key.name := put(v, key.default)];
      assert keys[..j + 1][..j] == keys[..j];
    }
    assert keys[..|keys|] == keys;
  }

  lemma {:induction false} ImportedAppend(store: map<string, Value>, a: seq<SettingsKey>, b: seq<SettingsKey>,
                                           values: map<string, Value>, put: PutAny)
    ensures Imported(store, a + b, values, put) == Imported(Imported(store, a, values, put), b, values, put)
  {
    if |b| == 0 {
      assert a + b == a;
    } else {
      assert (a + b)[..|a + b| - 1] == a + b[..|b| - 1];
      ImportedAppend(store, a, b[..|b| - 1], values, put);
    }
  }

  /**
   * Round trip: importing an export, with every category and no caller
   * filter, restores each key of the exported categories to the value it had
   * when exported, whatever the store held before; this needs `putAny` to
   * store the default for a missing value.
   */
  lemma ExportImportRoundTrip(prefs: map<string, Value>, cats: seq<Category>, all: seq<Category>,
                              target: map<string, Value>, put: PutAny, key: SettingsKey)
    requires StoresValueOrDefault(put)
    requires forall c :: c in cats ==> FromId(all, c.id) == Some(c)
    requires UniqueNames(Flatten(cats))
    requires key in Flatten(cats)
    ensures var data := ExportData(Some(Ids(cats)), Some(Exported(prefs, Flatten(cats))));
      var r := Import(target, data, None, all, put);
      r.Success? && key.name in r.value && r.value[key.name] == KeyValue(prefs, key)
  {
    var ids := Ids(cats);
    var got := GetCategories(all, ids);
    assert got.Success? && got.value == cats by {
      assert forall i :: 0 <= i < |ids| ==> FromId(all, ids[i]) == Some(cats[i]) by {
        forall i | 0 <= i < |ids| ensures FromId(all, ids[i]) == Some(cats[i]) {
          assert cats[i] in cats;
        }
      }
    }
    var keys := Flatten(Selected(cats, None));
    assert Selected(cats, None) == cats by { SelectedAll(cats); }
    var values := Exported(prefs, Flatten(cats));
    ImportedWritten(target, keys, values, put, key);
    ExportedValue(prefs, Flatten(cats), key);
    var v := if key.name in values then Some(values[key.name]) else None;
    assert put(v, key.default) == v.GetOr(key.default);
  }

  lemma {:induction false} SelectedAll(cats: seq<Category>)
    ensures Selected(cats, None) == cats
  {
    if |cats| > 0 {
      SelectedAll(cats[..|cats| - 1]);
      assert cats == cats[..|cats| - 1] + [cats[|cats| - 1]];
    }
  }
}
