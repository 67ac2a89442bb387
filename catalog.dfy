/**
 * The in-process model index of dbestclient/catalog/catalog.py and the
 * model-wrapper records it stores.
 */
module Catalog {
  import opened Options

  type GroupVal = string

  /** A bound of the x domain; the trainers may be given infinite placeholders. */
  datatype Bound = NegInf | PosInf | Finite(v: real)

  /**
   * A trained model wrapper, reduced to the attributes the core reads.
   * `pickleName` is what `init_pickle_file_name()` returns, `dir` and
   * `models` the directory key and group mapping of a grouped wrapper; the
   * wrapper classes themselves are not part of this model.
   */
  datatype Wrapper = Wrapper(
    mdl: string, tbl: string, x: string, y: string,
    groupbyAttribute: Option<string>, groupbyValue: Option<GroupVal>,
    xMin: Bound, xMax: Bound,
    pickleName: string, dir: string, models: map<GroupVal, Wrapper>)

  /** A catalog value: one wrapper, or one group's mapping to its leaves. */
  datatype Entry = Single(wrapper: Wrapper) | Group(leaves: map<GroupVal, Wrapper>)

  /** The key `add_model_wrapper` files a wrapper under. */
  function CatalogKey(w: Wrapper): string
  {
    if w.groupbyValue.None? then w.pickleName else w.dir
  }

  /** The value `add_model_wrapper` files under that key. */
  function EntryOf(w: Wrapper): (e: Entry)
    ensures w.groupbyValue.None? <==> e == Single(w)
    ensures w.groupbyValue.Some? <==> e == Group(w.models)
  {
    if w.groupbyValue.None? then Single(w) else Group(w.models)
  }

  /**
   * The catalog after registering `w` in `m`: the derived key now holds the
   * derived entry, whatever it held before; every other key keeps its
   * value; the key set gains at most that one key.
   */
  function Registered(m: map<string, Entry>, w: Wrapper): (r: map<string, Entry>)
    ensures r.Keys == m.Keys + {CatalogKey(w)}
    ensures r[CatalogKey(w)] == EntryOf(w)
    ensures forall k :: k in m && k != CatalogKey(w) ==> r[k] == m[k]
    ensures |r.Keys| <= |m.Keys| + 1
    ensures CatalogKey(w) in m ==> |r.Keys| == |m.Keys|
  {
    var r := m[CatalogKey(w) := EntryOf(w)];
    assert CatalogKey(w) in m ==> r.Keys == m.Keys;
    r
  }

  /** An ungrouped wrapper is stored as itself under its pickle-file name. */
  lemma RegisterUngrouped(m: map<string, Entry>, w: Wrapper)
    requires w.groupbyValue.None?
    ensures Registered(m, w)[w.pickleName] == Single(w)
  {
  }

  /** A grouped wrapper is stored as its whole group mapping under its directory. */
  lemma RegisterGrouped(m: map<string, Entry>, w: Wrapper)
    requires w.groupbyValue.Some?
    ensures Registered(m, w)[w.dir] == Group(w.models)
  {
  }

  /** Registering twice under one key keeps only the second registration. */
  lemma RegisterOverwrites(m: map<string, Entry>, w1: Wrapper, w2: Wrapper)
    requires CatalogKey(w1) == CatalogKey(w2)
    ensures Registered(Registered(m, w1), w2) == Registered(m, w2)
  {
  }

  class DBEstModelCatalog {
    var modelCatalog: map<string, Entry>

    /** A new catalog holds no entries. */
    constructor ()
      ensures modelCatalog == map[]
    {
      modelCatalog := map[];
    }

    /** `add_model_wrapper`: an in-place insert that overwrites silently. */
    method AddModelWrapper(w: Wrapper)
      modifies this
      ensures modelCatalog == Registered(old(modelCatalog), w)
    {
      if w.groupbyValue.None? {
        modelCatalog := modelCatalog[w.pickleName := Single(w)];
      } else {
        modelCatalog := modelCatalog[w.dir := Group(w.models)];
      }
    }
  }
}
