/**
 * The query orchestrator of dbestclient/executor/executor.py.
 *
 * The parsed query arrives as a `Query` value and the file system as a
 * `FileSystem` value. The external calls whose results the core uses (the
 * trainers, `QueryEngine.predict` and the wrapper helpers) are fields of
 * `Externals`. Side effects the core orders (loading a pickle, sampling,
 * persisting, registering) are appended to a trace.
 */
module Executor {
  import opened Options
  import opened Catalog

  datatype Config = Config(warehouseDir: string, csvSplitChar: string, regType: string)

  /** A file inside a group directory, with the wrapper it unpickles to. */
  datatype Leaf = Leaf(name: string, model: Wrapper)

  /** A top-level entry of the warehouse directory. */
  datatype DirEntry = File(name: string, model: Wrapper) | Dir(name: string, leaves: seq<Leaf>)

  /**
   * What the core asks of the file system: `os.path.exists`, `os.path.isfile`
   * and the pre-loaded listing of the warehouse.
   */
  datatype FileSystem = FileSystem(paths: set<string>, files: set<string>, listing: seq<DirEntry>)

  /** Header fields a group wrapper is built from. */
  datatype Header = Header(mdl: string, tbl: string, x: string, y: string,
                           groupbyAttribute: Option<string>, xMin: Bound, xMax: Bound)

  /** A `GroupByModelWrapper`, reduced to its directory key and leaf mapping. */
  datatype GroupWrapper = GroupWrapper(dir: string, models: map<GroupVal, Wrapper>)

  /**
   * The names and constants the executor hands a trainer; the sample itself
   * is external. Only `SimpleModelTrainer` is given the sampling ratio.
   */
  datatype TrainRequest = TrainRequest(mdl: string, tbl: string, x: string, y: string,
                                       groupBy: Option<string>, ratio: Option<real>,
                                       bounds: Option<(Bound, Bound)>)

  datatype Externals = Externals(
    pickleFileName: string -> string,                      // get_pickle_file_name
    groupWrapper: Header -> GroupWrapper,                  // GroupByModelWrapper(...)
    addSimpleModel: (GroupWrapper, Wrapper) -> GroupWrapper,
    trainSimple: TrainRequest -> Wrapper,                  // SimpleModelTrainer(...).fit_from_df
    trainGroupBy: TrainRequest -> GroupWrapper,            // GroupByModelTrainer(...).fit_from_df
    trainKde: TrainRequest -> Wrapper,                     // KdeModelTrainer(...).fit_from_df
    fitBundle: TrainRequest -> Wrapper,                    // MdnQueryEngineBundle(...).fit
    predict: (Wrapper, string, real, real) -> (real, real)) // QueryEngine(...).predict

  datatype Action =
    | Load(path: string)
    | Sample(source: string, cols: seq<string>, ratio: real, samplingMethod: string, splitChar: string,
             saveTo: Option<string>)
    | Serialize(target: string)
    | Register(key: string)

  datatype Range = Range(xHeader: string, lb: real, ub: real)

  /** A parsed query, as the parser's accessors report it. */
  datatype Query =
    | Nested
    | Create(mdl: string, tbl: string, x: string, y: string, ratio: real, samplingMethod: string,
             groupBy: Option<string>)
    | Select(mdl: string, func: string, y: string, where: Option<Range>, groupBy: Option<string>)

  /** What one `execute` call ends with: a return value, a message, or the exception raised. */
  datatype Outcome =
    | NotSupported                                              // nested query
    | ModelExists(path: string)                                 // CREATE refused
    | Created
    | Estimate(p: real, t: real)                                // ungrouped SELECT's (p, t)
    | GroupEstimates(predictions: map<Option<GroupVal>, real>)  // qreg SELECT, printed
    | BundleQueried                                             // mdn SELECT, result discarded
    | KeyMissing(key: string)                                   // KeyError on the catalog
    | WrongShape(key: string)                                   // entry of the other kind
    | RangeUnbound                                              // x_lb read while unbound

  // ---------------------------------------------------------------------
  // Strings and keys
  // ---------------------------------------------------------------------

  /** `s.replace("'", "")`. */
  function RemoveQuotes(s: string): (r: string)
    ensures '\'' !in r
    ensures |r| <= |s|
    ensures forall c :: c != '\'' ==> multiset(r)[c] == multiset(s)[c]
  {
    if s == [] then []
    else
      var rest := RemoveQuotes(s[1..]);
      assert s == [s[0]] + s[1..];
      if s[0] == '\'' then rest else [s[0]] + rest
  }

  /** Removing the quotes keeps the other characters in order. */
  lemma {:induction false} RemoveQuotesKeepsOthers(s: string)
    requires '\'' !in s
    ensures RemoveQuotes(s) == s
  {
    if s != [] {
      RemoveQuotesKeepsOthers(s[1..]);
    }
  }

  /** Quotes are removed piecewise, so the kept characters stay in their order. */
  lemma {:induction false} RemoveQuotesAppend(a: string, b: string)
    ensures RemoveQuotes(a + b) == RemoveQuotes(a) + RemoveQuotes(b)
  {
    if a != [] {
      assert (a + b)[1..] == a[1..] + b;
      RemoveQuotesAppend(a[1..], b);
    } else {
      assert a + b == b;
    }
  }

  /** One character is dropped when it is a quote and kept otherwise. */
  lemma RemoveQuotesChar(c: char)
    ensures RemoveQuotes([c]) == if c == '\'' then [] else [c]
  {
    assert [c][1..] == [];
  }

  lemma RemoveQuotesIdempotent(s: string)
    ensures RemoveQuotes(RemoveQuotes(s)) == RemoveQuotes(s)
  {
    RemoveQuotesKeepsOthers(RemoveQuotes(s));
  }

  /** The data file CREATE samples from: the name itself if it is a file, else under the warehouse. */
  function DataFile(fs: FileSystem, warehouseDir: string, tbl: string): string
  {
    if tbl in fs.files then tbl else warehouseDir + "/" + tbl
  }

  function ModelFile(warehouseDir: string, mdl: string): string
  {
    warehouseDir + "/" + mdl + ".pkl"
  }

  function GroupKey(mdl: string, attr: string): string
  {
    mdl + "_groupby_" + attr
  }

  function GroupDir(warehouseDir: string, mdl: string, attr: string): string
  {
    warehouseDir + "/" + GroupKey(mdl, attr)
  }

  predicate EndsWith(s: string, suffix: string)
  {
    |suffix| <= |s| && s[|s| - |suffix|..] == suffix
  }

  predicate IsPkl(name: string)
  {
    EndsWith(name, ".pkl")
  }

  // ---------------------------------------------------------------------
  // The warehouse scan of init_model_catalog
  // ---------------------------------------------------------------------

  function HeaderOf(w: Wrapper): Header
  {
    Header(w.mdl, w.tbl, w.x, w.y, w.groupbyAttribute, w.xMin, w.xMax)
  }

  /** The wrappers of the `.pkl` leaves, in listing order. */
  function PklModels(leaves: seq<Leaf>): seq<Wrapper>
  {
    if leaves == [] then []
    else
      var last := leaves[|leaves| - 1];
      PklModels(leaves[..|leaves| - 1]) + (if IsPkl(last.name) then [last.model] else [])
  }

  /** The group wrapper after reading `leaves`: built at the first `.pkl` leaf, extended at every one. */
  function GroupOf(ext: Externals, leaves: seq<Leaf>): (r: Option<GroupWrapper>)
    ensures r.Some? <==> |PklModels(leaves)| > 0
  {
    if leaves == [] then None
    else
      var prev := GroupOf(ext, leaves[..|leaves| - 1]);
      var last := leaves[|leaves| - 1];
      if !IsPkl(last.name) then prev
      else Some(ext.addSimpleModel(if prev.None? then ext.groupWrapper(HeaderOf(last.model)) else prev.value,
                                   last.model))
  }

  /** `add_simple_model` applied to each of `ws` in turn. */
  function AddAll(ext: Externals, g: GroupWrapper, ws: seq<Wrapper>): GroupWrapper
  {
    if ws == [] then g else ext.addSimpleModel(AddAll(ext, g, ws[..|ws| - 1]), ws[|ws| - 1])
  }

  /**
   * A directory's group wrapper takes its header from the first `.pkl`
   * leaf and receives every `.pkl` leaf, in listing order.
   */
  lemma {:induction false} GroupOfFirstHeader(ext: Externals, leaves: seq<Leaf>)
    requires |PklModels(leaves)| > 0
    ensures var ws := PklModels(leaves);
      GroupOf(ext, leaves) == Some(AddAll(ext, ext.groupWrapper(HeaderOf(ws[0])), ws))
  {
    var init, last := leaves[..|leaves| - 1], leaves[|leaves| - 1];
    var ws0, ws := PklModels(init), PklModels(leaves);
    var prev := GroupOf(ext, init);
    if !IsPkl(last.name) {
      assert ws == ws0;
      assert GroupOf(ext, leaves) == prev;
      GroupOfFirstHeader(ext, init);
    } else {
      assert ws == ws0 + [last.model];
      assert ws[..|ws| - 1] == ws0;
      if |ws0| == 0 {
        assert prev == None;
        assert ws[0] == last.model && ws0 == [];
        assert GroupOf(ext, leaves) == Some(ext.addSimpleModel(ext.groupWrapper(HeaderOf(last.model)), last.model));
      } else {
        GroupOfFirstHeader(ext, init);
        assert ws[0] == ws0[0];
        assert GroupOf(ext, leaves) == Some(ext.addSimpleModel(prev.value, last.model));
      }
    }
  }

  /** A directory holds a `.pkl` leaf and is not named like a pickle. */
  predicate WellFormedEntry(e: DirEntry)
  {
    e.Dir? ==> !IsPkl(e.name) && |PklModels(e.leaves)| > 0
  }

  predicate WellFormedListing(listing: seq<DirEntry>)
  {
    forall e | e in listing :: WellFormedEntry(e)
  }

  /** Whether the scan registers this entry. */
  predicate Loaded(e: DirEntry)
  {
    e.Dir? || IsPkl(e.name)
  }

  /** The key the scan registers an entry under. */
  function EntryKey(e: DirEntry): string
  {
    match e
    case File(_, model) => model.pickleName
    case Dir(name, _) => name
  }

  /**
   * The value the scan registers for an entry. A directory without a `.pkl`
   * leaf is outside `WellFormedEntry`; the empty mapping given for it here
   * is never reached by the scan.
   */
  function EntryValue(ext: Externals, e: DirEntry): Entry
  {
    match e
    case File(_, model) => Single(model)
    case Dir(_, leaves) =>
      match GroupOf(ext, leaves)
      case Some(g) => Group(g.models)
      case None => Group(map[])
  }

  function ScanStep(ext: Externals, m: map<string, Entry>, e: DirEntry): map<string, Entry>
  {
    if Loaded(e) then m[EntryKey(e) := EntryValue(ext, e)] else m
  }

  /** The catalog after scanning `listing` on top of `m`. */
  function ScanCatalog(ext: Externals, m: map<string, Entry>, listing: seq<DirEntry>): map<string, Entry>
  {
    if listing == [] then m
    else ScanStep(ext, ScanCatalog(ext, m, listing[..|listing| - 1]), listing[|listing| - 1])
  }

  /** `dill.load` of each `.pkl` leaf of a directory, in listing order. */
  function LeafLoads(dirPath: string, leaves: seq<Leaf>): seq<Action>
  {
    if leaves == [] then []
    else
      var last := leaves[|leaves| - 1];
      LeafLoads(dirPath, leaves[..|leaves| - 1]) + (if IsPkl(last.name) then [Load(dirPath + "/" + last.name)] else [])
  }

  /** The effects of scanning one entry: a directory is registered once, after all its leaves are read. */
  function EntryTrace(warehouseDir: string, e: DirEntry): seq<Action>
  {
    match e
    case File(name, model) =>
      if IsPkl(name) then [Load(warehouseDir + "/" + name), Register(model.pickleName)] else []
    case Dir(name, leaves) => LeafLoads(warehouseDir + "/" + name, leaves) + [Register(name)]
  }

  function ScanTrace(warehouseDir: string, listing: seq<DirEntry>): seq<Action>
  {
    if listing == [] then []
    else ScanTrace(warehouseDir, listing[..|listing| - 1]) + EntryTrace(warehouseDir, listing[|listing| - 1])
  }

  /** `n_model` after scanning `listing`. */
  function ScanCount(listing: seq<DirEntry>): nat
  {
    if listing == [] then 0
    else ScanCount(listing[..|listing| - 1]) + (if Loaded(listing[|listing| - 1]) then 1 else 0)
  }

  function Registrations(trace: seq<Action>): nat
  {
    if trace == [] then 0
    else Registrations(trace[..|trace| - 1]) + (if trace[|trace| - 1].Register? then 1 else 0)
  }

  lemma {:induction false} RegistrationsAppend(a: seq<Action>, b: seq<Action>)
    ensures Registrations(a + b) == Registrations(a) + Registrations(b)
  {
    if b != [] {
      assert (a + b)[..|a + b| - 1] == a + b[..|b| - 1];
      RegistrationsAppend(a, b[..|b| - 1]);
    } else {
      assert a + b == a;
    }
  }

  lemma {:induction false} LeafLoadsRegisterNothing(dirPath: string, leaves: seq<Leaf>)
    ensures Registrations(LeafLoads(dirPath, leaves)) == 0
  {
    if leaves != [] {
      var last := leaves[|leaves| - 1];
      LeafLoadsRegisterNothing(dirPath, leaves[..|leaves| - 1]);
      RegistrationsAppend(LeafLoads(dirPath, leaves[..|leaves| - 1]),
                          if IsPkl(last.name) then [Load(dirPath + "/" + last.name)] else []);
      assert Registrations([Load(dirPath + "/" + last.name)]) == 0 by {
        assert [Load(dirPath + "/" + last.name)][..0] == [];
      }
    }
  }

  /**
   * `n_model` counts registrations: one per top-level `.pkl` file and one
   * per directory, none per leaf.
   */
  lemma {:induction false} ScanCountIsRegistrations(warehouseDir: string, listing: seq<DirEntry>)
    ensures ScanCount(listing) == Registrations(ScanTrace(warehouseDir, listing))
    ensures ScanCount(listing) <= |listing|
  {
    if listing != [] {
      var init, e := listing[..|listing| - 1], listing[|listing| - 1];
      ScanCountIsRegistrations(warehouseDir, init);
      RegistrationsAppend(ScanTrace(warehouseDir, init), EntryTrace(warehouseDir, e));
      match e
      case File(name, model) =>
        if IsPkl(name) {
          var t := [Load(warehouseDir + "/" + name), Register(model.pickleName)];
          assert Registrations(t[..1]) == 0 by { assert t[..1][..0] == []; }
          assert Registrations(t) == 1;
        }
      case Dir(name, leaves) =>
        LeafLoadsRegisterNothing(warehouseDir + "/" + name, leaves);
        RegistrationsAppend(LeafLoads(warehouseDir + "/" + name, leaves), [Register(name)]);
        assert [Register(name)][..0] == [];
    }
  }

  /** The keys the scan registers, one per loaded entry. */
  function ScanKeys(listing: seq<DirEntry>): set<string>
  {
    if listing == [] then {}
    else
      var last := listing[|listing| - 1];
      ScanKeys(listing[..|listing| - 1]) + if Loaded(last) then {EntryKey(last)} else {}
  }

  /** A key is registered by the scan exactly when some loaded entry has it. */
  lemma {:induction false} ScanKeysMembership(listing: seq<DirEntry>, k: string)
    ensures k in ScanKeys(listing) <==> exists i :: 0 <= i < |listing| && Loaded(listing[i]) && EntryKey(listing[i]) == k
  {
    if listing != [] {
      var n := |listing| - 1;
      var init := listing[..n];
      ScanKeysMembership(init, k);
      if k in ScanKeys(init) {
        var i :| 0 <= i < n && Loaded(init[i]) && EntryKey(init[i]) == k;
        assert listing[i] == init[i];
      } else if exists i :: 0 <= i < |listing| && Loaded(listing[i]) && EntryKey(listing[i]) == k {
        var i :| 0 <= i < |listing| && Loaded(listing[i]) && EntryKey(listing[i]) == k;
        if i < n {
          assert init[i] == listing[i];
        }
      }
    }
  }

  /** The keys after the scan: the old ones plus those of the loaded entries. */
  lemma {:induction false} ScanCatalogKeys(ext: Externals, m: map<string, Entry>, listing: seq<DirEntry>)
    ensures ScanCatalog(ext, m, listing).Keys == m.Keys + ScanKeys(listing)
  {
    if listing != [] {
      var init := listing[..|listing| - 1];
      ScanCatalogKeys(ext, m, init);
    }
  }

  /**
   * Where several entries register the same key, the last one in listing
   * order wins (`i` is the last entry registering its key).
   */
  lemma {:induction false} ScanCatalogLastWins(ext: Externals, m: map<string, Entry>, listing: seq<DirEntry>, i: nat)
    requires i < |listing| && Loaded(listing[i])
    requires forall j :: i < j < |listing| && Loaded(listing[j]) ==> EntryKey(listing[j]) != EntryKey(listing[i])
    ensures EntryKey(listing[i]) in ScanCatalog(ext, m, listing)
    ensures ScanCatalog(ext, m, listing)[EntryKey(listing[i])] == EntryValue(ext, listing[i])
  {
    var n := |listing| - 1;
    var init := listing[..n];
    if i < n {
      assert init[i] == listing[i];
      forall j | i < j < |init| && Loaded(init[j]) ensures EntryKey(init[j]) != EntryKey(init[i]) {
        assert init[j] == listing[j];
      }
      ScanCatalogLastWins(ext, m, init, i);
    }
  }

  lemma AppendAssoc(a: seq<Action>, b: seq<Action>, c: seq<Action>)
    ensures a + (b + c) == (a + b) + c
  {
  }

  /** Reading one more leaf of a directory is one more step of each fold. */
  lemma LeafPrefix(ext: Externals, dirPath: string, leaves: seq<Leaf>, j: nat)
    requires j < |leaves|
    ensures var last := leaves[j];
      && PklModels(leaves[..j + 1]) == PklModels(leaves[..j]) + (if IsPkl(last.name) then [last.model] else [])
      && GroupOf(ext, leaves[..j + 1]) == (if !IsPkl(last.name) then GroupOf(ext, leaves[..j]) else
           var prev := GroupOf(ext, leaves[..j]);
           Some(ext.addSimpleModel(if prev.None? then ext.groupWrapper(HeaderOf(last.model)) else prev.value, last.model)))
      && LeafLoads(dirPath, leaves[..j + 1])
         == LeafLoads(dirPath, leaves[..j]) + (if IsPkl(last.name) then [Load(dirPath + "/" + last.name)] else [])
  {
    var prefix := leaves[..j + 1];
    assert prefix[..j] == leaves[..j] && prefix[j] == leaves[j];
  }

  /** Scanning one more entry of a listing is one more scan step. */
  lemma ScanPrefix(ext: Externals, m: map<string, Entry>, warehouseDir: string, listing: seq<DirEntry>, i: nat)
    requires i < |listing|
    ensures ScanCatalog(ext, m, listing[..i + 1]) == ScanStep(ext, ScanCatalog(ext, m, listing[..i]), listing[i])
    ensures ScanTrace(warehouseDir, listing[..i + 1]) == ScanTrace(warehouseDir, listing[..i]) + EntryTrace(warehouseDir, listing[i])
    ensures ScanCount(listing[..i + 1]) == ScanCount(listing[..i]) + if Loaded(listing[i]) then 1 else 0
  {
    var prefix := listing[..i + 1];
    assert prefix[..i] == listing[..i] && prefix[i] == listing[i];
  }

  // ---------------------------------------------------------------------
  // What execute promises, as predicates over the state before and after
  // ---------------------------------------------------------------------

  function SampleCols(x: string, y: string, groupBy: Option<string>): seq<string>
  {
    match groupBy
    case None => [x, y]
    case Some(attr) => [x, y, attr]
  }

  /** The `make_sample` call of a CREATE. */
  function SampleAction(config: Config, fs: FileSystem, saveSample: bool, q: Query): Action
    requires q.Create?
  {
    var wh := config.warehouseDir;
    Sample(DataFile(fs, wh, RemoveQuotes(q.tbl)), SampleCols(q.x, q.y, q.groupBy), q.ratio, q.samplingMethod,
           config.csvSplitChar,
           if saveSample then Some(wh + "/" + q.mdl + ".csv") else None)
  }

  function Request(q: Query, ratio: Option<real>, bounds: Option<(Bound, Bound)>): TrainRequest
    requires q.Create?
  {
    TrainRequest(q.mdl, RemoveQuotes(q.tbl), q.x, q.y, q.groupBy, ratio, bounds)
  }

  /**
   * A CREATE: refused before sampling when the model file, or for a grouped
   * query the group directory, exists; otherwise the sample is drawn and
   * the branch trains, persists and registers.
   */
  ghost predicate CreateSpec(ext: Externals, config: Config, saveSample: bool, useGg: bool, fs: FileSystem, q: Query,
                             cat0: map<string, Entry>, trace0: seq<Action>,
                             cat1: map<string, Entry>, trace1: seq<Action>, outcome: Outcome)
    requires q.Create?
  {
    var wh := config.warehouseDir;
    if ModelFile(wh, q.mdl) in fs.paths then
      outcome == ModelExists(ModelFile(wh, q.mdl)) && cat1 == cat0 && trace1 == trace0
    else if q.groupBy.Some? && GroupDir(wh, q.mdl, q.groupBy.value) in fs.paths then
      outcome == ModelExists(GroupDir(wh, q.mdl, q.groupBy.value)) && cat1 == cat0 && trace1 == trace0
    else
      outcome == Created
      && TrainSpec(ext, config, useGg, q, cat0, trace0 + [SampleAction(config, fs, saveSample, q)], cat1, trace1)
  }

  /**
   * The training branches of a CREATE and their order of effects: the
   * ungrouped and kde branches persist then register, qreg persists the
   * collection under its directory then stores its mapping, and the mdn
   * bundle registers before it persists.
   */
  ghost predicate TrainSpec(ext: Externals, config: Config, useGg: bool, q: Query,
                            cat0: map<string, Entry>, trace0: seq<Action>,
                            cat1: map<string, Entry>, trace1: seq<Action>)
    requires q.Create?
  {
    var wh := config.warehouseDir;
    match q.groupBy
    case None =>
      var w := ext.trainSimple(Request(q, Some(q.ratio), None));
      cat1 == Registered(cat0, w) && trace1 == trace0 + [Serialize(wh), Register(CatalogKey(w))]
    case Some(_) =>
      if config.regType == "qreg" then
        var g := ext.trainGroupBy(Request(q, None, Some((NegInf, PosInf))));
        cat1 == cat0[g.dir := Group(g.models)] && trace1 == trace0 + [Serialize(wh + "/" + g.dir), Register(g.dir)]
      else if !useGg then
        var w := ext.trainKde(Request(q, None, Some((NegInf, PosInf))));
        cat1 == Registered(cat0, w) && trace1 == trace0 + [Serialize(wh), Register(CatalogKey(w))]
      else
        var w := ext.fitBundle(Request(q, None, None));
        cat1 == Registered(cat0, w) && trace1 == trace0 + [Register(CatalogKey(w)), Serialize(wh)]
  }

  /** The estimate of one leaf, as `QueryEngine.predict(...)[0]` gives it. */
  function LeafEstimate(ext: Externals, w: Wrapper, func: string, lb: real, ub: real): real
  {
    ext.predict(w, func, lb, ub).0
  }

  /**
   * The per-group predictions of a qreg SELECT: one key per leaf's own
   * `groupby_value`, each holding the estimate of a leaf with that value.
   */
  ghost predicate GroupPredictions(ext: Externals, leaves: map<GroupVal, Wrapper>, func: string, lb: real, ub: real,
                                   predictions: map<Option<GroupVal>, real>)
  {
    && predictions.Keys == (set k | k in leaves :: leaves[k].groupbyValue)
    && forall gv :: gv in predictions ==>
         exists k :: k in leaves && leaves[k].groupbyValue == gv && predictions[gv] == LeafEstimate(ext, leaves[k], func, lb, ub)
  }

  /** Each leaf of a mapping carries its own key as its group value. */
  predicate KeyedByValue(leaves: map<GroupVal, Wrapper>)
  {
    forall k :: k in leaves ==> leaves[k].groupbyValue == Some(k)
  }

  /** In a mapping keyed by its leaves' group values, every group gets its own leaf's estimate. */
  lemma KeyedPredictions(ext: Externals, leaves: map<GroupVal, Wrapper>, func: string, lb: real, ub: real,
                         predictions: map<Option<GroupVal>, real>)
    requires KeyedByValue(leaves)
    requires GroupPredictions(ext, leaves, func, lb, ub, predictions)
    ensures forall k :: k in leaves ==>
      Some(k) in predictions && predictions[Some(k)] == LeafEstimate(ext, leaves[k], func, lb, ub)
  {
    forall k | k in leaves
      ensures Some(k) in predictions && predictions[Some(k)] == LeafEstimate(ext, leaves[k], func, lb, ub)
    {
      assert leaves[k].groupbyValue == Some(k);
      assert Some(k) in predictions;
      var k' :| k' in leaves && leaves[k'].groupbyValue == Some(k)
               && predictions[Some(k)] == LeafEstimate(ext, leaves[k'], func, lb, ub);
      assert leaves[k'].groupbyValue == Some(k');
    }
  }

  /** The catalog key each SELECT branch looks up. */
  function SelectKey(ext: Externals, config: Config, q: Query): string
    requires q.Select?
  {
    match q.groupBy
    case None => ext.pickleFileName(q.mdl)
    case Some(attr) => if config.regType == "qreg" then GroupKey(q.mdl, attr) else q.mdl + ".pkl"
  }

  /**
   * A SELECT: look up the branch's key, fail on a missing key or an entry of
   * the other kind, fail where the unbound range would be read, then
   * estimate. It changes nothing.
   */
  ghost predicate SelectSpec(ext: Externals, config: Config, cat: map<string, Entry>, q: Query, outcome: Outcome)
    requires q.Select?
  {
    var key := SelectKey(ext, config, q);
    var grouped := q.groupBy.Some? && config.regType == "qreg";
    if key !in cat then outcome == KeyMissing(key)
    else if grouped != cat[key].Group? then outcome == WrongShape(key)
    else if grouped then
      var leaves := cat[key].leaves;
      match q.where
      case None => outcome == if leaves == map[] then GroupEstimates(map[]) else RangeUnbound
      case Some(r) => outcome.GroupEstimates? && GroupPredictions(ext, leaves, q.func, r.lb, r.ub, outcome.predictions)
    else
      match q.where
      case None => outcome == RangeUnbound
      case Some(r) =>
        if q.groupBy.None? then
          var pt := ext.predict(cat[key].wrapper, q.func, r.lb, r.ub);
          outcome == Estimate(pt.0, pt.1)
        else outcome == BundleQueried
  }

  class SqlExecutor {
    const config: Config
    const ext: Externals
    const modelCatalog: DBEstModelCatalog
    var parser: Option<Query>
    var saveSample: bool
    var useGg: bool
    /** The side effects performed so far, oldest first. */
    var trace: seq<Action>

    /** `__init__`: an empty catalog filled by scanning the warehouse. */
    constructor (config: Config, ext: Externals, fs: FileSystem)
      requires WellFormedListing(fs.listing)
      ensures this.config == config && this.ext == ext && fresh(modelCatalog)
      ensures parser == None && !saveSample && useGg
      ensures modelCatalog.modelCatalog == ScanCatalog(ext, map[], fs.listing)
      ensures trace == ScanTrace(config.warehouseDir, fs.listing)
    {
      this.config := config;
      this.ext := ext;
      parser := None;
      modelCatalog := new DBEstModelCatalog();
      trace := [];
      new;
      var _ := InitModelCatalog(fs.listing);
      saveSample := false;
      useGg := true;
    }

    /**
     * `init_model_catalog`: every top-level `.pkl` is registered under its
     * pickle-file name; every directory once, under its own name, after its
     * leaves have been read. Returns `n_model`.
     */
    method InitModelCatalog(listing: seq<DirEntry>) returns (nModel: nat)
      requires WellFormedListing(listing)
      modifies modelCatalog, this`trace
      ensures modelCatalog.modelCatalog == ScanCatalog(ext, old(modelCatalog.modelCatalog), listing)
      ensures trace == old(trace) + ScanTrace(config.warehouseDir, listing)
      ensures nModel == ScanCount(listing)
    {
      var wh := config.warehouseDir;
      ghost var cat0 := modelCatalog.modelCatalog;
      ghost var trace0 := trace;
      nModel := 0;
      var groupWrapper: Option<GroupWrapper> := None;
      var i := 0;
      while i < |listing|
        invariant 0 <= i <= |listing|
        invariant modelCatalog.modelCatalog == ScanCatalog(ext, cat0, listing[..i])
        invariant trace == trace0 + ScanTrace(wh, listing[..i])
        invariant nModel == ScanCount(listing[..i])
      {
        var e := listing[i];
        ScanPrefix(ext, cat0, wh, listing, i);
        AppendAssoc(trace0, ScanTrace(wh, listing[..i]), EntryTrace(wh, e));
        groupWrapper, nModel := LoadEntry(e, groupWrapper, nModel);
        i := i + 1;
      }
      assert listing[..i] == listing;
    }

    /**
     * One pass of the loop of `init_model_catalog`: a top-level `.pkl` is
     * loaded and registered under its pickle-file name; a directory is
     * registered under its own name once its leaves are read.
     */
    method LoadEntry(e: DirEntry, groupWrapper: Option<GroupWrapper>, nModel: nat)
      returns (loaded: Option<GroupWrapper>, count: nat)
      requires WellFormedEntry(e)
      modifies modelCatalog, this`trace
      ensures modelCatalog.modelCatalog == ScanStep(ext, old(modelCatalog.modelCatalog), e)
      ensures trace == old(trace) + EntryTrace(config.warehouseDir, e)
      ensures count == nModel + if Loaded(e) then 1 else 0
    {
      var wh := config.warehouseDir;
      loaded, count := groupWrapper, nModel;
      if IsPkl(e.name) {
        var model := e.model;
        trace := trace + [Load(wh + "/" + e.name)];
        modelCatalog.modelCatalog := modelCatalog.modelCatalog[model.pickleName := Single(model)];
        trace := trace + [Register(model.pickleName)];
        count := count + 1;
      }
      if e.Dir? {
        loaded := LoadLeaves(wh + "/" + e.name, e.leaves, loaded);
        modelCatalog.modelCatalog := modelCatalog.modelCatalog[e.name := Group(loaded.value.models)];
        trace := trace + [Register(e.name)];
        count := count + 1;
      }
    }

    /**
     * The inner loop of `init_model_catalog` over one directory's leaves. It
     * can only touch the trace, so no partial group reaches the catalog.
     * `groupWrapper` is the `groupby_model_wrapper` left by an earlier
     * directory; it is replaced at the first `.pkl` leaf.
     */
    method LoadLeaves(dirPath: string, leaves: seq<Leaf>, groupWrapper: Option<GroupWrapper>)
      returns (loaded: Option<GroupWrapper>)
      modifies this`trace
      ensures trace == old(trace) + LeafLoads(dirPath, leaves)
      ensures |PklModels(leaves)| > 0 ==> loaded == GroupOf(ext, leaves)
      ensures |PklModels(leaves)| == 0 ==> loaded == groupWrapper
    {
      loaded := groupWrapper;
      var nInGroup := 0;
      var j := 0;
      while j < |leaves|
        invariant 0 <= j <= |leaves|
        invariant nInGroup == |PklModels(leaves[..j])|
        invariant nInGroup > 0 ==> loaded == GroupOf(ext, leaves[..j])
        invariant nInGroup == 0 ==> loaded == groupWrapper
        invariant trace == old(trace) + LeafLoads(dirPath, leaves[..j])
      {
        var leaf := leaves[j];
        LeafPrefix(ext, dirPath, leaves, j);
        if IsPkl(leaf.name) {
          AppendAssoc(old(trace), LeafLoads(dirPath, leaves[..j]), [Load(dirPath + "/" + leaf.name)]);
          trace := trace + [Load(dirPath + "/" + leaf.name)];
          nInGroup := nInGroup + 1;
          if nInGroup == 1 {
            loaded := Some(ext.groupWrapper(HeaderOf(leaf.model)));
          }
          loaded := Some(ext.addSimpleModel(loaded.value, leaf.model));
        }
        j := j + 1;
      }
      assert leaves[..j] == leaves;
    }

    /** `execute` on a parsed query, against the file system as it is at the call. */
    method Execute(q: Query, fs: FileSystem) returns (outcome: Outcome)
      modifies this`parser, this`trace, modelCatalog
      ensures parser == Some(q)
      ensures q.Nested? ==>
        outcome == NotSupported && trace == old(trace) && modelCatalog.modelCatalog == old(modelCatalog.modelCatalog)
      ensures q.Create? ==>
        CreateSpec(ext, config, saveSample, useGg, fs, q, old(modelCatalog.modelCatalog), old(trace),
                   modelCatalog.modelCatalog, trace, outcome)
      ensures q.Select? ==>
        SelectSpec(ext, config, modelCatalog.modelCatalog, q, outcome)
        && trace == old(trace) && modelCatalog.modelCatalog == old(modelCatalog.modelCatalog)
    {
      parser := Some(q);
      match q
      case Nested =>
        outcome := NotSupported;
      case Create(_, _, _, _, _, _, _) =>
        outcome := ExecuteCreate(q, fs);
      case Select(_, _, _, _, _) =>
        outcome := ExecuteSelect(q);
    }

    /** The DDL branch of `execute`. */
    method ExecuteCreate(q: Query, fs: FileSystem) returns (outcome: Outcome)
      requires q.Create?
      modifies this`trace, modelCatalog
      ensures CreateSpec(ext, config, saveSample, useGg, fs, q, old(modelCatalog.modelCatalog), old(trace),
                         modelCatalog.modelCatalog, trace, outcome)
    {
      var wh := config.warehouseDir;
      if ModelFile(wh, q.mdl) in fs.paths {
        return ModelExists(ModelFile(wh, q.mdl));
      }
      if q.groupBy.Some? {
        var attr := q.groupBy.value;
        if GroupDir(wh, q.mdl, attr) in fs.paths {
          return ModelExists(GroupDir(wh, q.mdl, attr));
        }
      }
      trace := trace + [SampleAction(config, fs, saveSample, q)];
      Train(q);
      outcome := Created;
    }

    /** The training branches of the DDL branch, after sampling. */
    method Train(q: Query)
      requires q.Create?
      modifies this`trace, modelCatalog
      ensures TrainSpec(ext, config, useGg, q, old(modelCatalog.modelCatalog), old(trace), modelCatalog.modelCatalog, trace)
    {
      if q.groupBy.None? {
        TrainSimple(q);
      } else if config.regType == "qreg" {
        TrainGroupBy(q);
      } else if !useGg {
        TrainKde(q);
      } else {
        TrainBundle(q);
      }
    }

    /** Ungrouped: fit, persist to the warehouse, then `add_model_wrapper`. */
    method TrainSimple(q: Query)
      requires q.Create? && q.groupBy.None?
      modifies this`trace, modelCatalog
      ensures TrainSpec(ext, config, useGg, q, old(modelCatalog.modelCatalog), old(trace), modelCatalog.modelCatalog, trace)
    {
      var w := ext.trainSimple(Request(q, Some(q.ratio), None));
      trace := trace + [Serialize(config.warehouseDir)];
      modelCatalog.AddModelWrapper(w);
      trace := trace + [Register(CatalogKey(w))];
    }

    /** Grouped, qreg: fit every group, persist under the directory, then store the mapping. */
    method TrainGroupBy(q: Query)
      requires q.Create? && q.groupBy.Some? && config.regType == "qreg"
      modifies this`trace, modelCatalog
      ensures TrainSpec(ext, config, useGg, q, old(modelCatalog.modelCatalog), old(trace), modelCatalog.modelCatalog, trace)
    {
      var g := ext.trainGroupBy(Request(q, None, Some((NegInf, PosInf))));
      trace := trace + [Serialize(config.warehouseDir + "/" + g.dir)];
      modelCatalog.modelCatalog := modelCatalog.modelCatalog[g.dir := Group(g.models)];
      trace := trace + [Register(g.dir)];
    }

    /** Grouped, mdn without the bundle: fit the kde wrapper, persist, then register. */
    method TrainKde(q: Query)
      requires q.Create? && q.groupBy.Some? && config.regType != "qreg" && !useGg
      modifies this`trace, modelCatalog
      ensures TrainSpec(ext, config, useGg, q, old(modelCatalog.modelCatalog), old(trace), modelCatalog.modelCatalog, trace)
    {
      var w := ext.trainKde(Request(q, None, Some((NegInf, PosInf))));
      trace := trace + [Serialize(config.warehouseDir)];
      modelCatalog.AddModelWrapper(w);
      trace := trace + [Register(CatalogKey(w))];
    }

    /** Grouped, mdn bundle: fit, register, and only then persist. */
    method TrainBundle(q: Query)
      requires q.Create? && q.groupBy.Some? && config.regType != "qreg" && useGg
      modifies this`trace, modelCatalog
      ensures TrainSpec(ext, config, useGg, q, old(modelCatalog.modelCatalog), old(trace), modelCatalog.modelCatalog, trace)
    {
      var w := ext.fitBundle(Request(q, None, None));
      modelCatalog.AddModelWrapper(w);
      trace := trace + [Register(CatalogKey(w))];
      trace := trace + [Serialize(config.warehouseDir)];
    }

    /** The DML branch of `execute`; it reads the catalog and changes nothing. */
    method ExecuteSelect(q: Query) returns (outcome: Outcome)
      requires q.Select?
      ensures SelectSpec(ext, config, modelCatalog.modelCatalog, q, outcome)
    {
      var cat := modelCatalog.modelCatalog;
      var key := SelectKey(ext, config, q);
      if key !in cat { return KeyMissing(key); }
      if q.groupBy.None? {
        if cat[key].Group? { return WrongShape(key); }
        if q.where.None? { return RangeUnbound; }
        var pt := ext.predict(cat[key].wrapper, q.func, q.where.value.lb, q.where.value.ub);
        outcome := Estimate(pt.0, pt.1);
      } else if config.regType == "qreg" {
        if cat[key].Single? { return WrongShape(key); }
        var leaves := cat[key].leaves;
        if q.where.None? {
          outcome := if leaves == map[] then GroupEstimates(map[]) else RangeUnbound;
          return;
        }
        var predictions := PredictGroups(leaves, q.func, q.where.value.lb, q.where.value.ub);
        outcome := GroupEstimates(predictions);
      } else {
        if cat[key].Group? { return WrongShape(key); }
        if q.where.None? { return RangeUnbound; }
        outcome := BundleQueried;
      }
    }

    /** The loop of the qreg SELECT that fills `predictions`, one leaf at a time. */
    method PredictGroups(leaves: map<GroupVal, Wrapper>, func: string, lb: real, ub: real)
      returns (predictions: map<Option<GroupVal>, real>)
      ensures GroupPredictions(ext, leaves, func, lb, ub, predictions)
    {
      predictions := map[];
      var remaining := leaves.Keys;
      while remaining != {}
        invariant remaining <= leaves.Keys
        invariant predictions.Keys == (set k | k in leaves.Keys - remaining :: leaves[k].groupbyValue)
        invariant forall gv :: gv in predictions ==>
          exists k :: k in leaves.Keys - remaining && leaves[k].groupbyValue == gv
                      && predictions[gv] == LeafEstimate(ext, leaves[k], func, lb, ub)
        decreases remaining
      {
        var groupValue :| groupValue in remaining;
        var modelWrapper := leaves[groupValue];
        predictions := predictions[modelWrapper.groupbyValue := ext.predict(modelWrapper, func, lb, ub).0];
        remaining := remaining - {groupValue};
      }
    }
  }
}
