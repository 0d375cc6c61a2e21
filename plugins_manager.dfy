/** The plugins manager (session/src/plugins_manager.rs; gramotor's
    gramotor/src/plugins_manager.rs has the same register, lookups and
    catalogue): the register of talker kinds keyed by model, the making of
    a talker from its model, and the catalogue the GUI's menu is built
    from, one sorted group of `(label, model)` per category.

    The manager reads handlers through the single-category accessors
    (`category`, `model`, `label`), so a register entry carries one
    category. */
module PluginsManagers {
  import opened Wrappers
  import opened Seqs
  import opened Sorting

  datatype PluginType = Internal | Lv2

  datatype PluginHandler = PluginHandler(category: string, model: string, labelText: string, pluginType: PluginType)

  const SinusoidalModel: string := "Sinusoidal"
  const AbsSineModel: string := "AbsSine"
  const SecondDegreeModel: string := "SecondDegreeFrequencyProgression"

  function BuiltinModels(): set<string> { {SinusoidalModel, AbsSineModel, SecondDegreeModel} }

  /** The talker a handler makes: one of the built-ins, with the arguments
      they are made with, or the instance of an LV2 plugin, named by its URI. */
  datatype Talker =
    | Sinusoidal
    | AbsSine
    | SecondDegreeFrequencyProgression(f: real, a: real, b: real, c: real)
    | Lv2Talker(uri: string)

  function TalkerModel(t: Talker): string {
    match t
    case Sinusoidal => SinusoidalModel
    case AbsSine => AbsSineModel
    case SecondDegreeFrequencyProgression(_, _, _, _) => SecondDegreeModel
    case Lv2Talker(uri) => uri
  }

  /** The descriptors of the built-in talkers, each keyed by its model
      (`tkr_hr_kv`). `AbsSine` names itself; the two others are `builtin`
      descriptors, whose label is marked `G `. */
  function BuiltinHandlers(): (r: map<string, PluginHandler>)
    ensures r.Keys == BuiltinModels()
    ensures forall m :: m in r ==> r[m].model == m && r[m].pluginType == Internal && r[m].category == "Oscillator"
  {
    map[AbsSineModel := PluginHandler("Oscillator", AbsSineModel, "Absolute sinusoidal", Internal),
        SinusoidalModel := PluginHandler("Oscillator", SinusoidalModel, "G " + SinusoidalModel, Internal),
        SecondDegreeModel := PluginHandler("Oscillator", SecondDegreeModel, "G Second Degree Frequency Progression", Internal)]
  }

  /** `make_internal_talker`: the three built-in models make their talker,
      any other model is refused. */
  function MakeInternalTalker(model: string): (r: Result<Talker>)
    ensures r.Ok? <==> model in BuiltinModels()
    ensures r.Ok? ==> TalkerModel(r.value) == model && !r.value.Lv2Talker?
    ensures r.Err? ==> r.msg == "Unknown talker MODEL"
    ensures model == SecondDegreeModel ==> r == Ok(SecondDegreeFrequencyProgression(110.0, 0.0, 1.0, 1.0))
  {
    if model == SinusoidalModel then Ok(Sinusoidal)
    else if model == AbsSineModel then Ok(AbsSine)
    else if model == SecondDegreeModel then Ok(SecondDegreeFrequencyProgression(110.0, 0.0, 1.0, 1.0))
    else Err("Unknown talker MODEL")
  }

  /** One `(label, model)` pair of the catalogue, and one category's group. */
  type Entry = (string, string)
  type Group = (string, seq<Entry>)

  function PairKey(e: Entry): (string, string) { e }

  /** Groups are ordered as tuples; their categories differ, so the
      category alone decides. */
  function CategoryKey(g: Group): (string, string) { (g.0, "") }

  function Elems<T>(s: seq<T>): set<T> { set x | x in s }

  /** The categories of the models in `done`. */
  ghost function Categories(hs: map<string, PluginHandler>, done: set<string>): set<string> {
    set k | k in done && k in hs :: hs[k].category
  }

  /** The `(label, model)` pairs of the models in `done` that are in category `c`. */
  ghost function Entries(hs: map<string, PluginHandler>, done: set<string>, c: string): set<Entry> {
    set k | k in done && k in hs && hs[k].category == c :: (hs[k].labelText, k)
  }

  lemma CategoriesAdd(hs: map<string, PluginHandler>, done: set<string>, k: string)
    requires k in hs
    ensures Categories(hs, done + {k}) == Categories(hs, done) + {hs[k].category}
  {
  }

  lemma EntriesAdd(hs: map<string, PluginHandler>, done: set<string>, k: string, c: string)
    requires k in hs
    ensures hs[k].category == c ==> Entries(hs, done + {k}, c) == Entries(hs, done, c) + {(hs[k].labelText, k)}
    ensures hs[k].category != c ==> Entries(hs, done + {k}, c) == Entries(hs, done, c)
  {
  }

  /** A group as the catalogue lists it: its pairs sorted, none twice, and
      exactly those of the models of its category. */
  ghost predicate GroupOk(hs: map<string, PluginHandler>, g: Group) {
    && SortedBy(g.1, PairKey)
    && AllDistinct(g.1)
    && Elems(g.1) == Entries(hs, hs.Keys, g.0)
  }

  /** The catalogue of `hs`: every group correct, one group per category of
      a registered model and no other, in strictly increasing order of
      category. */
  ghost predicate Catalogue(hs: map<string, PluginHandler>, r: seq<Group>) {
    && (forall i :: 0 <= i < |r| ==> GroupOk(hs, r[i]) && r[i].0 in Categories(hs, hs.Keys))
    && (forall k :: k in hs ==> exists i :: 0 <= i < |r| && r[i].0 == hs[k].category)
    && (forall i, j :: 0 <= i < j < |r| ==> StrLt(r[i].0, r[j].0))
  }

  /** In a catalogue, every registered model occurs exactly once, as the
      pair of its label and itself, in the group of its category, and in
      no other group. */
  lemma EachHandlerOnce(hs: map<string, PluginHandler>, r: seq<Group>, k: string)
    requires Catalogue(hs, r) && k in hs
    ensures exists i :: 0 <= i < |r| && r[i].0 == hs[k].category && multiset(r[i].1)[(hs[k].labelText, k)] == 1
    ensures forall i :: 0 <= i < |r| && r[i].0 != hs[k].category ==> (hs[k].labelText, k) !in r[i].1
  {
    var i :| 0 <= i < |r| && r[i].0 == hs[k].category;
    assert (hs[k].labelText, k) in Entries(hs, hs.Keys, r[i].0);
    assert (hs[k].labelText, k) in Elems(r[i].1);
    DistinctCount(r[i].1, (hs[k].labelText, k));
    forall j | 0 <= j < |r| && r[j].0 != hs[k].category
      ensures (hs[k].labelText, k) !in r[j].1
    {
      assert GroupOk(hs, r[j]);
      assert (hs[k].labelText, k) in r[j].1 ==> (hs[k].labelText, k) in Entries(hs, hs.Keys, r[j].0);
    }
  }

  class PluginsManager {
    var handlers: map<string, PluginHandler>

    /** Every internal handler is a built-in, keyed by its model. */
    ghost predicate Valid()
      reads this
    {
      forall k :: k in handlers && handlers[k].pluginType == Internal ==> k == handlers[k].model && k in BuiltinModels()
    }

    /** `new` with `make_plugins_handlers`: the LV2 plugins found, keyed by
        URI, then the built-ins, which replace an LV2 entry of the same key. */
    constructor (lv2Plugins: map<string, PluginHandler>)
      requires forall k :: k in lv2Plugins ==> lv2Plugins[k].pluginType == Lv2
      ensures handlers == lv2Plugins + BuiltinHandlers()
      ensures Valid()
    {
      handlers := lv2Plugins + BuiltinHandlers();
    }

    /** `make_talker` with `mk_tkr`: a model that is not registered is
        refused; an internal handler makes its built-in, an LV2 handler the
        instance of its plugin, whose instantiation outcome is `lv2`. */
    function MakeTalker(model: string, lv2: Result<()>): (r: Result<Talker>)
      reads this
      ensures model !in handlers ==> r == Err("Unknown talker URI")
      ensures r.Ok? ==> model in handlers && TalkerModel(r.value) == handlers[model].model
      ensures r.Ok? ==> (r.value.Lv2Talker? <==> handlers[model].pluginType == Lv2)
      ensures model in handlers && handlers[model].pluginType == Lv2 ==> (r.Ok? <==> lv2.Ok?)
      ensures model in handlers && handlers[model].pluginType == Internal ==>
        (r.Ok? <==> handlers[model].model in BuiltinModels())
    {
      if model in handlers then
        var ph := handlers[model];
        match ph.pluginType
        case Lv2 => (if lv2.Ok? then Ok(Lv2Talker(ph.model)) else Err(lv2.msg))
        case Internal => MakeInternalTalker(ph.model)
      else
        Err("Unknown talker URI")
    }

    /** `get_categorized_talkers_label_model`: groups the registered models
        by category in a map, then lists each category with its sorted
        pairs and sorts the list. The map's iteration order is arbitrary. */
    method GetCategorizedTalkersLabelModel() returns (r: seq<Group>)
      ensures Catalogue(handlers, r)
    {
      var categoriesMap := GroupByCategory(handlers);
      var categoriesVec := ListGroups(handlers, categoriesMap);
      r := SortBy(categoriesVec, CategoryKey);
      CatalogueOfSorted(handlers, categoriesVec, r);
    }
  }

  /** Once registered, the built-in models make their talkers whatever LV2
      plugins were found. */
  lemma BuiltinsAreMade(pm: PluginsManager, lv2Plugins: map<string, PluginHandler>, lv2: Result<()>)
    requires pm.handlers == lv2Plugins + BuiltinHandlers()
    ensures pm.MakeTalker(SinusoidalModel, lv2) == Ok(Sinusoidal)
    ensures pm.MakeTalker(AbsSineModel, lv2) == Ok(AbsSine)
    ensures pm.MakeTalker(SecondDegreeModel, lv2) == Ok(SecondDegreeFrequencyProgression(110.0, 0.0, 1.0, 1.0))
  {
    assert BuiltinHandlers()[SinusoidalModel].model == SinusoidalModel;
    assert BuiltinHandlers()[AbsSineModel].model == AbsSineModel;
    assert BuiltinHandlers()[SecondDegreeModel].model == SecondDegreeModel;
  }

  /** In a register built by the constructor the "Unknown talker MODEL"
      error cannot occur: an internal handler always makes its talker. */
  lemma InternalHandlersMake(pm: PluginsManager, model: string, lv2: Result<()>)
    requires pm.Valid() && model in pm.handlers && pm.handlers[model].pluginType == Internal
    ensures pm.MakeTalker(model, lv2).Ok?
    ensures TalkerModel(pm.MakeTalker(model, lv2).value) == model
  {
  }

  /** The first loop of `get_categorized_talkers_label_model`: each model,
      in the map's arbitrary order, is appended with its label to the list
      of its category, which is created on the category's first model. */
  method GroupByCategory(hs: map<string, PluginHandler>) returns (categoriesMap: map<string, seq<Entry>>)
    ensures categoriesMap.Keys == Categories(hs, hs.Keys)
    ensures forall c :: c in categoriesMap ==>
      AllDistinct(categoriesMap[c]) && Elems(categoriesMap[c]) == Entries(hs, hs.Keys, c)
  {
    categoriesMap := map[];
    var rest := hs.Keys;
    ghost var done: set<string> := {};
    while rest != {}
      invariant rest <= hs.Keys && done == hs.Keys - rest
      invariant categoriesMap.Keys == Categories(hs, done)
      invariant forall c :: c in categoriesMap ==>
        AllDistinct(categoriesMap[c]) && Elems(categoriesMap[c]) == Entries(hs, done, c)
      decreases rest
    {
      var model :| model in rest;
      var ph := hs[model];
      var entry := (ph.labelText, model);
      CategoriesAdd(hs, done, model);
      forall c | c in categoriesMap
        ensures entry !in categoriesMap[c]
      {
        assert entry !in Entries(hs, done, c);
      }
      if ph.category in categoriesMap {
        categoriesMap := categoriesMap[ph.category := categoriesMap[ph.category] + [entry]];
      } else {
        categoriesMap := categoriesMap[ph.category := [entry]];
      }
      forall c | c in categoriesMap
        ensures Elems(categoriesMap[c]) == Entries(hs, done + {model}, c)
      {
        EntriesAdd(hs, done, model, c);
      }
      rest := rest - {model};
      done := done + {model};
    }
  }

  /** The body of the second loop: a copy of the category's pairs, sorted. */
  method MakeGroup(hs: map<string, PluginHandler>, category: string, talkers: seq<Entry>) returns (g: Group)
    requires AllDistinct(talkers) && Elems(talkers) == Entries(hs, hs.Keys, category)
    ensures g.0 == category && GroupOk(hs, g)
    ensures multiset(g.1) == multiset(talkers)
  {
    var tkrs: seq<Entry> := [];
    for i := 0 to |talkers|
      invariant tkrs == talkers[..i]
    {
      tkrs := tkrs + [talkers[i]];
    }
    assert tkrs == talkers;
    tkrs := SortBy(tkrs, PairKey);
    DistinctPermutation(talkers, tkrs);
    assert Elems(tkrs) == Elems(talkers) by {
      forall e
        ensures e in tkrs <==> e in talkers
      {
        assert e in tkrs <==> e in multiset(tkrs);
      }
    }
    g := (category, tkrs);
  }

  /** The second loop: each category of the map, in its arbitrary order,
      is listed with a sorted copy of its pairs. */
  method ListGroups(hs: map<string, PluginHandler>, categoriesMap: map<string, seq<Entry>>) returns (categoriesVec: seq<Group>)
    requires categoriesMap.Keys == Categories(hs, hs.Keys)
    requires forall c :: c in categoriesMap ==>
      AllDistinct(categoriesMap[c]) && Elems(categoriesMap[c]) == Entries(hs, hs.Keys, c)
    ensures forall i :: 0 <= i < |categoriesVec| ==>
      GroupOk(hs, categoriesVec[i]) && categoriesVec[i].0 in Categories(hs, hs.Keys)
    ensures forall k :: k in hs ==> exists i :: 0 <= i < |categoriesVec| && categoriesVec[i].0 == hs[k].category
    ensures forall i, j :: 0 <= i < j < |categoriesVec| ==> categoriesVec[i].0 != categoriesVec[j].0
  {
    categoriesVec := [];
    var restCats := categoriesMap.Keys;
    ghost var listed: seq<string> := [];
    while restCats != {}
      invariant restCats <= categoriesMap.Keys
      invariant |listed| == |categoriesVec| && forall i :: 0 <= i < |listed| ==> categoriesVec[i].0 == listed[i]
      invariant forall i :: 0 <= i < |categoriesVec| ==>
        categoriesVec[i].0 in categoriesMap.Keys - restCats && GroupOk(hs, categoriesVec[i])
      invariant forall c :: c in categoriesMap.Keys - restCats ==> c in listed
      invariant forall i, j :: 0 <= i < j < |categoriesVec| ==> categoriesVec[i].0 != categoriesVec[j].0
      decreases restCats
    {
      var category :| category in restCats;
      var group := MakeGroup(hs, category, categoriesMap[category]);
      categoriesVec := categoriesVec + [group];
      listed := listed + [category];
      restCats := restCats - {category};
    }
    forall k | k in hs
      ensures exists i :: 0 <= i < |categoriesVec| && categoriesVec[i].0 == hs[k].category
    {
      assert hs[k].category in Categories(hs, hs.Keys);
      assert hs[k].category in listed;
      var i :| 0 <= i < |listed| && listed[i] == hs[k].category;
      assert categoriesVec[i].0 == hs[k].category;
    }
  }

  /** Sorting the list of groups keeps each group and, the categories being
      distinct, orders them strictly. */
  lemma CatalogueOfSorted(hs: map<string, PluginHandler>, v: seq<Group>, r: seq<Group>)
    requires forall i :: 0 <= i < |v| ==> GroupOk(hs, v[i]) && v[i].0 in Categories(hs, hs.Keys)
    requires forall k :: k in hs ==> exists i :: 0 <= i < |v| && v[i].0 == hs[k].category
    requires forall i, j :: 0 <= i < j < |v| ==> v[i].0 != v[j].0
    requires SortedBy(r, CategoryKey) && multiset(r) == multiset(v)
    ensures Catalogue(hs, r)
  {
    forall i | 0 <= i < |r|
      ensures GroupOk(hs, r[i]) && r[i].0 in Categories(hs, hs.Keys)
    {
      assert r[i] in multiset(v);
    }
    forall k | k in hs
      ensures exists i :: 0 <= i < |r| && r[i].0 == hs[k].category
    {
      var p :| 0 <= p < |v| && v[p].0 == hs[k].category;
      assert v[p] in multiset(r);
      var i :| 0 <= i < |r| && r[i] == v[p];
    }
    assert AllDistinct(v);
    DistinctPermutation(v, r);
    forall i, j | 0 <= i < j < |r|
      ensures StrLt(r[i].0, r[j].0)
    {
      assert r[i] in multiset(v) && r[j] in multiset(v);
      var p :| 0 <= p < |v| && v[p] == r[i];
      var q :| 0 <= q < |v| && v[q] == r[j];
      assert p != q;
      assert v[p].0 != v[q].0 || p == q;
      assert PairLe(CategoryKey(r[i]), CategoryKey(r[j]));
    }
  }
}
