/** The assessment records, the in-memory assessment store and the module
    registry of RehabHub (RehabHub/src/types/assessment.ts). */
module Assessment {
  import opened Wrappers

  datatype Score = Score(value: real, maxValue: real, description: Option<string>, feedback: Option<string>)

  datatype Metric = Metric(id: string, name: string, score: Score, category: string)

  /** The fields an FMS assessment adds. */
  datatype FmsPart = FmsPart(mobilityScore: Score, stabilityScore: Score, asymmetryDetected: bool,
                             compensationPatterns: Option<seq<string>>)

  /** An assessment; `kind` is the `type` field ('FMS', 'YBT', ...). */
  datatype AssessmentRecord = AssessmentRecord(
    id: string, kind: string, movementType: string, movementName: string, timestamp: string,
    metrics: seq<Metric>, overallScore: Score,
    recommendations: Option<seq<string>>, notes: Option<string>,
    fms: Option<FmsPart>)

  /** At most this many assessments are kept. */
  const StoreLimit: nat := 100

  // ---------------------------------------------------------------------
  // The store's list operations
  // ---------------------------------------------------------------------

  /** `findIndex(a => a.id === id)`. */
  function IndexOfId(list: seq<AssessmentRecord>, id: string): (r: Option<nat>)
    ensures r.Some? ==> r.value < |list| && list[r.value].id == id &&
                        forall j :: 0 <= j < r.value ==> list[j].id != id
    ensures r.None? <==> forall j :: 0 <= j < |list| ==> list[j].id != id
  {
    if list == [] then None
    else if list[0].id == id then Some(0)
    else
      var r := IndexOfId(list[1..], id);
      if r.Some? then Some(r.value + 1) else None
  }

  /** The list after `save(a)`: replaced in place, or put in front; then
      cut to the first 100. */
  function Saved(list: seq<AssessmentRecord>, a: AssessmentRecord): seq<AssessmentRecord> {
    var updated := match IndexOfId(list, a.id)
      case Some(i) => list[i := a]
      case None => [a] + list;
    if |updated| <= StoreLimit then updated else updated[..StoreLimit]
  }

  /** `find(a => a.id === id) || null`. */
  function FindById(list: seq<AssessmentRecord>, id: string): (r: Option<AssessmentRecord>)
    ensures r.Some? ==> IndexOfId(list, id).Some? && r.value == list[IndexOfId(list, id).value]
    ensures r.None? <==> IndexOfId(list, id).None?
  {
    match IndexOfId(list, id)
    case Some(i) => Some(list[i])
    case None => None
  }

  /** `filter(a => a.movementType === movementType)`. */
  function WithMovementType(list: seq<AssessmentRecord>, movementType: string): seq<AssessmentRecord> {
    if list == [] then []
    else (if list[0].movementType == movementType then [list[0]] else []) + WithMovementType(list[1..], movementType)
  }

  /** `filter(a => a.id !== id)`. */
  function WithoutId(list: seq<AssessmentRecord>, id: string): seq<AssessmentRecord> {
    if list == [] then []
    else (if list[0].id != id then [list[0]] else []) + WithoutId(list[1..], id)
  }

  /** After a save the store holds at most 100 entries. */
  lemma SavedIsCapped(list: seq<AssessmentRecord>, a: AssessmentRecord)
    ensures |Saved(list, a)| <= StoreLimit
    ensures |Saved(list, a)| == if IndexOfId(list, a.id).Some? then Min(|list|, StoreLimit) else Min(|list| + 1, StoreLimit)
  {
  }

  function Min(a: nat, b: nat): nat { if a <= b then a else b }

  /** Saving a known id replaces the entry at its first index and leaves the
      other kept entries as they were. */
  lemma SaveReplacesInPlace(list: seq<AssessmentRecord>, a: AssessmentRecord, i: nat)
    requires IndexOfId(list, a.id) == Some(i)
    ensures var s := Saved(list, a);
      && (i < StoreLimit ==> s[i] == a)
      && forall j :: 0 <= j < |s| && j != i ==> s[j] == list[j]
  {
  }

  /** Saving a new id puts it first, followed by the previous entries in order. */
  lemma SavePrependsNew(list: seq<AssessmentRecord>, a: AssessmentRecord)
    requires IndexOfId(list, a.id).None?
    ensures var s := Saved(list, a);
      s[0] == a && s[1..] == list[..Min(|list|, StoreLimit - 1)]
  {
  }

  /** A saved assessment is found again by its id, as long as the store was
      within its limit. */
  lemma SaveThenFind(list: seq<AssessmentRecord>, a: AssessmentRecord)
    requires |list| <= StoreLimit
    ensures FindById(Saved(list, a), a.id) == Some(a)
  {
    var s := Saved(list, a);
    match IndexOfId(list, a.id)
    case Some(i) =>
      assert s[i] == a;
      assert forall j :: 0 <= j < i ==> s[j].id != a.id by {
        assert forall j :: 0 <= j < i ==> s[j] == list[j];
      }
      assert IndexOfId(s, a.id) == Some(i) by { IndexOfIdUnique(s, a.id, i); }
    case None =>
      assert IndexOfId(s, a.id) == Some(0);
  }

  lemma IndexOfIdUnique(list: seq<AssessmentRecord>, id: string, i: nat)
    requires i < |list| && list[i].id == id && forall j :: 0 <= j < i ==> list[j].id != id
    ensures IndexOfId(list, id) == Some(i)
  {
  }

  /** The movement-type query returns exactly the entries of that type;
      it distributes over concatenation, so stored order is kept. */
  lemma {:induction false} WithMovementTypeIsExact(list: seq<AssessmentRecord>, rest: seq<AssessmentRecord>, movementType: string)
    ensures forall x :: x in WithMovementType(list, movementType) <==> x in list && x.movementType == movementType
    ensures WithMovementType(list + rest, movementType) == WithMovementType(list, movementType) + WithMovementType(rest, movementType)
    ensures |WithMovementType(list, movementType)| <= |list|
  {
    if list != [] {
      WithMovementTypeIsExact(list[1..], rest, movementType);
      assert (list + rest)[1..] == list[1..] + rest;
    } else {
      assert list + rest == rest;
    }
  }

  /** Deleting removes every entry with the id and keeps the rest; it
      distributes over concatenation, so their order is kept. */
  lemma {:induction false} WithoutIdIsExact(list: seq<AssessmentRecord>, rest: seq<AssessmentRecord>, id: string)
    ensures forall x :: x in WithoutId(list, id) <==> x in list && x.id != id
    ensures WithoutId(list + rest, id) == WithoutId(list, id) + WithoutId(rest, id)
    ensures |WithoutId(list, id)| <= |list|
  {
    if list != [] {
      WithoutIdIsExact(list[1..], rest, id);
      assert (list + rest)[1..] == list[1..] + rest;
    } else {
      assert list + rest == rest;
    }
  }

  /** The store, with the browser's local storage replaced by a list field. */
  class LocalAssessmentStorage {
    var stored: seq<AssessmentRecord>

    constructor ()
      ensures stored == []
    {
      stored := [];
    }

    method Save(a: AssessmentRecord)
      modifies this
      ensures stored == Saved(old(stored), a)
    {
      var list := stored;
      var index := IndexOfId(list, a.id);
      if index.Some? {
        list := list[index.value := a];
      } else {
        list := [a] + list;
      }
      if |list| > StoreLimit {
        list := list[..StoreLimit];
      }
      stored := list;
    }

    /** The first stored assessment with the id, if there is one. */
    function GetById(id: string): (r: Option<AssessmentRecord>)
      reads this
      ensures r.Some? ==> r.value in stored && r.value.id == id
      ensures r.None? <==> forall a :: a in stored ==> a.id != id
      ensures r.Some? ==> exists i :: 0 <= i < |stored| && stored[i] == r.value &&
                                      forall j :: 0 <= j < i ==> stored[j].id != id
    {
      FindById(stored, id)
    }

    /** Exactly the stored assessments of the movement type, in stored order. */
    function GetByMovementType(movementType: string): (r: seq<AssessmentRecord>)
      reads this
      ensures forall x :: x in r <==> x in stored && x.movementType == movementType
      ensures |r| <= |stored|
      ensures r == WithMovementType(stored, movementType)
    {
      WithMovementTypeIsExact(stored, [], movementType);
      WithMovementType(stored, movementType)
    }

    function GetAll(): (r: seq<AssessmentRecord>)
      reads this
      ensures r == stored
    {
      stored
    }

    method Delete(id: string)
      modifies this
      ensures stored == WithoutId(old(stored), id)
    {
      stored := WithoutId(stored, id);
    }
  }

  // ---------------------------------------------------------------------
  // The module registry
  // ---------------------------------------------------------------------

  /** A registered assessment module; its processor and icon are not modelled. */
  datatype ModuleConfig = ModuleConfig(id: string, name: string, supportedMovementTypes: seq<string>,
                                       description: string)

  /** The modules in key order whose supported types include the movement. */
  function ModulesFor(order: seq<string>, modules: map<string, ModuleConfig>, movementType: string): seq<ModuleConfig>
    requires forall k :: k in order ==> k in modules
  {
    if order == [] then []
    else
      var m := modules[order[0]];
      (if movementType in m.supportedMovementTypes then [m] else []) + ModulesFor(order[1..], modules, movementType)
  }

  function ValuesInOrder(order: seq<string>, modules: map<string, ModuleConfig>): (r: seq<ModuleConfig>)
    requires forall k :: k in order ==> k in modules
    ensures |r| == |order| && forall i :: 0 <= i < |order| ==> r[i] == modules[order[i]]
  {
    seq(|order|, i requires 0 <= i < |order| => modules[order[i]])
  }

  /** `filter(module => module.supportedMovementTypes.includes(movementType))`. */
  function SupportingType(ms: seq<ModuleConfig>, movementType: string): seq<ModuleConfig> {
    if ms == [] then []
    else (if movementType in ms[0].supportedMovementTypes then [ms[0]] else []) + SupportingType(ms[1..], movementType)
  }

  /** The type filter distributes over concatenation, so it keeps the order
      of the list it filters. */
  lemma {:induction false} SupportingTypeKeepsOrder(a: seq<ModuleConfig>, b: seq<ModuleConfig>, movementType: string)
    ensures SupportingType(a + b, movementType) == SupportingType(a, movementType) + SupportingType(b, movementType)
  {
    if a == [] {
      assert a + b == b;
    } else {
      assert (a + b)[0] == a[0] && (a + b)[1..] == a[1..] + b;
      SupportingTypeKeepsOrder(a[1..], b, movementType);
    }
  }

  /** Walking the keys in order and filtering is the type filter of the
      values in registration order. */
  lemma {:induction false} ModulesForFiltersValues(order: seq<string>, modules: map<string, ModuleConfig>, movementType: string)
    requires forall k :: k in order ==> k in modules
    ensures ModulesFor(order, modules, movementType) == SupportingType(ValuesInOrder(order, modules), movementType)
  {
    if order != [] {
      var vs := ValuesInOrder(order, modules);
      assert vs[1..] == ValuesInOrder(order[1..], modules);
      ModulesForFiltersValues(order[1..], modules, movementType);
    }
  }

  /** The movement query returns exactly the registered modules listing the type. */
  lemma {:induction false} ModulesForIsExact(order: seq<string>, modules: map<string, ModuleConfig>, movementType: string)
    requires forall k :: k in order ==> k in modules
    ensures forall m :: m in ModulesFor(order, modules, movementType) <==>
      (exists k :: k in order && modules[k] == m) && movementType in m.supportedMovementTypes
  {
    if order != [] {
      ModulesForIsExact(order[1..], modules, movementType);
      forall m | (exists k :: k in order && modules[k] == m) && movementType in m.supportedMovementTypes
        ensures m in ModulesFor(order, modules, movementType)
      {
        var k :| k in order && modules[k] == m;
        if k != order[0] {
          assert k in order[1..];
        }
      }
    }
  }

  /** The static module map, keeping the insertion order a JavaScript Map has. */
  class AssessmentSystemRegistry {
    var order: seq<string>
    var modules: map<string, ModuleConfig>

    ghost predicate Valid()
      reads this
    {
      && (forall k :: k in order <==> k in modules)
      && (forall i, j :: 0 <= i < j < |order| ==> order[i] != order[j])
    }

    constructor ()
      ensures Valid() && order == [] && modules == map[]
    {
      order := [];
      modules := map[];
    }

    /** `modules.set(module.id, module)`: a new id goes last, an existing one
        keeps its place and is overwritten. */
    method RegisterModule(m: ModuleConfig)
      requires Valid()
      modifies this
      ensures Valid()
      ensures modules == old(modules)[m.id := m]
      ensures order == if m.id in old(modules) then old(order) else old(order) + [m.id]
    {
      if m.id !in modules {
        order := order + [m.id];
      }
      modules := modules[m.id := m];
    }

    function GetModule(id: string): (r: Option<ModuleConfig>)
      reads this
      ensures r.Some? <==> id in modules
      ensures r.Some? ==> r.value == modules[id]
    {
      if id in modules then Some(modules[id]) else None
    }

    /** Exactly the registered modules whose supported types include the movement. */
    function GetModulesForMovement(movementType: string): (r: seq<ModuleConfig>)
      reads this
      requires Valid()
      ensures forall m :: m in r <==> m in modules.Values && movementType in m.supportedMovementTypes
      ensures r == SupportingType(ValuesInOrder(order, modules), movementType)
    {
      ModulesForIsExact(order, modules, movementType);
      ModulesForFiltersValues(order, modules, movementType);
      ModulesFor(order, modules, movementType)
    }

    /** Every registered module once per id, in registration order. */
    function GetAllModules(): (r: seq<ModuleConfig>)
      reads this
      requires Valid()
      ensures |r| == |order| && forall i :: 0 <= i < |order| ==> r[i] == modules[order[i]]
      ensures forall m :: m in r <==> m in modules.Values
    {
      var r := ValuesInOrder(order, modules);
      assert forall m :: m in r ==> m in modules.Values by {
        forall m | m in r ensures m in modules.Values {
          var i :| 0 <= i < |r| && r[i] == m;
          assert order[i] in modules;
        }
      }
      assert forall m :: m in modules.Values ==> m in r by {
        forall m | m in modules.Values ensures m in r {
          var k :| k in modules && modules[k] == m;
          var i :| 0 <= i < |order| && order[i] == k;
          assert r[i] == m;
        }
      }
      r
    }
  }
}
