/** The persisted entities patch_request in iib/web/api_v1.py changes: a build request
    with its state history, resolved images and architectures, and the shared image and
    operator tables.  The model classes (iib/web/models) are not part of this model;
    their methods are modelled by what the endpoint relies on: `add_state` appends an
    entry, `add_architecture` adds to a set, `get_or_create` adds a row when absent. */
module Requests {
  import opened Json
  import opened Wrappers

  /** One entry of a request's state history: the numeric state (`RequestState.state`),
      its name (`state_name`), the reason and the time of the update. */
  datatype StateEntry = StateEntry(code: int, name: string, reason: string, updated: int)

  /** RequestStateMapping: the state names with their numeric values, and which of
      them are final. */
  datatype StateMapping = StateMapping(codes: map<string, int>, finals: set<string>)

  class Request {
    const id: nat
    var states: seq<StateEntry>        // request.states, oldest first; request.state is the last
    var images: map<string, string>    // binary_image_resolved, bundle_image, ... -> pull spec
    var arches: set<string>

    /** A request always has a current state. */
    predicate Valid()
      reads this
    {
      |states| > 0
    }

    /** `request.state` */
    function Current(): (s: StateEntry)
      reads this
      requires Valid()
      ensures s == states[|states| - 1]
    {
      states[|states| - 1]
    }

    constructor (id: nat, first: StateEntry)
      ensures Valid() && this.id == id && states == [first] && images == map[] && arches == {}
    {
      this.id := id;
      states := [first];
      images := map[];
      arches := {};
    }

    /** `request.add_state(state, reason)` */
    method AddState(code: int, name: string, reason: string, now: int)
      modifies this
      ensures states == old(states) + [StateEntry(code, name, reason, now)]
      ensures images == old(images) && arches == old(arches)
    {
      states := states + [StateEntry(code, name, reason, now)];
    }

    /** `setattr(request, key, Image.get_or_create(pullspec))` */
    method SetImage(key: string, pullspec: string)
      modifies this
      ensures images == old(images)[key := pullspec]
      ensures states == old(states) && arches == old(arches)
    {
      images := images[key := pullspec];
    }

    /** `request.add_architecture(arch)` */
    method AddArchitecture(arch: string)
      modifies this
      ensures arches == old(arches) + {arch}
      ensures states == old(states) && images == old(images)
    {
      arches := arches + {arch};
    }
  }

  /** The Image and Operator tables, and which operator each bundle image belongs to. */
  class Registry {
    var images: set<string>
    var operators: set<string>
    var bundleOperator: map<string, string>

    constructor ()
      ensures images == {} && operators == {} && bundleOperator == map[]
    {
      images := {};
      operators := {};
      bundleOperator := map[];
    }

    /** `Image.get_or_create(pullspec)` */
    method GetOrCreateImage(pullspec: string)
      modifies this
      ensures images == old(images) + {pullspec}
      ensures operators == old(operators) && bundleOperator == old(bundleOperator)
    {
      images := images + {pullspec};
    }

    /** `Operator.get_or_create(name)` */
    method GetOrCreateOperator(name: string)
      modifies this
      ensures operators == old(operators) + {name}
      ensures images == old(images) && bundleOperator == old(bundleOperator)
    {
      operators := operators + {name};
    }

    /** `bundle_img.operator = operator_img` */
    method SetBundleOperator(bundle: string, operator: string)
      modifies this
      ensures bundleOperator == old(bundleOperator)[bundle := operator]
      ensures images == old(images) && operators == old(operators)
    {
      bundleOperator := bundleOperator[bundle := operator];
    }
  }

  /** The duplicate-report check as evidently intended: the current state has the
      reported name and reason. */
  predicate SameState(current: StateEntry, newState: string, newReason: string) {
    current.name == newState && current.reason == newReason
  }

  /** The check as written: `request.state.state == new_state` compares the numeric state
      with the state NAME of the payload, so it never holds. */
  predicate SameStateAsWritten(current: StateEntry, newState: Value, newReason: Value) {
    Int(current.code) == newState && Str(current.reason) == newReason
  }

  /** A string state name never equals a numeric state. */
  lemma AsWrittenNeverMatches(current: StateEntry, newState: string, newReason: string)
    ensures !SameStateAsWritten(current, Str(newState), Str(newReason))
  {
  }

  /** The history after a state report, with the duplicate check as intended. */
  function NextHistory(states: seq<StateEntry>, code: int, name: string, reason: string, now: int)
    : (r: seq<StateEntry>)
    requires |states| > 0
    ensures SameState(states[|states| - 1], name, reason) ==> r == states
    ensures !SameState(states[|states| - 1], name, reason) ==> r == states + [StateEntry(code, name, reason, now)]
  {
    if SameState(states[|states| - 1], name, reason) then states
    else states + [StateEntry(code, name, reason, now)]
  }

  /** Reporting the same state twice is the same as reporting it once, whenever the
      second report comes: the protection against a Celery task running twice. */
  lemma RepeatedReportIsNoOp(states: seq<StateEntry>, code: int, name: string, reason: string, now: int, later: int)
    requires |states| > 0
    ensures var once := NextHistory(states, code, name, reason, now);
      NextHistory(once, code, name, reason, later) == once
  {
  }

  /** The history after a state report with the check as written. */
  function NextHistoryAsWritten(states: seq<StateEntry>, code: int, name: string, reason: string, now: int)
    : (r: seq<StateEntry>)
    requires |states| > 0
    ensures r == states + [StateEntry(code, name, reason, now)]
  {
    if SameStateAsWritten(states[|states| - 1], Str(name), Str(reason)) then states
    else states + [StateEntry(code, name, reason, now)]
  }

  /** As written, a repeated report appends a second, identical entry. */
  lemma RepeatedReportAppendsAsWritten(states: seq<StateEntry>, code: int, name: string, reason: string, now: int, later: int)
    requires |states| > 0
    ensures var once := NextHistoryAsWritten(states, code, name, reason, now);
      var twice := NextHistoryAsWritten(once, code, name, reason, later);
      && |twice| == |states| + 2
      && twice[|states|] == StateEntry(code, name, reason, now)
      && twice[|states| + 1] == StateEntry(code, name, reason, later)
  {
    AsWrittenNeverMatches(states[|states| - 1], name, reason);
    var once := NextHistoryAsWritten(states, code, name, reason, now);
    AsWrittenNeverMatches(once[|once| - 1], name, reason);
  }

  /** The bundle-to-operator table after assigning `bundles` to `operator`, in order. */
  function AssignAll(table: map<string, string>, bundles: seq<Value>, operator: string): map<string, string>
    requires forall x :: x in bundles ==> x.Str?
    decreases |bundles|
  {
    if bundles == [] then table else AssignAll(table[bundles[0].s := operator], bundles[1..], operator)
  }

  /** The table after `for operator, bundles in mapping.items()`. */
  function MapBundles(table: map<string, string>, mapping: Fields): map<string, string>
    requires ListsOfStrings(mapping)
    decreases |mapping|
  {
    if mapping == [] then table
    else MapBundles(AssignAll(table, mapping[0].1.items, mapping[0].0), mapping[1..])
  }

  /** The names listed in a sequence of string values. */
  function Names(bundles: seq<Value>): set<string> {
    set x | x in bundles && x.Str? :: x.s
  }

  /** Every bundle named in the mapping. */
  function MappedBundles(mapping: Fields): set<string> {
    set p, x | p in mapping && p.1.List? && x in p.1.items && x.Str? :: x.s
  }

  lemma {:induction false} AssignAllEffect(table: map<string, string>, bundles: seq<Value>, operator: string)
    requires forall x :: x in bundles ==> x.Str?
    decreases |bundles|
    ensures var r := AssignAll(table, bundles, operator);
      && r.Keys == table.Keys + Names(bundles)
      && (forall b :: b in Names(bundles) ==> r[b] == operator)
      && (forall b :: b in table && b !in Names(bundles) ==> r[b] == table[b])
  {
    if bundles != [] {
      AssignAllEffect(table[bundles[0].s := operator], bundles[1..], operator);
      assert Names(bundles) == {bundles[0].s} + Names(bundles[1..]);
    }
  }

  /** The operator a bundle ends up with: that of the last entry of the mapping whose list
      names it, since a later entry overwrites an earlier one. */
  function LastOperator(mapping: Fields, b: string): Option<string>
    decreases |mapping|
  {
    if mapping == [] then None
    else match LastOperator(mapping[1..], b)
      case Some(op) => Some(op)
      case None => if mapping[0].1.List? && Str(b) in mapping[0].1.items then Some(mapping[0].0) else None
  }

  /** A bundle has a last operator exactly when the mapping names it. */
  lemma {:induction false} LastOperatorNamed(mapping: Fields, b: string)
    decreases |mapping|
    ensures LastOperator(mapping, b).Some? <==> b in MappedBundles(mapping)
  {
    if mapping != [] {
      LastOperatorNamed(mapping[1..], b);
      var head := mapping[0];
      assert mapping == [head] + mapping[1..];
      assert b in MappedBundles(mapping) <==> b in MappedBundles(mapping[1..]) || (head.1.List? && Str(b) in head.1.items) by {
        if head.1.List? && Str(b) in head.1.items {
          assert Str(b).s == b;
        }
        if b in MappedBundles(mapping) && b !in MappedBundles(mapping[1..]) {
          var p, x :| p in mapping && p.1.List? && x in p.1.items && x.Str? && x.s == b;
          assert p !in mapping[1..];
          assert p == head && x == Str(b);
        }
      }
    }
  }

  /** Bundles the mapping does not name keep their operator; every named bundle ends up
      belonging to the last of the mapping's operators that lists it. */
  lemma {:induction false} MapBundlesEffect(table: map<string, string>, mapping: Fields)
    requires ListsOfStrings(mapping)
    decreases |mapping|
    ensures var r := MapBundles(table, mapping);
      && r.Keys == table.Keys + MappedBundles(mapping)
      && (forall b :: b in table && b !in MappedBundles(mapping) ==> r[b] == table[b])
      && (forall b :: b in MappedBundles(mapping) ==> r[b] in Keys(mapping))
      && (forall b :: b in MappedBundles(mapping) ==> LastOperator(mapping, b) == Some(r[b]))
  {
    if mapping != [] {
      var head := mapping[0];
      assert head in mapping;
      var next := AssignAll(table, head.1.items, head.0);
      AssignAllEffect(table, head.1.items, head.0);
      assert forall p :: p in mapping[1..] ==> p in mapping;
      MapBundlesEffect(next, mapping[1..]);
      assert Keys(mapping) == {head.0} + Keys(mapping[1..]);
      assert MappedBundles(mapping) == Names(head.1.items) + MappedBundles(mapping[1..]) by {
        assert mapping == [head] + mapping[1..];
      }
      var r := MapBundles(table, mapping);
      forall b | b in MappedBundles(mapping)
        ensures LastOperator(mapping, b) == Some(r[b])
      {
        LastOperatorNamed(mapping[1..], b);
        if b !in MappedBundles(mapping[1..]) {
          var x :| x in head.1.items && x.Str? && x.s == b;
          assert x == Str(b);
        }
      }
    }
  }
}
