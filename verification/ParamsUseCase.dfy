/** app/usecases/controllerparams: the use case itself, over the controllers and the file. */
module ParamsUseCase {
  import opened Numbers
  import opened Errors
  import opened YamlTree
  import opened Entities
  import opened Controllers
  import opened ControllerUpdates
  import opened SwitchableControllers
  import opened Persist

  /** The order in which fieldValues goes through the settings. */
  function Turn(k: Key): (n: nat)
    ensures n < 15
  {
    match k
    case Setpoint => 0
    case Kp => 1
    case Ki => 2
    case Kd => 3
    case Minimum => 4
    case Maximum => 5
    case IClamp => 6
    case FfGain => 7
    case FilterType => 8
    case FilterSize => 9
    case ModelK => 10
    case ModelTau => 11
    case ModelTheta => 12
    case SampleSeconds => 13
    case FilterTau => 14
  }

  function AtTurn(n: nat): Key {
    match n
    case 0 => Setpoint
    case 1 => Kp
    case 2 => Ki
    case 3 => Kd
    case 4 => Minimum
    case 5 => Maximum
    case 6 => IClamp
    case 7 => FfGain
    case 8 => FilterType
    case 9 => FilterSize
    case 10 => ModelK
    case 11 => ModelTau
    case 12 => ModelTheta
    case 13 => SampleSeconds
    case _ => FilterTau
  }

  lemma TurnsDiffer(j: Key, k: Key)
    ensures Turn(j) == Turn(k) <==> j == k
  {
    assert AtTurn(Turn(j)) == j && AtTurn(Turn(k)) == k;
  }

  /** The map lists, by name, those of the first n settings that are set. */
  ghost predicate Lists(values: map<string, Scalar>, p: ControllerParams, n: nat) {
    && (forall name :: name in values ==> exists k :: Turn(k) < n && name == Name(k))
    && (forall k :: Turn(k) < n ==> (Name(k) in values <==> Field(p, k).Some?))
    && (forall k :: Turn(k) < n && Field(p, k).Some? ==> values[Name(k)] == Field(p, k).value)
  }

  /** putIfSet. */
  method PutIfSet(values: map<string, Scalar>, k: Key, v: Option<Scalar>, ghost p: ControllerParams)
    returns (values': map<string, Scalar>)
    requires Lists(values, p, Turn(k)) && v == Field(p, k)
    ensures Lists(values', p, Turn(k) + 1)
  {
    hide Name, Field, Turn;
    forall j ensures (Name(j) == Name(k) <==> j == k) && (Turn(j) == Turn(k) <==> j == k) {
      NamesDiffer(j, k);
      TurnsDiffer(j, k);
    }
    values' := if v.Some? then values[Name(k) := v.value] else values;
  }

  /** fieldValues: all the settings that are set. The tau setting belongs to the file alone. */
  method FieldValues(p: ControllerParams) returns (values: map<string, Scalar>)
    ensures Lists(values, p, 15)
  {
    hide Name, Lists, Measure, Quantity, Words, Count;
    values := map[];
    NoneListed(p);
    values := PutIfSet(values, Setpoint, Quantity(p.setpoint), p);
    values := PutIfSet(values, Kp, Measure(p.kp), p);
    values := PutIfSet(values, Ki, Measure(p.ki), p);
    values := PutIfSet(values, Kd, Measure(p.kd), p);
    values := PutIfSet(values, Minimum, Measure(p.min), p);
    values := PutIfSet(values, Maximum, Measure(p.max), p);
    values := PutIfSet(values, IClamp, Measure(p.iClamp), p);
    values := PutIfSet(values, FfGain, Measure(p.ffGain), p);
    values := PutIfSet(values, FilterType, Words(p.filterType), p);
    values := PutIfSet(values, FilterSize, Count(p.filterSize), p);
    values := PutIfSet(values, ModelK, Quantity(p.modelK), p);
    values := PutIfSet(values, ModelTau, Quantity(p.modelTau), p);
    values := PutIfSet(values, ModelTheta, Quantity(p.modelTheta), p);
    values := PutIfSet(values, SampleSeconds, Quantity(p.sampleSeconds), p);
    TauIsNotListed(values, p);
  }

  lemma NoneListed(p: ControllerParams)
    ensures Lists(map[], p, 0)
  {
  }

  lemma TauIsNotListed(values: map<string, Scalar>, p: ControllerParams)
    requires Lists(values, p, 14)
    ensures Lists(values, p, 15)
  {
    hide Name;
    assert Field(p, FilterTau).None?;
    forall k | Turn(k) < 14 ensures Name(k) != Name(FilterTau) {
      NamesDiffer(k, FilterTau);
    }
  }

  /** The settings asked for: those that are set, and both filter settings if either is. What
      they are set to does not matter here. */
  method AskedNames(requested: ControllerParams) returns (asked: map<string, Scalar>)
    ensures forall k :: Name(k) in asked <==> Asked(requested, k)
  {
    hide Turn, Name;
    asked := FieldValues(requested);
    forall k ensures Name(k) in asked <==> Field(requested, k).Some? {
      assert Turn(k) < 15;
    }
    forall k ensures Name(k) == Name(FilterType) <==> k == FilterType
             ensures Name(k) == Name(FilterSize) <==> k == FilterSize {
      NamesDiffer(k, FilterType);
      NamesDiffer(k, FilterSize);
    }
    if requested.filterType.Some? || requested.filterSize.Some? {
      asked := asked[Name(FilterType) := Text("")][Name(FilterSize) := Text("")];
    }
  }

  /** The updates hold what is to be written, but for the settings still to be visited. */
  ghost predicate HoldsBut(updates: map<string, Scalar>, section: string, requested: ControllerParams,
                           effective: ControllerParams, rest: set<string>) {
    && (forall name :: name in updates ==> exists k :: name == Qualified(section, k))
    && (forall k :: Qualified(section, k) in updates <==> Written(requested, effective, k) && Name(k) !in rest)
    && (forall k :: Written(requested, effective, k) && Name(k) !in rest ==>
          updates[Qualified(section, k)] == Field(effective, k).value)
  }

  /** persistedUpdates: the effective values of the settings asked for, visited in any order. */
  method PersistedUpdates(section: string, requested: ControllerParams, effective: ControllerParams)
    returns (updates: map<string, Scalar>)
    ensures Holds(updates, section, requested, effective)
  {
    hide Turn, Name, Field, Asked;
    var asked := AskedNames(requested);
    var values := FieldValues(effective);
    var rest := values.Keys;
    updates := map[];
    while rest != {}
      invariant rest <= values.Keys
      invariant HoldsBut(updates, section, requested, effective, rest)
    {
      var name :| name in rest;
      ghost var k :| Turn(k) < 15 && name == Name(k);
      Visited(updates, section, requested, effective, rest, k);
      if name in asked {
        updates := updates[section + "." + name := values[name]];
      }
      rest := rest - {name};
    }
  }

  lemma Visited(updates: map<string, Scalar>, section: string, requested: ControllerParams,
                effective: ControllerParams, rest: set<string>, k: Key)
    requires HoldsBut(updates, section, requested, effective, rest) && Name(k) in rest && Field(effective, k).Some?
    ensures !Asked(requested, k) ==> HoldsBut(updates, section, requested, effective, rest - {Name(k)})
    ensures Asked(requested, k) ==>
      HoldsBut(updates[Qualified(section, k) := Field(effective, k).value], section, requested, effective, rest - {Name(k)})
  {
    hide Name, Field, Asked, Qualified;
    forall j ensures Name(j) == Name(k) <==> j == k
             ensures Qualified(section, j) == Qualified(section, k) <==> j == k {
      NamesDiffer(j, k);
      QualifiedDiffer(section, j, k);
    }
  }

  class UseCase {
    const controller: SwitchableController
    const store: Persister

    constructor (controller: SwitchableController, store: Persister)
      ensures this.controller == controller && this.store == store
    {
      this.controller, this.store := controller, store;
    }

    /** Update. A rejected update changes nothing, in the controller or in the file; a failure to
        store an accepted one is only logged. If the file and the active controller agree and the
        store works, they still agree afterwards. What the store finds when it reads and writes
        the file is given, as in Persister.Set. */
    method Update(u: ControllerParams, parsed: Option<Node>, ghost wreck: Option<Tree>, writable: bool)
      returns (err: Option<Error>)
      requires controller.Valid()
      requires parsed.Some? ==> parsed.value.Valid() && Root(parsed.value.tree) == store.file
      requires parsed.Some? ==> parsed.value.repr !! {controller, store} + controller.repr
      requires store !in controller.repr
      requires writable <==> wreck.None?
      modifies controller, controller.repr, store, if parsed.Some? then parsed.value.repr else {}
      ensures controller.Valid() && fresh(controller.repr - old(controller.repr))
      ensures controller.State() == SwitchableControllers.Exec(old(controller.State()), Op.SetParams(u))
      ensures err == Tuned(old(controller.State()).Active(), u).1
      ensures store.path == "" || parsed.None? ==> store.file == old(store.file)
      ensures err.Some? ==> controller.State() == old(controller.State()) && store.file == old(store.file)
      ensures old(World(controller.State().Active(), store.file).Agrees())
              && store.path != "" && parsed.Some? && writable ==>
        World(controller.State().Active(), store.file).Agrees()
    {
      hide SwitchableController.Valid, SwitchableController.State, SwitchState.Valid;
      hide Tuned, World.Agrees, Holds, Node.Valid;
      ghost var before := World(controller.State().Active(), store.file);
      err := controller.SetParams(u);
      if err.Some? {
        RefusalChangesNothing(before.active, u);
        UnchangedBy(old(controller.State()), u);
        return;
      }
      var effective := controller.GetParams();
      var updates := PersistedUpdates(SectionFor(controller.activeType), u, effective);
      ActiveType(controller);
      ghost var after := controller.State();
      assert WritesBack(updates, u, after.Active().Settings());
      if |updates| == 0 {
        NothingToStore(before, u, updates);
        return;
      }
      var failure, order := store.Set(updates, parsed, wreck, writable);
      assert controller.State() == after;
      if failure.None? && before.Agrees() {
        EventKeepsInSync(before, Updated(u, updates, order));
      }
    }
  }

  lemma ActiveType(c: SwitchableController)
    requires c.Valid()
    ensures c.activeType == c.State().Active().Settings().Type()
  {
    hide Fits;
  }

  /** An update that writes nothing is a stored one with nothing in it. */
  lemma NothingToStore(w: World, u: ControllerParams, updates: map<string, Scalar>)
    requires w.active.Valid() && Tuned(w.active, u).1.None?
    requires |updates| == 0 && WritesBack(updates, u, Tuned(w.active, u).0.Settings())
    ensures w.Agrees() ==> World(Tuned(w.active, u).0, w.file).Agrees()
  {
    hide Tuned, InSync, WritesBack;
    if w.Agrees() {
      EventKeepsInSync(w, Updated(u, updates, []));
    }
  }

  lemma UnchangedBy(s: SwitchState, u: ControllerParams)
    requires s.Valid() && Tuned(s.Active(), u).0 == s.Active()
    ensures SwitchableControllers.Exec(s, Op.SetParams(u)) == s
  {
  }
}
