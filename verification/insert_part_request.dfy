/**
 The `InsertPartRequest` mutation's variables and their builder.

 `Variables.build` takes the five required fields as arguments, starts
 the two optional fields (VIN, urgency) as `Undefined`, then runs the
 caller's builder block, whose property setters overwrite the local
 copies and whose property getters throw. The block itself is the shared
 one of `BuilderBlock`; this module supplies the fields and setters.
 */
module InsertPartRequestMutation {
  import opened Wrappers
  import opened DataConnect
  import opened BuilderBlock

  const OperationName := "InsertPartRequest"

  datatype Variables = Variables(
    mechanicId: Uuid,
    VIN: OptionalVariable<string>,
    partDescription: string,
    urgency: OptionalVariable<string>,
    vehicleMake: string,
    vehicleModel: string,
    vehicleYear: Int32)

  /** The arguments of `build`, `ref` and `execute` before the block. */
  datatype RequiredArgs = RequiredArgs(
    mechanicId: Uuid,
    partDescription: string,
    vehicleMake: string,
    vehicleModel: string,
    vehicleYear: Int32)

  datatype Field =
    | MechanicIdField | VINField | PartDescriptionField | UrgencyField
    | VehicleMakeField | VehicleModelField | VehicleYearField

  /** One setter call of the builder block, with the value assigned. */
  datatype Setter =
    | SetMechanicId(mechanicId: Uuid)
    | SetVIN(vin: Option<string>)
    | SetPartDescription(partDescription: string)
    | SetUrgency(urgency: Option<string>)
    | SetVehicleMake(vehicleMake: string)
    | SetVehicleModel(vehicleModel: string)
    | SetVehicleYear(vehicleYear: Int32)

  type BuilderOp = Access<Setter, Field>

  /** The value of one field, whatever its type. */
  datatype FieldValue =
    | UuidValue(u: Uuid)
    | TextValue(s: string)
    | OptionalTextValue(o: OptionalVariable<string>)
    | IntValue(n: Int32)

  function Read(v: Variables, f: Field): FieldValue {
    match f
    case MechanicIdField => UuidValue(v.mechanicId)
    case VINField => OptionalTextValue(v.VIN)
    case PartDescriptionField => TextValue(v.partDescription)
    case UrgencyField => OptionalTextValue(v.urgency)
    case VehicleMakeField => TextValue(v.vehicleMake)
    case VehicleModelField => TextValue(v.vehicleModel)
    case VehicleYearField => IntValue(v.vehicleYear)
  }

  /** Two variable records that agree on every field are equal. */
  lemma ReadExtensional(v: Variables, w: Variables)
    requires forall f :: Read(v, f) == Read(w, f)
    ensures v == w
  {
    assert Read(v, MechanicIdField) == Read(w, MechanicIdField);
    assert Read(v, VINField) == Read(w, VINField);
    assert Read(v, PartDescriptionField) == Read(w, PartDescriptionField);
    assert Read(v, UrgencyField) == Read(w, UrgencyField);
    assert Read(v, VehicleMakeField) == Read(w, VehicleMakeField);
    assert Read(v, VehicleModelField) == Read(w, VehicleModelField);
    assert Read(v, VehicleYearField) == Read(w, VehicleYearField);
  }

  /** The field a setter writes. */
  function FieldOf(s: Setter): Field {
    match s
    case SetMechanicId(_) => MechanicIdField
    case SetVIN(_) => VINField
    case SetPartDescription(_) => PartDescriptionField
    case SetUrgency(_) => UrgencyField
    case SetVehicleMake(_) => VehicleMakeField
    case SetVehicleModel(_) => VehicleModelField
    case SetVehicleYear(_) => VehicleYearField
  }

  /** The value a setter stores: the optional fields wrap it in `Value`. */
  function Written(s: Setter): FieldValue {
    match s
    case SetMechanicId(u) => UuidValue(u)
    case SetVIN(x) => OptionalTextValue(Provide(x))
    case SetPartDescription(t) => TextValue(t)
    case SetUrgency(x) => OptionalTextValue(Provide(x))
    case SetVehicleMake(t) => TextValue(t)
    case SetVehicleModel(t) => TextValue(t)
    case SetVehicleYear(n) => IntValue(n)
  }

  /** The local variables before the block runs. */
  function Initial(args: RequiredArgs): (v: Variables)
    ensures v.VIN == Undefined && v.urgency == Undefined
    ensures v.mechanicId == args.mechanicId && v.partDescription == args.partDescription
    ensures v.vehicleMake == args.vehicleMake && v.vehicleModel == args.vehicleModel
    ensures v.vehicleYear == args.vehicleYear
  {
    Variables(args.mechanicId, Undefined, args.partDescription, Undefined,
              args.vehicleMake, args.vehicleModel, args.vehicleYear)
  }

  /** A setter call: its field takes the written value, every other
      field is left alone. */
  function Assign(v: Variables, s: Setter): (v': Variables)
    ensures Read(v', FieldOf(s)) == Written(s)
    ensures forall f :: f != FieldOf(s) ==> Read(v', f) == Read(v, f)
  {
    match s
    case SetMechanicId(u) => v.(mechanicId := u)
    case SetVIN(x) => v.(VIN := Provide(x))
    case SetPartDescription(t) => v.(partDescription := t)
    case SetUrgency(x) => v.(urgency := Provide(x))
    case SetVehicleMake(t) => v.(vehicleMake := t)
    case SetVehicleModel(t) => v.(vehicleModel := t)
    case SetVehicleYear(n) => v.(vehicleYear := n)
  }

  /** `Variables.build`. */
  function Build(args: RequiredArgs, block: seq<BuilderOp>): (r: Result<Variables, BuildError>)
    ensures r.Failure? <==> HasGet(block)
    ensures r.Failure? ==> r.error == UnsupportedOperation(GetterUnsupported)
  {
    RunBlock(Assign, Initial(args), block)
  }

  /** With an empty block the optional fields are omitted and the
      required ones are the arguments. */
  lemma EmptyBlockOmitsOptionals(args: RequiredArgs)
    ensures Build(args, []) == Success(Initial(args))
    ensures Build(args, []).value.VIN == Undefined
    ensures Build(args, []).value.urgency == Undefined
  {
  }

  /** Every field `build` returns holds the value of the block's last
      setter call on it, or the starting value if the block never sets it. */
  lemma BuiltFieldIsLastWrite(args: RequiredArgs, block: seq<BuilderOp>, f: Field)
    requires !HasGet(block)
    ensures Read(Build(args, block).value, f)
            == match LastWrite(FieldOf, block, f)
               case Some(s) => Written(s)
               case None => Read(Initial(args), f)
  {
    BuiltIsLastWrite(Assign, Read, FieldOf, Written, Initial(args), block, f);
  }

  /** The built VIN and urgency are exactly what the block last assigned
      to them, null included, and omitted when it never assigns them. */
  lemma OptionalsAreLastWrites(args: RequiredArgs, block: seq<BuilderOp>)
    requires !HasGet(block)
    ensures Build(args, block).value.VIN
            == match LastWrite<Setter, Field>(FieldOf, block, VINField)
               case Some(SetVIN(x)) => Value(x)
               case _ => Undefined
    ensures Build(args, block).value.urgency
            == match LastWrite<Setter, Field>(FieldOf, block, UrgencyField)
               case Some(SetUrgency(x)) => Value(x)
               case _ => Undefined
  {
    BuiltFieldIsLastWrite(args, block, VINField);
    BuiltFieldIsLastWrite(args, block, UrgencyField);
  }

  /** An optional field is an explicit value exactly when the block
      assigns it, even if only null is assigned; a field the block never
      assigns keeps its argument. */
  lemma AssignedFieldsOnly(args: RequiredArgs, block: seq<BuilderOp>)
    requires !HasGet(block)
    ensures Build(args, block).value.VIN.Value? <==> Writes(FieldOf, block, VINField)
    ensures Build(args, block).value.urgency.Value? <==> Writes(FieldOf, block, UrgencyField)
    ensures forall f :: !Writes(FieldOf, block, f) ==> Read(Build(args, block).value, f) == Read(Initial(args), f)
  {
    OptionalsAreLastWrites(args, block);
    forall f | !Writes(FieldOf, block, f)
      ensures Read(Build(args, block).value, f) == Read(Initial(args), f)
    {
      BuiltFieldIsLastWrite(args, block, f);
    }
  }

  /** A second write to a field replaces the first. */
  lemma AssignOverwrites(w: Variables, first: Setter, second: Setter)
    requires FieldOf(first) == FieldOf(second)
    ensures Assign(Assign(w, first), second) == Assign(w, second)
  {
    var l, r := Assign(Assign(w, first), second), Assign(w, second);
    forall f ensures Read(l, f) == Read(r, f) {
      if f != FieldOf(second) {
        assert Read(l, f) == Read(Assign(w, first), f) == Read(w, f);
      }
    }
    ReadExtensional(l, r);
  }

  /** Writes to different fields do not interfere. */
  lemma AssignCommutes(w: Variables, a: Setter, b: Setter)
    requires FieldOf(a) != FieldOf(b)
    ensures Assign(Assign(w, a), b) == Assign(Assign(w, b), a)
  {
    var l, r := Assign(Assign(w, a), b), Assign(Assign(w, b), a);
    forall f ensures Read(l, f) == Read(r, f) {
      if f == FieldOf(a) {
        assert Read(l, f) == Read(Assign(w, a), f) == Written(a);
      } else if f == FieldOf(b) {
        assert Read(r, f) == Read(Assign(w, b), f) == Written(b);
      } else {
        assert Read(l, f) == Read(Assign(w, a), f) == Read(w, f);
        assert Read(r, f) == Read(Assign(w, b), f) == Read(w, f);
      }
    }
    ReadExtensional(l, r);
  }

  /** Last write wins: a setter call followed by another call to the same
      setter has the effect of the second one alone. */
  lemma LastWriteWins(args: RequiredArgs, before: seq<BuilderOp>, first: Setter, second: Setter, after: seq<BuilderOp>)
    requires FieldOf(first) == FieldOf(second)
    ensures Build(args, before + [SetterCall(first), SetterCall(second)] + after)
            == Build(args, before + [SetterCall(second)] + after)
  {
    var xs: seq<BuilderOp> := [SetterCall(first), SetterCall(second)];
    var ys: seq<BuilderOp> := [SetterCall(second)];
    forall w ensures RunBlock(Assign, w, xs) == RunBlock(Assign, w, ys) {
      RunTwoSetters(Assign, w, xs[0], xs[1]);
      RunBlockSnoc(Assign, w, [], ys[0]);
      assert [] + ys == ys;
      AssignOverwrites(w, first, second);
    }
    ReplaceInBlock(Assign, Initial(args), before, xs, ys, after);
  }

  /** Setter calls on different fields can be made in either order. */
  lemma DistinctFieldsCommute(args: RequiredArgs, before: seq<BuilderOp>, a: Setter, b: Setter, after: seq<BuilderOp>)
    requires FieldOf(a) != FieldOf(b)
    ensures Build(args, before + [SetterCall(a), SetterCall(b)] + after)
            == Build(args, before + [SetterCall(b), SetterCall(a)] + after)
  {
    var xs: seq<BuilderOp> := [SetterCall(a), SetterCall(b)];
    var ys: seq<BuilderOp> := [SetterCall(b), SetterCall(a)];
    forall w ensures RunBlock(Assign, w, xs) == RunBlock(Assign, w, ys) {
      RunTwoSetters(Assign, w, xs[0], xs[1]);
      RunTwoSetters(Assign, w, ys[0], ys[1]);
      AssignCommutes(w, a, b);
    }
    ReplaceInBlock(Assign, Initial(args), before, xs, ys, after);
  }

  /** Assigning null is not omitting: it yields an explicit null. */
  lemma NullIsExplicit(args: RequiredArgs)
    ensures Build(args, [SetterCall(SetVIN(None))]).value.VIN == Value(None)
    ensures Build(args, [SetterCall(SetUrgency(None))]).value.urgency == Value(None)
    ensures Build(args, [SetterCall(SetVIN(None))]) != Build(args, [])
  {
    var vin: BuilderOp, urgency: BuilderOp := SetterCall(SetVIN(None)), SetterCall(SetUrgency(None));
    RunBlockSnoc(Assign, Initial(args), [], vin);
    RunBlockSnoc(Assign, Initial(args), [], urgency);
    assert [] + [vin] == [vin];
    assert [] + [urgency] == [urgency];
  }

  /** `ref(...)`: the named operation with the variables `build` makes
      from the same arguments and block; the block defaults to empty. */
  function Ref(args: RequiredArgs, block: seq<BuilderOp> := []): (r: Result<MutationRef<Variables>, BuildError>)
    ensures r.Failure? <==> HasGet(block)
    ensures r.Success? ==> r.value.operationName == "InsertPartRequest"
    ensures r.Success? ==> Build(args, block) == Success(r.value.variables)
  {
    var variables :- Build(args, block);
    Success(MutationRef(OperationName, variables))
  }

  /** `ref` with the default block omits both optional fields. */
  lemma DefaultRefOmitsOptionals(args: RequiredArgs)
    ensures Ref(args).Success?
    ensures Ref(args).value.variables == Initial(args)
  {
  }
}
