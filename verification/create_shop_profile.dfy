/**
 The `CreateShopProfile` mutation's variables and their builder.

 `Variables.build` takes the three required fields as arguments, starts
 the two optional list fields (deliveryOptions, inventorySpecialties) as
 `Undefined`, then runs the caller's builder block, whose property
 setters overwrite the local copies and whose property getters throw.
 The block itself is the shared one of `BuilderBlock`; this module
 supplies the fields and setters.
 */
module CreateShopProfileMutation {
  import opened Wrappers
  import opened DataConnect
  import opened BuilderBlock

  const OperationName := "CreateShopProfile"

  datatype Variables = Variables(
    userId: Uuid,
    deliveryOptions: OptionalVariable<seq<string>>,
    inventorySpecialties: OptionalVariable<seq<string>>,
    primaryContactPerson: string,
    shopName: string)

  /** The arguments of `build`, `ref` and `execute` before the block. */
  datatype RequiredArgs = RequiredArgs(
    userId: Uuid,
    primaryContactPerson: string,
    shopName: string)

  datatype Field =
    | UserIdField | DeliveryOptionsField | InventorySpecialtiesField
    | PrimaryContactPersonField | ShopNameField

  /** One setter call of the builder block, with the value assigned. */
  datatype Setter =
    | SetUserId(userId: Uuid)
    | SetDeliveryOptions(deliveryOptions: Option<seq<string>>)
    | SetInventorySpecialties(inventorySpecialties: Option<seq<string>>)
    | SetPrimaryContactPerson(primaryContactPerson: string)
    | SetShopName(shopName: string)

  type BuilderOp = Access<Setter, Field>

  /** The value of one field, whatever its type. */
  datatype FieldValue =
    | UuidValue(u: Uuid)
    | TextValue(s: string)
    | OptionalListValue(o: OptionalVariable<seq<string>>)

  function Read(v: Variables, f: Field): FieldValue {
    match f
    case UserIdField => UuidValue(v.userId)
    case DeliveryOptionsField => OptionalListValue(v.deliveryOptions)
    case InventorySpecialtiesField => OptionalListValue(v.inventorySpecialties)
    case PrimaryContactPersonField => TextValue(v.primaryContactPerson)
    case ShopNameField => TextValue(v.shopName)
  }

  /** Two variable records that agree on every field are equal. */
  lemma ReadExtensional(v: Variables, w: Variables)
    requires forall f :: Read(v, f) == Read(w, f)
    ensures v == w
  {
    assert Read(v, UserIdField) == Read(w, UserIdField);
    assert Read(v, DeliveryOptionsField) == Read(w, DeliveryOptionsField);
    assert Read(v, InventorySpecialtiesField) == Read(w, InventorySpecialtiesField);
    assert Read(v, PrimaryContactPersonField) == Read(w, PrimaryContactPersonField);
    assert Read(v, ShopNameField) == Read(w, ShopNameField);
  }

  /** The field a setter writes. */
  function FieldOf(s: Setter): Field {
    match s
    case SetUserId(_) => UserIdField
    case SetDeliveryOptions(_) => DeliveryOptionsField
    case SetInventorySpecialties(_) => InventorySpecialtiesField
    case SetPrimaryContactPerson(_) => PrimaryContactPersonField
    case SetShopName(_) => ShopNameField
  }

  /** The value a setter stores: the optional fields wrap it in `Value`. */
  function Written(s: Setter): FieldValue {
    match s
    case SetUserId(u) => UuidValue(u)
    case SetDeliveryOptions(x) => OptionalListValue(Provide(x))
    case SetInventorySpecialties(x) => OptionalListValue(Provide(x))
    case SetPrimaryContactPerson(t) => TextValue(t)
    case SetShopName(t) => TextValue(t)
  }

  /** The local variables before the block runs. */
  function Initial(args: RequiredArgs): (v: Variables)
    ensures v.deliveryOptions == Undefined && v.inventorySpecialties == Undefined
    ensures v.userId == args.userId
    ensures v.primaryContactPerson == args.primaryContactPerson && v.shopName == args.shopName
  {
    Variables(args.userId, Undefined, Undefined, args.primaryContactPerson, args.shopName)
  }

  /** A setter call: its field takes the written value, every other
      field is left alone. */
  function Assign(v: Variables, s: Setter): (v': Variables)
    ensures Read(v', FieldOf(s)) == Written(s)
    ensures forall f :: f != FieldOf(s) ==> Read(v', f) == Read(v, f)
  {
    match s
    case SetUserId(u) => v.(userId := u)
    case SetDeliveryOptions(x) => v.(deliveryOptions := Provide(x))
    case SetInventorySpecialties(x) => v.(inventorySpecialties := Provide(x))
    case SetPrimaryContactPerson(t) => v.(primaryContactPerson := t)
    case SetShopName(t) => v.(shopName := t)
  }

  /** `Variables.build`. */
  function Build(args: RequiredArgs, block: seq<BuilderOp>): (r: Result<Variables, BuildError>)
    ensures r.Failure? <==> HasGet(block)
    ensures r.Failure? ==> r.error == UnsupportedOperation(GetterUnsupported)
  {
    RunBlock(Assign, Initial(args), block)
  }

  /** With an empty block both lists are omitted and the required fields
      are the arguments. */
  lemma EmptyBlockOmitsOptionals(args: RequiredArgs)
    ensures Build(args, []) == Success(Initial(args))
    ensures Build(args, []).value.deliveryOptions == Undefined
    ensures Build(args, []).value.inventorySpecialties == Undefined
  {
  }

  /** Every field `build` returns holds the value of the block's last
      setter call on it, or the starting value if the block never sets it. */
  lemma BuiltFieldIsLastWrite(args: RequiredArgs, block: seq<BuilderOp>, f: Field)
    requires !HasGet(block)
    ensures Read(Build(args, block).value, f)
            == match LastWrite(FieldOf, block, f)
               case Some(s) => Written(s)
               case None => Read(Initial(args), f)
  {
    BuiltIsLastWrite(Assign, Read, FieldOf, Written, Initial(args), block, f);
  }

  /** The built lists are exactly what the block last assigned to them,
      null included, and omitted when it never assigns them. */
  lemma OptionalsAreLastWrites(args: RequiredArgs, block: seq<BuilderOp>)
    requires !HasGet(block)
    ensures Build(args, block).value.deliveryOptions
            == match LastWrite<Setter, Field>(FieldOf, block, DeliveryOptionsField)
               case Some(SetDeliveryOptions(x)) => Value(x)
               case _ => Undefined
    ensures Build(args, block).value.inventorySpecialties
            == match LastWrite<Setter, Field>(FieldOf, block, InventorySpecialtiesField)
               case Some(SetInventorySpecialties(x)) => Value(x)
               case _ => Undefined
  {
    BuiltFieldIsLastWrite(args, block, DeliveryOptionsField);
    BuiltFieldIsLastWrite(args, block, InventorySpecialtiesField);
  }

  /** A list field is an explicit value exactly when the block assigns
      it, even if only null is assigned; a field the block never assigns
      keeps its argument. */
  lemma AssignedFieldsOnly(args: RequiredArgs, block: seq<BuilderOp>)
    requires !HasGet(block)
    ensures Build(args, block).value.deliveryOptions.Value? <==> Writes(FieldOf, block, DeliveryOptionsField)
    ensures Build(args, block).value.inventorySpecialties.Value? <==> Writes(FieldOf, block, InventorySpecialtiesField)
    ensures forall f :: !Writes(FieldOf, block, f) ==> Read(Build(args, block).value, f) == Read(Initial(args), f)
  {
    OptionalsAreLastWrites(args, block);
    forall f | !Writes(FieldOf, block, f)
      ensures Read(Build(args, block).value, f) == Read(Initial(args), f)
    {
      BuiltFieldIsLastWrite(args, block, f);
    }
  }

  /** A second write to a field replaces the first. */
  lemma AssignOverwrites(w: Variables, first: Setter, second: Setter)
    requires FieldOf(first) == FieldOf(second)
    ensures Assign(Assign(w, first), second) == Assign(w, second)
  {
    var l, r := Assign(Assign(w, first), second), Assign(w, second);
    forall f ensures Read(l, f) == Read(r, f) {
      if f != FieldOf(second) {
        assert Read(l, f) == Read(Assign(w, first), f) == Read(w, f);
      }
    }
    ReadExtensional(l, r);
  }

  /** Writes to different fields do not interfere. */
  lemma AssignCommutes(w: Variables, a: Setter, b: Setter)
    requires FieldOf(a) != FieldOf(b)
    ensures Assign(Assign(w, a), b) == Assign(Assign(w, b), a)
  {
    var l, r := Assign(Assign(w, a), b), Assign(Assign(w, b), a);
    forall f ensures Read(l, f) == Read(r, f) {
      if f == FieldOf(a) {
        assert Read(l, f) == Read(Assign(w, a), f) == Written(a);
      } else if f == FieldOf(b) {
        assert Read(r, f) == Read(Assign(w, b), f) == Written(b);
      } else {
        assert Read(l, f) == Read(Assign(w, a), f) == Read(w, f);
        assert Read(r, f) == Read(Assign(w, b), f) == Read(w, f);
      }
    }
    ReadExtensional(l, r);
  }

  /** Last write wins: a setter call followed by another call to the same
      setter has the effect of the second one alone. */
  lemma LastWriteWins(args: RequiredArgs, before: seq<BuilderOp>, first: Setter, second: Setter, after: seq<BuilderOp>)
    requires FieldOf(first) == FieldOf(second)
    ensures Build(args, before + [SetterCall(first), SetterCall(second)] + after)
            == Build(args, before + [SetterCall(second)] + after)
  {
    var xs: seq<BuilderOp> := [SetterCall(first), SetterCall(second)];
    var ys: seq<BuilderOp> := [SetterCall(second)];
    forall w ensures RunBlock(Assign, w, xs) == RunBlock(Assign, w, ys) {
      RunTwoSetters(Assign, w, xs[0], xs[1]);
      RunBlockSnoc(Assign, w, [], ys[0]);
      assert [] + ys == ys;
      AssignOverwrites(w, first, second);
    }
    ReplaceInBlock(Assign, Initial(args), before, xs, ys, after);
  }

  /** Setter calls on different fields can be made in either order. */
  lemma DistinctFieldsCommute(args: RequiredArgs, before: seq<BuilderOp>, a: Setter, b: Setter, after: seq<BuilderOp>)
    requires FieldOf(a) != FieldOf(b)
    ensures Build(args, before + [SetterCall(a), SetterCall(b)] + after)
            == Build(args, before + [SetterCall(b), SetterCall(a)] + after)
  {
    var xs: seq<BuilderOp> := [SetterCall(a), SetterCall(b)];
    var ys: seq<BuilderOp> := [SetterCall(b), SetterCall(a)];
    forall w ensures RunBlock(Assign, w, xs) == RunBlock(Assign, w, ys) {
      RunTwoSetters(Assign, w, xs[0], xs[1]);
      RunTwoSetters(Assign, w, ys[0], ys[1]);
      AssignCommutes(w, a, b);
    }
    ReplaceInBlock(Assign, Initial(args), before, xs, ys, after);
  }

  /** Assigning a null list is not omitting it: it yields an explicit null. */
  lemma NullIsExplicit(args: RequiredArgs)
    ensures Build(args, [SetterCall(SetDeliveryOptions(None))]).value.deliveryOptions == Value(None)
    ensures Build(args, [SetterCall(SetInventorySpecialties(None))]).value.inventorySpecialties == Value(None)
    ensures Build(args, [SetterCall(SetDeliveryOptions(None))]) != Build(args, [])
  {
    var options: BuilderOp, specialties: BuilderOp :=
      SetterCall(SetDeliveryOptions(None)), SetterCall(SetInventorySpecialties(None));
    RunBlockSnoc(Assign, Initial(args), [], options);
    RunBlockSnoc(Assign, Initial(args), [], specialties);
    assert [] + [options] == [options];
    assert [] + [specialties] == [specialties];
  }

  /** `ref(...)`: the named operation with the variables `build` makes
      from the same arguments and block; the block defaults to empty. */
  function Ref(args: RequiredArgs, block: seq<BuilderOp> := []): (r: Result<MutationRef<Variables>, BuildError>)
    ensures r.Failure? <==> HasGet(block)
    ensures r.Success? ==> r.value.operationName == "CreateShopProfile"
    ensures r.Success? ==> Build(args, block) == Success(r.value.variables)
  {
    var variables :- Build(args, block);
    Success(MutationRef(OperationName, variables))
  }

  /** `ref` with the default block omits both list fields. */
  lemma DefaultRefOmitsOptionals(args: RequiredArgs)
    ensures Ref(args).Success?
    ensures Ref(args).value.variables == Initial(args)
  {
  }
}
