/**
 * The constraints of `BOOKING_DATA_SCHEMA` that the mapping depends on, restated as
 * predicates on the booking data, and the proof that data meeting them is always mapped
 * onto the form without error.
 */
module Schema {
  import opened Wrappers
  import opened Values
  import opened Descent
  import opened Strings
  import opened Formatters
  import opened Layout

  /** What the schema demands of one leaf field. */
  datatype Rule =
    | DateField                           // a date
    | StringField                         // a string
    | IntegerField                        // an integer
    | AllowedField(allowed: seq<string>)  // a string from a closed list of values
    | PhoneField                          // a string matching the phone-number pattern

  datatype Field = Field(path: Path, rule: Rule)

  /** The schema's `allowed` lists. */
  const SexAllowed: seq<string> := ["男", "女"]
  const PhoneKindAllowed: seq<string> := ["携帯", "自宅", "勤務先"]
  const AddressKindAllowed: seq<string> := ["自宅", "勤務先"]

  /**
   * The schema's leaf fields, in schema order, with the list of phone numbers, which the
   * schema fixes at exactly two entries, expanded to its indices 0 and 1.
   */
  const SchemaLeaves: seq<Field> := [
    Field([Name("依頼日")], DateField),
    Field([Name("利用代表者"), Name("利用代表者名")], StringField),
    Field([Name("利用代表者"), Name("フリガナ")], StringField),
    Field([Name("利用代表者"), Name("性別")], AllowedField(SexAllowed)),
    Field([Name("利用代表者"), Name("勤務先名")], StringField),
    Field([Name("利用代表者"), Name("代表利用者の方の保険証"), Name("記号")], IntegerField),
    Field([Name("利用代表者"), Name("代表利用者の方の保険証"), Name("番号")], IntegerField),
    Field([Name("利用代表者"), Name("連絡先電話番号"), Index(0), Name("番号")], PhoneField),
    Field([Name("利用代表者"), Name("連絡先電話番号"), Index(0), Name("種別")], AllowedField(PhoneKindAllowed)),
    Field([Name("利用代表者"), Name("連絡先電話番号"), Index(1), Name("番号")], PhoneField),
    Field([Name("利用代表者"), Name("連絡先電話番号"), Index(1), Name("種別")], AllowedField(PhoneKindAllowed)),
    Field([Name("請求書・旅行書類送付先"), Name("請求書送付先住所"), Name("種別")], AllowedField(AddressKindAllowed)),
    Field([Name("請求書・旅行書類送付先"), Name("請求書送付先住所"), Name("郵便番号")], StringField),
    Field([Name("請求書・旅行書類送付先"), Name("請求書送付先住所"), Name("住所")], StringField),
    Field([Name("請求書・旅行書類送付先"), Name("旅行書類等送付先住所"), Name("種別")], AllowedField(AddressKindAllowed)),
    Field([Name("請求書・旅行書類送付先"), Name("旅行書類等送付先住所"), Name("郵便番号")], StringField),
    Field([Name("請求書・旅行書類送付先"), Name("旅行書類等送付先住所"), Name("住所")], StringField)
  ]

  /** A value meets a field's type, `allowed` and `regex` constraints. */
  predicate Satisfies(v: DataTree, rule: Rule) {
    match rule
    case DateField => v.Leaf? && v.value.DateValue?
    case StringField => v.Leaf? && v.value.StrValue?
    case IntegerField => v.Leaf? && v.value.IntValue?
    case AllowedField(allowed) => v.Leaf? && v.value.StrValue? && v.value.s in allowed
    case PhoneField => v.Leaf? && v.value.StrValue? && PhonePattern(v.value.s)
  }

  /** Every leaf field of the schema is present in the data and meets its constraints. */
  predicate Conforms(data: DataTree) {
    forall i :: 0 <= i < |SchemaLeaves| ==>
      Descend(data, SchemaLeaves[i].path).Ok? && Satisfies(Descend(data, SchemaLeaves[i].path).value, SchemaLeaves[i].rule)
  }

  /** The formatter the plan uses for a field agrees with the field's schema rule. */
  predicate Compatible(rule: Rule, f: Formatter) {
    match rule
    case DateField => f == BookingDate
    case StringField => f == Verbatim
    case IntegerField => f == Verbatim
    case AllowedField(allowed) => f == Selection(allowed)
    case PhoneField => f == PhoneNumber
  }

  /** The position node has the shape the formatter looks up, and every position it picks is drawable. */
  predicate Fits(f: Formatter, positions: PosTree) {
    match f
    case Verbatim => positions.Leaf?
    case BookingDate =>
      && positions.Dict?
      && "heisei_year" in positions.entries && positions.entries["heisei_year"].Leaf?
      && "month" in positions.entries && positions.entries["month"].Leaf?
      && "day" in positions.entries && positions.entries["day"].Leaf?
    case Selection(items) =>
      positions.Dict? && forall v :: v in items ==> v in positions.entries && positions.entries[v].Leaf?
    case PhoneNumber =>
      positions.List? && |positions.items| == 3 && forall k :: 0 <= k < 3 ==> positions.items[k].Leaf?
  }

  /**
   * The plan visits exactly the schema's leaf fields, in schema order, and a selection
   * field's selectable list is exactly the schema's `allowed` list for that field.
   */
  lemma PlanFollowsSchema()
    ensures |Plan| == |SchemaLeaves| == 17
    ensures forall i :: 0 <= i < |Plan| ==>
      Plan[i].path == SchemaLeaves[i].path && Compatible(SchemaLeaves[i].rule, Plan[i].creator)
    ensures forall i :: 0 <= i < |Plan| && Plan[i].creator.Selection? ==>
      SchemaLeaves[i].rule == AllowedField(Plan[i].creator.selectableItems)
  {
  }

  /** Plan entry `i` finds a node of the registry with the shape its formatter needs. */
  predicate RegistryFitsEntry(i: nat)
    requires i < |Plan|
  {
    Descend(BookingDataPositions, Plan[i].path).Ok? &&
    Fits(Plan[i].creator, Descend(BookingDataPositions, Plan[i].path).value)
  }

  lemma RegistryFitsRequestDate()
    ensures forall i :: 0 <= i < 1 ==> RegistryFitsEntry(i)
  {
    assert RegistryFitsEntry(0);
  }

  lemma RegistryFitsRepresentativeName()
    ensures forall i :: 1 <= i < 3 ==> RegistryFitsEntry(i)
  {
    assert RegistryFitsEntry(1);
    assert RegistryFitsEntry(2);
  }

  lemma RegistryFitsRepresentativeSex()
    ensures forall i :: 3 <= i < 4 ==> RegistryFitsEntry(i)
  {
    assert RegistryFitsEntry(3);
  }

  lemma RegistryFitsEmployerAndInsurance()
    ensures forall i :: 4 <= i < 7 ==> RegistryFitsEntry(i)
  {
    assert RegistryFitsEntry(4);
    assert RegistryFitsEntry(5);
    assert RegistryFitsEntry(6);
  }

  lemma RegistryFitsFirstPhone()
    ensures forall i :: 7 <= i < 9 ==> RegistryFitsEntry(i)
  {
    assert RegistryFitsEntry(7);
    assert RegistryFitsEntry(8);
  }

  lemma RegistryFitsSecondPhone()
    ensures forall i :: 9 <= i < 11 ==> RegistryFitsEntry(i)
  {
    assert RegistryFitsEntry(9);
    assert RegistryFitsEntry(10);
  }

  lemma RegistryFitsInvoiceAddress()
    ensures forall i :: 11 <= i < 14 ==> RegistryFitsEntry(i)
  {
    assert RegistryFitsEntry(11);
    assert RegistryFitsEntry(12);
    assert RegistryFitsEntry(13);
  }

  lemma RegistryFitsDocumentsAddress()
    ensures forall i :: 14 <= i < 17 ==> RegistryFitsEntry(i)
  {
    assert RegistryFitsEntry(14);
    assert RegistryFitsEntry(15);
    assert RegistryFitsEntry(16);
  }

  /**
   * Every path of the plan exists in the position registry with the shape its formatter
   * needs: each selectable value is a key of its position map, and each phone number
   * has a list of exactly three positions.
   */
  lemma RegistryFitsPlan()
    ensures forall i :: 0 <= i < |Plan| ==> RegistryFitsEntry(i)
  {
    RegistryFitsRequestDate();
    RegistryFitsRepresentativeName();
    RegistryFitsRepresentativeSex();
    RegistryFitsEmployerAndInsurance();
    RegistryFitsFirstPhone();
    RegistryFitsSecondPhone();
    RegistryFitsInvoiceAddress();
    RegistryFitsDocumentsAddress();
  }

  /** A value meeting its rule, drawn with a compatible formatter on a fitting position node, never fails. */
  lemma FormatSucceeds(rule: Rule, f: Formatter, v: DataTree, positions: PosTree)
    requires Satisfies(v, rule) && Compatible(rule, f) && Fits(f, positions)
    ensures Format(f, v, positions).Ok?
    ensures forall t :: t in Format(f, v, positions).value ==> Drawable(t)
  {
    match rule
    case PhoneField =>
      PhonePatternSplits(v.value.s);
    case AllowedField(allowed) =>
    case _ =>
  }

  /**
   * Booking data that meets the schema is mapped onto the form without error, into
   * exactly 23 placements, each at a drawable position.
   */
  lemma ConformingDataRenders(data: DataTree)
    requires Conforms(data)
    ensures Render(data, BookingDataPositions, Plan).Ok?
    ensures |Render(data, BookingDataPositions, Plan).value| == 23
    ensures forall t :: t in Render(data, BookingDataPositions, Plan).value ==> Drawable(t)
  {
    PlanFollowsSchema();
    RegistryFitsPlan();
    forall i | 0 <= i < |Plan|
      ensures FieldTexts(data, BookingDataPositions, Plan[i]).Ok?
      ensures forall t :: t in FieldTexts(data, BookingDataPositions, Plan[i]).value ==> Drawable(t)
    {
      assert RegistryFitsEntry(i);
      var positions := Descend(BookingDataPositions, Plan[i].path).value;
      FormatSucceeds(SchemaLeaves[i].rule, Plan[i].creator, Descend(data, Plan[i].path).value, positions);
    }
    RenderSucceeds(data, BookingDataPositions, Plan);
    PlanWidth();
    forall t | t in Render(data, BookingDataPositions, Plan).value
      ensures Drawable(t)
    {
      RenderComesFromEntries(data, BookingDataPositions, Plan, t);
    }
  }

  /**
   * The plan visits the second phone number at the fixed index 1, whatever the length of
   * the data's list: with a single phone number the whole mapping fails with IndexError(1).
   */
  lemma OnePhoneNumberIsNotEnough(data: DataTree, phone: DataTree)
    requires Descend(data, [Name("利用代表者"), Name("連絡先電話番号")]) == Ok(List([phone]))
    ensures FieldTexts(data, BookingDataPositions, Plan[9]) == Err(IndexError(1))
    ensures !Render(data, BookingDataPositions, Plan).Ok?
  {
    var path := Plan[9].path;
    var list := List([phone]);
    assert path[..2] == [Name("利用代表者"), Name("連絡先電話番号")];
    assert Subscript(list, path[2]) == Err(IndexError(1));
    DescendStopsAtFailingStep(data, path, 2, list, IndexError(1));
    RenderSucceeds(data, BookingDataPositions, Plan);
  }
}
