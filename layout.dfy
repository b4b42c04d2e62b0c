/**
 * The layout of the booking request form: the position registry, the ordered plan of
 * fields, and the walk that keeps the data tree and the registry in step
 * (`create_texts`, `booking_data_dict_to_texts`).
 */
module Layout {
  import opened Wrappers
  import opened Values
  import opened Descent
  import opened Formatters

  /** `BOOKING_DATA_POSITIONS`: where each field of the form is drawn. */
  const BookingDataPositions: PosTree := Dict(map[
    "依頼日" := Dict(map[
      "heisei_year" := Leaf(DrawingPosition(62, 747, 9)),
      "month" := Leaf(DrawingPosition(84, 747, 9)),
      "day" := Leaf(DrawingPosition(104, 747, 9))
    ]),
    "利用代表者" := Dict(map[
      "利用代表者名" := Leaf(DrawingPosition(180, 712, 10)),
      "フリガナ" := Leaf(DrawingPosition(180, 732, 10)),
      "性別" := Dict(map[
        "男" := Leaf(DrawingPosition(501, 711, 16)),
        "女" := Leaf(DrawingPosition(535, 711, 16))
      ]),
      "勤務先名" := Leaf(DrawingPosition(180, 690, 9)),
      "代表利用者の方の保険証" := Dict(map[
        "記号" := Leaf(DrawingPosition(490, 690, 10, 2)),
        "番号" := Leaf(DrawingPosition(540, 690, 10, 2))
      ]),
      "連絡先電話番号" := List([
        Dict(map[
          "番号" := List([Leaf(DrawingPosition(225, 668, 10, 2)), Leaf(DrawingPosition(290, 668, 10, 2)),
                         Leaf(DrawingPosition(360, 668, 10, 2))]),
          "種別" := Dict(map[
            "携帯" := Leaf(DrawingPosition(441, 666, 16)),
            "自宅" := Leaf(DrawingPosition(465, 666, 16)),
            "勤務先" := Leaf(DrawingPosition(493, 666, 16))
          ])
        ]),
        Dict(map[
          "番号" := List([Leaf(DrawingPosition(225, 647, 10, 2)), Leaf(DrawingPosition(290, 647, 10, 2)),
                         Leaf(DrawingPosition(360, 647, 10, 2))]),
          "種別" := Dict(map[
            "携帯" := Leaf(DrawingPosition(441, 645, 16)),
            "自宅" := Leaf(DrawingPosition(465, 645, 16)),
            "勤務先" := Leaf(DrawingPosition(493, 645, 16))
          ])
        ])
      ])
    ]),
    "請求書・旅行書類送付先" := Dict(map[
      "請求書送付先住所" := Dict(map[
        "種別" := Dict(map[
          "自宅" := Leaf(DrawingPosition(144, 606, 16)),
          "勤務先" := Leaf(DrawingPosition(177, 606, 16))
        ]),
        "郵便番号" := Leaf(DrawingPosition(217, 609, 8, 2)),
        "住所" := Leaf(DrawingPosition(266, 609, 8))
      ]),
      "旅行書類等送付先住所" := Dict(map[
        "種別" := Dict(map[
          "自宅" := Leaf(DrawingPosition(144, 585, 16)),
          "勤務先" := Leaf(DrawingPosition(177, 585, 16))
        ]),
        "郵便番号" := Leaf(DrawingPosition(217, 589, 8, 2)),
        "住所" := Leaf(DrawingPosition(266, 589, 8))
      ])
    ])
  ])

  /** One `create_texts` call of the form: the field's path and the formatter it is drawn with. */
  datatype Entry = Entry(path: Path, creator: Formatter)

  /** The seventeen `create_texts` calls of `booking_data_dict_to_texts`, in the order they are made. */
  const Plan: seq<Entry> := [
    Entry([Name("依頼日")], BookingDate),
    Entry([Name("利用代表者"), Name("利用代表者名")], Verbatim),
    Entry([Name("利用代表者"), Name("フリガナ")], Verbatim),
    Entry([Name("利用代表者"), Name("性別")], Selection(["男", "女"])),
    Entry([Name("利用代表者"), Name("勤務先名")], Verbatim),
    Entry([Name("利用代表者"), Name("代表利用者の方の保険証"), Name("記号")], Verbatim),
    Entry([Name("利用代表者"), Name("代表利用者の方の保険証"), Name("番号")], Verbatim),
    Entry([Name("利用代表者"), Name("連絡先電話番号"), Index(0), Name("番号")], PhoneNumber),
    Entry([Name("利用代表者"), Name("連絡先電話番号"), Index(0), Name("種別")], Selection(["携帯", "自宅", "勤務先"])),
    Entry([Name("利用代表者"), Name("連絡先電話番号"), Index(1), Name("番号")], PhoneNumber),
    Entry([Name("利用代表者"), Name("連絡先電話番号"), Index(1), Name("種別")], Selection(["携帯", "自宅", "勤務先"])),
    Entry([Name("請求書・旅行書類送付先"), Name("請求書送付先住所"), Name("種別")], Selection(["自宅", "勤務先"])),
    Entry([Name("請求書・旅行書類送付先"), Name("請求書送付先住所"), Name("郵便番号")], Verbatim),
    Entry([Name("請求書・旅行書類送付先"), Name("請求書送付先住所"), Name("住所")], Verbatim),
    Entry([Name("請求書・旅行書類送付先"), Name("旅行書類等送付先住所"), Name("種別")], Selection(["自宅", "勤務先"])),
    Entry([Name("請求書・旅行書類送付先"), Name("旅行書類等送付先住所"), Name("郵便番号")], Verbatim),
    Entry([Name("請求書・旅行書類送付先"), Name("旅行書類等送付先住所"), Name("住所")], Verbatim)
  ]

  /** `create_texts`: the same path looked up in the data and in the registry, then formatted. */
  function FieldTexts(data: DataTree, registry: PosTree, entry: Entry): (r: Result<seq<TextOnPage>, Error>)
  {
    var dataElement :- Descend(data, entry.path);
    var drawingElement :- Descend(registry, entry.path);
    Format(entry.creator, dataElement, drawingElement)
  }

  /** `create_texts`, calling the imperative descent and formatters on the registry constant. */
  method CreateTexts(bookingData: DataTree, targetKeys: Path, creator: Formatter := Verbatim)
    returns (r: Result<seq<TextOnPage>, Error>)
    ensures r == FieldTexts(bookingData, BookingDataPositions, Entry(targetKeys, creator))
    ensures r.Ok? ==> |r.value| == Width(creator)
  {
    var dataElement :- GetDeepElement(bookingData, targetKeys);
    var drawingElement :- GetDeepElement(BookingDataPositions, targetKeys);
    match creator
    case Verbatim => r := CreateText(dataElement, drawingElement);
    case BookingDate => r := CreateBookingDateText(dataElement, drawingElement);
    case Selection(items) => r := ApplySelection(items, dataElement, drawingElement);
    case PhoneNumber => r := PhoneNumberTexts(dataElement, drawingElement);
  }

  /** `ret += part`, where either side may already have raised: the earlier error wins. */
  function Append(ret: Result<seq<TextOnPage>, Error>, part: Result<seq<TextOnPage>, Error>): (r: Result<seq<TextOnPage>, Error>)
  {
    match ret
    case Err(e) => Err(e)
    case Ok(before) =>
      match part
      case Err(e) => Err(e)
      case Ok(after) => Ok(before + after)
  }

  lemma AppendAssociative(a: Result<seq<TextOnPage>, Error>, b: Result<seq<TextOnPage>, Error>, c: Result<seq<TextOnPage>, Error>)
    ensures Append(Append(a, b), c) == Append(a, Append(b, c))
  {
    if a.Ok? && b.Ok? && c.Ok? {
      assert (a.value + b.value) + c.value == a.value + (b.value + c.value);
    }
  }

  /** The placements of a plan: each entry's output appended in plan order; the first error aborts. */
  function Render(data: DataTree, registry: PosTree, plan: seq<Entry>): (r: Result<seq<TextOnPage>, Error>)
    decreases |plan|
  {
    if plan == [] then Ok([])
    else Append(Render(data, registry, plan[..|plan| - 1]), FieldTexts(data, registry, plan[|plan| - 1]))
  }

  /** The number of placements a plan yields when every entry succeeds. */
  function TotalWidth(plan: seq<Entry>): (n: nat)
    decreases |plan|
  {
    if plan == [] then 0 else TotalWidth(plan[..|plan| - 1]) + Width(plan[|plan| - 1].creator)
  }

  lemma TotalWidthStep(plan: seq<Entry>, k: nat)
    requires k < |plan|
    ensures TotalWidth(plan[..k + 1]) == TotalWidth(plan[..k]) + Width(plan[k].creator)
  {
    assert plan[..k + 1][..k] == plan[..k];
  }

  /** The plan yields 23 placements: 3 for the date, 3 for each phone number, 1 for each other field. */
  lemma PlanWidth()
    ensures TotalWidth(Plan) == 23
  {
    assert TotalWidth(Plan[..0]) == 0;
    TotalWidthStep(Plan, 0);
    assert TotalWidth(Plan[..1]) == 3;
    TotalWidthStep(Plan, 1);
    assert TotalWidth(Plan[..2]) == 4;
    TotalWidthStep(Plan, 2);
    assert TotalWidth(Plan[..3]) == 5;
    TotalWidthStep(Plan, 3);
    assert TotalWidth(Plan[..4]) == 6;
    TotalWidthStep(Plan, 4);
    assert TotalWidth(Plan[..5]) == 7;
    TotalWidthStep(Plan, 5);
    assert TotalWidth(Plan[..6]) == 8;
    TotalWidthStep(Plan, 6);
    assert TotalWidth(Plan[..7]) == 9;
    TotalWidthStep(Plan, 7);
    assert TotalWidth(Plan[..8]) == 12;
    TotalWidthStep(Plan, 8);
    assert TotalWidth(Plan[..9]) == 13;
    TotalWidthStep(Plan, 9);
    assert TotalWidth(Plan[..10]) == 16;
    TotalWidthStep(Plan, 10);
    assert TotalWidth(Plan[..11]) == 17;
    TotalWidthStep(Plan, 11);
    assert TotalWidth(Plan[..12]) == 18;
    TotalWidthStep(Plan, 12);
    assert TotalWidth(Plan[..13]) == 19;
    TotalWidthStep(Plan, 13);
    assert TotalWidth(Plan[..14]) == 20;
    TotalWidthStep(Plan, 14);
    assert TotalWidth(Plan[..15]) == 21;
    TotalWidthStep(Plan, 15);
    assert TotalWidth(Plan[..16]) == 22;
    TotalWidthStep(Plan, 16);
    assert TotalWidth(Plan[..17]) == 23;
    assert Plan[..17] == Plan;
  }

  /** Once an entry fails, the whole plan fails with that entry's error: nothing partial is returned. */
  lemma {:induction false} RenderStopsAtFirstError(data: DataTree, registry: PosTree, plan: seq<Entry>, k: nat)
    requires k < |plan|
    requires Render(data, registry, plan[..k]).Ok?
    requires FieldTexts(data, registry, plan[k]).Err?
    ensures Render(data, registry, plan) == Err(FieldTexts(data, registry, plan[k]).error)
    decreases |plan|
  {
    var front := plan[..|plan| - 1];
    if k == |plan| - 1 {
      assert front == plan[..k];
    } else {
      assert front[..k] == plan[..k] && front[k] == plan[k];
      RenderStopsAtFirstError(data, registry, front, k);
    }
  }

  /**
   * Rendering `p1 + p2` is rendering `p1`, then `p2`, and appending: the fragments of
   * the earlier entries are kept as they are and in the same order.
   */
  lemma {:induction false} RenderAppend(data: DataTree, registry: PosTree, p1: seq<Entry>, p2: seq<Entry>)
    ensures Render(data, registry, p1 + p2) == Append(Render(data, registry, p1), Render(data, registry, p2))
    decreases |p2|
  {
    if p2 == [] {
      assert p1 + p2 == p1;
      assert Append(Render(data, registry, p1), Ok([])) == Render(data, registry, p1) by {
        if Render(data, registry, p1).Ok? {
          assert Render(data, registry, p1).value + [] == Render(data, registry, p1).value;
        }
      }
    } else {
      var p := p1 + p2;
      var front := p2[..|p2| - 1];
      var last := FieldTexts(data, registry, p2[|p2| - 1]);
      assert p[..|p| - 1] == p1 + front;
      assert p[|p| - 1] == p2[|p2| - 1];
      RenderAppend(data, registry, p1, front);
      AppendAssociative(Render(data, registry, p1), Render(data, registry, front), last);
    }
  }

  /** A plan renders exactly when every entry renders, and then yields `TotalWidth` placements. */
  lemma {:induction false} RenderSucceeds(data: DataTree, registry: PosTree, plan: seq<Entry>)
    ensures Render(data, registry, plan).Ok? <==>
      forall i :: 0 <= i < |plan| ==> FieldTexts(data, registry, plan[i]).Ok?
    ensures Render(data, registry, plan).Ok? ==> |Render(data, registry, plan).value| == TotalWidth(plan)
    decreases |plan|
  {
    if plan != [] {
      var front := plan[..|plan| - 1];
      RenderSucceeds(data, registry, front);
      assert forall i :: 0 <= i < |front| ==> front[i] == plan[i];
      if Render(data, registry, front).Ok? && FieldTexts(data, registry, plan[|plan| - 1]).Err? {
        assert !FieldTexts(data, registry, plan[|plan| - 1]).Ok?;
      }
    }
  }

  /** Each placement of a rendered plan was produced by one of the plan's entries. */
  lemma {:induction false} RenderComesFromEntries(data: DataTree, registry: PosTree, plan: seq<Entry>, t: TextOnPage)
    requires Render(data, registry, plan).Ok?
    requires t in Render(data, registry, plan).value
    ensures exists i :: (0 <= i < |plan| && FieldTexts(data, registry, plan[i]).Ok? &&
                         t in FieldTexts(data, registry, plan[i]).value)
    decreases |plan|
  {
    var front := plan[..|plan| - 1];
    var last := |plan| - 1;
    if t in FieldTexts(data, registry, plan[last]).value {
    } else {
      RenderComesFromEntries(data, registry, front, t);
      var i :| 0 <= i < |front| && FieldTexts(data, registry, front[i]).Ok? &&
        t in FieldTexts(data, registry, front[i]).value;
      assert front[i] == plan[i];
    }
  }

  /**
   * In a rendered plan, entry `i`'s placements sit right after those of the entries
   * before it: the output is the entries' outputs concatenated in plan order.
   */
  lemma EntryFragmentInPlace(data: DataTree, registry: PosTree, plan: seq<Entry>, i: nat)
    requires i < |plan|
    requires Render(data, registry, plan).Ok?
    ensures TotalWidth(plan[..i]) + Width(plan[i].creator) <= |Render(data, registry, plan).value|
    ensures FieldTexts(data, registry, plan[i]).Ok?
    ensures var offset := TotalWidth(plan[..i]);
      Render(data, registry, plan).value[offset..offset + Width(plan[i].creator)] ==
        FieldTexts(data, registry, plan[i]).value
  {
    var r := Render(data, registry, plan).value;
    var head := plan[..i + 1];
    assert plan == head + plan[i + 1..];
    RenderAppend(data, registry, head, plan[i + 1..]);
    var a := Render(data, registry, head).value;
    assert r[..|a|] == a;
    RenderSucceeds(data, registry, head);
    assert head[..i] == plan[..i] && head[i] == plan[i];
    RenderSucceeds(data, registry, plan[..i]);
    var before := Render(data, registry, plan[..i]).value;
    assert a == before + FieldTexts(data, registry, plan[i]).value;
    assert r[|before|..|a|] == a[|before|..];
  }

  /** `booking_data_dict_to_texts`: `ret += create_texts(...)` for each entry of the plan, in order. */
  method BookingDataDictToTexts(bookingData: DataTree) returns (r: Result<seq<TextOnPage>, Error>)
    ensures r == Render(bookingData, BookingDataPositions, Plan)
  {
    var ret: seq<TextOnPage> := [];
    for k := 0 to |Plan|
      invariant Render(bookingData, BookingDataPositions, Plan[..k]) == Ok(ret)
    {
      var part := CreateTexts(bookingData, Plan[k].path, Plan[k].creator);
      if part.Err? {
        RenderStopsAtFirstError(bookingData, BookingDataPositions, Plan, k);
        return Err(part.error);
      }
      assert Plan[..k + 1][..k] == Plan[..k];
      ret := ret + part.value;
    }
    assert Plan[..|Plan|] == Plan;
    return Ok(ret);
  }
}
