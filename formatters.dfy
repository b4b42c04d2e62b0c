/**
 * The per-field formatters of the booking form: each turns one value of the booking
 * data and the matching node of the position registry into placements.
 */
module Formatters {
  import opened Wrappers
  import opened Values
  import opened Descent
  import opened Strings

  /** Western year minus this offset is the year of the Heisei era. */
  const HeiseiOffset := 1988

  /** The glyph drawn at the position of the selected value. */
  const Mark := "○"

  /** Python `str(v)` of a scalar; the repr of a dict or list is not modelled. */
  function StringForm(v: DataTree): (r: Result<string, Error>)
  {
    match v
    case Leaf(StrValue(s)) => Ok(s)
    case Leaf(IntValue(i)) => Ok(IntToString(i))
    case Leaf(DateValue(d)) => Ok(DateToString(d.year, d.month, d.day))
    case _ => Err(NoStringForm)
  }

  /** `create_text`: the value's string form, at the given position. */
  function CreateText(text: DataTree, position: PosTree): (r: Result<seq<TextOnPage>, Error>)
  {
    var s :- StringForm(text);
    Ok([TextOnPage(s, position)])
  }

  /**
   * `create_text` yields one placement at the position it was given; a string is drawn
   * verbatim, an integer as its decimal form, which reads back as the integer, and a date
   * in the ISO form `YYYY-MM-DD`, whose digit groups read back as its year, month and day.
   */
  lemma CreateTextSpec(text: DataTree, position: PosTree)
    ensures CreateText(text, position).Ok? <==> text.Leaf?
    ensures CreateText(text, position).Ok? ==>
      var r := CreateText(text, position).value;
      && |r| == 1 && r[0].position == position
      && (text.value.StrValue? ==> r[0].text == text.value.s)
      && (text.value.IntValue? && text.value.i >= 0 ==>
            AllDigits(r[0].text) && DigitsValue(r[0].text) == text.value.i)
      && (text.value.IntValue? && text.value.i < 0 ==>
            r[0].text[0] == '-' && AllDigits(r[0].text[1..]) && DigitsValue(r[0].text[1..]) == -text.value.i)
      && (text.value.DateValue? && 0 <= text.value.date.year <= 9999 &&
          0 <= text.value.date.month <= 99 && 0 <= text.value.date.day <= 99 ==>
            var t := r[0].text;
            var d := text.value.date;
            && |t| == 10 && t[4] == '-' && t[7] == '-'
            && AllDigits(t[..4]) && DigitsValue(t[..4]) == d.year
            && AllDigits(t[5..7]) && DigitsValue(t[5..7]) == d.month
            && AllDigits(t[8..]) && DigitsValue(t[8..]) == d.day)
  {
    if text.Leaf? && text.value.IntValue? {
      IntToStringDenotes(text.value.i);
    }
    if text.Leaf? && text.value.DateValue? {
      var d := text.value.date;
      if 0 <= d.year <= 9999 && 0 <= d.month <= 99 && 0 <= d.day <= 99 {
        DateToStringDenotes(d.year, d.month, d.day);
      }
    }
  }

  /** `create_booking_date_text`: Heisei year, month and day at their named positions. */
  function DateTexts(bookingDate: DataTree, positions: PosTree): (r: Result<seq<TextOnPage>, Error>)
  {
    if !(bookingDate.Leaf? && bookingDate.value.DateValue?) then Err(AttributeError("year"))
    else
      var d := bookingDate.value.date;
      var yearPosition :- Subscript(positions, Name("heisei_year"));
      var monthPosition :- Subscript(positions, Name("month"));
      var dayPosition :- Subscript(positions, Name("day"));
      Ok([TextOnPage(IntToString(d.year - HeiseiOffset), yearPosition),
          TextOnPage(IntToString(d.month), monthPosition),
          TextOnPage(IntToString(d.day), dayPosition)])
  }

  /**
   * The date formatter succeeds exactly on a date with all three named positions, and
   * then yields the era year, the month and the day, in that order, each at its own position;
   * the year drawn reads back as the western year minus 1988.
   */
  lemma DateTextsSpec(bookingDate: DataTree, positions: PosTree)
    ensures DateTexts(bookingDate, positions).Ok? <==>
      && bookingDate.Leaf? && bookingDate.value.DateValue?
      && positions.Dict? && "heisei_year" in positions.entries
      && "month" in positions.entries && "day" in positions.entries
    ensures DateTexts(bookingDate, positions).Ok? ==>
      var r := DateTexts(bookingDate, positions).value;
      var d := bookingDate.value.date;
      && |r| == 3
      && r[0] == TextOnPage(IntToString(d.year - 1988), positions.entries["heisei_year"])
      && r[1] == TextOnPage(IntToString(d.month), positions.entries["month"])
      && r[2] == TextOnPage(IntToString(d.day), positions.entries["day"])
      && (d.year >= 1988 ==> AllDigits(r[0].text) && DigitsValue(r[0].text) == d.year - 1988)
    ensures !(bookingDate.Leaf? && bookingDate.value.DateValue?) ==>
      DateTexts(bookingDate, positions) == Err(AttributeError("year"))
  {
    if bookingDate.Leaf? && bookingDate.value.DateValue? {
      IntToStringDenotes(bookingDate.value.date.year - HeiseiOffset);
    }
  }

  /** `create_booking_date_text`: builds its result with three appends. */
  method CreateBookingDateText(bookingDate: DataTree, positions: PosTree) returns (r: Result<seq<TextOnPage>, Error>)
    ensures r == DateTexts(bookingDate, positions)
  {
    if !(bookingDate.Leaf? && bookingDate.value.DateValue?) {
      return Err(AttributeError("year"));
    }
    var d := bookingDate.value.date;
    var ret: seq<TextOnPage> := [];
    var heiseiYear := d.year - HeiseiOffset;
    var yearPosition :- Subscript(positions, Name("heisei_year"));
    ret := ret + [TextOnPage(IntToString(heiseiYear), yearPosition)];
    var monthPosition :- Subscript(positions, Name("month"));
    ret := ret + [TextOnPage(IntToString(d.month), monthPosition)];
    var dayPosition :- Subscript(positions, Name("day"));
    ret := ret + [TextOnPage(IntToString(d.day), dayPosition)];
    assert ret == [TextOnPage(IntToString(heiseiYear), yearPosition),
                   TextOnPage(IntToString(d.month), monthPosition),
                   TextOnPage(IntToString(d.day), dayPosition)];
    return Ok(ret);
  }

  /** The selection closure: the mark at the position keyed by the value, if it is selectable. */
  function SelectionTexts(selectableItems: seq<string>, text: DataTree, positions: PosTree): (r: Result<seq<TextOnPage>, Error>)
  {
    if text.Leaf? && text.value.StrValue? && text.value.s in selectableItems then
      var position :- Subscript(positions, Name(text.value.s));
      Ok([TextOnPage(Mark, position)])
    else
      Err(RuntimeError(selectableItems, text))
  }

  /**
   * A selectable value yields exactly one mark, at its own position and nowhere else;
   * any value that is not one of the selectable strings raises.
   */
  lemma SelectionTextsSpec(selectableItems: seq<string>, text: DataTree, positions: PosTree)
    ensures !(text.Leaf? && text.value.StrValue? && text.value.s in selectableItems) ==>
      SelectionTexts(selectableItems, text, positions) == Err(RuntimeError(selectableItems, text))
    ensures text.Leaf? && text.value.StrValue? && text.value.s in selectableItems ==>
      && (SelectionTexts(selectableItems, text, positions).Ok? <==>
            positions.Dict? && text.value.s in positions.entries)
      && (positions.Dict? && text.value.s in positions.entries ==>
            SelectionTexts(selectableItems, text, positions) ==
              Ok([TextOnPage(Mark, positions.entries[text.value.s])]))
  {
  }

  /** The selection's output depends only on the position of the selected value. */
  lemma SelectionIgnoresOtherPositions(selectableItems: seq<string>, v: string, p: PosTree, q: PosTree)
    requires p.Dict? && q.Dict?
    requires v in p.entries && v in q.entries && p.entries[v] == q.entries[v]
    ensures SelectionTexts(selectableItems, Leaf(StrValue(v)), p).Ok? <==>
      SelectionTexts(selectableItems, Leaf(StrValue(v)), q).Ok?
    ensures SelectionTexts(selectableItems, Leaf(StrValue(v)), p) == SelectionTexts(selectableItems, Leaf(StrValue(v)), q)
  {
  }

  /** The closure made by `generate_selection_creator`: a loop with an early return. */
  method ApplySelection(selectableItems: seq<string>, text: DataTree, positions: PosTree) returns (r: Result<seq<TextOnPage>, Error>)
    ensures r == SelectionTexts(selectableItems, text, positions)
  {
    for i := 0 to |selectableItems|
      invariant forall j :: 0 <= j < i ==> text != Leaf(StrValue(selectableItems[j]))
    {
      var item := selectableItems[i];
      if text == Leaf(StrValue(item)) {
        var position :- Subscript(positions, Name(item));
        return Ok([TextOnPage(Mark, position)]);
      }
    }
    return Err(RuntimeError(selectableItems, text));
  }

  /** `create_phone_number_text`: the three '-'-separated parts at positions 0, 1 and 2. */
  function PhoneNumberTexts(text: DataTree, positions: PosTree): (r: Result<seq<TextOnPage>, Error>)
  {
    if !(text.Leaf? && text.value.StrValue?) then Err(AttributeError("split"))
    else
      var parts := Split(text.value.s, '-');
      if |parts| != 3 then Err(AssertionError(|parts|))
      else
        var p0 :- Subscript(positions, Index(0));
        var p1 :- Subscript(positions, Index(1));
        var p2 :- Subscript(positions, Index(2));
        Ok([TextOnPage(parts[0], p0), TextOnPage(parts[1], p1), TextOnPage(parts[2], p2)])
  }

  /**
   * A value that is not a string raises `AttributeError`, as `text.split` does. On a
   * string the phone formatter fails exactly when the string does not have three
   * '-'-separated parts, or the positions are not a list of at least three; otherwise it
   * yields three hyphen-free texts, left to right at positions 0, 1 and 2, that joined
   * with '-' give back the string.
   */
  lemma PhoneNumberTextsSpec(text: DataTree, positions: PosTree)
    ensures !(text.Leaf? && text.value.StrValue?) ==>
      PhoneNumberTexts(text, positions) == Err(AttributeError("split"))
    ensures text.Leaf? && text.value.StrValue? && |Split(text.value.s, '-')| != 3 ==>
      PhoneNumberTexts(text, positions) == Err(AssertionError(|Split(text.value.s, '-')|))
    ensures text.Leaf? && text.value.StrValue? && |Split(text.value.s, '-')| == 3 ==>
      (PhoneNumberTexts(text, positions).Ok? <==> positions.List? && |positions.items| >= 3)
    ensures PhoneNumberTexts(text, positions).Ok? ==>
      var r := PhoneNumberTexts(text, positions).value;
      && text.Leaf? && text.value.StrValue?
      && |r| == 3
      && (forall k :: 0 <= k < 3 ==> r[k].position == positions.items[k] && '-' !in r[k].text)
      && Join([r[0].text, r[1].text, r[2].text], '-') == text.value.s
  {
    if text.Leaf? && text.value.StrValue? {
      var s := text.value.s;
      var parts := Split(s, '-');
      JoinSplit(s, '-');
      SplitPartsLackSeparator(s, '-');
      if |parts| == 3 && positions.List? && |positions.items| >= 3 {
        var r := PhoneNumberTexts(text, positions).value;
        assert [r[0].text, r[1].text, r[2].text] == parts;
      }
    }
  }

  /** A string "a-b-c" of three hyphen-free parts is drawn as "a", "b", "c", in that order. */
  lemma PhoneNumberOfParts(a: string, b: string, c: string, positions: PosTree)
    requires '-' !in a && '-' !in b && '-' !in c
    requires positions.List? && |positions.items| >= 3
    ensures PhoneNumberTexts(Leaf(StrValue(a + "-" + b + "-" + c)), positions) ==
      Ok([TextOnPage(a, positions.items[0]), TextOnPage(b, positions.items[1]), TextOnPage(c, positions.items[2])])
  {
    SplitOfThree(a, b, c, '-');
  }

  /** The formatters a field of the plan can be rendered with (`creator` in `create_texts`). */
  datatype Formatter = Verbatim | BookingDate | Selection(selectableItems: seq<string>) | PhoneNumber

  /** How many placements a formatter yields when it succeeds. */
  function Width(f: Formatter): (n: nat)
  {
    match f
    case Verbatim => 1
    case BookingDate => 3
    case Selection(_) => 1
    case PhoneNumber => 3
  }

  /** Applies a formatter to a value and its position node; on success it yields `Width(f)` placements. */
  function Format(f: Formatter, value: DataTree, positions: PosTree): (r: Result<seq<TextOnPage>, Error>)
    ensures r.Ok? ==> |r.value| == Width(f)
  {
    match f
    case Verbatim => CreateText(value, positions)
    case BookingDate => DateTexts(value, positions)
    case Selection(items) => SelectionTexts(items, value, positions)
    case PhoneNumber => PhoneNumberTexts(value, positions)
  }
}
