# Booking request form field mapping, in Dafny

This project models the field-mapping engine of `its_easy/tour/pdf.py`. The engine fills
a paper booking request form for a travel arrangement. Its input is a nested booking document:
dicts, lists and scalars keyed by Japanese field names. Beside it sits a tree of the same shape,
`BOOKING_DATA_POSITIONS`, which gives the drawing positions on the form page. The output is the
ordered list of `TextOnPage(text, position)` placements that a renderer draws onto the form.

Modules, one per part of the engine:

- `Wrappers`: a `Result` type. Python exceptions become `Err` values, and the first one aborts
  the mapping, as a raise does.
- `Values`: the data model.
  - One generic `Tree<L>`, with `Leaf`, `Dict(map<string, Tree<L>>)` and `List(seq<Tree<L>>)`,
    stands for both trees. The booking data is a `Tree<Scalar>`; scalars are strings, integers
    and dates given as three integers. The registry is a `Tree<DrawingPosition>`.
  - A `TextOnPage` keeps whatever registry node it was paired with, as the Python object does.
    `Drawable` says that node is a `DrawingPosition`.
  - `Error` lists the exceptions the mapping can raise.
- `Descent`: one subscript step (`node[key]`, using Python's negative-index convention) and
  `get_deep_element`. The step is shared by the data tree and the registry.
- `Strings`: Python's `str()` of integers and dates, `%0<width>d` zero padding, and `str.split` with `join` as its partner.
  It also restates the schema's phone-number regex `^\d+-\d+-\d+$` as a predicate.
- `Formatters`: `create_text`, `create_booking_date_text`, the closure made by
  `generate_selection_creator`, and `create_phone_number_text`.
  - The "creator" passed to `create_texts` becomes a closed `Formatter` datatype, applied by
    `Format`.
  - The two formatters that loop or append are methods, each proved equal to its specification
    function.
- `Layout`: the registry constant, and the 17 `create_texts` calls of `booking_data_dict_to_texts`
  as the `Plan` constant, in call order.
  - `Render` is the walk over the plan, specified as a left fold of `ret += part`.
  - The methods `CreateTexts` and `BookingDataDictToTexts` are proved equal to `FieldTexts` and
    `Render`.
- `Schema`: the parts of `BOOKING_DATA_SCHEMA` that the mapping depends on: leaf types, `allowed`
  lists and the phone regex. They are stated as a `Conforms` predicate, and the module proves that
  conforming data always maps to 23 drawable placements.

Facts about `pdf.py` that the model keeps as the code has them:

- The Heisei year is `str(year - 1988)` with no check. A year before 1989 gives an era year of zero or less, and it is drawn, not rejected.
- The plan visits the phone numbers at the fixed indices 0 and 1, whatever the length of the data's list. With one phone number, entry 9 of the plan (the second number) raises `IndexError(1)`, so the whole mapping fails: with that error, unless an earlier entry has already failed (`Schema.OnePhoneNumberIsNotEnough`).
- The phone formatter always asks for exactly 3 parts, whatever the length of the position list.

## Model

| member | source | states |
|---|---|---|
| `Descent.Subscript` | its_easy/tour/pdf.py:223 | `node[key]` succeeds exactly for a present dict key, or a list index in `-len..len-1`. A dict yields the key's value. A list yields `items[i]`, or `items[i + len]` for a negative `i`. A dict raises `KeyError` for any other key, a list raises `IndexError` for an index out of range, and a leaf, or a list subscripted by name, raises `TypeError`. |
| `Descent.DescendAppend` | its_easy/tour/pdf.py:220-224 | The empty path returns the tree itself. Descending by `p1 + p2` equals descending by `p2` from the node `p1` reaches, and an error on `p1` is kept. |
| `Descent.DescendStopsAtFailingStep` | its_easy/tour/pdf.py:220-224 | If the first `k` keys reach a node whose subscript by key `k` raises, the whole lookup raises that error; later keys are never used. |
| `Descent.GetDeepElement` | its_easy/tour/pdf.py:220-224 | The loop reassigning `ret = ret[key]` returns what `Descend` gives, one key per step in path order. |
| `Strings.NatToStringDenotes` | its_easy/tour/pdf.py:228 | `str(n)` of a natural number is a non-empty run of digits, with no leading zero unless it is "0", that denotes `n`. |
| `Strings.IntToStringDenotes` | its_easy/tour/pdf.py:234-236 | `str(i)` starts with '-' exactly when `i` is negative. The remaining digits denote `|i|`. |
| `Strings.PaddedDenotes` | its_easy/tour/pdf.py:228 | `%0<width>d` of a natural number with at most `width` digits is exactly `width` digits that denote the number. |
| `Strings.DateToStringDenotes` | its_easy/tour/pdf.py:228 | For a year in 0–9999 and a month and day in 0–99, `str(date)` is 10 characters: '-' at positions 4 and 7, and three digit groups that denote the year, the month and the day. |
| `Strings.IntToStringInjective` | its_easy/tour/pdf.py:234-236 | Two integers with the same `str()` are equal, so each drawn number identifies its value. |
| `Strings.Split` | its_easy/tour/pdf.py:251 | `str.split` on one separator always yields at least one part. |
| `Strings.JoinSplit` | its_easy/tour/pdf.py:251 | Joining the parts of `s.split(sep)` with `sep` reproduces `s`. |
| `Strings.SplitPartsLackSeparator` | its_easy/tour/pdf.py:251 | No part of a split contains the separator. |
| `Strings.SplitJoin` | its_easy/tour/pdf.py:251 | Splitting the join of separator-free parts gives back exactly those parts, in order. |
| `Strings.SplitOfThree` | its_easy/tour/pdf.py:251-252 | `a-b-c`, with no '-' in `a`, `b` or `c`, splits into exactly `[a, b, c]`. |
| `Strings.PhonePatternSplits` | its_easy/tour/pdf.py:66 | Take any string matching `^\d+-\d+-\d+$` as Python's `re.match` reads it, where `$` also accepts one final '\n'. It splits on '-' into exactly 3 parts: two runs of digits, then a run of digits with at most one final '\n'. So the `assert len(...) == 3` on line 252 holds for schema-valid data. |
| `Strings.PhonePatternAdmitsFinalNewline` | its_easy/tour/pdf.py:66 | "03-1234-5678\n" matches the schema's phone pattern. Its split keeps the '\n' in the third part, `["03", "1234", "5678\n"]`. |
| `Formatters.CreateTextSpec` | its_easy/tour/pdf.py:227-228 | `create_text` yields exactly one placement, at the given position unchanged. A string is drawn verbatim and an integer as a decimal text that reads back as the integer. A date with year 0–9999 and month and day 0–99 is drawn as 10 characters `YYYY-MM-DD`: '-' at positions 4 and 7, and three digit groups that read back as the year, the month and the day. |
| `Formatters.DateTextsSpec` | its_easy/tour/pdf.py:231-237 | The date formatter succeeds exactly on a date whose positions have `heisei_year`, `month` and `day`. It then yields `str(year - 1988)`, `str(month)` and `str(day)`, in that order, at those three positions. A non-date raises `AttributeError`. |
| `Formatters.CreateBookingDateText` | its_easy/tour/pdf.py:231-237 | The three appends build exactly what `DateTexts` specifies, with the same errors in the same order. |
| `Formatters.SelectionTextsSpec` | its_easy/tour/pdf.py:240-246 | A value that is one of the selectable strings yields exactly one "○" at `positions[value]`, or fails only because that position is missing. Any other value raises `RuntimeError`. |
| `Formatters.SelectionIgnoresOtherPositions` | its_easy/tour/pdf.py:240-246 | For any value, two position maps that agree on that value's position give the same output. |
| `Formatters.ApplySelection` | its_easy/tour/pdf.py:241-245 | The `for` loop with an early return computes exactly `SelectionTexts`. It returns the mark for the first item equal to the value, and raises if none is. |
| `Formatters.PhoneNumberTextsSpec` | its_easy/tour/pdf.py:249-253 | A value that is not a string raises `AttributeError`, as `text.split` does. A string whose split is not 3 parts raises `AssertionError`. With 3 parts the formatter succeeds exactly when the positions are a list of at least 3. It then yields 3 hyphen-free texts at `positions[0..2]`, and their join with '-' is the input. |
| `Formatters.PhoneNumberOfParts` | its_easy/tour/pdf.py:249-253 | `a-b-c`, with hyphen-free parts, is drawn as `a`, `b` and `c`, left to right at `positions[0]`, `positions[1]` and `positions[2]`. |
| `Formatters.Format` | its_easy/tour/pdf.py:259 | When a formatter succeeds it yields its fixed number of placements: 1 for text and selection, 3 for a date or a phone number. |
| `Layout.CreateTexts` | its_easy/tour/pdf.py:256-259 | Looking up the path in the data, then in the registry, then applying the creator gives `FieldTexts` on the registry constant. |
| `Layout.PlanWidth` | its_easy/tour/pdf.py:190-217 | The 17 plan entries yield 23 placements: 3 for the date, 3 for each phone number and 1 for each other field. |
| `Layout.RenderStopsAtFirstError` | its_easy/tour/pdf.py:190-217 | If entries `0..k-1` succeed and entry `k` fails, the whole mapping fails with entry `k`'s error. No partial list is returned. |
| `Layout.RenderAppend` | its_easy/tour/pdf.py:190-217 | Rendering `p1 + p2` is rendering `p1`, then `p2`, and appending. Earlier fragments are neither changed nor reordered, and the earlier error wins. |
| `Layout.RenderSucceeds` | its_easy/tour/pdf.py:190-217 | The plan renders exactly when every entry does, and then yields `TotalWidth(plan)` placements. |
| `Layout.RenderComesFromEntries` | its_easy/tour/pdf.py:190-217 | Every placement in the output was produced by some entry of the plan. |
| `Layout.EntryFragmentInPlace` | its_easy/tour/pdf.py:190-217 | In a successful render, entry `i`'s placements sit right after those of entries `0..i-1`. The output is the entries' outputs concatenated in plan order. |
| `Layout.BookingDataDictToTexts` | its_easy/tour/pdf.py:190-217 | Appending each `create_texts` result in turn computes exactly `Render` over the plan, with the same first error. |
| `Schema.PlanFollowsSchema` | its_easy/tour/pdf.py:194-214 | The plan visits the schema's 17 leaf fields in schema order, each with a formatter fit for its type. Each selectable list equals that field's `allowed` list from lines 47, 67, 82 and 91. |
| `Schema.RegistryFitsRequestDate` | its_easy/tour/pdf.py:102-106 | The request date's positions have `heisei_year`, `month` and `day`. |
| `Schema.RegistryFitsRepresentativeName` | its_easy/tour/pdf.py:107-108 | The name and furigana have single positions. |
| `Schema.RegistryFitsRepresentativeSex` | its_easy/tour/pdf.py:109-112 | Each selectable sex, `男` and `女`, has its own mark position. |
| `Schema.RegistryFitsEmployerAndInsurance` | its_easy/tour/pdf.py:114-118 | The employer and the insurance card's symbol and number have single positions. |
| `Schema.RegistryFitsFirstPhone` | its_easy/tour/pdf.py:120-127 | The first phone number has a list of exactly 3 positions. Each selectable phone kind has a mark position. |
| `Schema.RegistryFitsSecondPhone` | its_easy/tour/pdf.py:128-135 | The same holds for the second phone number. |
| `Schema.RegistryFitsInvoiceAddress` | its_easy/tour/pdf.py:139-146 | Each selectable kind of invoice address has a mark position. The postcode and address have single positions. |
| `Schema.RegistryFitsDocumentsAddress` | its_easy/tour/pdf.py:147-154 | The same holds for the travel documents address. |
| `Schema.RegistryFitsPlan` | its_easy/tour/pdf.py:101-156 | Every path of the plan exists in the registry with the shape its formatter needs. |
| `Schema.FormatSucceeds` | its_easy/tour/pdf.py:227-253 | A value meeting its schema rule, formatted by the matching formatter on a fitting position node, never fails, and every placement it yields is drawable. |
| `Schema.ConformingDataRenders` | its_easy/tour/pdf.py:167-168 | Booking data that meets the schema's types, `allowed` lists and phone pattern, including a phone number ending in one '\n', maps without error to exactly 23 placements, each at a drawable position. |
| `Schema.OnePhoneNumberIsNotEnough` | its_easy/tour/pdf.py:205 | With a single phone number in the data, the plan's lookup at index 1 raises `IndexError(1)`, and the whole mapping fails. |

## Left out

- `parse_booking_data` (lines 172-179) is left out: it checks the filesystem and loads YAML, which is I/O through a foreign library.
- `validate_booking_data` and the cerberus validator are left out; `Conforms` restates only the leaf types, the `allowed` lists and the phone regex. Not restated: `required` and default injection, `min: 0` on the insurance numbers, `maxlength: 13` on phone numbers, the postcode regex `^\d{3}-\d{4}$`, the unknown-key policy and error collection. None of them changes what the mapping does with data that has passed validation.
- The `date.today()` default for the request date is left out, because it depends on the clock; the date is an input.
- `edit_booking_request_paper` and `add_text_on_page` (lines 262-302) are left out: they read the PDF, draw on a canvas and merge pages. `add_info_on_booking_request_paper` is reduced to validate-then-map, the composition `Schema.ConformingDataRenders` is about.
- The `__str__` methods, the `__main__` demo and `setup.py` are left out.
- Calendar validity of dates is not checked. The code does not check it either.
- `Formatters.StringForm`: `str()` of a dict or list would give its Python repr. The model reports `NoStringForm` instead, because repr formatting is not modelled. The plan only reaches scalars on schema-valid data.
- `Descent.Subscript`: Python indexes a string by number and returns one character. The model raises `TypeError` on every leaf. On schema-valid data the plan never indexes into a string: `連絡先電話番号` is a list there.
- `Strings.PhonePattern`: `\d` is modelled as the ASCII digits only. Python also accepts other Unicode decimal digits. The split lemma depends only on a digit not being '-'.
- Boolean values, which Python counts as integers, are not among the modelled scalars.
- Exception messages are kept as structured `Error` values; their text is not modelled.
- `Formatters.PhoneNumberTexts`: when Python runs with `-O`, the `assert` on line 252 is stripped. A number with more than 3 parts would then draw its first three parts, and one with fewer would raise `IndexError`. The model always keeps the assertion and raises `AssertionError`.
- `Values.Scalar`: it has no `None` and no floating-point value, though YAML can produce both (`null`, `1.5`). `create_text` would draw them as `str()` gives them ('None', '1.5'). Schema-valid data holds neither in the fields the plan visits.
- `Descent.Subscript`: dict keys are strings only. A YAML mapping with integer keys, such as `{0: ..., 1: ...}`, can be indexed by `0` in Python, but the model raises `KeyError(Index(0))`. Schema-valid data has lists, not such mappings, where the plan uses an index.
