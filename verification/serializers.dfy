/**
 * Request validation: the puzzle-list query, game creation, and game
 * updates (board length against size*size, pencil marks within 1..size).
 * Field-level checks are those the declared fields perform; `Validate` is
 * the cross-field check that runs after them.
 */
module Serializers {
  import opened Wrappers
  import opened PyText
  import opened Models

  /** Why a single field is rejected. */
  datatype FieldError =
    | Required             // a required field is absent
    | NotAnInteger         // an integer field's input is not an integer
    | BelowMinimum(min: int)
    | InvalidChoice        // not one of the allowed choices
    | Blank                // an empty or all-whitespace string where blank is not allowed
    | Null                 // null where the field does not allow it
    | NotAString           // a char field's input is neither a string nor a number
    | NullCharacter        // a char field's text contains U+0000
    | StringTooLong        // an integer field's string input is longer than `MaxStringLength`
    | NotADict             // a dict field's input is not an object
    | NotAList             // a list field's input is not a list

  /** The longest string an integer field tries to parse. */
  const MaxStringLength := 1000

  /** A string input too long for an integer field to parse. */
  predicate Overlong(v: Json) {
    v.JScalar? && v.v.SStr? && |v.v.s| > MaxStringLength
  }

  /**
   * An integer field's conversion of a JSON value: an int, or a string of at
   * most `MaxStringLength` characters that parses as one; null, booleans,
   * lists and objects convert to nothing.
   */
  function IntegerInput(v: Json): (r: Option<int>)
    ensures v.JScalar? && v.v.SInt? ==> r == Some(v.v.i)
    ensures v.JScalar? && v.v.SStr? ==> r == (if Overlong(v) then None else ParseInt(v.v.s))
    ensures !(v.JScalar? && (v.v.SInt? || v.v.SStr?)) ==> r.None?
  {
    match v
    case JScalar(SInt(i)) => Some(i)
    case JScalar(SStr(s)) => if |s| > MaxStringLength then None else ParseInt(s)
    case _ => None
  }

  /**
   * An integer field with a lower bound: null is refused as null, an overlong
   * string as too long, anything else that does not convert as not an
   * integer, and a converted value below the bound by the bound.
   */
  function IntegerField(v: Json, minValue: int): (r: Result<int, FieldError>)
    ensures r.Success? <==> IntegerInput(v).Some? && IntegerInput(v).value >= minValue
    ensures r.Success? ==> r.value == IntegerInput(v).value && r.value >= minValue
    ensures r.Failure? && IntegerInput(v).Some? ==> r.error == BelowMinimum(minValue)
    ensures r.Failure? && IntegerInput(v).None? ==>
      r.error == (if v == JScalar(SNull) then Null else if Overlong(v) then StringTooLong else NotAnInteger)
  {
    if v == JScalar(SNull) then Failure(Null)
    else if Overlong(v) then Failure(StringTooLong)
    else
    match IntegerInput(v)
    case None => Failure(NotAnInteger)
    case Some(i) => if i < minValue then Failure(BelowMinimum(minValue)) else Success(i)
  }

  /**
   * The length limit applies before parsing: a string of 1001 ones is
   * refused although `int()` would parse it, and so is a list.
   */
  lemma OverlongRefused()
    ensures
      var ones := seq(MaxStringLength + 1, i => '1');
      && ParseInt(ones).Some?
      && IntegerField(JStr(ones), 1) == Failure(StringTooLong)
      && IntegerField(JList([SInt(1)]), 1) == Failure(NotAnInteger)
  {
    var ones := seq(MaxStringLength + 1, i => '1');
    assert AllDigits(ones) by {
      forall i | 0 <= i < |ones| ensures IsDigit(ones[i]) { assert ones[i] == '1'; }
    }
  }

  // ----- the puzzle-list query -----

  datatype ListQuery = ListQuery(size: int, difficulty: Difficulty)

  /**
   * A query-string parameter as an optional field reads it: an absent
   * parameter and an empty one (`?size=`) both leave the field to its default.
   */
  predicate Omitted(param: Option<string>) {
    param.None? || param == Some("")
  }

  /**
   * `PuzzleListQuerySerializer` on the query string's parameters: size
   * defaults to 9 and must be at least 1; difficulty defaults to medium and
   * must be one of the four labels.
   */
  function ValidateListQuery(size: Option<string>, difficulty: Option<string>): (r: Result<ListQuery, FieldError>)
    ensures Omitted(size) && Omitted(difficulty) ==> r == Success(ListQuery(9, Medium))
    ensures r.Success? <==>
      && (!Omitted(size) ==>
            |size.value| <= MaxStringLength && ParseInt(size.value).Some? && ParseInt(size.value).value >= 1)
      && (!Omitted(difficulty) ==> ParseLabel(difficulty.value).Some?)
    ensures r.Success? ==> r.value.size >= 1
    ensures r.Success? && !Omitted(size) ==> Some(r.value.size) == ParseInt(size.value)
    ensures r.Success? && !Omitted(difficulty) ==> LabelName(r.value.difficulty) == difficulty.value
    ensures r.Success? && Omitted(size) ==> r.value.size == 9
    ensures r.Success? && Omitted(difficulty) ==> r.value.difficulty == Medium
  {
    var sizeField := if Omitted(size) then Success(9) else IntegerField(JStr(size.value), 1);
    if sizeField.Failure? then Failure(sizeField.error)
    else if Omitted(difficulty) then Success(ListQuery(sizeField.value, Medium))
    else
      match ParseLabel(difficulty.value)
      case None => Failure(InvalidChoice)
      case Some(d) => Success(ListQuery(sizeField.value, d))
  }

  /** A query written from a size and a label is read back as that size and label exactly when the size is positive. */
  lemma ListQueryRoundTrip(n: int, d: Difficulty)
    ensures ValidateListQuery(Some(DecimalString(n)), Some(LabelName(d))).Success? <==>
      n >= 1 && |DecimalString(n)| <= MaxStringLength
    ensures n >= 1 && |DecimalString(n)| <= MaxStringLength ==>
      ValidateListQuery(Some(DecimalString(n)), Some(LabelName(d))) == Success(ListQuery(n, d))
  {
    DecimalRoundTrip(n);
    LabelRoundTrip(d);
  }

  // ----- game creation -----

  /** `GameCreateSerializer`: a required template id of at least 1. */
  function ValidateGameCreate(templateId: Option<Json>): (r: Result<int, FieldError>)
    ensures templateId.None? ==> r == Failure(Required)
    ensures r.Success? <==> templateId.Some? && IntegerInput(templateId.value).Some? && IntegerInput(templateId.value).value >= 1
    ensures r.Success? ==> r.value >= 1 && Some(r.value) == IntegerInput(templateId.value)
  {
    if templateId.None? then Failure(Required) else IntegerField(templateId.value, 1)
  }

  // ----- game updates -----

  /** A list of pencil marks: every element an integer of at least 1. */
  function MarkList(xs: seq<Scalar>): (r: Result<seq<int>, FieldError>)
    ensures r.Success? <==> forall i :: 0 <= i < |xs| ==> IntegerField(JScalar(xs[i]), 1).Success?
    ensures r.Success? ==> |r.value| == |xs|
    ensures r.Success? ==> forall i :: 0 <= i < |xs| ==> r.value[i] == IntegerField(JScalar(xs[i]), 1).value
    ensures r.Success? ==> forall i :: 0 <= i < |r.value| ==> r.value[i] >= 1
  {
    if xs == [] then Success([])
    else
      match IntegerField(JScalar(xs[0]), 1)
      case Failure(e) => Failure(e)
      case Success(m) =>
        match MarkList(xs[1..])
        case Failure(e) => Failure(e)
        case Success(ms) => Success([m] + ms)
  }

  /** A list field of marks: a JSON list whose elements pass `MarkList`; null and other shapes fail. */
  function MarkEntry(v: Json): (r: Result<seq<int>, FieldError>)
    ensures v.JList? ==> r == MarkList(v.items)
    ensures v == JScalar(SNull) ==> r == Failure(Null)
    ensures !v.JList? && v != JScalar(SNull) ==> r == Failure(NotAList)
  {
    match v
    case JList(items) => MarkList(items)
    case JScalar(SNull) => Failure(Null)
    case _ => Failure(NotAList)
  }

  /**
   * The pencil-mark dictionary field: a JSON object every entry of which is a
   * valid mark list, converted entry by entry under the same keys; None when
   * the field rejects its input.
   */
  function CleanMarks(data: Json): (r: Option<map<string, seq<int>>>)
    ensures r.Some? <==> data.JObject? && forall k :: k in data.fields ==> MarkEntry(data.fields[k]).Success?
    ensures r.Some? ==> r.value.Keys == data.fields.Keys
    ensures r.Some? ==> forall k :: k in r.value ==> r.value[k] == MarkEntry(data.fields[k]).value
    ensures r.Some? ==> forall k, i :: k in r.value && 0 <= i < |r.value[k]| ==> r.value[k][i] >= 1
  {
    match data
    case JObject(fields) =>
      if forall k :: k in fields ==> MarkEntry(fields[k]).Success? then
        Some(map k | k in fields :: MarkEntry(fields[k]).value)
      else None
    case _ => None
  }

  /**
   * `PencilMarksField.to_internal_value`: the dictionary's entries are
   * converted one at a time and the first bad entry met rejects the field;
   * null and non-object inputs are rejected before any entry is looked at.
   */
  method PencilMarksToInternal(data: Json) returns (r: Result<map<string, seq<int>>, FieldError>)
    ensures r.Success? <==> CleanMarks(data).Some?
    ensures r.Success? ==> r.value == CleanMarks(data).value
    ensures !data.JObject? ==> r == Failure(if data == JScalar(SNull) then Null else NotADict)
    ensures r.Failure? && data.JObject? ==>
      exists k :: k in data.fields && MarkEntry(data.fields[k]) == Failure(r.error)
  {
    if !data.JObject? {
      return Failure(if data == JScalar(SNull) then Null else NotADict);
    }
    var fields := data.fields;
    var normalized: map<string, seq<int>> := map[];
    var remaining := fields.Keys;
    while remaining != {}
      invariant remaining <= fields.Keys
      invariant normalized.Keys == fields.Keys - remaining
      invariant forall k :: k in normalized ==> MarkEntry(fields[k]).Success? && normalized[k] == MarkEntry(fields[k]).value
      decreases |remaining|
    {
      var k :| k in remaining;
      var marks := MarkEntry(fields[k]);
      if marks.Failure? {
        return Failure(marks.error);
      }
      normalized := normalized[k := marks.value];
      remaining := remaining - {k};
    }
    r := Success(normalized);
  }

  /** The fields of an update after their field-level checks; absent fields are None. */
  datatype UpdateAttrs = UpdateAttrs(
    boardState: Option<string>,
    pencilMarks: Option<map<string, seq<int>>>,
    timeSeconds: Option<int>)

  /** Why the cross-field check rejects an update. */
  datatype UpdateError =
    | MissingSize           // a board is sent but the context has no positive integer size
    | BoardLength(expected: int)
    | MarkOutOfRange(size: int)   // some mark lies outside 1..size
    | SizeNotConvertible    // `int()` of the context size raises (not a validation error)

  /** Python's `isinstance(v, int)`, which holds for booleans too, and the integer it denotes. */
  function PyIntOf(v: Scalar): Option<int> {
    match v
    case SInt(i) => Some(i)
    case SBool(b) => Some(if b then 1 else 0)
    case _ => None
  }

  /** Python's `int(v)`: strings are parsed, None raises. */
  function PyIntCall(v: Scalar): Option<int> {
    match v
    case SInt(i) => Some(i)
    case SBool(b) => Some(if b then 1 else 0)
    case SStr(s) => ParseInt(s)
    case SNull => None
  }

  predicate MarksWithin(marks: map<string, seq<int>>, size: int) {
    forall k, i :: k in marks && 0 <= i < |marks[k]| ==> 1 <= marks[k][i] <= size
  }

  /**
   * `GameUpdateSerializer.validate`, with the serializer context's "size"
   * entry as `ctxSize` (None when absent): a board must have size*size
   * characters for a positive integer size, and every pencil mark must lie in
   * 1..size when the context has a size.
   */
  function Validate(attrs: UpdateAttrs, ctxSize: Option<Scalar>): (r: Outcome<UpdateError>)
    ensures attrs.boardState.Some? && (ctxSize.None? || PyIntOf(ctxSize.value).None? || PyIntOf(ctxSize.value).value <= 0)
      ==> r == Fail(MissingSize)
    ensures r.Pass? && attrs.boardState.Some? ==>
      && ctxSize.Some? && PyIntOf(ctxSize.value).Some? && PyIntOf(ctxSize.value).value > 0
      && |attrs.boardState.value| == PyIntOf(ctxSize.value).value * PyIntOf(ctxSize.value).value
    ensures r.Pass? && attrs.pencilMarks.Some? && ctxSize.Some? ==>
      PyIntCall(ctxSize.value).Some? && MarksWithin(attrs.pencilMarks.value, PyIntCall(ctxSize.value).value)
    ensures r.Pass? <==>
      && (attrs.boardState.Some? ==>
            && ctxSize.Some? && PyIntOf(ctxSize.value).Some? && PyIntOf(ctxSize.value).value > 0
            && |attrs.boardState.value| == PyIntOf(ctxSize.value).value * PyIntOf(ctxSize.value).value)
      && (attrs.pencilMarks.Some? && ctxSize.Some? ==>
            PyIntCall(ctxSize.value).Some? && MarksWithin(attrs.pencilMarks.value, PyIntCall(ctxSize.value).value))
    ensures r.Fail? && r.error.MarkOutOfRange? ==>
      attrs.pencilMarks.Some? && !MarksWithin(attrs.pencilMarks.value, r.error.size)
  {
    var boardCheck :=
      if attrs.boardState.None? then Pass
      else if ctxSize.None? || PyIntOf(ctxSize.value).None? || PyIntOf(ctxSize.value).value <= 0 then Fail(MissingSize)
      else
        var size := PyIntOf(ctxSize.value).value;
        if |attrs.boardState.value| != size * size then Fail(BoardLength(size * size)) else Pass;
    if boardCheck.Fail? then boardCheck
    else if attrs.pencilMarks.None? || ctxSize.None? then Pass
    else
      match PyIntCall(ctxSize.value)
      case None => Fail(SizeNotConvertible)
      case Some(size) =>
        var marks := attrs.pencilMarks.value;
        if MarksWithin(marks, size) then Pass else Fail(MarkOutOfRange(size))
  }

  /** Only the board's length is checked: boards of equal length are treated alike. */
  lemma BoardContentsIgnored(attrs: UpdateAttrs, other: string, ctxSize: Option<Scalar>)
    requires attrs.boardState.Some? && |other| == |attrs.boardState.value|
    ensures Validate(attrs, ctxSize).Pass? <==> Validate(attrs.(boardState := Some(other)), ctxSize).Pass?
  {
  }

  /**
   * `CharField(allow_blank=False)` with its default whitespace trimming and
   * its null-character validator: a string is stripped, one that strips to
   * nothing is blank, and one holding U+0000 is refused; an integer is taken
   * as its decimal text; booleans, lists and objects are refused.
   */
  function CharField(v: Json): (r: Result<string, FieldError>)
    ensures v.JScalar? && v.v.SStr? ==> (r.Success? <==> !AllSpace(v.v.s) && '\0' !in v.v.s)
    ensures v.JScalar? && v.v.SStr? && r.Success? ==> r.value == Strip(v.v.s)
    ensures v.JScalar? && v.v.SStr? && r.Failure? ==> r.error == (if AllSpace(v.v.s) then Blank else NullCharacter)
    ensures v.JScalar? && v.v.SInt? ==> r == Success(DecimalString(v.v.i))
    ensures v == JScalar(SNull) ==> r == Failure(Null)
    ensures v.JList? || v.JObject? || (v.JScalar? && v.v.SBool?) ==> r == Failure(NotAString)
    ensures r.Success? ==> r.value != "" && '\0' !in r.value
  {
    match v
    case JScalar(SStr(s)) =>
      StripKeepsNonSpace(s, '\0');
      if AllSpace(s) then Failure(Blank)
      else if '\0' in Strip(s) then Failure(NullCharacter)
      else Success(Strip(s))
    case JScalar(SInt(i)) => Success(DecimalString(i))
    case JScalar(SNull) => Failure(Null)
    case _ => Failure(NotAString)
  }

  /** The raw fields of an update request body; absent fields are None. */
  datatype UpdateRequest = UpdateRequest(
    boardState: Option<Json>,
    pencilMarks: Option<Json>,
    timeSeconds: Option<Json>)

  datatype UpdateRejection = FieldRejected(field: string, error: FieldError) | ValidateRejected(reason: UpdateError)

  /** Every field present in the request passes its own field-level check. */
  predicate FieldsValid(request: UpdateRequest) {
    && (request.boardState.Some? ==> CharField(request.boardState.value).Success?)
    && (request.pencilMarks.Some? ==> CleanMarks(request.pencilMarks.value).Some?)
    && (request.timeSeconds.Some? ==> IntegerField(request.timeSeconds.value, 0).Success?)
  }

  /** The attributes the field-level checks hand to `Validate`. */
  function Cleaned(request: UpdateRequest): (attrs: UpdateAttrs)
    requires FieldsValid(request)
    ensures attrs.boardState.Some? <==> request.boardState.Some?
    ensures attrs.boardState.Some? ==> attrs.boardState.value != ""
    ensures request.boardState.Some? && request.boardState.value.JScalar? && request.boardState.value.v.SStr? ==>
      attrs.boardState == Some(Strip(request.boardState.value.v.s))
    ensures request.boardState.Some? ==> attrs.boardState == Some(CharField(request.boardState.value).value)
    ensures request.boardState.Some? && request.boardState.value.JScalar? && request.boardState.value.v.SInt? ==>
      attrs.boardState == Some(DecimalString(request.boardState.value.v.i))
    ensures attrs.pencilMarks.Some? <==> request.pencilMarks.Some?
    ensures request.pencilMarks.Some? ==> attrs.pencilMarks == CleanMarks(request.pencilMarks.value)
    ensures attrs.pencilMarks.Some? ==>
      && request.pencilMarks.value.JObject?
      && attrs.pencilMarks.value.Keys == request.pencilMarks.value.fields.Keys
      && forall k, i :: k in attrs.pencilMarks.value && 0 <= i < |attrs.pencilMarks.value[k]| ==>
           attrs.pencilMarks.value[k][i] >= 1
    ensures attrs.timeSeconds.Some? <==> request.timeSeconds.Some?
    ensures attrs.timeSeconds.Some? ==>
      Some(attrs.timeSeconds.value) == IntegerInput(request.timeSeconds.value) && attrs.timeSeconds.value >= 0
  {
    UpdateAttrs(
      if request.boardState.Some? then Some(CharField(request.boardState.value).value) else None,
      if request.pencilMarks.Some? then CleanMarks(request.pencilMarks.value) else None,
      if request.timeSeconds.Some? then Some(IntegerField(request.timeSeconds.value, 0).value) else None)
  }

  /**
   * `GameUpdateSerializer` as a whole: the field-level checks in declaration
   * order (board, marks, time), the first failure reported, then `Validate`
   * on the cleaned attributes.
   */
  method ValidateUpdate(request: UpdateRequest, ctxSize: Option<Scalar>) returns (r: Result<UpdateAttrs, UpdateRejection>)
    ensures r.Success? <==> FieldsValid(request) && Validate(Cleaned(request), ctxSize).Pass?
    ensures r.Success? ==> r.value == Cleaned(request)
    ensures !FieldsValid(request) ==> r.Failure? && r.error.FieldRejected?
    ensures FieldsValid(request) && r.Failure? ==> r == Failure(ValidateRejected(Validate(Cleaned(request), ctxSize).error))
    ensures request.boardState.Some? && request.boardState.value.JScalar? && request.boardState.value.v.SStr? ==>
      var s := request.boardState.value.v.s;
      && (AllSpace(s) ==> r == Failure(FieldRejected("board_state", Blank)))
      && (!AllSpace(s) && '\0' in s ==> r == Failure(FieldRejected("board_state", NullCharacter)))
    ensures request.boardState.Some? && (request.boardState.value.JList? || request.boardState.value.JObject?) ==>
      r == Failure(FieldRejected("board_state", NotAString))
  {
    var board: Option<string> := None;
    if request.boardState.Some? {
      var b := CharField(request.boardState.value);
      if b.Failure? {
        return Failure(FieldRejected("board_state", b.error));
      }
      board := Some(b.value);
    }
    var marks: Option<map<string, seq<int>>> := None;
    if request.pencilMarks.Some? {
      var converted := PencilMarksToInternal(request.pencilMarks.value);
      if converted.Failure? {
        return Failure(FieldRejected("pencil_marks", converted.error));
      }
      marks := Some(converted.value);
    }
    var time: Option<int> := None;
    if request.timeSeconds.Some? {
      var t := IntegerField(request.timeSeconds.value, 0);
      if t.Failure? {
        return Failure(FieldRejected("time_seconds", t.error));
      }
      time := Some(t.value);
    }
    var attrs := UpdateAttrs(board, marks, time);
    var check := Validate(attrs, ctxSize);
    if check.Fail? {
      return Failure(ValidateRejected(check.error));
    }
    r := Success(attrs);
  }

  /**
   * A 9x9 board sent with a leading space is trimmed to its 81 cells and
   * passes the length check, while 82 characters with no whitespace to
   * trim would not.
   */
  lemma PaddedBoardAccepted()
    ensures
      var zeros := seq(81, i => '0');
      var request := UpdateRequest(Some(JStr(" " + zeros)), None, None);
      && FieldsValid(request)
      && Cleaned(request).boardState == Some(zeros)
      && Validate(Cleaned(request), Some(SInt(9))).Pass?
      && Validate(UpdateAttrs(Some("x" + zeros), None, None), Some(SInt(9))).Fail?
  {
    var zeros := seq(81, i => '0');
    PaddedZerosStrip(zeros);
    var request := UpdateRequest(Some(JStr(" " + zeros)), None, None);
    assert '\0' !in zeros by { forall i | 0 <= i < |zeros| ensures zeros[i] != '\0' { } }
    assert CharField(JStr(" " + zeros)) == Success(zeros);
    assert FieldsValid(request);
    var attrs := Cleaned(request);
    assert attrs == UpdateAttrs(Some(zeros), None, None);
    assert PyIntOf(SInt(9)) == Some(9);
    assert |zeros| == 9 * 9;
    assert Validate(attrs, Some(SInt(9))).Pass?;
    assert |"x" + zeros| != 9 * 9;
  }

  lemma PaddedZerosStrip(zeros: string)
    requires zeros == seq(81, i => '0')
    ensures !AllSpace(" " + zeros) && Strip(" " + zeros) == zeros
  {
    assert !IsSpace('0');
    assert (" " + zeros)[1] == '0';
    assert Strip(zeros) == zeros by { assert zeros[0] == '0' && zeros[80] == '0'; }
    StripPadding(" ", zeros, "");
    assert " " + zeros + "" == " " + zeros;
  }
}
