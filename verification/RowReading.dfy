/** Reading one row's arguments into a request. */
module RowReading {
  import opened Text
  import opened Collections
  import opened Judgment
  import Canonical

  datatype FunctionKind = Prob | Bool | ChoiceOf

  /** The state argument as the vectors hold it. */
  datatype StateInput = TextInput(text: string) | StructInput(columns: seq<Canonical.Field>) | Unsupported(message: string)

  /** One row's arguments; absent values are SQL NULLs. Labels may be NULL inside the list. */
  datatype Row = Row(state: Option<StateInput>, text: Option<string>, choices: Option<seq<Option<string>>>)

  /** Number text inside finite floats and 128-bit integers is what Rust prints; inner structs hold their
      fields in map order. */
  ghost predicate Printed(v: Canonical.TypedValue) {
    match v
    case Float(f) => f.Finite? ==> Canonical.NumberText(f.text)
    case BigInt(text) => Canonical.NumberText(text)
    case UBigInt(text) => Canonical.NumberText(text)
    case Struct(fields) => Canonical.Ascending(fields) && forall f :: f in fields ==> Printed(f.value)
    case _ => true
  }

  ghost predicate RowOk(row: Row) {
    row.state.Some? && row.state.value.StructInput? ==> forall f :: f in row.state.value.columns ==> Printed(f.value)
  }

  /** No float anywhere in the value is infinite or not a number. */
  ghost predicate FiniteThroughout(v: Canonical.TypedValue) {
    match v
    case Float(f) => f != Canonical.NaN && f != Canonical.F64.Infinite
    case Struct(fields) => forall f :: f in fields ==> FiniteThroughout(f.value)
    case _ => true
  }

  lemma {:induction false} FiniteIsFinite(v: Canonical.TypedValue)
    ensures FiniteThroughout(v) <==> Canonical.AllFinite(v)
    ensures Printed(v) && Canonical.AllFinite(v) ==> Canonical.WellFormed(v)
    decreases v
  {
    if v.Struct? {
      forall f | f in v.fields
        ensures FiniteThroughout(f.value) <==> Canonical.AllFinite(f.value)
        ensures Printed(f.value) && Canonical.AllFinite(f.value) ==> Canonical.WellFormed(f.value)
      {
        FiniteIsFinite(f.value);
      }
    }
  }

  function ReadState(state: StateInput): Result<Canonical.CanonicalState> {
    match state
    case TextInput(text) => Ok(Canonical.EncodeText(text))
    case StructInput(columns) =>
      (match Canonical.StructEncoding(Canonical.BuildFields(columns))
       case Accepted(s) => Ok(s)
       case NonFinite => Err(JudgmentError(InvalidInput, "state contains a non-finite floating point value")))
    case Unsupported(message) => Err(JudgmentError(InvalidInput, message))
  }

  function ReadLabels(labels: seq<Option<string>>): Result<seq<string>> {
    if labels == [] then Ok([])
    else
      var before :- ReadLabels(labels[..|labels| - 1]);
      var last := labels[|labels| - 1];
      if last.None? then Err(JudgmentError(InvalidInput, "choices must not contain NULL labels"))
      else Ok(before + [last.value])
  }

  /** `read_request`: a NULL argument gives no request, before anything else is looked at. */
  function ReadRequest(kind: FunctionKind, row: Row): Result<Option<JudgmentRequest>> {
    if row.state.None? || row.text.None? || (kind.ChoiceOf? && row.choices.None?) then Ok(None)
    else
      var state :- ReadState(row.state.value);
      if kind.ChoiceOf? then
        var labels :- ReadLabels(row.choices.value);
        var q :- ChoiceRequest(state, row.text.value, labels);
        Ok(Some(q))
      else
        var q :- NoulRequest(state, row.text.value);
        Ok(Some(q))
  }

  lemma {:induction false} BuildFieldsMembers(columns: seq<Canonical.Field>, f: Canonical.Field)
    requires f in Canonical.BuildFields(columns)
    ensures f in columns
  {
    if columns != [] {
      var init, last := columns[..|columns| - 1], columns[|columns| - 1];
      InsertMembers(Canonical.BuildFields(init), last.name, last.value, f);
      if f in Canonical.BuildFields(init) {
        BuildFieldsMembers(init, f);
      }
    }
  }

  lemma {:induction false} InsertMembers(fields: seq<Canonical.Field>, name: string, value: Canonical.TypedValue,
                                         f: Canonical.Field)
    requires f in Canonical.InsertField(fields, name, value)
    ensures f == Canonical.Field(name, value) || f in fields
  {
    if fields != [] && !Canonical.Before(name, fields[0].name) && name != fields[0].name
       && f in Canonical.InsertField(fields[1..], name, value) {
      InsertMembers(fields[1..], name, value, f);
    }
  }

  /** Every request the reader makes is well made; its state is one the encoder produced. */
  lemma ReadRequestsAreWellMade(kind: FunctionKind, row: Row)
    requires RowOk(row) && ReadRequest(kind, row).Ok? && ReadRequest(kind, row).value.Some?
    ensures WellMade(ReadRequest(kind, row).value.value)
  {
    hide Canonical.StructText, Canonical.BuildFields, Canonical.EncodeText;
    ReadStateEncodes(row.state.value);
    if kind.ChoiceOf? {
      var labels := ReadLabels(row.choices.value).value;
      ChoiceRequestExact(ReadState(row.state.value).value, row.text.value, labels);
    }
  }

  lemma ReadStateEncodes(state: StateInput)
    requires state.StructInput? ==> forall f :: f in state.columns ==> Printed(f.value)
    requires ReadState(state).Ok?
    ensures Canonical.IsEncoded(ReadState(state).value)
  {
    if state.StructInput? {
      var fields := Canonical.BuildFields(state.columns);
      Canonical.BuildFieldsCorrect(state.columns);
      forall f | f in fields
        ensures Canonical.WellFormed(f.value)
      {
        BuildFieldsMembers(state.columns, f);
        FiniteIsFinite(f.value);
      }
      assert Canonical.WellFormed(Canonical.Struct(fields));
    }
  }

  // ---- What a request says of its row

  /** Some argument is NULL. */
  predicate HasNull(kind: FunctionKind, row: Row) {
    row.state.None? || row.text.None? || (kind.ChoiceOf? && row.choices.None?)
  }

  /** The state argument, as the request carries it: the text, or exactly the columns, the last value of
      each name. */
  ghost predicate Carries(state: StateInput, s: Canonical.CanonicalState) {
    match state
    case TextInput(text) => s.kind == Canonical.TextState && s.value == Canonical.Text(text)
    case StructInput(columns) =>
      && s.kind == Canonical.StructState && s.value.Struct? && Canonical.Ascending(s.value.fields)
      && Canonical.FieldMap(s.value.fields) == Canonical.ColumnMap(columns)
    case Unsupported(_) => false
  }

  predicate AllGiven(labels: seq<Option<string>>) {
    forall i :: 0 <= i < |labels| ==> labels[i].Some?
  }

  /** `q` asks what the row's arguments say. */
  ghost predicate AsksRow(kind: FunctionKind, row: Row, q: JudgmentRequest) {
    && !HasNull(kind, row) && Carries(row.state.value, q.state) && q.requestKey == "r0"
    && if kind.ChoiceOf? then
         && q.kind == Choice && q.criterion.None? && q.question == row.text
         && |q.choices| == |row.choices.value|
         && forall i :: 0 <= i < |q.choices| ==> row.choices.value[i] == Some(q.choices[i])
       else q.kind == Noul && q.criterion == row.text && q.question.None? && q.choices == []
  }

  /** The state argument can be encoded: no float that remains after the last column of each name is
      infinite or not a number. */
  ghost predicate Readable(state: StateInput) {
    match state
    case TextInput(_) => true
    case StructInput(columns) =>
      forall name :: name in Canonical.ColumnMap(columns) ==> FiniteThroughout(Canonical.ColumnMap(columns)[name])
    case Unsupported(_) => false
  }

  /** Some character is not white space. */
  ghost predicate HasText(s: string) {
    exists i :: 0 <= i < |s| && !IsWhitespace(s[i])
  }

  lemma BlankHasNoText(s: string)
    ensures HasText(s) <==> !IsBlank(s)
  {
    hide IsWhitespace;
    if c :| c in s && !IsWhitespace(c) {
      var i :| 0 <= i < |s| && s[i] == c;
    }
    if i :| 0 <= i < |s| && !IsWhitespace(s[i]) {
      assert s[i] in s;
    }
  }

  /** The text and the labels of a question that may be asked. */
  ghost predicate MayBeAsked(kind: FunctionKind, text: string, choices: Option<seq<Option<string>>>) {
    && HasText(text)
    && (kind.ChoiceOf? && choices.Some? ==>
          var labels := choices.value;
          && |labels| >= 2 && AllGiven(labels)
          && (forall i, j :: 0 <= i < j < |labels| ==> labels[i] != labels[j])
          && forall i :: 0 <= i < |labels| && labels[i].Some? ==> HasText(labels[i].value))
  }

  lemma {:induction false} ReadLabelsExact(labels: seq<Option<string>>)
    ensures ReadLabels(labels).Ok? <==> AllGiven(labels)
    ensures ReadLabels(labels).Ok? ==>
      var read := ReadLabels(labels).value;
      |read| == |labels| && forall i :: 0 <= i < |labels| ==> labels[i] == Some(read[i])
  {
    if labels != [] {
      var n := |labels| - 1;
      ReadLabelsExact(labels[..n]);
      assert AllGiven(labels) ==> AllGiven(labels[..n]);
      if AllGiven(labels[..n]) && labels[n].Some? {
        forall i | 0 <= i < |labels|
          ensures labels[i].Some?
        {
          assert i < n ==> labels[..n][i] == labels[i];
        }
      }
    }
  }

  /** The fields of an ascending list are the pairs of its map. */
  lemma {:induction false} FieldMapValues(fields: seq<Canonical.Field>)
    requires Canonical.Ascending(fields)
    ensures forall f :: f in fields ==>
      f.name in Canonical.FieldMap(fields) && Canonical.FieldMap(fields)[f.name] == f.value
    ensures forall name :: name in Canonical.FieldMap(fields) ==>
      Canonical.Field(name, Canonical.FieldMap(fields)[name]) in fields
  {
    if fields != [] {
      Canonical.HeadIsFresh(fields);
      FieldMapValues(fields[1..]);
      assert fields == [fields[0]] + fields[1..];
    }
  }

  lemma ReadStateExact(state: StateInput)
    ensures ReadState(state).Ok? <==> Readable(state)
    ensures ReadState(state).Ok? ==> Carries(state, ReadState(state).value)
  {
    if state.StructInput? {
      var fields := Canonical.BuildFields(state.columns);
      Canonical.BuildFieldsCorrect(state.columns);
      FieldMapValues(fields);
      hide Canonical.StructText, Canonical.BuildFields, Canonical.FieldMap, Canonical.ColumnMap, Canonical.Ascending;
      forall v ensures FiniteThroughout(v) <==> Canonical.AllFinite(v) {
        FiniteIsFinite(v);
      }
      assert Canonical.AllFinite(Canonical.Struct(fields)) <==> Readable(state);
    }
  }

  /** Reading is exact: no request if and only if an argument is NULL, before anything is validated; a
      request if and only if the arguments can be asked; and then it asks what they say. */
  lemma ReadRequestExact(kind: FunctionKind, row: Row)
    ensures ReadRequest(kind, row) == Ok(None) <==> HasNull(kind, row)
    ensures !HasNull(kind, row) ==>
      (ReadRequest(kind, row).Ok? <==> Readable(row.state.value) && MayBeAsked(kind, row.text.value, row.choices))
    ensures ReadRequest(kind, row).Ok? && ReadRequest(kind, row).value.Some? ==>
      AsksRow(kind, row, ReadRequest(kind, row).value.value)
  {
    if !HasNull(kind, row) {
      ReadStateExact(row.state.value);
      BlankHasNoText(row.text.value);
      hide ReadState, Readable, Carries, CheckLabels, IsBlank, HasText;
      var state := ReadState(row.state.value);
      if state.Ok? && kind.ChoiceOf? {
        ReadLabelsExact(row.choices.value);
        if ReadLabels(row.choices.value).Ok? {
          LabelsMayBeAsked(row.choices.value, ReadLabels(row.choices.value).value);
          ChoiceRequestExact(state.value, row.text.value, ReadLabels(row.choices.value).value);
        }
      }
    }
  }

  lemma LabelsMayBeAsked(labels: seq<Option<string>>, read: seq<string>)
    requires |read| == |labels| && forall i :: 0 <= i < |labels| ==> labels[i] == Some(read[i])
    ensures (forall i, j :: 0 <= i < j < |labels| ==> labels[i] != labels[j]) <==> Distinct(read)
    ensures (forall i :: 0 <= i < |labels| && labels[i].Some? ==> HasText(labels[i].value))
       <==> forall c :: c in read ==> !IsBlank(c)
  {
    forall i | 0 <= i < |read|
      ensures HasText(labels[i].value) <==> !IsBlank(read[i])
    {
      BlankHasNoText(read[i]);
    }
    hide IsBlank, HasText;
    assert forall i :: 0 <= i < |read| ==> read[i] in read && labels[i].value == read[i];
    if Distinct(read) {
      forall i, j | 0 <= i < j < |labels| ensures labels[i] != labels[j] {
        assert read[i] != read[j];
      }
    }
    if forall i, j :: 0 <= i < j < |labels| ==> labels[i] != labels[j] {
      forall i, j | 0 <= i < j < |read| ensures read[i] != read[j] {
        assert labels[i] != labels[j];
      }
    }
  }

  /** The same arguments: the same state, columns compared by name, the same text and, for a choice, the
      same labels in the same order. */
  ghost predicate SameArguments(kind: FunctionKind, a: Row, b: Row)
    requires !HasNull(kind, a) && !HasNull(kind, b)
  {
    && a.text == b.text && (kind.ChoiceOf? ==> a.choices == b.choices)
    && match (a.state.value, b.state.value)
       case (TextInput(s), TextInput(t)) => s == t
       case (StructInput(xs), StructInput(ys)) => Canonical.ColumnMap(xs) == Canonical.ColumnMap(ys)
       case _ => false
  }

  lemma CarriesDetermines(x: StateInput, y: StateInput, s: Canonical.CanonicalState, t: Canonical.CanonicalState)
    requires ReadState(x) == Ok(s) && ReadState(y) == Ok(t)
    ensures s == t <==>
      match (x, y)
      case (TextInput(a), TextInput(b)) => a == b
      case (StructInput(xs), StructInput(ys)) => Canonical.ColumnMap(xs) == Canonical.ColumnMap(ys)
      case _ => false
  {
    ReadStateExact(x);
    ReadStateExact(y);
    if x.StructInput? && y.StructInput? && Canonical.ColumnMap(x.columns) == Canonical.ColumnMap(y.columns) {
      Canonical.AscendingIsCanonical(s.value.fields, t.value.fields);
    }
  }

  /** Two rows read to the same request if and only if their arguments are the same. */
  lemma RequestIsItsRow(kind: FunctionKind, a: Row, b: Row)
    requires ReadRequest(kind, a).Ok? && ReadRequest(kind, a).value.Some?
    requires ReadRequest(kind, b).Ok? && ReadRequest(kind, b).value.Some?
    ensures !HasNull(kind, a) && !HasNull(kind, b)
    ensures ReadRequest(kind, a) == ReadRequest(kind, b) <==> SameArguments(kind, a, b)
  {
    ReadRequestExact(kind, a);
    ReadRequestExact(kind, b);
    hide ReadState, Carries, Readable, MayBeAsked, ReadLabels, IsBlank, CheckLabels;
    CarriesDetermines(a.state.value, b.state.value, ReadState(a.state.value).value, ReadState(b.state.value).value);
    assert ReadState(a.state.value).Ok? && ReadState(b.state.value).Ok?;
    var q, r := ReadRequest(kind, a).value.value, ReadRequest(kind, b).value.value;
    if kind.ChoiceOf? && q.choices == r.choices {
      SameGiven(a.choices.value, b.choices.value, q.choices);
    }
  }

  lemma SameGiven(xs: seq<Option<string>>, ys: seq<Option<string>>, read: seq<string>)
    requires |xs| == |read| && forall i :: 0 <= i < |xs| ==> xs[i] == Some(read[i])
    requires |ys| == |read| && forall i :: 0 <= i < |ys| ==> ys[i] == Some(read[i])
    ensures xs == ys
  {
  }

  /** Deduplication goes by the arguments: in one context two rows share an identity, and so a provider
      call, if and only if their arguments are the same. */
  lemma SharedExactlyBySameArguments(kind: FunctionKind, a: Row, b: Row, context: IdentityContext)
    requires RowOk(a) && ReadRequest(kind, a).Ok? && ReadRequest(kind, a).value.Some?
    requires RowOk(b) && ReadRequest(kind, b).Ok? && ReadRequest(kind, b).value.Some?
    ensures !HasNull(kind, a) && !HasNull(kind, b)
    ensures IdentityOf(ReadRequest(kind, a).value.value, context) == IdentityOf(ReadRequest(kind, b).value.value, context)
       <==> SameArguments(kind, a, b)
  {
    RequestIsItsRow(kind, a, b);
    ReadRequestExact(kind, a);
    ReadRequestExact(kind, b);
    ReadRequestsAreWellMade(kind, a);
    ReadRequestsAreWellMade(kind, b);
    hide ReadRequest, SameArguments, Carries, Canonical.IsEncoded;
    var q, r := ReadRequest(kind, a).value.value, ReadRequest(kind, b).value.value;
    if IdentityOf(q, context) == IdentityOf(r, context) {
      IdentityDeterminesRequest(IdentityOf(q, context), q, r);
      assert q == WithoutKey(q).(requestKey := "r0") && r == WithoutKey(r).(requestKey := "r0");
    }
  }

  /** A row's arguments leave no choice of its request. */
  lemma AskedOnce(kind: FunctionKind, row: Row, q: JudgmentRequest, r: JudgmentRequest)
    requires AsksRow(kind, row, q) && Canonical.IsEncoded(q.state)
    requires AsksRow(kind, row, r) && Canonical.IsEncoded(r.state)
    ensures q == r
  {
    if row.state.value.StructInput? {
      Canonical.AscendingIsCanonical(q.state.value.fields, r.state.value.fields);
    }
    assert q.choices == r.choices;
  }
}
