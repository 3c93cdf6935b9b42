/** Properties of the builder's specification functions: name dispatch, the
    per-setter acceptance tables, and what `set_all_parameters` leaves in each
    field. */
module BuilderProperties {
  import opened Wrappers
  import opened Tensors
  import opened Values
  import opened Builder

  /** Length and first letter of each field's name; no two fields share both. */
  function NameKey(f: Field): (nat, char)
  {
    match f
    case Algorithm => (9, 'a')
    case Device => (6, 'd')
    case ForwardModel => (13, 'f')
    case ObservationModel => (17, 'o')
    case BackgroundCovarianceMatrix => (28, 'b')
    case ObservationCovarianceMatrix => (29, 'o')
    case BackgroundState => (16, 'b')
    case Observations => (12, 'o')
    case ObservationTimeSteps => (22, 'o')
    case Gap => (3, 'g')
    case NumSteps => (9, 'n')
    case NumEnsembles => (13, 'n')
    case StartTime => (10, 's')
    case Args => (4, 'a')
    case MaxIterations => (14, 'm')
    case LearningRate => (13, 'l')
    case Logging => (7, 'l')
  }

  lemma NameKeyOfName(f: Field)
    ensures |FieldName(f)| == NameKey(f).0 && FieldName(f)[0] == NameKey(f).1
  {
  }

  lemma NameKeyInjective(f: Field, g: Field)
    ensures NameKey(f) == NameKey(g) ==> f == g
  {
  }

  /** No two fields share a name. */
  lemma FieldNameInjective(f: Field, g: Field)
    ensures FieldName(f) == FieldName(g) <==> f == g
  {
    NameKeyOfName(f);
    NameKeyOfName(g);
    NameKeyInjective(f, g);
  }

  /** Looking a field's own name up gives back the field. */
  lemma FieldNamedRoundTrip(f: Field)
    ensures FieldNamed(FieldName(f)) == Some(f)
  {
    var r := FieldNamed(FieldName(f));
    assert r.Some?;
    FieldNameInjective(r.value, f);
  }

  /** `asdict` lists every field once, in declaration order: each key names
      its own field and carries that field's value. */
  lemma AsDictReadsBack(p: Parameters)
    ensures forall i :: 0 <= i < |AsDict(p)| ==>
      FieldNamed(AsDict(p)[i].0) == Some(AllFields[i]) && AsDict(p)[i].1 == Get(p, AllFields[i])
    ensures forall f: Field :: AsDict(p)[FieldIndex(f)] == (FieldName(f), Get(p, f))
  {
    forall i | 0 <= i < |AsDict(p)|
      ensures FieldNamed(AsDict(p)[i].0) == Some(AllFields[i])
    {
      FieldNamedRoundTrip(AllFields[i]);
    }
  }

  /** `set_parameter` raises the first AttributeError exactly for names that are
      not an attribute of the record. */
  lemma SetParameterUnknown(la: LinAlg, p: Parameters, name: string, v: Value)
    ensures SetByName(la, p, name, v) == Err(NoSuchParameter(name)) <==> !HasAttribute(name)
  {
  }

  /** It raises the second AttributeError exactly for the record's attributes
      that are not fields, since none of them has a setter. */
  lemma SetParameterNoSetter(la: LinAlg, p: Parameters, name: string, v: Value)
    ensures SetByName(la, p, name, v) == Err(NoSetter(name)) <==> name in InstanceAttributes
  {
    if name in InstanceAttributes {
      assert name != [] && name[0] == '_';
      if FieldNamed(name).Some? {
        FieldNamesPlain(FieldNamed(name).value);
      }
    }
  }

  /** No field's name starts with an underscore. */
  lemma FieldNamesPlain(f: Field)
    ensures FieldName(f) != [] && FieldName(f)[0] != '_'
  {
  }

  /** A field's own name runs exactly that field's setter. */
  lemma SetParameterField(la: LinAlg, p: Parameters, f: Field, v: Value)
    ensures SetByName(la, p, FieldName(f), v) == Assign(la, p, f, v)
  {
    FieldNameInjective(f, FieldNamed(FieldName(f)).value);
  }

  /** A setter that returns changes its own field at most; one that raises changes nothing. */
  lemma AssignFrame(la: LinAlg, p: Parameters, f: Field, v: Value)
    ensures Assign(la, p, f, v).Ok? <==> Rejection(la, f, v).None?
    ensures Assign(la, p, f, v).Ok? ==>
      forall g :: Get(Assign(la, p, f, v).value, g) ==
        if g == f && Stores(f, v) then v else Get(p, g)
  {
  }

  /** `set_algorithm` and `set_device` never raise; a non-member is ignored. */
  lemma EnumSettersNeverRaise(la: LinAlg, p: Parameters, v: Value)
    ensures Assign(la, p, Algorithm, v) == Ok(if v.AlgorithmValue? then p.(algorithm := v) else p)
    ensures Assign(la, p, Device, v) == Ok(if v.DeviceValue? then p.(device := v) else p)
  {
  }

  /** The covariance setters: TypeError for a non-tensor, the check's LinAlgError
      for an invalid matrix, and otherwise the matrix is stored. */
  lemma CovarianceSetters(la: LinAlg, p: Parameters, f: Field, v: Value)
    requires f == BackgroundCovarianceMatrix || f == ObservationCovarianceMatrix
    ensures !v.TensorValue? ==> Assign(la, p, f, v) == Err(WrongType(f))
    ensures v.TensorValue? && !IsSquare2D(v.t) ==> Assign(la, p, f, v) == Err(NotSquareMatrix)
    ensures v.TensorValue? && IsSquare2D(v.t) && !IsSymmetric(la, v.t) ==>
      Assign(la, p, f, v) == Err(NotSymmetric)
    ensures v.TensorValue? && IsSquare2D(v.t) && IsSymmetric(la, v.t) && !HasFullRank(la, v.t) ==>
      Assign(la, p, f, v) == Err(SingularMatrix)
    ensures Assign(la, p, f, v).Ok? <==>
      v.TensorValue? && IsSquare2D(v.t) && IsSymmetric(la, v.t) && HasFullRank(la, v.t)
    ensures Assign(la, p, f, v).Ok? ==> Assign(la, p, f, v) == Ok(With(p, f, v))
  {
  }

  /** The scalar setters accept exactly the Python types they test for (a bool
      passes every int test) and otherwise raise TypeError naming their field. */
  lemma ScalarSetters(la: LinAlg, p: Parameters, f: Field, v: Value)
    requires f in {Gap, NumSteps, NumEnsembles, StartTime, Args, MaxIterations, LearningRate, Logging}
    ensures Assign(la, p, f, v).Err? ==> Assign(la, p, f, v) == Err(WrongType(f))
    ensures Assign(la, p, f, v).Ok? ==> Assign(la, p, f, v) == Ok(With(p, f, v))
    ensures f in {Gap, NumSteps, NumEnsembles, MaxIterations} ==>
      (Assign(la, p, f, v).Ok? <==> v.IntValue? || v.BoolValue?)
    ensures f in {StartTime, LearningRate} ==>
      (Assign(la, p, f, v).Ok? <==> v.IntValue? || v.BoolValue? || v.FloatValue?)
    ensures f == Args ==> (Assign(la, p, f, v).Ok? <==> v.TupleValue?)
    ensures f == Logging ==> (Assign(la, p, f, v).Ok? <==> v.BoolValue?)
  {
  }

  /** `set_observation_time_steps` takes a list, tuple, ndarray or tensor and
      raises TypeError for anything else. */
  lemma ObservationTimeStepsSetter(la: LinAlg, p: Parameters, v: Value)
    ensures Assign(la, p, ObservationTimeSteps, v).Ok? <==>
      v.ListValue? || v.TupleValue? || v.NdArrayValue? || v.TensorValue?
    ensures Assign(la, p, ObservationTimeSteps, v).Err? ==>
      Assign(la, p, ObservationTimeSteps, v) == Err(WrongType(ObservationTimeSteps))
  {
  }

  /** A loop that raises: the error is that of the first entry whose setter
      raises, every entry before it having been applied. */
  lemma {:induction false} ApplyEntriesRaises(la: LinAlg, p: Parameters, entries: seq<(string, Value)>)
    requires ApplyEntries(la, p, entries).Err?
    ensures exists i :: (0 <= i < |entries| && ApplyEntries(la, p, entries[..i]).Ok? &&
      SetByName(la, ApplyEntries(la, p, entries[..i]).value, entries[i].0, entries[i].1) ==
        Err(ApplyEntries(la, p, entries).error))
    decreases |entries|
  {
    var e := entries[0];
    assert entries[..0] == [];
    match SetByName(la, p, e.0, e.1)
    case Err(_) =>
      assert ApplyEntries(la, p, entries[..0]) == Ok(p);
      assert SetByName(la, p, entries[0].0, entries[0].1) == Err(ApplyEntries(la, p, entries).error);
    case Ok(q) =>
      var rest := entries[1..];
      ApplyEntriesRaises(la, q, rest);
      var i :| 0 <= i < |rest| && ApplyEntries(la, q, rest[..i]).Ok? &&
        SetByName(la, ApplyEntries(la, q, rest[..i]).value, rest[i].0, rest[i].1) ==
          Err(ApplyEntries(la, q, rest).error);
      assert entries[..i + 1] == [e] + rest[..i];
      assert ([e] + rest[..i])[1..] == rest[..i];
      assert ApplyEntries(la, p, entries[..i + 1]) == ApplyEntries(la, q, rest[..i]);
      assert entries[i + 1] == rest[i];
      assert ApplyEntries(la, p, entries).error == ApplyEntries(la, q, rest).error;
  }

  /** Reference definition: the value field `f` holds after `entries` is that of
      the last entry naming `f` whose value is stored, or `initial` if none. */
  function LastStored(f: Field, initial: Value, entries: seq<(string, Value)>): Value
    decreases |entries|
  {
    if entries == [] then initial
    else
      var e := entries[|entries| - 1];
      if e.0 == FieldName(f) && Stores(f, e.1) then e.1
      else LastStored(f, initial, entries[..|entries| - 1])
  }

  /** The value `f` holds after one entry. */
  function Stepped(f: Field, initial: Value, e: (string, Value)): Value
  {
    if e.0 == FieldName(f) && Stores(f, e.1) then e.1 else initial
  }

  lemma {:induction false} LastStoredCons(f: Field, initial: Value, e: (string, Value), rest: seq<(string, Value)>)
    ensures LastStored(f, initial, [e] + rest) == LastStored(f, Stepped(f, initial, e), rest)
    decreases |rest|
  {
    if rest == [] {
      assert ([e] + rest)[..0] == [];
    } else {
      var n := |rest|;
      assert ([e] + rest)[n] == rest[n - 1];
      assert ([e] + rest)[..n] == [e] + rest[..n - 1];
      LastStoredCons(f, initial, e, rest[..n - 1]);
    }
  }

  /** One accepted entry moves each field as `Stepped` says. */
  lemma SetByNameStep(la: LinAlg, p: Parameters, e: (string, Value), f: Field)
    requires SetByName(la, p, e.0, e.1).Ok?
    ensures Get(SetByName(la, p, e.0, e.1).value, f) == Stepped(f, Get(p, f), e)
  {
    var g := FieldNamed(e.0).value;
    assert SetByName(la, p, e.0, e.1) == Assign(la, p, g, e.1);
    AssignFrame(la, p, g, e.1);
    FieldNameInjective(f, g);
  }

  /** `set_all_parameters`' loop agrees, field by field, with `LastStored`. */
  lemma {:induction false} ApplyEntriesValue(la: LinAlg, p: Parameters, entries: seq<(string, Value)>, f: Field)
    requires ApplyEntries(la, p, entries).Ok?
    ensures Get(ApplyEntries(la, p, entries).value, f) == LastStored(f, Get(p, f), entries)
    decreases |entries|
  {
    if entries == [] {
    } else {
      var e := entries[0];
      var q := SetByName(la, p, e.0, e.1).value;
      SetByNameStep(la, p, e, f);
      assert ApplyEntries(la, p, entries) == ApplyEntries(la, q, entries[1..]);
      ApplyEntriesValue(la, q, entries[1..], f);
      LastStoredCons(f, Get(p, f), e, entries[1..]);
      assert [e] + entries[1..] == entries;
    }
  }

  lemma {:induction false} LastStoredAbsent(f: Field, initial: Value, entries: seq<(string, Value)>)
    requires forall i :: 0 <= i < |entries| ==> entries[i].0 != FieldName(f)
    ensures LastStored(f, initial, entries) == initial
    decreases |entries|
  {
    if entries != [] {
      LastStoredAbsent(f, initial, entries[..|entries| - 1]);
    }
  }

  /** After a successful `set_all_parameters` from a dict, a field the dict does
      not name holds its `Parameters()` default, whatever it held before. */
  lemma SetAllUntouched(la: LinAlg, entries: seq<(string, Value)>, f: Field)
    requires SetAll(la, FromDict(entries)).Ok?
    requires forall i :: 0 <= i < |entries| ==> entries[i].0 != FieldName(f)
    ensures Get(SetAll(la, FromDict(entries)).value, f) == Get(Defaults, f)
  {
    ApplyEntriesValue(la, Defaults, entries, f);
    LastStoredAbsent(f, Get(Defaults, f), entries);
  }

  /** After a successful `set_all_parameters` from a dict, a field holds the
      value of the last entry naming it that its setter stored. */
  lemma SetAllFromDict(la: LinAlg, entries: seq<(string, Value)>, f: Field)
    requires SetAll(la, FromDict(entries)).Ok?
    ensures Get(SetAll(la, FromDict(entries)).value, f) == LastStored(f, Get(Defaults, f), entries)
  {
    ApplyEntriesValue(la, Defaults, entries, f);
  }

  lemma {:induction false} LastStoredUnique(f: Field, initial: Value, entries: seq<(string, Value)>, k: nat)
    requires k < |entries| && entries[k].0 == FieldName(f)
    requires forall i :: 0 <= i < |entries| && i != k ==> entries[i].0 != FieldName(f)
    ensures LastStored(f, initial, entries) == Stepped(f, initial, entries[k])
    decreases |entries|
  {
    var n := |entries|;
    if k < n - 1 {
      LastStoredUnique(f, initial, entries[..n - 1], k);
    } else {
      LastStoredAbsent(f, initial, entries[..n - 1]);
    }
  }

  lemma AllFieldsDistinct()
    ensures forall i, j :: 0 <= i < j < |AllFields| ==> AllFields[i] != AllFields[j]
  {
  }

  /** `set_all_parameters` given a record: each field keeps the record's value,
      except an enum field whose value is not a member, which is reset to its
      default (the setter ignores it, and the target is a fresh record). */
  lemma SetAllFromRecord(la: LinAlg, p: Parameters, f: Field)
    requires SetAll(la, FromRecord(p)).Ok?
    ensures Get(SetAll(la, FromRecord(p)).value, f) ==
      if Stores(f, Get(p, f)) then Get(p, f) else Get(Defaults, f)
  {
    var d := AsDict(p);
    AllFieldsDistinct();
    var k := FieldIndex(f);
    forall i | 0 <= i < |d| && i != k
      ensures d[i].0 != FieldName(f)
    {
      FieldNameInjective(AllFields[i], f);
    }
    ApplyEntriesValue(la, Defaults, d, f);
    LastStoredUnique(f, Get(Defaults, f), d, k);
  }
}
