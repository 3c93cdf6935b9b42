/** `CaseBuilder`: a validating builder that holds one `Parameters` record and
    fills it field by field, each setter checking the kind (and, for the two
    covariance matrices, the linear-algebra validity) of its value first. */
module Builder {
  import opened Wrappers
  import opened Tensors
  import opened Values

  /** The fields of `Parameters`, one per `set_<field>` setter. */
  datatype Field =
    | Algorithm | Device | ForwardModel | ObservationModel
    | BackgroundCovarianceMatrix | ObservationCovarianceMatrix
    | BackgroundState | Observations | ObservationTimeSteps
    | Gap | NumSteps | NumEnsembles | StartTime | Args
    | MaxIterations | LearningRate | Logging

  /** Every field, in the order of the setters. */
  const AllFields: seq<Field> := [
    Algorithm, Device, ForwardModel, ObservationModel,
    BackgroundCovarianceMatrix, ObservationCovarianceMatrix,
    BackgroundState, Observations, ObservationTimeSteps,
    Gap, NumSteps, NumEnsembles, StartTime, Args,
    MaxIterations, LearningRate, Logging]

  /** The position of a field in `AllFields`. */
  function FieldIndex(f: Field): (i: nat)
    ensures i < |AllFields| && AllFields[i] == f
  {
    match f
    case Algorithm => 0
    case Device => 1
    case ForwardModel => 2
    case ObservationModel => 3
    case BackgroundCovarianceMatrix => 4
    case ObservationCovarianceMatrix => 5
    case BackgroundState => 6
    case Observations => 7
    case ObservationTimeSteps => 8
    case Gap => 9
    case NumSteps => 10
    case NumEnsembles => 11
    case StartTime => 12
    case Args => 13
    case MaxIterations => 14
    case LearningRate => 15
    case Logging => 16
  }

  /** The Python attribute name of a field. */
  function FieldName(f: Field): string
  {
    match f
    case Algorithm => "algorithm"
    case Device => "device"
    case ForwardModel => "forward_model"
    case ObservationModel => "observation_model"
    case BackgroundCovarianceMatrix => "background_covariance_matrix"
    case ObservationCovarianceMatrix => "observation_covariance_matrix"
    case BackgroundState => "background_state"
    case Observations => "observations"
    case ObservationTimeSteps => "observation_time_steps"
    case Gap => "gap"
    case NumSteps => "num_steps"
    case NumEnsembles => "num_ensembles"
    case StartTime => "start_time"
    case Args => "args"
    case MaxIterations => "max_iterations"
    case LearningRate => "learning_rate"
    case Logging => "logging"
  }

  /** The field a name denotes, if any: the inverse of `FieldName`. */
  function FieldNamed(name: string): (r: Option<Field>)
    ensures r.Some? ==> FieldName(r.value) == name
    ensures r.None? ==> forall f :: FieldName(f) != name
  {
    if name == "algorithm" then Some(Algorithm)
    else if name == "device" then Some(Device)
    else if name == "forward_model" then Some(ForwardModel)
    else if name == "observation_model" then Some(ObservationModel)
    else if name == "background_covariance_matrix" then Some(BackgroundCovarianceMatrix)
    else if name == "observation_covariance_matrix" then Some(ObservationCovarianceMatrix)
    else if name == "background_state" then Some(BackgroundState)
    else if name == "observations" then Some(Observations)
    else if name == "observation_time_steps" then Some(ObservationTimeSteps)
    else if name == "gap" then Some(Gap)
    else if name == "num_steps" then Some(NumSteps)
    else if name == "num_ensembles" then Some(NumEnsembles)
    else if name == "start_time" then Some(StartTime)
    else if name == "args" then Some(Args)
    else if name == "max_iterations" then Some(MaxIterations)
    else if name == "learning_rate" then Some(LearningRate)
    else if name == "logging" then Some(Logging)
    else None
  }

  /** Attributes every dataclass instance has besides its fields; `hasattr` is
      true for them, but the builder has no `set_<name>` for any of them. */
  const InstanceAttributes: set<string> :=
    {"__class__", "__dict__", "__doc__", "__module__", "__init__", "__repr__", "__eq__"}

  /** `hasattr(parameters, name)`. */
  predicate HasAttribute(name: string)
  {
    FieldNamed(name).Some? || name in InstanceAttributes
  }

  /** The `Parameters` record. */
  datatype Parameters = Parameters(
    algorithm: Value, device: Value, forwardModel: Value, observationModel: Value,
    backgroundCovarianceMatrix: Value, observationCovarianceMatrix: Value,
    backgroundState: Value, observations: Value, observationTimeSteps: Value,
    gap: Value, numSteps: Value, numEnsembles: Value, startTime: Value, args: Value,
    maxIterations: Value, learningRate: Value, logging: Value)

  /** `Parameters()`: the record a fresh builder starts from. */
  const Defaults: Parameters := Parameters(
    NoneValue, NoneValue, NoneValue, NoneValue, NoneValue, NoneValue,
    NoneValue, NoneValue, NoneValue, NoneValue, NoneValue, NoneValue,
    NoneValue, NoneValue, NoneValue, NoneValue, NoneValue)

  /** `getattr(p, FieldName(f))`. */
  function Get(p: Parameters, f: Field): Value
  {
    match f
    case Algorithm => p.algorithm
    case Device => p.device
    case ForwardModel => p.forwardModel
    case ObservationModel => p.observationModel
    case BackgroundCovarianceMatrix => p.backgroundCovarianceMatrix
    case ObservationCovarianceMatrix => p.observationCovarianceMatrix
    case BackgroundState => p.backgroundState
    case Observations => p.observations
    case ObservationTimeSteps => p.observationTimeSteps
    case Gap => p.gap
    case NumSteps => p.numSteps
    case NumEnsembles => p.numEnsembles
    case StartTime => p.startTime
    case Args => p.args
    case MaxIterations => p.maxIterations
    case LearningRate => p.learningRate
    case Logging => p.logging
  }

  /** `p` with field `f` overwritten by `v`: exactly one field changes. */
  function With(p: Parameters, f: Field, v: Value): (r: Parameters)
    ensures Get(r, f) == v
    ensures forall g :: g != f ==> Get(r, g) == Get(p, g)
  {
    match f
    case Algorithm => p.(algorithm := v)
    case Device => p.(device := v)
    case ForwardModel => p.(forwardModel := v)
    case ObservationModel => p.(observationModel := v)
    case BackgroundCovarianceMatrix => p.(backgroundCovarianceMatrix := v)
    case ObservationCovarianceMatrix => p.(observationCovarianceMatrix := v)
    case BackgroundState => p.(backgroundState := v)
    case Observations => p.(observations := v)
    case ObservationTimeSteps => p.(observationTimeSteps := v)
    case Gap => p.(gap := v)
    case NumSteps => p.(numSteps := v)
    case NumEnsembles => p.(numEnsembles := v)
    case StartTime => p.(startTime := v)
    case Args => p.(args := v)
    case MaxIterations => p.(maxIterations := v)
    case LearningRate => p.(learningRate := v)
    case Logging => p.(logging := v)
  }

  /** The errors the builder raises. */
  datatype BuildError =
    | NoSuchParameter(name: string)   // AttributeError: not an attribute of Parameters
    | NoSetter(name: string)          // AttributeError: no set_<name> method
    | WrongType(field: Field)         // TypeError from the field's setter
    | NotSquareMatrix                 // LinAlgError: not a 2-D square matrix
    | NotSymmetric                    // LinAlgError: not symmetric
    | SingularMatrix                  // LinAlgError: rank below the size

  /** torch's `allclose` and `linalg.matrix_rank`, whose floating-point
      behaviour is outside this model. */
  datatype LinAlg = LinAlg(allclose: (Matrix, Matrix) -> bool, matrixRank: Matrix -> nat)

  predicate IsSquare2D(m: Tensor)
  {
    |m.shape| == 2 && m.shape[0] == m.shape[1]
  }

  /** `torch.allclose(m, m.T)`. */
  predicate IsSymmetric(la: LinAlg, m: Tensor)
    requires IsSquare2D(m)
  {
    la.allclose(Rows(m), Transpose(Rows(m), m.shape[0]))
  }

  /** `torch.linalg.matrix_rank(m) == m.size(0)`. */
  predicate HasFullRank(la: LinAlg, m: Tensor)
    requires IsSquare2D(m)
  {
    la.matrixRank(Rows(m)) == m.shape[0]
  }

  /** `check_covariance_matrix`: `None` when it returns, else the LinAlgError it
      raises. The checks run in a fixed order, and each error means that the
      checks before it passed. */
  function CheckCovarianceMatrix(la: LinAlg, m: Tensor): (r: Option<BuildError>)
    ensures r.None? <==> IsSquare2D(m) && IsSymmetric(la, m) && HasFullRank(la, m)
    ensures r == Some(NotSquareMatrix) <==> !IsSquare2D(m)
    ensures r == Some(NotSymmetric) <==> IsSquare2D(m) && !IsSymmetric(la, m)
    ensures r == Some(SingularMatrix) <==> IsSquare2D(m) && IsSymmetric(la, m) && !HasFullRank(la, m)
  {
    if !IsSquare2D(m) then Some(NotSquareMatrix)
    else if !IsSymmetric(la, m) then Some(NotSymmetric)
    else if !HasFullRank(la, m) then Some(SingularMatrix)
    else None
  }

  /** The guard of the setter of `f`: the error it raises for `v`, if any. */
  function Rejection(la: LinAlg, f: Field, v: Value): Option<BuildError>
  {
    match f
    case Algorithm | Device => None
    case ForwardModel => if IsCallable(v) then None else Some(WrongType(f))
    case ObservationModel => if v.TensorValue? || IsCallable(v) then None else Some(WrongType(f))
    case BackgroundCovarianceMatrix | ObservationCovarianceMatrix =>
      if !v.TensorValue? then Some(WrongType(f)) else CheckCovarianceMatrix(la, v.t)
    case BackgroundState | Observations => if v.TensorValue? then None else Some(WrongType(f))
    case ObservationTimeSteps => if IsGenericTensor(v) then None else Some(WrongType(f))
    case Gap | NumSteps | NumEnsembles | MaxIterations => if IsInt(v) then None else Some(WrongType(f))
    case StartTime | LearningRate => if IsIntOrFloat(v) then None else Some(WrongType(f))
    case Args => if v.TupleValue? then None else Some(WrongType(f))
    case Logging => if v.BoolValue? then None else Some(WrongType(f))
  }

  /** Whether an admitted value is stored: `set_algorithm` and `set_device` skip
      a value that is not a member of their enum. */
  predicate Stores(f: Field, v: Value)
  {
    match f
    case Algorithm => v.AlgorithmValue?
    case Device => v.DeviceValue?
    case _ => true
  }

  /** The effect of `set_<f>(v)` on the record `p`. */
  function Assign(la: LinAlg, p: Parameters, f: Field, v: Value): Result<Parameters, BuildError>
  {
    match Rejection(la, f, v)
    case Some(e) => Err(e)
    case None => Ok(if Stores(f, v) then With(p, f, v) else p)
  }

  /** The effect of `set_parameter(name, v)` on the record `p`. */
  function SetByName(la: LinAlg, p: Parameters, name: string, v: Value): Result<Parameters, BuildError>
  {
    if !HasAttribute(name) then Err(NoSuchParameter(name))
    else match FieldNamed(name)
      case None => Err(NoSetter(name))
      case Some(f) => Assign(la, p, f, v)
  }

  /** The loop of `set_all_parameters`: each entry in turn, stopping at the first raise. */
  function ApplyEntries(la: LinAlg, p: Parameters, entries: seq<(string, Value)>): Result<Parameters, BuildError>
    decreases |entries|
  {
    if entries == [] then Ok(p)
    else match SetByName(la, p, entries[0].0, entries[0].1)
      case Err(e) => Err(e)
      case Ok(q) => ApplyEntries(la, q, entries[1..])
  }

  /** What `set_all_parameters` accepts: a dict, or a record it first turns into one. */
  datatype ParametersInput = FromDict(entries: seq<(string, Value)>) | FromRecord(record: Parameters)

  /** `asdict(record)`: one entry per field, in field order. */
  function AsDict(p: Parameters): seq<(string, Value)>
  {
    seq(|AllFields|, i requires 0 <= i < |AllFields| => (FieldName(AllFields[i]), Get(p, AllFields[i])))
  }

  function Entries(input: ParametersInput): seq<(string, Value)>
  {
    match input
    case FromDict(entries) => entries
    case FromRecord(p) => AsDict(p)
  }

  /** The record `set_all_parameters` installs: the entries applied to a fresh
      `Parameters()`, not to the builder's current record. */
  function SetAll(la: LinAlg, input: ParametersInput): Result<Parameters, BuildError>
  {
    ApplyEntries(la, Defaults, Entries(input))
  }

  class CaseBuilder {
    var caseName: string
    var parameters: Parameters
    /** The numerical routines of torch the covariance check calls. */
    const linalg: LinAlg

    /** `CaseBuilder(case_name)`: starts from a fresh `Parameters()`. */
    constructor (caseName: string, linalg: LinAlg)
      ensures this.caseName == caseName && this.linalg == linalg
      ensures parameters == Defaults
    {
      this.caseName := caseName;
      this.linalg := linalg;
      parameters := Defaults;
    }

    /** `CaseBuilder(case_name, parameters)`: construction raises whatever
        `set_all_parameters` raises. */
    static method Create(caseName: string, linalg: LinAlg, input: ParametersInput)
      returns (r: Result<CaseBuilder, BuildError>)
      ensures r.Err? <==> SetAll(linalg, input).Err?
      ensures r.Err? ==> r.error == SetAll(linalg, input).error
      ensures r.Ok? ==> fresh(r.value) && r.value.caseName == caseName && r.value.linalg == linalg
      ensures r.Ok? ==> r.value.parameters == SetAll(linalg, input).value
    {
      var b := new CaseBuilder(caseName, linalg);
      var s := b.SetAllParameters(input);
      if s.Err? {
        return Err(s.error);
      }
      return Ok(b);
    }

    /** A setter's promise: on a raise, the error and an unchanged record; on
        success, the builder itself and the record `spec` computes. */
    ghost predicate Reflects(spec: Result<Parameters, BuildError>, before: Parameters,
                             r: Result<CaseBuilder, BuildError>)
      reads this
    {
      match spec
      case Err(e) => r == Err(e) && parameters == before
      case Ok(q) => r == Ok(this) && parameters == q
    }

    method SetAllParameters(input: ParametersInput) returns (r: Result<CaseBuilder, BuildError>)
      modifies this`parameters
      ensures Reflects(SetAll(linalg, input), old(parameters), r)
    {
      var entries := Entries(input);
      var checked := new CaseBuilder("", linalg);
      var i := 0;
      while i < |entries|
        invariant 0 <= i <= |entries|
        invariant fresh(checked) && checked.linalg == linalg
        invariant ApplyEntries(linalg, checked.parameters, entries[i..]) == SetAll(linalg, input)
        invariant parameters == old(parameters)
      {
        var step := checked.SetParameter(entries[i].0, entries[i].1);
        if step.Err? {
          return Err(step.error);
        }
        i := i + 1;
      }
      parameters := checked.parameters;
      return Ok(this);
    }

    method SetParameter(name: string, value: Value) returns (r: Result<CaseBuilder, BuildError>)
      modifies this`parameters
      ensures Reflects(SetByName(linalg, old(parameters), name, value), old(parameters), r)
    {
      if !HasAttribute(name) {
        return Err(NoSuchParameter(name));
      }
      var field := FieldNamed(name);
      if field.None? {
        return Err(NoSetter(name));
      }
      assert SetByName(linalg, parameters, name, value) == Assign(linalg, parameters, field.value, value);
      match field.value
      case Algorithm => r := SetAlgorithm(value);
      case Device => r := SetDevice(value);
      case ForwardModel => r := SetForwardModel(value);
      case ObservationModel => r := SetObservationModel(value);
      case BackgroundCovarianceMatrix => r := SetBackgroundCovarianceMatrix(value);
      case ObservationCovarianceMatrix => r := SetObservationCovarianceMatrix(value);
      case BackgroundState => r := SetBackgroundState(value);
      case Observations => r := SetObservations(value);
      case ObservationTimeSteps => r := SetObservationTimeSteps(value);
      case Gap => r := SetGap(value);
      case NumSteps => r := SetNumSteps(value);
      case NumEnsembles => r := SetNumEnsembles(value);
      case StartTime => r := SetStartTime(value);
      case Args => r := SetArgs(value);
      case MaxIterations => r := SetMaxIterations(value);
      case LearningRate => r := SetLearningRate(value);
      case Logging => r := SetLogging(value);
    }

    method SetAlgorithm(algorithm: Value) returns (r: Result<CaseBuilder, BuildError>)
      modifies this`parameters
      ensures Reflects(Assign(linalg, old(parameters), Algorithm, algorithm), old(parameters), r)
    {
      if algorithm.AlgorithmValue? {
        parameters := parameters.(algorithm := algorithm);
      }
      return Ok(this);
    }

    method SetDevice(device: Value) returns (r: Result<CaseBuilder, BuildError>)
      modifies this`parameters
      ensures Reflects(Assign(linalg, old(parameters), Device, device), old(parameters), r)
    {
      if device.DeviceValue? {
        parameters := parameters.(device := device);
      }
      return Ok(this);
    }

    method SetForwardModel(forwardModel: Value) returns (r: Result<CaseBuilder, BuildError>)
      modifies this`parameters
      ensures Reflects(Assign(linalg, old(parameters), ForwardModel, forwardModel), old(parameters), r)
    {
      if !IsCallable(forwardModel) {
        return Err(WrongType(ForwardModel));
      }
      parameters := parameters.(forwardModel := forwardModel);
      return Ok(this);
    }

    method SetObservationModel(observationModel: Value) returns (r: Result<CaseBuilder, BuildError>)
      modifies this`parameters
      ensures Reflects(Assign(linalg, old(parameters), ObservationModel, observationModel), old(parameters), r)
    {
      if !(observationModel.TensorValue? || IsCallable(observationModel)) {
        return Err(WrongType(ObservationModel));
      }
      parameters := parameters.(observationModel := observationModel);
      return Ok(this);
    }

    method SetBackgroundCovarianceMatrix(matrix: Value) returns (r: Result<CaseBuilder, BuildError>)
      modifies this`parameters
      ensures Reflects(Assign(linalg, old(parameters), BackgroundCovarianceMatrix, matrix), old(parameters), r)
    {
      if !matrix.TensorValue? {
        return Err(WrongType(BackgroundCovarianceMatrix));
      }
      var failure := CheckCovarianceMatrix(linalg, matrix.t);
      if failure.Some? {
        return Err(failure.value);
      }
      parameters := parameters.(backgroundCovarianceMatrix := matrix);
      return Ok(this);
    }

    method SetObservationCovarianceMatrix(matrix: Value) returns (r: Result<CaseBuilder, BuildError>)
      modifies this`parameters
      ensures Reflects(Assign(linalg, old(parameters), ObservationCovarianceMatrix, matrix), old(parameters), r)
    {
      if !matrix.TensorValue? {
        return Err(WrongType(ObservationCovarianceMatrix));
      }
      var failure := CheckCovarianceMatrix(linalg, matrix.t);
      if failure.Some? {
        return Err(failure.value);
      }
      parameters := parameters.(observationCovarianceMatrix := matrix);
      return Ok(this);
    }

    method SetBackgroundState(backgroundState: Value) returns (r: Result<CaseBuilder, BuildError>)
      modifies this`parameters
      ensures Reflects(Assign(linalg, old(parameters), BackgroundState, backgroundState), old(parameters), r)
    {
      if !backgroundState.TensorValue? {
        return Err(WrongType(BackgroundState));
      }
      parameters := parameters.(backgroundState := backgroundState);
      return Ok(this);
    }

    method SetObservations(observations: Value) returns (r: Result<CaseBuilder, BuildError>)
      modifies this`parameters
      ensures Reflects(Assign(linalg, old(parameters), Observations, observations), old(parameters), r)
    {
      if !observations.TensorValue? {
        return Err(WrongType(Observations));
      }
      parameters := parameters.(observations := observations);
      return Ok(this);
    }

    method SetObservationTimeSteps(timeSteps: Value) returns (r: Result<CaseBuilder, BuildError>)
      modifies this`parameters
      ensures Reflects(Assign(linalg, old(parameters), ObservationTimeSteps, timeSteps), old(parameters), r)
    {
      if !IsGenericTensor(timeSteps) {
        return Err(WrongType(ObservationTimeSteps));
      }
      parameters := parameters.(observationTimeSteps := timeSteps);
      return Ok(this);
    }

    method SetGap(gap: Value) returns (r: Result<CaseBuilder, BuildError>)
      modifies this`parameters
      ensures Reflects(Assign(linalg, old(parameters), Gap, gap), old(parameters), r)
    {
      if !IsInt(gap) {
        return Err(WrongType(Gap));
      }
      parameters := parameters.(gap := gap);
      return Ok(this);
    }

    method SetNumSteps(numSteps: Value) returns (r: Result<CaseBuilder, BuildError>)
      modifies this`parameters
      ensures Reflects(Assign(linalg, old(parameters), NumSteps, numSteps), old(parameters), r)
    {
      if !IsInt(numSteps) {
        return Err(WrongType(NumSteps));
      }
      parameters := parameters.(numSteps := numSteps);
      return Ok(this);
    }

    method SetNumEnsembles(numEnsembles: Value) returns (r: Result<CaseBuilder, BuildError>)
      modifies this`parameters
      ensures Reflects(Assign(linalg, old(parameters), NumEnsembles, numEnsembles), old(parameters), r)
    {
      if !IsInt(numEnsembles) {
        return Err(WrongType(NumEnsembles));
      }
      parameters := parameters.(numEnsembles := numEnsembles);
      return Ok(this);
    }

    method SetStartTime(startTime: Value) returns (r: Result<CaseBuilder, BuildError>)
      modifies this`parameters
      ensures Reflects(Assign(linalg, old(parameters), StartTime, startTime), old(parameters), r)
    {
      if !IsIntOrFloat(startTime) {
        return Err(WrongType(StartTime));
      }
      parameters := parameters.(startTime := startTime);
      return Ok(this);
    }

    method SetArgs(args: Value) returns (r: Result<CaseBuilder, BuildError>)
      modifies this`parameters
      ensures Reflects(Assign(linalg, old(parameters), Args, args), old(parameters), r)
    {
      if !args.TupleValue? {
        return Err(WrongType(Args));
      }
      parameters := parameters.(args := args);
      return Ok(this);
    }

    method SetMaxIterations(maxIterations: Value) returns (r: Result<CaseBuilder, BuildError>)
      modifies this`parameters
      ensures Reflects(Assign(linalg, old(parameters), MaxIterations, maxIterations), old(parameters), r)
    {
      if !IsInt(maxIterations) {
        return Err(WrongType(MaxIterations));
      }
      parameters := parameters.(maxIterations := maxIterations);
      return Ok(this);
    }

    method SetLearningRate(learningRate: Value) returns (r: Result<CaseBuilder, BuildError>)
      modifies this`parameters
      ensures Reflects(Assign(linalg, old(parameters), LearningRate, learningRate), old(parameters), r)
    {
      if !IsIntOrFloat(learningRate) {
        return Err(WrongType(LearningRate));
      }
      parameters := parameters.(learningRate := learningRate);
      return Ok(this);
    }

    method SetLogging(logging: Value) returns (r: Result<CaseBuilder, BuildError>)
      modifies this`parameters
      ensures Reflects(Assign(linalg, old(parameters), Logging, logging), old(parameters), r)
    {
      if !logging.BoolValue? {
        return Err(WrongType(Logging));
      }
      parameters := parameters.(logging := logging);
      return Ok(this);
    }
  }
}
