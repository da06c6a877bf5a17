/** How the answers of workload managers become results (pkg/provision/provisiner.go). */
module Outcomes {
  import opened Workloads

  /** An error value and what it wraps. The three `…Response` layers are the values of the
      private `response` type, which only `Ok`, `UnChanged` and `Paused` can build. */
  datatype GoError =
    | Plain(text: string)
    | NoActionNeeded
    | Wrapped(message: string, cause: GoError)
    | OkResponse
    | UnChangedResponse(reason: Option<GoError>)
    | PausedResponse
  {
    /** The text of the whole chain. */
    function Text(): string
    {
      match this
      case Plain(text) => text
      case NoActionNeeded => "no action needed"
      case Wrapped(message, cause) => message + ": " + cause.Text()
      case OkResponse => ""
      case UnChangedResponse(Some(reason)) => reason.Text()
      case UnChangedResponse(None) => ""
      case PausedResponse => "paused"
    }

    function Unwrap(): Option<GoError>
    {
      match this
      case Wrapped(_, cause) => Some(cause)
      case UnChangedResponse(reason) => reason
      case PausedResponse => Some(Plain("paused"))
      case _ => None
    }

    /** The state a response layer carries; nothing for any other layer. */
    function Response(): Option<ResultState>
    {
      match this
      case OkResponse => Some(Ok)
      case UnChangedResponse(_) => Some(UnChanged)
      case PausedResponse => Some(Paused)
      case _ => None
    }

    function Size(): nat
    {
      match this
      case Wrapped(_, cause) => 1 + cause.Size()
      case UnChangedResponse(Some(reason)) => 1 + reason.Size()
      case PausedResponse => 1
      case _ => 0
    }
  }

  /** The layers of an error, outermost first. */
  function Chain(err: GoError): seq<GoError>
    decreases err.Size()
  {
    [err] + match err.Unwrap() case None => [] case Some(cause) => Chain(cause)
  }

  /** `errors.As` with a response target: the state of the outermost response. */
  function OutermostResponse(err: GoError): Option<ResultState>
    decreases err.Size()
  {
    match err.Response()
    case Some(s) => Some(s)
    case None =>
      match err.Unwrap()
      case None => None
      case Some(cause) => OutermostResponse(cause)
  }

  /** `errors.Is` with the no-action sentinel. */
  predicate IsNoAction(err: GoError)
    decreases err.Size()
  {
    err == NoActionNeeded || match err.Unwrap() case None => false case Some(cause) => IsNoAction(cause)
  }

  function StateOf(err: Option<GoError>): ResultState
  {
    match err
    case None => Ok
    case Some(e) => (match OutermostResponse(e) case None => Error case Some(s) => s)
  }

  function TextOf(err: Option<GoError>): string
  {
    match err case None => "" case Some(e) => e.Text()
  }

  /** The layer at `i` is a response with state `s`, and no layer outside it is a response. */
  ghost predicate FirstResponse(layers: seq<GoError>, i: nat, s: ResultState)
  {
    && i < |layers| && layers[i].Response() == Some(s)
    && forall j :: 0 <= j < i ==> layers[j].Response() == None
  }

  /** A search along the chain answers with the outermost response layer. */
  lemma {:induction false} FirstIsOutermost(err: GoError, i: nat, s: ResultState)
    requires FirstResponse(Chain(err), i, s)
    ensures OutermostResponse(err) == Some(s)
    decreases err.Size()
  {
    assert Chain(err)[0] == err;
    if i > 0 {
      var inner := Chain(err.Unwrap().value);
      assert Chain(err) == [err] + inner;
      forall j | 0 <= j < i - 1 ensures inner[j].Response() == None {
        assert inner[j] == Chain(err)[j + 1];
      }
      FirstIsOutermost(err.Unwrap().value, i - 1, s);
    }
  }

  /** Where the search found its answer. */
  lemma {:induction false} OutermostIsFirst(err: GoError) returns (i: nat)
    requires OutermostResponse(err).Some?
    ensures FirstResponse(Chain(err), i, OutermostResponse(err).value)
    decreases err.Size()
  {
    if err.Response().Some? {
      i := 0;
    } else {
      i := OutermostIsFirst(err.Unwrap().value);
      i := i + 1;
    }
  }

  /** The stored state is that of the outermost response; without one it is error, and ok for no
      error at all. Nothing outside {ok, error, unchanged, paused} is ever produced. */
  lemma Classification(err: Option<GoError>)
    ensures err == None ==> StateOf(err) == Ok
    ensures err != None ==>
      forall i: nat, s :: FirstResponse(Chain(err.value), i, s) ==> StateOf(err) == s
    ensures err != None ==>
      (StateOf(err) == Error <==>
        forall i :: 0 <= i < |Chain(err.value)| ==> Chain(err.value)[i].Response() == None)
    ensures StateOf(err) in {Ok, Error, UnChanged, Paused}
  {
    if err != None {
      var layers := Chain(err.value);
      forall i: nat, s | FirstResponse(layers, i, s) ensures StateOf(err) == s {
        FirstIsOutermost(err.value, i, s);
      }
      ResponseStates(err.value);
      if OutermostResponse(err.value).Some? {
        var i := OutermostIsFirst(err.value);
      } else {
        NoResponse(err.value);
      }
    }
  }

  lemma {:induction false} NoResponse(err: GoError)
    requires OutermostResponse(err) == None
    ensures forall i :: 0 <= i < |Chain(err)| ==> Chain(err)[i].Response() == None
    decreases err.Size()
  {
    if err.Unwrap().Some? {
      NoResponse(err.Unwrap().value);
    }
  }

  lemma {:induction false} ResponseStates(err: GoError)
    ensures OutermostResponse(err) in {None, Some(Ok), Some(UnChanged), Some(Paused)}
    decreases err.Size()
  {
    if err.Response() == None && err.Unwrap() != None {
      ResponseStates(err.Unwrap().value);
    }
  }

  /** What each layer means by itself, and that wrapping changes nothing. */
  lemma LayerStates(reason: Option<GoError>, message: string, err: GoError, text: string)
    ensures StateOf(Some(OkResponse)) == Ok
    ensures StateOf(Some(UnChangedResponse(reason))) == UnChanged
    ensures StateOf(Some(PausedResponse)) == Paused
    ensures StateOf(Some(Plain(text))) == Error && StateOf(Some(NoActionNeeded)) == Error
    ensures StateOf(Some(Wrapped(message, err))) == StateOf(Some(err))
  {}

  ghost predicate EndsIn(all: string, end: string)
  {
    exists front :: all == front + end
  }

  /** The text of an error ends in the text of each of its layers: nothing of the chain is lost. */
  lemma {:induction false} TextHasAllLayers(err: GoError, i: nat)
    requires i < |Chain(err)|
    ensures EndsIn(err.Text(), Chain(err)[i].Text())
    decreases err.Size()
  {
    if i == 0 {
      EndsInItself(err.Text());
    } else {
      InnerLayer(err, i);
      var cause := err.Unwrap().value;
      TextHasAllLayers(cause, i - 1);
      CauseEndsText(err);
      EndsInEnd(err.Text(), cause.Text(), Chain(cause)[i - 1].Text());
    }
  }

  lemma InnerLayer(err: GoError, i: nat)
    requires 0 < i < |Chain(err)|
    ensures err.Unwrap().Some? && i - 1 < |Chain(err.Unwrap().value)|
    ensures Chain(err.Unwrap().value)[i - 1] == Chain(err)[i]
  {}

  lemma EndsInEnd(a: string, b: string, c: string)
    requires EndsIn(a, b) && EndsIn(b, c)
    ensures EndsIn(a, c)
  {
    var x :| a == x + b;
    var y :| b == y + c;
    assert a == (x + y) + c;
  }

  lemma EndsInItself(all: string)
    ensures EndsIn(all, all)
  {
    assert all == "" + all;
  }

  lemma CauseEndsText(err: GoError)
    requires err.Unwrap().Some?
    ensures EndsIn(err.Text(), err.Unwrap().value.Text())
  {
    EndsInItself(err.Text());
    if err.Wrapped? {
      assert err.Text() == (err.message + ": ") + err.cause.Text();
    }
  }

  /** The no-action sentinel is found exactly if it is one of the layers. */
  lemma {:induction false} NoActionIsALayer(err: GoError)
    ensures IsNoAction(err) <==> NoActionNeeded in Chain(err)
    decreases err.Size()
  {
    if err.Unwrap().Some? {
      NoActionIsALayer(err.Unwrap().value);
    }
  }

  /** `setState`: overwrite state and text of a result and leave its data alone. */
  method SetState(result: Result, err: Option<GoError>) returns (r: Result)
    ensures r == Result(StateOf(err), TextOf(err), result.data)
  {
    var state, text := Ok, "";
    if err.Some? {
      text := err.value.Text();
      state := Error;
      var at := err;
      while at.Some?
        invariant at.None? ==> state == StateOf(err)
        invariant at.Some? ==> state == Error && OutermostResponse(at.value) == OutermostResponse(err.value)
        decreases at.Some?, if at.Some? then at.value.Size() else 0
      {
        match at.value.Response() {
          case Some(s) => state := s; at := None;
          case None => at := at.value.Unwrap();
        }
      }
    }
    r := result.(state := state, error := text);
  }

  /** What a manager returns from provisioning or updating: data to encode, and an error. */
  datatype Answer = Answer(data: Encoding, err: Option<GoError>)

  datatype Encoding = Json(text: string) | Unencodable(reason: string)

  /** What the engine gets from its provisioner: a result, "no action needed", or an error
      together with the part of the result that was filled in. */
  datatype Outcome = Done(result: Result) | NoAction | Failed(partial: Result, error: string)

  function EmptyResult(): Result { Result(Init, "", "") }

  function Built(answer: Answer): Outcome
  {
    var r := Result(StateOf(answer.err), TextOf(answer.err), "");
    match answer.data
    case Json(text) => Done(r.(data := text))
    case Unencodable(reason) => Failed(r, "failed to encode result: " + reason)
  }

  method BuildResult(answer: Answer) returns (o: Outcome)
    ensures o == Built(answer)
    ensures o.Done? ==> o.result.state in {Ok, Error, UnChanged, Paused}
    ensures if answer.data.Json? then o.Done? && o.result.data == answer.data.text else o.Failed?
  {
    var result := SetState(EmptyResult(), answer.err);
    Classification(answer.err);
    match answer.data {
      case Unencodable(reason) => o := Failed(result, "failed to encode result: " + reason);
      case Json(text) =>
        result := result.(data := text);
        o := Done(result);
    }
  }

  datatype Pauser = Pauser(
    pause: (DlId, Workload) -> Option<GoError>,
    resume: (DlId, Workload) -> Option<GoError>)

  datatype Manager = Manager(
    provision: (DlId, Workload) -> Answer,
    deprovision: (DlId, Workload) -> Option<GoError>,
    updater: Option<(DlId, Workload) -> Answer>,
    pauser: Option<Pauser>)

  /** What the engine sees of a provisioner. Each answer is a function of operation and workload. */
  datatype Provisioner = Provisioner(
    provision: (DlId, Workload) -> Outcome,
    deprovision: (DlId, Workload) -> Option<string>,
    update: (DlId, Workload) -> Outcome,
    pause: (DlId, Workload) -> Outcome,
    resume: (DlId, Workload) -> Outcome,
    canUpdate: WorkloadType -> bool)

  /** Results carry only the states a manager can answer with. */
  ghost predicate WellBehaved(p: Provisioner)
  {
    forall id, w ::
      && Reported(p.provision(id, w)) && Reported(p.update(id, w))
      && Reported(p.pause(id, w)) && Reported(p.resume(id, w))
  }

  predicate Reported(o: Outcome)
  {
    o.Done? ==> o.result.state in {Ok, Error, UnChanged, Paused}
  }

  function Unknown(w: Workload): string { "unknown workload type '" + w.typ + "'" }

  /** A no-action answer goes through untouched; anything else is classified. */
  function Answered(answer: Answer): Outcome
  {
    if answer.err.Some? && IsNoAction(answer.err.value) then NoAction else Built(answer)
  }

  function ProvisionWith(managers: map<WorkloadType, Manager>, id: DlId, w: Workload): Outcome
  {
    if w.typ !in managers then Failed(EmptyResult(), Unknown(w))
    else Answered(managers[w.typ].provision(id, w))
  }

  function DeprovisionWith(managers: map<WorkloadType, Manager>, id: DlId, w: Workload): Option<string>
  {
    if w.typ !in managers then Some(Unknown(w))
    else match managers[w.typ].deprovision(id, w) case None => None case Some(e) => Some(e.Text())
  }

  predicate CanUpdateWith(managers: map<WorkloadType, Manager>, typ: WorkloadType)
  {
    typ in managers && managers[typ].updater.Some?
  }

  function UpdateWith(managers: map<WorkloadType, Manager>, id: DlId, w: Workload): Outcome
  {
    if w.typ !in managers then Failed(EmptyResult(), Unknown(w))
    else match managers[w.typ].updater
      case None => Failed(EmptyResult(), "workload type does not support updating")
      case Some(update) => Answered(update(id, w))
  }

  /** The error a manager gives for pausing: its own if it is a `Pauser`, `Paused()` otherwise. */
  function PauseAnswer(m: Manager, id: DlId, w: Workload): Option<GoError>
  {
    match m.pauser case None => Some(PausedResponse) case Some(p) => p.pause(id, w)
  }

  function ResumeAnswer(m: Manager, id: DlId, w: Workload): Option<GoError>
  {
    match m.pauser case None => Some(OkResponse) case Some(p) => p.resume(id, w)
  }

  /** Pausing and resuming look at the state in the snapshot they are given and keep its data. */
  function PauseWith(managers: map<WorkloadType, Manager>, id: DlId, w: Workload): Outcome
  {
    if w.result.state != Ok then Failed(w.result, "can only pause workloads in ok state")
    else if w.typ !in managers then Failed(w.result, Unknown(w))
    else
      var err := PauseAnswer(managers[w.typ], id, w);
      Done(Result(StateOf(err), TextOf(err), w.result.data))
  }

  function ResumeWith(managers: map<WorkloadType, Manager>, id: DlId, w: Workload): Outcome
  {
    if w.result.state != Paused then Failed(w.result, "can only resume workloads in paused state")
    else if w.typ !in managers then Failed(w.result, Unknown(w))
    else
      var err := ResumeAnswer(managers[w.typ], id, w);
      Done(Result(StateOf(err), TextOf(err), w.result.data))
  }

  /** `state` is that of the first response among the layers, or error if there is none. */
  ghost predicate HasStateOf(state: ResultState, layers: seq<GoError>)
  {
    && (forall i: nat, s :: FirstResponse(layers, i, s) ==> state == s)
    && ((forall i :: 0 <= i < |layers| ==> layers[i].Response() == None) ==> state == Error)
  }

  /** State and text of the result are those of the answer. */
  ghost predicate Says(r: Result, err: Option<GoError>)
  {
    match err
    case None => r.state == Ok && r.error == ""
    case Some(e) => r.error == e.Text() && HasStateOf(r.state, Chain(e))
  }

  /** Pausing succeeds exactly for an ok snapshot of a known type, and then says paused unless a
      `Pauser` says otherwise; it never loses the data, and a refusal hands the result back. */
  lemma PauseOutcome(managers: map<WorkloadType, Manager>, id: DlId, w: Workload)
    ensures var o := PauseWith(managers, id, w);
      && (o.Done? <==> w.result.state == Ok && w.typ in managers)
      && (o.Done? ==> o.result.data == w.result.data && o.result.state in {Ok, Error, UnChanged, Paused})
      && (o.Done? && managers[w.typ].pauser.None? ==> o.result.state == Paused && o.result.error == "paused")
      && (o.Done? && managers[w.typ].pauser.Some? ==> Says(o.result, managers[w.typ].pauser.value.pause(id, w)))
      && (!o.Done? ==> o.Failed? && o.partial == w.result)
  {
    if w.typ in managers { Classification(PauseAnswer(managers[w.typ], id, w)); }
  }

  /** Resuming succeeds exactly for a paused snapshot of a known type, and then says ok unless a
      `Pauser` says otherwise. What a pause of a manager that is no `Pauser` made, a resume undoes:
      state and data come back. */
  lemma ResumeOutcome(managers: map<WorkloadType, Manager>, id: DlId, w: Workload)
    ensures var o := ResumeWith(managers, id, w);
      && (o.Done? <==> w.result.state == Paused && w.typ in managers)
      && (o.Done? ==> o.result.data == w.result.data && o.result.state in {Ok, Error, UnChanged, Paused})
      && (o.Done? && managers[w.typ].pauser.None? ==> o.result.state == Ok && o.result.error == "")
      && (o.Done? && managers[w.typ].pauser.Some? ==> Says(o.result, managers[w.typ].pauser.value.resume(id, w)))
      && (!o.Done? ==> o.Failed? && o.partial == w.result)
    ensures var p := PauseWith(managers, id, w);
      p.Done? && managers[w.typ].pauser.None? ==>
        var r := ResumeWith(managers, id, w.WithResults(p.result));
        r.Done? && r.result.state == w.result.state && r.result.data == w.result.data
  {
    if w.typ in managers { Classification(ResumeAnswer(managers[w.typ], id, w)); }
  }

  method Pause(managers: map<WorkloadType, Manager>, id: DlId, w: Workload) returns (o: Outcome)
    ensures o == PauseWith(managers, id, w)
  {
    if w.result.state != Ok {
      return Failed(w.result, "can only pause workloads in ok state");
    }
    if w.typ !in managers {
      return Failed(w.result, Unknown(w));
    }
    var err: Option<GoError> := Some(PausedResponse);
    if managers[w.typ].pauser.Some? {
      err := managers[w.typ].pauser.value.pause(id, w);
    }
    var result := SetState(w.result, err);
    o := Done(result);
  }

  method Resume(managers: map<WorkloadType, Manager>, id: DlId, w: Workload) returns (o: Outcome)
    ensures o == ResumeWith(managers, id, w)
  {
    if w.result.state != Paused {
      return Failed(w.result, "can only resume workloads in paused state");
    }
    if w.typ !in managers {
      return Failed(w.result, Unknown(w));
    }
    var err: Option<GoError> := Some(OkResponse);
    if managers[w.typ].pauser.Some? {
      err := managers[w.typ].pauser.value.resume(id, w);
    }
    var result := SetState(w.result, err);
    o := Done(result);
  }

  /** `NewMapProvisioner`. */
  function MapProvisioner(managers: map<WorkloadType, Manager>): Provisioner
  {
    Provisioner(
      (id, w) => ProvisionWith(managers, id, w),
      (id, w) => DeprovisionWith(managers, id, w),
      (id, w) => UpdateWith(managers, id, w),
      (id, w) => PauseWith(managers, id, w),
      (id, w) => ResumeWith(managers, id, w),
      typ => CanUpdateWith(managers, typ))
  }

  /** What the engine makes of a manager's answer: a no-action layer anywhere in the error means that
      nothing is to be done; data that cannot be encoded is a failure; and otherwise the data is kept,
      with the state of the outermost response, error if there is none, and ok without an error. */
  ghost predicate Reflects(o: Outcome, answer: Answer)
  {
    if answer.err.Some? && NoActionNeeded in Chain(answer.err.value) then o == NoAction
    else
      match answer.data
      case Unencodable(_) => o.Failed?
      case Json(text) =>
        && o.Done? && o.result.data == text
        && Says(o.result, answer.err)
  }

  lemma AnsweredReflects(answer: Answer)
    ensures Reflects(Answered(answer), answer)
  {
    Classification(answer.err);
    if answer.err.Some? { NoActionIsALayer(answer.err.value); }
  }

  /** The provisioner asks the manager of the workload's type, and its updater for an update. A type
      without a manager, and an update without an updater, fail. */
  lemma ProvisionerAnswers(managers: map<WorkloadType, Manager>, id: DlId, w: Workload)
    ensures var p := MapProvisioner(managers);
      && (w.typ !in managers ==>
            p.provision(id, w).Failed? && p.update(id, w).Failed? && p.deprovision(id, w).Some? && !p.canUpdate(w.typ))
      && (w.typ in managers ==>
            var m := managers[w.typ];
            && Reflects(p.provision(id, w), m.provision(id, w))
            && (p.canUpdate(w.typ) <==> m.updater.Some?)
            && (if m.updater.Some? then Reflects(p.update(id, w), m.updater.value(id, w)) else p.update(id, w).Failed?)
            && (match m.deprovision(id, w)
                case None => p.deprovision(id, w) == None
                case Some(err) => p.deprovision(id, w) == Some(err.Text())))
  {
    if w.typ in managers {
      AnsweredReflects(managers[w.typ].provision(id, w));
      if managers[w.typ].updater.Some? { AnsweredReflects(managers[w.typ].updater.value(id, w)); }
    }
  }

  /** Whatever the managers answer, every result is ok, error, unchanged or paused. */
  lemma MapProvisionerIsWellBehaved(managers: map<WorkloadType, Manager>)
    ensures WellBehaved(MapProvisioner(managers))
  {
    var p := MapProvisioner(managers);
    forall id, w
      ensures Reported(p.provision(id, w)) && Reported(p.update(id, w))
      ensures Reported(p.pause(id, w)) && Reported(p.resume(id, w))
    {
      if w.typ in managers {
        var m := managers[w.typ];
        Classification(m.provision(id, w).err);
        if m.updater.Some? { Classification(m.updater.value(id, w).err); }
        Classification(PauseAnswer(m, id, w));
        Classification(ResumeAnswer(m, id, w));
      }
    }
  }
}
