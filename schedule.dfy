/** What one training run does to the trainer's observable state, as functions of that state:
    the phase events and the checkpoints they write (`check_events` and the four handlers), the
    train and test passes and the loss each dispatches, and the whole epoch loop of `fit`. The
    imperative `Training.Trainer` is proved to follow these functions step by step. */
module Schedule {
  import opened Options
  import opened Loss
  import opened Checkpoints

  /** The trainer's configuration, fixed at construction, with the constructor's defaults. */
  datatype Config = Config(epochs: int := 4, switchEpoch: int := 2, testEveryNEpochs: int := 1,
                           lossMode: string := TwoPhaseLinearLoss, earlinessFactor: real := 0.7,
                           entropyFactor: real := 0.3, store: string := "/tmp")

  /** The four phase notifications, each with the epoch counter at which it fired. */
  datatype Event =
    | StartingClassification(at: int)
    | EndingClassification(at: int)
    | StartingEarliness(at: int)
    | EndingEarliness(at: int)

  /** What `snapshot` stores and `resume` restores: the epoch counter and the logger's data (the
      epochs at which test statistics were logged). */
  datatype Snapshot = Snapshot(epoch: int, loggedData: seq<int>)
  datatype Write = Write(path: string, snapshot: Snapshot)

  datatype PassKind = TrainPass | TestPass
  /** One pass over a data loader, at an epoch, with the loss it dispatched to. */
  datatype Pass = Pass(kind: PassKind, epoch: int, loss: LossCall)

  /** The exceptions the control logic can raise. */
  datatype Error = ValueError | ZeroDivisionError
  datatype FitOutcome = Completed | Raised(error: Error)

  /** The observable state of a trainer and its checkpoint store: the epoch counter, the logger's
      data, the checkpoint files, and the records of events fired, snapshots written and passes run. */
  datatype Run = Run(epoch: int, loggedData: seq<int>, files: map<string, Snapshot>,
                     events: seq<Event>, writes: seq<Write>, passes: seq<Pass>)

  /** Python's `a % b`, which takes the sign of the divisor; raises for `b == 0`. */
  function PyMod(a: int, b: int): (r: int)
    requires b != 0
    ensures 0 < b ==> 0 <= r < b
    ensures b < 0 ==> b < r <= 0
    ensures 0 < b ==> r == a % b
    ensures r == 0 <==> a % b == 0
  {
    if 0 < b || a % b == 0 then a % b else a % b + b
  }

  /** The configurations under which a run cannot raise: a known loss mode and a non-zero cadence. */
  predicate Runnable(cfg: Config) {
    cfg.lossMode in LossModes && cfg.testEveryNEpochs != 0
  }

  /** The events `check_events` fires at epoch `e`: at most one branch of the priority chain
      "start" (0), then "switch" (switch epoch), then "end" (epoch budget). */
  function FiredAt(cfg: Config, e: int): (fired: seq<Event>)
    ensures |fired| <= 2
    ensures forall ev :: ev in fired ==> ev.at == e
    ensures fired == [] <==> e != 0 && e != cfg.switchEpoch && e != cfg.epochs
    ensures StartingClassification(e) in fired <==> e == 0
    ensures EndingClassification(e) in fired <==> e != 0 && e == cfg.switchEpoch
    ensures StartingEarliness(e) in fired <==> e != 0 && e == cfg.switchEpoch
    ensures EndingEarliness(e) in fired <==> e != 0 && e != cfg.switchEpoch && e == cfg.epochs
    ensures EndingClassification(e) in fired ==> fired == [EndingClassification(e), StartingEarliness(e)]
    ensures StartingClassification(e) in fired ==> fired == [StartingClassification(e)]
    ensures EndingEarliness(e) in fired ==> fired == [EndingEarliness(e)]
  {
    if e == 0 then [StartingClassification(e)]
    else if e == cfg.switchEpoch then [EndingClassification(e), StartingEarliness(e)]
    else if e == cfg.epochs then [EndingEarliness(e)]
    else []
  }

  /** The checkpoint an event's handler writes, if any. */
  function EventSlot(store: string, ev: Event): Option<string> {
    match ev
    case EndingClassification(_) => Some(ClassificationModelName(store))
    case EndingEarliness(_) => Some(EarlinessModelName(store))
    case _ => None
  }

  /** `snapshot(path)`: store the current epoch and logged data under `path`. */
  function TakeSnapshot(r: Run, path: string): Run {
    var s := Snapshot(r.epoch, r.loggedData);
    r.(files := r.files[path := s], writes := r.writes + [Write(path, s)])
  }

  /** One event handler: record the notification, then write the checkpoint it calls for. */
  function Handle(cfg: Config, r: Run, ev: Event): (r': Run)
    ensures r'.epoch == r.epoch && r'.loggedData == r.loggedData && r'.passes == r.passes
    ensures r'.events == r.events + [ev]
    ensures EventSlot(cfg.store, ev) == None ==> r'.files == r.files && r'.writes == r.writes
    ensures EventSlot(cfg.store, ev).Some? ==>
              var path := EventSlot(cfg.store, ev).value;
              r'.files == r.files[path := Snapshot(r.epoch, r.loggedData)] &&
              r'.writes == r.writes + [Write(path, Snapshot(r.epoch, r.loggedData))]
  {
    var r1 := r.(events := r.events + [ev]);
    match EventSlot(cfg.store, ev)
    case Some(path) => TakeSnapshot(r1, path)
    case None => r1
  }

  /** The handlers of `evs`, in order. */
  function HandleAll(cfg: Config, r: Run, evs: seq<Event>): (r': Run)
    ensures r'.epoch == r.epoch && r'.loggedData == r.loggedData && r'.passes == r.passes
    ensures r'.events == r.events + evs
    decreases |evs|
  {
    if evs == [] then r else HandleAll(cfg, Handle(cfg, r, evs[0]), evs[1..])
  }

  /** `check_events`. */
  function CheckEventsSpec(cfg: Config, r: Run): (r': Run)
    ensures r'.epoch == r.epoch && r'.loggedData == r.loggedData && r'.passes == r.passes
    ensures r'.events == r.events + FiredAt(cfg, r.epoch)
  {
    HandleAll(cfg, r, FiredAt(cfg, r.epoch))
  }

  /** `new_epoch`: check the events due at the current epoch, then advance the counter. */
  function NewEpochSpec(cfg: Config, r: Run): (r': Run)
    ensures r'.epoch == r.epoch + 1 && r'.loggedData == r.loggedData && r'.passes == r.passes
    ensures r'.events == r.events + FiredAt(cfg, r.epoch)
  {
    var r1 := CheckEventsSpec(cfg, r);
    r1.(epoch := r1.epoch + 1)
  }

  /** `train_epoch(self.epoch)` or `test_epoch(self.epoch)`, taken as one step: the pass is
      recorded with the loss it dispatched, or `ValueError` is raised for an unknown mode. */
  function PassSpec(cfg: Config, r: Run, kind: PassKind): (out: (Run, Option<Error>))
    ensures out.1 == None <==> cfg.lossMode in LossModes
    ensures out.1 != None ==> out.1 == Some(ValueError) && out.0 == r
    ensures out.1 == None ==> out.0 == r.(passes := r.passes + [Pass(kind, r.epoch, DispatchedCall(cfg, r.epoch))])
  {
    match LossCriterion(Some(r.epoch), cfg.lossMode, r.epoch, cfg.switchEpoch,
                        cfg.earlinessFactor, cfg.entropyFactor)
    case Call(c) => (r.(passes := r.passes + [Pass(kind, r.epoch, c)]), None)
    case WrongLossMode => (r, Some(ValueError))
  }

  /** One iteration of the loop in `fit`: new epoch, train pass, then, on a test epoch, a test
      pass whose statistics are logged at that epoch. */
  function IterationSpec(cfg: Config, r: Run): (out: (Run, Option<Error>))
    ensures out.0.epoch == r.epoch + 1
  {
    var (r1, err1) := PassSpec(cfg, NewEpochSpec(cfg, r), TrainPass);
    if err1.Some? then (r1, err1)
    else if cfg.testEveryNEpochs == 0 then (r1, Some(ZeroDivisionError))
    else if PyMod(r1.epoch, cfg.testEveryNEpochs) != 0 then (r1, None)
    else
      var (r2, err2) := PassSpec(cfg, r1, TestPass);
      if err2.Some? then (r2, err2)
      else (r2.(loggedData := r2.loggedData + [r2.epoch]), None)
  }

  /** `fit`: iterate while the counter is below the budget, then check the events once more. */
  function FitSpec(cfg: Config, r: Run): (Run, FitOutcome)
    decreases cfg.epochs - r.epoch
  {
    if r.epoch < cfg.epochs then
      var (r1, err) := IterationSpec(cfg, r);
      if err.Some? then (r1, Raised(err.value)) else FitSpec(cfg, r1)
    else
      (CheckEventsSpec(cfg, r), Completed)
  }

  // ---------------------------------------------------------------------------------------
  // Closed forms of a run, used to state what `fit` does as a whole

  function Max(a: int, b: int): int {
    if a < b then b else a
  }

  /** Events fired by the checks at epochs lo, lo+1, ..., hi-1. */
  function EventsBetween(cfg: Config, lo: int, hi: int): seq<Event>
    decreases hi - lo
  {
    if hi <= lo then [] else FiredAt(cfg, lo) + EventsBetween(cfg, lo + 1, hi)
  }

  /** All events of a run of `fit` that starts with the counter at `start`: one check per
      iteration, then the final check at the epoch where the loop stopped. */
  function RunEvents(cfg: Config, start: int): seq<Event> {
    EventsBetween(cfg, start, Max(start, cfg.epochs)) + FiredAt(cfg, Max(start, cfg.epochs))
  }

  /** The checkpoint writes, as (path, stored epoch), that a sequence of events causes. */
  function EventSlots(store: string, evs: seq<Event>): seq<(string, int)>
    decreases |evs|
  {
    if evs == [] then []
    else
      match EventSlot(store, evs[0])
      case Some(path) => [(path, evs[0].at)] + EventSlots(store, evs[1..])
      case None => EventSlots(store, evs[1..])
  }

  /** The (path, stored epoch) of each write. */
  function WriteSlots(ws: seq<Write>): seq<(string, int)>
    decreases |ws|
  {
    if ws == [] then [] else WriteSlots(ws[..|ws| - 1]) + [(ws[|ws| - 1].path, ws[|ws| - 1].snapshot.epoch)]
  }

  /** The loss every pass at epoch `e` dispatches to, for a known loss mode. */
  function DispatchedCall(cfg: Config, e: int): LossCall
    requires cfg.lossMode in LossModes
  {
    LossCriterion(Some(e), cfg.lossMode, e, cfg.switchEpoch, cfg.earlinessFactor, cfg.entropyFactor).call
  }

  /** Whether epoch `e` runs a test pass. */
  predicate IsTestEpoch(cfg: Config, e: int)
    requires cfg.testEveryNEpochs != 0
  {
    PyMod(e, cfg.testEveryNEpochs) == 0
  }

  /** The passes of the iteration whose counter reaches `e`. */
  function IterationPasses(cfg: Config, e: int): seq<Pass>
    requires Runnable(cfg)
  {
    [Pass(TrainPass, e, DispatchedCall(cfg, e))]
      + (if IsTestEpoch(cfg, e) then [Pass(TestPass, e, DispatchedCall(cfg, e))] else [])
  }

  /** The passes of the iterations that move the counter from lo to hi. */
  function PassesBetween(cfg: Config, lo: int, hi: int): seq<Pass>
    requires Runnable(cfg)
    decreases hi - lo
  {
    if hi <= lo then [] else IterationPasses(cfg, lo + 1) + PassesBetween(cfg, lo + 1, hi)
  }

  /** The test epochs among lo+1, ..., hi, in order. */
  function TestEpochsBetween(cfg: Config, lo: int, hi: int): seq<int>
    requires cfg.testEveryNEpochs != 0
    decreases hi - lo
  {
    if hi <= lo then []
    else (if IsTestEpoch(cfg, lo + 1) then [lo + 1] else []) + TestEpochsBetween(cfg, lo + 1, hi)
  }
}
