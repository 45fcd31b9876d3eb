/** The predictor screen shown after a successful login: the trap
    selection, the quota-gated signal request, the refresh button and the
    limit-reached view derived from the remaining quota. */
module Predictor {
  import opened Common
  import opened Signal

  /** The trap counts offered by the selection buttons. */
  const TrapChoices: set<nat> := {1, 3, 5}

  /** The outcome of usePrediction(playerId): consumed, refused with a
      message ("" when absent), or an exception. */
  datatype Consumption = Consumed | Refused(message: string) | ConsumptionThrew

  /** What handleGetSignal is waiting for: nothing, the usePrediction reply
      (with the trap count its closure captured), or the 600 ms timer that
      will show the generated grid and confidence. */
  datatype Pending =
    | Idle
    | Consuming(traps: nat)
    | Revealing(grid: seq<Cell>, confidence: int)

  /** A grid the generator can produce for some offered trap count. */
  ghost predicate IsSignal(g: seq<Cell>)
  {
    IsStarSignal(g) || IsMineSignal(g, 3) || IsMineSignal(g, 5)
  }

  /** The condition under which the screen renders LimitReachedView. */
  predicate LimitReached(predictionsLeft: int, isLoading: bool)
  {
    predictionsLeft <= 0 && !isLoading
  }

  /** handleDepositRedirect of the limit-reached view: navigate to a granted
      link, otherwise raise an alert. */
  datatype RedirectEffect = NavigateTo(link: string) | AlertOf(message: Message)

  function DepositRedirect(reply: LinkReply): (e: RedirectEffect)
    ensures e.NavigateTo? <==> reply.LinkGranted?
    ensures reply.LinkGranted? ==> e == NavigateTo(reply.link)
    ensures reply.LinkRefused? ==> e == AlertOf(TextOr(reply.message, DepositLinkNotAvailable))
    ensures reply.LinkFetchThrew? ==> e == AlertOf(Localised(UnexpectedErrorOccurred))
  {
    match reply
    case LinkGranted(link) => NavigateTo(link)
    case LinkRefused(message) => AlertOf(TextOr(message, DepositLinkNotAvailable))
    case LinkFetchThrew => AlertOf(Localised(UnexpectedErrorOccurred))
  }

  class PredictorScreen {
    const playerId: string
    var predictionsLeft: int
    var selectedTraps: nat
    var grid: seq<Cell>
    var isSignalActive: bool
    var isLoading: bool
    var confidence: Option<int>
    var pending: Pending

    ghost predicate Valid()
      reads this
    {
      |grid| == TotalCells
      && selectedTraps in TrapChoices
      && (isLoading <==> !pending.Idle?)
      && (isSignalActive <==> confidence.Some?)
      && (confidence.Some? ==> 70 <= confidence.value <= 99)
      && (!isSignalActive ==> grid == EmptyGrid())
      && (isSignalActive ==> IsSignal(grid))
      && (!pending.Idle? ==> !isSignalActive)
      && (pending.Consuming? ==> pending.traps in TrapChoices && predictionsLeft > 0)
      && (pending.Revealing? ==> IsSignal(pending.grid) && 70 <= pending.confidence <= 99)
    }

    /** The screen as mounted for a logged-in user: one trap selected, an
        empty grid, no signal and no confidence. */
    constructor (playerId: string, predictionsLeft: int)
      ensures Valid()
      ensures this.playerId == playerId && this.predictionsLeft == predictionsLeft
      ensures selectedTraps == 1 && grid == EmptyGrid() && !isSignalActive && !isLoading
      ensures confidence == None && pending == Idle
    {
      this.playerId := playerId;
      this.predictionsLeft := predictionsLeft;
      selectedTraps := 1;
      grid := EmptyGrid();
      isSignalActive, isLoading := false, false;
      confidence := None;
      pending := Idle;
    }

    /** Whether the limit-reached view replaces the predictor. */
    predicate ShowsLimitReached()
      reads this
    {
      LimitReached(predictionsLeft, isLoading)
    }

    /** A trap button: `!isSignalActive && setSelectedTraps(traps)`. */
    method SelectTraps(traps: nat)
      requires Valid() && traps in TrapChoices
      modifies this`selectedTraps
      ensures Valid()
      ensures selectedTraps == if old(isSignalActive) then old(selectedTraps) else traps
    {
      if !isSignalActive {
        selectedTraps := traps;
      }
    }

    /** handleGetSignal up to the await: ignored while a signal is shown, when
        no prediction is left, or while loading; otherwise loading starts,
        the selected trap count is remembered, and usePrediction is called
        with the player's id, which is returned. */
    method GetSignal() returns (request: Option<string>)
      requires Valid()
      modifies this`isLoading, this`pending
      ensures Valid()
      ensures request.Some? <==> !old(isSignalActive) && old(predictionsLeft) > 0 && !old(isLoading)
      ensures request.Some? ==> request.value == playerId && isLoading && pending == Consuming(selectedTraps)
      ensures request.None? ==> isLoading == old(isLoading) && pending == old(pending)
    {
      if isSignalActive || predictionsLeft <= 0 || isLoading {
        return None;
      }
      isLoading := true;
      pending := Consuming(selectedTraps);
      return Some(playerId);
    }

    /** handleGetSignal after the await. A refusal or an exception raises an
        alert and ends loading with nothing else changed. A consumed
        prediction lowers the quota by one and schedules the grid for the
        captured trap count with its confidence; loading goes on until the
        timer fires. `offset` and `draws` stand for the Math.random() calls. */
    method ReceiveConsumption(result: Consumption, offset: nat, draws: seq<nat>)
      returns (alert: Option<Message>)
      requires Valid() && pending.Consuming?
      requires offset < 30 && ValidDraws(draws, TotalCells)
      modifies this`predictionsLeft, this`isLoading, this`pending
      ensures Valid()
      ensures result.Refused? ==>
        alert == Some(Labelled(ErrorLabel, TextOr(result.message, CouldNotUsePrediction)))
      ensures result.ConsumptionThrew? ==> alert == Some(Localised(UnexpectedErrorSignal))
      ensures !result.Consumed? ==>
        predictionsLeft == old(predictionsLeft) && !isLoading && pending == Idle
      ensures result.Consumed? ==>
        alert == None && predictionsLeft == old(predictionsLeft) - 1 && predictionsLeft >= 0
        && isLoading && pending == Revealing(PredictorGrid(old(pending.traps), draws), Confidence(offset))
        && !ShowsLimitReached()
    {
      var traps := pending.traps;
      match result {
        case Refused(message) =>
          alert := Some(Labelled(ErrorLabel, TextOr(message, CouldNotUsePrediction)));
          isLoading := false;
          pending := Idle;
        case ConsumptionThrew =>
          alert := Some(Localised(UnexpectedErrorSignal));
          isLoading := false;
          pending := Idle;
        case Consumed =>
          alert := None;
          predictionsLeft := predictionsLeft - 1;
          var randomConfidence := Confidence(offset);
          var newGrid: seq<Cell>;
          if traps == 1 {
            var allIndices := ShuffleIndices(TotalCells, draws);
            newGrid := Label(TotalCells, allIndices[..RevealedStars], Star, Empty);
          } else {
            var allIndices := ShuffleIndices(TotalCells, draws);
            newGrid := Label(TotalCells, allIndices[..traps], Mine, Star);
          }
          PredictorGridCounts(traps, draws);
          pending := Revealing(newGrid, randomConfidence);
      }
    }

    /** The 600 ms timer firing: the grid and confidence are shown, the signal
        is active and loading ends. If that was the last prediction, the
        limit-reached view now replaces the screen. */
    method CompleteSignal()
      requires Valid() && pending.Revealing?
      modifies this`grid, this`confidence, this`isSignalActive, this`isLoading, this`pending
      ensures Valid()
      ensures grid == old(pending.grid) && confidence == Some(old(pending.confidence))
      ensures isSignalActive && !isLoading && pending == Idle
      ensures IsSignal(grid) && 70 <= confidence.value <= 99
      ensures ShowsLimitReached() <==> predictionsLeft <= 0
    {
      grid := pending.grid;
      confidence := Some(pending.confidence);
      isSignalActive := true;
      isLoading := false;
      pending := Idle;
    }

    /** handleRefresh: 25 empty cells, no signal, no confidence; the quota and
        the trap selection are untouched. */
    method Refresh()
      requires Valid()
      modifies this`grid, this`isSignalActive, this`confidence
      ensures Valid()
      ensures grid == EmptyGrid() && !isSignalActive && confidence == None
      ensures predictionsLeft == old(predictionsLeft) && selectedTraps == old(selectedTraps)
    {
      grid := EmptyGrid();
      isSignalActive := false;
      confidence := None;
    }
  }

  /** A player with one prediction left takes it: the quota drops to 0, and
      as soon as the timer fires the limit-reached view replaces the screen,
      so the last generated grid is never on display. */
  method LastPredictionScenario(offset: nat, draws: seq<nat>) returns (before: bool, after: bool)
    requires offset < 30 && ValidDraws(draws, TotalCells)
    ensures !before && after
  {
    var screen := new PredictorScreen("P1", 1);
    var request := screen.GetSignal();
    var alert := screen.ReceiveConsumption(Consumed, offset, draws);
    before := screen.ShowsLimitReached();
    screen.CompleteSignal();
    after := screen.ShowsLimitReached();
  }
}
