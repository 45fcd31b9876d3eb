/** The login screen: the player-id form and its verification outcomes, the
    deposit and re-deposit screens, and the demo mode with its own signal
    grid, limited by a counter persisted in the store. */
module Login {
  import opened Common
  import opened Signal
  import opened Storage

  /** Demo signals allowed per browser before the demo is refused. */
  const DemoLimit: int := 2

  /** Not-registered replies for one id after which the message escalates. */
  const ExhaustedAfter: int := 3

  // ---------------------------------------------------------------------
  // The demo view (DemoView)
  // ---------------------------------------------------------------------

  /** The 600 ms callback scheduled by a demo signal request: the grid it
      will show and the count it will store (computed when it was scheduled). */
  datatype DemoTimer = DemoTimer(grid: seq<Cell>, newCount: int)

  /** The stored demo counter as handleDemoClick reads it: `stored ? parseInt(stored, 10) : 0`. */
  function StoredDemoCount(stored: Option<int>): int
  {
    if stored.Some? then stored.value else 0
  }

  /** The gate shared by handleDemoClick and the demo's handleGetSignal. */
  predicate DemoExhausted(count: int)
  {
    count >= DemoLimit
  }

  class DemoView {
    var grid: seq<Cell>
    var isSignalActive: bool
    var isLoading: bool
    var showLoginPrompt: bool
    var demoAttempts: int
    /** The scheduled completion of a signal, if any. */
    var timer: Option<DemoTimer>
    const store: Store

    ghost predicate Valid()
      reads this
    {
      |grid| == TotalCells
      && (isLoading <==> timer.Some?)
      && (!isSignalActive ==> grid == EmptyGrid())
      && (isSignalActive ==> IsStarSignal(grid))
      && (timer.Some? ==> !isSignalActive && IsStarSignal(timer.value.grid)
                          && timer.value.newCount == demoAttempts + 1)
    }

    /** Mounting the view, followed by its first effect: the counter is read
        from the store when something is stored there. */
    constructor (store: Store)
      ensures Valid() && this.store == store
      ensures grid == EmptyGrid() && !isSignalActive && !isLoading && !showLoginPrompt
      ensures demoAttempts == StoredDemoCount(store.Get(DemoLimitKey))
      ensures timer == None
    {
      this.store := store;
      grid := EmptyGrid();
      isSignalActive, isLoading, showLoginPrompt := false, false, false;
      timer := None;
      demoAttempts := 0;
      new;
      var stored := store.Get(DemoLimitKey);
      if stored.Some? {
        demoAttempts := stored.value;
      }
    }

    /** handleGetSignal: ignored while a signal is shown or loading; raises the
        login prompt once the limit is used up; otherwise starts loading and
        schedules a star grid together with the incremented count. */
    method GetSignal(draws: seq<nat>)
      requires Valid() && ValidDraws(draws, TotalCells)
      modifies this
      ensures Valid()
      ensures old(isSignalActive || isLoading) ==>
        grid == old(grid) && isSignalActive == old(isSignalActive) && isLoading == old(isLoading)
        && showLoginPrompt == old(showLoginPrompt) && timer == old(timer)
      ensures !old(isSignalActive || isLoading) && DemoExhausted(old(demoAttempts)) ==>
        showLoginPrompt && grid == old(grid) && !isSignalActive && !isLoading && timer == None
      ensures !old(isSignalActive || isLoading) && !DemoExhausted(old(demoAttempts)) ==>
        isLoading && timer == Some(DemoTimer(StarGrid(draws), old(demoAttempts) + 1))
        && grid == old(grid) && !isSignalActive && showLoginPrompt == old(showLoginPrompt)
      ensures demoAttempts == old(demoAttempts) && store.entries == old(store.entries)
    {
      if isSignalActive || isLoading {
        return;
      }
      if DemoExhausted(demoAttempts) {
        showLoginPrompt := true;
        return;
      }
      isLoading := true;
      var selected := ShuffleIndices(TotalCells, draws);
      var newGrid := Label(TotalCells, selected[..RevealedStars], Star, Empty);
      StarGridCounts(draws);
      timer := Some(DemoTimer(newGrid, demoAttempts + 1));
    }

    /** The scheduled callback firing: the grid is shown, loading ends, and the
        incremented count is kept and written to the store. */
    method CompleteSignal()
      requires Valid() && timer.Some?
      modifies this, store
      ensures Valid()
      ensures grid == old(timer.value.grid) && IsStarSignal(grid)
      ensures isSignalActive && !isLoading && timer == None
      ensures demoAttempts == old(demoAttempts) + 1
      ensures store.entries == old(store.entries)[DemoLimitKey := old(demoAttempts) + 1]
      ensures showLoginPrompt == old(showLoginPrompt)
    {
      var newCount := timer.value.newCount;
      grid := timer.value.grid;
      isSignalActive := true;
      isLoading := false;
      timer := None;
      demoAttempts := newCount;
      store.Set(DemoLimitKey, newCount);
    }

    /** handleRefresh: back to 25 empty cells with no signal shown. */
    method Refresh()
      requires Valid()
      modifies this
      ensures Valid()
      ensures grid == EmptyGrid() && !isSignalActive
      ensures isLoading == old(isLoading) && timer == old(timer)
      ensures demoAttempts == old(demoAttempts) && showLoginPrompt == old(showLoginPrompt)
    {
      grid := EmptyGrid();
      isSignalActive := false;
    }

    /** handleTrapClick: the trap buttons of the demo only raise the login prompt. */
    method TrapClick()
      requires Valid()
      modifies this`showLoginPrompt
      ensures Valid() && showLoginPrompt
    {
      showLoginPrompt := true;
    }

    /** The close button of the login prompt. */
    method DismissLoginPrompt()
      requires Valid()
      modifies this`showLoginPrompt
      ensures Valid() && !showLoginPrompt
    {
      showLoginPrompt := false;
    }
  }

  // ---------------------------------------------------------------------
  // The login screen (LoginScreen)
  // ---------------------------------------------------------------------

  /** The status tag of a verification reply. */
  datatype Status = NeedsDeposit | NeedsReDeposit | NotRegistered | OtherStatus

  /** The outcome of verifyUser(id): a reply (`message` is "" when absent), or
      an exception. */
  datatype Verification =
    | Reply(success: bool, predictionsLeft: Option<int>, status: Status, message: string)
    | VerificationThrew

  /** The arguments of onLoginSuccess. */
  datatype Session = Session(playerId: string, predictionsLeft: int)

  /** The four screens of the login page. */
  datatype Screen = DemoScreen | DepositScreen | ReDepositScreen | LoginForm

  /** `response.success && typeof response.predictionsLeft !== 'undefined'` */
  predicate GrantsAccess(v: Verification)
  {
    v.Reply? && v.success && v.predictionsLeft.Some?
  }

  /** The names every plain object inherits from `Object.prototype`. A lookup
      `loginAttempts[id]` of an id the ledger does not own still finds them. */
  const InheritedKeys: set<string> := {
    "constructor", "hasOwnProperty", "isPrototypeOf", "propertyIsEnumerable",
    "toLocaleString", "toString", "valueOf", "__proto__",
    "__defineGetter__", "__defineSetter__", "__lookupGetter__", "__lookupSetter__" }

  /** A value of the attempts ledger. It is either a number or the string that
      `+ 1` makes of an inherited member (a function, or Object.prototype for
      `__proto__`). Such a string reads as NaN, so it is never `>= 3`, and
      `+ 1` appends to it and keeps it a string. */
  datatype Tally = Number(n: int) | NonNumeric

  /** The ledger as the handler leaves it: an owned id holds a non-number
      exactly when its name is inherited. */
  ghost predicate LedgerShape(ledger: map<string, Tally>)
  {
    forall id :: id in ledger ==> (ledger[id].NonNumeric? <==> id in InheritedKeys)
  }

  /** `loginAttempts[id] || 0` on a plain object: an owned value, else an
      inherited member, else 0. */
  function AttemptsOf(ledger: map<string, Tally>, id: string): Tally
  {
    if id in ledger then ledger[id]
    else if id in InheritedKeys then NonNumeric
    else Number(0)
  }

  /** `currentAttempts + 1` */
  function Plus1(t: Tally): Tally
  {
    match t
    case Number(n) => Number(n + 1)
    case NonNumeric => NonNumeric
  }

  /** `{ ...prev, [id]: currentAttempts + 1 }` */
  function BumpAttempts(ledger: map<string, Tally>, id: string): (r: map<string, Tally>)
    ensures r.Keys == ledger.Keys + {id}
    ensures AttemptsOf(r, id) == Plus1(AttemptsOf(ledger, id))
    ensures forall other :: other != id && other in ledger ==> r[other] == ledger[other]
    ensures LedgerShape(ledger) ==> LedgerShape(r)
  {
    ledger[id := Plus1(AttemptsOf(ledger, id))]
  }

  /** The message chosen after a not-registered reply, from the new count. */
  function NotRegisteredMessage(newCount: Tally): MessageKey
  {
    if newCount.Number? && newCount.n >= ExhaustedAfter then NoRegistrationFoundAfterAttempts
    else NotRegisteredError
  }

  /** The screen-priority selection: demo, then deposit, then re-deposit,
      then the login form. */
  function SelectScreen(isDemoMode: bool, needsDeposit: bool, needsReDeposit: bool): (s: Screen)
    ensures s == DemoScreen <==> isDemoMode
    ensures s == DepositScreen <==> !isDemoMode && needsDeposit
    ensures s == ReDepositScreen <==> !isDemoMode && !needsDeposit && needsReDeposit
    ensures s == LoginForm <==> !isDemoMode && !needsDeposit && !needsReDeposit
  {
    if isDemoMode then DemoScreen
    else if needsDeposit then DepositScreen
    else if needsReDeposit then ReDepositScreen
    else LoginForm
  }

  /** The ledger after n not-registered replies in a row for the same id. */
  function BumpTimes(ledger: map<string, Tally>, id: string, n: nat): map<string, Tally>
  {
    if n == 0 then ledger else BumpAttempts(BumpTimes(ledger, id, n - 1), id)
  }

  /** n replies in a row raise a numeric count by n, leave a non-numeric one
      non-numeric, and leave every other id's value as it was. */
  lemma {:induction false} BumpTimesCounts(ledger: map<string, Tally>, id: string, n: nat)
    ensures AttemptsOf(ledger, id).Number? ==>
      AttemptsOf(BumpTimes(ledger, id, n), id) == Number(AttemptsOf(ledger, id).n + n)
    ensures AttemptsOf(ledger, id).NonNumeric? ==> AttemptsOf(BumpTimes(ledger, id, n), id) == NonNumeric
    ensures forall other :: other != id ==>
      AttemptsOf(BumpTimes(ledger, id, n), other) == AttemptsOf(ledger, other)
  {
    if n > 0 {
      BumpTimesCounts(ledger, id, n - 1);
    }
  }

  /** For an id the ledger has not seen and whose name is not inherited, the
      n-th not-registered reply shows the exhausted message exactly when n >= 3. */
  lemma EscalatesOnThirdReply(ledger: map<string, Tally>, id: string, n: nat)
    requires id !in ledger && id !in InheritedKeys && n >= 1
    ensures NotRegisteredMessage(AttemptsOf(BumpTimes(ledger, id, n), id)) == NoRegistrationFoundAfterAttempts
            <==> n >= ExhaustedAfter
  {
    BumpTimesCounts(ledger, id, n);
  }

  /** An id named like an `Object.prototype` member never gets the exhausted
      message, however many not-registered replies it receives. */
  lemma InheritedIdNeverEscalates(ledger: map<string, Tally>, id: string, n: nat)
    requires LedgerShape(ledger) && id in InheritedKeys
    ensures NotRegisteredMessage(AttemptsOf(BumpTimes(ledger, id, n), id)) == NotRegisteredError
  {
    BumpTimesCounts(ledger, id, n);
  }

  /** The ledger the handler evidently intends: only ids it owns have a
      count, as with `Object.hasOwn` or a `Map`. */
  function OwnAttemptsOf(ledger: map<string, int>, id: string): int
  {
    if id in ledger then ledger[id] else 0
  }

  /** The intended ledger after n not-registered replies for the same id. */
  function OwnBumpTimes(ledger: map<string, int>, id: string, n: nat): (r: map<string, int>)
    ensures OwnAttemptsOf(r, id) == OwnAttemptsOf(ledger, id) + n
    ensures forall other :: other != id ==> OwnAttemptsOf(r, other) == OwnAttemptsOf(ledger, other)
  {
    if n == 0 then ledger
    else
      var before := OwnBumpTimes(ledger, id, n - 1);
      before[id := OwnAttemptsOf(before, id) + 1]
  }

  /** With the intended ledger every fresh id, whatever its name, escalates on
      exactly the third reply. */
  lemma OwnLedgerEscalatesOnThirdReply(ledger: map<string, int>, id: string, n: nat)
    requires id !in ledger && n >= 1
    ensures OwnAttemptsOf(OwnBumpTimes(ledger, id, n), id) >= ExhaustedAfter <==> n >= ExhaustedAfter
  {
  }

  class LoginScreen {
    var playerId: string
    var isLoading: bool
    var isRegistering: bool
    var error: Option<Message>
    var needsDeposit: bool
    var needsReDeposit: bool
    var loginAttempts: map<string, Tally>
    var isDemoMode: bool
    /** The id captured by an outstanding verifyUser call. */
    var verifying: Option<string>
    const store: Store

    ghost predicate Valid()
      reads this
    {
      (isLoading <==> verifying.Some?)
      && LedgerShape(loginAttempts)
      && !(needsDeposit && needsReDeposit)
      && (verifying.Some? ==> !needsDeposit && !needsReDeposit)
    }

    constructor (store: Store)
      ensures Valid() && this.store == store
      ensures playerId == "" && !isLoading && !isRegistering && error == None
      ensures !needsDeposit && !needsReDeposit && loginAttempts == map[] && !isDemoMode
      ensures verifying == None
    {
      this.store := store;
      playerId := "";
      isLoading, isRegistering := false, false;
      error := None;
      needsDeposit, needsReDeposit := false, false;
      loginAttempts := map[];
      isDemoMode := false;
      verifying := None;
    }

    function CurrentScreen(): Screen
      reads this
    {
      SelectScreen(isDemoMode, needsDeposit, needsReDeposit)
    }

    /** The demo button is rendered when neither the demo nor a deposit screen is up. */
    predicate DemoButtonShown()
      reads this
    {
      !isDemoMode && !needsDeposit && !needsReDeposit
    }

    /** The Continue button is on screen and enabled: `disabled={isLoading || !playerId}`. */
    predicate ContinueEnabled()
      reads this
    {
      CurrentScreen() == LoginForm && !isLoading && playerId != ""
    }

    /** The input's onChange. */
    method EditPlayerId(text: string)
      requires Valid()
      modifies this`playerId
      ensures Valid() && playerId == text
    {
      playerId := text;
    }

    /** handleContinue up to the await: loading starts, the error and both
        deposit flags are cleared, and verifyUser is called with the id. */
    method SubmitId() returns (requested: string)
      requires Valid() && ContinueEnabled()
      modifies this`isLoading, this`error, this`needsDeposit, this`needsReDeposit, this`verifying
      ensures Valid()
      ensures requested == playerId && verifying == Some(playerId)
      ensures isLoading && error == None && !needsDeposit && !needsReDeposit
      ensures DemoButtonShown()
    {
      isLoading := true;
      error := None;
      needsDeposit := false;
      needsReDeposit := false;
      requested := playerId;
      verifying := Some(requested);
    }

    /** handleContinue after the await, for the outcome of verifyUser. */
    method ReceiveVerification(response: Verification) returns (session: Option<Session>)
      requires Valid() && verifying.Some?
      modifies this`playerId, this`isLoading, this`error, this`needsDeposit, this`needsReDeposit,
               this`loginAttempts, this`verifying
      ensures Valid()
      ensures !isLoading && verifying == None
      // onLoginSuccess fires exactly when access is granted; every other
      // outcome clears the input.
      ensures GrantsAccess(response) <==> session.Some?
      ensures GrantsAccess(response) ==>
        session == Some(Session(old(verifying.value), response.predictionsLeft.value))
        && playerId == old(playerId) && error == old(error)
      ensures !GrantsAccess(response) ==> playerId == ""
      // at most one deposit flag, each only for its own status
      ensures needsDeposit <==> !GrantsAccess(response) && response.Reply? && response.status == NeedsDeposit
      ensures needsReDeposit <==> !GrantsAccess(response) && response.Reply? && response.status == NeedsReDeposit
      ensures !(needsDeposit && needsReDeposit)
      // the ledger moves only on a not-registered reply
      ensures !GrantsAccess(response) && response.Reply? && response.status == NotRegistered ==>
        loginAttempts == BumpAttempts(old(loginAttempts), old(verifying.value))
        && error == Some(Localised(NotRegisteredMessage(AttemptsOf(loginAttempts, old(verifying.value)))))
      ensures !GrantsAccess(response) && response.Reply? && response.status == NotRegistered
              && old(verifying.value) in InheritedKeys ==>
        error == Some(Localised(NotRegisteredError))
      ensures !(!GrantsAccess(response) && response.Reply? && response.status == NotRegistered) ==>
        loginAttempts == old(loginAttempts)
      ensures !GrantsAccess(response) && response.Reply? && response.status in {NeedsDeposit, NeedsReDeposit} ==>
        error == old(error)
      ensures !GrantsAccess(response) && response.Reply? && response.status == OtherStatus ==>
        error == Some(if response.success then Localised(LoginFailedNoCount)
                      else TextOr(response.message, UnexpectedErrorOccurred))
      ensures response.VerificationThrew? ==> error == Some(Localised(UnexpectedErrorOccurred))
    {
      var idToVerify := verifying.value;
      session := None;
      match response {
      case VerificationThrew =>
        playerId := "";
        error := Some(Localised(UnexpectedErrorOccurred));
      case Reply(success, predictionsLeft, status, message) =>
        if success && predictionsLeft.Some? {
          session := Some(Session(idToVerify, predictionsLeft.value));
        } else {
          playerId := "";
          if status == NeedsDeposit {
            needsDeposit := true;
          } else if status == NeedsReDeposit {
            needsReDeposit := true;
          } else if status == NotRegistered {
            var newAttemptsCount := Plus1(AttemptsOf(loginAttempts, idToVerify));
            loginAttempts := BumpAttempts(loginAttempts, idToVerify);
            error := Some(Localised(NotRegisteredMessage(newAttemptsCount)));
          } else if success {
            error := Some(Localised(LoginFailedNoCount));
          } else {
            error := Some(TextOr(message, UnexpectedErrorOccurred));
          }
        }
      }
      isLoading := false;
      verifying := None;
    }

    /** handleDemoClick: refused with the demo-limit message once the stored
        counter reaches the limit, otherwise the demo opens and the error is cleared. */
    method DemoClick()
      requires Valid()
      modifies this`isDemoMode, this`error
      ensures Valid()
      ensures DemoExhausted(StoredDemoCount(store.Get(DemoLimitKey))) ==>
        isDemoMode == old(isDemoMode) && error == Some(Localised(DemoLimitReached))
      ensures !DemoExhausted(StoredDemoCount(store.Get(DemoLimitKey))) ==>
        isDemoMode && error == None
    {
      var attempts := StoredDemoCount(store.Get(DemoLimitKey));
      if DemoExhausted(attempts) {
        error := Some(Localised(DemoLimitReached));
        return;
      }
      isDemoMode := true;
      error := None;
    }

    /** handleExitDemo */
    method ExitDemo()
      requires Valid()
      modifies this`isDemoMode
      ensures Valid() && !isDemoMode
    {
      isDemoMode := false;
    }

    /** handleBackFromDeposit */
    method BackFromDeposit()
      requires Valid()
      modifies this`needsDeposit
      ensures Valid() && !needsDeposit
    {
      needsDeposit := false;
    }

    /** handleBackFromReDeposit */
    method BackFromReDeposit()
      requires Valid()
      modifies this`needsReDeposit
      ensures Valid() && !needsReDeposit
    {
      needsReDeposit := false;
    }

    /** handleRegister up to the await. */
    method Register()
      requires Valid()
      modifies this`isRegistering, this`error
      ensures Valid() && isRegistering && error == None
    {
      isRegistering := true;
      error := None;
    }

    /** handleRegister after the affiliate-link reply: a granted link is
        navigated to (the button stays busy); otherwise an error is shown and
        the button is enabled again. */
    method ReceiveRegisterLink(reply: LinkReply) returns (navigateTo: Option<string>)
      requires Valid() && isRegistering
      modifies this`isRegistering, this`error
      ensures Valid()
      ensures reply.LinkGranted? ==> navigateTo == Some(reply.link) && isRegistering && error == old(error)
      ensures reply.LinkRefused? ==> navigateTo == None && !isRegistering
                                     && error == Some(TextOr(reply.message, RegistrationLinkNotAvailable))
      ensures reply.LinkFetchThrew? ==> navigateTo == None && !isRegistering
                                        && error == Some(Localised(UnexpectedErrorOccurred))
    {
      navigateTo := None;
      match reply
      case LinkGranted(link) =>
        navigateTo := Some(link);
      case LinkRefused(message) =>
        error := Some(TextOr(message, RegistrationLinkNotAvailable));
        isRegistering := false;
      case LinkFetchThrew =>
        error := Some(Localised(UnexpectedErrorOccurred));
        isRegistering := false;
    }
  }

  // ---------------------------------------------------------------------
  // Scenarios
  // ---------------------------------------------------------------------

  /** The same id rejected as not registered three times. For an ordinary id
      the first two replies show the plain message and the third the
      exhausted one; for an id named like an `Object.prototype` member all
      three show the plain message. */
  method ThreeRepliesScenario(id: string) returns (messages: seq<Option<Message>>)
    requires id != ""
    ensures id !in InheritedKeys ==>
      messages == [Some(Localised(NotRegisteredError)), Some(Localised(NotRegisteredError)),
                   Some(Localised(NoRegistrationFoundAfterAttempts))]
    ensures id in InheritedKeys ==>
      messages == [Some(Localised(NotRegisteredError)), Some(Localised(NotRegisteredError)),
                   Some(Localised(NotRegisteredError))]
  {
    var store := new Store(map[]);
    var login := new LoginScreen(store);
    var notRegistered := Reply(false, None, NotRegistered, "");
    messages := [];
    var round := 0;
    while round < 3
      invariant 0 <= round <= 3 && login.Valid() && fresh(login)
      invariant login.CurrentScreen() == LoginForm && !login.isLoading
      invariant round == 0 ==> login.loginAttempts == map[]
      invariant round > 0 ==>
        login.loginAttempts == map[id := if id in InheritedKeys then NonNumeric else Number(round)]
      invariant |messages| == round
      invariant forall k :: 0 <= k < round ==>
        messages[k] == Some(Localised(if id in InheritedKeys then NotRegisteredError
                                      else NotRegisteredMessage(Number(k + 1))))
    {
      login.EditPlayerId(id);
      var sent := login.SubmitId();
      var session := login.ReceiveVerification(notRegistered);
      messages := messages + [login.error];
      round := round + 1;
    }
  }

  /** Two demo signals used up in one session: opening the demo a third
      time is refused with the demo-limit message. */
  method DemoLimitScenario(draws: seq<nat>) returns (demoOpened: bool, error: Option<Message>)
    requires ValidDraws(draws, TotalCells)
    ensures !demoOpened && error == Some(Localised(DemoLimitReached))
  {
    var store := new Store(map[]);
    var login := new LoginScreen(store);
    var round := 0;
    while round < 2
      invariant 0 <= round <= 2 && login.Valid() && login.store == store && fresh(login)
      invariant store.entries == if round == 0 then map[] else map[DemoLimitKey := round]
      invariant !login.isDemoMode
    {
      login.DemoClick();
      var demo := new DemoView(store);
      demo.GetSignal(draws);
      demo.CompleteSignal();
      login.ExitDemo();
      round := round + 1;
    }
    login.DemoClick();
    demoOpened, error := login.isDemoMode, login.error;
  }
}
