/** The action panel shown on the local player's turn: fold, check, call and
    a two-step raise with a slider, presets, cancel and confirm. */
module PlayerActions {
  import opened Common

  /** The component's properties; the bet may be fractional. */
  datatype Props = Props(
    isPlayerTurn: bool,
    currentBet: real,
    playerChips: int,
    minimumRaise: int,
    canCheck: bool,
    canCall: bool,
    callAmount: int)

  /** What the user can press or move. */
  datatype Control =
    | Fold | Check | Call | Raise
    | PresetMin | PresetDouble | PresetTriple | PresetAllIn
    | Slide(value: int)
    | Cancel | ConfirmRaise

  /** The callback a press fires. */
  datatype Callback = OnFold | OnCheck | OnCall | OnRaise(amount: int)

  /** The raise state: raiseAmount and showRaiseInput. */
  datatype RaiseState = RaiseState(amount: int, showInput: bool)

  /** maxRaise: the smaller of the player's chips and the player's chips. */
  function MaxRaise(p: Props): (m: int)
    ensures m == p.playerChips
  {
    Min(p.playerChips, p.playerChips)
  }

  /** canRaise: the amount lies between the minimum raise and the maximum,
      that is, between the minimum raise and the player's chips. */
  function CanRaise(p: Props, amount: int): (ok: bool)
    ensures ok <==> p.minimumRaise <= amount <= p.playerChips
  {
    amount >= p.minimumRaise && amount <= MaxRaise(p)
  }

  /** The 2x and 3x presets: floor(currentBet * k), the largest integer not above it. */
  function PresetAmount(p: Props, k: int): (a: int)
    ensures a as real <= p.currentBet * k as real < a as real + 1.0
  {
    (p.currentBet * k as real).Floor
  }

  /** Whether a control is on screen and not disabled. Nothing is rendered
      off turn; the raise controls exist only while the raise input is open. */
  function Enabled(p: Props, s: RaiseState, c: Control): (on: bool)
    ensures on ==> p.isPlayerTurn
    ensures on && !(c.Fold? || c.Check? || c.Call? || c.Raise?) ==> s.showInput
    ensures p.isPlayerTurn && c.Fold? ==> on
  {
    p.isPlayerTurn &&
    match c
    case Fold => true
    case Check => p.canCheck
    case Call => p.canCall
    case Raise => !(p.minimumRaise > p.playerChips)
    case PresetDouble => s.showInput && !(PresetAmount(p, 2) > MaxRaise(p))
    case PresetTriple => s.showInput && !(PresetAmount(p, 3) > MaxRaise(p))
    case ConfirmRaise => s.showInput && CanRaise(p, s.amount)
    case _ => s.showInput
  }

  /** One user interaction: the new raise state and the callback it fires.
      A control that is absent or disabled does nothing. */
  function Next(p: Props, s: RaiseState, c: Control): (r: (RaiseState, Option<Callback>))
    ensures !Enabled(p, s, c) ==> r == (s, None)
    ensures Enabled(p, s, c) && c.Fold? ==> r == (s, Some(OnFold))
    ensures Enabled(p, s, c) && c.Check? ==> r == (s, Some(OnCheck))
    ensures Enabled(p, s, c) && c.Call? ==> r == (s, Some(OnCall))
    ensures Enabled(p, s, c) && c.Slide? ==> r == (s.(amount := c.value), None)
    ensures r.1.Some? ==> c.Fold? || c.Check? || c.Call? || c.Raise? || c.ConfirmRaise?
    ensures r.1.Some? && r.1.value.OnRaise? ==> r.1.value.amount == s.amount && !r.0.showInput
    ensures r.0.amount != s.amount ==>
      c.PresetMin? || c.PresetDouble? || c.PresetTriple? || c.PresetAllIn? || c.Slide?
  {
    if !Enabled(p, s, c) then (s, None)
    else match c
      case Fold => (s, Some(OnFold))
      case Check => (s, Some(OnCheck))
      case Call => (s, Some(OnCall))
      case Raise =>
        if s.showInput then (s.(showInput := false), Some(OnRaise(s.amount)))
        else (s.(showInput := true), None)
      case PresetMin => (s.(amount := p.minimumRaise), None)
      case PresetDouble => (s.(amount := PresetAmount(p, 2)), None)
      case PresetTriple => (s.(amount := PresetAmount(p, 3)), None)
      case PresetAllIn => (s.(amount := MaxRaise(p)), None)
      case Slide(v) => (s.(amount := v), None)
      case Cancel => (s.(showInput := false), None)
      case ConfirmRaise => (s.(showInput := false), Some(OnRaise(s.amount)))
  }

  /** With minimum raise 20 and 1000 chips: 10 fails, 20 passes, 1001 fails. */
  lemma CanRaiseExamples(p: Props)
    requires p.minimumRaise == 20 && p.playerChips == 1000
    ensures !CanRaise(p, 10) && CanRaise(p, 20) && CanRaise(p, 1000) && !CanRaise(p, 1001)
  {
  }

  /** Which buttons are offered: Check and Call only when allowed, Raise
      disabled exactly when the minimum raise exceeds the chips, the 2x and 3x
      presets disabled when their amount exceeds the chips; Min, All-In, the
      slider and Cancel exist exactly while the raise input is open. */
  lemma ButtonsOffered(p: Props, s: RaiseState)
    requires p.isPlayerTurn
    ensures Enabled(p, s, Fold)
    ensures Enabled(p, s, Check) <==> p.canCheck
    ensures Enabled(p, s, Call) <==> p.canCall
    ensures Enabled(p, s, Raise) <==> p.minimumRaise <= p.playerChips
    ensures Enabled(p, s, PresetDouble) <==> s.showInput && PresetAmount(p, 2) <= p.playerChips
    ensures Enabled(p, s, PresetTriple) <==> s.showInput && PresetAmount(p, 3) <= p.playerChips
    ensures Enabled(p, s, ConfirmRaise) <==> s.showInput && p.minimumRaise <= s.amount <= p.playerChips
    ensures Enabled(p, s, PresetMin) <==> s.showInput
    ensures Enabled(p, s, PresetAllIn) <==> s.showInput
    ensures forall v :: Enabled(p, s, Slide(v)) <==> s.showInput
    ensures Enabled(p, s, Cancel) <==> s.showInput
  {
  }

  /** Confirm Raise fires onRaise only when canRaise holds, with the current
      amount, and closes the raise input. */
  lemma ConfirmFiresOnlyLegalRaise(p: Props, s: RaiseState)
    ensures var (t, fired) := Next(p, s, ConfirmRaise);
      (fired.Some? <==> p.isPlayerTurn && s.showInput && CanRaise(p, s.amount)) &&
      (fired.Some? ==> fired == Some(OnRaise(s.amount)) && !t.showInput && t.amount == s.amount)
  {
  }

  /** Raise with the input closed only opens it; with the input open it fires
      onRaise with the current amount, without consulting canRaise, and closes it. */
  lemma RaiseIsTwoStep(p: Props, s: RaiseState)
    requires p.isPlayerTurn && p.minimumRaise <= p.playerChips
    ensures !s.showInput ==> Next(p, s, Raise) == (RaiseState(s.amount, true), None)
    ensures s.showInput ==> Next(p, s, Raise) == (RaiseState(s.amount, false), Some(OnRaise(s.amount)))
  {
  }

  /** The second press of Raise fires an amount that canRaise rejects, for
      instance 5000 with 1000 chips; Confirm Raise would be disabled there. */
  lemma RaiseBypassesCanRaise()
    ensures var p := Props(true, 10.0, 1000, 20, false, true, 10);
      var s := RaiseState(5000, true);
      !CanRaise(p, s.amount) && Next(p, s, Raise).1 == Some(OnRaise(5000)) && Next(p, s, ConfirmRaise).1 == None
  {
  }

  /** The presets set the amount: Min to the minimum raise, All-In to the
      chips, 2x and 3x to floor(currentBet * k); none fires a callback. */
  lemma PresetsSetAmount(p: Props, s: RaiseState)
    requires p.isPlayerTurn && s.showInput
    ensures Next(p, s, PresetMin) == (RaiseState(p.minimumRaise, true), None)
    ensures Next(p, s, PresetAllIn) == (RaiseState(p.playerChips, true), None)
    ensures PresetAmount(p, 2) <= p.playerChips ==>
      Next(p, s, PresetDouble) == (RaiseState((p.currentBet * 2.0).Floor, true), None)
    ensures PresetAmount(p, 3) <= p.playerChips ==>
      Next(p, s, PresetTriple) == (RaiseState((p.currentBet * 3.0).Floor, true), None)
  {
  }

  /** Cancel closes the input, keeps the amount and fires nothing. */
  lemma CancelKeepsAmount(p: Props, s: RaiseState)
    ensures Next(p, s, Cancel).1 == None
    ensures Next(p, s, Cancel).0.amount == s.amount
    ensures p.isPlayerTurn && s.showInput ==> !Next(p, s, Cancel).0.showInput
  {
  }

  /** The callbacks fired by a sequence of interactions, and the final state. */
  function Run(p: Props, s: RaiseState, cs: seq<Control>): (RaiseState, seq<Callback>)
    decreases |cs|
  {
    if cs == [] then (s, [])
    else
      var (t, fired) := Next(p, s, cs[0]);
      var (u, rest) := Run(p, t, cs[1..]);
      (u, (if fired.Some? then [fired.value] else []) + rest)
  }

  /** Off turn the panel is not rendered: no interaction fires a callback or
      changes the raise state. */
  lemma {:induction false} OffTurnRunsNothing(p: Props, s: RaiseState, cs: seq<Control>)
    requires !p.isPlayerTurn
    ensures Run(p, s, cs) == (s, [])
    decreases |cs|
  {
    if cs != [] {
      assert Next(p, s, cs[0]) == (s, None);
      OffTurnRunsNothing(p, s, cs[1..]);
      assert Run(p, s, cs) == (Run(p, s, cs[1..]).0, [] + Run(p, s, cs[1..]).1);
      assert Run(p, s, cs).0 == s && Run(p, s, cs).1 == [];
    }
  }

  /** When every raise goes through Confirm Raise (the Raise button is not
      pressed), every onRaise fired in a sequence of interactions is legal. */
  lemma {:induction false} ConfirmedRaisesAreLegal(p: Props, s: RaiseState, cs: seq<Control>)
    requires forall i | 0 <= i < |cs| :: cs[i] != Raise
    ensures forall k | 0 <= k < |Run(p, s, cs).1| :: Run(p, s, cs).1[k].OnRaise? ==> CanRaise(p, Run(p, s, cs).1[k].amount)
    decreases |cs|
  {
    if cs != [] {
      var (t, fired) := Next(p, s, cs[0]);
      ConfirmedRaisesAreLegal(p, t, cs[1..]);
    }
  }

  /** The component's state hooks. */
  class RaiseControls {
    var raiseAmount: int
    var showRaiseInput: bool

    function State(): RaiseState
      reads this
    {
      RaiseState(raiseAmount, showRaiseInput)
    }

    /** useState(minimumRaise) and useState(false) at mount. */
    constructor (p: Props)
      ensures raiseAmount == p.minimumRaise && !showRaiseInput
    {
      raiseAmount := p.minimumRaise;
      showRaiseInput := false;
    }

    /** handleRaiseClick: open the input, or fire onRaise and close it. */
    method HandleRaiseClick() returns (fired: Option<Callback>)
      modifies this
      ensures old(showRaiseInput) ==> fired == Some(OnRaise(raiseAmount)) && !showRaiseInput
      ensures !old(showRaiseInput) ==> fired == None && showRaiseInput
      ensures raiseAmount == old(raiseAmount)
    {
      if showRaiseInput {
        fired := Some(OnRaise(raiseAmount));
        showRaiseInput := false;
      } else {
        fired := None;
        showRaiseInput := true;
      }
    }

    /** setRaiseAmount, as called by the slider and the presets. */
    method SetRaiseAmount(amount: int)
      modifies this
      ensures raiseAmount == amount && showRaiseInput == old(showRaiseInput)
    {
      raiseAmount := amount;
    }

    /** A press or slide on the rendered panel; absent or disabled controls do nothing. */
    method Interact(p: Props, c: Control) returns (fired: Option<Callback>)
      modifies this
      ensures (State(), fired) == Next(p, old(State()), c)
    {
      if !Enabled(p, State(), c) {
        return None;
      }
      match c {
        case Fold => fired := Some(OnFold);
        case Check => fired := Some(OnCheck);
        case Call => fired := Some(OnCall);
        case Raise => fired := HandleRaiseClick();
        case PresetMin => SetRaiseAmount(p.minimumRaise); fired := None;
        case PresetDouble => SetRaiseAmount(PresetAmount(p, 2)); fired := None;
        case PresetTriple => SetRaiseAmount(PresetAmount(p, 3)); fired := None;
        case PresetAllIn => SetRaiseAmount(MaxRaise(p)); fired := None;
        case Slide(v) => SetRaiseAmount(v); fired := None;
        case Cancel => showRaiseInput := false; fired := None;
        case ConfirmRaise =>
          fired := Some(OnRaise(raiseAmount));
          showRaiseInput := false;
      }
    }
  }
}
