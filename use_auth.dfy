/** The sign-in modal (`provideAuthModal` in src/composables/useAuth.ts): whether it
    is open, which form it shows and the message above the form, changed by
    `openLogin`, `openRegister` and `close`, together with the object it provides to
    the components below it. */
module AuthModal {

  import opened Common

  datatype Mode = Login | Register

  datatype ModalState = ModalState(isOpen: bool, mode: Mode, message: Option<string>)

  /** The refs' initial values: closed, on the login form, no message. */
  const Initial: ModalState := ModalState(false, Login, None)

  /** The three operations, as a caller invokes them. */
  datatype ModalAction = OpenLogin(msg: Option<string>) | OpenRegister(msg: Option<string>) | Close

  /** `openLogin(msg)` / `openRegister(msg)`: the form, the message as given (possibly
      undefined) and open, whatever the state was. */
  function Opened(mode: Mode, msg: Option<string>): (s: ModalState)
    ensures s.isOpen && s.mode == mode && s.message == msg
  {
    ModalState(true, mode, msg)
  }

  /** `close()`: closed and no message; the form stays the one last shown. */
  function Closed(s: ModalState): (r: ModalState)
    ensures !r.isOpen && r.message.None? && r.mode == s.mode
  {
    ModalState(false, s.mode, None)
  }

  function Apply(s: ModalState, a: ModalAction): ModalState {
    match a
    case OpenLogin(msg) => Opened(Login, msg)
    case OpenRegister(msg) => Opened(Register, msg)
    case Close => Closed(s)
  }

  /** The state after a series of calls, in order. */
  function Run(s: ModalState, actions: seq<ModalAction>): ModalState
    decreases |actions|
  {
    if actions == [] then s else Run(Apply(s, actions[0]), actions[1..])
  }

  /** The mode of the last open in the series, or `fallback` if there is none. */
  function LastMode(actions: seq<ModalAction>, fallback: Mode): (m: Mode)
    ensures actions != [] && actions[|actions| - 1].OpenLogin? ==> m == Login
    ensures actions != [] && actions[|actions| - 1].OpenRegister? ==> m == Register
    ensures (forall i :: 0 <= i < |actions| ==> actions[i].Close?) ==> m == fallback
  {
    if actions == [] then fallback
    else match actions[|actions| - 1]
      case OpenLogin(_) => Login
      case OpenRegister(_) => Register
      case Close => LastMode(actions[..|actions| - 1], fallback)
  }

  /** After any non-empty series of calls the modal is open exactly when the last call
      opened it, shows that call's message (none after a close), and shows the form of
      the last open, or the starting one when nothing opened it. */
  lemma {:induction false} LastCallDecides(s: ModalState, actions: seq<ModalAction>)
    requires actions != []
    decreases |actions|
    ensures var r := Run(s, actions);
            var last := actions[|actions| - 1];
            (r.isOpen <==> !last.Close?) &&
            (last.Close? ==> r.message.None?) &&
            (!last.Close? ==> r.message == last.msg) &&
            r.mode == LastMode(actions, s.mode)
  {
    if |actions| == 1 {
    } else {
      var t := Apply(s, actions[0]);
      LastCallDecides(t, actions[1..]);
      assert actions[1..][|actions| - 2] == actions[|actions| - 1];
      LastModeShift(s.mode, actions);
    }
  }

  /** Dropping the first call only matters to `LastMode` through the fallback it leaves. */
  lemma {:induction false} LastModeShift(fallback: Mode, actions: seq<ModalAction>)
    requires actions != []
    decreases |actions|
    ensures LastMode(actions[1..], Apply(ModalState(false, fallback, None), actions[0]).mode) == LastMode(actions, fallback)
  {
    if |actions| > 1 {
      var init := actions[..|actions| - 1];
      assert actions[1..][..|actions| - 2] == init[1..];
      assert init[0] == actions[0];
      LastModeShift(fallback, init);
    }
  }

  /** Running one more call after a series is applying it to the series' result. */
  lemma {:induction false} RunSnoc(s: ModalState, actions: seq<ModalAction>, a: ModalAction)
    decreases |actions|
    ensures Run(s, actions + [a]) == Apply(Run(s, actions), a)
  {
    if actions == [] {
      assert actions + [a] == [a];
      assert [a][1..] == [];
    } else {
      assert (actions + [a])[1..] == actions[1..] + [a];
      RunSnoc(Apply(s, actions[0]), actions[1..], a);
    }
  }

  class AuthModal {
    var isOpen: bool
    var mode: Mode
    var message: Option<string>
    /** The object handed to `provide`: its state fields are copies of the refs'
        values at the moment it was built. */
    const provided: ModalState

    /** The refs' current values, which is what the provided object is evidently
        meant to show. */
    function Current(): ModalState
      reads this
    {
      ModalState(isOpen, mode, message)
    }

    /** `provideAuthModal()`: the refs start closed, on the login form, without a
        message, and the provided object copies those values. */
    constructor ()
      ensures Current() == Initial && provided == Initial
    {
      isOpen := false;
      mode := Login;
      message := None;
      provided := ModalState(false, Login, None);
    }

    method OpenLogin(msg: Option<string>)
      modifies this
      ensures Current() == Opened(Login, msg)
    {
      mode := Login;
      message := msg;
      isOpen := true;
    }

    method OpenRegister(msg: Option<string>)
      modifies this
      ensures Current() == Opened(Register, msg)
    {
      mode := Register;
      message := msg;
      isOpen := true;
    }

    method Close()
      modifies this
      ensures Current() == Closed(old(Current()))
    {
      isOpen := false;
      message := None;
    }

    /** A series of calls, one after the other; the current values follow every
        call while the provided copy does not change. */
    method RunAll(actions: seq<ModalAction>)
      modifies this
      ensures Current() == Run(old(Current()), actions)
    {
      ghost var start := Current();
      for i := 0 to |actions|
        invariant Current() == Run(start, actions[..i])
      {
        RunSnoc(start, actions[..i], actions[i]);
        assert actions[..i + 1] == actions[..i] + [actions[i]];
        match actions[i]
        case OpenLogin(msg) => OpenLogin(msg);
        case OpenRegister(msg) => OpenRegister(msg);
        case Close => Close();
      }
      assert actions[..|actions|] == actions;
    }
  }

  /** The provided copy goes stale: after `openRegister("Sign up")` the modal is open on
      the register form, while the copy a component injects still says closed, login
      and no message. */
  method StaleSnapshotWitness() returns (copy: ModalState, live: ModalState)
    ensures copy == Initial
    ensures live == Opened(Register, Some("Sign up"))
    ensures copy != live
  {
    var modal := new AuthModal();
    modal.OpenRegister(Some("Sign up"));
    copy := modal.provided;
    live := modal.Current();
  }

  /** Read through the current values instead, a component sees the modal open after
      any series of calls that ends with an open, with that call's message. */
  method LiveViewWitness(actions: seq<ModalAction>) returns (live: ModalState)
    requires actions != []
    ensures live == Run(Initial, actions)
    ensures live.isOpen <==> !actions[|actions| - 1].Close?
    ensures !actions[|actions| - 1].Close? ==> live.message == actions[|actions| - 1].msg
  {
    var modal := new AuthModal();
    modal.RunAll(actions);
    live := modal.Current();
    LastCallDecides(Initial, actions);
  }
}
