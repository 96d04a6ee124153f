/**
 * The phone simulator (src/components/MobileSimulator.tsx): two apps with
 * their lists of screens, a periodic tick that cycles through the current
 * app's screens, an app switch that shows a loading state and then opens
 * the new app at its first screen, and indicator dots that jump to a screen.
 *
 * The interval and the switch's 800 ms wait are steps: `Tick` is one firing
 * of the interval; `BeginSwitch` is the part of `switchApp` before its
 * `await`, `FinishSwitch` the part after. Waits started earlier end
 * earlier, so the switches under way form a queue.
 */
module Simulator {

  datatype App = NammaYatri | MuscleFit

  /** An `AppScreen`; its JSX is left out. */
  datatype Screen = Screen(id: string, name: string)

  const NammaYatriScreens: seq<Screen> := [Screen("home", "Home"), Screen("subscription", "Subscription")]

  const MuscleFitScreens: seq<Screen> := [Screen("home", "Home")]

  /** `currentScreens`: the screen list of the app shown. */
  function Screens(app: App): (r: seq<Screen>)
    ensures |r| >= 1
    ensures app == NammaYatri ==> |r| == 2
    ensures app == MuscleFit ==> |r| == 1
  {
    if app == NammaYatri then NammaYatriScreens else MuscleFitScreens
  }

  /** One firing of the interval: the next screen, wrapping after the last. */
  function NextScreen(screen: nat, count: nat): (r: nat)
    requires count > 0
    ensures r < count
    ensures screen + 1 < count ==> r == screen + 1
    ensures screen + 1 == count ==> r == 0
  {
    (screen + 1) % count
  }

  /** `k` firings of the interval. */
  function Ticks(k: nat, screen: nat, count: nat): (r: nat)
    requires count > 0
    ensures k > 0 || screen < count ==> r < count
  {
    if k == 0 then screen else NextScreen(Ticks(k - 1, screen, count), count)
  }

  /** Up to one full round, `k` firings advance the screen by `k`, wrapping round once. */
  lemma {:induction false} TicksAdvance(k: nat, screen: nat, count: nat)
    requires screen < count && k <= count
    ensures screen + k < count ==> Ticks(k, screen, count) == screen + k
    ensures screen + k >= count ==> Ticks(k, screen, count) == screen + k - count
  {
    if k > 0 {
      TicksAdvance(k - 1, screen, count);
    }
  }

  /** A full round of firings, one per screen, comes back to the screen it started from. */
  lemma FullRound(screen: nat, count: nat)
    requires screen < count
    ensures Ticks(count, screen, count) == screen
  {
    TicksAdvance(count, screen, count);
  }

  /**
   * NammaYatri's two screens alternate; MuscleFit's single screen stays.
   * The counts are written as the literals 2 and 1, the lengths `Screens`
   * ensures for the two apps, so that the proof need not unfold the screen lists.
   */
  lemma TickCycles(screen: nat)
    requires screen < 2
    ensures Ticks(2, screen, 2) == screen
    ensures NextScreen(0, 1) == 0
  {
    FullRound(screen, 2);
  }

  /** The simulator's state, and the switches waiting for their delay to end. */
  class Phone {
    var currentApp: App
    var currentScreen: nat
    var isLoading: bool
    /** The apps of the `switchApp` calls whose wait has not ended, oldest first. */
    var pending: seq<App>

    /** The screen shown is one of the current app's. */
    ghost predicate Valid()
      reads this
    {
      currentScreen < |Screens(currentApp)|
    }

    /** The first render: NammaYatri at its first screen, nothing loading. */
    constructor ()
      ensures Valid()
      ensures currentApp == NammaYatri && currentScreen == 0 && !isLoading && pending == []
    {
      currentApp := NammaYatri;
      currentScreen := 0;
      isLoading := false;
      pending := [];
    }

    /** One firing of the interval. */
    method Tick()
      requires Valid()
      modifies this
      ensures Valid()
      ensures currentScreen == NextScreen(old(currentScreen), |Screens(currentApp)|)
      ensures currentApp == old(currentApp) && isLoading == old(isLoading) && pending == old(pending)
    {
      currentScreen := (currentScreen + 1) % |Screens(currentApp)|;
    }

    /** `switchApp` up to its `await`: loading starts and the wait begins. */
    method BeginSwitch(app: App)
      requires Valid()
      modifies this
      ensures Valid() && isLoading && pending == old(pending) + [app]
      ensures currentApp == old(currentApp) && currentScreen == old(currentScreen)
    {
      isLoading := true;
      pending := pending + [app];
    }

    /** The oldest wait ends: its app opens at the first screen and loading stops. */
    method FinishSwitch()
      requires Valid() && pending != []
      modifies this
      ensures Valid()
      ensures currentApp == old(pending[0]) && currentScreen == 0 && !isLoading
      ensures pending == old(pending[1..])
    {
      currentApp := pending[0];
      currentScreen := 0;
      isLoading := false;
      pending := pending[1..];
    }

    /** A click on indicator dot `index`, one of the current app's screens. */
    method ShowScreen(index: nat)
      requires Valid() && index < |Screens(currentApp)|
      modifies this
      ensures Valid() && currentScreen == index
      ensures currentApp == old(currentApp) && isLoading == old(isLoading) && pending == old(pending)
    {
      currentScreen := index;
    }
  }

  /**
   * A whole `switchApp` with no other switch under way: loading while the
   * wait lasts, then the app at its first screen, even if it was already shown.
   * That `isLoading` holds until the last step is stated by the ensures of
   * `BeginSwitch`, `Tick` and `ShowScreen`.
   */
  method SwitchApp(phone: Phone, app: App)
    requires phone.Valid() && phone.pending == []
    modifies phone
    ensures phone.Valid() && phone.pending == []
    ensures phone.currentApp == app && phone.currentScreen == 0 && !phone.isLoading
  {
    phone.BeginSwitch(app);
    phone.FinishSwitch();
  }
}
