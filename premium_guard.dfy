/** The ad gate in front of premium tools: a lock screen until the ad has been watched. */
module PremiumGuard {
  import opened Types
  import opened AdModal
  import Home
  import Language

  /** What the gate renders: the tool itself, or the lock screen with the ad modal open or not. */
  datatype View = Content | LockScreen(adOpen: bool)

  /** The render decision: an unlocked gate or a free tool shows the tool; otherwise the lock
      screen, with the modal following `showAd`. */
  function Render(isPremium: bool, isUnlocked: bool, showAd: bool): (v: View)
    ensures v == Content <==> isUnlocked || !isPremium
    ensures v.LockScreen? ==> v.adOpen == showAd
  {
    if isUnlocked then Content
    else if !isPremium then Content
    else LockScreen(showAd)
  }

  /** A free tool shows its content whatever the two flags are; a premium tool shows it exactly
      when unlocked. */
  lemma RenderCases(isUnlocked: bool, showAd: bool)
    ensures Render(false, isUnlocked, showAd) == Content
    ensures Render(true, isUnlocked, showAd) == Content <==> isUnlocked
  {
  }

  /** The lock screen names the tool with the same translate-or-own-name expression as the home
      search, so, like the search, it shows the same text for every tool. */
  lemma LockScreenNameIgnoresTool(dict: map<string, string>, a: Tool, b: Tool)
    ensures Home.AsWrittenName(dict, a) == Home.AsWrittenName(dict, b)
    ensures Home.AsWrittenName(dict, a) != a.name || a.name == Language.T(dict, Home.NameKey)
  {
    Language.TNonEmpty(dict, Home.NameKey);
  }

  class PremiumGuard {
    const tool: Tool
    const ad: AdModal
    var isUnlocked: bool
    var showAd: bool

    /** The modal is open exactly when the gate asks for it. */
    ghost predicate Valid()
      reads this, ad
    {
      ad.Valid() && ad.isOpen == showAd
    }

    /** What the gate shows now: the tool exactly when it is unlocked or free, otherwise the lock
        screen with the modal open as `showAd` says. */
    function View(): (v: View)
      reads this
      ensures v == Content <==> isUnlocked || !tool.isPremium
      ensures v.LockScreen? ==> v.adOpen == showAd
    {
      Render(tool.isPremium, isUnlocked, showAd)
    }

    /** A fresh gate is locked with the ad hidden. */
    constructor (t: Tool)
      ensures tool == t && !isUnlocked && !showAd
      ensures fresh(ad) && Valid()
      ensures t.isPremium ==> View() == LockScreen(false)
    {
      tool := t;
      isUnlocked := false;
      showAd := false;
      ad := new AdModal(false);
    }

    /** The watch button of the lock screen opens the ad and unlocks nothing. */
    method WatchAd()
      requires Valid() && View().LockScreen?
      modifies this`showAd, ad
      ensures Valid() && showAd && isUnlocked == old(isUnlocked)
      ensures View() == LockScreen(true)
      ensures ad.isOpen
      ensures !old(showAd) ==> ad.Clock() == Countdown(AdSeconds, false, true)
      ensures old(showAd) ==> ad.Clock() == old(ad.Clock())
    {
      showAd := true;
      ad.SetOpen(true);
    }

    /** The modal's cancel button: the ad closes, the gate stays as locked as it was. */
    method CloseAd()
      requires Valid()
      modifies this`showAd, ad
      ensures Valid() && !showAd && isUnlocked == old(isUnlocked)
      ensures !ad.isOpen && ad.Clock() == Reset
    {
      showAd := false;
      ad.SetOpen(false);
    }

    /** A second of the ad. */
    method AdTick()
      requires Valid() && ad.timerActive
      modifies ad`timeLeft, ad`canSkip, ad`timerActive
      ensures Valid() && ad.Clock() == TickOf(old(ad.Clock()))
    {
      ad.Tick();
    }

    /** `handleAdComplete`, reachable only through the modal's complete button, which is enabled
        only once the countdown allows it: the ad closes and the gate unlocks for good. */
    method CompleteAd()
      requires Valid() && ad.isOpen && ad.CompleteEnabled()
      modifies this`showAd, this`isUnlocked, ad
      ensures Valid() && !showAd && isUnlocked
      ensures View() == Content
      ensures !ad.isOpen && ad.Clock() == Reset
    {
      showAd := false;
      isUnlocked := true;
      ad.SetOpen(false);
    }
  }
}
